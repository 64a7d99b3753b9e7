# CHATBOT_FINANZAS — a verified model of the retrieval pipeline

CHATBOT_FINANZAS answers accounting questions about the Spanish General Accounting Plan
(the 1990 plan and the current one) by retrieval-augmented generation. This project models
its core in Dafny and proves properties of the model:

- **Offline preparation** (`desarrollo/2_*`, `desarrollo/3_*`). PDF pages are cleaned line
  by line, joined and cut into parent documents, either at section-number splits or at
  title matches. Each parent is then split into child chunks, and each chunk gets a
  model-written context sentence (modules `Text`, `Segmentation`, `Contextualize`).
- **Indexing** (`ingest.py`, `desarrollo/4_index_data.py`). The contextualized chunks go to
  a BM25 corpus and to a Qdrant collection, in batches of 64 points whose ids are the chunk
  positions (module `Indexing`, with the collection as a class).
- **Answering** (`graph/*`, `main.py`). A question is answered in four steps:
  - vector hits and a filtered BM25 top-20 are merged into an insertion-ordered dict;
  - a cross-encoder keeps the best five;
  - the model answers, or a fixed apology is given when nothing is left;
  - the `/chat` endpoint keeps one checkpoint per conversation.

  The modules are `Ranking`, `Merge`, `State`, `Nodes`, `Graph` and `Chat`.
- **The older single-pass chain** (`desarrollo/5_rag_chain.py`). It merges vector and BM25
  top-5 candidates and keeps the five best by stored score. The model answers once along
  the line `retrieve -> generate -> END` (module `RagChain`).

Every outside service is a function parameter, and `None` from it stands for the exception
the service raises. This covers the language model, embeddings, Qdrant search, BM25 scoring,
the cross-encoder, JSON parsing, the regex passes and the text splitter. Scores are `real`s
and are only compared. Python's stable `sort(key=..., reverse=True)` is `Ranking.StableOrder`,
which is proved to be the unique stable descending order.

Where the code and its documentation disagree, the model follows the code:

- A routing label outside `legacy`/`actual`/`both` is passed on unchanged and then fails
  the `source_map` lookup (graph/nodes.py:28, 46). It is not replaced by `actual`.
- The answer prompt holds only the last question and the documents (graph/nodes.py:108-123).
  It does not hold the conversation history.
- `RagConversationalState` has no `datasource` field (graph/state.py:7-9), and the
  sequential graph has no routing node. So `retrieve_documents` as written raises on
  `state['datasource']` (graph/nodes.py:36). The model takes the label as
  `Graph.Env.datasource`. `Graph.InvokeWithoutDatasourceFails` and
  `Chat.ChatTurnWithoutDatasourceFails` prove that without a label every run fails.

The graph modules are also wired to names that their imports do not provide. The model
takes what each name evidently stands for, and these points stay open in the code:

- graph/nodes.py:6 imports `RagGraphState`, but graph/state.py:7 defines only
  `RagConversationalState`. The model uses that one state record (`State.RagState`).
- graph/nodes.py:7 imports `all_chunks_data`, `llm_router` and `llm_generator` from
  `graph.config`. graph/config.py:48 exports only `bm25_index`, `bm25_corpus`,
  `qdrant_client`, `ollama_embeddings`, `llm` and `reranker`, and `all_chunks_data` is a
  local of `load_resources` (graph/config.py:32). The model takes the chunk list and both
  models as parameters (`Graph.Env.chunks`, `Nodes.Services`).
- The Qdrant filter compares the chunk `source` with the mapped label (`PGC_1990` or
  `PGC_actual`, graph/nodes.py:46-47). The BM25 filter compares it with the raw label
  (`legacy` or `actual`, graph/nodes.py:62). So the two searches select by different
  values for the same turn. `Nodes.VectorFilter` and `Nodes.KeepBySource` keep both
  comparisons as written.
- No writer of the chunk records stores a `source` key. Neither the contextualizer
  (desarrollo/3_create_contextual_chunks.py:109-114) nor the Qdrant payload
  (ingest.py:97-101) has one. So a turn routed to `legacy` or `actual`, with any BM25
  score, reads a missing `source` and fails with `Nodes.MissingSourceField`, which is
  what `Nodes.KeepBySource` states.

## Model

| member | source | states |
|---|---|---|
| Text.TrimStartSpec | desarrollo/2_clean_and_segment.py:59 | the left strip is a suffix of its input, drops only whitespace and starts with a non-space |
| Text.TrimEndSpec | desarrollo/2_clean_and_segment.py:59 | the right strip is a prefix of its input, drops only whitespace and ends with a non-space |
| Text.Strip | desarrollo/2_clean_and_segment.py:59 | `str.strip()` leaves no whitespace at either end |
| Text.StripSpec | desarrollo/2_clean_and_segment.py:59 | `str.strip()` is the slice of the input between the first and last non-space characters; everything cut off is whitespace |
| Text.StripStripped | desarrollo/2_clean_and_segment.py:62 | stripping an already stripped string changes nothing |
| Text.SplitOn | desarrollo/2_clean_and_segment.py:58 | `split('\n')` gives at least one piece and no piece holds the separator |
| Text.JoinSplitOn | desarrollo/2_clean_and_segment.py:58-60 | joining the pieces of a split with the same separator gives back the string |
| Text.SplitOnJoin | desarrollo/2_clean_and_segment.py:58-60 | splitting a join of separator-free pieces gives back the pieces |
| Text.SplitOnFree | desarrollo/2_clean_and_segment.py:58 | a string without the separator splits into itself |
| Text.SplitOnPrefix | desarrollo/2_clean_and_segment.py:58 | a split begins with the separator-free prefix up to the first separator |
| Text.JoinLinesHead | desarrollo/2_clean_and_segment.py:60 | a newline join of stripped lines starts with a newline or a non-space |
| Text.JoinLinesStripped | desarrollo/2_clean_and_segment.py:58-60 | after the line-trim pass no line has whitespace at its ends |
| Text.LinesStrippedSlice | desarrollo/2_clean_and_segment.py:60-62 | the final `strip()` keeps every line stripped |
| Text.LinesStrippedPieces | desarrollo/2_clean_and_segment.py:60-62 | splitting a text with stripped lines again yields stripped lines after the first |
| Text.StrippedLines | desarrollo/2_clean_and_segment.py:58-62 | every line of the cleaned text, and the text itself, has no whitespace at its ends |
| Segmentation.CleanPageText | desarrollo/2_clean_and_segment.py:29-62 | the cleaned page is stripped and each of its lines is stripped, whatever the regex passes did; the same code is at `desarrollo/2_clean_and_segment_v2.py:26-34`, `desarrollo/3_create_contextual_chunks.py:23-31`, `desarrollo/3_create_contextual_chunks_v2.py:23-31` |
| Segmentation.CleanPageTextIdempotent | desarrollo/2_clean_and_segment.py:58-62 | when the regex passes fix a cleaned page, cleaning it again changes nothing |
| Segmentation.Contents | desarrollo/2_clean_and_segment.py:75 | the list of `page_content` values, page by page |
| Segmentation.ParentsOfParts | desarrollo/2_clean_and_segment.py:81-95 | the `while i < len(split_parts)` loop and the first-chunk rule compute `PartsParents`, including its `IndexError`; the same code is at `desarrollo/3_create_contextual_chunks.py:39-48` |
| Segmentation.PairParentsSpec | desarrollo/2_clean_and_segment.py:82-86 | after `k` rounds the loop holds `k` parents, the `a`-th being `strip(parts[2a+1] + parts[2a+2])` |
| Segmentation.PartsParentsSpec | desarrollo/2_clean_and_segment.py:81-95 | succeeds iff the number of parts is odd; then gives one parent per label/body pair in order, preceded by the stripped first part exactly when it is longer than 100 characters; the same code is at `desarrollo/3_create_contextual_chunks.py:39-48` |
| Segmentation.PartsParentsStripped | desarrollo/2_clean_and_segment.py:85-91 | every parent document is stripped |
| Segmentation.SegmentByParts | desarrollo/2_clean_and_segment.py:65-101 | every page is replaced by its cleaned text, and the result is `PartsParents` of the split of the newline-joined pages; the same code is at `desarrollo/3_create_contextual_chunks.py:33-49` |
| Segmentation.PySlice | desarrollo/2_clean_and_segment_v2.py:81 | Python slicing: the ordinary slice when the bounds are in range, never longer than the text |
| Segmentation.PyFrom | desarrollo/2_clean_and_segment_v2.py:43 | the start index of `documents[start_page:]`, with negative and too-large starts clamped as Python does |
| Segmentation.ParentsOfMatches | desarrollo/2_clean_and_segment_v2.py:76-85 | the `for i in range(len(matches))` loop computes `MatchParents`; the same code is at `desarrollo/3_create_contextual_chunks_v2.py:57-62` |
| Segmentation.KeepLong | desarrollo/2_clean_and_segment_v2.py:84-85 | the sections longer than 200 characters; stated by `Segmentation.KeepLongAt` and `Segmentation.KeepLongConcat` |
| Segmentation.KeepLongSpec | desarrollo/2_clean_and_segment_v2.py:84-85 | the kept texts are sections longer than 200 characters, at most one per section, and no such section is dropped |
| Segmentation.KeepLongAt | desarrollo/2_clean_and_segment_v2.py:76-85 | the `a`-th kept text is the section at the `a`-th long position; the positions increase and include every long one, so order and multiplicity are those of the sections |
| Segmentation.KeepLongConcat | desarrollo/2_clean_and_segment_v2.py:76-85 | filtering a concatenation is filtering each part, so the filter works section by section in order |
| Segmentation.KeepLongSingle | desarrollo/2_clean_and_segment_v2.py:84-85 | one section is kept exactly when it is longer than 200 characters |
| Segmentation.MatchParents | desarrollo/2_clean_and_segment_v2.py:71-85 | no parents without a match, otherwise the filtered sections; stated by `Segmentation.MatchParentsSpec` |
| Segmentation.MatchParentsSpec | desarrollo/2_clean_and_segment_v2.py:76-85 | in increasing match-position order, the `a`-th parent is the stripped section at the `a`-th long position; at most one parent per match; no section longer than 200 characters is dropped; the same code is at `desarrollo/3_create_contextual_chunks_v2.py:57-62` |
| Segmentation.NoMatchesNoParents | desarrollo/2_clean_and_segment_v2.py:71-73 | with no title match there are no parent documents; the same code is at `desarrollo/3_create_contextual_chunks_v2.py:55` |
| Segmentation.SectionsTile | desarrollo/2_clean_and_segment_v2.py:77-81 | for increasing match starts the sections, before stripping, tile the text from the first match to its end |
| Segmentation.SegmentByMatches | desarrollo/2_clean_and_segment_v2.py:37-88 | pages before `start_page` are untouched, the later ones are cleaned, and the result is `MatchParents` of their join; the same code is at `desarrollo/3_create_contextual_chunks_v2.py:33-65` |
| Segmentation.CleanPagesFrom | desarrollo/2_clean_and_segment_v2.py:45-46 | the loop over `content_docs` cleans every page from the start index on and nothing before it; the same code is at `desarrollo/3_create_contextual_chunks_v2.py:35-36` |
| Contextualize.Contextualized | desarrollo/3_create_contextual_chunks.py:90-121 | the records of all parents, ordered by parent and within a parent by child; stated by `Contextualize.RecordsOrderedByParent`, `Contextualize.RecordsOfParent` with `Contextualize.ChildRecordsAt`, `Contextualize.RecordsWellFormed` and the count lemmas |
| Contextualize.CreateAndContextualizeChunks | desarrollo/3_create_contextual_chunks.py:76-121 | the two nested loops compute `Contextualized`, so every property below holds of the returned list; the same code is at `desarrollo/3_create_contextual_chunks_v2.py:80-107` |
| Contextualize.ChildRecordsShape | desarrollo/3_create_contextual_chunks.py:98-118 | one parent yields at most one record per child chunk, all with that parent's index |
| Contextualize.ChildRecordsWellFormed | desarrollo/3_create_contextual_chunks.py:98-114 | each record of a parent: its chunk is a child of the parent, the model answered, the context is the stripped reply, and the contextualized chunk is context + blank line + chunk |
| Contextualize.RecordsWellFormed | desarrollo/3_create_contextual_chunks.py:93-114 | the same for the whole list, with the parent index in range and the chunk a child of that parent; the same code is at `desarrollo/3_create_contextual_chunks_v2.py:87-101` |
| Contextualize.RecordsBelow | desarrollo/3_create_contextual_chunks.py:93-110 | every record's parent index is below the number of parents processed |
| Contextualize.RecordsOrderedByParent | desarrollo/3_create_contextual_chunks.py:93-114 | the records are grouped by parent, in parent order |
| Contextualize.RecordsOfParent | desarrollo/3_create_contextual_chunks.py:93-118 | the records of parent `i` are exactly those its inner loop produced, so with `Contextualize.ChildRecordsAt` they follow child order |
| Contextualize.ChildRecordsAt | desarrollo/3_create_contextual_chunks.py:98-114 | in one parent, the `a`-th record is made from the child at the `a`-th successful position with that child's stripped reply; the positions increase and include every child whose call succeeds, so records follow child order, once each |
| Contextualize.OfParentConcat | desarrollo/3_create_contextual_chunks.py:109 | selecting one parent's records distributes over appends |
| Contextualize.RecordCount | desarrollo/3_create_contextual_chunks.py:98-118 | there are never more records than child chunks |
| Contextualize.RecordCountWithoutFailures | desarrollo/3_create_contextual_chunks.py:98-114 | when no model call fails there is exactly one record per child chunk |
| Contextualize.SucceededChildKept | desarrollo/3_create_contextual_chunks.py:100-114 | every child chunk whose model call succeeds has its record in the output |
| Contextualize.ChildKept | desarrollo/3_create_contextual_chunks.py:98-114 | the same within one parent |
| Indexing.Collection.TryRecreate | desarrollo/4_index_data.py:77-85 | the collection is recreated empty, or left unchanged when the server refuses |
| Indexing.Collection.Upsert | ingest.py:105-109 | the batch's points are stored by id over the existing ones and the upload is recorded |
| Indexing.IndexInQdrant | ingest.py:75-110 | after recreating, the uploads are the 64-chunk batches in order, and point `k` is chunk `k` with its embedding and payload, for exactly the chunk positions |
| Indexing.IndexData | desarrollo/4_index_data.py:69-125 | a refused recreation returns with nothing uploaded; otherwise as for `IndexInQdrant` |
| Indexing.StoreConcat | ingest.py:105-109 | upserting two lists in turn is upserting their concatenation |
| Indexing.StoreAllFlatten | ingest.py:86-109 | the sequence of upserts stores the concatenated batches |
| Indexing.BatchPointsAreSlice | ingest.py:86-103 | batch `i` holds the points for `chunks[i:i+64]` with ids `i+j` |
| Indexing.UploadsCover | ingest.py:86-109 | the batches from offset `i` together are exactly the points from chunk `i` on |
| Indexing.UploadsShape | ingest.py:84-90 | there are `ceil(n/64)` batches, none empty, every one but the last holding 64 points |
| Indexing.StoreSequential | ingest.py:93-109 | upserting points with consecutive ids sets exactly those ids and keeps every other one |
| Indexing.UploadsIndexAsPositions | ingest.py:84-109 | from an empty collection, the uploads store point `k` for chunk `k` and no other id |
| Indexing.IndexedCount | ingest.py:93-109 | the collection then holds exactly one point per chunk |
| Indexing.TokenizedCorpusSpec | ingest.py:68-69 | each tokenized document joins back with spaces to its corpus entry and no token holds a space; the same code is at `desarrollo/4_index_data.py:56-59` |
| Indexing.PointMatchesCorpus | ingest.py:93-101 | point `k` built from the contextualized chunks carries the embedding and the payload text of corpus entry `k` |
| Indexing.CheckIfDataExists | ingest.py:27-42 | a missing collection or a `None` count gives `False`, otherwise whether the reported count is positive; stated over the collection by `Indexing.CheckIfDataExistsSpec` |
| Indexing.CheckIfDataExistsSpec | ingest.py:27-42 | "has data" iff the collection exists and the server reports a positive count; with an exact count, iff it exists and holds a point |
| Indexing.Corpus | ingest.py:68 | the contextualized chunk texts, one per chunk, in chunk order; `Indexing.PointMatchesCorpus` ties them to the points |
| Indexing.TokenizedCorpus | ingest.py:69 | each corpus entry split on single spaces; stated by `Indexing.TokenizedCorpusSpec` |
| Indexing.PayloadText | desarrollo/5_rag_chain.py:91 | a hit's text is context, blank line, chunk; `Indexing.PointMatchesCorpus` shows it is the corpus entry of that point |
| Indexing.Ingest | ingest.py:112-140 | exit 1 iff Qdrant is unavailable; skip iff data exists; nothing to do iff no chunks; otherwise both indexes are built, and nothing changes in the other cases |
| Indexing.IngestIdempotent | ingest.py:122-124 | over a collection built by ingestion the next ingestion skips iff the server reports a positive count, so always with the exact count |
| Indexing.LoadChunks | desarrollo/4_index_data.py:36-49 | a missing or malformed file gives the empty list |
| Indexing.IndexDataMain | desarrollo/4_index_data.py:128-144 | both indexes are built only from a non-empty chunk list |
| Ranking.StableOrderOf | graph/nodes.py:66 | the stable descending sort lists each position once, by non-increasing key, ties in position order |
| Ranking.OrderedUnique | graph/nodes.py:66 | two ordered permutations of the same positions are equal |
| Ranking.StableOrderIsTheStableSort | graph/nodes.py:66 | any permutation of the positions in stable descending order is the one the model computes |
| Ranking.Take | graph/nodes.py:67 | `s[:k]` is the prefix of length `min(k, len(s))` |
| Ranking.TopPositionsSpec | desarrollo/5_rag_chain.py:84 | the top-`k` cut holds `min(k, n)` distinct positions by non-increasing key, and no left-out position comes before a kept one |
| Ranking.TopByScore | graph/nodes.py:97-100 | each kept item sits at a top position of the scores cut to the shorter input, as `zip` does |
| Merge.Dedup | graph/nodes.py:69-80 | the dict's keys: no more than the inputs, the same elements, no duplicates |
| Merge.DedupFirstOccurrenceOrder | graph/nodes.py:80 | the keys appear in the order of their first insertion |
| Merge.DedupPrefix | graph/nodes.py:69-77 | the vector-hit texts come first; every later key is a BM25 text not already present |
| Merge.AssignAll | graph/nodes.py:70-72 | the first loop leaves each vector text once, holding its last hit score |
| Merge.AssignMissing | graph/nodes.py:74-77 | the second loop adds only missing texts, with their first BM25 score, and keeps every existing key and score |
| Merge.MergeCandidates | graph/nodes.py:69-77 | the dict's keys are the distinct texts, vector first, and every score is `MergedScore`: the vector score wins; the same code is at `desarrollo/5_rag_chain.py:87-98` |
| State.Apply | graph/state.py:7-9 | a node update appends its messages after the unchanged history and replaces `documents` only when it returns them |
| State.ApplyAllAppends | graph/state.py:7-9 | over a run of updates the history only grows at its end, and `documents` is the last value set |
| Nodes.LastQuestion | graph/nodes.py:13 | reading `state["messages"][-1]` succeeds iff the history is non-empty and gives the last content |
| Nodes.RouteQuestion | graph/nodes.py:10-33 | an empty history fails; a routing label exists only when the model answered the last question's prompt |
| Nodes.RouteQuestionOutcome | graph/nodes.py:25-30 | an unparsable reply, a non-object reply or a missing key gives `actual`; otherwise the `datasource` value unchanged |
| Nodes.RouteQuestionReadsLastMessage | graph/nodes.py:13-26 | the routing decision depends only on the last message |
| Nodes.UnknownLabelPassesRouter | graph/nodes.py:28-47 | an unknown label passes the router and then fails the `source_map` lookup |
| Nodes.VectorFilter | graph/nodes.py:44-47 | no filter for `both`, the mapped source for `legacy`/`actual`, and an error for any other label |
| Nodes.KeepBySource | graph/nodes.py:61-62 | keeps, in order, exactly the indices whose chunk `source` equals the label; fails iff an index has no chunk or no `source` |
| Nodes.FilteredCandidates | graph/nodes.py:59-64 | the candidates are increasing indices of the score list |
| Nodes.TopLexicalSpec | graph/nodes.py:66-67 | at most 20 candidates by non-increasing BM25 score, ties by index, and no left-out candidate ranks above a kept one |
| Nodes.TopLexicalAt | graph/nodes.py:66-67 | the candidates kept are those at the positions the stable sort and the cut keep |
| Nodes.TopLexicalBest | graph/nodes.py:66-67 | no left-out candidate scores above a kept one, or ties with it at a smaller index |
| Nodes.HitEntries | graph/nodes.py:70-72 | one entry per hit with the hit's chunk text and score; fails iff a hit id has no chunk |
| Nodes.CorpusEntries | graph/nodes.py:74-77 | one entry per top index with its corpus text and BM25 score; fails iff an index is past the corpus |
| Nodes.RetrievalCandidates | graph/nodes.py:35-77 | success needs a known label and a search result; the vector entries are the chunk texts of the hits in hit order, and the lexical ones the corpus entries of the filtered BM25 top-20 (`TopLexical`), at most 20 |
| Nodes.Retrieve | graph/nodes.py:36-39 | without a routing label the node fails |
| Nodes.RetrieveDocuments | graph/nodes.py:69-82 | the dict loops return `Retrieve`'s documents |
| Nodes.RetrieveShape | graph/nodes.py:69-80 | no duplicates; vector texts first in hit order, then BM25-only texts; nothing else; at most hits + 20 |
| Nodes.Rerank | graph/nodes.py:92-93 | no documents gives no documents |
| Nodes.RerankEmptyIgnoresModel | graph/nodes.py:92-93 | with no documents the cross-encoder is not consulted |
| Nodes.RerankSpec | graph/nodes.py:95-100 | `min(5, n)` input documents at distinct positions, by non-increasing score with ties in input order; no left-out document beats a kept one |
| Nodes.GenerateAnswer | graph/nodes.py:106-127 | succeeds iff the history is non-empty and the model answers the prompt of the joined documents and last question; returns that single `AIMessage` |
| Nodes.GenerateAnswerReadsLastMessage | graph/nodes.py:108-123 | the answer ignores everything in the history before the last message |
| Nodes.HandleNoDocuments | graph/nodes.py:131-136 | the node's single `AIMessage` is the fixed apology; what a run then ends with is stated by `Graph.InvokeOutcome` |
| Nodes.QueryScores | graph/nodes.py:57-58 | the BM25 scores of the lower-cased query split on single spaces; used by `Nodes.RetrievalCandidates` |
| Nodes.DocumentsExist | graph/nodes.py:139-140 | `continue` iff there are documents |
| Graph.RerankSuccessorAsWrittenUndefined | graph/builder.py:19-26 | as written, no label of the guard is a key of the path map |
| Graph.RerankTarget | graph/builder.py:19-26 | the corrected path map sends `continue` to `generate` and the other label to `handle_no_documents` |
| Graph.Successor | graph/builder.py:17-28 | every edge moves closer to END |
| Graph.SuccessorSpec | graph/builder.py:17-28 | `retrieve -> rerank`, `rerank -> generate` iff there are documents else `handle_no_documents`, both of those to END |
| Graph.Execute | graph/builder.py:12-28 | the compiled graph run: a run never shortens or rewrites the history and visits at most `Rank(n)` nodes; its whole course is stated by `Graph.InvokeRun` and `Graph.InvokeOutcome` |
| Graph.Invoke | graph/builder.py:17 | `graph.invoke` starts at the entry point `retrieve`; its outcome is stated by `Graph.InvokeOutcome` |
| Graph.InvokeRun | graph/builder.py:12-28 | a successful run is `retrieve`, `rerank`, then one final node chosen on the reranked state |
| Graph.InvokeOutcome | graph/builder.py:12-28 | three nodes visited, `generate` iff documents remain; the history grows by exactly one answer, the model's or the apology |
| Graph.InvokeWithoutDatasourceFails | graph/nodes.py:36-39 | without a routing label every run fails |
| Chat.ConversationId | main.py:41 | a supplied non-empty id is kept; otherwise the fresh id is used |
| Chat.Checkpoint | main.py:44-50 | a thread resumes from its saved state, a new thread from the empty state; `Chat.ChatTurnHistory` states the history it then has |
| Chat.TurnInput | main.py:47 | the graph input is one `HumanMessage` with the user input; `Chat.ChatTurnHistory` states that exactly it is appended |
| Chat.ResponseText | main.py:54-59 | `content` of an `AIMessage`, `str(...)` otherwise; `Chat.ChatTurnIgnoresRender` proves the fallback unused |
| Chat.ChatTurn | main.py:35-65 | a successful turn answers under the chosen conversation id |
| Chat.ChatTurnSessions | main.py:44-50 | the turn checkpoints its own thread and leaves every other thread unchanged |
| Chat.ChatTurnHistory | main.py:47-56 | the thread grows by the user's message and the answer returned: the apology, or the model's reply to this turn's input |
| Chat.TurnAnswer | main.py:50-56 | the run appends exactly one `AIMessage` to the turn's input |
| Chat.ChatTurnIgnoresRender | main.py:54-59 | the `str(last_message)` fallback is never used |
| Chat.ChatTurnWithoutDatasourceFails | main.py:47-50 | as the state is written, every `/chat` turn fails |
| RagChain.HitEntries | desarrollo/5_rag_chain.py:89-92 | one entry per hit: context + blank line + chunk, with the hit score |
| RagChain.LexicalEntries | desarrollo/5_rag_chain.py:95-98 | one entry per BM25 index with its corpus text and score; fails at an index past the corpus |
| RagChain.LexicalTop | desarrollo/5_rag_chain.py:82-84 | the BM25 top-5 positions are positions of the score list; `Ranking.TopPositionsSpec` states their order |
| RagChain.RetrievalCandidates | desarrollo/5_rag_chain.py:67-98 | succeeds iff the search answers and every top-5 index is inside the corpus (`SearchFailed` without a search result); the vector entries are the hits' and the lexical ones are the corpus entries at the stable top-5 BM25 positions, with their scores |
| RagChain.MergedKeysFromCandidates | desarrollo/5_rag_chain.py:87-98 | every dict key comes from a vector hit or a BM25 entry |
| RagChain.RetrieveDocuments | desarrollo/5_rag_chain.py:62-107 | the dict loops, the score sort and the cut return `Retrieve`'s documents |
| RagChain.Ranked | desarrollo/5_rag_chain.py:100-104 | the sort of the dict items by score and the cut to five; stated by `RagChain.RankedSpec`, `RagChain.RankedAt`, `RagChain.RankedByScore` and `RagChain.RankedTiesInDictOrder` |
| RagChain.Retrieve | desarrollo/5_rag_chain.py:62-107 | the retrieval node's documents: its failures are those of `RetrievalCandidates`, its documents `Ranked` of the candidates; computed by `RagChain.RetrieveDocuments` |
| RagChain.RankedSpec | desarrollo/5_rag_chain.py:100-104 | `min(5, number of merged texts)` distinct documents, each a vector hit or a BM25 entry |
| RagChain.RankedAt | desarrollo/5_rag_chain.py:100-104 | the returned documents are the dict keys at the positions the sort and the cut keep |
| RagChain.RankedByScore | desarrollo/5_rag_chain.py:100-104 | documents come by non-increasing stored score (`StoredScore`: the vector score of a vector hit, else the first BM25 score), and no merged text left out scores above a kept one |
| RagChain.RankedTiesInDictOrder | desarrollo/5_rag_chain.py:101 | equal scores keep dict insertion order |
| RagChain.RankedFillsLimit | desarrollo/5_rag_chain.py:104 | with five or more merged texts exactly five are returned |
| RagChain.SharedTextMergedOnce | desarrollo/5_rag_chain.py:94-98 | a text both searches found is a key once and carries the vector score |
| RagChain.HitMatchesCorpusEntry | desarrollo/5_rag_chain.py:91-96 | a hit on the point indexed for chunk `k` has the text of corpus entry `k`, so deduplication matches across the two searches |
| RagChain.NothingFound | desarrollo/5_rag_chain.py:62-150 | with no hits and no corpus no document is returned, and the run still calls the model: it ends with the model's reply to an empty context, or fails with `ModelFailed` |
| RagChain.Apply | desarrollo/5_rag_chain.py:55-58 | a node's partial update overwrites exactly the keys it returns |
| RagChain.RetrieveStep | desarrollo/5_rag_chain.py:107 | the node returns the retrieved documents and the question it read |
| RagChain.GenerateStep | desarrollo/5_rag_chain.py:109-134 | fails on missing documents or a failed model call; otherwise returns only `generation`, the reply to the separator-joined documents and the question |
| RagChain.GenerateKeepsInputs | desarrollo/5_rag_chain.py:134 | merging the answer changes `generation` only |
| RagChain.NextNode | desarrollo/5_rag_chain.py:145-147 | every edge moves closer to END |
| RagChain.ExecuteFrom | desarrollo/5_rag_chain.py:138-150 | the compiled chain run: no node rewrites the question and a run visits at most `NodeRank(n)` nodes; its whole course is stated by `RagChain.InvokeChainOutcome` |
| RagChain.InvokeChain | desarrollo/5_rag_chain.py:150-165 | `app.invoke({"question": ...})` from the entry point; its outcome is stated by `RagChain.InvokeChainOutcome` |
| RagChain.InvokeChainOutcome | desarrollo/5_rag_chain.py:138-150 | a run fails with the retrieval or model error; otherwise it visits `retrieve` then `generate` and ends with the question, the documents and the model's reply to exactly them |

## Left out

- The model, embedding, cross-encoder, search, BM25 and JSON calls are function parameters. Their scores are `real`s; NaN and floating-point rounding are not modelled.
- The 5_rag_chain.py merge mixes the Qdrant and BM25 score scales. The model keeps that ordering and does not normalise scores.
- Prompt templates: only the fields a prompt interpolates are modelled.
- RagChain.Services: the embedding and the search are one parameter, so a failure of either is `SearchFailed`.
- The regex cleaning passes of `clean_page_text`, the `re.split` and `finditer` patterns, and `RecursiveCharacterTextSplitter` are parameters. Their results are used as given, so the large-enough and no-overlap claims about them are not proved.
- Segmentation.SegmentByParts and Segmentation.SegmentByMatches: they require distinct `Page` objects. The same object listed twice, and so cleaned twice, is not modelled.
- Indexing.IndexInQdrant: embeddings are computed one text at a time by `embed`. The batch call `embed_documents` returning a list of the wrong length is not modelled.
- Indexing.Ingest: exceptions from `recreate_collection`, `upsert` and an unreadable JSON file are not modelled. In `ingest.py` these propagate and stop the script.
- Indexing.IndexData: only the caught failure of `recreate_collection` (desarrollo/4_index_data.py:77-85) is modelled, by `TryRecreate`. An exception from `embed_documents` (line 100) or `upsert` (line 119) is uncaught and ends the script, possibly after earlier batches were stored; the model assumes both calls succeed.
- Chat.ChatTurn: a failed turn gives only `Failure`, and the sessions after it are not modelled. With the checkpointer (graph/builder.py:31), LangGraph saves the input `HumanMessage` and each completed step before a node raises. Since every turn fails as written (`Chat.ChatTurnWithoutDatasourceFails`), each failed `/chat` call may still grow its thread; the model does not state that.
- Indexing.Collection.Info: the `vectors_count` the server reports is the `reported` parameter, because Qdrant may report no count or one that lags behind the points. The skip is proved only when the count is positive, and is tied to the points only when the count is exact.
- `wait_for_qdrant` (ingest.py:44-57) polls with a clock. Its result is the `ready` parameter.
- Pickle and JSON files, `save_chunks_to_json` and the `__main__` blocks of the 2_ and 3_ scripts are file I/O.
- The interactive loop of 5_rag_chain.py (lines 155-168) is console I/O.
- `graph/config.py`, `graph/memory.py`, `check_qdrant.py` and `frontend.py` are not part of this model (resource loading, storage, operator tool, UI).
- FastAPI, `ainvoke` and the checkpointer's storage are not modelled. Sessions are a map from thread id to state.
- `build_sequential_graph` imports `decide_to_generate`, which does not exist in `graph/nodes.py`. The model uses `documents_exist` as the guard.
- `list.sort` sorts in place at graph/nodes.py:66. It is modelled by the function it computes.

## Findings

| source | as written | input that shows it | evidently intended | confidence | as-written member | corrected member |
|---|---|---|---|---|---|---|
| graph/builder.py:19-26 | the path map of the conditional edge out of `rerank` is keyed `generate`/`handle_no_documents`, but the guard returns `continue`/`handle_no_docs` (graph/nodes.py:139-140) | any state after `rerank`, for example one with no documents: the guard gives `handle_no_docs`, which is not a key | `continue` leads to `generate`, `handle_no_docs` to `handle_no_documents` | high; follows from the text, not executed | Graph.RerankSuccessorAsWrittenUndefined | Graph.SuccessorSpec |
