/** The nodes of the conversational graph: the router, the hybrid retriever (vector search
    plus filtered BM25, merged into an insertion-ordered dict), the cross-encoder reranker,
    the answer generator, the no-documents answer and the `documents_exist` guard. Every
    outside service is a parameter; `None` from a service stands for the exception it raises. */
module Nodes {
  import opened Wrappers
  import opened Text
  import opened Ranking
  import opened Merge
  import opened State

  /** A value `json.loads` can return. */
  datatype Json =
    | JNull
    | JBool(b: bool)
    | JNumber(n: real)
    | JString(s: string)
    | JArray(items: seq<Json>)
    | JObject(fields: map<string, Json>)

  /** The prompts the nodes send, by the fields they interpolate; the fixed instruction text
      around them is not modelled. */
  datatype Prompt = RoutingPrompt(question: string) | AnswerPrompt(context: string, question: string)

  /** A Qdrant search hit: the point id and its similarity score. */
  datatype Hit = Hit(id: nat, score: real)

  /** An element of `all_chunks_data`: its `source` field, when it has one, and its
      `contextualized_chunk`, which is also its entry in the BM25 corpus. */
  datatype IndexedChunk = IndexedChunk(source: Option<Json>, contextualizedChunk: string)

  /** The services the nodes call. `search(question, filter, limit)` stands for embedding the
      question and querying the collection; `bm25` for `bm25_index.get_scores`; `lower` for
      `str.lower`; `predict` for the cross-encoder. */
  datatype Services = Services(
    llm: Prompt -> Option<string>,
    parse: string -> Option<Json>,
    search: (string, Option<string>, nat) -> Option<seq<Hit>>,
    bm25: seq<string> -> seq<real>,
    lower: string -> string,
    predict: seq<(string, string)> -> Option<seq<real>>)

  /** The exceptions a node can end with. */
  datatype NodeError =
    | EmptyHistory                   // `state["messages"][-1]` on an empty history
    | MissingDatasource              // `state['datasource']` when the state has none
    | UnknownDatasource(value: Json) // `source_map[datasource]`
    | ModelFailed
    | SearchFailed
    | RerankFailed
    | ChunkIndexOutOfRange(index: nat)
    | MissingSourceField(index: nat) // `all_chunks_data[idx]['source']`

  const CandidateLimit: nat := 20
  const RerankTopK: nat := 5
  const ContextSeparator: string := "\n\n---\n\n"
  const DefaultDatasource: Json := JString("actual")
  const KnownDatasources: set<Json> := {JString("legacy"), JString("actual"), JString("both")}
  const Apology: string := "Lo siento, no he podido encontrar información relevante para responder a tu pregunta."

  /** `state["messages"][-1].content`. */
  function LastQuestion(messages: seq<Message>): (r: Result<string, NodeError>)
    ensures r.Success? <==> messages != []
    ensures r.Success? ==> r.value == messages[|messages| - 1].content
  {
    if messages == [] then Failure(EmptyHistory) else Success(messages[|messages| - 1].content)
  }

  /** One model call. */
  function Ask(svc: Services, p: Prompt): Result<string, NodeError>
  {
    if svc.llm(p).Some? then Success(svc.llm(p).value) else Failure(ModelFailed)
  }

  // ---------------------------------------------------------------- route_question

  /** `router_output.get("datasource", "actual")`, falling back to `"actual"` when the reply
      does not parse or is not an object. */
  function DatasourceOf(parsed: Option<Json>): Json
  {
    if parsed.Some? && parsed.value.JObject? && "datasource" in parsed.value.fields
    then parsed.value.fields["datasource"]
    else DefaultDatasource
  }

  function RouteQuestion(messages: seq<Message>, svc: Services): (r: Result<Json, NodeError>)
    ensures messages == [] ==> r == Failure(EmptyHistory)
    ensures r.Success? ==> messages != [] && svc.llm(RoutingPrompt(messages[|messages| - 1].content)).Some?
  {
    var question :- LastQuestion(messages);
    var reply :- Ask(svc, RoutingPrompt(question));
    Success(DatasourceOf(svc.parse(reply)))
  }

  /** A reply that is not JSON, not an object, or an object without `"datasource"` routes to
      `"actual"`; a `"datasource"` value is passed on unchanged, whatever it is. */
  lemma RouteQuestionOutcome(messages: seq<Message>, svc: Services, reply: string)
    requires messages != [] && svc.llm(RoutingPrompt(messages[|messages| - 1].content)) == Some(reply)
    ensures svc.parse(reply).None? ==> RouteQuestion(messages, svc) == Success(JString("actual"))
    ensures svc.parse(reply).Some? && !svc.parse(reply).value.JObject? ==>
      RouteQuestion(messages, svc) == Success(JString("actual"))
    ensures svc.parse(reply).Some? && svc.parse(reply).value.JObject? ==>
      var f := svc.parse(reply).value.fields;
      RouteQuestion(messages, svc) == Success(if "datasource" in f then f["datasource"] else JString("actual"))
  {
  }

  /** The router reads only the last message: earlier history does not change its decision. */
  lemma RouteQuestionReadsLastMessage(history: seq<Message>, last: Message, svc: Services)
    ensures RouteQuestion(history + [last], svc) == RouteQuestion([last], svc)
  {
    assert (history + [last])[|history + [last]| - 1] == last;
  }

  /** A label outside `legacy`/`actual`/`both` in the reply passes the router and then makes
      the retriever's `source_map` lookup fail. */
  lemma UnknownLabelPassesRouter(messages: seq<Message>, svc: Services, reply: string, f: map<string, Json>)
    requires messages != [] && svc.llm(RoutingPrompt(messages[|messages| - 1].content)) == Some(reply)
    requires svc.parse(reply) == Some(JObject(f)) && "datasource" in f && f["datasource"] !in KnownDatasources
    ensures RouteQuestion(messages, svc) == Success(f["datasource"])
    ensures VectorFilter(f["datasource"]) == Failure(UnknownDatasource(f["datasource"]))
  {
  }

  // ---------------------------------------------------------------- retrieve_documents

  /** The Qdrant filter value: none for `"both"`, the mapped source label for `"legacy"` and
      `"actual"`; any other label fails the `source_map` lookup. */
  function VectorFilter(ds: Json): (r: Result<Option<string>, NodeError>)
    ensures r.Success? <==> ds in KnownDatasources
    ensures r.Success? ==> (r.value.None? <==> ds == JString("both"))
    ensures r.Failure? ==> r.error == UnknownDatasource(ds)
  {
    if ds == JString("both") then Success(None)
    else if ds == JString("legacy") then Success(Some("PGC_1990"))
    else if ds == JString("actual") then Success(Some("PGC_actual"))
    else Failure(UnknownDatasource(ds))
  }

  predicate Increasing(s: seq<nat>) {
    forall a, b :: 0 <= a < b < |s| ==> s[a] < s[b]
  }

  function Range(n: nat): (r: seq<nat>)
    ensures |r| == n && forall i :: 0 <= i < n ==> r[i] == i
  {
    seq(n, i requires 0 <= i < n => i)
  }

  /** The indices among `0..n-1` that the lexical filter keeps: those whose chunk `source`
      equals the raw routing label. The comprehension raises at the first index that has no
      chunk or whose chunk has no `source` field. */
  function KeepBySource(chunks: seq<IndexedChunk>, n: nat, ds: Json): (r: Result<seq<nat>, NodeError>)
    ensures r.Success? <==> n <= |chunks| && forall i :: 0 <= i < n ==> chunks[i].source.Some?
    ensures r.Success? ==> Increasing(r.value) && forall a :: 0 <= a < |r.value| ==> r.value[a] < n
    ensures r.Success? ==> forall i :: 0 <= i < n ==> (i in r.value <==> chunks[i].source == Some(ds))
  {
    if n == 0 then Success([])
    else
      var kept :- KeepBySource(chunks, n - 1, ds);
      if n - 1 >= |chunks| then Failure(ChunkIndexOutOfRange(n - 1))
      else if chunks[n - 1].source.None? then Failure(MissingSourceField(n - 1))
      else if chunks[n - 1].source.value == ds then Success(kept + [n - 1])
      else Success(kept)
  }

  /** `filtered_candidates` as indices, in `all_bm25_candidates` order: every index for
      `"both"`, the source filter otherwise. */
  function FilteredCandidates(chunks: seq<IndexedChunk>, scores: seq<real>, ds: Json): (r: Result<seq<nat>, NodeError>)
    ensures r.Success? ==> Increasing(r.value) && forall a :: 0 <= a < |r.value| ==> r.value[a] < |scores|
  {
    if ds == JString("both") then Success(Range(|scores|)) else KeepBySource(chunks, |scores|, ds)
  }

  function ScoresAt(scores: seq<real>, idx: seq<nat>): (r: seq<real>)
    requires forall a :: 0 <= a < |idx| ==> idx[a] < |scores|
    ensures |r| == |idx| && forall a :: 0 <= a < |idx| ==> r[a] == scores[idx[a]]
  {
    seq(|idx|, a requires 0 <= a < |idx| => scores[idx[a]])
  }

  /** `top_bm25_indices`: the candidates after the stable sort by descending score, cut to 20. */
  function TopLexical(scores: seq<real>, kept: seq<nat>): seq<nat>
    requires forall a :: 0 <= a < |kept| ==> kept[a] < |scores|
  {
    TopByScore(kept, ScoresAt(scores, kept), CandidateLimit)
  }

  /** The BM25 top-N: at most 20 of the filtered candidates, with scores non-increasing, ties
      in index order, and no left-out candidate scoring above a kept one or tying with it at
      a smaller index. */
  lemma TopLexicalSpec(scores: seq<real>, kept: seq<nat>)
    requires Increasing(kept) && forall a :: 0 <= a < |kept| ==> kept[a] < |scores|
    ensures |TopLexical(scores, kept)| == Min(CandidateLimit, |kept|)
    ensures forall a :: 0 <= a < |TopLexical(scores, kept)| ==> TopLexical(scores, kept)[a] in kept
    ensures forall a, b :: 0 <= a < b < |TopLexical(scores, kept)| ==>
      var top := TopLexical(scores, kept);
      top[a] != top[b] && scores[top[a]] >= scores[top[b]] && (scores[top[a]] == scores[top[b]] ==> top[a] < top[b])
    ensures forall x, a :: x in kept && x !in TopLexical(scores, kept) && 0 <= a < |TopLexical(scores, kept)| ==>
      var top := TopLexical(scores, kept);
      scores[top[a]] >= scores[x] && (scores[top[a]] == scores[x] ==> top[a] < x)
  {
    TopLexicalAt(scores, kept);
    TopPositionsSpec(ScoresAt(scores, kept), CandidateLimit);
    TopLexicalBest(scores, kept);
  }

  /** The candidates kept are those at the positions the sort and the cut keep. */
  lemma TopLexicalAt(scores: seq<real>, kept: seq<nat>)
    requires forall a :: 0 <= a < |kept| ==> kept[a] < |scores|
    ensures var ps := TopPositions(ScoresAt(scores, kept), CandidateLimit);
      && |TopLexical(scores, kept)| == |ps|
      && forall a :: 0 <= a < |ps| ==> ps[a] < |kept| && TopLexical(scores, kept)[a] == kept[ps[a]]
  {
    var cs := ScoresAt(scores, kept);
    assert cs[..Min(|kept|, |cs|)] == cs;
    TopPositionsSpec(cs, CandidateLimit);
  }

  lemma TopLexicalBest(scores: seq<real>, kept: seq<nat>)
    requires Increasing(kept) && forall a :: 0 <= a < |kept| ==> kept[a] < |scores|
    ensures forall x, a :: x in kept && x !in TopLexical(scores, kept) && 0 <= a < |TopLexical(scores, kept)| ==>
      var top := TopLexical(scores, kept);
      scores[top[a]] >= scores[x] && (scores[top[a]] == scores[x] ==> top[a] < x)
  {
    var cs := ScoresAt(scores, kept);
    var ps := TopPositions(cs, CandidateLimit);
    TopLexicalAt(scores, kept);
    TopPositionsSpec(cs, CandidateLimit);
    var top := TopLexical(scores, kept);
    forall x, a | x in kept && x !in top && 0 <= a < |top|
      ensures scores[top[a]] >= scores[x] && (scores[top[a]] == scores[x] ==> top[a] < x)
    {
      var q :| 0 <= q < |kept| && kept[q] == x;
      assert q !in ps;
      assert Precedes(cs, ps[a], q);
    }
  }

  /** The BM25 scores of `question.lower().split(" ")`. */
  function QueryScores(question: string, svc: Services): seq<real>
  {
    svc.bm25(SplitOn(svc.lower(question), ' '))
  }

  /** `all_chunks_data[hit.id]['contextualized_chunk']` with the hit score, hit by hit. */
  function HitEntries(chunks: seq<IndexedChunk>, hits: seq<Hit>): (r: Result<seq<Entry>, NodeError>)
    ensures r.Success? <==> forall a :: 0 <= a < |hits| ==> hits[a].id < |chunks|
    ensures r.Success? ==> |r.value| == |hits|
    ensures r.Success? ==>
      forall a :: 0 <= a < |hits| ==> r.value[a] == Entry(chunks[hits[a].id].contextualizedChunk, hits[a].score)
  {
    if hits == [] then Success([])
    else
      var init :- HitEntries(chunks, hits[..|hits| - 1]);
      var h := hits[|hits| - 1];
      if h.id < |chunks| then Success(init + [Entry(chunks[h.id].contextualizedChunk, h.score)])
      else Failure(ChunkIndexOutOfRange(h.id))
  }

  /** `bm25_corpus[idx]` with `bm25_scores[idx]`, for each index of the top-N. */
  function CorpusEntries(chunks: seq<IndexedChunk>, scores: seq<real>, top: seq<nat>): (r: Result<seq<Entry>, NodeError>)
    requires forall a :: 0 <= a < |top| ==> top[a] < |scores|
    ensures r.Success? <==> forall a :: 0 <= a < |top| ==> top[a] < |chunks|
    ensures r.Success? ==> |r.value| == |top|
    ensures r.Success? ==>
      forall a :: 0 <= a < |top| ==> r.value[a] == Entry(chunks[top[a]].contextualizedChunk, scores[top[a]])
  {
    if top == [] then Success([])
    else
      var init :- CorpusEntries(chunks, scores, top[..|top| - 1]);
      var idx := top[|top| - 1];
      if idx < |chunks| then Success(init + [Entry(chunks[idx].contextualizedChunk, scores[idx])])
      else Failure(ChunkIndexOutOfRange(idx))
  }

  /** The two candidate lists the merge loops consume. */
  datatype Candidates = Candidates(vector: seq<Entry>, lexical: seq<Entry>)

  /** Everything `retrieve_documents` computes before filling `final_docs`, in the order it
      does it: the filter lookup, the search, the BM25 scoring of `question.lower().split(" ")`,
      the source filter, the top-N and the lookups of the hit and corpus texts. */
  function RetrievalCandidates(question: string, ds: Json, chunks: seq<IndexedChunk>, svc: Services): (r: Result<Candidates, NodeError>)
    ensures r.Success? ==> VectorFilter(ds).Success?
    ensures r.Success? ==> svc.search(question, VectorFilter(ds).value, CandidateLimit).Some?
    ensures r.Success? ==>
      |r.value.vector| == |svc.search(question, VectorFilter(ds).value, CandidateLimit).value|
    ensures r.Success? ==> |r.value.lexical| <= CandidateLimit
    ensures r.Success? ==>
      HitEntries(chunks, svc.search(question, VectorFilter(ds).value, CandidateLimit).value) == Success(r.value.vector)
    ensures r.Success? ==> FilteredCandidates(chunks, QueryScores(question, svc), ds).Success?
    ensures r.Success? ==>
      CorpusEntries(chunks, QueryScores(question, svc),
                    TopLexical(QueryScores(question, svc), FilteredCandidates(chunks, QueryScores(question, svc), ds).value))
        == Success(r.value.lexical)
  {
    var filter :- VectorFilter(ds);
    var hits :- if svc.search(question, filter, CandidateLimit).Some?
                then Success(svc.search(question, filter, CandidateLimit).value)
                else Failure(SearchFailed);
    var scores := QueryScores(question, svc);
    var kept :- FilteredCandidates(chunks, scores, ds);
    var top := TopLexical(scores, kept);
    TopLexicalSpec(scores, kept);
    var vec :- HitEntries(chunks, hits);
    var lex :- CorpusEntries(chunks, scores, top);
    Success(Candidates(vec, lex))
  }

  /** The documents `retrieve_documents` returns: the keys of `final_docs`. */
  function Retrieve(messages: seq<Message>, datasource: Option<Json>, chunks: seq<IndexedChunk>, svc: Services): (r: Result<seq<string>, NodeError>)
    ensures datasource.None? ==> r == Failure(MissingDatasource)
  {
    var ds :- if datasource.Some? then Success(datasource.value) else Failure(MissingDatasource);
    var question :- LastQuestion(messages);
    var c :- RetrievalCandidates(question, ds, chunks, svc);
    Success(Dedup(Texts(c.vector) + Texts(c.lexical)))
  }

  /** `retrieve_documents`, with `final_docs` filled by the two loops of `MergeCandidates`. */
  method RetrieveDocuments(messages: seq<Message>, datasource: Option<Json>, chunks: seq<IndexedChunk>, svc: Services)
    returns (r: Result<seq<string>, NodeError>)
    ensures r == Retrieve(messages, datasource, chunks, svc)
  {
    if datasource.None? {
      return Failure(MissingDatasource);
    }
    var question :- LastQuestion(messages);
    var c :- RetrievalCandidates(question, datasource.value, chunks, svc);
    var keys, scores := MergeCandidates(c.vector, c.lexical);
    return Success(keys);
  }

  /** The merged list: no text twice; the vector-hit texts first, in hit order; then texts
      found only by BM25; nothing outside the two lists; at most |hits| + 20 entries. */
  lemma RetrieveShape(messages: seq<Message>, ds: Json, chunks: seq<IndexedChunk>, svc: Services, c: Candidates)
    requires messages != []
    requires RetrievalCandidates(messages[|messages| - 1].content, ds, chunks, svc) == Success(c)
    ensures var r := Retrieve(messages, Some(ds), chunks, svc);
      && r.Success?
      && NoDup(r.value)
      && |Dedup(Texts(c.vector))| <= |r.value| && r.value[..|Dedup(Texts(c.vector))|] == Dedup(Texts(c.vector))
      && (forall k :: |Dedup(Texts(c.vector))| <= k < |r.value| ==> r.value[k] in Texts(c.lexical) && r.value[k] !in Texts(c.vector))
      && (forall x :: x in r.value <==> x in Texts(c.vector) || x in Texts(c.lexical))
      && |r.value| <= |c.vector| + CandidateLimit
  {
    DedupPrefix(Texts(c.vector), Texts(c.lexical));
  }

  // ---------------------------------------------------------------- rerank_documents

  /** `[(question, doc) for doc in documents]`. */
  function Pairs(question: string, documents: seq<string>): (r: seq<(string, string)>)
    ensures |r| == |documents| && forall i :: 0 <= i < |documents| ==> r[i] == (question, documents[i])
  {
    seq(|documents|, i requires 0 <= i < |documents| => (question, documents[i]))
  }

  function Rerank(messages: seq<Message>, documents: seq<string>, svc: Services): (r: Result<seq<string>, NodeError>)
    ensures messages != [] && documents == [] ==> r == Success([])
  {
    var question :- LastQuestion(messages);
    if documents == [] then Success([])
    else
      var scores :- if svc.predict(Pairs(question, documents)).Some?
                    then Success(svc.predict(Pairs(question, documents)).value)
                    else Failure(RerankFailed);
      Success(TopByScore(documents, scores, RerankTopK))
  }

  /** With no documents the result does not depend on the cross-encoder at all. */
  lemma RerankEmptyIgnoresModel(messages: seq<Message>, svc: Services, svc': Services)
    ensures Rerank(messages, [], svc) == Rerank(messages, [], svc')
  {
  }

  /** With documents and scores, reranking keeps min(5, n) of them (n: the pairs `zip` forms),
      each an input document at a distinct position, ordered by non-increasing score with ties
      in input order, and no left-out document beats a kept one. */
  lemma RerankSpec(messages: seq<Message>, documents: seq<string>, svc: Services, scores: seq<real>)
    requires messages != [] && documents != []
    requires svc.predict(Pairs(messages[|messages| - 1].content, documents)) == Some(scores)
    ensures var r := Rerank(messages, documents, svc);
      var n := Min(|documents|, |scores|);
      var ps := TopPositions(scores[..n], RerankTopK);
      && r.Success?
      && |r.value| == Min(RerankTopK, n) && |ps| == |r.value|
      && (forall a :: 0 <= a < |ps| ==> ps[a] < n && r.value[a] == documents[ps[a]])
      && (forall a, b :: 0 <= a < b < |ps| ==>
            ps[a] != ps[b] && scores[ps[a]] >= scores[ps[b]] && (scores[ps[a]] == scores[ps[b]] ==> ps[a] < ps[b]))
      && (forall q, a :: 0 <= q < n && q !in ps && 0 <= a < |ps| ==>
            scores[ps[a]] > scores[q] || (scores[ps[a]] == scores[q] && ps[a] < q))
  {
    var n := Min(|documents|, |scores|);
    TopPositionsSpec(scores[..n], RerankTopK);
  }

  // ---------------------------------------------------------------- generate_answer, handle_no_documents

  /** The answer node: one `AIMessage` holding the model's reply to a prompt built from the
      documents, joined in order with the separator, and the last question only. */
  function GenerateAnswer(messages: seq<Message>, documents: seq<string>, svc: Services): (r: Result<seq<Message>, NodeError>)
    ensures r.Success? <==>
      messages != [] && svc.llm(AnswerPrompt(Join(documents, ContextSeparator), messages[|messages| - 1].content)).Some?
    ensures r.Success? ==>
      r.value == [AIMessage(svc.llm(AnswerPrompt(Join(documents, ContextSeparator), messages[|messages| - 1].content)).value)]
  {
    var question :- LastQuestion(messages);
    var reply :- Ask(svc, AnswerPrompt(Join(documents, ContextSeparator), question));
    Success([AIMessage(reply)])
  }

  /** The answer does not depend on the history before the last message. */
  lemma GenerateAnswerReadsLastMessage(history: seq<Message>, last: Message, documents: seq<string>, svc: Services)
    ensures GenerateAnswer(history + [last], documents, svc) == GenerateAnswer([last], documents, svc)
  {
    assert (history + [last])[|history + [last]| - 1] == last;
  }

  /** The fixed apology; no model is called. */
  function HandleNoDocuments(): seq<Message>
  {
    [AIMessage(Apology)]
  }

  /** The labels `documents_exist` returns. */
  datatype GuardLabel = Continue | HandleNoDocs

  function GuardName(l: GuardLabel): string
  {
    match l
    case Continue => "continue"
    case HandleNoDocs => "handle_no_docs"
  }

  function DocumentsExist(documents: seq<string>): (r: GuardLabel)
    ensures r == Continue <==> documents != []
  {
    if documents != [] then Continue else HandleNoDocs
  }
}
