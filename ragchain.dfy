/** The single-pass chain of the development scripts: `retrieve_documents` merges the top-5
    vector hits with the BM25 top-5 in an insertion-ordered dict keyed by chunk text, sorts the
    entries by stored score and keeps five; `generate_answer` asks the model once; the graph
    is the straight line `retrieve -> generate -> END`. The embedding and search calls, the
    BM25 index, `str.lower` and the model are parameters; `None` from a service stands for the
    exception it raises. */
module RagChain {
  import opened Wrappers
  import opened Text
  import opened Ranking
  import opened Merge
  import Indexing
  import Contextualize

  /** A search hit: the stored payload of the point and its similarity score. */
  datatype ScoredPoint = ScoredPoint(payload: Indexing.Payload, score: real)

  /** `search(question, limit)` stands for embedding the question and querying the
      collection; `bm25` for `bm25_index.get_scores`; `llm(context, question)` for the model's
      reply to the prompt built from those two fields. */
  datatype Services = Services(
    search: (string, nat) -> Option<seq<ScoredPoint>>,
    bm25: seq<string> -> seq<real>,
    lower: string -> string,
    llm: (string, string) -> Option<string>)

  datatype ChainError =
    | SearchFailed
    | CorpusIndexOutOfRange(index: nat) // `bm25_corpus[idx]` past the end of the corpus
    | MissingDocuments                  // `state["documents"]` before any node set it
    | ModelFailed

  const SearchLimit: nat := 5
  const LexicalLimit: nat := 5
  const DocumentLimit: nat := 5
  const ContextSeparator: string := "\n\n---\n\n"

  // ---------------------------------------------------------------- retrieve_documents

  /** The dict entries of the vector hits, in hit order: the hit's text, written in the same
      format as a corpus entry, with the hit score. */
  function HitEntries(hits: seq<ScoredPoint>): (r: seq<Entry>)
    ensures |r| == |hits|
    ensures forall a :: 0 <= a < |hits| ==> r[a].text == Indexing.PayloadText(hits[a].payload) && r[a].score == hits[a].score
  {
    seq(|hits|, a requires 0 <= a < |hits| => Entry(Indexing.PayloadText(hits[a].payload), hits[a].score))
  }

  /** `bm25_corpus[idx]` with `bm25_scores[idx]` for each index of the BM25 top-5, failing at
      the first index the corpus does not have. */
  function LexicalEntries(corpus: seq<string>, scores: seq<real>, top: seq<nat>): (r: Result<seq<Entry>, ChainError>)
    requires forall a :: 0 <= a < |top| ==> top[a] < |scores|
    ensures r.Success? <==> forall a :: 0 <= a < |top| ==> top[a] < |corpus|
    ensures r.Success? ==> |r.value| == |top|
    ensures r.Success? ==> forall a :: 0 <= a < |top| ==> r.value[a] == Entry(corpus[top[a]], scores[top[a]])
    ensures r.Failure? ==> exists a :: 0 <= a < |top| && r.error == CorpusIndexOutOfRange(top[a]) && top[a] >= |corpus|
  {
    if top == [] then Success([])
    else
      var init :- LexicalEntries(corpus, scores, top[..|top| - 1]);
      var idx := top[|top| - 1];
      if idx < |corpus| then Success(init + [Entry(corpus[idx], scores[idx])])
      else Failure(CorpusIndexOutOfRange(idx))
  }

  /** The two lists the merge consumes. */
  datatype Candidates = Candidates(vector: seq<Entry>, lexical: seq<Entry>)

  /** The BM25 scores of `question.lower().split(" ")`. */
  function QueryScores(question: string, svc: Services): seq<real>
  {
    svc.bm25(SplitOn(svc.lower(question), ' '))
  }

  /** The stable descending top-5 of the BM25 scores, as score positions. */
  function LexicalTop(question: string, svc: Services): (r: seq<nat>)
    ensures forall a :: 0 <= a < |r| ==> r[a] < |QueryScores(question, svc)|
  {
    TopPositionsSpec(QueryScores(question, svc), LexicalLimit);
    TopPositions(QueryScores(question, svc), LexicalLimit)
  }

  /** The search, then the BM25 scores and their top-5, then the corpus lookups. The step
      succeeds exactly when the search answers and every top-5 index is inside the corpus
      (`bm25_corpus[idx]` raises otherwise). */
  function RetrievalCandidates(question: string, corpus: seq<string>, svc: Services): (r: Result<Candidates, ChainError>)
    ensures r.Success? <==>
      svc.search(question, SearchLimit).Some? && forall a :: 0 <= a < |LexicalTop(question, svc)| ==> LexicalTop(question, svc)[a] < |corpus|
    ensures svc.search(question, SearchLimit).None? ==> r == Failure(SearchFailed)
    ensures r.Success? ==> r.value.vector == HitEntries(svc.search(question, SearchLimit).value)
    ensures r.Success? ==> LexicalEntries(corpus, QueryScores(question, svc), LexicalTop(question, svc)) == Success(r.value.lexical)
    ensures r.Success? ==> |r.value.lexical| <= LexicalLimit
  {
    var hits :- if svc.search(question, SearchLimit).Some?
                then Success(svc.search(question, SearchLimit).value)
                else Failure(SearchFailed);
    var scores := QueryScores(question, svc);
    TopPositionsSpec(scores, LexicalLimit);
    var lex :- LexicalEntries(corpus, scores, LexicalTop(question, svc));
    Success(Candidates(HitEntries(hits), lex))
  }

  /** The texts the vector hits and the BM25 top-5 contributed, in dict order. */
  function MergedKeys(c: Candidates): seq<string>
  {
    Dedup(Texts(c.vector) + Texts(c.lexical))
  }

  /** The value `final_docs` holds for a merged text: `MergedScore`, the vector score when
      the text is a vector hit (the BM25 loop never overwrites a key). */
  function StoredScore(c: Candidates, x: string): real
  {
    if x in Texts(c.vector) || x in Texts(c.lexical) then MergedScore(c.vector, c.lexical, x) else 0.0
  }

  /** The scores of `final_docs.items()`, in key order. */
  function MergedScores(c: Candidates): (r: seq<real>)
    ensures |r| == |MergedKeys(c)|
    ensures forall k :: 0 <= k < |r| ==> r[k] == StoredScore(c, MergedKeys(c)[k])
  {
    seq(|MergedKeys(c)|, k requires 0 <= k < |MergedKeys(c)| => StoredScore(c, MergedKeys(c)[k]))
  }

  /** `[doc for doc, _ in sorted(final_docs.items(), key=score, reverse=True)[:5]]`. */
  function Ranked(c: Candidates): seq<string>
  {
    TopByScore(MergedKeys(c), MergedScores(c), DocumentLimit)
  }

  /** The documents `retrieve_documents` returns. */
  function Retrieve(question: string, corpus: seq<string>, svc: Services): Result<seq<string>, ChainError>
  {
    var c :- RetrievalCandidates(question, corpus, svc);
    Success(Ranked(c))
  }

  /** `retrieve_documents`, with `final_docs` filled by the two loops of `MergeCandidates`. */
  method RetrieveDocuments(question: string, corpus: seq<string>, svc: Services) returns (r: Result<seq<string>, ChainError>)
    ensures r == Retrieve(question, corpus, svc)
  {
    var c :- RetrievalCandidates(question, corpus, svc);
    var keys, scores := MergeCandidates(c.vector, c.lexical);
    assert forall k :: 0 <= k < |keys| ==> keys[k] in scores by {
      forall k | 0 <= k < |keys| ensures keys[k] in scores {
        assert keys[k] in keys;
      }
    }
    var items := seq(|keys|, k requires 0 <= k < |keys| && keys[k] in scores => scores[keys[k]]);
    assert items == MergedScores(c);
    return Success(TopByScore(keys, items, DocumentLimit));
  }

  /** The positions in key order that the sort and the cut keep. */
  function RankedPositions(c: Candidates): seq<nat>
  {
    TopPositions(MergedScores(c), DocumentLimit)
  }

  /** The documents returned are the keys at the kept positions. */
  lemma RankedAt(c: Candidates)
    ensures |Ranked(c)| == |RankedPositions(c)|
    ensures forall a :: 0 <= a < |Ranked(c)| ==>
      RankedPositions(c)[a] < |MergedKeys(c)| && Ranked(c)[a] == MergedKeys(c)[RankedPositions(c)[a]]
  {
    var ms := MergedScores(c);
    assert ms[..Min(|MergedKeys(c)|, |ms|)] == ms;
  }

  /** Every key comes from one of the two lists. */
  lemma MergedKeysFromCandidates(c: Candidates)
    ensures forall x :: x in MergedKeys(c) <==> x in Texts(c.vector) || x in Texts(c.lexical)
  {
  }

  /** The documents returned: at most five, distinct, each a vector hit or a BM25 entry. */
  lemma RankedSpec(c: Candidates)
    ensures |Ranked(c)| == Min(DocumentLimit, |MergedKeys(c)|)
    ensures NoDup(Ranked(c))
    ensures forall x :: x in Ranked(c) ==> x in Texts(c.vector) || x in Texts(c.lexical)
  {
    RankedAt(c);
    TopPositionsSpec(MergedScores(c), DocumentLimit);
    var r := Ranked(c);
    var ps := RankedPositions(c);
    forall a, b | 0 <= a < b < |r| ensures r[a] != r[b] {
      assert ps[a] != ps[b];
    }
    forall x | x in r ensures x in MergedKeys(c) {
      var a :| 0 <= a < |r| && r[a] == x;
    }
  }

  /** The documents come in non-increasing order of stored score, and no merged text left
      out has a higher score than a kept one. */
  lemma RankedByScore(c: Candidates)
    ensures forall a, b :: 0 <= a < b < |Ranked(c)| ==> StoredScore(c, Ranked(c)[a]) >= StoredScore(c, Ranked(c)[b])
    ensures forall x, a :: x in MergedKeys(c) && x !in Ranked(c) && 0 <= a < |Ranked(c)| ==>
      StoredScore(c, Ranked(c)[a]) >= StoredScore(c, x)
  {
    RankedAt(c);
    var ms := MergedScores(c);
    TopPositionsSpec(ms, DocumentLimit);
    var keys := MergedKeys(c);
    var r := Ranked(c);
    var ps := RankedPositions(c);
    forall a, b | 0 <= a < b < |r| ensures StoredScore(c, r[a]) >= StoredScore(c, r[b]) {
      assert ms[ps[a]] >= ms[ps[b]];
    }
    forall x, a | x in keys && x !in r && 0 <= a < |r| ensures StoredScore(c, r[a]) >= StoredScore(c, x) {
      var q :| 0 <= q < |keys| && keys[q] == x;
      assert q !in ps;
      assert Precedes(ms, ps[a], q);
    }
  }

  /** Ties keep dict order: of two returned documents with the same stored score, the one the
      dict received first comes first. */
  lemma RankedTiesInDictOrder(c: Candidates)
    ensures forall a, b :: 0 <= a < b < |Ranked(c)| && StoredScore(c, Ranked(c)[a]) == StoredScore(c, Ranked(c)[b]) ==>
      FirstIndex(MergedKeys(c), Ranked(c)[a]) < FirstIndex(MergedKeys(c), Ranked(c)[b])
  {
    RankedAt(c);
    var ms := MergedScores(c);
    TopPositionsSpec(ms, DocumentLimit);
    var keys := MergedKeys(c);
    var r := Ranked(c);
    var ps := RankedPositions(c);
    forall a, b | 0 <= a < b < |r| && StoredScore(c, r[a]) == StoredScore(c, r[b])
      ensures FirstIndex(keys, r[a]) < FirstIndex(keys, r[b])
    {
      NoDupIndex(keys, ps[a]);
      NoDupIndex(keys, ps[b]);
      assert ms[ps[a]] == ms[ps[b]];
    }
  }

  /** In a sequence without duplicates the first occurrence of an element is its position. */
  lemma NoDupIndex(s: seq<string>, i: nat)
    requires NoDup(s) && i < |s|
    ensures FirstIndex(s, s[i]) == i
  {
    var j := FirstIndex(s, s[i]);
  }

  /** With at least five distinct merged texts, exactly five documents come back. */
  lemma RankedFillsLimit(c: Candidates)
    requires |MergedKeys(c)| >= DocumentLimit
    ensures |Ranked(c)| == DocumentLimit
  {
    RankedSpec(c);
  }

  /** A text found by both searches is merged once and ranked by its vector score. */
  lemma SharedTextMergedOnce(c: Candidates, x: string)
    requires x in Texts(c.vector) && x in Texts(c.lexical)
    ensures multiset(MergedKeys(c))[x] == 1
    ensures MergedScore(c.vector, c.lexical, x) == LastScore(c.vector, x)
  {
    var keys := MergedKeys(c);
    assert x in Texts(c.vector) + Texts(c.lexical);
    var i := FirstIndex(keys, x);
    assert keys == keys[..i] + [x] + keys[i + 1..];
    assert x !in keys[i + 1..] by {
      forall k | i < k < |keys| ensures keys[k] != x {
        assert keys[i] != keys[k];
      }
    }
  }

  /** A hit on the point the indexer stored for chunk `k` of the contextualized chunks carries
      the text of corpus entry `k`, so when BM25 also finds that entry the merge keeps one
      copy of it. */
  lemma HitMatchesCorpusEntry(parents: seq<string>, split: string -> seq<string>, llm: (string, string) -> Option<string>,
                              embed: string -> Indexing.Vector, points: map<nat, Indexing.Point>, k: nat, score: real)
    requires Indexing.IndexedAsPositions(points, Contextualize.Contextualized(parents, split, llm), embed)
    requires k in points
    ensures var corpus := Indexing.Corpus(Contextualize.Contextualized(parents, split, llm));
      && k < |corpus|
      && HitEntries([ScoredPoint(points[k].payload, score)])[0].text == corpus[k]
  {
    Indexing.PointMatchesCorpus(parents, split, llm, embed, points, k);
  }

  /** Without any vector hit and with an empty corpus and no BM25 scores, no document comes
      back, and the model is still called: the run ends with its reply to an empty context. */
  lemma NothingFound(question: string, svc: Services)
    requires svc.search(question, SearchLimit) == Some([])
    requires QueryScores(question, svc) == []
    ensures Retrieve(question, [], svc) == Success([])
    ensures svc.llm("", question).Some? ==>
      InvokeChain(question, [], svc) == Success(ChainRun(ChainState(question, Some([]), svc.llm("", question)), [RetrieveNode, GenerateNode]))
    ensures svc.llm("", question).None? ==> InvokeChain(question, [], svc) == Failure(ModelFailed)
  {
    TopPositionsSpec([], LexicalLimit);
    var c := RetrievalCandidates(question, [], svc).value;
    assert Texts(c.vector) + Texts(c.lexical) == [];
    RankedSpec(c);
    InvokeChainOutcome(question, [], svc);
    assert Join([], ContextSeparator) == "";
  }

  // ---------------------------------------------------------------- the graph state and generate_answer

  /** `RagGraphState`: `question` is set when the graph is invoked; `documents` and
      `generation` are absent until a node returns them. */
  datatype ChainState = ChainState(question: string, documents: Option<seq<string>>, generation: Option<string>)

  /** A node's partial return value; LangGraph overwrites each key it carries. */
  datatype ChainUpdate = ChainUpdate(question: Option<string>, documents: Option<seq<string>>, generation: Option<string>)

  function Apply(s: ChainState, u: ChainUpdate): (r: ChainState)
    ensures r.question == if u.question.Some? then u.question.value else s.question
    ensures r.documents == if u.documents.Some? then u.documents else s.documents
    ensures r.generation == if u.generation.Some? then u.generation else s.generation
  {
    ChainState(if u.question.Some? then u.question.value else s.question,
               if u.documents.Some? then u.documents else s.documents,
               if u.generation.Some? then u.generation else s.generation)
  }

  /** The retrieval node returns the documents and the question it read. */
  function RetrieveStep(s: ChainState, corpus: seq<string>, svc: Services): (r: Result<ChainUpdate, ChainError>)
    ensures r.Success? <==> Retrieve(s.question, corpus, svc).Success?
    ensures r.Success? ==> r.value == ChainUpdate(Some(s.question), Some(Retrieve(s.question, corpus, svc).value), None)
  {
    var docs :- Retrieve(s.question, corpus, svc);
    Success(ChainUpdate(Some(s.question), Some(docs), None))
  }

  /** The generation node: the documents joined in order with the separator and the question
      go to the model once; only `generation` is returned. */
  function GenerateStep(s: ChainState, svc: Services): (r: Result<ChainUpdate, ChainError>)
    ensures s.documents.None? ==> r == Failure(MissingDocuments)
    ensures r.Success? <==> s.documents.Some? && svc.llm(Join(s.documents.value, ContextSeparator), s.question).Some?
    ensures r.Success? ==> r.value.question.None? && r.value.documents.None?
    ensures r.Success? ==> r.value.generation == svc.llm(Join(s.documents.value, ContextSeparator), s.question)
  {
    var docs :- if s.documents.Some? then Success(s.documents.value) else Failure(MissingDocuments);
    var context := Join(docs, ContextSeparator);
    var reply :- if svc.llm(context, s.question).Some? then Success(svc.llm(context, s.question).value) else Failure(ModelFailed);
    Success(ChainUpdate(None, None, Some(reply)))
  }

  /** Merging the generation node's update changes `generation` and nothing else. */
  lemma GenerateKeepsInputs(s: ChainState, svc: Services)
    requires GenerateStep(s, svc).Success?
    ensures var s' := Apply(s, GenerateStep(s, svc).value);
      && s'.question == s.question && s'.documents == s.documents
      && s'.generation == svc.llm(Join(s.documents.value, ContextSeparator), s.question)
  {
  }

  // ---------------------------------------------------------------- the compiled graph

  datatype ChainNode = RetrieveNode | GenerateNode | End

  const ChainEntry: ChainNode := RetrieveNode

  /** The two `add_edge` calls. */
  function NextNode(n: ChainNode): (r: ChainNode)
    requires n != End
    ensures NodeRank(r) < NodeRank(n)
  {
    match n
    case RetrieveNode => GenerateNode
    case GenerateNode => End
  }

  function NodeRank(n: ChainNode): nat
  {
    match n
    case RetrieveNode => 2
    case GenerateNode => 1
    case End => 0
  }

  function RunStep(n: ChainNode, s: ChainState, corpus: seq<string>, svc: Services): Result<ChainUpdate, ChainError>
    requires n != End
  {
    match n
    case RetrieveNode => RetrieveStep(s, corpus, svc)
    case GenerateNode => GenerateStep(s, svc)
  }

  /** The final state of a run and the nodes it visited. */
  datatype ChainRun = ChainRun(state: ChainState, trace: seq<ChainNode>)

  /** The compiled chain run from node `n`. No node rewrites the question, and a run visits
      at most `NodeRank(n)` nodes. */
  function ExecuteFrom(n: ChainNode, s: ChainState, corpus: seq<string>, svc: Services): (r: Result<ChainRun, ChainError>)
    ensures r.Success? ==> r.value.state.question == s.question && |r.value.trace| <= NodeRank(n)
    decreases NodeRank(n)
  {
    if n == End then Success(ChainRun(s, []))
    else
      var u :- RunStep(n, s, corpus, svc);
      var rest :- ExecuteFrom(NextNode(n), Apply(s, u), corpus, svc);
      Success(ChainRun(rest.state, [n] + rest.trace))
  }

  /** `app.invoke({"question": question})`. */
  function InvokeChain(question: string, corpus: seq<string>, svc: Services): Result<ChainRun, ChainError>
  {
    ExecuteFrom(ChainEntry, ChainState(question, None, None), corpus, svc)
  }

  /** A run visits `retrieve` and then `generate`. It fails with the retrieval error when
      retrieval fails, with the model error when the model fails, and otherwise ends with the
      question it was given, the retrieved documents and the model's reply to exactly those
      documents and that question; an empty retrieval still reaches the model. */
  lemma InvokeChainOutcome(question: string, corpus: seq<string>, svc: Services)
    ensures Retrieve(question, corpus, svc).Failure? ==>
      InvokeChain(question, corpus, svc) == Failure(Retrieve(question, corpus, svc).error)
    ensures Retrieve(question, corpus, svc).Success? ==>
      var docs := Retrieve(question, corpus, svc).value;
      var reply := svc.llm(Join(docs, ContextSeparator), question);
      && (reply.None? ==> InvokeChain(question, corpus, svc) == Failure(ModelFailed))
      && (reply.Some? ==>
            InvokeChain(question, corpus, svc) == Success(ChainRun(ChainState(question, Some(docs), reply), [RetrieveNode, GenerateNode])))
  {
    var s0 := ChainState(question, None, None);
    var r := Retrieve(question, corpus, svc);
    if r.Success? {
      var s1 := Apply(s0, RetrieveStep(s0, corpus, svc).value);
      assert s1 == ChainState(question, Some(r.value), None);
      StepThenRest(RetrieveNode, s0, corpus, svc);
      StepThenRest(GenerateNode, s1, corpus, svc);
      if GenerateStep(s1, svc).Success? {
        var s2 := Apply(s1, GenerateStep(s1, svc).value);
        assert s2 == ChainState(question, Some(r.value), svc.llm(Join(r.value, ContextSeparator), question));
        assert ExecuteFrom(End, s2, corpus, svc) == Success(ChainRun(s2, []));
        assert RunStep(GenerateNode, s1, corpus, svc) == GenerateStep(s1, svc) && NextNode(GenerateNode) == End;
        assert [GenerateNode] + [] == [GenerateNode];
        assert ExecuteFrom(GenerateNode, s1, corpus, svc) == Success(ChainRun(s2, [GenerateNode]));
        assert [RetrieveNode] + [GenerateNode] == [RetrieveNode, GenerateNode];
      }
    }
  }

  /** One step of a run: the node's update, then the rest of the run from the next node. */
  lemma StepThenRest(n: ChainNode, s: ChainState, corpus: seq<string>, svc: Services)
    requires n != End
    ensures var u := RunStep(n, s, corpus, svc);
      ExecuteFrom(n, s, corpus, svc) ==
        if u.Failure? then Failure(u.error)
        else
          var rest := ExecuteFrom(NextNode(n), Apply(s, u.value), corpus, svc);
          if rest.Failure? then Failure(rest.error) else Success(ChainRun(rest.value.state, [n] + rest.value.trace))
  {
  }
}
