/** The sequential graph `build_sequential_graph` wires up: four nodes, entry `retrieve`,
    `retrieve -> rerank`, a conditional edge out of `rerank`, and `generate`/`handle_no_documents`
    both to END. The successive `add_node`/`add_edge` calls only build this fixed table, so it
    is stated as a transition function; `Execute` is one run of the compiled graph. */
module Graph {
  import opened Wrappers
  import opened State
  import Nodes

  datatype Node = Retrieve | Rerank | Generate | HandleNoDocuments | End

  /** The nodes registered with `add_node`; there is no routing node. */
  const GraphNodes: set<Node> := {Retrieve, Rerank, Generate, HandleNoDocuments}

  const EntryPoint: Node := Retrieve

  /** The path map given to `add_conditional_edges`, as written: it is keyed by node names. */
  function PathMapAsWritten(key: string): Option<Node>
  {
    if key == "generate" then Some(Generate)
    else if key == "handle_no_documents" then Some(HandleNoDocuments)
    else None
  }

  /** The edge out of `rerank` as written: the guard's label looked up in that path map. */
  function RerankSuccessorAsWritten(documents: seq<string>): Option<Node>
  {
    PathMapAsWritten(Nodes.GuardName(Nodes.DocumentsExist(documents)))
  }

  /** Neither label `documents_exist` can return is a key of the path map, so as written the
      conditional edge has no target for any state. */
  lemma RerankSuccessorAsWrittenUndefined(documents: seq<string>)
    ensures RerankSuccessorAsWritten(documents) == None
  {
    assert "continue" != "generate" && "continue" != "handle_no_documents";
    assert "handle_no_docs" != "generate" && "handle_no_docs" != "handle_no_documents";
  }

  /** The evidently intended path map: each guard label to the node it names. */
  function RerankTarget(l: Nodes.GuardLabel): (r: Node)
    ensures r in {Generate, HandleNoDocuments}
    ensures r == Generate <==> l == Nodes.Continue
  {
    match l
    case Continue => Generate
    case HandleNoDocs => HandleNoDocuments
  }

  /** How far a node is from END along the edges. */
  function Rank(n: Node): nat
  {
    match n
    case Retrieve => 3
    case Rerank => 2
    case Generate => 1
    case HandleNoDocuments => 1
    case End => 0
  }

  /** The edges, with the conditional edge read on the state `rerank` leaves behind. */
  function Successor(n: Node, s: RagState): (r: Node)
    requires n != End
    ensures Rank(r) < Rank(n)
  {
    match n
    case Retrieve => Rerank
    case Rerank => RerankTarget(Nodes.DocumentsExist(s.documents))
    case Generate => End
    case HandleNoDocuments => End
  }

  /** From every node the edges lead to END; from `rerank` to `generate` exactly when the
      state holds documents and to `handle_no_documents` otherwise. */
  lemma SuccessorSpec(s: RagState)
    ensures Successor(Retrieve, s) == Rerank
    ensures Successor(Rerank, s) == (if s.documents != [] then Generate else HandleNoDocuments)
    ensures Successor(Generate, s) == End && Successor(HandleNoDocuments, s) == End
  {
  }

  /** What the graph is run with: the routing label the retriever reads (the state record has
      no such field, so a run as written has `None`), the chunk list and the services. */
  datatype Env = Env(datasource: Option<Nodes.Json>, chunks: seq<Nodes.IndexedChunk>, svc: Nodes.Services)

  /** One node's return value. */
  function RunNode(n: Node, s: RagState, env: Env): Result<Update, Nodes.NodeError>
    requires n != End
  {
    match n
    case Retrieve =>
      var docs :- Nodes.Retrieve(s.messages, env.datasource, env.chunks, env.svc);
      Success(Update(None, Some(docs)))
    case Rerank =>
      var docs :- Nodes.Rerank(s.messages, s.documents, env.svc);
      Success(Update(None, Some(docs)))
    case Generate =>
      var ms :- Nodes.GenerateAnswer(s.messages, s.documents, env.svc);
      Success(Update(Some(ms), None))
    case HandleNoDocuments =>
      Success(Update(Some(Nodes.HandleNoDocuments()), None))
  }

  /** The final state of a run and the nodes it visited. */
  datatype Run = Run(state: RagState, trace: seq<Node>)

  /** The compiled graph run from node `n`: each node's update is merged into the state, then
      the run goes on from its successor. A run never shortens or rewrites the history, and
      visits at most `Rank(n)` nodes. */
  function Execute(n: Node, s: RagState, env: Env): (r: Result<Run, Nodes.NodeError>)
    ensures r.Success? ==> s.messages <= r.value.state.messages && |r.value.trace| <= Rank(n)
    decreases Rank(n)
  {
    if n == End then Success(Run(s, []))
    else
      var u :- RunNode(n, s, env);
      var s' := Apply(s, u);
      var rest :- Execute(Successor(n, s'), s', env);
      Success(Run(rest.state, [n] + rest.trace))
  }

  /** `graph.invoke(state)`: a run from the entry point. */
  function Invoke(s: RagState, env: Env): Result<Run, Nodes.NodeError>
  {
    Execute(EntryPoint, s, env)
  }

  /** The documents `rerank` leaves in the state on a successful run. */
  function Reranked(s: RagState, env: Env): Result<seq<string>, Nodes.NodeError>
  {
    var docs :- Nodes.Retrieve(s.messages, env.datasource, env.chunks, env.svc);
    Nodes.Rerank(s.messages, docs, env.svc)
  }

  /** One step of a run: the node's update, then the rest of the run from its successor. */
  lemma ExecuteStep(n: Node, s: RagState, env: Env)
    requires n != End
    ensures var u := RunNode(n, s, env);
      Execute(n, s, env) ==
        if u.Failure? then Failure(u.error)
        else
          var s' := Apply(s, u.value);
          var rest := Execute(Successor(n, s'), s', env);
          if rest.Failure? then Failure(rest.error) else Success(Run(rest.value.state, [n] + rest.value.trace))
  {
  }

  /** A successful run is `retrieve`, `rerank` and one last node chosen on the reranked state. */
  lemma InvokeRun(s: RagState, env: Env)
    requires Invoke(s, env).Success?
    ensures Reranked(s, env).Success?
    ensures var s2 := RagState(s.messages, Reranked(s, env).value);
      var last := Successor(Rerank, s2);
      && RunNode(last, s2, env).Success?
      && Invoke(s, env).value == Run(Apply(s2, RunNode(last, s2, env).value), [Retrieve, Rerank, last])
  {
    ExecuteStep(Retrieve, s, env);
    var docs := Nodes.Retrieve(s.messages, env.datasource, env.chunks, env.svc).value;
    var s1 := Apply(s, Update(None, Some(docs)));
    assert s1 == RagState(s.messages, docs);
    RunFromRerank(s1, env);
    assert [Retrieve] + [Rerank, Successor(Rerank, RagState(s.messages, Reranked(s, env).value))]
      == [Retrieve, Rerank, Successor(Rerank, RagState(s.messages, Reranked(s, env).value))];
  }

  /** The part of a successful run from `rerank` on. */
  lemma RunFromRerank(s1: RagState, env: Env)
    requires Execute(Rerank, s1, env).Success?
    ensures Nodes.Rerank(s1.messages, s1.documents, env.svc).Success?
    ensures var s2 := RagState(s1.messages, Nodes.Rerank(s1.messages, s1.documents, env.svc).value);
      var last := Successor(Rerank, s2);
      && RunNode(last, s2, env).Success?
      && Execute(Rerank, s1, env).value == Run(Apply(s2, RunNode(last, s2, env).value), [Rerank, last])
  {
    ExecuteStep(Rerank, s1, env);
    var ranked := Nodes.Rerank(s1.messages, s1.documents, env.svc).value;
    var s2 := Apply(s1, Update(None, Some(ranked)));
    assert s2 == RagState(s1.messages, ranked);
    var last := Successor(Rerank, s2);
    ExecuteStep(last, s2, env);
    var u := RunNode(last, s2, env).value;
    var s3 := Apply(s2, u);
    assert Execute(Successor(last, s3), s3, env) == Success(Run(s3, []));
  }

  /** A successful run visits `retrieve`, `rerank` and then exactly one of `generate` and
      `handle_no_documents`, `generate` iff the reranked documents are non-empty. The history
      grows by exactly one `AIMessage`: the model's reply to the documents and the last
      question (`GenerateAnswer`), or the fixed apology. */
  lemma InvokeOutcome(s: RagState, env: Env)
    requires Invoke(s, env).Success?
    ensures var run := Invoke(s, env).value;
      && Reranked(s, env) == Success(run.state.documents)
      && |run.trace| == 3 && run.trace[0] == Retrieve && run.trace[1] == Rerank
      && (forall i :: 0 <= i < |run.trace| ==> run.trace[i] in GraphNodes)
      && (run.trace[2] == Generate <==> run.state.documents != [])
      && (run.trace[2] == HandleNoDocuments <==> run.state.documents == [])
      && |run.state.messages| == |s.messages| + 1
      && run.state.messages[..|s.messages|] == s.messages
      && (run.state.documents == [] ==> run.state.messages[|s.messages|] == AIMessage(Nodes.Apology))
      && (run.state.documents != [] ==>
            Nodes.GenerateAnswer(s.messages, run.state.documents, env.svc) == Success([run.state.messages[|s.messages|]]))
  {
    InvokeRun(s, env);
    var s2 := RagState(s.messages, Reranked(s, env).value);
    var last := Successor(Rerank, s2);
    var u := RunNode(last, s2, env).value;
    assert u.documents.None? && |NewMessages(u)| == 1;
    if s2.documents == [] {
      assert NewMessages(u) == [AIMessage(Nodes.Apology)];
    } else {
      assert Nodes.GenerateAnswer(s.messages, s2.documents, env.svc) == Success(NewMessages(u));
    }
  }

  /** A successful run leaves one more message than it was given. */
  lemma InvokeAddsMessage(s: RagState, env: Env)
    requires Invoke(s, env).Success?
    ensures |Invoke(s, env).value.state.messages| == |s.messages| + 1
  {
    InvokeOutcome(s, env);
  }

  /** The retriever reads `state['datasource']` before anything else, so without a label every
      run fails, whatever the history and services. */
  lemma InvokeWithoutDatasourceFails(s: RagState, env: Env)
    requires env.datasource.None?
    ensures Invoke(s, env) == Failure(Nodes.MissingDatasource)
  {
  }
}
