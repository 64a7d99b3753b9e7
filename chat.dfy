/** One `/chat` turn: choose the conversation id, send the graph one `HumanMessage`, and answer
    with the last message of the final state. The checkpointer is a map from thread id to the
    saved state; the fresh uuid and `str(message)` are parameters. */
module Chat {
  import opened Wrappers
  import opened State
  import Nodes
  import Graph

  datatype ChatRequest = ChatRequest(userInput: string, conversationId: Option<string>)
  datatype ChatResponse = ChatResponse(assistantResponse: string, conversationId: string)

  /** `request.conversation_id or str(uuid.uuid4())`: a supplied id is kept unless it is
      missing or empty. */
  function ConversationId(requested: Option<string>, newId: string): (r: string)
    ensures requested.Some? && requested.value != "" ==> r == requested.value
    ensures requested.None? || requested.value == "" ==> r == newId
  {
    if requested.Some? && requested.value != "" then requested.value else newId
  }

  /** The saved states, by thread id. */
  type Sessions = map<string, RagState>

  /** The state a thread resumes from: its checkpoint, or the empty state for a new thread. */
  function Checkpoint(sessions: Sessions, id: string): RagState
  {
    if id in sessions then sessions[id] else RagState([], [])
  }

  /** The graph input: exactly one `HumanMessage` carrying the user input. */
  function TurnInput(req: ChatRequest): Update
  {
    Update(Some([HumanMessage(req.userInput)]), None)
  }

  /** `last_message.content` for an `AIMessage`, `str(last_message)` otherwise. */
  function ResponseText(m: Message, render: Message -> string): string
  {
    if m.AIMessage? then m.content else render(m)
  }

  /** The endpoint: the response and the sessions after the turn's checkpoint. */
  function ChatTurn(sessions: Sessions, req: ChatRequest, newId: string, env: Graph.Env, render: Message -> string)
    : (r: Result<(ChatResponse, Sessions), Nodes.NodeError>)
    ensures r.Success? ==> r.value.0.conversationId == ConversationId(req.conversationId, newId)
  {
    var id := ConversationId(req.conversationId, newId);
    var start := Apply(Checkpoint(sessions, id), TurnInput(req));
    var run :- Graph.Invoke(start, env);
    Graph.InvokeAddsMessage(start, env);
    Success(Respond(sessions, id, run.state, render))
  }

  /** The response built from the final state's last message, and the new checkpoint. */
  function Respond(sessions: Sessions, id: string, final: RagState, render: Message -> string): (ChatResponse, Sessions)
    requires final.messages != []
  {
    (ChatResponse(ResponseText(final.messages[|final.messages| - 1], render), id), sessions[id := final])
  }

  /** A successful turn checkpoints the thread under the id it returns and leaves every other
      thread as it was. */
  lemma ChatTurnSessions(sessions: Sessions, req: ChatRequest, newId: string, env: Graph.Env, render: Message -> string)
    requires ChatTurn(sessions, req, newId, env, render).Success?
    ensures var (resp, sessions') := ChatTurn(sessions, req, newId, env, render).value;
      && resp.conversationId == ConversationId(req.conversationId, newId)
      && sessions'.Keys == sessions.Keys + {resp.conversationId}
      && forall k :: k in sessions && k != resp.conversationId ==> sessions'[k] == sessions[k]
  {
  }

  /** A successful turn extends the thread's history by the user's message and one answer,
      which is the response text: the apology when nothing survives reranking, otherwise the
      model's reply to the reranked documents and this turn's input alone. */
  lemma ChatTurnHistory(sessions: Sessions, req: ChatRequest, newId: string, env: Graph.Env, render: Message -> string)
    requires ChatTurn(sessions, req, newId, env, render).Success?
    ensures var r := ChatTurn(sessions, req, newId, env, render).value;
      var id := ConversationId(req.conversationId, newId);
      && r.1[id].messages == Checkpoint(sessions, id).messages + [HumanMessage(req.userInput), AIMessage(r.0.assistantResponse)]
      && (r.1[id].documents == [] ==> r.0.assistantResponse == Nodes.Apology)
      && (r.1[id].documents != [] ==>
            Nodes.GenerateAnswer([HumanMessage(req.userInput)], r.1[id].documents, env.svc)
              == Success([AIMessage(r.0.assistantResponse)]))
  {
    var id := ConversationId(req.conversationId, newId);
    var start := Apply(Checkpoint(sessions, id), TurnInput(req));
    var final := Graph.Invoke(start, env).value.state;
    TurnAnswer(start, env);
    assert ChatTurn(sessions, req, newId, env, render) == Success(Respond(sessions, id, final, render));
    RespondHistory(sessions, id, req.userInput, final, env, render);
  }

  /** `ChatTurnHistory` for a final state that `TurnAnswer` describes. */
  lemma RespondHistory(sessions: Sessions, id: string, input: string, final: RagState, env: Graph.Env, render: Message -> string)
    requires var prev := Checkpoint(sessions, id).messages + [HumanMessage(input)];
      && |final.messages| == |prev| + 1
      && final.messages[|prev|].AIMessage?
      && final.messages == prev + [final.messages[|prev|]]
      && (final.documents == [] ==> final.messages[|prev|].content == Nodes.Apology)
      && (final.documents != [] ==>
            Nodes.GenerateAnswer(prev, final.documents, env.svc) == Success([AIMessage(final.messages[|prev|].content)]))
    ensures var r := Respond(sessions, id, final, render);
      && r.1[id].messages == Checkpoint(sessions, id).messages + [HumanMessage(input), AIMessage(r.0.assistantResponse)]
      && (r.1[id].documents == [] ==> r.0.assistantResponse == Nodes.Apology)
      && (r.1[id].documents != [] ==>
            Nodes.GenerateAnswer([HumanMessage(input)], r.1[id].documents, env.svc) == Success([AIMessage(r.0.assistantResponse)]))
  {
    var prev := Checkpoint(sessions, id).messages;
    if final.documents != [] {
      Nodes.GenerateAnswerReadsLastMessage(prev, HumanMessage(input), final.documents, env.svc);
    }
  }

  /** The consequences of `Graph.InvokeOutcome` a turn needs, in terms of the appended answer. */
  lemma TurnAnswer(start: RagState, env: Graph.Env)
    requires Graph.Invoke(start, env).Success?
    ensures var run := Graph.Invoke(start, env).value;
      && |run.state.messages| == |start.messages| + 1
      && var answer := run.state.messages[|start.messages|];
      && answer.AIMessage?
      && run.state.messages == start.messages + [answer]
      && (run.state.documents == [] ==> answer.content == Nodes.Apology)
      && (run.state.documents != [] ==>
            Nodes.GenerateAnswer(start.messages, run.state.documents, env.svc) == Success([AIMessage(answer.content)]))
  {
    Graph.InvokeOutcome(start, env);
    var ms := Graph.Invoke(start, env).value.state.messages;
    PrefixPlusLast(ms, |start.messages|);
    if Graph.Invoke(start, env).value.state.documents != [] {
      var r := Nodes.GenerateAnswer(start.messages, Graph.Invoke(start, env).value.state.documents, env.svc);
      assert r.value[0].AIMessage?;
    }
  }

  lemma PrefixPlusLast(ms: seq<Message>, n: nat)
    requires |ms| == n + 1
    ensures ms == ms[..n] + [ms[n]]
  {
  }

  /** The last message of a successful turn is always the node's `AIMessage`, so `str(...)`
      is never used. */
  lemma ChatTurnIgnoresRender(sessions: Sessions, req: ChatRequest, newId: string, env: Graph.Env,
                              render: Message -> string, render': Message -> string)
    ensures ChatTurn(sessions, req, newId, env, render) == ChatTurn(sessions, req, newId, env, render')
  {
    var id := ConversationId(req.conversationId, newId);
    var start := Apply(Checkpoint(sessions, id), TurnInput(req));
    if Graph.Invoke(start, env).Success? {
      TurnAnswer(start, env);
      var ms := Graph.Invoke(start, env).value.state.messages;
      assert ResponseText(ms[|ms| - 1], render) == ResponseText(ms[|ms| - 1], render');
    }
  }

  /** The state record has no `datasource` field, so the retriever's read of it fails and
      every turn ends in an error. */
  lemma ChatTurnWithoutDatasourceFails(sessions: Sessions, req: ChatRequest, newId: string, env: Graph.Env,
                                       render: Message -> string)
    requires env.datasource.None?
    ensures ChatTurn(sessions, req, newId, env, render) == Failure(Nodes.MissingDatasource)
  {
    var id := ConversationId(req.conversationId, newId);
    Graph.InvokeWithoutDatasourceFails(Apply(Checkpoint(sessions, id), TurnInput(req)), env);
  }
}
