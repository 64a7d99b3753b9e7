/** The conversational graph state (`RagConversationalState`) and the way LangGraph merges
    a node's partial return value into it: `messages` carries the `add_messages` reducer,
    so new messages are appended; `documents` has no reducer, so a new value replaces the old. */
module State {
  import opened Wrappers

  datatype Message = HumanMessage(content: string) | AIMessage(content: string)

  /** Exactly the two fields of the state record. */
  datatype RagState = RagState(messages: seq<Message>, documents: seq<string>)

  /** What a node returns: the keys it sets, each optional. */
  datatype Update = Update(messages: Option<seq<Message>>, documents: Option<seq<string>>)

  function NewMessages(u: Update): seq<Message> {
    if u.messages.Some? then u.messages.value else []
  }

  /** Merging one node update: the old history is kept as a prefix and the node's messages
      follow it; `documents` is the node's value when it returns one. */
  function Apply(s: RagState, u: Update): (r: RagState)
    ensures |r.messages| == |s.messages| + |NewMessages(u)|
    ensures r.messages[..|s.messages|] == s.messages
    ensures r.messages[|s.messages|..] == NewMessages(u)
    ensures r.documents == if u.documents.Some? then u.documents.value else s.documents
  {
    RagState(s.messages + NewMessages(u), if u.documents.Some? then u.documents.value else s.documents)
  }

  /** Merging a run of node updates, first to last. */
  function ApplyAll(s: RagState, us: seq<Update>): RagState
  {
    if us == [] then s else Apply(ApplyAll(s, us[..|us| - 1]), us[|us| - 1])
  }

  function TotalNew(us: seq<Update>): nat
  {
    if us == [] then 0 else TotalNew(us[..|us| - 1]) + |NewMessages(us[|us| - 1])|
  }

  /** `us[i]` is the last update of the run that sets `documents`. */
  predicate LastSetsDocuments(us: seq<Update>, i: int) {
    0 <= i < |us| && us[i].documents.Some? && forall j :: i < j < |us| ==> us[j].documents.None?
  }

  /** Over any run of updates the history only grows at its end, by exactly the messages the
      nodes returned, and `documents` is the value of the last update that set it, or the
      initial one when none did. */
  lemma {:induction false} ApplyAllAppends(s: RagState, us: seq<Update>)
    ensures |ApplyAll(s, us).messages| == |s.messages| + TotalNew(us)
    ensures ApplyAll(s, us).messages[..|s.messages|] == s.messages
    ensures forall i :: LastSetsDocuments(us, i) ==> ApplyAll(s, us).documents == us[i].documents.value
    ensures (forall i :: 0 <= i < |us| ==> us[i].documents.None?) ==> ApplyAll(s, us).documents == s.documents
  {
    if us != [] {
      var init := us[..|us| - 1];
      ApplyAllAppends(s, init);
      var mid := ApplyAll(s, init);
      assert mid.messages[..|s.messages|] == s.messages;
      assert ApplyAll(s, us).messages[..|mid.messages|] == mid.messages;
      assert ApplyAll(s, us).messages[..|s.messages|] == mid.messages[..|s.messages|];
      forall i | LastSetsDocuments(us, i)
        ensures ApplyAll(s, us).documents == us[i].documents.value
      {
        if i < |us| - 1 {
          assert us[|us| - 1].documents.None?;
          assert init[i] == us[i];
          assert forall j :: i < j < |init| ==> init[j] == us[j];
        }
      }
      if forall i :: 0 <= i < |us| ==> us[i].documents.None? {
        assert forall i :: 0 <= i < |init| ==> init[i] == us[i];
        assert us[|us| - 1].documents.None?;
      }
    }
  }
}
