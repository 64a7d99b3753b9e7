/** `create_and_contextualize_chunks`: each parent document is split into child chunks, and
    each child is sent with its parent to the model, whose reply (stripped) becomes the
    chunk's context. A child whose model call raises is skipped; the loop goes on. The text
    splitter and the model are parameters; `None` from the model stands for the exception. */
module Contextualize {
  import opened Wrappers
  import opened Text

  /** One element of `all_contextualized_chunks`. */
  datatype ChunkRecord = ChunkRecord(
    parentDocIndex: nat,
    originalChunk: string,
    generatedContext: string,
    contextualizedChunk: string)

  /** The record for child `chunk` of parent `i`, given the model's reply. */
  function MakeRecord(i: nat, chunk: string, reply: string): ChunkRecord
  {
    var context := Strip(reply);
    ChunkRecord(i, chunk, context, context + "\n\n" + chunk)
  }

  /** The records of one parent's children, in child order, without the failed ones. */
  function ChildRecords(i: nat, parent: string, children: seq<string>, llm: (string, string) -> Option<string>)
    : seq<ChunkRecord>
  {
    if children == [] then []
    else
      var init := ChildRecords(i, parent, children[..|children| - 1], llm);
      var chunk := children[|children| - 1];
      var reply := llm(parent, chunk);
      if reply.Some? then init + [MakeRecord(i, chunk, reply.value)] else init
  }

  /** A parent contributes at most one record per child, each tagged with that parent. */
  lemma {:induction false} ChildRecordsShape(i: nat, parent: string, children: seq<string>, llm: (string, string) -> Option<string>)
    ensures var r := ChildRecords(i, parent, children, llm);
      && |r| <= |children|
      && forall a :: 0 <= a < |r| ==> r[a].parentDocIndex == i
  {
    if children != [] {
      ChildRecordsShape(i, parent, children[..|children| - 1], llm);
    }
  }

  /** The positions of the children whose model call succeeds, in child order. */
  function Succeeded(parent: string, children: seq<string>, llm: (string, string) -> Option<string>): seq<nat>
  {
    if children == [] then []
    else
      Succeeded(parent, children[..|children| - 1], llm)
        + (if llm(parent, children[|children| - 1]).Some? then [|children| - 1] else [])
  }

  /** The records of one parent are its successful children in child order: the `a`-th record
      is made from the child at the `a`-th successful position, the positions increase (so no
      child is reordered or repeated), and every child whose call succeeds is among them. */
  lemma {:induction false} ChildRecordsAt(i: nat, parent: string, children: seq<string>, llm: (string, string) -> Option<string>)
    ensures var r, ps := ChildRecords(i, parent, children, llm), Succeeded(parent, children, llm);
      && |r| == |ps|
      && (forall a :: 0 <= a < |ps| ==>
            && ps[a] < |children| && llm(parent, children[ps[a]]).Some?
            && r[a] == MakeRecord(i, children[ps[a]], llm(parent, children[ps[a]]).value))
      && (forall a, b :: 0 <= a < b < |ps| ==> ps[a] < ps[b])
      && (forall j :: 0 <= j < |children| && llm(parent, children[j]).Some? ==> j in ps)
  {
    if children != [] {
      var n := |children| - 1;
      var init := children[..n];
      ChildRecordsAt(i, parent, init, llm);
      var r, r0 := ChildRecords(i, parent, children, llm), ChildRecords(i, parent, init, llm);
      var ps, ps0 := Succeeded(parent, children, llm), Succeeded(parent, init, llm);
      if llm(parent, children[n]).Some? {
        assert r == r0 + [MakeRecord(i, children[n], llm(parent, children[n]).value)] && ps == ps0 + [n];
        ChildRecordsAtSucceeded(i, parent, children, llm, r0, ps0);
      } else {
        assert r == r0 && ps == ps0;
        forall j | 0 <= j < |children| && llm(parent, children[j]).Some? ensures j in ps {
          assert j < n && init[j] == children[j];
        }
        forall a | 0 <= a < |ps| ensures
          && ps[a] < |children| && llm(parent, children[ps[a]]).Some?
          && r[a] == MakeRecord(i, children[ps[a]], llm(parent, children[ps[a]]).value)
        {
          assert init[ps0[a]] == children[ps0[a]];
        }
      }
    }
  }

  /** The step of `ChildRecordsAt` when the last child's call succeeds. */
  lemma ChildRecordsAtSucceeded(i: nat, parent: string, children: seq<string>, llm: (string, string) -> Option<string>,
                                r0: seq<ChunkRecord>, ps0: seq<nat>)
    requires children != [] && |r0| == |ps0|
    requires forall a :: 0 <= a < |ps0| ==>
      && ps0[a] < |children| - 1 && llm(parent, children[ps0[a]]).Some?
      && r0[a] == MakeRecord(i, children[ps0[a]], llm(parent, children[ps0[a]]).value)
    requires forall a, b :: 0 <= a < b < |ps0| ==> ps0[a] < ps0[b]
    requires forall j :: 0 <= j < |children| - 1 && llm(parent, children[j]).Some? ==> j in ps0
    requires llm(parent, children[|children| - 1]).Some?
    ensures var last := children[|children| - 1];
      var r, ps := r0 + [MakeRecord(i, last, llm(parent, last).value)], ps0 + [|children| - 1];
      && |r| == |ps|
      && (forall a :: 0 <= a < |ps| ==>
            && ps[a] < |children| && llm(parent, children[ps[a]]).Some?
            && r[a] == MakeRecord(i, children[ps[a]], llm(parent, children[ps[a]]).value))
      && (forall a, b :: 0 <= a < b < |ps| ==> ps[a] < ps[b])
      && (forall j :: 0 <= j < |children| && llm(parent, children[j]).Some? ==> j in ps)
  {
    var ps := ps0 + [|children| - 1];
    forall j | 0 <= j < |children| && llm(parent, children[j]).Some? ensures j in ps {
      if j < |children| - 1 {
        assert j in ps0;
      }
    }
  }

  /** The records of the first `n` parents. */
  function RecordsUpTo(parents: seq<string>, n: nat, split: string -> seq<string>, llm: (string, string) -> Option<string>)
    : seq<ChunkRecord>
    requires n <= |parents|
  {
    if n == 0 then []
    else RecordsUpTo(parents, n - 1, split, llm) + ChildRecords(n - 1, parents[n - 1], split(parents[n - 1]), llm)
  }

  function Contextualized(parents: seq<string>, split: string -> seq<string>, llm: (string, string) -> Option<string>)
    : seq<ChunkRecord>
  {
    RecordsUpTo(parents, |parents|, split, llm)
  }

  /** The nested loops that append to `all_contextualized_chunks`. */
  method CreateAndContextualizeChunks(parents: seq<string>, split: string -> seq<string>, llm: (string, string) -> Option<string>)
    returns (records: seq<ChunkRecord>)
    ensures records == Contextualized(parents, split, llm)
  {
    records := [];
    var i := 0;
    while i < |parents|
      invariant 0 <= i <= |parents|
      invariant records == RecordsUpTo(parents, i, split, llm)
    {
      var parent := parents[i];
      var children := split(parent);
      ghost var before := records;
      var j := 0;
      while j < |children|
        invariant 0 <= j <= |children|
        invariant records == before + ChildRecords(i, parent, children[..j], llm)
      {
        assert children[..j + 1][..j] == children[..j];
        var reply := llm(parent, children[j]);
        if reply.Some? {
          records := records + [MakeRecord(i, children[j], reply.value)];
        }
        j := j + 1;
      }
      assert children[..|children|] == children;
      i := i + 1;
    }
  }

  /** Every record of one parent is tagged with it, comes from one of its children, and holds
      the stripped reply followed by a blank line and the chunk. */
  lemma ChildRecordsWellFormed(i: nat, parent: string, children: seq<string>, llm: (string, string) -> Option<string>)
    ensures forall r :: r in ChildRecords(i, parent, children, llm) ==>
      && r.parentDocIndex == i && r.originalChunk in children
      && llm(parent, r.originalChunk).Some?
      && r.generatedContext == Strip(llm(parent, r.originalChunk).value)
      && IsStripped(r.generatedContext)
      && r.contextualizedChunk == r.generatedContext + "\n\n" + r.originalChunk
  {
    if children != [] {
      ChildRecordsWellFormed(i, parent, children[..|children| - 1], llm);
    }
  }

  /** Every record names a valid parent, one of that parent's children, and the format
      `context + "\n\n" + chunk` with the context the stripped model reply. */
  lemma {:induction false} RecordsWellFormed(parents: seq<string>, n: nat, split: string -> seq<string>, llm: (string, string) -> Option<string>)
    requires n <= |parents|
    ensures forall r :: r in RecordsUpTo(parents, n, split, llm) ==>
      && r.parentDocIndex < n
      && r.originalChunk in split(parents[r.parentDocIndex])
      && llm(parents[r.parentDocIndex], r.originalChunk).Some?
      && r.generatedContext == Strip(llm(parents[r.parentDocIndex], r.originalChunk).value)
      && IsStripped(r.generatedContext)
      && r.contextualizedChunk == r.generatedContext + "\n\n" + r.originalChunk
  {
    if n > 0 {
      RecordsWellFormed(parents, n - 1, split, llm);
      ChildRecordsWellFormed(n - 1, parents[n - 1], split(parents[n - 1]), llm);
    }
  }

  lemma {:induction false} RecordsBelow(parents: seq<string>, n: nat, split: string -> seq<string>, llm: (string, string) -> Option<string>)
    requires n <= |parents|
    ensures forall a :: 0 <= a < |RecordsUpTo(parents, n, split, llm)| ==> RecordsUpTo(parents, n, split, llm)[a].parentDocIndex < n
  {
    if n > 0 {
      RecordsBelow(parents, n - 1, split, llm);
      var init := RecordsUpTo(parents, n - 1, split, llm);
      var last := ChildRecords(n - 1, parents[n - 1], split(parents[n - 1]), llm);
      ChildRecordsShape(n - 1, parents[n - 1], split(parents[n - 1]), llm);
      assert forall a :: 0 <= a < |init + last| ==> (init + last)[a] == if a < |init| then init[a] else last[a - |init|];
    }
  }

  predicate ParentOrdered(rs: seq<ChunkRecord>)
  {
    forall a, b :: 0 <= a < b < |rs| ==> rs[a].parentDocIndex <= rs[b].parentDocIndex
  }

  /** Records come parent by parent: the parent index never decreases along the list. */
  lemma {:induction false} RecordsOrderedByParent(parents: seq<string>, n: nat, split: string -> seq<string>, llm: (string, string) -> Option<string>)
    requires n <= |parents|
    ensures ParentOrdered(RecordsUpTo(parents, n, split, llm))
  {
    if n > 0 {
      RecordsOrderedByParent(parents, n - 1, split, llm);
      RecordsBelow(parents, n - 1, split, llm);
      var init := RecordsUpTo(parents, n - 1, split, llm);
      var last := ChildRecords(n - 1, parents[n - 1], split(parents[n - 1]), llm);
      ChildRecordsShape(n - 1, parents[n - 1], split(parents[n - 1]), llm);
      assert forall a :: 0 <= a < |init + last| ==> (init + last)[a] == if a < |init| then init[a] else last[a - |init|];
    }
  }

  /** The records of parent `i`, in list order. */
  function OfParent(rs: seq<ChunkRecord>, i: nat): seq<ChunkRecord>
  {
    if rs == [] then []
    else OfParent(rs[..|rs| - 1], i) + (if rs[|rs| - 1].parentDocIndex == i then [rs[|rs| - 1]] else [])
  }

  lemma {:induction false} OfParentConcat(a: seq<ChunkRecord>, b: seq<ChunkRecord>, i: nat)
    ensures OfParent(a + b, i) == OfParent(a, i) + OfParent(b, i)
  {
    if b == [] {
      assert a + b == a;
    } else {
      OfParentConcat(a, b[..|b| - 1], i);
      assert (a + b)[..|a + b| - 1] == a + b[..|b| - 1];
    }
  }

  lemma {:induction false} OfParentAll(rs: seq<ChunkRecord>, i: nat)
    requires forall a :: 0 <= a < |rs| ==> rs[a].parentDocIndex == i
    ensures OfParent(rs, i) == rs
  {
    if rs != [] {
      OfParentAll(rs[..|rs| - 1], i);
    }
  }

  lemma {:induction false} OfParentNone(rs: seq<ChunkRecord>, i: nat)
    requires forall a :: 0 <= a < |rs| ==> rs[a].parentDocIndex != i
    ensures OfParent(rs, i) == []
  {
    if rs != [] {
      OfParentNone(rs[..|rs| - 1], i);
    }
  }

  /** Picking out the records of parent `i` from the whole list gives exactly that parent's
      children's records; with `ChildRecordsAt` and `RecordsOrderedByParent`, records are
      ordered by parent, then by child. */
  lemma {:induction false} RecordsOfParent(parents: seq<string>, n: nat, split: string -> seq<string>, llm: (string, string) -> Option<string>, i: nat)
    requires n <= |parents|
    ensures OfParent(RecordsUpTo(parents, n, split, llm), i) ==
      if i < n then ChildRecords(i, parents[i], split(parents[i]), llm) else []
  {
    if n > 0 {
      var init := RecordsUpTo(parents, n - 1, split, llm);
      var last := ChildRecords(n - 1, parents[n - 1], split(parents[n - 1]), llm);
      RecordsOfParent(parents, n - 1, split, llm, i);
      ChildRecordsShape(n - 1, parents[n - 1], split(parents[n - 1]), llm);
      var want := if i < n - 1 then ChildRecords(i, parents[i], split(parents[i]), llm) else [];
      OfParentAppend(init, last, i, n - 1, want);
    }
  }

  /** The step of `RecordsOfParent`: appending the records of parent `k` adds them to the
      selection of `k` and to no other. */
  lemma OfParentAppend(init: seq<ChunkRecord>, last: seq<ChunkRecord>, i: nat, k: nat, want: seq<ChunkRecord>)
    requires forall a :: 0 <= a < |last| ==> last[a].parentDocIndex == k
    requires OfParent(init, i) == if i < k then want else []
    ensures OfParent(init + last, i) == if i < k then want else if i == k then last else []
  {
    OfParentConcat(init, last, i);
    if i == k {
      OfParentAll(last, i);
      assert [] + last == last;
    } else {
      OfParentNone(last, i);
      assert OfParent(init, i) + [] == OfParent(init, i);
    }
  }

  /** The number of child chunks of the first `n` parents. */
  function TotalChildren(parents: seq<string>, n: nat, split: string -> seq<string>): nat
    requires n <= |parents|
  {
    if n == 0 then 0 else TotalChildren(parents, n - 1, split) + |split(parents[n - 1])|
  }

  /** No model call for the children of the first `n` parents fails (stated parent by parent). */
  predicate NoCallFails(parents: seq<string>, n: nat, split: string -> seq<string>, llm: (string, string) -> Option<string>)
    requires n <= |parents|
  {
    n == 0 || (NoCallFails(parents, n - 1, split, llm) && ChildrenSucceed(parents[n - 1], split(parents[n - 1]), llm))
  }

  predicate ChildrenSucceed(parent: string, children: seq<string>, llm: (string, string) -> Option<string>)
  {
    forall j :: 0 <= j < |children| ==> llm(parent, children[j]).Some?
  }

  lemma {:induction false} EveryCallSucceeds(parents: seq<string>, n: nat, split: string -> seq<string>, llm: (string, string) -> Option<string>)
    requires n <= |parents|
    requires forall i :: 0 <= i < n ==> ChildrenSucceed(parents[i], split(parents[i]), llm)
    ensures NoCallFails(parents, n, split, llm)
  {
    if n > 0 {
      EveryCallSucceeds(parents, n - 1, split, llm);
    }
  }

  /** A failure drops only its own chunk: there are never more records than child chunks... */
  lemma {:induction false} RecordCount(parents: seq<string>, n: nat, split: string -> seq<string>, llm: (string, string) -> Option<string>)
    requires n <= |parents|
    ensures |RecordsUpTo(parents, n, split, llm)| <= TotalChildren(parents, n, split)
  {
    if n > 0 {
      RecordCount(parents, n - 1, split, llm);
      ChildRecordsShape(n - 1, parents[n - 1], split(parents[n - 1]), llm);
    }
  }

  /** ... and exactly as many when no call for any child of any parent fails. */
  lemma RecordCountWithoutFailures(parents: seq<string>, split: string -> seq<string>, llm: (string, string) -> Option<string>)
    requires forall i :: 0 <= i < |parents| ==> ChildrenSucceed(parents[i], split(parents[i]), llm)
    ensures |Contextualized(parents, split, llm)| == TotalChildren(parents, |parents|, split)
  {
    EveryCallSucceeds(parents, |parents|, split, llm);
    CountWithoutFailures(parents, |parents|, split, llm);
  }

  lemma {:induction false} CountWithoutFailures(parents: seq<string>, n: nat, split: string -> seq<string>, llm: (string, string) -> Option<string>)
    requires n <= |parents|
    requires NoCallFails(parents, n, split, llm)
    ensures |RecordsUpTo(parents, n, split, llm)| == TotalChildren(parents, n, split)
  {
    if n > 0 {
      CountWithoutFailures(parents, n - 1, split, llm);
      ChildrenAllSucceed(n - 1, parents[n - 1], split(parents[n - 1]), llm);
    }
  }

  lemma {:induction false} ChildrenAllSucceed(i: nat, parent: string, children: seq<string>, llm: (string, string) -> Option<string>)
    requires ChildrenSucceed(parent, children, llm)
    ensures |ChildRecords(i, parent, children, llm)| == |children|
  {
    if children != [] {
      ChildrenAllSucceed(i, parent, children[..|children| - 1], llm);
    }
  }

  /** A child whose call succeeds is never lost: its record is in the output. */
  lemma {:induction false} SucceededChildKept(parents: seq<string>, n: nat, split: string -> seq<string>, llm: (string, string) -> Option<string>, i: nat, j: nat)
    requires i < n <= |parents| && j < |split(parents[i])|
    requires llm(parents[i], split(parents[i])[j]).Some?
    ensures MakeRecord(i, split(parents[i])[j], llm(parents[i], split(parents[i])[j]).value) in RecordsUpTo(parents, n, split, llm)
  {
    if i < n - 1 {
      SucceededChildKept(parents, n - 1, split, llm, i, j);
    } else {
      ChildKept(i, parents[i], split(parents[i]), llm, j);
    }
  }

  lemma {:induction false} ChildKept(i: nat, parent: string, children: seq<string>, llm: (string, string) -> Option<string>, j: nat)
    requires j < |children| && llm(parent, children[j]).Some?
    ensures MakeRecord(i, children[j], llm(parent, children[j]).value) in ChildRecords(i, parent, children, llm)
  {
    if j < |children| - 1 {
      assert children[..|children| - 1][j] == children[j];
      ChildKept(i, parent, children[..|children| - 1], llm, j);
    }
  }
}
