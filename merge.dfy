/** The candidate merge shared by both retrievers: an insertion-ordered dict `final_docs` keyed
    by chunk text, filled first from the vector hits (`final_docs[text] = score`, which keeps a
    key's position and overwrites its value) and then from the lexical hits (only for texts not
    yet present). */
module Merge {

  datatype Entry = Entry(text: string, score: real)

  function Texts(es: seq<Entry>): (r: seq<string>)
    ensures |r| == |es| && forall i :: 0 <= i < |es| ==> r[i] == es[i].text
  {
    seq(|es|, i requires 0 <= i < |es| => es[i].text)
  }

  predicate NoDup<T(==)>(s: seq<T>) {
    forall i, j :: 0 <= i < j < |s| ==> s[i] != s[j]
  }

  /** `list(dict.fromkeys(s))`: the distinct elements of `s`, each at its first occurrence. */
  function Dedup(s: seq<string>): (r: seq<string>)
    ensures |r| <= |s|
    ensures forall x :: x in r <==> x in s
    ensures NoDup(r)
  {
    if s == [] then []
    else
      var d := Dedup(s[..|s| - 1]);
      assert s == s[..|s| - 1] + [s[|s| - 1]];
      if s[|s| - 1] in d then d else d + [s[|s| - 1]]
  }

  /** The index of the first occurrence of `x` in `s`. */
  function FirstIndex(s: seq<string>, x: string): (i: nat)
    requires x in s
    ensures i < |s| && s[i] == x && x !in s[..i]
  {
    if s[0] == x then 0 else 1 + FirstIndex(s[1..], x)
  }

  lemma {:induction false} FirstIndexSnoc(s: seq<string>, y: string, x: string)
    requires x in s + [y]
    ensures FirstIndex(s + [y], x) == if x in s then FirstIndex(s, x) else |s|
  {
    if s != [] && s[0] != x {
      assert (s + [y])[1..] == s[1..] + [y];
      assert x in s <==> x in s[1..];
      FirstIndexSnoc(s[1..], y, x);
    }
  }

  lemma TextsSnoc(es: seq<Entry>, i: nat)
    requires i < |es|
    ensures Texts(es[..i + 1]) == Texts(es[..i]) + [es[i].text]
  {
  }

  lemma DedupSnoc(s: seq<string>, x: string)
    ensures Dedup(s + [x]) == if x in Dedup(s) then Dedup(s) else Dedup(s) + [x]
  {
    assert (s + [x])[..|s|] == s;
  }

  lemma LastScoreSnoc(es: seq<Entry>, i: nat, x: string)
    requires i < |es| && x in Texts(es[..i + 1])
    ensures LastScore(es[..i + 1], x) == if es[i].text == x then es[i].score else LastScore(es[..i], x)
  {
    assert es[..i + 1][..i] == es[..i];
  }

  lemma FirstScoreSnoc(es: seq<Entry>, j: nat, x: string)
    requires j < |es| && x in Texts(es[..j + 1])
    ensures FirstScore(es[..j + 1], x) == if x in Texts(es[..j]) then FirstScore(es[..j], x) else es[j].score
  {
    assert es[..j + 1][..j] == es[..j];
  }

  /** `Dedup` lists the distinct elements in the order of their first occurrence, which with
      `NoDup` and the membership clause of its contract pins it down completely. */
  lemma {:induction false} DedupFirstOccurrenceOrder(s: seq<string>)
    ensures forall i, j :: 0 <= i < j < |Dedup(s)| ==> FirstIndex(s, Dedup(s)[i]) < FirstIndex(s, Dedup(s)[j])
  {
    if s != [] {
      var p := s[..|s| - 1];
      var y := s[|s| - 1];
      var d := Dedup(p);
      DedupFirstOccurrenceOrder(p);
      assert s == p + [y];
      var r := Dedup(s);
      forall i, j | 0 <= i < j < |r| ensures FirstIndex(s, r[i]) < FirstIndex(s, r[j]) {
        FirstIndexSnoc(p, y, r[i]);
        FirstIndexSnoc(p, y, r[j]);
        assert r[i] in d;
        if j < |d| {
          assert r[i] == d[i] && r[j] == d[j];
        } else {
          assert r[j] == y && y !in p;
          assert FirstIndex(p, r[i]) < |p|;
        }
      }
    }
  }

  /** Deduplicating a concatenation starts with the deduplicated first part. */
  lemma {:induction false} DedupPrefix(a: seq<string>, b: seq<string>)
    ensures |Dedup(a)| <= |Dedup(a + b)| && Dedup(a + b)[..|Dedup(a)|] == Dedup(a)
    ensures forall k :: |Dedup(a)| <= k < |Dedup(a + b)| ==> Dedup(a + b)[k] in b && Dedup(a + b)[k] !in a
  {
    if b == [] {
      assert a + b == a;
    } else {
      var b' := b[..|b| - 1];
      DedupPrefix(a, b');
      assert a + b == (a + b') + [b[|b| - 1]];
      assert (a + b)[..|a + b| - 1] == a + b';
      var r := Dedup(a + b);
      var r' := Dedup(a + b');
      assert r == r' || r == r' + [b[|b| - 1]];
      assert r[..|r'|] == r';
      forall k | |Dedup(a)| <= k < |r| ensures r[k] in b && r[k] !in a {
        if k < |r'| {
          assert r[k] == r'[k];
          assert r'[k] in b' && b' <= b;
        } else {
          assert r[k] == b[|b| - 1];
          assert r[k] !in r';
        }
      }
    }
  }

  /** The value `final_docs[x]` keeps after `final_docs[e.text] = e.score` for every `e`: the last one. */
  function LastScore(es: seq<Entry>, x: string): real
    requires x in Texts(es)
  {
    var n := |es| - 1;
    assert Texts(es) == Texts(es[..n]) + [es[n].text];
    if es[n].text == x then es[n].score else LastScore(es[..n], x)
  }

  /** The value `final_docs[x]` keeps when only missing keys are filled in: the first one. */
  function FirstScore(es: seq<Entry>, x: string): real
    requires x in Texts(es)
  {
    var n := |es| - 1;
    assert Texts(es) == Texts(es[..n]) + [es[n].text];
    if x in Texts(es[..n]) then FirstScore(es[..n], x) else es[n].score
  }

  /** The score stored for a merged text: the vector score when the text is a vector hit
      (a lexical entry never overwrites it), the first lexical score otherwise. */
  function MergedScore(vec: seq<Entry>, lex: seq<Entry>, x: string): real
    requires x in Texts(vec) || x in Texts(lex)
  {
    if x in Texts(vec) then LastScore(vec, x) else FirstScore(lex, x)
  }

  /** The first loop: `final_docs[e.text] = e.score` for every vector entry, from an empty dict.
      `keys` is the dict's key order and `scores` its contents. */
  method AssignAll(vec: seq<Entry>) returns (keys: seq<string>, scores: map<string, real>)
    ensures keys == Dedup(Texts(vec))
    ensures forall x :: x in scores <==> x in keys
    ensures forall x :: x in scores ==> x in Texts(vec) && scores[x] == LastScore(vec, x)
  {
    keys, scores := [], map[];
    var i := 0;
    while i < |vec|
      invariant 0 <= i <= |vec|
      invariant keys == Dedup(Texts(vec[..i]))
      invariant forall x :: x in scores <==> x in keys
      invariant forall x :: x in scores ==> x in Texts(vec[..i]) && scores[x] == LastScore(vec[..i], x)
    {
      var e := vec[i];
      TextsSnoc(vec, i);
      DedupSnoc(Texts(vec[..i]), e.text);
      forall x | x in Texts(vec[..i + 1]) ensures LastScore(vec[..i + 1], x) == if e.text == x then e.score else LastScore(vec[..i], x) {
        LastScoreSnoc(vec, i, x);
      }
      if e.text !in scores {
        keys := keys + [e.text];
      }
      scores := scores[e.text := e.score];
      i := i + 1;
    }
    assert vec[..|vec|] == vec;
  }

  /** After the second loop has seen `lex[..j]`: the keys present before it are untouched, and
      each key it added holds its first lexical score. */
  predicate FilledUpTo(scores0: map<string, real>, scores: map<string, real>, lex: seq<Entry>, j: nat)
    requires j <= |lex|
  {
    && (forall x :: x in scores0 ==> x in scores && scores[x] == scores0[x])
    && (forall x :: x in scores && x !in scores0 ==> x in Texts(lex[..j]) && scores[x] == FirstScore(lex[..j], x))
  }

  /** The state of the second loop after it has seen `lex[..j]`. */
  ghost predicate MissingFilled(base: seq<string>, scores0: map<string, real>, lex: seq<Entry>, j: nat,
                          keys: seq<string>, scores: map<string, real>)
    requires j <= |lex|
  {
    && keys == Dedup(base + Texts(lex[..j]))
    && (forall x :: x in scores <==> x in keys)
    && FilledUpTo(scores0, scores, lex, j)
  }

  /** One step of the second loop keeps the key order and the key set in step. */
  lemma KeyStep(base: seq<string>, lex: seq<Entry>, j: nat, keys: seq<string>, scores: map<string, real>)
    requires j < |lex| && keys == Dedup(base + Texts(lex[..j]))
    requires forall x :: x in scores <==> x in keys
    ensures var e := lex[j]; var k' := if e.text in scores then keys else keys + [e.text];
      && k' == Dedup(base + Texts(lex[..j + 1]))
      && forall x :: x in (if e.text in scores then scores else scores[e.text := e.score]) <==> x in k'
  {
    var e := lex[j];
    TextsSnoc(lex, j);
    assert base + Texts(lex[..j + 1]) == (base + Texts(lex[..j])) + [e.text];
    DedupSnoc(base + Texts(lex[..j]), e.text);
  }

  /** One step of the second loop keeps `FilledUpTo`. */
  lemma FillStep(scores0: map<string, real>, scores: map<string, real>, lex: seq<Entry>, j: nat)
    requires j < |lex|
    requires forall x :: x in Texts(lex[..j]) ==> x in scores
    requires FilledUpTo(scores0, scores, lex, j)
    ensures FilledUpTo(scores0, if lex[j].text in scores then scores else scores[lex[j].text := lex[j].score], lex, j + 1)
  {
    TextsSnoc(lex, j);
    var e := lex[j];
    var s' := if e.text in scores then scores else scores[e.text := e.score];
    forall x | x in s' && x !in scores0 ensures x in Texts(lex[..j + 1]) && s'[x] == FirstScore(lex[..j + 1], x) {
      FirstScoreSnoc(lex, j, x);
    }
  }

  /** One step of the second loop keeps `MissingFilled`. */
  lemma MissingStep(base: seq<string>, scores0: map<string, real>, lex: seq<Entry>, j: nat,
                    keys: seq<string>, scores: map<string, real>)
    requires j < |lex| && MissingFilled(base, scores0, lex, j, keys, scores)
    ensures var e := lex[j];
      MissingFilled(base, scores0, lex, j + 1,
                    if e.text in scores then keys else keys + [e.text],
                    if e.text in scores then scores else scores[e.text := e.score])
  {
    KeyStep(base, lex, j, keys, scores);
    forall x | x in Texts(lex[..j]) ensures x in scores {
      assert x in base + Texts(lex[..j]);
    }
    FillStep(scores0, scores, lex, j);
  }

  /** The second loop: `if e.text not in final_docs: final_docs[e.text] = e.score` for every
      lexical entry. Keys already present keep their position and their score. */
  method AssignMissing(base: seq<string>, keys0: seq<string>, scores0: map<string, real>, lex: seq<Entry>)
    returns (keys: seq<string>, scores: map<string, real>)
    requires keys0 == Dedup(base)
    requires forall x :: x in scores0 <==> x in keys0
    ensures keys == Dedup(base + Texts(lex))
    ensures forall x :: x in scores <==> x in keys
    ensures FilledUpTo(scores0, scores, lex, |lex|)
  {
    keys, scores := keys0, scores0;
    assert base + Texts(lex[..0]) == base;
    var j := 0;
    while j < |lex|
      invariant 0 <= j <= |lex|
      invariant MissingFilled(base, scores0, lex, j, keys, scores)
    {
      var e := lex[j];
      MissingStep(base, scores0, lex, j, keys, scores);
      if e.text !in scores {
        keys := keys + [e.text];
        scores := scores[e.text := e.score];
      }
      j := j + 1;
    }
    assert lex[..|lex|] == lex;
  }

  /** Both loops that fill `final_docs`: the dict's keys, in order, are the distinct texts of
      the vector entries followed by those of the lexical entries, and each stored score is
      `MergedScore`: the vector score wins. */
  method MergeCandidates(vec: seq<Entry>, lex: seq<Entry>) returns (keys: seq<string>, scores: map<string, real>)
    ensures keys == Dedup(Texts(vec) + Texts(lex))
    ensures forall x :: x in scores <==> x in keys
    ensures forall x :: x in scores ==> (x in Texts(vec) || x in Texts(lex)) && scores[x] == MergedScore(vec, lex, x)
  {
    var keys1, scores1 := AssignAll(vec);
    keys, scores := AssignMissing(Texts(vec), keys1, scores1, lex);
    assert lex[..|lex|] == lex;
  }
}
