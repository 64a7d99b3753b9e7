/** Python's `sorted(..., key=score, reverse=True)` and `list.sort(key=score, reverse=True)`
    followed by a `[:k]` cut. Python's sort is stable, and `reverse=True` keeps equal keys
    in their original order, so the order produced is: larger score first, and among equal
    scores the smaller original position first. The model sorts POSITIONS; the callers map
    positions back to their items. */
module Ranking {

  /** Position `p` comes before position `q` in a stable descending sort by `keys`. */
  predicate Precedes(keys: seq<real>, p: nat, q: nat) {
    p < |keys| && q < |keys| && (keys[p] > keys[q] || (keys[p] == keys[q] && p < q))
  }

  /** Every element of `ps` is a position of `keys`, and `ps` is strictly ordered by `Precedes`
      (so it is also free of duplicates). */
  predicate InStableOrder(keys: seq<real>, ps: seq<nat>) {
    forall a, b :: 0 <= a < b < |ps| ==> Precedes(keys, ps[a], ps[b])
  }

  predicate Positions(keys: seq<real>, ps: seq<nat>) {
    forall a :: 0 <= a < |ps| ==> ps[a] < |keys|
  }

  /** One step of the insertion sort: `p`, later than every position in `ps`, goes after
      every position whose key is at least its own. */
  function Insert(keys: seq<real>, ps: seq<nat>, p: nat): (r: seq<nat>)
    requires p < |keys| && Positions(keys, ps) && InStableOrder(keys, ps)
    requires forall a :: 0 <= a < |ps| ==> ps[a] < p
    ensures |r| == |ps| + 1
    ensures forall x :: x in r <==> x in ps || x == p
    ensures Positions(keys, r) && InStableOrder(keys, r)
  {
    if ps == [] then [p]
    else if keys[ps[0]] >= keys[p] then
      assert InStableOrder(keys, ps[1..]);
      var tail := Insert(keys, ps[1..], p);
      assert forall x :: x in tail ==> Precedes(keys, ps[0], x) by {
        forall x | x in tail ensures Precedes(keys, ps[0], x) {
          if x != p {
            var b :| 0 <= b < |ps[1..]| && ps[1..][b] == x;
            assert Precedes(keys, ps[0], ps[b + 1]);
          }
        }
      }
      assert [ps[0]] + ps[1..] == ps;
      [ps[0]] + tail
    else
      assert forall b :: 0 <= b < |ps| ==> keys[ps[b]] <= keys[ps[0]] by {
        forall b | 0 < b < |ps| ensures keys[ps[b]] <= keys[ps[0]] {
          assert Precedes(keys, ps[0], ps[b]);
        }
      }
      [p] + ps
  }

  /** Positions `0 .. n-1` of `keys`, in stable descending order of their keys. */
  function StableOrderOf(keys: seq<real>, n: nat): (r: seq<nat>)
    requires n <= |keys|
    ensures |r| == n
    ensures forall x :: x in r <==> 0 <= x < n
    ensures Positions(keys, r) && InStableOrder(keys, r)
  {
    if n == 0 then []
    else
      var ps := StableOrderOf(keys, n - 1);
      assert forall a :: 0 <= a < |ps| ==> ps[a] in ps;
      Insert(keys, ps, n - 1)
  }

  /** The order in which a stable descending sort by `keys` lists the positions. */
  function StableOrder(keys: seq<real>): seq<nat>
  {
    StableOrderOf(keys, |keys|)
  }

  /** The head of a strictly ordered sequence precedes every other element of it. */
  lemma HeadPrecedesRest(keys: seq<real>, a: seq<nat>)
    requires InStableOrder(keys, a) && a != []
    ensures forall x :: x in a && x != a[0] ==> Precedes(keys, a[0], x)
  {
    forall x | x in a && x != a[0] ensures Precedes(keys, a[0], x) {
      var t :| 0 <= t < |a| && a[t] == x;
      assert t != 0;
    }
  }

  /** Two strictly ordered sequences of the same length with the same elements are equal. */
  lemma {:induction false} OrderedUnique(keys: seq<real>, a: seq<nat>, b: seq<nat>)
    requires InStableOrder(keys, a) && InStableOrder(keys, b) && |a| == |b|
    requires forall x :: x in a <==> x in b
    ensures a == b
  {
    if a != [] {
      assert a[0] in b && b[0] in a;
      HeadPrecedesRest(keys, a);
      HeadPrecedesRest(keys, b);
      assert a[0] == b[0];
      assert InStableOrder(keys, a[1..]) && InStableOrder(keys, b[1..]);
      forall x ensures x in a[1..] <==> x in b[1..] {
        if x in a[1..] {
          var i :| 0 <= i < |a[1..]| && a[1..][i] == x;
          assert Precedes(keys, a[0], a[i + 1]);
          assert x in b && x != b[0];
          assert b == [b[0]] + b[1..];
        }
        if x in b[1..] {
          var j :| 0 <= j < |b[1..]| && b[1..][j] == x;
          assert Precedes(keys, b[0], b[j + 1]);
          assert x in a && x != a[0];
          assert a == [a[0]] + a[1..];
        }
      }
      OrderedUnique(keys, a[1..], b[1..]);
      assert a == [a[0]] + a[1..] && b == [b[0]] + b[1..];
    }
  }

  /** `StableOrder` is the one arrangement of all positions that a stable descending sort
      may produce: any sequence listing each position of `keys` once, larger keys first and
      equal keys in position order, is `StableOrder(keys)`. */
  lemma StableOrderIsTheStableSort(keys: seq<real>, r: seq<nat>)
    requires |r| == |keys| && forall x :: x in r <==> 0 <= x < |keys|
    requires InStableOrder(keys, r)
    ensures r == StableOrder(keys)
  {
    OrderedUnique(keys, r, StableOrder(keys));
  }

  /** `s[:k]` in Python. */
  function Take<T>(s: seq<T>, k: nat): (r: seq<T>)
    ensures |r| == if |s| <= k then |s| else k
    ensures r == s[..|r|]
  {
    if |s| <= k then s else s[..k]
  }

  function Min(a: nat, b: nat): nat { if a <= b then a else b }

  /** The positions of the `k` best keys, best first: `StableOrder(keys)[:k]`. */
  function TopPositions(keys: seq<real>, k: nat): seq<nat>
  {
    Take(StableOrder(keys), k)
  }

  /** The top-`k` cut keeps `min(k, |keys|)` distinct positions, orders them by descending key
      with ties in position order, and no position it leaves out has a larger key than one it
      keeps (and a left-out position with an equal key comes later). */
  lemma {:induction false} TopPositionsSpec(keys: seq<real>, k: nat)
    ensures |TopPositions(keys, k)| == Min(k, |keys|)
    ensures Positions(keys, TopPositions(keys, k))
    ensures forall a, b :: 0 <= a < b < |TopPositions(keys, k)| ==>
      var ps := TopPositions(keys, k);
      ps[a] != ps[b] && keys[ps[a]] >= keys[ps[b]] && (keys[ps[a]] == keys[ps[b]] ==> ps[a] < ps[b])
    ensures forall q, a :: 0 <= q < |keys| && q !in TopPositions(keys, k) && 0 <= a < |TopPositions(keys, k)| ==>
      Precedes(keys, TopPositions(keys, k)[a], q)
  {
    var all := StableOrder(keys);
    var ps := TopPositions(keys, k);
    assert ps == all[..|ps|];
    forall a, b | 0 <= a < b < |ps|
      ensures ps[a] != ps[b] && keys[ps[a]] >= keys[ps[b]] && (keys[ps[a]] == keys[ps[b]] ==> ps[a] < ps[b])
    {
      assert Precedes(keys, all[a], all[b]);
    }
    forall q, a | 0 <= q < |keys| && q !in ps && 0 <= a < |ps|
      ensures Precedes(keys, ps[a], q)
    {
      assert q in all;
      var j :| 0 <= j < |all| && all[j] == q;
      assert forall t :: 0 <= t < |ps| ==> ps[t] == all[t];
      assert j >= |ps|;
      assert Precedes(keys, all[a], all[j]);
    }
  }

  /** `[item for item, score in sorted(zip(items, scores), key=score, reverse=True)[:k]]`:
      `zip` stops at the shorter input, the sort is stable, the cut keeps the first `k`. */
  function TopByScore<T>(items: seq<T>, scores: seq<real>, k: nat): (r: seq<T>)
    ensures |r| == |TopPositions(scores[..Min(|items|, |scores|)], k)|
    ensures forall a :: 0 <= a < |r| ==>
      var ps := TopPositions(scores[..Min(|items|, |scores|)], k);
      ps[a] < Min(|items|, |scores|) && r[a] == items[ps[a]]
  {
    var m := Min(|items|, |scores|);
    var ps := TopPositions(scores[..m], k);
    TopPositionsSpec(scores[..m], k);
    seq(|ps|, a requires 0 <= a < |ps| => items[ps[a]])
  }
}
