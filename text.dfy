/** The handful of Python `str` operations the pipeline relies on:
    `strip()`, `split(c)` with a one-character separator, and `sep.join(parts)`. */
module Text {

  /** The characters for which Python's `str.isspace()` holds. */
  const Whitespace: set<char> := {
    ' ', '\t', '\n', '\r', '\U{0b}', '\U{0c}', '\U{1c}', '\U{1d}', '\U{1e}', '\U{1f}',
    '\U{85}', '\U{a0}', '\U{1680}', '\U{2000}', '\U{2001}', '\U{2002}', '\U{2003}',
    '\U{2004}', '\U{2005}', '\U{2006}', '\U{2007}', '\U{2008}', '\U{2009}', '\U{200a}',
    '\U{2028}', '\U{2029}', '\U{202f}', '\U{205f}', '\U{3000}'
  }

  predicate IsSpace(c: char) { c in Whitespace }

  /** A string with no whitespace at either end. */
  predicate IsStripped(s: string) {
    |s| == 0 || (!IsSpace(s[0]) && !IsSpace(s[|s| - 1]))
  }

  /** `s.lstrip()`. */
  function TrimStart(s: string): string
  {
    if |s| > 0 && IsSpace(s[0]) then TrimStart(s[1..]) else s
  }

  /** `s.lstrip()` is a suffix of `s`; everything dropped is whitespace, and what is left does
      not start with whitespace. */
  lemma {:induction false} TrimStartSpec(s: string)
    ensures var r := TrimStart(s);
      && |r| <= |s| && r == s[|s| - |r|..]
      && (forall k :: 0 <= k < |s| - |r| ==> IsSpace(s[k]))
      && (r == [] || !IsSpace(r[0]))
  {
    if |s| > 0 && IsSpace(s[0]) {
      TrimStartSpec(s[1..]);
    }
  }

  /** `s.rstrip()`. */
  function TrimEnd(s: string): string
  {
    if |s| > 0 && IsSpace(s[|s| - 1]) then TrimEnd(s[..|s| - 1]) else s
  }

  /** `s.rstrip()` is a prefix of `s`; everything dropped is whitespace, and what is left does
      not end with whitespace. */
  lemma {:induction false} TrimEndSpec(s: string)
    ensures var r := TrimEnd(s);
      && |r| <= |s| && r == s[..|r|]
      && (forall k :: |r| <= k < |s| ==> IsSpace(s[k]))
      && (r == [] || !IsSpace(r[|r| - 1]))
  {
    if |s| > 0 && IsSpace(s[|s| - 1]) {
      TrimEndSpec(s[..|s| - 1]);
    }
  }

  /** Where `Strip(s)` begins inside `s`. */
  function StripOffset(s: string): nat
  {
    TrimStartSpec(s);
    |s| - |TrimStart(s)|
  }

  /** `s.strip()`. */
  function Strip(s: string): (r: string)
    ensures IsStripped(r)
  {
    var t := TrimStart(s);
    TrimStartSpec(s);
    TrimEndSpec(t);
    var r := TrimEnd(t);
    assert r == [] || !IsSpace(r[0]) by {
      if r != [] { assert r[0] == t[0]; }
    }
    r
  }

  /** `s.strip()` is the slice of `s` left once whitespace is removed at both ends. */
  lemma StripSpec(s: string)
    ensures var r := Strip(s);
      && StripOffset(s) + |r| <= |s| && r == s[StripOffset(s)..StripOffset(s) + |r|]
      && (forall k :: 0 <= k < StripOffset(s) ==> IsSpace(s[k]))
      && (forall k :: StripOffset(s) + |r| <= k < |s| ==> IsSpace(s[k]))
  {
    TrimStartSpec(s);
    TrimEndSpec(TrimStart(s));
  }

  /** Stripping a string that has no whitespace at its ends changes nothing. */
  lemma StripStripped(s: string)
    requires IsStripped(s)
    ensures Strip(s) == s
  {
  }

  /** `sep.join(parts)`. */
  function Join(parts: seq<string>, sep: string): string
  {
    if |parts| == 0 then ""
    else if |parts| == 1 then parts[0]
    else parts[0] + sep + Join(parts[1..], sep)
  }

  /** `s.split(c)` for a one-character separator: the pieces between occurrences of `c`,
      at least one, none containing `c`. */
  function SplitOn(s: string, c: char): (r: seq<string>)
    ensures |r| >= 1
    ensures forall k :: 0 <= k < |r| ==> c !in r[k]
  {
    if |s| == 0 then [""]
    else
      var rest := SplitOn(s[1..], c);
      if s[0] == c then [""] + rest
      else [[s[0]] + rest[0]] + rest[1..]
  }

  /** Joining the pieces of a split with its separator gives back the string. */
  lemma {:induction false} JoinSplitOn(s: string, c: char)
    ensures Join(SplitOn(s, c), [c]) == s
  {
    if |s| > 0 {
      var rest := SplitOn(s[1..], c);
      JoinSplitOn(s[1..], c);
      if s[0] == c {
        assert SplitOn(s, c) == [""] + rest;
        assert ([""] + rest)[1..] == rest;
      } else {
        var r := SplitOn(s, c);
        assert r == [[s[0]] + rest[0]] + rest[1..];
        if |rest| == 1 {
          assert Join(r, [c]) == [s[0]] + rest[0];
        } else {
          assert r[1..] == rest[1..];
          assert Join(r, [c]) == [s[0]] + rest[0] + [c] + Join(rest[1..], [c]);
        }
      }
    }
  }

  /** Splitting a join of pieces free of the separator gives back the pieces. */
  lemma {:induction false} SplitOnJoin(parts: seq<string>, c: char)
    requires |parts| >= 1
    requires forall k :: 0 <= k < |parts| ==> c !in parts[k]
    ensures SplitOn(Join(parts, [c]), c) == parts
  {
    if |parts| == 1 {
      SplitOnFree(parts[0], c);
    } else {
      SplitOnJoin(parts[1..], c);
      SplitOnPrefix(parts[0], Join(parts[1..], [c]), c);
      assert [parts[0]] + parts[1..] == parts;
    }
  }

  /** A string free of `c` splits into itself. */
  lemma {:induction false} SplitOnFree(s: string, c: char)
    requires c !in s
    ensures SplitOn(s, c) == [s]
  {
    if |s| > 0 {
      SplitOnFree(s[1..], c);
      assert [s[0]] + s[1..] == s;
    }
  }

  /** Splitting `w + [c] + t`, where `w` is free of `c`, yields `w` and then the pieces of `t`. */
  lemma {:induction false} SplitOnPrefix(w: string, t: string, c: char)
    requires c !in w
    ensures SplitOn(w + [c] + t, c) == [w] + SplitOn(t, c)
  {
    if |w| == 0 {
      assert ([c] + t)[1..] == t;
    } else {
      SplitOnPrefix(w[1..], t, c);
      assert (w + [c] + t)[1..] == w[1..] + [c] + t;
      assert [w[0]] + w[1..] == w;
    }
  }

  /** Every line (piece between newlines) of `s` has no whitespace at either end. */
  predicate LinesStripped(s: string) {
    forall k :: 0 <= k < |s| && s[k] == '\n' ==>
      (k == 0 || s[k - 1] == '\n' || !IsSpace(s[k - 1])) &&
      (k + 1 == |s| || s[k + 1] == '\n' || !IsSpace(s[k + 1]))
  }

  /** A newline-joined list of stripped pieces starts with a newline or with a non-space. */
  lemma JoinLinesHead(ps: seq<string>)
    requires forall i :: 0 <= i < |ps| ==> IsStripped(ps[i])
    ensures var j := Join(ps, "\n"); j == [] || j[0] == '\n' || !IsSpace(j[0])
  {
  }

  /** Joining stripped, newline-free pieces with newlines leaves every line stripped. */
  lemma {:induction false} JoinLinesStripped(ps: seq<string>)
    requires forall i :: 0 <= i < |ps| ==> IsStripped(ps[i]) && '\n' !in ps[i]
    ensures LinesStripped(Join(ps, "\n"))
  {
    if |ps| >= 2 {
      var p := ps[0];
      var rest := Join(ps[1..], "\n");
      JoinLinesStripped(ps[1..]);
      JoinLinesHead(ps[1..]);
      var s := Join(ps, "\n");
      assert s == p + "\n" + rest;
      assert forall t :: 0 <= t < |p| ==> s[t] == p[t] && s[t] != '\n';
      assert forall t :: |p| < t < |s| ==> s[t] == rest[t - |p| - 1];
      forall k | 0 <= k < |s| && s[k] == '\n'
        ensures (k == 0 || s[k - 1] == '\n' || !IsSpace(s[k - 1]))
        ensures (k + 1 == |s| || s[k + 1] == '\n' || !IsSpace(s[k + 1]))
      {
        if k > |p| {
          assert rest[k - |p| - 1] == '\n';
        }
      }
    }
  }

  /** Every slice of a string whose lines are stripped has stripped lines too. */
  lemma LinesStrippedSlice(s: string, a: nat, b: nat)
    requires a <= b <= |s| && LinesStripped(s)
    ensures LinesStripped(s[a..b])
  {
    var t := s[a..b];
    forall k | 0 <= k < |t| && t[k] == '\n'
      ensures (k == 0 || t[k - 1] == '\n' || !IsSpace(t[k - 1]))
      ensures (k + 1 == |t| || t[k + 1] == '\n' || !IsSpace(t[k + 1]))
    {
      assert s[a + k] == '\n';
    }
  }

  /** Splitting on newlines a string whose lines are stripped and which ends in a newline or
      a non-space: every piece after the first is stripped, and the first ends in a non-space. */
  lemma {:induction false} LinesStrippedPieces(s: string)
    requires LinesStripped(s)
    requires s == [] || s[|s| - 1] == '\n' || !IsSpace(s[|s| - 1])
    ensures var ps := SplitOn(s, '\n');
      && (forall k :: 1 <= k < |ps| ==> IsStripped(ps[k]))
      && (ps[0] == [] || !IsSpace(ps[0][|ps[0]| - 1]))
  {
    if s != [] {
      var t := s[1..];
      LinesStrippedSlice(s, 1, |s|);
      LinesStrippedPieces(t);
      var rest := SplitOn(t, '\n');
      var ps := SplitOn(s, '\n');
      if s[0] == '\n' {
        assert ps == [""] + rest;
        assert rest[0] != [] ==> rest[0][0] == t[0];
      } else {
        assert ps == [[s[0]] + rest[0]] + rest[1..];
        assert rest[0] == [] ==> t == [] || t[0] == '\n';
      }
    }
  }

  /** Every line of a stripped string whose lines are stripped has no whitespace at its ends. */
  lemma StrippedLines(s: string)
    requires IsStripped(s) && LinesStripped(s)
    ensures forall k :: 0 <= k < |SplitOn(s, '\n')| ==> IsStripped(SplitOn(s, '\n')[k])
  {
    LinesStrippedPieces(s);
    var ps := SplitOn(s, '\n');
    if s != [] {
      assert ps[0] != [] ==> ps[0][0] == s[0];
    }
  }
}
