/** Cleaning pages and cutting the joined text into parent documents. The regular-expression
    substitutions, `re.split` and `finditer` are parameters; what is modelled is what the
    scripts do with their results: the per-line strip of `clean_page_text`, the in-place
    update of each page, and the two ways of cutting parents (heading/body pairs from split
    parts, or sections between title matches). */
module Segmentation {
  import opened Wrappers
  import opened Text

  /** `clean_page_text`: after the substitution chain, every line is stripped, the lines are
      joined back with newlines, and the whole text is stripped. */
  function CleanPageText(content: string, substitute: string -> string): (r: string)
    ensures IsStripped(r)
    ensures forall k :: 0 <= k < |SplitOn(r, '\n')| ==> IsStripped(SplitOn(r, '\n')[k])
  {
    var lines := SplitOn(substitute(content), '\n');
    var stripped := seq(|lines|, k requires 0 <= k < |lines| => Strip(lines[k]));
    var joined := Join(stripped, "\n");
    StripLinesFree(lines, stripped);
    JoinLinesStripped(stripped);
    var r := Strip(joined);
    StripSpec(joined);
    LinesStrippedSlice(joined, StripOffset(joined), StripOffset(joined) + |r|);
    StrippedLines(r);
    r
  }

  lemma StripLinesFree(lines: seq<string>, stripped: seq<string>)
    requires forall k :: 0 <= k < |lines| ==> '\n' !in lines[k]
    requires |stripped| == |lines| && forall k :: 0 <= k < |lines| ==> stripped[k] == Strip(lines[k])
    ensures forall k :: 0 <= k < |stripped| ==> IsStripped(stripped[k]) && '\n' !in stripped[k]
  {
    forall k | 0 <= k < |lines| ensures '\n' !in stripped[k] {
      StripSpec(lines[k]);
    }
  }

  /** Cleaning is idempotent on the line-trim pass: when the substitutions leave a cleaned text
      as it is, cleaning it again changes nothing. */
  lemma CleanPageTextIdempotent(content: string, substitute: string -> string)
    requires substitute(CleanPageText(content, substitute)) == CleanPageText(content, substitute)
    ensures CleanPageText(CleanPageText(content, substitute), substitute) == CleanPageText(content, substitute)
  {
    var c := CleanPageText(content, substitute);
    var lines := SplitOn(c, '\n');
    var stripped := seq(|lines|, k requires 0 <= k < |lines| => Strip(lines[k]));
    forall k | 0 <= k < |lines| ensures stripped[k] == lines[k] {
      StripStripped(lines[k]);
    }
    assert stripped == lines;
    JoinSplitOn(c, '\n');
    StripStripped(c);
  }

  /** A LangChain `Document`; only its `page_content` matters here. */
  class Page {
    var pageContent: string

    constructor (content: string)
      ensures pageContent == content
    {
      pageContent := content;
    }
  }

  /** The page contents, in page order. */
  function Contents(pages: seq<Page>): (r: seq<string>)
    reads set k | 0 <= k < |pages| :: pages[k]
    ensures |r| == |pages|
    ensures forall k :: 0 <= k < |pages| ==> r[k] == pages[k].pageContent
  {
    if pages == [] then [] else Contents(pages[..|pages| - 1]) + [pages[|pages| - 1].pageContent]
  }

  /** `"\n".join([doc.page_content for doc in documents])`. */
  function ContentText(pages: seq<Page>): string
    reads set k | 0 <= k < |pages| :: pages[k]
  {
    Join(Contents(pages), "\n")
  }

  predicate Distinct(pages: seq<Page>)
  {
    forall a, b :: 0 <= a < b < |pages| ==> pages[a] != pages[b]
  }

  // ----- Heading/body pairs from `re.split` with one capturing group -----

  const MinFirstChunkLength: nat := 100

  datatype SegmentError = PartIndexOutOfRange(index: nat)

  /** Parent `k` of the pairs loop: heading part `2k+1` followed by body part `2k+2`, stripped. */
  function PairParent(parts: seq<string>, k: nat): string
    requires 2 * k + 2 < |parts|
  {
    Strip(parts[2 * k + 1] + parts[2 * k + 2])
  }

  /** The parents of the `while i < len(split_parts)` loop after `k` steps. */
  function PairParents(parts: seq<string>, k: nat): seq<string>
    requires k == 0 || 2 * k < |parts|
  {
    if k == 0 then [] else PairParents(parts, k - 1) + [PairParent(parts, k - 1)]
  }

  /** The first part, kept in front when its stripped text is non-empty and longer than 100. */
  function KeepFirst(parts: seq<string>): bool
    requires |parts| > 0
  {
    var first := Strip(parts[0]);
    first != "" && |first| > MinFirstChunkLength
  }

  /** What `segment_into_parent_documents` returns for the split parts: an `IndexError` when
      the last heading has no body part after it, or when there are no parts at all. */
  function PartsParents(parts: seq<string>): Result<seq<string>, SegmentError>
  {
    if |parts| == 0 then Failure(PartIndexOutOfRange(0))
    else if |parts| % 2 == 0 then Failure(PartIndexOutOfRange(|parts|))
    else
      var pairs := PairParents(parts, (|parts| - 1) / 2);
      if KeepFirst(parts) then Success([Strip(parts[0])] + pairs) else Success(pairs)
  }

  /** The `while` loop with `i += 2` and the optional `insert(0, ...)`, on the split parts. */
  method ParentsOfParts(parts: seq<string>) returns (r: Result<seq<string>, SegmentError>)
    ensures r == PartsParents(parts)
  {
    var parents: seq<string> := [];
    var i := 1;
    ghost var k: nat := 0;
    while i < |parts|
      invariant i == 2 * k + 1
      invariant k == 0 || 2 * k < |parts|
      invariant parents == PairParents(parts, k)
      decreases |parts| - i
    {
      if i + 1 >= |parts| {
        assert |parts| == 2 * k + 2;
        return Failure(PartIndexOutOfRange(i + 1));
      }
      parents := parents + [Strip(parts[i] + parts[i + 1])];
      i := i + 2;
      k := k + 1;
    }
    if |parts| == 0 {
      return Failure(PartIndexOutOfRange(0));
    }
    assert |parts| == 2 * k + 1;
    var first := Strip(parts[0]);
    if first != "" && |first| > MinFirstChunkLength {
      parents := [first] + parents;
    }
    return Success(parents);
  }

  lemma {:induction false} PairParentsSpec(parts: seq<string>, k: nat)
    requires k == 0 || 2 * k < |parts|
    ensures |PairParents(parts, k)| == k
    ensures forall a :: 0 <= a < k ==> PairParents(parts, k)[a] == PairParent(parts, a)
  {
    if k > 0 {
      PairParentsSpec(parts, k - 1);
    }
  }

  /** The split-parts parents: defined exactly for an odd number of parts (which `re.split`
      with one group always yields), `(len - 1) / 2` pairs in source order, each the heading
      and its body stripped, behind the stripped prefix when that is longer than 100. */
  lemma PartsParentsSpec(parts: seq<string>)
    ensures PartsParents(parts).Success? <==> |parts| % 2 == 1
    ensures PartsParents(parts).Success? ==>
      var r := PartsParents(parts).value;
      var off := if KeepFirst(parts) then 1 else 0;
      && |r| == (|parts| - 1) / 2 + off
      && (KeepFirst(parts) ==> r[0] == Strip(parts[0]) && |r[0]| > MinFirstChunkLength)
      && (forall k :: 0 <= k < (|parts| - 1) / 2 ==> r[k + off] == PairParent(parts, k))
  {
    if |parts| % 2 == 1 {
      var n := (|parts| - 1) / 2;
      PairParentsSpec(parts, n);
      var pairs := PairParents(parts, n);
      var r := PartsParents(parts).value;
      if KeepFirst(parts) {
        assert r == [Strip(parts[0])] + pairs;
        assert forall k :: 0 <= k < n ==> r[k + 1] == pairs[k];
      } else {
        assert r == pairs;
      }
    } else {
      assert PartsParents(parts).Failure?;
    }
  }

  /** Every split-parts parent has no whitespace at either end. */
  lemma PartsParentsStripped(parts: seq<string>)
    requires PartsParents(parts).Success?
    ensures forall k :: 0 <= k < |PartsParents(parts).value| ==> IsStripped(PartsParents(parts).value[k])
  {
    var n := (|parts| - 1) / 2;
    PairParentsSpec(parts, n);
    var pairs := PairParents(parts, n);
    assert forall a :: 0 <= a < n ==> IsStripped(pairs[a]);
    if KeepFirst(parts) {
      var r := [Strip(parts[0])] + pairs;
      assert forall k :: 1 <= k < |r| ==> r[k] == pairs[k - 1];
    }
  }

  /** `segment_into_parent_documents` of the split-parts scripts: clean every page in place,
      join the cleaned contents with newlines, split, and pair up the parts. */
  method SegmentByParts(pages: seq<Page>, substitute: string -> string, split: string -> seq<string>)
    returns (r: Result<seq<string>, SegmentError>)
    requires Distinct(pages)
    modifies set k | 0 <= k < |pages| :: pages[k]
    ensures forall k :: 0 <= k < |pages| ==> pages[k].pageContent == CleanPageText(old(pages[k].pageContent), substitute)
    ensures r == PartsParents(split(ContentText(pages)))
  {
    CleanPagesFrom(pages, 0, substitute);
    var fullText := ContentText(pages);
    r := ParentsOfParts(split(fullText));
  }

  // ----- Sections between title matches -----

  const MinSectionLength: nat := 200

  /** Python's `s[a:b]` for non-negative bounds: both are clamped to the length, and an empty
      string results when `a >= b`. */
  function PySlice(s: string, a: nat, b: nat): (r: string)
    ensures a <= b <= |s| ==> r == s[a..b]
    ensures |r| <= |s|
  {
    var lo := if a < |s| then a else |s|;
    var hi := if b < |s| then b else |s|;
    if lo < hi then s[lo..hi] else ""
  }

  /** Python's `xs[start:]` as an index: a negative start counts from the end. */
  function PyFrom(n: nat, start: int): (r: nat)
    ensures r <= n
    ensures 0 <= start <= n ==> r == start
    ensures start > n ==> r == n
    ensures start < 0 ==> r == if n + start < 0 then 0 else n + start
  {
    if start >= 0 then (if start <= n then start else n)
    else if n + start < 0 then 0 else n + start
  }

  /** Section `i`: from match `i` to match `i+1`, or to the end of the text for the last. */
  function Section(text: string, starts: seq<nat>, i: nat): string
    requires i < |starts|
  {
    var endPos := if i + 1 < |starts| then starts[i + 1] else |text|;
    PySlice(text, starts[i], endPos)
  }

  /** Each section's text, stripped. */
  function SectionTexts(text: string, starts: seq<nat>): (r: seq<string>)
    ensures |r| == |starts|
  {
    seq(|starts|, i requires 0 <= i < |starts| => Strip(Section(text, starts, i)))
  }

  /** The texts longer than 200, in order. */
  function KeepLong(cs: seq<string>): seq<string>
  {
    if cs == [] then []
    else
      var init := KeepLong(cs[..|cs| - 1]);
      if |cs[|cs| - 1]| > MinSectionLength then init + [cs[|cs| - 1]] else init
  }

  function MatchParents(text: string, starts: seq<nat>): seq<string>
  {
    if starts == [] then [] else KeepLong(SectionTexts(text, starts))
  }

  /** The `for i in range(len(matches))` loop over the match starts. */
  method ParentsOfMatches(text: string, starts: seq<nat>) returns (parents: seq<string>)
    ensures parents == MatchParents(text, starts)
  {
    parents := [];
    if starts == [] {
      return [];
    }
    ghost var cs := SectionTexts(text, starts);
    for i := 0 to |starts|
      invariant parents == KeepLong(cs[..i])
    {
      var startPos := starts[i];
      var endPos := if i + 1 < |starts| then starts[i + 1] else |text|;
      var content := Strip(PySlice(text, startPos, endPos));
      assert content == cs[i];
      assert cs[..i + 1][..i] == cs[..i];
      if |content| > MinSectionLength {
        parents := parents + [content];
      }
    }
    assert cs[..|starts|] == cs;
  }

  /** The kept texts come in order, at most one per section, each longer than 200 and one of
      the sections; and every section longer than 200 is kept. */
  lemma {:induction false} KeepLongSpec(cs: seq<string>)
    ensures |KeepLong(cs)| <= |cs|
    ensures forall p :: p in KeepLong(cs) ==> |p| > MinSectionLength && p in cs
    ensures forall i :: 0 <= i < |cs| && |cs[i]| > MinSectionLength ==> cs[i] in KeepLong(cs)
  {
    if cs != [] {
      var init := cs[..|cs| - 1];
      KeepLongSpec(init);
      assert forall i :: 0 <= i < |init| ==> init[i] == cs[i];
      assert forall p :: p in init ==> p in cs;
    }
  }

  /** The positions of the sections longer than 200, in increasing order. */
  function LongPositions(cs: seq<string>): seq<nat>
  {
    if cs == [] then []
    else LongPositions(cs[..|cs| - 1]) + (if |cs[|cs| - 1]| > MinSectionLength then [|cs| - 1] else [])
  }

  /** The filter is the in-order subsequence of the long sections: the `a`-th kept text is the
      section at the `a`-th long position, the positions increase (so nothing is reordered or
      duplicated), and every long position is among them. */
  lemma {:induction false} KeepLongAt(cs: seq<string>)
    ensures |KeepLong(cs)| == |LongPositions(cs)|
    ensures forall a :: 0 <= a < |LongPositions(cs)| ==>
      LongPositions(cs)[a] < |cs| && |cs[LongPositions(cs)[a]]| > MinSectionLength && KeepLong(cs)[a] == cs[LongPositions(cs)[a]]
    ensures forall a, b :: 0 <= a < b < |LongPositions(cs)| ==> LongPositions(cs)[a] < LongPositions(cs)[b]
    ensures forall i :: 0 <= i < |cs| && |cs[i]| > MinSectionLength ==> i in LongPositions(cs)
  {
    if cs != [] {
      var n := |cs| - 1;
      var init := cs[..n];
      KeepLongAt(init);
      var ks, ks0 := KeepLong(cs), KeepLong(init);
      var ps, ps0 := LongPositions(cs), LongPositions(init);
      if |cs[n]| > MinSectionLength {
        assert ks == ks0 + [cs[n]] && ps == ps0 + [n];
        KeepLongAtLong(cs, ks0, ps0);
      } else {
        assert ks == ks0 && ps == ps0;
        forall i | 0 <= i < |cs| && |cs[i]| > MinSectionLength ensures i in ps {
          assert i < n && init[i] == cs[i];
        }
        forall a | 0 <= a < |ps| ensures ps[a] < |cs| && |cs[ps[a]]| > MinSectionLength && ks[a] == cs[ps[a]] {
          assert init[ps0[a]] == cs[ps0[a]];
        }
      }
    }
  }

  /** The step of `KeepLongAt` when the last section is long. */
  lemma KeepLongAtLong(cs: seq<string>, ks0: seq<string>, ps0: seq<nat>)
    requires cs != [] && |ks0| == |ps0|
    requires forall a :: 0 <= a < |ps0| ==> ps0[a] < |cs| - 1 && |cs[ps0[a]]| > MinSectionLength && ks0[a] == cs[ps0[a]]
    requires forall a, b :: 0 <= a < b < |ps0| ==> ps0[a] < ps0[b]
    requires forall i :: 0 <= i < |cs| - 1 && |cs[i]| > MinSectionLength ==> i in ps0
    requires |cs[|cs| - 1]| > MinSectionLength
    ensures var ks, ps := ks0 + [cs[|cs| - 1]], ps0 + [|cs| - 1];
      && |ks| == |ps|
      && (forall a :: 0 <= a < |ps| ==> ps[a] < |cs| && |cs[ps[a]]| > MinSectionLength && ks[a] == cs[ps[a]])
      && (forall a, b :: 0 <= a < b < |ps| ==> ps[a] < ps[b])
      && (forall i :: 0 <= i < |cs| && |cs[i]| > MinSectionLength ==> i in ps)
  {
    var ps := ps0 + [|cs| - 1];
    forall i | 0 <= i < |cs| && |cs[i]| > MinSectionLength ensures i in ps {
      if i < |cs| - 1 {
        assert i in ps0;
      }
    }
  }

  /** Filtering a concatenation filters each part. */
  lemma {:induction false} KeepLongConcat(a: seq<string>, b: seq<string>)
    ensures KeepLong(a + b) == KeepLong(a) + KeepLong(b)
    decreases |b|
  {
    if b == [] {
      assert a + b == a;
    } else {
      var b' := b[..|b| - 1];
      assert (a + b)[..|a + b| - 1] == a + b';
      KeepLongConcat(a, b');
    }
  }

  /** One section is kept exactly when it is longer than 200. */
  lemma KeepLongSingle(c: string)
    ensures KeepLong([c]) == if |c| > MinSectionLength then [c] else []
  {
    assert [c][..0] == [];
  }

  /** The section positions the title-match parents come from. */
  function MatchPositions(text: string, starts: seq<nat>): seq<nat>
  {
    if starts == [] then [] else LongPositions(SectionTexts(text, starts))
  }

  /** A title-match parent is exactly a stripped section longer than 200, in match order:
      the `a`-th parent is the stripped section at the `a`-th position of `MatchPositions`,
      which increase, and every section longer than 200 has its position there. */
  lemma MatchParentsSpec(text: string, starts: seq<nat>)
    ensures |MatchParents(text, starts)| == |MatchPositions(text, starts)| <= |starts|
    ensures forall a :: 0 <= a < |MatchPositions(text, starts)| ==>
      && MatchPositions(text, starts)[a] < |starts|
      && MatchParents(text, starts)[a] == Strip(Section(text, starts, MatchPositions(text, starts)[a]))
      && |MatchParents(text, starts)[a]| > MinSectionLength
    ensures forall a, b :: 0 <= a < b < |MatchPositions(text, starts)| ==>
      MatchPositions(text, starts)[a] < MatchPositions(text, starts)[b]
    ensures forall i :: 0 <= i < |starts| && |Strip(Section(text, starts, i))| > MinSectionLength ==>
      i in MatchPositions(text, starts)
  {
    var cs := SectionTexts(text, starts);
    KeepLongSpec(cs);
    KeepLongAt(cs);
    assert forall i :: 0 <= i < |starts| ==> cs[i] == Strip(Section(text, starts, i));
  }

  /** Without a title match there are no parents. */
  lemma NoMatchesNoParents(text: string)
    ensures MatchParents(text, []) == []
  {
  }

  /** For increasing match starts inside the text, the sections tile the text from the first
      match to the end: nothing before the first match belongs to any section. */
  lemma {:induction false} SectionsTile(text: string, starts: seq<nat>, i: nat)
    requires i < |starts|
    requires forall a, b :: 0 <= a < b < |starts| ==> starts[a] < starts[b]
    requires forall a :: 0 <= a < |starts| ==> starts[a] <= |text|
    ensures ConcatSections(text, starts, i) == text[starts[i]..]
    decreases |starts| - i
  {
    if i + 1 < |starts| {
      SectionsTile(text, starts, i + 1);
      assert text[starts[i]..] == text[starts[i]..starts[i + 1]] + text[starts[i + 1]..];
    }
  }

  /** The raw sections from `i` on, concatenated. */
  function ConcatSections(text: string, starts: seq<nat>, i: nat): string
    requires i < |starts|
    decreases |starts| - i
  {
    if i + 1 < |starts| then Section(text, starts, i) + ConcatSections(text, starts, i + 1)
    else Section(text, starts, i)
  }

  /** `segment_into_parent_documents` of the title-match scripts: only the pages from
      `start_page` on are cleaned and joined; the earlier ones are left exactly as they were. */
  method SegmentByMatches(pages: seq<Page>, startPage: int, substitute: string -> string, find: string -> seq<nat>)
    returns (parents: seq<string>)
    requires Distinct(pages)
    modifies set k | 0 <= k < |pages| :: pages[k]
    ensures forall k :: 0 <= k < PyFrom(|pages|, startPage) ==> pages[k].pageContent == old(pages[k].pageContent)
    ensures forall k :: PyFrom(|pages|, startPage) <= k < |pages| ==>
      pages[k].pageContent == CleanPageText(old(pages[k].pageContent), substitute)
    ensures parents == MatchParents(ContentText(pages[PyFrom(|pages|, startPage)..]), find(ContentText(pages[PyFrom(|pages|, startPage)..])))
  {
    var from := PyFrom(|pages|, startPage);
    var contentDocs := pages[from..];
    assert Distinct(contentDocs);
    CleanPagesFrom(pages, from, substitute);
    var fullText := ContentText(contentDocs);
    parents := ParentsOfMatches(fullText, find(fullText));
  }

  /** `for doc in content_docs: doc.page_content = clean_page_text(doc.page_content)`, where
      `content_docs` is `documents[from:]`; the earlier pages are untouched. */
  method CleanPagesFrom(pages: seq<Page>, from: nat, substitute: string -> string)
    requires from <= |pages| && Distinct(pages)
    modifies set k | 0 <= k < |pages| :: pages[k]
    ensures forall k :: 0 <= k < from ==> pages[k].pageContent == old(pages[k].pageContent)
    ensures forall k :: from <= k < |pages| ==> pages[k].pageContent == CleanPageText(old(pages[k].pageContent), substitute)
  {
    var i := from;
    while i < |pages|
      invariant from <= i <= |pages|
      invariant forall k :: 0 <= k < from ==> pages[k].pageContent == old(pages[k].pageContent)
      invariant forall k :: from <= k < i ==> pages[k].pageContent == CleanPageText(old(pages[k].pageContent), substitute)
      invariant forall k :: i <= k < |pages| ==> pages[k].pageContent == old(pages[k].pageContent)
    {
      pages[i].pageContent := CleanPageText(pages[i].pageContent, substitute);
      i := i + 1;
    }
  }
}
