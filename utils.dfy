/** The helpers of utils.go: page offsets, the session-token and embedded
    JSON extractors, and the text and URL normalisers. */
module Utils {
  import opened Wrappers
  import opened Strings

  // ---------------------------------------------------------------------
  // rangeFunc

  /** The arithmetic progression start, start+step, ... of the values below
      `end`. */
  function Range(start: int, end: int, step: int): (r: seq<int>)
    requires step > 0
    ensures |r| == 0 <==> start >= end
    ensures |r| > 0 ==> r[0] == start
    ensures forall i :: 0 <= i < |r| ==> start <= r[i] < end
    decreases end - start
  {
    if start < end then [start] + Range(start + step, end, step) else []
  }

  /** Element `i` of the progression is start + i * step. */
  lemma {:induction false} RangeAt(start: int, end: int, step: int, i: nat)
    requires step > 0 && i < |Range(start, end, step)|
    ensures Range(start, end, step)[i] == start + i * step
    decreases i
  {
    if i > 0 {
      RangeAt(start + step, end, step, i - 1);
      assert start + step + (i - 1) * step == start + i * step;
    }
  }

  /** The progression stops only once the next value would reach `end`. */
  lemma {:induction false} RangeCovers(start: int, end: int, step: int)
    requires step > 0 && start < end
    ensures var r := Range(start, end, step); r[|r| - 1] + step >= end
    decreases end - start
  {
    if start + step < end {
      RangeCovers(start + step, end, step);
    }
  }

  /** rangeFunc appends start, start+step, ... while the value is below end. */
  method RangeFunc(start: int, end: int, step: int) returns (r: seq<int>)
    requires step > 0
    ensures r == Range(start, end, step)
  {
    r := [];
    var i := start;
    while i < end
      invariant r + Range(i, end, step) == Range(start, end, step)
      decreases end - i
    {
      ghost var rest := Range(i + step, end, step);
      assert Range(i, end, step) == [i] + rest;
      assert r + ([i] + rest) == (r + [i]) + rest;
      r := r + [i];
      i := i + step;
    }
    assert Range(i, end, step) == [];
    assert r + [] == r;
  }

  // ---------------------------------------------------------------------
  // extractVQD

  /** The delimiter pairs tried by extractVQD, flattened as opener, closer,
      opener, closer, ... in priority order. */
  const VqdCandidates: seq<string> := ["vqd=\"", "\"", "vqd=", "&", "vqd='", "'"]

  /** One attempt of extractVQD with one delimiter pair: look only at the first
      occurrence of the opener and take the text up to the next closer;
      an empty text is no token. */
  function TryDelimiter(html: string, open: string, close: string): (r: Option<string>)
    ensures r.Some? ==> |r.value| > 0
  {
    var start := IndexOf(html, open) + |open|;
    if start >= |open| then
      var end := IndexOf(html[start..], close);
      if end > 0 then Some(html[start..start + end]) else None
    else None
  }

  /** A token is the text that the first opener and the next closer enclose,
      and holds no closer. */
  lemma TryDelimiterFound(html: string, open: string, close: string)
    requires TryDelimiter(html, open, close).Some?
    ensures var token := TryDelimiter(html, open, close).value;
      && IndexOf(html, open) >= 0
      && OccursAt(html, open + token + close, IndexOf(html, open))
      && (|close| > 0 ==> IndexOf(token, close) == -1)
  {
    var start := IndexOf(html, open) + |open|;
    var end := IndexOf(html[start..], close);
    assert TryDelimiter(html, open, close).value == html[start..start + end];
    TokenBetween(html, open, close, start, end);
  }

  /** An attempt yields nothing without an opener, or when the closer follows
      the first opener at once. */
  lemma TryDelimiterEmpty(html: string, open: string, close: string)
    ensures IndexOf(html, open) < 0 ==> TryDelimiter(html, open, close).None?
    ensures (|close| > 0 && IndexOf(html, open) >= 0
      && OccursAt(html, open + close, IndexOf(html, open))) ==> TryDelimiter(html, open, close).None?
  {
    var start := IndexOf(html, open) + |open|;
    if start >= |open| {
      CloserRightAfterOpener(html, open, close, start);
    }
  }

  /** With an opener present, the attempt yields exactly the text from just
      past the opener (`start`) up to the first closer after it, when that
      text is not empty. */
  lemma TryDelimiterUpToCloser(html: string, open: string, close: string, start: int, j: int)
    requires IndexOf(html, open) >= 0 && start == IndexOf(html, open) + |open|
    requires 0 < j && OccursAt(html, close, start + j)
    requires forall k :: start <= k < start + j ==> !OccursAt(html, close, k)
    ensures TryDelimiter(html, open, close) == Some(html[start..start + j])
  {
    assert OccursAt(html, open, IndexOf(html, open));
    FirstCloserAfter(html, close, start, j);
    TryDelimiterAt(html, open, close, start, j);
  }

  /** The attempt in terms of its start offset and the closer's position in
      the rest of the page. */
  lemma TryDelimiterAt(html: string, open: string, close: string, start: int, e: int)
    requires IndexOf(html, open) >= 0 && start == IndexOf(html, open) + |open|
    requires start <= |html| && e == IndexOf(html[start..], close) > 0
    ensures TryDelimiter(html, open, close) == Some(html[start..start + e])
  {
  }

  /** The first closer at or after `start` is the first one in `html[start..]`. */
  lemma FirstCloserAfter(html: string, close: string, start: nat, j: nat)
    requires start <= |html| && OccursAt(html, close, start + j)
    requires forall k :: start <= k < start + j ==> !OccursAt(html, close, k)
    ensures IndexOf(html[start..], close) == j
  {
    var s := html[start..];
    OccursShift(html, close, start, j);
    forall k | 0 <= k < j ensures !OccursAt(s, close, k) {
      OccursShift(html, close, start, k);
    }
    IndexOfIs(s, close, j);
  }

  /** With an opener present but no closer anywhere after it, the attempt
      yields nothing. */
  lemma TryDelimiterNoCloser(html: string, open: string, close: string)
    requires IndexOf(html, open) >= 0
    requires forall k :: IndexOf(html, open) + |open| <= k ==> !OccursAt(html, close, k)
    ensures TryDelimiter(html, open, close).None?
  {
    var start := IndexOf(html, open) + |open|;
    var e := IndexOf(html[start..], close);
    if e >= 0 {
      OccursShift(html, close, start, e);
    }
  }

  /** `pat` at position `j` of `s[n..]` is `pat` at position `n + j` of `s`. */
  lemma OccursInSuffix(s: string, pat: string, n: nat, j: int)
    requires n <= |s| && OccursAt(s[n..], pat, j)
    ensures OccursAt(s, pat, n + j)
  {
    assert s[n + j..n + j + |pat|] == s[n..][j..j + |pat|];
  }

  /** Two adjacent occurrences make one occurrence of the concatenation. */
  lemma OccursConcat(s: string, x: string, y: string, i: int)
    requires OccursAt(s, x, i) && OccursAt(s, y, i + |x|)
    ensures OccursAt(s, x + y, i)
  {
    assert s[i..i + |x| + |y|] == s[i..i + |x|] + s[i + |x|..i + |x| + |y|];
  }

  /** An occurrence of the concatenation holds an occurrence of its second part. */
  lemma OccursSecond(s: string, x: string, y: string, i: int)
    requires OccursAt(s, x + y, i)
    ensures OccursAt(s, y, i + |x|)
  {
    assert s[i + |x|..i + |x| + |y|] == s[i..i + |x| + |y|][|x|..];
  }

  /** When the closer follows the first opener immediately, the search for the
      closer stops at offset 0. */
  lemma CloserRightAfterOpener(html: string, open: string, close: string, start: int)
    requires IndexOf(html, open) >= 0 && start == IndexOf(html, open) + |open|
    ensures (|close| > 0 && OccursAt(html, open + close, start - |open|)) ==> IndexOf(html[start..], close) == 0
  {
    if |close| > 0 && OccursAt(html, open + close, start - |open|) {
      OccursSecond(html, open, close, start - |open|);
      assert html[start..][0..|close|] == html[start..start + |close|];
      assert OccursAt(html[start..], close, 0);
    }
  }

  /** The text between the first opener and the next closer, with its
      delimiters, occurs in `html`, and does not contain the closer. */
  lemma TokenBetween(html: string, open: string, close: string, start: int, end: int)
    requires IndexOf(html, open) >= 0 && start == IndexOf(html, open) + |open|
    requires start <= |html| && end > 0 && end == IndexOf(html[start..], close)
    ensures OccursAt(html, open + html[start..start + end] + close, start - |open|)
    ensures |close| > 0 ==> IndexOf(html[start..start + end], close) == -1
  {
    var rest := html[start..];
    assert OccursAt(html, open, start - |open|);
    assert OccursAt(rest, close, end);
    DelimitedOccurrence(html, open, close, start, end);
    if |close| > 0 {
      TokenLacksCloser(html, close, start, end);
    }
  }

  /** An opener at `a` and a closer `end` bytes after it enclose the text
      between them. */
  lemma DelimitedOccurrence(html: string, open: string, close: string, start: int, end: int)
    requires |open| <= start <= |html| && 0 <= end
    requires OccursAt(html, open, start - |open|)
    requires OccursAt(html[start..], close, end)
    ensures OccursAt(html, open + html[start..start + end] + close, start - |open|)
  {
    var a := start - |open|;
    var token := html[start..start + end];
    assert OccursAt(html, token, start);
    OccursConcat(html, open, token, a);
    OccursInSuffix(html, close, start, end);
    OccursConcat(html, open + token, close, a);
  }

  /** The text up to the first closer does not contain the closer. */
  lemma TokenLacksCloser(html: string, close: string, start: int, end: int)
    requires |close| > 0 && 0 <= start <= |html| && 0 < end == IndexOf(html[start..], close)
    ensures IndexOf(html[start..start + end], close) == -1
  {
    var token := html[start..start + end];
    forall i | 0 <= i ensures !OccursAt(token, close, i) {
      if i + |close| <= end {
        assert !OccursAt(html[start..], close, i);
        assert token[i..i + |close|] == html[start..][i..i + |close|];
      }
    }
  }

  /** Text that ends before the first occurrence of `pat` does not contain it. */
  lemma NoOccurrenceInside(s: string, pat: string, end: int)
    requires |pat| > 0 && 0 <= end <= |s|
    requires forall i :: 0 <= i < end ==> !OccursAt(s, pat, i)
    ensures IndexOf(s[..end], pat) == -1
  {
    forall i | 0 <= i ensures !OccursAt(s[..end], pat, i) {
      if i + |pat| <= end {
        assert !OccursAt(s, pat, i);
        assert s[..end][i..i + |pat|] == s[i..i + |pat|];
      }
    }
  }

  /** The attempt with the `k`-th delimiter pair. */
  function PairAttempt(html: string, k: nat): Option<string>
    requires k < 3
  {
    TryDelimiter(html, VqdCandidates[2 * k], VqdCandidates[2 * k + 1])
  }

  /** Pair `k` yields `token` and no earlier pair yields anything. */
  predicate FirstTokenAt(html: string, k: nat, token: string) {
    k < 3 && PairAttempt(html, k) == Some(token)
    && forall j :: 0 <= j < k ==> PairAttempt(html, j).None?
  }

  /** The token of the first delimiter pair that yields one. */
  function Vqd(html: string, keywords: string): Result<string, Error> {
    if PairAttempt(html, 0).Some? then Success(PairAttempt(html, 0).value)
    else if PairAttempt(html, 1).Some? then Success(PairAttempt(html, 1).value)
    else if PairAttempt(html, 2).Some? then Success(PairAttempt(html, 2).value)
    else Failure(TokenNotFound(keywords))
  }

  /** extractVQD: the token of the first delimiter pair that yields one. */
  method ExtractVQD(html: string, keywords: string) returns (r: Result<string, Error>)
    ensures r == Vqd(html, keywords)
    ensures r.Success? ==> exists k :: FirstTokenAt(html, k, r.value)
    ensures r.Failure? ==> r.error == TokenNotFound(keywords)
    ensures r.Failure? ==> forall k :: 0 <= k < 3 ==> PairAttempt(html, k).None?
  {
    var candidates := VqdCandidates;
    var i := 0;
    while i < |candidates|
      invariant 0 <= i <= |candidates| && i % 2 == 0
      invariant forall j :: 0 <= j < i / 2 ==> PairAttempt(html, j).None?
    {
      var token := TryDelimiter(html, candidates[i], candidates[i + 1]);
      assert token == PairAttempt(html, i / 2);
      if token.Some? {
        assert FirstTokenAt(html, i / 2, token.value);
        return Success(token.value);
      }
      i := i + 2;
    }
    return Failure(TokenNotFound(keywords));
  }

  // ---------------------------------------------------------------------
  // textExtractJSON (the slicing; JSON decoding is a parameter elsewhere)

  const JsonPrefix: string := "DDG.pageLayout.load('d',"
  const JsonSuffix: string := ");DDG.duckbar.load("

  /** textExtractJSON: the text from right after the first prefix marker (24
      bytes from its start) up to the first suffix marker after it. A missing
      prefix gives start 23, which passes the `start < 0` guard; a start past
      the end of the body is a slice-bounds panic. */
  function TextExtractJSON(html: string, keywords: string): (r: Result<string, Error>)
    ensures r.Failure? ==> r.error in {Panic, ExtractionFailed(keywords)}
  {
    SliceJSON(html, IndexOf(html, JsonPrefix) + 24, keywords)
  }

  /** The slicing step of textExtractJSON once the start offset is computed. */
  function SliceJSON(html: string, start: nat, keywords: string): (r: Result<string, Error>)
    ensures r.Failure? ==> r.error in {Panic, ExtractionFailed(keywords)}
  {
    if start > |html| then Failure(Panic)
    else
      var end := IndexOf(html[start..], JsonSuffix);
      if start < 0 || end < 0 then Failure(ExtractionFailed(keywords))
      else Success(html[start..start + end])
  }

  /** The extracted text never contains the suffix marker. */
  lemma ExtractedLacksSuffix(html: string, keywords: string)
    requires TextExtractJSON(html, keywords).Success?
    ensures IndexOf(TextExtractJSON(html, keywords).value, JsonSuffix) == -1
  {
    var start := IndexOf(html, JsonPrefix) + 24;
    var end := IndexOf(html[start..], JsonSuffix);
    NoOccurrenceInside(html[start..], JsonSuffix, end);
    assert html[start..][..end] == html[start..start + end];
  }

  /** A body without the suffix marker after the start point is rejected, and
      a body too short for the unguarded start point panics. */
  lemma ExtractFailures(html: string, keywords: string)
    ensures IndexOf(html, JsonPrefix) < 0 && |html| < 23 ==> TextExtractJSON(html, keywords) == Failure(Panic)
    ensures IndexOf(html, JsonPrefix) >= 0 && IndexOf(html[IndexOf(html, JsonPrefix) + 24..], JsonSuffix) < 0
      ==> TextExtractJSON(html, keywords) == Failure(ExtractionFailed(keywords))
  {
  }

  /** With both markers present, the result is exactly the text between the
      end of the first prefix and the first suffix after it. */
  lemma ExtractBetweenMarkers(html: string, keywords: string, i: nat, j: nat)
    requires IndexOf(html, JsonPrefix) == i
    requires i + 24 <= j && OccursAt(html, JsonSuffix, j)
    requires forall k :: i + 24 <= k < j ==> !OccursAt(html, JsonSuffix, k)
    ensures TextExtractJSON(html, keywords) == Success(html[i + 24..j])
  {
    SliceBetween(html, i + 24, j, keywords);
  }

  /** Slicing from `start` stops at the first suffix marker at or after it. */
  lemma SliceBetween(html: string, start: nat, j: nat, keywords: string)
    requires start <= j && OccursAt(html, JsonSuffix, j)
    requires forall k :: start <= k < j ==> !OccursAt(html, JsonSuffix, k)
    ensures SliceJSON(html, start, keywords) == Success(html[start..j])
  {
    var s := html[start..];
    OccursShift(html, JsonSuffix, start, j - start);
    forall k | 0 <= k < j - start ensures !OccursAt(s, JsonSuffix, k) {
      OccursShift(html, JsonSuffix, start, k);
    }
    IndexOfIs(s, JsonSuffix, j - start);
  }

  /** Slicing from an in-range start with a suffix marker after it succeeds. */
  lemma SliceFound(html: string, start: nat, keywords: string)
    requires start <= |html| && IndexOf(html[start..], JsonSuffix) >= 0
    ensures SliceJSON(html, start, keywords) == Success(html[start..start + IndexOf(html[start..], JsonSuffix)])
  {
  }

  /** Position `k` of `s[n..]` is position `n + k` of `s`. */
  lemma OccursShift(s: string, pat: string, n: nat, k: nat)
    requires n <= |s|
    ensures OccursAt(s[n..], pat, k) <==> OccursAt(s, pat, n + k)
  {
    if n + k + |pat| <= |s| {
      assert s[n..][k..k + |pat|] == s[n + k..n + k + |pat|];
    }
  }

  /** The first occurrence is where `pat` occurs with no occurrence before. */
  lemma IndexOfIs(s: string, pat: string, j: nat)
    requires OccursAt(s, pat, j)
    requires forall k :: 0 <= k < j ==> !OccursAt(s, pat, k)
    ensures IndexOf(s, pat) == j
  {
  }

  /** Without the prefix marker the computed start offset is 23. */
  lemma NoPrefixStart(html: string)
    requires IndexOf(html, JsonPrefix) < 0
    ensures IndexOf(html, JsonPrefix) + 24 == 23
  {
  }

  /** Without the prefix marker, textExtractJSON slices from byte 23. */
  lemma NoPrefixSlicesFrom23(html: string, keywords: string)
    requires IndexOf(html, JsonPrefix) < 0
    ensures TextExtractJSON(html, keywords) == SliceJSON(html, 23, keywords)
  {
    NoPrefixStart(html);
    SliceSameStart(html, IndexOf(html, JsonPrefix) + 24, 23, keywords);
  }

  /** Equal start offsets give equal slices. */
  lemma SliceSameStart(html: string, a: nat, b: nat, keywords: string)
    requires a == b
    ensures SliceJSON(html, a, keywords) == SliceJSON(html, b, keywords)
  {
  }

  /** A body without the prefix marker is not rejected: slicing starts at
      byte 23 and succeeds whenever a suffix marker follows that point. */
  lemma MissingPrefixNotDetected(html: string, keywords: string)
    requires IndexOf(html, JsonPrefix) == -1 && |html| >= 23
    requires IndexOf(html[23..], JsonSuffix) >= 0
    ensures TextExtractJSON(html, keywords) == Success(html[23..23 + IndexOf(html[23..], JsonSuffix)])
  {
    NoPrefixSlicesFrom23(html, keywords);
    SliceFound(html, 23, keywords);
  }

  // ---------------------------------------------------------------------
  // normalize: the tag-stripping pattern <.*?>, then entity unescaping

  /** The position of the `>` that closes a tag opened just before `s`: the
      first `>`, provided no newline comes before it (`.` does not match a
      newline). */
  function TagEnd(s: string): (r: Option<nat>)
    ensures r.Some? ==> (r.value < |s| && s[r.value] == '>'
      && forall i :: 0 <= i < r.value ==> s[i] != '>' && s[i] != '\n')
    ensures r.None? ==> forall i :: 0 <= i < |s| && s[i] == '>' ==> exists j :: 0 <= j < i && s[j] == '\n'
    decreases |s|
  {
    if |s| == 0 then None
    else if s[0] == '>' then Some(0)
    else if s[0] == '\n' then None
    else match TagEnd(s[1..])
      case Some(k) => Some(k + 1)
      case None =>
        assert forall i :: 1 <= i < |s| && s[i] == '>' ==> exists j :: 0 <= j < i && s[j] == '\n' by {
          forall i | 1 <= i < |s| && s[i] == '>' ensures exists j :: 0 <= j < i && s[j] == '\n' {
            assert s[1..][i - 1] == '>';
            var j :| 0 <= j < i - 1 && s[1..][j] == '\n';
            assert s[j + 1] == '\n';
          }
        }
        None
  }

  /** Go's ReplaceAllString(s, "") for `<.*?>`: scanning left to right, each
      `<` that has a closing `>` on the same line starts the leftmost, shortest
      match, which is removed. */
  function StripTags(s: string): (r: string)
    ensures |r| <= |s|
    ensures (forall i :: 0 <= i < |s| ==> s[i] != '<') ==> r == s
    decreases |s|
  {
    if |s| == 0 then ""
    else if s[0] == '<' && TagEnd(s[1..]).Some? then StripTags(s[TagEnd(s[1..]).value + 2..])
    else [s[0]] + StripTags(s[1..])
  }

  /** No `<` of `s` starts a match of `<.*?>`. */
  predicate TagFree(s: string) {
    forall i :: 0 <= i < |s| && s[i] == '<' ==> TagEnd(s[i + 1..]).None?
  }

  /** Stripping never creates a closing `>` before the first newline. */
  lemma {:induction false} StripKeepsNoTagEnd(t: string)
    requires TagEnd(t).None?
    ensures TagEnd(StripTags(t)).None?
    decreases |t|
  {
    if |t| > 0 && t[0] != '\n' {
      assert TagEnd(t[1..]).None?;
      StripKeepsNoTagEnd(t[1..]);
      var r := StripTags(t);
      assert r == [t[0]] + StripTags(t[1..]);
      assert r[1..] == StripTags(t[1..]);
    }
  }

  /** The stripped text contains no tag. */
  lemma {:induction false} StripTagsTagFree(s: string)
    ensures TagFree(StripTags(s))
    decreases |s|
  {
    if |s| > 0 {
      if s[0] == '<' && TagEnd(s[1..]).Some? {
        StripTagsTagFree(s[TagEnd(s[1..]).value + 2..]);
      } else {
        StripTagsTagFree(s[1..]);
        if s[0] == '<' {
          StripKeepsNoTagEnd(s[1..]);
        }
        ConsTagFree(s[0], StripTags(s[1..]));
      }
    }
  }

  /** Prepending a byte keeps a text tag-free unless the byte opens a tag. */
  lemma ConsTagFree(c: char, rest: string)
    requires TagFree(rest) && (c == '<' ==> TagEnd(rest).None?)
    ensures TagFree([c] + rest)
  {
    var r := [c] + rest;
    forall i | 0 <= i < |r| && r[i] == '<' ensures TagEnd(r[i + 1..]).None? {
      if i == 0 {
        assert r[1..] == rest;
      } else {
        assert r[i + 1..] == rest[i..];
        assert rest[i - 1] == '<';
      }
    }
  }

  /** Text without tags is left as it is. */
  lemma {:induction false} StripTagsFixesTagFree(s: string)
    requires TagFree(s)
    ensures StripTags(s) == s
    decreases |s|
  {
    if |s| > 0 {
      assert s[0] == '<' ==> TagEnd(s[1..]).None?;
      assert TagFree(s[1..]) by {
        forall i | 0 <= i < |s[1..]| && s[1..][i] == '<' ensures TagEnd(s[1..][i + 1..]).None? {
          assert s[1..][i + 1..] == s[i + 2..];
        }
      }
      StripTagsFixesTagFree(s[1..]);
    }
  }

  /** Stripping twice is stripping once. */
  lemma StripTagsIdempotent(s: string)
    ensures StripTags(StripTags(s)) == StripTags(s)
  {
    StripTagsTagFree(s);
    StripTagsFixesTagFree(StripTags(s));
  }

  /** `stripped` is a tag-free text no longer than `raw`. */
  predicate StrippedFrom(raw: string, stripped: string) {
    |stripped| <= |raw| && TagFree(stripped)
  }

  /** normalize: "" stays ""; otherwise tags are stripped and the entities of
      what remains are unescaped by `unescape` (html.UnescapeString, a
      library function that is a parameter here). */
  function Normalize(raw: string, unescape: string -> string): (r: string)
    ensures raw == "" ==> r == ""
    ensures raw != "" ==> exists stripped :: StrippedFrom(raw, stripped) && r == unescape(stripped)
  {
    if raw == "" then ""
    else
      StripTagsTagFree(raw);
      assert StrippedFrom(raw, StripTags(raw));
      unescape(StripTags(raw))
  }

  // ---------------------------------------------------------------------
  // normalizeURL: spaces to '+', then url.QueryUnescape

  predicate IsHex(c: char) {
    '0' <= c <= '9' || 'a' <= c <= 'f' || 'A' <= c <= 'F'
  }

  function HexValue(c: char): (v: nat)
    requires IsHex(c)
    ensures v < 16
  {
    if '0' <= c <= '9' then c as int - '0' as int
    else if 'a' <= c <= 'f' then c as int - 'a' as int + 10
    else c as int - 'A' as int + 10
  }

  /** The `%` at position `i` is not followed by two hex digits. */
  predicate BadEscapeAt(s: string, i: int) {
    0 <= i < |s| && s[i] == '%' && !(i + 2 < |s| && IsHex(s[i + 1]) && IsHex(s[i + 2]))
  }

  /** url.QueryUnescape: `%XX` decodes to the byte XX (section 2.1 of RFC
      3986) and `+` to a space (section 5.1 of the WHATWG URL Standard); a `%`
      not followed by two hex digits makes the whole decoding fail. */
  function QueryUnescape(s: string): (r: Option<string>)
    ensures r.Some? ==> |r.value| <= |s|
    decreases |s|
  {
    if |s| == 0 then Some("")
    else if s[0] == '%' then
      if |s| >= 3 && IsHex(s[1]) && IsHex(s[2]) then
        var rest := QueryUnescape(s[3..]);
        if rest.None? then None
        else Some([(HexValue(s[1]) * 16 + HexValue(s[2])) as char] + rest.value)
      else None
    else
      var rest := QueryUnescape(s[1..]);
      if rest.None? then None
      else Some([if s[0] == '+' then ' ' else s[0]] + rest.value)
  }

  /** Decoding fails exactly when some `%` is not followed by two hex digits:
      the bytes an escape consumes are hex digits, never `%`, so every `%` is
      looked at. */
  lemma {:induction false} UnescapeFailsIffBadEscape(s: string)
    ensures QueryUnescape(s).None? <==> exists i :: BadEscapeAt(s, i)
    decreases |s|
  {
    if |s| > 0 {
      if s[0] == '%' {
        if |s| >= 3 && IsHex(s[1]) && IsHex(s[2]) {
          UnescapeFailsIffBadEscape(s[3..]);
          ShiftBadEscape(s, 3);
        } else {
          assert BadEscapeAt(s, 0);
        }
      } else {
        UnescapeFailsIffBadEscape(s[1..]);
        ShiftBadEscape(s, 1);
      }
    }
  }

  /** A bad escape of `s` at or past `n` is a bad escape of `s[n..]`, and
      before `n` there is none when the first `n` bytes hold no bad `%`. */
  lemma ShiftBadEscape(s: string, n: nat)
    requires n <= |s|
    requires forall i :: 0 <= i < n ==> !BadEscapeAt(s, i)
    ensures (exists i :: BadEscapeAt(s, i)) <==> (exists i :: BadEscapeAt(s[n..], i))
  {
    if exists i :: BadEscapeAt(s, i) {
      var i :| BadEscapeAt(s, i);
      assert BadEscapeAt(s[n..], i - n);
    }
    if exists i :: BadEscapeAt(s[n..], i) {
      var i :| BadEscapeAt(s[n..], i);
      assert BadEscapeAt(s, i + n);
    }
  }

  /** normalizeURL: "" stays ""; otherwise spaces become `+` and the result is
      query-unescaped, and a malformed escape returns the input unchanged. */
  function NormalizeURL(raw: string): (r: string)
    ensures raw == "" ==> r == ""
    ensures (exists i :: BadEscapeAt(raw, i)) ==> r == raw
    ensures |r| <= |raw|
  {
    if raw == "" then ""
    else
      var plus := SpacesToPlus(raw);
      assert forall i :: BadEscapeAt(raw, i) <==> BadEscapeAt(plus, i);
      UnescapeFailsIffBadEscape(plus);
      match QueryUnescape(plus)
      case Some(u) => u
      case None => raw
  }

  /** Without any `%`, normalizeURL turns both spaces and `+` into spaces and
      keeps every other byte. */
  lemma {:induction false} NormalizeURLWithoutEscapes(raw: string)
    requires raw != "" && forall i :: 0 <= i < |raw| ==> raw[i] != '%'
    ensures |NormalizeURL(raw)| == |raw|
    ensures forall i :: 0 <= i < |raw| ==>
      NormalizeURL(raw)[i] == if raw[i] == '+' || raw[i] == ' ' then ' ' else raw[i]
  {
    PlusDecoding(SpacesToPlus(raw));
  }

  lemma {:induction false} PlusDecoding(s: string)
    requires forall i :: 0 <= i < |s| ==> s[i] != '%'
    ensures QueryUnescape(s).Some? && |QueryUnescape(s).value| == |s|
    ensures forall i :: 0 <= i < |s| ==> QueryUnescape(s).value[i] == if s[i] == '+' then ' ' else s[i]
    decreases |s|
  {
    if |s| > 0 {
      PlusDecoding(s[1..]);
    }
  }

  // The encoding direction, as the partner of the decoder.

  /** The bytes url.QueryEscape leaves as they are. */
  predicate Unreserved(c: char) {
    'a' <= c <= 'z' || 'A' <= c <= 'Z' || '0' <= c <= '9' || c == '-' || c == '_' || c == '.' || c == '~'
  }

  function HexDigit(n: nat): (c: char)
    requires n < 16
    ensures IsHex(c) && HexValue(c) == n
  {
    if n < 10 then ('0' as int + n) as char else ('A' as int + n - 10) as char
  }

  /** url.QueryEscape on a byte string: a space becomes `+`, an unreserved
      byte stays, every other byte becomes `%XX`. */
  function QueryEscape(s: string): (r: string)
    requires forall i :: 0 <= i < |s| ==> s[i] as int < 256
    ensures forall i :: 0 <= i < |r| ==> r[i] != ' '
    ensures s != "" ==> r != ""
    decreases |s|
  {
    if |s| == 0 then ""
    else
      var c := s[0];
      var head :=
        if c == ' ' then "+"
        else if Unreserved(c) then [c]
        else ['%', HexDigit(c as int / 16), HexDigit(c as int % 16)];
      head + QueryEscape(s[1..])
  }

  /** A byte other than `%` decodes to itself, or to a space when it is `+`. */
  lemma UnescapeOne(e: string, rest: string)
    requires |e| > 0 && e[0] != '%' && QueryUnescape(e[1..]) == Some(rest)
    ensures QueryUnescape(e) == Some([if e[0] == '+' then ' ' else e[0]] + rest)
  {
  }

  /** A `%` and two hex digits decode to the byte they spell. */
  lemma UnescapeTriple(e: string, rest: string)
    requires |e| >= 3 && e[0] == '%' && IsHex(e[1]) && IsHex(e[2])
    requires QueryUnescape(e[3..]) == Some(rest)
    ensures QueryUnescape(e) == Some([(HexValue(e[1]) * 16 + HexValue(e[2])) as char] + rest)
  {
  }

  /** Decoding undoes encoding. */
  lemma {:induction false} UnescapeEscape(s: string)
    requires forall i :: 0 <= i < |s| ==> s[i] as int < 256
    ensures QueryUnescape(QueryEscape(s)) == Some(s)
    decreases |s|
  {
    if |s| > 0 {
      var c := s[0];
      var e := QueryEscape(s);
      var tail := QueryEscape(s[1..]);
      UnescapeEscape(s[1..]);
      assert s == [c] + s[1..];
      if c == ' ' {
        assert e == "+" + tail && e[1..] == tail;
        UnescapeOne(e, s[1..]);
      } else if Unreserved(c) {
        assert e == [c] + tail && e[1..] == tail;
        UnescapeOne(e, s[1..]);
      } else {
        var h1, h2 := HexDigit(c as int / 16), HexDigit(c as int % 16);
        assert e == ['%', h1, h2] + tail && e[3..] == tail;
        UnescapeTriple(e, s[1..]);
      }
    }
  }

  /** normalizeURL recovers any non-empty byte string from its query escaping. */
  lemma NormalizeURLInvertsEscape(s: string)
    requires s != "" && forall i :: 0 <= i < |s| ==> s[i] as int < 256
    ensures NormalizeURL(QueryEscape(s)) == s
  {
    var e := QueryEscape(s);
    assert SpacesToPlus(e) == e;
    UnescapeEscape(s);
  }

  // ---------------------------------------------------------------------
  // is500InURL: the pattern \d{3}-\d{2}\.js anywhere in the URL

  predicate IsDigit(c: char) {
    '0' <= c <= '9'
  }

  /** Three digits, `-`, two digits and `.js` start at position `i`. */
  predicate Is500PatternAt(url: string, i: int) {
    0 <= i && i + 9 <= |url|
    && IsDigit(url[i]) && IsDigit(url[i + 1]) && IsDigit(url[i + 2]) && url[i + 3] == '-'
    && IsDigit(url[i + 4]) && IsDigit(url[i + 5])
    && url[i + 6] == '.' && url[i + 7] == 'j' && url[i + 8] == 's'
  }

  /** is500InURL without its memo: the regular expression matches somewhere
      in the URL. */
  function Is500InURL(url: string): (r: bool)
    ensures r <==> exists i :: Is500PatternAt(url, i)
    decreases |url|
  {
    if |url| < 9 then false
    else if Is500PatternAt(url, 0) then true
    else
      var rest := Is500InURL(url[1..]);
      assert forall i :: 1 <= i ==> (Is500PatternAt(url, i) <==> Is500PatternAt(url[1..], i - 1));
      if rest then
        var i :| Is500PatternAt(url[1..], i);
        assert Is500PatternAt(url, i + 1);
        true
      else false
  }
}
