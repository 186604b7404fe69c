/** The byte-string helpers of Go's `strings` and `bytes` packages that the
    client uses. A Go string is a byte sequence; here every `char` stands for
    one byte. */
module Strings {

  /** `pat` occurs in `s` starting at position `i`. */
  predicate OccursAt(s: string, pat: string, i: int) {
    0 <= i && i + |pat| <= |s| && s[i..i + |pat|] == pat
  }

  lemma OccursAtTail(s: string, pat: string, i: int)
    requires |s| > 0 && i >= 1
    ensures OccursAt(s, pat, i) <==> OccursAt(s[1..], pat, i - 1)
  {
    if i + |pat| <= |s| {
      assert s[1..][i - 1..i - 1 + |pat|] == s[i..i + |pat|];
    }
  }

  /** `strings.Index`: the first position where `pat` occurs, or -1. */
  function IndexOf(s: string, pat: string): (r: int)
    ensures r >= -1
    ensures r >= 0 ==> OccursAt(s, pat, r)
    ensures forall i :: 0 <= i && (r < 0 || i < r) ==> !OccursAt(s, pat, i)
    decreases |s|
  {
    if |s| < |pat| then -1
    else if s[..|pat|] == pat then 0
    else
      var k := IndexOf(s[1..], pat);
      assert forall i :: 1 <= i ==> (OccursAt(s, pat, i) <==> OccursAt(s[1..], pat, i - 1)) by {
        forall i | 1 <= i ensures OccursAt(s, pat, i) <==> OccursAt(s[1..], pat, i - 1) {
          OccursAtTail(s, pat, i);
        }
      }
      if k < 0 then -1 else k + 1
  }

  /** `strings.Contains` / `bytes.Contains`. */
  predicate Contains(s: string, pat: string) {
    IndexOf(s, pat) >= 0
  }

  /** `strings.HasPrefix`. */
  predicate HasPrefix(s: string, prefix: string) {
    |prefix| <= |s| && s[..|prefix|] == prefix
  }

  /** `strings.ToLower`, restricted to the ASCII letters. */
  function ToLower(s: string): (r: string)
    ensures |r| == |s|
    ensures forall i :: 0 <= i < |s| && !('A' <= s[i] <= 'Z') ==> r[i] == s[i]
  {
    seq(|s|, i requires 0 <= i < |s| =>
      if 'A' <= s[i] <= 'Z' then (s[i] as int + 32) as char else s[i])
  }

  /** Lower-casing twice is lower-casing once. */
  lemma ToLowerIdempotent(s: string)
    ensures ToLower(ToLower(s)) == ToLower(s)
  {
  }

  /** `strings.ReplaceAll(s, " ", "+")`. */

  function SpacesToPlus(s: string): (r: string)
    ensures |r| == |s|
    ensures forall i :: 0 <= i < |r| ==> r[i] != ' '
    ensures forall i :: 0 <= i < |s| && s[i] != ' ' ==> r[i] == s[i]
  {
    seq(|s|, i requires 0 <= i < |s| => if s[i] == ' ' then '+' else s[i])
  }

  /** `strings.Join(parts, "")`. */
  function Concat(parts: seq<string>): (r: string)
    ensures parts == [] ==> r == ""
    decreases |parts|
  {
    if |parts| == 0 then "" else Concat(parts[..|parts| - 1]) + parts[|parts| - 1]
  }

  /** `fmt.Sprintf("%d", n)` for a non-negative `n`. */
  function DecimalString(n: nat): (r: string)
    ensures |r| >= 1
    ensures forall i :: 0 <= i < |r| ==> '0' <= r[i] <= '9'
  {
    var d := ['0' + (n % 10) as char];
    if n < 10 then d else DecimalString(n / 10) + d
  }

  /** Different numbers render differently. */
  lemma {:induction false} DecimalStringInjective(a: nat, b: nat)
    requires DecimalString(a) == DecimalString(b)
    ensures a == b
    decreases a
  {
    var ra, rb := DecimalString(a), DecimalString(b);
    assert ra[|ra| - 1] == rb[|rb| - 1];
    assert a % 10 == b % 10;
    if a >= 10 && b >= 10 {
      assert ra[..|ra| - 1] == DecimalString(a / 10);
      assert rb[..|rb| - 1] == DecimalString(b / 10);
      DecimalStringInjective(a / 10, b / 10);
    }
  }

  /** `fmt.Sprintf("%d", i)`. */
  function DecimalInt(i: int): (r: string)
    ensures |r| >= 1 && (r[0] == '-' <==> i < 0)
  {
    if i < 0 then "-" + DecimalString(-i) else DecimalString(i)
  }

  /** Different integers render differently. */
  lemma DecimalIntInjective(a: int, b: int)
    requires DecimalInt(a) == DecimalInt(b)
    ensures a == b
  {
    if a < 0 && b < 0 {
      assert DecimalString(-a) == DecimalInt(a)[1..] == DecimalInt(b)[1..] == DecimalString(-b);
      DecimalStringInjective(-a, -b);
    } else if a >= 0 && b >= 0 {
      DecimalStringInjective(a, b);
    }
  }
}
