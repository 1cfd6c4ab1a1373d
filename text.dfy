/**
 * String operations the backend (Python) and the frontend (JavaScript) both rely on:
 * ASCII case mapping, whitespace trimming, prefix and substring tests, splitting at the
 * first separator and decimal rendering of integers.
 */
module Text {

  /** The white space and line terminators JavaScript's `trim()` removes. */
  predicate IsSpace(c: char) {
    || c == ' ' || c == '\t' || c == '\n' || c == '\r' || c == '\U{000B}' || c == '\U{000C}'
    || c == '\U{00A0}' || c == '\U{FEFF}' || c == '\U{1680}' || '\U{2000}' <= c <= '\U{200A}'
    || c == '\U{2028}' || c == '\U{2029}' || c == '\U{202F}' || c == '\U{205F}' || c == '\U{3000}'
  }

  /**
   * The characters Python's `str.isspace()` accepts, which `str.strip()` removes: unlike
   * JavaScript it includes the separators U+001C to U+001F and U+0085, and not U+FEFF.
   */
  predicate IsPySpace(c: char) {
    || c == ' ' || '\t' <= c <= '\r' || '\U{001C}' <= c <= '\U{001F}' || c == '\U{0085}'
    || c == '\U{00A0}' || c == '\U{1680}' || '\U{2000}' <= c <= '\U{200A}'
    || c == '\U{2028}' || c == '\U{2029}' || c == '\U{202F}' || c == '\U{205F}' || c == '\U{3000}'
  }

  function UpperChar(c: char): char {
    if 'a' <= c <= 'z' then (c as int - 32) as char else c
  }

  function LowerChar(c: char): char {
    if 'A' <= c <= 'Z' then (c as int + 32) as char else c
  }

  /** `str.upper()` / `String.prototype.toUpperCase()` on ASCII letters. */
  function Upper(s: string): (r: string)
    ensures |r| == |s|
    ensures forall i :: 0 <= i < |s| ==> r[i] == UpperChar(s[i])
  {
    seq(|s|, i requires 0 <= i < |s| => UpperChar(s[i]))
  }

  /** `String.prototype.toLowerCase()` / `str.lower()` on ASCII letters. */
  function Lower(s: string): (r: string)
    ensures |r| == |s|
    ensures forall i :: 0 <= i < |s| ==> r[i] == LowerChar(s[i])
  {
    seq(|s|, i requires 0 <= i < |s| => LowerChar(s[i]))
  }

  /** Upper-casing twice is upper-casing once. */
  lemma UpperIdempotent(s: string)
    ensures Upper(Upper(s)) == Upper(s)
  {
    assert forall i :: 0 <= i < |s| ==> UpperChar(UpperChar(s[i])) == UpperChar(s[i]);
  }

  /** Lower-casing twice is lower-casing once. */
  lemma LowerIdempotent(s: string)
    ensures Lower(Lower(s)) == Lower(s)
  {
    assert forall i :: 0 <= i < |s| ==> LowerChar(LowerChar(s[i])) == LowerChar(s[i]);
  }

  predicate StartsWith(s: string, prefix: string) {
    |prefix| <= |s| && s[..|prefix|] == prefix
  }

  /** `needle in hay` (Python) / `hay.includes(needle)` (JavaScript). */
  predicate Contains(hay: string, needle: string)
    decreases |hay|
  {
    StartsWith(hay, needle) || (|hay| > 0 && Contains(hay[1..], needle))
  }

  /** Whatever surrounds it, a string contains itself. */
  lemma {:induction false} ContainsMiddle(before: string, needle: string, after: string)
    ensures Contains(before + needle + after, needle)
  {
    if |before| == 0 {
      assert before + needle + after == needle + after;
      assert (needle + after)[..|needle|] == needle;
    } else {
      ContainsMiddle(before[1..], needle, after);
      assert (before + needle + after)[1..] == before[1..] + needle + after;
    }
  }

  /** The first position at or after `i` that does not satisfy `sp`, or `|s|`. */
  function SkipSpaces(s: string, sp: char -> bool, i: nat): (k: nat)
    requires i <= |s|
    ensures i <= k <= |s|
    ensures forall m :: i <= m < k ==> sp(s[m])
    ensures k < |s| ==> !sp(s[k])
    decreases |s| - i
  {
    if i < |s| && sp(s[i]) then SkipSpaces(s, sp, i + 1) else i
  }

  /** Moving back from `j` but not below `lo`, the end of the last character not satisfying `sp`. */
  function BackOverSpaces(s: string, sp: char -> bool, lo: nat, j: nat): (k: nat)
    requires lo <= j <= |s|
    ensures lo <= k <= j
    ensures forall m :: k <= m < j ==> sp(s[m])
    ensures k > lo ==> !sp(s[k - 1])
  {
    if j > lo && sp(s[j - 1]) then BackOverSpaces(s, sp, lo, j - 1) else j
  }

  /** The slice of `s` left once the characters satisfying `sp` are removed from both ends. */
  function TrimBy(s: string, sp: char -> bool): (r: string)
    ensures exists i, j :: 0 <= i <= j <= |s| && r == s[i..j]
    ensures |r| > 0 ==> !sp(r[0]) && !sp(r[|r| - 1])
    ensures r == "" <==> forall i :: 0 <= i < |s| ==> sp(s[i])
  {
    var i := SkipSpaces(s, sp, 0);
    var j := BackOverSpaces(s, sp, i, |s|);
    s[i..j]
  }

  /** `String.prototype.trim()`: a slice of the input with no white space at either end. */
  function Trim(s: string): (r: string)
    ensures exists i, j :: 0 <= i <= j <= |s| && r == s[i..j]
    ensures |r| > 0 ==> !IsSpace(r[0]) && !IsSpace(r[|r| - 1])
    ensures r == "" <==> forall i :: 0 <= i < |s| ==> IsSpace(s[i])
  {
    TrimBy(s, IsSpace)
  }

  /** `str.strip()`: a slice of the input with no Python white space at either end. */
  function Strip(s: string): (r: string)
    ensures exists i, j :: 0 <= i <= j <= |s| && r == s[i..j]
    ensures |r| > 0 ==> !IsPySpace(r[0]) && !IsPySpace(r[|r| - 1])
    ensures r == "" <==> forall i :: 0 <= i < |s| ==> IsPySpace(s[i])
  {
    TrimBy(s, IsPySpace)
  }

  /** `s.split(sep)[0]`: the text before the first separator, or all of it. */
  function BeforeFirst(s: string, sep: char): (r: string)
    ensures |r| <= |s| && r == s[..|r|]
    ensures sep !in r
    ensures |r| < |s| ==> s[|r|] == sep
  {
    if |s| == 0 then ""
    else if s[0] == sep then ""
    else [s[0]] + BeforeFirst(s[1..], sep)
  }

  /** Without the separator, the whole text comes back. */
  lemma {:induction false} BeforeFirstAbsent(s: string, sep: char)
    requires sep !in s
    ensures BeforeFirst(s, sep) == s
  {
    if |s| > 0 {
      assert sep !in s[1..] by {
        assert forall c :: c in s[1..] ==> c in s;
      }
      BeforeFirstAbsent(s[1..], sep);
      assert s == [s[0]] + s[1..];
    }
  }

  /** Text added after the first separator does not move it. */
  lemma BeforeFirstAppend(a: string, b: string, sep: char)
    requires sep in a
    ensures BeforeFirst(a + b, sep) == BeforeFirst(a, sep)
  {
    var r1, r2 := BeforeFirst(a + b, sep), BeforeFirst(a, sep);
    assert (a + b)[|r2|] == sep;
    assert r1 == (a + b)[..|r1|] == a[..|r2|] == r2;
  }

  function DigitChar(d: nat): char
    requires d < 10
  {
    "0123456789"[d]
  }

  /** Decimal rendering of a natural number, as `str(n)` and template strings produce it. */
  function NatToString(n: nat): (s: string)
    ensures |s| > 0
    ensures forall i :: 0 <= i < |s| ==> '0' <= s[i] <= '9'
  {
    if n < 10 then [DigitChar(n)] else NatToString(n / 10) + [DigitChar(n % 10)]
  }

  /** A one-digit rendering is exactly the rendering of a number below ten. */
  lemma NatToStringLength(n: nat)
    ensures |NatToString(n)| == 1 <==> n < 10
  {
    if n >= 10 {
      assert |NatToString(n)| == |NatToString(n / 10)| + 1;
    }
  }

  /** Distinct numbers render differently. */
  lemma {:induction false} NatToStringInjective(n: nat, m: nat)
    requires NatToString(n) == NatToString(m)
    ensures n == m
  {
    NatToStringLength(n);
    NatToStringLength(m);
    var s := NatToString(n);
    if n >= 10 {
      assert s[..|s| - 1] == NatToString(n / 10) == NatToString(m / 10);
      NatToStringInjective(n / 10, m / 10);
      DigitCharInjective(n % 10, m % 10);
    } else {
      DigitCharInjective(n, m);
    }
  }

  lemma DigitCharInjective(d: nat, e: nat)
    requires d < 10 && e < 10 && DigitChar(d) == DigitChar(e)
    ensures d == e
  {
  }

  /** Decimal rendering of an integer, with a leading '-' when negative. */
  function IntToString(i: int): (s: string)
    ensures |s| > 0
    ensures (s[0] == '-') <==> i < 0
  {
    if i < 0 then "-" + NatToString(-i) else NatToString(i)
  }
}
