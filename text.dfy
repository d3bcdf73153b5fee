/**
 * The .NET string operations the request builders rely on: white-space and
 * emptiness tests, `Length` in UTF-16 code units, `Split(c)[0]`, `Replace(p, "")`, `int.Parse`, `ToString()`
 * of an integer and an ASCII case-insensitive comparison.
 */
module Text {
  import opened Wrappers

  /** `char.IsWhiteSpace`: the Unicode space, line and paragraph separators,
      the controls U+0009..U+000D and U+0085. */
  predicate IsWhiteSpace(c: char) {
    ('\U{9}' <= c <= '\U{D}') || c == ' ' || c == '\U{85}' || c == '\U{A0}' || c == '\U{1680}'
    || ('\U{2000}' <= c <= '\U{200A}') || c == '\U{2028}' || c == '\U{2029}'
    || c == '\U{202F}' || c == '\U{205F}' || c == '\U{3000}'
  }

  /** `string.IsNullOrWhiteSpace`: null, empty, or white space only. */
  predicate IsNullOrWhiteSpace(s: Option<string>) {
    s.None? || forall i :: 0 <= i < |s.value| ==> IsWhiteSpace(s.value[i])
  }

  /** `string.IsNullOrEmpty`: null or of length zero. */
  predicate IsNullOrEmpty(s: Option<string>) {
    s.None? || |s.value| == 0
  }

  /** `string.Length`: a .NET string is UTF-16, so a character outside the
      Basic Multilingual Plane is two code units (a surrogate pair). */
  function Utf16Length(s: string): (n: nat)
    ensures |s| <= n <= 2 * |s|
    ensures (forall i :: 0 <= i < |s| ==> s[i] < '\U{10000}') ==> n == |s|
    ensures (forall i :: 0 <= i < |s| ==> s[i] >= '\U{10000}') ==> n == 2 * |s|
  {
    if s == [] then 0
    else (if s[0] < '\U{10000}' then 1 else 2) + Utf16Length(s[1..])
  }

  /** The argument when it is not null or white space, `None` otherwise:
      whether an optional query parameter is sent, and with what value. */
  function NonBlank(s: Option<string>): (r: Option<string>)
    ensures r.Some? <==> !IsNullOrWhiteSpace(s)
    ensures r.Some? ==> r == s
  {
    if IsNullOrWhiteSpace(s) then None else s
  }

  lemma {:induction false} EmptyImpliesWhiteSpace(s: Option<string>)
    ensures IsNullOrEmpty(s) ==> IsNullOrWhiteSpace(s)
    ensures IsNullOrWhiteSpace(Some(" ")) && !IsNullOrEmpty(Some(" "))
  {
    assert IsWhiteSpace(" "[0]);
  }

  // ----- ASCII case folding -----------------------------------------------

  function AsciiLower(c: char): (r: char)
    ensures 'A' <= c <= 'Z' ==> 'a' <= r <= 'z'
    ensures !('A' <= c <= 'Z') ==> r == c
  {
    if 'A' <= c <= 'Z' then (c as int + 32) as char else c
  }

  /** Lower-cases the ASCII letters of `s` and keeps every other character. */
  function Lower(s: string): (r: string)
    ensures |r| == |s|
    ensures forall i :: 0 <= i < |s| ==> r[i] == AsciiLower(s[i])
  {
    if |s| == 0 then "" else [AsciiLower(s[0])] + Lower(s[1..])
  }

  /** Equality up to ASCII case. */
  predicate EqualsIgnoreCase(a: string, b: string) {
    Lower(a) == Lower(b)
  }

  // ----- Decimal digits ---------------------------------------------------

  predicate IsDigit(c: char) {
    '0' <= c <= '9'
  }

  /** A non-empty run of ASCII decimal digits: what `int.Parse` accepts here. */
  predicate IsDigits(s: string) {
    |s| > 0 && forall i :: 0 <= i < |s| ==> IsDigit(s[i])
  }

  /** The number a run of decimal digits denotes, most significant first. */
  function DigitsValue(s: string): nat
    requires forall i :: 0 <= i < |s| ==> IsDigit(s[i])
  {
    if |s| == 0 then 0
    else
      assert IsDigit(s[|s| - 1]);
      DigitsValue(s[..|s| - 1]) * 10 + (s[|s| - 1] as int - '0' as int)
  }

  /** `int.Parse` on the inputs modelled: a digit run parses to its value,
      anything else is a format error (`None`). */
  function ParseInt(s: string): (r: Option<int>)
    ensures r.Some? <==> IsDigits(s)
    ensures r.Some? ==> r.value >= 0
  {
    if IsDigits(s) then Some(DigitsValue(s)) else None
  }

  function DigitChar(d: nat): (c: char)
    requires d < 10
    ensures IsDigit(c) && c as int - '0' as int == d
  {
    ('0' as int + d) as char
  }

  /** `ToString()` of a non-negative integer: its decimal digits. */
  function NatString(n: nat): (s: string)
    ensures IsDigits(s)
    decreases n
  {
    if n < 10 then [DigitChar(n)] else NatString(n / 10) + [DigitChar(n % 10)]
  }

  /** `ToString()` of an integer, with a leading '-' when negative. */
  function IntString(i: int): (s: string)
    ensures |s| > 0
    ensures i >= 0 <==> IsDigit(s[0])
  {
    if i < 0 then "-" + NatString(-i) else NatString(i)
  }

  /** Formatting a number and parsing it back gives the number again. */
  lemma {:induction false} NatStringRoundTrip(n: nat)
    ensures IsDigits(NatString(n))
    ensures ParseInt(NatString(n)) == Some(n)
    decreases n
  {
    var s := NatString(n);
    if n < 10 {
      assert s == [DigitChar(n)];
      assert s[..0] == [];
      assert DigitsValue(s) == DigitsValue(s[..0]) * 10 + (s[0] as int - '0' as int);
    } else {
      NatStringRoundTrip(n / 10);
      var h := NatString(n / 10);
      assert s == h + [DigitChar(n % 10)];
      assert s[..|s| - 1] == h;
    }
  }

  lemma IntStringRoundTrip(i: int)
    ensures i >= 0 ==> ParseInt(IntString(i)) == Some(i)
    ensures i < 0 ==> ParseInt(IntString(i)) == None
  {
    if i >= 0 {
      NatStringRoundTrip(i);
    } else {
      assert !IsDigit(IntString(i)[0]);
    }
  }

  // ----- Splitting and replacing ------------------------------------------

  /** `s.Split(c)[0]`: the text before the first `c`, or all of `s` when it
      holds no `c`. */
  function Before(s: string, c: char): (r: string)
    ensures c !in r
    ensures |r| <= |s| && r == s[..|r|]
    ensures c in s ==> |r| < |s| && s[|r|] == c
    ensures c !in s ==> r == s
  {
    if |s| == 0 then ""
    else if s[0] == c then ""
    else [s[0]] + Before(s[1..], c)
  }

  /** `s.Replace(p, "")`: every occurrence of `p`, found left to right and
      without overlap, is removed. */
  function RemoveAll(s: string, p: string): (r: string)
    requires |p| > 0
    ensures |r| <= |s|
    decreases |s|
  {
    if |s| < |p| then s
    else if s[..|p|] == p then RemoveAll(s[|p|..], p)
    else [s[0]] + RemoveAll(s[1..], p)
  }

  /** Nothing is removed from a text that lacks a character of the pattern. */
  lemma {:induction false} RemoveAllAbsent(t: string, p: string, c: char)
    requires |p| > 0 && c in p && c !in t
    ensures RemoveAll(t, p) == t
    decreases |t|
  {
    if |t| >= |p| {
      var k :| 0 <= k < |p| && p[k] == c;
      assert t[..|p|][k] != p[k];
      RemoveAllAbsent(t[1..], p, c);
      assert [t[0]] + t[1..] == t;
    }
  }
}
