/**
 * The JavaScript string operations the source relies on, over Dafny strings
 * (sequences of Unicode scalar values): `startsWith`, `endsWith`, `includes`,
 * `trim`, `.length` (which counts UTF-16 code units), `slice(0, n)`, decimal
 * digit strings and the decimal rendering of integers.
 */
module Text {

  predicate StartsWith(s: string, prefix: string) {
    |prefix| <= |s| && s[..|prefix|] == prefix
  }

  predicate EndsWith(s: string, suffix: string) {
    |suffix| <= |s| && s[|s| - |suffix|..] == suffix
  }

  /** `s.includes(sub)`: `sub` occurs at some offset of `s`. */
  predicate Contains(s: string, sub: string) {
    exists i :: 0 <= i <= |s| && StartsWith(s[i..], sub)
  }

  /** A string that starts with `sub` includes it. */
  lemma PrefixIsContained(s: string, sub: string)
    requires StartsWith(s, sub)
    ensures Contains(s, sub)
  {
    assert s[0..] == s;
  }

  /** A string includes each of its infixes. */
  lemma InfixIsContained(p: string, x: string, q: string)
    ensures Contains(p + x + q, x)
  {
    var s := p + x + q;
    assert s[|p|..][..|x|] == x;
  }

  /** A string that never holds the first character of a non-empty `sub` cannot include `sub`. */
  lemma NotContainsWithoutFirstChar(s: string, sub: string)
    requires |sub| > 0
    requires forall i :: 0 <= i < |s| ==> s[i] != sub[0]
    ensures !Contains(s, sub)
  {
    forall i | 0 <= i <= |s|
      ensures !StartsWith(s[i..], sub)
    {
      if i < |s| {
        assert s[i..][0] == s[i];
      }
    }
  }

  /**
   * Behind a prefix that never holds `sub`'s first character, an occurrence
   * of `sub` in a tail no longer than `sub` can only be the tail itself.
   */
  lemma ContainsAfterForeignPrefix(p: string, d: string, sub: string)
    requires |sub| > 0 && |d| <= |sub|
    requires forall i :: 0 <= i < |p| ==> p[i] != sub[0]
    requires Contains(p + d, sub)
    ensures d == sub
  {
    var s := p + d;
    var i :| 0 <= i <= |s| && StartsWith(s[i..], sub);
    assert s[i..][..|sub|][0] == s[i] == sub[0];
    assert i >= |p|;
    assert s[i..] == d[i - |p|..];
    assert d == d[..|sub|];
  }

  // ---------------------------------------------------------------- trim

  /** ECMAScript WhiteSpace and LineTerminator code points, the set `String.prototype.trim` removes. */
  predicate IsWhitespace(c: char) {
    c == '\t' || c == '\n' || c == '\U{B}' || c == '\U{C}' || c == '\r' || c == ' '
    || c == '\U{A0}' || c == '\U{1680}' || ('\U{2000}' <= c <= '\U{200A}')
    || c == '\U{2028}' || c == '\U{2029}' || c == '\U{202F}' || c == '\U{205F}'
    || c == '\U{3000}' || c == '\U{FEFF}'
  }

  predicate IsBlank(s: string) {
    forall i :: 0 <= i < |s| ==> IsWhitespace(s[i])
  }

  function TrimStart(s: string): (r: string)
    ensures |r| <= |s|
    ensures r == s[|s| - |r|..]
    ensures r != "" ==> !IsWhitespace(r[0])
    decreases |s|
  {
    if |s| > 0 && IsWhitespace(s[0]) then TrimStart(s[1..]) else s
  }

  function TrimEnd(s: string): (r: string)
    ensures |r| <= |s|
    ensures r == s[..|r|]
    decreases |s|
  {
    if |s| > 0 && IsWhitespace(s[|s| - 1]) then TrimEnd(s[..|s| - 1]) else s
  }

  /** `s.trim()`. */
  function Trim(s: string): string {
    TrimEnd(TrimStart(s))
  }

  lemma {:induction false} TrimStartEmptyIffBlank(s: string)
    ensures TrimStart(s) == "" <==> IsBlank(s)
    decreases |s|
  {
    if |s| > 0 {
      TrimStartEmptyIffBlank(s[1..]);
      assert forall i :: 0 <= i < |s[1..]| ==> s[1..][i] == s[i + 1];
      if IsWhitespace(s[0]) && IsBlank(s[1..]) {
        forall i | 0 <= i < |s| ensures IsWhitespace(s[i]) {
          if i > 0 { assert s[i] == s[1..][i - 1]; }
        }
      }
    }
  }

  lemma {:induction false} TrimEndOfNonEmptyIsNonEmpty(s: string)
    requires s != ""
    requires !IsWhitespace(s[0])
    ensures TrimEnd(s) != ""
    decreases |s|
  {
    if |s| > 1 && IsWhitespace(s[|s| - 1]) {
      TrimEndOfNonEmptyIsNonEmpty(s[..|s| - 1]);
    }
  }

  /** `!s.trim()` holds exactly for the strings made of whitespace only (the empty string included). */
  lemma TrimEmptyIffBlank(s: string)
    ensures Trim(s) == "" <==> IsBlank(s)
  {
    TrimStartEmptyIffBlank(s);
    var t := TrimStart(s);
    if t != "" {
      assert !IsWhitespace(t[0]);
      TrimEndOfNonEmptyIsNonEmpty(t);
    }
  }

  // ---------------------------------------------------------------- length

  /** The number of UTF-16 code units of `c`: two for a code point above U+FFFF. */
  function Utf16Units(c: char): nat {
    if c as int > 0xFFFF then 2 else 1
  }

  /** JavaScript's `s.length`. */
  function Utf16Length(s: string): (n: nat)
    ensures n >= |s|
    ensures n == 0 <==> s == ""
  {
    if s == [] then 0 else Utf16Units(s[0]) + Utf16Length(s[1..])
  }

  /** A string of Basic Multilingual Plane characters has one UTF-16 code unit per character. */
  lemma {:induction false} Utf16LengthOfBmp(s: string)
    requires forall i :: 0 <= i < |s| ==> s[i] as int <= 0xFFFF
    ensures Utf16Length(s) == |s|
    decreases |s|
  {
    if s != [] {
      assert forall i :: 0 <= i < |s[1..]| ==> s[1..][i] == s[i + 1];
      Utf16LengthOfBmp(s[1..]);
    }
  }

  /** `s.slice(0, n)` for strings of Basic Multilingual Plane characters. */
  function Take(s: string, n: nat): (r: string)
    ensures |r| == if |s| <= n then |s| else n
    ensures StartsWith(s, r)
  {
    if |s| <= n then s else s[..n]
  }

  // ---------------------------------------------------------------- digits

  predicate IsDigit(c: char) {
    '0' <= c <= '9'
  }

  predicate AllDigits(s: string) {
    forall i :: 0 <= i < |s| ==> IsDigit(s[i])
  }

  function DigitValue(c: char): nat
    requires IsDigit(c)
  {
    c as int - '0' as int
  }

  function DigitChar(d: nat): (c: char)
    requires d < 10
    ensures IsDigit(c) && DigitValue(c) == d
  {
    ('0' as int + d) as char
  }

  /** The value of a decimal digit string (`BigInt(s)` / `Number(s)` on such a string). */
  function DecimalValue(s: string): nat
    requires AllDigits(s)
    decreases |s|
  {
    if s == [] then 0 else DecimalValue(s[..|s| - 1]) * 10 + DigitValue(s[|s| - 1])
  }

  function Pow10(k: nat): (p: nat)
    ensures p >= 1
  {
    if k == 0 then 1 else 10 * Pow10(k - 1)
  }

  /** A digit string of length k denotes a value below 10^k. */
  lemma {:induction false} DecimalValueBound(s: string)
    requires AllDigits(s)
    ensures DecimalValue(s) < Pow10(|s|)
    decreases |s|
  {
    if s != [] {
      var init := s[..|s| - 1];
      DecimalValueBound(init);
      assert DecimalValue(init) + 1 <= Pow10(|init|);
      assert DecimalValue(s) <= DecimalValue(init) * 10 + 9;
    }
  }

  /** The decimal rendering of a natural number, as `String(n)` / a template literal gives it. */
  function NatToString(n: nat): (s: string)
    ensures AllDigits(s) && |s| >= 1
    decreases n
  {
    if n < 10 then [DigitChar(n)] else NatToString(n / 10) + [DigitChar(n % 10)]
  }

  function IntToString(i: int): string {
    if i < 0 then "-" + NatToString(-i) else NatToString(i)
  }

  /** A three-digit number renders as three characters. */
  lemma ThreeDigitRendering(n: nat)
    requires 100 <= n <= 999
    ensures |NatToString(n)| == 3
  {
    assert |NatToString(n / 100)| == 1;
    assert NatToString(n / 10) == NatToString(n / 10 / 10) + [DigitChar(n / 10 % 10)];
  }

  /** Rendering and reading back a natural number are inverse. */
  lemma {:induction false} NatToStringRoundTrip(n: nat)
    ensures DecimalValue(NatToString(n)) == n
    decreases n
  {
    if n >= 10 {
      NatToStringRoundTrip(n / 10);
      var s := NatToString(n);
      assert s[..|s| - 1] == NatToString(n / 10);
    }
  }

  /** Digit strings have no whitespace, so they are never blank unless empty. */
  lemma DigitsAreNotBlank(s: string)
    ensures AllDigits(s) && s != "" ==> !IsBlank(s)
  {
    if AllDigits(s) && s != "" { assert IsDigit(s[0]); }
  }
}
