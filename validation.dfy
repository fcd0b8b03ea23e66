/**
 * The browser-side input validators: a user ID must be a 17 to 20 digit
 * snowflake whose embedded creation time is not in the future, and a vanity
 * code must be 2 to 32 letters, digits, hyphens or underscores that neither
 * starts nor ends with a separator. Checks run in a fixed order and the
 * first failing one names the error.
 */
module Validation {
  import opened Wrappers
  import opened Text

  /** The `{ isValid, error? }` record both validators return. */
  datatype Verdict = Verdict(isValid: bool, error: Option<string>)

  function Invalid(message: string): Verdict {
    Verdict(false, Some(message))
  }

  const Valid: Verdict := Verdict(true, None)

  /** 2015-01-01T00:00:00Z in milliseconds: the origin of snowflake time. */
  const DiscordEpoch: int := 1420070400000
  /** 2^22: a snowflake's low 22 bits are not time, `>> 22n` drops them. */
  const SnowflakeShift: int := 4194304

  const IdRequired := "User ID is required"
  const IdDigits := "Discord ID must be 17-20 digits"
  const IdFormat := "Invalid Discord ID format"

  /** `/^\d{17,20}$/.test(id)`. */
  predicate IsSnowflakeText(id: string) {
    17 <= |id| <= 20 && AllDigits(id)
  }

  /** `Number(BigInt(id) >> 22n) + 1420070400000`: the creation time in milliseconds. */
  function SnowflakeTimestamp(id: string): (t: int)
    requires AllDigits(id)
    ensures t >= DiscordEpoch
  {
    DecimalValue(id) / SnowflakeShift + DiscordEpoch
  }

  /** The shifted value of a 20-digit ID is below 2^53, so `Number(...)` converts it exactly. */
  lemma SnowflakeShiftIsExact(id: string)
    requires IsSnowflakeText(id)
    ensures DecimalValue(id) / SnowflakeShift < 9007199254740992
  {
    DecimalValueBound(id);
    Pow10Monotone(|id|, 20);
    assert Pow10(1) == 10;
    assert Pow10(2) == 100;
    assert Pow10(3) == 1000;
    assert Pow10(4) == 10000;
    assert Pow10(5) == 100000;
    assert Pow10(6) == 1000000;
    assert Pow10(7) == 10000000;
    assert Pow10(8) == 100000000;
    assert Pow10(9) == 1000000000;
    assert Pow10(10) == 10000000000;
    assert Pow10(11) == 100000000000;
    assert Pow10(12) == 1000000000000;
    assert Pow10(13) == 10000000000000;
    assert Pow10(14) == 100000000000000;
    assert Pow10(15) == 1000000000000000;
    assert Pow10(16) == 10000000000000000;
    assert Pow10(17) == 100000000000000000;
    assert Pow10(18) == 1000000000000000000;
    assert Pow10(19) == 10000000000000000000;
    assert Pow10(20) == 100000000000000000000;
  }

  lemma {:induction false} Pow10Monotone(j: nat, k: nat)
    requires j <= k
    ensures Pow10(j) <= Pow10(k)
    decreases k
  {
    if j < k { Pow10Monotone(j, k - 1); }
  }

  /** `validateDiscordId(id)` with `Date.now()` passed in as `now`. */
  function ValidateDiscordId(id: string, now: int): (v: Verdict)
    ensures v.isValid <==> v.error.None?
    ensures v.isValid <==> IsSnowflakeText(id) && SnowflakeTimestamp(id) <= now
    ensures IsBlank(id) ==> v == Invalid(IdRequired)
    ensures !IsBlank(id) && !IsSnowflakeText(id) ==> v == Invalid(IdDigits)
    ensures IsSnowflakeText(id) && SnowflakeTimestamp(id) > now ==> v == Invalid(IdFormat)
  {
    TrimEmptyIffBlank(id);
    DigitsAreNotBlank(id);
    if Trim(id) == "" then Invalid(IdRequired)
    else if !IsSnowflakeText(id) then Invalid(IdDigits)
    else if SnowflakeTimestamp(id) < DiscordEpoch || SnowflakeTimestamp(id) > now then Invalid(IdFormat)
    else Valid
  }

  const VanityRequired := "Vanity URL is required"
  const VanityLength := "Vanity URL must be 2-32 characters"
  const VanityCharset := "Vanity URL can only contain letters, numbers, hyphens, and underscores"
  const VanityEdge := "Vanity URL cannot start or end with hyphen or underscore"

  predicate IsAsciiAlnum(c: char) {
    ('a' <= c <= 'z') || ('A' <= c <= 'Z') || ('0' <= c <= '9')
  }

  predicate IsVanityChar(c: char) {
    IsAsciiAlnum(c) || c == '_' || c == '-'
  }

  /** `/^[a-zA-Z0-9_-]+$/.test(code)`. */
  predicate MatchesVanityCharset(code: string) {
    |code| > 0 && forall i :: 0 <= i < |code| ==> IsVanityChar(code[i])
  }

  predicate HasSeparatorEdge(code: string) {
    StartsWith(code, "-") || StartsWith(code, "_") || EndsWith(code, "-") || EndsWith(code, "_")
  }

  /** `validateVanityUrl(code)`: required, then length, then charset, then edges. */
  function ValidateVanityUrl(code: string): (v: Verdict)
    ensures v.isValid <==> v.error.None?
    ensures v.isValid <==>
      2 <= |code| <= 32 && MatchesVanityCharset(code)
      && IsAsciiAlnum(code[0]) && IsAsciiAlnum(code[|code| - 1])
    ensures IsBlank(code) ==> v == Invalid(VanityRequired)
    ensures !IsBlank(code) && (Utf16Length(code) < 2 || Utf16Length(code) > 32) ==> v == Invalid(VanityLength)
    ensures !IsBlank(code) && 2 <= Utf16Length(code) <= 32 && !MatchesVanityCharset(code) ==> v == Invalid(VanityCharset)
    ensures !IsBlank(code) && 2 <= Utf16Length(code) <= 32 && MatchesVanityCharset(code) && HasSeparatorEdge(code)
      ==> v == Invalid(VanityEdge)
  {
    TrimEmptyIffBlank(code);
    CharsetIsPrintableBmp(code);
    if Trim(code) == "" then Invalid(VanityRequired)
    else if Utf16Length(code) < 2 || Utf16Length(code) > 32 then Invalid(VanityLength)
    else if !MatchesVanityCharset(code) then Invalid(VanityCharset)
    else if HasSeparatorEdge(code) then Invalid(VanityEdge)
    else Valid
  }

  /** Codes in the vanity charset are plain ASCII: not blank, and their UTF-16 length is their length. */
  lemma CharsetIsPrintableBmp(code: string)
    ensures MatchesVanityCharset(code) ==> !IsBlank(code) && Utf16Length(code) == |code|
    ensures MatchesVanityCharset(code) ==>
      (HasSeparatorEdge(code) <==> !IsAsciiAlnum(code[0]) || !IsAsciiAlnum(code[|code| - 1]))
  {
    if MatchesVanityCharset(code) { CharsetFacts(code); }
  }

  lemma CharsetFacts(code: string)
    requires MatchesVanityCharset(code)
    ensures !IsBlank(code)
    ensures Utf16Length(code) == |code|
    ensures HasSeparatorEdge(code) <==> !IsAsciiAlnum(code[0]) || !IsAsciiAlnum(code[|code| - 1])
  {
    assert IsVanityChar(code[0]);
    CharsetIsBmp(code);
    EdgeCharacters(code);
  }

  lemma CharsetIsBmp(code: string)
    requires MatchesVanityCharset(code)
    ensures Utf16Length(code) == |code|
  {
    forall i | 0 <= i < |code| ensures code[i] as int <= 0xFFFF { assert IsVanityChar(code[i]); }
    Utf16LengthOfBmp(code);
  }

  lemma EdgeCharacters(code: string)
    requires MatchesVanityCharset(code)
    ensures HasSeparatorEdge(code) <==> !IsAsciiAlnum(code[0]) || !IsAsciiAlnum(code[|code| - 1])
  {
    var first, last := code[0], code[|code| - 1];
    assert IsVanityChar(first) && IsVanityChar(last);
    assert code[..1] == [first];
    assert code[|code| - 1..] == [last];
    assert StartsWith(code, "-") || StartsWith(code, "_") <==> first == '-' || first == '_';
    assert EndsWith(code, "-") || EndsWith(code, "_") <==> last == '-' || last == '_';
  }

  /** The one-character code "_" fails the length rule before the edge rule is reached. */
  lemma LengthIsCheckedBeforeEdges()
    ensures ValidateVanityUrl("_") == Invalid(VanityLength)
  {
    assert !IsBlank("_") by { assert !IsWhitespace("_"[0]); }
  }

  /** An emoji is two UTF-16 code units, so it passes the length rule and fails the charset rule. */
  lemma AstralCharacterCountsTwice()
    ensures ValidateVanityUrl("\U{1F600}") == Invalid(VanityCharset)
  {
    var e := "\U{1F600}";
    assert !IsBlank(e) by { assert !IsWhitespace(e[0]); }
    assert Utf16Length(e) == 2;
    assert !IsVanityChar(e[0]);
  }
}
