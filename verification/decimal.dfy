/**
 * The decimal conversions of Go's `strconv` that the listing handler uses:
 * `ParseInt(s, 10, 32)`, `ParseUint(s, 10, 32)` and `FormatUint(n, 10)`.
 * With an explicit base of 10 neither parser accepts a base prefix or
 * underscores; leading zeros are accepted.
 */
module Decimal {
  import opened Wrappers
  import opened GoStrings

  const MaxInt32: int := 0x7FFF_FFFF
  const MinInt32: int := -0x8000_0000
  const MaxUint32: int := 0xFFFF_FFFF

  predicate IsDigit(c: Octet) {
    '0' <= c <= '9'
  }

  predicate AllDigits(s: GoString) {
    forall i | 0 <= i < |s| :: IsDigit(s[i])
  }

  /** The number a string of decimal digits denotes, most significant digit first. */
  function DigitsValue(s: GoString): nat
    requires AllDigits(s)
  {
    if |s| == 0 then 0
    else DigitsValue(s[..|s| - 1]) * 10 + (s[|s| - 1] as int - '0' as int)
  }

  /** `strconv.ParseUint(s, 10, 32)`: `None` for a syntax error (no sign is allowed) or a value above 2^32 - 1. */
  function ParseUint32(s: GoString): (r: Option<nat>)
    ensures r.Some? ==> r.value <= MaxUint32
  {
    if |s| > 0 && AllDigits(s) && DigitsValue(s) <= MaxUint32 then Some(DigitsValue(s)) else None
  }

  /**
   * `strconv.ParseInt(s, 10, 32)`: an optional `+` or `-` and then at least
   * one digit; `None` for a syntax error or a value outside the int32 range.
   */
  function ParseInt32(s: GoString): (r: Option<int>)
    ensures r.Some? ==> MinInt32 <= r.value <= MaxInt32
  {
    var neg := |s| > 0 && s[0] == '-';
    var digits := if |s| > 0 && (s[0] == '+' || s[0] == '-') then s[1..] else s;
    if |digits| == 0 || !AllDigits(digits) then None
    else if !neg && DigitsValue(digits) > MaxInt32 then None
    else if neg && DigitsValue(digits) > -MinInt32 then None
    else Some(if neg then 0 - DigitsValue(digits) else DigitsValue(digits) as int)
  }

  function DigitChar(d: nat): (c: Octet)
    requires d < 10
    ensures IsDigit(c) && c as int - '0' as int == d
  {
    OctetOf('0' as int + d)
  }

  /** `strconv.FormatUint(n, 10)`: the shortest decimal text of `n`. */
  function FormatUint(n: nat): (r: GoString)
    ensures |r| > 0 && AllDigits(r)
    ensures r[0] == '0' ==> r == "0"
  {
    if n < 10 then [DigitChar(n)] else FormatUint(n / 10) + [DigitChar(n % 10)]
  }

  /** The text `FormatUint` writes denotes the number it was given. */
  lemma {:induction false} FormatUintValue(n: nat)
    ensures DigitsValue(FormatUint(n)) == n
  {
    var r := FormatUint(n);
    if n >= 10 {
      FormatUintValue(n / 10);
      assert r[..|r| - 1] == FormatUint(n / 10);
    }
  }

  /** Reading back the text of a cursor succeeds exactly when it fits in 32 bits, and gives the cursor. */
  lemma ParseUint32FormatUint(n: nat)
    ensures ParseUint32(FormatUint(n)) == if n <= MaxUint32 then Some(n) else None
  {
    FormatUintValue(n);
  }

  /** Reading back the text of a count: non-negative counts up to 2^31 - 1 come back unchanged. */
  lemma ParseInt32FormatUint(n: nat)
    ensures ParseInt32(FormatUint(n)) == if n <= MaxInt32 then Some(n) else None
  {
    FormatUintValue(n);
  }

  /** A minus sign in front of a count's text negates it, down to -2^31. */
  lemma ParseInt32Negative(n: nat)
    ensures ParseInt32("-" + FormatUint(n)) == if n <= -MinInt32 then Some(0 - n) else None
  {
    FormatUintValue(n);
    assert ("-" + FormatUint(n))[1..] == FormatUint(n);
  }

  /** `ParseUint` takes no sign at all, so `-7` (and even `+7`) is a syntax error. */
  lemma ParseUint32RejectsSign(s: GoString)
    requires |s| > 0 && (s[0] == '-' || s[0] == '+')
    ensures ParseUint32(s) == None
  {
    assert !IsDigit(s[0]);
  }
}
