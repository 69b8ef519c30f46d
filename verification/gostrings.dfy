/**
 * Go strings are immutable byte sequences. They are modelled as sequences of
 * characters whose code is below 256, so that each character stands for one
 * byte and string literals can still be written as literals.
 */
module GoStrings {

  /** One byte of a Go string. */
  type Octet = c: char | c as int < 256

  /** A Go `string` (equivalently a `[]byte`). */
  type GoString = seq<Octet>

  /** The byte with value `b`. */
  function OctetOf(b: nat): (c: Octet)
    requires b < 256
    ensures c as int == b
  {
    b as char
  }

  /** `strings.HasPrefix(s, prefix)`. */
  predicate HasPrefix(s: GoString, prefix: GoString) {
    |prefix| <= |s| && s[..|prefix|] == prefix
  }

  /** `sub` occurs in `s` starting at index `i`. */
  predicate OccursAt(s: GoString, sub: GoString, i: int) {
    0 <= i <= |s| - |sub| && s[i..i + |sub|] == sub
  }

  /** `strings.Contains(s, sub)`: `sub` occurs somewhere in `s` (the empty string occurs everywhere). */
  predicate Contains(s: GoString, sub: GoString) {
    exists i | 0 <= i <= |s| - |sub| :: OccursAt(s, sub, i)
  }

  /** Every string contains itself. */
  lemma ContainsItself(s: GoString)
    ensures Contains(s, s)
  {
    assert OccursAt(s, s, 0);
  }

  /** A string contains each of its suffixes. */
  lemma ContainsSuffix(s: GoString, suffix: GoString)
    ensures Contains(s + suffix, suffix)
  {
    var t := s + suffix;
    assert OccursAt(t, suffix, |s|);
  }

  /** A string shorter than `sub` cannot contain it. */
  lemma ShorterDoesNotContain(s: GoString, sub: GoString)
    requires |s| < |sub|
    ensures !Contains(s, sub)
  {
  }
}
