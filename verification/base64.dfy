/**
 * Padded base64 as Go's `encoding/base64` implements it for `StdEncoding`
 * (section 4 of RFC 4648) and `URLEncoding` (section 5 of RFC 4648).
 *
 * Decoding follows Go's decoder rather than the bare RFC: carriage returns and
 * line feeds anywhere in the input are ignored, and the unused low bits of the
 * last digit before padding are not required to be zero (neither encoding is
 * `Strict`).
 */
module Base64 {
  import opened Wrappers
  import opened GoStrings

  /** The two alphabets: they differ only in the digits for 62 and 63. */
  datatype Alphabet = Std | Url

  const Pad: Octet := '='

  /** The character that encodes the six-bit value `v`. */
  function Digit(a: Alphabet, v: nat): (c: Octet)
    requires v < 64
    ensures Value(a, c) == Some(v)
  {
    if v < 26 then OctetOf('A' as int + v)
    else if v < 52 then OctetOf('a' as int + (v - 26))
    else if v < 62 then OctetOf('0' as int + (v - 52))
    else if v == 62 then (if a == Std then '+' else '-')
    else (if a == Std then '/' else '_')
  }

  /** The decoding table: the six-bit value of `c`, if `c` is a digit of the alphabet. */
  function Value(a: Alphabet, c: Octet): (r: Option<nat>)
    ensures r.Some? ==> r.value < 64
    ensures c == Pad || c == '\r' || c == '\n' ==> r.None?
  {
    if 'A' <= c <= 'Z' then Some(c as int - 'A' as int)
    else if 'a' <= c <= 'z' then Some(c as int - 'a' as int + 26)
    else if '0' <= c <= '9' then Some(c as int - '0' as int + 52)
    else if c == (if a == Std then '+' else '-') then Some(62)
    else if c == (if a == Std then '/' else '_') then Some(63)
    else None
  }

  /** A character the encoder can emit: a digit of the alphabet or the pad. */
  predicate IsEncodingChar(a: Alphabet, c: Octet) {
    c == Pad || Value(a, c).Some?
  }

  /**
   * The four characters for three bytes `b0 b1 b2`: the 24 bits they make,
   * most significant first, cut into four 6-bit digits.
   */
  function Quantum(a: Alphabet, b0: Octet, b1: Octet, b2: Octet): (q: GoString)
    ensures |q| == 4
  {
    var x, y, z := b0 as int, b1 as int, b2 as int;
    [Digit(a, x / 4), Digit(a, x % 4 * 16 + y / 16), Digit(a, y % 16 * 4 + z / 64), Digit(a, z % 64)]
  }

  /** `Encoding.EncodeToString`: three bytes per quantum, a final one or two bytes padded with `=`. */
  function Encode(a: Alphabet, s: GoString): (r: GoString)
    ensures |r| == (|s| + 2) / 3 * 4
    decreases |s|
  {
    if |s| == 0 then []
    else if |s| == 1 then Quantum(a, s[0], '\0', '\0')[..2] + [Pad, Pad]
    else if |s| == 2 then Quantum(a, s[0], s[1], '\0')[..3] + [Pad]
    else
      EncodedLengthStep(|s|);
      Quantum(a, s[0], s[1], s[2]) + Encode(a, s[3..])
  }

  /** The encoding of three or more bytes starts with the quantum of the first three. */
  lemma EncodeUnfold(a: Alphabet, s: GoString)
    requires |s| > 2
    ensures Encode(a, s) == Quantum(a, s[0], s[1], s[2]) + Encode(a, s[3..])
  {
  }

  /** Three more input bytes make one more quantum of output. */
  lemma EncodedLengthStep(n: nat)
    requires n > 2
    ensures (n + 2) / 3 * 4 == (n - 1) / 3 * 4 + 4
  {
  }

  /** The bytes of one decoded quantum of digit values `v0 v1 v2 v3`; the first `k` of them are kept. */
  function Bytes(v0: nat, v1: nat, v2: nat, v3: nat, k: nat): (r: GoString)
    requires v0 < 64 && v1 < 64 && v2 < 64 && v3 < 64 && 1 <= k <= 3
    ensures |r| == k
  {
    [OctetOf(v0 * 4 + v1 / 16), OctetOf(v1 % 16 * 16 + v2 / 4), OctetOf(v2 % 4 * 64 + v3)][..k]
  }

  /** `s` with every carriage return and line feed removed: Go's decoder skips them. */
  function StripNewlines(s: GoString): (r: GoString)
    ensures |r| <= |s|
    ensures forall i | 0 <= i < |r| :: r[i] != '\r' && r[i] != '\n'
  {
    if |s| == 0 then []
    else if s[0] == '\r' || s[0] == '\n' then StripNewlines(s[1..])
    else [s[0]] + StripNewlines(s[1..])
  }

  /**
   * Decoding of input that holds no newline: whole quanta of four characters,
   * of which only the last may end in `xx==` or `xxx=`; anything else is a
   * `CorruptInputError` (here `None`).
   */
  function DecodeQuanta(a: Alphabet, s: GoString): (r: Option<GoString>)
    decreases |s|
  {
    if |s| == 0 then Some([])
    else if |s| < 4 then None
    else
      match (Value(a, s[0]), Value(a, s[1]), Value(a, s[2]), Value(a, s[3]))
      case (Some(v0), Some(v1), Some(v2), Some(v3)) =>
        (match DecodeQuanta(a, s[4..])
         case Some(rest) => Some(Bytes(v0, v1, v2, v3, 3) + rest)
         case None => None)
      case (Some(v0), Some(v1), Some(v2), None) =>
        if s[3] == Pad && |s| == 4 then Some(Bytes(v0, v1, v2, 0, 2)) else None
      case (Some(v0), Some(v1), None, None) =>
        if s[2] == Pad && s[3] == Pad && |s| == 4 then Some(Bytes(v0, v1, 0, 0, 1)) else None
      case _ => None
  }

  /**
   * Decoded quanta come four characters at a time, and each gives three bytes
   * except that the padded last one gives one or two.
   */
  lemma {:induction false} DecodeQuantaLength(a: Alphabet, s: GoString)
    requires DecodeQuanta(a, s).Some?
    ensures |s| % 4 == 0
    ensures 4 * |DecodeQuanta(a, s).value| <= 3 * |s| <= 4 * |DecodeQuanta(a, s).value| + 8
    decreases |s|
  {
    if |s| >= 4 && Value(a, s[3]).Some? {
      DecodeQuantaLength(a, s[4..]);
    }
  }

  /**
   * `Encoding.DecodeString`: `None` stands for a non-nil error. Go's decoder
   * refuses input whose length without newlines is not a multiple of four, and
   * gives three bytes per quantum less what the padding drops.
   */
  function Decode(a: Alphabet, s: GoString): (r: Option<GoString>)
    ensures r.Some? ==> |StripNewlines(s)| % 4 == 0
    ensures r.Some? ==> 4 * |r.value| <= 3 * |StripNewlines(s)| <= 4 * |r.value| + 8
  {
    var t := StripNewlines(s);
    if DecodeQuanta(a, t).Some? then DecodeQuantaLength(a, t); DecodeQuanta(a, t) else None
  }

  // ---------------------------------------------------------------------------
  // Round trip

  /** Cutting three bytes into four 6-bit digits and joining the digits again gives the bytes back. */
  lemma JoinSplit(x: nat, y: nat, z: nat)
    requires x < 256 && y < 256 && z < 256
    ensures var v0, v1, v2, v3 := x / 4, x % 4 * 16 + y / 16, y % 16 * 4 + z / 64, z % 64;
            v0 * 4 + v1 / 16 == x && v1 % 16 * 16 + v2 / 4 == y && v2 % 4 * 64 + v3 == z
  {
    var v1, v2 := x % 4 * 16 + y / 16, y % 16 * 4 + z / 64;
    assert y / 16 < 16 && z / 64 < 4;
    assert v1 / 16 == x % 4 && v1 % 16 == y / 16;
    assert v2 / 4 == y % 16 && v2 % 4 == z / 64;
  }

  lemma DecodeQuantum(a: Alphabet, b0: Octet, b1: Octet, b2: Octet, rest: GoString)
    ensures DecodeQuanta(a, Quantum(a, b0, b1, b2) + rest)
         == match DecodeQuanta(a, rest) case Some(r) => Some([b0, b1, b2] + r) case None => None
  {
    var x, y, z := b0 as int, b1 as int, b2 as int;
    var q := Quantum(a, b0, b1, b2);
    var s := q + rest;
    assert s[..4] == q && s[4..] == rest;
    JoinSplit(x, y, z);
    assert Bytes(x / 4, x % 4 * 16 + y / 16, y % 16 * 4 + z / 64, z % 64, 3) == [b0, b1, b2];
  }

  /** The encoding of two bytes decodes back to them. */
  lemma DecodeLastTwo(a: Alphabet, s: GoString)
    requires |s| == 2
    ensures DecodeQuanta(a, Encode(a, s)) == Some(s)
  {
    var x, y := s[0] as int, s[1] as int;
    var v0, v1, v2 := x / 4, x % 4 * 16 + y / 16, y % 16 * 4;
    var e := Encode(a, s);
    assert e == [Digit(a, v0), Digit(a, v1), Digit(a, v2), Pad];
    assert Value(a, e[0]) == Some(v0) && Value(a, e[1]) == Some(v1) && Value(a, e[2]) == Some(v2) && Value(a, e[3]) == None;
    JoinSplit(x, y, 0);
    assert Bytes(v0, v1, v2, 0, 2) == s;
  }

  /** The encoding of one byte decodes back to it. */
  lemma DecodeLastOne(a: Alphabet, s: GoString)
    requires |s| == 1
    ensures DecodeQuanta(a, Encode(a, s)) == Some(s)
  {
    var x := s[0] as int;
    var v0, v1 := x / 4, x % 4 * 16;
    var e := Encode(a, s);
    assert e == [Digit(a, v0), Digit(a, v1), Pad, Pad];
    assert Value(a, e[0]) == Some(v0) && Value(a, e[1]) == Some(v1) && Value(a, e[2]) == None && Value(a, e[3]) == None;
    JoinSplit(x, 0, 0);
    assert Bytes(v0, v1, 0, 0, 1) == s;
  }

  /** A quantum of three bytes in front of an encoding that decodes keeps it decoding. */
  lemma DecodeQuantaEncodeStep(a: Alphabet, s: GoString)
    requires |s| > 2
    requires DecodeQuanta(a, Encode(a, s[3..])) == Some(s[3..])
    ensures DecodeQuanta(a, Encode(a, s)) == Some(s)
  {
    var rest := Encode(a, s[3..]);
    EncodeUnfold(a, s);
    DecodeQuantum(a, s[0], s[1], s[2], rest);
    assert [s[0], s[1], s[2]] + s[3..] == s;
  }

  lemma {:induction false} DecodeQuantaEncode(a: Alphabet, s: GoString)
    ensures DecodeQuanta(a, Encode(a, s)) == Some(s)
    decreases |s|
  {
    if |s| == 1 {
      DecodeLastOne(a, s);
    } else if |s| == 2 {
      DecodeLastTwo(a, s);
    } else if |s| > 2 {
      DecodeQuantaEncode(a, s[3..]);
      DecodeQuantaEncodeStep(a, s);
    }
  }

  /** Every character of a quantum is a digit of the alphabet. */
  lemma QuantumChars(a: Alphabet, b0: Octet, b1: Octet, b2: Octet)
    ensures forall i | 0 <= i < 4 :: IsEncodingChar(a, Quantum(a, b0, b1, b2)[i])
  {
    var x, y, z := b0 as int, b1 as int, b2 as int;
    var q := Quantum(a, b0, b1, b2);
    assert q == [Digit(a, x / 4), Digit(a, x % 4 * 16 + y / 16), Digit(a, y % 16 * 4 + z / 64), Digit(a, z % 64)];
  }

  /** Every character of an encoding is a digit of the alphabet or the pad. */
  lemma {:induction false} EncodeChars(a: Alphabet, s: GoString)
    ensures forall i | 0 <= i < |Encode(a, s)| :: IsEncodingChar(a, Encode(a, s)[i])
    decreases |s|
  {
    var r := Encode(a, s);
    if |s| == 1 {
      var q := Quantum(a, s[0], '\0', '\0');
      QuantumChars(a, s[0], '\0', '\0');
      assert r == q[..2] + [Pad, Pad];
      assert forall i | 0 <= i < 2 :: r[i] == q[i];
    } else if |s| == 2 {
      var q := Quantum(a, s[0], s[1], '\0');
      QuantumChars(a, s[0], s[1], '\0');
      assert r == q[..3] + [Pad];
      assert forall i | 0 <= i < 3 :: r[i] == q[i];
    } else if |s| > 2 {
      var q := Quantum(a, s[0], s[1], s[2]);
      var rest := Encode(a, s[3..]);
      EncodeUnfold(a, s);
      QuantumChars(a, s[0], s[1], s[2]);
      EncodeChars(a, s[3..]);
      forall i | 0 <= i < |r| ensures IsEncodingChar(a, r[i]) {
        if i >= 4 {
          assert r[i] == rest[i - 4];
        }
      }
    }
  }

  lemma {:induction false} StripNewlinesNone(s: GoString)
    requires forall i | 0 <= i < |s| :: s[i] != '\r' && s[i] != '\n'
    ensures StripNewlines(s) == s
  {
    if |s| > 0 {
      StripNewlinesNone(s[1..]);
      assert [s[0]] + s[1..] == s;
    }
  }

  /** decode(encode(x)) == x, for either alphabet. */
  lemma DecodeEncode(a: Alphabet, s: GoString)
    ensures Decode(a, Encode(a, s)) == Some(s)
  {
    EncodeChars(a, s);
    StripNewlinesNone(Encode(a, s));
    DecodeQuantaEncode(a, s);
  }

  // ---------------------------------------------------------------------------
  // What a successful decode says about its input, and how the alphabets relate

  /** A character Go's decoder may accept: a digit of the alphabet, the pad, or a skipped newline. */
  predicate IsDecodableChar(a: Alphabet, c: Octet) {
    IsEncodingChar(a, c) || c == '\r' || c == '\n'
  }

  lemma {:induction false} DecodeQuantaChars(a: Alphabet, s: GoString)
    requires DecodeQuanta(a, s).Some?
    ensures forall i | 0 <= i < |s| :: IsEncodingChar(a, s[i])
    decreases |s|
  {
    if |s| >= 4 {
      if Value(a, s[3]).Some? {
        DecodeQuantaChars(a, s[4..]);
        forall i | 4 <= i < |s| ensures IsEncodingChar(a, s[i]) {
          assert s[i] == s[4..][i - 4];
        }
      }
    }
  }

  lemma {:induction false} StripNewlinesChars(a: Alphabet, s: GoString)
    requires forall i | 0 <= i < |StripNewlines(s)| :: IsEncodingChar(a, StripNewlines(s)[i])
    ensures forall i | 0 <= i < |s| :: IsDecodableChar(a, s[i])
  {
    if |s| > 0 {
      var rest := StripNewlines(s[1..]);
      if s[0] == '\r' || s[0] == '\n' {
        assert StripNewlines(s) == rest;
        StripNewlinesChars(a, s[1..]);
      } else {
        assert StripNewlines(s) == [s[0]] + rest;
        assert forall i | 0 <= i < |rest| :: rest[i] == StripNewlines(s)[i + 1];
        assert IsEncodingChar(a, StripNewlines(s)[0]);
        StripNewlinesChars(a, s[1..]);
      }
      forall i | 1 <= i < |s| ensures IsDecodableChar(a, s[i]) {
        assert s[i] == s[1..][i - 1];
      }
    }
  }

  /** Input that decodes holds nothing but digits of that alphabet, pads and newlines. */
  lemma DecodeChars(a: Alphabet, s: GoString)
    requires Decode(a, s).Some?
    ensures forall i | 0 <= i < |s| :: IsDecodableChar(a, s[i])
  {
    DecodeQuantaChars(a, StripNewlines(s));
    StripNewlinesChars(a, s);
  }

  /** A character both alphabets accept has the same value in both. */
  lemma ValueAgrees(c: Octet)
    requires Value(Std, c).Some? && Value(Url, c).Some?
    ensures Value(Std, c) == Value(Url, c) && Value(Std, c).value < 62
  {
  }

  /** Where both alphabets decode the same input, they decode it to the same bytes. */
  lemma {:induction false} DecodeQuantaAgree(s: GoString)
    requires DecodeQuanta(Std, s).Some? && DecodeQuanta(Url, s).Some?
    ensures DecodeQuanta(Std, s) == DecodeQuanta(Url, s)
    decreases |s|
  {
    if |s| >= 4 {
      DecodeQuantaChars(Std, s);
      DecodeQuantaChars(Url, s);
      forall i | 0 <= i < 4 ensures Value(Std, s[i]) == Value(Url, s[i]) {
        if Value(Std, s[i]).Some? && Value(Url, s[i]).Some? {
          ValueAgrees(s[i]);
        }
      }
      if Value(Std, s[3]).Some? {
        DecodeQuantaAgree(s[4..]);
      }
    }
  }

  lemma DecodeAgree(s: GoString)
    requires Decode(Std, s).Some? && Decode(Url, s).Some?
    ensures Decode(Std, s) == Decode(Url, s)
  {
    DecodeQuantaAgree(StripNewlines(s));
  }

  /** True when `s` holds none of the two characters only the standard alphabet has. */
  predicate HasNoStdOnlyDigits(s: GoString) {
    forall i | 0 <= i < |s| :: s[i] != '+' && s[i] != '/'
  }

  /** A digit the standard alphabet does not write as `+` or `/` is written the same by both alphabets. */
  lemma DigitSame(v: nat)
    requires v < 64 && Digit(Std, v) != '+' && Digit(Std, v) != '/'
    ensures Digit(Url, v) == Digit(Std, v)
  {
    assert v < 62;
  }

  /** A concatenation free of `+` and `/` has both parts free of them. */
  lemma NoStdOnlyDigitsSplit(x: GoString, y: GoString)
    requires HasNoStdOnlyDigits(x + y)
    ensures HasNoStdOnlyDigits(x) && HasNoStdOnlyDigits(y)
  {
    forall i | 0 <= i < |x| ensures x[i] != '+' && x[i] != '/' {
      assert x[i] == (x + y)[i];
    }
    forall j | 0 <= j < |y| ensures y[j] != '+' && y[j] != '/' {
      assert y[j] == (x + y)[|x| + j];
    }
  }

  /** The first `k` digits of a quantum agree between the alphabets when the standard ones hold no `+` or `/`. */
  lemma QuantumSame(b0: Octet, b1: Octet, b2: Octet, k: nat)
    requires 1 <= k <= 4
    requires HasNoStdOnlyDigits(Quantum(Std, b0, b1, b2)[..k])
    ensures Quantum(Url, b0, b1, b2)[..k] == Quantum(Std, b0, b1, b2)[..k]
  {
    var x, y, z := b0 as int, b1 as int, b2 as int;
    var qs := Quantum(Std, b0, b1, b2);
    assert qs[..k][0] == qs[0];
    DigitSame(x / 4);
    if k > 1 {
      assert qs[..k][1] == qs[1];
      DigitSame(x % 4 * 16 + y / 16);
    }
    if k > 2 {
      assert qs[..k][2] == qs[2];
      DigitSame(y % 16 * 4 + z / 64);
    }
    if k > 3 {
      assert qs[..k][3] == qs[3];
      DigitSame(z % 64);
    }
  }

  lemma EncodeOneSame(s: GoString)
    requires |s| == 1 && HasNoStdOnlyDigits(Encode(Std, s))
    ensures Encode(Url, s) == Encode(Std, s)
  {
    var q := Quantum(Std, s[0], '\0', '\0');
    assert Encode(Std, s) == q[..2] + [Pad, Pad];
    NoStdOnlyDigitsSplit(q[..2], [Pad, Pad]);
    QuantumSame(s[0], '\0', '\0', 2);
    assert Encode(Url, s) == Quantum(Url, s[0], '\0', '\0')[..2] + [Pad, Pad];
  }

  lemma EncodeTwoSame(s: GoString)
    requires |s| == 2 && HasNoStdOnlyDigits(Encode(Std, s))
    ensures Encode(Url, s) == Encode(Std, s)
  {
    var q := Quantum(Std, s[0], s[1], '\0');
    assert Encode(Std, s) == q[..3] + [Pad];
    NoStdOnlyDigitsSplit(q[..3], [Pad]);
    QuantumSame(s[0], s[1], '\0', 3);
    assert Encode(Url, s) == Quantum(Url, s[0], s[1], '\0')[..3] + [Pad];
  }

  /** A whole quantum agrees between the alphabets when the standard one holds no `+` or `/`. */
  lemma QuantumWholeSame(b0: Octet, b1: Octet, b2: Octet)
    requires HasNoStdOnlyDigits(Quantum(Std, b0, b1, b2))
    ensures Quantum(Url, b0, b1, b2) == Quantum(Std, b0, b1, b2)
  {
    var x, y, z := b0 as int, b1 as int, b2 as int;
    var qs := Quantum(Std, b0, b1, b2);
    assert qs[0] == Digit(Std, x / 4) && qs[1] == Digit(Std, x % 4 * 16 + y / 16);
    assert qs[2] == Digit(Std, y % 16 * 4 + z / 64) && qs[3] == Digit(Std, z % 64);
    DigitSame(x / 4);
    DigitSame(x % 4 * 16 + y / 16);
    DigitSame(y % 16 * 4 + z / 64);
    DigitSame(z % 64);
  }

  /** An encoding free of `+` and `/` has its first quantum and the encoding of the rest free of them. */
  lemma EncodeSplitNoStdOnlyDigits(s: GoString)
    requires |s| > 2 && HasNoStdOnlyDigits(Encode(Std, s))
    ensures HasNoStdOnlyDigits(Quantum(Std, s[0], s[1], s[2]))
    ensures HasNoStdOnlyDigits(Encode(Std, s[3..]))
  {
    EncodeUnfold(Std, s);
    NoStdOnlyDigitsSplit(Quantum(Std, s[0], s[1], s[2]), Encode(Std, s[3..]));
  }

  /** The recursive case of `EncodeSameWithoutStdOnlyDigits`: equal first quanta and equal rests make equal encodings. */
  lemma EncodeSameStep(s: GoString)
    requires |s| > 2 && HasNoStdOnlyDigits(Quantum(Std, s[0], s[1], s[2]))
    requires Encode(Url, s[3..]) == Encode(Std, s[3..])
    ensures Encode(Url, s) == Encode(Std, s)
  {
    QuantumWholeSame(s[0], s[1], s[2]);
  }

  /** Where the standard encoding uses neither `+` nor `/`, the URL-safe encoding is the same text. */
  lemma {:induction false} EncodeSameWithoutStdOnlyDigits(s: GoString)
    requires HasNoStdOnlyDigits(Encode(Std, s))
    ensures Encode(Url, s) == Encode(Std, s)
    decreases |s|
  {
    if |s| == 1 {
      EncodeOneSame(s);
    } else if |s| == 2 {
      EncodeTwoSame(s);
    } else if |s| > 2 {
      EncodeSplitNoStdOnlyDigits(s);
      EncodeSameWithoutStdOnlyDigits(s[3..]);
      EncodeSameStep(s);
    }
  }

  /** A string the URL-safe decoder accepts holds no `+` or `/`. */
  lemma UrlDecodableHasNoStdOnlyDigits(s: GoString)
    requires Decode(Url, s).Some?
    ensures HasNoStdOnlyDigits(s)
  {
    DecodeChars(Url, s);
    forall i | 0 <= i < |s| ensures s[i] != '+' && s[i] != '/' {
      assert IsDecodableChar(Url, s[i]);
    }
  }
}
