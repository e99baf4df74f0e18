/**
 * Hexadecimal text as produced and accepted by Go's encoding/hex
 * (the base 16 alphabet of section 8 of RFC 4648, written in lower case).
 */
module Hex {
  import opened Wrappers
  import opened Bytes

  /** The errors of hex.DecodeString: InvalidByteError and ErrLength. */
  datatype HexError = InvalidByte(c: char) | OddLength

  /** The value of one hex digit; both cases are accepted, as in Go's reverse table. */
  function DigitValue(c: char): (r: Option<int>)
    ensures r.Some? <==> ('0' <= c <= '9' || 'a' <= c <= 'f' || 'A' <= c <= 'F')
    ensures r.Some? ==> 0 <= r.value < 16
    ensures r.Some? && r.value < 10 ==> c as int == '0' as int + r.value
    ensures r.Some? && r.value >= 10 ==> c as int == 'a' as int + r.value - 10 || c as int == 'A' as int + r.value - 10
  {
    if '0' <= c <= '9' then Some(c as int - '0' as int)
    else if 'a' <= c <= 'f' then Some(c as int - 'a' as int + 10)
    else if 'A' <= c <= 'F' then Some(c as int - 'A' as int + 10)
    else None
  }

  predicate IsLowerDigit(c: char) {
    '0' <= c <= '9' || 'a' <= c <= 'f'
  }

  /** The lower-case digit of a value below 16. */
  function Digit(v: int): (c: char)
    requires 0 <= v < 16
    ensures IsLowerDigit(c)
    ensures DigitValue(c) == Some(v)
  {
    if v < 10 then ('0' as int + v) as char else ('a' as int + v - 10) as char
  }

  predicate AllDigits(s: string) {
    forall i :: 0 <= i < |s| ==> DigitValue(s[i]).Some?
  }

  /** `i` is the position of the first char of `s` that is not a hex digit. */
  predicate FirstNonDigitAt(s: string, i: int) {
    0 <= i < |s| && DigitValue(s[i]).None? &&
    forall j :: 0 <= j < i ==> DigitValue(s[j]).Some?
  }

  /** hex.EncodeToString: two lower-case digits per byte, high nibble first. */
  function EncodeToString(b: seq<byte>): (s: string)
    ensures |s| == 2 * |b|
    ensures forall i :: 0 <= i < |s| ==> IsLowerDigit(s[i])
  {
    if b == [] then []
    else [Digit(b[0] / 16), Digit(b[0] % 16)] + EncodeToString(b[1..])
  }

  /**
   * hex.DecodeString. Pairs are read left to right and the first char that is
   * not a digit is reported; only when every char is a digit does an odd
   * length give ErrLength.
   */
  function DecodeString(s: string): (r: Result<seq<byte>, HexError>)
    ensures r.Ok? <==> AllDigits(s) && |s| % 2 == 0
    ensures r.Ok? ==> 2 * |r.value| == |s|
  {
    if s == [] then Ok([])
    else if DigitValue(s[0]).None? then Err(InvalidByte(s[0]))
    else if |s| == 1 then Err(OddLength)
    else if DigitValue(s[1]).None? then Err(InvalidByte(s[1]))
    else
      var rest := DecodeString(s[2..]);
      if rest.Err? then rest
      else
        assert forall i :: 2 <= i < |s| ==> s[i] == s[2..][i - 2];
        Ok([DigitValue(s[0]).value * 16 + DigitValue(s[1]).value] + rest.value)
  }

  /** Decoding what was encoded gives the bytes back. */
  lemma {:induction false} RoundTrip(b: seq<byte>)
    ensures DecodeString(EncodeToString(b)) == Ok(b)
  {
    if b != [] {
      var s := EncodeToString(b);
      assert s[2..] == EncodeToString(b[1..]);
      RoundTrip(b[1..]);
      assert b == [b[0] / 16 * 16 + b[0] % 16] + b[1..];
    }
  }

  /** A lower-case hex string that decodes is exactly the encoding of what it decodes to. */
  lemma {:induction false} CanonicalEncoding(s: string)
    requires DecodeString(s).Ok?
    requires forall i :: 0 <= i < |s| ==> IsLowerDigit(s[i])
    ensures EncodeToString(DecodeString(s).value) == s
  {
    if s != [] {
      var b := DecodeString(s).value;
      CanonicalEncoding(s[2..]);
      var v := DigitValue(s[0]).value * 16 + DigitValue(s[1]).value;
      assert b[0] == v && b[1..] == DecodeString(s[2..]).value;
      LowerDigitUnique(s[0], v / 16);
      LowerDigitUnique(s[1], v % 16);
      assert s == [s[0], s[1]] + s[2..];
    }
  }

  lemma LowerDigitUnique(c: char, v: int)
    requires IsLowerDigit(c) && 0 <= v < 16 && DigitValue(c) == Some(v)
    ensures Digit(v) == c
  {
  }

  /** The error names the first char that is not a hex digit, whatever the length. */
  lemma {:induction false} FirstInvalidReported(s: string, i: int)
    requires FirstNonDigitAt(s, i)
    ensures DecodeString(s) == Err(InvalidByte(s[i]))
  {
    if i >= 2 {
      assert FirstNonDigitAt(s[2..], i - 2);
      FirstInvalidReported(s[2..], i - 2);
    }
  }

  /** Only a string of digits of odd length is reported as ErrLength. */
  lemma {:induction false} OddLengthReported(s: string)
    ensures DecodeString(s) == Err(OddLength) <==> AllDigits(s) && |s| % 2 == 1
  {
    if |s| >= 2 && DigitValue(s[0]).Some? && DigitValue(s[1]).Some? {
      OddLengthReported(s[2..]);
      assert AllDigits(s) <==> AllDigits(s[2..]) by {
        if AllDigits(s[2..]) {
          forall i | 0 <= i < |s| ensures DigitValue(s[i]).Some? {
            if i >= 2 { assert s[i] == s[2..][i - 2]; }
          }
        }
      }
    } else if |s| >= 1 && DigitValue(s[0]).None? {
      assert !AllDigits(s);
    } else if |s| >= 2 {
      assert !AllDigits(s);
    }
  }
}
