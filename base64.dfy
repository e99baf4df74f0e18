/**
 * Standard padded base64 as produced and accepted by Go's
 * base64.StdEncoding (the alphabet and padding of section 4 of RFC 4648).
 * The decoder is Go's non-strict one: it skips '\r' and '\n' wherever they
 * occur and does not check that the unused low bits of a padded quantum are zero.
 */
module Base64 {
  import opened Wrappers
  import opened Bytes

  /** base64.CorruptInputError; the offset it carries is not modelled. */
  datatype Base64Error = CorruptInput

  /** The value of one char of the alphabet A-Z a-z 0-9 + /. */
  function SextetValue(c: char): (r: Option<int>)
    ensures r.Some? ==> 0 <= r.value < 64
    ensures r.Some? ==> c != '=' && c != '\n' && c != '\r'
  {
    if 'A' <= c <= 'Z' then Some(c as int - 'A' as int)
    else if 'a' <= c <= 'z' then Some(c as int - 'a' as int + 26)
    else if '0' <= c <= '9' then Some(c as int - '0' as int + 52)
    else if c == '+' then Some(62)
    else if c == '/' then Some(63)
    else None
  }

  /** The alphabet char of a six-bit value. */
  function Sextet(v: int): (c: char)
    requires 0 <= v < 64
    ensures c != '=' && c != '\n' && c != '\r'
  {
    if v < 26 then ('A' as int + v) as char
    else if v < 52 then ('a' as int + v - 26) as char
    else if v < 62 then ('0' as int + v - 52) as char
    else if v == 62 then '+'
    else '/'
  }

  predicate NoNewlines(s: string) {
    forall i :: 0 <= i < |s| ==> s[i] != '\n' && s[i] != '\r'
  }

  /** StdEncoding.EncodeToString: four chars per three bytes, '=' padding at the end. */
  function EncodeToString(b: seq<byte>): (s: string)
  {
    if |b| == 0 then []
    else if |b| == 1 then EncodeOne(b[0])
    else if |b| == 2 then EncodeTwo(b[0], b[1])
    else EncodeQuantum(b[0], b[1], b[2]) + EncodeToString(b[3..])
  }

  /** One final byte: two chars and "==". */
  function EncodeOne(x: byte): (q: string)
    ensures |q| == 4 && q[3] == '=' && NoNewlines(q)
  {
    [Sextet(x / 4), Sextet(x % 4 * 16), '=', '=']
  }

  /** Two final bytes: three chars and "=". */
  function EncodeTwo(x: byte, y: byte): (q: string)
    ensures |q| == 4 && q[3] == '=' && NoNewlines(q)
  {
    [Sextet(x / 4), Sextet(x % 4 * 16 + y / 16), Sextet(y % 16 * 4), '=']
  }

  lemma SextetInverse(v: int)
    requires 0 <= v < 64
    ensures SextetValue(Sextet(v)) == Some(v)
  {
  }

  /** Three bytes as four chars, six bits each, high bits first. */
  function EncodeQuantum(x: byte, y: byte, z: byte): (q: string)
    ensures |q| == 4 && q[3] != '=' && NoNewlines(q)
  {
    [Sextet(x / 4), Sextet(x % 4 * 16 + y / 16), Sextet(y % 16 * 4 + z / 64), Sextet(z % 64)]
  }

  /** The input with every '\r' and '\n' removed, as the decoder sees it. */
  function StripNewlines(s: string): (t: string)
    ensures NoNewlines(t)
    ensures |t| <= |s|
    ensures NoNewlines(s) ==> t == s
  {
    if s == [] then []
    else if s[0] == '\n' || s[0] == '\r' then StripNewlines(s[1..])
    else [s[0]] + StripNewlines(s[1..])
  }

  /**
   * Decodes quanta of four chars. Only the last quantum may be padded, as
   * "xx==" (one byte) or "xxx=" (two bytes); anything else is corrupt.
   */
  function DecodeQuanta(t: string): (r: Result<seq<byte>, Base64Error>)
    ensures r.Ok? ==> |t| % 4 == 0
  {
    if |t| == 0 then Ok([])
    else if |t| < 4 then Err(CorruptInput)
    else if |t| == 4 && t[3] == '=' then DecodePadded(t)
    else
      var q := DecodeFull(t[..4]);
      var rest := DecodeQuanta(t[4..]);
      if q.None? || rest.Err? then Err(CorruptInput)
      else Ok(q.value + rest.value)
  }

  /** Four alphabet chars carry three bytes. */
  function DecodeFull(q: string): (r: Option<seq<byte>>)
    requires |q| == 4
    ensures r.Some? ==> |r.value| == 3
  {
    var a, b, c, d := SextetValue(q[0]), SextetValue(q[1]), SextetValue(q[2]), SextetValue(q[3]);
    if a.None? || b.None? || c.None? || d.None? then None
    else Some([a.value * 4 + b.value / 16, b.value % 16 * 16 + c.value / 4, c.value % 4 * 64 + d.value])
  }

  /** A final quantum ending in '=': "xx==" carries one byte, "xxx=" two. */
  function DecodePadded(q: string): (r: Result<seq<byte>, Base64Error>)
    requires |q| == 4 && q[3] == '='
    ensures r.Ok? ==> 1 <= |r.value| <= 2
  {
    var a, b, c := SextetValue(q[0]), SextetValue(q[1]), SextetValue(q[2]);
    if a.None? || b.None? then Err(CorruptInput)
    else if q[2] == '=' then Ok([a.value * 4 + b.value / 16])
    else if c.None? then Err(CorruptInput)
    else Ok([a.value * 4 + b.value / 16, b.value % 16 * 16 + c.value / 4])
  }

  /** Every started group of three bytes takes four chars. */
  lemma {:induction false} EncodedLength(b: seq<byte>)
    ensures |EncodeToString(b)| == (|b| + 2) / 3 * 4
  {
    if |b| >= 3 {
      EncodedLength(b[3..]);
      var n := |b[3..]|;
      assert |b| + 2 == (n + 2) + 3;
      assert (|b| + 2) / 3 == (n + 2) / 3 + 1;
      assert |EncodeToString(b)| == 4 + |EncodeToString(b[3..])|;
    }
  }

  /**
   * The text the decoder accepts once line breaks are removed: whole quanta
   * of alphabet chars, where '=' may stand only as the last char, or as the
   * last two.
   */
  predicate WellFormed(t: string) {
    |t| % 4 == 0 &&
    forall i :: 0 <= i < |t| ==> SextetValue(t[i]).Some? || PadAt(t, i)
  }

  /** Position i of t holds padding the decoder accepts there. */
  predicate PadAt(t: string, i: int)
    requires 0 <= i < |t|
  {
    t[i] == '=' && (i == |t| - 1 || (i == |t| - 2 && t[|t| - 1] == '='))
  }

  /** The quanta decoder succeeds exactly on well-formed text. */
  lemma {:induction false} QuantaAcceptsIff(t: string)
    ensures DecodeQuanta(t).Ok? <==> WellFormed(t)
  {
    if |t| == 0 {
    } else if |t| < 4 {
    } else if |t| == 4 && t[3] == '=' {
      assert !PadAt(t, 0) && !PadAt(t, 1);
      if DecodePadded(t).Ok? {
        assert PadAt(t, 3);
        assert t[2] == '=' ==> PadAt(t, 2);
      }
    } else {
      QuantaAcceptsIff(t[4..]);
      WellFormedCons(t);
      assert DecodeFull(t[..4]).Some? <==> FullQuantum(t);
    }
  }

  /** The first four chars of t are alphabet chars. */
  predicate FullQuantum(t: string)
    requires |t| >= 4
  {
    SextetValue(t[0]).Some? && SextetValue(t[1]).Some? && SextetValue(t[2]).Some? && SextetValue(t[3]).Some?
  }

  /** Text that is not a single padded quantum is well formed exactly when it starts with a full quantum and the rest is. */
  lemma WellFormedCons(t: string)
    requires |t| >= 4 && !(|t| == 4 && t[3] == '=')
    ensures WellFormed(t) <==> FullQuantum(t) && WellFormed(t[4..])
  {
    var u := t[4..];
    if WellFormed(t) {
      forall i | 0 <= i < 4
        ensures SextetValue(t[i]).Some?
      {
        assert !PadAt(t, i);
      }
      forall i | 0 <= i < |u|
        ensures SextetValue(u[i]).Some? || PadAt(u, i)
      {
        assert u[i] == t[i + 4];
        assert SextetValue(t[i + 4]).Some? || PadAt(t, i + 4);
      }
    }
    if FullQuantum(t) && WellFormed(u) {
      forall i | 0 <= i < |t|
        ensures SextetValue(t[i]).Some? || PadAt(t, i)
      {
        if i >= 4 {
          assert t[i] == u[i - 4];
          assert SextetValue(u[i - 4]).Some? || PadAt(u, i - 4);
        }
      }
    }
  }

  /** StdEncoding.DecodeString: it succeeds exactly when the text without line breaks is well formed. */
  function DecodeString(s: string): (r: Result<seq<byte>, Base64Error>)
    ensures r.Ok? <==> WellFormed(StripNewlines(s))
    ensures r.Ok? ==> |StripNewlines(s)| % 4 == 0
  {
    QuantaAcceptsIff(StripNewlines(s));
    DecodeQuanta(StripNewlines(s))
  }

  lemma QuantumRoundTrip(x: byte, y: byte, z: byte)
    ensures var a, b, c, d := x / 4, x % 4 * 16 + y / 16, y % 16 * 4 + z / 64, z % 64;
            a * 4 + b / 16 == x && b % 16 * 16 + c / 4 == y && c % 4 * 64 + d == z
  {
  }

  /** Decoding what was encoded gives the bytes back. */
  lemma RoundTrip(b: seq<byte>)
    ensures DecodeString(EncodeToString(b)) == Ok(b)
  {
    EncodingHasNoNewlines(b);
    QuantaRoundTrip(b);
  }

  lemma {:induction false} EncodingHasNoNewlines(b: seq<byte>)
    ensures NoNewlines(EncodeToString(b))
  {
    if |b| >= 3 {
      EncodingHasNoNewlines(b[3..]);
      var q, rest := EncodeQuantum(b[0], b[1], b[2]), EncodeToString(b[3..]);
      assert forall i :: 4 <= i < |q + rest| ==> (q + rest)[i] == rest[i - 4];
    }
  }

  lemma {:induction false} QuantaRoundTrip(b: seq<byte>)
    ensures DecodeQuanta(EncodeToString(b)) == Ok(b)
  {
    if |b| == 1 {
      OneByteRoundTrip(b[0]);
      assert b == [b[0]];
    } else if |b| == 2 {
      TwoBytesRoundTrip(b[0], b[1]);
      assert b == [b[0], b[1]];
    } else if |b| >= 3 {
      QuantaRoundTrip(b[3..]);
      LongRoundTrip(b);
    }
  }

  lemma OneByteRoundTrip(x: byte)
    ensures DecodeQuanta(EncodeToString([x])) == Ok([x])
  {
    var q := EncodeOne(x);
    assert DecodePadded(q) == Ok([x]) by {
      QuantumRoundTrip(x, 0, 0);
      SextetInverse(x / 4);
      SextetInverse(x % 4 * 16);
    }
    LastQuantum(q);
  }

  lemma TwoBytesRoundTrip(x: byte, y: byte)
    ensures DecodeQuanta(EncodeToString([x, y])) == Ok([x, y])
  {
    var q := EncodeTwo(x, y);
    assert DecodePadded(q) == Ok([x, y]) by {
      QuantumRoundTrip(x, y, 0);
      SextetInverse(x / 4);
      SextetInverse(x % 4 * 16 + y / 16);
      SextetInverse(y % 16 * 4);
    }
    LastQuantum(q);
  }

  lemma LastQuantum(q: string)
    requires |q| == 4 && q[3] == '='
    ensures DecodeQuanta(q) == DecodePadded(q)
  {
  }

  lemma FullRoundTrip(x: byte, y: byte, z: byte)
    ensures DecodeFull(EncodeQuantum(x, y, z)) == Some([x, y, z])
  {
    QuantumRoundTrip(x, y, z);
    SextetInverse(x / 4);
    SextetInverse(x % 4 * 16 + y / 16);
    SextetInverse(y % 16 * 4 + z / 64);
    SextetInverse(z % 64);
  }

  lemma LongRoundTrip(b: seq<byte>)
    requires |b| >= 3 && DecodeQuanta(EncodeToString(b[3..])) == Ok(b[3..])
    ensures DecodeQuanta(EncodeToString(b)) == Ok(b)
  {
    FullRoundTrip(b[0], b[1], b[2]);
    ConsQuantum(EncodeQuantum(b[0], b[1], b[2]), EncodeToString(b[3..]), [b[0], b[1], b[2]], b[3..]);
    SplitThree(b);
  }

  lemma SplitThree<T>(b: seq<T>)
    requires |b| >= 3
    ensures b == [b[0], b[1], b[2]] + b[3..]
  {
  }

  lemma ConsQuantum(q: string, rest: string, x: seq<byte>, tail: seq<byte>)
    requires |q| == 4 && q[3] != '=' && DecodeFull(q) == Some(x)
    requires DecodeQuanta(rest) == Ok(tail)
    ensures DecodeQuanta(q + rest) == Ok(x + tail)
  {
    var t := q + rest;
    assert t[..4] == q && t[4..] == rest;
  }

  /** A newline after the text, as `echo` leaves on standard input, does not change the result. */
  lemma {:induction false} TrailingNewlineIgnored(s: string)
    ensures DecodeString(s + "\n") == DecodeString(s)
  {
    StripTrailingNewline(s);
  }

  lemma {:induction false} StripTrailingNewline(s: string)
    ensures StripNewlines(s + "\n") == StripNewlines(s)
  {
    if s == [] {
      assert StripNewlines("\n") == StripNewlines("\n"[1..]);
    } else {
      assert (s + "\n")[1..] == s[1..] + "\n";
      StripTrailingNewline(s[1..]);
    }
  }
}
