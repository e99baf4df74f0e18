/**
 * Query-component unescaping as done by Go's url.QueryUnescape: percent-decoding
 * of "%XX" (section 2.1 of RFC 3986) plus form encoding's '+' for a space.
 * QueryEscape is the matching encoder; it is the partner the round trip is proved against.
 */
module UrlEscape {
  import opened Wrappers
  import opened Bytes
  import Hex

  /** url.EscapeError: the offending "%" and at most the two chars after it. */
  datatype EscapeError = EscapeError(text: string)

  /** The '%' at `i` is followed by two hex digits. */
  predicate GoodEscapeAt(s: string, i: int)
    requires 0 <= i
  {
    i + 2 < |s| && Hex.DigitValue(s[i + 1]).Some? && Hex.DigitValue(s[i + 2]).Some?
  }

  /** Every '%' is followed by two hex digits. */
  predicate WellEscaped(s: string) {
    forall i :: 0 <= i < |s| && s[i] == '%' ==> GoodEscapeAt(s, i)
  }

  /** `i` is the first '%' of `s` that is not followed by two hex digits. */
  predicate FirstBadEscapeAt(s: string, i: int) {
    0 <= i < |s| && s[i] == '%' && !GoodEscapeAt(s, i) &&
    forall j :: 0 <= j < i && s[j] == '%' ==> GoodEscapeAt(s, j)
  }

  /** url.QueryUnescape. */
  function QueryUnescape(s: string): (r: Result<string, EscapeError>)
    ensures r.Ok? ==> |r.value| <= |s|
    ensures r.Err? ==> 1 <= |r.error.text| <= 3 && r.error.text[0] == '%'
  {
    if s == [] then Ok([])
    else if s[0] == '%' then
      if |s| < 3 || Hex.DigitValue(s[1]).None? || Hex.DigitValue(s[2]).None? then
        Err(EscapeError(s[..if |s| < 3 then |s| else 3]))
      else
        var rest := QueryUnescape(s[3..]);
        if rest.Err? then rest
        else Ok([ByteChar(Hex.DigitValue(s[1]).value * 16 + Hex.DigitValue(s[2]).value)] + rest.value)
    else
      var rest := QueryUnescape(s[1..]);
      if rest.Err? then rest
      else Ok([if s[0] == '+' then ' ' else s[0]] + rest.value)
  }

  /** Unescaping fails exactly when some '%' is not followed by two hex digits. */
  lemma {:induction false} UnescapeSucceedsIff(s: string)
    ensures QueryUnescape(s).Ok? <==> WellEscaped(s)
  {
    if s == [] {
    } else if s[0] == '%' && !GoodEscapeAt(s, 0) {
    } else {
      var k := if s[0] == '%' then 3 else 1;
      UnescapeSucceedsIff(s[k..]);
      if WellEscaped(s[k..]) {
        forall i | 0 <= i < |s| && s[i] == '%'
          ensures GoodEscapeAt(s, i)
        {
          if i >= k {
            GoodEscapeShift(s, k, i - k);
          }
        }
      }
      if WellEscaped(s) {
        forall j | 0 <= j < |s[k..]| && s[k..][j] == '%'
          ensures GoodEscapeAt(s[k..], j)
        {
          GoodEscapeShift(s, k, j);
        }
      }
    }
  }

  /** Whether a '%' is well formed does not depend on what precedes it. */
  lemma GoodEscapeShift(s: string, k: nat, j: nat)
    requires k <= |s| && j < |s| - k
    ensures s[k..][j] == s[k + j]
    ensures GoodEscapeAt(s[k..], j) <==> GoodEscapeAt(s, k + j)
  {
    if k + j + 2 < |s| {
      assert s[k..][j + 1] == s[k + j + 1] && s[k..][j + 2] == s[k + j + 2];
    }
  }

  /** The first bad '%' stays the first bad one when a prefix before it is dropped. */
  lemma FirstBadEscapeShift(s: string, k: nat, i: int)
    requires FirstBadEscapeAt(s, i) && k <= i
    ensures FirstBadEscapeAt(s[k..], i - k)
  {
    GoodEscapeShift(s, k, i - k);
    forall j | 0 <= j < i - k && s[k..][j] == '%'
      ensures GoodEscapeAt(s[k..], j)
    {
      GoodEscapeShift(s, k, j);
    }
  }

  /** The error text starts at the first bad '%' and holds up to three chars of the input. */
  lemma {:induction false} UnescapeErrorText(s: string, i: int)
    requires FirstBadEscapeAt(s, i)
    ensures QueryUnescape(s) == Err(EscapeError(s[i..if i + 3 <= |s| then i + 3 else |s|]))
  {
    if i > 0 {
      var k := if s[0] == '%' then 3 else 1;
      if s[0] == '%' {
        assert GoodEscapeAt(s, 0);
      }
      FirstBadEscapeShift(s, k, i);
      UnescapeErrorText(s[k..], i - k);
      var e := if i + 3 <= |s| then i + 3 else |s|;
      assert s[k..][i - k..e - k] == s[i..e];
    }
  }

  /** Text with no '%' and no '+' comes back unchanged. */
  lemma {:induction false} PlainTextUnchanged(s: string)
    requires forall i :: 0 <= i < |s| ==> s[i] != '%' && s[i] != '+'
    ensures QueryUnescape(s) == Ok(s)
  {
    if s != [] {
      PlainTextUnchanged(s[1..]);
      assert s == [s[0]] + s[1..];
    }
  }

  /** The unreserved characters of section 2.3 of RFC 3986, which need no escaping. */
  predicate Unreserved(c: char) {
    'a' <= c <= 'z' || 'A' <= c <= 'Z' || '0' <= c <= '9' || c == '-' || c == '_' || c == '.' || c == '~'
  }

  function UpperDigit(v: int): (c: char)
    requires 0 <= v < 16
    ensures Hex.DigitValue(c) == Some(v)
  {
    if v < 10 then ('0' as int + v) as char else ('A' as int + v - 10) as char
  }

  /** The escaped form of one byte: itself if unreserved, '+' for a space, else upper-case "%XX". */
  function EscapeByte(c: char): (e: string)
    requires IsByteChar(c)
    ensures 1 <= |e| <= 3
  {
    if Unreserved(c) then [c]
    else if c == ' ' then "+"
    else ['%', UpperDigit(c as int / 16), UpperDigit(c as int % 16)]
  }

  /** url.QueryEscape on a byte string. */
  function QueryEscape(s: string): (r: string)
    requires IsByteString(s)
    ensures |s| <= |r| <= 3 * |s|
  {
    if s == [] then [] else EscapeByte(s[0]) + QueryEscape(s[1..])
  }

  /** Unescaping an escaped byte followed by more text yields that byte first. */
  lemma UnescapeEscapedByte(c: char, t: string)
    requires IsByteChar(c) && QueryUnescape(t).Ok?
    ensures QueryUnescape(EscapeByte(c) + t) == Ok([c] + QueryUnescape(t).value)
  {
    if Unreserved(c) || c == ' ' {
      var e := EscapeByte(c) + t;
      assert e[1..] == t;
    } else {
      UnescapePercent(c as int / 16, c as int % 16, t);
      assert c as int / 16 * 16 + c as int % 16 == c as int;
    }
  }

  /** "%XY" followed by more text unescapes to the byte with hex digits X and Y first. */
  lemma UnescapePercent(hi: int, lo: int, t: string)
    requires 0 <= hi < 16 && 0 <= lo < 16 && QueryUnescape(t).Ok?
    ensures QueryUnescape(['%', UpperDigit(hi), UpperDigit(lo)] + t) == Ok([ByteChar(hi * 16 + lo)] + QueryUnescape(t).value)
  {
    var x, y := UpperDigit(hi), UpperDigit(lo);
    var e := ['%', x, y] + t;
    assert e[0] == '%' && e[1] == x && e[2] == y && |e| >= 3;
    assert Hex.DigitValue(e[1]) == Some(hi) && Hex.DigitValue(e[2]) == Some(lo);
    assert e[3..] == t;
  }

  /** Unescaping undoes escaping. */
  lemma {:induction false} EscapeRoundTrip(s: string)
    requires IsByteString(s)
    ensures QueryUnescape(QueryEscape(s)) == Ok(s)
  {
    if s != [] {
      EscapeRoundTrip(s[1..]);
      UnescapeEscapedByte(s[0], QueryEscape(s[1..]));
      assert s == [s[0]] + s[1..];
    }
  }
}
