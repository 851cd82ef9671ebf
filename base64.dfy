/**
 * Base 64 encoding with the standard alphabet and `=` padding (section 4 of
 * RFC 4648), as `Buffer.toString('base64')` produces it, and its decoder.
 */
module Base64 {
  import opened Wrappers
  import opened Utf8

  type Sextet = v: int | 0 <= v < 64

  /** The alphabet of Table 1: A-Z, a-z, 0-9, '+', '/'. */
  function Digit(v: Sextet): (c: char)
    ensures c != '='
  {
    if v < 26 then ('A' as int + v) as char
    else if v < 52 then ('a' as int + (v - 26)) as char
    else if v < 62 then ('0' as int + (v - 52)) as char
    else if v == 62 then '+'
    else '/'
  }

  /** The value of an alphabet character; None for anything else, the pad included. */
  function DigitValue(c: char): (r: Option<Sextet>)
    ensures r.Some? ==> Digit(r.value) == c
  {
    if 'A' <= c <= 'Z' then Some(c as int - 'A' as int)
    else if 'a' <= c <= 'z' then Some(c as int - 'a' as int + 26)
    else if '0' <= c <= '9' then Some(c as int - '0' as int + 52)
    else if c == '+' then Some(62)
    else if c == '/' then Some(63)
    else None
  }

  lemma DigitValueOfDigit(v: Sextet)
    ensures DigitValue(Digit(v)) == Some(v)
  {
  }

  /** Three bytes, 24 bits, as four characters of six bits each, high bits first. */
  function EncodeGroup(b0: Byte, b1: Byte, b2: Byte): string
  {
    [Digit(b0 / 4), Digit(b0 % 4 * 16 + b1 / 16), Digit(b1 % 16 * 4 + b2 / 64), Digit(b2 % 64)]
  }

  /** A final group of one or two bytes is padded with zero bits and then with '='. */
  function Encode(bs: seq<Byte>): (s: string)
    ensures |s| == (|bs| + 2) / 3 * 4
    decreases |bs|
  {
    if |bs| >= 3 then EncodeGroup(bs[0], bs[1], bs[2]) + Encode(bs[3..])
    else if |bs| == 2 then [Digit(bs[0] / 4), Digit(bs[0] % 4 * 16 + bs[1] / 16), Digit(bs[1] % 16 * 4), '=']
    else if |bs| == 1 then [Digit(bs[0] / 4), Digit(bs[0] % 4 * 16), '=', '=']
    else []
  }

  /**
   * Decodes a padded base 64 string; None when a character is outside the alphabet, the
   * length is not a multiple of four, padding is misplaced or the pad bits are not zero.
   */
  function Decode(s: string): Option<seq<Byte>>
    decreases |s|
  {
    if |s| == 0 then Some([])
    else if |s| < 4 then None
    else
      var c0, c1, c2, c3 := DigitValue(s[0]), DigitValue(s[1]), DigitValue(s[2]), DigitValue(s[3]);
      if c0.None? || c1.None? then None
      else
        var v0: int, v1: int := c0.value, c1.value;
        if |s| == 4 && s[2] == '=' && s[3] == '=' then
          if v1 % 16 == 0 then Some([v0 * 4 + v1 / 16]) else None
        else if c2.None? then None
        else
          var v2: int := c2.value;
          if |s| == 4 && s[3] == '=' then
            if v2 % 4 == 0 then Some([v0 * 4 + v1 / 16, v1 % 16 * 16 + v2 / 4]) else None
          else if c3.None? then None
          else
            var v3: int := c3.value;
            match Decode(s[4..])
            case None => None
            case Some(rest) => Some([v0 * 4 + v1 / 16, v1 % 16 * 16 + v2 / 4, v2 % 4 * 64 + v3] + rest)
  }

  /** Decoding undoes encoding, so the encoded bytes are recoverable exactly. */
  lemma {:induction false} DecodeEncode(bs: seq<Byte>)
    ensures Decode(Encode(bs)) == Some(bs)
    decreases |bs|
  {
    if |bs| >= 3 {
      DecodeGroup(bs[0], bs[1], bs[2], Encode(bs[3..]));
      DecodeEncode(bs[3..]);
      assert [bs[0], bs[1], bs[2]] + bs[3..] == bs;
    } else if |bs| == 2 {
      DecodeTwo(bs[0], bs[1]);
      assert [bs[0], bs[1]] == bs;
    } else if |bs| == 1 {
      DecodeOne(bs[0]);
      assert [bs[0]] == bs;
    }
  }

  /** A full group decodes to its three bytes, followed by whatever the rest decodes to. */
  lemma DecodeGroup(b0: Byte, b1: Byte, b2: Byte, rest: string)
    ensures Decode(EncodeGroup(b0, b1, b2) + rest)
         == (match Decode(rest) case None => None case Some(tail) => Some([b0, b1, b2] + tail))
  {
    var s := EncodeGroup(b0, b1, b2) + rest;
    var v0: int, v1: int, v2: int := b0, b1, b2;
    DigitValueOfDigit(v0 / 4);
    DigitValueOfDigit(v0 % 4 * 16 + v1 / 16);
    DigitValueOfDigit(v1 % 16 * 4 + v2 / 64);
    DigitValueOfDigit(v2 % 64);
    assert s[4..] == rest;
    assert (v0 % 4 * 16 + v1 / 16) / 16 == v0 % 4;
    assert (v0 % 4 * 16 + v1 / 16) % 16 == v1 / 16;
    assert (v1 % 16 * 4 + v2 / 64) / 4 == v1 % 16;
    assert (v1 % 16 * 4 + v2 / 64) % 4 == v2 / 64;
  }

  lemma DecodeTwo(b0: Byte, b1: Byte)
    ensures Decode(Encode([b0, b1])) == Some([b0, b1])
  {
    var s := Encode([b0, b1]);
    var v0: int, v1: int := b0, b1;
    DigitValueOfDigit(v0 / 4);
    DigitValueOfDigit(v0 % 4 * 16 + v1 / 16);
    DigitValueOfDigit(v1 % 16 * 4);
    assert (v0 % 4 * 16 + v1 / 16) / 16 == v0 % 4;
    assert (v0 % 4 * 16 + v1 / 16) % 16 == v1 / 16;
    assert (v1 % 16 * 4) / 4 == v1 % 16 && (v1 % 16 * 4) % 4 == 0;
    assert s[2] != '=' && s[3] == '=';
  }

  lemma DecodeOne(b0: Byte)
    ensures Decode(Encode([b0])) == Some([b0])
  {
    var s := Encode([b0]);
    var v0: int := b0;
    DigitValueOfDigit(v0 / 4);
    DigitValueOfDigit(v0 % 4 * 16);
    assert (v0 % 4 * 16) / 16 == v0 % 4 && (v0 % 4 * 16) % 16 == 0;
    assert s[2] == '=' && s[3] == '=';
  }
}
