/**
 * Base64 as defined in section 4 of RFC 4648 (the alphabet `A-Z a-z 0-9 + /`, with
 * `=` padding), the encoding of `base64.b64encode` that the bot applies to logo bytes
 * before it stores them, and a decoder for the strings that encoding produces.
 */
module Base64 {
  import opened Wrappers

  type byte = x: int | 0 <= x < 256
  type sextet = x: int | 0 <= x < 64

  /** The character for a 6-bit value (Table 1 of RFC 4648). */
  function Alphabet(i: sextet): (c: char)
    ensures c != '='
  {
    if i < 26 then ('A' as int + i) as char
    else if i < 52 then ('a' as int + i - 26) as char
    else if i < 62 then ('0' as int + i - 52) as char
    else if i == 62 then '+'
    else '/'
  }

  /** The 6-bit value of an alphabet character; `None` for any other character. */
  function Value(c: char): Option<sextet>
  {
    if 'A' <= c <= 'Z' then Some(c as int - 'A' as int)
    else if 'a' <= c <= 'z' then Some(c as int - 'a' as int + 26)
    else if '0' <= c <= '9' then Some(c as int - '0' as int + 52)
    else if c == '+' then Some(62)
    else if c == '/' then Some(63)
    else None
  }

  lemma ValueOfAlphabet(i: sextet)
    ensures Value(Alphabet(i)) == Some(i)
  {
  }

  /** `Value` is the inverse of `Alphabet`: a character with a value is the character for that value. */
  lemma AlphabetOfValue(c: char)
    requires Value(c).Some?
    ensures Alphabet(Value(c).value) == c
  {
  }

  /** The four sextets of a group of three bytes, most significant bits first. */
  function Sextet0(b0: byte): sextet { b0 / 4 }
  function Sextet1(b0: byte, b1: byte): sextet { b0 % 4 * 16 + b1 / 16 }
  function Sextet2(b1: byte, b2: byte): sextet { b1 % 16 * 4 + b2 / 64 }
  function Sextet3(b2: byte): sextet { b2 % 64 }

  /** Encodes the bytes three at a time; a final group of one or two bytes is padded with `=` (missing bits are zero). */
  function Encode(b: seq<byte>): string
    decreases |b|
  {
    if |b| == 0 then ""
    else if |b| == 1 then
      [Alphabet(Sextet0(b[0])), Alphabet(Sextet1(b[0], 0)), '=', '=']
    else if |b| == 2 then
      [Alphabet(Sextet0(b[0])), Alphabet(Sextet1(b[0], b[1])), Alphabet(Sextet2(b[1], 0)), '=']
    else
      [Alphabet(Sextet0(b[0])), Alphabet(Sextet1(b[0], b[1])), Alphabet(Sextet2(b[1], b[2])), Alphabet(Sextet3(b[2]))]
      + Encode(b[3..])
  }

  /** Every started group of three bytes becomes four characters. */
  lemma {:induction false} EncodeLength(b: seq<byte>)
    ensures |Encode(b)| == 4 * ((|b| + 2) / 3)
    decreases |b|
  {
    if |b| >= 3 {
      EncodeLength(b[3..]);
      assert (|b| + 2) / 3 == (|b[3..]| + 2) / 3 + 1;
    }
  }

  function Byte0(c0: sextet, c1: sextet): byte { c0 * 4 + c1 / 16 }
  function Byte1(c1: sextet, c2: sextet): byte { c1 % 16 * 16 + c2 / 4 }
  function Byte2(c2: sextet, c3: sextet): byte { c2 % 4 * 64 + c3 }

  /**
   * Decodes a string made of groups of four alphabet characters, the last group possibly
   * ending in `=` or `==`. Returns `None` for a length that is not a multiple of four,
   * a character outside the alphabet, or padding anywhere but at the end.
   */
  function Decode(s: string): (r: Option<seq<byte>>)
    decreases |s|
  {
    if |s| == 0 then Some([])
    else if |s| < 4 then None
    else
      var v0, v1, v2, v3 := Value(s[0]), Value(s[1]), Value(s[2]), Value(s[3]);
      if v0.None? || v1.None? then None
      else if |s| == 4 && s[2] == '=' && s[3] == '=' then
        Some([Byte0(v0.value, v1.value)])
      else if v2.None? then None
      else if |s| == 4 && s[3] == '=' then
        Some([Byte0(v0.value, v1.value), Byte1(v1.value, v2.value)])
      else if v3.None? then None
      else
        match Decode(s[4..])
        case None => None
        case Some(rest) =>
          Some([Byte0(v0.value, v1.value), Byte1(v1.value, v2.value), Byte2(v2.value, v3.value)] + rest)
  }

  /** The bit arithmetic of one group: splitting three bytes into four sextets and joining them back. */
  lemma GroupRoundTrip(b0: byte, b1: byte, b2: byte)
    ensures Byte0(Sextet0(b0), Sextet1(b0, b1)) == b0
    ensures Byte1(Sextet1(b0, b1), Sextet2(b1, b2)) == b1
    ensures Byte2(Sextet2(b1, b2), Sextet3(b2)) == b2
  {
  }

  /** A final group with two padding characters decodes to one byte. */
  lemma DecodeOneByteGroup(c0: sextet, c1: sextet)
    ensures Decode([Alphabet(c0), Alphabet(c1), '=', '=']) == Some([Byte0(c0, c1)])
  {
    ValueOfAlphabet(c0);
    ValueOfAlphabet(c1);
  }

  /** A final group with one padding character decodes to two bytes. */
  lemma DecodeTwoByteGroup(c0: sextet, c1: sextet, c2: sextet)
    ensures Decode([Alphabet(c0), Alphabet(c1), Alphabet(c2), '=']) == Some([Byte0(c0, c1), Byte1(c1, c2)])
  {
    ValueOfAlphabet(c0);
    ValueOfAlphabet(c1);
    ValueOfAlphabet(c2);
  }

  /** A group of four alphabet characters decodes to three bytes, followed by whatever the rest decodes to. */
  lemma DecodeFullGroup(c0: sextet, c1: sextet, c2: sextet, c3: sextet, rest: string)
    ensures Decode([Alphabet(c0), Alphabet(c1), Alphabet(c2), Alphabet(c3)] + rest)
         == match Decode(rest)
            case None => None
            case Some(t) => Some([Byte0(c0, c1), Byte1(c1, c2), Byte2(c2, c3)] + t)
  {
    var s := [Alphabet(c0), Alphabet(c1), Alphabet(c2), Alphabet(c3)] + rest;
    ValueOfAlphabet(c0);
    ValueOfAlphabet(c1);
    ValueOfAlphabet(c2);
    ValueOfAlphabet(c3);
    assert s[4..] == rest;
  }

  lemma EncodeDecodeOneByte(b0: byte)
    ensures Decode(Encode([b0])) == Some([b0])
  {
    var c0, c1 := Sextet0(b0), Sextet1(b0, 0);
    assert Encode([b0]) == [Alphabet(c0), Alphabet(c1), '=', '='];
    DecodeOneByteGroup(c0, c1);
    GroupRoundTrip(b0, 0, 0);
  }

  lemma EncodeDecodeTwoBytes(b0: byte, b1: byte)
    ensures Decode(Encode([b0, b1])) == Some([b0, b1])
  {
    var c0, c1, c2 := Sextet0(b0), Sextet1(b0, b1), Sextet2(b1, 0);
    assert Encode([b0, b1]) == [Alphabet(c0), Alphabet(c1), Alphabet(c2), '='];
    DecodeTwoByteGroup(c0, c1, c2);
    GroupRoundTrip(b0, b1, 0);
  }

  lemma EncodeDecodeGroup(b0: byte, b1: byte, b2: byte, tail: seq<byte>)
    requires Decode(Encode(tail)) == Some(tail)
    ensures Decode(Encode([b0, b1, b2] + tail)) == Some([b0, b1, b2] + tail)
  {
    var b := [b0, b1, b2] + tail;
    var c0, c1, c2, c3 := Sextet0(b0), Sextet1(b0, b1), Sextet2(b1, b2), Sextet3(b2);
    assert b[3..] == tail;
    assert Encode(b) == [Alphabet(c0), Alphabet(c1), Alphabet(c2), Alphabet(c3)] + Encode(tail);
    DecodeFullGroup(c0, c1, c2, c3, Encode(tail));
    GroupRoundTrip(b0, b1, b2);
    assert [Byte0(c0, c1), Byte1(c1, c2), Byte2(c2, c3)] == [b0, b1, b2];
  }

  /** Decoding what `Encode` produced gives back the bytes (the round trip bot.py:291-293 and 370-372 rely on). */
  lemma {:induction false} DecodeEncode(b: seq<byte>)
    ensures Decode(Encode(b)) == Some(b)
    decreases |b|
  {
    if |b| == 1 {
      EncodeDecodeOneByte(b[0]);
      assert [b[0]] == b;
    } else if |b| == 2 {
      EncodeDecodeTwoBytes(b[0], b[1]);
      assert [b[0], b[1]] == b;
    } else if |b| >= 3 {
      DecodeEncode(b[3..]);
      EncodeDecodeGroup(b[0], b[1], b[2], b[3..]);
      assert [b[0], b[1], b[2]] + b[3..] == b;
    }
  }

  /** Only a string of a length divisible by four can decode. */
  lemma {:induction false} DecodeLength(s: string)
    requires Decode(s).Some?
    ensures |s| % 4 == 0
    decreases |s|
  {
    if |s| > 4 {
      assert Decode(s[4..]).Some?;
      DecodeLength(s[4..]);
    }
  }
}
