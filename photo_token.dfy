/**
 * UTF-8 (RFC 3629): the byte form in which Node's `Buffer` and the URL
 * encoders see a string. Dafny's `char` is a Unicode scalar value, so every
 * string here is well formed.
 */
module Utf8 {
  import opened Wrappers

  newtype byte = x: int | 0 <= x < 256

  /** The UTF-8 encoding of one scalar value: one to four bytes. */
  function EncodeChar(c: char): (bs: seq<byte>)
    ensures 1 <= |bs| <= 4
  {
    var cp := c as int;
    if cp < 0x80 then [cp as byte]
    else if cp < 0x800 then [(0xC0 + cp / 64) as byte, (0x80 + cp % 64) as byte]
    else if cp < 0x10000 then
      [(0xE0 + cp / 4096) as byte, (0x80 + (cp / 64) % 64) as byte, (0x80 + cp % 64) as byte]
    else
      [(0xF0 + cp / 262144) as byte, (0x80 + (cp / 4096) % 64) as byte,
       (0x80 + (cp / 64) % 64) as byte, (0x80 + cp % 64) as byte]
  }

  /** `Buffer.from(s)`: the UTF-8 bytes of the string. */
  function Utf8Encode(s: string): (bs: seq<byte>)
    ensures |s| <= |bs| <= 4 * |s|
  {
    if s == [] then [] else EncodeChar(s[0]) + Utf8Encode(s[1..])
  }

  predicate IsContinuation(b: byte)
  {
    0x80 <= b < 0xC0
  }

  /**
   * The first scalar value of a byte sequence and the number of bytes it
   * takes, or `None` when the sequence does not start with a well-formed
   * UTF-8 encoding (overlong forms, surrogates and values above U+10FFFF
   * are refused).
   */
  function DecodeChar(bs: seq<byte>): (r: Option<(char, nat)>)
    requires |bs| > 0
    ensures r.Some? ==> 1 <= r.value.1 <= |bs| && r.value.1 <= 4
  {
    var b0 := bs[0] as int;
    if b0 < 0x80 then Some((b0 as char, 1))
    else if 0xC2 <= b0 < 0xE0 then
      if |bs| >= 2 && IsContinuation(bs[1]) then
        Some((((b0 - 0xC0) * 64 + (bs[1] as int - 0x80)) as char, 2))
      else None
    else if 0xE0 <= b0 < 0xF0 then
      if |bs| >= 3 && IsContinuation(bs[1]) && IsContinuation(bs[2]) then
        var cp := (b0 - 0xE0) * 4096 + (bs[1] as int - 0x80) * 64 + (bs[2] as int - 0x80);
        if 0x800 <= cp && !(0xD800 <= cp < 0xE000) then Some((cp as char, 3)) else None
      else None
    else if 0xF0 <= b0 < 0xF5 then
      if |bs| >= 4 && IsContinuation(bs[1]) && IsContinuation(bs[2]) && IsContinuation(bs[3]) then
        var cp := (b0 - 0xF0) * 262144 + (bs[1] as int - 0x80) * 4096 + (bs[2] as int - 0x80) * 64 + (bs[3] as int - 0x80);
        if 0x10000 <= cp < 0x110000 then Some((cp as char, 4)) else None
      else None
    else None
  }

  /** The string a byte sequence encodes, or `None` when it is not well-formed UTF-8. */
  function Utf8Decode(bs: seq<byte>): (s: Option<string>)
    decreases |bs|
  {
    if bs == [] then Some([])
    else
      match DecodeChar(bs)
      case None => None
      case Some((c, k)) =>
        match Utf8Decode(bs[k..])
        case None => None
        case Some(rest) => Some([c] + rest)
  }

  lemma DecodeTwoBytes(c: char, rest: seq<byte>)
    requires 0x80 <= c as int < 0x800
    ensures DecodeChar(EncodeChar(c) + rest) == Some((c, 2))
  {
    var cp := c as int;
    var bs := EncodeChar(c) + rest;
    assert bs[0] as int == 0xC0 + cp / 64 && bs[1] as int == 0x80 + cp % 64;
  }

  lemma DecodeThreeBytes(c: char, rest: seq<byte>)
    requires 0x800 <= c as int < 0x10000
    ensures DecodeChar(EncodeChar(c) + rest) == Some((c, 3))
  {
    var cp := c as int;
    var bs := EncodeChar(c) + rest;
    assert bs[0] as int == 0xE0 + cp / 4096;
    assert bs[1] as int == 0x80 + (cp / 64) % 64 && bs[2] as int == 0x80 + cp % 64;
    assert (cp / 4096) * 64 + (cp / 64) % 64 == cp / 64;
  }

  lemma DecodeFourBytes(c: char, rest: seq<byte>)
    requires 0x10000 <= c as int
    ensures DecodeChar(EncodeChar(c) + rest) == Some((c, 4))
  {
    var cp := c as int;
    var bs := EncodeChar(c) + rest;
    assert bs[0] as int == 0xF0 + cp / 262144;
    assert bs[1] as int == 0x80 + (cp / 4096) % 64;
    assert bs[2] as int == 0x80 + (cp / 64) % 64 && bs[3] as int == 0x80 + cp % 64;
    assert (cp / 262144) * 64 + (cp / 4096) % 64 == cp / 4096;
    assert (cp / 4096) * 64 + (cp / 64) % 64 == cp / 64;
  }

  /** Decoding the encoding of a character reads back that character and exactly its bytes. */
  lemma DecodeEncodedChar(c: char, rest: seq<byte>)
    ensures DecodeChar(EncodeChar(c) + rest) == Some((c, |EncodeChar(c)|))
  {
    if c as int < 0x80 {
    } else if c as int < 0x800 {
      DecodeTwoBytes(c, rest);
    } else if c as int < 0x10000 {
      DecodeThreeBytes(c, rest);
    } else {
      DecodeFourBytes(c, rest);
    }
  }

  /** UTF-8 decoding undoes UTF-8 encoding. */
  lemma {:induction false} Utf8RoundTrip(s: string)
    ensures Utf8Decode(Utf8Encode(s)) == Some(s)
  {
    if s != [] {
      var head := EncodeChar(s[0]);
      var bs := Utf8Encode(s);
      assert bs == head + Utf8Encode(s[1..]);
      DecodeEncodedChar(s[0], Utf8Encode(s[1..]));
      assert bs[|head|..] == Utf8Encode(s[1..]);
      Utf8RoundTrip(s[1..]);
      assert [s[0]] + s[1..] == s;
    }
  }
}

/**
 * The photo-token helpers of apps/backend/src/utils/helpers.ts: a Telegram
 * file id is turned into a URL-friendly token by encoding it as UTF-8 and
 * the bytes as base64 with the standard alphabet and `=` padding (section 4
 * of RFC 4648), and turned back by the reverse steps.
 */
module PhotoToken {
  import opened Wrappers
  import opened Utf8

  // ---------------------------------------------------------------- base64

  /**
   * The character for a 6-bit value: the alphabet of RFC 4648, section 4
   * (Table 1), is `A`-`Z`, `a`-`z`, `0`-`9`, `+` and `/` in that order.
   */
  function SextetChar(v: int): (c: char)
    requires 0 <= v < 64
  {
    if v < 26 then ('A' as int + v) as char
    else if v < 52 then ('a' as int + v - 26) as char
    else if v < 62 then ('0' as int + v - 52) as char
    else if v == 62 then '+'
    else '/'
  }

  /** The 6-bit value of an alphabet character, `None` for any other character. */
  function SextetOf(c: char): (r: Option<int>)
    ensures r.Some? ==> 0 <= r.value < 64 && SextetChar(r.value) == c
  {
    if 'A' <= c <= 'Z' then Some(c as int - 'A' as int)
    else if 'a' <= c <= 'z' then Some(c as int - 'a' as int + 26)
    else if '0' <= c <= '9' then Some(c as int - '0' as int + 52)
    else if c == '+' then Some(62)
    else if c == '/' then Some(63)
    else None
  }

  lemma SextetRoundTrip(v: int)
    requires 0 <= v < 64
    ensures SextetOf(SextetChar(v)) == Some(v)
  {
  }

  /** A character a token may hold: one of the alphabet or the `=` pad. */
  predicate TokenChar(c: char)
  {
    SextetOf(c).Some? || c == '='
  }

  /** Three bytes as four characters. */
  function Quad(b0: byte, b1: byte, b2: byte): (q: string)
    ensures |q| == 4
    ensures forall i :: 0 <= i < 4 ==> SextetOf(q[i]).Some?
  {
    SextetRoundTrip(b0 as int / 4);
    SextetRoundTrip((b0 as int % 4) * 16 + b1 as int / 16);
    SextetRoundTrip((b1 as int % 16) * 4 + b2 as int / 64);
    SextetRoundTrip(b2 as int % 64);
    [SextetChar(b0 as int / 4), SextetChar((b0 as int % 4) * 16 + b1 as int / 16),
     SextetChar((b1 as int % 16) * 4 + b2 as int / 64), SextetChar(b2 as int % 64)]
  }

  /** A last group of one byte: two characters and two pads. */
  function Single(b0: byte): (q: string)
    ensures |q| == 4 && q[2] == '=' && q[3] == '='
    ensures SextetOf(q[0]).Some? && SextetOf(q[1]).Some?
  {
    SextetRoundTrip(b0 as int / 4);
    SextetRoundTrip((b0 as int % 4) * 16);
    [SextetChar(b0 as int / 4), SextetChar((b0 as int % 4) * 16), '=', '=']
  }

  /** A last group of two bytes: three characters and one pad. */
  function Pair(b0: byte, b1: byte): (q: string)
    ensures |q| == 4 && q[3] == '='
    ensures SextetOf(q[0]).Some? && SextetOf(q[1]).Some? && SextetOf(q[2]).Some?
  {
    SextetRoundTrip(b0 as int / 4);
    SextetRoundTrip((b0 as int % 4) * 16 + b1 as int / 16);
    SextetRoundTrip((b1 as int % 16) * 4);
    [SextetChar(b0 as int / 4), SextetChar((b0 as int % 4) * 16 + b1 as int / 16),
     SextetChar((b1 as int % 16) * 4), '=']
  }

  /**
   * `toString("base64")`: each group of three bytes becomes four
   * characters; a final group of one or two bytes is padded with `=` to
   * four characters.
   */
  function Base64Encode(bs: seq<byte>): (s: string)
    ensures |s| == 4 * ((|bs| + 2) / 3)
    ensures forall i :: 0 <= i < |s| ==> TokenChar(s[i])
    ensures forall i :: 0 <= i < |s| - 2 ==> s[i] != '='
    decreases |bs|
  {
    if bs == [] then []
    else if |bs| == 1 then Single(bs[0])
    else if |bs| == 2 then Pair(bs[0], bs[1])
    else
      var q := Quad(bs[0], bs[1], bs[2]);
      var rest := Base64Encode(bs[3..]);
      assert (|bs| - 3 + 2) / 3 == (|bs| + 2) / 3 - 1;
      var s := q + rest;
      assert forall i :: 4 <= i < |s| ==> s[i] == rest[i - 4];
      s
  }

  /** The three bytes four sextets stand for. */
  function Bytes3(c0: int, c1: int, c2: int, c3: int): seq<byte>
    requires 0 <= c0 < 64 && 0 <= c1 < 64 && 0 <= c2 < 64 && 0 <= c3 < 64
  {
    [(c0 * 4 + c1 / 16) as byte, ((c1 % 16) * 16 + c2 / 4) as byte, ((c2 % 4) * 64 + c3) as byte]
  }

  /**
   * Decoding of a canonical base64 text: groups of four alphabet characters,
   * with `=` padding only in the last group; `None` for anything else.
   */
  function Base64Decode(s: string): (r: Option<seq<byte>>)
    decreases |s|
  {
    if s == [] then Some([])
    else if |s| < 4 then None
    else
      var c0, c1, c2, c3 := SextetOf(s[0]), SextetOf(s[1]), SextetOf(s[2]), SextetOf(s[3]);
      if c0.None? || c1.None? then None
      else if s[2] == '=' && s[3] == '=' then
        if |s| == 4 then Some(Bytes3(c0.value, c1.value, 0, 0)[..1]) else None
      else if c2.Some? && s[3] == '=' then
        if |s| == 4 then Some(Bytes3(c0.value, c1.value, c2.value, 0)[..2]) else None
      else if c2.Some? && c3.Some? then
        match Base64Decode(s[4..])
        case None => None
        case Some(rest) => Some(Bytes3(c0.value, c1.value, c2.value, c3.value) + rest)
      else None
  }

  /** The sextets of three bytes give the bytes back. */
  lemma Bytes3OfQuad(b0: byte, b1: byte, b2: byte)
    ensures Bytes3(b0 as int / 4, (b0 as int % 4) * 16 + b1 as int / 16,
                   (b1 as int % 16) * 4 + b2 as int / 64, b2 as int % 64) == [b0, b1, b2]
  {
  }

  /** A full group at the front decodes to its three bytes followed by the decoding of the rest. */
  lemma DecodeQuadPrefix(b0: byte, b1: byte, b2: byte, t: string)
    ensures Base64Decode(Quad(b0, b1, b2) + t)
         == if Base64Decode(t).Some? then Some([b0, b1, b2] + Base64Decode(t).value) else None
  {
    var s := Quad(b0, b1, b2) + t;
    SextetRoundTrip(b0 as int / 4);
    SextetRoundTrip((b0 as int % 4) * 16 + b1 as int / 16);
    SextetRoundTrip((b1 as int % 16) * 4 + b2 as int / 64);
    SextetRoundTrip(b2 as int % 64);
    assert s[4..] == t;
    Bytes3OfQuad(b0, b1, b2);
  }

  lemma SingleArithmetic(b: int)
    requires 0 <= b < 256
    ensures (b / 4) * 4 + ((b % 4) * 16) / 16 == b
  {
  }

  lemma PairArithmetic(b0: int, b1: int)
    requires 0 <= b0 < 256 && 0 <= b1 < 256
    ensures var c1 := (b0 % 4) * 16 + b1 / 16;
            (b0 / 4) * 4 + c1 / 16 == b0 && (c1 % 16) * 16 + ((b1 % 16) * 4) / 4 == b1
  {
    var c1 := (b0 % 4) * 16 + b1 / 16;
    assert c1 / 16 == b0 % 4 && c1 % 16 == b1 / 16;
  }

  lemma Bytes3OfSingle(b0: byte)
    ensures Bytes3(b0 as int / 4, (b0 as int % 4) * 16, 0, 0)[..1] == [b0]
  {
    SingleArithmetic(b0 as int);
  }

  lemma Bytes3OfPair(b0: byte, b1: byte)
    ensures Bytes3(b0 as int / 4, (b0 as int % 4) * 16 + b1 as int / 16, (b1 as int % 16) * 4, 0)[..2] == [b0, b1]
  {
    PairArithmetic(b0 as int, b1 as int);
  }

  lemma DecodeSingle(b0: byte)
    ensures Base64Decode(Single(b0)) == Some([b0])
  {
    var q := Single(b0);
    var c0, c1 := b0 as int / 4, (b0 as int % 4) * 16;
    SextetRoundTrip(c0);
    SextetRoundTrip(c1);
    assert SextetOf(q[0]) == Some(c0) && SextetOf(q[1]) == Some(c1);
    assert Base64Decode(q) == Some(Bytes3(c0, c1, 0, 0)[..1]);
    Bytes3OfSingle(b0);
  }

  lemma DecodePair(b0: byte, b1: byte)
    ensures Base64Decode(Pair(b0, b1)) == Some([b0, b1])
  {
    var q := Pair(b0, b1);
    var c0, c1, c2 := b0 as int / 4, (b0 as int % 4) * 16 + b1 as int / 16, (b1 as int % 16) * 4;
    SextetRoundTrip(c0);
    SextetRoundTrip(c1);
    SextetRoundTrip(c2);
    assert SextetOf(q[0]) == Some(c0) && SextetOf(q[1]) == Some(c1) && SextetOf(q[2]) == Some(c2);
    assert q[2] != '=';
    assert Base64Decode(q) == Some(Bytes3(c0, c1, c2, 0)[..2]);
    Bytes3OfPair(b0, b1);
  }

  /** The last group of one or two bytes decodes back to them. */
  lemma ShortRoundTrip(bs: seq<byte>)
    requires 1 <= |bs| <= 2
    ensures Base64Decode(Base64Encode(bs)) == Some(bs)
  {
    if |bs| == 1 {
      DecodeSingle(bs[0]);
      assert bs == [bs[0]];
    } else {
      DecodePair(bs[0], bs[1]);
      assert bs == [bs[0], bs[1]];
    }
  }

  /** A full group in front of a part that round-trips keeps the round trip. */
  lemma QuadStep(bs: seq<byte>)
    requires |bs| >= 3 && Base64Decode(Base64Encode(bs[3..])) == Some(bs[3..])
    ensures Base64Decode(Base64Encode(bs)) == Some(bs)
  {
    var rest := Base64Encode(bs[3..]);
    assert Base64Encode(bs) == Quad(bs[0], bs[1], bs[2]) + rest;
    DecodeQuadPrefix(bs[0], bs[1], bs[2], rest);
    FirstThree(bs);
  }

  lemma FirstThree(bs: seq<byte>)
    requires |bs| >= 3
    ensures bs == [bs[0], bs[1], bs[2]] + bs[3..]
  {
  }

  /** Base64 decoding undoes base64 encoding. */
  lemma {:induction false} Base64RoundTrip(bs: seq<byte>)
    ensures Base64Decode(Base64Encode(bs)) == Some(bs)
    decreases |bs|
  {
    if |bs| >= 3 {
      Base64RoundTrip(bs[3..]);
      QuadStep(bs);
    } else if bs != [] {
      ShortRoundTrip(bs);
    }
  }

  // ---------------------------------------------------------------- photo tokens

  /** `encodePhotoToken`: base64 of the file id's UTF-8 bytes. */
  function EncodePhotoToken(fileId: string): (token: string)
    ensures |token| == 4 * ((|Utf8Encode(fileId)| + 2) / 3)
    ensures forall i :: 0 <= i < |token| ==> TokenChar(token[i])
  {
    Base64Encode(Utf8Encode(fileId))
  }

  /** `decodePhotoToken` on canonical tokens carrying well-formed UTF-8. */
  function DecodePhotoToken(token: string): (fileId: Option<string>)
    ensures forall s {:trigger EncodePhotoToken(s)} :: token == EncodePhotoToken(s) ==> fileId == Some(s)
  {
    assert forall s {:trigger EncodePhotoToken(s)} :: token == EncodePhotoToken(s) ==>
             Base64Decode(token) == Some(Utf8Encode(s)) && Utf8Decode(Utf8Encode(s)) == Some(s) by {
      forall s | token == EncodePhotoToken(s)
        ensures Base64Decode(token) == Some(Utf8Encode(s)) && Utf8Decode(Utf8Encode(s)) == Some(s)
      {
        Base64RoundTrip(Utf8Encode(s));
        Utf8RoundTrip(s);
      }
    }
    match Base64Decode(token)
    case None => None
    case Some(bs) => Utf8Decode(bs)
  }

  /** Every file id is read back from its token. */
  lemma PhotoTokenRoundTrip(fileId: string)
    ensures DecodePhotoToken(EncodePhotoToken(fileId)) == Some(fileId)
  {
    Base64RoundTrip(Utf8Encode(fileId));
    Utf8RoundTrip(fileId);
  }

  /** Different file ids get different tokens. */
  lemma PhotoTokenInjective(a: string, b: string)
    requires EncodePhotoToken(a) == EncodePhotoToken(b)
    ensures a == b
  {
    PhotoTokenRoundTrip(a);
    PhotoTokenRoundTrip(b);
  }
}
