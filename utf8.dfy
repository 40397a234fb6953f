/** `bytes.decode(errors='ignore')` with the default UTF-8 codec: every
    well-formed UTF-8 sequence (Table 3-7 of the Unicode Standard) becomes
    its character and every other byte is dropped. Dropping one byte at a time
    gives the same text as dropping each maximal ill-formed subpart, because a
    continuation byte can never start a well-formed sequence. */
module Utf8 {

  newtype byte = x: int | 0 <= x < 256

  predicate IsCont(b: byte) {
    0x80 <= b <= 0xBF
  }

  /** The length of the well-formed sequence at the start of `b`, or 0 when
      the first byte does not start one. */
  function WellFormedLength(b: seq<byte>): (n: nat)
    ensures n <= 4 && n <= |b|
    ensures |b| > 0 && b[0] < 0x80 ==> n == 1
  {
    if |b| == 0 then 0
    else if b[0] <= 0x7F then 1
    else if 0xC2 <= b[0] <= 0xDF then
      if |b| >= 2 && IsCont(b[1]) then 2 else 0
    else if 0xE0 <= b[0] <= 0xEF then
      var lo: byte := if b[0] == 0xE0 then 0xA0 else 0x80;
      var hi: byte := if b[0] == 0xED then 0x9F else 0xBF;
      if |b| >= 3 && lo <= b[1] <= hi && IsCont(b[2]) then 3 else 0
    else if 0xF0 <= b[0] <= 0xF4 then
      var lo: byte := if b[0] == 0xF0 then 0x90 else 0x80;
      var hi: byte := if b[0] == 0xF4 then 0x8F else 0xBF;
      if |b| >= 4 && lo <= b[1] <= hi && IsCont(b[2]) && IsCont(b[3]) then 4 else 0
    else 0
  }

  predicate IsScalar(cp: int) {
    (0 <= cp < 0xD800) || (0xE000 <= cp < 0x11_0000)
  }

  /** The code point that a well-formed sequence of `n` bytes encodes; it is
      always a Unicode scalar value, so it is a Dafny `char`. */
  function CodePoint(b: seq<byte>, n: nat): (cp: int)
    requires 0 < n == WellFormedLength(b)
    ensures IsScalar(cp)
  {
    var b0 := b[0] as int;
    if n == 1 then b0
    else if n == 2 then (b0 - 0xC0) * 0x40 + (b[1] as int - 0x80)
    else if n == 3 then (b0 - 0xE0) * 0x1000 + (b[1] as int - 0x80) * 0x40 + (b[2] as int - 0x80)
    else (b0 - 0xF0) * 0x4_0000 + (b[1] as int - 0x80) * 0x1000 + (b[2] as int - 0x80) * 0x40 + (b[3] as int - 0x80)
  }

  /** `bytes(b).decode(errors='ignore')`. */
  function DecodeIgnore(b: seq<byte>): (s: string)
    ensures |s| <= |b|
    decreases |b|
  {
    if b == [] then ""
    else
      var n := WellFormedLength(b);
      if n == 0 then DecodeIgnore(b[1..])
      else [CodePoint(b, n) as char] + DecodeIgnore(b[n..])
  }

  /** `s.encode()`, character by character. */
  function EncodeChar(c: char): (b: seq<byte>)
    ensures 1 <= |b| <= 4
  {
    var cp := c as int;
    if cp < 0x80 then [cp as byte]
    else if cp < 0x800 then [(0xC0 + cp / 0x40) as byte, (0x80 + cp % 0x40) as byte]
    else if cp < 0x1_0000 then
      [(0xE0 + cp / 0x1000) as byte, (0x80 + (cp / 0x40) % 0x40) as byte, (0x80 + cp % 0x40) as byte]
    else
      [(0xF0 + cp / 0x4_0000) as byte, (0x80 + (cp / 0x1000) % 0x40) as byte,
       (0x80 + (cp / 0x40) % 0x40) as byte, (0x80 + cp % 0x40) as byte]
  }

  function Encode(s: string): seq<byte>
    decreases |s|
  {
    if s == [] then [] else EncodeChar(s[0]) + Encode(s[1..])
  }

  lemma TwoByteArith(cp: int)
    requires 0x80 <= cp < 0x800
    ensures var q, r := cp / 0x40, cp % 0x40;
      0x02 <= q <= 0x1F && 0 <= r < 0x40 && q * 0x40 + r == cp
  {
  }

  lemma ThreeByteArith(cp: int)
    requires 0x800 <= cp < 0x1_0000 && IsScalar(cp)
    ensures var q, m, r := cp / 0x1000, (cp / 0x40) % 0x40, cp % 0x40;
      && 0 <= q <= 0x0F && 0 <= m < 0x40 && 0 <= r < 0x40
      && q * 0x1000 + m * 0x40 + r == cp
      && (q == 0 ==> m >= 0x20) && (q == 0x0D ==> m < 0x20)
  {
  }

  lemma FourByteArith(cp: int)
    requires 0x1_0000 <= cp < 0x11_0000
    ensures var q, m1, m2, r := cp / 0x4_0000, (cp / 0x1000) % 0x40, (cp / 0x40) % 0x40, cp % 0x40;
      && 0 <= q <= 4 && 0 <= m1 < 0x40 && 0 <= m2 < 0x40 && 0 <= r < 0x40
      && q * 0x4_0000 + m1 * 0x1000 + m2 * 0x40 + r == cp
      && (q == 0 ==> m1 >= 0x10) && (q == 4 ==> m1 < 0x10)
  {
    var a := cp / 0x40;
    var b := a / 0x40;
    assert cp == a * 0x40 + cp % 0x40;
    assert a == b * 0x40 + a % 0x40;
    assert b == cp / 0x1000;
    assert b / 0x40 == cp / 0x4_0000;
  }

  /** The decoder reads back exactly the character that the encoder wrote,
      whatever follows it. */
  lemma DecodeEncodedChar(c: char, rest: seq<byte>)
    ensures var b := EncodeChar(c) + rest;
      WellFormedLength(b) == |EncodeChar(c)| && CodePoint(b, |EncodeChar(c)|) == c as int
  {
    if c as int < 0x800 {
      DecodeEncodedShort(c, rest);
    } else if c as int < 0x1_0000 {
      DecodeEncodedThree(c, rest);
    } else {
      DecodeEncodedFour(c, rest);
    }
  }

  /** The round trip for the one- and two-byte sequences. */
  lemma DecodeEncodedShort(c: char, rest: seq<byte>)
    requires c as int < 0x800
    ensures var b := EncodeChar(c) + rest;
      WellFormedLength(b) == |EncodeChar(c)| && CodePoint(b, |EncodeChar(c)|) == c as int
  {
    var cp := c as int;
    var e := EncodeChar(c);
    var b := e + rest;
    if cp < 0x80 {
      assert b[0] == e[0];
    } else {
      TwoByteArith(cp);
      assert b[0] == e[0] && b[1] == e[1];
    }
  }

  /** The round trip for the three-byte sequences. */
  lemma DecodeEncodedThree(c: char, rest: seq<byte>)
    requires 0x800 <= c as int < 0x1_0000
    ensures var b := EncodeChar(c) + rest;
      WellFormedLength(b) == |EncodeChar(c)| && CodePoint(b, |EncodeChar(c)|) == c as int
  {
    var cp := c as int;
    var e := EncodeChar(c);
    var b := e + rest;
    ThreeByteArith(cp);
    assert b[0] == e[0] && b[1] == e[1] && b[2] == e[2];
  }

  /** The round trip for the four-byte sequences. */
  lemma DecodeEncodedFour(c: char, rest: seq<byte>)
    requires 0x1_0000 <= c as int
    ensures var b := EncodeChar(c) + rest;
      WellFormedLength(b) == |EncodeChar(c)| && CodePoint(b, |EncodeChar(c)|) == c as int
  {
    var cp := c as int;
    var e := EncodeChar(c);
    var b := e + rest;
    FourByteArith(cp);
    assert b[0] == e[0] && b[1] == e[1] && b[2] == e[2] && b[3] == e[3];
  }

  /** Decoding what was encoded gives the text back: for UTF-8 text the
      `errors='ignore'` decoder loses nothing. */
  lemma {:induction false} DecodeEncode(s: string)
    ensures DecodeIgnore(Encode(s)) == s
    decreases |s|
  {
    if s != [] {
      var e := EncodeChar(s[0]);
      DecodeEncodedChar(s[0], Encode(s[1..]));
      var b := Encode(s);
      assert b == e + Encode(s[1..]);
      assert b[|e|..] == Encode(s[1..]);
      DecodeEncode(s[1..]);
    }
  }

  /** ASCII bytes decode to the characters with the same codes. */
  lemma {:induction false} DecodeAscii(b: seq<byte>)
    requires forall i :: 0 <= i < |b| ==> b[i] < 0x80
    ensures |DecodeIgnore(b)| == |b|
    ensures forall i :: 0 <= i < |b| ==> DecodeIgnore(b)[i] as int == b[i] as int
    decreases |b|
  {
    if b != [] {
      DecodeAscii(b[1..]);
    }
  }
}
