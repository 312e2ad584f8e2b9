/**
 * The byte encodings behind HTTP Basic credentials: `String.getBytes("UTF-8")`
 * and commons-codec `Base64.encodeBase64`, the base 64 encoding of section 4
 * of RFC 4648 (standard alphabet, '=' padding, no line breaks).
 * Each encoder is paired with a decoder and a round-trip lemma.
 */
module Encoding {

  type byte = x: int | 0 <= x < 256

  // ---------------------------------------------------------------------------
  // UTF-8

  /** The UTF-8 bytes of one Unicode scalar value (1 to 4 bytes). */
  function Utf8Char(c: char): (r: seq<byte>)
    ensures 1 <= |r| <= 4
    ensures (c as int < 0x80) <==> |r| == 1
    ensures |r| == 1 ==> r[0] == c as int
  {
    var n := c as int;
    var q1 := n / 64;
    var q2 := q1 / 64;
    var q3 := q2 / 64;
    if n < 0x80 then [n]
    else if n < 0x800 then [0xC0 + q1, 0x80 + n % 64]
    else if n < 0x10000 then [0xE0 + q2, 0x80 + q1 % 64, 0x80 + n % 64]
    else [0xF0 + q3, 0x80 + q2 % 64, 0x80 + q1 % 64, 0x80 + n % 64]
  }

  /** `String.getBytes("UTF-8")`. */
  function Utf8(s: string): seq<byte>
  {
    if s == [] then [] else Utf8Char(s[0]) + Utf8(s[1..])
  }

  /** How many bytes the sequence starting with lead byte `b` occupies. */
  function Utf8Length(b: byte): nat
  {
    if b < 0xC0 then 1 else if b < 0xE0 then 2 else if b < 0xF0 then 3 else 4
  }

  /** The scalar value encoded by `b`, one complete UTF-8 sequence. */
  function Utf8CodePoint(b: seq<byte>): int
    requires 1 <= |b| <= 4
  {
    var d: seq<int> := b;
    if |d| == 1 then d[0]
    else if |d| == 2 then (d[0] - 0xC0) * 64 + (d[1] - 0x80)
    else if |d| == 3 then (d[0] - 0xE0) * 4096 + (d[1] - 0x80) * 64 + (d[2] - 0x80)
    else (d[0] - 0xF0) * 262144 + (d[1] - 0x80) * 4096 + (d[2] - 0x80) * 64 + (d[3] - 0x80)
  }

  /** Decodes UTF-8; a truncated sequence or a value that is not a scalar value
      decodes to U+FFFD. */
  function Utf8Decode(b: seq<byte>): string
    decreases |b|
  {
    if b == [] then []
    else
      var k := Utf8Length(b[0]);
      if k > |b| then ['\U{FFFD}']
      else
        var n := Utf8CodePoint(b[..k]);
        var c := if 0 <= n < 0xD800 || 0xE000 <= n < 0x110000 then n as char else '\U{FFFD}';
        [c] + Utf8Decode(b[k..])
  }

  /** One character's bytes start with a lead byte that announces their number
      and decode back to the character. */
  lemma Utf8CharRoundTrip(c: char)
    ensures Utf8Length(Utf8Char(c)[0]) == |Utf8Char(c)|
    ensures Utf8CodePoint(Utf8Char(c)) == c as int
  {
    var n := c as int;
    var q1 := n / 64;
    var q2 := q1 / 64;
    var q3 := q2 / 64;
    assert n == 64 * q1 + n % 64 && q1 == 64 * q2 + q1 % 64 && q2 == 64 * q3 + q2 % 64;
  }

  /** Decoding the UTF-8 bytes of a string gives the string back. */
  lemma {:induction false} Utf8RoundTrip(s: string)
    ensures Utf8Decode(Utf8(s)) == s
  {
    if s != [] {
      var head := Utf8Char(s[0]);
      var b := Utf8(s);
      assert b == head + Utf8(s[1..]);
      Utf8CharRoundTrip(s[0]);
      assert b[0] == head[0] && b[..|head|] == head && b[|head|..] == Utf8(s[1..]);
      Utf8RoundTrip(s[1..]);
    }
  }

  // ---------------------------------------------------------------------------
  // Base 64 (RFC 4648, section 4)

  /** The base 64 alphabet: A-Z, a-z, 0-9, '+', '/'. */
  function Base64Digit(i: int): (c: char)
    requires 0 <= i < 64
  {
    if i < 26 then ('A' as int + i) as char
    else if i < 52 then ('a' as int + i - 26) as char
    else if i < 62 then ('0' as int + i - 52) as char
    else if i == 62 then '+' else '/'
  }

  /** The value of a base 64 digit; anything else counts as 0. */
  function Base64Value(c: char): (i: int)
    ensures 0 <= i < 64
  {
    if 'A' <= c <= 'Z' then c as int - 'A' as int
    else if 'a' <= c <= 'z' then c as int - 'a' as int + 26
    else if '0' <= c <= '9' then c as int - '0' as int + 52
    else if c == '+' then 62
    else if c == '/' then 63
    else 0
  }

  lemma Base64DigitValue(i: int)
    requires 0 <= i < 64
    ensures Base64Value(Base64Digit(i)) == i && Base64Digit(i) != '='
  {
    var c := Base64Digit(i);
    if i < 26 {
      assert c as int == 'A' as int + i;
    } else if i < 52 {
      assert c as int == 'a' as int + i - 26;
    } else if i < 62 {
      assert c as int == '0' as int + i - 52;
    }
  }

  /** The four digits of three bytes. */
  function EncodeGroup(b0: byte, b1: byte, b2: byte): string
  {
    [Base64Digit(b0 / 4), Base64Digit((b0 % 4) * 16 + b1 / 16),
     Base64Digit((b1 % 16) * 4 + b2 / 64), Base64Digit(b2 % 64)]
  }

  /** `Base64.encodeBase64` of `b`, as text: whole groups of three bytes, then
      a last group of one or two bytes padded with '='. */
  function Base64Encode(b: seq<byte>): (r: string)
    ensures |r| == 4 * ((|b| + 2) / 3)
  {
    if |b| == 0 then []
    else if |b| == 1 then [Base64Digit(b[0] / 4), Base64Digit((b[0] % 4) * 16), '=', '=']
    else if |b| == 2 then
      [Base64Digit(b[0] / 4), Base64Digit((b[0] % 4) * 16 + b[1] / 16), Base64Digit((b[1] % 16) * 4), '=']
    else EncodeGroup(b[0], b[1], b[2]) + Base64Encode(b[3..])
  }

  /** The three bytes that four digits stand for. */
  function DecodeGroup(c0: char, c1: char, c2: char, c3: char): (r: seq<byte>)
    ensures |r| == 3
  {
    var v0, v1, v2, v3 := Base64Value(c0), Base64Value(c1), Base64Value(c2), Base64Value(c3);
    [v0 * 4 + v1 / 16, (v1 % 16) * 16 + v2 / 4, (v2 % 4) * 64 + v3]
  }

  /** Decodes base 64 text four digits at a time, dropping the padding. */
  function Base64Decode(s: string): seq<byte>
  {
    if |s| < 4 then []
    else
      var g := DecodeGroup(s[0], s[1], s[2], s[3]);
      if s[2] == '=' then g[..1]
      else if s[3] == '=' then g[..2]
      else g + Base64Decode(s[4..])
  }

  /** Splitting a byte into its high 6 and low 2 bits, or its high 4 and low 4 bits, and
      joining again leaves it unchanged. */
  lemma Bits(b0: byte, b1: byte, b2: byte)
    ensures ((b0 % 4) * 16 + b1 / 16) / 16 == b0 % 4 && ((b0 % 4) * 16 + b1 / 16) % 16 == b1 / 16
    ensures ((b1 % 16) * 4 + b2 / 64) / 4 == b1 % 16 && ((b1 % 16) * 4 + b2 / 64) % 4 == b2 / 64
    ensures (b0 / 4) * 4 + b0 % 4 == b0 && (b1 / 16) * 16 + b1 % 16 == b1 && (b2 / 64) * 64 + b2 % 64 == b2
  {
  }

  /** One whole group of three bytes decodes back from its four digits. */
  lemma GroupRoundTrip(b0: byte, b1: byte, b2: byte)
    ensures var s := EncodeGroup(b0, b1, b2);
      s[2] != '=' && s[3] != '=' && DecodeGroup(s[0], s[1], s[2], s[3]) == [b0, b1, b2]
  {
    Base64DigitValue(b0 / 4);
    Base64DigitValue((b0 % 4) * 16 + b1 / 16);
    Base64DigitValue((b1 % 16) * 4 + b2 / 64);
    Base64DigitValue(b2 % 64);
    Bits(b0, b1, b2);
  }

  /** A last group of one or two bytes decodes back from its padded digits. */
  lemma TailRoundTrip(b: seq<byte>)
    requires 1 <= |b| <= 2
    ensures Base64Decode(Base64Encode(b)) == b
  {
    var b1: byte := if |b| == 2 then b[1] else 0;
    Base64DigitValue(b[0] / 4);
    Base64DigitValue((b[0] % 4) * 16 + b1 / 16);
    Base64DigitValue((b1 % 16) * 4);
    Bits(b[0], b1, 0);
    var s := Base64Encode(b);
    var g := DecodeGroup(s[0], s[1], s[2], s[3]);
    assert g[0] == b[0];
    if |b| == 2 {
      assert g[1] == b[1];
      assert Base64Decode(s) == g[..2];
    } else {
      assert Base64Decode(s) == g[..1];
    }
  }

  /** Three leading bytes encode as one group ahead of the rest. */
  lemma EncodeStep(b: seq<byte>)
    requires |b| >= 3
    ensures Base64Encode(b) == EncodeGroup(b[0], b[1], b[2]) + Base64Encode(b[3..])
  {
  }

  /** The digits of one whole group, ahead of any text, decode to its three bytes
      ahead of what that text decodes to. */
  lemma DecodeStep(b0: byte, b1: byte, b2: byte, rest: string)
    ensures Base64Decode(EncodeGroup(b0, b1, b2) + rest) == [b0, b1, b2] + Base64Decode(rest)
  {
    var g := EncodeGroup(b0, b1, b2);
    GroupRoundTrip(b0, b1, b2);
    var s := g + rest;
    assert s[0] == g[0] && s[1] == g[1] && s[2] == g[2] && s[3] == g[3];
    assert s[4..] == rest;
  }

  /** Decoding the base 64 text of a byte string gives the byte string back. */
  lemma {:induction false} Base64RoundTrip(b: seq<byte>)
    ensures Base64Decode(Base64Encode(b)) == b
  {
    if 1 <= |b| <= 2 {
      TailRoundTrip(b);
    } else if |b| >= 3 {
      Base64RoundTrip(b[3..]);
      RoundTripStep(b, Base64Encode(b[3..]));
    }
  }

  /** If the bytes after the first three come back from their text `e`, the
      whole byte string comes back from its text. */
  lemma RoundTripStep(b: seq<byte>, e: string)
    requires |b| >= 3 && e == Base64Encode(b[3..]) && Base64Decode(e) == b[3..]
    ensures Base64Decode(Base64Encode(b)) == b
  {
    EncodeStep(b);
    DecodeStep(b[0], b[1], b[2], e);
    assert b == [b[0], b[1], b[2]] + b[3..];
  }
}
