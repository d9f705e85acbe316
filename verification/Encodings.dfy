/** Bytes of a text: UTF-8 as TextEncoder and a fatal TextDecoder do it (RFC 3629), and base 16 (RFC 4648, section 8). */
module Encodings {
  import opened Wrappers
  import opened Texts
  import opened JsonText

  type Bytes = seq<Byte>

  const BOM: Bytes := [0xEF, 0xBB, 0xBF]
  const REPLACEMENT: Bytes := [0xEF, 0xBF, 0xBD]

  // ---------------------------------------------------------------- UTF-8

  predicate IsScalar(c: int) {
    0 <= c < 0xD800 || 0xE000 <= c < 0x11_0000
  }

  function EncodeScalar(c: int): Bytes
    requires IsScalar(c)
  {
    if c < 0x80 then [c]
    else if c < 0x800 then [0xC0 + c / 64, 0x80 + c % 64]
    else if c < 0x1_0000 then [0xE0 + c / 4096, 0x80 + c / 64 % 64, 0x80 + c % 64]
    else [0xF0 + c / 0x4_0000, 0x80 + c / 4096 % 64, 0x80 + c / 64 % 64, 0x80 + c % 64]
  }

  function PairValue(high: Unit, low: Unit): int
    requires IsHigh(high) && IsLow(low)
  {
    0x1_0000 + (high - 0xD800) * 1024 + (low - 0xDC00)
  }

  function UnitsOf(c: int): Text
    requires IsScalar(c)
  {
    if c < 0x1_0000 then [c]
    else [0xD800 + (c - 0x1_0000) / 1024, 0xDC00 + (c - 0x1_0000) % 1024]
  }

  /** A lone surrogate is encoded as U+FFFD. */
  function Encode(s: Text): Bytes
    decreases |s|
  {
    if s == [] then []
    else if |s| >= 2 && IsHigh(s[0]) && IsLow(s[1]) then EncodeScalar(PairValue(s[0], s[1])) + Encode(s[2..])
    else if IsSurrogate(s[0]) then REPLACEMENT + Encode(s[1..])
    else EncodeScalar(s[0]) + Encode(s[1..])
  }

  predicate IsTail(b: Byte) {
    0x80 <= b < 0xC0
  }

  /** The six bits of a continuation byte. */
  function Six(b: Byte): int {
    b as int - 0x80
  }

  datatype Lead = Bad | Lead(scalar: int, length: nat)

  /** The scalar value at the start of the bytes; overlong forms, surrogates and values beyond U+10FFFF are errors. */
  function DecodeScalar(b: Bytes): (r: Lead)
    ensures r.Lead? ==> 0 < r.length <= |b| && IsScalar(r.scalar)
  {
    if b == [] then Bad
    else if b[0] < 0x80 then Lead(b[0], 1)
    else if 0xC0 <= b[0] < 0xE0 && |b| >= 2 && IsTail(b[1]) then
      var c := (b[0] as int - 0xC0) * 64 + Six(b[1]);
      if c >= 0x80 then Lead(c, 2) else Bad
    else if 0xE0 <= b[0] < 0xF0 && |b| >= 3 && IsTail(b[1]) && IsTail(b[2]) then
      var c := (b[0] as int - 0xE0) * 4096 + Six(b[1]) * 64 + Six(b[2]);
      if c >= 0x800 && IsScalar(c) then Lead(c, 3) else Bad
    else if 0xF0 <= b[0] < 0xF8 && |b| >= 4 && IsTail(b[1]) && IsTail(b[2]) && IsTail(b[3]) then
      var c := (b[0] as int - 0xF0) * 0x4_0000 + Six(b[1]) * 4096 + Six(b[2]) * 64 + Six(b[3]);
      if c >= 0x1_0000 && IsScalar(c) then Lead(c, 4) else Bad
    else Bad
  }

  function DecodeAll(b: Bytes): Option<Text>
    decreases |b|
  {
    if b == [] then Some([])
    else
      var lead := DecodeScalar(b);
      if lead.Bad? then None
      else
        var rest := DecodeAll(b[lead.length..]);
        if rest.None? then None else Some(UnitsOf(lead.scalar) + rest.value)
  }

  /** A fatal TextDecoder also drops a byte order mark. */
  function Decode(b: Bytes): Option<Text> {
    if BOM <= b then DecodeAll(b[3..]) else DecodeAll(b)
  }

  lemma ScalarInverse(c: int, rest: Bytes)
    requires IsScalar(c)
    ensures DecodeScalar(EncodeScalar(c) + rest) == Lead(c, |EncodeScalar(c)|)
  {
    var b := EncodeScalar(c) + rest;
    if 0x80 <= c < 0x800 {
      TwoBytes(c, b);
    } else if 0x800 <= c < 0x1_0000 {
      ThreeBytes(c, b);
    } else if c >= 0x1_0000 {
      FourBytes(c, b);
    }
  }

  lemma TwoBytes(c: int, b: Bytes)
    requires 0x80 <= c < 0x800 && EncodeScalar(c) <= b
    ensures DecodeScalar(b) == Lead(c, 2)
  {
    assert b[0] == EncodeScalar(c)[0] && b[1] == EncodeScalar(c)[1];
    assert c == c / 64 * 64 + c % 64;
  }

  lemma Sextets(c: int)
    requires 0 <= c
    ensures c == c / 4096 * 4096 + c / 64 % 64 * 64 + c % 64
    ensures c / 4096 == c / 0x4_0000 * 64 + c / 4096 % 64
  {
    assert c / 64 / 64 == c / 4096;
    assert c / 4096 / 64 == c / 0x4_0000;
  }

  lemma ThreeBytes(c: int, b: Bytes)
    requires 0x800 <= c < 0x1_0000 && IsScalar(c) && EncodeScalar(c) <= b
    ensures DecodeScalar(b) == Lead(c, 3)
  {
    assert b[0] == EncodeScalar(c)[0] && b[1] == EncodeScalar(c)[1] && b[2] == EncodeScalar(c)[2];
    Sextets(c);
  }

  lemma FourBytes(c: int, b: Bytes)
    requires 0x1_0000 <= c < 0x11_0000 && EncodeScalar(c) <= b
    ensures DecodeScalar(b) == Lead(c, 4)
  {
    var e := EncodeScalar(c);
    assert b[0] == e[0] && b[1] == e[1] && b[2] == e[2] && b[3] == e[3];
    Sextets(c);
  }

  lemma UnitsInverse(high: Unit, low: Unit)
    requires IsHigh(high) && IsLow(low)
    ensures IsScalar(PairValue(high, low)) && UnitsOf(PairValue(high, low)) == [high, low]
  {
  }

  lemma DecodeStep(c: int, rest: Bytes)
    requires IsScalar(c) && DecodeAll(rest).Some?
    ensures DecodeAll(EncodeScalar(c) + rest) == Some(UnitsOf(c) + DecodeAll(rest).value)
  {
    ScalarInverse(c, rest);
    assert (EncodeScalar(c) + rest)[|EncodeScalar(c)|..] == rest;
  }

  /** Decoding inverts encoding on texts without lone surrogates. */
  lemma {:induction false} DecodeEncode(s: Text)
    requires WellFormed(s)
    ensures DecodeAll(Encode(s)) == Some(s)
    decreases |s|
  {
    if s != [] {
      if IsHigh(s[0]) {
        DecodeEncode(s[2..]);
        UnitsInverse(s[0], s[1]);
        DecodeStep(PairValue(s[0], s[1]), Encode(s[2..]));
        assert [s[0], s[1]] + s[2..] == s;
      } else {
        DecodeEncode(s[1..]);
        DecodeStep(s[0], Encode(s[1..]));
        assert [s[0]] + s[1..] == s;
      }
    }
  }

  lemma Split64(x: int, y: int)
    requires 0 <= y < 64
    ensures (x * 64 + y) / 64 == x && (x * 64 + y) % 64 == y
  {
  }

  lemma TwoBack(b: Bytes)
    requires DecodeScalar(b).Lead? && DecodeScalar(b).length == 2
    ensures EncodeScalar(DecodeScalar(b).scalar) == b[..2]
  {
    Split64(b[0] as int - 0xC0, Six(b[1]));
  }

  lemma ThreeBack(b: Bytes)
    requires DecodeScalar(b).Lead? && DecodeScalar(b).length == 3
    ensures EncodeScalar(DecodeScalar(b).scalar) == b[..3]
  {
    var c, x := DecodeScalar(b).scalar, b[0] as int - 0xE0;
    Split64(x * 64 + Six(b[1]), Six(b[2]));
    Split64(x, Six(b[1]));
    assert c == (x * 64 + Six(b[1])) * 64 + Six(b[2]);
    Sextets(c);
    assert c / 4096 == c / 64 / 64;
  }

  lemma FourBack(b: Bytes)
    requires DecodeScalar(b).Lead? && DecodeScalar(b).length == 4
    ensures EncodeScalar(DecodeScalar(b).scalar) == b[..4]
  {
    var c, x := DecodeScalar(b).scalar, b[0] as int - 0xF0;
    var y := x * 64 + Six(b[1]);
    var z := y * 64 + Six(b[2]);
    Split64(z, Six(b[3]));
    Split64(y, Six(b[2]));
    Split64(x, Six(b[1]));
    assert c == z * 64 + Six(b[3]);
    assert c / 4096 == c / 64 / 64 && c / 0x4_0000 == c / 4096 / 64;
  }

  /** A decoded scalar value has only the encoding it came from. */
  lemma ScalarBack(b: Bytes)
    requires DecodeScalar(b).Lead?
    ensures EncodeScalar(DecodeScalar(b).scalar) == b[..DecodeScalar(b).length]
  {
    match DecodeScalar(b).length
    case 2 => TwoBack(b);
    case 3 => ThreeBack(b);
    case 4 => FourBack(b);
    case _ =>
  }

  lemma UnitsEncode(c: int, rest: Text)
    requires IsScalar(c) && WellFormed(rest)
    ensures WellFormed(UnitsOf(c) + rest) && Encode(UnitsOf(c) + rest) == EncodeScalar(c) + Encode(rest)
  {
    var s := UnitsOf(c) + rest;
    if c < 0x1_0000 {
      assert s[1..] == rest;
    } else {
      assert s[2..] == rest;
    }
  }

  lemma DecodeFirst(b: Bytes) returns (c: int, head: Bytes, tail: Bytes)
    requires b != [] && DecodeAll(b).Some?
    ensures IsScalar(c) && head == EncodeScalar(c) && head != [] && b == head + tail && DecodeAll(tail).Some?
    ensures DecodeAll(b).value == UnitsOf(c) + DecodeAll(tail).value
  {
    var lead := DecodeScalar(b);
    ScalarBack(b);
    c, head, tail := lead.scalar, b[..lead.length], b[lead.length..];
  }

  /** The bytes of an accepted text are determined by the text. */
  lemma {:induction false} EncodeDecode(b: Bytes)
    requires DecodeAll(b).Some?
    ensures WellFormed(DecodeAll(b).value) && Encode(DecodeAll(b).value) == b
    decreases |b|
  {
    if b != [] {
      var c, head, tail := DecodeFirst(b);
      EncodeDecode(tail);
      UnitsEncode(c, DecodeAll(tail).value);
    }
  }

  // ---------------------------------------------------------------- base 16

  function HexEncode(b: Bytes): Text {
    if b == [] then [] else [HexDigit(b[0] / 16), HexDigit(b[0] % 16)] + HexEncode(b[1..])
  }

  /** Pairs of hexadecimal digits of either case; `None` for anything else. */
  function HexDecode(t: Text): Option<Bytes> {
    if t == [] then Some([])
    else if |t| == 1 || HexValue(t[0]) < 0 || HexValue(t[1]) < 0 then None
    else
      var rest := HexDecode(t[2..]);
      if rest.None? then None else Some([HexValue(t[0]) * 16 + HexValue(t[1])] + rest.value)
  }

  lemma HexByte(x: Byte)
    ensures HexValue(HexDigit(x / 16)) * 16 + HexValue(HexDigit(x % 16)) == x
    ensures HexValue(HexDigit(x / 16)) >= 0 && HexValue(HexDigit(x % 16)) >= 0
  {
    assert HexValue(HexDigit(x / 16)) == x / 16 && HexValue(HexDigit(x % 16)) == x % 16;
  }

  lemma {:induction false} HexRoundTrip(b: Bytes)
    ensures HexDecode(HexEncode(b)) == Some(b)
  {
    if b != [] {
      var t := HexEncode(b);
      HexRoundTrip(b[1..]);
      HexByte(b[0]);
      assert t[2..] == HexEncode(b[1..]);
      assert [b[0]] + b[1..] == b;
    }
  }
}
