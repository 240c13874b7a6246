/** Strict UTF-8: text of Unicode scalar values and its only byte form. */
module Utf8 {
  import opened Messages

  type Byte = b: int | 0 <= b < 256
  type CodePoint = c: int | 0 <= c < 0x110000
  type Text = seq<CodePoint>
  type Bytes = seq<Byte>

  /** A code point that is not a surrogate has a UTF-8 form. */
  predicate Scalar(c: CodePoint) {
    c < 0xD800 || 0xE000 <= c
  }

  predicate Scalars(t: Text) {
    forall c | c in t :: Scalar(c)
  }

  function EncodeChar(c: CodePoint): (b: Bytes)
    ensures 1 <= |b| <= 4
  {
    if c < 0x80 then [c]
    else if c < 0x800 then [0xC0 + c / 64, 0x80 + c % 64]
    else if c < 0x10000 then [0xE0 + c / 4096, 0x80 + c / 64 % 64, 0x80 + c % 64]
    else [0xF0 + c / 262144, 0x80 + c / 4096 % 64, 0x80 + c / 64 % 64, 0x80 + c % 64]
  }

  function EncodeScalars(t: Text): Bytes {
    if |t| == 0 then [] else EncodeChar(t[0]) + EncodeScalars(t[1..])
  }

  /** Encoding fails on a surrogate. */
  function Encode(t: Text): Option<Bytes> {
    if Scalars(t) then Some(EncodeScalars(t)) else None
  }

  predicate Continues(b: Byte) {
    0x80 <= b < 0xC0
  }

  /** The value bits of a byte above a prefix. */
  function Bits(b: Byte, prefix: int): int {
    b as int - prefix
  }

  /** The first code point and its length; overlong forms, surrogates and stray bytes have none. */
  function DecodeChar(b: Bytes): (r: Option<(CodePoint, nat)>)
    ensures r.Some? ==> 1 <= r.value.1 <= |b|
  {
    if |b| == 0 then None
    else if b[0] < 0x80 then Some((b[0], 1))
    else if 0xC2 <= b[0] < 0xE0 then
      if |b| >= 2 && Continues(b[1]) then Some((Bits(b[0], 0xC0) * 64 + Bits(b[1], 0x80), 2)) else None
    else if 0xE0 <= b[0] < 0xF0 then
      if |b| >= 3 && Continues(b[1]) && Continues(b[2]) then
        var c := Bits(b[0], 0xE0) * 4096 + Bits(b[1], 0x80) * 64 + Bits(b[2], 0x80);
        if 0x800 <= c && Scalar(c) then Some((c, 3)) else None
      else None
    else if 0xF0 <= b[0] < 0xF5 then
      if |b| >= 4 && Continues(b[1]) && Continues(b[2]) && Continues(b[3]) then
        var c := Bits(b[0], 0xF0) * 262144 + Bits(b[1], 0x80) * 4096 + Bits(b[2], 0x80) * 64 + Bits(b[3], 0x80);
        if 0x10000 <= c < 0x110000 then Some((c, 4)) else None
      else None
    else None
  }

  function Decode(b: Bytes): Option<Text> {
    if |b| == 0 then Some([])
    else
      var first := DecodeChar(b);
      if first.None? then None
      else
        var rest := Decode(b[first.value.1..]);
        if rest.None? then None else Some([first.value.0] + rest.value)
  }

  lemma DecodeThree(c: CodePoint, rest: Bytes)
    requires Scalar(c) && 0x800 <= c < 0x10000
    ensures DecodeChar(EncodeChar(c) + rest) == Some((c, 3))
  {
    var x, y, z := c / 4096, c / 64 % 64, c % 64;
    var b := EncodeChar(c) + rest;
    assert b[0] == 0xE0 + x && b[1] == 0x80 + y && b[2] == 0x80 + z;
    assert c == x * 4096 + y * 64 + z;
  }

  lemma FourBits(c: CodePoint)
    requires 0x10000 <= c
    ensures var w, x, y, z := c / 262144, c / 4096 % 64, c / 64 % 64, c % 64;
            0 <= w <= 4 && 0 <= x < 64 && 0 <= y < 64 && 0 <= z < 64 && c == w * 262144 + x * 4096 + y * 64 + z
  {
  }

  lemma JoinFour(w: int, x: int, y: int, z: int, c: int, b: Bytes)
    requires 0 <= w <= 4 && 0 <= x < 64 && 0 <= y < 64 && 0 <= z < 64 && c == w * 262144 + x * 4096 + y * 64 + z
    requires 0x10000 <= c < 0x110000 && |b| >= 4
    requires b[0] == 0xF0 + w && b[1] == 0x80 + x && b[2] == 0x80 + y && b[3] == 0x80 + z
    ensures DecodeChar(b) == Some((c, 4))
  {
  }

  lemma DecodeFour(c: CodePoint, rest: Bytes)
    requires 0x10000 <= c
    ensures DecodeChar(EncodeChar(c) + rest) == Some((c, 4))
  {
    var b := EncodeChar(c) + rest;
    assert b[0] == 0xF0 + c / 262144 && b[1] == 0x80 + c / 4096 % 64 && b[2] == 0x80 + c / 64 % 64 && b[3] == 0x80 + c % 64;
    hide DecodeChar, EncodeChar;
    FourBits(c);
    JoinFour(c / 262144, c / 4096 % 64, c / 64 % 64, c % 64, c, b);
  }

  lemma DecodeEncodedChar(c: CodePoint, rest: Bytes)
    requires Scalar(c)
    ensures DecodeChar(EncodeChar(c) + rest) == Some((c, |EncodeChar(c)|))
  {
    var b := EncodeChar(c) + rest;
    if c < 0x80 {
      assert b[0] == c;
    } else if c < 0x800 {
      assert b[0] == 0xC0 + c / 64 && b[1] == 0x80 + c % 64;
    } else if c < 0x10000 {
      DecodeThree(c, rest);
    } else {
      DecodeFour(c, rest);
    }
  }

  lemma EncodeDecodedChar(b: Bytes)
    requires DecodeChar(b).Some?
    ensures Scalar(DecodeChar(b).value.0)
    ensures EncodeChar(DecodeChar(b).value.0) == b[..DecodeChar(b).value.1]
  {
    var (c, n) := DecodeChar(b).value;
    if n == 2 {
      Digit64(Bits(b[0], 0xC0), Bits(b[1], 0x80));
    } else if n == 3 {
      ThreeDigits(Bits(b[0], 0xE0), Bits(b[1], 0x80), Bits(b[2], 0x80));
    } else if n == 4 {
      FourDigits(Bits(b[0], 0xF0), Bits(b[1], 0x80), Bits(b[2], 0x80), Bits(b[3], 0x80));
    }
  }

  lemma Digit64(high: int, low: int)
    requires 0 <= low < 64
    ensures (high * 64 + low) / 64 == high && (high * 64 + low) % 64 == low
  {
  }

  lemma ThreeDigits(x: int, y: int, z: int)
    requires 0 <= x && 0 <= y < 64 && 0 <= z < 64
    ensures var c := x * 4096 + y * 64 + z;
            c / 4096 == x && c / 64 % 64 == y && c % 64 == z && c / 64 == x * 64 + y
  {
    var c := x * 4096 + y * 64 + z;
    assert c == (x * 64 + y) * 64 + z;
    Digit64(x * 64 + y, z);
    Digit64(x, y);
    assert c / 4096 == x;
  }

  lemma FourDigits(w: int, x: int, y: int, z: int)
    requires 0 <= w && 0 <= x < 64 && 0 <= y < 64 && 0 <= z < 64
    ensures var c := w * 262144 + x * 4096 + y * 64 + z;
            c / 262144 == w && c / 4096 % 64 == x && c / 64 % 64 == y && c % 64 == z
  {
    var c := w * 262144 + x * 4096 + y * 64 + z;
    assert c == (w * 64 + x) * 4096 + y * 64 + z;
    ThreeDigits(w * 64 + x, y, z);
    Digit64(w, x);
    assert c / 262144 == w;
  }

  lemma {:induction false} DecodeEncoded(t: Text)
    requires Scalars(t)
    ensures Decode(EncodeScalars(t)) == Some(t)
  {
    if |t| > 0 {
      var first, rest := EncodeChar(t[0]), EncodeScalars(t[1..]);
      DecodeEncodedChar(t[0], rest);
      assert (first + rest)[|first|..] == rest;
      DecodeEncoded(t[1..]);
      assert t == [t[0]] + t[1..];
    }
  }

  lemma {:induction false} EncodeDecoded(b: Bytes)
    requires Decode(b).Some?
    ensures Scalars(Decode(b).value) && EncodeScalars(Decode(b).value) == b
  {
    if |b| > 0 {
      var first := DecodeChar(b).value;
      EncodeDecodedChar(b);
      EncodeDecoded(b[first.1..]);
      var t := Decode(b).value;
      assert t[0] == first.0 && t[1..] == Decode(b[first.1..]).value;
      assert b == b[..first.1] + b[first.1..];
    }
  }

  /** Decoding and encoding are inverse: every accepted byte string is the one form of its text. */
  lemma DecodeIffEncode(b: Bytes, t: Text)
    ensures Decode(b) == Some(t) <==> Encode(t) == Some(b)
  {
    if Decode(b) == Some(t) {
      EncodeDecoded(b);
    }
    if Encode(t) == Some(b) {
      DecodeEncoded(t);
    }
  }
}
