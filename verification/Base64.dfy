/** Base64 (sections 3.5, 4 and 5 of RFC 4648): a permissive decoder and the check that makes it exact. */
module Base64 {
  import opened Messages
  import opened Utf8

  const PAD: CodePoint := 0x3D

  /** The standard alphabet. */
  function Letter(x: int): CodePoint
    requires 0 <= x < 64
  {
    if x < 26 then 0x41 + x
    else if x < 52 then 0x61 + (x - 26)
    else if x < 62 then 0x30 + (x - 52)
    else if x == 62 then 0x2B
    else 0x2F
  }

  function ValueOf(c: CodePoint): (r: Option<int>)
    ensures r.Some? ==> 0 <= r.value < 64
  {
    if 0x41 <= c <= 0x5A then Some(c as int - 0x41)
    else if 0x61 <= c <= 0x7A then Some(c as int - 0x61 + 26)
    else if 0x30 <= c <= 0x39 then Some(c as int - 0x30 + 52)
    else if c == 0x2B then Some(62)
    else if c == 0x2F then Some(63)
    else None
  }

  function Triple(a: Byte, b: Byte, c: Byte): Text {
    [Letter(a / 4), Letter(a % 4 * 16 + b / 16), Letter(b % 16 * 4 + c / 64), Letter(c % 64)]
  }

  function Encoded(b: Bytes): Text {
    if |b| == 0 then []
    else if |b| == 1 then [Letter(b[0] / 4), Letter(b[0] % 4 * 16), PAD, PAD]
    else if |b| == 2 then [Letter(b[0] / 4), Letter(b[0] % 4 * 16 + b[1] / 16), Letter(b[1] % 16 * 4), PAD]
    else Triple(b[0], b[1], b[2]) + Encoded(b[3..])
  }

  function Emit(x: int): Byte {
    x % 256
  }

  /** The decoder, one character at a time: `quad` characters of a group seen, `left` bits kept. It ignores padding
    inside a group, and the bits a short group leaves over. */
  function Decoded(s: Text, quad: nat, left: int, pads: nat): Option<Bytes>
    requires quad < 4 && left >= 0
  {
    if |s| == 0 then if quad == 0 then Some([]) else None
    else if s[0] == PAD then
      if quad < 2 then Decoded(s[1..], quad, left, pads)
      else if quad + pads + 1 >= 4 then Some([])
      else Decoded(s[1..], quad, left, pads + 1)
    else
      var v := ValueOf(s[0]);
      if v.None? then Decoded(s[1..], quad, left, pads)
      else if quad == 0 then Decoded(s[1..], 1, v.value, 0)
      else
        var rest := if quad == 1 then Decoded(s[1..], 2, v.value % 16, 0)
                    else if quad == 2 then Decoded(s[1..], 3, v.value % 4, 0)
                    else Decoded(s[1..], 0, 0, 0);
        if rest.None? then None
        else
          var byte := if quad == 1 then Emit(left * 4 + v.value / 16)
                      else if quad == 2 then Emit(left * 16 + v.value / 4)
                      else Emit(left * 64 + v.value);
          Some([byte] + rest.value)
  }

  /** Letters, then at most two pads. */
  predicate WellShaped(s: Text) {
    if |s| == 0 then true
    else if s[0] == PAD then |s| == 1 || (|s| == 2 && s[1] == PAD)
    else ValueOf(s[0]).Some? && WellShaped(s[1..])
  }

  /** Decode, and require that encoding again gives the same text. */
  function DecodeBase64(s: Text): Option<Bytes> {
    if |s| == 0 || !WellShaped(s) then None
    else
      var b := Decoded(s, 0, 0, 0);
      if b.None? || Encoded(b.value) != s then None else b
  }

  lemma LetterValue(x: int)
    requires 0 <= x < 64
    ensures ValueOf(Letter(x)) == Some(x) && Letter(x) != PAD
  {
  }

  /** One letter decoded. */
  lemma DecodedLetter(x: int, rest: Text, quad: nat, left: int)
    requires 0 <= x < 64 && quad < 4 && left >= 0
    ensures quad == 0 ==> Decoded([Letter(x)] + rest, 0, left, 0) == Decoded(rest, 1, x, 0)
    ensures quad == 1 && Decoded(rest, 2, x % 16, 0).Some? ==>
              Decoded([Letter(x)] + rest, 1, left, 0) == Some([Emit(left * 4 + x / 16)] + Decoded(rest, 2, x % 16, 0).value)
    ensures quad == 2 && Decoded(rest, 3, x % 4, 0).Some? ==>
              Decoded([Letter(x)] + rest, 2, left, 0) == Some([Emit(left * 16 + x / 4)] + Decoded(rest, 3, x % 4, 0).value)
    ensures quad == 3 && Decoded(rest, 0, 0, 0).Some? ==>
              Decoded([Letter(x)] + rest, 3, left, 0) == Some([Emit(left * 64 + x)] + Decoded(rest, 0, 0, 0).value)
    ensures WellShaped(rest) ==> WellShaped([Letter(x)] + rest)
  {
    LetterValue(x);
    var s := [Letter(x)] + rest;
    assert s[0] == Letter(x) && s[1..] == rest;
    hide Letter, ValueOf, Emit;
  }

  lemma Spread(w: Text, x: Text, y: Text, z: Text, rest: Text)
    ensures w + x + y + z + rest == w + (x + (y + (z + rest)))
  {
  }

  lemma TripleBits(a: Byte, b: Byte, c: Byte)
    ensures var w, x, y, z := a / 4, a % 4 * 16 + b / 16, b % 16 * 4 + c / 64, c % 64;
            && 0 <= w < 64 && 0 <= x < 64 && 0 <= y < 64 && 0 <= z < 64
            && Emit(w * 4 + x / 16) == a && Emit(x % 16 * 16 + y / 4) == b && Emit(y % 4 * 64 + z) == c
  {
  }

  lemma DecodedTriple(a: Byte, b: Byte, c: Byte, rest: Text)
    requires Decoded(rest, 0, 0, 0).Some?
    ensures Decoded(Triple(a, b, c) + rest, 0, 0, 0) == Some([a, b, c] + Decoded(rest, 0, 0, 0).value)
    ensures WellShaped(rest) ==> WellShaped(Triple(a, b, c) + rest)
  {
    TripleBits(a, b, c);
    hide Letter, Emit, Decoded, WellShaped;
    var w, x, y, z := a / 4, a % 4 * 16 + b / 16, b % 16 * 4 + c / 64, c % 64;
    assert Triple(a, b, c) == [Letter(w)] + [Letter(x)] + [Letter(y)] + [Letter(z)];
    Spread([Letter(w)], [Letter(x)], [Letter(y)], [Letter(z)], rest);
    DecodedLetter(z, rest, 3, y % 4);
    DecodedLetter(y, [Letter(z)] + rest, 2, x % 16);
    DecodedLetter(x, [Letter(y)] + ([Letter(z)] + rest), 1, w);
    DecodedLetter(w, [Letter(x)] + ([Letter(y)] + ([Letter(z)] + rest)), 0, 0);
    var tail := Decoded(rest, 0, 0, 0).value;
    assert [a] + ([b] + ([c] + tail)) == [a, b, c] + tail;
  }

  lemma PadEnds(quad: nat, left: int)
    requires 2 <= quad < 4 && left >= 0
    ensures quad == 2 ==> Decoded([PAD, PAD], 2, left, 0) == Some([])
    ensures quad == 3 ==> Decoded([PAD], 3, left, 0) == Some([])
    ensures WellShaped([PAD]) && WellShaped([PAD, PAD])
  {
    assert [PAD, PAD][1..] == [PAD];
  }

  lemma DecodedOne(a: Byte)
    ensures Decoded(Encoded([a]), 0, 0, 0) == Some([a]) && WellShaped(Encoded([a]))
  {
    var w, x := a / 4, a % 4 * 16;
    TripleBits(a, 0, 0);
    PadEnds(2, x % 16);
    hide Letter, Emit, Decoded, WellShaped;
    assert Encoded([a]) == [Letter(w)] + ([Letter(x)] + [PAD, PAD]);
    DecodedLetter(x, [PAD, PAD], 1, w);
    DecodedLetter(w, [Letter(x)] + [PAD, PAD], 0, 0);
    assert [a] == [a] + [];
  }

  lemma DecodedTwo(a: Byte, b: Byte)
    ensures Decoded(Encoded([a, b]), 0, 0, 0) == Some([a, b]) && WellShaped(Encoded([a, b]))
  {
    var w, x, y := a / 4, a % 4 * 16 + b / 16, b % 16 * 4;
    TripleBits(a, b, 0);
    PadEnds(3, y % 4);
    hide Letter, Emit, Decoded, WellShaped;
    assert Encoded([a, b]) == [Letter(w)] + ([Letter(x)] + ([Letter(y)] + [PAD]));
    DecodedLetter(y, [PAD], 2, x % 16);
    DecodedLetter(x, [Letter(y)] + [PAD], 1, w);
    DecodedLetter(w, [Letter(x)] + ([Letter(y)] + [PAD]), 0, 0);
    assert [a, b] == [a] + ([b] + []);
  }

  lemma {:induction false} DecodedEncoded(b: Bytes)
    ensures Decoded(Encoded(b), 0, 0, 0) == Some(b) && WellShaped(Encoded(b))
    ensures |b| > 0 ==> |Encoded(b)| > 0
  {
    if |b| == 0 {
    } else if |b| == 1 {
      assert b == [b[0]];
      DecodedOne(b[0]);
    } else if |b| == 2 {
      assert b == [b[0], b[1]];
      DecodedTwo(b[0], b[1]);
    } else {
      DecodedEncoded(b[3..]);
      DecodedTriple(b[0], b[1], b[2], Encoded(b[3..]));
      assert b == [b[0], b[1], b[2]] + b[3..];
    }
  }

  /** The decoder accepts exactly the nonempty texts the encoder writes, and inverts it. */
  lemma DecodeIffEncoded(s: Text, b: Bytes)
    ensures DecodeBase64(s) == Some(b) <==> |s| > 0 && Encoded(b) == s
  {
    DecodedEncoded(b);
  }

  // ---------------------------------------------------------------------------------------------
  // Nonces

  /** The URL-safe alphabet, and back. */
  function UrlLetter(c: CodePoint): CodePoint {
    if c == 0x2B then 0x2D else if c == 0x2F then 0x5F else c
  }

  function StandardLetter(c: CodePoint): CodePoint {
    if c == 0x2D then 0x2B else if c == 0x5F then 0x2F else c
  }

  predicate UrlSafe(c: CodePoint) {
    0x41 <= c <= 0x5A || 0x61 <= c <= 0x7A || 0x30 <= c <= 0x39 || c == 0x2D || c == 0x5F
  }

  function Url(s: Text): Text {
    seq(|s|, i requires 0 <= i < |s| => UrlLetter(s[i]))
  }

  function Standard(s: Text): Text {
    seq(|s|, i requires 0 <= i < |s| => StandardLetter(s[i]))
  }

  function Unpadded(s: Text): Text {
    if |s| > 0 && s[|s| - 1] == PAD then Unpadded(s[..|s| - 1]) else s
  }

  /** The text of a nonce: unpadded Base64url. */
  function NonceText(b: Bytes): Text {
    Unpadded(Url(Encoded(b)))
  }

  /** 22 characters that stand for 128 bits and are their own canonical form. */
  predicate NonceOk(s: Text) {
    && |s| == 22 && (forall c | c in s :: UrlSafe(c))
    && var b := Decoded(Standard(s) + [PAD, PAD], 0, 0, 0);
    && b.Some? && |b.value| == 16 && NonceText(b.value) == s
  }

  /** Sixteen bytes are five triples and one byte over. */
  lemma {:induction false} SixteenShape(b: Bytes)
    requires |b| % 3 == 1
    ensures |Encoded(b)| == |b| / 3 * 4 + 4
    ensures Encoded(b)[|Encoded(b)| - 2..] == [PAD, PAD]
    ensures forall i | 0 <= i < |Encoded(b)| - 2 :: ValueOf(Encoded(b)[i]).Some?
  {
    if |b| == 1 {
      LetterValue(b[0] / 4);
      LetterValue(b[0] % 4 * 16);
    } else {
      SixteenShape(b[3..]);
      LetterValue(b[0] / 4);
      LetterValue(b[0] % 4 * 16 + b[1] / 16);
      LetterValue(b[1] % 16 * 4 + b[2] / 64);
      LetterValue(b[2] % 64);
      var t, u := Triple(b[0], b[1], b[2]), Encoded(b[3..]);
      assert (t + u)[|t + u| - 2..] == u[|u| - 2..];
    }
  }

  lemma NonceShape(b: Bytes)
    requires |b| == 16
    ensures |NonceText(b)| == 22 && forall c | c in NonceText(b) :: UrlSafe(c)
    ensures Standard(NonceText(b)) + [PAD, PAD] == Encoded(b)
  {
    var e := Encoded(b);
    SixteenShape(b);
    var u := Url(e);
    assert e[22..] == [PAD, PAD] && e[22] == e[22..][0] && e[23] == e[22..][1];
    assert u[23] == PAD && u[..23][22] == PAD && u[..23][..22] == u[..22];
    assert ValueOf(e[21]).Some? && u[..22][21] != PAD;
    assert u[..23][..|u[..23]| - 1] == u[..22] && u[..|u| - 1] == u[..23];
    assert Unpadded(u) == Unpadded(u[..23]);
    assert Unpadded(u[..23]) == Unpadded(u[..22]) == u[..22];
    forall c | c in u[..22]
      ensures UrlSafe(c)
    {
      var i :| 0 <= i < 22 && u[i] == c;
      assert ValueOf(e[i]).Some?;
    }
    forall i | 0 <= i < 22
      ensures StandardLetter(u[i]) == e[i]
    {
      assert ValueOf(e[i]).Some?;
    }
    assert Standard(u[..22]) == e[..22];
    assert e == e[..22] + e[22..];
  }

  /** A nonce is accepted exactly when it is the text of some 16 bytes. */
  lemma NonceIffSixteenBytes(s: Text)
    ensures NonceOk(s) <==> exists b: Bytes :: |b| == 16 && NonceText(b) == s
  {
    if NonceOk(s) {
      var b := Decoded(Standard(s) + [PAD, PAD], 0, 0, 0).value;
      assert |b| == 16 && NonceText(b) == s;
    }
    if b: Bytes :| |b| == 16 && NonceText(b) == s {
      NonceShape(b);
      DecodedEncoded(b);
    }
  }

  /** Different bytes have different nonces. */
  lemma NonceIsUnique(a: Bytes, b: Bytes)
    requires |a| == 16 && |b| == 16 && NonceText(a) == NonceText(b)
    ensures a == b
  {
    NonceShape(a);
    NonceShape(b);
    DecodedEncoded(a);
    DecodedEncoded(b);
  }
}
