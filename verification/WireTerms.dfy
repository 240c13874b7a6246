/** The byte formats by their own definitions: bits for Base64 and UTF-8, letters for JSON, envelopes and manifests. */
module WireTerms {
  import opened Messages
  import opened Lengths
  import opened Utf8
  import opened Json
  import opened JsonRoundTrip
  import opened Canonical
  import opened Base64
  import opened Envelopes
  import opened ManifestSize
  import A = Apdu
  import T = Timestamps

  // ---------------------------------------------------------------------------------------------
  // Base64: six bits a letter, most significant first (section 4 of RFC 4648)

  /** The bit of weight 1, 2, 4, .. 128 in a byte. */
  function BitIn(b: Byte, weight: nat): (r: int)
    requires weight >= 1
    ensures 0 <= r <= 1
  {
    b / weight % 2
  }

  function Weight(i: int): nat
    requires 0 <= i < 8
    ensures Weight(i) >= 1
  {
    if i == 0 then 128 else if i == 1 then 64 else if i == 2 then 32 else if i == 3 then 16
    else if i == 4 then 8 else if i == 5 then 4 else if i == 6 then 2 else 1
  }

  /** The i-th bit of a byte string; zeros follow its end. */
  function Bit(b: Bytes, i: nat): (r: int)
    ensures 0 <= r <= 1
  {
    if i / 8 < |b| then BitIn(b[i / 8], Weight(i % 8)) else 0
  }

  /** The number six bits write, from bit i on. */
  function Six(b: Bytes, i: nat): (r: int)
    ensures 0 <= r < 64
  {
    32 * Bit(b, i) + 16 * Bit(b, i + 1) + 8 * Bit(b, i + 2) + 4 * Bit(b, i + 3) + 2 * Bit(b, i + 4) + Bit(b, i + 5)
  }

  const UPPER := "ABCDEFGHIJKLMNOPQRSTUVWXYZ"
  const LOWER := "abcdefghijklmnopqrstuvwxyz"

  /** The letter of a number below 64. */
  function LetterOf(x: int): CodePoint
    requires 0 <= x < 64
  {
    (if x < 26 then UPPER[x] else if x < 52 then LOWER[x - 26] else if x < 62 then "0123456789"[x - 52]
     else if x == 62 then '+' else '/') as int
  }

  lemma LetterTerms(x: int)
    requires 0 <= x < 64
    ensures LetterOf(x) == Letter(x)
  {
  }

  lemma HalfStep(a: nat, d: nat)
    requires d >= 1
    ensures a / d == 2 * (a / (2 * d)) + a / d % 2
  {
    var q, r := a / d, a % d;
    var h, e := q / 2, q % 2;
    assert a == d * q + r && d * q == d * (2 * h + e) == 2 * d * h + d * e;
    assert 0 <= d * e + r < 2 * d;
    A.DivUnique(a, 2 * d, h, d * e + r);
  }

  lemma Halves(a: Byte)
    ensures a == 2 * (a / 2) + BitIn(a, 1) && a / 2 == 2 * (a / 4) + BitIn(a, 2) && a / 4 == 2 * (a / 8) + BitIn(a, 4)
    ensures a / 8 == 2 * (a / 16) + BitIn(a, 8) && a / 16 == 2 * (a / 32) + BitIn(a, 16)
    ensures a / 32 == 2 * (a / 64) + BitIn(a, 32) && a / 64 == 2 * (a / 128) + BitIn(a, 64) && a / 128 == BitIn(a, 128)
  {
    HalfStep(a, 1);
    HalfStep(a, 2);
    HalfStep(a, 4);
    HalfStep(a, 8);
    HalfStep(a, 16);
    HalfStep(a, 32);
    HalfStep(a, 64);
  }

  lemma ByteBits(a: Byte)
    ensures a / 4 == 32 * BitIn(a, 128) + 16 * BitIn(a, 64) + 8 * BitIn(a, 32) + 4 * BitIn(a, 16) + 2 * BitIn(a, 8) + BitIn(a, 4)
    ensures a % 4 * 16 == 32 * BitIn(a, 2) + 16 * BitIn(a, 1)
    ensures a / 16 == 8 * BitIn(a, 128) + 4 * BitIn(a, 64) + 2 * BitIn(a, 32) + BitIn(a, 16)
    ensures a % 16 * 4 == 32 * BitIn(a, 8) + 16 * BitIn(a, 4) + 8 * BitIn(a, 2) + 4 * BitIn(a, 1)
    ensures a / 64 == 2 * BitIn(a, 128) + BitIn(a, 64)
    ensures a % 64 == 32 * BitIn(a, 32) + 16 * BitIn(a, 16) + 8 * BitIn(a, 8) + 4 * BitIn(a, 4) + 2 * BitIn(a, 2) + BitIn(a, 1)
  {
    Halves(a);
    hide BitIn;
    assert a % 4 == a - 4 * (a / 4) && a % 16 == a - 16 * (a / 16) && a % 64 == a - 64 * (a / 64);
  }

  lemma BitsShift(b: Bytes, i: nat)
    requires |b| >= 3
    ensures Bit(b, i + 24) == Bit(b[3..], i)
  {
    assert (i + 24) / 8 == i / 8 + 3 && (i + 24) % 8 == i % 8;
  }

  lemma SixShift(b: Bytes, i: nat)
    requires |b| >= 3
    ensures Six(b, i + 24) == Six(b[3..], i)
  {
    BitsShift(b, i);
    BitsShift(b, i + 1);
    BitsShift(b, i + 2);
    BitsShift(b, i + 3);
    BitsShift(b, i + 4);
    BitsShift(b, i + 5);
    hide Bit;
  }

  lemma BitOf(b: Bytes, k: nat, i: int)
    requires 0 <= i < 8
    ensures Bit(b, 8 * k + i) == if k < |b| then BitIn(b[k], Weight(i)) else 0
  {
    assert (8 * k + i) / 8 == k && (8 * k + i) % 8 == i;
  }

  /** The bits of the first three bytes. */
  lemma FirstBits(b: Bytes)
    ensures |b| >= 1 ==> Six(b, 0) == b[0] / 4
    ensures |b| >= 1 ==> Six(b, 6) == b[0] % 4 * 16 + if |b| >= 2 then b[1] / 16 else 0
    ensures |b| >= 2 ==> Six(b, 12) == b[1] % 16 * 4 + if |b| >= 3 then b[2] / 64 else 0
    ensures |b| >= 3 ==> Six(b, 18) == b[2] % 64
  {
    EightBits(b, 0);
    EightBits(b, 1);
    EightBits(b, 2);
    hide Bit;
    if |b| >= 1 {
      ByteBits(b[0]);
    }
    if |b| >= 2 {
      ByteBits(b[1]);
    }
    if |b| >= 3 {
      ByteBits(b[2]);
    }
    hide BitIn;
  }

  lemma EightBits(b: Bytes, k: nat)
    ensures k < |b| ==>
              && Bit(b, 8 * k) == BitIn(b[k], 128) && Bit(b, 8 * k + 1) == BitIn(b[k], 64)
              && Bit(b, 8 * k + 2) == BitIn(b[k], 32) && Bit(b, 8 * k + 3) == BitIn(b[k], 16)
              && Bit(b, 8 * k + 4) == BitIn(b[k], 8) && Bit(b, 8 * k + 5) == BitIn(b[k], 4)
              && Bit(b, 8 * k + 6) == BitIn(b[k], 2) && Bit(b, 8 * k + 7) == BitIn(b[k], 1)
    ensures k >= |b| ==>
              && Bit(b, 8 * k) == 0 && Bit(b, 8 * k + 1) == 0 && Bit(b, 8 * k + 2) == 0 && Bit(b, 8 * k + 3) == 0
              && Bit(b, 8 * k + 4) == 0 && Bit(b, 8 * k + 5) == 0 && Bit(b, 8 * k + 6) == 0 && Bit(b, 8 * k + 7) == 0
  {
    BitOf(b, k, 0);
    BitOf(b, k, 1);
    BitOf(b, k, 2);
    BitOf(b, k, 3);
    BitOf(b, k, 4);
    BitOf(b, k, 5);
    BitOf(b, k, 6);
    BitOf(b, k, 7);
    hide Bit, BitIn;
  }

  /** The letters of the first three bytes, and the rest. */
  lemma FirstLetters(b: Bytes)
    requires |b| >= 1
    ensures |Encoded(b)| >= 4 && Encoded(b)[0] == Letter(b[0] / 4)
    ensures Encoded(b)[1] == Letter(b[0] % 4 * 16 + if |b| >= 2 then b[1] / 16 else 0)
    ensures Encoded(b)[2] == if |b| >= 2 then Letter(b[1] % 16 * 4 + if |b| >= 3 then b[2] / 64 else 0) else PAD
    ensures Encoded(b)[3] == if |b| >= 3 then Letter(b[2] % 64) else PAD
    ensures |b| <= 3 ==> |Encoded(b)| == 4
    ensures |b| >= 3 ==> |Encoded(b)| == 4 + |Encoded(b[3..])|
                         && forall j | 4 <= j < |Encoded(b)| :: Encoded(b)[j] == Encoded(b[3..])[j - 4]
  {
    hide Letter;
    if |b| >= 3 {
      assert Encoded(b) == Triple(b[0], b[1], b[2]) + Encoded(b[3..]);
      if |b| == 3 {
        assert b[3..] == [];
      }
    }
  }

  lemma FirstLettersAreBits(b: Bytes, j: nat)
    requires |b| >= 1 && j < 4
    ensures |Encoded(b)| >= 4
    ensures Encoded(b)[j] == if 6 * j < 8 * |b| then LetterOf(Six(b, 6 * j)) else '=' as int
  {
    hide Six, Encoded, Letter, LetterOf;
    FirstLetters(b);
    FirstBits(b);
    if j == 0 {
      LetterTerms(Six(b, 0));
    } else if j == 1 {
      LetterTerms(Six(b, 6));
    } else if j == 2 {
      LetterTerms(Six(b, 12));
    } else {
      LetterTerms(Six(b, 18));
    }
  }

  /** Four letters for every three bytes begun. */
  lemma {:induction false} EncodedSize(b: Bytes)
    ensures |Encoded(b)| == (|b| + 2) / 3 * 4
    decreases |b|
  {
    hide Letter;
    if |b| >= 3 {
      EncodedSize(b[3..]);
    }
  }

  lemma LaterLetters(b: Bytes, j: nat)
    requires 4 <= j < |Encoded(b)|
    ensures |b| > 3 && j - 4 < |Encoded(b[3..])| && Encoded(b)[j] == Encoded(b[3..])[j - 4]
    ensures Six(b, 6 * j) == Six(b[3..], 6 * (j - 4))
  {
    hide Letter, Six;
    SixShift(b, 6 * (j - 4));
    assert 6 * (j - 4) + 24 == 6 * j;
  }

  /** The j-th letter of an encoding stands for its bits 6j to 6j + 5; '=' fills the last group of four. */
  lemma {:induction false} LettersAreBits(b: Bytes, j: nat)
    requires j < |Encoded(b)|
    ensures |Encoded(b)| == (|b| + 2) / 3 * 4
    ensures Encoded(b)[j] == if 6 * j < 8 * |b| then LetterOf(Six(b, 6 * j)) else '=' as int
    decreases |b|
  {
    EncodedSize(b);
    assert |b| >= 1;
    hide Six, LetterOf, Encoded;
    if j >= 4 {
      LaterLetters(b, j);
      LettersAreBits(b[3..], j - 4);
    } else {
      FirstLettersAreBits(b, j);
    }
  }

  /** A nonce has the same letters, with '-' and '_' for '+' and '/' and no padding (section 5 of RFC 4648). */
  lemma NonceLetters(b: Bytes, j: nat)
    requires |b| == 16 && j < 22
    ensures |NonceText(b)| == 22
    ensures
      var letter := LetterOf(Six(b, 6 * j));
      NonceText(b)[j] == if letter == '+' as int then '-' as int else if letter == '/' as int then '_' as int else letter
  {
    NonceShape(b);
    EncodedSize(b);
    LettersAreBits(b, j);
    var t := NonceText(b);
    assert t[j] in t && Standard(t)[j] == (Standard(t) + [PAD, PAD])[j] == Encoded(b)[j];
    hide NonceText, Encoded, LetterOf, Six;
  }

  // ---------------------------------------------------------------------------------------------
  // UTF-8: six bits a continuation byte (section 3 of RFC 3629)

  /** The bytes of a character, by length and prefix, write its number in groups of six bits. */
  lemma CharBytes(c: CodePoint)
    ensures
      var b := EncodeChar(c);
      && |b| == (if c < 0x80 then 1 else if c < 0x800 then 2 else if c < 0x10000 then 3 else 4)
      && (forall i | 1 <= i < |b| :: 0x80 <= b[i] < 0xC0)
      && (|b| == 1 ==> c == b[0])
      && (|b| == 2 ==> 0xC0 <= b[0] < 0xE0 && c == Bits(b[0], 0xC0) * 64 + Bits(b[1], 0x80))
      && (|b| == 3 ==> 0xE0 <= b[0] < 0xF0 && c == Bits(b[0], 0xE0) * 4096 + Bits(b[1], 0x80) * 64 + Bits(b[2], 0x80))
      && (|b| == 4 ==> 0xF0 <= b[0] < 0xF8
                       && c == Bits(b[0], 0xF0) * 262144 + Bits(b[1], 0x80) * 4096 + Bits(b[2], 0x80) * 64 + Bits(b[3], 0x80))
  {
    if c >= 0x10000 {
      FourBits(c);
    }
  }

  // ---------------------------------------------------------------------------------------------
  // JSON

  /** The order of keys is the order of the first difference, or of length when there is none. */
  lemma {:induction false} LessTerms(a: Text, b: Text)
    ensures Less(a, b) <==>
            exists n: nat :: n <= |a| && n < |b| && a[..n] == b[..n] && (n == |a| || a[n] < b[n])
    decreases |a|
  {
    if |a| > 0 && |b| > 0 && a[0] == b[0] {
      LessTerms(a[1..], b[1..]);
      if n: nat :| n <= |a| && n < |b| && a[..n] == b[..n] && (n == |a| || a[n] < b[n]) {
        assert n > 0;
        assert a[1..][..n - 1] == a[..n][1..] && b[1..][..n - 1] == b[..n][1..];
        assert a[1..][..n - 1] == b[1..][..n - 1] && (n - 1 == |a[1..]| || a[1..][n - 1] < b[1..][n - 1]);
      }
      if Less(a, b) {
        var m: nat :| m <= |a[1..]| && m < |b[1..]| && a[1..][..m] == b[1..][..m] && (m == |a[1..]| || a[1..][m] < b[1..][m]);
        assert a[..m + 1] == [a[0]] + a[1..][..m] && b[..m + 1] == [b[0]] + b[1..][..m];
      }
    } else if |b| > 0 && (|a| == 0 || a[0] < b[0]) {
      assert a[..0] == b[..0];
    } else if n: nat :| n <= |a| && n < |b| && a[..n] == b[..n] && (n == |a| || a[n] < b[n]) {
      if n > 0 {
        assert a[..n][0] == b[..n][0];
      }
    }
  }

  const HEX := "0123456789abcdef"

  /** How each character is written inside quotes. */
  lemma EscapesAre(c: CodePoint)
    ensures EscapedText([c]) ==
            if c == '"' as int then Chars("\\\"")
            else if c == '\\' as int then Chars("\\\\")
            else if c == 8 then Chars("\\b")
            else if c == 9 then Chars("\\t")
            else if c == 10 then Chars("\\n")
            else if c == 12 then Chars("\\f")
            else if c == 13 then Chars("\\r")
            else if c < 32 then Chars("\\u00") + [HEX[c / 16] as int, HEX[c % 16] as int]
            else [c]
  {
    assert EscapedText([c]) == Escaped(c);
  }

  lemma Joined(t: Text, c: CodePoint, rest: Text)
    requires t == [c] + rest
    ensures EscapedText(t) == Escaped(c) + EscapedText(rest)
  {
    assert t[1..] == rest;
  }

  /** The only integers with a wire form are those of 64 bits. */
  lemma NumbersFit(n: int)
    ensures CanonicalBytes(Num(n)).Some? <==> -9_223_372_036_854_775_808 <= n <= 9_223_372_036_854_775_807
  {
    if Valid(Num(n)) {
      var m: nat := if n < 0 then -n else n;
      Nineteen();
      DigitsBelow(m, 19);
      DigitsLength(m);
      hide Power, Digits;
      var t := Decimal(n);
      assert Ascii(t) && 1 <= |t| <= 20;
      EncodedLength(t);
      AsciiIsScalar(t);
    }
  }

  lemma AsciiIsScalar(t: Text)
    requires Ascii(t)
    ensures Scalars(t)
  {
  }

  /** Text that no byte form has: a surrogate by itself. */
  lemma SurrogatesDoNotFit(t: Text)
    requires exists c | c in t :: 0xD800 <= c < 0xE000
    ensures CanonicalBytes(Str(t)).None?
  {
  }

  /** Messages have 1 to 4096 bytes. */
  lemma MessagesFit(data: Bytes, v: Json)
    ensures CanonicalBytes(v) == Some(data) ==> 1 <= |data| <= 4096
    ensures ParseJson(data).Some? ==> 1 <= |data| <= 4096
  {
  }

  // ---------------------------------------------------------------------------------------------
  // Layouts

  lemma {:induction false} AsciiBytes(t: Text)
    requires Ascii(t)
    ensures EncodeScalars(t) == t
  {
    if |t| > 0 {
      assert t[0] in t && forall c | c in t[1..] :: c in t;
      AsciiBytes(t[1..]);
      assert t == [t[0]] + t[1..];
    }
  }

  lemma {:induction false} EncodedIsPlain(b: Bytes)
    ensures Plain(Encoded(b))
    decreases |b|
  {
    if |b| >= 3 {
      EncodedIsPlain(b[3..]);
    }
  }

  lemma Marks()
    ensures Chars("{\"") == [LBRACE, QUOTE] && Chars("\"}") == [QUOTE, RBRACE]
    ensures Chars("\":\"") == [QUOTE, COLON, QUOTE] && Chars("\",\"") == [QUOTE, COMMA, QUOTE]
  {
  }

  lemma PlainMember(key: Text, value: Text)
    requires Plain(key) && Plain(value)
    ensures RenderFields(Member(key, Str(value), NoFields)) == [QUOTE] + key + [QUOTE, COLON, QUOTE] + value + [QUOTE]
  {
    PlainIsUnescaped(key);
    PlainIsUnescaped(value);
    hide EscapedText, Plain;
  }

  lemma TwoMembersText(key: Text, value: Text, rest: Fields)
    requires Plain(key) && Plain(value) && rest.Member?
    ensures RenderFields(Member(key, Str(value), rest)) ==
            [QUOTE] + key + [QUOTE, COLON, QUOTE] + value + [QUOTE] + [COMMA] + RenderFields(rest)
  {
    PlainMember(key, value);
    MemberShape(Member(key, Str(value), rest));
    MemberShape(Member(key, Str(value), NoFields));
    hide RenderFields, Render, Quoted, Plain;
  }

  lemma Spread(key: Text, value: Text, other: Text, text: Text)
    ensures [LBRACE] + ([QUOTE] + key + [QUOTE, COLON, QUOTE] + value + [QUOTE] + [COMMA]
                        + ([QUOTE] + other + [QUOTE, COLON, QUOTE] + text + [QUOTE])) + [RBRACE] ==
            [LBRACE, QUOTE] + key + [QUOTE, COLON, QUOTE] + value + [QUOTE, COMMA, QUOTE] + other + [QUOTE, COLON, QUOTE]
              + text + [QUOTE, RBRACE]
  {
  }

  /** The text of an object with two text members. */
  lemma TwoTexts(key: Text, value: Text, other: Text, text: Text)
    requires Plain(key) && Plain(value) && Plain(other) && Plain(text)
    ensures Render(Obj(Member(key, Str(value), Member(other, Str(text), NoFields)))) ==
            Chars("{\"") + key + Chars("\":\"") + value + Chars("\",\"") + other + Chars("\":\"") + text + Chars("\"}")
  {
    Marks();
    PlainMember(other, text);
    TwoMembersText(key, value, Member(other, Str(text), NoFields));
    Spread(key, value, other, text);
    hide RenderFields, Chars, Plain;
  }

  /** An envelope is an object of two Base64 texts, its payload first. */
  lemma EnvelopeLayout(data: Bytes, signature: Text, checks: Checks, wire: Bytes)
    requires EncodeEnvelope(data, signature, checks) == Some(wire)
    ensures wire == Chars("{\"payload_b64\":\"") + Encoded(data) + Chars("\",\"signature_b64\":\"") + signature + Chars("\"}")
  {
    EncodedSignature(data, signature, checks);
    EncodedIsPlain(data);
    EnvelopeText(data, signature);
    hide *;
    EnvelopeRenders(data, signature, checks, wire);
    AsciiBytes(Render(EnvelopeJson(data, signature)));
  }

  lemma EncodedSignature(data: Bytes, signature: Text, checks: Checks)
    requires EncodeEnvelope(data, signature, checks).Some?
    ensures Plain(signature)
  {
    var b := DecodeBase64(signature).value;
    DecodeIffEncoded(signature, b);
    EncodedIsPlain(b);
    hide DecodeBase64, Encoded, ParsePayload, CanonicalBytes;
  }

  lemma EnvelopeRenders(data: Bytes, signature: Text, checks: Checks, wire: Bytes)
    requires EncodeEnvelope(data, signature, checks) == Some(wire)
    ensures wire == EncodeScalars(Render(EnvelopeJson(data, signature)))
  {
    var v := EnvelopeJson(data, signature);
    EnvelopeJsonIsNormal(data, signature);
    NormalIsFixed(v);
    hide Render, Encoded, DecodeBase64, ParsePayload, EnvelopeJson, EncodeScalars, Normalize, Valid;
  }

  lemma PayloadMark()
    ensures Chars("{\"payload_b64\":\"") == [LBRACE, QUOTE] + PayloadKey() + [QUOTE, COLON, QUOTE]
  {
  }

  lemma SignatureMark()
    ensures Chars("\",\"signature_b64\":\"") == [QUOTE, COMMA, QUOTE] + SignatureKey() + [QUOTE, COLON, QUOTE]
  {
  }

  lemma EnvelopeKeys()
    ensures Plain(PayloadKey()) && Plain(SignatureKey())
  {
  }

  lemma MarksAreAscii(key: Text)
    requires Plain(key)
    ensures Ascii([LBRACE, QUOTE] + key + [QUOTE, COLON, QUOTE]) && Ascii([QUOTE, COMMA, QUOTE] + key + [QUOTE, COLON, QUOTE])
    ensures Ascii([QUOTE, RBRACE])
  {
  }

  lemma EnvelopeMarks()
    ensures Plain(PayloadKey()) && Plain(SignatureKey())
    ensures Chars("{\"payload_b64\":\"") == Chars("{\"") + PayloadKey() + Chars("\":\"")
    ensures Chars("\",\"signature_b64\":\"") == Chars("\",\"") + SignatureKey() + Chars("\":\"")
    ensures Ascii(Chars("{\"payload_b64\":\"")) && Ascii(Chars("\",\"signature_b64\":\"")) && Ascii(Chars("\"}"))
  {
    hide *;
    Marks();
    PayloadMark();
    SignatureMark();
    EnvelopeKeys();
    MarksAreAscii(PayloadKey());
    MarksAreAscii(SignatureKey());
  }

  lemma PlainIsAscii(t: Text)
    requires Plain(t)
    ensures Ascii(t)
  {
  }

  lemma FiveAscii(a: Text, b: Text, c: Text, d: Text, e: Text)
    requires Ascii(a) && Ascii(b) && Ascii(c) && Ascii(d) && Ascii(e)
    ensures Ascii(a + b + c + d + e)
  {
  }

  lemma Regrouped(a: Text, k: Text, m: Text, x: Text, n: Text, l: Text, y: Text, e: Text)
    ensures a + k + m + x + n + l + m + y + e == (a + k + m) + x + (n + l + m) + y + e
  {
  }

  lemma EnvelopeText(data: Bytes, signature: Text)
    requires Plain(signature) && Plain(Encoded(data))
    ensures Ascii(Render(EnvelopeJson(data, signature)))
    ensures Render(EnvelopeJson(data, signature)) ==
            Chars("{\"payload_b64\":\"") + Encoded(data) + Chars("\",\"signature_b64\":\"") + signature + Chars("\"}")
  {
    EnvelopeMarks();
    hide Chars, Plain, Ascii, Render, Encoded, PayloadKey, SignatureKey;
    TwoTexts(PayloadKey(), Encoded(data), SignatureKey(), signature);
    Regrouped(Chars("{\""), PayloadKey(), Chars("\":\""), Encoded(data), Chars("\",\""), SignatureKey(), signature, Chars("\"}"));
    PlainIsAscii(signature);
    PlainIsAscii(Encoded(data));
    FiveAscii(Chars("{\"payload_b64\":\""), Encoded(data), Chars("\",\"signature_b64\":\""), signature, Chars("\"}"));
  }

  /** The number decimal digits write. */
  function Number(t: Text): int {
    if |t| == 0 then 0 else 10 * Number(t[..|t| - 1]) + (t[|t| - 1] - '0' as int)
  }

  /** An integer is written in decimal digits without leading zeros. */
  lemma {:induction false} DigitsAre(n: nat)
    ensures Number(Digits(n)) == n && (forall c | c in Digits(n) :: '0' as int <= c <= '9' as int)
    ensures |Digits(n)| > 1 ==> Digits(n)[0] != '0' as int
    ensures n > 0 ==> Digits(n)[0] != '0' as int
  {
    if n >= 10 {
      DigitsAre(n / 10);
      var t := Digits(n);
      assert t[..|t| - 1] == Digits(n / 10);
    }
  }

  /** One line of a manifest as it is written. */
  function LineText(l: Line): Text {
    Chars("{\"amount_cents\":") + Decimal(l.amount) + Chars(",\"issuance_index\":") + Decimal(l.index)
    + Chars(",\"operation_id\":\"") + l.op + Chars("\",\"receipt_digest\":\"") + l.digest + Chars("\"}")
  }

  function LinesText(lines: seq<Line>): Text {
    if |lines| == 0 then [] else if |lines| == 1 then LineText(lines[0])
    else LineText(lines[0]) + Chars(",") + LinesText(lines[1..])
  }

  lemma AmountMark()
    ensures Chars("{\"amount_cents\":") == [LBRACE, QUOTE] + AmountKey() + [QUOTE, COLON]
  {
  }

  lemma IndexMark()
    ensures Chars(",\"issuance_index\":") == [COMMA, QUOTE] + IndexKey() + [QUOTE, COLON]
  {
  }

  lemma OperationMark()
    ensures Chars(",\"operation_id\":\"") == [COMMA, QUOTE] + OperationKey() + [QUOTE, COLON, QUOTE]
  {
  }

  lemma DigestMark()
    ensures Chars("\",\"receipt_digest\":\"") == [QUOTE, COMMA, QUOTE] + DigestKey() + [QUOTE, COLON, QUOTE]
  {
  }

  lemma NumberMember(key: Text, n: int, rest: Fields)
    requires Plain(key) && rest.Member?
    ensures RenderFields(Member(key, Num(n), rest)) == [QUOTE] + key + [QUOTE, COLON] + Decimal(n) + [COMMA] + RenderFields(rest)
  {
    MemberShape(Member(key, Num(n), rest));
    PlainIsUnescaped(key);
    hide RenderFields, EscapedText, Plain, Decimal;
  }

  lemma LineSpread(a: Text, n: Text, b: Text, m: Text, c: Text, op: Text, d: Text, digest: Text)
    ensures
      [LBRACE] + ([QUOTE] + a + [QUOTE, COLON] + n + [COMMA]
        + ([QUOTE] + b + [QUOTE, COLON] + m + [COMMA]
           + ([QUOTE] + c + [QUOTE, COLON, QUOTE] + op + [QUOTE] + [COMMA]
              + ([QUOTE] + d + [QUOTE, COLON, QUOTE] + digest + [QUOTE])))) + [RBRACE] ==
      ([LBRACE, QUOTE] + a + [QUOTE, COLON]) + n + ([COMMA, QUOTE] + b + [QUOTE, COLON]) + m
      + ([COMMA, QUOTE] + c + [QUOTE, COLON, QUOTE]) + op + ([QUOTE, COMMA, QUOTE] + d + [QUOTE, COLON, QUOTE]) + digest
      + [QUOTE, RBRACE]
  {
  }

  lemma LineLayout(l: Line)
    requires Plain(l.op) && Plain(l.digest)
    ensures Render(Obj(LineFields(l))) == LineText(l)
  {
    KeyLengths();
    Marks();
    AmountMark();
    IndexMark();
    OperationMark();
    DigestMark();
    hide Plain, Chars, RenderFields, Decimal, AmountKey, IndexKey, OperationKey, DigestKey;
    var f3 := Member(DigestKey(), Str(l.digest), NoFields);
    var f2 := Member(OperationKey(), Str(l.op), f3);
    var f1 := Member(IndexKey(), Num(l.index), f2);
    PlainMember(DigestKey(), l.digest);
    TwoMembersText(OperationKey(), l.op, f3);
    NumberMember(IndexKey(), l.index, f2);
    NumberMember(AmountKey(), l.amount, f1);
    LineSpread(AmountKey(), Decimal(l.amount), IndexKey(), Decimal(l.index), OperationKey(), l.op, DigestKey(), l.digest);
  }

  lemma BracketMarks()
    ensures Chars(",") == [COMMA] && Chars("[") == [LBRACKET] && Chars("]") == [RBRACKET]
  {
  }

  lemma {:induction false} ItemsLayout(lines: seq<Line>, index: int)
    requires forall i | 0 <= i < |lines| :: LineFits(lines[i], index + i)
    ensures RenderItems(ManifestItems(lines)) == LinesText(lines)
    decreases |lines|
  {
    hide Chars, LineText, LineFields, LineFits, Render, RenderItems, Plain;
    if |lines| > 0 {
      LineTexts(lines[0], index);
      LineLayout(lines[0]);
      assert forall i | 0 <= i < |lines| - 1 :: LineFits(lines[1..][i], index + 1 + i);
      ItemsLayout(lines[1..], index + 1);
      ItemShape(ManifestItems(lines));
      BracketMarks();
      assert |lines| == 1 ==> ManifestItems(lines[1..]).NoItems?;
    } else {
      NothingRendered();
    }
  }

  lemma NothingRendered()
    ensures RenderItems(NoItems) == []
  {
  }

  /** A manifest is these lines in brackets, with commas between them. */
  lemma ManifestLayout(lines: seq<Line>, data: Bytes)
    requires WellFormed(lines) && ManifestBytes(lines) == Some(data)
    ensures data == Chars("[") + LinesText(lines) + Chars("]")
  {
    var v := Arr(ManifestItems(lines));
    assert forall i | 0 <= i < |lines| :: LineFits(lines[i], 1 + i);
    hide LineFits;
    ItemsLayout(lines, 1);
    ManifestIsNormal(lines);
    NormalIsFixed(v);
    SomeEntries(lines);
    hide RenderItems, LinesText, ManifestItems, Normalize, Valid, EncodeScalars, Ascii;
    BracketMarks();
    hide Chars;
    AsciiBytes(Render(v));
  }

  /** The text of a manifest is ASCII. */
  lemma SomeEntries(lines: seq<Line>)
    requires WellFormed(lines)
    ensures Ascii(Render(Arr(ManifestItems(lines))))
  {
    hide *;
    var entries := seq(|lines|, i requires 0 <= i < |lines| => Entry(lines[i].index, 0, lines[i].amount, Other(0)));
    Numbered(lines, entries);
    RenderedManifest(lines, entries);
  }

  lemma Numbered(lines: seq<Line>, entries: seq<Entry>)
    requires |lines| == |entries|
    requires forall i | 0 <= i < |lines| :: lines[i].index == entries[i].index && lines[i].amount == entries[i].amount
    ensures SameNumbers(lines, entries)
  {
  }

  // ---------------------------------------------------------------------------------------------
  // Timestamps

  /** One two-digit field with its separator, and the rest. */
  lemma FieldFirst(separator: CodePoint, n: nat, rest: Text)
    requires n < 100
    ensures var t := [separator] + (T.Two(n) + rest);
            |t| == 3 + |rest| && t[0] == separator && t[1..3] == T.Two(n) && t[3..] == rest
  {
  }

  lemma Tail(t: Text, n: nat, rest: Text)
    requires n <= |t| && t[n..] == rest
    ensures |t| == n + |rest|
    ensures forall i | 0 <= i < |rest| :: t[n + i] == rest[i]
    ensures forall i, j | 0 <= i <= j <= |rest| :: t[n + i..n + j] == rest[i..j]
  {
    forall i | 0 <= i < |rest|
      ensures t[n + i] == rest[i]
    {
      assert t[n..][i] == t[n + i];
    }
  }

  /** YYYY-MM-DDTHH:MM:SSZ, position by position. */
  lemma TimestampLayout(m: T.Moment)
    requires T.Fits(m)
    ensures
      var t := T.Written(m);
      && |t| == 20 && t[4] == '-' as int && t[7] == '-' as int && t[10] == 'T' as int && t[13] == ':' as int && t[16] == ':' as int
      && t[19] == 'Z' as int
      && Number(t[..4]) == m.year && Number(t[5..7]) == m.month && Number(t[8..10]) == m.day
      && Number(t[11..13]) == m.hour && Number(t[14..16]) == m.minute && Number(t[17..19]) == m.second
  {
    var t := T.Written(m);
    var z: Text := ['Z' as int];
    var second := [0x3A] + (T.Two(m.second) + z);
    var minute := [0x3A] + (T.Two(m.minute) + second);
    var hour := [0x54] + (T.Two(m.hour) + minute);
    var day := [0x2D] + (T.Two(m.day) + hour);
    var month := [0x2D] + (T.Two(m.month) + day);
    assert t == T.Four(m.year) + month;
    T.FourLength(m.year);
    FourDigitsOf(m.year);
    hide T.Written, T.Four, T.Two, Number;
    FieldFirst(0x3A, m.second, z);
    FieldFirst(0x3A, m.minute, second);
    FieldFirst(0x54, m.hour, minute);
    FieldFirst(0x2D, m.day, hour);
    FieldFirst(0x2D, m.month, day);
    Tail(month, 3, day);
    Tail(t, 4, month);
    Tail(t, 7, day);
    Tail(t, 10, hour);
    Tail(t, 13, minute);
    Tail(t, 16, second);
    Tail(t, 19, z);
    TwoDigits(m.month);
    TwoDigits(m.day);
    TwoDigits(m.hour);
    TwoDigits(m.minute);
    TwoDigits(m.second);
    assert t[..4] == T.Four(m.year);
  }

  lemma TwoDigits(n: nat)
    requires n < 100
    ensures Number(T.Two(n)) == n
  {
    var t := T.Two(n);
    assert t[..1] == [t[0]] && Number([t[0]]) == 10 * Number([t[0]][..0]) + (t[0] as int - 0x30);
    assert Number(t) == 10 * Number(t[..1]) + (t[1] as int - 0x30);
  }

  lemma FourDigitsOf(n: nat)
    requires n < 10_000
    ensures Number(T.Four(n)) == n
  {
    var s, t := T.Two(n / 100), T.Two(n % 100);
    TwoDigits(n / 100);
    assert (s + t)[..3] == s + [t[0]] && (s + [t[0]])[..2] == s;
    assert Number(s + t) == 10 * Number(s + [t[0]]) + (t[1] as int - 0x30);
    assert Number(s + [t[0]]) == 10 * Number(s) + (t[0] as int - 0x30);
  }
}
