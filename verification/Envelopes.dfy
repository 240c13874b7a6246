/** Signed envelopes and closure manifests as bytes. */
module Envelopes {
  import opened Messages
  import opened Utf8
  import opened Json
  import opened JsonRoundTrip
  import opened Canonical
  import opened Base64

  // ---------------------------------------------------------------------------------------------
  // Envelopes

  /** The original payload bytes travel with their decoded value and the signature text. */
  datatype SignedEnvelope = SignedEnvelope(payloadBytes: Bytes, payload: Json, signature: Text)

  /** The checks on a payload's fields and on the DER form of a signature, which are not part of this model. */
  datatype Checks = Checks(payload: Json -> bool, signature: Bytes -> bool)

  function PayloadKey(): Text { Chars("payload_b64") }

  function SignatureKey(): Text { Chars("signature_b64") }

  function ParsePayload(data: Bytes, checks: Checks): Option<Json> {
    var v := ParseJson(data);
    if v.None? || !checks.payload(v.value) then None else v
  }

  predicate SignatureFits(s: Text, checks: Checks) {
    DecodeBase64(s).Some? && checks.signature(DecodeBase64(s).value)
  }

  function EnvelopeJson(data: Bytes, signature: Text): Json {
    Obj(Member(PayloadKey(), Str(Encoded(data)), Member(SignatureKey(), Str(signature), NoFields)))
  }

  /** The wire form of a payload and its signature, when both are valid and the whole fits. */
  function EncodeEnvelope(data: Bytes, signature: Text, checks: Checks): Option<Bytes> {
    if ParsePayload(data, checks).None? || !SignatureFits(signature, checks) then None
    else CanonicalBytes(EnvelopeJson(data, signature))
  }

  function ParseEnvelope(wire: Bytes, checks: Checks): Option<SignedEnvelope> {
    var v := ParseJson(wire);
    if v.None? || !v.value.Obj? || Keys(v.value.fields) != {PayloadKey(), SignatureKey()} then None
    else
      var payload, signature := Find(v.value.fields, PayloadKey()), Find(v.value.fields, SignatureKey());
      if !payload.Str? || !signature.Str? then None
      else
        var data := DecodeBase64(payload.text);
        if data.None? || !SignatureFits(signature.text, checks) then None
        else
          var parsed := ParsePayload(data.value, checks);
          if parsed.None? then None else Some(SignedEnvelope(data.value, parsed.value, signature.text))
  }

  lemma KeysDiffer()
    ensures Less(PayloadKey(), SignatureKey()) && PayloadKey() != SignatureKey()
    ensures Scalars(PayloadKey()) && Scalars(SignatureKey())
  {
    assert PayloadKey()[0] == 0x70 && SignatureKey()[0] == 0x73;
  }

  lemma EnvelopeJsonIsNormal(data: Bytes, signature: Text)
    ensures Dict(EnvelopeJson(data, signature)) && Normal(EnvelopeJson(data, signature))
    ensures Keys(EnvelopeJson(data, signature).fields) == {PayloadKey(), SignatureKey()}
    ensures Find(EnvelopeJson(data, signature).fields, PayloadKey()) == Str(Encoded(data))
    ensures Find(EnvelopeJson(data, signature).fields, SignatureKey()) == Str(signature)
  {
    KeysDiffer();
    hide PayloadKey, SignatureKey;
    var last := Member(SignatureKey(), Str(signature), NoFields);
    LastMember(SignatureKey(), signature);
    var both := Member(PayloadKey(), Str(Encoded(data)), last);
    assert Keys(both) == {PayloadKey(), SignatureKey()};
    assert Unique(both) && DictFields(both) && Sorted(both) && NormalFields(both);
  }

  lemma LastMember(key: Text, text: Text)
    ensures var f := Member(key, Str(text), NoFields);
            Keys(f) == {key} && Unique(f) && DictFields(f) && Sorted(f) && NormalFields(f)
  {
    assert Unique(NoFields) && DictFields(NoFields) && Sorted(NoFields) && NormalFields(NoFields);
  }

  /** Parsing an encoded envelope returns the original payload bytes and signature text. */
  lemma ParseEncoded(data: Bytes, signature: Text, checks: Checks, wire: Bytes)
    requires EncodeEnvelope(data, signature, checks) == Some(wire)
    ensures ParseEnvelope(wire, checks) == Some(SignedEnvelope(data, ParsePayload(data, checks).value, signature))
  {
    var v := EnvelopeJson(data, signature);
    EnvelopeJsonIsNormal(data, signature);
    NormalIsFixed(v);
    ParsePrinted(v, wire);
    NonemptyEncodes(data);
    DecodeIffEncoded(Encoded(data), data);
    hide ParseJson, CanonicalBytes, DecodeBase64, Encoded, PayloadKey, SignatureKey, EnvelopeJson, SignatureFits, ParsePayload;
    assert v.Obj? by { EnvelopeIsObject(data, signature); }
  }

  lemma EnvelopeIsObject(data: Bytes, signature: Text)
    ensures EnvelopeJson(data, signature).Obj?
  {
  }

  lemma NonemptyEncodes(data: Bytes)
    ensures |data| > 0 ==> |Encoded(data)| > 0
  {
    DecodedEncoded(data);
  }

  /** A sorted object with exactly these two members is the envelope of their texts. */
  lemma TwoMembers(f: Fields, payload: Text, signature: Text)
    requires Sorted(f) && Unique(f) && Keys(f) == {PayloadKey(), SignatureKey()}
    requires Find(f, PayloadKey()) == Str(payload) && Find(f, SignatureKey()) == Str(signature)
    ensures f == Member(PayloadKey(), Str(payload), Member(SignatureKey(), Str(signature), NoFields))
  {
    KeysDiffer();
    hide PayloadKey, SignatureKey;
    var last := Member(SignatureKey(), Str(signature), NoFields);
    var g := Member(PayloadKey(), Str(payload), last);
    assert Keys(last) == {SignatureKey()} && Sorted(last) && Unique(last);
    assert Keys(g) == {PayloadKey(), SignatureKey()} && Sorted(g) && Unique(g);
    SortedIsUnique(f, g);
  }

  /** Every accepted envelope is the encoding of what was parsed from it. */
  lemma EncodeParsed(wire: Bytes, checks: Checks)
    requires ParseEnvelope(wire, checks).Some?
    ensures var e := ParseEnvelope(wire, checks).value; EncodeEnvelope(e.payloadBytes, e.signature, checks) == Some(wire)
  {
    var e, v := ParseEnvelope(wire, checks).value, ParseJson(wire).value;
    PrintParsed(wire);
    var payload := Find(v.fields, PayloadKey()).text;
    DecodeIffEncoded(payload, e.payloadBytes);
    hide ParseJson, CanonicalBytes, DecodeBase64, Encoded, PayloadKey, SignatureKey, SignatureFits, ParsePayload;
    TwoMembers(v.fields, payload, e.signature);
  }

  // ---------------------------------------------------------------------------------------------
  // Manifests

  /** One line of a closure manifest. */
  datatype Line = Line(index: int, op: Text, amount: int, digest: Text)

  predicate LowerHex(c: CodePoint) {
    0x30 <= c <= 0x39 || 0x61 <= c <= 0x66
  }

  predicate IsDigest(t: Text) {
    |t| == 64 && forall c | c in t :: LowerHex(c)
  }

  /** The canonical text of a version 4 UUID. */
  predicate IsUuid4(t: Text) {
    && |t| == 36 && t[8] == MINUS && t[13] == MINUS && t[18] == MINUS && t[23] == MINUS
    && (forall i | 0 <= i < 36 && i != 8 && i != 13 && i != 18 && i != 23 :: LowerHex(t[i]))
    && t[14] == 0x34 && (t[19] == 0x38 || t[19] == 0x39 || t[19] == 0x61 || t[19] == 0x62)
  }

  predicate LineFits(l: Line, index: int) {
    l.index == index && 1 <= index <= MAX_INT64 && IsUuid4(l.op) && 1 <= l.amount <= MAX_INT64 && IsDigest(l.digest)
  }

  /** Consecutive indices from one, valid fields, no operation twice. */
  predicate WellFormed(lines: seq<Line>) {
    && (forall i | 0 <= i < |lines| :: LineFits(lines[i], i + 1))
    && (forall i, j | 0 <= i < j < |lines| :: lines[i].op != lines[j].op)
  }

  function AmountKey(): Text { Chars("amount_cents") }

  function IndexKey(): Text { Chars("issuance_index") }

  function OperationKey(): Text { Chars("operation_id") }

  function DigestKey(): Text { Chars("receipt_digest") }

  function LineFields(l: Line): Fields {
    Member(AmountKey(), Num(l.amount), Member(IndexKey(), Num(l.index),
      Member(OperationKey(), Str(l.op), Member(DigestKey(), Str(l.digest), NoFields))))
  }

  function ManifestItems(lines: seq<Line>): Items {
    if |lines| == 0 then NoItems else Item(Obj(LineFields(lines[0])), ManifestItems(lines[1..]))
  }

  /** The manifest a wallet writes. */
  function ManifestBytes(lines: seq<Line>): Option<Bytes> {
    CanonicalBytes(Arr(ManifestItems(lines)))
  }

  lemma FieldNames()
    ensures Less(AmountKey(), IndexKey()) && Less(IndexKey(), OperationKey()) && Less(OperationKey(), DigestKey())
    ensures Less(AmountKey(), OperationKey()) && Less(AmountKey(), DigestKey()) && Less(IndexKey(), DigestKey())
    ensures Scalars(AmountKey()) && Scalars(IndexKey()) && Scalars(OperationKey()) && Scalars(DigestKey())
    ensures |{AmountKey(), IndexKey(), OperationKey(), DigestKey()}| == 4
  {
    assert AmountKey()[0] == 0x61 && IndexKey()[0] == 0x69 && OperationKey()[0] == 0x6F && DigestKey()[0] == 0x72;
  }

  lemma KeysDistinct()
    ensures AmountKey() != IndexKey() && AmountKey() != OperationKey() && AmountKey() != DigestKey()
    ensures IndexKey() != OperationKey() && IndexKey() != DigestKey() && OperationKey() != DigestKey()
  {
    assert AmountKey()[0] == 0x61 && IndexKey()[0] == 0x69 && OperationKey()[0] == 0x6F && DigestKey()[0] == 0x72;
  }

  lemma LineIsNormal(l: Line)
    ensures Keys(LineFields(l)) == {AmountKey(), IndexKey(), OperationKey(), DigestKey()}
    ensures Unique(LineFields(l)) && Sorted(LineFields(l)) && DictFields(LineFields(l)) && NormalFields(LineFields(l))
    ensures Find(LineFields(l), AmountKey()) == Num(l.amount) && Find(LineFields(l), IndexKey()) == Num(l.index)
    ensures Find(LineFields(l), OperationKey()) == Str(l.op) && Find(LineFields(l), DigestKey()) == Str(l.digest)
  {
    FieldNames();
    KeysDistinct();
    hide AmountKey, IndexKey, OperationKey, DigestKey;
    var f3 := Member(DigestKey(), Str(l.digest), NoFields);
    var f2 := Member(OperationKey(), Str(l.op), f3);
    var f1 := Member(IndexKey(), Num(l.index), f2);
    assert Keys(f3) == {DigestKey()} && Unique(f3) && Sorted(f3) && DictFields(f3) && NormalFields(f3);
    assert Keys(f2) == {OperationKey(), DigestKey()} && Unique(f2) && Sorted(f2) && DictFields(f2) && NormalFields(f2);
    assert Keys(f1) == {IndexKey(), OperationKey(), DigestKey()} && Unique(f1) && Sorted(f1) && DictFields(f1) && NormalFields(f1);
    assert Find(f2, DigestKey()) == Find(f3, DigestKey());
    assert Find(f1, OperationKey()) == Find(f2, OperationKey()) && Find(f1, DigestKey()) == Find(f2, DigestKey());
  }

  /** A sorted object with exactly the fields of a manifest line is that line. */
  lemma FourMembers(f: Fields, l: Line)
    requires Sorted(f) && Unique(f) && Keys(f) == {AmountKey(), IndexKey(), OperationKey(), DigestKey()}
    requires Find(f, AmountKey()) == Num(l.amount) && Find(f, IndexKey()) == Num(l.index)
    requires Find(f, OperationKey()) == Str(l.op) && Find(f, DigestKey()) == Str(l.digest)
    ensures f == LineFields(l)
  {
    LineIsNormal(l);
    hide AmountKey, IndexKey, OperationKey, DigestKey, LineFields;
    SortedIsUnique(f, LineFields(l));
  }

  /** One entry of a parsed manifest, checked field by field. */
  function ParseLine(v: Json, index: int): Option<Line> {
    if !v.Obj? || Keys(v.fields) != {AmountKey(), IndexKey(), OperationKey(), DigestKey()} then None
    else
      var number, op := Find(v.fields, IndexKey()), Find(v.fields, OperationKey());
      var amount, digest := Find(v.fields, AmountKey()), Find(v.fields, DigestKey());
      if (&& number.Num? && 1 <= number.n <= MAX_INT64 && number.n == index && op.Str? && IsUuid4(op.text)
          && amount.Num? && 1 <= amount.n <= MAX_INT64 && digest.Str? && IsDigest(digest.text)) then
        Some(Line(number.n, op.text, amount.n, digest.text))
      else None
  }

  lemma ParseLineIff(v: Json, index: int, l: Line)
    requires Dict(v) && Normal(v)
    ensures ParseLine(v, index) == Some(l) <==> v == Obj(LineFields(l)) && LineFits(l, index)
  {
    LineIsNormal(l);
    KeysDistinct();
    hide AmountKey, IndexKey, OperationKey, DigestKey, LineFields, IsUuid4, IsDigest;
    if ParseLine(v, index) == Some(l) {
      FourMembers(v.fields, l);
    }
  }

  lemma {:induction false} ManifestIsNormal(lines: seq<Line>)
    ensures DictItems(ManifestItems(lines)) && NormalItems(ManifestItems(lines))
  {
    if |lines| > 0 {
      LineIsNormal(lines[0]);
      ManifestIsNormal(lines[1..]);
    }
  }

  lemma {:induction false} ManifestAppend(lines: seq<Line>, l: Line, rest: Items)
    ensures AppendItems(ManifestItems(lines), Item(Obj(LineFields(l)), rest)) ==
            AppendItems(ManifestItems(lines + [l]), rest)
  {
    hide LineFields;
    if |lines| == 0 {
      assert lines + [l] == [l];
      assert [l][1..] == [];
    } else {
      assert (lines + [l])[1..] == lines[1..] + [l];
      ManifestAppend(lines[1..], l, rest);
    }
  }

  function AppendItems(items: Items, others: Items): Items {
    if items.NoItems? then others else Item(items.head, AppendItems(items.tail, others))
  }

  lemma {:induction false} AppendNothing(items: Items)
    ensures AppendItems(items, NoItems) == items
  {
    if items.Item? {
      AppendNothing(items.tail);
    }
  }

  lemma {:induction false} ManifestItemsInjective(lines: seq<Line>, others: seq<Line>)
    requires ManifestItems(lines) == ManifestItems(others)
    ensures lines == others
  {
    hide AmountKey, IndexKey, OperationKey, DigestKey;
    if |lines| > 0 {
      assert |others| > 0;
      ManifestItemsInjective(lines[1..], others[1..]);
      assert lines[0] == others[0];
      assert lines == [lines[0]] + lines[1..] && others == [others[0]] + others[1..];
    } else {
      assert |others| == 0;
    }
  }

  function Operations(lines: seq<Line>): set<Text> {
    set i | 0 <= i < |lines| :: lines[i].op
  }

  lemma OperationsAppend(lines: seq<Line>, l: Line)
    ensures Operations(lines + [l]) == Operations(lines) + {l.op}
  {
    var more := lines + [l];
    assert more[|lines|] == l;
    forall op | op in Operations(lines)
      ensures op in Operations(more)
    {
      var i :| 0 <= i < |lines| && lines[i].op == op;
      assert more[i] == lines[i];
    }
  }

  /** Read a manifest: consecutive indices, no operation twice. It succeeds exactly on the manifests a wallet can
    write, and returns their lines. */
  method ParseCloseManifest(data: Bytes) returns (r: Option<seq<Line>>)
    ensures forall lines :: (r == Some(lines)) <==> (WellFormed(lines) && ManifestBytes(lines) == Some(data))
  {
    hide LineFields, ParseLine, ParseJson, CanonicalBytes, IsUuid4, IsDigest;
    var v := ParseJson(data);
    if v.None? || !v.value.Arr? {
      forall lines
        ensures !(WellFormed(lines) && ManifestBytes(lines) == Some(data))
      {
        WrittenParses(lines, data);
      }
      return None;
    }
    PrintParsed(data);
    var lines: seq<Line>, rest, index := [], v.value.items, 1;
    var operations: set<Text> := {};
    while rest.Item?
      invariant index == |lines| + 1 && WellFormed(lines)
      invariant operations == Operations(lines)
      invariant DictItems(rest) && NormalItems(rest)
      invariant v.value.items == AppendItems(ManifestItems(lines), rest)
      decreases rest
    {
      var line := ParseLine(rest.head, index);
      if line.None? || line.value.op in operations {
        forall written
          ensures !(WellFormed(written) && ManifestBytes(written) == Some(data))
        {
          WrittenParses(written, data);
          if WellFormed(written) && v.value == Arr(ManifestItems(written)) {
            PrefixOf(lines, rest, written);
            ParseLineIff(rest.head, index, written[|lines|]);
          }
        }
        return None;
      }
      ParseLineIff(rest.head, index, line.value);
      ManifestAppend(lines, line.value, rest.tail);
      OperationsAppend(lines, line.value);
      operations := operations + {line.value.op};
      lines, rest, index := lines + [line.value], rest.tail, index + 1;
    }
    AppendNothing(ManifestItems(lines));
    forall written
      ensures (Some(lines) == Some(written)) <==> (WellFormed(written) && ManifestBytes(written) == Some(data))
    {
      WrittenParses(written, data);
      if v.value == Arr(ManifestItems(written)) {
        ManifestItemsInjective(lines, written);
      }
    }
    return Some(lines);
  }

  /** What a wallet writes is read back as the same items. */
  lemma WrittenParses(lines: seq<Line>, data: Bytes)
    ensures ManifestBytes(lines) == Some(data) ==> ParseJson(data) == Some(Arr(ManifestItems(lines)))
  {
    var v := Arr(ManifestItems(lines));
    ManifestIsNormal(lines);
    NormalIsFixed(v);
    if ManifestBytes(lines) == Some(data) {
      ParsePrinted(v, data);
    }
  }

  /** Lines read so far are the first lines of any manifest with the same items. */
  lemma {:induction false} PrefixOf(lines: seq<Line>, rest: Items, written: seq<Line>)
    requires AppendItems(ManifestItems(lines), rest) == ManifestItems(written) && rest.Item?
    ensures |lines| < |written| && written[..|lines|] == lines && rest.head == Obj(LineFields(written[|lines|]))
  {
    hide AmountKey, IndexKey, OperationKey, DigestKey;
    assert |written| > 0;
    if |lines| > 0 {
      PrefixOf(lines[1..], rest, written[1..]);
      assert lines[0] == written[0];
      assert lines == [lines[0]] + lines[1..] && written == [written[0]] + written[1..];
    }
  }
}
