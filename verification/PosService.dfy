/** The terminal's two taps: hand the request to the phone, then collect its receipt and acknowledge it. */
module PosService {
  import opened Messages
  import opened Utf8
  import opened Apdu
  import opened Phone
  import opened Delivery
  import S = PosStore
  import D = PosDatabase

  datatype Collected = Waiting | Failed | Accepted

  /** The status text after the operation's name. */
  function ParseStatus(body: Bytes, name: Bytes): Option<Bytes> {
    var prefix := name + [BAR];
    if |body| >= |prefix| && body[..|prefix|] == prefix then Some(body[|prefix|..]) else None
  }

  /** Everything the phone holds has its byte form. */
  ghost predicate Encodable(p: Phone) {
    && p.codec.parse(p.codec.encode(p.grant)) == Some(p.grant)
    && (forall op | op in p.receipts :: p.codec.parse(p.codec.encode(p.receipts[op])) == Some(p.receipts[op]))
  }

  lemma StatusBody(name: Bytes, s: Status)
    ensures RequireOk(Some(name + [BAR] + StatusText(s) + OK)) == Some(name + [BAR] + StatusText(s))
    ensures RequireOk(Some(BAD_DATA)).None? && RequireOk(Some(NOT_SATISFIED)).None? && RequireOk(Some(NOT_FOUND)).None?
    ensures RequireOk(None).None?
  {
    var reply := name + [BAR] + StatusText(s) + OK;
    assert reply[|reply| - 2..] == OK && reply[..|reply| - 2] == name + [BAR] + StatusText(s);
  }

  /** A status that follows the expected name answers for that operation. */
  lemma StatusNames(codec: Codec, op: Id, other: Id, s: Status, t: Status)
    requires CodecOk(codec)
    requires ParseStatus(codec.name(other) + [BAR] + StatusText(s), codec.name(op)) == Some(StatusText(t))
    requires s == t
    ensures op == other
  {
    var body, prefix := codec.name(other) + [BAR] + StatusText(s), codec.name(op) + [BAR];
    assert |codec.name(op)| == |codec.name(other)|;
    assert body[..|codec.name(op)|] == codec.name(other);
    assert prefix[..|codec.name(op)|] == codec.name(op);
    assert body[..|prefix|][..|codec.name(op)|] == body[..|codec.name(op)|];
    assert codec.id(codec.name(op)) == Some(op) && codec.id(codec.name(other)) == Some(other);
  }

  lemma OwnStatus(codec: Codec, op: Id, s: Status)
    ensures ParseStatus(codec.name(op) + [BAR] + StatusText(s), codec.name(op)) == Some(StatusText(s))
  {
    var body, prefix := codec.name(op) + [BAR] + StatusText(s), codec.name(op) + [BAR];
    assert body[..|prefix|] == prefix && body[|prefix|..] == StatusText(s);
  }

  /** The message names the operation and is signed by a terminal key the phone trusts. */
  predicate Comes(p: Phone, e: Envelope, op: Id) {
    && (e.message.body.Request? || e.message.body.Ack?)
    && var b := e.message.body;
    && b.common.op == op && (b.posKey, b.posFingerprint) in p.trusted
    && e.signature == Signature(p.trusted[(b.posKey, b.posFingerprint)], e.message)
  }

  /** The phone takes these bytes as the request of the operation. */
  predicate TakesRequest(p: Phone, data: Bytes, op: Id) {
    && p.codec.parse(data).Some? && Comes(p, p.codec.parse(data).value, op)
    && (op in p.requests ==> p.requests[op] == p.codec.parse(data).value)
  }

  /** The phone takes these bytes as the acknowledgement of the operation's receipt. */
  predicate TakesAck(p: Phone, data: Bytes, op: Id) {
    && p.codec.parse(data).Some? && Comes(p, p.codec.parse(data).value, op)
    && op in p.requests && op in p.receipts && AckBound(p.requests[op], p.receipts[op], p.codec.parse(data).value)
    && (op in p.acks ==> p.acks[op] == p.codec.parse(data).value)
  }

  /** The phone answers with its success exactly for what it takes, and then holds exactly that. */
  lemma Taken(p: Phone, instruction: Byte, data: Bytes, op: Id)
    requires CodecOk(p.codec) && (instruction == PUT_REQUEST || instruction == PUT_ACK)
    ensures
      var (q, reply) := AcceptMessage(p, instruction, data);
      var body := RequireOk(reply);
      var answered :=
        && body.Some?
        && ParseStatus(body.value, p.codec.name(op)) ==
             Some(StatusText(if instruction == PUT_REQUEST then RequestReceived else LocallyAccepted));
      && (answered <==> if instruction == PUT_REQUEST then TakesRequest(p, data, op) else TakesAck(p, data, op))
      && (answered && instruction == PUT_REQUEST ==> q == p.(requests := p.requests[op := p.codec.parse(data).value]))
      && (answered && instruction == PUT_ACK ==> q == p.(acks := p.acks[op := p.codec.parse(data).value]))
  {
    hide AckBound, StatusText, CodecOk, ParseStatus, RequireOk;
    var s := if instruction == PUT_REQUEST then RequestReceived else LocallyAccepted;
    StatusBody([], RequestReceived);
    StatusBody(p.codec.name(op), s);
    OwnStatus(p.codec, op, s);
    var parsed := p.codec.parse(data);
    if parsed.Some? && (parsed.value.message.body.Request? || parsed.value.message.body.Ack?) {
      var other := parsed.value.message.body.common.op;
      StatusBody(p.codec.name(other), s);
      if AcceptMessage(p, instruction, data).1 == Some(StatusReply(p, other, s)) {
        if ParseStatus(p.codec.name(other) + [BAR] + StatusText(s), p.codec.name(op)) == Some(StatusText(s)) {
          StatusNames(p.codec, op, other, s, s);
        }
      }
    }
  }

  /** The bytes of a message a phone takes are neither empty nor too long. */
  lemma MessageFits(codec: Codec, data: Bytes)
    requires CodecOk(codec) && codec.parse(data).Some?
    ensures 1 <= |data| <= MAX_LOGICAL_BYTES
  {
  }

  /** The row may still take a receipt under this authorization. */
  predicate Unreceipted(row: S.Operation, authorization: Bytes) {
    && (row.state == S.REQUEST_DELIVERED || row.state == S.WAITING_CONFIRMATION)
    && row.receipt == None && (row.authorization == None || row.authorization == Some(authorization))
  }

  /** The receipt answers the stored request under a trusted grant, in time, and can be acknowledged. */
  ghost predicate Verifiable(codec: Codec, trusted: Envelope -> bool, request: Bytes, receipt: Envelope, grant: Envelope, at: int,
                             posKey: Id, posFingerprint: Digest, posPublicKey: PublicKey)
  {
    && codec.parse(request).Some? && trusted(grant) && ReceiptBound(codec.parse(request).value, receipt, grant)
    && receipt.message.body.Receipt? && at <= receipt.message.body.common.expiresAt
    && var ack := Acknowledgement(receipt, at, posKey, posFingerprint, posPublicKey);
    && codec.parse(codec.encode(ack)) == Some(ack) && AckBound(codec.parse(request).value, receipt, ack)
  }

  /** Everything a tap needs to collect a receipt. */
  ghost predicate Collectable(row: S.Operation, p: Phone, trusted: Envelope -> bool, op: Id, at: int, posKey: Id,
                              posFingerprint: Digest, posPublicKey: PublicKey)
  {
    && op in p.receipts && Unreceipted(row, p.codec.encode(p.grant))
    && Verifiable(p.codec, trusted, row.request, p.receipts[op], p.grant, at, posKey, posFingerprint, posPublicKey)
    && p.receipts[op].message.body.Receipt?
    && TakesAck(p, p.codec.encode(Acknowledgement(p.receipts[op], at, posKey, posFingerprint, posPublicKey)), op)
  }

  /** What the row is after a successful collection. */
  ghost predicate Collects(row: S.Operation, after: S.Operation, p: Phone, q: Phone, op: Id, at: int, posKey: Id,
                           posFingerprint: Digest, posPublicKey: PublicKey)
  {
    && op in p.receipts && p.receipts[op].message.body.Receipt?
    && var ack := Acknowledgement(p.receipts[op], at, posKey, posFingerprint, posPublicKey);
    && after == row.(state := S.LOCALLY_ACCEPTED, authorization := Some(p.codec.encode(p.grant)),
                     receipt := Some(p.codec.encode(p.receipts[op])), ack := Some(p.codec.encode(ack)), updated := at)
    && q.acks == p.acks[op := ack]
  }

  /** An honest tap can collect: the phone confirmed the terminal's own stored request under a trusted grant, trusts its
    key, has no acknowledgement yet, and it is after the confirmation and not past the request's end. */
  lemma HonestTap(row: S.Operation, p: Phone, trusted: Envelope -> bool, op: Id, at: int, posKey: Id, posFingerprint: Digest,
                  posPublicKey: PublicKey)
    requires op in p.requests && op in p.receipts && op !in p.acks && trusted(p.grant)
    requires p.codec.parse(row.request) == Some(p.requests[op]) && Unreceipted(row, p.codec.encode(p.grant))
    requires ReceiptBound(p.requests[op], p.receipts[op], p.grant)
    requires p.requests[op].message.body.Request? && p.receipts[op].message.body.Receipt?
    requires p.requests[op].message.body.common.op == op
    requires p.requests[op].message.body.posKey == posKey && p.requests[op].message.body.posFingerprint == posFingerprint
    requires (posKey, posFingerprint) in p.trusted && p.trusted[(posKey, posFingerprint)] == posPublicKey
    requires p.receipts[op].message.body.confirmedAt <= at <= p.receipts[op].message.body.common.expiresAt
    requires var ack := Acknowledgement(p.receipts[op], at, posKey, posFingerprint, posPublicKey);
             p.codec.parse(p.codec.encode(ack)) == Some(ack)
    ensures Collectable(row, p, trusted, op, at, posKey, posFingerprint, posPublicKey)
  {
  }

  /** Fragments and cached answers do not matter. */
  lemma SameTap(row: S.Operation, p: Phone, q: Phone, trusted: Envelope -> bool, op: Id, at: int, posKey: Id, posFingerprint: Digest,
                posPublicKey: PublicKey)
    requires q == p.(fragments := q.fragments, cache := q.cache)
    ensures Collectable(row, p, trusted, op, at, posKey, posFingerprint, posPublicKey) <==>
            Collectable(row, q, trusted, op, at, posKey, posFingerprint, posPublicKey)
    ensures forall after, r ::
              Collects(row, after, p, r, op, at, posKey, posFingerprint, posPublicKey) <==>
              Collects(row, after, q, r, op, at, posKey, posFingerprint, posPublicKey)
  {
    assert forall data :: TakesAck(p, data, op) <==> TakesAck(q, data, op);
    hide TakesAck, Verifiable, Unreceipted, Acknowledgement;
  }

  lemma Delivered(p: Phone, q: Phone, data: Bytes, op: Id, row: S.Operation)
    requires TakesAck(p, data, op) && row.ack == Some(data)
    requires q == p.(acks := p.acks[op := p.codec.parse(data).value], fragments := q.fragments, cache := q.cache)
    ensures EvidenceComplete(row, q, op)
  {
    hide AckBound;
  }

  lemma Unconfirmed(row: S.Operation, p: Phone, trusted: Envelope -> bool, op: Id, at: int, posKey: Id, posFingerprint: Digest,
                    posPublicKey: PublicKey)
    requires op !in p.receipts
    ensures !Collectable(row, p, trusted, op, at, posKey, posFingerprint, posPublicKey)
  {
    hide TakesAck, Verifiable, Unreceipted, Acknowledgement;
  }

  class Service {
    const db: D.Database
    const phone: Simulator
    const trusted: Envelope -> bool
    const posKey: Id
    const posFingerprint: Digest
    const posPublicKey: PublicKey

    constructor (db: D.Database, phone: Simulator, trusted: Envelope -> bool, posKey: Id, posFingerprint: Digest,
                 posPublicKey: PublicKey)
      ensures this.db == db && this.phone == phone && this.trusted == trusted
      ensures this.posKey == posKey && this.posFingerprint == posFingerprint && this.posPublicKey == posPublicKey
    {
      this.db, this.phone, this.trusted := db, phone, trusted;
      this.posKey, this.posFingerprint, this.posPublicKey := posKey, posFingerprint, posPublicKey;
    }

    ghost predicate Fresh()
      reads phone
    {
      phone.fragments == map[] && phone.cache == map[]
    }

    /** Deliver the stored request. It succeeds exactly when the phone takes it and it was not answered yet; the phone then
      holds exactly it, under its operation. */
    method DeliverRequest(op: Id, now: int) returns (ok: bool)
      requires CodecOk(phone.codec) && Fresh() && op in db.operations
      modifies db, phone
      ensures Fresh()
      ensures ok ==>
        && op in phone.requests && phone.codec.parse(old(db.operations)[op].request) == Some(phone.requests[op])
        && phone.State() == old(phone.State()).(requests := phone.requests)
        && op in db.operations && db.operations[op].state.REQUEST_DELIVERED?
        && db.State() == S.After(old(db.State()), S.MarkDelivered(op, now))
      ensures !ok ==> db.State() == old(db.State())
      ensures ok <==> TakesRequest(old(phone.State()), old(db.operations)[op].request, op)
                      && old(db.operations)[op].state in {S.REQUEST_CREATED, S.REQUEST_DELIVERED}
    {
      hide CodecOk, AcceptMessage, ParseStatus, StatusText, RequireOk, Comes;
      var request := db.operations[op].request;
      if phone.codec.parse(request).Some? {
        MessageFits(phone.codec, request);
      }
      if |request| == 0 || |request| > MAX_LOGICAL_BYTES {
        return false;
      }
      ghost var start := phone.State();
      Taken(start, PUT_REQUEST, request, op);
      FreshIsQuiet(start, PUT_REQUEST);
      var body := PutMessage(phone, PUT_REQUEST, request);
      phone.Close();
      if body.None? || ParseStatus(body.value, phone.codec.name(op)) != Some(StatusText(RequestReceived)) {
        return false;
      }
      ok := db.MarkRequestDelivered(op, now);
    }

    /** The phone's status of an operation. */
    method GetStatus(op: Id) returns (status: Option<Status>)
      requires CodecOk(phone.codec) && Fresh()
      modifies phone
      ensures status == StatusOf(old(phone.State()), op)
      ensures phone.State() == old(phone.State()).(cache := phone.cache)
      ensures forall other: Byte | other != GET_STATUS :: Quiet(phone.State(), other)
    {
      hide CodecOk, ParseStatus, StatusText, RequireOk, ParseApdu;
      NameFits(phone.codec, op);
      var frame := Ask(GET_STATUS, 0, phone.codec.name(op));
      var response := phone.Exchange(frame);
      var body := RequireOk(response);
      StatusBody(phone.codec.name(op), RequestReceived);
      StatusBody(phone.codec.name(op), Reserved);
      StatusBody(phone.codec.name(op), LocallyAccepted);
      OwnStatus(phone.codec, op, RequestReceived);
      OwnStatus(phone.codec, op, Reserved);
      OwnStatus(phone.codec, op, LocallyAccepted);
      StatusesDiffer();
      if body.None? {
        return None;
      }
      var text := ParseStatus(body.value, phone.codec.name(op));
      status := if text == Some(StatusText(RequestReceived)) then Some(RequestReceived)
                else if text == Some(StatusText(Reserved)) then Some(Reserved)
                else if text == Some(StatusText(LocallyAccepted)) then Some(LocallyAccepted)
                else None;
    }

    /** Collect the receipt of a confirmed request, acknowledge it durably, and hand the acknowledgement over. */
    method CollectReceipt(op: Id, at: int) returns (r: Collected)
      requires CodecOk(phone.codec) && Fresh() && op in db.operations && Encodable(phone.State())
      requires AcksOk(phone.requests, phone.receipts, phone.acks)
      modifies db, phone
      ensures Fresh() && phone.State() == old(phone.State()).(acks := phone.acks)
      ensures op in db.operations
      ensures r.Accepted? ==> EvidenceComplete(db.operations[op], phone.State(), op)
      ensures r.Waiting? ==> db.operations[op].state.WAITING_CONFIRMATION? && op !in phone.receipts
      ensures old(db.operations)[op].ack.None? && StatusOf(old(phone.State()), op).None? ==>
                r.Failed? && db.State() == old(db.State())
      ensures db.operations[op].ack.Some? && old(db.operations)[op].ack.None? ==>
                Verified(db.operations[op], phone.State(), trusted, op) && InTime(db.operations[op], phone.State(), op, at)
      ensures phone.acks != old(phone.acks) ==> db.operations[op].ack.Some?
      ensures old(db.operations)[op].ack.Some? ==> db.State() == old(db.State())
      ensures old(db.operations)[op].ack.Some? ==>
                && (r.Accepted? <==> TakesAck(old(phone.State()), old(db.operations)[op].ack.value, op))
                && (r.Accepted? ==> phone.acks == old(phone.acks)[op := phone.codec.parse(old(db.operations)[op].ack.value).value])
      ensures old(db.operations)[op].ack.None? ==>
                && (r.Accepted? <==> Collectable(old(db.operations)[op], old(phone.State()), trusted, op, at, posKey, posFingerprint,
                                                 posPublicKey))
                && (r.Accepted? ==> Collects(old(db.operations)[op], db.operations[op], old(phone.State()), phone.State(), op, at,
                                             posKey, posFingerprint, posPublicKey))
                && (r.Waiting? <==> op in phone.requests && op !in phone.receipts
                                    && old(db.operations)[op].state in {S.REQUEST_DELIVERED, S.WAITING_CONFIRMATION})
      ensures forall o | o in db.operations && o != op :: o in old(db.operations) && db.operations[o] == old(db.operations)[o]
    {
      hide CodecOk, AckBound, ReceiptBound, Quiet, Transceive, TakesAck, Unreceipted, Collectable, Collects, EvidenceComplete;
      ghost var start, row := phone.State(), db.operations[op];
      var stored := db.operations[op].ack;
      if stored.Some? {
        FreshIsQuiet(start, PUT_ACK);
        var sent := HandOver(op, stored.value);
        if sent {
          Delivered(start, phone.State(), stored.value, op, row);
        }
        r := if sent then Accepted else Failed;
        return;
      }
      var status := GetStatus(op);
      if status.None? {
        Unconfirmed(row, start, trusted, op, at, posKey, posFingerprint, posPublicKey);
        phone.Close();
        return Failed;
      }
      if status != Some(Reserved) && status != Some(LocallyAccepted) {
        Unconfirmed(row, start, trusted, op, at, posKey, posFingerprint, posPublicKey);
        var marked := db.MarkWaitingConfirmation(op, at);
        phone.Close();
        return if marked then Waiting else Failed;
      }
      SameTap(row, start, phone.State(), trusted, op, at, posKey, posFingerprint, posPublicKey);
      r := ReadAndAccept(op, at);
    }

    /** Send an acknowledgement and leave the connection. */
    method HandOver(op: Id, ack: Bytes) returns (ok: bool)
      requires CodecOk(phone.codec) && Quiet(phone.State(), PUT_ACK)
      modifies phone
      ensures Fresh() && phone.State() == old(phone.State()).(acks := phone.acks, fragments := map[], cache := map[])
      ensures ok <==> TakesAck(old(phone.State()), ack, op)
      ensures ok ==> phone.acks == old(phone.acks)[op := phone.codec.parse(ack).value]
    {
      hide CodecOk, AckBound, Quiet, TakesAck;
      ok := SendAck(op, ack);
      phone.Close();
    }

    /** The second half of a collection: both messages are read whole, verified, stored with the acknowledgement. */
    method ReadAndAccept(op: Id, at: int) returns (r: Collected)
      requires CodecOk(phone.codec) && op in db.operations && Encodable(phone.State()) && op in phone.receipts
      requires Quiet(phone.State(), GET_AUTHORIZATION) && Quiet(phone.State(), GET_RECEIPT) && phone.fragments == map[]
      requires Quiet(phone.State(), PUT_ACK) && db.operations[op].ack.None?
      modifies db, phone
      ensures !r.Waiting?
      ensures Fresh() && phone.State() == old(phone.State()).(acks := phone.acks, fragments := map[], cache := map[])
      ensures op in db.operations
      ensures r.Accepted? ==> EvidenceComplete(db.operations[op], phone.State(), op)
      ensures db.operations[op].ack.Some? ==>
                Verified(db.operations[op], phone.State(), trusted, op) && InTime(db.operations[op], phone.State(), op, at)
      ensures phone.acks != old(phone.acks) ==> db.operations[op].ack.Some?
      ensures forall o | o in db.operations && o != op :: o in old(db.operations) && db.operations[o] == old(db.operations)[o]
      ensures r.Accepted? <==> Collectable(old(db.operations)[op], old(phone.State()), trusted, op, at, posKey, posFingerprint, posPublicKey)
      ensures r.Accepted? ==> Collects(old(db.operations)[op], db.operations[op], old(phone.State()), phone.State(), op, at, posKey,
                                       posFingerprint, posPublicKey)
    {
      hide CodecOk, AckBound, ReceiptBound, TakesAck, Verifiable, Quiet, EvidenceComplete, Verified, InTime, Acknowledgement;
      var row := db.operations[op];
      ghost var start := phone.State();
      r := Failed;
      var authorization := Read(GET_AUTHORIZATION, op);
      var stored := db.StoreAuthorization(op, authorization, at);
      if !stored {
        phone.Close();
        return;
      }
      var receiptBytes := Read(GET_RECEIPT, op);
      var ack := Verify(row.request, receiptBytes, authorization, at);
      if ack.None? {
        phone.Close();
        return;
      }
      VerifiableMeans(phone.codec, trusted, row.request, start.receipts[op], start.grant, at, posKey, posFingerprint, posPublicKey);
      var ackBytes := phone.codec.encode(ack.value);
      var kept := db.AcceptReceiptAndAck(op, receiptBytes, ackBytes, at);
      if !kept {
        phone.Close();
        return;
      }
      EvidenceKept(db.operations[op], phone.State(), trusted, op, at, posKey, posFingerprint, posPublicKey);
      ghost var before := phone.State();
      TakesElsewhere(start, before, ackBytes, op);
      var sent := HandOver(op, ackBytes);
      EvidenceStays(db.operations[op], before, phone.State(), trusted, op, at);
      if sent {
        Delivered(before, phone.State(), ackBytes, op, db.operations[op]);
      }
      r := if sent then Accepted else Failed;
    }

    /** Verify a receipt read from the phone against the stored request, and prepare its acknowledgement. */
    method Verify(request: Bytes, receipt: Bytes, authorization: Bytes, at: int) returns (ack: Option<Envelope>)
      requires phone.codec.parse(receipt).Some? && phone.codec.parse(authorization).Some?
      ensures ack.Some? <==> Verifiable(phone.codec, trusted, request, phone.codec.parse(receipt).value,
                                        phone.codec.parse(authorization).value, at, posKey, posFingerprint, posPublicKey)
      ensures ack.Some? ==>
                && phone.codec.parse(receipt).value.message.body.Receipt?
                && ack.value == Acknowledgement(phone.codec.parse(receipt).value, at, posKey, posFingerprint, posPublicKey)
    {
      hide AckBound, ReceiptBound, Acknowledgement;
      var wanted, answered, grant := phone.codec.parse(request), phone.codec.parse(receipt).value,
                                     phone.codec.parse(authorization).value;
      if wanted.None? || !trusted(grant) || !ReceiptBound(wanted.value, answered, grant) {
        return None;
      }
      BoundReceipt(wanted.value, answered, grant);
      if at > answered.message.body.common.expiresAt {
        return None;
      }
      var prepared := Acknowledgement(answered, at, posKey, posFingerprint, posPublicKey);
      if (|| phone.codec.parse(phone.codec.encode(prepared)) != Some(prepared)
          || !AckBound(wanted.value, answered, prepared)) {
        return None;
      }
      ack := Some(prepared);
    }

    /** Read one message the phone holds; other reads and writes of the connection stay possible. */
    method Read(instruction: Byte, op: Id) returns (message: Bytes)
      requires instruction == GET_RECEIPT || instruction == GET_AUTHORIZATION
      requires CodecOk(phone.codec) && Encodable(phone.State()) && op in phone.receipts
      requires Quiet(phone.State(), instruction)
      modifies phone
      ensures message == phone.codec.encode(if instruction == GET_RECEIPT then old(phone.receipts)[op] else phone.grant)
      ensures phone.State() == old(phone.State()).(cache := phone.cache)
      ensures forall other: Byte | other != instruction && old(Quiet(phone.State(), other)) :: Quiet(phone.State(), other)
    {
      var read := ReadMessage(phone, instruction, op);
      message := read.value;
    }

    /** Send the stored acknowledgement. */
    method SendAck(op: Id, ack: Bytes) returns (ok: bool)
      requires CodecOk(phone.codec) && Quiet(phone.State(), PUT_ACK)
      modifies phone
      ensures phone.State() == old(phone.State()).(acks := phone.acks, fragments := phone.fragments, cache := phone.cache)
      ensures ok <==> TakesAck(old(phone.State()), ack, op)
      ensures ok ==> phone.acks == old(phone.acks)[op := phone.codec.parse(ack).value]
    {
      hide CodecOk, AcceptMessage, ParseStatus, StatusText, RequireOk, AckBound, Quiet, Comes;
      if phone.codec.parse(ack).Some? {
        MessageFits(phone.codec, ack);
      }
      if |ack| == 0 || |ack| > MAX_LOGICAL_BYTES {
        return false;
      }
      ghost var start := phone.State();
      AckTouchesAcks(start, ack);
      Taken(start, PUT_ACK, ack, op);
      var body := PutMessage(phone, PUT_ACK, ack);
      ok := body.Some? && ParseStatus(body.value, phone.codec.name(op)) == Some(StatusText(LocallyAccepted));
    }
  }

  /** The acknowledgement the terminal signs for a receipt. */
  function Acknowledgement(receipt: Envelope, at: int, keyId: Id, fingerprint: Digest, key: PublicKey): Envelope
    requires receipt.message.body.Receipt?
  {
    var b := receipt.message.body;
    Sign(Ack(b.common, b.wallet, b.auth, keyId, fingerprint, DigestOf(receipt), at), key)
  }

  /** Its fields are the receipt's, its digest the receipt's, its moment that of the tap and its signature the terminal's. */
  lemma AcknowledgementTerms(receipt: Envelope, at: int, keyId: Id, fingerprint: Digest, key: PublicKey, ack: Envelope)
    requires receipt.message.body.Receipt?
    ensures
      ack == Acknowledgement(receipt, at, keyId, fingerprint, key) <==>
      && ack.message.version == 3 && ack.message.body.Ack? && ack.signature == Signature(key, ack.message)
      && var r, k := receipt.message.body, ack.message.body;
      && k.common == r.common && k.wallet == r.wallet && k.auth == r.auth && k.posKey == keyId && k.posFingerprint == fingerprint
      && k.receiptDigest == OfMessage(receipt.message) && k.acceptedAt == at
  {
  }

  /** The row and the phone hold one receipt and one acknowledgement, bound to each other. */
  ghost predicate EvidenceComplete(row: S.Operation, p: Phone, op: Id) {
    && op in p.requests && op in p.receipts && op in p.acks && AckBound(p.requests[op], p.receipts[op], p.acks[op])
    && row.ack.Some? && p.codec.parse(row.ack.value) == Some(p.acks[op])
  }

  /** Receipt and authorization were read whole, verified against the stored request, and kept. */
  ghost predicate Verified(row: S.Operation, p: Phone, trusted: Envelope -> bool, op: Id) {
    && op in p.receipts && row.receipt == Some(p.codec.encode(p.receipts[op]))
    && row.authorization == Some(p.codec.encode(p.grant)) && trusted(p.grant)
    && p.codec.parse(row.request).Some?
    && ReceiptBound(p.codec.parse(row.request).value, p.receipts[op], p.grant)
  }

  /** The stored acknowledgement answers the receipt, and was made before the request expired. */
  ghost predicate InTime(row: S.Operation, p: Phone, op: Id, at: int) {
    && p.codec.parse(row.request).Some? && op in p.receipts && p.receipts[op].message.body.Receipt?
    && at <= p.receipts[op].message.body.common.expiresAt
    && row.ack.Some? && p.codec.parse(row.ack.value).Some?
    && AckBound(p.codec.parse(row.request).value, p.receipts[op], p.codec.parse(row.ack.value).value)
  }

  lemma VerifiableMeans(codec: Codec, trusted: Envelope -> bool, request: Bytes, receipt: Envelope, grant: Envelope, at: int,
                        posKey: Id, posFingerprint: Digest, posPublicKey: PublicKey)
    requires Verifiable(codec, trusted, request, receipt, grant, at, posKey, posFingerprint, posPublicKey)
    ensures receipt.message.body.Receipt?
    ensures var ack := Acknowledgement(receipt, at, posKey, posFingerprint, posPublicKey);
            codec.parse(codec.encode(ack)) == Some(ack)
  {
    hide AckBound, ReceiptBound, Acknowledgement;
  }

  /** What was stored was verified, and in time. */
  lemma EvidenceKept(row: S.Operation, p: Phone, trusted: Envelope -> bool, op: Id, at: int, posKey: Id, posFingerprint: Digest,
                     posPublicKey: PublicKey)
    requires op in p.receipts && p.receipts[op].message.body.Receipt?
    requires Verifiable(p.codec, trusted, row.request, p.receipts[op], p.grant, at, posKey, posFingerprint, posPublicKey)
    requires row.receipt == Some(p.codec.encode(p.receipts[op])) && row.authorization == Some(p.codec.encode(p.grant))
    requires row.ack == Some(p.codec.encode(Acknowledgement(p.receipts[op], at, posKey, posFingerprint, posPublicKey)))
    ensures Verified(row, p, trusted, op) && InTime(row, p, op, at)
  {
    hide AckBound, ReceiptBound, Acknowledgement;
  }

  lemma EvidenceStays(row: S.Operation, p: Phone, q: Phone, trusted: Envelope -> bool, op: Id, at: int)
    requires q == p.(acks := q.acks, fragments := q.fragments, cache := q.cache)
    ensures Verified(row, p, trusted, op) <==> Verified(row, q, trusted, op)
    ensures InTime(row, p, op, at) <==> InTime(row, q, op, at)
  {
    hide AckBound, ReceiptBound;
  }

  lemma TakesElsewhere(p: Phone, q: Phone, data: Bytes, op: Id)
    requires q == p.(fragments := q.fragments, cache := q.cache)
    ensures TakesAck(p, data, op) <==> TakesAck(q, data, op)
  {
    hide AckBound;
  }

  lemma FreshIsQuiet(p: Phone, instruction: Byte)
    requires p.fragments == map[] && p.cache == map[]
    ensures Quiet(p, instruction)
  {
  }

  lemma AckTouchesAcks(p: Phone, data: Bytes)
    ensures var q := AcceptMessage(p, PUT_ACK, data).0; q == p.(acks := q.acks)
  {
    hide AckBound, StatusText;
  }

  lemma BoundReceipt(request: Envelope, receipt: Envelope, grant: Envelope)
    requires ReceiptBound(request, receipt, grant)
    ensures receipt.message.body.Receipt?
  {
  }

  lemma StatusesDiffer()
    ensures StatusText(RequestReceived) != StatusText(Reserved)
    ensures StatusText(RequestReceived) != StatusText(LocallyAccepted)
    ensures StatusText(Reserved) != StatusText(LocallyAccepted)
  {
    assert StatusText(Reserved)[2] == 0x53;
    assert StatusText(RequestReceived)[2] == 0x51;
    assert StatusText(LocallyAccepted)[2] == 0x43;
  }
}
