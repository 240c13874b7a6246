/** The phone double: fragments in, answers out, and a budget spent one index at a time. */
module Phone {
  import opened Messages
  import opened Utf8
  import opened Apdu
  import opened Sums

  /** The byte forms of envelopes and operation identifiers. `Envelopes` proves what is required of the first for the
    canonical format: a byte string is accepted exactly when it is the encoding of what is parsed. */
  datatype Codec = Codec(parse: Bytes -> Option<Envelope>, encode: Envelope -> Bytes,
                         name: Id -> Bytes, id: Bytes -> Option<Id>)

  predicate Asciis(b: Bytes) {
    forall c | c in b :: c < 0x80
  }

  ghost predicate CodecOk(codec: Codec) {
    && (forall b: Bytes | codec.parse(b).Some? ::
          && codec.encode(codec.parse(b).value) == b && 1 <= |b| <= MAX_LOGICAL_BYTES && Proper(codec.parse(b).value))
    && (forall i: Id :: codec.id(codec.name(i)) == Some(i) && Asciis(codec.name(i)) && |codec.name(i)| <= 255)
  }

  const OK: Bytes := [0x90, 0x00]
  const BAD_DATA: Bytes := [0x6A, 0x80]
  const NOT_FOUND: Bytes := [0x6A, 0x82]
  const NOT_SATISFIED: Bytes := [0x69, 0x85]
  const BAR: Byte := 0x7C

  datatype Status = RequestReceived | Reserved | LocallyAccepted

  function StatusText(s: Status): Bytes {
    match s
    case RequestReceived => [0x52, 0x45, 0x51, 0x55, 0x45, 0x53, 0x54, 0x5F, 0x52, 0x45, 0x43, 0x45, 0x49, 0x56, 0x45, 0x44]
    case Reserved => [0x52, 0x45, 0x53, 0x45, 0x52, 0x56, 0x45, 0x44]
    case LocallyAccepted =>
      [0x4C, 0x4F, 0x43, 0x41, 0x4C, 0x4C, 0x59, 0x5F, 0x41, 0x43, 0x43, 0x45, 0x50, 0x54, 0x45, 0x44]
  }

  datatype Phone = Phone(
    codec: Codec,
    grant: Envelope,
    trusted: map<(Id, Digest), PublicKey>,
    requests: map<Id, Envelope>,
    receipts: map<Id, Envelope>,
    acks: map<Id, Envelope>,
    nextIndex: int,
    remaining: int,
    fragments: map<Byte, seq<Bytes>>,
    cache: map<Bytes, Bytes>)

  function StatusReply(p: Phone, op: Id, s: Status): Bytes {
    p.codec.name(op) + [BAR] + StatusText(s) + OK
  }

  /** A whole message arrived; None stands for an error the phone does not turn into a status word. */
  function AcceptMessage(p: Phone, instruction: Byte, data: Bytes): (Phone, Option<Bytes>) {
    var parsed := p.codec.parse(data);
    if parsed.None? then (p, Some(BAD_DATA))
    else
      var e := parsed.value;
      if !(e.message.body.Request? || e.message.body.Ack?) then (p, None)
      else
        var b := e.message.body;
        var known := (b.posKey, b.posFingerprint) in p.trusted;
        if instruction == PUT_REQUEST then
          if !known then (p, Some(NOT_SATISFIED))
          else if !Verifies(e, p.trusted[(b.posKey, b.posFingerprint)]) then (p, Some(BAD_DATA))
          else if b.common.op in p.requests && p.requests[b.common.op] != e then (p, Some(BAD_DATA))
          else (p.(requests := p.requests[b.common.op := e]), Some(StatusReply(p, b.common.op, RequestReceived)))
        else if !known || !Verifies(e, p.trusted[(b.posKey, b.posFingerprint)]) then (p, Some(BAD_DATA))
        else if b.common.op !in p.receipts || b.common.op !in p.requests then (p, None)
        else if !AckBound(p.requests[b.common.op], p.receipts[b.common.op], e) then (p, Some(BAD_DATA))
        else if b.common.op in p.acks && p.acks[b.common.op] != e then (p, Some(BAD_DATA))
        else (p.(acks := p.acks[b.common.op := e]), Some(StatusReply(p, b.common.op, LocallyAccepted)))
  }

  function Pending(p: Phone, instruction: Byte): seq<Bytes> {
    if instruction in p.fragments then p.fragments[instruction] else []
  }

  function AcceptFragment(p: Phone, c: Command): (Phone, Option<Bytes>) {
    var chunks := Pending(p, c.instruction);
    if c.sequence as int != |chunks| then (p, Some(BAD_DATA))
    else
      var more := chunks + [c.data];
      if |Concat(more)| > MAX_LOGICAL_BYTES then (p.(fragments := p.fragments - {c.instruction}), Some(BAD_DATA))
      else if !c.last then (p.(fragments := p.fragments[c.instruction := more]), Some(OK))
      else AcceptMessage(p.(fragments := p.fragments - {c.instruction}), c.instruction, Concat(more))
  }

  function StatusOf(p: Phone, op: Id): Option<Status> {
    if op in p.acks then Some(LocallyAccepted)
    else if op in p.receipts then Some(Reserved)
    else if op in p.requests then Some(RequestReceived)
    else None
  }

  /** One fragment of a message the phone holds: whether it is the last, its bytes, and the status word. */
  function FragmentReply(message: Bytes, sequence: int): Bytes
    requires 1 <= |message| <= MAX_LOGICAL_BYTES && 0 <= sequence
  {
    AssembleChunked(message);
    var chunks := ChunkMessage(message, CHUNK_BYTES).value;
    if sequence >= |chunks| then NOT_FOUND
    else [if sequence == |chunks| - 1 then 1 else 0] + chunks[sequence] + OK
  }

  function Process(p: Phone, apdu: Bytes): (Phone, Option<Bytes>) {
    var parsed := ParseApdu(apdu);
    if parsed.None? then (p, Some(BAD_DATA))
    else
      var c := parsed.value;
      if c.instruction == PUT_REQUEST || c.instruction == PUT_ACK then AcceptFragment(p, c)
      else if !Asciis(c.data) then (p, Some(BAD_DATA))
      else
        var op := p.codec.id(c.data);
        if c.instruction == GET_STATUS then
          if c.sequence != 0 || !c.last then (p, Some(BAD_DATA))
          else if op.None? || StatusOf(p, op.value).None? then (p, Some(NOT_FOUND))
          else (p, Some(StatusReply(p, op.value, StatusOf(p, op.value).value)))
        else if op.None? || op.value !in p.receipts then (p, Some(NOT_SATISFIED))
        else
          var message := p.codec.encode(if c.instruction == GET_RECEIPT then p.receipts[op.value] else p.grant);
          if |message| == 0 || |message| > MAX_LOGICAL_BYTES then (p, Some(BAD_DATA))
          else (p, Some(FragmentReply(message, c.sequence)))
  }

  /** Every answered frame of a connection is answered the same way again, without being processed. */
  function Transceive(p: Phone, apdu: Bytes): (Phone, Option<Bytes>) {
    if apdu in p.cache then (p, Some(p.cache[apdu]))
    else
      var (q, response) := Process(p, apdu);
      if response.None? then (q, None) else (q.(cache := q.cache[apdu := response.value]), response)
  }

  function Disconnect(p: Phone): Phone {
    p.(fragments := map[], cache := map[])
  }

  /** The receipt the wallet signs for a request under its grant. */
  function ReceiptFor(request: Envelope, grant: Envelope, index: int, at: int): Envelope
    requires request.message.body.Request? && grant.message.body.Grant?
  {
    var gp := grant.message.body;
    Sign(Receipt(request.message.body.common, gp.wallet, gp.auth, gp.walletKey, gp.walletFingerprint, DigestOf(request),
                 DigestOf(grant), index, at), gp.walletPublicKey)
  }

  /** Confirm a request: the next index, the amount taken from the budget; None when it cannot be confirmed. */
  function Confirm(p: Phone, op: Id, at: int): (Phone, Option<Envelope>) {
    if op in p.receipts then (p, Some(p.receipts[op]))
    else if op !in p.requests || !p.requests[op].message.body.Request? || !p.grant.message.body.Grant? then (p, None)
    else
      var request := p.requests[op];
      var amount := request.message.body.common.amount;
      if p.nextIndex > p.grant.message.body.maxPayments || amount > p.remaining then (p, None)
      else
        var receipt := ReceiptFor(request, p.grant, p.nextIndex, at);
        if p.codec.parse(p.codec.encode(receipt)) != Some(receipt) || !ReceiptBound(request, receipt, p.grant) then (p, None)
        else
          (p.(receipts := p.receipts[op := receipt], nextIndex := p.nextIndex + 1, remaining := p.remaining - amount),
           Some(receipt))
  }

  // ---------------------------------------------------------------------------------------------
  // The object

  /** The simulator as an object whose fields its methods update. */
  class Simulator {
    const codec: Codec
    const grant: Envelope
    var trusted: map<(Id, Digest), PublicKey>
    var requests: map<Id, Envelope>
    var receipts: map<Id, Envelope>
    var acks: map<Id, Envelope>
    var nextIndex: int
    var remaining: int
    var fragments: map<Byte, seq<Bytes>>
    var cache: map<Bytes, Bytes>

    ghost function State(): Phone
      reads this
    {
      Phone.Phone(codec, grant, trusted, requests, receipts, acks, nextIndex, remaining, fragments, cache)
    }

    constructor (codec: Codec, grant: Envelope, trusted: map<(Id, Digest), PublicKey>)
      requires grant.message.body.Grant?
      ensures State() == New(codec, grant, trusted)
    {
      this.codec, this.grant, this.trusted := codec, grant, trusted;
      requests, receipts, acks := map[], map[], map[];
      nextIndex, remaining := 1, grant.message.body.total;
      fragments, cache := map[], map[];
    }

    method Close()
      modifies this
      ensures State() == Disconnect(old(State()))
    {
      fragments, cache := map[], map[];
    }

    method Exchange(apdu: Bytes) returns (response: Option<Bytes>)
      modifies this
      ensures (State(), response) == Transceive(old(State()), apdu)
    {
      hide AcceptMessage, FragmentReply, ParseApdu, Concat;
      if apdu in cache {
        return Some(cache[apdu]);
      }
      response := Answer(apdu);
      if response.Some? {
        cache := cache[apdu := response.value];
      }
    }

    method Answer(apdu: Bytes) returns (response: Option<Bytes>)
      modifies this
      ensures (State(), response) == Process(old(State()), apdu)
    {
      hide AcceptMessage, AcceptFragment, FragmentReply, ParseApdu, Concat, StatusText;
      var command := ParseApdu(apdu);
      if command.None? {
        return Some(BAD_DATA);
      }
      var c := command.value;
      if c.instruction == PUT_REQUEST || c.instruction == PUT_ACK {
        response := PutFragment(c);
        return;
      }
      if !Asciis(c.data) {
        return Some(BAD_DATA);
      }
      var op := codec.id(c.data);
      if c.instruction == GET_STATUS {
        if c.sequence != 0 || !c.last {
          return Some(BAD_DATA);
        }
        if op.None? {
          return Some(NOT_FOUND);
        }
        if op.value in acks {
          return Some(codec.name(op.value) + [BAR] + StatusText(LocallyAccepted) + OK);
        } else if op.value in receipts {
          return Some(codec.name(op.value) + [BAR] + StatusText(Reserved) + OK);
        } else if op.value in requests {
          return Some(codec.name(op.value) + [BAR] + StatusText(RequestReceived) + OK);
        }
        return Some(NOT_FOUND);
      }
      if op.None? || op.value !in receipts {
        return Some(NOT_SATISFIED);
      }
      var message := codec.encode(if c.instruction == GET_RECEIPT then receipts[op.value] else grant);
      if |message| == 0 || |message| > MAX_LOGICAL_BYTES {
        return Some(BAD_DATA);
      }
      response := Some(FragmentReply(message, c.sequence));
    }

    method PutFragment(c: Command) returns (response: Option<Bytes>)
      modifies this
      ensures (State(), response) == AcceptFragment(old(State()), c)
    {
      hide AcceptMessage, Concat;
      var chunks := if c.instruction in fragments then fragments[c.instruction] else [];
      if c.sequence as int != |chunks| {
        return Some(BAD_DATA);
      }
      chunks := chunks + [c.data];
      if |Concat(chunks)| > MAX_LOGICAL_BYTES {
        fragments := fragments - {c.instruction};
        return Some(BAD_DATA);
      }
      if !c.last {
        fragments := fragments[c.instruction := chunks];
        return Some(OK);
      }
      fragments := fragments - {c.instruction};
      response := PutMessage(c.instruction, Concat(chunks));
    }

    method PutMessage(instruction: Byte, data: Bytes) returns (response: Option<Bytes>)
      modifies this
      ensures (State(), response) == AcceptMessage(old(State()), instruction, data)
    {
      hide AckBound, StatusText;
      var parsed := codec.parse(data);
      if parsed.None? {
        return Some(BAD_DATA);
      }
      var e := parsed.value;
      if !(e.message.body.Request? || e.message.body.Ack?) {
        return None;
      }
      var b := e.message.body;
      var op := b.common.op;
      var known := (b.posKey, b.posFingerprint) in trusted;
      if instruction == PUT_REQUEST {
        if !known {
          return Some(NOT_SATISFIED);
        }
        if !Verifies(e, trusted[(b.posKey, b.posFingerprint)]) || (op in requests && requests[op] != e) {
          return Some(BAD_DATA);
        }
        requests := requests[op := e];
        return Some(codec.name(op) + [BAR] + StatusText(RequestReceived) + OK);
      }
      if !known || !Verifies(e, trusted[(b.posKey, b.posFingerprint)]) {
        return Some(BAD_DATA);
      }
      if op !in receipts || op !in requests {
        return None;
      }
      if !AckBound(requests[op], receipts[op], e) || (op in acks && acks[op] != e) {
        return Some(BAD_DATA);
      }
      acks := acks[op := e];
      return Some(codec.name(op) + [BAR] + StatusText(LocallyAccepted) + OK);
    }

    method ConfirmRequest(op: Id, at: int) returns (receipt: Option<Envelope>)
      modifies this
      ensures (State(), receipt) == Confirm(old(State()), op, at)
    {
      hide ReceiptBound, ReceiptFor;
      if op in receipts {
        return Some(receipts[op]);
      }
      if op !in requests || !requests[op].message.body.Request? || !grant.message.body.Grant? {
        return None;
      }
      var request := requests[op];
      if nextIndex > grant.message.body.maxPayments || request.message.body.common.amount > remaining {
        return None;
      }
      var signed := ReceiptFor(request, grant, nextIndex, at);
      if codec.parse(codec.encode(signed)) != Some(signed) || !ReceiptBound(request, signed, grant) {
        return None;
      }
      receipts := receipts[op := signed];
      nextIndex := nextIndex + 1;
      remaining := remaining - request.message.body.common.amount;
      receipt := Some(signed);
    }
  }

  function New(codec: Codec, grant: Envelope, trusted: map<(Id, Digest), PublicKey>): Phone
    requires grant.message.body.Grant?
  {
    Phone(codec, grant, trusted, map[], map[], map[], 1, grant.message.body.total, map[], map[])
  }

  // ---------------------------------------------------------------------------------------------
  // Honesty

  ghost function AmountsOf(receipts: map<Id, Envelope>): Id -> int {
    op => if op in receipts && receipts[op].message.body.Receipt? then receipts[op].message.body.common.amount else 0
  }

  /** Each receipt answers its request under the grant, with an index of its own. */
  ghost predicate ReceiptsOk(grant: Envelope, requests: map<Id, Envelope>, receipts: map<Id, Envelope>, nextIndex: int) {
    && (forall op | op in receipts ::
          && op in requests && ReceiptBound(requests[op], receipts[op], grant)
          && receipts[op].message.body.common.op == op && 1 <= receipts[op].message.body.index < nextIndex)
    && (forall op, other | op in receipts && other in receipts && op != other ::
          receipts[op].message.body.index != receipts[other].message.body.index)
  }

  ghost predicate RequestsOk(requests: map<Id, Envelope>) {
    forall op | op in requests ::
      && (requests[op].message.body.Request? || requests[op].message.body.Ack?)
      && requests[op].message.body.common.op == op
  }

  ghost predicate AcksOk(requests: map<Id, Envelope>, receipts: map<Id, Envelope>, acks: map<Id, Envelope>) {
    forall op | op in acks :: op in requests && op in receipts && AckBound(requests[op], receipts[op], acks[op])
  }

  ghost predicate BudgetOk(grant: Envelope, receipts: map<Id, Envelope>, nextIndex: int, remaining: int) {
    && grant.message.body.Grant? && nextIndex == |receipts| + 1 && remaining >= 0
    && nextIndex <= grant.message.body.maxPayments + 1
    && remaining == grant.message.body.total - Sum(receipts.Keys, AmountsOf(receipts))
  }

  /** Indices one to n without gaps, all within the grant, and a budget that is exactly what the receipts left. */
  ghost predicate Honest(p: Phone) {
    && ReceiptsOk(p.grant, p.requests, p.receipts, p.nextIndex) && RequestsOk(p.requests)
    && AcksOk(p.requests, p.receipts, p.acks) && BudgetOk(p.grant, p.receipts, p.nextIndex, p.remaining)
  }

  lemma NewIsHonest(codec: Codec, grant: Envelope, trusted: map<(Id, Digest), PublicKey>)
    requires Proper(grant) && grant.message.body.Grant?
    ensures Honest(New(codec, grant, trusted))
  {
  }

  lemma ReceiptAdded(grant: Envelope, requests: map<Id, Envelope>, receipts: map<Id, Envelope>, nextIndex: int, op: Id, receipt: Envelope)
    requires ReceiptsOk(grant, requests, receipts, nextIndex) && op in requests && op !in receipts
    requires ReceiptBound(requests[op], receipt, grant) && receipt.message.body.common.op == op
    requires receipt.message.body.index == nextIndex && nextIndex >= 1
    ensures ReceiptsOk(grant, requests, receipts[op := receipt], nextIndex + 1)
  {
    hide ReceiptBound;
  }

  lemma BudgetSpent(grant: Envelope, receipts: map<Id, Envelope>, nextIndex: int, remaining: int, op: Id, receipt: Envelope)
    requires BudgetOk(grant, receipts, nextIndex, remaining) && op !in receipts && receipt.message.body.Receipt?
    requires nextIndex <= grant.message.body.maxPayments && receipt.message.body.common.amount <= remaining
    ensures BudgetOk(grant, receipts[op := receipt], nextIndex + 1, remaining - receipt.message.body.common.amount)
  {
    var after := receipts[op := receipt];
    assert after.Keys == receipts.Keys + {op};
    SumInsert(receipts.Keys, AmountsOf(receipts), AmountsOf(after), op);
    assert AmountsOf(after)(op) == receipt.message.body.common.amount;
    assert |after| == |receipts| + 1;
  }

  lemma ConfirmHonest(p: Phone, op: Id, at: int)
    requires Honest(p)
    ensures Honest(Confirm(p, op, at).0)
  {
    hide ReceiptsOk, RequestsOk, AcksOk, ReceiptBound, ReceiptFor, AckBound;
    var q := Confirm(p, op, at).0;
    if q != p {
      var receipt := ReceiptFor(p.requests[op], p.grant, p.nextIndex, at);
      ReceiptNames(p.requests[op], p.grant, p.nextIndex, at);
      RequestNamed(p.requests, op);
      ReceiptAdded(p.grant, p.requests, p.receipts, p.nextIndex, op, receipt);
      BudgetSpent(p.grant, p.receipts, p.nextIndex, p.remaining, op, receipt);
      AcksStay(p.requests, p.receipts, p.receipts[op := receipt], p.acks);
    }
  }

  lemma RequestNamed(requests: map<Id, Envelope>, op: Id)
    requires RequestsOk(requests) && op in requests && requests[op].message.body.Request?
    ensures requests[op].message.body.common.op == op
  {
  }

  lemma AcksStay(requests: map<Id, Envelope>, before: map<Id, Envelope>, after: map<Id, Envelope>, acks: map<Id, Envelope>)
    requires AcksOk(requests, before, acks) && forall op | op in before :: op in after && after[op] == before[op]
    ensures AcksOk(requests, after, acks)
  {
    hide AckBound;
  }

  lemma ReceiptNames(request: Envelope, grant: Envelope, index: int, at: int)
    requires request.message.body.Request? && grant.message.body.Grant?
    ensures var r := ReceiptFor(request, grant, index, at);
            && r.message.body.Receipt? && r.message.body.index == index
            && r.message.body.common == request.message.body.common
  {
  }

  lemma RequestAdded(p: Phone, op: Id, e: Envelope)
    requires Honest(p) && (op in p.requests ==> p.requests[op] == e)
    requires (e.message.body.Request? || e.message.body.Ack?) && e.message.body.common.op == op
    ensures Honest(p.(requests := p.requests[op := e]))
  {
    hide ReceiptBound, AckBound, BudgetOk;
  }

  lemma AckAdded(p: Phone, op: Id, e: Envelope)
    requires Honest(p) && op in p.requests && op in p.receipts && AckBound(p.requests[op], p.receipts[op], e)
    ensures Honest(p.(acks := p.acks[op := e]))
  {
    hide ReceiptsOk, RequestsOk, BudgetOk, AckBound;
  }

  lemma MessageHonest(p: Phone, instruction: Byte, data: Bytes)
    requires Honest(p)
    ensures Honest(AcceptMessage(p, instruction, data).0)
  {
    hide Honest, AckBound, StatusText;
    var q := AcceptMessage(p, instruction, data).0;
    if q != p {
      var e := p.codec.parse(data).value;
      var op := e.message.body.common.op;
      if instruction == PUT_REQUEST {
        RequestAdded(p, op, e);
      } else {
        AckAdded(p, op, e);
      }
    }
  }

  /** Fragments and cached answers are not part of what honesty speaks of. */
  lemma HonestFrame(p: Phone, fragments: map<Byte, seq<Bytes>>, cache: map<Bytes, Bytes>)
    requires Honest(p)
    ensures Honest(p.(fragments := fragments, cache := cache))
  {
    hide ReceiptsOk, RequestsOk, AcksOk, BudgetOk;
  }

  lemma ExchangeHonest(p: Phone, apdu: Bytes)
    requires Honest(p)
    ensures Honest(Transceive(p, apdu).0)
  {
    hide Honest, AcceptMessage, Concat, FragmentReply, StatusText;
    var c := ParseApdu(apdu);
    hide ParseApdu;
    var q := Process(p, apdu).0;
    assert Honest(q) by {
      HonestFrame(p, p.fragments, p.cache);
      if c.Some? {
        var dropped, more := p.fragments - {c.value.instruction}, Pending(p, c.value.instruction) + [c.value.data];
        HonestFrame(p, dropped, p.cache);
        HonestFrame(p, p.fragments[c.value.instruction := more], p.cache);
        MessageHonest(p.(fragments := dropped), c.value.instruction, Concat(more));
      }
    }
    if Process(p, apdu).1.Some? {
      HonestFrame(q, q.fragments, q.cache[apdu := Process(p, apdu).1.value]);
    }
  }

  datatype Action = Exchanging(apdu: Bytes) | Confirming(op: Id, at: int) | Disconnecting

  function Act(p: Phone, a: Action): Phone {
    match a
    case Exchanging(apdu) => Transceive(p, apdu).0
    case Confirming(op, at) => Confirm(p, op, at).0
    case Disconnecting => Disconnect(p)
  }

  function ActAll(p: Phone, actions: seq<Action>): Phone
    decreases |actions|
  {
    if |actions| == 0 then p else ActAll(Act(p, actions[0]), actions[1..])
  }

  /** Whatever is sent to it, in whatever pieces, the phone stays honest. */
  lemma {:induction false} HonestForEver(p: Phone, actions: seq<Action>)
    requires Honest(p)
    ensures Honest(ActAll(p, actions))
    decreases |actions|
  {
    hide Honest, Transceive, Confirm;
    if |actions| > 0 {
      match actions[0] {
        case Exchanging(apdu) => ExchangeHonest(p, apdu);
        case Confirming(op, at) => ConfirmHonest(p, op, at);
        case Disconnecting => HonestFrame(p, map[], map[]);
      }
      HonestForEver(Act(p, actions[0]), actions[1..]);
    }
  }
}
