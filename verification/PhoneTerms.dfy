/** What the phone confirms, takes and answers, in terms of the messages, its own tables and the bytes of its answers. */
module PhoneTerms {
  import opened Messages
  import opened Utf8
  import opened Apdu
  import opened Phone
  import opened Authenticity

  /** The bytes of an ASCII text. */
  function Ascii(s: string): Bytes {
    seq(|s|, i requires 0 <= i < |s| => if s[i] < 0x80 as char then s[i] as int else 0)
  }

  // ---------------------------------------------------------------------------------------------
  // Confirming

  /** The stored request can be confirmed now: an index and the amount are left, and it is within the grant's limits and
    its time. */
  predicate Confirmable(p: Phone, op: Id, at: int) {
    && op in p.requests && p.requests[op].message.version == 3 && p.requests[op].message.body.Request?
    && p.grant.message.version == 3 && p.grant.message.body.Grant?
    && var c, g := p.requests[op].message.body.common, p.grant.message.body;
    && Payable(c) && 1 <= p.nextIndex <= g.maxPayments && c.amount <= p.remaining
    && c.amount <= g.maxPayment && c.amount <= g.total
    && g.grantedAt <= c.issuedAt <= at <= c.expiresAt <= g.spendExpiresAt && c.expiresAt <= c.issuedAt + g.maxLifetime
  }

  /** A grant no signature of which is looked at. */
  predicate GrantFits(g: Body) {
    && g.Grant? && 1 <= g.maxPayment <= MAX_INT64 && 1 <= g.maxPayments <= MAX_INT64 && 1 <= g.maxLifetime <= 120
    && 1 <= g.total <= g.maxPayment * g.maxPayments <= MAX_INT64
    && g.grantedAt < g.spendExpiresAt && g.walletFingerprint == OfKey(g.walletPublicKey)
  }

  lemma GrantFitsTerms(grant: Envelope)
    ensures Proper(grant) && grant.message.body.Grant? <==> grant.message.version == 3 && GrantFits(grant.message.body)
  {
  }

  lemma BindingTerms(request: Envelope, grant: Envelope, index: int, at: int)
    requires request.message.body.Request? && grant.message.body.Grant?
    requires grant.message.version == 3 && GrantFits(grant.message.body)
    ensures
      var c, g := request.message.body.common, grant.message.body;
      ReceiptBound(request, ReceiptFor(request, grant, index, at), grant) <==>
      && request.message.version == 3 && Payable(c) && 1 <= index <= g.maxPayments
      && c.amount <= g.maxPayment && c.amount <= g.total
      && g.grantedAt <= c.issuedAt <= at <= c.expiresAt <= g.spendExpiresAt && c.expiresAt <= c.issuedAt + g.maxLifetime
  {
  }

  lemma WrittenReceipt(request: Envelope, grant: Envelope, index: int, at: int)
    requires request.message.body.Request? && grant.message.body.Grant?
    requires ReceiptBound(request, ReceiptFor(request, grant, index, at), grant)
    ensures var receipt := ReceiptFor(request, grant, index, at);
            ReceiptStands(request, receipt, grant) && receipt.message.body.index == index && receipt.message.body.confirmedAt == at
  {
  }

  /** The receipt of this request under this grant with this index and moment: its fields and its signature are fixed. */
  lemma OneReceipt(request: Envelope, grant: Envelope, receipt: Envelope, other: Envelope)
    requires request.message.body.Request? && grant.message.body.Grant?
    requires ReceiptStands(request, receipt, grant) && ReceiptStands(request, other, grant)
    requires receipt.message.body.index == other.message.body.index
    requires receipt.message.body.confirmedAt == other.message.body.confirmedAt
    ensures receipt == other
  {
  }

  /** The request is confirmed with this receipt: the next index, the amount out of the budget, everything else as it was. */
  ghost predicate ConfirmedAs(p: Phone, q: Phone, op: Id, at: int, receipt: Envelope)
    requires Confirmable(p, op, at)
  {
    && ReceiptStands(p.requests[op], receipt, p.grant)
    && receipt.message.body.index == p.nextIndex && receipt.message.body.confirmedAt == at
    && q == p.(receipts := p.receipts[op := receipt], nextIndex := p.nextIndex + 1,
               remaining := p.remaining - p.requests[op].message.body.common.amount)
  }

  /** The receipt it would get has a byte form. */
  ghost predicate Writable(p: Phone, op: Id, at: int)
    requires Confirmable(p, op, at)
  {
    forall receipt: Envelope | ReceiptStands(p.requests[op], receipt, p.grant) && receipt.message.body.index == p.nextIndex
                               && receipt.message.body.confirmedAt == at ::
      p.codec.parse(p.codec.encode(receipt)) == Some(receipt)
  }

  lemma WritableTerms(p: Phone, op: Id, at: int, receipt: Envelope)
    requires Confirmable(p, op, at) && ReceiptStands(p.requests[op], receipt, p.grant)
    requires receipt.message.body.index == p.nextIndex && receipt.message.body.confirmedAt == at
    ensures Writable(p, op, at) <==> p.codec.parse(p.codec.encode(receipt)) == Some(receipt)
  {
    forall other: Envelope | ReceiptStands(p.requests[op], other, p.grant) && other.message.body.index == p.nextIndex
                             && other.message.body.confirmedAt == at
      ensures other == receipt
    {
      OneReceipt(p.requests[op], p.grant, receipt, other);
    }
    hide ReceiptStands, Payable;
  }

  /** A request is confirmed exactly when it was before, or can be; the first time with the next index and its amount, and
    afterwards with the same receipt. */
  lemma ConfirmedIff(p: Phone, op: Id, at: int)
    requires p.grant.message.version == 3 && GrantFits(p.grant.message.body)
    ensures
      var (q, receipt) := Confirm(p, op, at);
      if op in p.receipts then q == p && receipt == Some(p.receipts[op])
      else if Confirmable(p, op, at) && Writable(p, op, at) then receipt.Some? && ConfirmedAs(p, q, op, at, receipt.value)
      else q == p && receipt.None?
  {
    if op in p.requests && p.requests[op].message.body.Request? {
      BindingTerms(p.requests[op], p.grant, p.nextIndex, at);
      if ReceiptBound(p.requests[op], ReceiptFor(p.requests[op], p.grant, p.nextIndex, at), p.grant) {
        WrittenReceipt(p.requests[op], p.grant, p.nextIndex, at);
        if Confirmable(p, op, at) {
          WritableTerms(p, op, at, ReceiptFor(p.requests[op], p.grant, p.nextIndex, at));
        }
      }
    }
    hide Writable, ReceiptBound, ReceiptStands, ReceiptFor, GrantFits, Payable;
  }

  // ---------------------------------------------------------------------------------------------
  // Taking messages

  /** The terminal key the message names is one the phone trusts. */
  predicate Recognised(p: Phone, e: Envelope)
    requires e.message.body.Request? || e.message.body.Ack?
  {
    (e.message.body.posKey, e.message.body.posFingerprint) in p.trusted
  }

  /** The message is that key's signature over itself. */
  predicate Genuine(p: Phone, e: Envelope)
    requires (e.message.body.Request? || e.message.body.Ack?) && Recognised(p, e)
  {
    e.signature == Signature(p.trusted[(e.message.body.posKey, e.message.body.posFingerprint)], e.message)
  }

  /** The acknowledgement repeats the stored request and receipt. */
  predicate Acknowledges(request: Envelope, receipt: Envelope, ack: Envelope) {
    && request.message.body.Request? && receipt.message.body.Receipt? && ack.message.body.Ack?
    && var q, r, k := request.message.body, receipt.message.body, ack.message.body;
    && k.common == r.common && k.wallet == r.wallet && k.auth == r.auth
    && k.posKey == q.posKey && k.posFingerprint == q.posFingerprint && k.receiptDigest == OfMessage(receipt.message)
    && r.confirmedAt <= k.acceptedAt <= k.common.expiresAt && ack.message.version == 3
  }

  lemma AcknowledgesTerms(request: Envelope, receipt: Envelope, grant: Envelope, ack: Envelope)
    requires ReceiptBound(request, receipt, grant)
    ensures AckBound(request, receipt, ack) <==> Acknowledges(request, receipt, ack)
  {
  }

  /** How a whole request is answered. */
  lemma RequestAnswered(p: Phone, data: Bytes)
    requires p.codec.parse(data).Some?
    ensures
      var e, (q, reply) := p.codec.parse(data).value, AcceptMessage(p, PUT_REQUEST, data);
      if !(e.message.body.Request? || e.message.body.Ack?) then q == p && reply.None?
      else
        var op := e.message.body.common.op;
        if !Recognised(p, e) then q == p && reply == Some([0x69, 0x85])
        else if !Genuine(p, e) || (op in p.requests && p.requests[op] != e) then q == p && reply == Some([0x6A, 0x80])
        else
          && q == p.(requests := p.requests[op := e])
          && reply == Some(p.codec.name(op) + Ascii("|") + Ascii("REQUEST_RECEIVED") + [0x90, 0x00])
  {
    StatusTexts();
    hide Ascii;
  }

  /** How a whole acknowledgement is answered. */
  lemma AckAnswered(p: Phone, data: Bytes)
    requires p.codec.parse(data).Some?
    requires forall op | op in p.receipts :: op in p.requests && ReceiptBound(p.requests[op], p.receipts[op], p.grant)
    ensures
      var e, (q, reply) := p.codec.parse(data).value, AcceptMessage(p, PUT_ACK, data);
      if !(e.message.body.Request? || e.message.body.Ack?) then q == p && reply.None?
      else
        var op := e.message.body.common.op;
        if !Recognised(p, e) || !Genuine(p, e) then q == p && reply == Some([0x6A, 0x80])
        else if op !in p.receipts then q == p && reply.None?
        else if !Acknowledges(p.requests[op], p.receipts[op], e) || (op in p.acks && p.acks[op] != e) then
          q == p && reply == Some([0x6A, 0x80])
        else
          && q == p.(acks := p.acks[op := e])
          && reply == Some(p.codec.name(op) + Ascii("|") + Ascii("LOCALLY_ACCEPTED") + [0x90, 0x00])
  {
    StatusTexts();
    var e := p.codec.parse(data).value;
    if (e.message.body.Request? || e.message.body.Ack?) && e.message.body.common.op in p.receipts {
      var op := e.message.body.common.op;
      AcknowledgesTerms(p.requests[op], p.receipts[op], p.grant, e);
    }
    hide Ascii, AckBound, ReceiptBound, Acknowledges;
  }

  /** A fragment out of turn is refused, and one that makes the message too long drops it. */
  lemma FragmentRefused(p: Phone, c: Command)
    ensures c.sequence != |Pending(p, c.instruction)| ==> AcceptFragment(p, c) == (p, Some([0x6A, 0x80]))
    ensures c.sequence == |Pending(p, c.instruction)| && |Concat(Pending(p, c.instruction) + [c.data])| > 4096 ==>
              AcceptFragment(p, c) == (p.(fragments := p.fragments - {c.instruction}), Some([0x6A, 0x80]))
  {
  }

  lemma Unreadable(p: Phone, instruction: Byte, data: Bytes)
    requires p.codec.parse(data).None?
    ensures AcceptMessage(p, instruction, data) == (p, Some([0x6A, 0x80]))
  {
  }

  lemma StatusTexts()
    ensures StatusText(RequestReceived) == Ascii("REQUEST_RECEIVED") && StatusText(Reserved) == Ascii("RESERVED")
    ensures StatusText(LocallyAccepted) == Ascii("LOCALLY_ACCEPTED") && [BAR] == Ascii("|")
  {
  }

  // ---------------------------------------------------------------------------------------------
  // Asking

  /** The fields of a command frame are these bytes. */
  lemma FrameLayout(instruction: int, sequence: int, last: bool, data: Bytes)
    ensures
      var frame := BuildApdu(instruction, sequence, last, data);
      && (frame.Some? <==> instruction in {0x10, 0x20, 0x30, 0x40, 0x50} && 0 <= sequence < 256 && |data| < 256)
      && (frame.Some? ==> frame.value == [0x80] + [instruction] + [sequence] + [if last then 1 else 0] + [|data|] + data)
  {
  }

  /** The k-th fragment of a message is its k-th stretch of 160 bytes. */
  lemma {:induction false} CutAt(data: Bytes, k: nat)
    requires 160 * k < |data|
    ensures k < |Cut(data, 160)|
    ensures Cut(data, 160)[k] == data[160 * k..if 160 * k + 160 < |data| then 160 * k + 160 else |data|]
    ensures k == |Cut(data, 160)| - 1 <==> |data| <= 160 * k + 160
    decreases k
  {
    if k > 0 {
      var rest := data[160..];
      CutAt(rest, k - 1);
      var end := if 160 * k + 160 < |data| then 160 * k + 160 else |data|;
      assert rest[160 * (k - 1)..end - 160] == data[160 * k..end];
    } else if |data| > 160 {
      assert |Cut(data[160..], 160)| >= 1;
    }
  }

  lemma {:induction false} CutEnds(data: Bytes, k: nat)
    requires 160 * k >= |data|
    ensures k >= |Cut(data, 160)|
    decreases k
  {
    if |data| > 160 {
      CutEnds(data[160..], k - 1);
    }
  }

  /** A read answers with one stretch of 160 bytes, marked when it is the last, and beyond the end with its own word. */
  lemma ReadAnswered(message: Bytes, sequence: nat)
    requires 1 <= |message| <= 4096
    ensures
      var from, to := 160 * sequence, 160 * sequence + 160;
      FragmentReply(message, sequence) ==
      if from >= |message| then [0x6A, 0x82]
      else if to >= |message| then [1] + message[from..] + [0x90, 0x00]
      else [0] + message[from..to] + [0x90, 0x00]
  {
    if 160 * sequence >= |message| {
      CutEnds(message, sequence);
    } else {
      CutAt(message, sequence);
    }
    hide Cut;
  }

  /** A frame that asks for the status of an operation is answered by its name and how far it is. */
  lemma StatusAnswered(p: Phone, apdu: Bytes, op: Id)
    requires p.codec.id(p.codec.name(op)) == Some(op) && Asciis(p.codec.name(op))
    requires ParseApdu(apdu).Some? && ParseApdu(apdu).value.data == p.codec.name(op) && ParseApdu(apdu).value.instruction == 0x20
    ensures
      var c := ParseApdu(apdu).value;
      Process(p, apdu) ==
      (p, Some(if c.sequence != 0 || !c.last then [0x6A, 0x80]
               else if op in p.acks then p.codec.name(op) + Ascii("|") + Ascii("LOCALLY_ACCEPTED") + [0x90, 0x00]
               else if op in p.receipts then p.codec.name(op) + Ascii("|") + Ascii("RESERVED") + [0x90, 0x00]
               else if op in p.requests then p.codec.name(op) + Ascii("|") + Ascii("REQUEST_RECEIVED") + [0x90, 0x00]
               else [0x6A, 0x82]))
  {
    StatusTexts();
    hide Ascii, StatusText, ParseApdu, Asciis, AcceptFragment;
  }

  /** A frame that asks for the receipt, or the grant, of a confirmed operation gets its fragment of it. */
  lemma ReadIsAnswered(p: Phone, apdu: Bytes, op: Id)
    requires p.codec.id(p.codec.name(op)) == Some(op) && Asciis(p.codec.name(op))
    requires ParseApdu(apdu).Some? && ParseApdu(apdu).value.data == p.codec.name(op)
    requires ParseApdu(apdu).value.instruction == 0x30 || ParseApdu(apdu).value.instruction == 0x50
    ensures op !in p.receipts ==> Process(p, apdu) == (p, Some([0x69, 0x85]))
    ensures
      op in p.receipts ==>
        var message := p.codec.encode(if ParseApdu(apdu).value.instruction == 0x30 then p.receipts[op] else p.grant);
        1 <= |message| <= 4096 ==> Process(p, apdu) == (p, Some(FragmentReply(message, ParseApdu(apdu).value.sequence)))
  {
    hide ParseApdu, Asciis, AcceptFragment, FragmentReply, StatusReply;
  }
}
