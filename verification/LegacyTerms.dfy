/** The same for version 2: what its evidence has to be, and what each submission becomes. */
module LegacyTerms {
  import opened Messages
  import opened Database
  import opened Sums
  import opened SyncV3
  import opened SyncV2
  import opened Authorizations
  import opened Invariant
  import opened Steps
  import opened LegacySteps
  import opened LegacyRollback
  import opened Authenticity
  import opened Outcomes

  /** The envelope is this key's signature over its own version 2 message. */
  predicate SignedOld(e: Envelope, key: PublicKey) {
    e.message.version == 2 && e.signature == Signature(key, e.message)
  }

  /** Signed by the key of an active terminal, in time, and not after the key was withdrawn. */
  predicate OldRequestStands(db: Db, request: Envelope) {
    && request.message.body.Request?
    && var r := request.message.body;
    && 1 <= r.common.amount <= 100_000 && r.common.issuedAt < r.common.expiresAt <= r.common.issuedAt + 120
    && r.posKey in db.keys && r.common.terminal in db.terminals
    && var key, terminal := db.keys[r.posKey], db.terminals[r.common.terminal];
    && SignedOld(request, key.publicKey) && key.purpose == PosKey(r.common.terminal) && key.fingerprint == r.posFingerprint
    && terminal.active && terminal.merchant == r.common.merchant && terminal.merchantUser in db.walletOf
    && !WithdrawnBy(key, r.common.issuedAt)
  }

  /** Signed by a wallet key that was never revoked, for that request, and in the inventory of its authorization. */
  predicate OldReceiptStands(db: Db, op: Id, request: Envelope, receipt: Envelope)
    requires request.message.body.Request?
  {
    && receipt.message.body.LegacyReceipt?
    && var q, r := request.message.body, receipt.message.body;
    && r.common == q.common && r.requestDigest == OfMessage(request.message)
    && r.wallet in db.wallets && r.walletKey in db.keys
    && var key := db.keys[r.walletKey];
    && key.purpose == WalletKey(r.wallet) && key.fingerprint == r.walletFingerprint && !key.revoked
    && SignedOld(receipt, key.publicKey)
    && r.auth in db.authorizations && r.auth !in db.commitments
    && var row := db.authorizations[r.auth];
    && row.wallet == r.wallet && row.walletKey == r.walletKey && q.common.amount <= row.maxPayment
    && row.issuedAt <= q.common.issuedAt && q.common.expiresAt <= row.expiresAt
    && op in db.inventory && db.inventory[op].wallet == r.wallet && db.inventory[op].auth == r.auth
    && db.inventory[op].receiptDigest == OfMessage(receipt.message)
  }

  predicate OldAckStands(db: Db, request: Envelope, receipt: Envelope, ack: Envelope)
    requires request.message.body.Request? && request.message.body.posKey in db.keys && receipt.message.body.LegacyReceipt?
  {
    && ack.message.body.Ack?
    && var r, k, key := receipt.message.body, ack.message.body, db.keys[request.message.body.posKey];
    && SignedOld(ack, key.publicKey) && k.posKey == request.message.body.posKey && k.posFingerprint == key.fingerprint
    && k.common == r.common && k.wallet == r.wallet && k.auth == r.auth && k.receiptDigest == OfMessage(receipt.message)
    && k.common.issuedAt <= k.acceptedAt <= k.common.expiresAt && !WithdrawnBy(key, k.acceptedAt)
  }

  predicate OldAuthentic(db: Db, ev: LegacyEvidence) {
    && ev.request.Wire? && ev.receipt.Wire? && (ev.ack.Some? ==> ev.ack.value.Wire?)
    && OldRequestStands(db, ev.request.envelope) && ev.request.envelope.message.body.common.op == ev.op
    && OldReceiptStands(db, ev.op, ev.request.envelope, ev.receipt.envelope)
    && (ev.ack.Some? ==> OldAckStands(db, ev.request.envelope, ev.receipt.envelope, ev.ack.value.envelope))
  }

  /** What is known of the operation is this evidence, or its nonce is new. */
  predicate OldConsistent(db: Db, ev: LegacyEvidence)
    requires ev.request.Wire? && ev.receipt.Wire? && ev.request.envelope.message.body.Request?
  {
    if ev.op in db.payments then
      var p := db.payments[ev.op];
      && p.request == ev.request.envelope && p.receipt == ev.receipt.envelope
      && (p.ack.Some? && ev.ack.Some? ==> ev.ack.value == Wire(p.ack.value))
    else forall o | o in db.payments :: db.payments[o].nonce != ev.request.envelope.message.body.common.nonce
  }

  predicate OldAcceptable(db: Db, user: Id, ev: LegacyEvidence) {
    && OldAuthentic(db, ev) && OldConsistent(db, ev)
    && PartyOf(db, user, ev.receipt.envelope.message.body.wallet, ev.request.envelope.message.body.common.terminal)
  }

  lemma AckFitsTerms(db: Db, request: Envelope, receipt: Envelope, ack: Wire)
    requires OldRequestStands(db, request) && receipt.message.body.LegacyReceipt?
    requires receipt.message.body.common == request.message.body.common
    ensures
      (ack.Wire? && OldAckStands(db, request, receipt, ack.envelope)) <==>
      && Parse2(ack).Some?
      && LegacyAckFits(request, receipt, ack.envelope, request.message.body.posKey, db.keys[request.message.body.posKey])
  {
    if ack.Wire? && ack.envelope.message.body.Ack? {
      ReviewTerms(db.keys[request.message.body.posKey], ack.envelope.message.body.acceptedAt);
    }
    hide RequiresReview, WithdrawnBy;
  }

  lemma RequestParses(db: Db, request: Envelope)
    ensures OldRequestStands(db, request) ==> Parse2(Wire(request)).Some?
  {
    hide WithdrawnBy;
  }

  lemma ReceiptParses(db: Db, op: Id, request: Envelope, receipt: Envelope)
    requires OldRequestStands(db, request)
    ensures OldReceiptStands(db, op, request, receipt) ==> Parse2(Wire(receipt)).Some?
  {
    hide WithdrawnBy;
  }

  /** The first two checks without their acknowledgement. */
  lemma OldValidates(db: Db, op: Id, request: Envelope, receipt: Envelope, ack: Option<Wire>)
    requires Parse2(Wire(request)).Some? && Parse2(Wire(receipt)).Some?
    ensures
      LegacyValidate(db, op, request, receipt, ack).Some? <==>
      && OldRequestStands(db, request) && OldReceiptStands(db, op, request, receipt)
      && (ack.Some? ==> ack.value.Wire? && OldAckStands(db, request, receipt, ack.value.envelope))
  {
    if request.message.body.Request? && request.message.body.posKey in db.keys {
      ReviewTerms(db.keys[request.message.body.posKey], request.message.body.common.issuedAt);
    }
    if (&& OldRequestStands(db, request) && receipt.message.body.LegacyReceipt? && ack.Some?
        && receipt.message.body.common == request.message.body.common) {
      AckFitsTerms(db, request, receipt, ack.value);
    }
    hide RequiresReview, WithdrawnBy, LegacyAckFits, OldAckStands;
  }

  predicate OldRecorded(v: LegacyVerdict) {
    !v.LegacyRefuse?
  }

  /** The judgement of an operation that has not ended, once its messages are read. */
  lemma OldJudged(db: Db, user: Id, ev: LegacyEvidence)
    requires !Ended(db, ev.op)
    ensures
      var v := JudgeLegacy(db, user, ev);
      OldRecorded(v) ==>
        && Parse2(ev.request).Some? && Parse2(ev.receipt).Some? && ev.ack != Some(Undecodable)
        && OperationOf(ev.request.envelope.message.body) == Some(ev.op)
        && ev.request.envelope.message.body.Request? && OldConsistent(db, ev)
        && var ctx := LegacyValidate(db, ev.op, ev.request.envelope, ev.receipt.envelope, ev.ack);
        && ctx.Some? && Authorized(db, user, ctx.value.wallet, ev.request.envelope.message.body.common.terminal)
  {
    if ev.request.Wire? && ev.request.envelope.message.body.Request? {
      NonceTerms(db, ev.request.envelope.message.body.common.nonce);
    }
    hide LegacyValidate, NonceTaken, Authorized, LegacyGuardsPass, Valid2;
  }

  lemma OldFields(db: Db, ev: LegacyEvidence)
    requires OldAuthentic(db, ev)
    ensures Parse2(ev.request).Some? && Parse2(ev.receipt).Some? && ev.ack != Some(Undecodable)
    ensures OperationOf(ev.request.envelope.message.body) == Some(ev.op) == OperationOf(ev.receipt.envelope.message.body)
  {
    RequestParses(db, ev.request.envelope);
    ReceiptParses(db, ev.op, ev.request.envelope, ev.receipt.envelope);
    hide OldAckStands, WithdrawnBy;
  }

  lemma OldReaches(db: Db, user: Id, ev: LegacyEvidence)
    requires !Ended(db, ev.op) && OldAuthentic(db, ev) && OldConsistent(db, ev)
    requires LegacyValidate(db, ev.op, ev.request.envelope, ev.receipt.envelope, ev.ack).Some?
    requires Authorized(db, user, LegacyValidate(db, ev.op, ev.request.envelope, ev.receipt.envelope, ev.ack).value.wallet,
                        ev.request.envelope.message.body.common.terminal)
    ensures
      var v, ctx := JudgeLegacy(db, user, ev), LegacyValidate(db, ev.op, ev.request.envelope, ev.receipt.envelope, ev.ack).value;
      && ctx.request.message.body.Request?
      && v == (if ev.ack.None? then LegacyHold(ctx)
               else if !LegacyGuardsPass(db, ctx) then LegacyReject(ctx)
               else if (ev.op, DEBIT) in db.ledger || (ev.op, CREDIT) in db.ledger then LegacyRefuse(LegacyConstraint)
               else LegacySettle(ctx))
  {
    OldFields(db, ev);
    NonceTerms(db, ev.request.envelope.message.body.common.nonce);
    hide LegacyValidate, NonceTaken, Authorized, LegacyGuardsPass, Valid2, OldRequestStands, OldReceiptStands, OldAckStands;
  }

  lemma OldWallet(db: Db, ev: LegacyEvidence)
    requires ev.request.Wire? && ev.receipt.Wire?
    requires LegacyValidate(db, ev.op, ev.request.envelope, ev.receipt.envelope, ev.ack).Some?
    ensures var ctx := LegacyValidate(db, ev.op, ev.request.envelope, ev.receipt.envelope, ev.ack).value;
            && ev.receipt.envelope.message.body.LegacyReceipt? && ctx.wallet == ev.receipt.envelope.message.body.wallet
            && ctx.auth == ev.receipt.envelope.message.body.auth && ctx.op == ev.op && ctx.request == ev.request.envelope
            && ev.request.envelope.message.body.Request? && ev.request.envelope.message.body.posKey in db.keys
  {
    hide LegacyAckFits, RequiresReview;
  }

  lemma FreeLedger(db: Db, op: Id)
    requires LedgerOk(db.ledger, db.payments, db.wallets) && !Ended(db, op)
    ensures (op, DEBIT) !in db.ledger && (op, CREDIT) !in db.ledger
  {
  }

  /** Exactly acceptable evidence is recorded: held without its acknowledgement, settled when its authorization can still
    pay, rejected when it cannot. Anything else changes nothing. */
  lemma OldOutcome(db: Db, opening: map<Id, int>, user: Id, ev: LegacyEvidence)
    requires Inv(db, opening) && !Ended(db, ev.op)
    ensures OldRecorded(JudgeLegacy(db, user, ev)) <==> OldAcceptable(db, user, ev)
    ensures !OldAcceptable(db, user, ev) ==> SyncLegacy(db, user, ev) == db
    ensures OldAcceptable(db, user, ev) ==>
              && OldAuthentic(db, ev)
              && var row := db.authorizations[ev.receipt.envelope.message.body.auth];
              var amount := ev.request.envelope.message.body.common.amount;
              var pays := row.active && amount <= row.remaining && 1 <= row.payments;
              var v := JudgeLegacy(db, user, ev);
              && (v.LegacyHold? <==> ev.ack.None?)
              && (v.LegacySettle? <==> ev.ack.Some? && pays)
              && (v.LegacyReject? <==> ev.ack.Some? && !pays)
  {
    hide *;
    InvParts(db, opening);
    FreeLedger(db, ev.op);
    var v := JudgeLegacy(db, user, ev);
    OldJudged(db, user, ev);
    OldShape(db, user, ev);
    if OldRecorded(v) {
      OldValidates(db, ev.op, ev.request.envelope, ev.receipt.envelope, ev.ack);
      OldWallet(db, ev);
      PartyTerms(db, user, ev.receipt.envelope.message.body.wallet, ev.request.envelope.message.body.common.terminal);
      OldAcceptableBuild(db, user, ev);
    } else {
      RefusedLegacyIsIdle(db, user, ev);
    }
    if OldAcceptable(db, user, ev) {
      OldFields(db, ev);
      OldTerms(db, ev);
      OldValidates(db, ev.op, ev.request.envelope, ev.receipt.envelope, ev.ack);
      OldWallet(db, ev);
      PartyTerms(db, user, ev.receipt.envelope.message.body.wallet, ev.request.envelope.message.body.common.terminal);
      OldReaches(db, user, ev);
      var ctx := LegacyValidate(db, ev.op, ev.request.envelope, ev.receipt.envelope, ev.ack).value;
      ContextRows(db, ev, ctx);
      if Spendable(db.authorizations[ctx.auth], ctx.Amount()) {
        CoveredPasses(db, opening, ctx);
      } else {
        UnspendableFails(db, ctx);
      }
      SpendableTerms(db.authorizations[ctx.auth], ctx.Amount());
      Recorders(v);
    }
  }

  lemma Recorders(v: LegacyVerdict)
    ensures OldRecorded(v) <==> v.LegacyHold? || v.LegacySettle? || v.LegacyReject?
  {
  }

  lemma SpendableTerms(row: Authorization, amount: int)
    ensures Spendable(row, amount) <==> row.active && amount <= row.remaining && 1 <= row.payments
  {
  }

  lemma UnspendableFails(db: Db, ctx: LegacyContext)
    requires ctx.request.message.body.Request? && ctx.auth in db.authorizations
    requires !Spendable(db.authorizations[ctx.auth], ctx.Amount())
    ensures !LegacyGuardsPass(db, ctx)
  {
  }

  lemma ContextRows(db: Db, ev: LegacyEvidence, ctx: LegacyContext)
    requires OldAuthentic(db, ev) && ctx.auth == ev.receipt.envelope.message.body.auth
    requires ctx.wallet == ev.receipt.envelope.message.body.wallet && ctx.request == ev.request.envelope
    ensures ctx.request.message.body.Request? && ctx.Amount() == ev.request.envelope.message.body.common.amount
    ensures ctx.auth in db.authorizations && ctx.auth !in db.commitments && ctx.wallet in db.wallets
    ensures db.authorizations[ctx.auth].wallet == ctx.wallet
  {
    hide OldAckStands, WithdrawnBy;
  }

  lemma OldShape(db: Db, user: Id, ev: LegacyEvidence)
    ensures OldAcceptable(db, user, ev) ==>
              && OldAuthentic(db, ev) && OldConsistent(db, ev)
              && ev.receipt.envelope.message.body.LegacyReceipt?
              && PartyOf(db, user, ev.receipt.envelope.message.body.wallet, ev.request.envelope.message.body.common.terminal)
  {
    hide OldConsistent, PartyOf, OldAckStands, OldRequestStands;
  }

  lemma OldTerms(db: Db, ev: LegacyEvidence)
    requires OldAuthentic(db, ev)
    ensures ev.request.Wire? && ev.receipt.Wire? && ev.request.envelope.message.body.Request?
    ensures OldRequestStands(db, ev.request.envelope) && OldReceiptStands(db, ev.op, ev.request.envelope, ev.receipt.envelope)
    ensures ev.receipt.envelope.message.body.LegacyReceipt? && ev.request.envelope.message.body.posKey in db.keys
    ensures ev.ack.Some? ==> ev.ack.value.Wire? && OldAckStands(db, ev.request.envelope, ev.receipt.envelope, ev.ack.value.envelope)
    ensures ev.receipt.envelope.message.body.auth in db.authorizations
  {
    hide OldAckStands, WithdrawnBy;
  }

  lemma OldAcceptableBuild(db: Db, user: Id, ev: LegacyEvidence)
    requires ev.request.Wire? && ev.receipt.Wire? && (ev.ack.Some? ==> ev.ack.value.Wire?)
    requires ev.request.envelope.message.body.Request? && OperationOf(ev.request.envelope.message.body) == Some(ev.op)
    requires OldRequestStands(db, ev.request.envelope) && OldReceiptStands(db, ev.op, ev.request.envelope, ev.receipt.envelope)
    requires ev.request.envelope.message.body.posKey in db.keys && ev.receipt.envelope.message.body.LegacyReceipt?
    requires ev.ack.Some? ==> OldAckStands(db, ev.request.envelope, ev.receipt.envelope, ev.ack.value.envelope)
    requires OldConsistent(db, ev)
    requires PartyOf(db, user, ev.receipt.envelope.message.body.wallet, ev.request.envelope.message.body.common.terminal)
    ensures OldAcceptable(db, user, ev)
  {
    hide OldAckStands, OldRequestStands, OldReceiptStands, OldConsistent, PartyOf;
  }

  lemma RefusedLegacyIsIdle(db: Db, user: Id, ev: LegacyEvidence)
    requires !OldRecorded(JudgeLegacy(db, user, ev))
    ensures SyncLegacy(db, user, ev) == db
  {
    hide JudgeLegacy;
  }
}
