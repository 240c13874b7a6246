/** Reconciliation of the historical version 2 evidence, which spends only inventoried authorizations
  without a commitment. */
module SyncV2 {
  import opened Messages
  import opened Database

  datatype LegacyEvidence = LegacyEvidence(op: Id, request: Wire, receipt: Wire, ack: Option<Wire>)

  datatype LegacyReply =
    | LegacyForbidden | LegacyMismatch | LegacyContentMismatch | LegacyAckMismatch | HistoricalRejection
    | LegacyReview | NonceReused | LegacyConstraint | LegacyAckRequired | LegacyAccepted | LegacyRejected

  datatype LegacyContext = LegacyContext(op: Id, auth: Id, wallet: Id, merchantWallet: Id,
                                         request: Envelope, receipt: Envelope, ack: Option<Envelope>)
  {
    function Amount(): int
      requires request.message.body.Request?
    {
      request.message.body.common.amount
    }
  }

  datatype LegacyVerdict =
    | LegacyRefuse(reply: LegacyReply)
    | LegacyHold(ctx: LegacyContext)
    | LegacyReject(ctx: LegacyContext)
    | LegacySettle(ctx: LegacyContext)

  predicate LegacyAckFits(request: Envelope, receipt: Envelope, ack: Envelope, posKeyId: Id, posKey: Key)
    requires request.message.body.Request? && receipt.message.body.LegacyReceipt?
  {
    && ack.message.body.Ack?
    && var rp, ap := receipt.message.body, ack.message.body;
    && rp.common == ap.common && rp.wallet == ap.wallet && rp.auth == ap.auth
    && ap.receiptDigest == DigestOf(receipt)
    && ap.posKey == posKeyId && !RequiresReview(posKey, ap.acceptedAt)
    && posKey.fingerprint == ap.posFingerprint && Verifies(ack, posKey.publicKey)
  }

  function LegacyValidate(db: Db, op: Id, request: Envelope, receipt: Envelope, ack: Option<Wire>): (r: Option<LegacyContext>)
    ensures r.Some? ==>
              && request.message.body.Request? && receipt.message.body.LegacyReceipt?
              && r.value.op == op && r.value.request == request && r.value.receipt == receipt
              && (ack.None? <==> r.value.ack.None?) && (ack.Some? ==> ack.value == Wire(r.value.ack.value))
              && r.value.auth in db.authorizations && r.value.auth !in db.commitments
              && r.value.wallet in db.wallets && db.authorizations[r.value.auth].wallet == r.value.wallet
              && request.message.body.common.terminal in db.terminals
              && var owner := db.terminals[request.message.body.common.terminal].merchantUser;
              && owner in db.walletOf && r.value.merchantWallet == db.walletOf[owner]
  {
    if !(request.message.body.Request? && receipt.message.body.LegacyReceipt?) then None
    else
      var rq, rp := request.message.body, receipt.message.body;
      if !(rq.common == rp.common && rp.requestDigest == DigestOf(request)) then None
      else if !(rq.posKey in db.keys && rq.common.terminal in db.terminals) then None
      else
        var posKey, terminal := db.keys[rq.posKey], db.terminals[rq.common.terminal];
        if !(&& posKey.purpose == PosKey(rq.common.terminal) && posKey.fingerprint == rq.posFingerprint
             && terminal.active && terminal.merchant == rq.common.merchant
             && Verifies(request, posKey.publicKey) && !RequiresReview(posKey, rq.common.issuedAt)) then None
        else if !(&& rp.wallet in db.wallets && rp.walletKey in db.keys
                  && db.keys[rp.walletKey].purpose == WalletKey(rp.wallet)
                  && db.keys[rp.walletKey].fingerprint == rp.walletFingerprint
                  && Verifies(receipt, db.keys[rp.walletKey].publicKey)
                  && !db.keys[rp.walletKey].revoked) then None
        else if !(&& rp.auth in db.authorizations && db.authorizations[rp.auth].wallet == rp.wallet
                  && db.authorizations[rp.auth].walletKey == rp.walletKey && rp.auth !in db.commitments
                  && op in db.inventory
                  && db.inventory[op] == Inventoried(rp.wallet, rp.auth, DigestOf(receipt))
                  && db.authorizations[rp.auth].issuedAt <= rq.common.issuedAt
                  && rq.common.expiresAt <= db.authorizations[rp.auth].expiresAt
                  && rq.common.amount <= db.authorizations[rp.auth].maxPayment) then None
        else if ack.Some? && !(&& Parse2(ack.value).Some?
                               && LegacyAckFits(request, receipt, ack.value.envelope, rq.posKey, posKey)) then None
        else if terminal.merchantUser !in db.walletOf then None
        else
          Some(LegacyContext(op, rp.auth, rp.wallet, db.walletOf[terminal.merchantUser], request, receipt,
                             if ack.Some? then Some(ack.value.envelope) else None))
  }

  predicate LegacyGuardsPass(db: Db, ctx: LegacyContext)
    requires ctx.request.message.body.Request?
  {
    && ctx.auth in db.authorizations && ctx.wallet in db.wallets
    && db.authorizations[ctx.auth].active
    && db.authorizations[ctx.auth].remaining >= ctx.Amount() && db.authorizations[ctx.auth].payments > 0
    && db.wallets[ctx.wallet].balance >= ctx.Amount()
  }

  function JudgeLegacy(db: Db, user: Id, ev: LegacyEvidence): LegacyVerdict {
    var request, receipt := Parse2(ev.request), Parse2(ev.receipt);
    if request.None? || receipt.None? || ev.ack == Some(Undecodable) then LegacyRefuse(LegacyReview)
    else if (|| OperationOf(request.value.message.body) != Some(ev.op)
             || OperationOf(receipt.value.message.body) != Some(ev.op)) then LegacyRefuse(LegacyMismatch)
    else
      var known := ev.op in db.payments;
      if known && (db.payments[ev.op].request != request.value || db.payments[ev.op].receipt != receipt.value) then
        LegacyRefuse(LegacyContentMismatch)
      else if (&& known && db.payments[ev.op].ack.Some? && ev.ack.Some?
               && ev.ack.value != Wire(db.payments[ev.op].ack.value)) then LegacyRefuse(LegacyAckMismatch)
      else if known && db.payments[ev.op].Final() then
        if !Authorized(db, user, db.payments[ev.op].wallet, db.payments[ev.op].terminal) then
          LegacyRefuse(LegacyForbidden)
        else if db.payments[ev.op].state.Rejected? then LegacyRefuse(HistoricalRejection)
        else LegacyRefuse(LegacyAccepted)
      else
        var ctx := LegacyValidate(db, ev.op, request.value, receipt.value, ev.ack);
        if ctx.None? then LegacyRefuse(LegacyReview)
        else if !Authorized(db, user, ctx.value.wallet, request.value.message.body.common.terminal) then
          LegacyRefuse(LegacyForbidden)
        else if !known && NonceTaken(db, request.value.message.body.common.nonce) then LegacyRefuse(NonceReused)
        else if ev.ack.None? then LegacyHold(ctx.value)
        else if !LegacyGuardsPass(db, ctx.value) then LegacyReject(ctx.value)
        else if (ev.op, DEBIT) in db.ledger || (ev.op, CREDIT) in db.ledger then LegacyRefuse(LegacyConstraint)
        else LegacySettle(ctx.value)
  }

  function LegacyPayment(db: Db, ctx: LegacyContext, state: PaymentState, code: Option<Code>): Payment
    requires ctx.request.message.body.Request?
  {
    if ctx.op in db.payments then
      var p := db.payments[ctx.op];
      p.(ack := if p.ack.None? then ctx.ack else p.ack, state := state, code := if code.Some? then code else p.code)
    else
      var c := ctx.request.message.body.common;
      Payment(ctx.wallet, c.merchant, c.terminal, ctx.auth, c.amount, c.nonce, ctx.request, ctx.receipt,
              ctx.ack, state, code)
  }

  predicate LegacyExecutable(db: Db, v: LegacyVerdict) {
    match v
    case LegacyRefuse(_) => true
    case LegacyHold(ctx) => ctx.request.message.body.Request?
    case LegacyReject(ctx) => ctx.request.message.body.Request?
    case LegacySettle(ctx) =>
      && ctx.request.message.body.Request?
      && ctx.auth in db.authorizations && ctx.wallet in db.wallets && ctx.merchantWallet in db.wallets
  }

  function LegacySettleOn(db: Db, ctx: LegacyContext): Db
    requires LegacyExecutable(db, LegacySettle(ctx))
  {
    var amount := ctx.Amount();
    var auth := db.authorizations[ctx.auth];
    db.(wallets := Credit(Credit(db.wallets, ctx.wallet, -amount), ctx.merchantWallet, amount),
        saldo := CreditUser(CreditUser(db.saldo, db.wallets[ctx.wallet].owner, -amount),
                            db.wallets[ctx.merchantWallet].owner, amount),
        authorizations := db.authorizations[ctx.auth := auth.(remaining := auth.remaining - amount,
                                                              payments := auth.payments - 1)],
        payments := db.payments[ctx.op := LegacyPayment(db, ctx, Accepted, None)],
        ledger := db.ledger[(ctx.op, DEBIT) := LedgerEntry(ctx.wallet, -amount)]
                           [(ctx.op, CREDIT) := LedgerEntry(ctx.merchantWallet, amount)])
  }

  function PerformLegacy(db: Db, v: LegacyVerdict): Db
    requires LegacyExecutable(db, v)
  {
    match v
    case LegacyRefuse(_) => db
    case LegacyHold(ctx) =>
      if ctx.op in db.payments then db
      else db.(payments := db.payments[ctx.op := LegacyPayment(db, ctx, PendingEvidence, None)])
    case LegacyReject(ctx) =>
      db.(payments := db.payments[ctx.op := LegacyPayment(db, ctx, Rejected, Some(InsufficientLegacy))])
    case LegacySettle(ctx) => LegacySettleOn(db, ctx)
  }

  function LegacyReplyOf(v: LegacyVerdict): LegacyReply {
    match v
    case LegacyRefuse(reply) => reply
    case LegacyHold(_) => LegacyAckRequired
    case LegacyReject(_) => LegacyRejected
    case LegacySettle(_) => LegacyAccepted
  }
}
