/** Reconciliation of version 3 evidence: what one submission is worth and what it does.

  `Judge` reads the committed database and classifies a submission; `Perform` is the one commit that
  follows. The handler itself, with its sessions and rollbacks, is `Backend.Backend`, proved to do
  exactly this. */
module SyncV3 {
  import opened Messages
  import opened Database

  datatype Evidence = Evidence(op: Id, request: Wire, grant: Wire, receipt: Wire, ack: Option<Wire>)

  datatype Submission = VALIDATED | INVALID_EVIDENCE | CONFLICT | RETRYABLE_ERROR
  datatype Operation = UNRESOLVED | PENDING_EVIDENCE | PENDING_REVIEW | ACCEPTED | REJECTED

  datatype Detail =
    | NoDetail | OperationIdMismatch | SignedResolutionMissing | ContentMismatch | AckMismatch
    | AuthorizationMismatch | InvalidSubmission | InvalidEvidence | DatabaseConstraint | AckRequired
    | Review(code: Code)

  datatype Reply =
    | Forbidden
    | Reply(submission: Submission, operation: Operation, final: bool, detail: Detail,
            resolution: Option<Envelope>)

  /** A submission whose evidence holds together, against the catalogue it was checked with. */
  datatype Context = Context(op: Id, auth: Id, wallet: Id, merchantWallet: Id,
                             request: Envelope, receipt: Envelope, ack: Option<Envelope>, review: bool)
  {
    function Common(): Common
      requires receipt.message.body.Receipt?
    {
      receipt.message.body.common
    }

    function Amount(): int
      requires receipt.message.body.Receipt?
    {
      receipt.message.body.common.amount
    }

    function Claim(): Claim
      requires receipt.message.body.Receipt?
    {
      Database.Claim(receipt.message.body.index, receipt.message.body.common.amount, DigestOf(receipt))
    }
  }

  datatype Verdict =
    | Refuse(reply: Reply)
    | KeepAck(op: Id, ack: Envelope, reply: Reply)
    | Park(ctx: Context, code: Option<Code>, storeAck: bool, flag: bool, reply: Reply)
    | Hold(ctx: Context)
    | Settle(ctx: Context, issuer: Issuer)

  function OperationState(s: PaymentState): Operation {
    match s
    case PendingEvidence => PENDING_EVIDENCE
    case PendingReview => PENDING_REVIEW
    case Validated => UNRESOLVED
    case Accepted => ACCEPTED
    case Rejected => REJECTED
  }

  /** A final payment and the resolution that proves it. */
  predicate Resolved(db: Db, op: Id) {
    && op in db.payments && db.payments[op].Final()
    && op in db.resolutions && db.resolutions[op].status == db.payments[op].state
  }

  /** Malformed or unbound evidence: the session is rolled back and a final outcome is repeated. */
  function Invalid(db: Db, user: Id, op: Id): Verdict {
    if op in db.payments && db.payments[op].Final() then
      if !Authorized(db, user, db.payments[op].wallet, db.payments[op].terminal) then Refuse(Forbidden)
      else if Resolved(db, op) then
        Refuse(Reply(CONFLICT, OperationState(db.payments[op].state), true, InvalidSubmission,
                     Some(db.resolutions[op].envelope)))
      else Refuse(Reply(INVALID_EVIDENCE, UNRESOLVED, false, InvalidEvidence, None))
    else Refuse(Reply(INVALID_EVIDENCE, UNRESOLVED, false, InvalidEvidence, None))
  }

  /** All checks of the evidence against the catalogue, and whether it needs a revocation review. */
  function Validate(db: Db, env: Env, op: Id, request: Envelope, grant: Envelope, receipt: Envelope,
                    ack: Option<Wire>): (r: Option<Context>)
    ensures r.Some? ==>
              && ReceiptBound(request, receipt, grant)
              && r.value.op == op && r.value.auth == grant.message.body.auth
              && r.value.wallet == grant.message.body.wallet
              && r.value.request == request && r.value.receipt == receipt
              && (ack.None? <==> r.value.ack.None?)
              && (ack.Some? ==> ack.value == Wire(r.value.ack.value)
                                && AckBound(request, receipt, r.value.ack.value))
              && r.value.auth in db.authorizations && r.value.auth in db.commitments
              && r.value.wallet in db.wallets
              && db.authorizations[r.value.auth].wallet == r.value.wallet
              && db.commitments[r.value.auth].wallet == r.value.wallet
              && db.commitments[r.value.auth].grant == grant
              && request.message.body.common.terminal in db.terminals
              && var owner := db.terminals[request.message.body.common.terminal].merchantUser;
              && owner in db.walletOf && r.value.merchantWallet == db.walletOf[owner]
  {
    if !(TrustedGrant(env, grant) && ReceiptBound(request, receipt, grant)) then None
    else
      var rq, rp, gp := request.message.body, receipt.message.body, grant.message.body;
      if !(rq.posKey in db.keys && rq.common.terminal in db.terminals) then None
      else
        var posKey, terminal := db.keys[rq.posKey], db.terminals[rq.common.terminal];
        if !(&& posKey.purpose == PosKey(rq.common.terminal) && terminal.active
             && PosSigned(request, posKey.publicKey, rq.posKey, posKey.fingerprint,
                          terminal.merchant, rq.common.terminal)) then None
        else if !(&& gp.wallet in db.wallets && gp.auth in db.authorizations && gp.auth in db.commitments
                  && db.authorizations[gp.auth].wallet == gp.wallet
                  && db.commitments[gp.auth].wallet == gp.wallet
                  && db.commitments[gp.auth].grant == grant) then None
        else if !(&& gp.walletKey in db.keys && db.keys[gp.walletKey].purpose == WalletKey(gp.wallet)
                  && db.keys[gp.walletKey].fingerprint == gp.walletFingerprint
                  && db.keys[gp.walletKey].publicKey == gp.walletPublicKey) then None
        else if ack.Some? && !(&& Parse3(ack.value).Some?
                               && AckBound(request, receipt, ack.value.envelope)
                               && PosSigned(ack.value.envelope, posKey.publicKey, rq.posKey,
                                            posKey.fingerprint, terminal.merchant, rq.common.terminal)) then None
        else if terminal.merchantUser !in db.walletOf then None
        else
          var review :=
            || RequiresReview(posKey, rq.common.issuedAt)
            || RequiresReview(db.keys[gp.walletKey], rp.confirmedAt)
            || (ack.Some? && RequiresReview(posKey, ack.value.envelope.message.body.acceptedAt));
          Some(Context(op, gp.auth, gp.wallet, db.walletOf[terminal.merchantUser], request, receipt,
                       if ack.Some? then Some(ack.value.envelope) else None, review))
  }

  /** Would recording this claim collide with another operation's use of the same index? */
  predicate ClaimConflict(claims: map<(Id, Id), Claim>, auth: Id, op: Id, claim: Claim) {
    || ((auth, op) in claims && claims[(auth, op)] != claim)
    || (exists k | k in claims :: k.0 == auth && k.1 != op && claims[k].index == claim.index)
  }

  /** Every authenticated claim is kept; an existing one is never overwritten. */
  function RecordClaim(claims: map<(Id, Id), Claim>, auth: Id, op: Id, claim: Claim): map<(Id, Id), Claim> {
    if (auth, op) in claims then claims else claims[(auth, op) := claim]
  }

  /** Is this the receipt the closed authorization's manifest lists for the operation? */
  predicate InManifest(entries: seq<Entry>, op: Id, claim: Claim) {
    exists i | 0 <= i < |entries| ::
      && entries[i].op == op && entries[i].index == claim.index
      && entries[i].amount == claim.amount && entries[i].receiptDigest == claim.receiptDigest
  }

  /** The three conditional updates of a settlement all match a row. */
  predicate GuardsPass(db: Db, ctx: Context)
    requires ctx.receipt.message.body.Receipt?
  {
    && ctx.auth in db.authorizations && ctx.wallet in db.wallets && ctx.auth in db.commitments
    && db.authorizations[ctx.auth].remaining >= ctx.Amount() && db.authorizations[ctx.auth].payments > 0
    && db.wallets[ctx.wallet].balance >= ctx.Amount()
    && db.commitments[ctx.auth].held >= ctx.Amount()
    && db.commitments[ctx.auth].emitted + ctx.Amount() <= db.commitments[ctx.auth].reserved
  }

  /** Another operation already settled under this issuance index. */
  predicate EmittedByOther(db: Db, ctx: Context)
    requires ctx.receipt.message.body.Receipt?
  {
    exists k | k in db.emissions ::
      k.0 == ctx.auth && k.1 != ctx.op && db.emissions[k].index == ctx.receipt.message.body.index
  }

  /** A unique constraint would reject the rows a settlement inserts. */
  predicate SettlementRowsTaken(db: Db, ctx: Context) {
    || (ctx.auth, ctx.op) in db.emissions
    || (ctx.op, DEBIT) in db.ledger || (ctx.op, CREDIT) in db.ledger
    || ctx.op in db.resolutions
  }

  /** A submission for an operation that is not final and whose evidence is bound. */
  function JudgeBound(db: Db, env: Env, user: Id, ctx: Context): Verdict
    requires ctx.receipt.message.body.Receipt?
    requires ctx.auth in db.commitments
  {
    var known := ctx.op in db.payments;
    var claim := ctx.Claim();
    var conflict := ClaimConflict(db.claims, ctx.auth, ctx.op, claim);
    var commitment := db.commitments[ctx.auth];
    if !known && NonceTaken(db, ctx.Common().nonce) then
      Refuse(Reply(CONFLICT, PENDING_REVIEW, false, DatabaseConstraint, None))
    else if commitment.Closed() && !InManifest(commitment.sealed.value.entries, ctx.op, claim) then
      Park(ctx, Some(EvidenceOmitted), false, true,
           Reply(VALIDATED, PENDING_REVIEW, false, Review(EvidenceOmitted), None))
    else if ctx.review || (known && db.payments[ctx.op].state.PendingReview?) then
      Park(ctx, if !known then Some(RevocationReview) else if conflict then Some(IndexReused) else None,
           false, conflict, Reply(VALIDATED, PENDING_REVIEW, false, Review(RevocationReview), None))
    else if commitment.Closed() && !known then
      Park(ctx, Some(EvidenceOmitted), false, true,
           Reply(VALIDATED, PENDING_REVIEW, false, Review(EvidenceOmitted), None))
    else if conflict then
      Park(ctx, Some(IndexReused), true, true,
           Reply(CONFLICT, PENDING_REVIEW, false, Review(IndexReused), None))
    else if ctx.ack.None? then Hold(ctx)
    else if EmittedByOther(db, ctx) then
      Refuse(Reply(CONFLICT, PENDING_REVIEW, false, Review(IndexReused), None))
    else if !GuardsPass(db, ctx) then
      Park(ctx, Some(Insufficient), true, true,
           Reply(VALIDATED, PENDING_REVIEW, false, Review(Insufficient), None))
    else if env.issuer.None? then Invalid(db, user, ctx.op)
    else if SettlementRowsTaken(db, ctx) then
      Refuse(Reply(CONFLICT, PENDING_REVIEW, false, DatabaseConstraint, None))
    else Settle(ctx, env.issuer.value)
  }

  /** A submission for an operation that already ended. */
  function JudgeFinal(db: Db, user: Id, op: Id, request: Envelope, grant: Envelope, receipt: Envelope,
                      ack: Option<Wire>): Verdict
    requires op in db.payments && db.payments[op].Final()
  {
    var p := db.payments[op];
    if !Resolved(db, op) then
      Refuse(Reply(RETRYABLE_ERROR, OperationState(p.state), false, SignedResolutionMissing, None))
    else
      var resolution := Some(db.resolutions[op].envelope);
      var mismatch :=
        if p.auth !in db.commitments || db.commitments[p.auth].grant != grant then AuthorizationMismatch
        else if p.request != request || p.receipt != receipt then ContentMismatch
        else if p.ack.Some? && ack.Some? && ack.value != Wire(p.ack.value) then AckMismatch
        else NoDetail;
      if !mismatch.NoDetail? then Refuse(Reply(CONFLICT, OperationState(p.state), true, mismatch, resolution))
      else
        var settled := Reply(VALIDATED, OperationState(p.state), true,
                             if p.code.Some? then Review(p.code.value) else NoDetail, resolution);
        if p.ack.None? && ack.Some? then
          if (&& Parse3(ack.value).Some? && AckBound(request, receipt, ack.value.envelope)
              && request.message.body.posKey in db.keys
              && Verifies(ack.value.envelope, db.keys[request.message.body.posKey].publicKey)) then
            KeepAck(op, ack.value.envelope, settled)
          else Invalid(db, user, op)
        else Refuse(settled)
  }

  /** What one submission is worth, read from one committed state. */
  function Judge(db: Db, env: Env, user: Id, ev: Evidence): Verdict {
    var request, grant, receipt := Parse3(ev.request), Parse3(ev.grant), Parse3(ev.receipt);
    if request.None? || grant.None? || receipt.None? || ev.ack == Some(Undecodable) then
      Invalid(db, user, ev.op)
    else if (|| OperationOf(request.value.message.body) != Some(ev.op)
             || OperationOf(receipt.value.message.body) != Some(ev.op)) then
      Refuse(Reply(INVALID_EVIDENCE, UNRESOLVED, false, OperationIdMismatch, None))
    else if !NamesWallet(grant.value.message.body) then Invalid(db, user, ev.op)
    else JudgeParsed(db, env, user, ev.op, request.value, grant.value, receipt.value, ev.ack)
  }

  /** The same once the three envelopes are parsed and agree on the operation. */
  function JudgeParsed(db: Db, env: Env, user: Id, op: Id, request: Envelope, grant: Envelope,
                       receipt: Envelope, ack: Option<Wire>): Verdict
  {
    var known := op in db.payments;
    if known && !Authorized(db, user, db.payments[op].wallet, db.payments[op].terminal) then Refuse(Forbidden)
    else if known && db.payments[op].Final() then JudgeFinal(db, user, op, request, grant, receipt, ack)
    else if known && (db.payments[op].request != request || db.payments[op].receipt != receipt) then
      Refuse(Reply(CONFLICT, OperationState(db.payments[op].state), false, ContentMismatch, None))
    else if (&& known && db.payments[op].ack.Some? && ack.Some?
             && ack.value != Wire(db.payments[op].ack.value)) then
      Refuse(Reply(CONFLICT, OperationState(db.payments[op].state), false, AckMismatch, None))
    else
      var ctx := Validate(db, env, op, request, grant, receipt, ack);
      if ctx.None? then Invalid(db, user, op)
      else if !Authorized(db, user, ctx.value.wallet, request.message.body.common.terminal) then Refuse(Forbidden)
      else JudgeBound(db, env, user, ctx.value)
  }

  /** The payment row a submission creates. */
  function NewPayment(ctx: Context, state: PaymentState, code: Option<Code>): Payment
    requires ctx.receipt.message.body.Receipt?
  {
    var c := ctx.Common();
    Payment(ctx.wallet, c.merchant, c.terminal, ctx.auth, c.amount, c.nonce, ctx.request, ctx.receipt,
            ctx.ack, state, code)
  }

  /** The payment row of a submission once its acknowledgement is attached. */
  function WithAck(db: Db, ctx: Context, state: PaymentState): Payment
    requires ctx.receipt.message.body.Receipt?
  {
    if ctx.op !in db.payments then NewPayment(ctx, state, None)
    else
      var p := db.payments[ctx.op];
      p.(ack := if p.ack.None? then ctx.ack else p.ack, state := state)
  }

  function ParkedPayment(db: Db, ctx: Context, code: Option<Code>, storeAck: bool): Payment
    requires ctx.receipt.message.body.Receipt?
  {
    if ctx.op !in db.payments then NewPayment(ctx, PendingReview, code)
    else
      var p := db.payments[ctx.op];
      p.(state := PendingReview,
         code := if code.Some? then code else p.code,
         ack := if storeAck && p.ack.None? then ctx.ack else p.ack)
  }

  function ParkOn(db: Db, ctx: Context, code: Option<Code>, storeAck: bool, flag: bool): Db
    requires ctx.receipt.message.body.Receipt?
  {
    db.(wallets := Flag(db.wallets, ctx.wallet, flag),
        payments := db.payments[ctx.op := ParkedPayment(db, ctx, code, storeAck)],
        claims := RecordClaim(db.claims, ctx.auth, ctx.op, ctx.Claim()))
  }

  function HoldOn(db: Db, ctx: Context): Db
    requires ctx.receipt.message.body.Receipt?
  {
    db.(payments := if ctx.op in db.payments then db.payments
                    else db.payments[ctx.op := NewPayment(ctx, PendingEvidence, None)],
        claims := RecordClaim(db.claims, ctx.auth, ctx.op, ctx.Claim()))
  }

  /** The signed statement that an operation was accepted. */
  function ResolutionOf(grant: Envelope, p: Payment, op: Id, issuer: Issuer): Envelope {
    Sign(Resolution(op, p.wallet, p.merchant, p.terminal, p.amount, p.auth, DigestOf(grant),
                    DigestOf(p.request), DigestOf(p.receipt), true, 1, issuer.keyId, OfKey(issuer.publicKey)),
         issuer.publicKey)
  }

  function SpendCommitment(c: Commitment, amount: int): Commitment {
    c.(emitted := c.emitted + amount, count := c.count + 1, held := c.held - amount,
       phase := if c.Closed() && c.held - amount == 0 then SETTLED else c.phase)
  }

  function SettleOn(db: Db, ctx: Context, issuer: Issuer): Db
    requires ctx.receipt.message.body.Receipt?
    requires ctx.auth in db.authorizations && ctx.auth in db.commitments
    requires ctx.wallet in db.wallets && ctx.merchantWallet in db.wallets
  {
    var amount := ctx.Amount();
    var auth := db.authorizations[ctx.auth];
    var paid := WithAck(db, ctx, Accepted);
    db.(wallets := Credit(Credit(db.wallets, ctx.wallet, -amount), ctx.merchantWallet, amount),
        saldo := CreditUser(CreditUser(db.saldo, db.wallets[ctx.wallet].owner, -amount),
                            db.wallets[ctx.merchantWallet].owner, amount),
        authorizations := db.authorizations[ctx.auth := auth.(remaining := auth.remaining - amount,
                                                              payments := auth.payments - 1)],
        commitments := db.commitments[ctx.auth := SpendCommitment(db.commitments[ctx.auth], amount)],
        payments := db.payments[ctx.op := paid],
        claims := RecordClaim(db.claims, ctx.auth, ctx.op, ctx.Claim()),
        emissions := db.emissions[(ctx.auth, ctx.op) := Emission(ctx.receipt.message.body.index, amount)],
        ledger := db.ledger[(ctx.op, DEBIT) := LedgerEntry(ctx.wallet, -amount)]
                           [(ctx.op, CREDIT) := LedgerEntry(ctx.merchantWallet, amount)],
        resolutions := db.resolutions[ctx.op := ResolutionRow(Accepted,
                                        ResolutionOf(db.commitments[ctx.auth].grant, paid, ctx.op, issuer))])
  }

  /** The commit a verdict leads to. */
  function Perform(db: Db, v: Verdict): Db
    requires Executable(db, v)
  {
    match v
    case Refuse(_) => db
    case KeepAck(op, ack, _) => db.(payments := db.payments[op := db.payments[op].(ack := Some(ack))])
    case Park(ctx, code, storeAck, flag, _) => ParkOn(db, ctx, code, storeAck, flag)
    case Hold(ctx) => HoldOn(db, ctx)
    case Settle(ctx, issuer) => SettleOn(db, ctx, issuer)
  }

  /** The rows a verdict touches are there. */
  predicate Executable(db: Db, v: Verdict) {
    match v
    case Refuse(_) => true
    case KeepAck(op, _, _) => op in db.payments
    case Park(ctx, _, _, _, _) => ctx.receipt.message.body.Receipt?
    case Hold(ctx) => ctx.receipt.message.body.Receipt?
    case Settle(ctx, _) =>
      && ctx.receipt.message.body.Receipt?
      && ctx.auth in db.authorizations && ctx.auth in db.commitments
      && ctx.wallet in db.wallets && ctx.merchantWallet in db.wallets
  }

  function ReplyOf(db: Db, v: Verdict): Reply
    requires Executable(db, v)
  {
    match v
    case Refuse(reply) => reply
    case KeepAck(_, _, reply) => reply
    case Park(_, _, _, _, reply) => reply
    case Hold(_) => Reply(VALIDATED, PENDING_EVIDENCE, false, AckRequired, None)
    case Settle(ctx, issuer) =>
      Reply(VALIDATED, ACCEPTED, true, NoDetail, Some(SettleOn(db, ctx, issuer).resolutions[ctx.op].envelope))
  }

  /** The unique index of the wallets on their owner agrees with the wallets. */
  ghost predicate WalletIndex(db: Db) {
    && (forall u | u in db.walletOf :: db.walletOf[u] in db.wallets && db.wallets[db.walletOf[u]].owner == u)
    && (forall w | w in db.wallets :: db.wallets[w].owner in db.walletOf && db.walletOf[db.wallets[w].owner] == w)
  }

  lemma JudgedIsExecutable(db: Db, env: Env, user: Id, ev: Evidence)
    requires WalletIndex(db)
    ensures Executable(db, Judge(db, env, user, ev))
  {
  }
}
