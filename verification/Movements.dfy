/** What recording a submission moves, table by table: who pays whom, which rows are written and who is flagged. */
module Movements {
  import opened Messages
  import opened Database
  import opened SyncV3
  import opened SyncV2
  import opened Authorizations
  import opened Invariant
  import opened Steps
  import opened Reconciliation
  import opened Guards
  import opened Rollback
  import opened LegacySteps
  import opened LegacyRollback
  import opened Authenticity
  import opened Outcomes

  // ---------------------------------------------------------------------------------------------
  // The tables before and after

  /** At most the row of this key is new or different. */
  predicate OnlyAt<K(==), V(==)>(before: map<K, V>, after: map<K, V>, key: K) {
    after.Keys == before.Keys + {key} && forall k | k in before && k != key :: after[k] == before[k]
  }

  function If(c: bool, amount: int): int {
    if c then amount else 0
  }

  /** The amount goes from one wallet to the other, and nothing else of any wallet changes. */
  predicate Paid(before: map<Id, Wallet>, after: map<Id, Wallet>, payer: Id, payee: Id, amount: int) {
    && after.Keys == before.Keys
    && forall w | w in before ::
         && after[w].balance == before[w].balance - If(w == payer, amount) + If(w == payee, amount)
         && after[w].owner == before[w].owner && after[w].review == before[w].review
  }

  /** The same of the decimal balances, in hundredths. */
  predicate PaidUsers(before: map<Id, real>, after: map<Id, real>, payer: Id, payee: Id, amount: int) {
    && after.Keys == before.Keys
    && forall u | u in before ::
         after[u] == before[u] - If(u == payer, amount) as real / 100.0 + If(u == payee, amount) as real / 100.0
  }

  /** A debit of the payer and a credit of the payee are booked under the operation, and nothing else is. */
  predicate Booked(before: map<(Id, EntryType), LedgerEntry>, after: map<(Id, EntryType), LedgerEntry>, op: Id,
                   payer: Id, payee: Id, amount: int)
  {
    && after.Keys == before.Keys + {(op, DEBIT), (op, CREDIT)}
    && after[(op, DEBIT)] == LedgerEntry(payer, -amount) && after[(op, CREDIT)] == LedgerEntry(payee, amount)
    && forall k | k in before && k.0 != op :: after[k] == before[k]
  }

  /** The authorization may spend the amount less, in one payment less. */
  predicate Spent(before: map<Id, Authorization>, after: map<Id, Authorization>, auth: Id, amount: int) {
    && auth in before && OnlyAt(before, after, auth)
    && after[auth].remaining == before[auth].remaining - amount && after[auth].payments == before[auth].payments - 1
    && after[auth] == before[auth].(remaining := after[auth].remaining, payments := after[auth].payments)
  }

  /** The commitment holds the amount less and emitted it, and ends if it was sealed and holds nothing more. */
  predicate Emitted(before: map<Id, Commitment>, after: map<Id, Commitment>, auth: Id, amount: int) {
    && auth in before && OnlyAt(before, after, auth)
    && var b, c := before[auth], after[auth];
    && c.emitted == b.emitted + amount && c.count == b.count + 1 && c.held == b.held - amount
    && c.phase == (if b.sealed.Some? && b.held == amount then SETTLED else b.phase)
    && c == b.(emitted := c.emitted, count := c.count, held := c.held, phase := c.phase)
  }

  /** No transaction of the reconciliation touches these. */
  predicate SameElsewhere(before: Db, after: Db) {
    && after.walletOf == before.walletOf && after.issuedFor == before.issuedFor && after.topups == before.topups
    && after.inventory == before.inventory && after.keys == before.keys && after.terminals == before.terminals
  }

  /** No money moves: wallets keep everything but perhaps the flag of one of them, which is only raised. */
  predicate Unmoved(before: Db, after: Db, payer: Id) {
    && SameElsewhere(before, after) && after.saldo == before.saldo && after.authorizations == before.authorizations
    && after.commitments == before.commitments && after.emissions == before.emissions && after.ledger == before.ledger
    && after.resolutions == before.resolutions && after.wallets.Keys == before.wallets.Keys
    && forall w | w in before.wallets ::
         && after.wallets[w] == before.wallets[w].(review := after.wallets[w].review)
         && (after.wallets[w].review ==> before.wallets[w].review || w == payer)
         && (before.wallets[w].review ==> after.wallets[w].review)
  }

  /** The amount of the receipt goes from its wallet to the payee, out of what its authorization holds. */
  predicate Transferred(before: Db, after: Db, op: Id, receipt: Envelope, payee: Id)
    requires receipt.message.body.Receipt?
  {
    var r := receipt.message.body;
    var amount := r.common.amount;
    && SameElsewhere(before, after) && r.wallet in before.wallets && payee in before.wallets
    && Paid(before.wallets, after.wallets, r.wallet, payee, amount)
    && PaidUsers(before.saldo, after.saldo, before.wallets[r.wallet].owner, before.wallets[payee].owner, amount)
    && Spent(before.authorizations, after.authorizations, r.auth, amount)
    && Emitted(before.commitments, after.commitments, r.auth, amount)
    && OnlyAt(before.emissions, after.emissions, (r.auth, op)) && after.emissions[(r.auth, op)] == Emission(r.index, amount)
    && Booked(before.ledger, after.ledger, op, r.wallet, payee, amount)
    && OnlyAt(before.resolutions, after.resolutions, op)
  }

  /** The row of the operation holds the evidence it was recorded from, and its claim the index. */
  predicate Kept(before: Db, after: Db, op: Id, request: Envelope, receipt: Envelope)
    requires receipt.message.body.Receipt?
  {
    var r := receipt.message.body;
    && OnlyAt(before.payments, after.payments, op) && OnlyAt(before.claims, after.claims, (r.auth, op))
    && after.claims[(r.auth, op)] == Claim(r.index, r.common.amount, OfMessage(receipt.message))
    && var p := after.payments[op];
    && p.request == request && p.receipt == receipt && p.wallet == r.wallet && p.auth == r.auth
    && p.merchant == r.common.merchant && p.terminal == r.common.terminal && p.amount == r.common.amount && p.nonce == r.common.nonce
  }

  // ---------------------------------------------------------------------------------------------
  // Reasons

  /** The sealed manifest has no line for this receipt. */
  predicate Omitted(db: Db, auth: Id, op: Id, receipt: Envelope)
    requires auth in db.commitments && receipt.message.body.Receipt?
  {
    var r := receipt.message.body;
    && db.commitments[auth].sealed.Some?
    && Entry(r.index, op, r.common.amount, OfMessage(receipt.message)) !in db.commitments[auth].sealed.value.entries
  }

  /** It is under review, or comes there because a key was withdrawn. */
  predicate UnderReview(db: Db, op: Id, withdrawn: bool) {
    withdrawn || (op in db.payments && db.payments[op].state == PendingReview)
  }

  /** First seen after the authorization was closed. */
  predicate Late(db: Db, auth: Id, op: Id)
    requires auth in db.commitments
  {
    db.commitments[auth].sealed.Some? && op !in db.payments
  }

  /** Why a parked submission is parked, in its row: the row's code afterwards. */
  function Reason(db: Db, auth: Id, op: Id, receipt: Envelope, withdrawn: bool): Option<Code>
    requires auth in db.commitments && receipt.message.body.Receipt?
  {
    var conflict := IndexTaken(db, auth, op, receipt.message.body.index);
    if Omitted(db, auth, op, receipt) || (!UnderReview(db, op, withdrawn) && Late(db, auth, op)) then Some(EvidenceOmitted)
    else if !UnderReview(db, op, withdrawn) then Some(if conflict then IndexReused else Insufficient)
    else if op !in db.payments then Some(RevocationReview)
    else if conflict then Some(IndexReused)
    else db.payments[op].code
  }

  /** The wallet is flagged by evidence a manifest omits, by a shared index, and by what it can no longer pay. */
  predicate Suspicious(db: Db, auth: Id, op: Id, receipt: Envelope, withdrawn: bool)
    requires auth in db.commitments && receipt.message.body.Receipt?
  {
    || Omitted(db, auth, op, receipt) || IndexTaken(db, auth, op, receipt.message.body.index)
    || !UnderReview(db, op, withdrawn)
  }

  /** An acknowledgement is kept with a new row, with a shared index and with an amount that is no longer held. */
  predicate AckKept(db: Db, auth: Id, op: Id, receipt: Envelope, withdrawn: bool)
    requires auth in db.commitments && receipt.message.body.Receipt?
  {
    op !in db.payments || (!Omitted(db, auth, op, receipt) && !UnderReview(db, op, withdrawn))
  }

  /** How a parked submission is written down. */
  predicate ParkedFor(db: Db, after: Db, op: Id, receipt: Envelope, ack: Option<Envelope>, withdrawn: bool)
    requires receipt.message.body.Receipt?
  {
    var r := receipt.message.body;
    && r.auth in db.commitments && op in after.payments && r.wallet in db.wallets && r.wallet in after.wallets
    && after.payments[op].state == PendingReview
    && after.payments[op].code == Reason(db, r.auth, op, receipt, withdrawn)
    && after.payments[op].ack == (if op in db.payments && db.payments[op].ack.Some? then db.payments[op].ack
                                  else if AckKept(db, r.auth, op, receipt, withdrawn) then ack else None)
    && (after.wallets[r.wallet].review <==> db.wallets[r.wallet].review || Suspicious(db, r.auth, op, receipt, withdrawn))
  }

  // ---------------------------------------------------------------------------------------------
  // Settling

  lemma SettleWallets(db: Db, ctx: Context, issuer: Issuer)
    requires Executable(db, Settle(ctx, issuer))
    ensures Paid(db.wallets, SettleOn(db, ctx, issuer).wallets, ctx.wallet, ctx.merchantWallet, ctx.Amount())
  {
    hide CreditUser, RecordClaim, ResolutionOf, WithAck, SpendCommitment;
  }

  lemma SettleUsers(db: Db, ctx: Context, issuer: Issuer)
    requires Executable(db, Settle(ctx, issuer))
    ensures PaidUsers(db.saldo, SettleOn(db, ctx, issuer).saldo, db.wallets[ctx.wallet].owner,
                      db.wallets[ctx.merchantWallet].owner, ctx.Amount())
  {
    hide Credit, RecordClaim, ResolutionOf, WithAck, SpendCommitment;
  }

  lemma SettleRows(db: Db, ctx: Context, issuer: Issuer)
    requires Executable(db, Settle(ctx, issuer))
    ensures
      var after := SettleOn(db, ctx, issuer);
      && SameElsewhere(db, after)
      && Spent(db.authorizations, after.authorizations, ctx.auth, ctx.Amount())
      && Emitted(db.commitments, after.commitments, ctx.auth, ctx.Amount())
      && OnlyAt(db.emissions, after.emissions, (ctx.auth, ctx.op))
      && after.emissions[(ctx.auth, ctx.op)] == Emission(ctx.receipt.message.body.index, ctx.Amount())
      && Booked(db.ledger, after.ledger, ctx.op, ctx.wallet, ctx.merchantWallet, ctx.Amount())
      && OnlyAt(db.resolutions, after.resolutions, ctx.op)
  {
    hide Credit, CreditUser, RecordClaim, ResolutionOf, WithAck;
  }

  lemma OwnFields(db: Db, ctx: Context)
    requires Bound(db, ctx) && CommitmentsOk(db.commitments, db.authorizations)
    ensures ctx.receipt.message.body.Receipt? && ctx.auth == ctx.receipt.message.body.auth
    ensures ctx.wallet == ctx.receipt.message.body.wallet && ctx.auth in db.commitments
    ensures ctx.wallet in db.wallets && ctx.merchantWallet in db.wallets
  {
    assert ctx.auth in db.commitments;
    assert CommitmentOk(ctx.auth, db.commitments[ctx.auth], db.authorizations[ctx.auth]);
    hide AckBound, NonceTaken;
  }

  lemma SettleTransfers(db: Db, ctx: Context, issuer: Issuer)
    requires Executable(db, Settle(ctx, issuer)) && Bound(db, ctx) && CommitmentsOk(db.commitments, db.authorizations)
    ensures Transferred(db, SettleOn(db, ctx, issuer), ctx.op, ctx.receipt, ctx.merchantWallet)
  {
    OwnFields(db, ctx);
    SettleWallets(db, ctx, issuer);
    SettleUsers(db, ctx, issuer);
    SettleRows(db, ctx, issuer);
    hide SettleOn, Bound, CommitmentsOk, Executable, Paid, PaidUsers, Spent, Emitted, OnlyAt, Booked, SameElsewhere;
    assert ctx.Amount() == ctx.receipt.message.body.common.amount;
  }

  // ---------------------------------------------------------------------------------------------
  // Rows

  /** The recorded row of a known operation, and its claim, are those of the same evidence. */
  lemma KnownFields(db: Db, ctx: Context)
    requires Bound(db, ctx) && PaymentsOk(db.payments, db.commitments, db.authorizations)
    requires ClaimsOk(db.claims, db.payments, db.commitments.Keys)
    ensures ctx.receipt.message.body.Receipt?
    ensures (ctx.auth, ctx.op) in db.claims ==> db.claims[(ctx.auth, ctx.op)] == ctx.Claim()
    ensures ctx.op in db.payments ==> FieldsAre(db.payments[ctx.op], ctx)
  {
    OwnClaim(db, ctx);
    if ctx.op in db.payments {
      KnownRow(db, ctx);
      hide AckBound, RowFor, NonceTaken;
    }
  }

  predicate FieldsAre(p: Payment, ctx: Context)
    requires ctx.receipt.message.body.Receipt?
  {
    var r := ctx.receipt.message.body;
    && p.request == ctx.request && p.receipt == ctx.receipt && p.wallet == ctx.wallet && p.auth == ctx.auth
    && p.merchant == r.common.merchant && p.terminal == r.common.terminal && p.amount == r.common.amount && p.nonce == r.common.nonce
  }

  lemma RecordedRow(db: Db, ctx: Context, after: Db, p: Payment)
    requires ctx.receipt.message.body.Receipt? && FieldsAre(p, ctx)
    requires ctx.auth == ctx.receipt.message.body.auth && ctx.wallet == ctx.receipt.message.body.wallet
    requires (ctx.auth, ctx.op) in db.claims ==> db.claims[(ctx.auth, ctx.op)] == ctx.Claim()
    requires after.payments == db.payments[ctx.op := p]
    requires after.claims == RecordClaim(db.claims, ctx.auth, ctx.op, ctx.Claim())
    ensures Kept(db, after, ctx.op, ctx.request, ctx.receipt)
  {
  }

  /** The row a verdict writes. */
  function RowOf(db: Db, v: Verdict): Payment
    requires Recorded(v) && v.ctx.receipt.message.body.Receipt?
  {
    match v
    case Settle(ctx, _) => WithAck(db, ctx, Accepted)
    case Park(ctx, code, storeAck, _, _) => ParkedPayment(db, ctx, code, storeAck)
    case Hold(ctx) => if ctx.op in db.payments then db.payments[ctx.op] else NewPayment(ctx, PendingEvidence, None)
  }

  lemma WrittenRow(db: Db, v: Verdict)
    requires Recorded(v) && v.ctx.receipt.message.body.Receipt?
    requires v.ctx.op in db.payments ==> FieldsAre(db.payments[v.ctx.op], v.ctx)
    ensures FieldsAre(RowOf(db, v), v.ctx)
  {
  }

  lemma WrittenTables(db: Db, v: Verdict)
    requires Recorded(v) && v.ctx.receipt.message.body.Receipt? && Executable(db, v)
    ensures Perform(db, v).payments == db.payments[v.ctx.op := RowOf(db, v)]
    ensures Perform(db, v).claims == RecordClaim(db.claims, v.ctx.auth, v.ctx.op, v.ctx.Claim())
  {
    hide RecordClaim, WithAck, ParkedPayment, NewPayment, Credit, CreditUser, ResolutionOf, Flag, SpendCommitment;
  }

  /** Whatever the verdict, the row and the claim are those of the evidence. */
  lemma VerdictKeeps(db: Db, opening: map<Id, int>, ctx: Context, v: Verdict)
    requires Inv(db, opening) && Bound(db, ctx) && Recorded(v) && v.ctx == ctx && Executable(db, v)
    ensures ctx.receipt.message.body.Receipt? && Kept(db, Perform(db, v), ctx.op, ctx.request, ctx.receipt)
  {
    hide *;
    InvParts(db, opening);
    OwnFields(db, ctx);
    KnownFields(db, ctx);
    WrittenRow(db, v);
    WrittenTables(db, v);
    RecordedRow(db, ctx, Perform(db, v), RowOf(db, v));
  }

  lemma HoldMovesNothing(db: Db, ctx: Context)
    requires ctx.receipt.message.body.Receipt?
    ensures Unmoved(db, HoldOn(db, ctx), ctx.wallet) && HoldOn(db, ctx).wallets == db.wallets
    ensures ctx.op in HoldOn(db, ctx).payments
    ensures HoldOn(db, ctx).payments[ctx.op] ==
            if ctx.op in db.payments then db.payments[ctx.op] else NewPayment(ctx, PendingEvidence, None)
  {
    hide RecordClaim, NewPayment;
  }

  lemma ParkMovesNothing(db: Db, ctx: Context, code: Option<Code>, storeAck: bool, flag: bool)
    requires ctx.receipt.message.body.Receipt?
    ensures Unmoved(db, ParkOn(db, ctx, code, storeAck, flag), ctx.wallet)
  {
    hide RecordClaim, ParkedPayment;
  }

  /** The reason of a parked submission, before its terms are put in words. */
  lemma ParkDecision(db: Db, env: Env, user: Id, ctx: Context)
    requires ctx.receipt.message.body.Receipt? && ctx.auth in db.commitments
    requires JudgeBound(db, env, user, ctx).Park? && env.issuer.Some?
    requires ClaimConflict(db.claims, ctx.auth, ctx.op, ctx.Claim()) <==>
             IndexTaken(db, ctx.auth, ctx.op, ctx.receipt.message.body.index)
    requires db.commitments[ctx.auth].Closed() ==>
               (InManifest(db.commitments[ctx.auth].sealed.value.entries, ctx.op, ctx.Claim()) <==>
                !Omitted(db, ctx.auth, ctx.op, ctx.receipt))
    requires !db.commitments[ctx.auth].Closed() ==> !Omitted(db, ctx.auth, ctx.op, ctx.receipt)
    ensures
      var v := JudgeBound(db, env, user, ctx);
      var reason := Reason(db, ctx.auth, ctx.op, ctx.receipt, ctx.review);
      && (v.code.Some? ==> v.code == reason)
      && (v.code.None? ==> ctx.op in db.payments && reason == db.payments[ctx.op].code)
      && (v.flag <==> Suspicious(db, ctx.auth, ctx.op, ctx.receipt, ctx.review))
      && (ctx.op in db.payments ==> (v.storeAck <==> AckKept(db, ctx.auth, ctx.op, ctx.receipt, ctx.review)))
  {
    hide ClaimConflict, GuardsPass, EmittedByOther, SettlementRowsTaken, InManifest, NonceTaken, IndexTaken, Omitted, Invalid;
  }

  lemma OmittedTerms(db: Db, ctx: Context)
    requires ctx.receipt.message.body.Receipt? && ctx.auth in db.commitments
    ensures db.commitments[ctx.auth].Closed() ==>
               (InManifest(db.commitments[ctx.auth].sealed.value.entries, ctx.op, ctx.Claim()) <==>
                !Omitted(db, ctx.auth, ctx.op, ctx.receipt))
    ensures !db.commitments[ctx.auth].Closed() ==> !Omitted(db, ctx.auth, ctx.op, ctx.receipt)
  {
  }

  lemma ParkWrites(db: Db, ctx: Context, code: Option<Code>, storeAck: bool, flag: bool)
    requires ctx.receipt.message.body.Receipt? && ctx.auth in db.commitments && ctx.wallet in db.wallets
    requires ctx.auth == ctx.receipt.message.body.auth && ctx.wallet == ctx.receipt.message.body.wallet
    requires
      var reason := Reason(db, ctx.auth, ctx.op, ctx.receipt, ctx.review);
      && (code.Some? ==> code == reason) && (code.None? ==> ctx.op in db.payments && reason == db.payments[ctx.op].code)
      && (flag <==> Suspicious(db, ctx.auth, ctx.op, ctx.receipt, ctx.review))
      && (ctx.op in db.payments ==> (storeAck <==> AckKept(db, ctx.auth, ctx.op, ctx.receipt, ctx.review)))
    ensures ParkedFor(db, ParkOn(db, ctx, code, storeAck, flag), ctx.op, ctx.receipt, ctx.ack, ctx.review)
  {
    assert ctx.op !in db.payments ==> AckKept(db, ctx.auth, ctx.op, ctx.receipt, ctx.review);
    hide Reason, Suspicious, AckKept, RecordClaim;
  }

  lemma ParkIsParkedFor(db: Db, opening: map<Id, int>, env: Env, user: Id, ctx: Context)
    requires Inv(db, opening) && Bound(db, ctx) && env.issuer.Some?
    requires ctx.receipt.message.body.Receipt? && ctx.auth in db.commitments
    requires JudgeBound(db, env, user, ctx).Park?
    ensures var v := JudgeBound(db, env, user, ctx);
            ParkedFor(db, ParkOn(db, ctx, v.code, v.storeAck, v.flag), ctx.op, ctx.receipt, ctx.ack, ctx.review)
  {
    hide *;
    InvParts(db, opening);
    OwnFields(db, ctx);
    OwnClaim(db, ctx);
    ConflictTerms(db, ctx);
    OmittedTerms(db, ctx);
    ParkDecision(db, env, user, ctx);
    var v := JudgeBound(db, env, user, ctx);
    ParkWrites(db, ctx, v.code, v.storeAck, v.flag);
  }

  // ---------------------------------------------------------------------------------------------
  // Submissions

  /** What each outcome moves and writes. */
  ghost predicate Recording(db: Db, env: Env, ev: Evidence, reply: Reply, after: Db)
    requires AuthenticEvidence(db, env, ev)
  {
    var request, receipt, ack := ev.request.envelope, ev.receipt.envelope, AckOf(ev.ack);
    var terminal := db.terminals[request.message.body.common.terminal];
    var withdrawn := UsedWithdrawn(db, request, ev.grant.envelope, receipt, ack);
    && reply.Reply? && Kept(db, after, ev.op, request, receipt)
    && match reply.operation
       case ACCEPTED => Transferred(db, after, ev.op, receipt, db.walletOf[terminal.merchantUser]) && after.payments[ev.op].ack == ack
       case PENDING_EVIDENCE =>
         && Unmoved(db, after, receipt.message.body.wallet) && after.wallets == db.wallets
         && (ev.op in db.payments ==> after.payments == db.payments)
         && (ev.op !in db.payments ==> after.payments[ev.op].ack.None? && after.payments[ev.op].code.None?)
       case PENDING_REVIEW =>
         Unmoved(db, after, receipt.message.body.wallet) && ParkedFor(db, after, ev.op, receipt, ack, withdrawn)
       case _ => false
  }

  lemma SettledAck(db: Db, ctx: Context, issuer: Issuer)
    requires Executable(db, Settle(ctx, issuer))
    requires ctx.op in db.payments ==> db.payments[ctx.op].ack.None? || db.payments[ctx.op].ack == ctx.ack
    ensures ctx.op in SettleOn(db, ctx, issuer).payments && SettleOn(db, ctx, issuer).payments[ctx.op].ack == ctx.ack
  {
    hide RecordClaim, Credit, CreditUser, ResolutionOf, SpendCommitment;
  }

  lemma HeldNew(db: Db, ctx: Context)
    requires ctx.receipt.message.body.Receipt? && ctx.ack.None?
    ensures NewPayment(ctx, PendingEvidence, None).ack.None? && NewPayment(ctx, PendingEvidence, None).code.None?
    ensures ctx.op in db.payments ==> HoldOn(db, ctx).payments == db.payments
  {
    hide RecordClaim;
  }

  lemma ConsistentAck(db: Db, env: Env, user: Id, ev: Evidence)
    requires Acceptable(db, env, user, ev) && ev.op in db.payments
    ensures db.payments[ev.op].ack.None? || ev.ack.None? || db.payments[ev.op].ack == AckOf(ev.ack)
  {
    hide AuthenticEvidence, PartyOf;
  }

  /** Acceptable evidence moves the amount from its wallet to the wallet of its terminal's merchant when it settles, and
    otherwise nothing; its row, its claim, the reason of a review and the flag are exactly these. */
  lemma RecordingMoves(db: Db, opening: map<Id, int>, env: Env, user: Id, ev: Evidence)
    requires Inv(db, opening) && !Ended(db, ev.op) && env.issuer.Some? && Acceptable(db, env, user, ev)
    requires AuthenticEvidence(db, env, ev)
    ensures Executable(db, Judge(db, env, user, ev))
    ensures Recording(db, env, ev, ReplyOf(db, Judge(db, env, user, ev)), Sync(db, env, user, ev))
  {
    hide *;
    AcceptableIsBound(db, opening, env, user, ev);
    AuthenticKinds(db, env, ev);
    RecordedIffAcceptable(db, opening, env, user, ev);
    RecordedIsAuthentic(db, env, user, ev);
    var ctx := Validate(db, env, ev.op, ev.request.envelope, ev.grant.envelope, ev.receipt.envelope, ev.ack).value;
    var v := Judge(db, env, user, ev);
    BoundKeeps(db, env, user, ctx);
    BoundOutcome(db, opening, env, user, ctx);
    SyncKeepsInv(db, opening, env, user, ev);
    JustifiedRuns(db, env, user, ev, v);
    InvParts(db, opening);
    OwnFields(db, ctx);
    VerdictKeeps(db, opening, ctx, v);
    ReplyNames(db, env, user, ctx);
    SeenReply(db, env, user, ev, v);
    if ev.op in db.payments {
      ConsistentAck(db, env, user, ev);
    }
    if v.Settle? {
      Commits(db, v);
      SettleTransfers(db, ctx, v.issuer);
      AckedContext(ev, ctx);
      SettledAck(db, ctx, v.issuer);
      SettledRecording(db, env, ev, v);
    } else if v.Hold? {
      Commits(db, v);
      HoldMovesNothing(db, ctx);
      AckedContext(ev, ctx);
      HeldNew(db, ctx);
      HeldRecording(db, env, ev, v);
    } else {
      IsPark(v);
      Commits(db, v);
      ParkMovesNothing(db, ctx, v.code, v.storeAck, v.flag);
      ParkIsParkedFor(db, opening, env, user, ctx);
      ParkedRecording(db, env, ev, v);
    }
  }

  lemma IsPark(v: Verdict)
    requires Recorded(v) && !v.Settle? && !v.Hold?
    ensures v.Park?
  {
  }

  lemma AckedContext(ev: Evidence, ctx: Context)
    requires ctx.ack == AckOf(ev.ack) && (ev.ack.Some? ==> ev.ack.value.Wire?)
    ensures ctx.ack.None? <==> ev.ack.None?
  {
  }

  lemma Commits(db: Db, v: Verdict)
    requires Executable(db, v) && Recorded(v)
    ensures v.Settle? ==> Perform(db, v) == SettleOn(db, v.ctx, v.issuer)
    ensures v.Hold? ==> Perform(db, v) == HoldOn(db, v.ctx)
    ensures v.Park? ==> Perform(db, v) == ParkOn(db, v.ctx, v.code, v.storeAck, v.flag)
  {
    hide SettleOn, HoldOn, ParkOn;
  }

  lemma SeenReply(db: Db, env: Env, user: Id, ev: Evidence, v: Verdict)
    requires Executable(db, v) && Named(db, ev.op, v) && Recorded(v)
    ensures var reply := ReplyOf(db, v);
            && reply.Reply? && (v.Settle? ==> reply.operation == ACCEPTED) && (v.Hold? ==> reply.operation == PENDING_EVIDENCE)
            && (v.Park? ==> reply.operation == PENDING_REVIEW)
  {
    hide Perform, ReplyOf, Executable;
  }

  lemma SettledRecording(db: Db, env: Env, ev: Evidence, v: Verdict)
    requires AuthenticEvidence(db, env, ev) && v.Settle? && Executable(db, v)
    requires v.ctx.op == ev.op && v.ctx.receipt == ev.receipt.envelope && v.ctx.request == ev.request.envelope
    requires v.ctx.ack == AckOf(ev.ack) && ev.receipt.Wire? && ev.request.Wire? && ev.receipt.envelope.message.body.Receipt?
    requires ev.request.envelope.message.body.Request?
    requires v.ctx.merchantWallet == db.walletOf[db.terminals[ev.request.envelope.message.body.common.terminal].merchantUser]
    requires Kept(db, Perform(db, v), ev.op, v.ctx.request, v.ctx.receipt)
    requires Transferred(db, Perform(db, v), ev.op, v.ctx.receipt, v.ctx.merchantWallet)
    requires ev.op in Perform(db, v).payments && Perform(db, v).payments[ev.op].ack == v.ctx.ack
    requires ReplyOf(db, v).Reply? && ReplyOf(db, v).operation == ACCEPTED
    ensures Recording(db, env, ev, ReplyOf(db, v), Perform(db, v))
  {
    hide Perform, ReplyOf, Executable, Kept, Transferred, UsedWithdrawn, Unmoved, ParkedFor;
  }

  lemma HeldRecording(db: Db, env: Env, ev: Evidence, v: Verdict)
    requires AuthenticEvidence(db, env, ev) && v.Hold? && Executable(db, v)
    requires v.ctx.op == ev.op && v.ctx.receipt == ev.receipt.envelope && v.ctx.request == ev.request.envelope
    requires ev.receipt.Wire? && ev.request.Wire? && ev.receipt.envelope.message.body.Receipt?
    requires v.ctx.wallet == ev.receipt.envelope.message.body.wallet
    requires Kept(db, Perform(db, v), ev.op, v.ctx.request, v.ctx.receipt)
    requires Unmoved(db, Perform(db, v), v.ctx.wallet) && Perform(db, v).wallets == db.wallets
    requires ev.op in Perform(db, v).payments
    requires Perform(db, v).payments[ev.op] ==
             if ev.op in db.payments then db.payments[ev.op] else NewPayment(v.ctx, PendingEvidence, None)
    requires NewPayment(v.ctx, PendingEvidence, None).ack.None? && NewPayment(v.ctx, PendingEvidence, None).code.None?
    requires ev.op in db.payments ==> Perform(db, v).payments == db.payments
    requires ReplyOf(db, v).Reply? && ReplyOf(db, v).operation == PENDING_EVIDENCE
    ensures Recording(db, env, ev, ReplyOf(db, v), Perform(db, v))
  {
    hide Perform, ReplyOf, Executable, Kept, Transferred, UsedWithdrawn, Unmoved, ParkedFor, NewPayment;
  }

  lemma ParkedRecording(db: Db, env: Env, ev: Evidence, v: Verdict)
    requires AuthenticEvidence(db, env, ev) && v.Park? && Executable(db, v)
    requires ev.receipt.Wire? && ev.request.Wire? && ev.grant.Wire? && ev.receipt.envelope.message.body.Receipt?
    requires ev.request.envelope.message.body.Request? && ev.grant.envelope.message.body.Grant?
    requires ev.request.envelope.message.body.posKey in db.keys && ev.grant.envelope.message.body.walletKey in db.keys
    requires AckOf(ev.ack).Some? ==> AckOf(ev.ack).value.message.body.Ack?
    requires v.ctx.op == ev.op && v.ctx.receipt == ev.receipt.envelope && v.ctx.request == ev.request.envelope
    requires v.ctx.wallet == ev.receipt.envelope.message.body.wallet && v.ctx.ack == AckOf(ev.ack)
    requires v.ctx.review <==> UsedWithdrawn(db, v.ctx.request, ev.grant.envelope, v.ctx.receipt, v.ctx.ack)
    requires Kept(db, Perform(db, v), ev.op, v.ctx.request, v.ctx.receipt)
    requires Unmoved(db, Perform(db, v), v.ctx.wallet)
    requires ParkedFor(db, Perform(db, v), ev.op, v.ctx.receipt, v.ctx.ack, v.ctx.review)
    requires ReplyOf(db, v).Reply? && ReplyOf(db, v).operation == PENDING_REVIEW
    ensures Recording(db, env, ev, ReplyOf(db, v), Perform(db, v))
  {
    hide Perform, ReplyOf, Executable, Kept, Transferred, UsedWithdrawn, Unmoved, ParkedFor;
  }

  // ---------------------------------------------------------------------------------------------
  // The other transactions of the reconciliation

  /** No row carries this nonce. */
  predicate Unused(db: Db, nonce: nat) {
    forall o | o in db.payments :: db.payments[o].nonce != nonce
  }

  /** The row found, or a new one, is parked under the acknowledgement that failed, and the wallet is flagged. */
  predicate Reparked(db: Db, after: Db, ctx: Context)
    requires ctx.receipt.message.body.Receipt?
  {
    && Unmoved(db, after, ctx.wallet) && (ctx.wallet in db.wallets ==> after.wallets[ctx.wallet].review)
    && OnlyAt(db.payments, after.payments, ctx.op) && OnlyAt(db.claims, after.claims, (ctx.auth, ctx.op))
    && ((ctx.auth, ctx.op) in db.claims ==> after.claims == db.claims)
    && var p := after.payments[ctx.op];
    && p.state == PendingReview && p.code == Some(Insufficient) && p.ack == ctx.ack
    && (ctx.op !in db.payments ==> FieldsAre(p, ctx))
    && (ctx.op in db.payments ==> p == db.payments[ctx.op].(state := p.state, code := p.code, ack := p.ack))
  }

  lemma ReparkTables(db: Db, ctx: Context)
    requires ctx.receipt.message.body.Receipt?
    ensures Unmoved(db, ReparkOn(db, ctx), ctx.wallet)
    ensures ctx.wallet in db.wallets ==> ReparkOn(db, ctx).wallets[ctx.wallet].review
    ensures ReparkOn(db, ctx).payments == db.payments[ctx.op := ReparkedPayment(db, ctx)]
    ensures ReparkOn(db, ctx).claims == RecordClaim(db.claims, ctx.auth, ctx.op, ctx.Claim())
  {
    hide RecordClaim, ReparkedPayment;
  }

  lemma ReparksSo(db: Db, ctx: Context)
    requires ctx.receipt.message.body.Receipt?
    ensures Reparked(db, ReparkOn(db, ctx), ctx)
  {
    ReparkTables(db, ctx);
    hide ReparkOn, Unmoved;
  }

  /** A second transaction moves no money: it parks and flags, unless the nonce of a new row was used meanwhile. */
  lemma SecondTransaction(db: Db, ctx: Context)
    requires ctx.receipt.message.body.Receipt?
    ensures
      var after := ParkAgain(db, ctx);
      if ctx.op in db.payments || Unused(db, ctx.receipt.message.body.common.nonce) then Reparked(db, after, ctx)
      else after == db
  {
    NonceTerms(db, ctx.receipt.message.body.common.nonce);
    ReparksSo(db, ctx);
    hide NonceTaken, ReparkOn, Reparked;
  }

  /** Nothing but the payment row changes. */
  predicate OnlyRow(before: Db, after: Db, op: Id) {
    OnlyAt(before.payments, after.payments, op) && after == before.(payments := after.payments)
  }

  predicate RejectedSo(db: Db, after: Db, ctx: LegacyContext)
    requires ctx.request.message.body.Request?
  {
    && OnlyRow(db, after, ctx.op)
    && var p := after.payments[ctx.op];
    && p.state == Rejected && p.code == Some(InsufficientLegacy) && p.ack == ctx.ack
    && (ctx.op in db.payments ==> p == db.payments[ctx.op].(state := p.state, code := p.code, ack := p.ack))
    && (ctx.op !in db.payments ==> OldFieldsAre(p, ctx))
  }

  lemma RejectedRow(db: Db, after: Db, ctx: LegacyContext)
    requires ctx.request.message.body.Request?
    requires after == db.(payments := db.payments[ctx.op := RejectedPayment(db, ctx)])
    ensures RejectedSo(db, after, ctx)
  {
  }

  /** The second transaction of version 2 rejects instead, and flags nobody. */
  lemma SecondRejection(db: Db, ctx: LegacyContext)
    requires ctx.request.message.body.Request?
    ensures
      var after := RejectAgain(db, ctx);
      if ctx.op in db.payments || Unused(db, ctx.request.message.body.common.nonce) then RejectedSo(db, after, ctx)
      else after == db
  {
    NonceTerms(db, ctx.request.message.body.common.nonce);
    RejectedRow(db, db.(payments := db.payments[ctx.op := RejectedPayment(db, ctx)]), ctx);
    hide NonceTaken, RejectedPayment, RejectedSo;
  }

  predicate OldFieldsAre(p: Payment, ctx: LegacyContext)
    requires ctx.request.message.body.Request?
  {
    var c := ctx.request.message.body.common;
    && p.request == ctx.request && p.receipt == ctx.receipt && p.wallet == ctx.wallet && p.auth == ctx.auth
    && p.merchant == c.merchant && p.terminal == c.terminal && p.amount == c.amount && p.nonce == c.nonce
  }

  /** A version 2 settlement moves the amount out of its authorization and books it; it has no commitment to settle. */
  predicate OldTransferred(before: Db, after: Db, ctx: LegacyContext)
    requires ctx.request.message.body.Request?
  {
    && SameElsewhere(before, after) && ctx.wallet in before.wallets && ctx.merchantWallet in before.wallets
    && Paid(before.wallets, after.wallets, ctx.wallet, ctx.merchantWallet, ctx.Amount())
    && PaidUsers(before.saldo, after.saldo, before.wallets[ctx.wallet].owner, before.wallets[ctx.merchantWallet].owner,
                 ctx.Amount())
    && Spent(before.authorizations, after.authorizations, ctx.auth, ctx.Amount())
    && Booked(before.ledger, after.ledger, ctx.op, ctx.wallet, ctx.merchantWallet, ctx.Amount())
    && after.commitments == before.commitments && after.claims == before.claims && after.emissions == before.emissions
    && after.resolutions == before.resolutions && OnlyAt(before.payments, after.payments, ctx.op)
  }

  lemma OldWallets(db: Db, ctx: LegacyContext)
    requires LegacyExecutable(db, LegacySettle(ctx))
    ensures Paid(db.wallets, LegacySettleOn(db, ctx).wallets, ctx.wallet, ctx.merchantWallet, ctx.Amount())
  {
    hide CreditUser, LegacyPayment;
  }

  lemma OldUsers(db: Db, ctx: LegacyContext)
    requires LegacyExecutable(db, LegacySettle(ctx))
    ensures PaidUsers(db.saldo, LegacySettleOn(db, ctx).saldo, db.wallets[ctx.wallet].owner,
                      db.wallets[ctx.merchantWallet].owner, ctx.Amount())
  {
    hide Credit, LegacyPayment;
  }

  lemma OldSettles(db: Db, ctx: LegacyContext)
    requires LegacyExecutable(db, LegacySettle(ctx))
    ensures OldTransferred(db, LegacySettleOn(db, ctx), ctx)
  {
    OldWallets(db, ctx);
    OldUsers(db, ctx);
    hide Paid, PaidUsers, Credit, CreditUser, LegacyPayment;
  }

  /** What each version 2 outcome moves and writes. */
  ghost predicate OldRecording(db: Db, ctx: LegacyContext, v: LegacyVerdict, after: Db)
    requires ctx.request.message.body.Request?
  {
    && ctx.op in after.payments
    && var p, known := after.payments[ctx.op], ctx.op in db.payments;
    && (known ==> p == db.payments[ctx.op].(state := p.state, code := p.code, ack := p.ack))
    && (!known ==> OldFieldsAre(p, ctx) && p.ack == ctx.ack)
    && match v
       case LegacyRefuse(_) => false
       case LegacyHold(_) =>
         (if known then after == db else OnlyRow(db, after, ctx.op) && p.state == PendingEvidence && p.code.None?)
       case LegacyReject(_) => OnlyRow(db, after, ctx.op) && p.state == Rejected && p.code == Some(InsufficientLegacy)
       case LegacySettle(_) =>
         && OldTransferred(db, after, ctx) && p.state == Accepted
         && p.code == (if known then db.payments[ctx.op].code else None)
  }

  lemma OldMoves(db: Db, v: LegacyVerdict)
    requires LegacyExecutable(db, v) && !v.LegacyRefuse?
    ensures OldRecording(db, v.ctx, v, PerformLegacy(db, v))
    ensures !v.LegacyHold? && v.ctx.op in db.payments && db.payments[v.ctx.op].ack.None? ==>
              PerformLegacy(db, v).payments[v.ctx.op].ack == v.ctx.ack
  {
    if v.LegacySettle? {
      OldSettles(db, v.ctx);
      hide OldTransferred, Credit, CreditUser;
    }
  }
}
