/** Every commit of the historical reconciliation keeps the invariant. */
module LegacySteps {
  import opened Messages
  import opened Database
  import opened Sums
  import opened SyncV3
  import opened SyncV2
  import opened Authorizations
  import opened Invariant
  import opened Rows
  import opened Steps

  ghost predicate LegacyBound(db: Db, ctx: LegacyContext) {
    && ctx.request.message.version == 2
    && ctx.request.message.body.Request? && ctx.receipt.message.body.LegacyReceipt?
    && ctx.auth == ctx.receipt.message.body.auth && ctx.wallet == ctx.receipt.message.body.wallet
    && ctx.Amount() >= 1
    && ctx.auth in db.authorizations && ctx.auth !in db.commitments
    && ctx.wallet in db.wallets && ctx.merchantWallet in db.wallets
    && db.authorizations[ctx.auth].wallet == ctx.wallet
    && if ctx.op in db.payments then
         && db.payments[ctx.op].request == ctx.request && db.payments[ctx.op].receipt == ctx.receipt
         && !db.payments[ctx.op].Final()
       else !NonceTaken(db, ctx.request.message.body.common.nonce)
  }

  lemma LegacyRow(db: Db, ctx: LegacyContext, state: PaymentState, code: Option<Code>)
    requires LegacyBound(db, ctx) && PaymentsOk(db.payments, db.commitments, db.authorizations)
    ensures
      var p := LegacyPayment(db, ctx, state, code);
      && Replaces(db.payments, ctx.op, p) && LegacyPaymentOk(p)
      && p.auth == ctx.auth && p.amount == ctx.Amount() && p.wallet == ctx.wallet && p.state == state
  {
    if ctx.op in db.payments {
      var p := db.payments[ctx.op];
      assert p.request.message.version == 2;
    }
  }

  lemma LegacyParts(db: Db, ctx: LegacyContext)
    requires LegacyBound(db, ctx)
    ensures ctx.request.message.body.Request? && ctx.Amount() >= 0
    ensures ctx.auth in db.authorizations && ctx.auth !in db.commitments
    ensures ctx.wallet in db.wallets && ctx.merchantWallet in db.wallets && db.authorizations[ctx.auth].wallet == ctx.wallet
  {
  }

  /** Writing a legacy row that is not accepted touches nothing else. */
  lemma LegacyRecordKeepsInv(db: Db, opening: map<Id, int>, op: Id, p: Payment)
    requires Inv(db, opening) && Replaces(db.payments, op, p) && LegacyPaymentOk(p)
    requires p.auth in db.authorizations && p.auth !in db.commitments && !p.state.Accepted?
    ensures Inv(db.(payments := db.payments[op := p]), opening)
  {
    hide *;
    InvParts(db, opening);
    PutPayments(db.payments, db.commitments, db.authorizations, op, p);
    PutLegacyClaims(db.claims, db.payments, db.commitments.Keys, op, p);
    PutEmissions(db.emissions, db.payments, db.commitments.Keys, op, p);
    PutCounters(db.commitments, db.emissions, db.payments, op, p);
    PutLedger(db.ledger, db.payments, db.wallets, op, p);
    PutResolutions(db.resolutions, db.payments, db.commitments.Keys, op, p);
    PutSeals(db.commitments, db.payments, db.claims, op, p, db.claims);
    InvBuild(db.(payments := db.payments[op := p]), opening);
  }

  lemma LegacyUpdate(authorizations: map<Id, Authorization>, v3: set<Id>, a: Id, amount: int, w: Id)
    requires a in authorizations && a !in v3 && authorizations[a].active
    ensures
      var row := authorizations[a].(remaining := authorizations[a].remaining - amount,
                                    payments := authorizations[a].payments - 1);
      Legacy(authorizations[a := row], v3, w) ==
      Legacy(authorizations, v3, w) - if authorizations[a].wallet == w then amount else 0
  {
    hide Sum;
    var row := authorizations[a].(remaining := authorizations[a].remaining - amount,
                                  payments := authorizations[a].payments - 1);
    assert authorizations[a := row].Keys == authorizations.Keys;
    SumUpdate(authorizations.Keys, LegacyBy(authorizations, v3, w), LegacyBy(authorizations[a := row], v3, w), a);
  }

  lemma LegacySolvent(wallets: map<Id, Wallet>, commitments: map<Id, Commitment>, authorizations: map<Id, Authorization>,
                      a: Id, payee: Id, amount: int)
    requires Solvent(wallets, commitments, authorizations) && amount >= 0
    requires a in authorizations && a !in commitments && authorizations[a].active
    requires authorizations[a].wallet in wallets && payee in wallets
    ensures Solvent(Credit(Credit(wallets, authorizations[a].wallet, -amount), payee, amount), commitments,
                    authorizations[a := authorizations[a].(remaining := authorizations[a].remaining - amount,
                                                           payments := authorizations[a].payments - 1)])
  {
    hide Held, Legacy;
    forall w | w in wallets {
      LegacyUpdate(authorizations, commitments.Keys, a, amount, w);
    }
  }

  lemma LegacyCommitments(commitments: map<Id, Commitment>, authorizations: map<Id, Authorization>, a: Id, row: Authorization)
    requires CommitmentsOk(commitments, authorizations) && a !in commitments
    ensures CommitmentsOk(commitments, authorizations[a := row])
  {
    hide CommitmentOk;
  }

  ghost predicate LegacySettling(db: Db, ctx: LegacyContext) {
    LegacyBound(db, ctx) && LegacyGuardsPass(db, ctx)
  }

  lemma LegacySettlingParts(db: Db, ctx: LegacyContext)
    requires LegacySettling(db, ctx)
    ensures LegacyBound(db, ctx) && ctx.request.message.body.Request? && ctx.auth in db.authorizations && ctx.wallet in db.wallets
    ensures db.authorizations[ctx.auth].active && db.authorizations[ctx.auth].remaining >= ctx.Amount()
    ensures db.authorizations[ctx.auth].payments > 0 && db.wallets[ctx.wallet].balance >= ctx.Amount()
    ensures LegacyExecutable(db, LegacySettle(ctx))
  {
  }

  lemma LegacySettleTables(db: Db, ctx: LegacyContext, p: Payment)
    requires LegacyExecutable(db, LegacySettle(ctx)) && ctx.auth in db.authorizations
    requires p == LegacyPayment(db, ctx, Accepted, None)
    ensures
      var amount, row := ctx.Amount(), db.authorizations[ctx.auth];
      LegacySettleOn(db, ctx) ==
      db.(wallets := Credit(Credit(db.wallets, ctx.wallet, -amount), ctx.merchantWallet, amount),
          saldo := CreditUser(CreditUser(db.saldo, db.wallets[ctx.wallet].owner, -amount),
                              db.wallets[ctx.merchantWallet].owner, amount),
          authorizations := db.authorizations[ctx.auth := row.(remaining := row.remaining - amount,
                                                               payments := row.payments - 1)],
          payments := db.payments[ctx.op := p],
          ledger := Pair(db.ledger, ctx.op, ctx.wallet, ctx.merchantWallet, amount))
  {
    hide Credit, CreditUser;
  }

  lemma LegacySettleKeepsInv(db: Db, opening: map<Id, int>, ctx: LegacyContext)
    requires Inv(db, opening) && LegacySettling(db, ctx) && LegacyExecutable(db, LegacySettle(ctx))
    ensures Inv(LegacySettleOn(db, ctx), opening)
  {
    hide *;
    InvParts(db, opening);
    LegacySettlingParts(db, ctx);
    LegacyParts(db, ctx);
    var p, amount := LegacyPayment(db, ctx, Accepted, None), ctx.Amount();
    LegacyRow(db, ctx, Accepted, None);
    LegacySettleTables(db, ctx, p);
    var after := LegacySettleOn(db, ctx);
    CreditParts(db.wallets, ctx.wallet, ctx.merchantWallet, amount);
    PairWallets(db.wallets, db.walletOf, db.saldo, ctx.wallet, ctx.merchantWallet, amount);
    SpendAuthorizations(db.authorizations, db.wallets, after.wallets, ctx.auth, after.authorizations[ctx.auth]);
    LegacyCommitments(db.commitments, db.authorizations, ctx.auth, after.authorizations[ctx.auth]);
    PutPayments(db.payments, db.commitments, db.authorizations, ctx.op, p);
    PaymentsFrame(after.payments, db.commitments, db.commitments, db.authorizations, after.authorizations);
    PutLegacyClaims(db.claims, db.payments, db.commitments.Keys, ctx.op, p);
    FlagsFrame(db.claims, db.commitments, db.commitments, db.wallets, after.wallets);
    PutEmissions(db.emissions, db.payments, db.commitments.Keys, ctx.op, p);
    PutCounters(db.commitments, db.emissions, db.payments, ctx.op, p);
    SettledLedger(db.ledger, db.payments, db.wallets, ctx.op, p, ctx.merchantWallet);
    LedgerFrame(after.ledger, after.payments, db.wallets, after.wallets);
    PairBalances(opening, db.wallets, db.topups, db.ledger, ctx.op, ctx.wallet, ctx.merchantWallet, amount);
    PutResolutions(db.resolutions, db.payments, db.commitments.Keys, ctx.op, p);
    PutSeals(db.commitments, db.payments, db.claims, ctx.op, p, db.claims);
    LegacySolvent(db.wallets, db.commitments, db.authorizations, ctx.auth, ctx.merchantWallet, amount);
    InvBuild(after, opening);
  }

  ghost predicate LegacyJustified(db: Db, v: LegacyVerdict) {
    match v
    case LegacyRefuse(_) => true
    case LegacyHold(ctx) => LegacyBound(db, ctx)
    case LegacyReject(ctx) => LegacyBound(db, ctx)
    case LegacySettle(ctx) => LegacySettling(db, ctx)
  }

  lemma LegacyValidatedIsBound(db: Db, op: Id, request: Envelope, receipt: Envelope, ack: Option<Wire>)
    requires WalletsOk(db.wallets, db.walletOf, db.saldo)
    requires request.message.version == 2 && Valid2(request.message.body)
    requires op in db.payments ==>
               db.payments[op].request == request && db.payments[op].receipt == receipt && !db.payments[op].Final()
    ensures
      var ctx := LegacyValidate(db, op, request, receipt, ack);
      ctx.Some? ==>
        && ctx.value.op == op && ctx.value.request.message.body.Request?
        && (op in db.payments || !NonceTaken(db, request.message.body.common.nonce) ==> LegacyBound(db, ctx.value))
  {
    hide NonceTaken, LegacyAckFits, RequiresReview;
  }

  lemma JudgeLegacyJustified(db: Db, opening: map<Id, int>, user: Id, ev: LegacyEvidence)
    requires Inv(db, opening)
    ensures LegacyJustified(db, JudgeLegacy(db, user, ev))
  {
    assert WalletsOk(db.wallets, db.walletOf, db.saldo) by {
      hide *;
      InvParts(db, opening);
    }
    hide Inv, WalletsOk, LegacyValidate, LegacyBound, NonceTaken, Authorized, Valid2;
    var request, receipt := Parse2(ev.request), Parse2(ev.receipt);
    if (&& request.Some? && receipt.Some?
        && (ev.op in db.payments ==>
              && db.payments[ev.op].request == request.value && db.payments[ev.op].receipt == receipt.value
              && !db.payments[ev.op].Final())) {
      LegacyValidatedIsBound(db, ev.op, request.value, receipt.value, ev.ack);
    }
  }

  lemma LegacyJustifiedIsExecutable(db: Db, v: LegacyVerdict)
    requires LegacyJustified(db, v)
    ensures LegacyExecutable(db, v)
  {
    hide Replaces;
  }

  lemma PerformLegacyKeepsInv(db: Db, opening: map<Id, int>, v: LegacyVerdict)
    requires Inv(db, opening) && LegacyJustified(db, v) && LegacyExecutable(db, v)
    ensures Inv(PerformLegacy(db, v), opening)
  {
    assert PaymentsOk(db.payments, db.commitments, db.authorizations) by {
      hide *;
      InvParts(db, opening);
    }
    hide Inv, PaymentsOk, LegacyBound, LegacySettling, LegacySettleOn, LegacyPaymentOk, Replaces, LegacyPayment;
    match v
    case LegacyRefuse(_) =>
    case LegacyHold(ctx) =>
      LegacyRow(db, ctx, PendingEvidence, None);
      LegacyParts(db, ctx);
      LegacyRecordKeepsInv(db, opening, ctx.op, LegacyPayment(db, ctx, PendingEvidence, None));
    case LegacyReject(ctx) =>
      LegacyRow(db, ctx, Rejected, Some(InsufficientLegacy));
      LegacyParts(db, ctx);
      LegacyRecordKeepsInv(db, opening, ctx.op, LegacyPayment(db, ctx, Rejected, Some(InsufficientLegacy)));
    case LegacySettle(ctx) => LegacySettleKeepsInv(db, opening, ctx);
  }

  ghost function SyncLegacy(db: Db, user: Id, ev: LegacyEvidence): Db {
    if LegacyExecutable(db, JudgeLegacy(db, user, ev)) then PerformLegacy(db, JudgeLegacy(db, user, ev)) else db
  }

  /** Any submission of version 2 evidence keeps the invariant. */
  lemma SyncLegacyKeepsInv(db: Db, opening: map<Id, int>, user: Id, ev: LegacyEvidence)
    requires Inv(db, opening)
    ensures LegacyExecutable(db, JudgeLegacy(db, user, ev))
    ensures Inv(SyncLegacy(db, user, ev), opening)
  {
    JudgeLegacyJustified(db, opening, user, ev);
    LegacyJustifiedIsExecutable(db, JudgeLegacy(db, user, ev));
    hide Inv, JudgeLegacy, LegacyJustified, PerformLegacy, LegacyExecutable;
    PerformLegacyKeepsInv(db, opening, JudgeLegacy(db, user, ev));
  }
}
