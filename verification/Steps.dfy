/** Every commit of the version 3 reconciliation keeps the invariant. */
module Steps {
  import opened Messages
  import opened Database
  import opened Sums
  import opened SyncV3
  import opened Authorizations
  import opened Invariant
  import opened Rows

  /** The evidence of a context is bound to its commitment and does not contradict a recorded payment. */
  ghost predicate Bound(db: Db, ctx: Context) {
    && ctx.auth in db.commitments && ctx.auth in db.authorizations
    && ctx.wallet in db.wallets && ctx.merchantWallet in db.wallets
    && db.commitments[ctx.auth].wallet == ctx.wallet
    && ReceiptBound(ctx.request, ctx.receipt, db.commitments[ctx.auth].grant)
    && ctx.receipt.message.body.auth == ctx.auth
    && ctx.Common().op == ctx.op
    && (ctx.ack.Some? ==> AckBound(ctx.request, ctx.receipt, ctx.ack.value))
    && if ctx.op in db.payments then
         && db.payments[ctx.op].request == ctx.request && db.payments[ctx.op].receipt == ctx.receipt
         && !db.payments[ctx.op].Final()
       else !NonceTaken(db, ctx.Common().nonce)
  }

  /** p is a row that this evidence may write: the recorded row or a new one, in another state. */
  ghost predicate RowFor(db: Db, ctx: Context, p: Payment) {
    && ctx.receipt.message.body.Receipt?
    && Replaces(db.payments, ctx.op, p)
    && p.auth == ctx.auth && p.amount == ctx.Amount() && p.wallet == ctx.wallet
    && p.receipt == ctx.receipt && ClaimOf(p) == ctx.Claim()
  }

  ghost predicate RowOk(db: Db, ctx: Context, p: Payment) {
    ctx.auth in db.commitments && RowFor(db, ctx, p) && PaymentOk(ctx.op, p, db.commitments[ctx.auth])
  }

  lemma KnownRow(db: Db, ctx: Context)
    requires Bound(db, ctx) && ctx.op in db.payments
    requires PaymentsOk(db.payments, db.commitments, db.authorizations)
    ensures RowFor(db, ctx, db.payments[ctx.op]) && PaymentOk(ctx.op, db.payments[ctx.op], db.commitments[ctx.auth])
  {
    var p := db.payments[ctx.op];
    assert p.request.message.version == 3;
    assert p.auth in db.commitments;
    assert PaymentOk(ctx.op, p, db.commitments[p.auth]);
  }

  lemma NewRow(db: Db, ctx: Context, state: PaymentState, code: Option<Code>)
    requires Bound(db, ctx) && ctx.op !in db.payments
    requires state.PendingReview? || (state.Accepted? && ctx.ack.Some?) || (state.PendingEvidence? && ctx.ack.None?)
    ensures RowOk(db, ctx, NewPayment(ctx, state, code))
  {
  }

  lemma ParkedRow(db: Db, ctx: Context, code: Option<Code>, storeAck: bool)
    requires Bound(db, ctx) && PaymentsOk(db.payments, db.commitments, db.authorizations)
    ensures RowOk(db, ctx, ParkedPayment(db, ctx, code, storeAck))
  {
    if ctx.op in db.payments {
      KnownRow(db, ctx);
    } else {
      NewRow(db, ctx, PendingReview, code);
    }
  }

  lemma AcceptedRow(db: Db, ctx: Context)
    requires Bound(db, ctx) && PaymentsOk(db.payments, db.commitments, db.authorizations) && ctx.ack.Some?
    ensures RowOk(db, ctx, WithAck(db, ctx, Accepted))
  {
    if ctx.op in db.payments {
      KnownRow(db, ctx);
    } else {
      NewRow(db, ctx, Accepted, None);
    }
  }

  lemma BoundParts(db: Db, ctx: Context)
    requires Bound(db, ctx)
    ensures ctx.receipt.message.body.Receipt? && ctx.auth in db.commitments && ctx.auth in db.authorizations
    ensures ctx.wallet in db.wallets && ctx.merchantWallet in db.wallets && db.commitments[ctx.auth].wallet == ctx.wallet
    ensures ctx.Amount() >= 1
  {
  }

  lemma RowParts(db: Db, ctx: Context, p: Payment)
    requires RowOk(db, ctx, p)
    ensures ctx.receipt.message.body.Receipt? && ctx.auth in db.commitments
    ensures Replaces(db.payments, ctx.op, p) && PaymentOk(ctx.op, p, db.commitments[ctx.auth])
    ensures p.auth == ctx.auth && p.amount == ctx.Amount() && p.wallet == ctx.wallet
    ensures p.receipt == ctx.receipt && ClaimOf(p) == ctx.Claim()
  {
    hide Replaces, PaymentOk;
  }

  lemma RecordParts(claims: map<(Id, Id), Claim>, a: Id, op: Id, claim: Claim, wallets: map<Id, Wallet>, w: Id, flag: bool)
    ensures forall k | k in claims :: k in RecordClaim(claims, a, op, claim) && RecordClaim(claims, a, op, claim)[k] == claims[k]
    ensures Flag(wallets, w, flag).Keys == wallets.Keys
    ensures forall v | v in wallets && wallets[v].review :: Flag(wallets, w, flag)[v].review
    ensures flag && w in wallets ==> Flag(wallets, w, flag)[w].review
  {
  }

  /** Writing a row that is not final, with its claim, keeps the invariant. */
  lemma RecordKeepsInv(db: Db, opening: map<Id, int>, ctx: Context, p: Payment, flag: bool)
    requires Inv(db, opening) && RowOk(db, ctx, p) && !p.Final() && !p.state.Accepted?
    requires ctx.auth in db.authorizations && ctx.wallet in db.wallets && db.commitments[ctx.auth].wallet == ctx.wallet
    requires ClaimConflict(db.claims, ctx.auth, ctx.op, ctx.Claim()) ==> flag
    ensures Inv(db.(wallets := Flag(db.wallets, ctx.wallet, flag), payments := db.payments[ctx.op := p],
                    claims := RecordClaim(db.claims, ctx.auth, ctx.op, ctx.Claim())), opening)
  {
    hide *;
    RowParts(db, ctx, p);
    InvParts(db, opening);
    var wallets, claims := Flag(db.wallets, ctx.wallet, flag), RecordClaim(db.claims, ctx.auth, ctx.op, ctx.Claim());
    RecordParts(db.claims, ctx.auth, ctx.op, ctx.Claim(), db.wallets, ctx.wallet, flag);
    FlagWallets(db.wallets, db.walletOf, db.saldo, ctx.wallet, flag);
    FlagBalances(opening, db.wallets, db.topups, db.ledger, ctx.wallet, flag);
    FlagSolvent(db.wallets, db.commitments, db.authorizations, ctx.wallet, flag);
    PutPayments(db.payments, db.commitments, db.authorizations, ctx.op, p);
    PutClaims(db.claims, db.payments, db.commitments.Keys, ctx.op, p);
    PutFlags(db.claims, db.commitments, db.wallets, wallets, ctx.auth, ctx.op, ctx.Claim());
    PutEmissions(db.emissions, db.payments, db.commitments.Keys, ctx.op, p);
    PutCounters(db.commitments, db.emissions, db.payments, ctx.op, p);
    PutLedger(db.ledger, db.payments, db.wallets, ctx.op, p);
    LedgerFrame(db.ledger, db.payments[ctx.op := p], db.wallets, wallets);
    PutResolutions(db.resolutions, db.payments, db.commitments.Keys, ctx.op, p);
    PutSeals(db.commitments, db.payments, db.claims, ctx.op, p, claims);
    InvBuild(db.(wallets := wallets, payments := db.payments[ctx.op := p], claims := claims), opening);
  }

  /** The evidence of a context may be settled now. */
  ghost predicate Settling(db: Db, ctx: Context) {
    && Bound(db, ctx) && ctx.ack.Some? && GuardsPass(db, ctx)
    && !ClaimConflict(db.claims, ctx.auth, ctx.op, ctx.Claim()) && !EmittedByOther(db, ctx)
    && (db.commitments[ctx.auth].Closed() ==>
          && ctx.op in db.payments
          && InManifest(db.commitments[ctx.auth].sealed.value.entries, ctx.op, ctx.Claim()))
  }

  lemma SettlingParts(db: Db, ctx: Context)
    requires Settling(db, ctx)
    requires PaymentsOk(db.payments, db.commitments, db.authorizations)
    requires ClaimsOk(db.claims, db.payments, db.commitments.Keys)
    ensures Bound(db, ctx) && ctx.ack.Some? && ctx.receipt.message.body.Receipt? && ctx.auth in db.authorizations && ctx.auth in db.commitments
    ensures ctx.wallet in db.wallets && ctx.merchantWallet in db.wallets
    ensures db.commitments[ctx.auth].wallet == ctx.wallet && ctx.Amount() >= 0
    ensures db.wallets[ctx.wallet].balance >= ctx.Amount() && db.commitments[ctx.auth].held >= ctx.Amount()
    ensures db.authorizations[ctx.auth].remaining >= ctx.Amount() && db.authorizations[ctx.auth].payments > 0
    ensures !ClaimConflict(db.claims, ctx.auth, ctx.op, ctx.Claim())
    ensures forall k | k in db.emissions && k.0 == ctx.auth && k.1 != ctx.op ::
              db.emissions[k].index != ctx.receipt.message.body.index
    ensures db.commitments[ctx.auth].Closed() ==>
              && (ctx.auth, ctx.op) in db.claims
              && InManifest(db.commitments[ctx.auth].sealed.value.entries, ctx.op, ctx.Claim())
  {
    hide ReceiptBound, AckBound, InManifest, ClaimConflict, NonceTaken;
    BoundParts(db, ctx);
    if ctx.op in db.payments {
      KnownRow(db, ctx);
    }
  }

  /** The tables a settlement writes. */
  lemma SettleTables(db: Db, ctx: Context, issuer: Issuer, p: Payment)
    requires ctx.receipt.message.body.Receipt? && ctx.auth in db.authorizations && ctx.auth in db.commitments
    requires ctx.wallet in db.wallets && ctx.merchantWallet in db.wallets
    requires p == WithAck(db, ctx, Accepted)
    requires p.auth == ctx.auth && p.amount == ctx.Amount() && p.wallet == ctx.wallet && p.receipt == ctx.receipt
    ensures p.state.Accepted? && p.Final()
    ensures
      var amount, after := ctx.Amount(), SettleOn(db, ctx, issuer);
      var row := db.authorizations[ctx.auth];
      after == db.(wallets := Credit(Credit(db.wallets, ctx.wallet, -amount), ctx.merchantWallet, amount),
                   saldo := CreditUser(CreditUser(db.saldo, db.wallets[ctx.wallet].owner, -amount),
                                       db.wallets[ctx.merchantWallet].owner, amount),
                   authorizations := db.authorizations[ctx.auth := row.(remaining := row.remaining - amount,
                                                                        payments := row.payments - 1)],
                   commitments := db.commitments[ctx.auth := SpendCommitment(db.commitments[ctx.auth], amount)],
                   payments := db.payments[ctx.op := p],
                   claims := RecordClaim(db.claims, ctx.auth, ctx.op, ctx.Claim()),
                   emissions := db.emissions[(ctx.auth, ctx.op) := Emission(ctx.receipt.message.body.index, amount)],
                   ledger := Pair(db.ledger, ctx.op, ctx.wallet, ctx.merchantWallet, amount),
                   resolutions := db.resolutions[ctx.op := after.resolutions[ctx.op]])
      && after.resolutions[ctx.op].status == p.state
  {
    hide Credit, CreditUser, RecordClaim, ResolutionOf, SpendCommitment;
  }

  lemma SpendParts(db: Db, ctx: Context)
    requires ctx.receipt.message.body.Receipt? && ctx.auth in db.authorizations && ctx.auth in db.commitments
    ensures
      var c := db.commitments[ctx.auth];
      var spent := SpendCommitment(c, ctx.Amount());
      && spent.held == c.held - ctx.Amount() && spent.wallet == c.wallet && spent.grant == c.grant
  {
  }

  lemma CreditParts(wallets: map<Id, Wallet>, payer: Id, payee: Id, amount: int)
    ensures var after := Credit(Credit(wallets, payer, -amount), payee, amount);
            after.Keys == wallets.Keys && forall w | w in wallets :: after[w] == wallets[w].(balance := after[w].balance)
  {
  }

  lemma SpendAuthorizations(authorizations: map<Id, Authorization>, before: map<Id, Wallet>, after: map<Id, Wallet>,
                            a: Id, row: Authorization)
    requires AuthorizationsOk(authorizations, before) && before.Keys == after.Keys
    requires a in authorizations && row.wallet == authorizations[a].wallet && row.remaining >= 0 && row.payments >= 0
    ensures AuthorizationsOk(authorizations[a := row], after)
  {
  }

  lemma RequestsFrame(issuedFor: map<Id, Id>, before: map<Id, Commitment>, after: map<Id, Commitment>)
    requires RequestsOk(issuedFor, before) && before.Keys <= after.Keys
    ensures RequestsOk(issuedFor, after)
  {
  }

  /** Settling a payment keeps the invariant. */
  lemma SettleKeepsInv(db: Db, opening: map<Id, int>, ctx: Context, issuer: Issuer)
    requires Inv(db, opening) && Settling(db, ctx)
    ensures Inv(SettleOn(db, ctx, issuer), opening)
  {
    hide *;
    InvParts(db, opening);
    SettlingParts(db, ctx);
    BoundParts(db, ctx);
    AcceptedRow(db, ctx);
    var p, amount, after := WithAck(db, ctx, Accepted), ctx.Amount(), SettleOn(db, ctx, issuer);
    RowParts(db, ctx, p);
    SettleTables(db, ctx, issuer, p);
    SpendParts(db, ctx);
    CreditParts(db.wallets, ctx.wallet, ctx.merchantWallet, amount);
    assert after.commitments.Keys == db.commitments.Keys;
    PairWallets(db.wallets, db.walletOf, db.saldo, ctx.wallet, ctx.merchantWallet, amount);
    SpendAuthorizations(db.authorizations, db.wallets, after.wallets, ctx.auth, after.authorizations[ctx.auth]);
    SpendCommitments(db.commitments, db.authorizations, ctx.auth, amount);
    PutPayments(db.payments, db.commitments, db.authorizations, ctx.op, p);
    PaymentsFrame(after.payments, db.commitments, after.commitments, db.authorizations, after.authorizations);
    PutClaims(db.claims, db.payments, db.commitments.Keys, ctx.op, p);
    PutFlags(db.claims, db.commitments, db.wallets, after.wallets, ctx.auth, ctx.op, ctx.Claim());
    FlagsFrame(after.claims, db.commitments, after.commitments, after.wallets, after.wallets);
    SettledEmissions(db.emissions, db.payments, db.commitments.Keys, ctx.op, p);
    SettledCounters(db.commitments, db.emissions, db.payments, ctx.op, p, ctx.receipt.message.body.index);
    SettledLedger(db.ledger, db.payments, db.wallets, ctx.op, p, ctx.merchantWallet);
    LedgerFrame(after.ledger, after.payments, db.wallets, after.wallets);
    PairBalances(opening, db.wallets, db.topups, db.ledger, ctx.op, ctx.wallet, ctx.merchantWallet, amount);
    SettledResolutions(db.resolutions, db.payments, db.commitments.Keys, ctx.op, p, after.resolutions[ctx.op]);
    SettledSeals(db.commitments, db.payments, db.claims, ctx.op, p);
    SpendSolvent(db.wallets, db.commitments, db.authorizations, ctx.auth, after.commitments[ctx.auth],
                 after.authorizations[ctx.auth], ctx.merchantWallet, amount);
    RequestsFrame(db.issuedFor, db.commitments, after.commitments);
    InvBuild(after, opening);
  }
}
