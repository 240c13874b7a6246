/** The second transaction of a version 2 settlement whose conditional updates failed.

  The handler rolls back, reads the payment row again and rejects whatever it finds; other handlers may commit in
  between. */
module LegacyRollback {
  import opened Messages
  import opened Database
  import opened Sums
  import opened SyncV3
  import opened SyncV2
  import opened Authorizations
  import opened Invariant
  import opened Rows
  import opened Steps
  import opened LegacySteps

  /** The update of the authorization matches its row. */
  predicate Spendable(row: Authorization, amount: int) {
    row.active && row.remaining >= amount && row.payments > 0
  }

  /** Acknowledged evidence of a version 2 authorization that cannot pay for it. */
  ghost predicate LegacyFailed(db: Db, ctx: LegacyContext) {
    && ctx.request.message.version == 2 && ctx.request.message.body.Request? && ctx.receipt.message.body.LegacyReceipt?
    && ctx.auth == ctx.receipt.message.body.auth && ctx.wallet == ctx.receipt.message.body.wallet
    && ctx.request.message.body.common == ctx.receipt.message.body.common && ctx.Amount() >= 1
    && ctx.ack.Some? && ctx.ack.value.message.version == 2
    && ctx.auth in db.authorizations && ctx.auth !in db.commitments
    && !Spendable(db.authorizations[ctx.auth], ctx.Amount())
  }

  /** The second transaction finds no row, or a version 2 row that was not accepted. */
  predicate NotAccepted(db: Db, ctx: LegacyContext) {
    ctx.op in db.payments ==> db.payments[ctx.op].auth !in db.commitments && !db.payments[ctx.op].state.Accepted?
  }

  function RejectedPayment(db: Db, ctx: LegacyContext): Payment
    requires ctx.request.message.body.Request?
  {
    if ctx.op in db.payments then
      db.payments[ctx.op].(state := Rejected, code := Some(InsufficientLegacy), ack := ctx.ack)
    else LegacyPayment(db, ctx, Rejected, Some(InsufficientLegacy))
  }

  /** The commit of the second transaction; a nonce used in the meantime makes it fail. */
  function LegacyRepark(db: Db, ctx: LegacyContext): Db
    requires ctx.request.message.body.Request?
  {
    if ctx.op !in db.payments && NonceTaken(db, ctx.request.message.body.common.nonce) then db
    else db.(payments := db.payments[ctx.op := RejectedPayment(db, ctx)])
  }

  /** With nothing in between, the two transactions are one rejection. */
  lemma RejectionIsTwoTransactions(db: Db, ctx: LegacyContext)
    requires ctx.request.message.body.Request?
    requires ctx.op in db.payments ==> db.payments[ctx.op].ack.None? || db.payments[ctx.op].ack == ctx.ack
    requires ctx.op !in db.payments ==> !NonceTaken(db, ctx.request.message.body.common.nonce)
    ensures LegacyRepark(db, ctx) == PerformLegacy(db, LegacyReject(ctx))
  {
  }

  lemma LegacyFailedParts(db: Db, ctx: LegacyContext)
    requires LegacyFailed(db, ctx)
    ensures ctx.request.message.body.Request? && ctx.receipt.message.body.LegacyReceipt? && ctx.ack.Some?
    ensures ctx.auth in db.authorizations && ctx.auth !in db.commitments
  {
  }

  lemma NewRejection(db: Db, ctx: LegacyContext)
    requires LegacyFailed(db, ctx) && ctx.op !in db.payments && !NonceTaken(db, ctx.request.message.body.common.nonce)
    ensures var p := RejectedPayment(db, ctx);
            Replaces(db.payments, ctx.op, p) && LegacyPaymentOk(p) && p.auth == ctx.auth && !p.state.Accepted?
  {
  }

  lemma KnownRejection(db: Db, ctx: LegacyContext)
    requires LegacyFailed(db, ctx) && ctx.op in db.payments && NotAccepted(db, ctx)
    requires PaymentsOk(db.payments, db.commitments, db.authorizations)
    ensures var p := RejectedPayment(db, ctx);
            && LegacyPaymentOk(p) && p.auth in db.authorizations && p.auth !in db.commitments && !p.state.Accepted?
            && (!db.payments[ctx.op].Final() ==> Replaces(db.payments, ctx.op, p))
            && (db.payments[ctx.op].Final() ==> p == db.payments[ctx.op].(ack := p.ack, code := p.code))
  {
  }

  lemma NotesPayments(before: map<Id, Payment>, op: Id, p: Payment, commitments: map<Id, Commitment>,
                      authorizations: map<Id, Authorization>)
    requires PaymentsOk(before, commitments, authorizations) && op in before && before[op].auth !in commitments
    requires p == before[op].(ack := p.ack, code := p.code)
    ensures PaymentsOk(before[op := p], commitments, authorizations) && SameButNotes(before, before[op := p])
  {
    hide PaymentOk;
  }

  /** Another acknowledgement or code on a version 2 row changes nothing the invariant speaks of. */
  lemma NotesKeepInv(db: Db, opening: map<Id, int>, op: Id, p: Payment)
    requires Inv(db, opening) && op in db.payments && db.payments[op].auth !in db.commitments
    requires p == db.payments[op].(ack := p.ack, code := p.code)
    ensures Inv(db.(payments := db.payments[op := p]), opening)
  {
    hide *;
    var after := db.payments[op := p];
    InvParts(db, opening);
    NotesPayments(db.payments, op, p, db.commitments, db.authorizations);
    AckClaims(db.payments, after, db.claims, db.commitments.Keys);
    AckEmissions(db.payments, after, db.emissions, db.commitments.Keys);
    AckCounters(db.payments, after, db.emissions, db.commitments);
    AckLedger(db.payments, after, db.ledger, db.wallets);
    AckResolutions(db.payments, after, db.resolutions, db.commitments.Keys);
    AckSeals(db.payments, after, db.claims, db.commitments);
    InvBuild(db.(payments := after), opening);
  }

  /** Rejecting what was not accepted keeps the invariant. */
  lemma LegacyReparkKeepsInv(db: Db, opening: map<Id, int>, ctx: LegacyContext)
    requires Inv(db, opening) && LegacyFailed(db, ctx) && NotAccepted(db, ctx) && ctx.request.message.body.Request?
    ensures Inv(LegacyRepark(db, ctx), opening)
  {
    assert PaymentsOk(db.payments, db.commitments, db.authorizations) by {
      hide *;
      InvParts(db, opening);
    }
    hide Inv, PaymentsOk, LegacyFailed, Replaces, LegacyPaymentOk, RejectedPayment, NonceTaken, NotAccepted;
    LegacyFailedParts(db, ctx);
    var p := RejectedPayment(db, ctx);
    if ctx.op in db.payments {
      KnownRejection(db, ctx);
      if db.payments[ctx.op].Final() {
        NotesKeepInv(db, opening, ctx.op, p);
      } else {
        LegacyRecordKeepsInv(db, opening, ctx.op, p);
      }
    } else if !NonceTaken(db, ctx.request.message.body.common.nonce) {
      NewRejection(db, ctx);
      LegacyRecordKeepsInv(db, opening, ctx.op, p);
    }
  }

  lemma RejectionIsWrong(db: Db, ctx: LegacyContext, p: Payment)
    requires LegacyFailed(db, ctx) && ctx.op in db.payments && !NotAccepted(db, ctx)
    requires PaymentsOk(db.payments, db.commitments, db.authorizations) && LedgerOk(db.ledger, db.payments, db.wallets)
    requires p == RejectedPayment(db, ctx)
    ensures !(&& PaymentsOk(db.payments[ctx.op := p], db.commitments, db.authorizations)
              && LedgerOk(db.ledger, db.payments[ctx.op := p], db.wallets))
  {
    var after := db.payments[ctx.op := p];
    if db.payments[ctx.op].auth in db.commitments {
      OldAckIsUnbound(p, db.commitments[p.auth], ctx.op);
      hide PaymentOk;
      assert after[ctx.op] == p;
    } else {
      assert (ctx.op, DEBIT) in db.ledger;
    }
  }

  lemma OldAckIsUnbound(p: Payment, c: Commitment, op: Id)
    requires p.ack.Some? && p.ack.value.message.version == 2
    ensures !PaymentOk(op, p, c)
  {
    hide ReceiptBound;
  }

  /** Rejecting an accepted row, or one of version 3, breaks it. */
  lemma LegacyReparkBreaks(db: Db, opening: map<Id, int>, ctx: LegacyContext)
    requires Inv(db, opening) && LegacyFailed(db, ctx) && !NotAccepted(db, ctx) && ctx.request.message.body.Request?
    ensures !Inv(LegacyRepark(db, ctx), opening)
  {
    hide *;
    InvParts(db, opening);
    RejectsKnown(db, ctx);
    RejectionIsWrong(db, ctx, RejectedPayment(db, ctx));
    if Inv(LegacyRepark(db, ctx), opening) {
      InvParts(LegacyRepark(db, ctx), opening);
    }
  }

  lemma RejectsKnown(db: Db, ctx: LegacyContext)
    requires !NotAccepted(db, ctx) && ctx.request.message.body.Request?
    ensures ctx.op in db.payments
    ensures LegacyRepark(db, ctx) == db.(payments := db.payments[ctx.op := RejectedPayment(db, ctx)])
  {
  }

  // ---------------------------------------------------------------------------------------------
  // Where it comes from

  /** A spendable authorization is covered by its wallet. */
  lemma LegacyIsCovered(db: Db, a: Id)
    requires AuthorizationsOk(db.authorizations, db.wallets) && CommitmentsOk(db.commitments, db.authorizations)
    requires Solvent(db.wallets, db.commitments, db.authorizations)
    requires a in db.authorizations && a !in db.commitments && db.authorizations[a].active
    ensures db.authorizations[a].wallet in db.wallets
    ensures db.authorizations[a].remaining <= db.wallets[db.authorizations[a].wallet].balance
  {
    var w := db.authorizations[a].wallet;
    HeldIsNatural(db.commitments, db.authorizations, w);
    OneOfLegacy(db.authorizations, db.commitments.Keys, db.wallets, a);
    hide Held, CommitmentOk, Legacy;
  }

  lemma OneOfLegacy(authorizations: map<Id, Authorization>, v3: set<Id>, wallets: map<Id, Wallet>, a: Id)
    requires AuthorizationsOk(authorizations, wallets) && a in authorizations && a !in v3 && authorizations[a].active
    ensures authorizations[a].remaining <= Legacy(authorizations, v3, authorizations[a].wallet)
  {
    hide Sum;
    SumBounds(authorizations.Keys, LegacyBy(authorizations, v3, authorizations[a].wallet), a);
  }

  lemma HeldIsNatural(commitments: map<Id, Commitment>, authorizations: map<Id, Authorization>, w: Id)
    requires CommitmentsOk(commitments, authorizations)
    ensures Held(commitments, w) >= 0
  {
    hide Sum, Proper;
    forall c | c in commitments
      ensures HeldBy(commitments, w)(c) >= 0
    {
      assert CommitmentOk(c, commitments[c], authorizations[c]);
    }
    SumNonNegative(commitments.Keys, HeldBy(commitments, w));
  }

  lemma RejectedContext(db: Db, user: Id, ev: LegacyEvidence)
    requires JudgeLegacy(db, user, ev).LegacyReject?
    ensures
      var ctx := JudgeLegacy(db, user, ev).ctx;
      && ctx.request.message.version == 2 && ctx.request.message.body.Request? && ctx.receipt.message.body.LegacyReceipt?
      && ctx.auth == ctx.receipt.message.body.auth && ctx.wallet == ctx.receipt.message.body.wallet
      && ctx.request.message.body.common == ctx.receipt.message.body.common && ctx.Amount() >= 1
      && ctx.ack.Some? && ctx.ack.value.message.version == 2
      && ctx.auth in db.authorizations && ctx.auth !in db.commitments && ctx.wallet in db.wallets
      && db.authorizations[ctx.auth].wallet == ctx.wallet && !LegacyGuardsPass(db, ctx)
      && ctx.op == ev.op && (ctx.op in db.payments ==> !db.payments[ctx.op].Final() && db.payments[ctx.op].receipt == ctx.receipt)
  {
    hide LegacyAckFits, RequiresReview, Authorized, NonceTaken, LegacyGuardsPass;
  }

  lemma CoveredPasses(db: Db, opening: map<Id, int>, ctx: LegacyContext)
    requires Inv(db, opening) && ctx.request.message.body.Request?
    requires ctx.auth in db.authorizations && ctx.auth !in db.commitments && ctx.wallet in db.wallets
    requires db.authorizations[ctx.auth].wallet == ctx.wallet && Spendable(db.authorizations[ctx.auth], ctx.Amount())
    ensures LegacyGuardsPass(db, ctx)
  {
    assert db.authorizations[ctx.auth].remaining <= db.wallets[ctx.wallet].balance by {
      hide *;
      InvParts(db, opening);
      SpendableIsActive(db, ctx);
      LegacyIsCovered(db, ctx.auth);
    }
    hide Inv;
  }

  lemma SpendableIsActive(db: Db, ctx: LegacyContext)
    requires ctx.auth in db.authorizations && ctx.request.message.body.Request?
    requires Spendable(db.authorizations[ctx.auth], ctx.Amount())
    ensures db.authorizations[ctx.auth].active
  {
  }

  /** A rejection comes from an authorization that cannot pay; what it found may be rejected. */
  lemma RejectionFailed(db: Db, opening: map<Id, int>, user: Id, ev: LegacyEvidence)
    requires Inv(db, opening) && JudgeLegacy(db, user, ev).LegacyReject?
    ensures LegacyFailed(db, JudgeLegacy(db, user, ev).ctx)
    ensures SpentStaysRejected(db, JudgeLegacy(db, user, ev).ctx)
  {
    RejectedContext(db, user, ev);
    var ctx := JudgeLegacy(db, user, ev).ctx;
    hide JudgeLegacy, Inv, LegacyGuardsPass, Spendable;
    if Spendable(db.authorizations[ctx.auth], ctx.Amount()) {
      CoveredPasses(db, opening, ctx);
    }
  }

  /** The payment of this receipt was not accepted. */
  predicate SpentStaysRejected(db: Db, ctx: LegacyContext) {
    ctx.op in db.payments && db.payments[ctx.op].receipt == ctx.receipt ==> !db.payments[ctx.op].state.Accepted?
  }

  lemma OneVersion(payments: map<Id, Payment>, commitments: map<Id, Commitment>, authorizations: map<Id, Authorization>, op: Id)
    requires PaymentsOk(payments, commitments, authorizations) && op in payments
    ensures payments[op].auth in commitments <==> payments[op].receipt.message.body.Receipt?
    ensures payments[op].auth !in commitments <==> payments[op].receipt.message.body.LegacyReceipt?
  {
    if payments[op].auth in commitments {
      assert PaymentOk(op, payments[op], commitments[payments[op].auth]);
    }
    hide PaymentOk;
  }

  /** A row of the same receipt is of version 2. */
  lemma SameReceiptNotAccepted(db: Db, opening: map<Id, int>, ctx: LegacyContext)
    requires Inv(db, opening) && LegacyFailed(db, ctx) && SpentStaysRejected(db, ctx)
    requires ctx.op in db.payments ==> db.payments[ctx.op].receipt == ctx.receipt
    ensures NotAccepted(db, ctx)
  {
    assert PaymentsOk(db.payments, db.commitments, db.authorizations) by {
      hide *;
      InvParts(db, opening);
    }
    hide Inv, PaymentsOk;
    if ctx.op in db.payments {
      OneVersion(db.payments, db.commitments, db.authorizations, ctx.op);
    }
  }

  /** No version 2 submission accepts it. */
  lemma LegacyKeepsRejected(db: Db, user: Id, ev: LegacyEvidence, ctx: LegacyContext)
    requires LegacyFailed(db, ctx) && SpentStaysRejected(db, ctx)
    ensures SpentStaysRejected(SyncLegacy(db, user, ev), ctx)
  {
    var v := JudgeLegacy(db, user, ev);
    LegacyVerdictAgrees(db, user, ev);
    hide JudgeLegacy, LegacyFailed, LegacyGuardsPass, LegacyExecutable, PerformLegacy, SpentStaysRejected;
    if v.LegacyRefuse? {
      RefusalIsIdle(db, v);
    } else if LegacyExecutable(db, v) {
      if v.LegacySettle? {
        SettledOther(db, v.ctx, ctx);
      }
      VerdictRow(db, v, ctx);
    }
  }

  lemma RefusalIsIdle(db: Db, v: LegacyVerdict)
    requires v.LegacyRefuse?
    ensures LegacyExecutable(db, v) && PerformLegacy(db, v) == db
  {
  }

  lemma VerdictRow(db: Db, v: LegacyVerdict, ctx: LegacyContext)
    requires LegacyExecutable(db, v) && !v.LegacyRefuse? && SpentStaysRejected(db, ctx)
    requires v.ctx.op in db.payments ==> db.payments[v.ctx.op].receipt == v.ctx.receipt
    requires v.LegacySettle? ==> v.ctx.receipt != ctx.receipt
    ensures SpentStaysRejected(PerformLegacy(db, v), ctx)
  {
    hide Credit, CreditUser;
  }

  lemma SettledOther(db: Db, c: LegacyContext, ctx: LegacyContext)
    requires LegacyFailed(db, ctx) && c.request.message.body.Request? && c.receipt.message.body.LegacyReceipt?
    requires c.request.message.body.common == c.receipt.message.body.common && c.auth == c.receipt.message.body.auth
    requires LegacyGuardsPass(db, c)
    ensures c.receipt != ctx.receipt
  {
  }

  lemma LegacyVerdictAgrees(db: Db, user: Id, ev: LegacyEvidence)
    ensures
      var v := JudgeLegacy(db, user, ev);
      v.LegacyHold? || v.LegacyReject? || v.LegacySettle? ==>
        && v.ctx.op == ev.op && v.ctx.request.message.body.Request? && v.ctx.receipt.message.body.LegacyReceipt?
        && v.ctx.request.message.body.common == v.ctx.receipt.message.body.common
        && v.ctx.auth == v.ctx.receipt.message.body.auth
        && (ev.op in db.payments ==> db.payments[ev.op].receipt == v.ctx.receipt)
        && (v.LegacySettle? ==> LegacyGuardsPass(db, v.ctx))
  {
    hide LegacyAckFits, RequiresReview, Authorized, LegacyGuardsPass, NonceTaken;
  }

  /** The second transaction as a step of the machine, whatever it finds. */
  function RejectAgain(db: Db, ctx: LegacyContext): Db {
    if ctx.request.message.body.Request? then LegacyRepark(db, ctx) else db
  }

  lemma RejectAgainKeepsInv(db: Db, opening: map<Id, int>, ctx: LegacyContext)
    requires Inv(db, opening) && LegacyFailed(db, ctx) && NotAccepted(db, ctx)
    ensures Inv(RejectAgain(db, ctx), opening)
  {
    hide Inv, LegacyRepark, LegacyFailed, NotAccepted;
    if ctx.request.message.body.Request? {
      LegacyReparkKeepsInv(db, opening, ctx);
    }
  }
}
