/** What may happen between the two transactions of a settlement whose guards failed. */
module Window {
  import opened Messages
  import opened Database
  import opened Sums
  import opened SyncV3
  import opened Authorizations
  import opened Invariant
  import opened Rows
  import opened Steps
  import opened Reconciliation
  import opened Handlers
  import opened SyncV2
  import opened LegacySteps
  import opened Rollback
  import opened LegacyRollback
  import opened Machine
  import opened History
  import opened Persistence
  import opened Conservation
  import opened Guards

  /** A payment that ended since adds its amount to what ended before. */
  lemma EndedSumGrows(before: map<Id, Payment>, after: map<Id, Payment>, a: Id, op: Id, state: PaymentState)
    requires PaymentsEvolve(before, after)
    requires state.Accepted? || state.Rejected?
    requires op in after && after[op].auth == a && after[op].state == state
    requires op in before ==> !before[op].Final()
    requires forall o | o in after && after[o].auth == a :: after[o].amount >= 0
    ensures Sum(before.Keys, PaidBy(before, a, state)) + after[op].amount <= Sum(after.Keys, PaidBy(after, a, state))
  {
    var f, g := PaidBy(before, a, state), PaidBy(after, a, state);
    SumAt(after.Keys, g, op);
    assert f(op) == 0;
    if op in before {
      SumAt(before.Keys, f, op);
    } else {
      assert before.Keys - {op} == before.Keys;
    }
    forall k | k in before.Keys - {op}
      ensures f(k) <= g(k)
    {
      assert RowEvolves(before[k], after[k]);
    }
    SumAtLeast(before.Keys - {op}, f, after.Keys - {op}, g);
  }

  lemma AmountsPositive(payments: map<Id, Payment>, commitments: map<Id, Commitment>, authorizations: map<Id, Authorization>, a: Id)
    requires PaymentsOk(payments, commitments, authorizations) && a in commitments
    ensures forall o | o in payments && payments[o].auth == a :: payments[o].amount >= 1
  {
    hide AckBound;
    forall o | o in payments && payments[o].auth == a
      ensures payments[o].amount >= 1
    {
      assert PaymentOk(o, payments[o], commitments[a]);
    }
  }

  lemma Identity(db: Db, a: Id)
    requires CountersOk(db.commitments, db.emissions, db.payments) && CommitmentsOk(db.commitments, db.authorizations)
    requires a in db.commitments
    ensures var c := db.commitments[a];
            && 0 <= c.held == c.reserved - c.emitted - c.unissued - c.rejected
            && c.emitted == Sum(db.payments.Keys, PaidBy(db.payments, a, Accepted))
            && c.rejected == Sum(db.payments.Keys, PaidBy(db.payments, a, Rejected))
            && c.unissued >= 0 && (!c.Closed() ==> c.unissued == 0)
  {
    hide Sum, PaidBy, EmittedBy, EmissionsOf, Proper;
    assert CounterOk(a, db.commitments[a], db.emissions, db.payments);
    assert CommitmentOk(a, db.commitments[a], db.authorizations[a]);
  }

  lemma CommitmentHistory(before: Db, after: Db, a: Id)
    requires Evolves(before, after) && a in before.commitments
    ensures a in after.commitments
    ensures var c, d := before.commitments[a], after.commitments[a];
            && d.grant == c.grant && d.wallet == c.wallet && d.reserved == c.reserved && d.rejected == c.rejected
            && d.held <= c.held && d.emitted >= c.emitted && (c.Closed() ==> d.unissued == c.unissued)
    ensures PaymentsEvolve(before.payments, after.payments)
  {
    hide PaymentsEvolve, WalletsEvolve, Submap;
  }

  /** Evidence that once asked for more than is held never ends: what is held only shrinks. */
  lemma FailedNeverEnds(before: Db, after: Db, opening: map<Id, int>, ctx: Context)
    requires Inv(before, opening) && Inv(after, opening) && Evolves(before, after)
    requires Failed(before, ctx) && NotEnded(before, ctx)
    requires Failed(after, ctx) && SameEvidence(after, ctx)
    ensures NotEnded(after, ctx)
  {
    hide Inv, Evolves, Failed, Sum, PaidBy, PaymentsEvolve;
    if ctx.op in after.payments && after.payments[ctx.op].Final() {
      assert PaymentsOk(after.payments, after.commitments, after.authorizations)
             && CountersOk(before.commitments, before.emissions, before.payments)
             && CommitmentsOk(before.commitments, before.authorizations)
             && CountersOk(after.commitments, after.emissions, after.payments)
             && CommitmentsOk(after.commitments, after.authorizations) by {
        hide *;
        InvParts(before, opening);
        InvParts(after, opening);
      }
      hide PaymentsOk, CountersOk, CommitmentsOk;
      var p := after.payments[ctx.op];
      FailedParts(before, ctx);
      SameReceiptSameRow(after, ctx);
      hide PaymentOk;
      AmountsPositive(after.payments, after.commitments, after.authorizations, ctx.auth);
      CommitmentHistory(before, after, ctx.auth);
      Identity(before, ctx.auth);
      Identity(after, ctx.auth);
      EndedSumGrows(before.payments, after.payments, ctx.auth, ctx.op, p.state);
    }
  }

  lemma FailedStays(before: Db, after: Db, ctx: Context)
    requires Failed(before, ctx) && Evolves(before, after)
    requires ctx.auth in after.commitments && ctx.auth in after.authorizations
    ensures Failed(after, ctx)
  {
    CommitmentHistory(before, after, ctx.auth);
    hide ReceiptBound, AckBound, Submap, PaymentsEvolve, CommitmentsEvolve;
    assert before.wallets.Keys == after.wallets.Keys;
  }

  lemma KeysStay(before: Db, after: Db, a: Id)
    requires Evolves(before, after) && a in before.commitments && a in before.authorizations
    ensures a in after.commitments && a in after.authorizations
  {
    hide Submap, PaymentsEvolve, WalletsEvolve;
  }

  lemma BoundFailed(db: Db, ctx: Context)
    requires Bound(db, ctx) && ctx.ack.Some?
    requires ctx.receipt.message.body.Receipt? && ctx.Amount() > db.commitments[ctx.auth].held
    ensures Failed(db, ctx) && NotEnded(db, ctx)
  {
  }

  /** Is this the verdict of a submission whose conditional updates failed? */
  predicate GuardFailure(v: Verdict) {
    v.Park? && v.reply.Reply? && v.reply.detail == Review(Insufficient)
  }

  lemma ParkedByBound(db: Db, env: Env, user: Id, ev: Evidence)
    requires Judge(db, env, user, ev).Park?
    ensures var ctx := Judge(db, env, user, ev).ctx;
            && ctx.receipt.message.body.Receipt? && ctx.auth in db.commitments
            && Judge(db, env, user, ev) == JudgeBound(db, env, user, ctx)
  {
    hide JudgeBound, AckBound, Authorized, Valid3;
    var request, grant, receipt := Parse3(ev.request), Parse3(ev.grant), Parse3(ev.receipt);
    var ctx := Validate(db, env, ev.op, request.value, grant.value, receipt.value, ev.ack);
    assert ctx.Some?;
    assert ctx.value.receipt.message.body.Receipt? && ctx.value.auth in db.commitments;
    BoundKeepsContext(db, env, user, ctx.value);
  }

  lemma BoundKeepsContext(db: Db, env: Env, user: Id, ctx: Context)
    requires ctx.receipt.message.body.Receipt? && ctx.auth in db.commitments
    ensures JudgeBound(db, env, user, ctx).Park? ==> JudgeBound(db, env, user, ctx).ctx == ctx
    ensures GuardFailure(JudgeBound(db, env, user, ctx)) ==> ctx.ack.Some?
  {
    hide ClaimConflict, GuardsPass, EmittedByOther, SettlementRowsTaken, InManifest, NonceTaken;
  }

  lemma GuardFailureFails(db: Db, opening: map<Id, int>, env: Env, user: Id, ev: Evidence)
    requires Inv(db, opening) && GuardFailure(Judge(db, env, user, ev))
    ensures var ctx := Judge(db, env, user, ev).ctx; Failed(db, ctx) && NotEnded(db, ctx)
  {
    JudgeJustified(db, opening, env, user, ev);
    ParkedByBound(db, env, user, ev);
    var ctx := Judge(db, env, user, ev).ctx;
    assert Bound(db, ctx);
    hide Inv, Judge, JudgeBound, Bound, Failed;
    BoundKeepsContext(db, env, user, ctx);
    InsufficientMeansNotHeld(db, opening, env, user, ctx);
    BoundFailed(db, ctx);
  }

  /** After any safe run in between, the second transaction finds what it may park, if the row it finds is still that
    of the evidence that failed. */
  lemma StillReparkable(db: Db, opening: map<Id, int>, ctx: Context, steps: seq<Step>)
    requires Inv(db, opening) && Failed(db, ctx) && NotEnded(db, ctx) && SafeWindows(db, steps)
    ensures Failed(Run(db, steps), ctx)
    ensures SameEvidence(Run(db, steps), ctx) ==> Reparkable(Run(db, steps), ctx)
  {
    hide *;
    var end := Run(db, steps);
    RunKeepsInv(db, opening, steps);
    RunEvolves(db, opening, steps);
    FailedParts(db, ctx);
    KeysStay(db, end, ctx.auth);
    FailedStays(db, end, ctx);
    if SameEvidence(end, ctx) {
      FailedNeverEnds(db, end, opening, ctx);
      ReparkableBuild(end, ctx);
    }
  }

  lemma ReparkableBuild(db: Db, ctx: Context)
    requires Failed(db, ctx) && SameEvidence(db, ctx) && NotEnded(db, ctx)
    ensures Reparkable(db, ctx)
  {
  }

  /** An acknowledgement names one receipt. */
  lemma AckNamesReceipt(op: Id, q: Payment, c: Commitment, ctx: Context)
    requires PaymentOk(op, q, c) && q.ack == ctx.ack && ctx.ack.Some?
    requires AckBound(ctx.request, ctx.receipt, ctx.ack.value) && ReceiptBound(ctx.request, ctx.receipt, c.grant)
    ensures q.receipt == ctx.receipt
  {
    assert DigestOf(q.receipt) == DigestOf(ctx.receipt);
  }

  lemma RowInV3(payments: map<Id, Payment>, claims: map<(Id, Id), Claim>, commitments: map<Id, Commitment>,
                authorizations: map<Id, Authorization>, a: Id, op: Id)
    requires PaymentsOk(payments, commitments, authorizations) && ClaimsOk(claims, payments, commitments.Keys)
    requires (a, op) in claims
    ensures op in payments && a in commitments && PaymentOk(op, payments[op], commitments[a])
  {
    hide PaymentOk;
  }

  lemma ReparkedKeeps(db: Db, ctx: Context)
    requires ctx.receipt.message.body.Receipt? && ctx.op in db.payments
    ensures ctx.op in ReparkOn(db, ctx).payments
    ensures ReparkOn(db, ctx).payments[ctx.op].ack == ctx.ack
    ensures ReparkOn(db, ctx).payments[ctx.op].receipt == db.payments[ctx.op].receipt
    ensures (ctx.auth, ctx.op) in ReparkOn(db, ctx).claims
  {
  }

  lemma FailedBound(db: Db, ctx: Context)
    requires Failed(db, ctx)
    ensures ctx.ack.Some? && AckBound(ctx.request, ctx.receipt, ctx.ack.value)
    ensures ctx.auth in db.commitments && ReceiptBound(ctx.request, ctx.receipt, db.commitments[ctx.auth].grant)
  {
    hide ReceiptBound, AckBound;
  }

  lemma DifferentRowIsWrong(db: Db, ctx: Context, commitments: map<Id, Commitment>, authorizations: map<Id, Authorization>)
    requires Failed(db, ctx) && ctx.receipt.message.body.Receipt? && db.commitments == commitments
    requires ctx.op in db.payments && db.payments[ctx.op].receipt != ctx.receipt
    ensures !(&& PaymentsOk(ReparkOn(db, ctx).payments, commitments, authorizations)
              && ClaimsOk(ReparkOn(db, ctx).claims, ReparkOn(db, ctx).payments, commitments.Keys))
  {
    hide *;
    var after := ReparkOn(db, ctx);
    ReparkedKeeps(db, ctx);
    FailedBound(db, ctx);
    if PaymentsOk(after.payments, commitments, authorizations) && ClaimsOk(after.claims, after.payments, commitments.Keys) {
      RowInV3(after.payments, after.claims, commitments, authorizations, ctx.auth, ctx.op);
      AckNamesReceipt(ctx.op, after.payments[ctx.op], commitments[ctx.auth], ctx);
    }
  }

  lemma DifferentRowBreaks(db: Db, opening: map<Id, int>, ctx: Context)
    requires Failed(db, ctx) && !SameEvidence(db, ctx) && ctx.receipt.message.body.Receipt?
    ensures !Inv(Repark(db, ctx), opening)
  {
    hide *;
    var after := Repark(db, ctx);
    DifferentRowTables(db, ctx);
    DifferentRowIsWrong(db, ctx, db.commitments, db.authorizations);
    if Inv(after, opening) {
      InvParts(after, opening);
    }
  }

  lemma DifferentRowTables(db: Db, ctx: Context)
    requires !SameEvidence(db, ctx) && ctx.receipt.message.body.Receipt?
    ensures ctx.op in db.payments && db.payments[ctx.op].receipt != ctx.receipt
    ensures Repark(db, ctx) == ReparkOn(db, ctx)
    ensures ReparkOn(db, ctx).commitments == db.commitments && ReparkOn(db, ctx).authorizations == db.authorizations
  {
  }

  lemma FailedWindow(db: Db, opening: map<Id, int>, ctx: Context, steps: seq<Step>)
    requires Inv(db, opening) && Failed(db, ctx) && NotEnded(db, ctx) && ctx.receipt.message.body.Receipt?
    requires SafeWindows(db, steps)
    ensures Inv(Repark(Run(db, steps), ctx), opening) <==> SameEvidence(Run(db, steps), ctx)
  {
    hide *;
    var end := Run(db, steps);
    StillReparkable(db, opening, ctx, steps);
    RunKeepsInv(db, opening, steps);
    if SameEvidence(end, ctx) {
      ReparkKeepsInv(end, opening, ctx);
    } else {
      DifferentRowBreaks(end, opening, ctx);
    }
  }

  /** The second transaction of a rolled back settlement keeps the invariant, whatever committed in between, if
    and only if it finds no row for its operation or the row of the evidence that failed. */
  lemma WindowKeepsInvIff(db: Db, opening: map<Id, int>, env: Env, user: Id, ev: Evidence, ctx: Context, steps: seq<Step>)
    requires Inv(db, opening) && GuardFailure(Judge(db, env, user, ev)) && ctx == Judge(db, env, user, ev).ctx
    requires SafeWindows(db, steps)
    ensures ctx.receipt.message.body.Receipt?
    ensures Inv(Repark(Run(db, steps), ctx), opening) <==> SameEvidence(Run(db, steps), ctx)
  {
    hide *;
    GuardFailureFails(db, opening, env, user, ev);
    FailedParts(db, ctx);
    FailedWindow(db, opening, ctx, steps);
  }

  lemma AcceptedAfter(db: Db, env: Env, user: Id, ev: Evidence)
    requires Judge(db, env, user, ev).Settle? && Executable(db, Judge(db, env, user, ev))
    ensures var c := Judge(db, env, user, ev).ctx;
            && c.receipt.message.body.Receipt?
            && var after := Sync(db, env, user, ev);
            && c.op in after.payments && after.payments[c.op].state.Accepted?
            && (c.op !in db.payments ==> after.payments[c.op].receipt == c.receipt)
            && (c.op, DEBIT) in after.ledger
  {
    hide Judge, ResolutionOf, Credit, CreditUser, SpendCommitment, RecordClaim;
  }

  lemma TakenBack(db: Db, ctx: Context)
    requires ctx.op in db.payments && ctx.receipt.message.body.Receipt?
    ensures ctx.op in Repark(db, ctx).payments && Repark(db, ctx).payments[ctx.op].state.PendingReview?
    ensures Repark(db, ctx).ledger == db.ledger
  {
    hide Flag, RecordClaim;
  }

  lemma SettledContext(db: Db, env: Env, user: Id, ev: Evidence)
    requires Judge(db, env, user, ev).Settle? || Judge(db, env, user, ev).Park?
    ensures Judge(db, env, user, ev).ctx.op == ev.op
  {
    hide JudgeBound, ReceiptBound, AckBound, Authorized, Valid3, Resolved;
    var request, grant, receipt := Parse3(ev.request), Parse3(ev.grant), Parse3(ev.receipt);
    if request.Some? && grant.Some? && receipt.Some? {
      var ctx := Validate(db, env, ev.op, request.value, grant.value, receipt.value, ev.ack);
      if ctx.Some? {
        IsReceipt(request.value, receipt.value, grant.value);
        JudgedContext(db, env, user, ctx.value);
      }
    }
  }

  lemma IsReceipt(request: Envelope, receipt: Envelope, grant: Envelope)
    requires ReceiptBound(request, receipt, grant)
    ensures receipt.message.body.Receipt?
  {
  }

  lemma JudgedContext(db: Db, env: Env, user: Id, ctx: Context)
    requires ctx.receipt.message.body.Receipt? && ctx.auth in db.commitments
    ensures var v := JudgeBound(db, env, user, ctx); v.Settle? || v.Park? ==> v.ctx == ctx
  {
    hide ClaimConflict, GuardsPass, EmittedByOther, SettlementRowsTaken, InManifest, NonceTaken;
  }

  /** The comparison that is left out matters: two evidences for one new operation, the first asking for more than is
    held, the second settling while the first is between its transactions. The second transaction of the first takes
    the accepted payment back to review although its money moved. */
  lemma OverwritesAcceptance(db: Db, opening: map<Id, int>, env: Env, user: Id, first: Evidence, other: Id, second: Evidence,
                             ctx: Context)
    requires Inv(db, opening) && GuardFailure(Judge(db, env, user, first)) && ctx == Judge(db, env, user, first).ctx
    requires first.op == second.op && first.op !in db.payments && Judge(db, env, other, second).Settle?
    requires Judge(db, env, other, second).ctx.receipt != ctx.receipt
    ensures ctx.receipt.message.body.Receipt?
    ensures
      var middle := Sync(db, env, other, second);
      var end := Repark(middle, ctx);
      && ctx.op in middle.payments && middle.payments[ctx.op].state.Accepted?
      && ctx.op in end.payments && end.payments[ctx.op].state.PendingReview?
      && (ctx.op, DEBIT) in end.ledger && !Inv(end, opening)
  {
    SettledContext(db, env, user, first);
    SettledContext(db, env, other, second);
    hide *;
    SyncKeepsInv(db, opening, env, other, second);
    AcceptedAfter(db, env, other, second);
    GuardFailureFails(db, opening, env, user, first);
    FailedParts(db, ctx);
    var middle := Sync(db, env, other, second);
    SyncEvolves(db, opening, env, other, second);
    KeysStay(db, middle, ctx.auth);
    FailedStays(db, middle, ctx);
    DiffersHere(middle, ctx);
    DifferentRowBreaks(middle, opening, ctx);
    TakenBack(middle, ctx);
  }

  lemma DiffersHere(db: Db, ctx: Context)
    requires ctx.op in db.payments && db.payments[ctx.op].receipt != ctx.receipt
    ensures !SameEvidence(db, ctx)
  {
  }

  // ---------------------------------------------------------------------------------------------
  // The same for version 2

  /** An authorization of version 2 that could not pay never can again. */
  lemma LegacyFailedStays(before: Db, after: Db, ctx: LegacyContext)
    requires LegacyFailed(before, ctx) && Persists(before, after)
    ensures LegacyFailed(after, ctx)
  {
    hide Submap, WalletsEvolve, GrantsPersist;
  }

  lemma SettledReceipt(db: Db, c: Context, issuer: Issuer, ctx: LegacyContext)
    requires Executable(db, Settle(c, issuer)) && ctx.receipt.message.body.LegacyReceipt?
    requires c.op in db.payments ==> db.payments[c.op].receipt == c.receipt
    requires SpentStaysRejected(db, ctx)
    ensures SpentStaysRejected(SettleOn(db, c, issuer), ctx)
  {
    hide Credit, CreditUser, ResolutionOf, SpendCommitment, RecordClaim;
  }

  lemma VerdictKeepsRejected(db: Db, v: Verdict, ctx: LegacyContext)
    requires Executable(db, v) && ctx.receipt.message.body.LegacyReceipt? && SpentStaysRejected(db, ctx)
    requires v.Settle? && v.ctx.op in db.payments ==> db.payments[v.ctx.op].receipt == v.ctx.receipt
    ensures SpentStaysRejected(Perform(db, v), ctx)
  {
    hide Flag, RecordClaim, SettleOn;
    if v.Settle? {
      SettledReceipt(db, v.ctx, v.issuer, ctx);
    }
  }

  lemma SettlesKnownReceipt(db: Db, env: Env, user: Id, ev: Evidence)
    ensures var v := Judge(db, env, user, ev);
            v.Settle? && v.ctx.op in db.payments ==> db.payments[v.ctx.op].receipt == v.ctx.receipt
  {
    if Judge(db, env, user, ev).Settle? {
      SettledContext(db, env, user, ev);
    }
    hide JudgeBound, ReceiptBound, AckBound, Authorized, Valid3, Resolved;
    var request, grant, receipt := Parse3(ev.request), Parse3(ev.grant), Parse3(ev.receipt);
    if request.Some? && grant.Some? && receipt.Some? {
      var ctx := Validate(db, env, ev.op, request.value, grant.value, receipt.value, ev.ack);
      if ctx.Some? {
        IsReceipt(request.value, receipt.value, grant.value);
        JudgedContext(db, env, user, ctx.value);
      }
    }
  }

  lemma SyncKeepsRejected(db: Db, env: Env, user: Id, ev: Evidence, ctx: LegacyContext)
    requires ctx.receipt.message.body.LegacyReceipt? && SpentStaysRejected(db, ctx)
    ensures SpentStaysRejected(Sync(db, env, user, ev), ctx)
  {
    SettlesKnownReceipt(db, env, user, ev);
    hide Judge, Perform, Executable, SpentStaysRejected;
    if Executable(db, Judge(db, env, user, ev)) {
      VerdictKeepsRejected(db, Judge(db, env, user, ev), ctx);
    }
  }

  lemma SamePaymentsKeepRejected(before: Db, after: Db, ctx: LegacyContext)
    requires SpentStaysRejected(before, ctx) && after.payments == before.payments
    ensures SpentStaysRejected(after, ctx)
  {
  }

  lemma SecondKeepsRejected(db: Db, s: Step, ctx: LegacyContext)
    requires (s.ReparkStep? || s.LegacyReparkStep?) && SpentStaysRejected(db, ctx)
    ensures SpentStaysRejected(Next(db, s), ctx)
  {
    hide Flag, RecordClaim, NonceTaken;
  }

  lemma OtherSteps(db: Db, s: Step)
    requires s.IssueStep? || s.CloseStep? || s.TopUpStep? || s.StoreStep? || s.CatalogueStep?
    ensures Next(db, s).payments == db.payments
  {
    hide Issue, Close, TopUp, StoreResolution;
    match s
    case IssueStep(env, user, r, now, id, stale) => IssuePayments(db, env, user, r, now, id, stale);
    case CloseStep(env, user, auth, close, manifest) => ClosePayments(db, env, user, auth, close, manifest);
    case TopUpStep(user, r, stale) => TopUpPayments(db, user, r, stale);
    case StoreStep(env, user, op, w) => StorePayments(db, env, user, op, w);
    case CatalogueStep(_, _, _) =>
  }

  lemma StorePayments(db: Db, env: Env, user: Id, op: Id, w: Wire)
    ensures StoreResolution(db, env, user, op, w).0.payments == db.payments
  {
    hide ResolutionMatches, Valid3, Authorized;
  }

  lemma IssuePayments(db: Db, env: Env, user: Id, r: IssueRequest, now: int, id: Id, stale: bool)
    ensures Issue(db, env, user, r, now, id, stale).0.payments == db.payments
  {
    hide Available, Repeat, Valid3;
  }

  lemma ClosePayments(db: Db, env: Env, user: Id, auth: Id, close: Wire, manifest: Option<seq<Entry>>)
    ensures Close(db, env, user, auth, close, manifest).0.payments == db.payments
  {
    hide TrustedGrant, CloseOpen, WellFormedManifest, Total, Fits, Valid3;
    if (&& auth in db.commitments && Parse3(close).Some? && manifest.Some?
        && CloseBound(close.envelope, db.commitments[auth].grant, manifest.value)) {
      OpenClosePayments(db, env, auth, close.envelope, manifest.value);
    }
  }

  lemma OpenClosePayments(db: Db, env: Env, auth: Id, close: Envelope, entries: seq<Entry>)
    requires auth in db.commitments && close.message.body.Closure?
    ensures CloseOpen(db, env, auth, close, entries).0.payments == db.payments
  {
    OpenCloseCases(db, env, auth, close, entries);
    hide CloseOpen, Flag, Total;
  }

  lemma TopUpPayments(db: Db, user: Id, r: TopupRequest, stale: bool)
    ensures TopUp(db, user, r, stale).0.payments == db.payments
  {
    hide Credit, CreditUser, RepeatTopup;
  }

  /** No step at all accepts the payment of that receipt. */
  lemma StepKeepsRejected(db: Db, s: Step, ctx: LegacyContext)
    requires LegacyFailed(db, ctx) && SpentStaysRejected(db, ctx)
    ensures SpentStaysRejected(Next(db, s), ctx)
  {
    LegacyFailedParts(db, ctx);
    hide *;
    if s.SubmitStep? {
      SyncKeepsRejected(db, s.env, s.user, s.ev, ctx);
      SubmitIs(db, s);
    } else if s.SubmitLegacyStep? {
      LegacyKeepsRejected(db, s.user, s.legacy, ctx);
      SubmitLegacyIs(db, s);
    } else if s.ReparkStep? || s.LegacyReparkStep? {
      SecondKeepsRejected(db, s, ctx);
    } else {
      OtherSteps(db, s);
      SamePaymentsKeepRejected(db, Next(db, s), ctx);
    }
  }

  lemma SubmitIs(db: Db, s: Step)
    requires s.SubmitStep?
    ensures Next(db, s) == Sync(db, s.env, s.user, s.ev)
  {
    hide Sync;
  }

  lemma SubmitLegacyIs(db: Db, s: Step)
    requires s.SubmitLegacyStep?
    ensures Next(db, s) == SyncLegacy(db, s.user, s.legacy)
  {
    hide SyncLegacy;
  }

  /** A version 2 settlement that was refused never passes later: over every run, the payment of its receipt is not
    accepted. */
  lemma {:induction false} RefusedStaysRefused(db: Db, steps: seq<Step>, ctx: LegacyContext)
    requires LegacyFailed(db, ctx) && SpentStaysRejected(db, ctx)
    ensures LegacyFailed(Run(db, steps), ctx) && SpentStaysRejected(Run(db, steps), ctx)
    decreases |steps|
  {
    hide Next, LegacyFailed, SpentStaysRejected, Persists;
    if |steps| > 0 {
      StepKeepsRejected(db, steps[0], ctx);
      StepPersists(db, steps[0]);
      LegacyFailedStays(db, Next(db, steps[0]), ctx);
      RefusedStaysRefused(Next(db, steps[0]), steps[1..], ctx);
    }
  }

  /** The second transaction of a rolled back version 2 settlement keeps the invariant, whatever committed in between,
    if and only if it finds no row or a version 2 row that was not accepted; a row of its own receipt always is. */
  lemma LegacyWindowKeepsInvIff(db: Db, opening: map<Id, int>, user: Id, ev: LegacyEvidence, ctx: LegacyContext, steps: seq<Step>)
    requires Inv(db, opening) && JudgeLegacy(db, user, ev) == LegacyReject(ctx) && SafeWindows(db, steps)
    ensures ctx.request.message.body.Request?
    ensures Inv(LegacyRepark(Run(db, steps), ctx), opening) <==> NotAccepted(Run(db, steps), ctx)
    ensures (ctx.op in Run(db, steps).payments ==> Run(db, steps).payments[ctx.op].receipt == ctx.receipt) ==>
              NotAccepted(Run(db, steps), ctx)
  {
    hide *;
    var end := Run(db, steps);
    RejectionFailed(db, opening, user, ev);
    RefusedStaysRefused(db, steps, ctx);
    RunKeepsInv(db, opening, steps);
    LegacyFailedParts(end, ctx);
    if NotAccepted(end, ctx) {
      LegacyReparkKeepsInv(end, opening, ctx);
    } else {
      LegacyReparkBreaks(end, opening, ctx);
    }
    if ctx.op in end.payments ==> end.payments[ctx.op].receipt == ctx.receipt {
      SameReceiptNotAccepted(end, opening, ctx);
    }
  }

  lemma NotAcceptedFails(db: Db, ctx: LegacyContext)
    requires ctx.op in db.payments && db.payments[ctx.op].state.Accepted?
    ensures !NotAccepted(db, ctx)
  {
  }

  lemma RejectedBack(db: Db, ctx: LegacyContext)
    requires ctx.op in db.payments && ctx.request.message.body.Request?
    ensures ctx.op in LegacyRepark(db, ctx).payments && LegacyRepark(db, ctx).payments[ctx.op].state.Rejected?
    ensures LegacyRepark(db, ctx).ledger == db.ledger
  {
  }

  /** Here too the comparison that is left out matters: when the operation is settled under version 3 while its version 2
    submission is between its transactions, the accepted payment becomes a rejected one although its money moved. */
  lemma RejectsAcceptance(db: Db, opening: map<Id, int>, env: Env, user: Id, first: LegacyEvidence, other: Id,
                          second: Evidence, ctx: LegacyContext)
    requires Inv(db, opening) && JudgeLegacy(db, user, first) == LegacyReject(ctx)
    requires ctx.op == second.op && Judge(db, env, other, second).Settle?
    ensures ctx.request.message.body.Request?
    ensures
      var middle := Sync(db, env, other, second);
      var end := LegacyRepark(middle, ctx);
      && ctx.op in middle.payments && middle.payments[ctx.op].state.Accepted?
      && ctx.op in end.payments && end.payments[ctx.op].state.Rejected?
      && (ctx.op, DEBIT) in end.ledger && !Inv(end, opening)
  {
    SettledContext(db, env, other, second);
    hide *;
    var middle := Sync(db, env, other, second);
    SyncKeepsInv(db, opening, env, other, second);
    AcceptedAfter(db, env, other, second);
    RejectionFailed(db, opening, user, first);
    LegacyFailedParts(db, ctx);
    SyncPersists(db, env, other, second);
    LegacyFailedStays(db, middle, ctx);
    NotAcceptedFails(middle, ctx);
    LegacyReparkBreaks(middle, opening, ctx);
    RejectedBack(middle, ctx);
  }

  // ---------------------------------------------------------------------------------------------
  // Whole runs

  /** Every second transaction of the run belongs to a submission that failed at an earlier state of it. */
  ghost predicate Genuine(db: Db, steps: seq<Step>) {
    forall j | 0 <= j < |steps| ::
      && (steps[j].ReparkStep? ==> exists i, env, user, ev :: FailedAt(db, steps, i, j, env, user, ev))
      && (steps[j].LegacyReparkStep? ==> exists i, user, ev :: LegacyFailedAt(db, steps, i, j, user, ev))
  }

  ghost predicate FailedAt(db: Db, steps: seq<Step>, i: int, j: int, env: Env, user: Id, ev: Evidence) {
    && 0 <= i <= j < |steps| && steps[j].ReparkStep?
    && GuardFailure(Judge(Run(db, steps[..i]), env, user, ev))
    && steps[j].failed == Judge(Run(db, steps[..i]), env, user, ev).ctx
  }

  ghost predicate LegacyFailedAt(db: Db, steps: seq<Step>, i: int, j: int, user: Id, ev: LegacyEvidence) {
    && 0 <= i <= j < |steps| && steps[j].LegacyReparkStep?
    && JudgeLegacy(Run(db, steps[..i]), user, ev) == LegacyReject(steps[j].rejected)
  }

  /** What the second transaction could have checked: the row it finds. */
  predicate FindsItsRow(db: Db, s: Step) {
    && (s.ReparkStep? ==> SameEvidence(db, s.failed))
    && (s.LegacyReparkStep? ==> NotAccepted(db, s.rejected))
  }

  lemma PrefixSplits(db: Db, steps: seq<Step>, i: nat, j: nat)
    requires i <= j <= |steps|
    ensures Run(db, steps[..j]) == Run(Run(db, steps[..i]), steps[i..j])
    ensures SafeWindows(db, steps[..j]) <==> SafeWindows(db, steps[..i]) && SafeWindows(Run(db, steps[..i]), steps[i..j])
  {
    assert steps[..j] == steps[..i] + steps[i..j];
    RunSplits(db, steps[..i], steps[i..j]);
  }

  /** After a safe prefix, the next second transaction keeps the invariant exactly when it finds its row, and then it is
    safe. */
  lemma NextIsSafeIff(db: Db, opening: map<Id, int>, steps: seq<Step>, j: nat)
    requires Inv(db, opening) && Genuine(db, steps) && j < |steps| && SafeWindows(db, steps[..j])
    ensures FindsItsRow(Run(db, steps[..j]), steps[j]) ==> SafeStep(Run(db, steps[..j]), steps[j])
    ensures FindsItsRow(Run(db, steps[..j]), steps[j]) <==> Inv(Next(Run(db, steps[..j]), steps[j]), opening)
  {
    hide Inv, Run, SafeWindows, FailedAt, LegacyFailedAt, FindsItsRow, SafeStep, Next;
    RunKeepsInv(db, opening, steps[..j]);
    if steps[j].ReparkStep? {
      var i, env, user, ev :| FailedAt(db, steps, i, j, env, user, ev);
      NextRepark(db, opening, steps, i, j, env, user, ev);
    } else if steps[j].LegacyReparkStep? {
      var i, user, ev :| LegacyFailedAt(db, steps, i, j, user, ev);
      NextReject(db, opening, steps, i, j, user, ev);
    } else {
      OrdinaryIsSafe(Run(db, steps[..j]), steps[j]);
      StepKeepsInv(Run(db, steps[..j]), opening, steps[j]);
    }
  }

  lemma OrdinaryIsSafe(db: Db, s: Step)
    requires !s.ReparkStep? && !s.LegacyReparkStep?
    ensures SafeStep(db, s) && FindsItsRow(db, s)
  {
  }

  lemma NextRepark(db: Db, opening: map<Id, int>, steps: seq<Step>, i: int, j: int, env: Env, user: Id, ev: Evidence)
    requires Inv(db, opening) && FailedAt(db, steps, i, j, env, user, ev) && SafeWindows(db, steps[..j])
    ensures FindsItsRow(Run(db, steps[..j]), steps[j]) ==> SafeStep(Run(db, steps[..j]), steps[j])
    ensures FindsItsRow(Run(db, steps[..j]), steps[j]) <==> Inv(Next(Run(db, steps[..j]), steps[j]), opening)
  {
    assert 0 <= i <= j < |steps| && steps[j].ReparkStep?;
    var start, ctx := Run(db, steps[..i]), steps[j].failed;
    assert GuardFailure(Judge(start, env, user, ev)) && ctx == Judge(start, env, user, ev).ctx;
    hide *;
    PrefixSplits(db, steps, i, j);
    RunKeepsInv(db, opening, steps[..i]);
    GuardFailureFails(start, opening, env, user, ev);
    FailedParts(start, ctx);
    StillReparkable(start, opening, ctx, steps[i..j]);
    FailedWindow(start, opening, ctx, steps[i..j]);
    ReparkIs(Run(db, steps[..j]), steps[j]);
  }

  lemma ReparkIs(db: Db, s: Step)
    requires s.ReparkStep? && s.failed.receipt.message.body.Receipt?
    ensures Next(db, s) == Repark(db, s.failed)
    ensures SafeStep(db, s) <==> Reparkable(db, s.failed)
    ensures FindsItsRow(db, s) <==> SameEvidence(db, s.failed)
  {
    hide Repark, Reparkable;
  }

  lemma NextReject(db: Db, opening: map<Id, int>, steps: seq<Step>, i: int, j: int, user: Id, ev: LegacyEvidence)
    requires Inv(db, opening) && LegacyFailedAt(db, steps, i, j, user, ev) && SafeWindows(db, steps[..j])
    ensures FindsItsRow(Run(db, steps[..j]), steps[j]) ==> SafeStep(Run(db, steps[..j]), steps[j])
    ensures FindsItsRow(Run(db, steps[..j]), steps[j]) <==> Inv(Next(Run(db, steps[..j]), steps[j]), opening)
  {
    assert 0 <= i <= j < |steps| && steps[j].LegacyReparkStep?;
    var start, ctx := Run(db, steps[..i]), steps[j].rejected;
    assert JudgeLegacy(start, user, ev) == LegacyReject(ctx);
    hide *;
    PrefixSplits(db, steps, i, j);
    RunKeepsInv(db, opening, steps[..i]);
    RejectionFailed(start, opening, user, ev);
    RefusedStaysRefused(start, steps[i..j], ctx);
    LegacyWindowKeepsInvIff(start, opening, user, ev, ctx, steps[i..j]);
    RejectIs(Run(db, steps[..j]), steps[j]);
  }

  lemma RejectIs(db: Db, s: Step)
    requires s.LegacyReparkStep? && s.rejected.request.message.body.Request?
    ensures Next(db, s) == LegacyRepark(db, s.rejected)
    ensures SafeStep(db, s) <==> LegacyFailed(db, s.rejected) && NotAccepted(db, s.rejected)
    ensures FindsItsRow(db, s) <==> NotAccepted(db, s.rejected)
  {
    hide LegacyRepark, LegacyFailed, NotAccepted;
  }

  lemma OneMoreStep(db: Db, steps: seq<Step>, j: nat)
    requires j < |steps|
    ensures Run(db, steps[..j + 1]) == Next(Run(db, steps[..j]), steps[j])
    ensures SafeWindows(db, steps[..j + 1]) <==> SafeWindows(db, steps[..j]) && SafeStep(Run(db, steps[..j]), steps[j])
  {
    hide Next, SafeStep;
    PrefixSplits(db, steps, j, j + 1);
    assert steps[j..j + 1] == [steps[j]];
    assert [steps[j]][1..] == [];
  }

  /** A genuine run whose second transactions find their rows is safe. */
  lemma {:induction false} FoundIsSafe(db: Db, opening: map<Id, int>, steps: seq<Step>, k: nat)
    requires Inv(db, opening) && Genuine(db, steps) && k <= |steps|
    requires forall j | 0 <= j < k :: FindsItsRow(Run(db, steps[..j]), steps[j])
    ensures SafeWindows(db, steps[..k])
  {
    hide Inv, Genuine, FindsItsRow, Run, SafeStep;
    if k > 0 {
      FoundIsSafe(db, opening, steps, k - 1);
      NextIsSafeIff(db, opening, steps, k - 1);
      OneMoreStep(db, steps, k - 1);
    }
  }

  /** Of the runs of the program, in which every second transaction belongs to an earlier failure, exactly those keep the
    invariant at every state whose second transactions all find their rows; and these are the safe ones. */
  lemma SafeIffInvariant(db: Db, opening: map<Id, int>, steps: seq<Step>)
    requires Inv(db, opening) && Genuine(db, steps)
    ensures SafeWindows(db, steps) <==> forall j | 0 <= j < |steps| :: FindsItsRow(Run(db, steps[..j]), steps[j])
    ensures SafeWindows(db, steps) <==> forall k | 0 <= k <= |steps| :: Inv(Run(db, steps[..k]), opening)
  {
    hide Inv, Genuine, FindsItsRow, Run, SafeStep, SafeWindows;
    assert steps[..|steps|] == steps;
    if SafeWindows(db, steps) {
      forall k | 0 <= k <= |steps|
        ensures Inv(Run(db, steps[..k]), opening) && (k < |steps| ==> FindsItsRow(Run(db, steps[..k]), steps[k]))
      {
        PrefixSplits(db, steps, k, |steps|);
        RunKeepsInv(db, opening, steps[..k]);
        if k < |steps| {
          PrefixSplits(db, steps, k + 1, |steps|);
          RunKeepsInv(db, opening, steps[..k + 1]);
          OneMoreStep(db, steps, k);
          NextIsSafeIff(db, opening, steps, k);
        }
      }
    } else {
      var j := FirstUnsafe(db, opening, steps, |steps|);
      NextIsSafeIff(db, opening, steps, j);
      OneMoreStep(db, steps, j);
    }
  }

  lemma {:induction false} FirstUnsafe(db: Db, opening: map<Id, int>, steps: seq<Step>, k: nat) returns (j: nat)
    requires Inv(db, opening) && Genuine(db, steps) && k <= |steps| && !SafeWindows(db, steps[..k])
    ensures j < k && SafeWindows(db, steps[..j]) && !FindsItsRow(Run(db, steps[..j]), steps[j])
  {
    if k == 0 {
    } else if SafeWindows(db, steps[..k - 1]) {
      hide Inv, Genuine, FindsItsRow, Run, SafeStep, SafeWindows;
      j := k - 1;
      NextIsSafeIff(db, opening, steps, j);
      OneMoreStep(db, steps, j);
    } else {
      j := FirstUnsafe(db, opening, steps, k - 1);
    }
  }
}
