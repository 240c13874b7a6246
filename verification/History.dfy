/** What no later step can undo. */
module History {
  import opened Messages
  import opened Database
  import opened SyncV3
  import opened SyncV2
  import opened Authorizations
  import opened Invariant
  import opened Rows
  import opened Steps
  import opened Reconciliation
  import opened Handlers
  import opened LegacySteps
  import opened Rollback
  import opened LegacyRollback
  import opened Machine

  ghost predicate Submap<K(!new), V(!new)>(m: map<K, V>, n: map<K, V>) {
    forall k | k in m :: k in n && n[k] == m[k]
  }

  /** A payment row keeps its evidence; a final state is kept, and a version 3 review is never left. An
    acknowledgement is only ever replaced by the second transaction of a rolled back settlement: under a version 3
    review, or with a version 2 rejection, which may also replace its code. */
  ghost predicate RowEvolves(p: Payment, q: Payment) {
    && q == p.(ack := q.ack, state := q.state, code := q.code)
    && (p.ack.Some? ==>
          && q.ack.Some?
          && (|| q.ack == p.ack || (p.receipt.message.body.Receipt? && q.state.PendingReview?)
              || (p.receipt.message.body.LegacyReceipt? && q.state.Rejected?)))
    && (p.Final() ==> q == p.(ack := q.ack, code := q.code))
    && (p.Final() && !(p.receipt.message.body.LegacyReceipt? && p.state.Rejected?) ==> q.code == p.code)
    && (p.receipt.message.body.Receipt? && p.state.Accepted? ==> q == p)
    && (p.receipt.message.body.Receipt? && p.state.PendingReview? ==> q.state.PendingReview?)
  }

  ghost predicate PaymentsEvolve(before: map<Id, Payment>, after: map<Id, Payment>) {
    forall op | op in before :: op in after && RowEvolves(before[op], after[op])
  }

  /** A commitment keeps its grant and total, only spends, and once sealed stays sealed the same way. */
  ghost predicate CommitmentsEvolve(before: map<Id, Commitment>, after: map<Id, Commitment>) {
    forall a | a in before ::
      && a in after && after[a].grant == before[a].grant && after[a].wallet == before[a].wallet
      && after[a].reserved == before[a].reserved && after[a].rejected == before[a].rejected
      && after[a].emitted >= before[a].emitted && after[a].count >= before[a].count && after[a].held <= before[a].held
      && (before[a].Closed() ==> after[a].sealed == before[a].sealed && after[a].unissued == before[a].unissued)
  }

  /** Wallets keep their owner, and a review flag is never lowered. */
  ghost predicate WalletsEvolve(before: map<Id, Wallet>, after: map<Id, Wallet>) {
    && before.Keys == after.Keys
    && forall w | w in before ::
         after[w].owner == before[w].owner && (before[w].review ==> after[w].review)
  }

  ghost predicate Evolves(before: Db, after: Db) {
    && PaymentsEvolve(before.payments, after.payments)
    && CommitmentsEvolve(before.commitments, after.commitments)
    && WalletsEvolve(before.wallets, after.wallets)
    && Submap(before.claims, after.claims) && Submap(before.emissions, after.emissions)
    && Submap(before.ledger, after.ledger) && Submap(before.resolutions, after.resolutions)
    && Submap(before.issuedFor, after.issuedFor) && Submap(before.topups, after.topups)
    && before.authorizations.Keys <= after.authorizations.Keys
  }

  lemma EvolvesReflexive(db: Db)
    ensures Evolves(db, db)
  {
  }

  lemma EvolvesTransitive(first: Db, second: Db, third: Db)
    requires Evolves(first, second) && Evolves(second, third)
    ensures Evolves(first, third)
  {
    assert PaymentsEvolve(first.payments, third.payments) by {
      forall op | op in first.payments
        ensures op in third.payments
                && RowEvolves(first.payments[op], third.payments[op])
      {
        assert RowEvolves(first.payments[op], second.payments[op]);
        assert RowEvolves(second.payments[op], third.payments[op]);
      }
    }
  }

  /** Writing a row over one that is not final, or attaching an acknowledgement, is an evolution. */
  lemma PutEvolves(payments: map<Id, Payment>, op: Id, p: Payment)
    requires op in payments ==> RowEvolves(payments[op], p)
    ensures PaymentsEvolve(payments, payments[op := p])
  {
  }

  lemma EvolvesBuild(before: Db, after: Db)
    requires PaymentsEvolve(before.payments, after.payments)
    requires CommitmentsEvolve(before.commitments, after.commitments)
    requires WalletsEvolve(before.wallets, after.wallets)
    requires Submap(before.claims, after.claims) && Submap(before.emissions, after.emissions)
    requires Submap(before.ledger, after.ledger) && Submap(before.resolutions, after.resolutions)
    requires Submap(before.issuedFor, after.issuedFor) && Submap(before.topups, after.topups)
    requires before.authorizations.Keys <= after.authorizations.Keys
    ensures Evolves(before, after)
  {
    hide Submap, PaymentsEvolve, CommitmentsEvolve, WalletsEvolve;
  }

  lemma SubmapInsert<K(!new), V(!new)>(m: map<K, V>, k: K, v: V)
    ensures Submap(m, m)
    ensures k !in m ==> Submap(m, m[k := v])
  {
  }

  lemma RecordSubmap(claims: map<(Id, Id), Claim>, a: Id, op: Id, claim: Claim)
    ensures Submap(claims, RecordClaim(claims, a, op, claim))
  {
  }

  lemma PairSubmap(ledger: map<(Id, EntryType), LedgerEntry>, op: Id, payer: Id, payee: Id, amount: int)
    requires (op, DEBIT) !in ledger && (op, CREDIT) !in ledger
    ensures Submap(ledger, Pair(ledger, op, payer, payee, amount))
  {
  }

  lemma ParkEvolves(db: Db, ctx: Context, code: Option<Code>, storeAck: bool, flag: bool)
    requires Bound(db, ctx)
    ensures Evolves(db, ParkOn(db, ctx, code, storeAck, flag))
  {
    BoundParts(db, ctx);
    hide ReceiptBound, AckBound, NonceTaken;
    PutEvolves(db.payments, ctx.op, ParkedPayment(db, ctx, code, storeAck));
  }

  lemma ReparkRowEvolves(db: Db, ctx: Context)
    requires Reparkable(db, ctx) && PaymentsOk(db.payments, db.commitments, db.authorizations)
    requires ctx.receipt.message.body.Receipt?
    ensures PaymentsEvolve(db.payments, db.payments[ctx.op := ReparkedPayment(db, ctx)])
  {
    if ctx.op in db.payments {
      SameReceiptSameRow(db, ctx);
    }
    hide ReceiptBound, AckBound, NonceTaken, PaymentsOk, PaymentOk;
    PutEvolves(db.payments, ctx.op, ReparkedPayment(db, ctx));
  }

  lemma ReparkOnEvolves(db: Db, ctx: Context)
    requires ctx.receipt.message.body.Receipt?
    requires PaymentsEvolve(db.payments, db.payments[ctx.op := ReparkedPayment(db, ctx)])
    ensures Evolves(db, ReparkOn(db, ctx))
  {
    hide *;
    ReparkOnTables(db, ctx);
    var after := ReparkOn(db, ctx);
    CommitmentsStay(db.commitments);
    CreditEvolves(db.wallets, ctx.wallet, ctx.wallet, 0);
    RecordSubmap(db.claims, ctx.auth, ctx.op, ctx.Claim());
    SubmapInsert(db.emissions, (0, 0), Emission(0, 0));
    SubmapInsert(db.ledger, (0, DEBIT), LedgerEntry(0, 0));
    SubmapInsert(db.resolutions, 0, ResolutionRow(Accepted, ctx.request));
    SubmapInsert(db.issuedFor, 0, 0);
    SubmapInsert(db.topups, 0, Topup(0, 0, 0));
    EvolvesBuild(db, after);
  }

  lemma ReparkEvolves(db: Db, ctx: Context)
    requires Reparkable(db, ctx) && PaymentsOk(db.payments, db.commitments, db.authorizations)
    requires ctx.receipt.message.body.Receipt?
    ensures Evolves(db, Repark(db, ctx))
  {
    ReparkRowEvolves(db, ctx);
    ReparkOnEvolves(db, ctx);
    EvolvesReflexive(db);
    hide Reparkable, PaymentsOk, PaymentsEvolve, Evolves, ReparkOn, NonceTaken;
  }

  lemma ReparkableParts(db: Db, ctx: Context)
    requires Reparkable(db, ctx)
    ensures ctx.receipt.message.body.Receipt?
  {
  }

  lemma ParkAgainEvolves(db: Db, opening: map<Id, int>, ctx: Context)
    requires Inv(db, opening) && Reparkable(db, ctx)
    ensures Evolves(db, ParkAgain(db, ctx))
  {
    assert PaymentsOk(db.payments, db.commitments, db.authorizations) by {
      hide *;
      InvParts(db, opening);
    }
    hide Inv, PaymentsOk, Repark, Evolves, ReceiptBound, AckBound;
    ReparkableParts(db, ctx);
    ReparkEvolves(db, ctx);
  }

  lemma RejectedRowEvolves(db: Db, ctx: LegacyContext)
    requires LegacyFailed(db, ctx) && NotAccepted(db, ctx) && ctx.request.message.body.Request?
    requires PaymentsOk(db.payments, db.commitments, db.authorizations)
    ensures PaymentsEvolve(db.payments, db.payments[ctx.op := RejectedPayment(db, ctx)])
  {
    hide NonceTaken;
    if ctx.op in db.payments {
      OneVersion(db.payments, db.commitments, db.authorizations, ctx.op);
    }
    hide PaymentsOk;
    PutEvolves(db.payments, ctx.op, RejectedPayment(db, ctx));
  }

  lemma RejectAgainEvolves(db: Db, opening: map<Id, int>, ctx: LegacyContext)
    requires Inv(db, opening) && LegacyFailed(db, ctx) && NotAccepted(db, ctx)
    ensures Evolves(db, RejectAgain(db, ctx))
  {
    assert PaymentsOk(db.payments, db.commitments, db.authorizations) by {
      hide *;
      InvParts(db, opening);
    }
    hide Inv, PaymentsOk, LegacyFailed, NotAccepted, PaymentsEvolve, Evolves, RejectedPayment, NonceTaken;
    EvolvesReflexive(db);
    if ctx.request.message.body.Request? {
      RejectedRowEvolves(db, ctx);
      LegacyRecordEvolves(db, db.payments[ctx.op := RejectedPayment(db, ctx)]);
    }
  }

  lemma HoldEvolves(db: Db, ctx: Context)
    requires Bound(db, ctx)
    ensures Evolves(db, HoldOn(db, ctx))
  {
    hide ReceiptBound, AckBound, NonceTaken;
  }

  lemma AcceptedEvolves(db: Db, ctx: Context)
    requires Bound(db, ctx) && ctx.receipt.message.body.Receipt?
    requires ctx.op in db.payments ==> !db.payments[ctx.op].state.PendingReview?
    ensures PaymentsEvolve(db.payments, db.payments[ctx.op := WithAck(db, ctx, Accepted)])
  {
    hide ReceiptBound, AckBound, NonceTaken;
    PutEvolves(db.payments, ctx.op, WithAck(db, ctx, Accepted));
  }

  lemma SpendEvolves(commitments: map<Id, Commitment>, a: Id, amount: int)
    requires a in commitments && amount >= 0
    ensures CommitmentsEvolve(commitments, commitments[a := SpendCommitment(commitments[a], amount)])
  {
  }

  lemma CreditEvolves(wallets: map<Id, Wallet>, payer: Id, payee: Id, amount: int)
    ensures WalletsEvolve(wallets, Credit(Credit(wallets, payer, -amount), payee, amount))
    ensures WalletsEvolve(wallets, Credit(wallets, payee, amount))
    ensures WalletsEvolve(wallets, Flag(wallets, payer, true))
    ensures WalletsEvolve(wallets, wallets)
  {
  }

  lemma SettleEvolves(db: Db, opening: map<Id, int>, ctx: Context, issuer: Issuer)
    requires Inv(db, opening) && Settling(db, ctx)
    requires ctx.op in db.payments ==> !db.payments[ctx.op].state.PendingReview?
    ensures Evolves(db, SettleOn(db, ctx, issuer))
  {
    hide *;
    InvParts(db, opening);
    SettlingParts(db, ctx);
    AcceptedRow(db, ctx);
    var p, amount, after := WithAck(db, ctx, Accepted), ctx.Amount(), SettleOn(db, ctx, issuer);
    RowParts(db, ctx, p);
    SettleTables(db, ctx, issuer, p);
    AcceptedEvolves(db, ctx);
    SpendEvolves(db.commitments, ctx.auth, amount);
    CreditEvolves(db.wallets, ctx.wallet, ctx.merchantWallet, amount);
    RecordSubmap(db.claims, ctx.auth, ctx.op, ctx.Claim());
    SettledEmissions(db.emissions, db.payments, db.commitments.Keys, ctx.op, p);
    SubmapInsert(db.emissions, (ctx.auth, ctx.op), after.emissions[(ctx.auth, ctx.op)]);
    SettledLedger(db.ledger, db.payments, db.wallets, ctx.op, p, ctx.merchantWallet);
    PairSubmap(db.ledger, ctx.op, ctx.wallet, ctx.merchantWallet, amount);
    SettledResolutions(db.resolutions, db.payments, db.commitments.Keys, ctx.op, p, after.resolutions[ctx.op]);
    SubmapInsert(db.resolutions, ctx.op, after.resolutions[ctx.op]);
    SubmapInsert(db.issuedFor, 0, 0);
    SubmapInsert(db.topups, 0, Topup(0, 0, 0));
    EvolvesBuild(db, after);
  }

  lemma KeepAckEvolves(db: Db, op: Id, ack: Envelope)
    requires op in db.payments && db.payments[op].Final()
    requires db.payments[op].ack.None? && !db.payments[op].state.Accepted?
    ensures Evolves(db, db.(payments := db.payments[op := db.payments[op].(ack := Some(ack))]))
  {
    PutEvolves(db.payments, op, db.payments[op].(ack := Some(ack)));
  }

  /** An accepted payment always has its acknowledgement. */
  lemma AcceptedHasAck(payments: map<Id, Payment>, commitments: map<Id, Commitment>, authorizations: map<Id, Authorization>, op: Id)
    requires PaymentsOk(payments, commitments, authorizations)
    requires op in payments && payments[op].auth in commitments && payments[op].state.Accepted?
    ensures payments[op].ack.Some?
  {
    hide ReceiptBound, AckBound;
  }

  lemma VerdictEvolves(db: Db, opening: map<Id, int>, v: Verdict)
    requires Inv(db, opening) && Justified(db, v) && Executable(db, v)
    ensures Evolves(db, Perform(db, v))
  {
    assert PaymentsOk(db.payments, db.commitments, db.authorizations) by {
      hide *;
      InvParts(db, opening);
    }
    hide Inv, PaymentsOk, Bound, Settling, Evolves, ParkOn, HoldOn, SettleOn, ClaimConflict, AckBound;
    match v
    case Refuse(_) => EvolvesReflexive(db);
    case KeepAck(op, ack, _) =>
      if db.payments[op].state.Accepted? {
        AcceptedHasAck(db.payments, db.commitments, db.authorizations, op);
      }
      KeepAckEvolves(db, op, ack);
    case Park(ctx, code, storeAck, flag, _) => ParkEvolves(db, ctx, code, storeAck, flag);
    case Hold(ctx) => HoldEvolves(db, ctx);
    case Settle(ctx, issuer) => SettleEvolves(db, opening, ctx, issuer);
  }

  lemma SyncEvolves(db: Db, opening: map<Id, int>, env: Env, user: Id, ev: Evidence)
    requires Inv(db, opening)
    ensures Evolves(db, Sync(db, env, user, ev))
  {
    SyncKeepsInv(db, opening, env, user, ev);
    JudgeJustified(db, opening, env, user, ev);
    hide Inv, Judge, Justified, Evolves, Perform, Executable;
    VerdictEvolves(db, opening, Judge(db, env, user, ev));
  }

  lemma ReserveEvolves(db: Db, r: IssueRequest, id: Id, total: int, now: int, until: int, grant: Envelope)
    requires id !in db.authorizations && id !in db.commitments && r.requestId !in db.issuedFor
    ensures Evolves(db, Reserve(db, r, id, total, now, until, grant))
  {
  }

  lemma IssueEvolves(db: Db, env: Env, user: Id, r: IssueRequest, now: int, id: Id, stale: bool)
    ensures Evolves(db, Issue(db, env, user, r, now, id, stale).0)
  {
    hide Evolves, Reserve, Held, Legacy, Repeat, Valid3;
    EvolvesReflexive(db);
    if Issue(db, env, user, r, now, id, stale).0 != db {
      var total := Min(Available(db, r.wallet), r.maxPayment * r.maxPayments);
      var body := GrantFor(env, r, db.keys[r.walletKey], env.issuer.value, total, now, id);
      ReserveEvolves(db, r, id, total, now, now + env.authorizationSeconds, Sign(body, env.issuer.value.publicKey));
    }
  }

  lemma SealEvolves(db: Db, auth: Id, close: Envelope, entries: seq<Entry>)
    requires auth in db.commitments && !db.commitments[auth].Closed() && Total(entries) <= db.commitments[auth].reserved
    ensures Evolves(db, SealOn(db, auth, close, entries))
  {
    hide Total;
  }

  lemma FlagEvolves(db: Db, w: Id)
    ensures Evolves(db, db.(wallets := Flag(db.wallets, w, true)))
  {
  }

  lemma CloseEvolves(db: Db, env: Env, user: Id, auth: Id, close: Wire, manifest: Option<seq<Entry>>)
    ensures Evolves(db, Close(db, env, user, auth, close, manifest).0)
  {
    hide Evolves, SealOn, CheckEntries, ClaimOps, PaymentOps, EntryOps, IndicesCollide, TrustedGrant,
         ClosureIdTaken, CloseBound, Total, TotalIn, Flag;
    EvolvesReflexive(db);
    if auth in db.commitments {
      FlagEvolves(db, db.commitments[auth].wallet);
      if Close(db, env, user, auth, close, manifest).1.Closed? {
        SealEvolves(db, auth, close.envelope, manifest.value);
      }
    }
  }

  lemma TopupOnEvolves(db: Db, user: Id, r: TopupRequest)
    requires r.requestId !in db.topups
    ensures Evolves(db, TopupOn(db, user, r))
  {
    hide CreditUser;
  }

  lemma TopUpEvolves(db: Db, user: Id, r: TopupRequest, stale: bool)
    ensures Evolves(db, TopUp(db, user, r, stale).0)
  {
    hide Evolves, TopupOn;
    EvolvesReflexive(db);
    if r.requestId !in db.topups {
      TopupOnEvolves(db, user, r);
    }
  }

  lemma LegacyPutEvolves(db: Db, ctx: LegacyContext, state: PaymentState, code: Option<Code>)
    requires LegacyBound(db, ctx) && PaymentsOk(db.payments, db.commitments, db.authorizations)
    ensures PaymentsEvolve(db.payments, db.payments[ctx.op := LegacyPayment(db, ctx, state, code)])
  {
    LegacyRow(db, ctx, state, code);
    hide PaymentsOk, NonceTaken, LegacyPaymentOk;
    PutEvolves(db.payments, ctx.op, LegacyPayment(db, ctx, state, code));
  }

  lemma LegacyRecordEvolves(db: Db, payments: map<Id, Payment>)
    requires PaymentsEvolve(db.payments, payments)
    ensures Evolves(db, db.(payments := payments))
  {
    hide PaymentsEvolve;
  }

  lemma LegacySettleEvolves(db: Db, opening: map<Id, int>, ctx: LegacyContext)
    requires Inv(db, opening) && LegacySettling(db, ctx) && LegacyExecutable(db, LegacySettle(ctx))
    ensures Evolves(db, LegacySettleOn(db, ctx))
  {
    hide *;
    InvParts(db, opening);
    LegacySettlingParts(db, ctx);
    LegacyParts(db, ctx);
    var p, amount := LegacyPayment(db, ctx, Accepted, None), ctx.Amount();
    LegacyRow(db, ctx, Accepted, None);
    LegacySettleTables(db, ctx, p);
    var after := LegacySettleOn(db, ctx);
    LegacyPutEvolves(db, ctx, Accepted, None);
    CreditEvolves(db.wallets, ctx.wallet, ctx.merchantWallet, amount);
    SettledLedger(db.ledger, db.payments, db.wallets, ctx.op, p, ctx.merchantWallet);
    PairSubmap(db.ledger, ctx.op, ctx.wallet, ctx.merchantWallet, amount);
    SubmapInsert(db.claims, (0, 0), Claim(0, 0, Other(0)));
    SubmapInsert(db.emissions, (0, 0), Emission(0, 0));
    SubmapInsert(db.resolutions, 0, ResolutionRow(Accepted, ctx.request));
    SubmapInsert(db.issuedFor, 0, 0);
    SubmapInsert(db.topups, 0, Topup(0, 0, 0));
    CommitmentsStay(db.commitments);
    EvolvesBuild(db, after);
  }

  lemma CommitmentsStay(commitments: map<Id, Commitment>)
    ensures CommitmentsEvolve(commitments, commitments)
  {
  }

  lemma LegacyVerdictEvolves(db: Db, opening: map<Id, int>, v: LegacyVerdict)
    requires Inv(db, opening) && LegacyJustified(db, v) && LegacyExecutable(db, v)
    ensures Evolves(db, PerformLegacy(db, v))
  {
    assert PaymentsOk(db.payments, db.commitments, db.authorizations) by {
      hide *;
      InvParts(db, opening);
    }
    hide Inv, PaymentsOk, LegacyBound, LegacySettling, Evolves, LegacySettleOn, LegacyPayment;
    match v
    case LegacyRefuse(_) => EvolvesReflexive(db);
    case LegacyHold(ctx) =>
      LegacyPutEvolves(db, ctx, PendingEvidence, None);
      LegacyRecordEvolves(db, db.payments[ctx.op := LegacyPayment(db, ctx, PendingEvidence, None)]);
      EvolvesReflexive(db);
    case LegacyReject(ctx) =>
      LegacyPutEvolves(db, ctx, Rejected, Some(InsufficientLegacy));
      LegacyRecordEvolves(db, db.payments[ctx.op := LegacyPayment(db, ctx, Rejected, Some(InsufficientLegacy))]);
    case LegacySettle(ctx) => LegacySettleEvolves(db, opening, ctx);
  }

  lemma SyncLegacyEvolves(db: Db, opening: map<Id, int>, user: Id, ev: LegacyEvidence)
    requires Inv(db, opening)
    ensures Evolves(db, SyncLegacy(db, user, ev))
  {
    SyncLegacyKeepsInv(db, opening, user, ev);
    JudgeLegacyJustified(db, opening, user, ev);
    hide Inv, JudgeLegacy, LegacyJustified, Evolves, PerformLegacy, LegacyExecutable;
    LegacyVerdictEvolves(db, opening, JudgeLegacy(db, user, ev));
  }

  /** No step rewrites history, a second transaction if it is safe. */
  lemma StepEvolves(db: Db, opening: map<Id, int>, s: Step)
    requires Inv(db, opening) && SafeStep(db, s)
    ensures Evolves(db, Next(db, s))
  {
    hide Inv, Sync, SyncLegacy, Issue, Close, TopUp, StoreResolution, ParkAgain, RejectAgain, Evolves, Reparkable, LegacyFailed,
         NotAccepted;
    match s
    case SubmitStep(env, user, ev) => SyncEvolves(db, opening, env, user, ev);
    case ReparkStep(ctx) => ParkAgainEvolves(db, opening, ctx);
    case SubmitLegacyStep(user, ev) => SyncLegacyEvolves(db, opening, user, ev);
    case LegacyReparkStep(ctx) => RejectAgainEvolves(db, opening, ctx);
    case IssueStep(env, user, r, now, newId, stale) => IssueEvolves(db, env, user, r, now, newId, stale);
    case CloseStep(env, user, auth, close, manifest) => CloseEvolves(db, env, user, auth, close, manifest);
    case TopUpStep(user, r, stale) => TopUpEvolves(db, user, r, stale);
    case StoreStep(env, user, op, w) =>
      StoreKeepsInv(db, opening, env, user, op, w);
      EvolvesReflexive(db);
    case CatalogueStep(keys, terminals, inventory) => CatalogueEvolves(db, keys, terminals, inventory);
  }

  lemma CatalogueEvolves(db: Db, keys: map<Id, Key>, terminals: map<Id, Terminal>, inventory: map<Id, Inventoried>)
    ensures Evolves(db, db.(keys := keys, terminals := terminals, inventory := inventory))
  {
  }

  /** Over any run with safe windows: final payments, their ledger, emissions and resolutions, the claims, the grants and the
    review flags all stay what they were. */
  lemma {:induction false} RunEvolves(db: Db, opening: map<Id, int>, steps: seq<Step>)
    requires Inv(db, opening) && SafeWindows(db, steps)
    ensures Evolves(db, Run(db, steps))
    decreases |steps|
  {
    hide Inv, Next, Evolves, SafeStep;
    EvolvesReflexive(db);
    if |steps| > 0 {
      StepKeepsInv(db, opening, steps[0]);
      StepEvolves(db, opening, steps[0]);
      RunEvolves(Next(db, steps[0]), opening, steps[1..]);
      EvolvesTransitive(db, Next(db, steps[0]), Run(Next(db, steps[0]), steps[1..]));
    }
  }
}
