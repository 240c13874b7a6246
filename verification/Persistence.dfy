/** What no transaction at all undoes, safe or not: requests, grants, owners, flags, and what version 2 authorizations may
  still spend. Nothing here needs the invariant. */
module Persistence {
  import opened Messages
  import opened Database
  import opened SyncV3
  import opened SyncV2
  import opened Authorizations
  import opened Reconciliation
  import opened LegacySteps
  import opened Handlers
  import opened Rollback
  import opened LegacyRollback
  import opened Machine
  import opened History

  /** An authorization of version 2 only ever loses. */
  predicate Shrinks(before: Authorization, after: Authorization) {
    && after.wallet == before.wallet && (after.active ==> before.active)
    && after.remaining <= before.remaining && after.payments <= before.payments
  }

  ghost predicate GrantsPersist(before: map<Id, Commitment>, after: map<Id, Commitment>) {
    forall a | a in before ::
      && a in after && after[a].grant == before[a].grant && after[a].wallet == before[a].wallet
      && after[a].reserved == before[a].reserved
  }

  ghost predicate LegacyShrinks(before: Db, after: Db) {
    forall a | a in before.authorizations && a !in before.commitments ::
      && a in after.authorizations && a !in after.commitments && Shrinks(before.authorizations[a], after.authorizations[a])
  }

  ghost predicate Persists(before: Db, after: Db) {
    && Submap(before.issuedFor, after.issuedFor) && Submap(before.topups, after.topups)
    && WalletsEvolve(before.wallets, after.wallets)
    && GrantsPersist(before.commitments, after.commitments) && LegacyShrinks(before, after)
  }

  lemma PersistsReflexive(db: Db)
    ensures Persists(db, db)
  {
  }

  lemma PersistsTransitive(first: Db, second: Db, third: Db)
    requires Persists(first, second) && Persists(second, third)
    ensures Persists(first, third)
  {
  }

  /** Nothing but payments, claims, money and flags. */
  lemma RecordPersists(before: Db, after: Db)
    requires after.issuedFor == before.issuedFor && after.topups == before.topups
    requires after.commitments == before.commitments && after.authorizations == before.authorizations
    requires WalletsEvolve(before.wallets, after.wallets)
    ensures Persists(before, after)
  {
  }

  lemma FlagEvolves(wallets: map<Id, Wallet>, w: Id, raise: bool)
    ensures WalletsEvolve(wallets, Flag(wallets, w, raise))
  {
  }

  lemma CreditsEvolve(wallets: map<Id, Wallet>, w: Id, amount: int)
    ensures WalletsEvolve(wallets, Credit(wallets, w, amount))
  {
  }

  lemma TwoCreditsEvolve(wallets: map<Id, Wallet>, w: Id, v: Id, amount: int)
    ensures WalletsEvolve(wallets, Credit(Credit(wallets, w, -amount), v, amount))
  {
    CreditsEvolve(wallets, w, -amount);
    CreditsEvolve(Credit(wallets, w, -amount), v, amount);
    hide Credit;
  }

  /** Spending a commitment and its authorization. */
  lemma SpendPersists(before: Db, after: Db, a: Id, amount: int, row: Authorization)
    requires a in before.commitments && a in before.authorizations
    requires after.issuedFor == before.issuedFor && after.topups == before.topups
    requires after.commitments == before.commitments[a := SpendCommitment(before.commitments[a], amount)]
    requires after.authorizations == before.authorizations[a := row]
    requires WalletsEvolve(before.wallets, after.wallets)
    ensures Persists(before, after)
  {
    hide WalletsEvolve;
  }

  lemma SettlePersists(db: Db, ctx: Context, issuer: Issuer)
    requires Executable(db, Settle(ctx, issuer))
    ensures Persists(db, SettleOn(db, ctx, issuer))
  {
    TwoCreditsEvolve(db.wallets, ctx.wallet, ctx.merchantWallet, ctx.Amount());
    hide Credit, CreditUser, ResolutionOf, WithAck, RecordClaim, WalletsEvolve, SpendCommitment, Persists;
    var row := db.authorizations[ctx.auth];
    SpendPersists(db, SettleOn(db, ctx, issuer), ctx.auth, ctx.Amount(),
                  row.(remaining := row.remaining - ctx.Amount(), payments := row.payments - 1));
  }

  lemma VerdictPersists(db: Db, v: Verdict)
    requires Executable(db, v)
    ensures Persists(db, Perform(db, v))
  {
    hide Persists, SettleOn, WalletsEvolve, Flag, RecordClaim, ParkedPayment, NewPayment;
    CommonFrame(db.wallets);
    match v
    case Refuse(_) => PersistsReflexive(db);
    case KeepAck(op, ack, _) => RecordPersists(db, Perform(db, v));
    case Park(ctx, code, storeAck, flag, _) =>
      FlagEvolves(db.wallets, ctx.wallet, flag);
      RecordPersists(db, Perform(db, v));
    case Hold(ctx) => RecordPersists(db, Perform(db, v));
    case Settle(ctx, issuer) => SettlePersists(db, ctx, issuer);
  }

  lemma CommonFrame(wallets: map<Id, Wallet>)
    ensures WalletsEvolve(wallets, wallets)
  {
  }

  lemma SyncPersists(db: Db, env: Env, user: Id, ev: Evidence)
    ensures Persists(db, Sync(db, env, user, ev))
  {
    hide Judge, Perform, Executable, Persists;
    PersistsReflexive(db);
    if Executable(db, Judge(db, env, user, ev)) {
      VerdictPersists(db, Judge(db, env, user, ev));
    }
  }

  lemma LegacySettlePersists(db: Db, ctx: LegacyContext)
    requires LegacyExecutable(db, LegacySettle(ctx)) && ctx.Amount() >= 0
    ensures Persists(db, LegacySettleOn(db, ctx))
  {
    TwoCreditsEvolve(db.wallets, ctx.wallet, ctx.merchantWallet, ctx.Amount());
    hide Credit, CreditUser, LegacyPayment, WalletsEvolve;
  }

  lemma LegacyAmount(db: Db, user: Id, ev: LegacyEvidence)
    ensures var v := JudgeLegacy(db, user, ev); v.LegacySettle? && LegacyExecutable(db, v) ==> v.ctx.Amount() >= 0
  {
    hide LegacyAckFits, RequiresReview, Authorized, LegacyGuardsPass, NonceTaken;
  }

  lemma SyncLegacyPersists(db: Db, user: Id, ev: LegacyEvidence)
    ensures Persists(db, SyncLegacy(db, user, ev))
  {
    LegacyAmount(db, user, ev);
    var v := JudgeLegacy(db, user, ev);
    hide JudgeLegacy, Persists, PerformLegacy;
    PersistsReflexive(db);
    if LegacyExecutable(db, v) {
      hide LegacyExecutable;
      LegacyVerdictPersists(db, v);
    }
  }

  lemma LegacyVerdictPersists(db: Db, v: LegacyVerdict)
    requires LegacyExecutable(db, v)
    requires v.LegacySettle? && LegacyExecutable(db, v) ==> v.ctx.Amount() >= 0
    ensures Persists(db, PerformLegacy(db, v))
  {
    hide Persists, LegacySettleOn, LegacyPayment;
    PersistsReflexive(db);
    match v
    case LegacyRefuse(_) =>
    case LegacyHold(ctx) => PaymentsPersist(db, db.payments[ctx.op := LegacyPayment(db, ctx, PendingEvidence, None)]);
    case LegacyReject(ctx) =>
      PaymentsPersist(db, db.payments[ctx.op := LegacyPayment(db, ctx, Rejected, Some(InsufficientLegacy))]);
    case LegacySettle(ctx) => LegacySettlePersists(db, ctx);
  }

  lemma ReservePersists(db: Db, r: IssueRequest, id: Id, total: int, now: int, until: int, grant: Envelope)
    requires r.requestId !in db.issuedFor && id !in db.authorizations && id !in db.commitments
    ensures Persists(db, Reserve(db, r, id, total, now, until, grant))
  {
  }

  lemma IssuePersists(db: Db, env: Env, user: Id, r: IssueRequest, now: int, id: Id, stale: bool)
    ensures Persists(db, Issue(db, env, user, r, now, id, stale).0)
  {
    hide Available, Repeat, Valid3, Persists, Reserve, GrantFor;
    PersistsReflexive(db);
    if Issue(db, env, user, r, now, id, stale).0 != db {
      var total := Min(Available(db, r.wallet), r.maxPayment * r.maxPayments);
      var body := GrantFor(env, r, db.keys[r.walletKey], env.issuer.value, total, now, id);
      ReservePersists(db, r, id, total, now, now + env.authorizationSeconds, Sign(body, env.issuer.value.publicKey));
    }
  }

  lemma SealPersists(db: Db, auth: Id, close: Envelope, entries: seq<Entry>)
    requires auth in db.commitments
    ensures Persists(db, SealOn(db, auth, close, entries))
  {
    hide Total;
  }

  lemma ClosePersists(db: Db, env: Env, user: Id, auth: Id, close: Wire, manifest: Option<seq<Entry>>)
    ensures Persists(db, Close(db, env, user, auth, close, manifest).0)
  {
    hide TrustedGrant, CloseBound, Valid3, Persists, SealOn, Flag, ClaimOps, PaymentOps, EntryOps, IndicesCollide, CheckEntries,
         AccountsAgree, ClosureIdTaken, WalletsEvolve;
    PersistsReflexive(db);
    if auth in db.commitments {
      FlagEvolves(db.wallets, db.commitments[auth].wallet, true);
      RecordPersists(db, db.(wallets := Flag(db.wallets, db.commitments[auth].wallet, true)));
      if close.Wire? && manifest.Some? {
        SealPersists(db, auth, close.envelope, manifest.value);
      }
    }
  }

  lemma TopupOnPersists(db: Db, user: Id, r: TopupRequest)
    requires r.requestId !in db.topups
    ensures Persists(db, TopupOn(db, user, r))
  {
    CreditsEvolve(db.wallets, r.wallet, r.amount);
    hide Credit, CreditUser, WalletsEvolve;
  }

  lemma TopUpPersists(db: Db, user: Id, r: TopupRequest, stale: bool)
    ensures Persists(db, TopUp(db, user, r, stale).0)
  {
    hide TopupOn, Persists, RepeatTopup;
    PersistsReflexive(db);
    if r.requestId !in db.topups {
      TopupOnPersists(db, user, r);
    }
  }

  lemma StorePersists(db: Db, env: Env, user: Id, op: Id, w: Wire)
    ensures Persists(db, StoreResolution(db, env, user, op, w).0)
  {
    hide ResolutionMatches, Parse3, Authorized, Persists;
    PersistsReflexive(db);
    if op in db.payments && w.Wire? {
      ResolutionsPersist(db, db.resolutions[op := ResolutionRow(db.payments[op].state, w.envelope)]);
    }
  }

  lemma ResolutionsPersist(db: Db, resolutions: map<Id, ResolutionRow>)
    ensures Persists(db, db.(resolutions := resolutions))
  {
  }

  lemma ReparkOnPersists(db: Db, ctx: Context)
    requires ctx.receipt.message.body.Receipt?
    ensures Persists(db, ReparkOn(db, ctx))
  {
    FlagEvolves(db.wallets, ctx.wallet, true);
    hide Flag, RecordClaim, ReparkedPayment, Persists, WalletsEvolve;
    RecordPersists(db, ReparkOn(db, ctx));
  }

  lemma ParkAgainPersists(db: Db, ctx: Context)
    ensures Persists(db, ParkAgain(db, ctx))
  {
    hide ReparkOn, NonceTaken, Persists;
    PersistsReflexive(db);
    if ctx.receipt.message.body.Receipt? {
      ReparkOnPersists(db, ctx);
    }
  }

  lemma PaymentsPersist(db: Db, payments: map<Id, Payment>)
    ensures Persists(db, db.(payments := payments))
  {
  }

  lemma RejectAgainPersists(db: Db, ctx: LegacyContext)
    ensures Persists(db, RejectAgain(db, ctx))
  {
    hide RejectedPayment, NonceTaken, Persists;
    PersistsReflexive(db);
    if ctx.request.message.body.Request? {
      PaymentsPersist(db, db.payments[ctx.op := RejectedPayment(db, ctx)]);
    }
  }

  lemma StepPersists(db: Db, s: Step)
    ensures Persists(db, Next(db, s))
  {
    hide Sync, SyncLegacy, Issue, Close, TopUp, StoreResolution, ParkAgain, RejectAgain, Persists, WalletsEvolve;
    match s
    case SubmitStep(env, user, ev) => SyncPersists(db, env, user, ev);
    case ReparkStep(ctx) => ParkAgainPersists(db, ctx);
    case SubmitLegacyStep(user, ev) => SyncLegacyPersists(db, user, ev);
    case LegacyReparkStep(ctx) => RejectAgainPersists(db, ctx);
    case IssueStep(env, user, r, now, newId, stale) => IssuePersists(db, env, user, r, now, newId, stale);
    case CloseStep(env, user, auth, close, manifest) => ClosePersists(db, env, user, auth, close, manifest);
    case TopUpStep(user, r, stale) => TopUpPersists(db, user, r, stale);
    case StoreStep(env, user, op, w) => StorePersists(db, env, user, op, w);
    case CatalogueStep(keys, terminals, inventory) =>
      CommonFrame(db.wallets);
      RecordPersists(db, Next(db, s));
  }

  /** Over every run, whatever its windows: requests and top-ups are never forgotten, grants and totals never change,
    wallets keep their owner and their flag, and version 2 authorizations only lose. */
  lemma {:induction false} RunPersists(db: Db, steps: seq<Step>)
    ensures Persists(db, Run(db, steps))
    decreases |steps|
  {
    hide Next, Persists;
    PersistsReflexive(db);
    if |steps| > 0 {
      StepPersists(db, steps[0]);
      RunPersists(Next(db, steps[0]), steps[1..]);
      PersistsTransitive(db, Next(db, steps[0]), Run(Next(db, steps[0]), steps[1..]));
    }
  }
}
