/** No step creates or destroys money: the total balance moves only with the confirmed top-ups. */
module Conservation {
  import opened Messages
  import opened Database
  import opened Sums
  import opened SyncV3
  import opened SyncV2
  import opened Authorizations
  import opened Reconciliation
  import opened LegacySteps
  import opened Rollback
  import opened LegacyRollback
  import opened Machine

  ghost function BalanceOf(wallets: map<Id, Wallet>): Id -> int {
    w => if w in wallets then wallets[w].balance else 0
  }

  ghost function TotalBalance(wallets: map<Id, Wallet>): int {
    Sum(wallets.Keys, BalanceOf(wallets))
  }

  ghost function AmountOf(topups: map<Id, Topup>): Id -> int {
    r => if r in topups then topups[r].amount else 0
  }

  ghost function TotalTopups(topups: map<Id, Topup>): int {
    Sum(topups.Keys, AmountOf(topups))
  }

  /** What the wallets hold beyond what was topped up. */
  ghost function Endowment(db: Db): int {
    TotalBalance(db.wallets) - TotalTopups(db.topups)
  }

  lemma CreditTotal(wallets: map<Id, Wallet>, w: Id, amount: int)
    requires w in wallets
    ensures TotalBalance(Credit(wallets, w, amount)) == TotalBalance(wallets) + amount
    ensures Credit(wallets, w, amount).Keys == wallets.Keys
  {
    var after := Credit(wallets, w, amount);
    assert after.Keys == wallets.Keys;
    SumUpdate(wallets.Keys, BalanceOf(wallets), BalanceOf(after), w);
  }

  lemma SameBalances(before: map<Id, Wallet>, after: map<Id, Wallet>)
    requires before.Keys == after.Keys && forall w | w in before :: after[w].balance == before[w].balance
    ensures TotalBalance(after) == TotalBalance(before)
  {
    SumSame(before.Keys, BalanceOf(before), BalanceOf(after));
  }

  lemma FlagTotal(wallets: map<Id, Wallet>, w: Id, raise: bool)
    ensures TotalBalance(Flag(wallets, w, raise)) == TotalBalance(wallets)
  {
    SameBalances(wallets, Flag(wallets, w, raise));
  }

  lemma PairTotal(wallets: map<Id, Wallet>, payer: Id, payee: Id, amount: int)
    requires payer in wallets && payee in wallets
    ensures TotalBalance(Credit(Credit(wallets, payer, -amount), payee, amount)) == TotalBalance(wallets)
  {
    hide Credit, TotalBalance;
    CreditTotal(wallets, payer, -amount);
    CreditTotal(Credit(wallets, payer, -amount), payee, amount);
  }

  lemma SettleMoney(db: Db, ctx: Context, issuer: Issuer)
    requires Executable(db, Settle(ctx, issuer))
    ensures ctx.wallet in db.wallets && ctx.merchantWallet in db.wallets && ctx.receipt.message.body.Receipt?
    ensures SettleOn(db, ctx, issuer).wallets ==
            Credit(Credit(db.wallets, ctx.wallet, -ctx.Amount()), ctx.merchantWallet, ctx.Amount())
    ensures SettleOn(db, ctx, issuer).topups == db.topups
  {
    hide Credit, CreditUser, RecordClaim, ResolutionOf, SpendCommitment, WithAck;
  }

  lemma PerformConserves(db: Db, v: Verdict)
    requires Executable(db, v)
    ensures Endowment(Perform(db, v)) == Endowment(db)
  {
    hide SettleOn, TotalBalance, TotalTopups, Credit, Flag, RecordClaim, ParkedPayment, NewPayment;
    match v
    case Refuse(_) =>
    case KeepAck(_, _, _) =>
    case Park(ctx, _, _, flag, _) => FlagTotal(db.wallets, ctx.wallet, flag);
    case Hold(_) =>
    case Settle(ctx, issuer) =>
      SettleMoney(db, ctx, issuer);
      PairTotal(db.wallets, ctx.wallet, ctx.merchantWallet, ctx.Amount());
  }

  lemma SyncConserves(db: Db, env: Env, user: Id, ev: Evidence)
    ensures Endowment(Sync(db, env, user, ev)) == Endowment(db)
  {
    hide Judge, Perform, Executable, Endowment;
    if Executable(db, Judge(db, env, user, ev)) {
      PerformConserves(db, Judge(db, env, user, ev));
    }
  }

  lemma LegacySettleMoney(db: Db, ctx: LegacyContext)
    requires LegacyExecutable(db, LegacySettle(ctx))
    ensures ctx.wallet in db.wallets && ctx.merchantWallet in db.wallets && ctx.request.message.body.Request?
    ensures LegacySettleOn(db, ctx).wallets ==
            Credit(Credit(db.wallets, ctx.wallet, -ctx.Amount()), ctx.merchantWallet, ctx.Amount())
    ensures LegacySettleOn(db, ctx).topups == db.topups
  {
    hide Credit, CreditUser, LegacyPayment;
  }

  lemma PerformLegacyConserves(db: Db, v: LegacyVerdict)
    requires LegacyExecutable(db, v)
    ensures Endowment(PerformLegacy(db, v)) == Endowment(db)
  {
    hide LegacySettleOn, TotalBalance, TotalTopups, Credit, LegacyPayment;
    match v
    case LegacyRefuse(_) =>
    case LegacyHold(_) =>
    case LegacyReject(_) =>
    case LegacySettle(ctx) =>
      LegacySettleMoney(db, ctx);
      PairTotal(db.wallets, ctx.wallet, ctx.merchantWallet, ctx.Amount());
  }

  lemma LegacyConserves(db: Db, user: Id, ev: LegacyEvidence)
    ensures Endowment(SyncLegacy(db, user, ev)) == Endowment(db)
  {
    hide JudgeLegacy, PerformLegacy, LegacyExecutable, Endowment;
    if LegacyExecutable(db, JudgeLegacy(db, user, ev)) {
      PerformLegacyConserves(db, JudgeLegacy(db, user, ev));
    }
  }

  lemma RepeatConserves(db: Db, ctx: Context)
    ensures Endowment(ParkAgain(db, ctx)) == Endowment(db)
  {
    hide TotalBalance, TotalTopups, Flag, RecordClaim, NonceTaken, ReparkedPayment;
    FlagTotal(db.wallets, ctx.wallet, true);
  }

  lemma RejectAgainConserves(db: Db, ctx: LegacyContext)
    ensures Endowment(RejectAgain(db, ctx)) == Endowment(db)
  {
    hide TotalBalance, TotalTopups, NonceTaken, RejectedPayment;
  }

  lemma IssueConserves(db: Db, env: Env, user: Id, r: IssueRequest, now: int, id: Id, stale: bool)
    ensures Endowment(Issue(db, env, user, r, now, id, stale).0) == Endowment(db)
  {
    hide TotalBalance, TotalTopups, Available, Repeat, Valid3;
  }

  lemma SealMoney(db: Db, auth: Id, close: Envelope, entries: seq<Entry>)
    requires auth in db.commitments
    ensures SealOn(db, auth, close, entries).wallets == db.wallets
    ensures SealOn(db, auth, close, entries).topups == db.topups
  {
    hide Total;
  }

  lemma OpenCloseCases(db: Db, env: Env, auth: Id, close: Envelope, entries: seq<Entry>)
    requires auth in db.commitments && close.message.body.Closure?
    ensures var after := CloseOpen(db, env, auth, close, entries).0;
            || after == db || after == SealOn(db, auth, close, entries)
            || after == db.(wallets := Flag(db.wallets, db.commitments[auth].wallet, true))
  {
    hide ClaimOps, PaymentOps, EntryOps, IndicesCollide, CheckEntries, CheckEntry, AccountsAgree, ClosureIdTaken, Flag, SealOn;
  }

  lemma OpenCloseConserves(db: Db, env: Env, auth: Id, close: Envelope, entries: seq<Entry>)
    requires auth in db.commitments && close.message.body.Closure?
    ensures Endowment(CloseOpen(db, env, auth, close, entries).0) == Endowment(db)
  {
    OpenCloseCases(db, env, auth, close, entries);
    hide CloseOpen, Flag, SealOn, TotalBalance, TotalTopups;
    SealMoney(db, auth, close, entries);
    FlagTotal(db.wallets, db.commitments[auth].wallet, true);
  }

  lemma CloseConserves(db: Db, env: Env, user: Id, auth: Id, close: Wire, manifest: Option<seq<Entry>>)
    ensures Endowment(Close(db, env, user, auth, close, manifest).0) == Endowment(db)
  {
    hide Endowment, TrustedGrant, CloseOpen, WellFormedManifest, Total, Valid3;
    if (&& auth in db.commitments && Parse3(close).Some? && manifest.Some?
        && CloseBound(close.envelope, db.commitments[auth].grant, manifest.value)) {
      OpenCloseConserves(db, env, auth, close.envelope, manifest.value);
    }
  }

  lemma TopUpConserves(db: Db, user: Id, r: TopupRequest, stale: bool)
    ensures Endowment(TopUp(db, user, r, stale).0) == Endowment(db)
  {
    hide TotalBalance, Credit, CreditUser;
    if TopUp(db, user, r, stale).0 != db {
      CreditTotal(db.wallets, r.wallet, r.amount);
      var after := TopupOn(db, user, r);
      assert after.topups.Keys == db.topups.Keys + {r.requestId};
      SumInsert(db.topups.Keys, AmountOf(db.topups), AmountOf(after.topups), r.requestId);
    }
  }

  lemma StepConserves(db: Db, s: Step)
    ensures Endowment(Next(db, s)) == Endowment(db)
  {
    hide Sync, SyncLegacy, Issue, Close, TopUp, ParkAgain, RejectAgain, TotalBalance, TotalTopups, ResolutionMatches;
    match s
    case SubmitStep(env, user, ev) => SyncConserves(db, env, user, ev);
    case ReparkStep(ctx) => RepeatConserves(db, ctx);
    case SubmitLegacyStep(user, ev) => LegacyConserves(db, user, ev);
    case LegacyReparkStep(ctx) => RejectAgainConserves(db, ctx);
    case IssueStep(env, user, r, now, newId, stale) => IssueConserves(db, env, user, r, now, newId, stale);
    case CloseStep(env, user, auth, close, manifest) => CloseConserves(db, env, user, auth, close, manifest);
    case TopUpStep(user, r, stale) => TopUpConserves(db, user, r, stale);
    case StoreStep(env, user, op, w) =>
    case CatalogueStep(keys, terminals, inventory) =>
  }

  /** Over every run, whatever its windows, the total balance changes by exactly what was topped up. */
  lemma {:induction false} MoneyIsConserved(db: Db, steps: seq<Step>)
    ensures TotalBalance(Run(db, steps).wallets) - TotalBalance(db.wallets) ==
            TotalTopups(Run(db, steps).topups) - TotalTopups(db.topups)
    decreases |steps|
  {
    hide Next, TotalBalance, TotalTopups;
    if |steps| > 0 {
      StepConserves(db, steps[0]);
      MoneyIsConserved(Next(db, steps[0]), steps[1..]);
    }
  }
}
