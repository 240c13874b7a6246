/** What every run of the accounting backend with safe windows guarantees, in the terms of its documentation. */
module Guarantees {
  import opened Messages
  import opened Database
  import opened Sums
  import opened SyncV3
  import opened SyncV2
  import opened Authorizations
  import opened Invariant
  import opened Reconciliation
  import opened LegacySteps
  import opened Rollback
  import opened LegacyRollback
  import opened Machine
  import opened History
  import opened Conservation
  import opened Persistence

  /** No wallet ever promises more than it has, so the lower bound of zero in the available budget never acts. */
  lemma SolventForEver(db: Db, opening: map<Id, int>, steps: seq<Step>, w: Id)
    requires Inv(db, opening) && SafeWindows(db, steps) && w in Run(db, steps).wallets
    ensures
      var end := Run(db, steps);
      Committed(end, w) <= end.wallets[w].balance && Available(end, w) == end.wallets[w].balance - Committed(end, w)
  {
    assert Solvent(Run(db, steps).wallets, Run(db, steps).commitments, Run(db, steps).authorizations) by {
      hide *;
      RunKeepsInv(db, opening, steps);
      InvParts(Run(db, steps), opening);
    }
    hide Inv, Run, Held, Legacy;
  }

  /** The four-term identity of a commitment, the agreement of its counters with its rows, and what the
    authorization row may still spend. */
  ghost predicate Accounted(db: Db, a: Id) {
    && a in db.commitments && a in db.authorizations && db.commitments[a].grant.message.body.Grant?
    && var c, row := db.commitments[a], db.authorizations[a];
    && 0 <= c.held == c.reserved - c.emitted - c.unissued - c.rejected
    && c.emitted == Sum(db.emissions.Keys, EmittedBy(db.emissions, a))
    && c.emitted == Sum(db.payments.Keys, PaidBy(db.payments, a, Accepted))
    && c.rejected == Sum(db.payments.Keys, PaidBy(db.payments, a, Rejected))
    && c.count == |EmissionsOf(db.emissions, a)|
    && row.remaining == c.reserved - c.emitted
    && row.payments == c.grant.message.body.maxPayments - c.count
    && c.reserved == c.grant.message.body.total
  }

  lemma AccountedBy(db: Db, a: Id)
    requires CommitmentsOk(db.commitments, db.authorizations) && CountersOk(db.commitments, db.emissions, db.payments)
    requires a in db.commitments
    ensures Accounted(db, a)
  {
    hide Sum, EmittedBy, PaidBy, EmissionsOf, Proper;
    assert CounterOk(a, db.commitments[a], db.emissions, db.payments);
    assert CommitmentOk(a, db.commitments[a], db.authorizations[a]);
  }

  lemma AccountedForEver(db: Db, opening: map<Id, int>, steps: seq<Step>, a: Id)
    requires Inv(db, opening) && SafeWindows(db, steps) && a in Run(db, steps).commitments
    ensures Accounted(Run(db, steps), a)
  {
    hide *;
    RunKeepsInv(db, opening, steps);
    InvParts(Run(db, steps), opening);
    AccountedBy(Run(db, steps), a);
  }

  /** Accepted, emitted, moved in the ledger and resolved are one and the same for a version 3 payment. */
  ghost predicate SettledTogether(db: Db, op: Id)
    requires op in db.payments
  {
    var p := db.payments[op];
    && (p.state.Accepted? <==> (p.auth, op) in db.emissions)
    && (p.state.Accepted? <==> (op, DEBIT) in db.ledger) && (p.state.Accepted? <==> (op, CREDIT) in db.ledger)
    && (p.state.Accepted? <==> op in db.resolutions && db.resolutions[op].status == Accepted)
    && (forall k | k in db.emissions && k.1 == op :: k.0 == p.auth)
    && (p.state.Accepted? ==> db.ledger[(op, DEBIT)].delta + db.ledger[(op, CREDIT)].delta == 0)
    && (p.state.Accepted? ==> db.ledger[(op, DEBIT)] == LedgerEntry(p.wallet, -p.amount))
  }

  lemma SettledTogetherBy(db: Db, op: Id)
    requires op in db.payments && db.payments[op].auth in db.commitments
    requires EmissionsOk(db.emissions, db.payments, db.commitments.Keys) && LedgerOk(db.ledger, db.payments, db.wallets)
    requires ResolutionsOk(db.resolutions, db.payments, db.commitments.Keys)
    ensures SettledTogether(db, op) && !(db.payments[op].state.Accepted? && db.payments[op].state.Validated?)
  {
  }

  lemma NeverValidated(db: Db, op: Id)
    requires PaymentsOk(db.payments, db.commitments, db.authorizations)
    requires op in db.payments && db.payments[op].auth in db.commitments
    ensures !db.payments[op].state.Validated?
  {
    hide ReceiptBound, AckBound;
  }

  /** In every reachable state, a version 3 payment is accepted exactly when it has its emission, its debit, its
    credit and its resolution; the transient state of the handler is never committed. */
  lemma FinalityIff(db: Db, opening: map<Id, int>, steps: seq<Step>, op: Id)
    requires Inv(db, opening) && SafeWindows(db, steps)
    requires op in Run(db, steps).payments && Run(db, steps).payments[op].auth in Run(db, steps).commitments
    ensures SettledTogether(Run(db, steps), op) && !Run(db, steps).payments[op].state.Validated?
  {
    hide *;
    RunKeepsInv(db, opening, steps);
    InvParts(Run(db, steps), opening);
    SettledTogetherBy(Run(db, steps), op);
    NeverValidated(Run(db, steps), op);
  }

  /** The row of an accepted payment stays as it is, a review is not left, and what the operation left in the other
    tables stays. */
  ghost predicate FinalityKept(before: Db, after: Db, op: Id)
    requires op in before.payments
  {
    && op in after.payments
    && (before.payments[op].state.Accepted? ==> after.payments[op] == before.payments[op])
    && (before.payments[op].state.PendingReview? ==> after.payments[op].state.PendingReview?)
    && (op in before.resolutions ==> op in after.resolutions && after.resolutions[op] == before.resolutions[op])
    && (forall k | k in before.ledger :: k in after.ledger && after.ledger[k] == before.ledger[k])
    && (forall k | k in before.emissions :: k in after.emissions && after.emissions[k] == before.emissions[k])
  }

  lemma FinalKept(before: Db, after: Db, op: Id)
    requires Evolves(before, after) && op in before.payments && before.payments[op].receipt.message.body.Receipt?
    ensures FinalityKept(before, after, op)
  {
    hide CommitmentsEvolve, WalletsEvolve;
    assert RowEvolves(before.payments[op], after.payments[op]);
  }

  /** Acceptance and review are never left: the row of an accepted payment, its resolution, its ledger pair and its
    emission are the same after every run. */
  lemma FinalForEver(db: Db, opening: map<Id, int>, steps: seq<Step>, op: Id)
    requires Inv(db, opening) && SafeWindows(db, steps) && op in db.payments && db.payments[op].receipt.message.body.Receipt?
    ensures FinalityKept(db, Run(db, steps), op)
  {
    hide *;
    RunEvolves(db, opening, steps);
    FinalKept(db, Run(db, steps), op);
  }

  /** Claims mirror the payments, emissions mirror claims, and a reused index flags the wallet. */
  ghost predicate ClaimsMirror(db: Db, a: Id)
    requires a in db.commitments
  {
    && (forall op :: (a, op) in db.claims <==> op in db.payments && db.payments[op].auth == a)
    && (forall op | (a, op) in db.emissions :: (a, op) in db.claims && db.claims[(a, op)].index == db.emissions[(a, op)].index)
    && (forall op, other | (a, op) in db.emissions && (a, other) in db.emissions && op != other ::
          db.emissions[(a, op)].index != db.emissions[(a, other)].index)
    && (forall op, other | (a, op) in db.claims && (a, other) in db.claims && op != other
                           && db.claims[(a, op)].index == db.claims[(a, other)].index ::
          db.commitments[a].wallet in db.wallets && db.wallets[db.commitments[a].wallet].review)
  }

  lemma ClaimsMirrorBy(db: Db, a: Id)
    requires a in db.commitments && ClaimsOk(db.claims, db.payments, db.commitments.Keys)
    requires FlagsOk(db.claims, db.commitments, db.wallets)
    requires EmissionsOk(db.emissions, db.payments, db.commitments.Keys)
    ensures ClaimsMirror(db, a)
  {
  }

  lemma ClaimsMirrorForEver(db: Db, opening: map<Id, int>, steps: seq<Step>, a: Id)
    requires Inv(db, opening) && SafeWindows(db, steps) && a in Run(db, steps).commitments
    ensures ClaimsMirror(Run(db, steps), a)
  {
    hide *;
    RunKeepsInv(db, opening, steps);
    InvParts(Run(db, steps), opening);
    ClaimsMirrorBy(Run(db, steps), a);
  }

  /** Every commitment of after was there before, or belongs to a wallet that before did not flag. */
  ghost predicate GrantsOnlyToClean(before: Db, after: Db) {
    forall a | a in after.commitments && a !in before.commitments ::
      after.commitments[a].wallet in before.wallets && !before.wallets[after.commitments[a].wallet].review
  }

  lemma SyncGrantsNothing(db: Db, env: Env, user: Id, ev: Evidence)
    ensures Sync(db, env, user, ev).commitments.Keys == db.commitments.Keys
  {
    var v := Judge(db, env, user, ev);
    hide Judge;
    if Executable(db, v) {
      PerformGrantsNothing(db, v);
    }
  }

  lemma PerformGrantsNothing(db: Db, v: Verdict)
    requires Executable(db, v)
    ensures Perform(db, v).commitments.Keys == db.commitments.Keys
  {
    hide Credit, CreditUser, Flag, RecordClaim, ParkedPayment, NewPayment, WithAck, ResolutionOf, SpendCommitment;
  }

  lemma LegacyGrantsNothing(db: Db, user: Id, ev: LegacyEvidence)
    ensures SyncLegacy(db, user, ev).commitments.Keys == db.commitments.Keys
  {
    var v := JudgeLegacy(db, user, ev);
    hide JudgeLegacy;
    if LegacyExecutable(db, v) {
      PerformLegacyGrantsNothing(db, v);
    }
  }

  lemma LegacySettleGrantsNothing(db: Db, ctx: LegacyContext)
    requires LegacyExecutable(db, LegacySettle(ctx))
    ensures LegacySettleOn(db, ctx).commitments == db.commitments
  {
    hide Credit, CreditUser, LegacyPayment;
  }

  lemma PerformLegacyGrantsNothing(db: Db, v: LegacyVerdict)
    requires LegacyExecutable(db, v)
    ensures PerformLegacy(db, v).commitments.Keys == db.commitments.Keys
  {
    hide LegacyPayment, LegacySettleOn;
    if v.LegacySettle? {
      LegacySettleGrantsNothing(db, v.ctx);
    }
  }

  lemma IssueGrantsToClean(db: Db, env: Env, user: Id, r: IssueRequest, now: int, id: Id, stale: bool)
    ensures GrantsOnlyToClean(db, Issue(db, env, user, r, now, id, stale).0)
  {
    hide Available, Repeat, Valid3;
  }

  lemma OpenCloseGrantsNothing(db: Db, env: Env, auth: Id, close: Envelope, entries: seq<Entry>)
    requires auth in db.commitments && close.message.body.Closure?
    ensures CloseOpen(db, env, auth, close, entries).0.commitments.Keys == db.commitments.Keys
  {
    OpenCloseCases(db, env, auth, close, entries);
    hide CloseOpen, Flag, Total;
  }

  lemma CloseGrantsNothing(db: Db, env: Env, user: Id, auth: Id, close: Wire, manifest: Option<seq<Entry>>)
    ensures Close(db, env, user, auth, close, manifest).0.commitments.Keys == db.commitments.Keys
  {
    hide TrustedGrant, CloseOpen, WellFormedManifest, Total, Valid3;
    if (&& auth in db.commitments && Parse3(close).Some? && manifest.Some?
        && CloseBound(close.envelope, db.commitments[auth].grant, manifest.value)) {
      OpenCloseGrantsNothing(db, env, auth, close.envelope, manifest.value);
    }
  }

  lemma ParkAgainGrantsNothing(db: Db, ctx: Context)
    ensures ParkAgain(db, ctx).commitments == db.commitments
  {
    hide Flag, RecordClaim, NonceTaken, ReparkedPayment;
  }

  lemma RejectAgainGrantsNothing(db: Db, ctx: LegacyContext)
    ensures RejectAgain(db, ctx).commitments == db.commitments
  {
    hide NonceTaken, RejectedPayment;
  }

  lemma TopUpGrantsNothing(db: Db, user: Id, r: TopupRequest, stale: bool)
    ensures TopUp(db, user, r, stale).0.commitments == db.commitments
  {
    hide Credit, CreditUser;
  }

  lemma StoreGrantsNothing(db: Db, env: Env, user: Id, op: Id, w: Wire)
    ensures StoreResolution(db, env, user, op, w).0.commitments == db.commitments
  {
    hide ResolutionMatches, Valid3, Authorized;
  }

  lemma SameGrants(before: Db, after: Db)
    requires after.commitments.Keys == before.commitments.Keys
    ensures GrantsOnlyToClean(before, after)
  {
  }

  lemma StepGrantsOnlyToClean(db: Db, s: Step)
    ensures GrantsOnlyToClean(db, Next(db, s))
  {
    hide Sync, SyncLegacy, Issue, Close, ParkAgain, RejectAgain, TopUp, StoreResolution, GrantsOnlyToClean;
    match s
    case SubmitStep(env, user, ev) =>
      SyncGrantsNothing(db, env, user, ev);
      SameGrants(db, Next(db, s));
    case ReparkStep(ctx) =>
      ParkAgainGrantsNothing(db, ctx);
      SameGrants(db, Next(db, s));
    case SubmitLegacyStep(user, ev) =>
      LegacyGrantsNothing(db, user, ev);
      SameGrants(db, Next(db, s));
    case LegacyReparkStep(ctx) =>
      RejectAgainGrantsNothing(db, ctx);
      SameGrants(db, Next(db, s));
    case IssueStep(env, user, r, now, newId, stale) => IssueGrantsToClean(db, env, user, r, now, newId, stale);
    case CloseStep(env, user, auth, close, manifest) =>
      CloseGrantsNothing(db, env, user, auth, close, manifest);
      SameGrants(db, Next(db, s));
    case TopUpStep(user, r, stale) =>
      TopUpGrantsNothing(db, user, r, stale);
      SameGrants(db, Next(db, s));
    case StoreStep(env, user, op, w) =>
      StoreGrantsNothing(db, env, user, op, w);
      SameGrants(db, Next(db, s));
    case CatalogueStep(keys, terminals, inventory) => SameGrants(db, Next(db, s));
  }

  lemma FlagStays(before: Db, after: Db, w: Id)
    requires Persists(before, after) && w in before.wallets && before.wallets[w].review
    ensures w in after.wallets && after.wallets[w].review
  {
    hide Submap, GrantsPersist, LegacyShrinks;
  }

  lemma WalletKept(before: Db, after: Db, a: Id)
    requires Persists(before, after) && a in before.commitments
    ensures a in after.commitments && after.commitments[a].wallet == before.commitments[a].wallet
  {
    hide WalletsEvolve, Submap, LegacyShrinks;
  }

  /** Over every run, whatever its windows, a flagged wallet stays flagged and never gets another authorization. */
  lemma {:induction false} FlaggedGetsNoGrant(db: Db, steps: seq<Step>, w: Id)
    requires w in db.wallets && db.wallets[w].review
    ensures w in Run(db, steps).wallets && Run(db, steps).wallets[w].review
    ensures forall a | a in Run(db, steps).commitments && Run(db, steps).commitments[a].wallet == w :: a in db.commitments
    decreases |steps|
  {
    hide Next, Persists;
    if |steps| > 0 {
      var next := Next(db, steps[0]);
      StepGrantsOnlyToClean(db, steps[0]);
      StepPersists(db, steps[0]);
      FlagStays(db, next, w);
      FlaggedGetsNoGrant(next, steps[1..], w);
      RunPersists(next, steps[1..]);
      forall a | a in Run(db, steps).commitments && Run(db, steps).commitments[a].wallet == w
        ensures a in db.commitments
      {
        WalletKept(next, Run(next, steps[1..]), a);
      }
    }
  }

  /** Each balance is its opening balance, its top-ups and its ledger; the decimal balance is the same amount. */
  lemma BalancesForEver(db: Db, opening: map<Id, int>, steps: seq<Step>, w: Id)
    requires Inv(db, opening) && SafeWindows(db, steps) && w in Run(db, steps).wallets
    ensures
      var end := Run(db, steps);
      && w in opening
      && end.wallets[w].balance ==
           opening[w] + Sum(end.topups.Keys, TopupBy(end.topups, w)) + Sum(end.ledger.Keys, LedgerBy(end.ledger, w))
      && end.wallets[w].owner in end.saldo && 100.0 * end.saldo[end.wallets[w].owner] == end.wallets[w].balance as real
  {
    var end := Run(db, steps);
    assert BalancesOk(opening, end.wallets, end.topups, end.ledger) && WalletsOk(end.wallets, end.walletOf, end.saldo) by {
      hide *;
      RunKeepsInv(db, opening, steps);
      InvParts(end, opening);
    }
    hide Inv, Run, Sum, TopupBy, LedgerBy;
  }

  /** A database with wallets, catalogue and legacy authorizations, before any version 3 activity. */
  ghost predicate Fresh(db: Db) {
    && WalletsOk(db.wallets, db.walletOf, db.saldo) && AuthorizationsOk(db.authorizations, db.wallets)
    && db.commitments == map[] && db.payments == map[] && db.claims == map[] && db.emissions == map[]
    && db.ledger == map[] && db.resolutions == map[] && db.topups == map[] && db.issuedFor == map[]
    && forall w | w in db.wallets :: Legacy(db.authorizations, {}, w) <= db.wallets[w].balance
  }

  function Balances(wallets: map<Id, Wallet>): map<Id, int> {
    map w | w in wallets :: wallets[w].balance
  }

  /** Such a database satisfies the invariant, with its balances as the opening ones. */
  lemma FreshIsOk(db: Db)
    requires Fresh(db)
    ensures Inv(db, Balances(db.wallets))
  {
    hide *;
    var opening := Balances(db.wallets);
    FreshBalances(db, opening);
    FreshTables(db);
    FreshSolvent(db);
    InvBuild(db, opening);
  }

  lemma FreshBalances(db: Db, opening: map<Id, int>)
    requires Fresh(db) && opening == Balances(db.wallets)
    ensures WalletsOk(db.wallets, db.walletOf, db.saldo) && AuthorizationsOk(db.authorizations, db.wallets)
    ensures BalancesOk(opening, db.wallets, db.topups, db.ledger)
  {
    hide WalletsOk, AuthorizationsOk, Legacy;
    assert opening.Keys == db.wallets.Keys;
    assert db.topups.Keys == {} && db.ledger.Keys == {};
  }

  lemma FreshTables(db: Db)
    requires Fresh(db)
    ensures CommitmentsOk(db.commitments, db.authorizations) && PaymentsOk(db.payments, db.commitments, db.authorizations)
    ensures ClaimsOk(db.claims, db.payments, db.commitments.Keys) && FlagsOk(db.claims, db.commitments, db.wallets)
    ensures EmissionsOk(db.emissions, db.payments, db.commitments.Keys)
    ensures CountersOk(db.commitments, db.emissions, db.payments) && LedgerOk(db.ledger, db.payments, db.wallets)
    ensures ResolutionsOk(db.resolutions, db.payments, db.commitments.Keys)
    ensures SealsOk(db.commitments, db.payments, db.claims) && RequestsOk(db.issuedFor, db.commitments)
  {
    hide WalletsOk, AuthorizationsOk, Legacy, ReceiptBound, AckBound;
  }

  lemma FreshSolvent(db: Db)
    requires Fresh(db)
    ensures Solvent(db.wallets, db.commitments, db.authorizations)
  {
    hide WalletsOk, AuthorizationsOk, Legacy;
    assert db.commitments.Keys == {};
  }
}
