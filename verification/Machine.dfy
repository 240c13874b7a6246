/** The accounting backend as a transition system: any handler, in any order, by anyone.

  Each step is one committed transaction. `ReparkStep` and `LegacyReparkStep` are the second transactions of
  submissions whose first one was rolled back; the handlers do not compare what these find with the evidence that
  failed. `SafeWindows` says of a run that each finds what it may write over; `Window` proves when that is so, and that
  the invariant breaks otherwise. */
module Machine {
  import opened Messages
  import opened Database
  import opened Sums
  import opened SyncV3
  import opened SyncV2
  import opened Authorizations
  import opened Invariant
  import opened Rows
  import opened Steps
  import opened Reconciliation
  import opened Handlers
  import opened LegacySteps
  import opened Rollback
  import opened LegacyRollback

  datatype Step =
    | SubmitStep(env: Env, user: Id, ev: Evidence)
    | ReparkStep(failed: Context)
    | SubmitLegacyStep(user: Id, legacy: LegacyEvidence)
    | LegacyReparkStep(rejected: LegacyContext)
    | IssueStep(env: Env, user: Id, request: IssueRequest, now: int, newId: Id, stale: bool)
    | CloseStep(env: Env, user: Id, auth: Id, close: Wire, manifest: Option<seq<Entry>>)
    | TopUpStep(user: Id, topup: TopupRequest, stale: bool)
    | StoreStep(env: Env, user: Id, op: Id, resolution: Wire)
    | CatalogueStep(keys: map<Id, Key>, terminals: map<Id, Terminal>, inventory: map<Id, Inventoried>)

  ghost function Next(db: Db, s: Step): Db {
    match s
    case SubmitStep(env, user, ev) => Sync(db, env, user, ev)
    case ReparkStep(ctx) => ParkAgain(db, ctx)
    case SubmitLegacyStep(user, ev) => SyncLegacy(db, user, ev)
    case LegacyReparkStep(ctx) => RejectAgain(db, ctx)
    case IssueStep(env, user, r, now, newId, stale) => Issue(db, env, user, r, now, newId, stale).0
    case CloseStep(env, user, auth, close, manifest) => Close(db, env, user, auth, close, manifest).0
    case TopUpStep(user, r, stale) => TopUp(db, user, r, stale).0
    case StoreStep(env, user, op, w) => StoreResolution(db, env, user, op, w).0
    case CatalogueStep(keys, terminals, inventory) =>
      db.(keys := keys, terminals := terminals, inventory := inventory)
  }

  ghost function Run(db: Db, steps: seq<Step>): Db
    decreases |steps|
  {
    if |steps| == 0 then db else Run(Next(db, steps[0]), steps[1..])
  }

  /** A second transaction finds what it may write over; every other transaction is safe. */
  ghost predicate SafeStep(db: Db, s: Step) {
    && (s.ReparkStep? ==> Reparkable(db, s.failed))
    && (s.LegacyReparkStep? ==> LegacyFailed(db, s.rejected) && NotAccepted(db, s.rejected))
  }

  /** Every second transaction of a run is safe. */
  ghost predicate SafeWindows(db: Db, steps: seq<Step>)
    decreases |steps|
  {
    |steps| == 0 || (SafeStep(db, steps[0]) && SafeWindows(Next(db, steps[0]), steps[1..]))
  }

  lemma {:induction false} RunSplits(db: Db, first: seq<Step>, second: seq<Step>)
    ensures Run(db, first + second) == Run(Run(db, first), second)
    ensures SafeWindows(db, first + second) <==> SafeWindows(db, first) && SafeWindows(Run(db, first), second)
    decreases |first|
  {
    hide Next, SafeStep;
    if |first| == 0 {
      assert first + second == second;
    } else {
      assert (first + second)[1..] == first[1..] + second;
      assert (first + second)[0] == first[0];
      RunSplits(Next(db, first[0]), first[1..], second);
    }
  }

  /** Every transaction of every handler keeps the invariant, a second transaction if it is safe. */
  lemma StepKeepsInv(db: Db, opening: map<Id, int>, s: Step)
    requires Inv(db, opening) && SafeStep(db, s)
    ensures Inv(Next(db, s), opening)
  {
    hide Inv, Sync, SyncLegacy, Issue, Close, TopUp, StoreResolution, ParkAgain, RejectAgain, Reparkable, LegacyFailed,
         NotAccepted;
    match s
    case SubmitStep(env, user, ev) => SyncKeepsInv(db, opening, env, user, ev);
    case ReparkStep(ctx) => ParkAgainKeepsInv(db, opening, ctx);
    case SubmitLegacyStep(user, ev) => SyncLegacyKeepsInv(db, opening, user, ev);
    case LegacyReparkStep(ctx) => RejectAgainKeepsInv(db, opening, ctx);
    case IssueStep(env, user, r, now, newId, stale) => IssueKeepsInv(db, opening, env, user, r, now, newId, stale);
    case CloseStep(env, user, auth, close, manifest) => CloseKeepsInv(db, opening, env, user, auth, close, manifest);
    case TopUpStep(user, r, stale) => TopUpKeepsInv(db, opening, user, r, stale);
    case StoreStep(env, user, op, w) => StoreKeepsInv(db, opening, env, user, op, w);
    case CatalogueStep(keys, terminals, inventory) => CatalogueKeepsInv(db, opening, keys, terminals, inventory);
  }

  lemma CatalogueKeepsInv(db: Db, opening: map<Id, int>, keys: map<Id, Key>, terminals: map<Id, Terminal>, inventory: map<Id, Inventoried>)
    requires Inv(db, opening)
    ensures Inv(db.(keys := keys, terminals := terminals, inventory := inventory), opening)
  {
    hide *;
    InvParts(db, opening);
    InvBuild(db.(keys := keys, terminals := terminals, inventory := inventory), opening);
  }

  /** The invariant holds after every run with safe windows, whatever the requests, their order and the catalogue.
    `Window.SafeIffInvariant` gives the converse for the runs of the program. */
  lemma {:induction false} RunKeepsInv(db: Db, opening: map<Id, int>, steps: seq<Step>)
    requires Inv(db, opening) && SafeWindows(db, steps)
    ensures Inv(Run(db, steps), opening)
    decreases |steps|
  {
    hide Inv, Next, SafeStep;
    if |steps| > 0 {
      StepKeepsInv(db, opening, steps[0]);
      RunKeepsInv(Next(db, steps[0]), opening, steps[1..]);
    }
  }
}
