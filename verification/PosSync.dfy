/** The terminal's reconciliation rounds: one batch with the backend, then the recovery of missing resolutions. */
module PosSync {
  import opened Messages
  import opened Utf8
  import opened Sums
  import opened PosStore
  import opened PosDatabase

  /** One line of the backend's answer; a status the terminal does not know is None. */
  datatype Result = Result(op: Id, status: Option<SyncStatus>, code: Option<nat>, resolution: Option<Bytes>)

  datatype Fetch = Unauthorized | ClientError | Transient | Unverifiable | Absent | Verified(resolution: Bytes)

  datatype Tag = Synced(status: SyncStatus) | AttentionNeeded | Recovered

  type Summary = map<Tag, nat>

  datatype Outcome = Busy | Raised | Done(summary: Summary)

  const MISSING_RESULT: nat := 1
  const NETWORK_ERROR: nat := 2

  function Pow2(n: nat): nat {
    if n == 0 then 1 else 2 * Pow2(n - 1)
  }

  /** Seconds before another attempt: doubling from 15, at most an hour. */
  function Backoff(attempt: nat): nat {
    var wait := 15 * Pow2(if attempt == 0 then 0 else attempt - 1);
    if wait < 3600 then wait else 3600
  }

  /** The first line with a known status for an operation. */
  function FirstResult(results: seq<Result>, op: Id): Option<Result> {
    if |results| == 0 then None
    else if results[0].op == op && results[0].status.Some? then Some(results[0])
    else FirstResult(results[1..], op)
  }

  function Retried(o: Operation, code: nat, instant: int): Operation {
    WithResult(o, RETRYABLE_ERROR, Some(code), instant, Some(instant + Backoff(o.attempts + 1)), None)
  }

  /** What one round makes of a candidate. */
  function Planned(o: Operation, r: Option<Result>, instant: int): Operation {
    if r.None? || r.value.status.None? then Retried(o, MISSING_RESULT, instant)
    else
      var status := r.value.status.value;
      WithResult(o, status, r.value.code, instant,
                 if status.PENDING_EVIDENCE? || status.RETRYABLE_ERROR? then Some(instant + Backoff(o.attempts + 1)) else None,
                 r.value.resolution)
  }

  /** The line carries what its status needs. */
  predicate Complete(r: Option<Result>) {
    r.None? || r.value.status.None? || !FinalStatus(r.value.status.value)
    || (r.value.resolution.Some? && |r.value.resolution.value| > 0)
  }

  ghost function CountOf(summary: Summary): Tag -> int {
    tag => if tag in summary then summary[tag] else 0
  }

  ghost function Counted(summary: Summary): int {
    Sum(summary.Keys, CountOf(summary))
  }

  function Bump(summary: Summary, tag: Tag): Summary {
    summary[tag := (if tag in summary then summary[tag] else 0) + 1]
  }

  lemma BumpCounts(summary: Summary, tag: Tag)
    ensures Counted(Bump(summary, tag)) == Counted(summary) + 1
  {
    var after := Bump(summary, tag);
    assert after.Keys == summary.Keys + {tag};
    SumSet(summary.Keys, CountOf(summary), CountOf(after), tag);
  }

  predicate Distinct(ids: seq<Id>) {
    forall i, j | 0 <= i < j < |ids| :: ids[i] != ids[j]
  }

  /** Keep the first known result of each candidate; anything else is ignored. */
  method IndexResults(results: seq<Result>, candidates: set<Id>) returns (byId: map<Id, Result>)
    ensures forall op :: op in byId <==> op in candidates && FirstResult(results, op).Some?
    ensures forall op | op in byId :: byId[op] == FirstResult(results, op).value
  {
    byId := map[];
    for i := 0 to |results|
      invariant forall op :: (op in byId || (op in candidates && FirstResult(results[i..], op).Some?))
                             <==> (op in candidates && FirstResult(results, op).Some?)
      invariant forall op | op in byId :: byId[op] == FirstResult(results, op).value && op in candidates
      invariant forall op | op !in byId :: FirstResult(results, op) == FirstResult(results[i..], op) || op !in candidates
    {
      var r := results[i];
      assert results[i..][0] == r && results[i..][1..] == results[i + 1..];
      if r.op in candidates && r.op !in byId && r.status.Some? {
        byId := byId[r.op := r];
      }
    }
  }

  /** What one recovery attempt makes of an operation without its resolution. */
  function Attempted(o: Operation, fetched: Fetch, instant: int): Operation {
    match fetched
    case Unauthorized => o
    case ClientError => o.(recovery := ATTENTION_REQUIRED, nextSync := None)
    case Transient => o.(attempts := o.attempts + 1, nextSync := Some(instant + Backoff(o.attempts + 1)))
    case Unverifiable => o.(recovery := ATTENTION_REQUIRED, nextSync := None)
    case Absent => o.(recovery := ATTENTION_REQUIRED, nextSync := None)
    case Verified(resolution) => o.(resolution := Some(resolution), recovery := COMPLETE, nextSync := None)
  }

  // ---------------------------------------------------------------------------------------------
  // Rows rewritten one after another

  /** Exactly the rows that were done were rewritten. */
  ghost predicate Rewritten(before: map<Id, Operation>, after: map<Id, Operation>, done: seq<Id>,
                            f: (Id, Operation) -> Operation)
  {
    && after.Keys == before.Keys
    && forall op | op in before :: after[op] == if op in done then f(op, before[op]) else before[op]
  }

  function ByResults(results: seq<Result>, instant: int): (Id, Operation) -> Operation {
    (op: Id, o: Operation) => Planned(o, FirstResult(results, op), instant)
  }

  function ByFailure(instant: int): (Id, Operation) -> Operation {
    (op: Id, o: Operation) => Retried(o, NETWORK_ERROR, instant)
  }

  function ByFetch(fetch: Id -> Fetch, instant: int): (Id, Operation) -> Operation {
    (op: Id, o: Operation) => Attempted(o, fetch(op), instant)
  }

  lemma NothingRewritten(before: map<Id, Operation>, ids: seq<Id>, f: (Id, Operation) -> Operation)
    ensures Rewritten(before, before, ids[..0], f)
  {
  }

  lemma NextRewritten(before: map<Id, Operation>, mid: map<Id, Operation>, ids: seq<Id>, i: nat, f: (Id, Operation) -> Operation)
    requires Distinct(ids) && i < |ids| && ids[i] in before && Rewritten(before, mid, ids[..i], f)
    ensures ids[i] in mid && mid[ids[i]] == before[ids[i]]
    ensures Rewritten(before, mid[ids[i] := f(ids[i], before[ids[i]])], ids[..i + 1], f)
  {
    assert ids[..i + 1] == ids[..i] + [ids[i]];
    assert ids[i] !in ids[..i];
  }

  lemma NothingCounted()
    ensures Counted(map[]) == 0
  {
  }

  /** Apply one line, or its absence, to one candidate. */
  method ApplyOne(db: Database, op: Id, r: Option<Result>, instant: int) returns (ok: bool, tag: Tag)
    requires op in db.operations && db.operations[op].state.LOCALLY_ACCEPTED?
    requires r.Some? ==> r.value.status.Some?
    modifies db
    ensures ok == Complete(r)
    ensures db.lease == old(db.lease) && db.terminal == old(db.terminal)
    ensures db.operations == if ok then old(db.operations)[op := Planned(old(db.operations)[op], r, instant)] else old(db.operations)
  {
    hide WithResult, Backoff;
    var row := db.operations[op];
    if r.None? {
      RetryOne(db, op, MISSING_RESULT, instant);
      ok := true;
      tag := Synced(RETRYABLE_ERROR);
    } else {
      var status := r.value.status.value;
      var next := if status in {PENDING_EVIDENCE, RETRYABLE_ERROR} then Some(instant + Backoff(row.attempts + 1)) else None;
      ok := db.ApplySyncResult(op, status, r.value.code, instant, next, r.value.resolution);
      tag := Synced(status);
    }
  }

  /** Apply the first known line of each candidate, one after another, until one is refused. */
  method ApplyEach(db: Database, candidates: seq<Id>, byId: map<Id, Result>, ghost results: seq<Result>, instant: int)
    returns (ok: bool, summary: Summary, ghost applied: nat)
    requires Distinct(candidates)
    requires forall i | 0 <= i < |candidates| ::
               candidates[i] in db.operations && db.operations[candidates[i]].state.LOCALLY_ACCEPTED?
    requires forall i | 0 <= i < |candidates| ::
               FirstResult(results, candidates[i]) == if candidates[i] in byId then Some(byId[candidates[i]]) else None
    modifies db
    ensures applied <= |candidates| && (ok <==> applied == |candidates|)
    ensures forall i | 0 <= i < applied :: Complete(FirstResult(results, candidates[i]))
    ensures !ok ==> !Complete(FirstResult(results, candidates[applied]))
    ensures ok ==> Counted(summary) == |candidates|
    ensures db.lease == old(db.lease) && db.terminal == old(db.terminal)
    ensures Rewritten(old(db.operations), db.operations, candidates[..applied], ByResults(results, instant))
  {
    ghost var before, f := db.operations, ByResults(results, instant);
    summary := map[];
    NothingCounted();
    NothingRewritten(before, candidates, f);
    hide Planned, Complete, Counted, Bump, FirstResult, Rewritten;
    for i := 0 to |candidates|
      invariant db.lease == old(db.lease) && db.terminal == old(db.terminal)
      invariant Counted(summary) == i
      invariant forall j | 0 <= j < i :: Complete(FirstResult(results, candidates[j]))
      invariant Rewritten(before, db.operations, candidates[..i], f)
    {
      var op, tag := candidates[i], AttentionNeeded;
      FirstHasStatus(results, op);
      NextRewritten(before, db.operations, candidates, i, f);
      ok, tag := ApplyOne(db, op, if op in byId then Some(byId[op]) else None, instant);
      if !ok {
        applied := i;
        return;
      }
      BumpCounts(summary, tag);
      summary := Bump(summary, tag);
    }
    ok, applied := true, |candidates|;
  }

  /** Apply one answer of the backend to its candidates. */
  method ApplyBatch(db: Database, candidates: seq<Id>, results: seq<Result>, instant: int)
    returns (ok: bool, summary: Summary, ghost applied: nat)
    requires Distinct(candidates)
    requires forall i | 0 <= i < |candidates| ::
               candidates[i] in db.operations && db.operations[candidates[i]].state.LOCALLY_ACCEPTED?
    modifies db
    ensures applied <= |candidates| && (ok <==> applied == |candidates|)
    ensures forall i | 0 <= i < applied :: Complete(FirstResult(results, candidates[i]))
    ensures !ok ==> !Complete(FirstResult(results, candidates[applied]))
    ensures ok ==> Counted(summary) == |candidates|
    ensures db.lease == old(db.lease) && db.terminal == old(db.terminal)
    ensures Rewritten(old(db.operations), db.operations, candidates[..applied], ByResults(results, instant))
  {
    hide Planned, Complete, Counted, FirstResult, Rewritten;
    var byId := IndexResults(results, set i | 0 <= i < |candidates| :: candidates[i]);
    ok, summary, applied := ApplyEach(db, candidates, byId, results, instant);
  }

  /** One candidate of a failed batch. */
  method RetryOne(db: Database, op: Id, code: nat, instant: int)
    requires op in db.operations && db.operations[op].state.LOCALLY_ACCEPTED?
    modifies db
    ensures db.lease == old(db.lease) && db.terminal == old(db.terminal)
    ensures db.operations == old(db.operations)[op := Retried(old(db.operations)[op], code, instant)]
  {
    hide Backoff;
    var row := db.operations[op];
    var ok := db.ApplySyncResult(op, RETRYABLE_ERROR, Some(code), instant, Some(instant + Backoff(row.attempts + 1)), None);
  }

  /** The network failed: every candidate is due again later. */
  method RetryAll(db: Database, candidates: seq<Id>, instant: int)
    requires Distinct(candidates)
    requires forall i | 0 <= i < |candidates| ::
               candidates[i] in db.operations && db.operations[candidates[i]].state.LOCALLY_ACCEPTED?
    modifies db
    ensures db.lease == old(db.lease) && db.terminal == old(db.terminal)
    ensures Rewritten(old(db.operations), db.operations, candidates, ByFailure(instant))
  {
    ghost var before, f := db.operations, ByFailure(instant);
    NothingRewritten(before, candidates, f);
    hide Retried, Rewritten;
    for i := 0 to |candidates|
      invariant db.lease == old(db.lease) && db.terminal == old(db.terminal)
      invariant Rewritten(before, db.operations, candidates[..i], f)
    {
      NextRewritten(before, db.operations, candidates, i, f);
      RetryOne(db, candidates[i], NETWORK_ERROR, instant);
    }
    assert candidates[..|candidates|] == candidates;
  }

  lemma {:induction false} FirstHasStatus(results: seq<Result>, op: Id)
    ensures FirstResult(results, op).Some? ==> FirstResult(results, op).value.status.Some? && FirstResult(results, op).value.op == op
  {
    if |results| > 0 {
      FirstHasStatus(results[1..], op);
    }
  }

  /** One recovery attempt, and how it counts. */
  method RecoverOne(db: Database, op: Id, fetched: Fetch, instant: int) returns (tag: Option<Tag>)
    requires op in db.operations && Recovering(db.operations[op]) && db.operations[op].recovery.PENDING?
    requires !fetched.Unauthorized?
    modifies db
    ensures db.lease == old(db.lease) && db.terminal == old(db.terminal)
    ensures db.operations == old(db.operations)[op := Attempted(old(db.operations)[op], fetched, instant)]
    ensures tag == if fetched.Transient? then None else if fetched.Verified? then Some(Recovered) else Some(AttentionNeeded)
  {
    hide Backoff;
    var row := db.operations[op];
    if fetched.Transient? {
      db.ScheduleResolutionRecovery(op, instant + Backoff(row.attempts + 1));
      tag := None;
    } else if fetched.Verified? {
      var attached := db.AttachFinalResolution(op, fetched.resolution);
      tag := Some(Recovered);
    } else {
      db.FlagResolutionRecovery(op);
      tag := Some(AttentionNeeded);
    }
  }

  /** How many of these fetches came to a conclusion. */
  function Concluded(ids: seq<Id>, fetch: Id -> Fetch): nat {
    if |ids| == 0 then 0 else Concluded(ids[..|ids| - 1], fetch) + if fetch(ids[|ids| - 1]).Transient? then 0 else 1
  }

  lemma OneMoreConcluded(ids: seq<Id>, i: nat, fetch: Id -> Fetch)
    requires i < |ids|
    ensures Concluded(ids[..i + 1], fetch) == Concluded(ids[..i], fetch) + if fetch(ids[i]).Transient? then 0 else 1
  {
    assert ids[..i + 1][..i] == ids[..i];
  }

  /** Attempt one listing after another; an authorization error stops the round. */
  method RecoverListed(db: Database, fetch: Id -> Fetch, ids: seq<Id>, instant: int)
    returns (ok: bool, summary: Summary, ghost attempted: nat)
    requires Distinct(ids)
    requires forall i | 0 <= i < |ids| ::
               && ids[i] in db.operations && Recovering(db.operations[ids[i]])
               && db.operations[ids[i]].recovery.PENDING?
    modifies db
    ensures attempted <= |ids| && (ok <==> attempted == |ids|)
    ensures forall i | 0 <= i < attempted :: !fetch(ids[i]).Unauthorized?
    ensures !ok ==> fetch(ids[attempted]).Unauthorized?
    ensures ok ==> Counted(summary) == Concluded(ids, fetch)
    ensures db.lease == old(db.lease) && db.terminal == old(db.terminal)
    ensures Rewritten(old(db.operations), db.operations, ids[..attempted], ByFetch(fetch, instant))
  {
    ghost var before, f := db.operations, ByFetch(fetch, instant);
    summary := map[];
    NothingCounted();
    NothingRewritten(before, ids, f);
    hide Attempted, Counted, Bump, Recovering, Rewritten;
    for i := 0 to |ids|
      invariant db.lease == old(db.lease) && db.terminal == old(db.terminal)
      invariant Counted(summary) == Concluded(ids[..i], fetch)
      invariant forall j | 0 <= j < i :: !fetch(ids[j]).Unauthorized?
      invariant Rewritten(before, db.operations, ids[..i], f)
    {
      var op := ids[i];
      NextRewritten(before, db.operations, ids, i, f);
      OneMoreConcluded(ids, i, fetch);
      if fetch(op).Unauthorized? {
        ok, attempted := false, i;
        return;
      }
      var tag := RecoverOne(db, op, fetch(op), instant);
      if tag.Some? {
        BumpCounts(summary, tag.value);
        summary := Bump(summary, tag.value);
      }
    }
    assert ids[..|ids|] == ids;
    ok, attempted := true, |ids|;
  }

  /** Fetch the resolutions that final operations miss. */
  method RecoverFinal(db: Database, fetch: Id -> Fetch, instant: int, limit: nat)
    returns (ok: bool, summary: Summary, ghost ids: seq<Id>, ghost attempted: nat)
    modifies db
    ensures Listed(old(db.operations), ids, AwaitingOps(old(db.operations), old(db.terminal), instant), RecoveryLimit(limit))
    ensures attempted <= |ids| && (ok <==> attempted == |ids|)
    ensures forall i | 0 <= i < attempted :: !fetch(ids[i]).Unauthorized?
    ensures !ok ==> fetch(ids[attempted]).Unauthorized?
    ensures ok ==> Counted(summary) == Concluded(ids, fetch)
    ensures db.lease == old(db.lease) && db.terminal == old(db.terminal)
    ensures Rewritten(old(db.operations), db.operations, ids[..attempted], ByFetch(fetch, instant))
  {
    hide Attempted, Counted, Rewritten, Concluded;
    var listed := db.ListRecoveryCandidates(instant, limit);
    ids := listed;
    assert Distinct(listed);
    ok, summary, attempted := RecoverListed(db, fetch, listed, instant);
  }

  // ---------------------------------------------------------------------------------------------
  // A whole round

  /** What a round went through: the batch and how much of it was applied, the listing and how much of it was attempted. */
  datatype Round = Round(batch: seq<Id>, applied: nat, listed: seq<Id>, attempted: nat)

  function RecoveryLimit(limit: nat): nat {
    if limit < 100 then limit else 100
  }

  /** A manual round looks again at what needed attention. */
  function Rearmed(o: Operation, manual: bool): Operation {
    if manual && Recovering(o) && o.recovery.ATTENTION_REQUIRED? then o.(recovery := PENDING) else o
  }

  function AllRearmed(operations: map<Id, Operation>, manual: bool): map<Id, Operation> {
    map op | op in operations :: Rearmed(operations[op], manual)
  }

  /** The batch is what was due; the listing is what awaited its resolution, and is empty after a failed batch. */
  ghost predicate RoundOk(s: Store, round: Round, instant: int, limit: nat, manual: bool, answer: Option<seq<Result>>,
                          fetch: Id -> Fetch)
  {
    && Listed(s.operations, round.batch, DueOps(s.operations, s.terminal, instant), limit)
    && Listed(AllRearmed(s.operations, manual), round.listed,
              if BatchFails(round.batch, answer) then {}
              else AwaitingOps(AllRearmed(s.operations, manual), s.terminal, instant), RecoveryLimit(limit))
    && round.applied <= |round.batch| && round.attempted <= |round.listed|
    && (answer.Some? ==>
          && (forall i | 0 <= i < round.applied :: Complete(FirstResult(answer.value, round.batch[i])))
          && (round.applied < |round.batch| ==> !Complete(FirstResult(answer.value, round.batch[round.applied]))))
    && (answer.None? ==> round.applied == |round.batch|)
    && (forall i | 0 <= i < round.attempted :: !fetch(round.listed[i]).Unauthorized?)
    && (round.attempted < |round.listed| ==> fetch(round.listed[round.attempted]).Unauthorized?)
  }

  /** There is something to send, and no answer comes back, or one that misses a resolution. */
  ghost predicate BatchFails(batch: seq<Id>, answer: Option<seq<Result>>) {
    batch != [] && (answer.None? || exists i | 0 <= i < |batch| :: !Complete(FirstResult(answer.value, batch[i])))
  }

  /** What a round leaves of an operation. */
  ghost function RoundRow(o: Operation, op: Id, round: Round, instant: int, manual: bool, answer: Option<seq<Result>>,
                          fetch: Id -> Fetch): Operation
    requires round.applied <= |round.batch| && round.attempted <= |round.listed|
  {
    if op in round.batch[..round.applied] then
      if answer.None? then Retried(o, NETWORK_ERROR, instant) else Planned(o, FirstResult(answer.value, op), instant)
    else if op in round.listed[..round.attempted] then Attempted(Rearmed(o, manual), fetch(op), instant)
    else Rearmed(o, manual)
  }

  ghost predicate RoundDone(s: Store, after: map<Id, Operation>, round: Round, instant: int, limit: nat, manual: bool,
                            answer: Option<seq<Result>>, fetch: Id -> Fetch)
  {
    && RoundOk(s, round, instant, limit, manual, answer, fetch)
    && after.Keys == s.operations.Keys
    && forall op | op in after :: after[op] == RoundRow(s.operations[op], op, round, instant, manual, answer, fetch)
  }

  /** Rearming touches no operation that is due. */
  lemma RearmedDue(operations: map<Id, Operation>, terminal: Option<Id>, instant: int, manual: bool, batch: seq<Id>, limit: nat)
    requires Listed(AllRearmed(operations, manual), batch, DueOps(AllRearmed(operations, manual), terminal, instant), limit)
    ensures Listed(operations, batch, DueOps(operations, terminal, instant), limit)
    ensures forall op | op in batch :: op in operations && operations[op].state.LOCALLY_ACCEPTED?
    ensures forall op | op in batch :: Rearmed(operations[op], manual) == operations[op]
  {
    assert DueOps(AllRearmed(operations, manual), terminal, instant) == DueOps(operations, terminal, instant);
  }

  /** What a batch settles does not await a resolution, and nothing else changes. */
  lemma PlannedIsSettled(o: Operation, r: Option<Result>, instant: int, terminal: Option<Id>)
    requires o.state.LOCALLY_ACCEPTED? && Complete(r)
    ensures !AwaitsResolution(Planned(o, r, instant), terminal, instant)
  {
    hide Backoff;
  }

  lemma SettledBatch(before: map<Id, Operation>, after: map<Id, Operation>, batch: seq<Id>, results: seq<Result>, instant: int,
                     terminal: Option<Id>, ids: seq<Id>, limit: nat)
    requires Rewritten(before, after, batch, ByResults(results, instant))
    requires forall op | op in batch :: op in before && before[op].state.LOCALLY_ACCEPTED?
    requires forall op | op in batch :: Complete(FirstResult(results, op))
    requires Listed(after, ids, AwaitingOps(after, terminal, instant), limit)
    ensures Listed(before, ids, AwaitingOps(before, terminal, instant), limit)
    ensures forall op | op in ids :: op !in batch
  {
    forall op | op in batch
      ensures op !in AwaitingOps(after, terminal, instant) && op !in AwaitingOps(before, terminal, instant)
    {
      PlannedIsSettled(before[op], FirstResult(results, op), instant, terminal);
    }
    assert AwaitingOps(after, terminal, instant) == AwaitingOps(before, terminal, instant);
  }

  function Merge(a: Summary, b: Summary): Summary {
    map tag | tag in a.Keys + b.Keys :: (if tag in a then a[tag] else 0) + (if tag in b then b[tag] else 0)
  }

  lemma MergeCounts(a: Summary, b: Summary)
    ensures Counted(Merge(a, b)) == Counted(a) + Counted(b)
  {
    var keys := a.Keys + b.Keys;
    assert Merge(a, b).Keys == keys;
    SumRestrict(keys, a.Keys, CountOf(a));
    SumRestrict(keys, b.Keys, CountOf(b));
    SumPlus(keys, CountOf(a), CountOf(b), CountOf(Merge(a, b)));
  }

  /** The network failed, or an answer was refused: nothing was recovered. */
  lemma FailedRound(s: Store, after: map<Id, Operation>, round: Round, instant: int, limit: nat, manual: bool,
                    answer: Option<seq<Result>>, fetch: Id -> Fetch)
    requires Listed(s.operations, round.batch, DueOps(s.operations, s.terminal, instant), limit)
    requires round.batch != [] && round.applied <= |round.batch| && round.listed == [] && round.attempted == 0
    requires forall op | op in round.batch :: op in s.operations && Rearmed(s.operations[op], manual) == s.operations[op]
    requires answer.None? ==> round.applied == |round.batch|
    requires answer.Some? ==>
               && round.applied < |round.batch| && !Complete(FirstResult(answer.value, round.batch[round.applied]))
               && forall i | 0 <= i < round.applied :: Complete(FirstResult(answer.value, round.batch[i]))
    requires Rewritten(AllRearmed(s.operations, manual), after, round.batch[..round.applied],
                       if answer.None? then ByFailure(instant) else ByResults(answer.value, instant))
    ensures RoundDone(s, after, round, instant, limit, manual, answer, fetch)
  {
    hide Rearmed, Retried, Planned, Attempted, Complete, FirstResult;
  }

  /** The batch was applied whole, and the recovery got as far as an authorization error let it. */
  lemma WholeRound(s: Store, mid: map<Id, Operation>, after: map<Id, Operation>, round: Round, instant: int, limit: nat,
                   manual: bool, answer: Option<seq<Result>>, fetch: Id -> Fetch)
    requires Listed(s.operations, round.batch, DueOps(s.operations, s.terminal, instant), limit)
    requires round.applied == |round.batch| && round.attempted <= |round.listed| && (round.batch == [] || answer.Some?)
    requires forall op | op in round.batch ::
               && op in s.operations && s.operations[op].state.LOCALLY_ACCEPTED?
               && Rearmed(s.operations[op], manual) == s.operations[op]
    requires answer.Some? ==> forall i | 0 <= i < |round.batch| :: Complete(FirstResult(answer.value, round.batch[i]))
    requires Rewritten(AllRearmed(s.operations, manual), mid, round.batch,
                       ByResults(if answer.Some? then answer.value else [], instant))
    requires Listed(mid, round.listed, AwaitingOps(mid, s.terminal, instant), RecoveryLimit(limit))
    requires forall i | 0 <= i < round.attempted :: !fetch(round.listed[i]).Unauthorized?
    requires round.attempted < |round.listed| ==> fetch(round.listed[round.attempted]).Unauthorized?
    requires Rewritten(mid, after, round.listed[..round.attempted], ByFetch(fetch, instant))
    ensures RoundDone(s, after, round, instant, limit, manual, answer, fetch)
  {
    hide Rearmed, Retried, Planned, Attempted, Complete, FirstResult, Listed, AwaitingOps;
    var results := if answer.Some? then answer.value else [];
    var armed := AllRearmed(s.operations, manual);
    assert forall op | op in round.batch :: op in armed && armed[op].state.LOCALLY_ACCEPTED?;
    SettledBatch(armed, mid, round.batch, results, instant, s.terminal, round.listed, RecoveryLimit(limit));
    assert round.batch[..round.applied] == round.batch;
    assert forall op | op in round.listed[..round.attempted] :: op in round.listed;
  }

  /** What a round does while it has the lease. */
  method Reconcile(db: Database, instant: int, limit: nat, manual: bool, answer: Option<seq<Result>>, fetch: Id -> Fetch)
    returns (outcome: Outcome, ghost round: Round)
    requires StoreOk(db.State())
    modifies db
    ensures db.lease == old(db.lease) && db.terminal == old(db.terminal)
    ensures RoundDone(old(db.State()), db.operations, round, instant, limit, manual, answer, fetch)
    ensures round.attempted <= |round.listed|
    ensures !outcome.Busy? && (outcome.Raised? <==> BatchFails(round.batch, answer) || round.attempted < |round.listed|)
    ensures outcome.Done? ==> Counted(outcome.summary) == |round.batch| + Concluded(round.listed, fetch)
  {
    hide StoreOk, Complete, Planned, Attempted, Retried, Counted, FirstResult, Rewritten, RoundDone, Concluded, Merge, Due,
         AwaitsResolution, Rearmed;
    ghost var start, armed := db.State(), AllRearmed(db.operations, manual);
    if manual {
      db.RetryAttentionResolutions();
    }
    Armed(start, manual);
    assert db.operations == armed;
    var candidates := db.ListSyncCandidates(instant, limit);
    RearmedDue(start.operations, start.terminal, instant, manual, candidates, limit);
    assert Distinct(candidates);
    var summary: Summary := map[];
    NothingCounted();
    NothingRewritten(armed, candidates, ByResults(if answer.Some? then answer.value else [], instant));
    assert candidates == [] ==> candidates[..0] == candidates;
    if candidates != [] {
      if answer.None? {
        RetryAll(db, candidates, instant);
        outcome, round := Raised, Round(candidates, |candidates|, [], 0);
        assert candidates[..|candidates|] == candidates;
        FailedRound(start, db.operations, round, instant, limit, manual, answer, fetch);
        return;
      }
      var ok, counts, applied := ApplyBatch(db, candidates, answer.value, instant);
      if !ok {
        outcome, round := Raised, Round(candidates, applied, [], 0);
        FailedRound(start, db.operations, round, instant, limit, manual, answer, fetch);
        return;
      }
      assert candidates[..|candidates|] == candidates;
      summary := counts;
    }
    ghost var mid := db.operations;
    var recovered, more, listed, attempted := RecoverFinal(db, fetch, instant, limit);
    round := Round(candidates, |candidates|, listed, attempted);
    WholeRound(start, mid, db.operations, round, instant, limit, manual, answer, fetch);
    MergeCounts(summary, more);
    outcome := if recovered then Done(Merge(summary, more)) else Raised;
  }

  lemma Armed(s: Store, manual: bool)
    ensures (if manual then After(s, RetryAttention) else s) == s.(operations := AllRearmed(s.operations, manual))
  {
    assert After(s, RetryAttention).operations == AllRearmed(s.operations, true);
    assert s.operations == AllRearmed(s.operations, false);
  }

  /** One round: take the lease, reconcile the due operations in one batch, recover what misses its resolution, and
    give the lease back however the round ends. */
  method SyncDue(db: Database, owner: Id, instant: int, limit: nat, manual: bool, answer: Option<seq<Result>>,
                 fetch: Id -> Fetch) returns (outcome: Outcome, ghost round: Round)
    requires StoreOk(db.State())
    modifies db
    ensures outcome.Busy? <==> old(db.lease.Some? && db.lease.value.owner != owner && db.lease.value.expires > instant)
    ensures outcome.Busy? ==> db.State() == old(db.State())
    ensures !outcome.Busy? ==> db.lease == None && db.terminal == old(db.terminal)
    ensures !outcome.Busy? ==> RoundDone(old(db.State()), db.operations, round, instant, limit, manual, answer, fetch)
    ensures outcome.Raised? ==> BatchFails(round.batch, answer) || round.attempted < |round.listed|
    ensures outcome.Done? ==>
              && !BatchFails(round.batch, answer) && round.attempted == |round.listed|
              && Counted(outcome.summary) == |round.batch| + Concluded(round.listed, fetch)
  {
    hide RoundOk, RoundRow, BatchFails, Concluded, Counted;
    ghost var start := db.State();
    var acquired := db.TryAcquireSyncLock(owner, instant, instant + 300);
    if !acquired {
      db.ReleaseSyncLock(owner);
      outcome, round := Busy, Round([], 0, [], 0);
      return;
    }
    ghost var leased := db.State();
    outcome, round := Reconcile(db, instant, limit, manual, answer, fetch);
    SameButLease(start, leased, db.operations, round, instant, limit, manual, answer, fetch);
    db.ReleaseSyncLock(owner);
  }

  lemma SameButLease(s: Store, leased: Store, after: map<Id, Operation>, round: Round, instant: int, limit: nat, manual: bool,
                     answer: Option<seq<Result>>, fetch: Id -> Fetch)
    requires RoundDone(leased, after, round, instant, limit, manual, answer, fetch)
    requires leased == s.(lease := leased.lease)
    ensures RoundDone(s, after, round, instant, limit, manual, answer, fetch)
    ensures round.attempted <= |round.listed|
  {
    hide RoundRow, Listed, BatchFails, Complete, FirstResult, AllRearmed, DueOps, AwaitingOps;
  }

  /** However it ends, a round keeps every row good and takes no operation back. */
  lemma RoundAdvances(s: Store, after: map<Id, Operation>, round: Round, instant: int, limit: nat, manual: bool,
                      answer: Option<seq<Result>>, fetch: Id -> Fetch)
    requires StoreOk(s) && RoundDone(s, after, round, instant, limit, manual, answer, fetch)
    ensures StoreOk(s.(operations := after, lease := None)) && Advances(s, s.(operations := after, lease := None))
  {
    hide RowOk, RowAdvances, RoundRow, RoundOk;
    RowsOk(s);
    forall op | op in after
      ensures RowOk(after[op]) && RowAdvances(s.operations[op], after[op])
    {
      RoundRowAdvances(s, op, round, instant, limit, manual, answer, fetch);
    }
    assert forall op | op in after :: RowAdvances(s.operations[op], after[op]);
    SameNonces(s, after);
  }

  lemma SameNonces(s: Store, after: map<Id, Operation>)
    requires StoreOk(s) && after.Keys == s.operations.Keys
    requires forall op | op in after :: RowOk(after[op]) && RowAdvances(s.operations[op], after[op])
    ensures StoreOk(s.(operations := after, lease := None))
  {
    hide RowOk;
  }

  lemma RetriedAdvances(o: Operation, instant: int)
    requires RowOk(o) && o.state.LOCALLY_ACCEPTED?
    ensures RowOk(Retried(o, NETWORK_ERROR, instant)) && RowAdvances(o, Retried(o, NETWORK_ERROR, instant))
  {
    hide Backoff;
  }

  lemma PlannedAdvances(o: Operation, r: Option<Result>, instant: int)
    requires RowOk(o) && o.state.LOCALLY_ACCEPTED? && Complete(r)
    ensures RowOk(Planned(o, r, instant)) && RowAdvances(o, Planned(o, r, instant))
  {
    hide Backoff;
  }

  lemma AttemptedAdvances(o: Operation, fetched: Fetch, instant: int, manual: bool)
    requires RowOk(o) && Recovering(Rearmed(o, manual))
    ensures RowOk(Attempted(Rearmed(o, manual), fetched, instant)) && RowAdvances(o, Attempted(Rearmed(o, manual), fetched, instant))
  {
    hide Backoff;
  }

  lemma RearmedAdvances(o: Operation, manual: bool)
    requires RowOk(o)
    ensures RowOk(Rearmed(o, manual)) && RowAdvances(o, Rearmed(o, manual))
  {
  }

  lemma RoundRowAdvances(s: Store, op: Id, round: Round, instant: int, limit: nat, manual: bool, answer: Option<seq<Result>>,
                         fetch: Id -> Fetch)
    requires RoundOk(s, round, instant, limit, manual, answer, fetch) && op in s.operations && RowOk(s.operations[op])
    ensures var after := RoundRow(s.operations[op], op, round, instant, manual, answer, fetch);
            RowOk(after) && RowAdvances(s.operations[op], after)
  {
    hide FirstResult, Backoff, BatchFails, RowOk, RowAdvances, Planned, Retried, Attempted, Rearmed, Complete;
    var o := s.operations[op];
    if op in round.batch[..round.applied] {
      var i :| 0 <= i < round.applied && round.batch[i] == op;
      assert op in DueOps(s.operations, s.terminal, instant);
      if answer.None? {
        RetriedAdvances(o, instant);
      } else {
        PlannedAdvances(o, FirstResult(answer.value, op), instant);
      }
    } else if op in round.listed[..round.attempted] {
      var i :| 0 <= i < round.attempted && round.listed[i] == op;
      assert Recovering(Rearmed(o, manual));
      AttemptedAdvances(o, fetch(op), instant, manual);
    } else {
      RearmedAdvances(o, manual);
    }
  }
}
