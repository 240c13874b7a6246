/** What the terminal's database calls and sync rounds do to an operation, and that no round leaves anything due. */
module PosTerms {
  import opened Messages
  import opened Utf8
  import opened PosStore
  import opened PosDatabase
  import opened PosSync

  // ---------------------------------------------------------------------------------------------
  // Calls

  /** The row of an operation after a call on it, when the call succeeds. */
  predicate Becomes(s: Store, c: Call, op: Id, o: Operation) {
    Perform(s, c) == Some(s.(operations := s.operations[op := o]))
  }

  /** A request is stored once; stored again it changes nothing; another request, or its nonce, is refused. */
  lemma InsertTerms(s: Store, op: Id, terminal: Id, nonce: nat, request: Bytes, now: int)
    ensures
      var c := Insert(op, terminal, nonce, request, now);
      var unused := forall other | other in s.operations :: s.operations[other].nonce != nonce;
      if op in s.operations then Perform(s, c) == (if s.operations[op].request == request then Some(s) else None)
      else if unused then
        Becomes(s, c, op, Operation(terminal, nonce, request, None, None, None, None, PENDING, REQUEST_CREATED, now, 0, None, None))
      else Perform(s, c) == None
  {
  }

  /** A request can be delivered until the phone was seen waiting, and the terminal waits from its delivery on. */
  lemma DeliveryTerms(s: Store, op: Id, now: int)
    requires op in s.operations
    ensures
      var o := s.operations[op];
      && (if o.state in {REQUEST_CREATED, REQUEST_DELIVERED} then
            Becomes(s, MarkDelivered(op, now), op, o.(state := REQUEST_DELIVERED, updated := now))
          else Perform(s, MarkDelivered(op, now)) == None)
      && (if o.state in {REQUEST_DELIVERED, WAITING_CONFIRMATION} then
            Becomes(s, MarkWaiting(op, now), op, o.(state := WAITING_CONFIRMATION, updated := now))
          else Perform(s, MarkWaiting(op, now)) == None)
  {
  }

  /** Evidence is taken between delivery and acceptance, once, and again only if it is the same. */
  lemma EvidenceTerms(s: Store, op: Id, authorization: Bytes, receipt: Bytes, ack: Bytes, now: int)
    requires op in s.operations
    ensures
      var o := s.operations[op];
      var open := o.state in {REQUEST_DELIVERED, WAITING_CONFIRMATION};
      && (if open && (o.authorization == None || o.authorization == Some(authorization)) then
            Becomes(s, SetAuthorization(op, authorization, now), op, o.(authorization := Some(authorization), updated := now))
          else Perform(s, SetAuthorization(op, authorization, now)) == None)
      && (if o.receipt == None && open then
            Becomes(s, AcceptEvidence(op, receipt, ack, now), op,
                    o.(receipt := Some(receipt), ack := Some(ack), state := LOCALLY_ACCEPTED, updated := now))
          else if o.receipt == Some(receipt) && o.ack == Some(ack) then Perform(s, AcceptEvidence(op, receipt, ack, now)) == Some(s)
          else Perform(s, AcceptEvidence(op, receipt, ack, now)) == None)
  {
  }

  /** The state a status leads to. */
  predicate Leads(status: SyncStatus, state: PosState) {
    match status
    case ACCEPTED => state == SYNCED
    case REJECTED_BY_BACKEND => state == PosState.REJECTED
    case CONFLICTING => state == CONFLICT
    case PENDING_EVIDENCE => state == LOCALLY_ACCEPTED
    case RETRYABLE_ERROR => state == LOCALLY_ACCEPTED
  }

  /** What a result makes of an operation: its state, its resolution if it ended, one more attempt if it did not, and
    nothing else. */
  predicate Resulted(o: Operation, p: Operation, status: SyncStatus, code: Option<nat>, now: int, next: Option<int>,
                     resolution: Option<Bytes>)
  {
    && Leads(status, p.state) && p.updated == now && p.nextSync == next && p.error == code
    && p.attempts == o.attempts + (if p.state == LOCALLY_ACCEPTED then 1 else 0)
    && (if status == ACCEPTED || status == REJECTED_BY_BACKEND then
          p.recovery == COMPLETE && p.resolution == (if o.resolution == None then resolution else o.resolution)
        else p.recovery == o.recovery && p.resolution == o.resolution)
    && p.terminal == o.terminal && p.nonce == o.nonce && p.request == o.request && p.authorization == o.authorization
    && p.receipt == o.receipt && p.ack == o.ack
  }

  /** A result is applied to a locally accepted operation, and a final one only with its resolution. */
  lemma ResultTerms(s: Store, op: Id, status: SyncStatus, code: Option<nat>, now: int, next: Option<int>, resolution: Option<Bytes>)
    ensures
      var after := Perform(s, ApplyResult(op, status, code, now, next, resolution));
      && (after.Some? <==>
            && op in s.operations && s.operations[op].state == LOCALLY_ACCEPTED
            && (status == ACCEPTED || status == REJECTED_BY_BACKEND ==> resolution.Some? && resolution.value != []))
      && (after.Some? ==>
            && op in after.value.operations && after.value == s.(operations := s.operations[op := after.value.operations[op]])
            && Resulted(s.operations[op], after.value.operations[op], status, code, now, next, resolution))
  {
  }

  /** A recovered resolution is attached once, to an operation that ended without it and is not set aside. */
  lemma RecoveryTerms(s: Store, op: Id, recovered: Bytes, retryAt: int)
    requires op in s.operations
    ensures
      var o := s.operations[op];
      var missing := (o.state == SYNCED || o.state == PosState.REJECTED) && o.resolution == None;
      && (if missing && o.recovery == PENDING then
            && Becomes(s, AttachResolution(op, recovered), op,
                       o.(resolution := Some(recovered), recovery := COMPLETE, nextSync := None))
            && Becomes(s, ScheduleRecovery(op, retryAt), op, o.(attempts := o.attempts + 1, nextSync := Some(retryAt)))
          else Perform(s, AttachResolution(op, recovered)) == None && Perform(s, ScheduleRecovery(op, retryAt)) == Some(s))
      && (if missing then Becomes(s, FlagRecovery(op), op, o.(recovery := ATTENTION_REQUIRED, nextSync := None))
          else Perform(s, FlagRecovery(op)) == Some(s))
  {
  }

  /** The lease goes to anybody when nobody else holds it, and is given back only by its owner. */
  lemma LeaseTerms(s: Store, owner: Id, now: int, expires: int)
    ensures
      var held := s.lease.Some? && s.lease.value.owner != owner && now < s.lease.value.expires;
      && Perform(s, Acquire(owner, now, expires)) == (if held then None else Some(s.(lease := Some(Lease(owner, expires)))))
      && Perform(s, Release(owner)) ==
           Some(if s.lease.Some? && s.lease.value.owner == owner then s.(lease := None) else s)
  {
  }

  // ---------------------------------------------------------------------------------------------
  // Waiting between attempts

  lemma {:induction false} PowerDoubles(n: nat)
    ensures Pow2(n) >= 1 && (n >= 8 ==> Pow2(n) >= 256)
  {
    if n > 0 {
      PowerDoubles(n - 1);
      if n == 8 {
        assert Pow2(8) == 256 by {
          assert Pow2(4) == 16;
        }
      }
    }
  }

  /** Fifteen seconds, doubled by every attempt, and never more than an hour. */
  lemma BackoffTerms(n: nat)
    ensures 15 <= Backoff(n) <= 3600 && Backoff(0) == Backoff(1) == 15
    ensures 1 <= n <= 7 ==> Backoff(n + 1) == 2 * Backoff(n)
    ensures n >= 9 ==> Backoff(n) == 3600
    ensures Backoff(8) == 1920
  {
    if n >= 9 {
      PowerDoubles(n - 1);
    } else if n >= 1 {
      PowerDoubles(n - 1);
      SmallPowers();
    }
    SmallPowers();
  }

  lemma SmallPowers()
    ensures Pow2(0) == 1 && Pow2(1) == 2 && Pow2(2) == 4 && Pow2(3) == 8 && Pow2(4) == 16 && Pow2(5) == 32 && Pow2(6) == 64
    ensures Pow2(7) == 128
  {
    assert Pow2(3) == 8;
    assert Pow2(6) == 64;
  }

  // ---------------------------------------------------------------------------------------------
  // Rounds

  /** The first line of the answer with a known status for the operation. */
  predicate AnswersFirst(results: seq<Result>, op: Id, i: nat) {
    && i < |results| && results[i].op == op && results[i].status.Some?
    && forall j | 0 <= j < i :: !(results[j].op == op && results[j].status.Some?)
  }

  lemma {:induction false} FirstTerms(results: seq<Result>, op: Id, i: nat)
    ensures AnswersFirst(results, op, i) ==> FirstResult(results, op) == Some(results[i])
    ensures (forall j | 0 <= j < |results| :: !(results[j].op == op && results[j].status.Some?)) ==> FirstResult(results, op) == None
    decreases |results|
  {
    if |results| > 0 {
      if i > 0 {
        assert AnswersFirst(results, op, i) ==> AnswersFirst(results[1..], op, i - 1);
      }
      FirstTerms(results[1..], op, if i > 0 then i - 1 else 0);
    }
  }

  /** A candidate of a round takes its result, or waits for another attempt, at most an hour later. */
  predicate Answered(o: Operation, p: Operation, r: Option<Result>, instant: int) {
    if r.Some? && r.value.status.Some? then
      && Resulted(o, p, r.value.status.value, r.value.code, instant, p.nextSync, r.value.resolution)
      && (if p.state == LOCALLY_ACCEPTED then Later(p.nextSync, instant) else p.nextSync == None)
    else Resulted(o, p, RETRYABLE_ERROR, Some(MISSING_RESULT), instant, p.nextSync, None) && Later(p.nextSync, instant)
  }

  predicate Later(next: Option<int>, instant: int) {
    next.Some? && instant + 15 <= next.value <= instant + 3600
  }

  lemma PlannedTerms(o: Operation, r: Option<Result>, instant: int)
    ensures Answered(o, Planned(o, r, instant), r, instant)
  {
    BackoffTerms(o.attempts + 1);
    hide Backoff;
  }

  lemma RetriedTerms(o: Operation, instant: int)
    ensures Resulted(o, Retried(o, NETWORK_ERROR, instant), RETRYABLE_ERROR, Some(NETWORK_ERROR), instant,
                     Retried(o, NETWORK_ERROR, instant).nextSync, None)
    ensures Later(Retried(o, NETWORK_ERROR, instant).nextSync, instant)
  {
    BackoffTerms(o.attempts + 1);
    hide Backoff;
  }

  /** What a fetch makes of an operation that misses its resolution. */
  lemma AttemptTerms(o: Operation, fetched: Fetch, instant: int)
    ensures
      var p := Attempted(o, fetched, instant);
      match fetched
      case Unauthorized => p == o
      case Verified(resolution) => p == o.(resolution := Some(resolution), recovery := COMPLETE, nextSync := None)
      case Transient =>
        p == o.(attempts := o.attempts + 1, nextSync := p.nextSync) && Later(p.nextSync, instant)
      case _ => p == o.(recovery := ATTENTION_REQUIRED, nextSync := None)
  {
    BackoffTerms(o.attempts + 1);
    hide Backoff;
  }

  /** The operation has evidence to send, belongs to the terminal, and its time has come. */
  predicate ToSend(o: Operation, terminal: Option<Id>, now: int) {
    && o.state == LOCALLY_ACCEPTED && o.authorization != None && (terminal == None || terminal == Some(o.terminal))
    && match o.nextSync
       case None => true
       case Some(t) => t <= now
  }

  /** The operation ended without its resolution, and its time has come. */
  predicate ToRecover(o: Operation, terminal: Option<Id>, now: int) {
    && (o.state == SYNCED || o.state == PosState.REJECTED) && o.resolution == None && o.recovery == PENDING
    && o.authorization != None && (terminal == None || terminal == Some(o.terminal))
    && match o.nextSync
       case None => true
       case Some(t) => t <= now
  }

  lemma DueTerms(o: Operation, terminal: Option<Id>, now: int)
    ensures Due(o, terminal, now) <==> ToSend(o, terminal, now)
    ensures AwaitsResolution(o, terminal, now) <==> ToRecover(o, terminal, now)
  {
  }

  /** A listing that its limit does not cut has everything. */
  lemma UncutListing(operations: map<Id, Operation>, ids: seq<Id>, eligible: set<Id>, limit: nat)
    requires eligible <= operations.Keys && Listed(operations, ids, eligible, limit) && |operations| <= limit
    ensures forall op | op in eligible :: op in ids
  {
    if op :| op in eligible && op !in ids {
      var listed := set i | 0 <= i < |ids| :: ids[i];
      DistinctSize(ids, listed);
      assert op in operations.Keys;
      assert listed < operations.Keys;
      ProperSubset(listed, operations.Keys);
    }
  }

  lemma ProperSubset(a: set<Id>, b: set<Id>)
    requires a < b
    ensures |a| < |b|
  {
    var x :| x in b && x !in a;
    assert a <= b - {x};
    SubsetSize(a, b - {x});
  }

  lemma SubsetSize(a: set<Id>, b: set<Id>)
    requires a <= b
    ensures |a| <= |b|
  {
    if a != {} {
      var x :| x in a;
      SubsetSize(a - {x}, b - {x});
    }
  }

  lemma {:induction false} DistinctSize(ids: seq<Id>, listed: set<Id>)
    requires listed == set i | 0 <= i < |ids| :: ids[i]
    requires forall i, j | 0 <= i < j < |ids| :: ids[i] != ids[j]
    ensures |listed| == |ids|
  {
    if |ids| > 0 {
      var last, rest := ids[|ids| - 1], ids[..|ids| - 1];
      var fewer := set i | 0 <= i < |rest| :: rest[i];
      DistinctSize(rest, fewer);
      assert listed == fewer + {last};
    }
  }

  /** A round whose limit cuts nothing and whose answer was complete leaves nothing to send; if no fetch was unauthorized,
    it leaves nothing to recover. */
  lemma NothingLeftDue(s: Store, after: map<Id, Operation>, round: Round, instant: int, limit: nat, manual: bool,
                       answer: Option<seq<Result>>, fetch: Id -> Fetch)
    requires RoundDone(s, after, round, instant, limit, manual, answer, fetch)
    requires |s.operations| <= limit && round.applied == |round.batch|
    ensures forall op | op in after :: !ToSend(after[op], s.terminal, instant)
    ensures |s.operations| <= 100 && !BatchFails(round.batch, answer) && round.attempted == |round.listed| ==>
              forall op | op in after :: !ToRecover(after[op], s.terminal, instant)
  {
    UncutListing(s.operations, round.batch, DueOps(s.operations, s.terminal, instant), limit);
    assert round.batch[..round.applied] == round.batch;
    forall op | op in after
      ensures !ToSend(after[op], s.terminal, instant)
    {
      SentOrLater(s, after, round, instant, limit, manual, answer, fetch, op);
    }
    if |s.operations| <= 100 && !BatchFails(round.batch, answer) && round.attempted == |round.listed| {
      var armed := AllRearmed(s.operations, manual);
      assert armed.Keys == s.operations.Keys;
      assert |armed| == |armed.Keys| && |s.operations| == |s.operations.Keys|;
      UncutListing(armed, round.listed, AwaitingOps(armed, s.terminal, instant), RecoveryLimit(limit));
      assert round.listed[..round.attempted] == round.listed;
      forall op | op in after
        ensures !ToRecover(after[op], s.terminal, instant)
      {
        RecoveredOrLater(s, after, round, instant, limit, manual, answer, fetch, op);
      }
    }
  }

  lemma SentOrLater(s: Store, after: map<Id, Operation>, round: Round, instant: int, limit: nat, manual: bool,
                    answer: Option<seq<Result>>, fetch: Id -> Fetch, op: Id)
    requires RoundDone(s, after, round, instant, limit, manual, answer, fetch) && op in after
    requires round.batch[..round.applied] == round.batch
    requires forall o | o in DueOps(s.operations, s.terminal, instant) :: o in round.batch
    ensures !ToSend(after[op], s.terminal, instant)
  {
    var o := s.operations[op];
    DueTerms(o, s.terminal, instant);
    if op in round.batch {
      if answer.None? {
        RetriedTerms(o, instant);
      } else {
        PlannedTerms(o, FirstResult(answer.value, op), instant);
      }
    } else {
      AttemptTerms(Rearmed(o, manual), fetch(op), instant);
    }
    hide RoundOk, Planned, Retried, Attempted, FirstResult, Backoff;
  }

  lemma RecoveredOrLater(s: Store, after: map<Id, Operation>, round: Round, instant: int, limit: nat, manual: bool,
                         answer: Option<seq<Result>>, fetch: Id -> Fetch, op: Id)
    requires RoundDone(s, after, round, instant, limit, manual, answer, fetch) && op in after
    requires round.batch[..round.applied] == round.batch && round.listed[..round.attempted] == round.listed
    requires !BatchFails(round.batch, answer)
    requires forall i | 0 <= i < |round.listed| :: !fetch(round.listed[i]).Unauthorized?
    requires forall o | o in AwaitingOps(AllRearmed(s.operations, manual), s.terminal, instant) :: o in round.listed
    ensures !ToRecover(after[op], s.terminal, instant)
  {
    var o := s.operations[op];
    DueTerms(Rearmed(o, manual), s.terminal, instant);
    if op in round.batch {
      var i :| 0 <= i < |round.batch| && round.batch[i] == op;
      assert op in DueOps(s.operations, s.terminal, instant);
      if answer.None? {
        RetriedTerms(o, instant);
      } else {
        assert Complete(FirstResult(answer.value, op));
        PlannedIsSettled(o, FirstResult(answer.value, op), instant, s.terminal);
        DueTerms(Planned(o, FirstResult(answer.value, op), instant), s.terminal, instant);
      }
    } else if op in round.listed {
      AttemptTerms(Rearmed(o, manual), fetch(op), instant);
    }
    hide Planned, Retried, Attempted, FirstResult, Backoff, Complete;
  }
}
