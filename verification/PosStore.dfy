/** The terminal's durable operations: what each guarded update does to a row, and the sync lease. */
module PosStore {
  import opened Messages
  import opened Utf8

  datatype PosState =
    | REQUEST_CREATED | REQUEST_DELIVERED | WAITING_CONFIRMATION | LOCALLY_ACCEPTED | SYNCED | REJECTED | CONFLICT

  datatype Recovery = PENDING | ATTENTION_REQUIRED | COMPLETE

  datatype SyncStatus = ACCEPTED | REJECTED_BY_BACKEND | CONFLICTING | PENDING_EVIDENCE | RETRYABLE_ERROR

  datatype Operation = Operation(
    terminal: Id, nonce: nat, request: Bytes, authorization: Option<Bytes>, receipt: Option<Bytes>, ack: Option<Bytes>,
    resolution: Option<Bytes>, recovery: Recovery, state: PosState, updated: int, attempts: nat, nextSync: Option<int>,
    error: Option<nat>)

  datatype Lease = Lease(owner: Id, expires: int)

  datatype Store = Store(operations: map<Id, Operation>, lease: Option<Lease>, terminal: Option<Id>)

  datatype Call =
    | Insert(op: Id, terminal: Id, nonce: nat, request: Bytes, now: int)
    | MarkDelivered(op: Id, now: int)
    | MarkWaiting(op: Id, now: int)
    | SetAuthorization(op: Id, envelope: Bytes, now: int)
    | AcceptEvidence(op: Id, receipt: Bytes, ack: Bytes, now: int)
    | ApplyResult(op: Id, status: SyncStatus, code: Option<nat>, now: int, next: Option<int>, resolution: Option<Bytes>)
    | AttachResolution(op: Id, recovered: Bytes)
    | ScheduleRecovery(op: Id, retryAt: int)
    | FlagRecovery(op: Id)
    | RetryAttention
    | Acquire(owner: Id, now: int, expires: int)
    | Release(owner: Id)
    | Provision(terminal: Id)

  predicate FinalState(s: PosState) {
    s.SYNCED? || s.REJECTED?
  }

  predicate FinalStatus(s: SyncStatus) {
    s.ACCEPTED? || s.REJECTED_BY_BACKEND?
  }

  function StateAfter(s: SyncStatus): PosState {
    match s
    case ACCEPTED => SYNCED
    case REJECTED_BY_BACKEND => PosState.REJECTED
    case CONFLICTING => CONFLICT
    case PENDING_EVIDENCE => LOCALLY_ACCEPTED
    case RETRYABLE_ERROR => LOCALLY_ACCEPTED
  }

  function Created(terminal: Id, nonce: nat, request: Bytes, now: int): Operation {
    Operation(terminal, nonce, request, None, None, None, None, PENDING, REQUEST_CREATED, now, 0, None, None)
  }

  predicate Recovering(o: Operation) {
    FinalState(o.state) && o.resolution.None?
  }

  function WithResult(o: Operation, status: SyncStatus, code: Option<nat>, now: int, next: Option<int>,
                      resolution: Option<Bytes>): Operation
  {
    o.(state := StateAfter(status), updated := now,
       attempts := if status.PENDING_EVIDENCE? || status.RETRYABLE_ERROR? then o.attempts + 1 else o.attempts,
       nextSync := next, error := code,
       resolution := if FinalStatus(status) && o.resolution.None? then resolution else o.resolution,
       recovery := if FinalStatus(status) then COMPLETE else o.recovery)
  }

  /** A guarded update of one row: None when the guard matches no row and the caller gets an error. */
  function Update(s: Store, op: Id, allowed: bool, o: Operation): Option<Store> {
    if op in s.operations && allowed then Some(s.(operations := s.operations[op := o])) else None
  }

  predicate NonceUsed(s: Store, nonce: nat) {
    exists o | o in s.operations :: s.operations[o].nonce == nonce
  }

  /** The committed effect of a call; None when it raises and nothing changes. */
  function Perform(s: Store, c: Call): Option<Store> {
    match c
    case Insert(op, terminal, nonce, request, now) =>
      if op in s.operations then if s.operations[op].request == request then Some(s) else None
      else if NonceUsed(s, nonce) then None
      else Some(s.(operations := s.operations[op := Created(terminal, nonce, request, now)]))
    case MarkDelivered(op, now) =>
      if op !in s.operations then None
      else
        var o := s.operations[op];
        Update(s, op, o.state.REQUEST_CREATED? || o.state.REQUEST_DELIVERED?, o.(state := REQUEST_DELIVERED, updated := now))
    case MarkWaiting(op, now) =>
      if op !in s.operations then None
      else
        var o := s.operations[op];
        Update(s, op, o.state.REQUEST_DELIVERED? || o.state.WAITING_CONFIRMATION?,
               o.(state := WAITING_CONFIRMATION, updated := now))
    case SetAuthorization(op, envelope, now) =>
      if op !in s.operations then None
      else
        var o := s.operations[op];
        Update(s, op, (o.state.REQUEST_DELIVERED? || o.state.WAITING_CONFIRMATION?)
                      && (o.authorization.None? || o.authorization.value == envelope),
               o.(authorization := Some(envelope), updated := now))
    case AcceptEvidence(op, receipt, ack, now) =>
      if op !in s.operations then None
      else
        var o := s.operations[op];
        if o.receipt.Some? then
          if o.receipt.value == receipt && o.ack == Some(ack) then Some(s) else None
        else
          Update(s, op, o.state.REQUEST_DELIVERED? || o.state.WAITING_CONFIRMATION?,
                 o.(receipt := Some(receipt), ack := Some(ack), state := LOCALLY_ACCEPTED, updated := now))
    case ApplyResult(op, status, code, now, next, resolution) =>
      if FinalStatus(status) && (resolution.None? || |resolution.value| == 0) then None
      else if op !in s.operations then None
      else
        var o := s.operations[op];
        Update(s, op, o.state.LOCALLY_ACCEPTED?, WithResult(o, status, code, now, next, resolution))
    case AttachResolution(op, resolution) =>
      if op !in s.operations then None
      else
        var o := s.operations[op];
        Update(s, op, Recovering(o) && o.recovery.PENDING?,
               o.(resolution := Some(resolution), recovery := COMPLETE, nextSync := None))
    case ScheduleRecovery(op, next) =>
      if op in s.operations && Recovering(s.operations[op]) && s.operations[op].recovery.PENDING? then
        var o := s.operations[op];
        Some(s.(operations := s.operations[op := o.(attempts := o.attempts + 1, nextSync := Some(next))]))
      else Some(s)
    case FlagRecovery(op) =>
      if op in s.operations && Recovering(s.operations[op]) then
        Some(s.(operations := s.operations[op := s.operations[op].(recovery := ATTENTION_REQUIRED, nextSync := None)]))
      else Some(s)
    case RetryAttention =>
      Some(s.(operations := map op | op in s.operations ::
                              var o := s.operations[op];
                              if Recovering(o) && o.recovery.ATTENTION_REQUIRED? then o.(recovery := PENDING) else o))
    case Acquire(owner, now, expires) =>
      if s.lease.Some? && s.lease.value.owner != owner && s.lease.value.expires > now then None
      else Some(s.(lease := Some(Lease(owner, expires))))
    case Release(owner) =>
      if s.lease.Some? && s.lease.value.owner == owner then Some(s.(lease := None)) else Some(s)
    case Provision(terminal) => Some(s.(terminal := Some(terminal)))
  }

  function After(s: Store, c: Call): Store {
    if Perform(s, c).Some? then Perform(s, c).value else s
  }

  function AfterAll(s: Store, calls: seq<Call>): Store
    decreases |calls|
  {
    if |calls| == 0 then s else AfterAll(After(s, calls[0]), calls[1..])
  }

  // ---------------------------------------------------------------------------------------------
  // The lifecycle of an operation

  function Rank(s: PosState): nat {
    match s
    case REQUEST_CREATED => 0
    case REQUEST_DELIVERED => 1
    case WAITING_CONFIRMATION => 2
    case LOCALLY_ACCEPTED => 3
    case SYNCED => 4
    case REJECTED => 4
    case CONFLICT => 4
  }

  /** Evidence comes in pairs and only from acceptance on; a resolution only with a final state, and marked complete. */
  predicate RowOk(o: Operation) {
    && (o.receipt.Some? <==> o.ack.Some?) && (o.receipt.Some? <==> Rank(o.state) >= 3)
    && (o.recovery.COMPLETE? <==> o.resolution.Some?)
    && (o.resolution.Some? ==> FinalState(o.state))
  }

  ghost predicate StoreOk(s: Store) {
    && (forall op | op in s.operations :: RowOk(s.operations[op]))
    && (forall op, other | op in s.operations && other in s.operations && op != other ::
          s.operations[op].nonce != s.operations[other].nonce)
  }

  predicate Kept<T(==)>(before: Option<T>, after: Option<T>) {
    before.Some? ==> after == before
  }

  /** The request never changes, evidence is written once, the state only advances, and a final state stays. */
  predicate RowAdvances(o: Operation, p: Operation) {
    && p.request == o.request && p.nonce == o.nonce && p.terminal == o.terminal
    && Kept(o.authorization, p.authorization) && Kept(o.receipt, p.receipt) && Kept(o.ack, p.ack)
    && Kept(o.resolution, p.resolution)
    && Rank(o.state) <= Rank(p.state) && (Rank(o.state) == 4 ==> p.state == o.state)
  }

  ghost predicate Advances(before: Store, after: Store) {
    forall op | op in before.operations ::
      op in after.operations && RowAdvances(before.operations[op], after.operations[op])
  }

  lemma PutRow(s: Store, op: Id, o: Operation)
    requires StoreOk(s) && op in s.operations && RowOk(o) && RowAdvances(s.operations[op], o)
    ensures var after := s.(operations := s.operations[op := o]);
            StoreOk(after) && Advances(s, after)
  {
  }

  lemma SameRows(s: Store, after: Store)
    requires StoreOk(s) && after.operations == s.operations
    ensures StoreOk(after) && Advances(s, after)
  {
  }

  /** The one row a call may rewrite. */
  predicate RewritesRow(c: Call) {
    !c.Insert? && !c.RetryAttention? && !c.Acquire? && !c.Release? && !c.Provision?
  }

  /** A guarded update leaves a good row that only went forward. */
  lemma RewrittenRow(s: Store, c: Call)
    requires RewritesRow(c) && Perform(s, c).Some? && Perform(s, c).value != s
    requires forall op | op in s.operations :: RowOk(s.operations[op])
    ensures c.op in s.operations && c.op in Perform(s, c).value.operations
    ensures var o := Perform(s, c).value.operations[c.op];
            && Perform(s, c).value == s.(operations := s.operations[c.op := o])
            && RowOk(o) && RowAdvances(s.operations[c.op], o)
  {
  }

  lemma InsertAdvances(s: Store, op: Id, terminal: Id, nonce: nat, request: Bytes, now: int)
    requires StoreOk(s) && op !in s.operations && !NonceUsed(s, nonce)
    ensures var after := s.(operations := s.operations[op := Created(terminal, nonce, request, now)]);
            StoreOk(after) && Advances(s, after)
  {
  }

  lemma RetryAdvances(s: Store)
    requires StoreOk(s)
    ensures StoreOk(After(s, RetryAttention)) && Advances(s, After(s, RetryAttention))
  {
  }

  lemma RowsOk(s: Store)
    requires StoreOk(s)
    ensures forall op | op in s.operations :: RowOk(s.operations[op])
  {
    hide RowOk;
  }

  /** No call, whether it succeeds or raises, takes an operation back. */
  lemma CallAdvances(s: Store, c: Call)
    requires StoreOk(s)
    ensures StoreOk(After(s, c)) && Advances(s, After(s, c))
  {
    hide StoreOk, Advances, RowOk, RowAdvances, NonceUsed, Created, WithResult;
    SameRows(s, s);
    RowsOk(s);
    if Perform(s, c).Some? && Perform(s, c).value != s {
      if RewritesRow(c) {
        RewrittenRow(s, c);
        PutRow(s, c.op, Perform(s, c).value.operations[c.op]);
      } else if c.Insert? {
        InsertAdvances(s, c.op, c.terminal, c.nonce, c.request, c.now);
      } else if c.RetryAttention? {
        RetryAdvances(s);
      } else {
        SameRows(s, Perform(s, c).value);
      }
    }
  }

  lemma AdvancesTransitive(first: Store, second: Store, third: Store)
    requires Advances(first, second) && Advances(second, third)
    ensures Advances(first, third)
  {
  }

  /** Over any sequence of calls, states only advance, evidence and resolutions are written once, receipt and
    acknowledgement come together, and recovery is complete exactly when a resolution is stored. */
  lemma {:induction false} Lifecycle(s: Store, calls: seq<Call>)
    requires StoreOk(s)
    ensures StoreOk(AfterAll(s, calls)) && Advances(s, AfterAll(s, calls))
    decreases |calls|
  {
    hide After, StoreOk, Advances;
    if |calls| == 0 {
      SameRows(s, s);
    } else {
      CallAdvances(s, calls[0]);
      Lifecycle(After(s, calls[0]), calls[1..]);
      AdvancesTransitive(s, After(s, calls[0]), AfterAll(s, calls));
    }
  }

  // ---------------------------------------------------------------------------------------------
  // The sync lease

  /** The moments of the acquisitions of a run never go back, and none is before t. */
  predicate Monotone(calls: seq<Call>, t: int) {
    |calls| == 0 || (if calls[0].Acquire? then t <= calls[0].now && Monotone(calls[1..], calls[0].now)
                     else Monotone(calls[1..], t))
  }

  /** This owner neither gives the lease back nor renews it in the run. */
  predicate LeavesAlone(calls: seq<Call>, owner: Id) {
    forall c | c in calls :: c != Release(owner) && (c.Acquire? ==> c.owner != owner)
  }

  lemma {:induction false} LeaseKept(s: Store, owner: Id, expires: int, t: int, calls: seq<Call>)
    requires Monotone(calls, t) && LeavesAlone(calls, owner)
    requires s.lease == Some(Lease(owner, expires)) || expires <= t
    ensures
      || AfterAll(s, calls).lease == Some(Lease(owner, expires))
      || (exists c :: c in calls && c.Acquire? && expires <= c.now)
      || expires <= t
    decreases |calls|
  {
    if |calls| > 0 && expires > t {
      var c, next := calls[0], After(s, calls[0]);
      assert c in calls && forall d | d in calls[1..] :: d in calls;
      if c.Acquire? && expires <= c.now {
      } else if c.Acquire? {
        LeaseKept(next, owner, expires, c.now, calls[1..]);
      } else {
        LeaseSteady(s, c, owner, expires);
        LeaseKept(next, owner, expires, t, calls[1..]);
      }
    }
  }

  /** Only acquisitions and the owner's own release touch a lease. */
  lemma LeaseSteady(s: Store, c: Call, owner: Id, expires: int)
    requires s.lease == Some(Lease(owner, expires)) && !c.Acquire? && c != Release(owner)
    ensures After(s, c).lease == s.lease
  {
  }

  /** Last moment the clock showed in a run. */
  function Clock(calls: seq<Call>, t: int): int
    decreases |calls|
  {
    if |calls| == 0 then t else Clock(calls[1..], if calls[0].Acquire? then calls[0].now else t)
  }

  lemma {:induction false} ClockBounds(calls: seq<Call>, t: int)
    requires Monotone(calls, t)
    ensures t <= Clock(calls, t) && forall c | c in calls && c.Acquire? :: c.now <= Clock(calls, t)
    decreases |calls|
  {
    if |calls| > 0 {
      ClockBounds(calls[1..], if calls[0].Acquire? then calls[0].now else t);
      assert forall c | c in calls :: c == calls[0] || c in calls[1..];
    }
  }

  /** With a clock that never goes back, another owner gets the lease only after it expired. */
  lemma LeaseIsExclusive(s: Store, owner: Id, now: int, expires: int, calls: seq<Call>, other: Id, later: int, until: int)
    requires Perform(s, Acquire(owner, now, expires)).Some?
    requires LeavesAlone(calls, owner) && Monotone(calls, now) && Clock(calls, now) <= later && other != owner
    requires Perform(AfterAll(After(s, Acquire(owner, now, expires)), calls), Acquire(other, later, until)).Some?
    ensures expires <= later
  {
    var held := After(s, Acquire(owner, now, expires));
    LeaseKept(held, owner, expires, now, calls);
    ClockBounds(calls, now);
  }
}
