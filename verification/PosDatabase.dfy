/** The terminal's database as an object, and its batch reconciliation with the backend. */
module PosDatabase {
  import opened Messages
  import opened Utf8
  import opened PosStore

  predicate Due(o: Operation, terminal: Option<Id>, now: int) {
    && o.state.LOCALLY_ACCEPTED? && o.authorization.Some? && (terminal.None? || o.terminal == terminal.value)
    && (o.nextSync.None? || o.nextSync.value <= now)
  }

  predicate AwaitsResolution(o: Operation, terminal: Option<Id>, now: int) {
    && Recovering(o) && o.recovery.PENDING? && o.authorization.Some? && (terminal.None? || o.terminal == terminal.value)
    && (o.nextSync.None? || o.nextSync.value <= now)
  }

  function DueOps(operations: map<Id, Operation>, terminal: Option<Id>, now: int): set<Id> {
    set op | op in operations && Due(operations[op], terminal, now)
  }

  function AwaitingOps(operations: map<Id, Operation>, terminal: Option<Id>, now: int): set<Id> {
    set op | op in operations && AwaitsResolution(operations[op], terminal, now)
  }

  /** A listing of some operations: no repetition, least recently updated first, cut only by the limit. */
  ghost predicate Listed(operations: map<Id, Operation>, ids: seq<Id>, eligible: set<Id>, limit: nat)
    requires eligible <= operations.Keys
  {
    && |ids| <= limit && (forall i | 0 <= i < |ids| :: ids[i] in eligible)
    && (forall i, j | 0 <= i < j < |ids| ::
          ids[i] != ids[j] && operations[ids[i]].updated <= operations[ids[j]].updated)
    && (forall op | op in eligible && op !in ids ::
          |ids| == limit && forall i | 0 <= i < |ids| :: operations[ids[i]].updated <= operations[op].updated)
  }

  class Database {
    var operations: map<Id, Operation>
    var lease: Option<Lease>
    var terminal: Option<Id>

    ghost function State(): Store
      reads this
    {
      Store(operations, lease, terminal)
    }

    constructor ()
      ensures State() == Store(map[], None, None)
    {
      operations, lease, terminal := map[], None, None;
    }

    method InsertRequest(op: Id, posTerminal: Id, nonce: nat, request: Bytes, now: int) returns (ok: bool)
      modifies this
      ensures ok == Perform(old(State()), Insert(op, posTerminal, nonce, request, now)).Some?
      ensures State() == After(old(State()), Insert(op, posTerminal, nonce, request, now))
    {
      if op in operations {
        return operations[op].request == request;
      }
      if exists o :: o in operations && operations[o].nonce == nonce {
        return false;
      }
      operations := operations[op := Created(posTerminal, nonce, request, now)];
      ok := true;
    }

    method MarkRequestDelivered(op: Id, now: int) returns (ok: bool)
      modifies this
      ensures ok == Perform(old(State()), MarkDelivered(op, now)).Some?
      ensures State() == After(old(State()), MarkDelivered(op, now))
    {
      ok := op in operations && operations[op].state in {REQUEST_CREATED, REQUEST_DELIVERED};
      if ok {
        operations := operations[op := operations[op].(state := REQUEST_DELIVERED, updated := now)];
      }
    }

    method MarkWaitingConfirmation(op: Id, now: int) returns (ok: bool)
      modifies this
      ensures ok == Perform(old(State()), MarkWaiting(op, now)).Some?
      ensures State() == After(old(State()), MarkWaiting(op, now))
    {
      ok := op in operations && operations[op].state in {REQUEST_DELIVERED, WAITING_CONFIRMATION};
      if ok {
        operations := operations[op := operations[op].(state := WAITING_CONFIRMATION, updated := now)];
      }
    }

    method StoreAuthorization(op: Id, envelope: Bytes, now: int) returns (ok: bool)
      modifies this
      ensures ok == Perform(old(State()), SetAuthorization(op, envelope, now)).Some?
      ensures State() == After(old(State()), SetAuthorization(op, envelope, now))
    {
      ok := && op in operations && operations[op].state in {REQUEST_DELIVERED, WAITING_CONFIRMATION}
            && (operations[op].authorization.None? || operations[op].authorization.value == envelope);
      if ok {
        operations := operations[op := operations[op].(authorization := Some(envelope), updated := now)];
      }
    }

    /** Receipt and acknowledgement are written together, once. */
    method AcceptReceiptAndAck(op: Id, receipt: Bytes, ack: Bytes, now: int) returns (ok: bool)
      modifies this
      ensures ok == Perform(old(State()), AcceptEvidence(op, receipt, ack, now)).Some?
      ensures State() == After(old(State()), AcceptEvidence(op, receipt, ack, now))
    {
      if op !in operations {
        return false;
      }
      var row := operations[op];
      if row.receipt.Some? {
        return row.receipt.value == receipt && row.ack == Some(ack);
      }
      if row.state !in {REQUEST_DELIVERED, WAITING_CONFIRMATION} {
        return false;
      }
      operations := operations[op := row.(receipt := Some(receipt), ack := Some(ack), state := LOCALLY_ACCEPTED,
                                          updated := now)];
      ok := true;
    }

    method ApplySyncResult(op: Id, status: SyncStatus, code: Option<nat>, now: int, next: Option<int>,
                           resolution: Option<Bytes>) returns (ok: bool)
      modifies this
      ensures ok == Perform(old(State()), ApplyResult(op, status, code, now, next, resolution)).Some?
      ensures State() == After(old(State()), ApplyResult(op, status, code, now, next, resolution))
    {
      if status in {ACCEPTED, REJECTED_BY_BACKEND} && (resolution.None? || |resolution.value| == 0) {
        return false;
      }
      ok := op in operations && operations[op].state == LOCALLY_ACCEPTED;
      if ok {
        var row := operations[op];
        if status in {PENDING_EVIDENCE, RETRYABLE_ERROR} {
          row := row.(attempts := row.attempts + 1);
        }
        if status in {ACCEPTED, REJECTED_BY_BACKEND} {
          row := row.(resolution := if row.resolution.None? then resolution else row.resolution, recovery := COMPLETE);
        }
        operations := operations[op := row.(state := StateAfter(status), updated := now, nextSync := next, error := code)];
      }
    }

    method AttachFinalResolution(op: Id, resolution: Bytes) returns (ok: bool)
      modifies this
      ensures ok == Perform(old(State()), AttachResolution(op, resolution)).Some?
      ensures State() == After(old(State()), AttachResolution(op, resolution))
    {
      ok := op in operations && Recovering(operations[op]) && operations[op].recovery == PENDING;
      if ok {
        operations := operations[op := operations[op].(resolution := Some(resolution), recovery := COMPLETE, nextSync := None)];
      }
    }

    method ScheduleResolutionRecovery(op: Id, next: int)
      modifies this
      ensures State() == After(old(State()), ScheduleRecovery(op, next))
    {
      if op in operations && Recovering(operations[op]) && operations[op].recovery == PENDING {
        var row := operations[op];
        operations := operations[op := row.(attempts := row.attempts + 1, nextSync := Some(next))];
      }
    }

    method FlagResolutionRecovery(op: Id)
      modifies this
      ensures State() == After(old(State()), FlagRecovery(op))
    {
      if op in operations && Recovering(operations[op]) {
        operations := operations[op := operations[op].(recovery := ATTENTION_REQUIRED, nextSync := None)];
      }
    }

    method RetryAttentionResolutions()
      modifies this
      ensures State() == After(old(State()), RetryAttention)
    {
      operations := map op | op in operations ::
        var row := operations[op];
        if Recovering(row) && row.recovery == ATTENTION_REQUIRED then row.(recovery := PENDING) else row;
    }

    method TryAcquireSyncLock(owner: Id, now: int, expires: int) returns (ok: bool)
      modifies this
      ensures ok == Perform(old(State()), Acquire(owner, now, expires)).Some?
      ensures State() == After(old(State()), Acquire(owner, now, expires))
    {
      if lease.Some? && lease.value.owner != owner && lease.value.expires > now {
        return false;
      }
      lease := Some(Lease(owner, expires));
      ok := true;
    }

    method ReleaseSyncLock(owner: Id)
      modifies this
      ensures State() == After(old(State()), Release(owner))
    {
      if lease.Some? && lease.value.owner == owner {
        lease := None;
      }
    }

    method ListSyncCandidates(now: int, limit: nat) returns (ids: seq<Id>)
      ensures Listed(operations, ids, DueOps(operations, terminal, now), limit)
    {
      ids := Earliest(DueOps(operations, terminal, now), limit);
    }

    method ListRecoveryCandidates(now: int, limit: nat) returns (ids: seq<Id>)
      ensures Listed(operations, ids, AwaitingOps(operations, terminal, now), if limit < 100 then limit else 100)
    {
      ids := Earliest(AwaitingOps(operations, terminal, now), if limit < 100 then limit else 100);
    }

    method Earliest(eligible: set<Id>, limit: nat) returns (ids: seq<Id>)
      requires eligible <= operations.Keys
      ensures Listed(operations, ids, eligible, limit)
    {
      ids := [];
      var left := eligible;
      while left != {} && |ids| < limit
        invariant |ids| <= limit && left <= eligible
        invariant forall i | 0 <= i < |ids| :: ids[i] in eligible && ids[i] !in left
        invariant forall i, j | 0 <= i < j < |ids| ::
                    ids[i] != ids[j] && operations[ids[i]].updated <= operations[ids[j]].updated
        invariant forall op | op in eligible && op !in ids :: op in left
        invariant forall op | op in left :: forall i | 0 <= i < |ids| :: operations[ids[i]].updated <= operations[op].updated
        decreases |left|
      {
        var first := Oldest(left);
        ids, left := ids + [first], left - {first};
      }
    }

    method Oldest(ops: set<Id>) returns (first: Id)
      requires ops != {} && ops <= operations.Keys
      ensures first in ops && forall op | op in ops :: operations[first].updated <= operations[op].updated
    {
      first :| first in ops;
      var left := ops - {first};
      while left != {}
        invariant left <= ops && first in ops
        invariant forall op | op in ops - left :: operations[first].updated <= operations[op].updated
        decreases |left|
      {
        var op :| op in left;
        if operations[op].updated < operations[first].updated {
          first := op;
        }
        left := left - {op};
      }
    }
  }
}
