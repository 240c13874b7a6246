/** One submission of version 3 evidence, whatever it contains, keeps the invariant. */
module Reconciliation {
  import opened Messages
  import opened Database
  import opened SyncV3
  import opened Authorizations
  import opened Invariant
  import opened Rows
  import opened Steps

  /** What a verdict may rely on. */
  ghost predicate Justified(db: Db, v: Verdict) {
    match v
    case Refuse(_) => true
    case KeepAck(op, ack, _) =>
      && op in db.payments && db.payments[op].Final() && db.payments[op].ack.None?
      && db.payments[op].auth in db.commitments
      && AckBound(db.payments[op].request, db.payments[op].receipt, ack)
    case Park(ctx, _, _, flag, _) =>
      Bound(db, ctx) && (ClaimConflict(db.claims, ctx.auth, ctx.op, ctx.Claim()) ==> flag)
    case Hold(ctx) =>
      && Bound(db, ctx) && !ClaimConflict(db.claims, ctx.auth, ctx.op, ctx.Claim()) && ctx.ack.None?
    case Settle(ctx, _) =>
      Settling(db, ctx) && (ctx.op in db.payments ==> !db.payments[ctx.op].state.PendingReview?)
  }

  lemma JudgeBoundJustified(db: Db, env: Env, user: Id, ctx: Context)
    requires ctx.receipt.message.body.Receipt? && ctx.auth in db.commitments
    requires ctx.op in db.payments || !NonceTaken(db, ctx.Common().nonce) ==> Bound(db, ctx)
    ensures Justified(db, JudgeBound(db, env, user, ctx))
  {
    hide Bound, ClaimConflict, GuardsPass, EmittedByOther, InManifest, NonceTaken, SettlementRowsTaken;
  }

  lemma ValidatedIsBound(db: Db, env: Env, op: Id, request: Envelope, grant: Envelope, receipt: Envelope, ack: Option<Wire>)
    requires WalletsOk(db.wallets, db.walletOf, db.saldo)
    requires OperationOf(receipt.message.body) == Some(op)
    requires op in db.payments ==>
               db.payments[op].request == request && db.payments[op].receipt == receipt && !db.payments[op].Final()
    ensures
      var ctx := Validate(db, env, op, request, grant, receipt, ack);
      ctx.Some? ==>
        && ctx.value.receipt.message.body.Receipt? && ctx.value.auth in db.commitments
        && (ctx.value.op in db.payments || !NonceTaken(db, ctx.value.Common().nonce) ==> Bound(db, ctx.value))
  {
    hide AckBound, NonceTaken, TrustedGrant, PosSigned, RequiresReview;
  }

  /** Every verdict is backed by bound evidence; a settlement meets every precondition of settling. */
  lemma JudgeJustified(db: Db, opening: map<Id, int>, env: Env, user: Id, ev: Evidence)
    requires Inv(db, opening)
    ensures Justified(db, Judge(db, env, user, ev))
  {
    assert WalletsOk(db.wallets, db.walletOf, db.saldo) by {
      hide *;
      InvParts(db, opening);
    }
    hide Inv, WalletsOk, Validate, JudgeBound, Bound, ClaimConflict, Settling, AckBound, Valid3, Authorized;
    var request, grant, receipt := Parse3(ev.request), Parse3(ev.grant), Parse3(ev.receipt);
    if (&& request.Some? && grant.Some? && receipt.Some?
        && OperationOf(receipt.value.message.body) == Some(ev.op)
        && (ev.op in db.payments ==>
              && db.payments[ev.op].request == request.value && db.payments[ev.op].receipt == receipt.value
              && !db.payments[ev.op].Final())) {
      ValidatedIsBound(db, env, ev.op, request.value, grant.value, receipt.value, ev.ack);
      var ctx := Validate(db, env, ev.op, request.value, grant.value, receipt.value, ev.ack);
      if ctx.Some? {
        assert ctx.value.op == ev.op;
        JudgeBoundJustified(db, env, user, ctx.value);
      }
    }
  }

  lemma ParkKeepsInv(db: Db, opening: map<Id, int>, ctx: Context, code: Option<Code>, storeAck: bool, flag: bool)
    requires Inv(db, opening) && Bound(db, ctx)
    requires ClaimConflict(db.claims, ctx.auth, ctx.op, ctx.Claim()) ==> flag
    ensures Inv(ParkOn(db, ctx, code, storeAck, flag), opening)
  {
    hide *;
    InvParts(db, opening);
    BoundParts(db, ctx);
    ParkedRow(db, ctx, code, storeAck);
    ParkTables(db, ctx, code, storeAck, flag);
    RecordKeepsInv(db, opening, ctx, ParkedPayment(db, ctx, code, storeAck), flag);
  }

  lemma ParkTables(db: Db, ctx: Context, code: Option<Code>, storeAck: bool, flag: bool)
    requires ctx.receipt.message.body.Receipt?
    ensures ParkedPayment(db, ctx, code, storeAck).state.PendingReview?
    ensures !ParkedPayment(db, ctx, code, storeAck).Final()
    ensures ParkOn(db, ctx, code, storeAck, flag) ==
            db.(wallets := Flag(db.wallets, ctx.wallet, flag),
                payments := db.payments[ctx.op := ParkedPayment(db, ctx, code, storeAck)],
                claims := RecordClaim(db.claims, ctx.auth, ctx.op, ctx.Claim()))
  {
  }

  lemma HoldRow(db: Db, ctx: Context) returns (p: Payment)
    requires Bound(db, ctx) && PaymentsOk(db.payments, db.commitments, db.authorizations) && ctx.ack.None?
    ensures RowOk(db, ctx, p) && !p.Final() && !p.state.Accepted?
    ensures HoldOn(db, ctx) ==
            db.(wallets := Flag(db.wallets, ctx.wallet, false), payments := db.payments[ctx.op := p],
                claims := RecordClaim(db.claims, ctx.auth, ctx.op, ctx.Claim()))
  {
    hide PaymentsOk, RowOk, RecordClaim;
    if ctx.op in db.payments {
      p := db.payments[ctx.op];
      KnownRow(db, ctx);
      assert RowOk(db, ctx, p) by { KnownRowOk(db, ctx); }
      assert db.payments[ctx.op := p] == db.payments;
    } else {
      p := NewPayment(ctx, PendingEvidence, None);
      NewRow(db, ctx, PendingEvidence, None);
    }
  }

  lemma KnownRowOk(db: Db, ctx: Context)
    requires Bound(db, ctx) && ctx.op in db.payments
    requires PaymentsOk(db.payments, db.commitments, db.authorizations)
    ensures RowOk(db, ctx, db.payments[ctx.op])
  {
    KnownRow(db, ctx);
  }

  lemma HoldKeepsInv(db: Db, opening: map<Id, int>, ctx: Context)
    requires Inv(db, opening) && Bound(db, ctx) && ctx.ack.None?
    requires !ClaimConflict(db.claims, ctx.auth, ctx.op, ctx.Claim())
    ensures Inv(HoldOn(db, ctx), opening)
  {
    hide *;
    InvParts(db, opening);
    BoundParts(db, ctx);
    var p := HoldRow(db, ctx);
    RecordKeepsInv(db, opening, ctx, p, false);
  }

  lemma AckOnly(payments: map<Id, Payment>, op: Id, ack: Envelope)
    requires op in payments
    ensures SameButNotes(payments, payments[op := payments[op].(ack := Some(ack))])
    ensures payments[op].(ack := Some(ack)).ack.Some?
  {
  }

  lemma KeepAckKeepsInv(db: Db, opening: map<Id, int>, op: Id, ack: Envelope)
    requires Inv(db, opening)
    requires op in db.payments && db.payments[op].Final() && db.payments[op].auth in db.commitments
    requires AckBound(db.payments[op].request, db.payments[op].receipt, ack)
    ensures Inv(db.(payments := db.payments[op := db.payments[op].(ack := Some(ack))]), opening)
  {
    hide *;
    var after := db.payments[op := db.payments[op].(ack := Some(ack))];
    AckOnly(db.payments, op, ack);
    InvParts(db, opening);
    AckPayments(db.payments, after, db.commitments, db.authorizations, op);
    AckClaims(db.payments, after, db.claims, db.commitments.Keys);
    AckEmissions(db.payments, after, db.emissions, db.commitments.Keys);
    AckCounters(db.payments, after, db.emissions, db.commitments);
    AckLedger(db.payments, after, db.ledger, db.wallets);
    AckResolutions(db.payments, after, db.resolutions, db.commitments.Keys);
    AckSeals(db.payments, after, db.claims, db.commitments);
    InvBuild(db.(payments := after), opening);
  }

  lemma PerformKeepsInv(db: Db, opening: map<Id, int>, v: Verdict)
    requires Inv(db, opening) && Justified(db, v) && Executable(db, v)
    ensures Inv(Perform(db, v), opening)
  {
    hide Inv, Bound, Settling, ClaimConflict, AckBound, ParkOn, HoldOn, SettleOn;
    match v
    case Refuse(_) =>
    case KeepAck(op, ack, _) => KeepAckKeepsInv(db, opening, op, ack);
    case Park(ctx, code, storeAck, flag, _) => ParkKeepsInv(db, opening, ctx, code, storeAck, flag);
    case Hold(ctx) => HoldKeepsInv(db, opening, ctx);
    case Settle(ctx, issuer) => SettleKeepsInv(db, opening, ctx, issuer);
  }

  lemma IndexFromInv(db: Db, opening: map<Id, int>)
    requires Inv(db, opening)
    ensures WalletIndex(db)
  {
    assert WalletsOk(db.wallets, db.walletOf, db.saldo) by {
      hide *;
      InvParts(db, opening);
    }
    hide Inv;
  }

  /** The state after one submission of version 3 evidence. */
  ghost function Sync(db: Db, env: Env, user: Id, ev: Evidence): Db {
    if Executable(db, Judge(db, env, user, ev)) then Perform(db, Judge(db, env, user, ev)) else db
  }

  /** Any submission at all, by anyone, keeps the invariant. */
  lemma SyncKeepsInv(db: Db, opening: map<Id, int>, env: Env, user: Id, ev: Evidence)
    requires Inv(db, opening)
    ensures Executable(db, Judge(db, env, user, ev))
    ensures Inv(Sync(db, env, user, ev), opening)
  {
    IndexFromInv(db, opening);
    JudgedIsExecutable(db, env, user, ev);
    JudgeJustified(db, opening, env, user, ev);
    hide Inv, Judge, Justified, Perform, Executable;
    PerformKeepsInv(db, opening, Judge(db, env, user, ev));
  }
}
