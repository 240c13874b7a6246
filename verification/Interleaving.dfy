/** Steps taken elsewhere leave a batch as it was, and the whole run of a batch in closed form. */
module Interleaving {
  import opened Messages
  import opened Database
  import opened Sums
  import opened SyncV3
  import opened SyncV2
  import opened Authorizations
  import opened Invariant
  import opened Reconciliation
  import opened Handlers
  import opened LegacySteps
  import opened Rollback
  import opened LegacyRollback
  import opened Machine
  import opened History
  import opened Conservation
  import opened Batches
  import opened OrderIndependence

  // ---------------------------------------------------------------------------------------------
  // What each step leaves alone

  lemma VerdictContext(db: Db, env: Env, user: Id, ev: Evidence)
    ensures
      var v := Judge(db, env, user, ev);
      && (v.KeepAck? ==> v.op == ev.op)
      && (v.Park? || v.Hold? || v.Settle? ==>
            && v.ctx.op == ev.op && ev.receipt == Wire(v.ctx.receipt)
            && v.ctx.receipt.message.body.Receipt? && v.ctx.auth == v.ctx.receipt.message.body.auth)
  {
    hide JudgeBound, ReceiptBound, AckBound, Authorized, Valid3, Resolved;
    var request, grant, receipt := Parse3(ev.request), Parse3(ev.grant), Parse3(ev.receipt);
    if request.Some? && grant.Some? && receipt.Some? {
      var ctx := Validate(db, env, ev.op, request.value, grant.value, receipt.value, ev.ack);
      if ctx.Some? {
        BoundIsReceipt(request.value, receipt.value, grant.value);
        BoundContext(db, env, user, ctx.value);
      }
    }
  }

  lemma BoundIsReceipt(request: Envelope, receipt: Envelope, grant: Envelope)
    requires ReceiptBound(request, receipt, grant)
    ensures receipt.message.body.Receipt? && grant.message.body.Grant?
    ensures receipt.message.body.auth == grant.message.body.auth
  {
  }

  lemma BoundContext(db: Db, env: Env, user: Id, ctx: Context)
    requires ctx.receipt.message.body.Receipt? && ctx.auth in db.commitments
    ensures var v := JudgeBound(db, env, user, ctx);
            v.Refuse? || ((v.Park? || v.Hold? || v.Settle?) && v.ctx == ctx)
  {
    hide ClaimConflict, GuardsPass, EmittedByOther, SettlementRowsTaken, InManifest, NonceTaken, Resolved, Authorized;
  }

  lemma RecordUntouched(before: Db, after: Db, a: Id, batch: Batch, op: Id, auth: Id, p: Payment, claim: Claim)
    requires op !in batch && auth != a
    requires after == before.(wallets := after.wallets, payments := before.payments[op := p],
                              claims := RecordClaim(before.claims, auth, op, claim))
    requires (op in before.payments && before.payments[op].nonce == p.nonce) || !NonceInBatch(batch, p.nonce)
    ensures Untouched(before, after, a, batch)
  {
    hide Untouched, NonceInBatch;
    UntouchedByRow(before, after, a, batch, op, auth);
  }

  lemma ParkUntouched(db: Db, ctx: Context, code: Option<Code>, storeAck: bool, flag: bool, a: Id, batch: Batch)
    requires ctx.receipt.message.body.Receipt? && ctx.op !in batch && ctx.auth != a
    requires !NonceInBatch(batch, ctx.Common().nonce)
    ensures Untouched(db, ParkOn(db, ctx, code, storeAck, flag), a, batch)
  {
    hide Untouched, NonceInBatch, Flag, RecordClaim;
    RecordUntouched(db, ParkOn(db, ctx, code, storeAck, flag), a, batch, ctx.op, ctx.auth,
                    ParkedPayment(db, ctx, code, storeAck), ctx.Claim());
  }

  lemma HoldUntouched(db: Db, ctx: Context, a: Id, batch: Batch)
    requires ctx.receipt.message.body.Receipt? && ctx.op !in batch && ctx.auth != a
    requires !NonceInBatch(batch, ctx.Common().nonce)
    ensures Untouched(db, HoldOn(db, ctx), a, batch)
  {
    hide Untouched, NonceInBatch, RecordClaim;
    var p := if ctx.op in db.payments then db.payments[ctx.op] else NewPayment(ctx, PendingEvidence, None);
    assert ctx.op in db.payments ==> db.payments[ctx.op := p] == db.payments;
    RecordUntouched(db, HoldOn(db, ctx), a, batch, ctx.op, ctx.auth, p, ctx.Claim());
  }

  lemma SettleUntouched(db: Db, ctx: Context, issuer: Issuer, a: Id, batch: Batch)
    requires Executable(db, Settle(ctx, issuer)) && ctx.op !in batch && ctx.auth != a
    requires !NonceInBatch(batch, ctx.Common().nonce)
    ensures Untouched(db, SettleOn(db, ctx, issuer), a, batch)
  {
    hide Untouched, NonceInBatch, Credit, CreditUser, ResolutionOf, SpendCommitment;
    UntouchedByRow(db, SettleOn(db, ctx, issuer), a, batch, ctx.op, ctx.auth);
  }

  lemma KeepAckUntouched(db: Db, op: Id, ack: Envelope, a: Id, batch: Batch)
    requires op in db.payments && op !in batch
    ensures Untouched(db, db.(payments := db.payments[op := db.payments[op].(ack := Some(ack))]), a, batch)
  {
    hide Untouched, NonceInBatch;
    UntouchedByRow(db, db.(payments := db.payments[op := db.payments[op].(ack := Some(ack))]), a, batch, op, a + 1);
  }

  lemma SameUntouched(before: Db, after: Db, a: Id, batch: Batch)
    requires before.payments == after.payments && before.claims == after.claims && before.emissions == after.emissions
    requires before.resolutions == after.resolutions && before.ledger == after.ledger
    requires Agree(before.commitments, after.commitments, a) && Agree(before.authorizations, after.authorizations, a)
    ensures Untouched(before, after, a, batch)
  {
  }

  lemma PerformUntouched(db: Db, v: Verdict, a: Id, batch: Batch)
    requires Executable(db, v)
    requires v.KeepAck? ==> v.op !in batch
    requires v.Park? || v.Hold? || v.Settle? ==>
               && v.ctx.op !in batch && v.ctx.receipt.message.body.Receipt? && v.ctx.auth != a
               && !NonceInBatch(batch, v.ctx.Common().nonce)
    ensures Untouched(db, Perform(db, v), a, batch)
  {
    hide Untouched, NonceInBatch, ParkOn, HoldOn, SettleOn;
    match v
    case Refuse(_) => SameUntouched(db, db, a, batch);
    case KeepAck(op, ack, _) => KeepAckUntouched(db, op, ack, a, batch);
    case Park(ctx, code, storeAck, flag, _) => ParkUntouched(db, ctx, code, storeAck, flag, a, batch);
    case Hold(ctx) => HoldUntouched(db, ctx, a, batch);
    case Settle(ctx, issuer) => SettleUntouched(db, ctx, issuer, a, batch);
  }

  lemma SyncUntouched(db: Db, env: Env, user: Id, ev: Evidence, a: Id, batch: Batch)
    requires ev.op !in batch
    requires ev.receipt.Wire? && ev.receipt.envelope.message.body.Receipt? ==>
               && ev.receipt.envelope.message.body.auth != a
               && !NonceInBatch(batch, ev.receipt.envelope.message.body.common.nonce)
    ensures Untouched(db, Sync(db, env, user, ev), a, batch)
  {
    VerdictContext(db, env, user, ev);
    hide Judge, Untouched, NonceInBatch, Perform, Executable;
    SameUntouched(db, db, a, batch);
    if Executable(db, Judge(db, env, user, ev)) {
      PerformUntouched(db, Judge(db, env, user, ev), a, batch);
    }
  }

  lemma RepeatUntouched(db: Db, ctx: Context, a: Id, batch: Batch)
    requires ctx.op !in batch && ctx.auth != a
    requires ctx.receipt.message.body.Receipt? ==> !NonceInBatch(batch, ctx.Common().nonce)
    ensures Untouched(db, ParkAgain(db, ctx), a, batch)
  {
    hide Untouched, NonceInBatch, Flag, RecordClaim, NonceTaken;
    SameUntouched(db, db, a, batch);
    if ctx.receipt.message.body.Receipt? && (ctx.op in db.payments || !NonceTaken(db, ctx.Common().nonce)) {
      RecordUntouched(db, ReparkOn(db, ctx), a, batch, ctx.op, ctx.auth, ReparkedPayment(db, ctx), ctx.Claim());
    }
  }

  lemma RejectAgainUntouched(db: Db, ctx: LegacyContext, a: Id, batch: Batch)
    requires ctx.op !in batch
    requires ctx.request.message.body.Request? ==> !NonceInBatch(batch, ctx.request.message.body.common.nonce)
    ensures Untouched(db, RejectAgain(db, ctx), a, batch)
  {
    hide Untouched, NonceInBatch, NonceTaken;
    SameUntouched(db, db, a, batch);
    if ctx.request.message.body.Request? {
      UntouchedByRow(db, db.(payments := db.payments[ctx.op := RejectedPayment(db, ctx)]), a, batch, ctx.op, a + 1);
    }
  }

  lemma LegacyVerdictContext(db: Db, user: Id, ev: LegacyEvidence)
    ensures
      var v := JudgeLegacy(db, user, ev);
      v.LegacyHold? || v.LegacyReject? || v.LegacySettle? ==>
        && v.ctx.op == ev.op && ev.request == Wire(v.ctx.request) && v.ctx.request.message.body.Request?
        && v.ctx.auth !in db.commitments
  {
    hide LegacyAckFits, RequiresReview, Authorized, LegacyGuardsPass, NonceTaken;
  }

  lemma LegacyPutUntouched(db: Db, ctx: LegacyContext, state: PaymentState, code: Option<Code>, a: Id, batch: Batch)
    requires ctx.request.message.body.Request? && ctx.op !in batch
    requires !NonceInBatch(batch, ctx.request.message.body.common.nonce)
    ensures Untouched(db, db.(payments := db.payments[ctx.op := LegacyPayment(db, ctx, state, code)]), a, batch)
  {
    hide Untouched, NonceInBatch;
    UntouchedByRow(db, db.(payments := db.payments[ctx.op := LegacyPayment(db, ctx, state, code)]), a, batch, ctx.op, a + 1);
  }

  lemma LegacySettleUntouched(db: Db, ctx: LegacyContext, a: Id, batch: Batch)
    requires LegacyExecutable(db, LegacySettle(ctx)) && ctx.op !in batch && ctx.auth != a
    requires !NonceInBatch(batch, ctx.request.message.body.common.nonce)
    ensures Untouched(db, LegacySettleOn(db, ctx), a, batch)
  {
    hide Untouched, NonceInBatch, Credit, CreditUser;
    UntouchedByRow(db, LegacySettleOn(db, ctx), a, batch, ctx.op, a + 1);
  }

  lemma LegacyUntouched(db: Db, user: Id, ev: LegacyEvidence, a: Id, batch: Batch)
    requires ev.op !in batch && a in db.commitments
    requires ev.request.Wire? && ev.request.envelope.message.body.Request? ==>
               !NonceInBatch(batch, ev.request.envelope.message.body.common.nonce)
    ensures Untouched(db, SyncLegacy(db, user, ev), a, batch)
  {
    LegacyVerdictContext(db, user, ev);
    hide JudgeLegacy, Untouched, NonceInBatch, LegacySettleOn, LegacyPayment;
    SameUntouched(db, db, a, batch);
    var v := JudgeLegacy(db, user, ev);
    if LegacyExecutable(db, v) {
      match v
      case LegacyRefuse(_) =>
      case LegacyHold(ctx) => LegacyPutUntouched(db, ctx, PendingEvidence, None, a, batch);
      case LegacyReject(ctx) => LegacyPutUntouched(db, ctx, Rejected, Some(InsufficientLegacy), a, batch);
      case LegacySettle(ctx) => LegacySettleUntouched(db, ctx, a, batch);
    }
  }

  lemma IssueTables(db: Db, env: Env, user: Id, r: IssueRequest, now: int, id: Id, stale: bool)
    ensures
      var after := Issue(db, env, user, r, now, id, stale).0;
      && after == db.(authorizations := after.authorizations, issuedFor := after.issuedFor, commitments := after.commitments)
      && (after.authorizations == db.authorizations ||
            (id !in db.authorizations && forall x | x != id :: Agree(db.authorizations, after.authorizations, x)))
      && (after.commitments == db.commitments ||
            (id !in db.authorizations && forall x | x != id :: Agree(db.commitments, after.commitments, x)))
  {
    hide Reserve, Available, Repeat, Valid3;
    if Issue(db, env, user, r, now, id, stale).0 != db {
      var total := Min(Available(db, r.wallet), r.maxPayment * r.maxPayments);
      var body := GrantFor(env, r, db.keys[r.walletKey], env.issuer.value, total, now, id);
      ReserveWrites(db, r, id, total, now, now + env.authorizationSeconds, Sign(body, env.issuer.value.publicKey));
    }
  }

  lemma ReserveWrites(db: Db, r: IssueRequest, id: Id, total: int, now: int, until: int, grant: Envelope)
    ensures
      var after := Reserve(db, r, id, total, now, until, grant);
      && after == db.(authorizations := after.authorizations, issuedFor := after.issuedFor, commitments := after.commitments)
      && (forall x | x != id :: Agree(db.authorizations, after.authorizations, x))
      && (forall x | x != id :: Agree(db.commitments, after.commitments, x))
  {
  }

  lemma IssueUntouched(db: Db, env: Env, user: Id, r: IssueRequest, now: int, id: Id, stale: bool, a: Id, batch: Batch)
    requires a in db.authorizations
    ensures Untouched(db, Issue(db, env, user, r, now, id, stale).0, a, batch)
  {
    IssueTables(db, env, user, r, now, id, stale);
    hide Untouched, Issue;
    SameUntouched(db, Issue(db, env, user, r, now, id, stale).0, a, batch);
  }

  lemma CloseCases(db: Db, env: Env, user: Id, auth: Id, close: Wire, manifest: Option<seq<Entry>>)
    ensures
      var after := Close(db, env, user, auth, close, manifest).0;
      || after == db
      || (auth in db.commitments && after == db.(wallets := Flag(db.wallets, db.commitments[auth].wallet, true)))
      || (auth in db.commitments && close.Wire? && manifest.Some? && after == SealOn(db, auth, close.envelope, manifest.value))
  {
    hide TrustedGrant, CloseOpen, WellFormedManifest, Total, Valid3, Flag, SealOn;
    if (&& auth in db.commitments && Parse3(close).Some? && manifest.Some?
        && CloseBound(close.envelope, db.commitments[auth].grant, manifest.value)) {
      OpenCloseCases(db, env, auth, close.envelope, manifest.value);
    }
  }

  lemma SealUntouched(db: Db, auth: Id, close: Envelope, entries: seq<Entry>, a: Id, batch: Batch)
    requires auth in db.commitments && auth != a
    ensures Untouched(db, SealOn(db, auth, close, entries), a, batch)
  {
    hide Untouched, Total;
    SameUntouched(db, SealOn(db, auth, close, entries), a, batch);
  }

  lemma CloseUntouched(db: Db, env: Env, user: Id, auth: Id, close: Wire, manifest: Option<seq<Entry>>, a: Id, batch: Batch)
    requires auth != a
    ensures Untouched(db, Close(db, env, user, auth, close, manifest).0, a, batch)
  {
    CloseCases(db, env, user, auth, close, manifest);
    hide Close, Untouched, SealOn, Flag;
    SameUntouched(db, db, a, batch);
    if auth in db.commitments {
      SameUntouched(db, db.(wallets := Flag(db.wallets, db.commitments[auth].wallet, true)), a, batch);
      if close.Wire? && manifest.Some? {
        SealUntouched(db, auth, close.envelope, manifest.value, a, batch);
      }
    }
  }

  lemma TopUpTables(db: Db, user: Id, r: TopupRequest, stale: bool)
    ensures var after := TopUp(db, user, r, stale).0;
            after == db.(topups := after.topups, wallets := after.wallets, saldo := after.saldo)
  {
    hide TopupOn;
    TopupOnTables(db, user, r);
  }

  lemma TopupOnTables(db: Db, user: Id, r: TopupRequest)
    ensures var after := TopupOn(db, user, r);
            after == db.(topups := after.topups, wallets := after.wallets, saldo := after.saldo)
  {
    hide Credit, CreditUser;
  }

  lemma TopUpUntouched(db: Db, user: Id, r: TopupRequest, stale: bool, a: Id, batch: Batch)
    ensures Untouched(db, TopUp(db, user, r, stale).0, a, batch)
  {
    TopUpTables(db, user, r, stale);
    hide Untouched, TopUp;
    SameUntouched(db, TopUp(db, user, r, stale).0, a, batch);
  }

  /** No step elsewhere touches what the batch left. */
  lemma ElsewhereUntouched(db: Db, opening: map<Id, int>, env: Env, grant: Envelope, s: Step, a: Id, batch: Batch)
    requires Inv(db, opening) && Elsewhere(db, env, grant, s, a, batch)
    requires a in db.commitments && a in db.authorizations
    ensures Untouched(db, Next(db, s), a, batch)
  {
    hide Inv, Sync, SyncLegacy, Issue, Close, TopUp, StoreResolution, ParkAgain, RejectAgain, Untouched, NonceInBatch, Validates;
    match s
    case SubmitStep(e, user, ev) => SyncUntouched(db, e, user, ev, a, batch);
    case ReparkStep(ctx) => RepeatUntouched(db, ctx, a, batch);
    case SubmitLegacyStep(user, ev) => LegacyUntouched(db, user, ev, a, batch);
    case LegacyReparkStep(ctx) => RejectAgainUntouched(db, ctx, a, batch);
    case IssueStep(e, user, r, now, newId, stale) => IssueUntouched(db, e, user, r, now, newId, stale, a, batch);
    case CloseStep(e, user, auth, close, manifest) => CloseUntouched(db, e, user, auth, close, manifest, a, batch);
    case TopUpStep(user, r, stale) => TopUpUntouched(db, user, r, stale, a, batch);
    case StoreStep(e, user, op, w) =>
      StoreKeepsInv(db, opening, e, user, op, w);
      SameUntouched(db, db, a, batch);
    case CatalogueStep(keys, terminals, inventory) => SameUntouched(db, Next(db, s), a, batch);
  }

  // ---------------------------------------------------------------------------------------------
  // The catalogue

  /** Only a catalogue step changes keys and terminals; owners keep their wallets. */
  ghost predicate CatalogueKept(before: Db, after: Db) {
    before.keys == after.keys && before.terminals == after.terminals && before.walletOf == after.walletOf
  }

  lemma PerformKeepsCatalogue(db: Db, v: Verdict)
    requires Executable(db, v)
    ensures CatalogueKept(db, Perform(db, v))
  {
    hide Credit, CreditUser, Flag, RecordClaim, ParkedPayment, NewPayment, WithAck, ResolutionOf, SpendCommitment;
  }

  lemma LegacyKeepsCatalogue(db: Db, v: LegacyVerdict)
    requires LegacyExecutable(db, v)
    ensures CatalogueKept(db, PerformLegacy(db, v))
  {
    hide Credit, CreditUser, LegacyPayment;
  }

  lemma ReparkOnKeepsCatalogue(db: Db, ctx: Context)
    requires ctx.receipt.message.body.Receipt?
    ensures CatalogueKept(db, ReparkOn(db, ctx))
  {
    hide Flag, RecordClaim, ReparkedPayment;
  }

  lemma RepeatKeepsCatalogue(db: Db, ctx: Context)
    ensures CatalogueKept(db, ParkAgain(db, ctx))
  {
    hide ReparkOn, NonceTaken;
    if ctx.receipt.message.body.Receipt? {
      ReparkOnKeepsCatalogue(db, ctx);
    }
  }

  lemma RejectAgainKeepsCatalogue(db: Db, ctx: LegacyContext)
    ensures CatalogueKept(db, RejectAgain(db, ctx))
  {
    hide RejectedPayment, NonceTaken;
  }

  lemma StoreTables(db: Db, env: Env, user: Id, op: Id, w: Wire)
    ensures var after := StoreResolution(db, env, user, op, w).0; after == db.(resolutions := after.resolutions)
  {
    hide ResolutionMatches, Parse3, Authorized;
    if StoreResolution(db, env, user, op, w).1.Stored? && op !in db.resolutions {
      assert StoreResolution(db, env, user, op, w).0 ==
             db.(resolutions := db.resolutions[op := ResolutionRow(db.payments[op].state, w.envelope)]);
    } else {
      assert StoreResolution(db, env, user, op, w).0 == db;
    }
  }

  lemma StoreKeepsCatalogue(db: Db, env: Env, user: Id, op: Id, w: Wire)
    ensures CatalogueKept(db, StoreResolution(db, env, user, op, w).0)
  {
    StoreTables(db, env, user, op, w);
    hide StoreResolution;
  }

  lemma CloseKeepsCatalogue(db: Db, env: Env, user: Id, auth: Id, close: Wire, manifest: Option<seq<Entry>>)
    ensures CatalogueKept(db, Close(db, env, user, auth, close, manifest).0)
  {
    CloseCases(db, env, user, auth, close, manifest);
    hide Close, SealOn, Flag;
    if auth in db.commitments && close.Wire? && manifest.Some? {
      SealKeepsCatalogue(db, auth, close.envelope, manifest.value);
    }
  }

  lemma SyncKeepsCatalogue(db: Db, env: Env, user: Id, ev: Evidence)
    ensures CatalogueKept(db, Sync(db, env, user, ev))
  {
    hide Judge, Perform, Executable;
    if Executable(db, Judge(db, env, user, ev)) {
      PerformKeepsCatalogue(db, Judge(db, env, user, ev));
    }
  }

  lemma SyncLegacyKeepsCatalogue(db: Db, user: Id, ev: LegacyEvidence)
    ensures CatalogueKept(db, SyncLegacy(db, user, ev))
  {
    hide JudgeLegacy, PerformLegacy, LegacyExecutable;
    if LegacyExecutable(db, JudgeLegacy(db, user, ev)) {
      LegacyKeepsCatalogue(db, JudgeLegacy(db, user, ev));
    }
  }

  lemma IssueKeepsCatalogue(db: Db, env: Env, user: Id, r: IssueRequest, now: int, id: Id, stale: bool)
    ensures CatalogueKept(db, Issue(db, env, user, r, now, id, stale).0)
  {
    IssueTables(db, env, user, r, now, id, stale);
    hide Issue;
  }

  lemma TopUpKeepsCatalogue(db: Db, user: Id, r: TopupRequest, stale: bool)
    ensures CatalogueKept(db, TopUp(db, user, r, stale).0)
  {
    TopUpTables(db, user, r, stale);
    hide TopUp;
  }

  lemma StepKeepsCatalogue(db: Db, s: Step)
    requires !s.CatalogueStep?
    ensures CatalogueKept(db, Next(db, s))
  {
    hide Sync, SyncLegacy, Issue, Close, TopUp, ParkAgain, RejectAgain, StoreResolution, CatalogueKept;
    match s
    case SubmitStep(env, user, ev) => SyncKeepsCatalogue(db, env, user, ev);
    case ReparkStep(ctx) => RepeatKeepsCatalogue(db, ctx);
    case SubmitLegacyStep(user, ev) => SyncLegacyKeepsCatalogue(db, user, ev);
    case LegacyReparkStep(ctx) => RejectAgainKeepsCatalogue(db, ctx);
    case IssueStep(env, user, r, now, newId, stale) => IssueKeepsCatalogue(db, env, user, r, now, newId, stale);
    case CloseStep(env, user, auth, close, manifest) => CloseKeepsCatalogue(db, env, user, auth, close, manifest);
    case TopUpStep(user, r, stale) => TopUpKeepsCatalogue(db, user, r, stale);
    case StoreStep(env, user, op, w) => StoreKeepsCatalogue(db, env, user, op, w);
  }

  lemma SealKeepsCatalogue(db: Db, auth: Id, close: Envelope, entries: seq<Entry>)
    requires auth in db.commitments
    ensures CatalogueKept(db, SealOn(db, auth, close, entries))
  {
    hide Total;
  }

  lemma EvolvedCatalogue(before: Db, after: Db, a: Id)
    requires Evolves(before, after) && CatalogueKept(before, after)
    requires a in before.commitments && a in before.authorizations
    requires Agree(before.authorizations, after.authorizations, a)
    ensures SameCatalogue(before, after, a)
  {
    hide PaymentsEvolve, Submap;
  }

  lemma UntouchedParts(before: Db, after: Db, a: Id, batch: Batch)
    requires Untouched(before, after, a, batch)
    ensures Agree(before.authorizations, after.authorizations, a)
  {
    hide SameItem, Quiet;
  }

  lemma {:induction false} ElsewhereVouches(db: Db, env: Env, start: Start, s: Step, a: Id, batch: Batch)
    requires s.CatalogueStep? && Elsewhere(db, env, start.commitment.grant, s, a, batch)
    requires Standing(db, env, start, a, batch)
    ensures Standing(Next(db, s), env, start, a, batch)
  {
    hide Validates, Sum, Next;
  }

  /** No step elsewhere withdraws the standing of the batch. */
  lemma ElsewhereStands(db: Db, opening: map<Id, int>, env: Env, start: Start, s: Step, a: Id, batch: Batch)
    requires Inv(db, opening) && Elsewhere(db, env, start.commitment.grant, s, a, batch) && SafeStep(db, s)
    requires a in db.commitments && a in db.authorizations && Standing(db, env, start, a, batch)
    ensures Standing(Next(db, s), env, start, a, batch)
  {
    hide *;
    if s.CatalogueStep? {
      ElsewhereVouches(db, env, start, s, a, batch);
    } else {
      ElsewhereUntouched(db, opening, env, start.commitment.grant, s, a, batch);
      UntouchedParts(db, Next(db, s), a, batch);
      StepEvolves(db, opening, s);
      StepKeepsCatalogue(db, s);
      EvolvedCatalogue(db, Next(db, s), a);
      SameCatalogueStands(db, Next(db, s), env, start, a, batch);
    }
  }
}
