/** What the issuer's signed resolutions say, and what evidence stands behind an accepted payment, in every state a run can
  reach. */
module Statements {
  import opened Messages
  import opened Database
  import opened SyncV3
  import opened SyncV2
  import opened Authorizations
  import opened Invariant
  import opened Steps
  import opened Reconciliation
  import opened Handlers
  import opened LegacySteps
  import opened Rollback
  import opened LegacyRollback
  import opened Machine
  import opened History
  import opened Conservation
  import opened Authenticity

  /** The signature is by the key with this fingerprint, over this very message. */
  predicate SignedUnder(e: Envelope, fingerprint: Digest) {
    e.signature.over == e.message && OfKey(e.signature.key) == fingerprint
  }

  /** The resolution states the payment's outcome, with the payment's own fields and the digests of its evidence. */
  predicate States(op: Id, p: Payment, c: Commitment, r: ResolutionRow) {
    && r.envelope.message.version == 3 && r.envelope.message.body.Resolution?
    && var s := r.envelope.message.body;
    && SignedUnder(r.envelope, s.issuerFingerprint)
    && (s.accepted <==> p.state == Accepted) && s.op == op && s.wallet == p.wallet && s.merchant == p.merchant
    && s.terminal == p.terminal && s.amount == p.amount && s.auth == p.auth && s.revision == 1
    && s.authorizationDigest == OfMessage(c.grant.message)
    && s.requestDigest == OfMessage(p.request.message) && s.receiptDigest == OfMessage(p.receipt.message)
  }

  /** An accepted payment was requested and acknowledged by one terminal key, and receipted by the granted wallet key. */
  predicate Attested(p: Payment, c: Commitment) {
    && p.request.message.body.Request? && c.grant.message.body.Grant? && p.ack.Some?
    && p.ack.value.message.body.Ack?
    && SignedUnder(p.request, p.request.message.body.posFingerprint)
    && SignedUnder(p.ack.value, p.request.message.body.posFingerprint) && p.ack.value.signature.key == p.request.signature.key
    && p.receipt.signature == Signature(c.grant.message.body.walletPublicKey, p.receipt.message)
    && p.ack.value.message.body.receiptDigest == OfMessage(p.receipt.message)
  }

  /** Every resolved payment of version 3 is stated by its resolution, and attested when accepted. */
  ghost predicate ProofsOk(db: Db) {
    forall op | op in db.resolutions && op in db.payments && db.payments[op].auth in db.commitments ::
      var p, c := db.payments[op], db.commitments[db.payments[op].auth];
      States(op, p, c, db.resolutions[op]) && (p.state == Accepted ==> Attested(p, c))
  }

  // ---------------------------------------------------------------------------------------------
  // Settling

  lemma ResolutionStates(db: Db, ctx: Context, issuer: Issuer)
    requires Executable(db, Settle(ctx, issuer)) && Bound(db, ctx)
    requires PaymentsOk(db.payments, db.commitments, db.authorizations)
    ensures
      var after := SettleOn(db, ctx, issuer);
      && ctx.op in after.payments && ctx.op in after.resolutions && after.payments[ctx.op].auth == ctx.auth
      && ctx.auth in after.commitments && States(ctx.op, after.payments[ctx.op], after.commitments[ctx.auth], after.resolutions[ctx.op])
  {
    hide RecordClaim, Credit, CreditUser, ReceiptBound, AckBound, NonceTaken;
    if ctx.op in db.payments {
      KnownRow(db, ctx);
    }
  }

  lemma SettledIsAttested(db: Db, env: Env, ctx: Context, issuer: Issuer, grant: Envelope)
    requires Executable(db, Settle(ctx, issuer)) && db.commitments[ctx.auth].grant == grant
    requires Authentic(db, env, ctx.request, grant, ctx.receipt, ctx.ack) && ctx.ack.Some?
    requires ctx.op in db.payments ==>
               db.payments[ctx.op].request == ctx.request && db.payments[ctx.op].receipt == ctx.receipt
               && (db.payments[ctx.op].ack.None? || db.payments[ctx.op].ack == ctx.ack)
    ensures ctx.op in SettleOn(db, ctx, issuer).payments && ctx.auth in SettleOn(db, ctx, issuer).commitments
    ensures Attested(SettleOn(db, ctx, issuer).payments[ctx.op], SettleOn(db, ctx, issuer).commitments[ctx.auth])
  {
    hide RecordClaim, Credit, CreditUser, ResolutionOf, GrantIsStored, WalletKeyStands, Payable;
  }

  /** Only a settlement writes a resolution. */
  lemma OthersWriteNone(db: Db, v: Verdict)
    requires Executable(db, v) && !v.Settle?
    ensures Perform(db, v).resolutions == db.resolutions
  {
    hide Flag, RecordClaim, ParkedPayment, NewPayment;
  }

  lemma SettlesOne(db: Db, ctx: Context, issuer: Issuer)
    requires Executable(db, Settle(ctx, issuer))
    ensures SettleOn(db, ctx, issuer).resolutions.Keys == db.resolutions.Keys + {ctx.op}
  {
    hide RecordClaim, Credit, CreditUser, ResolutionOf, WithAck, SpendCommitment;
  }

  lemma LegacyWritesNone(db: Db, v: LegacyVerdict)
    requires LegacyExecutable(db, v)
    ensures PerformLegacy(db, v).resolutions == db.resolutions
  {
    hide Credit, CreditUser, LegacyPayment;
  }

  lemma CloseWritesNone(db: Db, env: Env, user: Id, auth: Id, close: Wire, manifest: Option<seq<Entry>>)
    ensures Close(db, env, user, auth, close, manifest).0.resolutions == db.resolutions
  {
    hide TrustedGrant, CloseOpen, WellFormedManifest, Total, Fits, Valid3;
    if (&& auth in db.commitments && Parse3(close).Some? && manifest.Some?
        && CloseBound(close.envelope, db.commitments[auth].grant, manifest.value)) {
      OpenCloseCases(db, env, auth, close.envelope, manifest.value);
      hide CloseOpen, Flag, Total;
    }
  }

  lemma IssueWritesNone(db: Db, env: Env, user: Id, r: IssueRequest, now: int, id: Id, stale: bool)
    ensures Issue(db, env, user, r, now, id, stale).0.resolutions == db.resolutions
  {
    hide Available, Repeat, Valid3;
  }

  lemma SecondWritesNone(db: Db, s: Step)
    requires s.ReparkStep? || s.LegacyReparkStep?
    ensures Next(db, s).resolutions == db.resolutions
  {
    hide Flag, RecordClaim, NonceTaken, ReparkedPayment, RejectedPayment;
  }

  lemma TopUpWritesNone(db: Db, user: Id, r: TopupRequest, stale: bool)
    ensures TopUp(db, user, r, stale).0.resolutions == db.resolutions
  {
    hide Credit, CreditUser, RepeatTopup;
  }

  lemma SyncLegacyWritesNone(db: Db, user: Id, ev: LegacyEvidence)
    ensures SyncLegacy(db, user, ev).resolutions == db.resolutions
  {
    hide JudgeLegacy, PerformLegacy, LegacyExecutable;
    if LegacyExecutable(db, JudgeLegacy(db, user, ev)) {
      LegacyWritesNone(db, JudgeLegacy(db, user, ev));
    }
  }

  /** No step but a submission writes a resolution. */
  lemma StepWritesNone(db: Db, opening: map<Id, int>, s: Step)
    requires Inv(db, opening) && !s.SubmitStep?
    ensures Next(db, s).resolutions == db.resolutions
  {
    hide Inv, Sync, SyncLegacy, Issue, Close, TopUp, StoreResolution, ParkAgain, RejectAgain;
    match s
    case ReparkStep(ctx) => SecondWritesNone(db, s);
    case SubmitLegacyStep(user, ev) => SyncLegacyWritesNone(db, user, ev);
    case LegacyReparkStep(ctx) => SecondWritesNone(db, s);
    case IssueStep(env, user, r, now, newId, stale) => IssueWritesNone(db, env, user, r, now, newId, stale);
    case CloseStep(env, user, auth, close, manifest) => CloseWritesNone(db, env, user, auth, close, manifest);
    case TopUpStep(user, r, stale) => TopUpWritesNone(db, user, r, stale);
    case StoreStep(env, user, op, w) => StoreKeepsInv(db, opening, env, user, op, w);
    case CatalogueStep(keys, terminals, inventory) =>
  }

  // ---------------------------------------------------------------------------------------------
  // Over runs

  /** What a resolution stated it still states: neither it, nor the fields it speaks of, ever change. */
  lemma StillStated(before: Db, after: Db, op: Id)
    requires Evolves(before, after)
    requires op in before.resolutions && op in before.payments && before.payments[op].auth in before.commitments
    requires before.payments[op].Final() && before.payments[op].receipt.message.body.Receipt?
    requires
      var p, c := before.payments[op], before.commitments[before.payments[op].auth];
      States(op, p, c, before.resolutions[op]) && (p.state == Accepted ==> Attested(p, c))
    ensures op in after.resolutions && op in after.payments && after.payments[op].auth == before.payments[op].auth
    ensures after.payments[op].auth in after.commitments
    ensures
      var p, c := after.payments[op], after.commitments[after.payments[op].auth];
      States(op, p, c, after.resolutions[op]) && (p.state == Accepted ==> Attested(p, c))
  {
    assert RowEvolves(before.payments[op], after.payments[op]);
    hide SignedUnder, WalletsEvolve;
  }

  lemma ResolvedRow(db: Db, op: Id)
    requires ResolutionsOk(db.resolutions, db.payments, db.commitments.Keys)
    requires PaymentsOk(db.payments, db.commitments, db.authorizations) && op in db.resolutions
    ensures op in db.payments && db.payments[op].auth in db.commitments && db.payments[op].Final()
    ensures db.payments[op].receipt.message.body.Receipt?
  {
    assert PaymentOk(op, db.payments[op], db.commitments[db.payments[op].auth]);
    hide AckBound;
  }

  /** Nothing new was resolved, or one payment as its resolution states. */
  lemma ProofsGrow(before: Db, after: Db, opening: map<Id, int>, added: set<Id>)
    requires Inv(before, opening) && Evolves(before, after) && ProofsOk(before)
    requires after.resolutions.Keys == before.resolutions.Keys + added
    requires forall op | op in added ::
               && op in after.payments && after.payments[op].auth in after.commitments && op in after.resolutions
               && States(op, after.payments[op], after.commitments[after.payments[op].auth], after.resolutions[op])
               && (after.payments[op].state == Accepted ==> Attested(after.payments[op], after.commitments[after.payments[op].auth]))
    ensures ProofsOk(after)
  {
    assert ResolutionsOk(before.resolutions, before.payments, before.commitments.Keys)
           && PaymentsOk(before.payments, before.commitments, before.authorizations) by {
      hide *;
      InvParts(before, opening);
    }
    hide Inv, Evolves, ResolutionsOk, PaymentsOk, States, Attested;
    forall op | op in after.resolutions && op in after.payments && after.payments[op].auth in after.commitments
      ensures var p, c := after.payments[op], after.commitments[after.payments[op].auth];
              States(op, p, c, after.resolutions[op]) && (p.state == Accepted ==> Attested(p, c))
    {
      if op !in added {
        ResolvedRow(before, op);
        StillStated(before, after, op);
      }
    }
  }

  lemma SubmitKeepsProofs(db: Db, opening: map<Id, int>, env: Env, user: Id, ev: Evidence)
    requires Inv(db, opening) && ProofsOk(db)
    ensures ProofsOk(Sync(db, env, user, ev))
  {
    hide *;
    SyncKeepsInv(db, opening, env, user, ev);
    SyncEvolves(db, opening, env, user, ev);
    var v := Judge(db, env, user, ev);
    SyncIs(db, env, user, ev);
    if v.Settle? {
      JudgeJustified(db, opening, env, user, ev);
      SettlingIsBound(db, v);
      InvParts(db, opening);
      SettlementRecorded(v);
      RecordedIsAuthentic(db, env, user, ev);
      BoundGrant(db, env, ev, v);
      EnvelopesSent(db, env, ev);
      AckSettled(db, env, user, ev);
      ResolutionStates(db, v.ctx, v.issuer);
      SettledIsAttested(db, env, v.ctx, v.issuer, ev.grant.envelope);
      SettlesOne(db, v.ctx, v.issuer);
      ProofsGrow(db, Sync(db, env, user, ev), opening, {v.ctx.op});
    } else {
      OthersWriteNone(db, v);
      assert db.resolutions.Keys == db.resolutions.Keys + {};
      ProofsGrow(db, Sync(db, env, user, ev), opening, {});
    }
  }

  lemma SyncIs(db: Db, env: Env, user: Id, ev: Evidence)
    requires Executable(db, Judge(db, env, user, ev))
    ensures Sync(db, env, user, ev) == Perform(db, Judge(db, env, user, ev))
    ensures var v := Judge(db, env, user, ev); v.Settle? ==> Perform(db, v) == SettleOn(db, v.ctx, v.issuer)
  {
    hide Judge, SettleOn, Executable;
  }

  lemma SettlementRecorded(v: Verdict)
    requires v.Settle?
    ensures Recorded(v)
  {
  }

  lemma SettlingIsBound(db: Db, v: Verdict)
    requires Justified(db, v) && v.Settle?
    ensures Bound(db, v.ctx) && v.ctx.ack.Some?
  {
    hide Bound;
  }

  lemma BoundGrant(db: Db, env: Env, ev: Evidence, v: Verdict)
    requires v.Settle? && Bound(db, v.ctx) && AuthenticEvidence(db, env, ev) && v.ctx.auth == ev.grant.envelope.message.body.auth
    requires v.ctx.request == ev.request.envelope && v.ctx.receipt == ev.receipt.envelope && v.ctx.ack == AckOf(ev.ack)
    ensures v.ctx.auth in db.commitments && db.commitments[v.ctx.auth].grant == ev.grant.envelope
    ensures Authentic(db, env, v.ctx.request, ev.grant.envelope, v.ctx.receipt, v.ctx.ack)
    ensures v.ctx.op in db.payments ==>
              db.payments[v.ctx.op].request == v.ctx.request && db.payments[v.ctx.op].receipt == v.ctx.receipt
  {
    hide GrantStands, RequestStands, ReceiptStands, AckStands, WalletKeyStands, ReceiptBound, AckBound, NonceTaken;
  }

  lemma EnvelopesSent(db: Db, env: Env, ev: Evidence)
    requires AuthenticEvidence(db, env, ev)
    ensures ev.grant.Wire? && (AckOf(ev.ack).Some? <==> ev.ack.Some?) && (ev.ack.Some? ==> ev.ack.value.Wire?)
  {
    hide Authentic;
  }

  lemma AckSettled(db: Db, env: Env, user: Id, ev: Evidence)
    requires Judge(db, env, user, ev).Settle? && Judge(db, env, user, ev).ctx.ack == AckOf(ev.ack) && ev.ack.Some?
    requires Judge(db, env, user, ev).ctx.op == ev.op && ev.ack.value.Wire?
    ensures ev.op in db.payments ==> db.payments[ev.op].ack.None? || db.payments[ev.op].ack == AckOf(ev.ack)
  {
    hide JudgeBound, ReceiptBound, AckBound, Authorized, Valid3, Validate, Resolved;
  }

  lemma StepKeepsProofs(db: Db, opening: map<Id, int>, s: Step)
    requires Inv(db, opening) && ProofsOk(db) && SafeStep(db, s)
    ensures ProofsOk(Next(db, s))
  {
    hide *;
    if s.SubmitStep? {
      SubmitKeepsProofs(db, opening, s.env, s.user, s.ev);
      SubmitNext(db, s);
    } else {
      StepEvolves(db, opening, s);
      StepWritesNone(db, opening, s);
      assert db.resolutions.Keys == db.resolutions.Keys + {};
      ProofsGrow(db, Next(db, s), opening, {});
    }
  }

  lemma SubmitNext(db: Db, s: Step)
    requires s.SubmitStep?
    ensures Next(db, s) == Sync(db, s.env, s.user, s.ev)
  {
    hide Sync;
  }

  /** Over every run with safe windows, each resolution states exactly its payment's outcome over its evidence, signed by
    the key it names, and each accepted payment is attested by its terminal and its wallet. */
  lemma {:induction false} StatedForEver(db: Db, opening: map<Id, int>, steps: seq<Step>)
    requires Inv(db, opening) && ProofsOk(db) && SafeWindows(db, steps)
    ensures ProofsOk(Run(db, steps))
    decreases |steps|
  {
    hide Inv, Next, SafeStep, ProofsOk;
    if |steps| > 0 {
      StepKeepsProofs(db, opening, steps[0]);
      StepKeepsInv(db, opening, steps[0]);
      StatedForEver(Next(db, steps[0]), opening, steps[1..]);
    }
  }

  /** With no resolutions there is nothing to state: every run from a fresh database qualifies. */
  lemma StartsStated(db: Db)
    requires db.resolutions == map[]
    ensures ProofsOk(db)
  {
  }
}
