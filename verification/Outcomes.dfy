/** Every outcome of a submission, in terms of the evidence and the tables alone. */
module Outcomes {
  import opened Messages
  import opened Database
  import opened SyncV3
  import opened Authorizations
  import opened Invariant
  import opened Steps
  import opened Reconciliation
  import opened Guards
  import opened Authenticity

  /** The payer or the merchant of the evidence. */
  predicate PartyOf(db: Db, user: Id, wallet: Id, terminal: Id) {
    || (exists w :: w == wallet && w in db.wallets && db.wallets[w].owner == user)
    || (exists t :: t == terminal && t in db.terminals && db.terminals[t].merchantUser == user)
  }

  /** What is known of the operation is this evidence, or its nonce is new. */
  predicate Consistent(db: Db, ev: Evidence)
    requires ev.request.Wire? && ev.receipt.Wire?
    requires ev.request.envelope.message.body.Request?
  {
    if ev.op in db.payments then
      var p := db.payments[ev.op];
      && p.request == ev.request.envelope && p.receipt == ev.receipt.envelope
      && (p.ack.Some? && ev.ack.Some? ==> ev.ack.value == Wire(p.ack.value))
    else forall o | o in db.payments :: db.payments[o].nonce != ev.request.envelope.message.body.common.nonce
  }

  /** Authentic, from a party of the payment, and nothing recorded contradicts it. */
  predicate Acceptable(db: Db, env: Env, user: Id, ev: Evidence) {
    && AuthenticEvidence(db, env, ev)
    && PartyOf(db, user, ev.grant.envelope.message.body.wallet, ev.request.envelope.message.body.common.terminal)
    && Consistent(db, ev)
  }

  predicate Ended(db: Db, op: Id) {
    op in db.payments && (db.payments[op].state == Accepted || db.payments[op].state == Rejected)
  }

  lemma PartyTerms(db: Db, user: Id, wallet: Id, terminal: Id)
    ensures Authorized(db, user, wallet, terminal) <==> PartyOf(db, user, wallet, terminal)
  {
  }

  lemma KnownPayment(db: Db, op: Id, receipt: Envelope)
    requires PaymentsOk(db.payments, db.commitments, db.authorizations) && CommitmentsOk(db.commitments, db.authorizations)
    requires op in db.payments && db.payments[op].receipt == receipt && receipt.message.body.Receipt?
    ensures db.payments[op].wallet == receipt.message.body.wallet
    ensures db.payments[op].terminal == receipt.message.body.common.terminal
  {
    var p := db.payments[op];
    if p.auth in db.commitments {
      assert PaymentOk(op, p, db.commitments[p.auth]);
      assert CommitmentOk(p.auth, db.commitments[p.auth], db.authorizations[p.auth]);
    }
    hide AckBound;
  }

  lemma FieldsOf(db: Db, env: Env, ev: Evidence)
    requires AuthenticEvidence(db, env, ev)
    ensures Parse3(ev.request).Some? && Parse3(ev.grant).Some? && Parse3(ev.receipt).Some? && ev.ack != Some(Undecodable)
    ensures ev.request.envelope.message.body.Request? && ev.receipt.envelope.message.body.Receipt?
    ensures ev.grant.envelope.message.body.Grant?
    ensures ev.request.envelope.message.body.common == ev.receipt.envelope.message.body.common
    ensures ev.receipt.envelope.message.body.wallet == ev.grant.envelope.message.body.wallet
    ensures OperationOf(ev.request.envelope.message.body) == Some(ev.op) == OperationOf(ev.receipt.envelope.message.body)
  {
  }

  /** Acceptable evidence of an operation that has not ended is judged by what is recorded. */
  lemma AcceptableIsBound(db: Db, opening: map<Id, int>, env: Env, user: Id, ev: Evidence)
    requires Inv(db, opening) && !Ended(db, ev.op) && Acceptable(db, env, user, ev)
    ensures ev.request.Wire? && ev.grant.Wire? && ev.receipt.Wire?
    ensures
      var ctx := Validate(db, env, ev.op, ev.request.envelope, ev.grant.envelope, ev.receipt.envelope, ev.ack);
      && ctx.Some? && ctx.value.receipt.message.body.Receipt? && ctx.value.auth in db.commitments && Bound(db, ctx.value)
      && Judge(db, env, user, ev) == JudgeBound(db, env, user, ctx.value)
  {
    assert WalletsOk(db.wallets, db.walletOf, db.saldo) && PaymentsOk(db.payments, db.commitments, db.authorizations)
           && CommitmentsOk(db.commitments, db.authorizations) by {
      hide *;
      InvParts(db, opening);
    }
    hide Inv, WalletsOk, PaymentsOk, CommitmentsOk;
    FieldsOf(db, env, ev);
    ValidatesIffAuthentic(db, env, ev.op, ev.request.envelope, ev.grant.envelope, ev.receipt.envelope, ev.ack);
    ValidatedIsBound(db, env, ev.op, ev.request.envelope, ev.grant.envelope, ev.receipt.envelope, ev.ack);
    PartyTerms(db, user, ev.grant.envelope.message.body.wallet, ev.request.envelope.message.body.common.terminal);
    if ev.op in db.payments {
      KnownPayment(db, ev.op, ev.receipt.envelope);
    }
    hide Validate, JudgeBound, Bound, Authentic, Authorized, PartyOf, Valid3, ReceiptBound, AckBound;
  }

  /** Exactly the acceptable submissions are recorded; any other leaves the database as it was and is not called valid. */
  lemma RecordedIffAcceptable(db: Db, opening: map<Id, int>, env: Env, user: Id, ev: Evidence)
    requires Inv(db, opening) && !Ended(db, ev.op) && env.issuer.Some?
    ensures Recorded(Judge(db, env, user, ev)) <==> Acceptable(db, env, user, ev)
    ensures !Acceptable(db, env, user, ev) ==>
              && Sync(db, env, user, ev) == db && Executable(db, Judge(db, env, user, ev))
              && var reply := ReplyOf(db, Judge(db, env, user, ev));
              reply.Forbidden? || reply.submission != VALIDATED
  {
    hide *;
    NotEnded(db, ev.op);
    if Recorded(Judge(db, env, user, ev)) {
      RecordedIsAcceptable(db, env, user, ev);
    } else {
      UnrecordedIsRefused(db, env, user, ev);
    }
    if Acceptable(db, env, user, ev) {
      AcceptableIsBound(db, opening, env, user, ev);
      var ctx := Validate(db, env, ev.op, ev.request.envelope, ev.grant.envelope, ev.receipt.envelope, ev.ack).value;
      BoundIsRecorded(db, opening, env, user, ctx);
    }
  }

  /** No submission is recorded whose request, or acknowledgement, was not signed by the key the catalogue holds for the
    terminal, over that very message. */
  lemma RecordedIsSigned(db: Db, env: Env, user: Id, ev: Evidence)
    requires Recorded(Judge(db, env, user, ev))
    ensures ev.request.Wire? && ev.request.envelope.message.body.Request?
    ensures
      var posKey := ev.request.envelope.message.body.posKey;
      && posKey in db.keys
      && ev.request.envelope.signature == Signature(db.keys[posKey].publicKey, ev.request.envelope.message)
      && (ev.ack.Some? ==>
            && ev.ack.value.Wire?
            && ev.ack.value.envelope.signature == Signature(db.keys[posKey].publicKey, ev.ack.value.envelope.message))
    ensures ev.grant.Wire? && ev.grant.envelope.message.body.Grant? && ev.receipt.Wire?
    ensures ev.receipt.envelope.signature ==
            Signature(ev.grant.envelope.message.body.walletPublicKey, ev.receipt.envelope.message)
  {
    RecordedIsAuthentic(db, env, user, ev);
    hide Judge, Payable, GrantIsStored, WalletKeyStands;
  }

  /** The request, or an acknowledgement that is present, is not signed by the catalogue's key of the terminal. */
  predicate Forged(db: Db, ev: Evidence)
    requires ev.request.Wire? && ev.request.envelope.message.body.Request?
  {
    var posKey := ev.request.envelope.message.body.posKey;
    posKey in db.keys ==>
      || ev.request.envelope.signature != Signature(db.keys[posKey].publicKey, ev.request.envelope.message)
      || (ev.ack.Some? && ev.ack.value.Wire?
          && ev.ack.value.envelope.signature != Signature(db.keys[posKey].publicKey, ev.ack.value.envelope.message))
  }

  /** A forged submission of an operation that has not ended changes nothing and is never called valid. */
  lemma ForgedIsRefused(db: Db, env: Env, user: Id, ev: Evidence)
    requires ev.request.Wire? && ev.request.envelope.message.body.Request? && Forged(db, ev) && !Ended(db, ev.op)
    ensures Executable(db, Judge(db, env, user, ev)) && Sync(db, env, user, ev) == db
    ensures var reply := ReplyOf(db, Judge(db, env, user, ev)); reply.Forbidden? || reply.submission != VALIDATED
  {
    hide Judge, Sync, ReplyOf, Executable;
    if Recorded(Judge(db, env, user, ev)) {
      RecordedIsSigned(db, env, user, ev);
    }
    NotEnded(db, ev.op);
    UnrecordedIsRefused(db, env, user, ev);
  }

  lemma NotEnded(db: Db, op: Id)
    ensures op in db.payments ==> (Ended(db, op) <==> db.payments[op].Final())
    ensures op !in db.payments ==> !Ended(db, op)
  {
  }

  lemma RecordedIsAcceptable(db: Db, env: Env, user: Id, ev: Evidence)
    requires Recorded(Judge(db, env, user, ev)) && (ev.op in db.payments ==> !db.payments[ev.op].Final())
    ensures Acceptable(db, env, user, ev)
  {
    RecordedIsAuthentic(db, env, user, ev);
    FieldsOf(db, env, ev);
    PartyTerms(db, user, ev.grant.envelope.message.body.wallet, ev.request.envelope.message.body.common.terminal);
    RefusalsRecordNothing(db, env, user, ev);
    var ctx := Validate(db, env, ev.op, ev.request.envelope, ev.grant.envelope, ev.receipt.envelope, ev.ack).value;
    FreshNonce(db, env, user, ctx);
    hide Validate, JudgeBound, Authentic, Authorized, PartyOf, Valid3, NonceTaken;
    assert ev.op !in db.payments ==> !NonceTaken(db, ev.request.envelope.message.body.common.nonce);
    NonceTerms(db, ev.request.envelope.message.body.common.nonce);
  }

  lemma NonceTerms(db: Db, nonce: nat)
    ensures NonceTaken(db, nonce) <==> !forall o | o in db.payments :: db.payments[o].nonce != nonce
  {
  }

  lemma FreshNonce(db: Db, env: Env, user: Id, ctx: Context)
    requires ctx.receipt.message.body.Receipt? && ctx.auth in db.commitments && Recorded(JudgeBound(db, env, user, ctx))
    ensures ctx.op in db.payments || !NonceTaken(db, ctx.Common().nonce)
  {
    hide ClaimConflict, GuardsPass, EmittedByOther, SettlementRowsTaken, InManifest, NonceTaken, Resolved, Authorized;
  }

  lemma BoundIsRecorded(db: Db, opening: map<Id, int>, env: Env, user: Id, ctx: Context)
    requires Inv(db, opening) && Bound(db, ctx) && env.issuer.Some?
    requires ctx.receipt.message.body.Receipt? && ctx.auth in db.commitments
    ensures Recorded(JudgeBound(db, env, user, ctx))
  {
    hide Inv, Bound, ClaimConflict, GuardsPass, EmittedByOther, SettlementRowsTaken, InManifest, NonceTaken;
    Unblocked(db, opening, ctx);
  }

  lemma UnrecordedIsRefused(db: Db, env: Env, user: Id, ev: Evidence)
    requires !Recorded(Judge(db, env, user, ev)) && (ev.op in db.payments ==> !db.payments[ev.op].Final())
    ensures Judge(db, env, user, ev).Refuse? && Sync(db, env, user, ev) == db && Executable(db, Judge(db, env, user, ev))
    ensures var reply := ReplyOf(db, Judge(db, env, user, ev)); reply.Forbidden? || reply.submission != VALIDATED
  {
    var v := Judge(db, env, user, ev);
    RefusalsOfOpen(db, env, user, ev);
    hide Judge;
  }

  lemma RefusalsOfOpen(db: Db, env: Env, user: Id, ev: Evidence)
    requires !Recorded(Judge(db, env, user, ev)) && (ev.op in db.payments ==> !db.payments[ev.op].Final())
    ensures Judge(db, env, user, ev).Refuse?
    ensures var reply := Judge(db, env, user, ev).reply; reply.Forbidden? || reply.submission != VALIDATED
  {
    hide JudgeBound, ReceiptBound, AckBound, Authorized, Valid3, Validate;
    var request, grant, receipt := Parse3(ev.request), Parse3(ev.grant), Parse3(ev.receipt);
    if request.Some? && grant.Some? && receipt.Some? {
      var ctx := Validate(db, env, ev.op, request.value, grant.value, receipt.value, ev.ack);
      if ctx.Some? {
        BoundKinds(request.value, receipt.value, grant.value);
        BoundRefusals(db, env, user, ctx.value);
      }
    }
  }

  lemma BoundRefusals(db: Db, env: Env, user: Id, ctx: Context)
    requires ctx.receipt.message.body.Receipt? && ctx.auth in db.commitments
    requires ctx.op in db.payments ==> !db.payments[ctx.op].Final()
    ensures var v := JudgeBound(db, env, user, ctx);
            Recorded(v) || (v.Refuse? && (v.reply.Forbidden? || v.reply.submission != VALIDATED))
  {
    hide ClaimConflict, GuardsPass, EmittedByOther, SettlementRowsTaken, InManifest, NonceTaken, Resolved, Authorized;
  }

  // ---------------------------------------------------------------------------------------------
  // What recorded evidence becomes

  /** Another operation of the authorization claims the same index. */
  predicate IndexTaken(db: Db, auth: Id, op: Id, index: int) {
    exists k | k in db.claims :: k.0 == auth && k.1 != op && db.claims[k].index == index
  }

  /** The sealed manifest has a line for exactly this receipt, recorded before. */
  predicate ListedBefore(db: Db, auth: Id, op: Id, receipt: Envelope)
    requires auth in db.commitments && db.commitments[auth].sealed.Some? && receipt.message.body.Receipt?
  {
    var r := receipt.message.body;
    op in db.payments && Entry(r.index, op, r.common.amount, OfMessage(receipt.message)) in db.commitments[auth].sealed.value.entries
  }

  /** Nothing sends this evidence to a review. */
  predicate Untroubled(db: Db, env: Env, ev: Evidence)
    requires AuthenticEvidence(db, env, ev)
  {
    var auth, receipt := ev.grant.envelope.message.body.auth, ev.receipt.envelope;
    && !UsedWithdrawn(db, ev.request.envelope, ev.grant.envelope, receipt, AckOf(ev.ack))
    && (ev.op in db.payments ==> db.payments[ev.op].state != PendingReview)
    && !IndexTaken(db, auth, ev.op, receipt.message.body.index)
    && (db.commitments[auth].sealed.Some? ==> ListedBefore(db, auth, ev.op, receipt))
  }

  lemma AuthenticKinds(db: Db, env: Env, ev: Evidence)
    requires AuthenticEvidence(db, env, ev)
    ensures ev.request.Wire? && ev.grant.Wire? && ev.receipt.Wire? && (ev.ack.Some? ==> ev.ack.value.Wire?)
    ensures ev.request.envelope.message.body.Request? && ev.grant.envelope.message.body.Grant?
    ensures ev.receipt.envelope.message.body.Receipt?
    ensures ev.request.envelope.message.body.posKey in db.keys && ev.grant.envelope.message.body.walletKey in db.keys
    ensures ev.ack.Some? ==> ev.ack.value.envelope.message.body.Ack?
    ensures ev.grant.envelope.message.body.auth in db.commitments
  {
  }

  lemma OwnClaim(db: Db, ctx: Context)
    requires PaymentsOk(db.payments, db.commitments, db.authorizations) && ClaimsOk(db.claims, db.payments, db.commitments.Keys)
    requires Bound(db, ctx) && ctx.receipt.message.body.Receipt?
    ensures ctx.auth in db.commitments && ((ctx.auth, ctx.op) in db.claims ==> db.claims[(ctx.auth, ctx.op)] == ctx.Claim())
  {
    if (ctx.auth, ctx.op) in db.claims {
      KnownRow(db, ctx);
    }
    hide AckBound, NonceTaken, ReceiptBound;
  }

  lemma ConflictTerms(db: Db, ctx: Context)
    requires ctx.receipt.message.body.Receipt?
    requires (ctx.auth, ctx.op) in db.claims ==> db.claims[(ctx.auth, ctx.op)] == ctx.Claim()
    ensures ClaimConflict(db.claims, ctx.auth, ctx.op, ctx.Claim()) <==>
            IndexTaken(db, ctx.auth, ctx.op, ctx.receipt.message.body.index)
  {
  }

  lemma ListedTerms(db: Db, ctx: Context)
    requires ctx.receipt.message.body.Receipt? && ctx.auth in db.commitments && db.commitments[ctx.auth].Closed()
    ensures ctx.op in db.payments && InManifest(db.commitments[ctx.auth].sealed.value.entries, ctx.op, ctx.Claim()) <==>
            ListedBefore(db, ctx.auth, ctx.op, ctx.receipt)
  {
  }

  /** Nothing sends this context to a review. */
  predicate Calm(db: Db, ctx: Context)
    requires ctx.receipt.message.body.Receipt? && ctx.auth in db.commitments
  {
    && !ctx.review && (ctx.op in db.payments ==> db.payments[ctx.op].state != PendingReview)
    && !IndexTaken(db, ctx.auth, ctx.op, ctx.receipt.message.body.index)
    && (db.commitments[ctx.auth].sealed.Some? ==> ListedBefore(db, ctx.auth, ctx.op, ctx.receipt))
  }

  /** What bound evidence becomes, once nothing but the terms can stop it. */
  lemma Decision(db: Db, env: Env, user: Id, ctx: Context)
    requires ctx.receipt.message.body.Receipt? && ctx.auth in db.commitments && env.issuer.Some?
    requires ctx.op in db.payments || !NonceTaken(db, ctx.Common().nonce)
    requires ClaimConflict(db.claims, ctx.auth, ctx.op, ctx.Claim()) <==>
             IndexTaken(db, ctx.auth, ctx.op, ctx.receipt.message.body.index)
    requires db.commitments[ctx.auth].Closed() ==>
               (ctx.op in db.payments && InManifest(db.commitments[ctx.auth].sealed.value.entries, ctx.op, ctx.Claim()) <==>
                ListedBefore(db, ctx.auth, ctx.op, ctx.receipt))
    requires !ClaimConflict(db.claims, ctx.auth, ctx.op, ctx.Claim()) ==>
               && !EmittedByOther(db, ctx) && !SettlementRowsTaken(db, ctx)
               && (GuardsPass(db, ctx) <==> ctx.Amount() <= db.commitments[ctx.auth].held)
    ensures
      var v := JudgeBound(db, env, user, ctx);
      && (v.Hold? <==> Calm(db, ctx) && ctx.ack.None?)
      && (v.Settle? <==> Calm(db, ctx) && ctx.ack.Some? && ctx.Amount() <= db.commitments[ctx.auth].held)
      && (v.Park? <==> !Calm(db, ctx) || (ctx.ack.Some? && ctx.Amount() > db.commitments[ctx.auth].held))
  {
    hide ClaimConflict, GuardsPass, EmittedByOther, SettlementRowsTaken, InManifest, NonceTaken, IndexTaken, ListedBefore, Invalid;
  }

  lemma BoundOutcome(db: Db, opening: map<Id, int>, env: Env, user: Id, ctx: Context)
    requires Inv(db, opening) && Bound(db, ctx) && env.issuer.Some?
    ensures ctx.receipt.message.body.Receipt? && ctx.auth in db.commitments
    ensures
      var v := JudgeBound(db, env, user, ctx);
      && (v.Hold? <==> Calm(db, ctx) && ctx.ack.None?)
      && (v.Settle? <==> Calm(db, ctx) && ctx.ack.Some? && ctx.Amount() <= db.commitments[ctx.auth].held)
      && (v.Park? <==> !Calm(db, ctx) || (ctx.ack.Some? && ctx.Amount() > db.commitments[ctx.auth].held))
  {
    hide *;
    InvParts(db, opening);
    Unblocked(db, opening, ctx);
    OwnClaim(db, ctx);
    ConflictTerms(db, ctx);
    if db.commitments[ctx.auth].Closed() {
      ListedTerms(db, ctx);
    }
    Decision(db, env, user, ctx);
  }

  lemma SettleNames(db: Db, ctx: Context, issuer: Issuer)
    requires Executable(db, Settle(ctx, issuer))
    ensures
      var reply, after := ReplyOf(db, Settle(ctx, issuer)), SettleOn(db, ctx, issuer);
      && reply.Reply? && reply.operation == ACCEPTED && reply.final && reply.submission == VALIDATED
      && ctx.op in after.payments && after.payments[ctx.op].state == Accepted
      && ctx.op in after.resolutions && reply.resolution == Some(after.resolutions[ctx.op].envelope)
  {
    hide RecordClaim, Credit, CreditUser, ResolutionOf, SpendCommitment;
  }

  lemma ParkNames(db: Db, env: Env, user: Id, ctx: Context)
    requires ctx.receipt.message.body.Receipt? && ctx.auth in db.commitments && JudgeBound(db, env, user, ctx).Park?
    ensures var reply := JudgeBound(db, env, user, ctx).reply;
            reply.Reply? && reply.operation == PENDING_REVIEW && !reply.final && reply.resolution == None
  {
    hide ClaimConflict, GuardsPass, EmittedByOther, SettlementRowsTaken, InManifest, NonceTaken, Authorized, Resolved;
  }

  lemma ParkedState(db: Db, ctx: Context, code: Option<Code>, storeAck: bool, flag: bool)
    requires ctx.receipt.message.body.Receipt?
    ensures var after := ParkOn(db, ctx, code, storeAck, flag);
            ctx.op in after.payments && after.payments[ctx.op].state == PendingReview
  {
    hide Flag, RecordClaim;
  }

  lemma HeldState(db: Db, ctx: Context)
    requires ctx.receipt.message.body.Receipt?
    ensures ctx.op in HoldOn(db, ctx).payments
    ensures ctx.op !in db.payments ==> HoldOn(db, ctx).payments[ctx.op].state == PendingEvidence
    ensures ctx.op in db.payments ==> HoldOn(db, ctx).payments[ctx.op] == db.payments[ctx.op]
  {
    hide RecordClaim;
  }

  /** Whatever its verdict, the reply and the stored row name it. */
  ghost predicate Named(db: Db, op: Id, v: Verdict)
    requires Executable(db, v)
  {
    var reply, after := ReplyOf(db, v), Perform(db, v);
    && reply.Reply? && op in after.payments
    && (v.Settle? ==> reply.operation == ACCEPTED && reply.final && op in after.resolutions
                      && reply.resolution == Some(after.resolutions[op].envelope) && after.payments[op].state == Accepted)
    && (v.Hold? ==> reply.operation == PENDING_EVIDENCE && !reply.final && reply.resolution == None
                    && (op !in db.payments ==> after.payments[op].state == PendingEvidence))
    && (v.Park? ==> reply.operation == PENDING_REVIEW && !reply.final && reply.resolution == None
                    && after.payments[op].state == PendingReview)
  }

  lemma ReplyNames(db: Db, env: Env, user: Id, ctx: Context)
    requires ctx.receipt.message.body.Receipt? && ctx.auth in db.commitments
    requires Recorded(JudgeBound(db, env, user, ctx)) && Executable(db, JudgeBound(db, env, user, ctx))
    ensures Named(db, ctx.op, JudgeBound(db, env, user, ctx))
  {
    BoundKeeps(db, env, user, ctx);
    var v := JudgeBound(db, env, user, ctx);
    if v.Park? {
      ParkNames(db, env, user, ctx);
    }
    hide JudgeBound, ParkOn, HoldOn, SettleOn;
    match v
    case Settle(c, issuer) => SettleNames(db, ctx, issuer);
    case Hold(c) => HeldState(db, ctx);
    case Park(c, code, storeAck, flag, _) => ParkedState(db, ctx, code, storeAck, flag);
  }

  lemma JustifiedRuns(db: Db, env: Env, user: Id, ev: Evidence, v: Verdict)
    requires Executable(db, v) && v == Judge(db, env, user, ev)
    ensures Sync(db, env, user, ev) == Perform(db, v)
  {
    hide Judge, Perform, Executable;
  }

  /** The outcome in the reply and in the row. */
  ghost predicate OutcomeIs(db: Db, env: Env, ev: Evidence, reply: Reply, after: Db)
    requires AuthenticEvidence(db, env, ev)
  {
    var amount, held := ev.receipt.envelope.message.body.common.amount, db.commitments[ev.grant.envelope.message.body.auth].held;
    && reply.Reply? && ev.op in after.payments
    && (reply.operation == ACCEPTED <==> Untroubled(db, env, ev) && ev.ack.Some? && amount <= held)
    && (reply.operation == PENDING_EVIDENCE <==> Untroubled(db, env, ev) && ev.ack.None?)
    && (reply.operation == PENDING_REVIEW <==> !Untroubled(db, env, ev) || (ev.ack.Some? && amount > held))
    && (reply.operation == ACCEPTED ==> after.payments[ev.op].state == Accepted && reply.final && ev.op in after.resolutions
                                        && reply.resolution == Some(after.resolutions[ev.op].envelope))
    && (reply.operation == PENDING_REVIEW ==> after.payments[ev.op].state == PendingReview)
    && (reply.operation != ACCEPTED ==> !reply.final && reply.resolution == None)
  }

  lemma NamesOutcome(db: Db, env: Env, ev: Evidence, v: Verdict, ctx: Context)
    requires AuthenticEvidence(db, env, ev) && Executable(db, v) && Named(db, ev.op, v) && Recorded(v)
    requires ctx.receipt.message.body.Receipt? && ctx.auth in db.commitments
    requires ctx.auth == ev.grant.envelope.message.body.auth && (ctx.ack.None? <==> ev.ack.None?)
    requires ctx.Amount() == ev.receipt.envelope.message.body.common.amount
    requires Untroubled(db, env, ev) <==> Calm(db, ctx)
    requires v.Hold? <==> Calm(db, ctx) && ctx.ack.None?
    requires v.Settle? <==> Calm(db, ctx) && ctx.ack.Some? && ctx.Amount() <= db.commitments[ctx.auth].held
    requires v.Park? <==> !Calm(db, ctx) || (ctx.ack.Some? && ctx.Amount() > db.commitments[ctx.auth].held)
    ensures OutcomeIs(db, env, ev, ReplyOf(db, v), Perform(db, v))
  {
    hide Untroubled, Calm, Perform, ReplyOf, Executable;
  }

  /** An acceptable submission is settled exactly when it is acknowledged, untroubled and covered by what is held; it waits
    exactly when it is untroubled and not acknowledged; otherwise it goes to review. The reply and the stored row say
    which. */
  lemma OutcomeOfAcceptable(db: Db, opening: map<Id, int>, env: Env, user: Id, ev: Evidence)
    requires Inv(db, opening) && !Ended(db, ev.op) && env.issuer.Some? && Acceptable(db, env, user, ev)
    requires AuthenticEvidence(db, env, ev)
    ensures Executable(db, Judge(db, env, user, ev))
    ensures OutcomeIs(db, env, ev, ReplyOf(db, Judge(db, env, user, ev)), Sync(db, env, user, ev))
  {
    hide *;
    AcceptableIsBound(db, opening, env, user, ev);
    AuthenticKinds(db, env, ev);
    RecordedIffAcceptable(db, opening, env, user, ev);
    RecordedIsAuthentic(db, env, user, ev);
    var ctx := Validate(db, env, ev.op, ev.request.envelope, ev.grant.envelope, ev.receipt.envelope, ev.ack).value;
    BoundKeeps(db, env, user, ctx);
    BoundOutcome(db, opening, env, user, ctx);
    SyncKeepsInv(db, opening, env, user, ev);
    ReplyNames(db, env, user, ctx);
    JustifiedRuns(db, env, user, ev, Judge(db, env, user, ev));
    UntroubledTerms(db, env, ev, ctx);
    NamesOutcome(db, env, ev, Judge(db, env, user, ev), ctx);
  }

  lemma UntroubledTerms(db: Db, env: Env, ev: Evidence, ctx: Context)
    requires AuthenticEvidence(db, env, ev)
    requires ctx.op == ev.op && ctx.receipt == ev.receipt.envelope && ev.receipt.Wire? && ev.grant.Wire?
    requires ev.grant.envelope.message.body.Grant? && ctx.auth == ev.grant.envelope.message.body.auth
    requires ctx.auth in db.commitments && ctx.receipt.message.body.Receipt? && ctx.ack == AckOf(ev.ack)
    requires ev.request.Wire? && ev.request.envelope.message.body.Request?
    requires ev.request.envelope.message.body.posKey in db.keys && ev.grant.envelope.message.body.walletKey in db.keys
    requires ev.ack.Some? ==> ev.ack.value.Wire? && ev.ack.value.envelope.message.body.Ack?
    requires ctx.review <==> UsedWithdrawn(db, ev.request.envelope, ev.grant.envelope, ctx.receipt, AckOf(ev.ack))
    ensures ctx.Amount() == ev.receipt.envelope.message.body.common.amount && (ctx.ack.None? <==> ev.ack.None?)
    ensures Untroubled(db, env, ev) <==> Calm(db, ctx)
  {
    hide UsedWithdrawn, IndexTaken, ListedBefore, AuthenticEvidence;
  }
}
