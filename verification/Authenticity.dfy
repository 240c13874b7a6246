/** What evidence has to be, field by field and signature by signature, before anything is recorded. */
module Authenticity {
  import opened Messages
  import opened Database
  import opened SyncV3
  import opened Authorizations
  import opened Invariant
  import opened Steps
  import opened Reconciliation
  import opened Guards
  import opened Batches

  // ---------------------------------------------------------------------------------------------
  // The terms, on fields alone

  /** The envelope is this key's signature over its own message. */
  predicate Signed(e: Envelope, key: PublicKey) {
    e.message.version == 3 && e.signature == Signature(key, e.message)
  }

  /** A positive amount and at most two minutes to pay it. */
  predicate Payable(c: Common) {
    1 <= c.amount <= MAX_INT64 && c.issuedAt < c.expiresAt <= c.issuedAt + 120
  }

  /** The catalogue withdrew the key at that moment or before, or does not know when. */
  predicate WithdrawnBy(key: Key, at: int) {
    key.revoked && match key.revokedAt
                   case None => true
                   case Some(from) => from <= at
  }

  /** A reservation signed by an issuer the backend trusts. */
  predicate GrantStands(env: Env, grant: Envelope) {
    && grant.message.body.Grant?
    && var g := grant.message.body;
    && (g.issuerKey, g.issuerFingerprint) in env.trusted
    && var key := env.trusted[(g.issuerKey, g.issuerFingerprint)];
    && Signed(grant, key) && g.issuerFingerprint == OfKey(key)
    && 1 <= g.maxPayment <= MAX_INT64 && 1 <= g.maxPayments <= MAX_INT64 && 1 <= g.maxLifetime <= 120
    && 1 <= g.total <= g.maxPayment * g.maxPayments <= MAX_INT64
    && g.grantedAt < g.spendExpiresAt && g.walletFingerprint == OfKey(g.walletPublicKey)
  }

  /** A request signed by the key the catalogue holds for its terminal, naming that terminal's merchant. */
  predicate RequestStands(db: Db, request: Envelope) {
    && request.message.body.Request?
    && var r := request.message.body;
    && Payable(r.common) && r.posKey in db.keys && r.common.terminal in db.terminals
    && var key, terminal := db.keys[r.posKey], db.terminals[r.common.terminal];
    && Signed(request, key.publicKey) && key.purpose == PosKey(r.common.terminal)
    && r.posFingerprint == key.fingerprint == OfKey(key.publicKey) && terminal.merchant == r.common.merchant
  }

  /** A receipt for that request under that grant, within its limits and its time, signed by the granted wallet key. */
  predicate ReceiptStands(request: Envelope, receipt: Envelope, grant: Envelope)
    requires request.message.body.Request? && grant.message.body.Grant?
  {
    && receipt.message.body.Receipt?
    && var r, g := receipt.message.body, grant.message.body;
    && Signed(receipt, g.walletPublicKey)
    && r.common == request.message.body.common
    && r.requestDigest == OfMessage(request.message) && r.authorizationDigest == OfMessage(grant.message)
    && r.auth == g.auth && r.wallet == g.wallet && r.walletKey == g.walletKey && r.walletFingerprint == g.walletFingerprint
    && r.common.amount <= g.maxPayment && r.common.amount <= g.total && 1 <= r.index <= g.maxPayments
    && g.grantedAt <= r.common.issuedAt <= r.confirmedAt <= r.common.expiresAt <= g.spendExpiresAt
    && r.common.expiresAt <= r.common.issuedAt + g.maxLifetime
  }

  /** An acknowledgement of that receipt, in time, signed by the key that signed the request. */
  predicate AckStands(db: Db, request: Envelope, receipt: Envelope, ack: Envelope)
    requires request.message.body.Request? && receipt.message.body.Receipt?
  {
    && ack.message.body.Ack?
    && var q, r, k := request.message.body, receipt.message.body, ack.message.body;
    && q.posKey in db.keys && Signed(ack, db.keys[q.posKey].publicKey)
    && k.common == r.common && k.wallet == r.wallet && k.auth == r.auth
    && k.posKey == q.posKey && k.posFingerprint == q.posFingerprint && k.receiptDigest == OfMessage(receipt.message)
    && r.confirmedAt <= k.acceptedAt <= k.common.expiresAt
  }

  /** The wallet key of the grant is the one the catalogue holds for its wallet. */
  predicate WalletKeyStands(db: Db, grant: Envelope)
    requires grant.message.body.Grant?
  {
    var g := grant.message.body;
    && g.walletKey in db.keys && db.keys[g.walletKey].purpose == WalletKey(g.wallet)
    && db.keys[g.walletKey].fingerprint == g.walletFingerprint && db.keys[g.walletKey].publicKey == g.walletPublicKey
  }

  /** The grant is the stored one of an authorization of its wallet. */
  predicate GrantIsStored(db: Db, grant: Envelope)
    requires grant.message.body.Grant?
  {
    var g := grant.message.body;
    && g.wallet in db.wallets && g.auth in db.authorizations && g.auth in db.commitments
    && db.authorizations[g.auth].wallet == g.wallet && db.commitments[g.auth].wallet == g.wallet
    && db.commitments[g.auth].grant == grant
  }

  /** Everything a submission must be, whatever was recorded before. */
  predicate Authentic(db: Db, env: Env, request: Envelope, grant: Envelope, receipt: Envelope, ack: Option<Envelope>) {
    && GrantStands(env, grant) && RequestStands(db, request) && ReceiptStands(request, receipt, grant)
    && GrantIsStored(db, grant) && WalletKeyStands(db, grant)
    && (ack.Some? ==> AckStands(db, request, receipt, ack.value))
    && var terminal := db.terminals[request.message.body.common.terminal];
    && terminal.active && terminal.merchantUser in db.walletOf
  }

  /** Some key was withdrawn by the time it was used. */
  predicate UsedWithdrawn(db: Db, request: Envelope, grant: Envelope, receipt: Envelope, ack: Option<Envelope>)
    requires request.message.body.Request? && grant.message.body.Grant? && receipt.message.body.Receipt?
    requires request.message.body.posKey in db.keys && grant.message.body.walletKey in db.keys
    requires ack.Some? ==> ack.value.message.body.Ack?
  {
    var posKey := db.keys[request.message.body.posKey];
    || WithdrawnBy(posKey, request.message.body.common.issuedAt)
    || WithdrawnBy(db.keys[grant.message.body.walletKey], receipt.message.body.confirmedAt)
    || (ack.Some? && WithdrawnBy(posKey, ack.value.message.body.acceptedAt))
  }

  // ---------------------------------------------------------------------------------------------
  // The checks are exactly the terms

  lemma GrantTerms(env: Env, grant: Envelope)
    ensures TrustedGrant(env, grant) <==> GrantStands(env, grant)
  {
  }

  lemma ReviewTerms(key: Key, at: int)
    ensures RequiresReview(key, at) <==> WithdrawnBy(key, at)
  {
  }

  lemma RequestTerms(db: Db, request: Envelope)
    requires request.message.body.Request?
    requires request.message.body.posKey in db.keys && request.message.body.common.terminal in db.terminals
    ensures
      var r := request.message.body;
      var key, terminal := db.keys[r.posKey], db.terminals[r.common.terminal];
      RequestStands(db, request) <==>
      && key.purpose == PosKey(r.common.terminal)
      && PosSigned(request, key.publicKey, r.posKey, key.fingerprint, terminal.merchant, r.common.terminal)
  {
  }

  lemma ReceiptTerms(env: Env, request: Envelope, receipt: Envelope, grant: Envelope)
    requires GrantStands(env, grant)
    ensures ReceiptBound(request, receipt, grant) <==>
            && request.message.body.Request? && request.message.version == 3 && Payable(request.message.body.common)
            && ReceiptStands(request, receipt, grant)
  {
  }

  lemma AckTerms(db: Db, env: Env, request: Envelope, receipt: Envelope, grant: Envelope, ack: Envelope)
    requires RequestStands(db, request) && GrantStands(env, grant) && ReceiptStands(request, receipt, grant)
    ensures
      var r := request.message.body;
      var key, terminal := db.keys[r.posKey], db.terminals[r.common.terminal];
      AckStands(db, request, receipt, ack) <==>
      && Parse3(Wire(ack)).Some? && AckBound(request, receipt, ack)
      && PosSigned(ack, key.publicKey, r.posKey, key.fingerprint, terminal.merchant, r.common.terminal)
  {
  }

  /** The envelope of a submitted acknowledgement, if it is one. */
  function AckOf(ack: Option<Wire>): Option<Envelope> {
    if ack.Some? && ack.value.Wire? then Some(ack.value.envelope) else None
  }

  /** Evidence validates exactly when it is authentic, and needs a review exactly when a key was withdrawn by the time it
    was used. */
  lemma ValidatesIffAuthentic(db: Db, env: Env, op: Id, request: Envelope, grant: Envelope, receipt: Envelope, ack: Option<Wire>)
    ensures
      var ctx := Validate(db, env, op, request, grant, receipt, ack);
      && (ctx.Some? <==> (ack.Some? ==> ack.value.Wire?) && Authentic(db, env, request, grant, receipt, AckOf(ack)))
      && (ctx.Some? ==> (ctx.value.review <==> UsedWithdrawn(db, request, grant, receipt, AckOf(ack))))
  {
    GrantTerms(env, grant);
    hide TrustedGrant, GrantStands;
    if GrantStands(env, grant) {
      ReceiptTerms(env, request, receipt, grant);
      hide ReceiptBound, ReceiptStands;
      BoundKinds(request, receipt, grant);
      if ReceiptBound(request, receipt, grant) {
        BoundValidates(db, env, op, request, grant, receipt, ack);
      }
    }
  }

  lemma BoundKinds(request: Envelope, receipt: Envelope, grant: Envelope)
    ensures ReceiptBound(request, receipt, grant) ==>
              request.message.body.Request? && receipt.message.body.Receipt? && grant.message.body.Grant?
  {
  }

  lemma BoundValidates(db: Db, env: Env, op: Id, request: Envelope, grant: Envelope, receipt: Envelope, ack: Option<Wire>)
    requires TrustedGrant(env, grant) && GrantStands(env, grant) && ReceiptBound(request, receipt, grant)
    requires request.message.body.Request? && receipt.message.body.Receipt? && grant.message.body.Grant?
    requires ReceiptStands(request, receipt, grant)
    ensures
      var ctx := Validate(db, env, op, request, grant, receipt, ack);
      && (ctx.Some? <==> (ack.Some? ==> ack.value.Wire?) && Authentic(db, env, request, grant, receipt, AckOf(ack)))
      && (ctx.Some? ==> (ctx.value.review <==> UsedWithdrawn(db, request, grant, receipt, AckOf(ack))))
  {
    var r := request.message.body;
    if r.posKey in db.keys && r.common.terminal in db.terminals {
      RequestTerms(db, request);
      if RequestStands(db, request) && AckOf(ack).Some? {
        AckTerms(db, env, request, receipt, grant, AckOf(ack).value);
        AckKind(db, request, receipt, AckOf(ack).value);
      }
    }
    hide TrustedGrant, GrantStands, ReceiptBound, ReceiptStands, AckBound, PosSigned, AckStands, Payable, Signed;
    forall key, at
      ensures RequiresReview(key, at) <==> WithdrawnBy(key, at)
    {
      ReviewTerms(key, at);
    }
    hide RequiresReview, WithdrawnBy;
  }

  lemma AckKind(db: Db, request: Envelope, receipt: Envelope, ack: Envelope)
    requires request.message.body.Request? && receipt.message.body.Receipt?
    ensures AckStands(db, request, receipt, ack) ==> ack.message.body.Ack?
  {
  }

  // ---------------------------------------------------------------------------------------------
  // Submissions

  /** The same of a submission: readable envelopes of this operation, and authentic. */
  predicate AuthenticEvidence(db: Db, env: Env, ev: Evidence) {
    && ev.request.Wire? && ev.grant.Wire? && ev.receipt.Wire? && (ev.ack.Some? ==> ev.ack.value.Wire?)
    && Authentic(db, env, ev.request.envelope, ev.grant.envelope, ev.receipt.envelope, AckOf(ev.ack))
    && ev.request.envelope.message.body.common.op == ev.op
  }

  /** The submission was recorded: held, parked or settled. */
  predicate Recorded(v: Verdict) {
    v.Hold? || v.Park? || v.Settle?
  }

  lemma BoundKeeps(db: Db, env: Env, user: Id, ctx: Context)
    requires ctx.receipt.message.body.Receipt? && ctx.auth in db.commitments
    ensures var v := JudgeBound(db, env, user, ctx); Recorded(v) ==> v.ctx == ctx
    ensures JudgeBound(db, env, user, ctx).Refuse? || Recorded(JudgeBound(db, env, user, ctx))
  {
    hide ClaimConflict, GuardsPass, EmittedByOther, SettlementRowsTaken, InManifest, NonceTaken, Resolved, Authorized;
  }

  /** Whatever is recorded is authentic, signature by signature, and carries the envelopes that were submitted. */
  lemma RecordedIsAuthentic(db: Db, env: Env, user: Id, ev: Evidence)
    requires Recorded(Judge(db, env, user, ev))
    ensures AuthenticEvidence(db, env, ev)
    ensures
      var ctx, rq, gp := Judge(db, env, user, ev).ctx, ev.request.envelope.message.body, ev.grant.envelope.message.body;
      && ctx.op == ev.op && ctx.request == ev.request.envelope && ctx.receipt == ev.receipt.envelope && ctx.ack == AckOf(ev.ack)
      && ctx.auth == gp.auth && ctx.wallet == gp.wallet
      && ctx.merchantWallet == db.walletOf[db.terminals[rq.common.terminal].merchantUser]
      && (ctx.review <==> UsedWithdrawn(db, ctx.request, ev.grant.envelope, ctx.receipt, ctx.ack))
  {
    hide JudgeBound, ReceiptBound, AckBound, Authorized, Valid3, Resolved, Validate, Authentic, UsedWithdrawn, Recorded;
    var request, grant, receipt := Parse3(ev.request), Parse3(ev.grant), Parse3(ev.receipt);
    RefusalsRecordNothing(db, env, user, ev);
    var ctx := Validate(db, env, ev.op, request.value, grant.value, receipt.value, ev.ack);
    ValidatesIffAuthentic(db, env, ev.op, request.value, grant.value, receipt.value, ev.ack);
    BoundKinds(request.value, receipt.value, grant.value);
    BoundKeeps(db, env, user, ctx.value);
  }

  lemma RefusalsRecordNothing(db: Db, env: Env, user: Id, ev: Evidence)
    requires Recorded(Judge(db, env, user, ev))
    ensures Parse3(ev.request).Some? && Parse3(ev.grant).Some? && Parse3(ev.receipt).Some? && ev.ack != Some(Undecodable)
    ensures OperationOf(ev.request.envelope.message.body) == Some(ev.op)
    ensures
      var ctx := Validate(db, env, ev.op, ev.request.envelope, ev.grant.envelope, ev.receipt.envelope, ev.ack);
      && ctx.Some? && ctx.value.receipt.message.body.Receipt? && ctx.value.auth in db.commitments
      && Judge(db, env, user, ev) == JudgeBound(db, env, user, ctx.value)
  {
    hide JudgeBound, AckBound, Authorized, Valid3, Resolved;
    var request, grant, receipt := Parse3(ev.request), Parse3(ev.grant), Parse3(ev.receipt);
    if request.Some? && grant.Some? && receipt.Some? {
      BoundKinds(request.value, receipt.value, grant.value);
      hide ReceiptBound;
    }
  }
}
