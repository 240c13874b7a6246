/** From a tap to a settled payment: what a terminal collected from an honest phone, the backend settles. */
module Taps {
  import opened Messages
  import opened Database
  import opened SyncV3
  import opened Invariant
  import opened Reconciliation
  import opened Authenticity
  import opened Outcomes
  import P = Phone
  import S = PosService

  /** The catalogue knows the terminal of the request, the wallet key of the grant and the grant itself. */
  predicate Catalogued(db: Db, env: Env, request: Envelope, grant: Envelope) {
    && RequestStands(db, request) && GrantStands(env, grant) && GrantIsStored(db, grant) && WalletKeyStands(db, grant)
    && request.message.body.common.terminal in db.terminals
    && var terminal := db.terminals[request.message.body.common.terminal];
    && terminal.active && terminal.merchantUser in db.walletOf
  }

  /** The evidence of a tap: the phone's request, grant and receipt, and the terminal's acknowledgement of it. */
  function EvidenceOf(p: P.Phone, op: Id, at: int, posKey: Id, fingerprint: Digest, key: PublicKey): Evidence
    requires op in p.requests && op in p.receipts && p.receipts[op].message.body.Receipt?
  {
    Evidence(op, Wire(p.requests[op]), Wire(p.grant), Wire(p.receipts[op]),
             Some(Wire(S.Acknowledgement(p.receipts[op], at, posKey, fingerprint, key))))
  }

  lemma TapStands(db: Db, env: Env, request: Envelope, grant: Envelope, receipt: Envelope, ack: Envelope)
    requires Catalogued(db, env, request, grant) && ReceiptBound(request, receipt, grant)
    requires request.message.body.Request? && receipt.message.body.Receipt? && ack.message.body.Ack?
    requires ack.message.version == 3
    requires request.message.body.posKey in db.keys
    requires ack.signature == Signature(db.keys[request.message.body.posKey].publicKey, ack.message)
    requires
      var q, r, k := request.message.body, receipt.message.body, ack.message.body;
      && k.common == r.common && k.wallet == r.wallet && k.auth == r.auth && k.posKey == q.posKey
      && k.posFingerprint == q.posFingerprint && k.receiptDigest == OfMessage(receipt.message)
      && r.confirmedAt <= k.acceptedAt <= r.common.expiresAt
    ensures Authentic(db, env, request, grant, receipt, Some(ack))
  {
    ReceiptTerms(env, request, receipt, grant);
    hide ReceiptBound, ReceiptStands, RequestStands, GrantStands, GrantIsStored, WalletKeyStands;
  }

  lemma TapKinds(db: Db, env: Env, request: Envelope, grant: Envelope, receipt: Envelope)
    requires Catalogued(db, env, request, grant) && ReceiptBound(request, receipt, grant)
    ensures request.message.body.Request? && receipt.message.body.Receipt? && grant.message.body.Grant?
    ensures request.message.body.posKey in db.keys && grant.message.body.auth in db.commitments
    ensures receipt.message.body.common == request.message.body.common
  {
  }

  /** The terminal is catalogued with its key, and tapped in time a phone that confirmed its request. */
  predicate Tapped(db: Db, env: Env, p: P.Phone, op: Id, at: int, posKey: Id, fingerprint: Digest, key: PublicKey) {
    && op in p.requests && op in p.receipts && Catalogued(db, env, p.requests[op], p.grant)
    && ReceiptBound(p.requests[op], p.receipts[op], p.grant)
    && p.requests[op].message.body.Request? && p.receipts[op].message.body.Receipt?
    && p.requests[op].message.body.common.op == op
    && p.requests[op].message.body.posKey == posKey && p.requests[op].message.body.posFingerprint == fingerprint
    && posKey in db.keys && db.keys[posKey].publicKey == key
    && p.receipts[op].message.body.confirmedAt <= at <= p.receipts[op].message.body.common.expiresAt
  }

  /** The evidence of such a tap is authentic. */
  lemma TapIsAuthentic(db: Db, env: Env, p: P.Phone, op: Id, at: int, posKey: Id, fingerprint: Digest, key: PublicKey)
    requires Tapped(db, env, p, op, at, posKey, fingerprint, key)
    ensures op in p.requests && op in p.receipts && p.receipts[op].message.body.Receipt?
    ensures AuthenticEvidence(db, env, EvidenceOf(p, op, at, posKey, fingerprint, key))
  {
    var ack := S.Acknowledgement(p.receipts[op], at, posKey, fingerprint, key);
    S.AcknowledgementTerms(p.receipts[op], at, posKey, fingerprint, key, ack);
    TapKinds(db, env, p.requests[op], p.grant, p.receipts[op]);
    TapStands(db, env, p.requests[op], p.grant, p.receipts[op], ack);
    hide Catalogued, ReceiptBound, Authentic;
  }

  lemma TappedKinds(db: Db, env: Env, p: P.Phone, op: Id, at: int, posKey: Id, fingerprint: Digest, key: PublicKey)
    requires Tapped(db, env, p, op, at, posKey, fingerprint, key)
    ensures op in p.requests && op in p.receipts && p.receipts[op].message.body.Receipt?
    ensures
      var ev := EvidenceOf(p, op, at, posKey, fingerprint, key);
      && ev.op == op && ev.request == Wire(p.requests[op]) && ev.grant == Wire(p.grant) && ev.receipt == Wire(p.receipts[op])
      && ev.ack.Some? && ev.request.envelope.message.body.Request? && ev.receipt.envelope.message.body.Receipt?
      && ev.grant.envelope.message.body.Grant? && ev.grant.envelope.message.body.auth in db.commitments
  {
    TapKinds(db, env, p.requests[op], p.grant, p.receipts[op]);
    hide Catalogued, ReceiptBound;
  }

  /** Submitted by a party, before anything contradicts it, such evidence settles exactly when nothing sends it to a review
    and its amount is still held. */
  lemma CollectedSettles(db: Db, opening: map<Id, int>, env: Env, user: Id, p: P.Phone, op: Id, at: int, posKey: Id,
                         fingerprint: Digest, key: PublicKey, ev: Evidence)
    requires Inv(db, opening) && !Ended(db, op) && env.issuer.Some?
    requires Tapped(db, env, p, op, at, posKey, fingerprint, key) && ev == EvidenceOf(p, op, at, posKey, fingerprint, key)
    requires Consistent(db, ev)
    requires PartyOf(db, user, p.receipts[op].message.body.wallet, p.receipts[op].message.body.common.terminal)
    ensures AuthenticEvidence(db, env, ev) && Executable(db, Judge(db, env, user, ev))
    ensures Settled(db, env, ev, ReplyOf(db, Judge(db, env, user, ev)), Sync(db, env, user, ev))
  {
    hide *;
    TapIsAuthentic(db, env, p, op, at, posKey, fingerprint, key);
    TappedKinds(db, env, p, op, at, posKey, fingerprint, key);
    FieldsOf(db, env, ev);
    TapIsAcceptable(db, env, user, ev);
    OutcomeOfAcceptable(db, opening, env, user, ev);
    TapOutcome(db, env, ev, ReplyOf(db, Judge(db, env, user, ev)), Sync(db, env, user, ev));
  }

  /** Accepted exactly when nothing troubles it and its amount is held, and then for good. */
  predicate Settled(db: Db, env: Env, ev: Evidence, reply: Reply, after: Db)
    requires AuthenticEvidence(db, env, ev)
  {
    && reply.Reply? && ev.op in after.payments
    && (reply.operation == ACCEPTED <==>
          && Untroubled(db, env, ev)
          && ev.receipt.envelope.message.body.common.amount <= db.commitments[ev.grant.envelope.message.body.auth].held)
    && (reply.operation == ACCEPTED ==> reply.final && after.payments[ev.op].state == Accepted)
  }

  lemma TapIsAcceptable(db: Db, env: Env, user: Id, ev: Evidence)
    requires AuthenticEvidence(db, env, ev) && ev.grant.Wire? && ev.grant.envelope.message.body.Grant?
    requires ev.request.Wire? && ev.receipt.Wire? && ev.request.envelope.message.body.Request? && Consistent(db, ev)
    requires PartyOf(db, user, ev.grant.envelope.message.body.wallet, ev.request.envelope.message.body.common.terminal)
    ensures Acceptable(db, env, user, ev)
  {
    hide AuthenticEvidence, Consistent, PartyOf;
  }

  lemma TapOutcome(db: Db, env: Env, ev: Evidence, reply: Reply, after: Db)
    requires AuthenticEvidence(db, env, ev) && OutcomeIs(db, env, ev, reply, after) && ev.ack.Some?
    requires ev.receipt.Wire? && ev.grant.Wire? && ev.receipt.envelope.message.body.Receipt?
    requires ev.grant.envelope.message.body.Grant? && ev.grant.envelope.message.body.auth in db.commitments
    ensures Settled(db, env, ev, reply, after)
  {
    hide AuthenticEvidence, Untroubled;
  }
}
