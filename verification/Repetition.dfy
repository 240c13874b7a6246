/** What a payment that ended answers to later submissions, and to a stored resolution. */
module Repetition {
  import opened Messages
  import opened Database
  import opened SyncV3
  import opened Authorizations
  import opened Invariant
  import opened Reconciliation
  import opened Handlers
  import opened Authenticity
  import opened Outcomes
  import opened Statements

  /** Three readable messages, of which one names another operation. */
  predicate Misnamed(ev: Evidence) {
    && Parse3(ev.request).Some? && Parse3(ev.grant).Some? && Parse3(ev.receipt).Some? && ev.ack != Some(Undecodable)
    && !(Names(ev.request.envelope.message.body, ev.op) && Names(ev.receipt.envelope.message.body, ev.op))
  }

  predicate Names(b: Body, op: Id) {
    match b
    case Request(c, _, _) => c.op == op
    case Receipt(c, _, _, _, _, _, _, _, _) => c.op == op
    case LegacyReceipt(c, _, _, _, _, _) => c.op == op
    case Ack(c, _, _, _, _, _, _) => c.op == op
    case Resolution(o, _, _, _, _, _, _, _, _, _, _, _, _) => o == op
    case _ => false
  }

  /** The late acknowledgement of the stored receipt, signed by the key of the stored request. */
  predicate LateAckStands(db: Db, p: Payment, ack: Wire)
    requires p.request.message.body.Request? && p.receipt.message.body.Receipt?
  {
    ack.Wire? && AckStands(db, p.request, p.receipt, ack.envelope)
  }

  /** The submission repeats what is stored, and adds at most the acknowledgement that is missing. */
  predicate Repeats(db: Db, ev: Evidence)
    requires ev.op in db.payments && db.payments[ev.op].auth in db.commitments
    requires db.payments[ev.op].request.message.body.Request? && db.payments[ev.op].receipt.message.body.Receipt?
  {
    var p := db.payments[ev.op];
    && ev.request == Wire(p.request) && ev.receipt == Wire(p.receipt) && ev.grant == Wire(db.commitments[p.auth].grant)
    && (p.ack.Some? && ev.ack.Some? ==> ev.ack.value == Wire(p.ack.value))
    && (p.ack.None? && ev.ack.Some? ==> LateAckStands(db, p, ev.ack.value))
  }

  /** The answer of a payment that ended: its outcome and its resolution, and whether the submission repeats it. */
  ghost predicate AnswersFinal(db: Db, ev: Evidence, reply: Reply, after: Db)
    requires ev.op in db.payments && db.payments[ev.op].auth in db.commitments && ev.op in db.resolutions
    requires db.payments[ev.op].request.message.body.Request? && db.payments[ev.op].receipt.message.body.Receipt?
  {
    var p := db.payments[ev.op];
    && reply.Reply? && reply.final && reply.operation == (if p.state == Accepted then ACCEPTED else REJECTED)
    && reply.resolution == Some(db.resolutions[ev.op].envelope)
    && reply.submission == (if Repeats(db, ev) then VALIDATED else CONFLICT)
    && after == (if Repeats(db, ev) && p.ack.None? && ev.ack.Some? then
                   db.(payments := db.payments[ev.op := p.(ack := Some(ev.ack.value.envelope))])
                 else db)
  }

  lemma NamesTerms(b: Body, op: Id)
    ensures OperationOf(b) == Some(op) <==> Names(b, op)
  {
  }

  lemma LateAckTerms(db: Db, p: Payment, c: Commitment, op: Id, ack: Wire)
    requires PaymentOk(op, p, c)
    ensures p.request.message.body.Request? && p.receipt.message.body.Receipt?
    ensures
      LateAckStands(db, p, ack) <==>
      && Parse3(ack).Some? && AckBound(p.request, p.receipt, ack.envelope) && p.request.message.body.posKey in db.keys
      && Verifies(ack.envelope, db.keys[p.request.message.body.posKey].publicKey)
  {
  }

  /** The stored evidence reads back as itself. */
  lemma StoredParses(op: Id, p: Payment, c: Commitment)
    requires PaymentOk(op, p, c) && Proper(c.grant) && c.grant.message.body.Grant?
    ensures Parse3(Wire(p.request)) == Some(p.request) && Parse3(Wire(p.receipt)) == Some(p.receipt)
    ensures Parse3(Wire(c.grant)) == Some(c.grant) && NamesWallet(c.grant.message.body)
    ensures p.request.message.body.Request? && p.receipt.message.body.Receipt?
    ensures Names(p.request.message.body, op) && Names(p.receipt.message.body, op)
  {
    hide AckBound;
  }

  lemma FinalAnswer(db: Db, user: Id, ev: Evidence, c: Commitment)
    requires ev.op in db.payments && db.payments[ev.op].auth in db.commitments && db.commitments[db.payments[ev.op].auth] == c
    requires PaymentOk(ev.op, db.payments[ev.op], c) && Resolved(db, ev.op)
    requires db.payments[ev.op].request.message.body.Request? && db.payments[ev.op].receipt.message.body.Receipt?
    requires Authorized(db, user, db.payments[ev.op].wallet, db.payments[ev.op].terminal)
    requires Parse3(ev.request).Some? && Parse3(ev.grant).Some? && Parse3(ev.receipt).Some?
    ensures
      var v := JudgeFinal(db, user, ev.op, ev.request.envelope, ev.grant.envelope, ev.receipt.envelope, ev.ack);
      Executable(db, v) && AnswersFinal(db, ev, ReplyOf(db, v), Perform(db, v))
  {
    if ev.ack.Some? {
      LateAckTerms(db, db.payments[ev.op], c, ev.op, ev.ack.value);
    }
    hide PaymentOk, Authorized, AckBound, LateAckStands, Valid3;
  }

  lemma InvalidAnswer(db: Db, user: Id, op: Id)
    requires Resolved(db, op)
    ensures Invalid(db, user, op).Refuse?
    ensures !Authorized(db, user, db.payments[op].wallet, db.payments[op].terminal) ==> Invalid(db, user, op).reply.Forbidden?
    ensures
      var reply := Invalid(db, user, op).reply;
      Authorized(db, user, db.payments[op].wallet, db.payments[op].terminal) ==>
        reply.Reply? && reply.submission == CONFLICT && reply.operation == OperationState(db.payments[op].state) && reply.final
        && reply.resolution == Some(db.resolutions[op].envelope)
  {
    hide Authorized;
  }

  /** How a submission of an ended payment is judged. */
  lemma EndedJudged(db: Db, env: Env, user: Id, ev: Evidence)
    requires Resolved(db, ev.op)
    ensures
      var v := Judge(db, env, user, ev);
      var readable := && Parse3(ev.request).Some? && Parse3(ev.grant).Some? && Parse3(ev.receipt).Some? && ev.ack != Some(Undecodable);
      if !readable then v == Invalid(db, user, ev.op)
      else if !(Names(ev.request.envelope.message.body, ev.op) && Names(ev.receipt.envelope.message.body, ev.op)) then
        v == Refuse(Reply(INVALID_EVIDENCE, UNRESOLVED, false, OperationIdMismatch, None))
      else if !NamesWallet(ev.grant.envelope.message.body) then v == Invalid(db, user, ev.op)
      else if !Authorized(db, user, db.payments[ev.op].wallet, db.payments[ev.op].terminal) then v == Refuse(Forbidden)
      else v == JudgeFinal(db, user, ev.op, ev.request.envelope, ev.grant.envelope, ev.receipt.envelope, ev.ack)
  {
    if ev.request.Wire? {
      NamesTerms(ev.request.envelope.message.body, ev.op);
    }
    if ev.receipt.Wire? {
      NamesTerms(ev.receipt.envelope.message.body, ev.op);
    }
    hide Valid3, Invalid, Authorized, JudgeFinal, Names, NamesWallet, Validate, JudgeBound;
  }

  lemma EndedRow(db: Db, op: Id)
    requires PaymentsOk(db.payments, db.commitments, db.authorizations) && CommitmentsOk(db.commitments, db.authorizations)
    requires ResolutionsOk(db.resolutions, db.payments, db.commitments.Keys)
    requires Ended(db, op) && db.payments[op].auth in db.commitments
    ensures op in db.payments && Resolved(db, op) && PaymentOk(op, db.payments[op], db.commitments[db.payments[op].auth])
    ensures Proper(db.commitments[db.payments[op].auth].grant) && db.commitments[db.payments[op].auth].grant.message.body.Grant?
    ensures op in db.resolutions
  {
    hide PaymentOk;
    assert CommitmentOk(db.payments[op].auth, db.commitments[db.payments[op].auth], db.authorizations[db.payments[op].auth]);
  }

  lemma UnreadableDoesNotRepeat(db: Db, ev: Evidence)
    requires ev.op in db.payments && db.payments[ev.op].auth in db.commitments
    requires PaymentOk(ev.op, db.payments[ev.op], db.commitments[db.payments[ev.op].auth])
    requires Proper(db.commitments[db.payments[ev.op].auth].grant) && db.commitments[db.payments[ev.op].auth].grant.message.body.Grant?
    requires db.payments[ev.op].request.message.body.Request? && db.payments[ev.op].receipt.message.body.Receipt?
    requires Repeats(db, ev)
    ensures Parse3(ev.request).Some? && Parse3(ev.grant).Some? && Parse3(ev.receipt).Some? && ev.ack != Some(Undecodable)
    ensures NamesWallet(ev.grant.envelope.message.body)
  {
    StoredParses(ev.op, db.payments[ev.op], db.commitments[db.payments[ev.op].auth]);
    hide PaymentOk, AckStands;
  }

  /** A payment that ended repeats its outcome and its resolution to a party, whatever is submitted under its name; it
    calls the submission valid exactly when it repeats the stored evidence, and stores nothing but a missing, authentic
    acknowledgement. Anybody else is refused, and so is evidence of another operation. */
  lemma EndedIsRepeated(db: Db, opening: map<Id, int>, env: Env, user: Id, ev: Evidence)
    requires Inv(db, opening) && Ended(db, ev.op) && db.payments[ev.op].auth in db.commitments
    ensures Executable(db, Judge(db, env, user, ev)) && ev.op in db.resolutions
    ensures db.payments[ev.op].request.message.body.Request? && db.payments[ev.op].receipt.message.body.Receipt?
    ensures
      var reply, after := ReplyOf(db, Judge(db, env, user, ev)), Sync(db, env, user, ev);
      if Misnamed(ev) then reply == Reply(INVALID_EVIDENCE, UNRESOLVED, false, OperationIdMismatch, None) && after == db
      else if PartyOf(db, user, db.payments[ev.op].wallet, db.payments[ev.op].terminal) then AnswersFinal(db, ev, reply, after)
      else reply == Forbidden && after == db
  {
    hide *;
    InvParts(db, opening);
    EndedRow(db, ev.op);
    var p := db.payments[ev.op];
    var c := db.commitments[p.auth];
    StoredParses(ev.op, p, c);
    PartyTerms(db, user, p.wallet, p.terminal);
    InvalidAnswer(db, user, ev.op);
    EndedJudged(db, env, user, ev);
    SyncKeepsInv(db, opening, env, user, ev);
    var v := Judge(db, env, user, ev);
    JustifiedRuns(db, env, user, ev, v);
    MisnamedIs(ev);
    if (&& !Misnamed(ev) && Authorized(db, user, p.wallet, p.terminal)) {
      if Parse3(ev.request).Some? && Parse3(ev.grant).Some? && Parse3(ev.receipt).Some? && ev.ack != Some(Undecodable)
         && NamesWallet(ev.grant.envelope.message.body) {
        FinalAnswer(db, user, ev, c);
      } else {
        if Repeats(db, ev) {
          UnreadableDoesNotRepeat(db, ev);
        }
        InvalidAnswers(db, user, ev);
      }
    } else {
      RefusalIsNothing(db, v);
    }
  }

  lemma MisnamedIs(ev: Evidence)
    ensures Misnamed(ev) <==>
            && Parse3(ev.request).Some? && Parse3(ev.grant).Some? && Parse3(ev.receipt).Some? && ev.ack != Some(Undecodable)
            && !(Names(ev.request.envelope.message.body, ev.op) && Names(ev.receipt.envelope.message.body, ev.op))
  {
    hide Names, Parse3;
  }

  lemma RefusalIsNothing(db: Db, v: Verdict)
    requires v.Refuse? && Executable(db, v)
    ensures Perform(db, v) == db && ReplyOf(db, v) == v.reply
  {
  }

  lemma InvalidAnswers(db: Db, user: Id, ev: Evidence)
    requires ev.op in db.payments && db.payments[ev.op].auth in db.commitments && ev.op in db.resolutions
    requires db.payments[ev.op].request.message.body.Request? && db.payments[ev.op].receipt.message.body.Receipt?
    requires Resolved(db, ev.op) && !Repeats(db, ev)
    requires Authorized(db, user, db.payments[ev.op].wallet, db.payments[ev.op].terminal)
    ensures var v := Invalid(db, user, ev.op); Executable(db, v) && AnswersFinal(db, ev, ReplyOf(db, v), Perform(db, v))
  {
    hide Repeats, Authorized;
  }

  // ---------------------------------------------------------------------------------------------
  // Storing a resolution

  /** A resolution is accepted from a party exactly when it is the stored one and its issuer is trusted. Nothing changes:
    every payment that ended has its resolution. */
  lemma StoredIff(db: Db, opening: map<Id, int>, env: Env, user: Id, op: Id, w: Wire)
    requires Inv(db, opening) && ProofsOk(db)
    ensures StoreResolution(db, env, user, op, w).0 == db
    ensures
      StoreResolution(db, env, user, op, w).1.Stored? <==>
      && op in db.payments && PartyOf(db, user, db.payments[op].wallet, db.payments[op].terminal)
      && op in db.resolutions && w == Wire(db.resolutions[op].envelope) && TrustedIssuer(env, db.resolutions[op].envelope)
  {
    hide *;
    StoreKeepsInv(db, opening, env, user, op, w);
    InvParts(db, opening);
    if op in db.payments {
      PartyTerms(db, user, db.payments[op].wallet, db.payments[op].terminal);
      StoredCases(db, env, user, op, w);
      if op in db.resolutions {
        ResolvedRow(db, op);
        ResolvedMatches(db, env, op);
      }
      if w.Wire? && ResolutionMatches(db, env, op, w.envelope) {
        MatchIsEnded(db, env, op, w.envelope);
      }
    } else {
      NoSuchPayment(db, env, user, op, w);
    }
  }

  predicate TrustedIssuer(env: Env, e: Envelope) {
    && e.message.body.Resolution?
    && (e.message.body.issuerKey, e.message.body.issuerFingerprint) in env.trusted
    && e.signature.key == env.trusted[(e.message.body.issuerKey, e.message.body.issuerFingerprint)]
  }

  lemma NoSuchPayment(db: Db, env: Env, user: Id, op: Id, w: Wire)
    requires op !in db.payments
    ensures StoreResolution(db, env, user, op, w).1.NoPayment?
  {
  }

  lemma StoredCases(db: Db, env: Env, user: Id, op: Id, w: Wire)
    requires op in db.payments
    ensures
      StoreResolution(db, env, user, op, w).1.Stored? <==>
      && Authorized(db, user, db.payments[op].wallet, db.payments[op].terminal)
      && w.Wire? && ResolutionMatches(db, env, op, w.envelope)
      && (op in db.resolutions ==> db.resolutions[op].envelope == w.envelope)
  {
    hide Authorized;
  }

  lemma MatchIsEnded(db: Db, env: Env, op: Id, e: Envelope)
    requires op in db.payments && ResolutionMatches(db, env, op, e)
    requires ResolutionsOk(db.resolutions, db.payments, db.commitments.Keys)
    ensures op in db.resolutions
  {
    hide Valid3;
  }

  lemma ResolvedMatches(db: Db, env: Env, op: Id)
    requires op in db.payments && op in db.resolutions && db.payments[op].auth in db.commitments
    requires PaymentsOk(db.payments, db.commitments, db.authorizations) && db.payments[op].Final()
    requires ProofsOk(db)
    ensures ResolutionMatches(db, env, op, db.resolutions[op].envelope) <==> TrustedIssuer(env, db.resolutions[op].envelope)
  {
    var p, c := db.payments[op], db.commitments[db.payments[op].auth];
    assert States(op, p, c, db.resolutions[op]);
    assert PaymentOk(op, p, c);
    hide AckBound, PaymentsOk, ProofsOk, Attested;
  }
}
