/** Request ids are honoured once, however attempts interleave.

  Every step may be `stale`: its lookup of the request id ran at any earlier moment, before another handler
  committed. Runs therefore cover every interleaving of lookups and commits. */
module ExactlyOnce {
  import opened Messages
  import opened Database
  import opened Sums
  import opened SyncV3
  import opened SyncV2
  import opened Authorizations
  import opened Invariant
  import opened Reconciliation
  import opened LegacySteps
  import opened Rollback
  import opened Machine
  import opened History
  import opened Persistence

  /** The state just before a step of a run. */
  ghost function Before(db: Db, steps: seq<Step>, i: nat): Db
    requires i <= |steps|
  {
    Run(db, steps[..i])
  }

  /** What one step of a run left behind, the state before any later step still has. */
  lemma LaterPersists(db: Db, steps: seq<Step>, i: nat, j: nat)
    requires i < j <= |steps|
    ensures Persists(Next(Before(db, steps, i), steps[i]), Before(db, steps, j))
  {
    hide Next, Persists;
    assert steps[..j] == steps[..i] + ([steps[i]] + steps[i + 1..j]);
    RunSplits(db, steps[..i], [steps[i]] + steps[i + 1..j]);
    assert ([steps[i]] + steps[i + 1..j])[1..] == steps[i + 1..j];
    RunPersists(Next(Run(db, steps[..i]), steps[i]), steps[i + 1..j]);
  }

  ghost function IssueReplyOf(db: Db, s: Step): IssueReply
    requires s.IssueStep?
  {
    Issue(db, s.env, s.user, s.request, s.now, s.newId, s.stale).1
  }

  ghost function TopupReplyOf(db: Db, s: Step): TopupReply
    requires s.TopUpStep?
  {
    TopUp(db, s.user, s.topup, s.stale).1
  }

  lemma IssuedIsRecorded(db: Db, s: Step)
    requires s.IssueStep? && IssueReplyOf(db, s).Issued?
    ensures
      var after, reply := Next(db, s), IssueReplyOf(db, s);
      && s.request.requestId in after.issuedFor && after.issuedFor[s.request.requestId] == reply.auth
      && reply.auth in after.commitments
      && after.commitments[reply.auth].reserved == reply.total && after.commitments[reply.auth].grant == reply.grant
  {
    hide Available, Valid3, Reserve, Repeat;
    RepeatIsRecorded(db, s.request);
    var r := s.request;
    if r.requestId !in db.issuedFor {
      var total := Min(Available(db, r.wallet), r.maxPayment * r.maxPayments);
      var body := GrantFor(s.env, r, db.keys[r.walletKey], s.env.issuer.value, total, s.now, s.newId);
      ReservedIsRecorded(db, r, s.newId, total, s.now, s.now + s.env.authorizationSeconds,
                         Sign(body, s.env.issuer.value.publicKey));
    }
  }

  lemma RepeatIsRecorded(db: Db, r: IssueRequest)
    ensures r.requestId in db.issuedFor ==>
              var reply := Repeat(db, db.issuedFor[r.requestId], r);
              reply.Issued? ==>
                && reply.auth == db.issuedFor[r.requestId] && reply.auth in db.commitments
                && db.commitments[reply.auth].reserved == reply.total && db.commitments[reply.auth].grant == reply.grant
  {
    hide Proper;
  }

  lemma ReservedIsRecorded(db: Db, r: IssueRequest, id: Id, total: int, now: int, until: int, grant: Envelope)
    ensures
      var after := Reserve(db, r, id, total, now, until, grant);
      && r.requestId in after.issuedFor && after.issuedFor[r.requestId] == id && id in after.commitments
      && after.commitments[id].reserved == total && after.commitments[id].grant == grant
  {
  }

  lemma KnownRequestIsIdle(db: Db, s: Step)
    requires s.IssueStep? && s.request.requestId in db.issuedFor
    ensures Next(db, s) == db
    ensures
      var reply := IssueReplyOf(db, s);
      reply.Issued? ==>
        && reply.auth == db.issuedFor[s.request.requestId] && reply.auth in db.commitments
        && reply.total == db.commitments[reply.auth].reserved && reply.grant == db.commitments[reply.auth].grant
  {
    hide Available, Valid3, Reserve, Repeat;
    RepeatIsRecorded(db, s.request);
  }

  /** Two successful replies to one request id, at any two moments of any run whatsoever, carry the same grant and the
    same reserved total, and the later attempt reserved nothing. */
  lemma IssuedOnce(db: Db, steps: seq<Step>, i: nat, j: nat)
    requires i < j < |steps|
    requires steps[i].IssueStep? && steps[j].IssueStep? && steps[i].request.requestId == steps[j].request.requestId
    requires IssueReplyOf(Before(db, steps, i), steps[i]).Issued?
    requires IssueReplyOf(Before(db, steps, j), steps[j]).Issued?
    ensures IssueReplyOf(Before(db, steps, j), steps[j]) == IssueReplyOf(Before(db, steps, i), steps[i])
    ensures Next(Before(db, steps, j), steps[j]) == Before(db, steps, j)
  {
    hide Next, IssueReplyOf, Before, WalletsEvolve, LegacyShrinks;
    LaterPersists(db, steps, i, j);
    IssuedIsRecorded(Before(db, steps, i), steps[i]);
    KnownRequestIsIdle(Before(db, steps, j), steps[j]);
  }

  lemma TopupIsRecorded(db: Db, s: Step)
    requires s.TopUpStep? && TopupReplyOf(db, s).Confirmed?
    ensures
      var after, reply := Next(db, s), TopupReplyOf(db, s);
      && s.topup.requestId in after.topups
      && after.topups[s.topup.requestId] == Topup(reply.wallet, s.user, reply.amount)
  {
    hide Credit, CreditUser;
  }

  lemma KnownTopupIsIdle(db: Db, s: Step)
    requires s.TopUpStep? && s.topup.requestId in db.topups
    ensures Next(db, s) == db
    ensures
      var reply := TopupReplyOf(db, s);
      reply.Confirmed? ==> db.topups[s.topup.requestId] == Topup(reply.wallet, s.user, reply.amount)
  {
    hide Credit, CreditUser;
  }

  /** Two confirmations of one top-up id, at any two moments of any run whatsoever, name the same wallet, user and amount, and
    the later attempt credited nothing. */
  lemma ToppedUpOnce(db: Db, steps: seq<Step>, i: nat, j: nat)
    requires i < j < |steps|
    requires steps[i].TopUpStep? && steps[j].TopUpStep? && steps[i].topup.requestId == steps[j].topup.requestId
    requires TopupReplyOf(Before(db, steps, i), steps[i]).Confirmed?
    requires TopupReplyOf(Before(db, steps, j), steps[j]).Confirmed?
    ensures
      var first, second := TopupReplyOf(Before(db, steps, i), steps[i]), TopupReplyOf(Before(db, steps, j), steps[j]);
      first.wallet == second.wallet && first.amount == second.amount && steps[i].user == steps[j].user
    ensures Next(Before(db, steps, j), steps[j]) == Before(db, steps, j)
  {
    hide Next, TopupReplyOf, Before, WalletsEvolve, LegacyShrinks, GrantsPersist;
    LaterPersists(db, steps, i, j);
    TopupIsRecorded(Before(db, steps, i), steps[i]);
    KnownTopupIsIdle(Before(db, steps, j), steps[j]);
  }
}
