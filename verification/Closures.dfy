/** What a closed authorization still owes, and when a closure succeeds. */
module Closures {
  import opened Messages
  import opened Database
  import opened Sums
  import opened SyncV3
  import opened Authorizations
  import opened Invariant
  import opened Rows
  import opened Steps
  import opened Handlers
  import opened Machine
  import opened History
  import opened Guards

  /** Manifest amounts whose payment has not ended. */
  function Outstanding(payments: map<Id, Payment>, entries: seq<Entry>): int {
    if |entries| == 0 then 0
    else
      var last := entries[|entries| - 1];
      Outstanding(payments, entries[..|entries| - 1])
      + if last.op in payments && payments[last.op].Final() then 0 else last.amount
  }

  lemma {:induction false} OutstandingIsRest(payments: map<Id, Payment>, entries: seq<Entry>)
    ensures Outstanding(payments, entries) ==
            Total(entries) - TotalIn(payments, entries, Accepted) - TotalIn(payments, entries, Rejected)
  {
    if |entries| > 0 {
      OutstandingIsRest(payments, entries[..|entries| - 1]);
    }
  }

  /** With positive amounts, nothing is outstanding exactly when every entry has ended; and what one open
    entry needs is always outstanding. */
  lemma {:induction false} OutstandingSign(payments: map<Id, Payment>, entries: seq<Entry>)
    requires forall e | e in entries :: e.amount >= 1
    ensures Outstanding(payments, entries) >= 0
    ensures Outstanding(payments, entries) == 0 <==> forall e | e in entries :: e.op in payments && payments[e.op].Final()
    ensures forall e | e in entries && !(e.op in payments && payments[e.op].Final()) :: e.amount <= Outstanding(payments, entries)
  {
    if |entries| > 0 {
      var n := |entries| - 1;
      assert entries == entries[..n] + [entries[n]];
      assert forall e | e in entries[..n] :: e in entries;
      assert forall e | e in entries :: e in entries[..n] || e == entries[n];
      assert entries[n] in entries;
      OutstandingSign(payments, entries[..n]);
    }
  }

  /** What is held is what the manifest still owes, the commitment is settled exactly when every entry has
    ended, and every ended payment of the authorization is in the manifest. */
  ghost predicate ExactlyHeld(a: Id, c: Commitment, entries: seq<Entry>, payments: map<Id, Payment>) {
    && c.unissued == c.reserved - Total(entries)
    && c.held == Outstanding(payments, entries)
    && (c.phase.SETTLED? <==> c.held == 0)
    && (c.phase.SETTLED? <==> forall e | e in entries :: e.op in payments && payments[e.op].Final())
    && (forall op | op in payments && payments[op].auth == a && payments[op].Final() :: op in EntryOps(entries))
  }

  lemma SealFacts(db: Db, a: Id)
    requires SealsOk(db.commitments, db.payments, db.claims) && CommitmentsOk(db.commitments, db.authorizations)
    requires a in db.commitments && db.commitments[a].Closed()
    ensures SealOk(a, db.commitments[a], db.payments, db.claims)
    ensures a in db.authorizations && CommitmentOk(a, db.commitments[a], db.authorizations[a])
  {
    hide SealOk, CommitmentOk;
  }

  lemma SealIsExact(a: Id, c: Commitment, row: Authorization, payments: map<Id, Payment>, claims: map<(Id, Id), Claim>)
    requires c.Closed() && SealOk(a, c, payments, claims) && CommitmentOk(a, c, row)
    ensures ExactlyHeld(a, c, c.sealed.value.entries, payments)
    ensures forall e | e in c.sealed.value.entries :: e.amount >= 1
  {
    hide Outstanding, Total, TotalIn, Proper, EntryOps;
    OutstandingIsRest(payments, c.sealed.value.entries);
    OutstandingSign(payments, c.sealed.value.entries);
  }

  lemma ClosedHoldsOutstanding(db: Db, opening: map<Id, int>, a: Id)
    requires Inv(db, opening) && a in db.commitments && db.commitments[a].Closed()
    ensures ExactlyHeld(a, db.commitments[a], db.commitments[a].sealed.value.entries, db.payments)
    ensures forall e | e in db.commitments[a].sealed.value.entries :: e.amount >= 1
  {
    hide *;
    InvParts(db, opening);
    SealFacts(db, a);
    SealIsExact(a, db.commitments[a], db.authorizations[a], db.payments, db.claims);
  }

  lemma SealStays(before: Db, after: Db, a: Id)
    requires Evolves(before, after) && a in before.commitments && before.commitments[a].Closed()
    ensures a in after.commitments && after.commitments[a].Closed()
    ensures after.commitments[a].sealed == before.commitments[a].sealed
  {
    hide PaymentsEvolve, WalletsEvolve, Submap;
  }

  /** Closure exactness over every run with safe windows: from the close on, the manifest decides, for ever. */
  lemma ClosureIsExact(db: Db, opening: map<Id, int>, steps: seq<Step>, a: Id)
    requires Inv(db, opening) && SafeWindows(db, steps) && a in db.commitments && db.commitments[a].Closed()
    ensures
      var end := Run(db, steps);
      && a in end.commitments && end.commitments[a].sealed == db.commitments[a].sealed
      && ExactlyHeld(a, end.commitments[a], db.commitments[a].sealed.value.entries, end.payments)
  {
    hide *;
    RunKeepsInv(db, opening, steps);
    RunEvolves(db, opening, steps);
    SealStays(db, Run(db, steps), a);
    ClosedHoldsOutstanding(Run(db, steps), opening, a);
  }

  lemma OpenEntryFits(entries: seq<Entry>, payments: map<Id, Payment>, op: Id, claim: Claim)
    requires InManifest(entries, op, claim) && op in payments && !payments[op].Final()
    requires forall e | e in entries :: e.amount >= 1
    ensures claim.amount <= Outstanding(payments, entries)
  {
    hide Outstanding;
    var i :| 0 <= i < |entries| && entries[i].op == op && entries[i].amount == claim.amount;
    assert entries[i] in entries;
    OutstandingSign(payments, entries);
  }

  lemma KnownIsOpen(db: Db, ctx: Context)
    requires Bound(db, ctx) && ctx.op in db.payments
    ensures !db.payments[ctx.op].Final()
    ensures ctx.receipt.message.body.Receipt? && ctx.auth in db.commitments && ctx.Claim().amount == ctx.Amount()
  {
    hide AckBound, NonceTaken;
  }

  /** What one listed, still open payment needs is always held. */
  lemma ListedIsHeld(db: Db, opening: map<Id, int>, ctx: Context)
    requires Inv(db, opening) && Bound(db, ctx) && ctx.op in db.payments
    requires db.commitments[ctx.auth].Closed()
    requires InManifest(db.commitments[ctx.auth].sealed.value.entries, ctx.op, ctx.Claim())
    ensures ctx.receipt.message.body.Receipt? && ctx.auth in db.commitments
    ensures ctx.Amount() <= db.commitments[ctx.auth].held
  {
    hide Inv, Bound, InManifest, Outstanding, Total, TotalIn, EntryOps;
    KnownIsOpen(db, ctx);
    ClosedHoldsOutstanding(db, opening, ctx.auth);
    OpenEntryFits(db.commitments[ctx.auth].sealed.value.entries, db.payments, ctx.op, ctx.Claim());
  }

  /** A late acknowledgement of a manifest entry, without review and without index conflict, is always accepted. */
  lemma LateAckIsAccepted(db: Db, opening: map<Id, int>, env: Env, user: Id, ctx: Context)
    requires Inv(db, opening) && Bound(db, ctx) && env.issuer.Some?
    requires ctx.op in db.payments && !db.payments[ctx.op].state.PendingReview?
    requires db.commitments[ctx.auth].Closed()
    requires InManifest(db.commitments[ctx.auth].sealed.value.entries, ctx.op, ctx.Claim())
    requires ctx.ack.Some? && !ctx.review && !ClaimConflict(db.claims, ctx.auth, ctx.op, ctx.Claim())
    ensures ctx.receipt.message.body.Receipt? && ctx.auth in db.commitments
    ensures JudgeBound(db, env, user, ctx) == Settle(ctx, env.issuer.value)
  {
    hide Inv, Bound, ClaimConflict, GuardsPass, EmittedByOther, SettlementRowsTaken, InManifest, NonceTaken;
    ListedIsHeld(db, opening, ctx);
    SettlesIff(db, opening, env, user, ctx);
  }

  /** The set of operations a manifest names, and what is paid among them, regardless of order. */
  lemma {:induction false} ManifestSum(entries: seq<Entry>, payments: map<Id, Payment>, a: Id, state: PaymentState)
    requires forall i, j | 0 <= i < j < |entries| :: entries[i].op != entries[j].op
    requires forall e | e in entries :: e.op in payments && payments[e.op].auth == a && payments[e.op].amount == e.amount
    ensures TotalIn(payments, entries, state) == Sum(EntryOps(entries), PaidBy(payments, a, state))
  {
    if |entries| == 0 {
      assert EntryOps(entries) == {};
    } else {
      var n := |entries| - 1;
      var last, rest := entries[n], entries[..n];
      assert entries[n] in entries && forall e | e in rest :: e in entries;
      assert last.op in EntryOps(entries);
      assert EntryOps(entries) - {last.op} == EntryOps(rest);
      SumAt(EntryOps(entries), PaidBy(payments, a, state), last.op);
      ManifestSum(rest, payments, a, state);
    }
  }

  /** Listing exactly an authorization's payments, the manifest agrees with every counter of its commitment. */
  lemma ManifestAgrees(db: Db, opening: map<Id, int>, a: Id, entries: seq<Entry>)
    requires Inv(db, opening) && a in db.commitments && !db.commitments[a].Closed()
    requires forall i, j | 0 <= i < j < |entries| :: entries[i].op != entries[j].op
    requires PaymentOps(db, a) == EntryOps(entries)
    requires forall e | e in entries :: e.op in db.payments && db.payments[e.op].amount == e.amount
    requires Total(entries) <= db.commitments[a].reserved
    requires forall e | e in entries :: e.amount >= 1
    ensures AccountsAgree(db, db.commitments[a], entries)
  {
    assert CountersOk(db.commitments, db.emissions, db.payments) && CommitmentsOk(db.commitments, db.authorizations) by {
      hide *;
      InvParts(db, opening);
    }
    hide Inv, Sum, TotalIn, Total, Outstanding;
    assert forall e | e in entries :: e.op in EntryOps(entries);
    forall state | state == Accepted || state == Rejected
      ensures TotalIn(db.payments, entries, state) == Sum(db.payments.Keys, PaidBy(db.payments, a, state))
    {
      SumRestrict(db.payments.Keys, EntryOps(entries), PaidBy(db.payments, a, state));
      ManifestSum(entries, db.payments, a, state);
    }
    assert CounterOk(a, db.commitments[a], db.emissions, db.payments);
    OutstandingIsRest(db.payments, entries);
    OutstandingSign(db.payments, entries);
  }
}
