/** The reconciliation handler as it runs: one session per request, committed or rolled back.

  `db` is the committed state; `tx` is the session of the running request, discarded unless it is committed. */
module Backend {
  import opened Messages
  import opened Database
  import opened Sums
  import opened SyncV3
  import opened Authorizations
  import opened Invariant
  import opened Rows
  import opened Steps
  import opened Reconciliation
  import opened Guards
  import opened Handlers
  import opened SyncV2
  import opened LegacySteps
  import opened Rollback
  import opened LegacyRollback

  /** Insert a payment row; the unique nonce may refuse it. */
  method InsertPayment(tx: Db, op: Id, p: Payment) returns (ok: bool, after: Db)
    requires op !in tx.payments
    ensures ok == !NonceTaken(tx, p.nonce)
    ensures after == if ok then tx.(payments := tx.payments[op := p]) else tx
  {
    ok, after := true, tx;
    if exists o :: o in tx.payments && tx.payments[o].nonce == p.nonce {
      ok := false;
    } else {
      after := tx.(payments := tx.payments[op := p]);
    }
  }

  /** Persist the claim of one receipt and report whether its index, or its content, contradicts another claim. */
  method RecordClaimIn(tx: Db, auth: Id, op: Id, claim: Claim) returns (conflict: bool, after: Db)
    ensures conflict == ClaimConflict(tx.claims, auth, op, claim)
    ensures after == tx.(claims := RecordClaim(tx.claims, auth, op, claim))
  {
    after := tx;
    if (auth, op) in tx.claims {
      if tx.claims[(auth, op)] != claim {
        conflict := true;
        return;
      }
    } else {
      after := tx.(claims := tx.claims[(auth, op) := claim]);
    }
    conflict := exists k :: k in after.claims && k.0 == auth && k.1 != op && after.claims[k].index == claim.index;
    if conflict {
      var k :| k in after.claims && k.0 == auth && k.1 != op && after.claims[k].index == claim.index;
      assert k in tx.claims;
    } else {
      assert forall k | k in tx.claims :: k in after.claims && (k != (auth, op) ==> after.claims[k] == tx.claims[k]);
    }
  }

  /** Look the operation up in a manifest and compare its receipt. */
  method FindEntry(entries: seq<Entry>, op: Id, claim: Claim) returns (listed: bool)
    requires WellFormedManifest(entries)
    ensures listed == InManifest(entries, op, claim)
  {
    var i := 0;
    while i < |entries| && entries[i].op != op
      invariant 0 <= i <= |entries|
      invariant forall j | 0 <= j < i :: entries[j].op != op
    {
      i := i + 1;
    }
    listed := i < |entries| && Claim(entries[i].index, entries[i].amount, entries[i].receiptDigest) == claim;
    if listed {
      assert entries[i].op == op;
    }
  }

  /** The verdict on evidence that reached the settlement. */
  function ApplyVerdict(db: Db, env: Env, user: Id, ctx: Context): Verdict
    requires ctx.receipt.message.body.Receipt?
  {
    if EmittedByOther(db, ctx) then Refuse(Reply(CONFLICT, PENDING_REVIEW, false, Review(IndexReused), None))
    else if !GuardsPass(db, ctx) then
      Park(ctx, Some(Insufficient), true, true, Reply(VALIDATED, PENDING_REVIEW, false, Review(Insufficient), None))
    else if env.issuer.None? then Invalid(db, user, ctx.op)
    else if SettlementRowsTaken(db, ctx) then
      Refuse(Reply(CONFLICT, PENDING_REVIEW, false, DatabaseConstraint, None))
    else Settle(ctx, env.issuer.value)
  }

  /** The session that reaches the settlement: the payment validated, its claim recorded. */
  ghost predicate ReadyToApply(db: Db, tx: Db, ctx: Context) {
    && Bound(db, ctx) && ctx.ack.Some? && ctx.receipt.message.body.Receipt?
    && (ctx.op in db.payments ==> db.payments[ctx.op].ack.None?)
    && tx == db.(payments := db.payments[ctx.op := WithAck(db, ctx, Validated)],
                 claims := RecordClaim(db.claims, ctx.auth, ctx.op, ctx.Claim()))
  }

  /** The three conditional updates, when each of them matches. */
  function Debited(tx: Db, ctx: Context): Db
    requires ctx.receipt.message.body.Receipt?
    requires ctx.auth in tx.authorizations && ctx.auth in tx.commitments
  {
    var amount, row, c := ctx.Amount(), tx.authorizations[ctx.auth], tx.commitments[ctx.auth];
    tx.(authorizations := tx.authorizations[ctx.auth := row.(remaining := row.remaining - amount, payments := row.payments - 1)],
        wallets := Credit(tx.wallets, ctx.wallet, -amount),
        commitments := tx.commitments[ctx.auth := c.(emitted := c.emitted + amount, count := c.count + 1,
                                                     held := c.held - amount)])
  }

  /** The three conditional updates of a settlement, each of which may match no row. */
  method ConditionalUpdates(tx: Db, ctx: Context) returns (matched: bool, after: Db)
    requires ctx.receipt.message.body.Receipt?
    ensures matched == GuardsPass(tx, ctx)
    ensures matched ==> after == Debited(tx, ctx)
  {
    hide Credit;
    var amount, updated := ctx.Amount(), 0;
    var authorizations, wallets, commitments := tx.authorizations, tx.wallets, tx.commitments;
    if ctx.auth in authorizations && authorizations[ctx.auth].remaining >= amount && authorizations[ctx.auth].payments > 0 {
      var row := authorizations[ctx.auth];
      authorizations := authorizations[ctx.auth := row.(remaining := row.remaining - amount, payments := row.payments - 1)];
      updated := updated + 1;
    }
    if ctx.wallet in wallets && wallets[ctx.wallet].balance >= amount {
      wallets := Credit(wallets, ctx.wallet, -amount);
      updated := updated + 1;
    }
    if (&& ctx.auth in commitments && commitments[ctx.auth].held >= amount
        && commitments[ctx.auth].emitted + amount <= commitments[ctx.auth].reserved) {
      var row := commitments[ctx.auth];
      commitments := commitments[ctx.auth := row.(emitted := row.emitted + amount, count := row.count + 1,
                                                  held := row.held - amount)];
      updated := updated + 1;
    }
    matched := updated == 3;
    after := tx.(authorizations := authorizations, wallets := wallets, commitments := commitments);
  }

  lemma GuardsFrame(db: Db, tx: Db, ctx: Context)
    requires ctx.receipt.message.body.Receipt?
    requires db.authorizations == tx.authorizations && db.wallets == tx.wallets && db.commitments == tx.commitments
    ensures GuardsPass(db, ctx) == GuardsPass(tx, ctx)
  {
  }

  lemma ReadyRow(db: Db, tx: Db, ctx: Context)
    requires ReadyToApply(db, tx, ctx)
    ensures Bound(db, ctx) && ctx.ack.Some? && (ctx.op in db.payments ==> db.payments[ctx.op].ack.None?)
  {
    hide Bound;
  }

  lemma WrittenTwice<K, V>(m: map<K, V>, k: K, first: V, second: V)
    ensures m[k := first][k := second] == m[k := second]
  {
  }

  lemma ReadyParts(db: Db, tx: Db, ctx: Context)
    requires ReadyToApply(db, tx, ctx)
    ensures ctx.receipt.message.body.Receipt?
    ensures ctx.auth in db.authorizations && ctx.auth in db.commitments
    ensures ctx.wallet in db.wallets && ctx.merchantWallet in db.wallets
    ensures ctx.op in tx.payments && tx.payments[ctx.op].(state := Accepted) == WithAck(db, ctx, Accepted)
    ensures tx == db.(payments := tx.payments, claims := RecordClaim(db.claims, ctx.auth, ctx.op, ctx.Claim()))
    ensures tx.payments[ctx.op := WithAck(db, ctx, Accepted)] == db.payments[ctx.op := WithAck(db, ctx, Accepted)]
  {
    hide ReceiptBound, AckBound, NonceTaken, RecordClaim;
    WrittenTwice(db.payments, ctx.op, WithAck(db, ctx, Validated), WithAck(db, ctx, Accepted));
  }

  lemma SpentTwice(commitments: map<Id, Commitment>, a: Id, amount: int)
    requires a in commitments
    ensures
      var c := commitments[a];
      var d := c.(emitted := c.emitted + amount, count := c.count + 1, held := c.held - amount);
      commitments[a := d][a := if d.Closed() && d.held == 0 then d.(phase := SETTLED) else d] ==
      commitments[a := SpendCommitment(c, amount)]
  {
  }

  lemma CreditOwners(wallets: map<Id, Wallet>, w: Id, amount: int)
    ensures Credit(wallets, w, amount).Keys == wallets.Keys
    ensures forall v | v in wallets :: Credit(wallets, w, amount)[v].owner == wallets[v].owner
  {
  }

  /** What validation leaves to reconcile: bound evidence, and a recorded payment that waits for it or is in review. */
  ghost predicate Checked(db: Db, ctx: Context) {
    && ctx.receipt.message.body.Receipt? && ctx.auth in db.commitments
    && (db.commitments[ctx.auth].Closed() ==> WellFormedManifest(db.commitments[ctx.auth].sealed.value.entries))
    && (ctx.op in db.payments || !NonceTaken(db, ctx.Common().nonce) ==> Bound(db, ctx))
    && (ctx.op in db.payments ==>
          || db.payments[ctx.op].state.PendingReview?
          || (db.payments[ctx.op].state.PendingEvidence? && db.payments[ctx.op].ack.None?))
  }

  /** The row of a submission before its claim is recorded. */
  function Attached(db: Db, ctx: Context): Payment
    requires ctx.receipt.message.body.Receipt?
  {
    if ctx.op !in db.payments then NewPayment(ctx, if ctx.ack.None? then PendingEvidence else Validated, None)
    else
      var p := db.payments[ctx.op];
      if ctx.ack.Some? && p.ack.None? then p.(ack := ctx.ack, state := Validated) else p
  }

  lemma AttachedRow(db: Db, ctx: Context)
    requires Checked(db, ctx)
    ensures ctx.ack.Some? && (ctx.op in db.payments ==> db.payments[ctx.op].ack.None?) ==>
              Attached(db, ctx) == WithAck(db, ctx, Validated)
    ensures Attached(db, ctx).(state := PendingReview, code := Some(IndexReused)) ==
            ParkedPayment(db, ctx, Some(IndexReused), true)
    ensures ctx.ack.None? && ctx.op in db.payments ==> Attached(db, ctx) == db.payments[ctx.op]
    ensures ctx.ack.None? && ctx.op !in db.payments ==> Attached(db, ctx) == NewPayment(ctx, PendingEvidence, None)
  {
    hide Bound, NonceTaken, WellFormedManifest;
  }

  lemma ConflictParks(db: Db, ctx: Context, tx: Db)
    requires Checked(db, ctx)
    requires tx == db.(payments := db.payments[ctx.op := Attached(db, ctx).(state := PendingReview, code := Some(IndexReused))],
                       claims := RecordClaim(db.claims, ctx.auth, ctx.op, ctx.Claim()),
                       wallets := Flag(db.wallets, ctx.wallet, true))
    ensures tx == ParkOn(db, ctx, Some(IndexReused), true, true)
  {
    AttachedRow(db, ctx);
    hide Checked, Attached, RecordClaim, Flag, ParkedPayment;
  }

  lemma HoldHolds(db: Db, ctx: Context, tx: Db)
    requires Checked(db, ctx) && ctx.ack.None?
    requires tx == db.(payments := db.payments[ctx.op := Attached(db, ctx)],
                       claims := RecordClaim(db.claims, ctx.auth, ctx.op, ctx.Claim()))
    ensures tx == HoldOn(db, ctx)
  {
    AttachedRow(db, ctx);
    hide Checked, Attached, RecordClaim;
    assert ctx.op in db.payments ==> db.payments[ctx.op := db.payments[ctx.op]] == db.payments;
  }

  lemma ReadyBuild(db: Db, ctx: Context, tx: Db)
    requires Checked(db, ctx) && ctx.ack.Some? && (ctx.op in db.payments ==> db.payments[ctx.op].ack.None?)
    requires ctx.op in db.payments || !NonceTaken(db, ctx.Common().nonce)
    requires tx == db.(payments := db.payments[ctx.op := Attached(db, ctx)],
                       claims := RecordClaim(db.claims, ctx.auth, ctx.op, ctx.Claim()))
    ensures ReadyToApply(db, tx, ctx)
  {
    AttachedRow(db, ctx);
    hide Bound, NonceTaken, WellFormedManifest, Attached, RecordClaim, WithAck;
  }

  /** The rows that follow the three updates: the phase, the emission, the balances, the ledger, the payment and its
    resolution. */
  function Completed(tx: Db, ctx: Context, issuer: Issuer): Db
    requires ctx.receipt.message.body.Receipt? && ctx.auth in tx.commitments && ctx.op in tx.payments
    requires ctx.wallet in tx.wallets && ctx.merchantWallet in tx.wallets
  {
    var amount, c := ctx.Amount(), tx.commitments[ctx.auth];
    var payment := tx.payments[ctx.op].(state := Accepted);
    tx.(commitments := tx.commitments[ctx.auth := if c.Closed() && c.held == 0 then c.(phase := SETTLED) else c],
        emissions := tx.emissions[(ctx.auth, ctx.op) := Emission(ctx.Claim().index, amount)],
        saldo := CreditUser(CreditUser(tx.saldo, tx.wallets[ctx.wallet].owner, -amount),
                            tx.wallets[ctx.merchantWallet].owner, amount),
        wallets := Credit(tx.wallets, ctx.merchantWallet, amount),
        ledger := tx.ledger[(ctx.op, DEBIT) := LedgerEntry(ctx.wallet, -amount)]
                           [(ctx.op, CREDIT) := LedgerEntry(ctx.merchantWallet, amount)],
        payments := tx.payments[ctx.op := payment],
        resolutions := tx.resolutions[ctx.op := ResolutionRow(Accepted, ResolutionOf(c.grant, payment, ctx.op, issuer))])
  }

  lemma DebitedTables(tx: Db, ctx: Context)
    requires ctx.receipt.message.body.Receipt? && ctx.auth in tx.authorizations && ctx.auth in tx.commitments
    ensures ctx.auth in Debited(tx, ctx).commitments && Debited(tx, ctx).payments == tx.payments
    ensures Debited(tx, ctx).wallets.Keys == tx.wallets.Keys
  {
  }

  /** The three updates and the rows after them are exactly a settlement. */
  lemma CompletedIsSettle(db: Db, tx: Db, issuer: Issuer, ctx: Context)
    requires ReadyToApply(db, tx, ctx)
    ensures ctx.receipt.message.body.Receipt? && ctx.auth in tx.authorizations && ctx.auth in tx.commitments
    ensures ctx.auth in Debited(tx, ctx).commitments && ctx.op in Debited(tx, ctx).payments
    ensures ctx.wallet in Debited(tx, ctx).wallets && ctx.merchantWallet in Debited(tx, ctx).wallets
    ensures Executable(db, Settle(ctx, issuer))
    ensures Completed(Debited(tx, ctx), ctx, issuer) == SettleOn(db, ctx, issuer)
  {
    ReadyParts(db, tx, ctx);
    hide ReadyToApply, ResolutionOf, RecordClaim, WithAck, CreditUser, SpendCommitment;
    DebitedTables(tx, ctx);
    CreditOwners(db.wallets, ctx.wallet, -ctx.Amount());
    SpentTwice(db.commitments, ctx.auth, ctx.Amount());
    hide Credit;
  }

  /** Write the rows of a settlement into the session, one after another. */
  method WriteRows(session: Db, ctx: Context, issuer: Issuer) returns (tx: Db, resolution: Envelope)
    requires ctx.receipt.message.body.Receipt? && ctx.auth in session.commitments && ctx.op in session.payments
    requires ctx.wallet in session.wallets && ctx.merchantWallet in session.wallets
    ensures tx == Completed(session, ctx, issuer)
    ensures ctx.op in tx.resolutions && tx.resolutions[ctx.op].envelope == resolution
  {
    hide ResolutionOf, CreditUser;
    CreditOwners(session.wallets, ctx.merchantWallet, ctx.Amount());
    hide Credit;
    var amount := ctx.Amount();
    var commitment := session.commitments[ctx.auth];
    if commitment.Closed() && commitment.held == 0 {
      commitment := commitment.(phase := SETTLED);
    }
    var emissions := session.emissions[(ctx.auth, ctx.op) := Emission(ctx.Claim().index, amount)];
    var saldo := CreditUser(session.saldo, session.wallets[ctx.wallet].owner, -amount);
    var wallets := Credit(session.wallets, ctx.merchantWallet, amount);
    assert wallets[ctx.merchantWallet].owner == session.wallets[ctx.merchantWallet].owner;
    saldo := CreditUser(saldo, wallets[ctx.merchantWallet].owner, amount);
    var ledger := session.ledger[(ctx.op, DEBIT) := LedgerEntry(ctx.wallet, -amount)]
                                [(ctx.op, CREDIT) := LedgerEntry(ctx.merchantWallet, amount)];
    var payment := session.payments[ctx.op].(state := Accepted);
    resolution := ResolutionOf(commitment.grant, payment, ctx.op, issuer);
    tx := session.(commitments := session.commitments[ctx.auth := commitment], emissions := emissions, saldo := saldo,
                   wallets := wallets, ledger := ledger, payments := session.payments[ctx.op := payment],
                   resolutions := session.resolutions[ctx.op := ResolutionRow(Accepted, resolution)]);
  }

  /** With nothing committed in between, the second transaction parks the payment as one commit would. */
  lemma ParkedWithinIsRepark(db: Db, ctx: Context)
    requires Bound(db, ctx) && ctx.ack.Some? && ctx.receipt.message.body.Receipt?
    requires ctx.op in db.payments ==> db.payments[ctx.op].ack.None?
    ensures Repark(db, ctx) == ParkOn(db, ctx, Some(Insufficient), true, true)
    ensures ctx.op in db.payments || !NonceTaken(db, ctx.Common().nonce)
  {
    hide ReceiptBound, AckBound, NonceTaken, Flag, RecordClaim;
  }

  class Backend {
    var db: Db

    constructor (initial: Db)
      ensures db == initial
    {
      db := initial;
    }

    /** Malformed or unbound evidence: roll back, and repeat the outcome of a payment that already ended. */
    method RefuseInvalid(user: Id, op: Id) returns (reply: Reply)
      ensures reply == ReplyOf(db, Invalid(db, user, op))
    {
      reply := Reply(INVALID_EVIDENCE, UNRESOLVED, false, InvalidEvidence, None);
      if op in db.payments && db.payments[op].Final() {
        var known := db.payments[op];
        if !Authorized(db, user, known.wallet, known.terminal) {
          reply := Forbidden;
        } else if op in db.resolutions && db.resolutions[op].status == known.state {
          reply := Reply(CONFLICT, OperationState(known.state), true, InvalidSubmission,
                         Some(db.resolutions[op].envelope));
        }
      }
    }

    /** The settlement of a validated payment: three conditional updates, then the rows they justify. */
    method Apply(tx: Db, env: Env, user: Id, ctx: Context) returns (reply: Reply)
      requires ReadyToApply(db, tx, ctx)
      modifies this`db
      ensures Executable(old(db), ApplyVerdict(old(db), env, user, ctx))
      ensures db == Perform(old(db), ApplyVerdict(old(db), env, user, ctx))
      ensures reply == ReplyOf(old(db), ApplyVerdict(old(db), env, user, ctx))
    {
      ReadyParts(db, tx, ctx);
      ReadyRow(db, tx, ctx);
      hide ReadyToApply, Bound, RecordClaim, WithAck, SettlementRowsTaken, ParkOn, SettleOn, Credit, Authorized, Debited;
      var index := ctx.Claim().index;
      if exists k :: k in tx.emissions && k.0 == ctx.auth && k.1 != ctx.op && tx.emissions[k].index == index {
        reply := Reply(CONFLICT, PENDING_REVIEW, false, Review(IndexReused), None);
        return;
      }
      hide EmittedByOther;
      var matched, debited := ConditionalUpdates(tx, ctx);
      GuardsFrame(db, tx, ctx);
      hide GuardsPass;
      if !matched {
        ParkedWithinIsRepark(db, ctx);
        reply := ParkUncovered(ctx);
        return;
      }
      reply := Complete(tx, debited, env, user, ctx);
    }

    /** The rows of a settlement whose conditional updates all matched. */
    method Complete(tx: Db, debited: Db, env: Env, user: Id, ctx: Context) returns (reply: Reply)
      requires ReadyToApply(db, tx, ctx) && GuardsPass(db, ctx) && !EmittedByOther(db, ctx)
      requires ctx.auth in tx.authorizations && ctx.auth in tx.commitments && debited == Debited(tx, ctx)
      modifies this`db
      ensures ctx.wallet in old(db).wallets && ctx.merchantWallet in old(db).wallets
      ensures ctx.auth in old(db).commitments && ctx.auth in old(db).authorizations
      ensures
        if env.issuer.None? then db == old(db) && reply == ReplyOf(old(db), Invalid(old(db), user, ctx.op))
        else if SettlementRowsTaken(old(db), ctx) then
          db == old(db) && reply == Reply(CONFLICT, PENDING_REVIEW, false, DatabaseConstraint, None)
        else
          && db == SettleOn(old(db), ctx, env.issuer.value) && ctx.op in db.resolutions
          && reply == Reply(VALIDATED, ACCEPTED, true, NoDetail, Some(db.resolutions[ctx.op].envelope))
    {
      hide ReadyToApply, EmittedByOther, Invalid, Authorized, SettleOn, GuardsPass, Completed, Debited;
      ReadyParts(db, tx, ctx);
      DebitedTables(tx, ctx);
      var taken := (ctx.auth, ctx.op) in tx.emissions || (ctx.op, DEBIT) in tx.ledger || (ctx.op, CREDIT) in tx.ledger
                   || ctx.op in tx.resolutions;
      if env.issuer.None? {
        reply := RefuseInvalid(user, ctx.op);
        return;
      }
      var done, resolution := WriteRows(debited, ctx, env.issuer.value);
      CompletedIsSettle(db, tx, env.issuer.value, ctx);
      if taken {
        reply := Reply(CONFLICT, PENDING_REVIEW, false, DatabaseConstraint, None);
        return;
      }
      db := done;
      reply := Reply(VALIDATED, ACCEPTED, true, NoDetail, Some(resolution));
    }

    /** The second transaction of a failed settlement, on whatever is committed by then: read the payment again and park
      it under review. */
    method ParkUncovered(ctx: Context) returns (reply: Reply)
      requires ctx.receipt.message.body.Receipt?
      modifies this`db
      ensures db == Repark(old(db), ctx)
      ensures reply == if ctx.op !in old(db).payments && NonceTaken(old(db), ctx.Common().nonce) then
                         Reply(CONFLICT, PENDING_REVIEW, false, DatabaseConstraint, None)
                       else Reply(VALIDATED, PENDING_REVIEW, false, Review(Insufficient), None)
    {
      hide NonceTaken;
      var tx := db;
      if ctx.op in tx.payments {
        var p := tx.payments[ctx.op];
        tx := tx.(payments := tx.payments[ctx.op := p.(state := PendingReview, code := Some(Insufficient), ack := ctx.ack)]);
      } else {
        var ok;
        ok, tx := InsertPayment(tx, ctx.op, NewPayment(ctx, PendingReview, Some(Insufficient)));
        if !ok {
          return Reply(CONFLICT, PENDING_REVIEW, false, DatabaseConstraint, None);
        }
      }
      tx := tx.(wallets := Flag(tx.wallets, ctx.wallet, true));
      if (ctx.auth, ctx.op) !in tx.claims {
        tx := tx.(claims := tx.claims[(ctx.auth, ctx.op) := ctx.Claim()]);
      }
      db := tx;
      reply := Reply(VALIDATED, PENDING_REVIEW, false, Review(Insufficient), None);
    }

    /** Record an authenticated submission whose payment has not ended, and settle it when its evidence is complete. */
    method Reconcile(env: Env, user: Id, ctx: Context) returns (reply: Reply)
      requires Checked(db, ctx)
      modifies this`db
      ensures Executable(old(db), JudgeBound(old(db), env, user, ctx))
      ensures db == Perform(old(db), JudgeBound(old(db), env, user, ctx))
      ensures reply == ReplyOf(old(db), JudgeBound(old(db), env, user, ctx))
    {
      hide ClaimConflict, EmittedByOther, GuardsPass, SettlementRowsTaken, InManifest, NonceTaken, RecordClaim, Flag, Bound,
           ParkOn, HoldOn, SettleOn, WithAck, WellFormedManifest, Invalid;
      ghost var before := db;
      var tx := db;
      var op, claim := ctx.op, ctx.Claim();
      var known := op in tx.payments;
      var commitment := tx.commitments[ctx.auth];
      var ok, conflict := true, false;
      if commitment.Closed() {
        var listed := FindEntry(commitment.sealed.value.entries, op, claim);
        if !listed {
          reply := ParkOmitted(ctx);
          return;
        }
      }
      if ctx.review || (known && tx.payments[op].state.PendingReview?) {
        reply := ParkForReview(ctx);
        return;
      }
      if commitment.Closed() && !known {
        reply := ParkOmitted(ctx);
        return;
      }
      if !known {
        ok, tx := InsertPayment(tx, op, NewPayment(ctx, if ctx.ack.None? then PendingEvidence else Validated, None));
        if !ok {
          reply := Reply(CONFLICT, PENDING_REVIEW, false, DatabaseConstraint, None);
          return;
        }
      } else if ctx.ack.Some? && tx.payments[op].ack.None? {
        tx := tx.(payments := tx.payments[op := tx.payments[op].(ack := ctx.ack, state := Validated)]);
      }
      assert tx == before.(payments := before.payments[op := Attached(before, ctx)]) by {
        assert known ==> before.payments[op := before.payments[op]] == before.payments;
      }
      conflict, tx := RecordClaimIn(tx, ctx.auth, op, claim);
      if conflict {
        WrittenTwice(before.payments, op, Attached(before, ctx), tx.payments[op].(state := PendingReview, code := Some(IndexReused)));
        tx := tx.(payments := tx.payments[op := tx.payments[op].(state := PendingReview, code := Some(IndexReused))],
                  wallets := Flag(tx.wallets, ctx.wallet, true));
        ConflictParks(before, ctx, tx);
        db := tx;
        reply := Reply(CONFLICT, PENDING_REVIEW, false, Review(IndexReused), None);
        return;
      }
      if ctx.ack.None? {
        HoldHolds(before, ctx, tx);
        db := tx;
        reply := Reply(VALIDATED, PENDING_EVIDENCE, false, AckRequired, None);
        return;
      }
      ReadyBuild(before, ctx, tx);
      reply := Apply(tx, env, user, ctx);
    }

    /** Evidence that the closed authorization's manifest does not list: keep it, for review. */
    method ParkOmitted(ctx: Context) returns (reply: Reply)
      requires ctx.receipt.message.body.Receipt?
      modifies this`db
      ensures
        if ctx.op !in old(db).payments && NonceTaken(old(db), ctx.Common().nonce) then
          && db == old(db) && reply == Reply(CONFLICT, PENDING_REVIEW, false, DatabaseConstraint, None)
        else
          && db == ParkOn(old(db), ctx, Some(EvidenceOmitted), false, true)
          && reply == Reply(VALIDATED, PENDING_REVIEW, false, Review(EvidenceOmitted), None)
    {
      hide ClaimConflict, NonceTaken;
      var tx := db.(wallets := Flag(db.wallets, ctx.wallet, true));
      if ctx.op !in tx.payments {
        var ok;
        ok, tx := InsertPayment(tx, ctx.op, NewPayment(ctx, PendingReview, Some(EvidenceOmitted)));
        if !ok {
          NonceFrame(db, tx, ctx.Common().nonce);
          reply := Reply(CONFLICT, PENDING_REVIEW, false, DatabaseConstraint, None);
          return;
        }
      } else {
        tx := tx.(payments := tx.payments[ctx.op := tx.payments[ctx.op].(state := PendingReview, code := Some(EvidenceOmitted))]);
      }
      NonceFrame(db, db.(wallets := Flag(db.wallets, ctx.wallet, true)), ctx.Common().nonce);
      var conflict;
      conflict, tx := RecordClaimIn(tx, ctx.auth, ctx.op, ctx.Claim());
      db := tx;
      reply := Reply(VALIDATED, PENDING_REVIEW, false, Review(EvidenceOmitted), None);
    }

    /** Evidence under a revocation review, or of a payment already in review. */
    method ParkForReview(ctx: Context) returns (reply: Reply)
      requires ctx.receipt.message.body.Receipt?
      modifies this`db
      ensures
        var known, conflict := ctx.op in old(db).payments, ClaimConflict(old(db).claims, ctx.auth, ctx.op, ctx.Claim());
        if !known && NonceTaken(old(db), ctx.Common().nonce) then
          && db == old(db) && reply == Reply(CONFLICT, PENDING_REVIEW, false, DatabaseConstraint, None)
        else
          && db == ParkOn(old(db), ctx, if !known then Some(RevocationReview) else if conflict then Some(IndexReused) else None,
                          false, conflict)
          && reply == Reply(VALIDATED, PENDING_REVIEW, false, Review(RevocationReview), None)
    {
      hide ClaimConflict, NonceTaken, RecordClaim;
      var tx, known, ok, conflict := db, ctx.op in db.payments, true, false;
      if !known {
        ok, tx := InsertPayment(tx, ctx.op, NewPayment(ctx, PendingReview, Some(RevocationReview)));
        if !ok {
          reply := Reply(CONFLICT, PENDING_REVIEW, false, DatabaseConstraint, None);
          return;
        }
      } else {
        tx := tx.(payments := tx.payments[ctx.op := tx.payments[ctx.op].(state := PendingReview)]);
      }
      conflict, tx := RecordClaimIn(tx, ctx.auth, ctx.op, ctx.Claim());
      if conflict {
        tx := tx.(wallets := Flag(tx.wallets, ctx.wallet, true));
        if known {
          WrittenTwice(db.payments, ctx.op, tx.payments[ctx.op], tx.payments[ctx.op].(code := Some(IndexReused)));
          tx := tx.(payments := tx.payments[ctx.op := tx.payments[ctx.op].(code := Some(IndexReused))]);
        }
      }
      db := tx;
      reply := Reply(VALIDATED, PENDING_REVIEW, false, Review(RevocationReview), None);
    }

    /** A submission for a payment that ended: repeat its resolution, or attach a late acknowledgement. */
    method RepeatFinal(user: Id, op: Id, request: Envelope, grant: Envelope, receipt: Envelope, ack: Option<Wire>)
      returns (reply: Reply)
      requires op in db.payments && db.payments[op].Final()
      modifies this`db
      ensures Executable(old(db), JudgeFinal(old(db), user, op, request, grant, receipt, ack))
      ensures db == Perform(old(db), JudgeFinal(old(db), user, op, request, grant, receipt, ack))
      ensures reply == ReplyOf(old(db), JudgeFinal(old(db), user, op, request, grant, receipt, ack))
    {
      hide AckBound, Valid3, Invalid;
      InvalidIsRefusal(db, user, op);
      var existing := db.payments[op];
      if op !in db.resolutions || db.resolutions[op].status != existing.state {
        reply := Reply(RETRYABLE_ERROR, OperationState(existing.state), false, SignedResolutionMissing, None);
        return;
      }
      var resolution := Some(db.resolutions[op].envelope);
      var code := NoDetail;
      if existing.request != request || existing.receipt != receipt {
        code := ContentMismatch;
      } else if existing.ack.Some? && ack.Some? && ack.value != Wire(existing.ack.value) {
        code := AckMismatch;
      }
      if existing.auth !in db.commitments || db.commitments[existing.auth].grant != grant {
        code := AuthorizationMismatch;
      }
      if !code.NoDetail? {
        reply := Reply(CONFLICT, OperationState(existing.state), true, code, resolution);
        return;
      }
      reply := Reply(VALIDATED, OperationState(existing.state), true,
                     if existing.code.Some? then Review(existing.code.value) else NoDetail, resolution);
      if existing.ack.None? && ack.Some? {
        var parsed := Parse3(ack.value);
        if parsed.None? || !AckBound(request, receipt, parsed.value) {
          reply := RefuseInvalid(user, op);
          return;
        }
        AckIsBoundToRequest(request, receipt, parsed.value);
        var posKey := request.message.body.posKey;
        if posKey !in db.keys || !Verifies(parsed.value, db.keys[posKey].publicKey) {
          reply := RefuseInvalid(user, op);
          return;
        }
        db := db.(payments := db.payments[op := existing.(ack := Some(parsed.value))]);
      }
    }

    method ProcessParsed(env: Env, user: Id, op: Id, request: Envelope, grant: Envelope, receipt: Envelope,
                         ack: Option<Wire>, ghost opening: map<Id, int>) returns (reply: Reply)
      requires Inv(db, opening) && OperationOf(receipt.message.body) == Some(op)
      modifies this`db
      ensures Executable(old(db), JudgeParsed(old(db), env, user, op, request, grant, receipt, ack))
      ensures db == Perform(old(db), JudgeParsed(old(db), env, user, op, request, grant, receipt, ack))
      ensures reply == ReplyOf(old(db), JudgeParsed(old(db), env, user, op, request, grant, receipt, ack))
    {
      hide Inv, Validate, JudgeFinal, JudgeBound, Invalid, Authorized, Checked;
      if op in db.payments {
        var existing := db.payments[op];
        if !Authorized(db, user, existing.wallet, existing.terminal) {
          reply := Forbidden;
          return;
        }
        if existing.Final() {
          reply := RepeatFinal(user, op, request, grant, receipt, ack);
          return;
        }
        if existing.request != request || existing.receipt != receipt {
          reply := Reply(CONFLICT, OperationState(existing.state), false, ContentMismatch, None);
          return;
        }
        if existing.ack.Some? && ack.Some? && ack.value != Wire(existing.ack.value) {
          reply := Reply(CONFLICT, OperationState(existing.state), false, AckMismatch, None);
          return;
        }
      }
      var ctx := Validate(db, env, op, request, grant, receipt, ack);
      if ctx.None? {
        InvalidIsRefusal(db, user, op);
        reply := RefuseInvalid(user, op);
        return;
      }
      CheckedBy(db, opening, env, op, request, grant, receipt, ack);
      if !Authorized(db, user, ctx.value.wallet, request.message.body.common.terminal) {
        reply := Forbidden;
        return;
      }
      reply := Reconcile(env, user, ctx.value);
    }

    /** Reconcile one submission. Whatever it contains, the new state and the reply are those of its verdict, and
      the accounting invariant holds. */
    method ProcessEvidence(env: Env, user: Id, ev: Evidence, ghost opening: map<Id, int>) returns (reply: Reply)
      requires Inv(db, opening)
      modifies this`db
      ensures Executable(old(db), Judge(old(db), env, user, ev))
      ensures db == Perform(old(db), Judge(old(db), env, user, ev))
      ensures reply == ReplyOf(old(db), Judge(old(db), env, user, ev))
      ensures Inv(db, opening)
    {
      hide Inv, JudgeParsed, Invalid, Valid3;
      ghost var before := db;
      SyncKeepsInv(db, opening, env, user, ev);
      InvalidIsRefusal(db, user, ev.op);
      var request, grant, receipt := Parse3(ev.request), Parse3(ev.grant), Parse3(ev.receipt);
      if request.None? || grant.None? || receipt.None? || ev.ack == Some(Undecodable) {
        reply := RefuseInvalid(user, ev.op);
        return;
      }
      if (|| OperationOf(request.value.message.body) != Some(ev.op)
          || OperationOf(receipt.value.message.body) != Some(ev.op)) {
        reply := Reply(INVALID_EVIDENCE, UNRESOLVED, false, OperationIdMismatch, None);
        return;
      }
      if !NamesWallet(grant.value.message.body) {
        reply := RefuseInvalid(user, ev.op);
        return;
      }
      reply := ProcessParsed(env, user, ev.op, request.value, grant.value, receipt.value, ev.ack, opening);
    }

    // -------------------------------------------------------------------------------------------
    // Authorizations, closures, top-ups and resolutions

    /** Cents held by the wallet's commitments. */
    method HeldCents(w: Id) returns (total: int)
      ensures total == Held(db.commitments, w)
    {
      var keys := db.commitments.Keys;
      total := 0;
      while keys != {}
        invariant keys <= db.commitments.Keys
        invariant total + Sum(keys, HeldBy(db.commitments, w)) == Held(db.commitments, w)
        decreases |keys|
      {
        var a :| a in keys;
        SumAt(keys, HeldBy(db.commitments, w), a);
        if db.commitments[a].wallet == w {
          total := total + db.commitments[a].held;
        }
        keys := keys - {a};
      }
    }

    /** Cents remaining under the wallet's active authorizations without a commitment. */
    method LegacyCents(w: Id) returns (total: int)
      ensures total == Legacy(db.authorizations, db.commitments.Keys, w)
    {
      var keys := db.authorizations.Keys;
      ghost var f := LegacyBy(db.authorizations, db.commitments.Keys, w);
      total := 0;
      while keys != {}
        invariant keys <= db.authorizations.Keys
        invariant total + Sum(keys, f) == Legacy(db.authorizations, db.commitments.Keys, w)
        decreases |keys|
      {
        var a :| a in keys;
        SumAt(keys, f, a);
        var row := db.authorizations[a];
        if row.wallet == w && row.active && a !in db.commitments {
          total := total + row.remaining;
        }
        keys := keys - {a};
      }
    }

    /** Reserve a budget and issue its grant. */
    method IssueAuthorization(env: Env, user: Id, r: IssueRequest, now: int, id: Id, stale: bool, ghost opening: map<Id, int>)
      returns (reply: IssueReply)
      requires Inv(db, opening)
      modifies this`db
      ensures (db, reply) == Issue(old(db), env, user, r, now, id, stale)
      ensures Inv(db, opening)
    {
      hide Inv, Held, Legacy, Repeat, Valid3, Reserve;
      IssueKeepsInv(db, opening, env, user, r, now, id, stale);
      if r.wallet !in db.wallets || db.wallets[r.wallet].owner != user {
        return NotYours;
      }
      if r.requestId in db.issuedFor && !stale {
        return Repeat(db, db.issuedFor[r.requestId], r);
      }
      if r.maxPayment > env.maxPaymentCents || r.maxPayments > env.maxOfflinePayments {
        return LimitsExceeded;
      }
      if (|| r.walletKey !in db.keys || db.keys[r.walletKey].revoked
          || db.keys[r.walletKey].purpose != WalletKey(r.wallet)) {
        return NotYours;
      }
      if db.wallets[r.wallet].review {
        return ReviewRequired;
      }
      if env.issuer.None? {
        return IssuerUnavailable;
      }
      var requested := r.maxPayment * r.maxPayments;
      if requested > MAX_INT64 {
        return LimitsExceeded;
      }
      var committed := HeldCents(r.wallet);
      var legacy := LegacyCents(r.wallet);
      committed := committed + legacy;
      var available := Max(db.wallets[r.wallet].balance - committed, 0);
      var total := Min(available, requested);
      if total <= 0 {
        return BudgetUnavailable;
      }
      var body := GrantFor(env, r, db.keys[r.walletKey], env.issuer.value, total, now, id);
      if !Valid3(body) {
        return NotIssued;
      }
      var signed := Sign(body, env.issuer.value.publicKey);
      if r.requestId in db.issuedFor {
        return Repeat(db, db.issuedFor[r.requestId], r);
      }
      if id in db.authorizations || id in db.commitments {
        return NotIssued;
      }
      db := Reserve(db, r, id, total, now, now + env.authorizationSeconds, signed);
      reply := Issued(id, total, signed);
    }

    /** Look at the evidence of every manifest entry; the first that is not fine decides. */
    method CheckManifest(env: Env, auth: Id, entries: seq<Entry>) returns (verdict: EntryVerdict, accepted: int, rejected: int)
      requires auth in db.commitments
      ensures var c := db.commitments[auth]; verdict == CheckEntries(db, env, auth, c.wallet, c.grant, entries)
      ensures verdict.Fine? ==> accepted == TotalIn(db.payments, entries, Accepted)
      ensures verdict.Fine? ==> rejected == TotalIn(db.payments, entries, Rejected)
    {
      var c := db.commitments[auth];
      hide CheckEntry;
      verdict, accepted, rejected := Fine, 0, 0;
      var i := 0;
      while i < |entries|
        invariant 0 <= i <= |entries|
        invariant CheckEntries(db, env, auth, c.wallet, c.grant, entries) ==
                  CheckEntries(db, env, auth, c.wallet, c.grant, entries[i..])
        invariant accepted == TotalIn(db.payments, entries[..i], Accepted)
        invariant rejected == TotalIn(db.payments, entries[..i], Rejected)
      {
        var e := entries[i];
        verdict := CheckEntry(db, env, auth, c.wallet, c.grant, e);
        assert entries[i..][0] == e && entries[i..][1..] == entries[i + 1..];
        if !verdict.Fine? {
          return;
        }
        assert entries[..i + 1][..i] == entries[..i] && entries[..i + 1][i] == e;
        if e.op in db.payments && db.payments[e.op].state.Accepted? {
          accepted := accepted + e.amount;
        } else if e.op in db.payments && db.payments[e.op].state.Rejected? {
          rejected := rejected + e.amount;
        }
        i := i + 1;
      }
      assert entries[..i] == entries && entries[i..] == [];
      verdict := Fine;
    }

    /** Add up a manifest. */
    method TotalIssued(entries: seq<Entry>) returns (total: int)
      ensures total == Total(entries)
    {
      total := 0;
      for i := 0 to |entries|
        invariant total == Total(entries[..i])
      {
        assert entries[..i + 1][..i] == entries[..i];
        total := total + entries[i].amount;
      }
      assert entries[..|entries|] == entries;
    }

    /** Close an authorization under a signed manifest. */
    method CloseAuthorization(env: Env, user: Id, auth: Id, close: Wire, manifest: Option<seq<Entry>>, ghost opening: map<Id, int>)
      returns (reply: CloseReply)
      requires Inv(db, opening)
      modifies this`db
      ensures (db, reply) == Close(old(db), env, user, auth, close, manifest)
      ensures Inv(db, opening)
    {
      hide Inv, CloseOpen, TrustedGrant, WellFormedManifest, Total, Valid3;
      CloseKeepsInv(db, opening, env, user, auth, close, manifest);
      if auth !in db.commitments {
        return NoCommitment;
      }
      var c := db.commitments[auth];
      if c.wallet !in db.wallets || db.wallets[c.wallet].owner != user {
        return NotYourAuthorization;
      }
      if Parse3(close).None? || manifest.None? || !TrustedGrant(env, c.grant) {
        return CloseInvalid;
      }
      if !CloseBound(close.envelope, c.grant, manifest.value) || close.envelope.message.body.auth != auth {
        return CloseInvalid;
      }
      if c.Closed() {
        return if c.sealed.value == Sealed(close.envelope, manifest.value) then SameClosure else OtherClosure;
      }
      reply := Seal(env, auth, close.envelope, manifest.value);
    }

    /** The accounting checks of a closure, and the seal. */
    method Seal(env: Env, auth: Id, close: Envelope, entries: seq<Entry>) returns (reply: CloseReply)
      requires auth in db.commitments && close.message.body.Closure?
      modifies this`db
      ensures (db, reply) == CloseOpen(old(db), env, auth, close, entries)
    {
      hide CheckEntries, CheckEntry, TotalIn, Total, IndicesCollide, ClosureIdTaken, ClaimOps, PaymentOps, EntryOps, Flag;
      var c := db.commitments[auth];
      if ClaimOps(db, auth) != EntryOps(entries) || PaymentOps(db, auth) != EntryOps(entries) {
        return CloseInvalid;
      }
      if IndicesCollide(db, auth) {
        db := db.(wallets := Flag(db.wallets, c.wallet, true));
        return IndexConflict;
      }
      var verdict, accepted, rejected := CheckManifest(env, auth, entries);
      if verdict.Contradicts? {
        return CloseInvalid;
      }
      if verdict.NeedsReview? {
        db := db.(wallets := Flag(db.wallets, c.wallet, true));
        return RevocationBlocks;
      }
      var total := TotalIssued(entries);
      if (|| accepted != c.emitted || rejected != c.rejected || total > c.reserved || total < c.emitted + c.rejected
          || c.held != c.reserved - c.emitted - c.rejected - c.unissued || c.unissued != 0) {
        return CloseInvalid;
      }
      var unissued := c.reserved - total;
      var held := c.held - unissued;
      if ClosureIdTaken(db, auth, close.message.body.closureId) {
        return NotClosed;
      }
      var commitments := db.commitments[auth := c.(phase := if held == 0 then SETTLED else SEALED, unissued := unissued,
                                                   held := held, sealed := Some(Sealed(close, entries)))];
      var authorizations := db.authorizations;
      if auth in authorizations {
        authorizations := authorizations[auth := authorizations[auth].(active := false)];
      }
      db := db.(commitments := commitments, authorizations := authorizations);
      reply := Closed;
    }

    /** Credit a simulated top-up once. */
    method SimulatedTopup(user: Id, r: TopupRequest, stale: bool, ghost opening: map<Id, int>) returns (reply: TopupReply)
      requires Inv(db, opening)
      modifies this`db
      ensures (db, reply) == TopUp(old(db), user, r, stale)
      ensures Inv(db, opening)
    {
      hide Inv, CreditUser;
      TopUpKeepsInv(db, opening, user, r, stale);
      if !(0 < r.amount <= MAX_TOPUP) {
        return Malformed;
      }
      if r.wallet !in db.wallets || db.wallets[r.wallet].owner != user {
        return NotYourWallet;
      }
      if r.requestId in db.topups && !stale {
        if db.topups[r.requestId] != Topup(r.wallet, user, r.amount) {
          return TopupReused;
        }
        return Confirmed(r.wallet, r.amount, db.wallets[r.wallet].balance);
      }
      var tx := db.(wallets := Credit(db.wallets, r.wallet, r.amount), saldo := CreditUser(db.saldo, user, r.amount));
      if r.requestId in db.topups {
        if db.topups[r.requestId] != Topup(r.wallet, user, r.amount) {
          return TopupReused;
        }
        return Confirmed(r.wallet, r.amount, db.wallets[r.wallet].balance);
      }
      db := tx.(topups := tx.topups[r.requestId := Topup(r.wallet, user, r.amount)]);
      reply := Confirmed(r.wallet, r.amount, db.wallets[r.wallet].balance);
    }

    /** Store the signed resolution of a payment, once. */
    method StoreResolutionOf(env: Env, user: Id, op: Id, w: Wire) returns (reply: StoreReply)
      modifies this`db
      ensures (db, reply) == StoreResolution(old(db), env, user, op, w)
    {
      hide ResolutionMatches, Valid3, Authorized;
      if op !in db.payments {
        return NoPayment;
      }
      if !Authorized(db, user, db.payments[op].wallet, db.payments[op].terminal) {
        return NotParticipant;
      }
      if Parse3(w).None? || !ResolutionMatches(db, env, op, w.envelope) {
        return ResolutionInvalid;
      }
      if op in db.resolutions {
        return if db.resolutions[op].envelope == w.envelope then Stored else ResolutionConflict;
      }
      db := db.(resolutions := db.resolutions[op := ResolutionRow(db.payments[op].state, w.envelope)]);
      reply := Stored;
    }

    // -------------------------------------------------------------------------------------------
    // The historical version 2

    /** Reconcile one submission of version 2 evidence. */
    method ProcessLegacyEvidence(user: Id, ev: LegacyEvidence, ghost opening: map<Id, int>) returns (reply: LegacyReply)
      requires Inv(db, opening)
      modifies this`db
      ensures LegacyExecutable(old(db), JudgeLegacy(old(db), user, ev))
      ensures db == PerformLegacy(old(db), JudgeLegacy(old(db), user, ev))
      ensures reply == LegacyReplyOf(JudgeLegacy(old(db), user, ev))
      ensures Inv(db, opening)
    {
      hide Inv, LegacyValidate, LegacyBound, LegacyJustified, LegacyGuardsPass, NonceTaken, Authorized, Valid2, LegacySettleOn, LegacyPayment;
      SyncLegacyKeepsInv(db, opening, user, ev);
      IndexFromInv(db, opening);
      var request, receipt := Parse2(ev.request), Parse2(ev.receipt);
      if request.None? || receipt.None? || ev.ack == Some(Undecodable) {
        return LegacyReview;
      }
      if (|| OperationOf(request.value.message.body) != Some(ev.op)
          || OperationOf(receipt.value.message.body) != Some(ev.op)) {
        return LegacyMismatch;
      }
      var known := ev.op in db.payments;
      if known && (db.payments[ev.op].request != request.value || db.payments[ev.op].receipt != receipt.value) {
        return LegacyContentMismatch;
      }
      if known && db.payments[ev.op].ack.Some? && ev.ack.Some? && ev.ack.value != Wire(db.payments[ev.op].ack.value) {
        return LegacyAckMismatch;
      }
      if known && db.payments[ev.op].Final() {
        if !Authorized(db, user, db.payments[ev.op].wallet, db.payments[ev.op].terminal) {
          return LegacyForbidden;
        }
        return if db.payments[ev.op].state.Rejected? then HistoricalRejection else LegacyAccepted;
      }
      var ctx := LegacyValidate(db, ev.op, request.value, receipt.value, ev.ack);
      if ctx.None? {
        return LegacyReview;
      }
      if !Authorized(db, user, ctx.value.wallet, request.value.message.body.common.terminal) {
        return LegacyForbidden;
      }
      if !known && NonceTaken(db, request.value.message.body.common.nonce) {
        return NonceReused;
      }
      if ev.ack.None? {
        if !known {
          db := db.(payments := db.payments[ev.op := LegacyPayment(db, ctx.value, PendingEvidence, None)]);
        }
        return LegacyAckRequired;
      }
      reply := ApplyLegacy(ctx.value);
    }

    /** The second transaction of a failed version 2 settlement, on whatever is committed by then: read the payment again
      and reject it. */
    method RejectUncovered(ctx: LegacyContext) returns (reply: LegacyReply)
      requires ctx.request.message.body.Request?
      modifies this`db
      ensures db == LegacyRepark(old(db), ctx)
      ensures reply == if ctx.op !in old(db).payments && NonceTaken(old(db), ctx.request.message.body.common.nonce) then NonceReused
                       else LegacyRejected
    {
      hide NonceTaken;
      if ctx.op in db.payments {
        var p := db.payments[ctx.op];
        db := db.(payments := db.payments[ctx.op := p.(state := Rejected, code := Some(InsufficientLegacy), ack := ctx.ack)]);
      } else {
        var ok, tx := InsertPayment(db, ctx.op, LegacyPayment(db, ctx, Rejected, Some(InsufficientLegacy)));
        if !ok {
          return NonceReused;
        }
        db := tx;
      }
      reply := LegacyRejected;
    }

    /** The settlement of a version 2 payment: two conditional updates, then the ledger. */
    method ApplyLegacy(ctx: LegacyContext) returns (reply: LegacyReply)
      requires ctx.request.message.body.Request? && ctx.auth in db.authorizations
      requires ctx.wallet in db.wallets && ctx.merchantWallet in db.wallets
      requires if ctx.op in db.payments then db.payments[ctx.op].ack.None? || db.payments[ctx.op].ack == ctx.ack
               else !NonceTaken(db, ctx.request.message.body.common.nonce)
      modifies this`db
      ensures
        if !LegacyGuardsPass(old(db), ctx) then
          && db == PerformLegacy(old(db), LegacyReject(ctx)) && reply == LegacyRejected
        else if (ctx.op, DEBIT) in old(db).ledger || (ctx.op, CREDIT) in old(db).ledger then
          db == old(db) && reply == LegacyConstraint
        else db == LegacySettleOn(old(db), ctx) && reply == LegacyAccepted
    {
      hide LegacyPayment, Credit, CreditUser;
      CreditOwners(db.wallets, ctx.wallet, -ctx.Amount());
      CreditOwners(Credit(db.wallets, ctx.wallet, -ctx.Amount()), ctx.merchantWallet, ctx.Amount());
      var amount, updated := ctx.Amount(), 0;
      var authorizations, wallets := db.authorizations, db.wallets;
      var row := authorizations[ctx.auth];
      if row.active && row.remaining >= amount && row.payments > 0 {
        authorizations := authorizations[ctx.auth := row.(remaining := row.remaining - amount, payments := row.payments - 1)];
        updated := updated + 1;
      }
      if wallets[ctx.wallet].balance >= amount {
        wallets := Credit(wallets, ctx.wallet, -amount);
        updated := updated + 1;
      }
      if updated != 2 {
        RejectionIsTwoTransactions(db, ctx);
        reply := RejectUncovered(ctx);
        return;
      }
      if (ctx.op, DEBIT) in db.ledger || (ctx.op, CREDIT) in db.ledger {
        return LegacyConstraint;
      }
      var saldo := CreditUser(db.saldo, wallets[ctx.wallet].owner, -amount);
      wallets := Credit(wallets, ctx.merchantWallet, amount);
      saldo := CreditUser(saldo, wallets[ctx.merchantWallet].owner, amount);
      var ledger := db.ledger[(ctx.op, DEBIT) := LedgerEntry(ctx.wallet, -amount)]
                             [(ctx.op, CREDIT) := LedgerEntry(ctx.merchantWallet, amount)];
      var payments := db.payments[ctx.op := LegacyPayment(db, ctx, Accepted, None)];
      db := db.(authorizations := authorizations, wallets := wallets, saldo := saldo, ledger := ledger, payments := payments);
      reply := LegacyAccepted;
    }
  }

  lemma NonceFrame(before: Db, after: Db, nonce: nat)
    requires before.payments == after.payments
    ensures NonceTaken(before, nonce) == NonceTaken(after, nonce)
  {
  }

  lemma AckIsBoundToRequest(request: Envelope, receipt: Envelope, ack: Envelope)
    requires AckBound(request, receipt, ack)
    ensures request.message.body.Request?
  {
  }

  lemma InvalidIsRefusal(db: Db, user: Id, op: Id)
    ensures Invalid(db, user, op).Refuse?
  {
    hide Authorized, Resolved;
  }

  lemma ManifestsAreWellFormed(db: Db, a: Id)
    requires SealsOk(db.commitments, db.payments, db.claims) && a in db.commitments && db.commitments[a].Closed()
    ensures WellFormedManifest(db.commitments[a].sealed.value.entries)
  {
    hide WellFormedManifest, Total, TotalIn, EntryOps;
    assert SealOk(a, db.commitments[a], db.payments, db.claims);
  }

  lemma WaitingRow(db: Db, ctx: Context)
    requires PaymentsOk(db.payments, db.commitments, db.authorizations)
    requires Bound(db, ctx) && ctx.op in db.payments
    ensures var p := db.payments[ctx.op];
            p.state.PendingReview? || (p.state.PendingEvidence? && p.ack.None?)
  {
    KnownRow(db, ctx);
  }

  lemma CheckedBy(db: Db, opening: map<Id, int>, env: Env, op: Id, request: Envelope, grant: Envelope, receipt: Envelope,
                  ack: Option<Wire>)
    requires Inv(db, opening) && OperationOf(receipt.message.body) == Some(op)
    requires op in db.payments ==>
               db.payments[op].request == request && db.payments[op].receipt == receipt && !db.payments[op].Final()
    ensures var ctx := Validate(db, env, op, request, grant, receipt, ack); ctx.Some? ==> Checked(db, ctx.value)
  {
    assert WalletsOk(db.wallets, db.walletOf, db.saldo) && SealsOk(db.commitments, db.payments, db.claims)
           && PaymentsOk(db.payments, db.commitments, db.authorizations) by {
      hide *;
      InvParts(db, opening);
    }
    ValidatedIsBound(db, env, op, request, grant, receipt, ack);
    hide Inv, WalletsOk, SealsOk, PaymentsOk, ReceiptBound, AckBound, NonceTaken, Bound, Validate, Checked;
    var ctx := Validate(db, env, op, request, grant, receipt, ack);
    if ctx.Some? {
      assert ctx.value.op == op;
      CheckedBuild(db, ctx.value);
    }
  }

  lemma CheckedBuild(db: Db, ctx: Context)
    requires SealsOk(db.commitments, db.payments, db.claims)
    requires PaymentsOk(db.payments, db.commitments, db.authorizations)
    requires ctx.receipt.message.body.Receipt? && ctx.auth in db.commitments
    requires ctx.op in db.payments || !NonceTaken(db, ctx.Common().nonce) ==> Bound(db, ctx)
    ensures Checked(db, ctx)
  {
    hide SealsOk, PaymentsOk, NonceTaken, Bound, WellFormedManifest;
    if db.commitments[ctx.auth].Closed() {
      ManifestsAreWellFormed(db, ctx.auth);
    }
    if ctx.op in db.payments {
      WaitingRow(db, ctx);
    }
  }
}
