/** The second transaction of a settlement whose conditional updates failed.

  When a guard fails, the handler rolls back, which releases the wallet lock, reads the payment row again,
  parks it and commits. Other handlers may commit in between, and the row it then finds is not compared
  with the evidence that failed. */
module Rollback {
  import opened Messages
  import opened Database
  import opened Sums
  import opened SyncV3
  import opened Authorizations
  import opened Invariant
  import opened Rows
  import opened Steps

  /** Acknowledged evidence of an authorization that holds less than it asks for. */
  ghost predicate Failed(db: Db, ctx: Context) {
    && ctx.auth in db.commitments && ctx.auth in db.authorizations && ctx.wallet in db.wallets
    && db.commitments[ctx.auth].wallet == ctx.wallet
    && ReceiptBound(ctx.request, ctx.receipt, db.commitments[ctx.auth].grant)
    && ctx.receipt.message.body.auth == ctx.auth && ctx.Common().op == ctx.op
    && ctx.ack.Some? && AckBound(ctx.request, ctx.receipt, ctx.ack.value)
    && ctx.Amount() > db.commitments[ctx.auth].held
  }

  /** The comparison the second transaction leaves out. */
  predicate SameEvidence(db: Db, ctx: Context) {
    ctx.op in db.payments ==> db.payments[ctx.op].receipt == ctx.receipt
  }

  predicate NotEnded(db: Db, ctx: Context) {
    ctx.op in db.payments ==> !db.payments[ctx.op].Final()
  }

  /** The row found again is parked under the acknowledgement that failed, whatever it held before. */
  function ReparkedPayment(db: Db, ctx: Context): Payment
    requires ctx.receipt.message.body.Receipt?
  {
    if ctx.op in db.payments then
      db.payments[ctx.op].(state := PendingReview, code := Some(Insufficient), ack := ctx.ack)
    else NewPayment(ctx, PendingReview, Some(Insufficient))
  }

  function ReparkOn(db: Db, ctx: Context): Db
    requires ctx.receipt.message.body.Receipt?
  {
    db.(wallets := Flag(db.wallets, ctx.wallet, true), payments := db.payments[ctx.op := ReparkedPayment(db, ctx)],
        claims := RecordClaim(db.claims, ctx.auth, ctx.op, ctx.Claim()))
  }

  /** The commit of the second transaction; a nonce used in the meantime makes it fail. */
  function Repark(db: Db, ctx: Context): Db
    requires ctx.receipt.message.body.Receipt?
  {
    if ctx.op !in db.payments && NonceTaken(db, ctx.Common().nonce) then db else ReparkOn(db, ctx)
  }

  ghost predicate Reparkable(db: Db, ctx: Context) {
    Failed(db, ctx) && SameEvidence(db, ctx) && NotEnded(db, ctx)
  }

  lemma FailedParts(db: Db, ctx: Context)
    requires Failed(db, ctx)
    ensures ctx.receipt.message.body.Receipt? && ctx.auth in db.commitments && ctx.auth in db.authorizations
    ensures ctx.wallet in db.wallets && db.commitments[ctx.auth].wallet == ctx.wallet
    ensures ctx.Amount() >= 1 && ctx.Amount() > db.commitments[ctx.auth].held
  {
  }

  lemma SameReceiptSameRow(db: Db, ctx: Context)
    requires Failed(db, ctx) && PaymentsOk(db.payments, db.commitments, db.authorizations)
    requires ctx.op in db.payments && db.payments[ctx.op].receipt == ctx.receipt
    ensures db.payments[ctx.op].auth == ctx.auth && PaymentOk(ctx.op, db.payments[ctx.op], db.commitments[ctx.auth])
    ensures db.payments[ctx.op].amount == ctx.Amount()
  {
    var p := db.payments[ctx.op];
    assert p.auth in db.commitments;
    assert PaymentOk(ctx.op, p, db.commitments[p.auth]);
  }

  lemma ReparkedRow(db: Db, ctx: Context)
    requires Reparkable(db, ctx) && PaymentsOk(db.payments, db.commitments, db.authorizations)
    requires ctx.op in db.payments || !NonceTaken(db, ctx.Common().nonce)
    ensures RowOk(db, ctx, ReparkedPayment(db, ctx)) && !ReparkedPayment(db, ctx).Final()
    ensures ReparkedPayment(db, ctx).state.PendingReview?
  {
    if ctx.op in db.payments {
      SameReceiptSameRow(db, ctx);
    }
  }

  lemma ReparkOnTables(db: Db, ctx: Context)
    requires ctx.receipt.message.body.Receipt?
    ensures ReparkOn(db, ctx) ==
            db.(wallets := Flag(db.wallets, ctx.wallet, true), payments := db.payments[ctx.op := ReparkedPayment(db, ctx)],
                claims := RecordClaim(db.claims, ctx.auth, ctx.op, ctx.Claim()))
  {
    hide Flag, RecordClaim, ReparkedPayment;
  }

  lemma ReparkOnKeepsInv(db: Db, opening: map<Id, int>, ctx: Context)
    requires Inv(db, opening) && Reparkable(db, ctx) && ctx.receipt.message.body.Receipt?
    requires ctx.op in db.payments || !NonceTaken(db, ctx.Common().nonce)
    ensures Inv(ReparkOn(db, ctx), opening)
  {
    hide *;
    assert Failed(db, ctx) by { ReparkableFailed(db, ctx); }
    FailedParts(db, ctx);
    InvParts(db, opening);
    ReparkedRow(db, ctx);
    RowState(ReparkedPayment(db, ctx));
    ReparkOnTables(db, ctx);
    RecordKeepsInv(db, opening, ctx, ReparkedPayment(db, ctx), true);
  }

  lemma RowState(p: Payment)
    requires p.state.PendingReview?
    ensures !p.Final() && !p.state.Accepted?
  {
  }

  lemma ReparkableFailed(db: Db, ctx: Context)
    requires Reparkable(db, ctx)
    ensures Failed(db, ctx)
  {
  }

  /** On the evidence that failed, and before the payment ended, parking it again keeps the invariant. */
  lemma ReparkKeepsInv(db: Db, opening: map<Id, int>, ctx: Context)
    requires Inv(db, opening) && Reparkable(db, ctx) && ctx.receipt.message.body.Receipt?
    ensures Inv(Repark(db, ctx), opening)
  {
    hide Inv, Reparkable, ReparkOn, NonceTaken;
    if ctx.op in db.payments || !NonceTaken(db, ctx.Common().nonce) {
      ReparkOnKeepsInv(db, opening, ctx);
    }
  }

  /** The second transaction as a step of the machine, whatever it finds. */
  function ParkAgain(db: Db, ctx: Context): Db {
    if ctx.receipt.message.body.Receipt? then Repark(db, ctx) else db
  }

  lemma ParkAgainKeepsInv(db: Db, opening: map<Id, int>, ctx: Context)
    requires Inv(db, opening) && Reparkable(db, ctx)
    ensures Inv(ParkAgain(db, ctx), opening)
  {
    hide Inv, Repark, Reparkable;
    if ctx.receipt.message.body.Receipt? {
      ReparkKeepsInv(db, opening, ctx);
    }
  }
}
