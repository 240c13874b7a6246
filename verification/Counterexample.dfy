/** A concrete database and three submissions on which the second transaction of a failed settlement takes an accepted
  payment back. Fifty of a reserved hundred cents are settled; then one receipt asks for a hundred, and another one for
  the same operation asks for the fifty that are left. */
module Counterexample {
  import opened Messages
  import opened Database
  import opened Sums
  import opened SyncV3
  import opened SyncV2
  import opened Authorizations
  import opened Invariant
  import opened Reconciliation
  import opened Handlers
  import opened LegacySteps
  import opened Rollback
  import opened LegacyRollback
  import opened Guarantees
  import opened Window

  const WALLET_PK: PublicKey := 10
  const POS_PK: PublicKey := 20
  const ISSUER_PK: PublicKey := 30

  const KEYS: map<Id, Key> :=
    map[1 := Key(WalletKey(1), WALLET_PK, OfKey(WALLET_PK), false, None),
        2 := Key(PosKey(1), POS_PK, OfKey(POS_PK), false, None)]

  const TERMINALS: map<Id, Terminal> := map[1 := Terminal(2, 7, true)]

  const ISSUER: Issuer := Issuer(9, ISSUER_PK)

  const ENV: Env := Env(map[(9, OfKey(ISSUER_PK)) := ISSUER_PK], Some(ISSUER), 100, 3, 1000)

  const REQUEST: IssueRequest := IssueRequest(5, 1, 1, 100, 3)

  const GRANT: Envelope :=
    Sign(Grant(1, 1, 1, OfKey(WALLET_PK), WALLET_PK, 100, 3, 100, 120, 0, 1000, 9, OfKey(ISSUER_PK)), ISSUER_PK)

  function CommonOf(op: Id, amount: int, nonce: nat): Common {
    Common(op, 7, 1, amount, nonce, 10, 20)
  }

  function RequestOf(op: Id, amount: int, nonce: nat): Envelope {
    Sign(Request(CommonOf(op, amount, nonce), 2, OfKey(POS_PK)), POS_PK)
  }

  function ReceiptOf(op: Id, amount: int, nonce: nat, index: int): Envelope {
    Sign(Receipt(CommonOf(op, amount, nonce), 1, 1, 1, OfKey(WALLET_PK), DigestOf(RequestOf(op, amount, nonce)), DigestOf(GRANT),
                 index, 15), WALLET_PK)
  }

  function AckOf(op: Id, amount: int, nonce: nat, index: int): Envelope {
    Sign(Ack(CommonOf(op, amount, nonce), 1, 1, 2, OfKey(POS_PK), DigestOf(ReceiptOf(op, amount, nonce, index)), 16), POS_PK)
  }

  /** An acknowledged payment under the grant, as evidence and as its context. */
  function Paid(op: Id, amount: int, nonce: nat, index: int): Evidence {
    Evidence(op, Wire(RequestOf(op, amount, nonce)), Wire(GRANT), Wire(ReceiptOf(op, amount, nonce, index)),
             Some(Wire(AckOf(op, amount, nonce, index))))
  }

  function PaidContext(op: Id, amount: int, nonce: nat, index: int): Context {
    Context(op, 1, 1, 2, RequestOf(op, amount, nonce), ReceiptOf(op, amount, nonce, index),
            Some(AckOf(op, amount, nonce, index)), false)
  }

  // A version 2 payment of operation 8 under an exhausted authorization.

  const OLD_REQUEST: Envelope := OldSigned(Request(CommonOf(8, 10, 4), 2, OfKey(POS_PK)), POS_PK)

  const OLD_RECEIPT: Envelope :=
    OldSigned(LegacyReceipt(CommonOf(8, 10, 4), 1, 99, 1, OfKey(WALLET_PK), DigestOf(OLD_REQUEST)), WALLET_PK)

  const OLD_ACK: Envelope :=
    OldSigned(Ack(CommonOf(8, 10, 4), 1, 99, 2, OfKey(POS_PK), DigestOf(OLD_RECEIPT), 16), POS_PK)

  const OLD_EVIDENCE: LegacyEvidence := LegacyEvidence(8, Wire(OLD_REQUEST), Wire(OLD_RECEIPT), Some(Wire(OLD_ACK)))

  const OLD_CONTEXT: LegacyContext := LegacyContext(8, 99, 1, 2, OLD_REQUEST, OLD_RECEIPT, Some(OLD_ACK))

  function OldSigned(body: Body, key: PublicKey): Envelope {
    Envelope(Message(2, body), Signature(key, Message(2, body)))
  }

  const START: Db :=
    Db(map[1 := Wallet(1, 100, false), 2 := Wallet(2, 0, false)], map[1 := 1, 2 := 2], map[1 := 1.0, 2 := 0.0],
       map[99 := Authorization(1, 1, 100, 0, 1000, 0, 0, false)], map[], map[], map[], map[], map[], map[], map[], map[],
       map[8 := Inventoried(1, 99, DigestOf(OLD_RECEIPT))], KEYS, TERMINALS)

  const OPENING: map<Id, int> := map[1 := 100, 2 := 0]

  /** After the reservation of a hundred cents. */
  const RESERVED: Db := Reserve(START, REQUEST, 1, 100, 0, 1000, GRANT)

  /** What every state here says of the grant and the catalogue. */
  ghost predicate Here(db: Db) {
    && db.keys == KEYS && db.terminals == TERMINALS && db.walletOf == START.walletOf
    && db.wallets.Keys == {1, 2} && db.wallets[1].owner == 1
    && 1 in db.authorizations && db.authorizations[1].wallet == 1
    && 1 in db.commitments && db.commitments[1].wallet == 1 && db.commitments[1].grant == GRANT
    && !db.commitments[1].Closed()
  }

  lemma StartHolds()
    ensures Inv(START, OPENING)
  {
    hide *;
    StartIsFresh();
    FreshIsOk(START);
    OpeningIsStart();
  }

  lemma OpeningIsStart()
    ensures OPENING == Balances(START.wallets)
  {
  }

  lemma StartWallets()
    ensures WalletsOk(START.wallets, START.walletOf, START.saldo) && AuthorizationsOk(START.authorizations, START.wallets)
  {
  }

  lemma StartLegacy(w: Id)
    ensures Legacy(START.authorizations, {}, w) == 0
  {
    SumZero(START.authorizations.Keys, LegacyBy(START.authorizations, {}, w));
  }

  lemma StartIsFresh()
    ensures Fresh(START)
  {
    hide WalletsOk, AuthorizationsOk, Legacy;
    StartWallets();
    forall w | w in START.wallets
      ensures Legacy(START.authorizations, {}, w) <= START.wallets[w].balance
    {
      StartLegacy(w);
    }
  }

  lemma ReservedHolds()
    ensures Inv(RESERVED, OPENING)
  {
    hide *;
    StartHolds();
    IssueKeepsInv(START, OPENING, ENV, 1, REQUEST, 0, 1, false);
    IssueReserves();
  }

  lemma IssueReserves()
    ensures Issue(START, ENV, 1, REQUEST, 0, 1, false).0 == RESERVED
  {
    NothingCommitted();
    hide Available, Reserve, Repeat;
    assert Min(100, 300) == 100;
  }

  lemma NothingCommitted()
    ensures 1 in START.wallets && Available(START, 1) == 100
  {
    assert START.commitments.Keys == {};
    StartLegacy(1);
    hide Legacy;
  }

  lemma PaidIsBound(op: Id, amount: int, nonce: nat, index: int)
    requires 1 <= amount <= 100 && 1 <= index <= 3
    ensures TrustedGrant(ENV, GRANT)
    ensures ReceiptBound(RequestOf(op, amount, nonce), ReceiptOf(op, amount, nonce, index), GRANT)
    ensures AckBound(RequestOf(op, amount, nonce), ReceiptOf(op, amount, nonce, index), AckOf(op, amount, nonce, index))
    ensures PosSigned(RequestOf(op, amount, nonce), POS_PK, 2, OfKey(POS_PK), 7, 1)
    ensures PosSigned(AckOf(op, amount, nonce, index), POS_PK, 2, OfKey(POS_PK), 7, 1)
  {
  }

  lemma PaidValidates(db: Db, op: Id, amount: int, nonce: nat, index: int)
    requires Here(db) && 1 <= amount <= 100 && 1 <= index <= 3
    ensures Validate(db, ENV, op, RequestOf(op, amount, nonce), GRANT, ReceiptOf(op, amount, nonce, index),
                     Some(Wire(AckOf(op, amount, nonce, index)))) == Some(PaidContext(op, amount, nonce, index))
  {
    PaidIsBound(op, amount, nonce, index);
    hide ReceiptBound, AckBound, PosSigned, TrustedGrant;
  }

  /** A new operation is judged by the accounting alone. */
  lemma PaidIsJudged(db: Db, op: Id, amount: int, nonce: nat, index: int)
    requires Here(db) && op !in db.payments && 1 <= amount <= 100 && 1 <= index <= 3
    ensures Judge(db, ENV, 1, Paid(op, amount, nonce, index)) == JudgeBound(db, ENV, 1, PaidContext(op, amount, nonce, index))
  {
    PaidValidates(db, op, amount, nonce, index);
    hide Validate, JudgeBound;
  }

  /** After fifty of them were settled. */
  const SPENT: Db := SettleOn(RESERVED, PaidContext(6, 50, 1, 1), ISSUER)

  lemma ReservedTables()
    ensures Here(RESERVED) && RESERVED.payments == map[] && RESERVED.claims == map[] && RESERVED.emissions == map[]
    ensures RESERVED.ledger == map[] && RESERVED.resolutions == map[]
    ensures RESERVED.authorizations[1].remaining == 100 && RESERVED.authorizations[1].payments == 3
    ensures RESERVED.commitments[1].held == 100 && RESERVED.commitments[1].emitted == 0 && RESERVED.commitments[1].reserved == 100
    ensures RESERVED.wallets[1].balance == 100
  {
  }

  /** Nothing in the tables is in the way of this payment. */
  ghost predicate Clear(db: Db, op: Id, nonce: nat, index: int) {
    && op !in db.payments && (forall o | o in db.payments :: db.payments[o].nonce != nonce)
    && (forall k | k in db.claims :: k.1 != op && db.claims[k].index != index)
    && (forall k | k in db.emissions :: k.1 != op && db.emissions[k].index != index)
    && (op, DEBIT) !in db.ledger && (op, CREDIT) !in db.ledger && op !in db.resolutions
  }

  lemma ClearIs(db: Db, op: Id, amount: int, nonce: nat, index: int)
    requires Clear(db, op, nonce, index)
    ensures var ctx := PaidContext(op, amount, nonce, index);
            && ctx.receipt.message.body.Receipt?
            && op !in db.payments && !NonceTaken(db, nonce) && !ClaimConflict(db.claims, 1, op, ctx.Claim())
            && !EmittedByOther(db, ctx) && !SettlementRowsTaken(db, ctx)
  {
  }

  /** Whether it settles is then decided by the three updates. */
  lemma ClearSettlesIff(db: Db, op: Id, amount: int, nonce: nat, index: int)
    requires Here(db) && Clear(db, op, nonce, index) && 1 <= amount <= 100 && 1 <= index <= 3
    ensures PaidContext(op, amount, nonce, index).receipt.message.body.Receipt?
    ensures
      var v, ctx := Judge(db, ENV, 1, Paid(op, amount, nonce, index)), PaidContext(op, amount, nonce, index);
      if GuardsPass(db, ctx) then v == Settle(ctx, ISSUER) else GuardFailure(v) && v.ctx == ctx
  {
    PaidIsJudged(db, op, amount, nonce, index);
    ClearIs(db, op, amount, nonce, index);
    hide Judge, NonceTaken, ClaimConflict, EmittedByOther, SettlementRowsTaken, GuardsPass, Clear;
  }

  lemma PassesIff(db: Db, op: Id, amount: int, nonce: nat, index: int)
    requires Here(db) && db.commitments[1].reserved == 100 && 0 <= db.commitments[1].held == 100 - db.commitments[1].emitted
    requires db.authorizations[1].remaining == db.commitments[1].held == db.wallets[1].balance && db.authorizations[1].payments > 0
    ensures PaidContext(op, amount, nonce, index).receipt.message.body.Receipt?
    ensures GuardsPass(db, PaidContext(op, amount, nonce, index)) <==> amount <= db.commitments[1].held
  {
  }

  lemma FirstFiftySettle()
    ensures Judge(RESERVED, ENV, 1, Paid(6, 50, 1, 1)) == Settle(PaidContext(6, 50, 1, 1), ISSUER)
  {
    ReservedTables();
    hide Judge, Paid, PaidContext, GuardsPass, Here;
    hide Reserve;
    ClearSettlesIff(RESERVED, 6, 50, 1, 1);
    PassesIff(RESERVED, 6, 50, 1, 1);
  }

  lemma SpentTables()
    ensures Here(SPENT) && SPENT.payments.Keys == {6} && SPENT.payments[6].nonce == 1
    ensures SPENT.claims.Keys == {(1, 6)} && SPENT.claims[(1, 6)].index == 1
    ensures SPENT.emissions.Keys == {(1, 6)} && SPENT.emissions[(1, 6)].index == 1
    ensures SPENT.authorizations[1].remaining == 50 && SPENT.authorizations[1].payments == 2
    ensures SPENT.commitments[1].held == 50 && SPENT.commitments[1].emitted == 50 && SPENT.commitments[1].reserved == 100
    ensures SPENT.wallets[1].balance == 50
    ensures SPENT.ledger.Keys == {(6, DEBIT), (6, CREDIT)} && SPENT.resolutions.Keys == {6}
    ensures 99 in SPENT.authorizations && SPENT.authorizations[99] == START.authorizations[99] && 99 !in SPENT.commitments
    ensures SPENT.inventory == START.inventory
  {
  }

  lemma FiftyCommits()
    requires Judge(RESERVED, ENV, 1, Paid(6, 50, 1, 1)) == Settle(PaidContext(6, 50, 1, 1), ISSUER)
    ensures Sync(RESERVED, ENV, 1, Paid(6, 50, 1, 1)) == SPENT
  {
    ReservedTables();
    hide Judge, Paid, SettleOn, Reserve;
  }

  lemma SpentHolds()
    ensures Inv(SPENT, OPENING)
  {
    hide *;
    ReservedHolds();
    FirstFiftySettle();
    SyncKeepsInv(RESERVED, OPENING, ENV, 1, Paid(6, 50, 1, 1));
    FiftyCommits();
  }

  lemma HundredFails()
    ensures GuardFailure(Judge(SPENT, ENV, 1, Paid(8, 100, 2, 2)))
    ensures Judge(SPENT, ENV, 1, Paid(8, 100, 2, 2)).ctx == PaidContext(8, 100, 2, 2)
  {
    SpentTables();
    hide Judge, Paid, PaidContext, GuardsPass, Here, SettleOn, GuardFailure;
    ClearSettlesIff(SPENT, 8, 100, 2, 2);
    PassesIff(SPENT, 8, 100, 2, 2);
  }

  lemma FiftySettle()
    ensures Judge(SPENT, ENV, 1, Paid(8, 50, 3, 3)) == Settle(PaidContext(8, 50, 3, 3), ISSUER)
  {
    SpentTables();
    hide Judge, Paid, PaidContext, GuardsPass, Here, SettleOn;
    ClearSettlesIff(SPENT, 8, 50, 3, 3);
    PassesIff(SPENT, 8, 50, 3, 3);
  }

  /** The payment of operation 8 is accepted, its money has moved, and the second transaction of the submission that
    asked for too much takes it back to review. */
  lemma AcceptanceIsOverwritten()
    ensures Inv(SPENT, OPENING)
    ensures GuardFailure(Judge(SPENT, ENV, 1, Paid(8, 100, 2, 2)))
    ensures
      var middle := Sync(SPENT, ENV, 1, Paid(8, 50, 3, 3));
      var ctx := Judge(SPENT, ENV, 1, Paid(8, 100, 2, 2)).ctx;
      && Inv(middle, OPENING) && 8 in middle.payments && middle.payments[8].state.Accepted?
      && ctx.receipt.message.body.Receipt?
      && var end := Repark(middle, ctx);
      && 8 in end.payments && end.payments[8].state.PendingReview? && (8, DEBIT) in end.ledger && !Inv(end, OPENING)
  {
    SpentHolds();
    SpentTables();
    HundredFails();
    FiftySettle();
    Differ();
    hide *;
    SyncKeepsInv(SPENT, OPENING, ENV, 1, Paid(8, 50, 3, 3));
    OverwritesAcceptance(SPENT, OPENING, ENV, 1, Paid(8, 100, 2, 2), 1, Paid(8, 50, 3, 3), PaidContext(8, 100, 2, 2));
  }

  lemma Differ()
    ensures PaidContext(8, 100, 2, 2).receipt != PaidContext(8, 50, 3, 3).receipt
    ensures Paid(8, 100, 2, 2).op == Paid(8, 50, 3, 3).op == PaidContext(8, 100, 2, 2).op == 8
  {
  }

  lemma OldIsRejected()
    ensures JudgeLegacy(SPENT, 1, OLD_EVIDENCE) == LegacyReject(OLD_CONTEXT)
  {
    SpentTables();
    OldValidates();
    hide LegacyValidate;
  }

  lemma OldValidates()
    ensures LegacyValidate(SPENT, 8, OLD_REQUEST, OLD_RECEIPT, Some(Wire(OLD_ACK))) == Some(OLD_CONTEXT)
  {
    SpentTables();
  }

  /** The same of a version 2 submission: the accepted payment ends as a rejected one. */
  lemma AcceptanceIsRejected()
    ensures JudgeLegacy(SPENT, 1, OLD_EVIDENCE) == LegacyReject(OLD_CONTEXT)
    ensures
      var middle := Sync(SPENT, ENV, 1, Paid(8, 50, 3, 3));
      && Inv(middle, OPENING) && 8 in middle.payments && middle.payments[8].state.Accepted?
      && OLD_CONTEXT.request.message.body.Request?
      && var end := LegacyRepark(middle, OLD_CONTEXT);
      && 8 in end.payments && end.payments[8].state.Rejected? && (8, DEBIT) in end.ledger && !Inv(end, OPENING)
  {
    SpentHolds();
    OldIsRejected();
    FiftySettle();
    OldOperation();
    hide *;
    SyncKeepsInv(SPENT, OPENING, ENV, 1, Paid(8, 50, 3, 3));
    RejectsAcceptance(SPENT, OPENING, ENV, 1, OLD_EVIDENCE, 1, Paid(8, 50, 3, 3), OLD_CONTEXT);
  }

  lemma OldOperation()
    ensures OLD_CONTEXT.op == 8 == Paid(8, 50, 3, 3).op
  {
  }
}
