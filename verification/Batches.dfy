/** A batch of payments under one open authorization: what its submissions leave behind, item by item. */
module Batches {
  import opened Messages
  import opened Database
  import opened Sums
  import opened SyncV3
  import opened Authorizations
  import opened Invariant
  import opened Steps
  import opened Reconciliation
  import opened Guards

  /** The payments of a batch, each with its acknowledgement, by operation. */
  type Batch = map<Id, Context>

  function EvidenceOf(c: Context, grant: Envelope, acked: bool): Evidence
    requires c.ack.Some?
  {
    Evidence(c.op, Wire(c.request), Wire(grant), Wire(c.receipt), if acked then Some(Wire(c.ack.value)) else None)
  }

  function Shape(c: Context, acked: bool): Context {
    if acked then c else c.(ack := None)
  }

  /** Distinct operations, nonces and indices of one authorization, all acknowledged and free of review. */
  ghost predicate Coherent(a: Id, batch: Batch) {
    && (forall op | op in batch ::
          && batch[op].op == op && batch[op].auth == a && batch[op].ack.Some? && !batch[op].review
          && batch[op].receipt.message.body.Receipt? && batch[op].Common().op == op && batch[op].Amount() >= 1)
    && (forall op, other | op in batch && other in batch && op != other ::
          && batch[op].Common().nonce != batch[other].Common().nonce
          && batch[op].Claim().index != batch[other].Claim().index)
  }

  /** The catalogue accepts this payment's evidence, with and without its acknowledgement. */
  ghost predicate Validates(db: Db, env: Env, grant: Envelope, c: Context) {
    && c.ack.Some?
    && Validate(db, env, c.op, c.request, grant, c.receipt, Some(Wire(c.ack.value))) == Some(c)
    && Validate(db, env, c.op, c.request, grant, c.receipt, None) == Some(c.(ack := None))
  }

  /** Either party of the payment. */
  predicate Party(db: Db, c: Context, user: Id) {
    && c.wallet in db.wallets && c.merchantWallet in db.wallets
    && (db.wallets[c.wallet].owner == user || db.wallets[c.merchantWallet].owner == user)
  }

  function AmountIn(batch: Batch): Id -> int {
    op => if op in batch && batch[op].receipt.message.body.Receipt? then batch[op].Amount() else 0
  }

  /** The row of a payment that was submitted, and of one that was also acknowledged. */
  function RowOf(c: Context, acked: bool): Payment
    requires c.receipt.message.body.Receipt?
  {
    NewPayment(Shape(c, acked), if acked then Accepted else PendingEvidence, None)
  }

  /** Everything the database says about one payment of the batch. */
  ghost predicate ItemShown(db: Db, issuer: Issuer, grant: Envelope, c: Context, presented: bool, acked: bool) {
    && c.receipt.message.body.Receipt?
    && (c.op in db.payments <==> presented) && (presented ==> db.payments[c.op] == RowOf(c, acked))
    && ((c.auth, c.op) in db.claims <==> presented) && (presented ==> db.claims[(c.auth, c.op)] == c.Claim())
    && ((c.auth, c.op) in db.emissions <==> acked)
    && (acked ==> db.emissions[(c.auth, c.op)] == Emission(c.Claim().index, c.Amount()))
    && ((c.op, DEBIT) in db.ledger <==> acked) && ((c.op, CREDIT) in db.ledger <==> acked)
    && (acked ==> db.ledger[(c.op, DEBIT)] == LedgerEntry(c.wallet, -c.Amount()))
    && (acked ==> db.ledger[(c.op, CREDIT)] == LedgerEntry(c.merchantWallet, c.Amount()))
    && (c.op in db.resolutions <==> acked)
    && (acked ==> db.resolutions[c.op] == ResolutionRow(Accepted, ResolutionOf(grant, RowOf(c, true), c.op, issuer)))
  }

  /** The authorization has paid this much in this many payments since c and row. */
  ghost predicate GrantShown(db: Db, a: Id, c: Commitment, row: Authorization, amount: int, count: int) {
    && a in db.commitments && a in db.authorizations
    && db.commitments[a] == c.(emitted := c.emitted + amount, count := c.count + count, held := c.held - amount)
    && db.authorizations[a] == row.(remaining := row.remaining - amount, payments := row.payments - count)
  }

  /** Nothing outside the batch uses its nonces, or its indices under its authorization. */
  ghost predicate Quiet(db: Db, a: Id, batch: Batch) {
    && (forall op, b | op in db.payments && op !in batch && b in batch && batch[b].receipt.message.body.Receipt? ::
          db.payments[op].nonce != batch[b].Common().nonce)
    && (forall k, b | k in db.claims && k.0 == a && k.1 !in batch && b in batch && batch[b].receipt.message.body.Receipt? ::
          db.claims[k].index != batch[b].Claim().index)
  }

  datatype Start = Start(issuer: Issuer, commitment: Commitment, row: Authorization)

  /** The database shows exactly this part of the batch as submitted, and this part of it as acknowledged. */
  ghost predicate Shows(db: Db, start: Start, a: Id, batch: Batch, presented: set<Id>, acked: set<Id>) {
    && acked <= presented <= batch.Keys
    && (forall op | op in batch ::
          ItemShown(db, start.issuer, start.commitment.grant, batch[op], op in presented, op in acked))
    && GrantShown(db, a, start.commitment, start.row, Sum(acked, AmountIn(batch)), |acked|)
    && Quiet(db, a, batch)
  }

  /** The standing assumptions: an open grant that covers the batch, and a catalogue that vouches for it. */
  ghost predicate Standing(db: Db, env: Env, start: Start, a: Id, batch: Batch) {
    && Coherent(a, batch) && env.issuer == Some(start.issuer)
    && !start.commitment.Closed() && Sum(batch.Keys, AmountIn(batch)) <= start.commitment.held
    && (forall op | op in batch :: Validates(db, env, start.commitment.grant, batch[op]))
  }

  /** The first checks of a submission let a batch payment through. */
  lemma Presented(db: Db, env: Env, user: Id, grant: Envelope, c: Context, acked: bool)
    requires c.receipt.message.body.Receipt? && c.Common().op == c.op && Validates(db, env, grant, c)
    ensures ReceiptBound(c.request, c.receipt, grant) && AckBound(c.request, c.receipt, c.ack.value)
    ensures Judge(db, env, user, EvidenceOf(c, grant, acked)) ==
            JudgeParsed(db, env, user, c.op, c.request, grant, c.receipt, if acked then Some(Wire(c.ack.value)) else None)
  {
    hide Validate, JudgeParsed;
  }

  lemma ValidatedParts(db: Db, env: Env, grant: Envelope, c: Context)
    requires Validates(db, env, grant, c)
    ensures c.auth in db.commitments && c.auth in db.authorizations && c.wallet in db.wallets
    ensures db.commitments[c.auth].wallet == c.wallet && db.commitments[c.auth].grant == grant
    ensures c.request.message.body.Request? && c.receipt.message.body.Receipt?
    ensures c.request.message.body.common == c.Common() && c.receipt.message.body.auth == c.auth
    ensures c.Common().terminal in db.terminals
    ensures db.terminals[c.Common().terminal].merchantUser in db.walletOf
    ensures c.merchantWallet == db.walletOf[db.terminals[c.Common().terminal].merchantUser]
    ensures ReceiptBound(c.request, c.receipt, grant) && AckBound(c.request, c.receipt, c.ack.value)
  {
    hide Validate, AckBound;
  }

  lemma PartyIsAuthorized(db: Db, env: Env, grant: Envelope, c: Context, user: Id)
    requires WalletsOk(db.wallets, db.walletOf, db.saldo) && Validates(db, env, grant, c) && Party(db, c, user)
    ensures c.receipt.message.body.Receipt?
    ensures Authorized(db, user, c.wallet, c.Common().terminal)
  {
    ValidatedParts(db, env, grant, c);
    hide Validates, ReceiptBound, AckBound;
  }

  /** Not known yet, or waiting for its acknowledgement: the bound evidence decides. */
  lemma OpenReachesBound(db: Db, env: Env, user: Id, grant: Envelope, c: Context, acked: bool)
    requires Validates(db, env, grant, c)
    requires c.receipt.message.body.Receipt? && Authorized(db, user, c.wallet, c.Common().terminal)
    requires c.op in db.payments ==> db.payments[c.op] == RowOf(c, false)
    ensures c.auth in db.commitments
    ensures JudgeParsed(db, env, user, c.op, c.request, grant, c.receipt, if acked then Some(Wire(c.ack.value)) else None) ==
            JudgeBound(db, env, user, Shape(c, acked))
  {
    ValidatedParts(db, env, grant, c);
    hide Validate, JudgeBound, ReceiptBound, AckBound, Authorized, Resolved, Invalid, JudgeFinal;
  }

  lemma OpenIsBound(db: Db, env: Env, grant: Envelope, c: Context, acked: bool)
    requires WalletsOk(db.wallets, db.walletOf, db.saldo) && Validates(db, env, grant, c)
    requires c.receipt.message.body.Receipt? && c.Common().op == c.op
    requires if c.op in db.payments then db.payments[c.op] == RowOf(c, false) else !NonceTaken(db, c.Common().nonce)
    ensures Bound(db, Shape(c, acked))
  {
    ValidatedParts(db, env, grant, c);
    hide Validates, ReceiptBound, AckBound, NonceTaken;
  }

  lemma FreeNonce(db: Db, start: Start, a: Id, batch: Batch, presented: set<Id>, acked: set<Id>, op: Id)
    requires Coherent(a, batch) && Shows(db, start, a, batch, presented, acked) && op in batch && op !in presented
    ensures op !in db.payments && !NonceTaken(db, batch[op].Common().nonce)
  {
    hide Sum, GrantShown, ResolutionOf;
    forall o | o in db.payments
      ensures db.payments[o].nonce != batch[op].Common().nonce
    {
      if o in batch {
        assert ItemShown(db, start.issuer, start.commitment.grant, batch[o], o in presented, o in acked);
      }
    }
    assert ItemShown(db, start.issuer, start.commitment.grant, batch[op], op in presented, op in acked);
  }

  lemma NoConflict(db: Db, start: Start, a: Id, batch: Batch, presented: set<Id>, acked: set<Id>, op: Id)
    requires Coherent(a, batch) && Shows(db, start, a, batch, presented, acked) && op in batch
    requires ClaimsOk(db.claims, db.payments, db.commitments.Keys)
    ensures !ClaimConflict(db.claims, a, op, batch[op].Claim())
  {
    hide Sum, GrantShown, ResolutionOf;
    assert ItemShown(db, start.issuer, start.commitment.grant, batch[op], op in presented, op in acked);
    forall k | k in db.claims && k.0 == a && k.1 != op
      ensures db.claims[k].index != batch[op].Claim().index
    {
      if k.1 in batch {
        assert ItemShown(db, start.issuer, start.commitment.grant, batch[k.1], k.1 in presented, k.1 in acked);
        assert k == (a, k.1);
      }
    }
  }

  /** What is left of the grant covers every payment of the batch that was not accepted yet. */
  lemma StillCovered(a: Id, batch: Batch, acked: set<Id>, op: Id)
    requires Coherent(a, batch) && acked <= batch.Keys && op in batch && op !in acked
    ensures Sum(acked, AmountIn(batch)) + batch[op].Amount() <= Sum(batch.Keys, AmountIn(batch))
    ensures Sum(acked + {op}, AmountIn(batch)) == Sum(acked, AmountIn(batch)) + batch[op].Amount()
  {
    SumInsert(acked, AmountIn(batch), AmountIn(batch), op);
    SumAtLeast(acked + {op}, AmountIn(batch), batch.Keys, AmountIn(batch));
  }

  /** What each submission of a batch payment comes to. */
  lemma Outcome(db: Db, opening: map<Id, int>, env: Env, start: Start, a: Id, batch: Batch, presented: set<Id>,
                acked: set<Id>, op: Id, withAck: bool, user: Id)
    requires Inv(db, opening) && Standing(db, env, start, a, batch) && Shows(db, start, a, batch, presented, acked)
    requires op in batch && op !in acked && Party(db, batch[op], user)
    ensures batch[op].ack.Some?
    ensures var v := Judge(db, env, user, EvidenceOf(batch[op], start.commitment.grant, withAck));
            v == if withAck then Settle(batch[op], start.issuer) else Hold(Shape(batch[op], false))
  {
    hide *;
    var c, grant := batch[op], start.commitment.grant;
    InvParts(db, opening);
    StandingParts(db, env, start, a, batch, op);
    ShownParts(db, start, a, batch, presented, acked, op);
    Presented(db, env, user, grant, c, withAck);
    PartyIsAuthorized(db, env, grant, c, user);
    OpenRow(db, start, c, op in presented);
    if op !in presented {
      FreeNonce(db, start, a, batch, presented, acked, op);
    }
    OpenReachesBound(db, env, user, grant, c, withAck);
    OpenIsBound(db, env, grant, c, withAck);
    NoConflict(db, start, a, batch, presented, acked, op);
    StillCovered(a, batch, acked, op);
    var cx := Shape(c, withAck);
    ShapeParts(c, withAck);
    if withAck {
      SettlesIff(db, opening, env, user, cx);
      SettlesBy(db, env, cx);
      SettleVerdict(db, env, user, cx);
    } else {
      HoldVerdict(db, env, user, cx);
    }
  }

  lemma StandingParts(db: Db, env: Env, start: Start, a: Id, batch: Batch, op: Id)
    requires Standing(db, env, start, a, batch) && op in batch
    ensures Coherent(a, batch) && env.issuer == Some(start.issuer) && start.commitment.sealed.None?
    ensures Validates(db, env, start.commitment.grant, batch[op])
    ensures batch[op].op == op && batch[op].auth == a && batch[op].ack.Some? && !batch[op].review
    ensures batch[op].receipt.message.body.Receipt? && batch[op].Common().op == op && batch[op].Amount() >= 1
    ensures Sum(batch.Keys, AmountIn(batch)) <= start.commitment.held
  {
    hide Validates, Sum;
  }

  lemma ShownParts(db: Db, start: Start, a: Id, batch: Batch, presented: set<Id>, acked: set<Id>, op: Id)
    requires Shows(db, start, a, batch, presented, acked) && op in batch
    ensures acked <= presented <= batch.Keys
    ensures ItemShown(db, start.issuer, start.commitment.grant, batch[op], op in presented, op in acked)
    ensures a in db.commitments && a in db.authorizations
    ensures db.commitments[a].sealed == start.commitment.sealed && db.commitments[a].grant == start.commitment.grant
    ensures db.commitments[a].held == start.commitment.held - Sum(acked, AmountIn(batch))
  {
    hide ItemShown, Sum, Quiet;
  }

  lemma OpenRow(db: Db, start: Start, c: Context, presented: bool)
    requires ItemShown(db, start.issuer, start.commitment.grant, c, presented, false)
    ensures c.receipt.message.body.Receipt?
    ensures c.op in db.payments ==> db.payments[c.op] == RowOf(c, false) && !db.payments[c.op].state.PendingReview?
    ensures c.op in db.payments <==> presented
  {
    hide ResolutionOf;
  }

  lemma ShapeParts(c: Context, acked: bool)
    requires c.ack.Some? && c.receipt.message.body.Receipt?
    ensures var x := Shape(c, acked);
            && x.op == c.op && x.auth == c.auth && x.receipt == c.receipt && x.review == c.review
            && x.wallet == c.wallet && x.merchantWallet == c.merchantWallet
            && x.ack == (if acked then c.ack else None)
            && x.Claim() == c.Claim() && x.Amount() == c.Amount() && x.Common() == c.Common()
            && (acked ==> x == c)
  {
  }

  lemma SettlesBy(db: Db, env: Env, c: Context)
    requires c.receipt.message.body.Receipt? && c.auth in db.commitments
    requires env.issuer.Some? && c.ack.Some? && !c.review && db.commitments[c.auth].sealed.None?
    requires c.op in db.payments ==> !db.payments[c.op].state.PendingReview?
    requires !ClaimConflict(db.claims, c.auth, c.op, c.Claim()) && c.Amount() <= db.commitments[c.auth].held
    ensures Settles(db, env, c)
  {
    hide ClaimConflict;
  }

  lemma SettleVerdict(db: Db, env: Env, user: Id, c: Context)
    requires c.receipt.message.body.Receipt? && c.auth in db.commitments && env.issuer.Some?
    requires JudgeBound(db, env, user, c).Settle?
    ensures JudgeBound(db, env, user, c) == Settle(c, env.issuer.value)
  {
    hide ClaimConflict, GuardsPass, EmittedByOther, SettlementRowsTaken, InManifest, NonceTaken;
  }

  lemma HoldVerdict(db: Db, env: Env, user: Id, c: Context)
    requires c.receipt.message.body.Receipt? && c.auth in db.commitments && db.commitments[c.auth].sealed.None?
    requires c.ack.None? && !c.review && !ClaimConflict(db.claims, c.auth, c.op, c.Claim())
    requires if c.op in db.payments then !db.payments[c.op].state.PendingReview? else !NonceTaken(db, c.Common().nonce)
    ensures JudgeBound(db, env, user, c) == Hold(c)
  {
    hide ClaimConflict, GuardsPass, EmittedByOther, SettlementRowsTaken, InManifest, NonceTaken;
  }
}
