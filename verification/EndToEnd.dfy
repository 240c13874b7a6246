/** From the phone's receipts to the closed authorization: what an honest phone issues, the backend can settle in any
  order and close exactly. */
module EndToEnd {
  import opened Messages
  import opened Database
  import opened Sums
  import opened SyncV3
  import opened Authorizations
  import opened Invariant
  import opened Reconciliation
  import opened Machine
  import opened Closures
  import opened CloseCompleteness
  import opened Lengths
  import opened Batches
  import opened OrderIndependence
  import opened Plays
  import P = Phone

  // ---------------------------------------------------------------------------------------------
  // The manifest of a phone

  function IndexOf(receipts: map<Id, Envelope>): Id -> int {
    op => if op in receipts && receipts[op].message.body.Receipt? then receipts[op].message.body.index else 0
  }

  /** Distinct indices from 1 to n, n of them, leave no gap. */
  lemma NoGap(keys: set<Id>, index: Id -> int, n: nat, i: int)
    requires |keys| == n && 1 <= i <= n
    requires forall k | k in keys :: 1 <= index(k) <= n
    requires forall k, l | k in keys && l in keys && k != l :: index(k) != index(l)
    ensures exists k :: k in keys && index(k) == i
  {
    if forall k | k in keys :: index(k) != i {
      var shifted := (k: Id) => if index(k) > i then index(k) - 1 else index(k);
      Pigeonhole(keys, shifted, n - 1);
    }
  }

  /** Receipts with the indices one to n, each its own. */
  ghost predicate Numbered(receipts: map<Id, Envelope>) {
    && (forall op | op in receipts ::
          && receipts[op].message.body.Receipt? && receipts[op].message.body.common.op == op
          && 1 <= IndexOf(receipts)(op) <= |receipts|)
    && (forall op, other | op in receipts && other in receipts && op != other ::
          IndexOf(receipts)(op) != IndexOf(receipts)(other))
  }

  lemma ReceiptFacts(p: P.Phone)
    requires P.Honest(p)
    ensures Numbered(p.receipts) && p.grant.message.body.Grant? && p.nextIndex == |p.receipts| + 1
    ensures forall op | op in p.receipts :: op in p.requests && ReceiptBound(p.requests[op], p.receipts[op], p.grant)
    ensures p.remaining == p.grant.message.body.total - Sum(p.receipts.Keys, P.AmountsOf(p.receipts))
    ensures p.remaining >= 0 && |p.receipts| <= p.grant.message.body.maxPayments
  {
    hide Sum, AckBound;
  }

  lemma IndexTaken(receipts: map<Id, Envelope>, i: int)
    requires Numbered(receipts) && 1 <= i <= |receipts|
    ensures exists op :: op in receipts && IndexOf(receipts)(op) == i
  {
    hide IndexOf;
    assert |receipts.Keys| == |receipts|;
    NoGap(receipts.Keys, IndexOf(receipts), |receipts|, i);
  }

  /** The operation confirmed under an index. */
  ghost function OpAt(receipts: map<Id, Envelope>, i: int): (op: Id)
    requires Numbered(receipts) && 1 <= i <= |receipts|
    ensures op in receipts && IndexOf(receipts)(op) == i
  {
    IndexTaken(receipts, i);
    var op :| op in receipts && IndexOf(receipts)(op) == i;
    op
  }

  ghost function EntryAt(receipts: map<Id, Envelope>, i: int): Entry
    requires Numbered(receipts) && 1 <= i <= |receipts|
  {
    var op := OpAt(receipts, i);
    Entry(i, op, P.AmountsOf(receipts)(op), DigestOf(receipts[op]))
  }

  /** The receipts in the order of their indices. */
  ghost function ManifestOf(receipts: map<Id, Envelope>): (entries: seq<Entry>)
    requires Numbered(receipts)
    ensures |entries| == |receipts| && forall i | 0 <= i < |entries| :: entries[i] == EntryAt(receipts, i + 1)
  {
    seq(|receipts|, i requires 0 <= i < |receipts| && Numbered(receipts) => EntryAt(receipts, i + 1))
  }

  ghost function FirstOps(receipts: map<Id, Envelope>, k: nat): set<Id>
    requires Numbered(receipts) && k <= |receipts|
  {
    set i | 1 <= i <= k :: OpAt(receipts, i)
  }

  lemma OpsDiffer(receipts: map<Id, Envelope>, i: int, j: int)
    requires Numbered(receipts) && 1 <= i <= |receipts| && 1 <= j <= |receipts| && i != j
    ensures OpAt(receipts, i) != OpAt(receipts, j)
  {
    hide Numbered, IndexOf;
  }

  lemma FirstOpsGrow(receipts: map<Id, Envelope>, k: nat)
    requires Numbered(receipts) && 1 <= k <= |receipts|
    ensures FirstOps(receipts, k) == FirstOps(receipts, k - 1) + {OpAt(receipts, k)}
    ensures OpAt(receipts, k) !in FirstOps(receipts, k - 1)
  {
    forall i | 1 <= i <= k - 1
      ensures OpAt(receipts, i) != OpAt(receipts, k)
    {
      OpsDiffer(receipts, i, k);
    }
    hide Numbered, IndexOf, OpAt;
  }

  lemma {:induction false} ManifestTotal(receipts: map<Id, Envelope>, k: nat)
    requires Numbered(receipts) && k <= |receipts|
    ensures Total(ManifestOf(receipts)[..k]) == Sum(FirstOps(receipts, k), P.AmountsOf(receipts))
  {
    hide Numbered, P.AmountsOf, IndexOf, OpAt;
    if k > 0 {
      ManifestTotal(receipts, k - 1);
      FirstOpsGrow(receipts, k);
      SumInsert(FirstOps(receipts, k - 1), P.AmountsOf(receipts), P.AmountsOf(receipts), OpAt(receipts, k));
      var t := ManifestOf(receipts)[..k];
      hide FirstOps, ManifestOf;
      assert t[..k - 1] == ManifestOf(receipts)[..k - 1] && t[k - 1] == EntryAt(receipts, k);
    } else {
      assert FirstOps(receipts, 0) == {};
    }
  }

  lemma OpIs(receipts: map<Id, Envelope>, op: Id)
    requires Numbered(receipts) && op in receipts
    ensures 1 <= IndexOf(receipts)(op) <= |receipts| && OpAt(receipts, IndexOf(receipts)(op)) == op
  {
    hide IndexOf, OpAt;
  }

  lemma AllOps(receipts: map<Id, Envelope>)
    requires Numbered(receipts)
    ensures FirstOps(receipts, |receipts|) == receipts.Keys
  {
    forall op | op in receipts
      ensures op in FirstOps(receipts, |receipts|)
    {
      OpIs(receipts, op);
    }
    hide Numbered, IndexOf, OpAt;
  }

  lemma ManifestShape(receipts: map<Id, Envelope>)
    requires Numbered(receipts)
    ensures Total(ManifestOf(receipts)) == Sum(receipts.Keys, P.AmountsOf(receipts))
    ensures forall i, j | 0 <= i < j < |ManifestOf(receipts)| :: ManifestOf(receipts)[i].op != ManifestOf(receipts)[j].op
    ensures forall i | 0 <= i < |ManifestOf(receipts)| :: ManifestOf(receipts)[i].index == i + 1
  {
    hide Numbered, P.AmountsOf, IndexOf, Sum, OpAt, ManifestOf, FirstOps, Total;
    ManifestTotal(receipts, |receipts|);
    AllOps(receipts);
    assert ManifestOf(receipts)[..|receipts|] == ManifestOf(receipts);
    forall i, j | 0 <= i < j < |ManifestOf(receipts)|
      ensures ManifestOf(receipts)[i].op != ManifestOf(receipts)[j].op
    {
      OpsDiffer(receipts, i + 1, j + 1);
    }
  }

  /** The manifest has the right count, total and limits, and what it leaves out is the phone's remaining budget. */
  lemma ManifestFitsGrant(p: P.Phone)
    requires P.Honest(p)
    ensures p.grant.message.body.Grant? && Numbered(p.receipts)
    ensures Total(ManifestOf(p.receipts)) == p.grant.message.body.total - p.remaining <= p.grant.message.body.total
    ensures |ManifestOf(p.receipts)| == p.nextIndex - 1 <= p.grant.message.body.maxPayments
  {
    ReceiptFacts(p);
    hide P.Honest, P.AmountsOf, IndexOf, Sum, Numbered, ManifestOf, Total;
    ManifestShape(p.receipts);
  }

  lemma EntryFits(p: P.Phone, e: Entry)
    requires P.Honest(p) && Numbered(p.receipts) && e in ManifestOf(p.receipts)
    ensures p.grant.message.body.Grant? && e.op in p.receipts && p.receipts[e.op].message.body.Receipt?
    ensures 1 <= e.amount <= MAX_INT64 && e.amount <= p.grant.message.body.maxPayment
    ensures e.index <= p.grant.message.body.maxPayments
    ensures e == Entry(p.receipts[e.op].message.body.index, e.op, p.receipts[e.op].message.body.common.amount, DigestOf(p.receipts[e.op]))
  {
    ReceiptFacts(p);
    hide P.Honest, Numbered;
    var i :| 0 <= i < |ManifestOf(p.receipts)| && ManifestOf(p.receipts)[i] == e;
    assert e.op == OpAt(p.receipts, i + 1);
    BoundLimits(p.requests[e.op], p.receipts[e.op], p.grant);
  }

  /** The closure an honest phone signs over its manifest passes every check that does not look at the database, exactly
    when the manifest fits a message. */
  lemma HonestPhoneCloses(p: P.Phone, id: Id, at: int)
    requires P.Honest(p) && Proper(p.grant)
    requires p.grant.message.body.Grant? && p.grant.message.body.grantedAt <= at
    ensures Numbered(p.receipts)
    ensures CloseBound(HonestClosure(p.grant, ManifestOf(p.receipts), id, at), p.grant, ManifestOf(p.receipts))
            <==> Fits(ManifestOf(p.receipts))
  {
    hide P.Honest, Proper, CloseBound, Total, Fits, ManifestOf, Numbered;
    ManifestFitsGrant(p);
    ManifestShape(p.receipts);
    forall e | e in ManifestOf(p.receipts)
      ensures 1 <= e.amount <= MAX_INT64 && e.amount <= p.grant.message.body.maxPayment && e.index <= p.grant.message.body.maxPayments
    {
      EntryFits(p, e);
    }
    HonestIsBound(p.grant, ManifestOf(p.receipts), id, at);
  }

  lemma BoundLimits(request: Envelope, receipt: Envelope, grant: Envelope)
    requires ReceiptBound(request, receipt, grant)
    ensures receipt.message.body.Receipt? && grant.message.body.Grant?
    ensures 1 <= receipt.message.body.common.amount <= MAX_INT64
    ensures receipt.message.body.common.amount <= grant.message.body.maxPayment
    ensures receipt.message.body.index <= grant.message.body.maxPayments
  {
  }

  // ---------------------------------------------------------------------------------------------
  // The batch of a phone

  /** The evidence of a phone's receipts, each with an acknowledgement. */
  ghost predicate FromPhone(p: P.Phone, batch: Batch) {
    && batch.Keys == p.receipts.Keys
    && forall op | op in batch ::
         && op in p.requests && batch[op].op == op && batch[op].request == p.requests[op]
         && batch[op].receipt == p.receipts[op] && batch[op].ack.Some? && !batch[op].review
  }

  predicate NoncesDiffer(batch: Batch) {
    forall op, other | op in batch && other in batch && op != other
                       && batch[op].receipt.message.body.Receipt? && batch[other].receipt.message.body.Receipt? ::
      batch[op].Common().nonce != batch[other].Common().nonce
  }

  lemma BatchItem(p: P.Phone, batch: Batch, op: Id)
    requires P.Honest(p) && FromPhone(p, batch) && op in batch
    ensures batch[op].receipt.message.body.Receipt? && batch[op].Common().op == op && batch[op].Amount() >= 1
    ensures op in p.receipts && batch[op].receipt == p.receipts[op]
    ensures batch[op].op == op && batch[op].ack.Some? && !batch[op].review
  {
    ReceiptFacts(p);
    hide P.Honest;
    BoundLimits(p.requests[op], p.receipts[op], p.grant);
  }

  lemma BatchIndices(p: P.Phone, batch: Batch, op: Id, other: Id)
    requires P.Honest(p) && FromPhone(p, batch) && op in batch && other in batch && op != other
    ensures batch[op].receipt.message.body.Receipt? && batch[other].receipt.message.body.Receipt?
    ensures batch[op].Claim().index != batch[other].Claim().index
  {
    ReceiptFacts(p);
    hide P.Honest, ReceiptBound;
    assert IndexOf(p.receipts)(op) != IndexOf(p.receipts)(other);
  }

  lemma BatchTotal(p: P.Phone, batch: Batch)
    requires P.Honest(p) && FromPhone(p, batch)
    ensures p.grant.message.body.Grant?
    ensures Sum(batch.Keys, AmountIn(batch)) == p.grant.message.body.total - p.remaining
  {
    ReceiptFacts(p);
    hide P.Honest, ReceiptBound, Sum, Numbered;
    SumSame(batch.Keys, AmountIn(batch), P.AmountsOf(p.receipts));
  }

  /** What an honest phone issued meets the hypotheses of order independence. */
  lemma PhoneBatchIsCoherent(p: P.Phone, a: Id, batch: Batch)
    requires P.Honest(p) && FromPhone(p, batch) && NoncesDiffer(batch)
    requires forall op | op in batch :: batch[op].auth == a
    ensures Coherent(a, batch)
  {
    hide P.Honest, FromPhone;
    forall op | op in batch
      ensures batch[op].op == op && batch[op].ack.Some? && !batch[op].review
              && batch[op].receipt.message.body.Receipt? && batch[op].Common().op == op && batch[op].Amount() >= 1
    {
      BatchItem(p, batch, op);
    }
    forall op, other | op in batch && other in batch && op != other
      ensures batch[op].Claim().index != batch[other].Claim().index
    {
      BatchIndices(p, batch, op, other);
    }
  }

  // ---------------------------------------------------------------------------------------------
  // Settle everything, then close

  /** A commitment without payments holds its whole grant. */
  lemma UnusedHoldsAll(db: Db, a: Id)
    requires CommitmentsOk(db.commitments, db.authorizations) && CountersOk(db.commitments, db.emissions, db.payments)
    requires a in db.commitments && !db.commitments[a].Closed()
    requires forall op | op in db.payments :: db.payments[op].auth != a
    ensures db.commitments[a].held == db.commitments[a].reserved && db.commitments[a].emitted == 0
    ensures db.commitments[a].grant.message.body.Grant? && db.commitments[a].reserved == db.commitments[a].grant.message.body.total
    ensures db.commitments[a].rejected == 0 && db.commitments[a].unissued == 0
  {
    assert CounterOk(a, db.commitments[a], db.emissions, db.payments);
    assert CommitmentOk(a, db.commitments[a], db.authorizations[a]);
    hide Proper, EmittedBy, EmissionsOf;
    SumZero(db.payments.Keys, PaidBy(db.payments, a, Accepted));
    SumZero(db.payments.Keys, PaidBy(db.payments, a, Rejected));
  }

  /** Evidence the catalogue accepts is evidence the closure vouches for. */
  lemma ValidatedIsVouched(db: Db, env: Env, grant: Envelope, c: Context, acked: bool)
    requires Validates(db, env, grant, c) && !c.review
    ensures c.receipt.message.body.Receipt? && Vouched(db, grant, RowOf(c, acked)) && TrustedGrant(env, grant)
  {
    ValidatedParts(db, env, grant, c);
    hide ReceiptBound, TrustedGrant, Valid3;
    AckIsAck(c.request, c.receipt, c.ack.value);
    BoundIsGrant(c.request, c.receipt, grant);
    hide AckBound;
  }

  lemma AckIsAck(request: Envelope, receipt: Envelope, ack: Envelope)
    requires AckBound(request, receipt, ack)
    ensures ack.message.body.Ack?
  {
  }

  lemma BoundIsGrant(request: Envelope, receipt: Envelope, grant: Envelope)
    requires ReceiptBound(request, receipt, grant)
    ensures request.message.body.Request? && receipt.message.body.Receipt? && grant.message.body.Grant?
    ensures request.message.body.common == receipt.message.body.common
  {
  }

  /** An open, unused commitment carries the whole batch of the phone that holds its grant. */
  lemma PhoneBatchStands(db: Db, opening: map<Id, int>, env: Env, issuer: Issuer, a: Id, p: P.Phone, batch: Batch)
    requires Inv(db, opening) && a in db.commitments && a in db.authorizations && !db.commitments[a].Closed()
    requires forall op | op in db.payments :: db.payments[op].auth != a
    requires P.Honest(p) && p.grant == db.commitments[a].grant && FromPhone(p, batch) && NoncesDiffer(batch)
    requires env.issuer == Some(issuer)
    requires forall op | op in batch :: batch[op].auth == a && Validates(db, env, p.grant, batch[op])
    ensures Standing(db, env, Start(issuer, db.commitments[a], db.authorizations[a]), a, batch)
    ensures db.commitments[a].emitted == 0 && db.commitments[a].rejected == 0
    ensures db.commitments[a].reserved == p.grant.message.body.total
    ensures Sum(batch.Keys, AmountIn(batch)) == p.grant.message.body.total - p.remaining
  {
    hide *;
    InvParts(db, opening);
    assert !db.commitments[a].Closed();
    UnusedHoldsAll(db, a);
    PhoneBatchIsCoherent(p, a, batch);
    BatchTotal(p, batch);
    BudgetLeft(p);
    StandingBuild(db, env, Start(issuer, db.commitments[a], db.authorizations[a]), a, batch);
  }

  lemma BudgetLeft(p: P.Phone)
    requires P.Honest(p)
    ensures p.remaining >= 0 && p.grant.message.body.Grant?
  {
    ReceiptFacts(p);
  }

  lemma StandingBuild(db: Db, env: Env, start: Start, a: Id, batch: Batch)
    requires Coherent(a, batch) && env.issuer == Some(start.issuer) && !start.commitment.Closed()
    requires Sum(batch.Keys, AmountIn(batch)) <= start.commitment.held
    requires forall op | op in batch :: Validates(db, env, start.commitment.grant, batch[op])
    ensures Standing(db, env, start, a, batch)
  {
    hide Coherent, Validates, Sum;
  }

  /** The row of one presented payment is what the manifest says. */
  lemma PresentedRow(db: Db, env: Env, start: Start, a: Id, batch: Batch, presented: set<Id>, acked: set<Id>, op: Id)
    requires Standing(db, env, start, a, batch) && Shows(db, start, a, batch, presented, acked) && op in presented
    ensures op in batch && op in db.payments && batch[op].receipt.message.body.Receipt?
    ensures var q := db.payments[op];
            && q.auth == a && q.receipt == batch[op].receipt && (q.state.Accepted? || q.state.PendingEvidence?)
            && q.amount == batch[op].Amount()
            && Vouched(db, start.commitment.grant, q)
  {
    StandingParts(db, env, start, a, batch, op);
    ShownParts(db, start, a, batch, presented, acked, op);
    ValidatedIsVouched(db, env, start.commitment.grant, batch[op], op in acked);
    hide Standing, Shows, Vouched, Validates, ResolutionOf;
  }

  lemma BatchMember(presented: set<Id>, acked: set<Id>, db: Db, start: Start, a: Id, batch: Batch)
    requires Shows(db, start, a, batch, presented, acked)
    ensures acked <= presented <= batch.Keys && a in db.commitments
    ensures var c := start.commitment;
            db.commitments[a] == c.(emitted := c.emitted + Sum(acked, AmountIn(batch)), count := c.count + |acked|,
                                    held := c.held - Sum(acked, AmountIn(batch)))
  {
    hide ItemShown, Quiet, Sum;
  }

  /** A manifest line whose payment is recorded as it says, ready to be closed over. */
  ghost predicate LineReady(db: Db, grant: Envelope, a: Id, e: Entry) {
    && e.op in db.payments && db.payments[e.op].auth == a && db.payments[e.op].receipt.message.body.Receipt?
    && Claim(e.index, e.amount, e.receiptDigest) == ClaimOf(db.payments[e.op])
    && (db.payments[e.op].state.Accepted? || db.payments[e.op].state.PendingEvidence?)
    && Vouched(db, grant, db.payments[e.op])
  }

  lemma LineIsReady(end: Db, env: Env, start: Start, a: Id, p: P.Phone, batch: Batch, acked: set<Id>, e: Entry)
    requires P.Honest(p) && Numbered(p.receipts) && FromPhone(p, batch) && e in ManifestOf(p.receipts)
    requires Standing(end, env, start, a, batch) && Shows(end, start, a, batch, batch.Keys, acked)
    ensures LineReady(end, start.commitment.grant, a, e)
  {
    EntryFits(p, e);
    InBatch(p, batch, e.op);
    PresentedRow(end, env, start, a, batch, batch.Keys, acked, e.op);
    BatchItem(p, batch, e.op);
    hide P.Honest, Standing, Shows, Vouched, Numbered, ManifestOf, FromPhone;
  }

  lemma InBatch(p: P.Phone, batch: Batch, op: Id)
    requires FromPhone(p, batch) && op in p.receipts
    ensures op in batch
  {
    assert op in batch.Keys;
  }

  lemma ListsBuild(end: Db, grant: Envelope, a: Id, receipts: map<Id, Envelope>)
    requires Numbered(receipts)
    requires forall e | e in ManifestOf(receipts) :: LineReady(end, grant, a, e)
    requires forall op | op in end.payments && end.payments[op].auth == a :: op in receipts
    ensures Lists(end, a, ManifestOf(receipts))
  {
    ManifestShape(receipts);
    forall op | op in end.payments && end.payments[op].auth == a
      ensures exists e :: e in ManifestOf(receipts) && e.op == op
    {
      EntryOfOp(receipts, op);
    }
    hide Numbered, ManifestOf, Vouched;
  }

  lemma ManifestLists(end: Db, env: Env, start: Start, a: Id, p: P.Phone, batch: Batch, acked: set<Id>)
    requires P.Honest(p) && Numbered(p.receipts) && FromPhone(p, batch)
    requires Alone(end, a, batch) && ClaimsOk(end.claims, end.payments, end.commitments.Keys)
    requires Standing(end, env, start, a, batch) && Shows(end, start, a, batch, batch.Keys, acked)
    ensures Lists(end, a, ManifestOf(p.receipts))
    ensures forall e | e in ManifestOf(p.receipts) :: LineReady(end, start.commitment.grant, a, e)
  {
    hide *;
    forall e | e in ManifestOf(p.receipts)
      ensures LineReady(end, start.commitment.grant, a, e)
    {
      LineIsReady(end, env, start, a, p, batch, acked, e);
    }
    forall op | op in end.payments && end.payments[op].auth == a
      ensures op in p.receipts
    {
      OnlyTheBatch(end, start, a, batch, acked, op);
      OutOfBatch(p, batch, op);
    }
    ListsBuild(end, start.commitment.grant, a, p.receipts);
  }

  lemma OutOfBatch(p: P.Phone, batch: Batch, op: Id)
    requires FromPhone(p, batch) && op in batch
    ensures op in p.receipts
  {
    assert op in batch.Keys;
  }

  lemma OnlyTheBatch(end: Db, start: Start, a: Id, batch: Batch, acked: set<Id>, op: Id)
    requires Alone(end, a, batch) && ClaimsOk(end.claims, end.payments, end.commitments.Keys)
    requires Shows(end, start, a, batch, batch.Keys, acked)
    requires op in end.payments && end.payments[op].auth == a
    ensures op in batch
  {
    hide ItemShown, Quiet, Sum;
    assert (a, op) in end.claims;
  }

  lemma EntryOfOp(receipts: map<Id, Envelope>, op: Id)
    requires Numbered(receipts) && op in receipts
    ensures exists e :: e in ManifestOf(receipts) && e.op == op
  {
    OpIs(receipts, op);
    var i := IndexOf(receipts)(op);
    assert ManifestOf(receipts)[i - 1] == EntryAt(receipts, i);
    assert ManifestOf(receipts)[i - 1] in ManifestOf(receipts);
  }

  lemma ReadyIsClosable(db: Db, grant: Envelope, a: Id, e: Entry)
    requires LineReady(db, grant, a, e)
    ensures Closable(db, grant, e)
  {
    hide Vouched;
  }

  /** Once all of the batch was submitted, the database shows it, and nothing else under its authorization. */
  lemma PlayedOut(db: Db, opening: map<Id, int>, env: Env, start: Start, a: Id, batch: Batch, moves: seq<Move>)
    requires Inv(db, opening) && Standing(db, env, start, a, batch) && Shows(db, start, a, batch, {}, {})
    requires Legal(db, env, start.commitment.grant, a, batch, moves) && PresentedIn(moves) == batch.Keys
    requires Alone(db, a, batch)
    ensures
      var end := Play(db, env, start.commitment.grant, batch, moves);
      && Inv(end, opening) && Standing(end, env, start, a, batch)
      && Shows(end, start, a, batch, batch.Keys, AckedIn(moves)) && Alone(end, a, batch)
  {
    hide *;
    PlayShows(db, opening, env, start, a, batch, {}, {}, moves);
    PlayAlone(db, opening, env, start, a, batch, {}, {}, moves);
    assert {} + PresentedIn(moves) == batch.Keys && {} + AckedIn(moves) == AckedIn(moves);
  }

  lemma UnusedIsAlone(db: Db, a: Id, batch: Batch)
    requires ClaimsOk(db.claims, db.payments, db.commitments.Keys)
    requires forall op | op in db.payments :: db.payments[op].auth != a
    ensures Alone(db, a, batch)
  {
  }

  /** An authorization that shows all of a phone's batch closes with what the phone says. */
  lemma ShownCloses(end: Db, opening: map<Id, int>, env: Env, start: Start, a: Id, p: P.Phone, batch: Batch,
                    acked: set<Id>, id: Id, at: int)
    requires Inv(end, opening) && P.Honest(p) && FromPhone(p, batch) && Alone(end, a, batch)
    requires Standing(end, env, start, a, batch) && Shows(end, start, a, batch, batch.Keys, acked)
    requires start.commitment.grant == p.grant && start.commitment.reserved == p.grant.message.body.total
    requires start.commitment.emitted == 0 && start.commitment.rejected == 0 && start.commitment.sealed.None?
    requires Sum(batch.Keys, AmountIn(batch)) == p.grant.message.body.total - p.remaining
    requires TrustedGrant(env, p.grant) && p.grant.message.body.Grant? && p.grant.message.body.grantedAt <= at
    requires !ClosureIdTaken(end, a, id)
    ensures Numbered(p.receipts)
    ensures Fits(ManifestOf(p.receipts)) <==>
            ClosesWith(end, env, a, p.grant, ManifestOf(p.receipts), id, at, p.remaining,
                       Sum(batch.Keys - acked, AmountIn(batch)))
    ensures |p.receipts| <= 21 ==> Fits(ManifestOf(p.receipts))
  {
    hide *;
    BatchMember(batch.Keys, acked, end, start, a, batch);
    ReceiptFacts(p);
    ManifestFitsGrant(p);
    InvParts(end, opening);
    ManifestLists(end, env, start, a, p, batch, acked);
    WalletThere(end, opening, a);
    StillOpen(end, start, a);
    forall e | e in ManifestOf(p.receipts)
      ensures Closable(end, p.grant, e)
    {
      ReadyIsClosable(end, p.grant, a, e);
    }
    assert HonestState(end, opening, env, a, ManifestOf(p.receipts)) by {
      HonestStateBuild(end, opening, env, a, ManifestOf(p.receipts));
    }
    HonestCloseSucceeds(end, opening, env, a, ManifestOf(p.receipts), id, at);
    ListedWellFormed(end, opening, a, ManifestOf(p.receipts));
    FitsByCount(ManifestOf(p.receipts));
    RestOfBatch(batch, acked);
  }

  lemma HonestStateBuild(db: Db, opening: map<Id, int>, env: Env, a: Id, entries: seq<Entry>)
    requires Inv(db, opening) && a in db.commitments && !db.commitments[a].Closed() && db.commitments[a].wallet in db.wallets
    requires Lists(db, a, entries) && Total(entries) <= db.commitments[a].reserved
    requires TrustedGrant(env, db.commitments[a].grant)
    requires forall e | e in entries :: Closable(db, db.commitments[a].grant, e)
    ensures HonestState(db, opening, env, a, entries)
  {
    hide Inv, Lists, Total, TrustedGrant, Closable;
  }

  /** A phone whose grant is an open, unused authorization, and the evidence of all its receipts, none of it known yet
    and all of it valid to the catalogue. */
  ghost predicate Ready(db: Db, env: Env, issuer: Issuer, a: Id, p: P.Phone, batch: Batch) {
    && a in db.commitments && a in db.authorizations && !db.commitments[a].Closed()
    && (forall op | op in db.payments :: db.payments[op].auth != a)
    && P.Honest(p) && p.grant == db.commitments[a].grant && FromPhone(p, batch) && NoncesDiffer(batch)
    && env.issuer == Some(issuer) && TrustedGrant(env, p.grant) && New(db, a, batch)
    && (forall op | op in batch :: batch[op].auth == a && Validates(db, env, p.grant, batch[op]))
  }

  lemma ReadyStands(db: Db, opening: map<Id, int>, env: Env, issuer: Issuer, a: Id, p: P.Phone, batch: Batch)
    requires Inv(db, opening) && Ready(db, env, issuer, a, p, batch)
    ensures a in db.commitments && a in db.authorizations && db.commitments[a].grant == p.grant
    ensures var start := Start(issuer, db.commitments[a], db.authorizations[a]);
            Standing(db, env, start, a, batch) && Shows(db, start, a, batch, {}, {})
    ensures db.commitments[a].emitted == 0 && db.commitments[a].rejected == 0 && db.commitments[a].sealed.None?
    ensures p.grant.message.body.Grant? && db.commitments[a].reserved == p.grant.message.body.total
    ensures Sum(batch.Keys, AmountIn(batch)) == p.grant.message.body.total - p.remaining
    ensures P.Honest(p) && FromPhone(p, batch) && TrustedGrant(env, p.grant) && Alone(db, a, batch)
  {
    hide Inv, P.Honest, FromPhone, NoncesDiffer, TrustedGrant, New, Validates, Standing, Shows, Sum, Alone;
    PhoneBatchStands(db, opening, env, issuer, a, p, batch);
    BudgetLeft(p);
    hide Ready;
    CoherenceOf(db, env, Start(issuer, db.commitments[a], db.authorizations[a]), a, batch);
    NewShowsNothing(db, opening, issuer, a, batch);
    ClaimsHere(db, opening);
    UnusedIsAlone(db, a, batch);
  }

  lemma ClaimsHere(db: Db, opening: map<Id, int>)
    requires Inv(db, opening)
    ensures ClaimsOk(db.claims, db.payments, db.commitments.Keys)
  {
    hide *;
    InvParts(db, opening);
  }

  /** End to end: whatever an honest phone issued under an unused authorization, once all of it was submitted, in any
    order and number, by either party, with or without acknowledgements, and whatever others did meanwhile, the phone's
    closure succeeds if and only if its manifest fits a message, as up to 21 payments do; it releases exactly the phone's
    remaining budget and keeps held exactly what was not acknowledged. */
  lemma SettleAndClose(db: Db, opening: map<Id, int>, env: Env, issuer: Issuer, a: Id, p: P.Phone, batch: Batch,
                       moves: seq<Move>, id: Id, at: int)
    requires Inv(db, opening) && Ready(db, env, issuer, a, p, batch)
    requires Legal(db, env, p.grant, a, batch, moves) && PresentedIn(moves) == batch.Keys
    requires p.grant.message.body.Grant? && p.grant.message.body.grantedAt <= at
    requires !ClosureIdTaken(Play(db, env, p.grant, batch, moves), a, id)
    ensures Numbered(p.receipts)
    ensures Fits(ManifestOf(p.receipts)) <==>
            ClosesWith(Play(db, env, p.grant, batch, moves), env, a, p.grant, ManifestOf(p.receipts), id, at,
                       p.remaining, Sum(batch.Keys - AckedIn(moves), AmountIn(batch)))
    ensures |p.receipts| <= 21 ==> Fits(ManifestOf(p.receipts))
  {
    hide *;
    ReadyStands(db, opening, env, issuer, a, p, batch);
    var start := Start(issuer, db.commitments[a], db.authorizations[a]);
    PlayedOut(db, opening, env, start, a, batch, moves);
    ShownCloses(Play(db, env, p.grant, batch, moves), opening, env, start, a, p, batch, AckedIn(moves), id, at);
  }

  lemma WalletThere(db: Db, opening: map<Id, int>, a: Id)
    requires Inv(db, opening) && a in db.commitments
    ensures db.commitments[a].wallet in db.wallets
  {
    assert CommitmentsOk(db.commitments, db.authorizations) && AuthorizationsOk(db.authorizations, db.wallets) by {
      hide *;
      InvParts(db, opening);
    }
    hide Inv, Proper;
    assert CommitmentOk(a, db.commitments[a], db.authorizations[a]);
  }

  lemma StillOpen(db: Db, start: Start, a: Id)
    requires a in db.commitments && db.commitments[a].sealed == start.commitment.sealed && start.commitment.sealed.None?
    ensures !db.commitments[a].Closed()
  {
  }

  lemma RestOfBatch(batch: Batch, acked: set<Id>)
    requires acked <= batch.Keys
    ensures Sum(batch.Keys - acked, AmountIn(batch)) == Sum(batch.Keys, AmountIn(batch)) - Sum(acked, AmountIn(batch))
  {
    SumSplit(batch.Keys, acked, AmountIn(batch));
  }

  lemma {:induction false} SumSplit(keys: set<Id>, part: set<Id>, f: Id -> int)
    requires part <= keys
    ensures Sum(keys, f) == Sum(part, f) + Sum(keys - part, f)
    decreases part
  {
    if part == {} {
      assert keys - part == keys;
    } else {
      var k :| k in part;
      SumAt(keys, f, k);
      SumAt(part, f, k);
      SumSplit(keys - {k}, part - {k}, f);
      assert keys - {k} - (part - {k}) == keys - part;
    }
  }
}
