/** Whole runs over a batch: the closed form of their outcome, and its independence of the order. */
module Plays {
  import opened Messages
  import opened Database
  import opened Sums
  import opened SyncV3
  import opened Authorizations
  import opened Invariant
  import opened Reconciliation
  import opened Machine
  import opened History
  import opened Batches
  import opened OrderIndependence
  import opened Interleaving

  /** Submit a payment of the batch, with or without its acknowledgement; or anything that happens meanwhile. */
  datatype Move = Present(op: Id, acked: bool, user: Id) | Meanwhile(step: Step)

  ghost function Do(db: Db, env: Env, grant: Envelope, batch: Batch, m: Move): Db {
    match m
    case Present(op, acked, user) =>
      if op in batch && batch[op].ack.Some? then
        Next(db, SubmitStep(env, user, EvidenceOf(batch[op], grant, acked)))
      else db
    case Meanwhile(s) => Next(db, s)
  }

  ghost function Play(db: Db, env: Env, grant: Envelope, batch: Batch, moves: seq<Move>): Db
    decreases |moves|
  {
    if |moves| == 0 then db else Play(Do(db, env, grant, batch, moves[0]), env, grant, batch, moves[1..])
  }

  ghost predicate Allowed(db: Db, env: Env, grant: Envelope, a: Id, batch: Batch, m: Move) {
    match m
    case Present(op, _, user) => op in batch && Party(db, batch[op], user)
    case Meanwhile(s) => Elsewhere(db, env, grant, s, a, batch) && SafeStep(db, s)
  }

  /** Every move is by a party of its payment, or happens elsewhere, a second transaction if it is safe. */
  ghost predicate Legal(db: Db, env: Env, grant: Envelope, a: Id, batch: Batch, moves: seq<Move>)
    decreases |moves|
  {
    |moves| == 0 || (&& Allowed(db, env, grant, a, batch, moves[0])
                     && Legal(Do(db, env, grant, batch, moves[0]), env, grant, a, batch, moves[1..]))
  }

  function Presents(m: Move): set<Id> {
    if m.Present? then {m.op} else {}
  }

  function Acks(m: Move): set<Id> {
    if m.Present? && m.acked then {m.op} else {}
  }

  function PresentedIn(moves: seq<Move>): set<Id> {
    if |moves| == 0 then {} else Presents(moves[0]) + PresentedIn(moves[1..])
  }

  function AckedIn(moves: seq<Move>): set<Id> {
    if |moves| == 0 then {} else Acks(moves[0]) + AckedIn(moves[1..])
  }

  lemma GrantHeldHere(db: Db, start: Start, a: Id, batch: Batch, presented: set<Id>, acked: set<Id>)
    requires Shows(db, start, a, batch, presented, acked)
    ensures a in db.commitments && a in db.authorizations
  {
    hide ItemShown, Quiet, Sum;
  }

  lemma CoherenceOf(db: Db, env: Env, start: Start, a: Id, batch: Batch)
    requires Standing(db, env, start, a, batch)
    ensures Coherent(a, batch)
  {
    hide Coherent, Validates, Sum;
  }

  lemma MoveShows(db: Db, opening: map<Id, int>, env: Env, start: Start, a: Id, batch: Batch, presented: set<Id>,
                  acked: set<Id>, m: Move)
    requires Inv(db, opening) && Standing(db, env, start, a, batch) && Shows(db, start, a, batch, presented, acked)
    requires Allowed(db, env, start.commitment.grant, a, batch, m)
    ensures
      var after := Do(db, env, start.commitment.grant, batch, m);
      && Inv(after, opening) && Standing(after, env, start, a, batch)
      && Shows(after, start, a, batch, presented + Presents(m), acked + Acks(m))
  {
    hide Inv, Standing, Shows, Next, Elsewhere, SafeStep, Party, EvidenceOf;
    var grant := start.commitment.grant;
    GrantHeldHere(db, start, a, batch, presented, acked);
    CoherenceOf(db, env, start, a, batch);
    match m
    case Present(op, withAck, user) =>
      PresentShows(db, opening, env, start, a, batch, presented, acked, op, withAck, user);
      SubmitIsSync(db, env, user, EvidenceOf(batch[op], grant, withAck));
      StepKeepsInv(db, opening, SubmitStep(env, user, EvidenceOf(batch[op], grant, withAck)));
      hide Sync;
      SameCatalogueStands(db, Sync(db, env, user, EvidenceOf(batch[op], grant, withAck)), env, start, a, batch);
      assert withAck ==> acked + Acks(m) == acked + {op};
      assert !withAck ==> acked + Acks(m) == acked;
    case Meanwhile(s) =>
      StepKeepsInv(db, opening, s);
      ElsewhereUntouched(db, opening, env, grant, s, a, batch);
      ElsewhereStands(db, opening, env, start, s, a, batch);
      UntouchedShows(db, Next(db, s), start, a, batch, presented, acked);
      assert presented + Presents(m) == presented && acked + Acks(m) == acked;
  }

  lemma SubmitIsSync(db: Db, env: Env, user: Id, ev: Evidence)
    ensures Next(db, SubmitStep(env, user, ev)) == Sync(db, env, user, ev) && SafeStep(db, SubmitStep(env, user, ev))
  {
    hide Sync;
  }

  lemma {:induction false} PlayShows(db: Db, opening: map<Id, int>, env: Env, start: Start, a: Id, batch: Batch,
                                     presented: set<Id>, acked: set<Id>, moves: seq<Move>)
    requires Inv(db, opening) && Standing(db, env, start, a, batch) && Shows(db, start, a, batch, presented, acked)
    requires Legal(db, env, start.commitment.grant, a, batch, moves)
    ensures Inv(Play(db, env, start.commitment.grant, batch, moves), opening)
    ensures Standing(Play(db, env, start.commitment.grant, batch, moves), env, start, a, batch)
    ensures Shows(Play(db, env, start.commitment.grant, batch, moves), start, a, batch,
                  presented + PresentedIn(moves), acked + AckedIn(moves))
    decreases |moves|
  {
    hide Inv, Standing, Shows, Do, Allowed, Presents, Acks;
    if |moves| == 0 {
      assert presented + PresentedIn(moves) == presented && acked + AckedIn(moves) == acked;
    } else {
      MoveShows(db, opening, env, start, a, batch, presented, acked, moves[0]);
      PlayShows(Do(db, env, start.commitment.grant, batch, moves[0]), opening, env, start, a, batch,
                presented + Presents(moves[0]), acked + Acks(moves[0]), moves[1..]);
      assert presented + Presents(moves[0]) + PresentedIn(moves[1..]) == presented + PresentedIn(moves);
      assert acked + Acks(moves[0]) + AckedIn(moves[1..]) == acked + AckedIn(moves);
    }
  }

  /** No payment of the batch is known yet, and nothing else uses its nonces and indices. */
  ghost predicate New(db: Db, a: Id, batch: Batch) {
    && (forall op | op in batch :: op !in db.payments && batch[op].receipt.message.body.Receipt?)
    && Quiet(db, a, batch)
  }

  lemma NewTables(db: Db, issuer: Issuer, a: Id, batch: Batch)
    requires ClaimsOk(db.claims, db.payments, db.commitments.Keys)
    requires EmissionsOk(db.emissions, db.payments, db.commitments.Keys) && LedgerOk(db.ledger, db.payments, db.wallets)
    requires ResolutionsOk(db.resolutions, db.payments, db.commitments.Keys)
    requires Coherent(a, batch) && New(db, a, batch) && a in db.commitments && a in db.authorizations
    ensures Shows(db, Start(issuer, db.commitments[a], db.authorizations[a]), a, batch, {}, {})
  {
    hide Quiet;
  }

  /** A new batch starts with nothing shown. */
  lemma NewShowsNothing(db: Db, opening: map<Id, int>, issuer: Issuer, a: Id, batch: Batch)
    requires Inv(db, opening) && Coherent(a, batch) && New(db, a, batch) && a in db.commitments && a in db.authorizations
    ensures Shows(db, Start(issuer, db.commitments[a], db.authorizations[a]), a, batch, {}, {})
  {
    hide *;
    InvParts(db, opening);
    NewTables(db, issuer, a, batch);
  }

  /** Whatever is interleaved, what the database shows of a new batch is a function of which of its payments were
    submitted and which were ever submitted with their acknowledgement: each of these was applied exactly once. */
  lemma BatchOutcome(db: Db, opening: map<Id, int>, env: Env, start: Start, a: Id, batch: Batch, moves: seq<Move>)
    requires Inv(db, opening) && Standing(db, env, start, a, batch) && Shows(db, start, a, batch, {}, {})
    requires Legal(db, env, start.commitment.grant, a, batch, moves)
    ensures Shows(Play(db, env, start.commitment.grant, batch, moves), start, a, batch, PresentedIn(moves), AckedIn(moves))
  {
    hide *;
    PlayShows(db, opening, env, start, a, batch, {}, {}, moves);
    assert {} + PresentedIn(moves) == PresentedIn(moves) && {} + AckedIn(moves) == AckedIn(moves);
  }

  // ---------------------------------------------------------------------------------------------
  // Nothing else under the authorization

  /** Every claim under the authorization is of a payment of the batch. */
  ghost predicate Alone(db: Db, a: Id, batch: Batch) {
    forall k | k in db.claims && k.0 == a :: k.1 in batch
  }

  lemma SettledClaims(db: Db, c: Context, issuer: Issuer, a: Id, batch: Batch)
    requires Executable(db, Settle(c, issuer)) && c.op in batch && Alone(db, a, batch)
    ensures Alone(SettleOn(db, c, issuer), a, batch)
  {
    hide Credit, CreditUser, ResolutionOf, WithAck, SpendCommitment;
  }

  lemma HeldClaims(db: Db, c: Context, a: Id, batch: Batch)
    requires c.receipt.message.body.Receipt? && c.op in batch && Alone(db, a, batch)
    ensures Alone(HoldOn(db, c), a, batch)
  {
  }

  lemma PresentAlone(db: Db, opening: map<Id, int>, env: Env, start: Start, a: Id, batch: Batch, presented: set<Id>,
                     acked: set<Id>, op: Id, withAck: bool, user: Id)
    requires Inv(db, opening) && Standing(db, env, start, a, batch) && Shows(db, start, a, batch, presented, acked)
    requires op in batch && Party(db, batch[op], user) && Alone(db, a, batch)
    ensures batch[op].ack.Some?
    ensures Alone(Sync(db, env, user, EvidenceOf(batch[op], start.commitment.grant, withAck)), a, batch)
  {
    hide *;
    StandingParts(db, env, start, a, batch, op);
    ShownParts(db, start, a, batch, presented, acked, op);
    var ev := EvidenceOf(batch[op], start.commitment.grant, withAck);
    SyncKeepsInv(db, opening, env, user, ev);
    if op in acked {
      RepeatIsIdle(db, env, user, start, batch[op], withAck);
      RefusedIsIdle(db, env, user, ev);
    } else {
      Outcome(db, opening, env, start, a, batch, presented, acked, op, withAck, user);
      if withAck {
        SettledIs(db, env, user, ev, batch[op], start.issuer);
        SettledClaims(db, batch[op], start.issuer, a, batch);
      } else {
        ShapeParts(batch[op], false);
        HeldIs(db, env, user, ev, Shape(batch[op], false));
        HeldClaims(db, Shape(batch[op], false), a, batch);
      }
    }
  }

  lemma UntouchedAlone(before: Db, after: Db, a: Id, batch: Batch)
    requires Untouched(before, after, a, batch) && Alone(before, a, batch)
    ensures Alone(after, a, batch)
  {
    hide SameItem, Quiet;
    assert forall k: (Id, Id) | k.0 == a :: Agree(before.claims, after.claims, k);
  }

  lemma MoveAlone(db: Db, opening: map<Id, int>, env: Env, start: Start, a: Id, batch: Batch, presented: set<Id>,
                  acked: set<Id>, m: Move)
    requires Inv(db, opening) && Standing(db, env, start, a, batch) && Shows(db, start, a, batch, presented, acked)
    requires Allowed(db, env, start.commitment.grant, a, batch, m) && Alone(db, a, batch)
    ensures Alone(Do(db, env, start.commitment.grant, batch, m), a, batch)
  {
    hide Inv, Standing, Shows, Next, Elsewhere, SafeStep, Party, EvidenceOf, Alone;
    GrantHeldHere(db, start, a, batch, presented, acked);
    match m
    case Present(op, withAck, user) =>
      PresentAlone(db, opening, env, start, a, batch, presented, acked, op, withAck, user);
      SubmitIsSync(db, env, user, EvidenceOf(batch[op], start.commitment.grant, withAck));
    case Meanwhile(s) =>
      ElsewhereUntouched(db, opening, env, start.commitment.grant, s, a, batch);
      UntouchedAlone(db, Next(db, s), a, batch);
  }

  /** No legal run brings another payment under the batch's authorization. */
  lemma {:induction false} PlayAlone(db: Db, opening: map<Id, int>, env: Env, start: Start, a: Id, batch: Batch,
                                     presented: set<Id>, acked: set<Id>, moves: seq<Move>)
    requires Inv(db, opening) && Standing(db, env, start, a, batch) && Shows(db, start, a, batch, presented, acked)
    requires Legal(db, env, start.commitment.grant, a, batch, moves) && Alone(db, a, batch)
    ensures Alone(Play(db, env, start.commitment.grant, batch, moves), a, batch)
    decreases |moves|
  {
    hide Inv, Standing, Shows, Do, Allowed, Presents, Acks, Alone;
    if |moves| > 0 {
      MoveShows(db, opening, env, start, a, batch, presented, acked, moves[0]);
      MoveAlone(db, opening, env, start, a, batch, presented, acked, moves[0]);
      PlayAlone(Do(db, env, start.commitment.grant, batch, moves[0]), opening, env, start, a, batch,
                presented + Presents(moves[0]), acked + Acks(moves[0]), moves[1..]);
    }
  }

  // ---------------------------------------------------------------------------------------------
  // Nothing but submissions

  predicate OnlySubmissions(moves: seq<Move>) {
    forall m | m in moves :: m.Present?
  }

  ghost predicate AgreeOff<K(!new), V(!new)>(m: map<K, V>, n: map<K, V>, keys: set<K>) {
    forall k | k !in keys :: Agree(m, n, k)
  }

  lemma AgreeOffTransitive<K(!new), V(!new)>(l: map<K, V>, m: map<K, V>, n: map<K, V>, keys: set<K>)
    requires AgreeOff(l, m, keys) && AgreeOff(m, n, keys)
    ensures AgreeOff(l, n, keys)
  {
    forall k | k !in keys
      ensures Agree(l, n, k)
    {
      assert Agree(l, m, k) && Agree(m, n, k);
    }
  }

  /** Two tables that agree with a third one off the keys, and with each other on them, are equal. */
  lemma AgreeEverywhere<K(!new), V(!new)>(base: map<K, V>, m: map<K, V>, n: map<K, V>, keys: set<K>)
    requires AgreeOff(base, m, keys) && AgreeOff(base, n, keys) && forall k | k in keys :: Agree(m, n, k)
    ensures m == n
  {
    forall k
      ensures Agree(m, n, k)
    {
      if k !in keys {
        assert Agree(base, m, k) && Agree(base, n, k);
      }
    }
    assert forall k | k in m :: Agree(m, n, k);
    assert forall k | k in n :: Agree(m, n, k);
  }

  function Pairs(a: Id, batch: Batch): set<(Id, Id)> {
    set op | op in batch :: (a, op)
  }

  function Legs(batch: Batch): set<(Id, EntryType)> {
    (set op | op in batch :: (op, DEBIT)) + (set op | op in batch :: (op, CREDIT))
  }

  ghost predicate FramedRows(before: Db, after: Db, a: Id, batch: Batch) {
    && AgreeOff(before.payments, after.payments, batch.Keys) && AgreeOff(before.resolutions, after.resolutions, batch.Keys)
    && AgreeOff(before.claims, after.claims, Pairs(a, batch)) && AgreeOff(before.emissions, after.emissions, Pairs(a, batch))
    && AgreeOff(before.ledger, after.ledger, Legs(batch))
    && AgreeOff(before.commitments, after.commitments, {a}) && AgreeOff(before.authorizations, after.authorizations, {a})
  }

  ghost predicate FramedRest(before: Db, after: Db) {
    && before.issuedFor == after.issuedFor && before.topups == after.topups && before.inventory == after.inventory
    && before.keys == after.keys && before.terminals == after.terminals && before.walletOf == after.walletOf
  }

  ghost predicate FramedMoney(before: Db, after: Db) {
    && before.wallets.Keys == after.wallets.Keys
    && (forall w | w in before.wallets :: after.wallets[w] == before.wallets[w].(balance := after.wallets[w].balance))
    && before.saldo.Keys == after.saldo.Keys
    && (forall u | u in before.saldo && u !in before.walletOf :: after.saldo[u] == before.saldo[u])
  }

  /** Outside the batch, only balances may differ. */
  ghost predicate Framed(before: Db, after: Db, a: Id, batch: Batch) {
    FramedRows(before, after, a, batch) && FramedRest(before, after) && FramedMoney(before, after)
  }

  lemma FramedReflexive(db: Db, a: Id, batch: Batch)
    ensures Framed(db, db, a, batch)
  {
  }

  lemma FramedTransitive(first: Db, second: Db, third: Db, a: Id, batch: Batch)
    requires Framed(first, second, a, batch) && Framed(second, third, a, batch)
    ensures Framed(first, third, a, batch)
  {
    hide AgreeOff, Pairs, Legs;
    AgreeOffTransitive(first.payments, second.payments, third.payments, batch.Keys);
    AgreeOffTransitive(first.resolutions, second.resolutions, third.resolutions, batch.Keys);
    AgreeOffTransitive(first.claims, second.claims, third.claims, Pairs(a, batch));
    AgreeOffTransitive(first.emissions, second.emissions, third.emissions, Pairs(a, batch));
    AgreeOffTransitive(first.ledger, second.ledger, third.ledger, Legs(batch));
    AgreeOffTransitive(first.commitments, second.commitments, third.commitments, {a});
    AgreeOffTransitive(first.authorizations, second.authorizations, third.authorizations, {a});
  }

  lemma HoldFramed(db: Db, c: Context, a: Id, batch: Batch)
    requires c.receipt.message.body.Receipt? && c.op in batch && c.auth == a
    ensures Framed(db, HoldOn(db, c), a, batch)
  {
  }

  lemma PairFrames(wallets: map<Id, Wallet>, walletOf: map<Id, Id>, saldo: map<Id, real>, payer: Id, payee: Id, amount: int)
    requires WalletsOk(wallets, walletOf, saldo) && payer in wallets && payee in wallets
    ensures var after := Credit(Credit(wallets, payer, -amount), payee, amount);
            after.Keys == wallets.Keys && forall w | w in wallets :: after[w] == wallets[w].(balance := after[w].balance)
    ensures var after := CreditUser(CreditUser(saldo, wallets[payer].owner, -amount), wallets[payee].owner, amount);
            after.Keys == saldo.Keys && forall u | u in saldo && u !in walletOf :: after[u] == saldo[u]
  {
  }

  lemma SettleRows(db: Db, c: Context, issuer: Issuer)
    requires Executable(db, Settle(c, issuer))
    ensures
      var after, amount := SettleOn(db, c, issuer), c.Amount();
      && after.wallets == Credit(Credit(db.wallets, c.wallet, -amount), c.merchantWallet, amount)
      && after.saldo == CreditUser(CreditUser(db.saldo, db.wallets[c.wallet].owner, -amount),
                                   db.wallets[c.merchantWallet].owner, amount)
      && FramedRest(db, after)
  {
    hide ResolutionOf, WithAck, SpendCommitment, Credit, CreditUser, RecordClaim;
  }

  lemma SettleFramedRows(db: Db, c: Context, issuer: Issuer, a: Id, batch: Batch)
    requires Executable(db, Settle(c, issuer)) && c.op in batch && c.auth == a
    ensures FramedRows(db, SettleOn(db, c, issuer), a, batch)
  {
    hide ResolutionOf, WithAck, SpendCommitment, Credit, CreditUser;
  }

  lemma MoneyFramed(db: Db, after: Db, payer: Id, payee: Id, amount: int)
    requires WalletsOk(db.wallets, db.walletOf, db.saldo) && payer in db.wallets && payee in db.wallets
    requires after.wallets == Credit(Credit(db.wallets, payer, -amount), payee, amount)
    requires after.saldo == CreditUser(CreditUser(db.saldo, db.wallets[payer].owner, -amount),
                                       db.wallets[payee].owner, amount)
    ensures FramedMoney(db, after)
  {
    PairFrames(db.wallets, db.walletOf, db.saldo, payer, payee, amount);
    hide WalletsOk, Credit, CreditUser;
  }

  lemma SettleFramed(db: Db, c: Context, issuer: Issuer, a: Id, batch: Batch)
    requires Executable(db, Settle(c, issuer)) && c.op in batch && c.auth == a
    requires WalletsOk(db.wallets, db.walletOf, db.saldo)
    ensures Framed(db, SettleOn(db, c, issuer), a, batch)
  {
    SettleRows(db, c, issuer);
    SettleFramedRows(db, c, issuer, a, batch);
    hide SettleOn, Credit, CreditUser, WalletsOk, FramedRows, FramedRest, FramedMoney;
    MoneyFramed(db, SettleOn(db, c, issuer), c.wallet, c.merchantWallet, c.Amount());
  }

  lemma PresentFramed(db: Db, opening: map<Id, int>, env: Env, start: Start, a: Id, batch: Batch, presented: set<Id>,
                      acked: set<Id>, op: Id, withAck: bool, user: Id)
    requires Inv(db, opening) && Standing(db, env, start, a, batch) && Shows(db, start, a, batch, presented, acked)
    requires op in batch && Party(db, batch[op], user)
    ensures batch[op].ack.Some?
    ensures Framed(db, Sync(db, env, user, EvidenceOf(batch[op], start.commitment.grant, withAck)), a, batch)
  {
    hide *;
    StandingParts(db, env, start, a, batch, op);
    ShownParts(db, start, a, batch, presented, acked, op);
    var ev := EvidenceOf(batch[op], start.commitment.grant, withAck);
    SyncKeepsInv(db, opening, env, user, ev);
    if op in acked {
      RepeatIsIdle(db, env, user, start, batch[op], withAck);
      RefusedIsIdle(db, env, user, ev);
      FramedReflexive(db, a, batch);
    } else {
      Outcome(db, opening, env, start, a, batch, presented, acked, op, withAck, user);
      if withAck {
        SettledIs(db, env, user, ev, batch[op], start.issuer);
        InvParts(db, opening);
        SettleFramed(db, batch[op], start.issuer, a, batch);
      } else {
        ShapeParts(batch[op], false);
        HeldIs(db, env, user, ev, Shape(batch[op], false));
        HoldFramed(db, Shape(batch[op], false), a, batch);
      }
    }
  }

  lemma {:induction false} PlayFramed(db: Db, opening: map<Id, int>, env: Env, start: Start, a: Id, batch: Batch,
                                      presented: set<Id>, acked: set<Id>, moves: seq<Move>)
    requires Inv(db, opening) && Standing(db, env, start, a, batch) && Shows(db, start, a, batch, presented, acked)
    requires Legal(db, env, start.commitment.grant, a, batch, moves) && OnlySubmissions(moves)
    ensures Framed(db, Play(db, env, start.commitment.grant, batch, moves), a, batch)
    decreases |moves|
  {
    hide Inv, Standing, Shows, Framed, Next, Party, EvidenceOf, Elsewhere;
    var grant := start.commitment.grant;
    FramedReflexive(db, a, batch);
    if |moves| > 0 {
      var m := moves[0];
      assert m in moves && forall n | n in moves[1..] :: n in moves;
      MoveShows(db, opening, env, start, a, batch, presented, acked, m);
      PresentFramed(db, opening, env, start, a, batch, presented, acked, m.op, m.acked, m.user);
      SubmitIsSync(db, env, m.user, EvidenceOf(batch[m.op], grant, m.acked));
      var next := Do(db, env, grant, batch, m);
      hide Sync, Do;
      PlayFramed(next, opening, env, start, a, batch, presented + Presents(m), acked + Acks(m), moves[1..]);
      FramedTransitive(db, next, Play(next, env, grant, batch, moves[1..]), a, batch);
    }
  }

  // ---------------------------------------------------------------------------------------------
  // The same database

  lemma ItemsAgree(one: Db, two: Db, issuer: Issuer, grant: Envelope, c: Context, presented: bool, acked: bool)
    requires ItemShown(one, issuer, grant, c, presented, acked) && ItemShown(two, issuer, grant, c, presented, acked)
    ensures SameItem(one, two, c.auth, c.op)
  {
    hide ResolutionOf, RowOf;
  }

  lemma SameItems(one: Db, two: Db, start: Start, a: Id, batch: Batch, presented: set<Id>, acked: set<Id>)
    requires Coherent(a, batch)
    requires Shows(one, start, a, batch, presented, acked) && Shows(two, start, a, batch, presented, acked)
    ensures forall op | op in batch :: SameItem(one, two, a, op)
    ensures Agree(one.commitments, two.commitments, a) && Agree(one.authorizations, two.authorizations, a)
  {
    hide ItemShown, Quiet, Sum, SameItem;
    forall op | op in batch
      ensures SameItem(one, two, a, op)
    {
      ItemsAgree(one, two, start.issuer, start.commitment.grant, batch[op], op in presented, op in acked);
    }
  }

  lemma OnTheBatch(one: Db, two: Db, a: Id, batch: Batch)
    requires forall op | op in batch :: SameItem(one, two, a, op)
    ensures forall op | op in batch.Keys :: Agree(one.payments, two.payments, op) && Agree(one.resolutions, two.resolutions, op)
    ensures forall k | k in Pairs(a, batch) :: Agree(one.claims, two.claims, k) && Agree(one.emissions, two.emissions, k)
    ensures forall k | k in Legs(batch) :: Agree(one.ledger, two.ledger, k)
  {
    hide Agree;
  }

  lemma SameRows(base: Db, one: Db, two: Db, a: Id, batch: Batch)
    requires FramedRows(base, one, a, batch) && FramedRows(base, two, a, batch)
    requires forall op | op in batch :: SameItem(one, two, a, op)
    requires Agree(one.commitments, two.commitments, a) && Agree(one.authorizations, two.authorizations, a)
    ensures one.payments == two.payments && one.resolutions == two.resolutions && one.claims == two.claims
    ensures one.emissions == two.emissions && one.ledger == two.ledger
    ensures one.commitments == two.commitments && one.authorizations == two.authorizations
  {
    hide AgreeOff, Agree, Pairs, Legs, SameItem;
    OnTheBatch(one, two, a, batch);
    AgreeEverywhere(base.payments, one.payments, two.payments, batch.Keys);
    AgreeEverywhere(base.resolutions, one.resolutions, two.resolutions, batch.Keys);
    AgreeEverywhere(base.claims, one.claims, two.claims, Pairs(a, batch));
    AgreeEverywhere(base.emissions, one.emissions, two.emissions, Pairs(a, batch));
    AgreeEverywhere(base.ledger, one.ledger, two.ledger, Legs(batch));
    AgreeEverywhere(base.commitments, one.commitments, two.commitments, {a});
    AgreeEverywhere(base.authorizations, one.authorizations, two.authorizations, {a});
  }

  lemma SameBalances(opening: map<Id, int>, one: map<Id, Wallet>, two: map<Id, Wallet>, topups: map<Id, Topup>,
                     ledger: map<(Id, EntryType), LedgerEntry>)
    requires BalancesOk(opening, one, topups, ledger) && BalancesOk(opening, two, topups, ledger)
    ensures one.Keys == two.Keys && forall w | w in one :: one[w].balance == two[w].balance
  {
    hide Sum;
  }

  lemma SameSaldo(one: map<Id, Wallet>, two: map<Id, Wallet>, walletOf: map<Id, Id>, first: map<Id, real>, second: map<Id, real>, u: Id)
    requires WalletsOk(one, walletOf, first) && WalletsOk(two, walletOf, second)
    requires one.Keys == two.Keys && forall w | w in one :: one[w].balance == two[w].balance
    requires u in walletOf
    ensures u in first && u in second && first[u] == second[u]
  {
  }

  lemma SameMoney(opening: map<Id, int>, base: Db, one: Db, two: Db, a: Id, batch: Batch)
    requires Framed(base, one, a, batch) && Framed(base, two, a, batch) && one.ledger == two.ledger
    requires BalancesOk(opening, one.wallets, one.topups, one.ledger) && WalletsOk(one.wallets, one.walletOf, one.saldo)
    requires BalancesOk(opening, two.wallets, two.topups, two.ledger) && WalletsOk(two.wallets, two.walletOf, two.saldo)
    ensures one.wallets == two.wallets && one.saldo == two.saldo
  {
    hide Agree, BalancesOk, WalletsOk;
    SameBalances(opening, one.wallets, two.wallets, one.topups, one.ledger);
    assert forall w | w in base.wallets :: one.wallets[w] == two.wallets[w];
    forall u | u in base.saldo
      ensures one.saldo[u] == two.saldo[u]
    {
      if u in base.walletOf {
        SameSaldo(one.wallets, two.wallets, base.walletOf, one.saldo, two.saldo, u);
      }
    }
    assert one.saldo.Keys == two.saldo.Keys;
  }

  lemma FramedParts(before: Db, after: Db, a: Id, batch: Batch)
    requires Framed(before, after, a, batch)
    ensures FramedRows(before, after, a, batch)
  {
    hide FramedRows, FramedRest, FramedMoney;
  }

  lemma SameFrame(base: Db, one: Db, two: Db, a: Id, batch: Batch)
    requires Framed(base, one, a, batch) && Framed(base, two, a, batch)
    requires one.payments == two.payments && one.resolutions == two.resolutions && one.claims == two.claims
    requires one.emissions == two.emissions && one.ledger == two.ledger && one.commitments == two.commitments
    requires one.authorizations == two.authorizations && one.wallets == two.wallets && one.saldo == two.saldo
    ensures one == two
  {
    hide Agree;
  }

  /** Two runs of submissions of one batch, in any order and number, by either party, with and without
    acknowledgements, end in the same database if they submitted and acknowledged the same payments. */
  lemma OrderDoesNotMatter(db: Db, opening: map<Id, int>, env: Env, start: Start, a: Id, batch: Batch,
                           first: seq<Move>, second: seq<Move>)
    requires Inv(db, opening) && Standing(db, env, start, a, batch) && Shows(db, start, a, batch, {}, {})
    requires Legal(db, env, start.commitment.grant, a, batch, first) && OnlySubmissions(first)
    requires Legal(db, env, start.commitment.grant, a, batch, second) && OnlySubmissions(second)
    requires PresentedIn(first) == PresentedIn(second) && AckedIn(first) == AckedIn(second)
    ensures Play(db, env, start.commitment.grant, batch, first) == Play(db, env, start.commitment.grant, batch, second)
  {
    hide *;
    var one := Play(db, env, start.commitment.grant, batch, first);
    var two := Play(db, env, start.commitment.grant, batch, second);
    CoherenceOf(db, env, start, a, batch);
    PlayShows(db, opening, env, start, a, batch, {}, {}, first);
    PlayShows(db, opening, env, start, a, batch, {}, {}, second);
    PlayFramed(db, opening, env, start, a, batch, {}, {}, first);
    PlayFramed(db, opening, env, start, a, batch, {}, {}, second);
    SameItems(one, two, start, a, batch, {} + PresentedIn(first), {} + AckedIn(first));
    FramedParts(db, one, a, batch);
    FramedParts(db, two, a, batch);
    SameRows(db, one, two, a, batch);
    InvParts(one, opening);
    InvParts(two, opening);
    SameMoney(opening, db, one, two, a, batch);
    SameFrame(db, one, two, a, batch);
  }
}
