/** The order of submissions does not matter: what a batch leaves behind depends only on which of its payments were
  submitted and which were ever acknowledged, whatever else the backend does in between. */
module OrderIndependence {
  import opened Messages
  import opened Database
  import opened Sums
  import opened SyncV3
  import opened SyncV2
  import opened Authorizations
  import opened Invariant
  import opened Reconciliation
  import opened Handlers
  import opened LegacySteps
  import opened Rollback
  import opened Machine
  import opened Conservation
  import opened Batches

  // ---------------------------------------------------------------------------------------------
  // Frames

  ghost predicate Agree<K(!new), V(!new)>(m: map<K, V>, n: map<K, V>, k: K) {
    (k in m <==> k in n) && (k in m ==> m[k] == n[k])
  }

  /** The two states say the same about one operation under one authorization. */
  ghost predicate SameItem(before: Db, after: Db, a: Id, op: Id) {
    && Agree(before.payments, after.payments, op) && Agree(before.claims, after.claims, (a, op))
    && Agree(before.emissions, after.emissions, (a, op)) && Agree(before.resolutions, after.resolutions, op)
    && Agree(before.ledger, after.ledger, (op, DEBIT)) && Agree(before.ledger, after.ledger, (op, CREDIT))
  }

  /** What the validation of a grant's evidence reads besides the evidence. */
  ghost predicate SameCatalogue(before: Db, after: Db, a: Id) {
    && before.keys == after.keys && before.terminals == after.terminals && before.walletOf == after.walletOf
    && before.wallets.Keys == after.wallets.Keys
    && a in before.commitments && a in after.commitments && a in before.authorizations && a in after.authorizations
    && before.commitments[a].wallet == after.commitments[a].wallet
    && before.commitments[a].grant == after.commitments[a].grant
    && before.authorizations[a].wallet == after.authorizations[a].wallet
  }

  /** Nothing that concerns the batch has changed. */
  ghost predicate Untouched(before: Db, after: Db, a: Id, batch: Batch) {
    && (forall op | op in batch :: SameItem(before, after, a, op))
    && Agree(before.commitments, after.commitments, a) && Agree(before.authorizations, after.authorizations, a)
    && (forall k: (Id, Id) | k.0 == a :: Agree(before.claims, after.claims, k))
    && (Quiet(before, a, batch) ==> Quiet(after, a, batch))
  }

  lemma SameItemShown(before: Db, after: Db, issuer: Issuer, grant: Envelope, c: Context, presented: bool, acked: bool)
    requires SameItem(before, after, c.auth, c.op) && ItemShown(before, issuer, grant, c, presented, acked)
    ensures ItemShown(after, issuer, grant, c, presented, acked)
  {
    hide ResolutionOf, RowOf;
  }

  lemma UntouchedShows(before: Db, after: Db, start: Start, a: Id, batch: Batch, presented: set<Id>, acked: set<Id>)
    requires Coherent(a, batch) && Untouched(before, after, a, batch)
    requires Shows(before, start, a, batch, presented, acked)
    ensures Shows(after, start, a, batch, presented, acked)
  {
    hide ItemShown, Quiet, SameItem, Sum;
    forall op | op in batch
      ensures ItemShown(after, start.issuer, start.commitment.grant, batch[op], op in presented, op in acked)
    {
      SameItemShown(before, after, start.issuer, start.commitment.grant, batch[op], op in presented, op in acked);
    }
  }

  lemma SameCatalogueValidates(before: Db, after: Db, env: Env, grant: Envelope, c: Context)
    requires SameCatalogue(before, after, c.auth) && Validates(before, env, grant, c)
    ensures Validates(after, env, grant, c)
  {
    ValidatedParts(before, env, grant, c);
    hide ReceiptBound, AckBound, TrustedGrant, PosSigned, RequiresReview, Valid3;
  }

  lemma SameCatalogueStands(before: Db, after: Db, env: Env, start: Start, a: Id, batch: Batch)
    requires SameCatalogue(before, after, a) && Standing(before, env, start, a, batch)
    ensures Standing(after, env, start, a, batch)
  {
    hide SameCatalogue, Validates, Sum;
    forall op | op in batch
      ensures Validates(after, env, start.commitment.grant, batch[op])
    {
      SameCatalogueValidates(before, after, env, start.commitment.grant, batch[op]);
    }
  }

  // ---------------------------------------------------------------------------------------------
  // Submissions of the batch

  lemma HoldShowsItem(db: Db, start: Start, a: Id, batch: Batch, c: Context, presented: bool)
    requires ItemShown(db, start.issuer, start.commitment.grant, c, presented, false) && c.ack.Some?
    ensures c.receipt.message.body.Receipt?
    ensures ItemShown(HoldOn(db, Shape(c, false)), start.issuer, start.commitment.grant, c, true, false)
  {
    hide ResolutionOf;
  }

  lemma HoldLeavesOthers(db: Db, c: Context, op: Id)
    requires c.receipt.message.body.Receipt? && op != c.op
    ensures SameItem(db, HoldOn(db, c), c.auth, op)
  {
  }

  lemma HoldQuiet(db: Db, c: Context, a: Id, batch: Batch)
    requires c.receipt.message.body.Receipt? && c.op in batch && Quiet(db, a, batch)
    ensures Quiet(HoldOn(db, c), a, batch)
    ensures HoldOn(db, c).commitments == db.commitments && HoldOn(db, c).authorizations == db.authorizations
    ensures c.auth in db.commitments && c.auth in db.authorizations ==> SameCatalogue(db, HoldOn(db, c), c.auth)
  {
  }

  lemma ShowsParts(db: Db, start: Start, a: Id, batch: Batch, presented: set<Id>, acked: set<Id>)
    requires Shows(db, start, a, batch, presented, acked)
    ensures acked <= presented <= batch.Keys && Quiet(db, a, batch)
    ensures GrantShown(db, a, start.commitment, start.row, Sum(acked, AmountIn(batch)), |acked|)
    ensures forall op | op in batch ::
              ItemShown(db, start.issuer, start.commitment.grant, batch[op], op in presented, op in acked)
  {
    hide ItemShown, GrantShown, Quiet, Sum;
  }

  lemma ShowsBuild(db: Db, start: Start, a: Id, batch: Batch, presented: set<Id>, acked: set<Id>)
    requires acked <= presented <= batch.Keys && Quiet(db, a, batch)
    requires GrantShown(db, a, start.commitment, start.row, Sum(acked, AmountIn(batch)), |acked|)
    requires forall op | op in batch ::
               ItemShown(db, start.issuer, start.commitment.grant, batch[op], op in presented, op in acked)
    ensures Shows(db, start, a, batch, presented, acked)
  {
    hide ItemShown, GrantShown, Quiet, Sum;
  }

  lemma CoherentAt(a: Id, batch: Batch, op: Id)
    requires Coherent(a, batch) && op in batch
    ensures batch[op].op == op && batch[op].auth == a && batch[op].ack.Some?
    ensures batch[op].receipt.message.body.Receipt?
  {
  }

  lemma GrantKept(db: Db, after: Db, a: Id, c: Commitment, row: Authorization, amount: int, count: int)
    requires GrantShown(db, a, c, row, amount, count)
    requires after.commitments == db.commitments && after.authorizations == db.authorizations
    ensures GrantShown(after, a, c, row, amount, count)
    ensures a in db.commitments && a in db.authorizations
  {
  }

  lemma HoldShows(db: Db, start: Start, a: Id, batch: Batch, presented: set<Id>, acked: set<Id>, op: Id)
    requires Coherent(a, batch) && Shows(db, start, a, batch, presented, acked) && op in batch && op !in acked
    ensures Shape(batch[op], false).receipt.message.body.Receipt?
    ensures Shows(HoldOn(db, Shape(batch[op], false)), start, a, batch, presented + {op}, acked)
    ensures SameCatalogue(db, HoldOn(db, Shape(batch[op], false)), a)
  {
    hide *;
    var c, x := batch[op], Shape(batch[op], false);
    CoherentAt(a, batch, op);
    ShapeParts(c, false);
    ShowsParts(db, start, a, batch, presented, acked);
    HoldShowsItem(db, start, a, batch, c, op in presented);
    HoldQuiet(db, x, a, batch);
    var after := HoldOn(db, x);
    GrantKept(db, after, a, start.commitment, start.row, Sum(acked, AmountIn(batch)), |acked|);
    forall o | o in batch
      ensures ItemShown(after, start.issuer, start.commitment.grant, batch[o], o in presented + {op}, o in acked)
    {
      CoherentAt(a, batch, o);
      if o != op {
        HoldLeavesOthers(db, x, o);
        SameItemShown(db, after, start.issuer, start.commitment.grant, batch[o], o in presented, o in acked);
      }
    }
    ShowsBuild(after, start, a, batch, presented + {op}, acked);
  }

  lemma SettleShowsItem(db: Db, start: Start, c: Context, presented: bool)
    requires ItemShown(db, start.issuer, start.commitment.grant, c, presented, false) && c.ack.Some?
    requires Executable(db, Settle(c, start.issuer)) && db.commitments[c.auth].grant == start.commitment.grant
    ensures ItemShown(SettleOn(db, c, start.issuer), start.issuer, start.commitment.grant, c, true, true)
  {
    hide ResolutionOf, Credit, CreditUser, SpendCommitment;
    assert WithAck(db, c, Accepted) == RowOf(c, true);
  }

  lemma SettleLeavesOthers(db: Db, c: Context, issuer: Issuer, op: Id)
    requires Executable(db, Settle(c, issuer)) && op != c.op
    ensures SameItem(db, SettleOn(db, c, issuer), c.auth, op)
  {
    hide ResolutionOf, Credit, CreditUser, SpendCommitment, WithAck;
  }

  lemma SettleQuiet(db: Db, c: Context, issuer: Issuer, a: Id, batch: Batch)
    requires Executable(db, Settle(c, issuer)) && c.op in batch && Quiet(db, a, batch)
    ensures Quiet(SettleOn(db, c, issuer), a, batch)
  {
    hide ResolutionOf, Credit, CreditUser, SpendCommitment, WithAck;
  }

  lemma SettleSpends(db: Db, c: Context, issuer: Issuer)
    requires Executable(db, Settle(c, issuer))
    ensures
      var after, amount := SettleOn(db, c, issuer), c.Amount();
      var row := db.authorizations[c.auth];
      && c.auth in after.commitments && c.auth in after.authorizations
      && after.commitments[c.auth] == SpendCommitment(db.commitments[c.auth], amount)
      && after.authorizations[c.auth] == row.(remaining := row.remaining - amount, payments := row.payments - 1)
      && SameCatalogue(db, after, c.auth)
  {
    hide ResolutionOf, CreditUser, WithAck, RecordClaim;
  }

  lemma SpendShows(db: Db, after: Db, start: Start, a: Id, amount: int, count: int, paid: int)
    requires GrantShown(db, a, start.commitment, start.row, amount, count) && start.commitment.sealed.None?
    requires a in after.commitments && a in after.authorizations
    requires after.commitments[a] == SpendCommitment(db.commitments[a], paid)
    requires after.authorizations[a] == db.authorizations[a].(remaining := db.authorizations[a].remaining - paid,
                                                              payments := db.authorizations[a].payments - 1)
    ensures GrantShown(after, a, start.commitment, start.row, amount + paid, count + 1)
  {
  }

  lemma SettleShows(db: Db, start: Start, a: Id, batch: Batch, presented: set<Id>, acked: set<Id>, op: Id)
    requires Coherent(a, batch) && Shows(db, start, a, batch, presented, acked) && op in batch && op !in acked
    requires Executable(db, Settle(batch[op], start.issuer)) && start.commitment.sealed.None?
    ensures Shows(SettleOn(db, batch[op], start.issuer), start, a, batch, presented + {op}, acked + {op})
    ensures SameCatalogue(db, SettleOn(db, batch[op], start.issuer), a)
  {
    hide *;
    var c := batch[op];
    ExecutableParts(db, c, start.issuer);
    var after := SettleOn(db, c, start.issuer);
    CoherentAt(a, batch, op);
    ShowsParts(db, start, a, batch, presented, acked);
    StillCovered(a, batch, acked, op);
    SettleSpends(db, c, start.issuer);
    SettleQuiet(db, c, start.issuer, a, batch);
    SpendShows(db, after, start, a, Sum(acked, AmountIn(batch)), |acked|, c.Amount());
    assert |acked + {op}| == |acked| + 1;
    GrantOf(db, start, a, Sum(acked, AmountIn(batch)), |acked|);
    SettleShowsItem(db, start, c, op in presented);
    forall o | o in batch
      ensures ItemShown(after, start.issuer, start.commitment.grant, batch[o], o in presented + {op}, o in acked + {op})
    {
      CoherentAt(a, batch, o);
      if o != op {
        SettleLeavesOthers(db, c, start.issuer, o);
        SameItemShown(db, after, start.issuer, start.commitment.grant, batch[o], o in presented, o in acked);
      }
    }
    ShowsBuild(after, start, a, batch, presented + {op}, acked + {op});
  }

  lemma ExecutableParts(db: Db, c: Context, issuer: Issuer)
    requires Executable(db, Settle(c, issuer))
    ensures c.receipt.message.body.Receipt? && c.auth in db.authorizations && c.auth in db.commitments
    ensures c.wallet in db.wallets && c.merchantWallet in db.wallets
  {
  }

  lemma GrantOf(db: Db, start: Start, a: Id, amount: int, count: int)
    requires GrantShown(db, a, start.commitment, start.row, amount, count)
    ensures a in db.commitments && db.commitments[a].grant == start.commitment.grant
  {
  }

  /** An accepted payment submitted again changes nothing. */
  lemma RepeatIsIdle(db: Db, env: Env, user: Id, start: Start, c: Context, acked: bool)
    requires Validates(db, env, start.commitment.grant, c) && c.receipt.message.body.Receipt? && c.Common().op == c.op
    requires ItemShown(db, start.issuer, start.commitment.grant, c, true, true)
    ensures Perform(db, Refuse(Forbidden)) == db
    ensures Judge(db, env, user, EvidenceOf(c, start.commitment.grant, acked)).Refuse?
  {
    Presented(db, env, user, start.commitment.grant, c, acked);
    FinalIsRefused(db, env, user, start, c, acked);
  }

  lemma FinalIsRefused(db: Db, env: Env, user: Id, start: Start, c: Context, acked: bool)
    requires Validates(db, env, start.commitment.grant, c) && c.receipt.message.body.Receipt?
    requires ItemShown(db, start.issuer, start.commitment.grant, c, true, true)
    ensures c.ack.Some?
    ensures JudgeParsed(db, env, user, c.op, c.request, start.commitment.grant, c.receipt,
                        if acked then Some(Wire(c.ack.value)) else None).Refuse?
  {
    hide Validate, JudgeBound, Authorized, ResolutionOf, ReceiptBound, AckBound;
  }

  /** One submission of a batch payment, with or without its acknowledgement, by either party. */
  lemma PresentShows(db: Db, opening: map<Id, int>, env: Env, start: Start, a: Id, batch: Batch, presented: set<Id>,
                     acked: set<Id>, op: Id, withAck: bool, user: Id)
    requires Inv(db, opening) && Standing(db, env, start, a, batch) && Shows(db, start, a, batch, presented, acked)
    requires op in batch && Party(db, batch[op], user)
    ensures batch[op].ack.Some?
    ensures
      var after := Sync(db, env, user, EvidenceOf(batch[op], start.commitment.grant, withAck));
      && Shows(after, start, a, batch, presented + {op}, if withAck then acked + {op} else acked)
      && SameCatalogue(db, after, a)
  {
    hide *;
    StandingParts(db, env, start, a, batch, op);
    ShownParts(db, start, a, batch, presented, acked, op);
    var grant := start.commitment.grant;
    var ev := EvidenceOf(batch[op], grant, withAck);
    SyncKeepsInv(db, opening, env, user, ev);
    if op in acked {
      RepeatIsIdle(db, env, user, start, batch[op], withAck);
      RefusedIsIdle(db, env, user, ev);
      SameCatalogueReflexive(db, a);
      assert presented + {op} == presented && acked + {op} == acked;
    } else {
      Outcome(db, opening, env, start, a, batch, presented, acked, op, withAck, user);
      if withAck {
        SettledIs(db, env, user, ev, batch[op], start.issuer);
        SettleShows(db, start, a, batch, presented, acked, op);
      } else {
        HeldIs(db, env, user, ev, Shape(batch[op], false));
        HoldShows(db, start, a, batch, presented, acked, op);
      }
    }
  }

  lemma SameCatalogueReflexive(db: Db, a: Id)
    requires a in db.commitments && a in db.authorizations
    ensures SameCatalogue(db, db, a)
  {
  }

  lemma RefusedIsIdle(db: Db, env: Env, user: Id, ev: Evidence)
    requires Judge(db, env, user, ev).Refuse?
    ensures Sync(db, env, user, ev) == db
  {
    hide Judge;
  }

  lemma SettledIs(db: Db, env: Env, user: Id, ev: Evidence, c: Context, issuer: Issuer)
    requires Judge(db, env, user, ev) == Settle(c, issuer) && Executable(db, Judge(db, env, user, ev))
    ensures Executable(db, Settle(c, issuer)) && Sync(db, env, user, ev) == SettleOn(db, c, issuer)
  {
    hide Judge, SettleOn, Executable;
  }

  lemma HeldIs(db: Db, env: Env, user: Id, ev: Evidence, c: Context)
    requires Judge(db, env, user, ev) == Hold(c) && Executable(db, Judge(db, env, user, ev))
    ensures c.receipt.message.body.Receipt? && Sync(db, env, user, ev) == HoldOn(db, c)
  {
    hide Judge, HoldOn;
  }

  // ---------------------------------------------------------------------------------------------
  // Everything else

  predicate NonceInBatch(batch: Batch, nonce: nat) {
    exists op | op in batch :: batch[op].receipt.message.body.Receipt? && batch[op].Common().nonce == nonce
  }

  /** A step of somebody else: other operations, other nonces, another authorization, and no catalogue change that
    withdraws what vouches for the batch. Issuance, top-ups and stored resolutions are always such steps. */
  ghost predicate Elsewhere(db: Db, env: Env, grant: Envelope, s: Step, a: Id, batch: Batch) {
    match s
    case SubmitStep(_, _, ev) =>
      && ev.op !in batch
      && (ev.receipt.Wire? && ev.receipt.envelope.message.body.Receipt? ==>
            && ev.receipt.envelope.message.body.auth != a
            && !NonceInBatch(batch, ev.receipt.envelope.message.body.common.nonce))
    case ReparkStep(ctx) =>
      && ctx.op !in batch && ctx.auth != a
      && (ctx.receipt.message.body.Receipt? ==> !NonceInBatch(batch, ctx.Common().nonce))
    case SubmitLegacyStep(_, ev) =>
      && ev.op !in batch
      && (ev.request.Wire? && ev.request.envelope.message.body.Request? ==>
            !NonceInBatch(batch, ev.request.envelope.message.body.common.nonce))
    case LegacyReparkStep(ctx) =>
      && ctx.op !in batch
      && (ctx.request.message.body.Request? ==> !NonceInBatch(batch, ctx.request.message.body.common.nonce))
    case IssueStep(_, _, _, _, _, _) => true
    case CloseStep(_, _, auth, _, _) => auth != a
    case TopUpStep(_, _, _) => true
    case StoreStep(_, _, _, _) => true
    case CatalogueStep(_, _, _) => forall op | op in batch :: Validates(Next(db, s), env, grant, batch[op])
  }

  /** Same rows, and every payment row that is new or changed elsewhere brings no nonce of the batch. */
  lemma UntouchedByRow(before: Db, after: Db, a: Id, batch: Batch, op: Id, auth: Id)
    requires op !in batch && auth != a
    requires forall o | o != op :: Agree(before.payments, after.payments, o)
    requires forall k: (Id, Id) | k.0 != auth ::
               Agree(before.claims, after.claims, k) && Agree(before.emissions, after.emissions, k)
    requires forall o | o != op :: Agree(before.resolutions, after.resolutions, o)
    requires forall k: (Id, EntryType) | k.0 != op :: Agree(before.ledger, after.ledger, k)
    requires Agree(before.commitments, after.commitments, a) && Agree(before.authorizations, after.authorizations, a)
    requires op in after.payments ==>
               || (op in before.payments && before.payments[op].nonce == after.payments[op].nonce)
               || !NonceInBatch(batch, after.payments[op].nonce)
    ensures Untouched(before, after, a, batch)
  {
    forall o | o in batch
      ensures SameItem(before, after, a, o)
    {
    }
    if Quiet(before, a, batch) {
      forall o, b | o in after.payments && o !in batch && b in batch && batch[b].receipt.message.body.Receipt?
        ensures after.payments[o].nonce != batch[b].Common().nonce
      {
        if o != op {
          assert Agree(before.payments, after.payments, o);
        }
      }
      forall k, b | k in after.claims && k.0 == a && k.1 !in batch && b in batch && batch[b].receipt.message.body.Receipt?
        ensures after.claims[k].index != batch[b].Claim().index
      {
        assert Agree(before.claims, after.claims, k);
      }
    }
  }
}
