/** When a settlement goes through: the guards of the three conditional updates are worth one comparison. */
module Guards {
  import opened Messages
  import opened Database
  import opened Sums
  import opened SyncV3
  import opened Authorizations
  import opened Invariant
  import opened Rows
  import opened Steps

  lemma EmissionFacts(emissions: map<(Id, Id), Emission>, payments: map<Id, Payment>, commitments: map<Id, Commitment>,
                      authorizations: map<Id, Authorization>, k: (Id, Id))
    requires EmissionsOk(emissions, payments, commitments.Keys) && PaymentsOk(payments, commitments, authorizations)
    requires k in emissions && CommitmentsOk(commitments, authorizations)
    ensures k.0 in commitments && commitments[k.0].grant.message.body.Grant?
    ensures 1 <= emissions[k].index <= commitments[k.0].grant.message.body.maxPayments
  {
    hide AckBound;
    assert PaymentOk(k.1, payments[k.1], commitments[k.0]);
  }

  lemma IndexInGrant(db: Db, ctx: Context)
    requires Bound(db, ctx)
    ensures ctx.receipt.message.body.Receipt? && ctx.auth in db.commitments
    ensures db.commitments[ctx.auth].grant.message.body.Grant?
    ensures 1 <= ctx.receipt.message.body.index <= db.commitments[ctx.auth].grant.message.body.maxPayments
  {
    hide AckBound, NonceTaken;
  }

  lemma NotYetEmitted(db: Db, ctx: Context)
    requires Bound(db, ctx) && EmissionsOk(db.emissions, db.payments, db.commitments.Keys)
    ensures (ctx.auth, ctx.op) !in EmissionsOf(db.emissions, ctx.auth)
    ensures forall k | k in EmissionsOf(db.emissions, ctx.auth) :: k in db.emissions && k.0 == ctx.auth
  {
    hide ReceiptBound, AckBound, NonceTaken;
  }

  lemma CountOf(db: Db, a: Id)
    requires CountersOk(db.commitments, db.emissions, db.payments) && CommitmentsOk(db.commitments, db.authorizations)
    requires a in db.commitments
    ensures a in db.authorizations && db.commitments[a].grant.message.body.Grant?
    ensures db.authorizations[a].payments ==
            db.commitments[a].grant.message.body.maxPayments - |EmissionsOf(db.emissions, a)|
  {
    hide Sum, EmittedBy, PaidBy, EmissionsOf, Proper;
    assert CounterOk(a, db.commitments[a], db.emissions, db.payments);
    assert CommitmentOk(a, db.commitments[a], db.authorizations[a]);
  }

  /** The index a key of the emissions stands for, with one pending settlement added. */
  ghost function IndexWith(emissions: map<(Id, Id), Emission>, mine: (Id, Id), index: int): ((Id, Id)) -> int {
    (k: (Id, Id)) => if k == mine || k !in emissions then index else emissions[k].index
  }

  lemma DistinctIndices(db: Db, ctx: Context)
    requires EmissionsOk(db.emissions, db.payments, db.commitments.Keys)
    requires ctx.receipt.message.body.Receipt? && !EmittedByOther(db, ctx)
    ensures var index := IndexWith(db.emissions, (ctx.auth, ctx.op), ctx.receipt.message.body.index);
            forall k, l | k in EmissionsOf(db.emissions, ctx.auth) + {(ctx.auth, ctx.op)}
                          && l in EmissionsOf(db.emissions, ctx.auth) + {(ctx.auth, ctx.op)} && k != l ::
              index(k) != index(l)
  {
  }

  lemma IndexWithAt(emissions: map<(Id, Id), Emission>, mine: (Id, Id), index: int, k: (Id, Id))
    ensures IndexWith(emissions, mine, index)(k) == if k == mine || k !in emissions then index else emissions[k].index
  {
  }

  /** Distinct emitted indices within the grant leave a payment for every fresh index. */
  lemma FreshIndexHasPayment(db: Db, ctx: Context)
    requires EmissionsOk(db.emissions, db.payments, db.commitments.Keys)
    requires PaymentsOk(db.payments, db.commitments, db.authorizations)
    requires CommitmentsOk(db.commitments, db.authorizations)
    requires CountersOk(db.commitments, db.emissions, db.payments)
    requires Bound(db, ctx) && !EmittedByOther(db, ctx)
    ensures ctx.auth in db.authorizations && db.authorizations[ctx.auth].payments > 0
  {
    hide *;
    IndexInGrant(db, ctx);
    NotYetEmitted(db, ctx);
    CountOf(db, ctx.auth);
    DistinctIndices(db, ctx);
    var mine, used := (ctx.auth, ctx.op), EmissionsOf(db.emissions, ctx.auth);
    var index := IndexWith(db.emissions, mine, ctx.receipt.message.body.index);
    var max := db.commitments[ctx.auth].grant.message.body.maxPayments;
    forall k | k in used + {mine}
      ensures 1 <= index(k) <= max
    {
      IndexWithAt(db.emissions, mine, ctx.receipt.message.body.index, k);
      if k != mine {
        EmissionFacts(db.emissions, db.payments, db.commitments, db.authorizations, k);
      }
    }
    Pigeonhole(used + {mine}, index, max);
    assert |used + {mine}| == |used| + 1;
  }

  lemma HeldAtLeast(commitments: map<Id, Commitment>, authorizations: map<Id, Authorization>, a: Id)
    requires CommitmentsOk(commitments, authorizations) && a in commitments
    ensures commitments[a].held <= Held(commitments, commitments[a].wallet)
  {
    hide Sum, Proper;
    SumBounds(commitments.Keys, HeldBy(commitments, commitments[a].wallet), a);
  }

  lemma LegacyAtLeast(authorizations: map<Id, Authorization>, v3: set<Id>, wallets: map<Id, Wallet>, w: Id)
    requires AuthorizationsOk(authorizations, wallets)
    ensures 0 <= Legacy(authorizations, v3, w)
  {
    hide Sum;
    SumNonNegative(authorizations.Keys, LegacyBy(authorizations, v3, w));
  }

  /** What one commitment holds, its wallet has. */
  lemma HeldIsCovered(db: Db, a: Id)
    requires Solvent(db.wallets, db.commitments, db.authorizations)
    requires CommitmentsOk(db.commitments, db.authorizations) && AuthorizationsOk(db.authorizations, db.wallets)
    requires a in db.commitments
    ensures db.commitments[a].wallet in db.wallets
    ensures db.commitments[a].held <= db.wallets[db.commitments[a].wallet].balance
  {
    var w := db.commitments[a].wallet;
    HeldAtLeast(db.commitments, db.authorizations, a);
    LegacyAtLeast(db.authorizations, db.commitments.Keys, db.wallets, w);
    hide Held, Legacy, Proper;
    assert db.authorizations[a].wallet == w;
  }

  /** In every state the invariant allows, bound evidence on an index nobody else settled passes the three
    conditional updates exactly when its amount is still held. */
  lemma GuardsAreHeld(db: Db, opening: map<Id, int>, ctx: Context)
    requires Inv(db, opening) && Bound(db, ctx) && !EmittedByOther(db, ctx)
    ensures GuardsPass(db, ctx) <==> ctx.Amount() <= db.commitments[ctx.auth].held
  {
    assert CommitmentsOk(db.commitments, db.authorizations) && ctx.receipt.message.body.Receipt?
           && ctx.auth in db.commitments && ctx.auth in db.authorizations && ctx.wallet in db.wallets
           && db.commitments[ctx.auth].wallet == ctx.wallet
           && db.commitments[ctx.auth].held <= db.wallets[ctx.wallet].balance
           && db.authorizations[ctx.auth].payments > 0 by {
      hide *;
      InvParts(db, opening);
      BoundParts(db, ctx);
      HeldIsCovered(db, ctx.auth);
      FreshIndexHasPayment(db, ctx);
    }
    hide Inv, Bound, EmittedByOther, Proper;
    assert CommitmentOk(ctx.auth, db.commitments[ctx.auth], db.authorizations[ctx.auth]);
  }

  /** A used index or an inserted row is always visible as a claim conflict or a final payment. */
  lemma NothingElseBlocks(db: Db, opening: map<Id, int>, ctx: Context)
    requires Inv(db, opening) && Bound(db, ctx) && !ClaimConflict(db.claims, ctx.auth, ctx.op, ctx.Claim())
    ensures !EmittedByOther(db, ctx) && !SettlementRowsTaken(db, ctx)
  {
    assert EmissionsOk(db.emissions, db.payments, db.commitments.Keys)
           && ClaimsOk(db.claims, db.payments, db.commitments.Keys)
           && LedgerOk(db.ledger, db.payments, db.wallets)
           && ResolutionsOk(db.resolutions, db.payments, db.commitments.Keys) by {
      hide *;
      InvParts(db, opening);
    }
    hide Inv, ReceiptBound, AckBound, NonceTaken;
  }

  /** Exactly which bound evidence settles. */
  ghost predicate Settles(db: Db, env: Env, ctx: Context)
    requires ctx.receipt.message.body.Receipt? && ctx.auth in db.commitments
  {
    && env.issuer.Some? && ctx.ack.Some? && !ctx.review
    && (ctx.op in db.payments ==> !db.payments[ctx.op].state.PendingReview?)
    && !ClaimConflict(db.claims, ctx.auth, ctx.op, ctx.Claim())
    && (db.commitments[ctx.auth].Closed() ==>
          && ctx.op in db.payments
          && InManifest(db.commitments[ctx.auth].sealed.value.entries, ctx.op, ctx.Claim()))
    && ctx.Amount() <= db.commitments[ctx.auth].held
  }

  /** Bound evidence settles if and only if it is acknowledged, free of review and of index conflict, listed
    when the authorization is closed, and covered by what is held; no other guard can stop it. */
  lemma SettlesIff(db: Db, opening: map<Id, int>, env: Env, user: Id, ctx: Context)
    requires Inv(db, opening) && Bound(db, ctx)
    ensures ctx.receipt.message.body.Receipt? && ctx.auth in db.commitments
    ensures JudgeBound(db, env, user, ctx).Settle? <==> Settles(db, env, ctx)
  {
    hide Inv, Bound, ClaimConflict, GuardsPass, EmittedByOther, SettlementRowsTaken, InManifest, NonceTaken;
    Unblocked(db, opening, ctx);
  }

  lemma Unblocked(db: Db, opening: map<Id, int>, ctx: Context)
    requires Inv(db, opening) && Bound(db, ctx)
    ensures ctx.receipt.message.body.Receipt? && ctx.auth in db.commitments
    ensures ctx.op in db.payments || !NonceTaken(db, ctx.Common().nonce)
    ensures !ClaimConflict(db.claims, ctx.auth, ctx.op, ctx.Claim()) ==>
              && !EmittedByOther(db, ctx) && !SettlementRowsTaken(db, ctx)
              && (GuardsPass(db, ctx) <==> ctx.Amount() <= db.commitments[ctx.auth].held)
  {
    BoundParts(db, ctx);
    BoundNonce(db, ctx);
    hide Inv, Bound, ClaimConflict, GuardsPass, EmittedByOther, SettlementRowsTaken, NonceTaken;
    if !ClaimConflict(db.claims, ctx.auth, ctx.op, ctx.Claim()) {
      NothingElseBlocks(db, opening, ctx);
      GuardsAreHeld(db, opening, ctx);
    }
  }

  lemma BoundNonce(db: Db, ctx: Context)
    requires Bound(db, ctx)
    ensures ctx.receipt.message.body.Receipt?
    ensures ctx.op in db.payments || !NonceTaken(db, ctx.Common().nonce)
  {
    hide NonceTaken, AckBound;
  }

  /** The accounting refusal means one thing: less is held than the payment needs. */
  lemma InsufficientMeansNotHeld(db: Db, opening: map<Id, int>, env: Env, user: Id, ctx: Context)
    requires Inv(db, opening) && Bound(db, ctx)
    ensures ctx.receipt.message.body.Receipt? && ctx.auth in db.commitments
    ensures var v := JudgeBound(db, env, user, ctx);
            v.Park? && v.reply.Reply? && v.reply.detail == Review(Insufficient) ==>
              ctx.Amount() > db.commitments[ctx.auth].held
  {
    hide Inv, Bound, ClaimConflict, GuardsPass, EmittedByOther, SettlementRowsTaken, InManifest, NonceTaken;
    Unblocked(db, opening, ctx);
  }
}
