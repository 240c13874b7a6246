/** What issuance gives: exactly when, how much, and under which signed terms. */
module IssuanceTerms {
  import opened Messages
  import opened Database
  import opened Sums
  import opened SyncV3
  import opened Authorizations
  import opened Invariant
  import opened Handlers

  /** Cents of the wallet that no authorization holds. */
  ghost function Free(db: Db, w: Id): int
    requires w in db.wallets
  {
    db.wallets[w].balance - Held(db.commitments, w) - Legacy(db.authorizations, db.commitments.Keys, w)
  }

  /** Everything a new request has to be to get an authorization under this identifier. */
  ghost predicate Grantable(db: Db, env: Env, user: Id, r: IssueRequest, now: int, id: Id) {
    && r.wallet in db.wallets && db.wallets[r.wallet].owner == user && !db.wallets[r.wallet].review
    && 1 <= r.maxPayment <= env.maxPaymentCents && 1 <= r.maxPayments <= env.maxOfflinePayments
    && r.maxPayment * r.maxPayments <= MAX_INT64
    && r.walletKey in db.keys && !db.keys[r.walletKey].revoked && db.keys[r.walletKey].purpose == WalletKey(r.wallet)
    && db.keys[r.walletKey].fingerprint == OfKey(db.keys[r.walletKey].publicKey)
    && env.issuer.Some? && env.authorizationSeconds > 0
    && Free(db, r.wallet) > 0
    && id !in db.authorizations && id !in db.commitments
  }

  /** The signed terms are the request's, for this total, from now on, by the active issuer. */
  predicate GrantNames(db: Db, env: Env, r: IssueRequest, now: int, id: Id, total: int, grant: Envelope)
    requires r.walletKey in db.keys && env.issuer.Some?
  {
    && grant.message.version == 3 && grant.message.body.Grant?
    && var g, key := grant.message.body, db.keys[r.walletKey];
    && g.auth == id && g.wallet == r.wallet && g.walletKey == r.walletKey
    && g.walletFingerprint == key.fingerprint && g.walletPublicKey == key.publicKey
    && g.maxPayment == r.maxPayment && g.maxPayments == r.maxPayments && g.total == total
    && g.maxLifetime == 120 && g.grantedAt == now && g.spendExpiresAt == now + env.authorizationSeconds
    && g.issuerKey == env.issuer.value.keyId && g.issuerFingerprint == OfKey(env.issuer.value.publicKey)
    && grant.signature == Signature(env.issuer.value.publicKey, grant.message)
  }

  /** One reservation was added, and nothing else changed. */
  predicate OnlyReserves(db: Db, after: Db, r: IssueRequest, now: int, until: int, id: Id, total: int, grant: Envelope) {
    && after == db.(authorizations := after.authorizations, commitments := after.commitments, issuedFor := after.issuedFor)
    && after.issuedFor == db.issuedFor[r.requestId := id]
    && id in after.authorizations && after.authorizations == db.authorizations[id := after.authorizations[id]]
    && id in after.commitments && after.commitments == db.commitments[id := after.commitments[id]]
    && var row, c := after.authorizations[id], after.commitments[id];
    && row.wallet == r.wallet && row.walletKey == r.walletKey && row.maxPayment == r.maxPayment && row.active
    && row.issuedAt == now && row.expiresAt == until && row.remaining == total && row.payments == r.maxPayments
    && c.wallet == r.wallet && c.reserved == total && c.held == total && c.grant == grant && c.phase == OPEN && c.sealed == None
    && c.emitted == 0 && c.count == 0 && c.unissued == 0 && c.rejected == 0
  }

  lemma ReserveOnly(db: Db, r: IssueRequest, id: Id, total: int, now: int, until: int, grant: Envelope)
    ensures OnlyReserves(db, Reserve(db, r, id, total, now, until, grant), r, now, until, id, total, grant)
  {
  }

  /** What a reservation takes is no longer free. */
  lemma ReserveTakes(db: Db, after: Db, r: IssueRequest, now: int, until: int, id: Id, total: int, grant: Envelope)
    requires OnlyReserves(db, after, r, now, until, id, total, grant)
    requires id !in db.authorizations && id !in db.commitments && r.wallet in db.wallets
    ensures r.wallet in after.wallets && Free(after, r.wallet) == Free(db, r.wallet) - total
  {
    hide Sum;
    var w := r.wallet;
    assert after.commitments.Keys == db.commitments.Keys + {id} && after.authorizations.Keys == db.authorizations.Keys + {id};
    SumSet(db.commitments.Keys, HeldBy(db.commitments, w), HeldBy(after.commitments, w), id);
    SumSet(db.authorizations.Keys, LegacyBy(db.authorizations, db.commitments.Keys, w),
           LegacyBy(after.authorizations, after.commitments.Keys, w), id);
  }

  lemma ProductIsPositive(a: int, b: int)
    requires a >= 1 && b >= 1
    ensures a * b >= 1
  {
  }

  lemma LargestTotal(db: Db, r: IssueRequest)
    requires r.wallet in db.wallets && Free(db, r.wallet) > 0 && r.maxPayment * r.maxPayments >= 1
    ensures
      var total := Min(Available(db, r.wallet), r.maxPayment * r.maxPayments);
      && 1 <= total <= Free(db, r.wallet) && total <= r.maxPayment * r.maxPayments
      && (total == r.maxPayment * r.maxPayments || total == Free(db, r.wallet))
  {
    hide Held, Legacy;
  }

  lemma NothingFree(db: Db, r: IssueRequest)
    requires r.wallet in db.wallets && Free(db, r.wallet) <= 0
    ensures Min(Available(db, r.wallet), r.maxPayment * r.maxPayments) <= 0
  {
    hide Held, Legacy;
  }

  /** The terms of a grantable request are valid and name it. */
  lemma TermsAreValid(db: Db, env: Env, r: IssueRequest, now: int, id: Id, total: int)
    requires r.walletKey in db.keys && env.issuer.Some? && r.maxPayment * r.maxPayments <= MAX_INT64
    requires 1 <= total <= r.maxPayment * r.maxPayments
    ensures
      var body := GrantFor(env, r, db.keys[r.walletKey], env.issuer.value, total, now, id);
      && (Valid3(body) <==>
            && 1 <= r.maxPayment && 1 <= r.maxPayments && env.authorizationSeconds > 0
            && db.keys[r.walletKey].fingerprint == OfKey(db.keys[r.walletKey].publicKey))
      && GrantNames(db, env, r, now, id, total, Sign(body, env.issuer.value.publicKey))
  {
    Factors(r.maxPayment, r.maxPayments);
  }

  lemma Factors(a: int, b: int)
    requires 1 <= a * b <= MAX_INT64
    ensures 1 <= a && 1 <= b ==> a <= MAX_INT64 && b <= MAX_INT64
  {
    if 1 <= a && 1 <= b {
      assert a * b >= a && a * b >= b;
    }
  }

  /** A new request is granted exactly when it is grantable. It then gets all it asked for, or all that was free: the
    reservation is never smaller than it has to be. */
  lemma GrantedIff(db: Db, env: Env, user: Id, r: IssueRequest, now: int, id: Id, stale: bool)
    requires r.requestId !in db.issuedFor
    ensures
      var (after, reply) := Issue(db, env, user, r, now, id, stale);
      && (reply.Issued? <==> Grantable(db, env, user, r, now, id))
      && (!reply.Issued? ==> after == db)
      && (reply.Issued? ==>
            && var total := reply.total;
            && reply.auth == id && GrantNames(db, env, r, now, id, total, reply.grant)
            && OnlyReserves(db, after, r, now, now + env.authorizationSeconds, id, total, reply.grant)
            && 1 <= total <= r.maxPayment * r.maxPayments
            && (total == r.maxPayment * r.maxPayments || Free(after, r.wallet) == 0))
  {
    hide Available, Reserve, Free, GrantFor, Valid3, Repeat, GrantNames, OnlyReserves, Sign;
    if (&& r.wallet in db.wallets && db.wallets[r.wallet].owner == user && r.walletKey in db.keys && env.issuer.Some?
        && r.maxPayment * r.maxPayments <= MAX_INT64) {
      var total := Min(Available(db, r.wallet), r.maxPayment * r.maxPayments);
      hide Min;
      PositiveTotal(db, r);
      if total >= 1 {
        TermsAreValid(db, env, r, now, id, total);
        var body := GrantFor(env, r, db.keys[r.walletKey], env.issuer.value, total, now, id);
        var grant := Sign(body, env.issuer.value.publicKey);
        ReserveOnly(db, r, id, total, now, now + env.authorizationSeconds, grant);
        if id !in db.authorizations && id !in db.commitments {
          ReserveTakes(db, Reserve(db, r, id, total, now, now + env.authorizationSeconds, grant), r, now,
                       now + env.authorizationSeconds, id, total, grant);
        }
      }
    }
  }

  /** What is reserved is positive exactly when something is free and something is asked. */
  lemma PositiveTotal(db: Db, r: IssueRequest)
    requires r.wallet in db.wallets
    ensures
      var total := Min(Available(db, r.wallet), r.maxPayment * r.maxPayments);
      && (total >= 1 <==> Free(db, r.wallet) > 0 && r.maxPayment * r.maxPayments >= 1)
      && (total >= 1 ==> total <= r.maxPayment * r.maxPayments && total <= Free(db, r.wallet)
                         && (total == r.maxPayment * r.maxPayments || total == Free(db, r.wallet)))
      && (1 <= r.maxPayment && 1 <= r.maxPayments ==> r.maxPayment * r.maxPayments >= 1)
  {
    if 1 <= r.maxPayment && 1 <= r.maxPayments {
      ProductIsPositive(r.maxPayment, r.maxPayments);
    }
    if Free(db, r.wallet) > 0 && r.maxPayment * r.maxPayments >= 1 {
      LargestTotal(db, r);
    }
    if Free(db, r.wallet) <= 0 {
      NothingFree(db, r);
    }
    hide Available, Free;
  }

  /** A known request id changes nothing, and is answered with its authorization exactly when it asks for the same. */
  lemma KnownIff(db: Db, opening: map<Id, int>, env: Env, user: Id, r: IssueRequest, now: int, id: Id)
    requires Inv(db, opening) && r.requestId in db.issuedFor
    ensures db.issuedFor[r.requestId] in db.commitments && db.issuedFor[r.requestId] in db.authorizations
    ensures db.commitments[db.issuedFor[r.requestId]].grant.message.body.Grant?
    ensures
      var (after, reply) := Issue(db, env, user, r, now, id, false);
      var known := db.issuedFor[r.requestId];
      var c, row := db.commitments[known], db.authorizations[known];
      var g := c.grant.message.body;
      && after == db
      && (reply == Issued(known, c.reserved, c.grant) <==>
            && r.wallet in db.wallets && db.wallets[r.wallet].owner == user
            && row.wallet == r.wallet == g.wallet && row.walletKey == r.walletKey == g.walletKey
            && row.maxPayment == r.maxPayment == g.maxPayment && r.maxPayments == g.maxPayments)
      && (reply == Issued(known, c.reserved, c.grant) || reply == NotYours || reply == RequestReused)
  {
    assert CommitmentsOk(db.commitments, db.authorizations) && RequestsOk(db.issuedFor, db.commitments) by {
      hide *;
      InvParts(db, opening);
    }
    hide Inv, Available, Reserve, Valid3;
    assert CommitmentOk(db.issuedFor[r.requestId], db.commitments[db.issuedFor[r.requestId]],
                        db.authorizations[db.issuedFor[r.requestId]]);
  }

  /** A new top-up credits its wallet exactly once with exactly its amount, or is refused; a known one credits nothing. */
  lemma CreditedIff(db: Db, opening: map<Id, int>, user: Id, r: TopupRequest, stale: bool)
    requires Inv(db, opening)
    ensures
      var (after, reply) := TopUp(db, user, r, stale);
      && (r.requestId !in db.topups ==>
            (reply.Confirmed? <==> 1 <= r.amount <= 100_000_000 && r.wallet in db.wallets && db.wallets[r.wallet].owner == user))
      && (r.requestId !in db.topups && reply.Confirmed? ==>
            && after == db.(topups := after.topups, wallets := after.wallets, saldo := after.saldo)
            && after.topups == db.topups[r.requestId := Topup(r.wallet, user, r.amount)]
            && after.wallets == db.wallets[r.wallet := db.wallets[r.wallet].(balance := db.wallets[r.wallet].balance + r.amount)]
            && reply == Confirmed(r.wallet, r.amount, db.wallets[r.wallet].balance + r.amount)
            && user in db.saldo && user in after.saldo && 100.0 * after.saldo[user] == 100.0 * db.saldo[user] + r.amount as real)
      && (r.requestId in db.topups || !reply.Confirmed? ==> after == db)
      && (r.requestId in db.topups && reply.Confirmed? ==>
            && db.topups[r.requestId] == Topup(r.wallet, user, r.amount) && r.wallet in db.wallets
            && reply == Confirmed(r.wallet, r.amount, db.wallets[r.wallet].balance))
  {
    assert WalletsOk(db.wallets, db.walletOf, db.saldo) by {
      hide *;
      InvParts(db, opening);
    }
    hide Inv;
  }
}
