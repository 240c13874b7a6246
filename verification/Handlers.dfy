/** Issuance, closure, top-up and resolution storage keep the invariant. */
module Handlers {
  import opened Messages
  import opened Database
  import opened Sums
  import opened SyncV3
  import opened Authorizations
  import opened Invariant
  import opened Rows
  import opened Steps

  lemma FlagKeepsInv(db: Db, opening: map<Id, int>, w: Id)
    requires Inv(db, opening)
    ensures Inv(db.(wallets := Flag(db.wallets, w, true)), opening)
  {
    hide *;
    InvParts(db, opening);
    var wallets := Flag(db.wallets, w, true);
    RecordParts(map[], 0, 0, Claim(0, 0, Other(0)), db.wallets, w, true);
    FlagWallets(db.wallets, db.walletOf, db.saldo, w, true);
    FlagBalances(opening, db.wallets, db.topups, db.ledger, w, true);
    FlagSolvent(db.wallets, db.commitments, db.authorizations, w, true);
    FlagsFrame(db.claims, db.commitments, db.commitments, db.wallets, wallets);
    LedgerFrame(db.ledger, db.payments, db.wallets, wallets);
    InvBuild(db.(wallets := wallets), opening);
  }

  lemma TopupBalances(opening: map<Id, int>, wallets: map<Id, Wallet>, topups: map<Id, Topup>,
                      ledger: map<(Id, EntryType), LedgerEntry>, r: Id, t: Topup)
    requires BalancesOk(opening, wallets, topups, ledger) && r !in topups && t.wallet in wallets
    ensures BalancesOk(opening, Credit(wallets, t.wallet, t.amount), topups[r := t], ledger)
  {
    hide Sum, LedgerBy;
    assert topups[r := t].Keys == topups.Keys + {r};
    forall w | w in wallets
      ensures Sum(topups[r := t].Keys, TopupBy(topups[r := t], w)) ==
              Sum(topups.Keys, TopupBy(topups, w)) + if w == t.wallet then t.amount else 0
    {
      SumSet(topups.Keys, TopupBy(topups, w), TopupBy(topups[r := t], w), r);
    }
  }

  lemma CreditWallets(wallets: map<Id, Wallet>, walletOf: map<Id, Id>, saldo: map<Id, real>, w: Id, amount: int)
    requires WalletsOk(wallets, walletOf, saldo) && w in wallets && amount >= 0
    ensures WalletsOk(Credit(wallets, w, amount), walletOf, CreditUser(saldo, wallets[w].owner, amount))
    ensures Credit(wallets, w, amount).Keys == wallets.Keys
    ensures forall v | v in wallets && wallets[v].review :: Credit(wallets, w, amount)[v].review
  {
  }

  lemma CreditSolvent(wallets: map<Id, Wallet>, commitments: map<Id, Commitment>, authorizations: map<Id, Authorization>,
                      w: Id, amount: int)
    requires Solvent(wallets, commitments, authorizations) && AuthorizationsOk(authorizations, wallets) && amount >= 0
    ensures Solvent(Credit(wallets, w, amount), commitments, authorizations)
    ensures AuthorizationsOk(authorizations, Credit(wallets, w, amount))
  {
    hide Held, Legacy;
  }

  lemma TopupTables(db: Db, user: Id, r: TopupRequest)
    ensures TopupOn(db, user, r) ==
            db.(topups := db.topups[r.requestId := Topup(r.wallet, user, r.amount)],
                wallets := Credit(db.wallets, r.wallet, r.amount), saldo := CreditUser(db.saldo, user, r.amount))
  {
  }

  lemma TopupOnKeepsInv(db: Db, opening: map<Id, int>, user: Id, r: TopupRequest)
    requires Inv(db, opening) && r.requestId !in db.topups && r.amount >= 0
    requires r.wallet in db.wallets && db.wallets[r.wallet].owner == user
    ensures Inv(TopupOn(db, user, r), opening)
  {
    hide *;
    InvParts(db, opening);
    TopupTables(db, user, r);
    var after := TopupOn(db, user, r);
    CreditWallets(db.wallets, db.walletOf, db.saldo, r.wallet, r.amount);
    TopupBalances(opening, db.wallets, db.topups, db.ledger, r.requestId, Topup(r.wallet, user, r.amount));
    CreditSolvent(db.wallets, db.commitments, db.authorizations, r.wallet, r.amount);
    FlagsFrame(db.claims, db.commitments, db.commitments, db.wallets, after.wallets);
    LedgerFrame(db.ledger, db.payments, db.wallets, after.wallets);
    InvBuild(after, opening);
  }

  /** A top-up, repeated or not, keeps the invariant. */
  lemma TopUpKeepsInv(db: Db, opening: map<Id, int>, user: Id, r: TopupRequest, stale: bool)
    requires Inv(db, opening)
    ensures Inv(TopUp(db, user, r, stale).0, opening)
  {
    hide Inv, TopupOn;
    if 0 < r.amount && r.wallet in db.wallets && db.wallets[r.wallet].owner == user && r.requestId !in db.topups {
      TopupOnKeepsInv(db, opening, user, r);
    }
  }

  lemma StoreKeepsInv(db: Db, opening: map<Id, int>, env: Env, user: Id, op: Id, w: Wire)
    requires Inv(db, opening)
    ensures StoreResolution(db, env, user, op, w).0 == db
  {
    assert ResolutionsOk(db.resolutions, db.payments, db.commitments.Keys) by {
      hide *;
      InvParts(db, opening);
    }
    hide Inv, Verifies, Proper, Authorized, DigestOf, Parse3;
  }

  /** The new rows of an issuance. */
  lemma ReserveTables(db: Db, r: IssueRequest, id: Id, total: int, now: int, until: int, grant: Envelope)
    ensures Reserve(db, r, id, total, now, until, grant) ==
            db.(authorizations := db.authorizations[id := Authorization(r.wallet, r.walletKey, r.maxPayment, now, until,
                                                                       total, r.maxPayments, true)],
                issuedFor := db.issuedFor[r.requestId := id],
                commitments := db.commitments[id := Commitment(r.wallet, total, 0, 0, total, 0, 0, OPEN, None, grant)])
  {
  }

  ghost predicate NewGrant(id: Id, r: IssueRequest, total: int, grant: Envelope) {
    && Proper(grant) && grant.message.body.Grant? && grant.message.body.auth == id
    && grant.message.body.wallet == r.wallet && grant.message.body.total == total
    && grant.message.body.maxPayments == r.maxPayments && total >= 1 && r.maxPayments >= 1
  }

  lemma ReserveCommitments(commitments: map<Id, Commitment>, authorizations: map<Id, Authorization>,
                           r: IssueRequest, id: Id, total: int, now: int, until: int, grant: Envelope)
    requires CommitmentsOk(commitments, authorizations) && id !in authorizations && NewGrant(id, r, total, grant)
    ensures CommitmentsOk(commitments[id := Commitment(r.wallet, total, 0, 0, total, 0, 0, OPEN, None, grant)],
                          authorizations[id := Authorization(r.wallet, r.walletKey, r.maxPayment, now, until,
                                                             total, r.maxPayments, true)])
  {
    hide Proper;
  }

  lemma ReserveAuthorizations(authorizations: map<Id, Authorization>, wallets: map<Id, Wallet>, id: Id, row: Authorization)
    requires AuthorizationsOk(authorizations, wallets)
    requires row.wallet in wallets && row.remaining >= 0 && row.payments >= 0
    ensures AuthorizationsOk(authorizations[id := row], wallets)
  {
  }

  lemma ReservePayments(payments: map<Id, Payment>, commitments: map<Id, Commitment>, authorizations: map<Id, Authorization>,
                        id: Id, c: Commitment, row: Authorization)
    requires PaymentsOk(payments, commitments, authorizations) && id !in authorizations
    ensures PaymentsOk(payments, commitments[id := c], authorizations[id := row])
    ensures forall op | op in payments :: payments[op].auth != id
  {
    hide PaymentOk, LegacyPaymentOk;
  }

  lemma ReserveKeys(db: Db, id: Id)
    requires ClaimsOk(db.claims, db.payments, db.commitments.Keys)
    requires EmissionsOk(db.emissions, db.payments, db.commitments.Keys)
    requires ResolutionsOk(db.resolutions, db.payments, db.commitments.Keys)
    requires forall op | op in db.payments :: db.payments[op].auth != id
    ensures ClaimsOk(db.claims, db.payments, db.commitments.Keys + {id})
    ensures EmissionsOk(db.emissions, db.payments, db.commitments.Keys + {id})
    ensures ResolutionsOk(db.resolutions, db.payments, db.commitments.Keys + {id})
    ensures forall k | k in db.emissions :: k.0 != id
  {
  }

  lemma ReserveCounters(commitments: map<Id, Commitment>, emissions: map<(Id, Id), Emission>, payments: map<Id, Payment>,
                        id: Id, c: Commitment)
    requires CountersOk(commitments, emissions, payments)
    requires c.emitted == 0 && c.rejected == 0 && c.count == 0
    requires forall op | op in payments :: payments[op].auth != id
    requires forall k | k in emissions :: k.0 != id
    ensures CountersOk(commitments[id := c], emissions, payments)
  {
    SumZero(emissions.Keys, EmittedBy(emissions, id));
    SumZero(payments.Keys, PaidBy(payments, id, Accepted));
    SumZero(payments.Keys, PaidBy(payments, id, Rejected));
    assert EmissionsOf(emissions, id) == {};
    hide Sum;
  }

  lemma ReserveSeals(commitments: map<Id, Commitment>, payments: map<Id, Payment>, claims: map<(Id, Id), Claim>, id: Id, c: Commitment)
    requires SealsOk(commitments, payments, claims) && !c.Closed()
    ensures SealsOk(commitments[id := c], payments, claims)
  {
    hide SealOk;
  }

  /** A new commitment takes exactly its total from what the wallet may still promise. */
  lemma ReserveSolvent(wallets: map<Id, Wallet>, commitments: map<Id, Commitment>, authorizations: map<Id, Authorization>,
                       id: Id, c: Commitment, row: Authorization)
    requires Solvent(wallets, commitments, authorizations) && c.wallet in wallets
    requires id !in commitments && id !in authorizations
    requires c.held <= wallets[c.wallet].balance
                       - Held(commitments, c.wallet) - Legacy(authorizations, commitments.Keys, c.wallet)
    ensures Solvent(wallets, commitments[id := c], authorizations[id := row])
  {
    hide Sum;
    var after, rows := commitments[id := c], authorizations[id := row];
    assert after.Keys == commitments.Keys + {id} && rows.Keys == authorizations.Keys + {id};
    forall w | w in wallets
      ensures Held(after, w) + Legacy(rows, after.Keys, w) <= wallets[w].balance
    {
      SumSet(commitments.Keys, HeldBy(commitments, w), HeldBy(after, w), id);
      SumSet(authorizations.Keys, LegacyBy(authorizations, commitments.Keys, w), LegacyBy(rows, after.Keys, w), id);
    }
  }

  lemma ReserveRequests(issuedFor: map<Id, Id>, commitments: map<Id, Commitment>, q: Id, id: Id, c: Commitment)
    requires RequestsOk(issuedFor, commitments) && q !in issuedFor && id !in commitments
    ensures RequestsOk(issuedFor[q := id], commitments[id := c])
  {
  }

  lemma ReserveKeepsInv(db: Db, opening: map<Id, int>, r: IssueRequest, id: Id, total: int, now: int, until: int, grant: Envelope)
    requires Inv(db, opening) && r.wallet in db.wallets && NewGrant(id, r, total, grant)
    requires id !in db.authorizations && id !in db.commitments && r.requestId !in db.issuedFor
    requires total <= db.wallets[r.wallet].balance
                      - Held(db.commitments, r.wallet) - Legacy(db.authorizations, db.commitments.Keys, r.wallet)
    ensures Inv(Reserve(db, r, id, total, now, until, grant), opening)
  {
    hide *;
    InvParts(db, opening);
    ReserveTables(db, r, id, total, now, until, grant);
    var after := Reserve(db, r, id, total, now, until, grant);
    var c, row := after.commitments[id], after.authorizations[id];
    NewGrantParts(id, r, total, grant, c);
    ReserveAuthorizations(db.authorizations, db.wallets, id, row);
    ReserveCommitments(db.commitments, db.authorizations, r, id, total, now, until, grant);
    ReservePayments(db.payments, db.commitments, db.authorizations, id, c, row);
    ReserveKeys(db, id);
    assert after.commitments.Keys == db.commitments.Keys + {id};
    FlagsFrame(db.claims, db.commitments, after.commitments, db.wallets, db.wallets);
    ReserveCounters(db.commitments, db.emissions, db.payments, id, c);
    ReserveSeals(db.commitments, db.payments, db.claims, id, c);
    ReserveSolvent(db.wallets, db.commitments, db.authorizations, id, c, row);
    ReserveRequests(db.issuedFor, db.commitments, r.requestId, id, c);
    InvBuild(after, opening);
  }

  lemma NewGrantParts(id: Id, r: IssueRequest, total: int, grant: Envelope, c: Commitment)
    requires NewGrant(id, r, total, grant)
    requires c == Commitment(r.wallet, total, 0, 0, total, 0, 0, OPEN, None, grant)
    ensures total >= 0 && r.maxPayments >= 0 && !c.Closed()
  {
  }

  /** Issuance, fresh, repeated or racing, keeps the invariant. */
  lemma IssueKeepsInv(db: Db, opening: map<Id, int>, env: Env, user: Id, r: IssueRequest, now: int, id: Id, stale: bool)
    requires Inv(db, opening)
    ensures Inv(Issue(db, env, user, r, now, id, stale).0, opening)
  {
    hide Inv, Reserve, Held, Legacy, Repeat;
    var after := Issue(db, env, user, r, now, id, stale).0;
    if after != db {
      var total := Min(Available(db, r.wallet), r.maxPayment * r.maxPayments);
      var body := GrantFor(env, r, db.keys[r.walletKey], env.issuer.value, total, now, id);
      assert NewGrant(id, r, total, Sign(body, env.issuer.value.publicKey));
      ReserveKeepsInv(db, opening, r, id, total, now, now + env.authorizationSeconds, Sign(body, env.issuer.value.publicKey));
    }
  }

  lemma SealTables(db: Db, auth: Id, close: Envelope, entries: seq<Entry>) returns (c: Commitment, row: Authorization)
    requires auth in db.commitments && auth in db.authorizations
    ensures SealOn(db, auth, close, entries) ==
            db.(commitments := db.commitments[auth := c], authorizations := db.authorizations[auth := row])
    ensures var was := db.commitments[auth];
            && c.wallet == was.wallet && c.grant == was.grant && c.reserved == was.reserved
            && c.emitted == was.emitted && c.rejected == was.rejected && c.count == was.count
            && c.unissued == was.reserved - Total(entries) && c.held == was.held - c.unissued
            && c.sealed == Some(Sealed(close, entries)) && c.Closed()
            && c.phase == (if c.held == 0 then SETTLED else SEALED)
    ensures row == db.authorizations[auth].(active := false)
  {
    hide Total;
    c, row := SealOn(db, auth, close, entries).commitments[auth], SealOn(db, auth, close, entries).authorizations[auth];
  }

  lemma SealCommitments(commitments: map<Id, Commitment>, authorizations: map<Id, Authorization>, auth: Id,
                        c: Commitment, row: Authorization)
    requires CommitmentsOk(commitments, authorizations) && auth in commitments && auth in authorizations
    requires var was := commitments[auth];
             && !was.Closed() && c.Closed()
             && c == was.(unissued := c.unissued, held := c.held, phase := c.phase, sealed := c.sealed)
             && c.held == was.held - c.unissued && 0 <= c.unissued <= was.held
             && c.phase == (if c.held == 0 then SETTLED else SEALED)
    requires row == authorizations[auth].(active := false)
    ensures CommitmentsOk(commitments[auth := c], authorizations[auth := row])
  {
    hide Proper;
  }

  lemma SealCounters(commitments: map<Id, Commitment>, emissions: map<(Id, Id), Emission>, payments: map<Id, Payment>,
                     auth: Id, c: Commitment)
    requires CountersOk(commitments, emissions, payments) && auth in commitments
    requires c.emitted == commitments[auth].emitted && c.rejected == commitments[auth].rejected && c.count == commitments[auth].count
    ensures CountersOk(commitments[auth := c], emissions, payments)
  {
    hide Sum, EmittedBy, PaidBy, EmissionsOf;
    assert CounterOk(auth, commitments[auth], emissions, payments);
  }

  /** What the closing checks establish about a manifest. */
  ghost predicate Sealable(db: Db, env: Env, auth: Id, entries: seq<Entry>) {
    && auth in db.commitments
    && WellFormedManifest(entries)
    && PaymentOps(db, auth) == EntryOps(entries)
    && CheckEntries(db, env, auth, db.commitments[auth].wallet, db.commitments[auth].grant, entries).Fine?
    && AccountsAgree(db, db.commitments[auth], entries)
  }

  lemma SealableEntries(db: Db, env: Env, auth: Id, entries: seq<Entry>)
    requires Sealable(db, env, auth, entries)
    ensures forall e | e in entries ::
              && e.op in db.payments && db.payments[e.op].auth == auth && (auth, e.op) in db.claims
              && db.claims[(auth, e.op)] == Claim(e.index, e.amount, e.receiptDigest)
    ensures forall op | op in db.payments && db.payments[op].auth == auth :: op in EntryOps(entries)
  {
    hide AccountsAgree, WellFormedManifest, EntryOps;
    assert forall op | op in db.payments && db.payments[op].auth == auth :: op in PaymentOps(db, auth);
    forall e | e in entries
      ensures && e.op in db.payments && db.payments[e.op].auth == auth && (auth, e.op) in db.claims
              && db.claims[(auth, e.op)] == Claim(e.index, e.amount, e.receiptDigest)
    {
      EntryFacts(db, env, auth, db.commitments[auth].wallet, db.commitments[auth].grant, e);
    }
  }

  lemma EntryFacts(db: Db, env: Env, auth: Id, wallet: Id, grant: Envelope, e: Entry)
    requires CheckEntry(db, env, auth, wallet, grant, e).Fine?
    ensures && e.op in db.payments && db.payments[e.op].auth == auth && (auth, e.op) in db.claims
            && db.claims[(auth, e.op)] == Claim(e.index, e.amount, e.receiptDigest)
  {
    hide ReceiptBound, AckBound, PosSigned, RejectionProven, RequiresReview;
  }

  lemma SealSeals(db: Db, env: Env, auth: Id, entries: seq<Entry>, close: Envelope, c: Commitment)
    requires SealsOk(db.commitments, db.payments, db.claims) && Sealable(db, env, auth, entries)
    requires c.sealed == Some(Sealed(close, entries)) && c.reserved == db.commitments[auth].reserved
    requires c.unissued == c.reserved - Total(entries) && c.held == db.commitments[auth].held - c.unissued
    ensures SealsOk(db.commitments[auth := c], db.payments, db.claims)
  {
    SealableEntries(db, env, auth, entries);
    hide Total, TotalIn, EntryOps, CheckEntries;
    var after := db.commitments[auth := c];
    forall a | a in after && after[a].Closed()
      ensures SealOk(a, after[a], db.payments, db.claims)
    {
    }
  }

  lemma ReleaseSolvent(wallets: map<Id, Wallet>, commitments: map<Id, Commitment>, authorizations: map<Id, Authorization>,
                       a: Id, c: Commitment, row: Authorization)
    requires Solvent(wallets, commitments, authorizations)
    requires a in commitments && a in authorizations && commitments[a].wallet == c.wallet && c.held <= commitments[a].held
    ensures Solvent(wallets, commitments[a := c], authorizations[a := row])
  {
    hide Held, Legacy;
    assert commitments[a := c].Keys == commitments.Keys;
    forall w | w in wallets
      ensures Held(commitments[a := c], w) + Legacy(authorizations[a := row], commitments.Keys, w) <= wallets[w].balance
    {
      HeldUpdate(commitments, a, c, w);
      LegacyFrame(authorizations, commitments.Keys, a, row, w);
    }
  }

  lemma SealableAmounts(db: Db, env: Env, auth: Id, entries: seq<Entry>)
    requires Sealable(db, env, auth, entries) && CommitmentsOk(db.commitments, db.authorizations)
    requires AuthorizationsOk(db.authorizations, db.wallets)
    requires !db.commitments[auth].Closed()
    ensures auth in db.commitments && auth in db.authorizations
    ensures db.authorizations[auth].wallet in db.wallets && db.authorizations[auth].remaining >= 0 && db.authorizations[auth].payments >= 0
    ensures 0 <= db.commitments[auth].reserved - Total(entries) <= db.commitments[auth].held
  {
    hide Total, TotalIn, EntryOps, CheckEntries, PaymentOps, WellFormedManifest, Proper;
  }

  lemma SealKeepsInv(db: Db, opening: map<Id, int>, env: Env, auth: Id, close: Envelope, entries: seq<Entry>)
    requires Inv(db, opening) && auth in db.commitments && Sealable(db, env, auth, entries)
    requires !db.commitments[auth].Closed()
    ensures Inv(SealOn(db, auth, close, entries), opening)
  {
    hide *;
    InvParts(db, opening);
    SealableAmounts(db, env, auth, entries);
    var c, row := SealTables(db, auth, close, entries);
    var after := SealOn(db, auth, close, entries);
    assert after.commitments.Keys == db.commitments.Keys;
    SpendAuthorizations(db.authorizations, db.wallets, db.wallets, auth, row);
    SealCommitments(db.commitments, db.authorizations, auth, c, row);
    PaymentsFrame(db.payments, db.commitments, after.commitments, db.authorizations, after.authorizations);
    FlagsFrame(db.claims, db.commitments, after.commitments, db.wallets, db.wallets);
    SealCounters(db.commitments, db.emissions, db.payments, auth, c);
    SealSeals(db, env, auth, entries, close, c);
    ReleaseSolvent(db.wallets, db.commitments, db.authorizations, auth, c, row);
    RequestsFrame(db.issuedFor, db.commitments, after.commitments);
    InvBuild(after, opening);
  }

  /** A closure attempt, successful or not, keeps the invariant. */
  lemma CloseKeepsInv(db: Db, opening: map<Id, int>, env: Env, user: Id, auth: Id, close: Wire, manifest: Option<seq<Entry>>)
    requires Inv(db, opening)
    ensures Inv(Close(db, env, user, auth, close, manifest).0, opening)
  {
    hide Inv, SealOn, CheckEntries, AccountsAgree, ClaimOps, PaymentOps, EntryOps, IndicesCollide, TrustedGrant,
         ClosureIdTaken, WellFormedManifest, Total, Flag;
    var after := Close(db, env, user, auth, close, manifest).0;
    if after != db {
      FlagKeepsInv(db, opening, db.commitments[auth].wallet);
      if Close(db, env, user, auth, close, manifest).1.Closed? {
        assert Sealable(db, env, auth, manifest.value);
        SealKeepsInv(db, opening, env, auth, close.envelope, manifest.value);
      }
    }
  }
}
