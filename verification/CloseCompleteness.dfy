/** An honest wallet can always close: the manifest of exactly its payments passes every check. */
module CloseCompleteness {
  import opened Messages
  import opened Database
  import opened Sums
  import opened SyncV3
  import opened Authorizations
  import opened Invariant
  import opened Closures
  import opened Lengths

  /** The catalogue still vouches for the keys that signed this payment, and nothing needs a review. */
  predicate Vouched(db: Db, grant: Envelope, p: Payment) {
    && p.request.message.body.Request? && p.receipt.message.body.Receipt? && grant.message.body.Grant?
    && var rq, gp := p.request.message.body, grant.message.body;
    && rq.posKey in db.keys && p.terminal in db.terminals && gp.walletKey in db.keys
    && var posKey, terminal, walletKey := db.keys[rq.posKey], db.terminals[p.terminal], db.keys[gp.walletKey];
    && posKey.purpose == PosKey(p.terminal)
    && PosSigned(p.request, posKey.publicKey, rq.posKey, posKey.fingerprint, terminal.merchant, p.terminal)
    && walletKey.purpose == WalletKey(gp.wallet) && walletKey.fingerprint == gp.walletFingerprint
    && walletKey.publicKey == gp.walletPublicKey
    && !RequiresReview(posKey, rq.common.issuedAt) && !RequiresReview(walletKey, p.receipt.message.body.confirmedAt)
    && (p.ack.Some? ==>
          && p.ack.value.message.body.Ack?
          && PosSigned(p.ack.value, posKey.publicKey, rq.posKey, posKey.fingerprint, terminal.merchant, p.terminal)
          && !RequiresReview(posKey, p.ack.value.message.body.acceptedAt))
  }

  /** The payment of a manifest line is accepted or waiting, and vouched for. */
  ghost predicate Closable(db: Db, grant: Envelope, e: Entry) {
    && e.op in db.payments && (db.payments[e.op].state.Accepted? || db.payments[e.op].state.PendingEvidence?)
    && Vouched(db, grant, db.payments[e.op])
  }

  /** The manifest an honest wallet writes: its payments under the grant, in the order of their indices. */
  ghost predicate Lists(db: Db, a: Id, entries: seq<Entry>) {
    && (forall i | 0 <= i < |entries| :: entries[i].index == i + 1)
    && (forall op | op in db.payments && db.payments[op].auth == a :: exists e :: e in entries && e.op == op)
    && (forall e | e in entries ::
          && e.op in db.payments && db.payments[e.op].auth == a && db.payments[e.op].receipt.message.body.Receipt?
          && Claim(e.index, e.amount, e.receiptDigest) == ClaimOf(db.payments[e.op]))
  }

  /** The closure an honest wallet signs over its manifest. */
  function HonestClosure(grant: Envelope, entries: seq<Entry>, id: Id, at: int): Envelope
    requires grant.message.body.Grant?
  {
    var gp := grant.message.body;
    Sign(Closure(id, gp.auth, gp.wallet, gp.walletKey, gp.walletFingerprint, DigestOf(grant), |entries|, Total(entries),
                 OfManifest(entries), at), gp.walletPublicKey)
  }

  lemma PaymentFacts(payments: map<Id, Payment>, commitments: map<Id, Commitment>, authorizations: map<Id, Authorization>, op: Id)
    requires PaymentsOk(payments, commitments, authorizations)
    requires op in payments && payments[op].auth in commitments
    ensures PaymentOk(op, payments[op], commitments[payments[op].auth])
  {
    hide PaymentOk, LegacyPaymentOk;
  }

  /** What a bound payment says about its manifest entry. */
  lemma EntryLimits(op: Id, p: Payment, c: Commitment, e: Entry)
    requires PaymentOk(op, p, c)
    requires Claim(e.index, e.amount, e.receiptDigest) == ClaimOf(p)
    ensures c.grant.message.body.Grant? && 1 <= e.amount <= MAX_INT64 && e.amount <= c.grant.message.body.maxPayment
    ensures 1 <= e.index <= c.grant.message.body.maxPayments
  {
  }

  lemma OneEntryEach(db: Db, a: Id, entries: seq<Entry>)
    requires Lists(db, a, entries)
    ensures forall i, j | 0 <= i < j < |entries| :: entries[i].op != entries[j].op
    ensures forall i | 0 <= i < |entries| :: entries[i].index == i + 1
    ensures PaymentOps(db, a) == EntryOps(entries)
  {
    assert forall i | 0 <= i < |entries| :: entries[i] in entries;
  }

  lemma ClaimsAreListed(db: Db, a: Id, entries: seq<Entry>, v3: set<Id>)
    requires Lists(db, a, entries) && ClaimsOk(db.claims, db.payments, v3) && a in v3
    ensures ClaimOps(db, a) == PaymentOps(db, a)
    ensures !IndicesCollide(db, a)
    ensures forall e | e in entries :: (a, e.op) in db.claims && db.claims[(a, e.op)] == Claim(e.index, e.amount, e.receiptDigest)
  {
    assert forall op | op in PaymentOps(db, a) :: (a, op) in db.claims && op in ClaimOps(db, a);
    forall k, l | k in db.claims && l in db.claims && k.0 == a && l.0 == a && k != l
      ensures db.claims[k].index != db.claims[l].index
    {
      var e :| e in entries && e.op == k.1;
      var f :| f in entries && f.op == l.1;
    }
  }

  lemma EntryIsFine(db: Db, env: Env, a: Id, c: Commitment, e: Entry)
    requires (a, e.op) in db.claims && db.claims[(a, e.op)] == Claim(e.index, e.amount, e.receiptDigest)
    requires e.op in db.payments && db.payments[e.op].auth == a && PaymentOk(e.op, db.payments[e.op], c)
    requires Claim(e.index, e.amount, e.receiptDigest) == ClaimOf(db.payments[e.op])
    requires Vouched(db, c.grant, db.payments[e.op])
    requires c.grant.message.body.Grant? && c.grant.message.body.wallet == c.wallet
    requires db.payments[e.op].state.Accepted? || db.payments[e.op].state.PendingEvidence?
    ensures CheckEntry(db, env, a, c.wallet, c.grant, e).Fine?
  {
    hide RejectionProven, RequiresReview;
  }

  lemma {:induction false} TotalBounds(entries: seq<Entry>)
    requires forall e | e in entries :: e.amount >= 0
    ensures 0 <= Total(entries)
  {
    if |entries| > 0 {
      assert entries[|entries| - 1] in entries;
      assert forall e | e in entries[..|entries| - 1] :: e in entries;
      TotalBounds(entries[..|entries| - 1]);
    }
  }

  /** The honest closure passes every check that does not look at the database exactly when its manifest fits a message. */
  lemma HonestIsBound(grant: Envelope, entries: seq<Entry>, id: Id, at: int)
    requires Proper(grant) && grant.message.body.Grant? && grant.message.body.grantedAt <= at
    requires forall i | 0 <= i < |entries| :: entries[i].index == i + 1
    requires forall i, j | 0 <= i < j < |entries| :: entries[i].op != entries[j].op
    requires forall e | e in entries ::
               && 1 <= e.amount <= MAX_INT64 && e.amount <= grant.message.body.maxPayment
               && e.index <= grant.message.body.maxPayments
    requires Total(entries) <= grant.message.body.total
    ensures CloseBound(HonestClosure(grant, entries, id, at), grant, entries) <==> Fits(entries)
    ensures Parse3(Wire(HonestClosure(grant, entries, id, at))).Some?
  {
    hide Total, Fits;
    TotalBounds(entries);
    assert forall i | 0 <= i < |entries| :: entries[i] in entries;
    if |entries| > 0 {
      assert entries[|entries| - 1].index == |entries|;
    }
  }

  lemma CommitmentFacts(db: Db, a: Id)
    requires CommitmentsOk(db.commitments, db.authorizations) && a in db.commitments
    ensures Proper(db.commitments[a].grant) && db.commitments[a].grant.message.body.Grant?
    ensures db.commitments[a].grant.message.body.auth == a
    ensures db.commitments[a].grant.message.body.wallet == db.commitments[a].wallet
    ensures db.commitments[a].grant.message.body.total == db.commitments[a].reserved
  {
    hide Proper;
  }

  lemma ListedFacts(db: Db, opening: map<Id, int>, a: Id, entries: seq<Entry>)
    requires Inv(db, opening) && a in db.commitments && Lists(db, a, entries)
    ensures Proper(db.commitments[a].grant) && db.commitments[a].grant.message.body.Grant?
    ensures db.commitments[a].grant.message.body.auth == a
    ensures db.commitments[a].grant.message.body.wallet == db.commitments[a].wallet
    ensures db.commitments[a].grant.message.body.total == db.commitments[a].reserved
    ensures PaymentOps(db, a) == EntryOps(entries) == ClaimOps(db, a) && !IndicesCollide(db, a)
    ensures forall e | e in entries ::
              && (a, e.op) in db.claims && db.claims[(a, e.op)] == Claim(e.index, e.amount, e.receiptDigest)
              && e.op in db.payments && db.payments[e.op].auth == a && PaymentOk(e.op, db.payments[e.op], db.commitments[a])
    ensures forall e | e in entries ::
              && 1 <= e.amount <= MAX_INT64 && e.amount <= db.commitments[a].grant.message.body.maxPayment
              && e.index <= db.commitments[a].grant.message.body.maxPayments
  {
    assert PaymentsOk(db.payments, db.commitments, db.authorizations)
           && ClaimsOk(db.claims, db.payments, db.commitments.Keys)
           && CommitmentsOk(db.commitments, db.authorizations) by {
      hide *;
      InvParts(db, opening);
    }
    hide Inv, PaymentsOk, CommitmentsOk, PaymentOk, ClaimsOk, Proper, PaymentOps, EntryOps, ClaimOps, IndicesCollide;
    CommitmentFacts(db, a);
    OneEntryEach(db, a, entries);
    ClaimsAreListed(db, a, entries, db.commitments.Keys);
    forall e | e in entries
      ensures PaymentOk(e.op, db.payments[e.op], db.commitments[a])
      ensures 1 <= e.amount <= MAX_INT64 && e.amount <= db.commitments[a].grant.message.body.maxPayment
              && e.index <= db.commitments[a].grant.message.body.maxPayments
    {
      PaymentFacts(db.payments, db.commitments, db.authorizations, e.op);
      EntryLimits(e.op, db.payments[e.op], db.commitments[a], e);
    }
  }

  /** The owner's honest closure succeeds, releases this much and keeps this much held. */
  ghost predicate ClosesWith(db: Db, env: Env, a: Id, grant: Envelope, entries: seq<Entry>, id: Id, at: int,
                             released: int, held: int)
    requires grant.message.body.Grant?
  {
    && a in db.commitments && db.commitments[a].wallet in db.wallets
    && var (after, reply) := Close(db, env, db.wallets[db.commitments[a].wallet].owner, a,
                                   Wire(HonestClosure(grant, entries, id, at)), Some(entries));
    && reply == Closed && a in after.commitments && after.commitments[a].Closed()
    && after.commitments[a].unissued == released && after.commitments[a].held == held >= 0
  }

  /** An open authorization whose payments are accepted or waiting, vouched for, have indices 1..n and fit the total. */
  ghost predicate HonestState(db: Db, opening: map<Id, int>, env: Env, a: Id, entries: seq<Entry>) {
    && Inv(db, opening) && a in db.commitments && !db.commitments[a].Closed() && db.commitments[a].wallet in db.wallets
    && Lists(db, a, entries) && Total(entries) <= db.commitments[a].reserved
    && TrustedGrant(env, db.commitments[a].grant)
    && forall e | e in entries :: Closable(db, db.commitments[a].grant, e)
  }

  lemma HonestStateParts(db: Db, opening: map<Id, int>, env: Env, a: Id, entries: seq<Entry>)
    requires HonestState(db, opening, env, a, entries)
    ensures Inv(db, opening) && a in db.commitments && !db.commitments[a].Closed() && db.commitments[a].wallet in db.wallets
    ensures Lists(db, a, entries) && Total(entries) <= db.commitments[a].reserved
    ensures TrustedGrant(env, db.commitments[a].grant) && db.commitments[a].grant.message.body.Grant?
    ensures forall e | e in entries :: Closable(db, db.commitments[a].grant, e)
  {
    hide Inv, Lists, Total, Closable;
  }

  /** In every state the invariant allows, the honest closure of an authorization whose payments are accepted or
    waiting, have indices 1..n and fit the total, succeeds if and only if the manifest fits a message; what it leaves
    held is what was not accepted yet. A manifest that does not fit is refused. */
  lemma HonestCloseSucceeds(db: Db, opening: map<Id, int>, env: Env, a: Id, entries: seq<Entry>, id: Id, at: int)
    requires HonestState(db, opening, env, a, entries)
    requires db.commitments[a].grant.message.body.Grant? ==> db.commitments[a].grant.message.body.grantedAt <= at
    requires !ClosureIdTaken(db, a, id)
    ensures db.commitments[a].grant.message.body.Grant?
    ensures var c := db.commitments[a];
            Fits(entries) <==>
            ClosesWith(db, env, a, c.grant, entries, id, at, c.reserved - Total(entries), Total(entries) - c.emitted - c.rejected)
    ensures !Fits(entries) ==>
              Close(db, env, db.wallets[db.commitments[a].wallet].owner, a,
                    Wire(HonestClosure(db.commitments[a].grant, entries, id, at)), Some(entries)) == (db, CloseInvalid)
  {
    hide *;
    HonestStateParts(db, opening, env, a, entries);
    var c := db.commitments[a];
    ListedFacts(db, opening, a, entries);
    HonestIsPassed(db, opening, a, entries, id, at);
    var close := HonestClosure(c.grant, entries, id, at);
    if Fits(entries) {
      EntriesAreFine(db, opening, env, a, entries);
      EntriesAgree(db, opening, a, entries);
      OpenCloses(db, env, a, close, entries);
      CloseReachesOpen(db, env, a, close, entries);
      SucceedsWith(db, env, a, c.grant, entries, id, at);
    } else {
      UnboundIsInvalid(db, env, a, close, entries);
      RefusedClosesNothing(db, env, a, c.grant, entries, id, at, c.reserved - Total(entries),
                           Total(entries) - c.emitted - c.rejected);
    }
  }

  /** Up to 21 payments, so under every grant of at most 21, the honest closure succeeds. */
  lemma SmallGrantsClose(db: Db, opening: map<Id, int>, env: Env, a: Id, entries: seq<Entry>, id: Id, at: int)
    requires HonestState(db, opening, env, a, entries)
    requires db.commitments[a].grant.message.body.Grant? ==>
               db.commitments[a].grant.message.body.grantedAt <= at && db.commitments[a].grant.message.body.maxPayments <= 21
    requires !ClosureIdTaken(db, a, id)
    ensures db.commitments[a].grant.message.body.Grant?
    ensures var c := db.commitments[a];
            ClosesWith(db, env, a, c.grant, entries, id, at, c.reserved - Total(entries), Total(entries) - c.emitted - c.rejected)
  {
    hide *;
    HonestStateParts(db, opening, env, a, entries);
    HonestCloseSucceeds(db, opening, env, a, entries, id, at);
    ListedFacts(db, opening, a, entries);
    ListedWellFormed(db, opening, a, entries);
    FewEntries(entries, db.commitments[a].grant.message.body.maxPayments);
    FitsByCount(entries);
  }

  lemma FewEntries(entries: seq<Entry>, most: int)
    requires WellFormedManifest(entries) && 0 <= most
    requires forall e | e in entries :: e.index <= most
    ensures |entries| <= most
  {
    if |entries| > 0 {
      assert entries[|entries| - 1] in entries;
    }
  }

  lemma ListedWellFormed(db: Db, opening: map<Id, int>, a: Id, entries: seq<Entry>)
    requires Inv(db, opening) && a in db.commitments && Lists(db, a, entries)
    ensures WellFormedManifest(entries)
    ensures db.commitments[a].grant.message.body.Grant? && db.commitments[a].grant.message.body.maxPayments >= 0
  {
    hide Inv, Lists, PaymentOk, PaymentOps, EntryOps, ClaimOps, IndicesCollide;
    ListedFacts(db, opening, a, entries);
    OneEntryEach(db, a, entries);
    assert forall i | 0 <= i < |entries| :: entries[i] in entries;
  }

  // ---------------------------------------------------------------------------------------------
  // No other manifest

  lemma ClosedMeans(db: Db, env: Env, user: Id, a: Id, close: Wire, manifest: Option<seq<Entry>>)
    requires Close(db, env, user, a, close, manifest).1.Closed?
    ensures a in db.commitments && manifest.Some? && Fits(manifest.value) && WellFormedManifest(manifest.value)
    ensures EntryOps(manifest.value) == PaymentOps(db, a)
    ensures forall e | e in manifest.value ::
              (a, e.op) in db.claims && db.claims[(a, e.op)] == Claim(e.index, e.amount, e.receiptDigest)
  {
    hide TrustedGrant, WellFormedManifest, Total, Valid3, EntryOps, PaymentOps, ClaimOps, IndicesCollide, AccountsAgree, SealOn,
         ClosureIdTaken, CheckEntry, Fits;
    var c := db.commitments[a];
    assert CheckEntries(db, env, a, c.wallet, c.grant, manifest.value).Fine?;
    forall e | e in manifest.value
      ensures (a, e.op) in db.claims && db.claims[(a, e.op)] == Claim(e.index, e.amount, e.receiptDigest)
    {
      FineHasClaim(db, env, a, c.wallet, c.grant, e);
    }
  }

  lemma FineHasClaim(db: Db, env: Env, a: Id, wallet: Id, grant: Envelope, e: Entry)
    requires CheckEntry(db, env, a, wallet, grant, e).Fine?
    ensures (a, e.op) in db.claims && db.claims[(a, e.op)] == Claim(e.index, e.amount, e.receiptDigest)
  {
    hide RejectionProven, RequiresReview, ReceiptBound, AckBound, PosSigned, Proper;
  }

  /** Two manifests of the same payments, both in the order of their indices, are equal. */
  lemma OneManifest(db: Db, a: Id, entries: seq<Entry>, others: seq<Entry>)
    requires WellFormedManifest(entries) && WellFormedManifest(others) && EntryOps(entries) == EntryOps(others)
    requires forall e | e in entries || e in others ::
               (a, e.op) in db.claims && db.claims[(a, e.op)] == Claim(e.index, e.amount, e.receiptDigest)
    ensures entries == others
  {
    if |others| > |entries| {
      SameLine(db, a, others, entries, |entries|);
    } else if |entries| > |others| {
      SameLine(db, a, entries, others, |others|);
    }
    forall i | 0 <= i < |entries|
      ensures others[i] == entries[i]
    {
      SameLine(db, a, entries, others, i);
    }
  }

  lemma SameLine(db: Db, a: Id, entries: seq<Entry>, others: seq<Entry>, i: nat)
    requires WellFormedManifest(entries) && WellFormedManifest(others) && EntryOps(entries) == EntryOps(others)
    requires forall e | e in entries || e in others ::
               (a, e.op) in db.claims && db.claims[(a, e.op)] == Claim(e.index, e.amount, e.receiptDigest)
    requires i < |entries|
    ensures i < |others| && others[i] == entries[i]
  {
    assert entries[i] in entries && entries[i].op in EntryOps(entries);
    var j :| 0 <= j < |others| && others[j].op == entries[i].op;
    assert others[j] in others;
    assert others[j].index == j + 1 && entries[i].index == i + 1;
  }

  /** An authorization in an honest state can be closed, by anybody's closure over any manifest, if and only if the
    manifest of its payments fits a message: with 24 payments or more it never can. */
  lemma ClosableIffFits(db: Db, opening: map<Id, int>, env: Env, a: Id, entries: seq<Entry>, id: Id)
    requires HonestState(db, opening, env, a, entries) && !ClosureIdTaken(db, a, id)
    ensures (exists user, close, manifest :: Close(db, env, user, a, close, manifest).1.Closed?) <==> Fits(entries)
    ensures |entries| <= 21 ==> Fits(entries)
    ensures |entries| >= 24 ==> !Fits(entries)
  {
    hide *;
    HonestStateParts(db, opening, env, a, entries);
    ListedFacts(db, opening, a, entries);
    ListedWellFormed(db, opening, a, entries);
    FitsByCount(entries);
    var c := db.commitments[a];
    var at := c.grant.message.body.grantedAt;
    if Fits(entries) {
      HonestCloseSucceeds(db, opening, env, a, entries, id, at);
      ClosesWithCloses(db, env, a, c.grant, entries, id, at, c.reserved - Total(entries), Total(entries) - c.emitted - c.rejected);
    }
    forall user, close, manifest | Close(db, env, user, a, close, manifest).1.Closed?
      ensures Fits(entries)
    {
      ClosedMeans(db, env, user, a, close, manifest);
      OneManifest(db, a, entries, manifest.value);
    }
  }

  lemma {:induction false} OpsCount(entries: seq<Entry>)
    ensures |EntryOps(entries)| <= |entries|
  {
    if |entries| > 0 {
      var rest := entries[..|entries| - 1];
      OpsCount(rest);
      assert EntryOps(entries) == EntryOps(rest) + {entries[|entries| - 1].op};
    }
  }

  /** An authorization with 24 payments or more is never closed, in any state whatsoever and by any closure. */
  lemma TooManyNeverClose(db: Db, env: Env, user: Id, a: Id, close: Wire, manifest: Option<seq<Entry>>)
    requires |PaymentOps(db, a)| >= 24
    ensures !Close(db, env, user, a, close, manifest).1.Closed?
  {
    hide *;
    if Close(db, env, user, a, close, manifest).1.Closed? {
      ClosedMeans(db, env, user, a, close, manifest);
      OpsCount(manifest.value);
      FitsByCount(manifest.value);
    }
  }

  lemma ClosesWithCloses(db: Db, env: Env, a: Id, grant: Envelope, entries: seq<Entry>, id: Id, at: int, released: int, held: int)
    requires grant.message.body.Grant? && ClosesWith(db, env, a, grant, entries, id, at, released, held)
    ensures exists user, close, manifest :: Close(db, env, user, a, close, manifest).1.Closed?
  {
    hide Close, HonestClosure;
    var user := db.wallets[db.commitments[a].wallet].owner;
    assert Close(db, env, user, a, Wire(HonestClosure(grant, entries, id, at)), Some(entries)).1.Closed?;
  }

  lemma UnboundIsInvalid(db: Db, env: Env, a: Id, close: Envelope, entries: seq<Entry>)
    requires a in db.commitments && db.commitments[a].wallet in db.wallets
    requires !CloseBound(close, db.commitments[a].grant, entries)
    ensures Close(db, env, db.wallets[db.commitments[a].wallet].owner, a, Wire(close), Some(entries)) == (db, CloseInvalid)
  {
    hide CloseOpen, CloseBound, TrustedGrant, Valid3;
  }

  lemma RefusedClosesNothing(db: Db, env: Env, a: Id, grant: Envelope, entries: seq<Entry>, id: Id, at: int, released: int,
                             held: int)
    requires a in db.commitments && db.commitments[a].wallet in db.wallets && grant.message.body.Grant?
    requires Close(db, env, db.wallets[db.commitments[a].wallet].owner, a,
                   Wire(HonestClosure(grant, entries, id, at)), Some(entries)) == (db, CloseInvalid)
    ensures !ClosesWith(db, env, a, grant, entries, id, at, released, held)
  {
    hide Close, HonestClosure;
  }

  lemma EntriesAreFine(db: Db, opening: map<Id, int>, env: Env, a: Id, entries: seq<Entry>)
    requires Inv(db, opening) && a in db.commitments && Lists(db, a, entries)
    requires forall e | e in entries :: Closable(db, db.commitments[a].grant, e)
    ensures forall e | e in entries :: CheckEntry(db, env, a, db.commitments[a].wallet, db.commitments[a].grant, e).Fine?
  {
    hide *;
    var c := db.commitments[a];
    ListedFacts(db, opening, a, entries);
    forall e | e in entries
      ensures CheckEntry(db, env, a, c.wallet, c.grant, e).Fine?
    {
      EntryOfList(db, a, entries, e);
      ClosableParts(db, c.grant, e);
      EntryIsFine(db, env, a, c, e);
    }
  }

  lemma EntriesAgree(db: Db, opening: map<Id, int>, a: Id, entries: seq<Entry>)
    requires Inv(db, opening) && a in db.commitments && !db.commitments[a].Closed() && Lists(db, a, entries)
    requires Total(entries) <= db.commitments[a].reserved
    ensures AccountsAgree(db, db.commitments[a], entries)
  {
    hide *;
    ListedFacts(db, opening, a, entries);
    OneEntryEach(db, a, entries);
    forall e | e in entries
      ensures e.op in db.payments && db.payments[e.op].amount == e.amount
    {
      EntryOfList(db, a, entries, e);
      EntryAmount(db, e);
    }
    ManifestAgrees(db, opening, a, entries);
  }

  lemma HonestIsPassed(db: Db, opening: map<Id, int>, a: Id, entries: seq<Entry>, id: Id, at: int)
    requires Inv(db, opening) && a in db.commitments && Lists(db, a, entries)
    requires Total(entries) <= db.commitments[a].reserved
    requires db.commitments[a].grant.message.body.Grant? && db.commitments[a].grant.message.body.grantedAt <= at
    ensures var close := HonestClosure(db.commitments[a].grant, entries, id, at);
            && (CloseBound(close, db.commitments[a].grant, entries) <==> Fits(entries)) && Parse3(Wire(close)).Some?
            && close.message.body.Closure? && close.message.body.auth == a && close.message.body.closureId == id
  {
    hide *;
    ListedFacts(db, opening, a, entries);
    OneEntryEach(db, a, entries);
    HonestIsBound(db.commitments[a].grant, entries, id, at);
    HonestNames(db.commitments[a].grant, entries, id, at);
  }

  lemma SucceedsWith(db: Db, env: Env, a: Id, grant: Envelope, entries: seq<Entry>, id: Id, at: int)
    requires a in db.commitments && db.commitments[a].wallet in db.wallets && grant.message.body.Grant?
    requires
      var c := db.commitments[a];
      var (after, reply) := Close(db, env, db.wallets[c.wallet].owner, a,
                                  Wire(HonestClosure(grant, entries, id, at)), Some(entries));
      && reply == Closed && a in after.commitments && after.commitments[a].Closed()
      && after.commitments[a].held == Total(entries) - c.emitted - c.rejected >= 0
      && after.commitments[a].unissued == c.reserved - Total(entries)
    ensures var c := db.commitments[a];
            ClosesWith(db, env, a, grant, entries, id, at, c.reserved - Total(entries), Total(entries) - c.emitted - c.rejected)
  {
    hide Close, HonestClosure, Total;
  }

  lemma EntryAmount(db: Db, e: Entry)
    requires e.op in db.payments && db.payments[e.op].receipt.message.body.Receipt?
    requires Claim(e.index, e.amount, e.receiptDigest) == ClaimOf(db.payments[e.op])
    ensures db.payments[e.op].amount == e.amount
  {
  }

  lemma HonestNames(grant: Envelope, entries: seq<Entry>, id: Id, at: int)
    requires grant.message.body.Grant?
    ensures var close := HonestClosure(grant, entries, id, at);
            close.message.body.Closure? && close.message.body.auth == grant.message.body.auth
            && close.message.body.closureId == id
  {
  }

  lemma CloseReachesOpen(db: Db, env: Env, a: Id, close: Envelope, entries: seq<Entry>)
    requires a in db.commitments && !db.commitments[a].Closed() && db.commitments[a].wallet in db.wallets
    requires Parse3(Wire(close)).Some? && TrustedGrant(env, db.commitments[a].grant)
    requires CloseBound(close, db.commitments[a].grant, entries)
    requires close.message.body.Closure? && close.message.body.auth == a
    ensures Close(db, env, db.wallets[db.commitments[a].wallet].owner, a, Wire(close), Some(entries)) ==
            CloseOpen(db, env, a, close, entries)
  {
    hide CloseOpen, CloseBound, TrustedGrant, Valid3;
  }

  lemma OpenCloses(db: Db, env: Env, a: Id, close: Envelope, entries: seq<Entry>)
    requires a in db.commitments && close.message.body.Closure?
    requires ClaimOps(db, a) == PaymentOps(db, a) == EntryOps(entries) && !IndicesCollide(db, a)
    requires forall e | e in entries :: CheckEntry(db, env, a, db.commitments[a].wallet, db.commitments[a].grant, e).Fine?
    requires AccountsAgree(db, db.commitments[a], entries) && !ClosureIdTaken(db, a, close.message.body.closureId)
    ensures
      var c := db.commitments[a];
      var (after, reply) := CloseOpen(db, env, a, close, entries);
      && reply == Closed && a in after.commitments && after.commitments[a].Closed()
      && after.commitments[a].held == Total(entries) - c.emitted - c.rejected >= 0
      && after.commitments[a].unissued == c.reserved - Total(entries)
  {
    hide CheckEntry, PaymentOps, ClaimOps, EntryOps, IndicesCollide, ClosureIdTaken, Total, TotalIn;
  }

  lemma ClosableParts(db: Db, grant: Envelope, e: Entry)
    requires Closable(db, grant, e)
    ensures e.op in db.payments && (db.payments[e.op].state.Accepted? || db.payments[e.op].state.PendingEvidence?)
    ensures Vouched(db, grant, db.payments[e.op])
  {
    hide Vouched;
  }

  lemma EntryOfList(db: Db, a: Id, entries: seq<Entry>, e: Entry)
    requires Lists(db, a, entries) && e in entries
    ensures e.op in db.payments && db.payments[e.op].auth == a && db.payments[e.op].receipt.message.body.Receipt?
    ensures Claim(e.index, e.amount, e.receiptDigest) == ClaimOf(db.payments[e.op])
  {
  }
}
