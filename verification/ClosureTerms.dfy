/** What a closure takes: exactly which ones succeed, what they change, and what the others leave. */
module ClosureTerms {
  import opened Messages
  import opened Database
  import opened SyncV3
  import opened Authorizations
  import opened Invariant
  import opened Closures
  import opened Authenticity

  // ---------------------------------------------------------------------------------------------
  // The terms, on fields alone

  /** The manifest line repeats what was recorded of the payment. */
  predicate RecordedAs(db: Db, a: Id, wallet: Id, e: Entry) {
    && (a, e.op) in db.claims && e.op in db.payments
    && db.claims[(a, e.op)].index == e.index && db.claims[(a, e.op)].amount == e.amount
    && db.claims[(a, e.op)].receiptDigest == e.receiptDigest
    && var p := db.payments[e.op];
    && p.auth == a && p.wallet == wallet && p.amount == e.amount && OfMessage(p.receipt.message) == e.receiptDigest
  }

  /** The stored evidence is still authentic to today's catalogue. */
  predicate StillAuthentic(db: Db, grant: Envelope, p: Payment)
    requires grant.message.body.Grant?
  {
    && RequestStands(db, p.request) && ReceiptStands(p.request, p.receipt, grant) && WalletKeyStands(db, grant)
    && p.merchant == p.request.message.body.common.merchant && p.terminal == p.request.message.body.common.terminal
    && (p.ack.Some? ==> AckStands(db, p.request, p.receipt, p.ack.value))
  }

  /** The rejection has its signed resolution and left no trace in the accounting. */
  predicate RejectedForGood(db: Db, env: Env, op: Id, grant: Envelope)
    requires op in db.payments
  {
    var p := db.payments[op];
    && op in db.resolutions && db.resolutions[op].status == Rejected
    && var e := db.resolutions[op].envelope;
    && e.message.body.Resolution?
    && var r := e.message.body;
    && (r.issuerKey, r.issuerFingerprint) in env.trusted && Signed(e, env.trusted[(r.issuerKey, r.issuerFingerprint)])
    && r.accepted == false && 1 <= r.amount <= MAX_INT64 && 1 <= r.revision <= MAX_INT64
    && r.op == op && r.wallet == p.wallet && r.merchant == p.merchant && r.terminal == p.terminal && r.amount == p.amount
    && r.auth == p.auth && r.authorizationDigest == OfMessage(grant.message)
    && r.requestDigest == OfMessage(p.request.message) && r.receiptDigest == OfMessage(p.receipt.message)
    && (op, DEBIT) !in db.ledger && (op, CREDIT) !in db.ledger && (forall k | k in db.emissions :: k.1 != op)
  }

  /** Accepted, still waiting, or rejected for good; never under review. */
  predicate Decided(db: Db, env: Env, op: Id, grant: Envelope)
    requires op in db.payments
  {
    match db.payments[op].state
    case Accepted => true
    case PendingEvidence => true
    case Validated => true
    case PendingReview => false
    case Rejected => RejectedForGood(db, env, op, grant)
  }

  /** The payment of a manifest line lets its authorization be closed. */
  predicate Stands(db: Db, env: Env, a: Id, wallet: Id, grant: Envelope, e: Entry)
    requires grant.message.body.Grant?
  {
    && RecordedAs(db, a, wallet, e)
    && var p := db.payments[e.op];
    && StillAuthentic(db, grant, p) && !UsedWithdrawn(db, p.request, grant, p.receipt, p.ack)
    && Decided(db, env, e.op, grant)
  }

  /** The closure is signed by the granted wallet key over exactly this manifest, within the grant. */
  predicate ClosureStands(close: Envelope, grant: Envelope, entries: seq<Entry>)
    requires grant.message.body.Grant?
  {
    && close.message.body.Closure?
    && var c, g := close.message.body, grant.message.body;
    && Signed(close, g.walletPublicKey)
    && c.auth == g.auth && c.wallet == g.wallet && c.walletKey == g.walletKey && c.walletFingerprint == g.walletFingerprint
    && c.authorizationDigest == OfMessage(grant.message) && c.manifestDigest == OfManifest(entries)
    && g.grantedAt <= c.closedAt
    && c.finalIndex == |entries| <= g.maxPayments && c.emittedTotal == Total(entries) <= g.total
    && (forall i | 0 <= i < |entries| ::
          entries[i].index == i + 1 && 1 <= entries[i].amount <= MAX_INT64 && entries[i].amount <= g.maxPayment)
    && (forall i, j | 0 <= i < j < |entries| :: entries[i].op != entries[j].op)
    && ManifestLength(entries) <= 4096
  }

  // ---------------------------------------------------------------------------------------------
  // The checks are exactly the terms

  lemma RejectionTerms(db: Db, env: Env, op: Id, grant: Envelope)
    requires op in db.payments
    ensures RejectionProven(db, env, op, grant) <==> RejectedForGood(db, env, op, grant)
  {
  }

  lemma {:induction false} TotalIsNatural(entries: seq<Entry>)
    requires forall i | 0 <= i < |entries| :: entries[i].amount >= 1
    ensures Total(entries) >= 0
  {
    if |entries| > 0 {
      TotalIsNatural(entries[..|entries| - 1]);
    }
  }

  lemma ClosureTermsAre(env: Env, close: Envelope, grant: Envelope, entries: seq<Entry>)
    requires GrantStands(env, grant)
    ensures CloseBound(close, grant, entries) <==> ClosureStands(close, grant, entries)
  {
    hide Total, ManifestLength;
    if forall i | 0 <= i < |entries| :: entries[i].amount >= 1 {
      TotalIsNatural(entries);
    }
  }

  /** The stored evidence passes the closure's checks exactly when it is still authentic. */
  lemma StoredTerms(db: Db, env: Env, grant: Envelope, p: Payment)
    requires GrantStands(env, grant) && grant.message.body.Grant?
    ensures
      StillAuthentic(db, grant, p) <==>
      && p.request.message.body.Request?
      && var rq, gp := p.request.message.body, grant.message.body;
      && p.merchant == rq.common.merchant && p.terminal == rq.common.terminal
      && ReceiptBound(p.request, p.receipt, grant)
      && rq.posKey in db.keys && rq.common.terminal in db.terminals && gp.walletKey in db.keys
      && var posKey, terminal, walletKey := db.keys[rq.posKey], db.terminals[rq.common.terminal], db.keys[gp.walletKey];
      && posKey.purpose == PosKey(rq.common.terminal)
      && PosSigned(p.request, posKey.publicKey, rq.posKey, posKey.fingerprint, terminal.merchant, rq.common.terminal)
      && walletKey.purpose == WalletKey(gp.wallet) && walletKey.fingerprint == gp.walletFingerprint
      && walletKey.publicKey == gp.walletPublicKey
      && (p.ack.Some? ==>
            && AckBound(p.request, p.receipt, p.ack.value)
            && PosSigned(p.ack.value, posKey.publicKey, rq.posKey, posKey.fingerprint, terminal.merchant, rq.common.terminal))
  {
    ReceiptTerms(env, p.request, p.receipt, grant);
    if (&& p.request.message.body.Request? && p.request.message.body.posKey in db.keys
        && p.request.message.body.common.terminal in db.terminals) {
      RequestTerms(db, p.request);
      if RequestStands(db, p.request) && ReceiptStands(p.request, p.receipt, grant) && p.ack.Some? {
        AckTerms(db, env, p.request, p.receipt, grant, p.ack.value);
        AckParses(p.request, p.receipt, p.ack.value);
      }
    }
    RequestIsPayable(db, p.request);
    hide GrantStands, ReceiptStands, AckStands, PosSigned, ReceiptBound, AckBound, Payable, Signed;
  }

  lemma RequestIsPayable(db: Db, request: Envelope)
    ensures RequestStands(db, request) ==> request.message.version == 3 && Payable(request.message.body.common)
  {
  }

  lemma AckParses(request: Envelope, receipt: Envelope, ack: Envelope)
    ensures AckBound(request, receipt, ack) ==> Parse3(Wire(ack)).Some?
  {
  }

  /** A key of the payment's evidence was withdrawn by the time it was used. */
  predicate Withdrawn(db: Db, grant: Envelope, op: Id)
    requires grant.message.body.Grant?
  {
    && op in db.payments
    && var p := db.payments[op];
    && p.request.message.body.Request? && p.receipt.message.body.Receipt?
    && p.request.message.body.posKey in db.keys && grant.message.body.walletKey in db.keys
    && var posKey := db.keys[p.request.message.body.posKey];
    && (|| WithdrawnBy(posKey, p.request.message.body.common.issuedAt)
        || WithdrawnBy(db.keys[grant.message.body.walletKey], p.receipt.message.body.confirmedAt)
        || (p.ack.Some? && p.ack.value.message.body.Ack? && WithdrawnBy(posKey, p.ack.value.message.body.acceptedAt)))
  }

  /** An entry is fine exactly when its payment stands, and sent to review only for a withdrawn key. */
  lemma EntryTerms(db: Db, env: Env, a: Id, wallet: Id, grant: Envelope, e: Entry)
    requires GrantStands(env, grant) && grant.message.body.Grant? && grant.message.body.wallet == wallet
    ensures CheckEntry(db, env, a, wallet, grant, e).Fine? <==> Stands(db, env, a, wallet, grant, e)
    ensures CheckEntry(db, env, a, wallet, grant, e).NeedsReview? ==> Withdrawn(db, grant, e.op)
  {
    if e.op in db.payments {
      var p := db.payments[e.op];
      StoredTerms(db, env, grant, p);
      RejectionTerms(db, env, e.op, grant);
      BoundShapes(p.request, p.receipt, grant, p.ack);
    }
    forall key, at
      ensures RequiresReview(key, at) <==> WithdrawnBy(key, at)
    {
      ReviewTerms(key, at);
    }
    hide GrantStands, StillAuthentic, RejectedForGood, RejectionProven, ReceiptBound, AckBound, PosSigned, RequiresReview,
         WithdrawnBy;
  }

  lemma BoundShapes(request: Envelope, receipt: Envelope, grant: Envelope, ack: Option<Envelope>)
    ensures ReceiptBound(request, receipt, grant) ==>
              && Proper(request) && Proper(receipt) && request.message.body.Request? && receipt.message.body.Receipt?
    ensures ack.Some? && AckBound(request, receipt, ack.value) ==> ack.value.message.body.Ack?
  {
  }

  // ---------------------------------------------------------------------------------------------
  // Which closures succeed

  /** The manifest lists exactly the payments of the authorization. */
  predicate ListsAll(db: Db, a: Id, entries: seq<Entry>) {
    && (forall op | op in db.payments && db.payments[op].auth == a :: exists i :: 0 <= i < |entries| && entries[i].op == op)
    && (forall i | 0 <= i < |entries| :: entries[i].op in db.payments && db.payments[entries[i].op].auth == a)
  }

  /** No other authorization was closed under this identifier. */
  predicate FreshClosure(db: Db, a: Id, id: Id) {
    forall b | b in db.commitments && b != a && db.commitments[b].sealed.Some? ::
      var other := db.commitments[b].sealed.value.closure.message.body;
      other.Closure? ==> other.closureId != id
  }

  /** Everything a closure has to be. */
  ghost predicate Closes(db: Db, env: Env, user: Id, a: Id, close: Wire, manifest: Option<seq<Entry>>) {
    && a in db.commitments && db.commitments[a].sealed.None?
    && var c := db.commitments[a];
    && c.wallet in db.wallets && db.wallets[c.wallet].owner == user
    && GrantStands(env, c.grant)
    && close.Wire? && manifest.Some? && ClosureStands(close.envelope, c.grant, manifest.value)
    && ListsAll(db, a, manifest.value)
    && (forall e | e in manifest.value :: Stands(db, env, a, c.wallet, c.grant, e))
    && FreshClosure(db, a, close.envelope.message.body.closureId)
  }

  lemma ListTerms(db: Db, a: Id, entries: seq<Entry>)
    ensures PaymentOps(db, a) == EntryOps(entries) <==> ListsAll(db, a, entries)
  {
    if PaymentOps(db, a) == EntryOps(entries) {
      forall op | op in db.payments && db.payments[op].auth == a
        ensures exists i :: 0 <= i < |entries| && entries[i].op == op
      {
        assert op in PaymentOps(db, a);
        assert op in EntryOps(entries);
      }
      forall i | 0 <= i < |entries|
        ensures entries[i].op in db.payments && db.payments[entries[i].op].auth == a
      {
        assert entries[i].op in EntryOps(entries);
        assert entries[i].op in PaymentOps(db, a);
      }
    }
  }

  lemma FreshTerms(db: Db, a: Id, id: Id)
    ensures ClosureIdTaken(db, a, id) <==> !FreshClosure(db, a, id)
  {
  }

  lemma ClaimsArePayments(db: Db, a: Id)
    requires ClaimsOk(db.claims, db.payments, db.commitments.Keys) && a in db.commitments
    ensures ClaimOps(db, a) == PaymentOps(db, a)
  {
    forall op | op in PaymentOps(db, a)
      ensures op in ClaimOps(db, a)
    {
      assert (a, op) in db.claims;
    }
  }

  lemma ListedIndicesDiffer(db: Db, a: Id, entries: seq<Entry>)
    requires ClaimOps(db, a) == EntryOps(entries)
    requires forall i | 0 <= i < |entries| :: entries[i].index == i + 1
    requires forall e | e in entries :: (a, e.op) in db.claims && db.claims[(a, e.op)].index == e.index
    ensures !IndicesCollide(db, a)
  {
    forall k, l | k in db.claims && l in db.claims && k.0 == a && l.0 == a && k != l
      ensures db.claims[k].index != db.claims[l].index
    {
      assert k.1 in ClaimOps(db, a) && l.1 in ClaimOps(db, a);
      var i :| 0 <= i < |entries| && entries[i].op == k.1;
      var j :| 0 <= j < |entries| && entries[j].op == l.1;
      assert entries[i] in entries && entries[j] in entries;
    }
  }

  lemma EntriesStand(db: Db, env: Env, a: Id, wallet: Id, grant: Envelope, entries: seq<Entry>)
    requires GrantStands(env, grant) && grant.message.body.Grant? && grant.message.body.wallet == wallet
    ensures CheckEntries(db, env, a, wallet, grant, entries).Fine? <==>
            forall e | e in entries :: Stands(db, env, a, wallet, grant, e)
  {
    forall e | e in entries
      ensures CheckEntry(db, env, a, wallet, grant, e).Fine? <==> Stands(db, env, a, wallet, grant, e)
    {
      EntryTerms(db, env, a, wallet, grant, e);
    }
    hide CheckEntry, Stands, GrantStands;
  }

  lemma StoredGrant(db: Db, a: Id)
    requires CommitmentsOk(db.commitments, db.authorizations) && a in db.commitments
    ensures db.commitments[a].grant.message.body.Grant? && db.commitments[a].grant.message.body.wallet == db.commitments[a].wallet
    ensures db.commitments[a].grant.message.body.auth == a
    ensures db.commitments[a].grant.message.body.total == db.commitments[a].reserved
  {
    hide Proper;
  }

  lemma OpenTerms(db: Db, opening: map<Id, int>, env: Env, a: Id, close: Envelope, entries: seq<Entry>)
    requires Inv(db, opening) && a in db.commitments && db.commitments[a].sealed.None?
    requires GrantStands(env, db.commitments[a].grant) && db.commitments[a].grant.message.body.Grant?
    requires ClosureStands(close, db.commitments[a].grant, entries) && close.message.body.Closure?
    ensures
      CloseOpen(db, env, a, close, entries).1.Closed? <==>
      && ListsAll(db, a, entries)
      && (forall e | e in entries :: Stands(db, env, a, db.commitments[a].wallet, db.commitments[a].grant, e))
      && FreshClosure(db, a, close.message.body.closureId)
  {
    hide *;
    InvParts(db, opening);
    var c := db.commitments[a];
    StoredGrant(db, a);
    ListTerms(db, a, entries);
    FreshTerms(db, a, close.message.body.closureId);
    ClaimsArePayments(db, a);
    EntriesStand(db, env, a, c.wallet, c.grant, entries);
    ManifestOf(close, c.grant, entries);
    if PaymentOps(db, a) == EntryOps(entries)
       && (forall e | e in entries :: Stands(db, env, a, c.wallet, c.grant, e)) {
      forall e | e in entries
        ensures (a, e.op) in db.claims && db.claims[(a, e.op)].index == e.index
        ensures e.op in db.payments && db.payments[e.op].amount == e.amount
      {
        StandsRecorded(db, env, a, c.wallet, c.grant, e);
      }
      ListedIndicesDiffer(db, a, entries);
      NotClosed(c);
      ManifestAgrees(db, opening, a, entries);
    }
    OpenOutcome(db, env, a, close, entries);
  }

  lemma NotClosed(c: Commitment)
    requires c.sealed.None?
    ensures !c.Closed()
  {
  }

  lemma StandsRecorded(db: Db, env: Env, a: Id, wallet: Id, grant: Envelope, e: Entry)
    requires grant.message.body.Grant? && Stands(db, env, a, wallet, grant, e)
    ensures (a, e.op) in db.claims && db.claims[(a, e.op)].index == e.index
    ensures e.op in db.payments && db.payments[e.op].amount == e.amount
  {
    hide StillAuthentic, Decided, UsedWithdrawn;
  }

  lemma ManifestOf(close: Envelope, grant: Envelope, entries: seq<Entry>)
    requires grant.message.body.Grant? && ClosureStands(close, grant, entries)
    ensures forall i | 0 <= i < |entries| :: entries[i].index == i + 1
    ensures forall e | e in entries :: e.amount >= 1
    ensures forall i, j | 0 <= i < j < |entries| :: entries[i].op != entries[j].op
    ensures Total(entries) <= grant.message.body.total
  {
    hide Total, ManifestLength;
  }

  lemma OpenOutcome(db: Db, env: Env, a: Id, close: Envelope, entries: seq<Entry>)
    requires a in db.commitments && close.message.body.Closure?
    ensures
      var c := db.commitments[a];
      CloseOpen(db, env, a, close, entries).1.Closed? <==>
      && ClaimOps(db, a) == EntryOps(entries) == PaymentOps(db, a) && !IndicesCollide(db, a)
      && CheckEntries(db, env, a, c.wallet, c.grant, entries).Fine? && AccountsAgree(db, c, entries)
      && !ClosureIdTaken(db, a, close.message.body.closureId)
  {
    hide ClaimOps, PaymentOps, EntryOps, IndicesCollide, CheckEntries, AccountsAgree, ClosureIdTaken, SealOn, Flag;
  }

  lemma ReachesOpen(db: Db, env: Env, user: Id, a: Id, close: Wire, manifest: Option<seq<Entry>>)
    requires a in db.commitments && db.commitments[a].grant.message.body.Grant? && db.commitments[a].grant.message.body.auth == a
    ensures
      var c := db.commitments[a];
      && (Close(db, env, user, a, close, manifest).1.Closed? ==>
            && c.wallet in db.wallets && db.wallets[c.wallet].owner == user && close.Wire? && manifest.Some?
            && TrustedGrant(env, c.grant) && CloseBound(close.envelope, c.grant, manifest.value) && c.sealed.None?)
      && (&& c.wallet in db.wallets && db.wallets[c.wallet].owner == user && close.Wire? && manifest.Some?
          && TrustedGrant(env, c.grant) && CloseBound(close.envelope, c.grant, manifest.value) && c.sealed.None? ==>
            && close.envelope.message.body.Closure?
            && Close(db, env, user, a, close, manifest) == CloseOpen(db, env, a, close.envelope, manifest.value))
  {
    hide CloseOpen, TrustedGrant, WellFormedManifest, Fits, Total, Valid3;
  }

  /** A closure succeeds if and only if it meets the terms: signed over exactly the payments of an open authorization, each
    of them accepted, waiting or rejected for good, still authentic, and none of their keys withdrawn by the time it was
    used. Every check of the accounts then passes by itself. */
  lemma ClosesIff(db: Db, opening: map<Id, int>, env: Env, user: Id, a: Id, close: Wire, manifest: Option<seq<Entry>>)
    requires Inv(db, opening)
    ensures Close(db, env, user, a, close, manifest).1.Closed? <==> Closes(db, env, user, a, close, manifest)
  {
    hide *;
    InvParts(db, opening);
    ClosesParts(db, env, user, a, close, manifest);
    if a in db.commitments {
      StoredGrant(db, a);
      GrantTerms(env, db.commitments[a].grant);
      ReachesOpen(db, env, user, a, close, manifest);
      if GrantStands(env, db.commitments[a].grant) && close.Wire? && manifest.Some? {
        ClosureTermsAre(env, close.envelope, db.commitments[a].grant, manifest.value);
        if ClosureStands(close.envelope, db.commitments[a].grant, manifest.value) && db.commitments[a].sealed.None? {
          ClosureKind(close.envelope, db.commitments[a].grant, manifest.value);
          OpenTerms(db, opening, env, a, close.envelope, manifest.value);
        }
      }
    } else {
      NoSuchCommitment(db, env, user, a, close, manifest);
    }
  }

  lemma ClosureKind(close: Envelope, grant: Envelope, entries: seq<Entry>)
    requires grant.message.body.Grant? && ClosureStands(close, grant, entries)
    ensures close.message.body.Closure?
  {
    hide Total, ManifestLength;
  }

  lemma NoSuchCommitment(db: Db, env: Env, user: Id, a: Id, close: Wire, manifest: Option<seq<Entry>>)
    requires a !in db.commitments
    ensures Close(db, env, user, a, close, manifest) == (db, NoCommitment)
  {
  }

  lemma ClosesParts(db: Db, env: Env, user: Id, a: Id, close: Wire, manifest: Option<seq<Entry>>)
    ensures
      Closes(db, env, user, a, close, manifest) <==>
      && a in db.commitments && db.commitments[a].sealed.None?
      && var c := db.commitments[a];
      && c.wallet in db.wallets && db.wallets[c.wallet].owner == user
      && GrantStands(env, c.grant) && c.grant.message.body.Grant?
      && close.Wire? && manifest.Some? && ClosureStands(close.envelope, c.grant, manifest.value)
      && close.envelope.message.body.Closure?
      && ListsAll(db, a, manifest.value)
      && (forall e | e in manifest.value :: Stands(db, env, a, c.wallet, c.grant, e))
      && FreshClosure(db, a, close.envelope.message.body.closureId)
  {
    hide ListsAll, Stands, FreshClosure, Total, ManifestLength, Signed;
  }

  // ---------------------------------------------------------------------------------------------
  // What a closure changes

  /** The commitment is sealed over the manifest, what it never issued is released, its authorization ends, and nothing
    else changes. */
  predicate OnlySeals(db: Db, after: Db, a: Id, close: Envelope, entries: seq<Entry>) {
    && a in db.commitments
    && after == db.(commitments := after.commitments, authorizations := after.authorizations)
    && a in after.commitments && after.commitments == db.commitments[a := after.commitments[a]]
    && var c, d := db.commitments[a], after.commitments[a];
    && d.sealed == Some(Sealed(close, entries)) && d.unissued == c.reserved - Total(entries)
    && d.held == c.held - d.unissued && d.phase == (if d.held == 0 then SETTLED else SEALED)
    && d.wallet == c.wallet && d.reserved == c.reserved && d.grant == c.grant
    && d.emitted == c.emitted && d.count == c.count && d.rejected == c.rejected
    && (a in db.authorizations ==>
          after.authorizations == db.authorizations[a := db.authorizations[a].(active := false)])
    && (a !in db.authorizations ==> after.authorizations == db.authorizations)
  }

  /** Nothing but, at most, the review flag of the authorization's wallet. */
  predicate AtMostFlags(db: Db, after: Db, a: Id) {
    || after == db
    || (&& a in db.commitments && db.commitments[a].wallet in db.wallets
        && var w := db.commitments[a].wallet;
        after == db.(wallets := db.wallets[w := db.wallets[w].(review := true)]))
  }

  lemma SealOnly(db: Db, a: Id, close: Envelope, entries: seq<Entry>)
    requires a in db.commitments
    ensures OnlySeals(db, SealOn(db, a, close, entries), a, close, entries)
  {
    hide Total;
  }

  lemma OpenChanges(db: Db, env: Env, a: Id, close: Envelope, entries: seq<Entry>)
    requires a in db.commitments && close.message.body.Closure? && db.commitments[a].wallet in db.wallets
    ensures
      var (after, reply) := CloseOpen(db, env, a, close, entries);
      && (reply.Closed? ==> OnlySeals(db, after, a, close, entries))
      && (!reply.Closed? ==> AtMostFlags(db, after, a))
      && (reply.IndexConflict? || reply.RevocationBlocks? ==>
            after.wallets == db.wallets[db.commitments[a].wallet := db.wallets[db.commitments[a].wallet].(review := true)])
      && (after != db && !reply.Closed? ==> reply.IndexConflict? || reply.RevocationBlocks?)
  {
    SealOnly(db, a, close, entries);
    FlagOnly(db, a);
    hide ClaimOps, PaymentOps, EntryOps, IndicesCollide, CheckEntries, AccountsAgree, ClosureIdTaken, SealOn, OnlySeals, AtMostFlags,
         Flag;
  }

  lemma FlagOnly(db: Db, a: Id)
    requires a in db.commitments && db.commitments[a].wallet in db.wallets
    ensures
      var w := db.commitments[a].wallet;
      && Flag(db.wallets, w, true) == db.wallets[w := db.wallets[w].(review := true)]
      && AtMostFlags(db, db.(wallets := Flag(db.wallets, w, true)), a) && AtMostFlags(db, db, a)
  {
  }

  /** A closure that succeeds seals and releases exactly that; one that does not changes no budget: at most it flags the
    wallet, and then the reply says why. */
  lemma ClosureChanges(db: Db, opening: map<Id, int>, env: Env, user: Id, a: Id, close: Wire, manifest: Option<seq<Entry>>)
    requires Inv(db, opening)
    ensures
      var (after, reply) := Close(db, env, user, a, close, manifest);
      && (reply.Closed? ==> close.Wire? && manifest.Some? && OnlySeals(db, after, a, close.envelope, manifest.value))
      && (!reply.Closed? ==> AtMostFlags(db, after, a) && after.commitments == db.commitments)
      && (after != db && !reply.Closed? ==> reply.IndexConflict? || reply.RevocationBlocks?)
  {
    hide *;
    InvParts(db, opening);
    if a in db.commitments {
      StoredGrant(db, a);
      ChangesHere(db, env, user, a, close, manifest);
      FlagsNoBudget(db, Close(db, env, user, a, close, manifest).0, a);
    } else {
      NoSuchCommitment(db, env, user, a, close, manifest);
      FlagsNoBudget(db, db, a);
      NothingFlags(db, a);
    }
  }

  lemma NothingFlags(db: Db, a: Id)
    ensures AtMostFlags(db, db, a)
  {
  }

  lemma FlagsNoBudget(db: Db, after: Db, a: Id)
    ensures AtMostFlags(db, after, a) ==> after.commitments == db.commitments
  {
  }

  lemma ChangesHere(db: Db, env: Env, user: Id, a: Id, close: Wire, manifest: Option<seq<Entry>>)
    requires a in db.commitments && db.commitments[a].grant.message.body.Grant?
    ensures
      var (after, reply) := Close(db, env, user, a, close, manifest);
      && (reply.Closed? ==> close.Wire? && manifest.Some? && OnlySeals(db, after, a, close.envelope, manifest.value))
      && (!reply.Closed? ==> AtMostFlags(db, after, a))
      && (after != db && !reply.Closed? ==> reply.IndexConflict? || reply.RevocationBlocks?)
  {
    hide CloseOpen, TrustedGrant, WellFormedManifest, Fits, Total, Valid3, OnlySeals;
    if (&& db.commitments[a].wallet in db.wallets && Parse3(close).Some? && manifest.Some?
        && CloseBound(close.envelope, db.commitments[a].grant, manifest.value)) {
      OpenChanges(db, env, a, close.envelope, manifest.value);
    }
  }

  /** A manifest with a payment under review never closes its authorization, nor changes any budget. */
  lemma ReviewBlocksClosure(db: Db, opening: map<Id, int>, env: Env, user: Id, a: Id, close: Wire, entries: seq<Entry>, e: Entry)
    requires Inv(db, opening) && e in entries && e.op in db.payments && db.payments[e.op].state == PendingReview
    ensures var (after, reply) := Close(db, env, user, a, close, Some(entries));
            !reply.Closed? && after.commitments == db.commitments
  {
    hide *;
    ClosesIff(db, opening, env, user, a, close, Some(entries));
    ClosureChanges(db, opening, env, user, a, close, Some(entries));
    if Closes(db, env, user, a, close, Some(entries)) {
      ClosesParts(db, env, user, a, close, Some(entries));
      ReviewDoesNotStand(db, env, a, db.commitments[a].wallet, db.commitments[a].grant, e);
    }
  }

  lemma ReviewDoesNotStand(db: Db, env: Env, a: Id, wallet: Id, grant: Envelope, e: Entry)
    requires grant.message.body.Grant? && e.op in db.payments && db.payments[e.op].state == PendingReview
    ensures !Stands(db, env, a, wallet, grant, e)
  {
    hide StillAuthentic, UsedWithdrawn;
  }

  lemma {:induction false} ReviewHasReason(db: Db, env: Env, a: Id, wallet: Id, grant: Envelope, entries: seq<Entry>)
    requires GrantStands(env, grant) && grant.message.body.Grant? && grant.message.body.wallet == wallet
    requires CheckEntries(db, env, a, wallet, grant, entries).NeedsReview?
    ensures exists e :: e in entries && Withdrawn(db, grant, e.op)
  {
    hide CheckEntry, Withdrawn, GrantStands;
    if |entries| > 0 {
      EntryTerms(db, env, a, wallet, grant, entries[0]);
      if CheckEntry(db, env, a, wallet, grant, entries[0]).Fine? {
        ReviewHasReason(db, env, a, wallet, grant, entries[1..]);
        var e :| e in entries[1..] && Withdrawn(db, grant, e.op);
        assert e in entries;
      } else {
        assert entries[0] in entries;
      }
    }
  }

  /** A closure is blocked by a revocation only when a key of a listed payment was withdrawn by the time it was used. */
  lemma RevocationHasReason(db: Db, opening: map<Id, int>, env: Env, user: Id, a: Id, close: Wire, manifest: Option<seq<Entry>>)
    requires Inv(db, opening) && Close(db, env, user, a, close, manifest).1.RevocationBlocks?
    ensures a in db.commitments && manifest.Some? && db.commitments[a].grant.message.body.Grant?
    ensures exists e :: e in manifest.value && Withdrawn(db, db.commitments[a].grant, e.op)
  {
    hide *;
    InvParts(db, opening);
    if a in db.commitments {
      StoredGrant(db, a);
      BlockedByEntries(db, env, user, a, close, manifest);
      GrantTerms(env, db.commitments[a].grant);
      ReviewHasReason(db, env, a, db.commitments[a].wallet, db.commitments[a].grant, manifest.value);
    } else {
      NoSuchCommitment(db, env, user, a, close, manifest);
    }
  }

  lemma BlockedByEntries(db: Db, env: Env, user: Id, a: Id, close: Wire, manifest: Option<seq<Entry>>)
    requires a in db.commitments && db.commitments[a].grant.message.body.Grant?
    requires Close(db, env, user, a, close, manifest).1.RevocationBlocks?
    ensures manifest.Some? && TrustedGrant(env, db.commitments[a].grant)
    ensures CheckEntries(db, env, a, db.commitments[a].wallet, db.commitments[a].grant, manifest.value).NeedsReview?
  {
    hide TrustedGrant, WellFormedManifest, Fits, Total, Valid3, ClaimOps, PaymentOps, EntryOps, IndicesCollide, CheckEntries,
         AccountsAgree, ClosureIdTaken, SealOn, Flag;
  }

  /** The owner's closure stands over this manifest. */
  predicate Entitled(db: Db, env: Env, user: Id, a: Id, close: Wire, manifest: Option<seq<Entry>>) {
    && a in db.commitments
    && var c := db.commitments[a];
    && c.wallet in db.wallets && db.wallets[c.wallet].owner == user && GrantStands(env, c.grant)
    && close.Wire? && manifest.Some? && ClosureStands(close.envelope, c.grant, manifest.value)
  }

  /** The closure and manifest are the sealed ones. */
  predicate IsSealed(c: Commitment, close: Wire, manifest: Option<seq<Entry>>) {
    && c.sealed.Some? && close.Wire? && manifest.Some?
    && c.sealed.value.closure == close.envelope && c.sealed.value.entries == manifest.value
  }

  /** A closed authorization answers its own closure again, and no other one; nothing changes. */
  lemma RepeatedIff(db: Db, opening: map<Id, int>, env: Env, user: Id, a: Id, close: Wire, manifest: Option<seq<Entry>>)
    requires Inv(db, opening) && a in db.commitments && db.commitments[a].sealed.Some?
    ensures Close(db, env, user, a, close, manifest).0 == db
    ensures Close(db, env, user, a, close, manifest).1.SameClosure? <==>
            Entitled(db, env, user, a, close, manifest) && IsSealed(db.commitments[a], close, manifest)
    ensures Close(db, env, user, a, close, manifest).1.OtherClosure? <==>
            Entitled(db, env, user, a, close, manifest) && !IsSealed(db.commitments[a], close, manifest)
  {
    hide *;
    InvParts(db, opening);
    StoredGrant(db, a);
    GrantTerms(env, db.commitments[a].grant);
    RepeatedHere(db, env, user, a, close, manifest);
    if GrantStands(env, db.commitments[a].grant) && close.Wire? && manifest.Some? {
      ClosureTermsAre(env, close.envelope, db.commitments[a].grant, manifest.value);
    }
    EntitledTerms(db, env, user, a, close, manifest);
  }

  lemma EntitledTerms(db: Db, env: Env, user: Id, a: Id, close: Wire, manifest: Option<seq<Entry>>)
    requires a in db.commitments && db.commitments[a].grant.message.body.Grant?
    ensures
      var c := db.commitments[a];
      Entitled(db, env, user, a, close, manifest) <==>
      && c.wallet in db.wallets && db.wallets[c.wallet].owner == user && GrantStands(env, c.grant)
      && close.Wire? && manifest.Some? && ClosureStands(close.envelope, c.grant, manifest.value)
  {
    hide GrantStands, ClosureStands;
  }

  lemma RepeatedHere(db: Db, env: Env, user: Id, a: Id, close: Wire, manifest: Option<seq<Entry>>)
    requires a in db.commitments && db.commitments[a].sealed.Some?
    requires db.commitments[a].grant.message.body.Grant? && db.commitments[a].grant.message.body.auth == a
    ensures
      var (after, reply) := Close(db, env, user, a, close, manifest);
      var c := db.commitments[a];
      var entitled :=
        && c.wallet in db.wallets && db.wallets[c.wallet].owner == user && TrustedGrant(env, c.grant)
        && close.Wire? && manifest.Some? && CloseBound(close.envelope, c.grant, manifest.value);
      && after == db && (reply.SameClosure? <==> entitled && IsSealed(c, close, manifest))
      && (reply.OtherClosure? <==> entitled && !IsSealed(c, close, manifest))
  {
    if close.Wire? && manifest.Some? {
      BoundCloses(close.envelope, db.commitments[a].grant, manifest.value);
    }
    hide TrustedGrant, CloseBound, Valid3, CloseOpen;
  }

  lemma BoundCloses(close: Envelope, grant: Envelope, entries: seq<Entry>)
    requires grant.message.body.Grant?
    ensures CloseBound(close, grant, entries) ==>
              close.message.body.Closure? && Parse3(Wire(close)).Some? && close.message.body.auth == grant.message.body.auth
  {
    hide WellFormedManifest, Fits, Total;
  }
}
