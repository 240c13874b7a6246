/** Issuance, closure, top-up and resolution storage: what each request does to the database.

  `stale` says that the handler's first lookup of its request id ran before a concurrent handler
  committed, so it saw no earlier row; the unique constraint then decides at commit time. */
module Authorizations {
  import opened Messages
  import opened Database
  import opened Sums

  datatype IssueRequest = IssueRequest(requestId: Id, wallet: Id, walletKey: Id, maxPayment: int, maxPayments: int)

  datatype IssueReply =
    | NotYours | LimitsExceeded | ReviewRequired | IssuerUnavailable | BudgetUnavailable
    | RequestReused | NotIssued | Issued(auth: Id, total: int, grant: Envelope)

  ghost function HeldBy(commitments: map<Id, Commitment>, w: Id): Id -> int {
    a => if a in commitments && commitments[a].wallet == w then commitments[a].held else 0
  }

  /** Cents still held by the wallet's version 3 authorizations, in every phase. */
  ghost function Held(commitments: map<Id, Commitment>, w: Id): int {
    Sum(commitments.Keys, HeldBy(commitments, w))
  }

  ghost function LegacyBy(authorizations: map<Id, Authorization>, v3: set<Id>, w: Id): Id -> int {
    a =>
      if a in authorizations && authorizations[a].wallet == w && authorizations[a].active && a !in v3 then
        authorizations[a].remaining
      else 0
  }

  /** Cents still spendable under the wallet's active version 2 authorizations. */
  ghost function Legacy(authorizations: map<Id, Authorization>, v3: set<Id>, w: Id): int {
    Sum(authorizations.Keys, LegacyBy(authorizations, v3, w))
  }

  ghost function Committed(db: Db, w: Id): int {
    Held(db.commitments, w) + Legacy(db.authorizations, db.commitments.Keys, w)
  }

  function Max(a: int, b: int): int { if a < b then b else a }

  function Min(a: int, b: int): int { if a < b then a else b }

  /** What issuance may still promise for this wallet. */
  ghost function Available(db: Db, w: Id): int
    requires w in db.wallets
  {
    Max(db.wallets[w].balance - Committed(db, w), 0)
  }

  /** A repeated request id gets the first grant back, if it asks for the same thing. */
  function Repeat(db: Db, previous: Id, r: IssueRequest): IssueReply {
    if (&& previous in db.authorizations && previous in db.commitments
        && db.authorizations[previous].wallet == r.wallet
        && db.authorizations[previous].walletKey == r.walletKey
        && db.authorizations[previous].maxPayment == r.maxPayment
        && Proper(db.commitments[previous].grant) && db.commitments[previous].grant.message.body.Grant?
        && var gp := db.commitments[previous].grant.message.body;
        && gp.maxPayments == r.maxPayments && gp.maxPayment == r.maxPayment
        && gp.wallet == r.wallet && gp.walletKey == r.walletKey)
    then Issued(previous, db.commitments[previous].reserved, db.commitments[previous].grant)
    else RequestReused
  }

  function GrantFor(env: Env, r: IssueRequest, key: Key, issuer: Issuer, total: int, now: int, id: Id): Body {
    Grant(id, r.wallet, r.walletKey, key.fingerprint, key.publicKey, r.maxPayment, r.maxPayments, total,
          MAX_REQUEST_LIFETIME, now, now + env.authorizationSeconds, issuer.keyId, OfKey(issuer.publicKey))
  }

  /** Reserve a budget: insert the authorization and its commitment, indexed by the request. */
  function Reserve(db: Db, r: IssueRequest, id: Id, total: int, now: int, until: int, grant: Envelope): Db {
    db.(authorizations := db.authorizations[id := Authorization(r.wallet, r.walletKey, r.maxPayment, now, until,
                                                               total, r.maxPayments, true)],
        issuedFor := db.issuedFor[r.requestId := id],
        commitments := db.commitments[id := Commitment(r.wallet, total, 0, 0, total, 0, 0, OPEN, None, grant)])
  }

  /** Issue an offline authorization under a fresh identifier. */
  ghost function Issue(db: Db, env: Env, user: Id, r: IssueRequest, now: int, id: Id, stale: bool): (Db, IssueReply) {
    if r.wallet !in db.wallets || db.wallets[r.wallet].owner != user then (db, NotYours)
    else if r.requestId in db.issuedFor && !stale then (db, Repeat(db, db.issuedFor[r.requestId], r))
    else if r.maxPayment > env.maxPaymentCents || r.maxPayments > env.maxOfflinePayments then (db, LimitsExceeded)
    else if (|| r.walletKey !in db.keys || db.keys[r.walletKey].revoked
             || db.keys[r.walletKey].purpose != WalletKey(r.wallet)) then (db, NotYours)
    else if db.wallets[r.wallet].review then (db, ReviewRequired)
    else if env.issuer.None? then (db, IssuerUnavailable)
    else
      var requested := r.maxPayment * r.maxPayments;
      if requested > MAX_INT64 then (db, LimitsExceeded)
      else
        var total := Min(Available(db, r.wallet), requested);
        if total <= 0 then (db, BudgetUnavailable)
        else
          var body := GrantFor(env, r, db.keys[r.walletKey], env.issuer.value, total, now, id);
          if !Valid3(body) then (db, NotIssued)
          else if r.requestId in db.issuedFor then (db, Repeat(db, db.issuedFor[r.requestId], r))
          else if id in db.authorizations || id in db.commitments then (db, NotIssued)
          else
            var grant := Sign(body, env.issuer.value.publicKey);
            (Reserve(db, r, id, total, now, now + env.authorizationSeconds, grant), Issued(id, total, grant))
  }

  datatype TopupRequest = TopupRequest(requestId: Id, wallet: Id, amount: int)
  datatype TopupReply = Malformed | NotYourWallet | TopupReused | Confirmed(wallet: Id, amount: int, balance: int)

  const MAX_TOPUP: int := 100_000_000

  function TopupOn(db: Db, user: Id, r: TopupRequest): Db {
    db.(topups := db.topups[r.requestId := Topup(r.wallet, user, r.amount)],
        wallets := Credit(db.wallets, r.wallet, r.amount),
        saldo := CreditUser(db.saldo, user, r.amount))
  }

  /** A repeated top-up id confirms the first credit, if it asks for the same thing. */
  function RepeatTopup(db: Db, user: Id, r: TopupRequest): TopupReply
    requires r.requestId in db.topups && r.wallet in db.wallets
  {
    if db.topups[r.requestId] != Topup(r.wallet, user, r.amount) then TopupReused
    else Confirmed(r.wallet, r.amount, db.wallets[r.wallet].balance)
  }

  function TopUp(db: Db, user: Id, r: TopupRequest, stale: bool): (Db, TopupReply) {
    if !(0 < r.amount <= MAX_TOPUP) then (db, Malformed)
    else if r.wallet !in db.wallets || db.wallets[r.wallet].owner != user then (db, NotYourWallet)
    else if r.requestId in db.topups && !stale then (db, RepeatTopup(db, user, r))
    else if r.requestId in db.topups then (db, RepeatTopup(db, user, r))
    else
      var credited := TopupOn(db, user, r);
      (credited, Confirmed(r.wallet, r.amount, credited.wallets[r.wallet].balance))
  }

  datatype CloseReply =
    | NoCommitment | NotYourAuthorization | CloseInvalid | OtherClosure | IndexConflict | RevocationBlocks
    | NotClosed | SameClosure | Closed

  datatype EntryVerdict = Fine | Contradicts | NeedsReview

  function ClaimOps(db: Db, auth: Id): set<Id> {
    set k | k in db.claims && k.0 == auth :: k.1
  }

  function PaymentOps(db: Db, auth: Id): set<Id> {
    set op | op in db.payments && db.payments[op].auth == auth
  }

  function EntryOps(entries: seq<Entry>): set<Id> {
    set i | 0 <= i < |entries| :: entries[i].op
  }

  predicate IndicesCollide(db: Db, auth: Id) {
    exists k, l | k in db.claims && l in db.claims ::
      k.0 == auth && l.0 == auth && k != l && db.claims[k].index == db.claims[l].index
  }

  /** A rejection counts only with its signed resolution and no trace of accounting. */
  predicate RejectionProven(db: Db, env: Env, op: Id, grant: Envelope)
    requires op in db.payments
  {
    var p := db.payments[op];
    && op in db.resolutions && db.resolutions[op].status.Rejected?
    && var e := db.resolutions[op].envelope;
    && Proper(e) && e.message.body.Resolution?
    && var b := e.message.body;
    && !b.accepted && b.op == op && b.wallet == p.wallet && b.merchant == p.merchant && b.terminal == p.terminal
    && b.amount == p.amount && b.auth == p.auth && b.authorizationDigest == DigestOf(grant)
    && b.requestDigest == DigestOf(p.request) && b.receiptDigest == DigestOf(p.receipt)
    && (b.issuerKey, b.issuerFingerprint) in env.trusted
    && Verifies(e, env.trusted[(b.issuerKey, b.issuerFingerprint)])
    && (op, DEBIT) !in db.ledger && (op, CREDIT) !in db.ledger
    && (forall k | k in db.emissions :: k.1 != op)
  }

  /** Does the stored evidence of one manifest entry still hold, and is it free of review? */
  function CheckEntry(db: Db, env: Env, auth: Id, wallet: Id, grant: Envelope, e: Entry): EntryVerdict {
    if (auth, e.op) !in db.claims || e.op !in db.payments then Contradicts
    else
      var claim, p := db.claims[(auth, e.op)], db.payments[e.op];
      if !(&& Proper(p.request) && Proper(p.receipt) && p.request.message.body.Request?
           && grant.message.body.Grant?) then Contradicts
      else
        var rq, gp := p.request.message.body, grant.message.body;
        if !(&& claim == Claim(e.index, e.amount, e.receiptDigest)
             && p.amount == e.amount && p.wallet == wallet && p.auth == auth
             && p.merchant == rq.common.merchant && p.terminal == rq.common.terminal
             && DigestOf(p.receipt) == e.receiptDigest
             && ReceiptBound(p.request, p.receipt, grant)) then Contradicts
        else if !(rq.posKey in db.keys && p.terminal in db.terminals && gp.walletKey in db.keys) then Contradicts
        else
          var posKey, terminal, walletKey := db.keys[rq.posKey], db.terminals[p.terminal], db.keys[gp.walletKey];
          if !(&& posKey.purpose == PosKey(p.terminal)
               && PosSigned(p.request, posKey.publicKey, rq.posKey, posKey.fingerprint, terminal.merchant, p.terminal)
               && walletKey.purpose == WalletKey(wallet) && walletKey.fingerprint == gp.walletFingerprint
               && walletKey.publicKey == gp.walletPublicKey) then Contradicts
          else if (|| RequiresReview(posKey, rq.common.issuedAt)
                   || RequiresReview(walletKey, p.receipt.message.body.confirmedAt)) then NeedsReview
          else if p.ack.Some? && !(&& AckBound(p.request, p.receipt, p.ack.value)
                                   && PosSigned(p.ack.value, posKey.publicKey, rq.posKey, posKey.fingerprint,
                                                terminal.merchant, p.terminal)) then Contradicts
          else if p.ack.Some? && RequiresReview(posKey, p.ack.value.message.body.acceptedAt) then NeedsReview
          else if p.state.Accepted? || p.state.PendingEvidence? || p.state.Validated? then Fine
          else if p.state.Rejected? && RejectionProven(db, env, e.op, grant) then Fine
          else Contradicts
  }

  /** The first entry that is not fine decides. */
  function CheckEntries(db: Db, env: Env, auth: Id, wallet: Id, grant: Envelope, entries: seq<Entry>): (v: EntryVerdict)
    ensures v.Fine? <==> forall e | e in entries :: CheckEntry(db, env, auth, wallet, grant, e).Fine?
  {
    if |entries| == 0 then Fine
    else
      var v := CheckEntry(db, env, auth, wallet, grant, entries[0]);
      if v.Fine? then
        assert forall e | e in entries :: e == entries[0] || e in entries[1..];
        CheckEntries(db, env, auth, wallet, grant, entries[1..])
      else v
  }

  /** Amount of the manifest entries whose payment is in a given state. */
  function TotalIn(payments: map<Id, Payment>, entries: seq<Entry>, state: PaymentState): int {
    if |entries| == 0 then 0
    else
      var last := entries[|entries| - 1];
      TotalIn(payments, entries[..|entries| - 1], state)
      + if last.op in payments && payments[last.op].state == state then last.amount else 0
  }

  /** The counters of the commitment agree with the manifest. */
  predicate AccountsAgree(db: Db, c: Commitment, entries: seq<Entry>) {
    && TotalIn(db.payments, entries, Accepted) == c.emitted
    && TotalIn(db.payments, entries, Rejected) == c.rejected
    && c.emitted + c.rejected <= Total(entries) <= c.reserved
    && c.held == c.reserved - c.emitted - c.rejected - c.unissued
    && c.unissued == 0
  }

  predicate ClosureIdTaken(db: Db, auth: Id, id: Id) {
    exists a | a in db.commitments ::
      && a != auth && db.commitments[a].Closed()
      && db.commitments[a].sealed.value.closure.message.body.Closure?
      && db.commitments[a].sealed.value.closure.message.body.closureId == id
  }

  /** Seal a commitment: what was never issued is released, the rest stays held. */
  function SealOn(db: Db, auth: Id, close: Envelope, entries: seq<Entry>): Db
    requires auth in db.commitments
  {
    var c := db.commitments[auth];
    var unissued := c.reserved - Total(entries);
    var held := c.held - unissued;
    db.(commitments := db.commitments[auth := c.(phase := if held == 0 then SETTLED else SEALED,
                                                 unissued := unissued, held := held,
                                                 sealed := Some(Sealed(close, entries)))],
        authorizations := if auth !in db.authorizations then db.authorizations
                          else db.authorizations[auth := db.authorizations[auth].(active := false)])
  }

  function Close(db: Db, env: Env, user: Id, auth: Id, close: Wire, manifest: Option<seq<Entry>>): (Db, CloseReply) {
    if auth !in db.commitments then (db, NoCommitment)
    else
      var c := db.commitments[auth];
      if c.wallet !in db.wallets || db.wallets[c.wallet].owner != user then (db, NotYourAuthorization)
      else if Parse3(close).None? || manifest.None? then (db, CloseInvalid)
      else if !(TrustedGrant(env, c.grant) && CloseBound(close.envelope, c.grant, manifest.value)) then (db, CloseInvalid)
      else if close.envelope.message.body.auth != auth then (db, CloseInvalid)
      else if c.Closed() then
        (db, if c.sealed.value == Sealed(close.envelope, manifest.value) then SameClosure else OtherClosure)
      else CloseOpen(db, env, auth, close.envelope, manifest.value)
  }

  /** The part of a closure that looks at the recorded evidence of an open commitment. */
  function CloseOpen(db: Db, env: Env, auth: Id, close: Envelope, entries: seq<Entry>): (Db, CloseReply)
    requires auth in db.commitments && close.message.body.Closure?
  {
    var c := db.commitments[auth];
    if ClaimOps(db, auth) != EntryOps(entries) || PaymentOps(db, auth) != EntryOps(entries) then (db, CloseInvalid)
    else if IndicesCollide(db, auth) then (db.(wallets := Flag(db.wallets, c.wallet, true)), IndexConflict)
    else
      var v := CheckEntries(db, env, auth, c.wallet, c.grant, entries);
      if v.Contradicts? then (db, CloseInvalid)
      else if v.NeedsReview? then (db.(wallets := Flag(db.wallets, c.wallet, true)), RevocationBlocks)
      else if !AccountsAgree(db, c, entries) then (db, CloseInvalid)
      else if ClosureIdTaken(db, auth, close.message.body.closureId) then (db, NotClosed)
      else (SealOn(db, auth, close, entries), Closed)
  }

  datatype StoreReply = NoPayment | NotParticipant | ResolutionInvalid | ResolutionConflict | Stored

  /** Is this a trusted resolution that matches the payment in every field? */
  predicate ResolutionMatches(db: Db, env: Env, op: Id, e: Envelope)
    requires op in db.payments
  {
    var p := db.payments[op];
    && Proper(e) && e.message.body.Resolution?
    && Proper(p.request) && Proper(p.receipt) && p.auth in db.commitments
    && var b := e.message.body;
    && b.op == op && p.state == (if b.accepted then Accepted else Rejected)
    && b.wallet == p.wallet && b.merchant == p.merchant && b.auth == p.auth && b.terminal == p.terminal
    && b.amount == p.amount && b.requestDigest == DigestOf(p.request) && b.receiptDigest == DigestOf(p.receipt)
    && b.authorizationDigest == DigestOf(db.commitments[p.auth].grant)
    && (b.issuerKey, b.issuerFingerprint) in env.trusted
    && Verifies(e, env.trusted[(b.issuerKey, b.issuerFingerprint)])
  }

  function StoreResolution(db: Db, env: Env, user: Id, op: Id, w: Wire): (Db, StoreReply) {
    if op !in db.payments then (db, NoPayment)
    else if !Authorized(db, user, db.payments[op].wallet, db.payments[op].terminal) then (db, NotParticipant)
    else if Parse3(w).None? || !ResolutionMatches(db, env, op, w.envelope) then (db, ResolutionInvalid)
    else if op in db.resolutions then
      (db, if db.resolutions[op].envelope == w.envelope then Stored else ResolutionConflict)
    else
      (db.(resolutions := db.resolutions[op := ResolutionRow(db.payments[op].state, w.envelope)]), Stored)
  }
}
