/** The tables of the accounting database, one record per committed state.

  Rows are keyed by their primary key or by the columns of their unique constraint, so inserting a
  duplicate key is visible as a key already present. */
module Database {
  import opened Messages

  datatype Wallet = Wallet(owner: Id, balance: int, review: bool)

  datatype Authorization = Authorization(wallet: Id, walletKey: Id, maxPayment: int, issuedAt: int, expiresAt: int,
                                         remaining: int, payments: int, active: bool)

  datatype Phase = OPEN | SEALED | SETTLED

  /** What a closure leaves behind: its signed message and the manifest it covers. */
  datatype Sealed = Sealed(closure: Envelope, entries: seq<Entry>)

  datatype Commitment = Commitment(wallet: Id, reserved: int, emitted: int, count: int, held: int,
                                   unissued: int, rejected: int, phase: Phase,
                                   sealed: Option<Sealed>, grant: Envelope)
  {
    predicate Closed() { sealed.Some? }
  }

  datatype PaymentState = PendingEvidence | PendingReview | Validated | Accepted | Rejected

  datatype Code =
    | EvidenceOmitted | RevocationReview | IndexReused | Insufficient | InsufficientLegacy

  datatype Payment = Payment(wallet: Id, merchant: Id, terminal: Id, auth: Id, amount: int, nonce: nat,
                             request: Envelope, receipt: Envelope, ack: Option<Envelope>,
                             state: PaymentState, code: Option<Code>)
  {
    predicate Final() { state.Accepted? || state.Rejected? }
  }

  /** Durable evidence that an authorization index was used, kept even before the acknowledgement. */
  datatype Claim = Claim(index: int, amount: int, receiptDigest: Digest)

  datatype Emission = Emission(index: int, amount: int)

  datatype EntryType = DEBIT | CREDIT

  datatype LedgerEntry = LedgerEntry(wallet: Id, delta: int)

  datatype ResolutionRow = ResolutionRow(status: PaymentState, envelope: Envelope)

  datatype Topup = Topup(wallet: Id, user: Id, amount: int)

  datatype Inventoried = Inventoried(wallet: Id, auth: Id, receiptDigest: Digest)

  datatype Purpose = WalletKey(wallet: Id) | PosKey(terminal: Id)

  datatype Key = Key(purpose: Purpose, publicKey: PublicKey, fingerprint: Digest,
                     revoked: bool, revokedAt: Option<int>)

  datatype Terminal = Terminal(merchantUser: Id, merchant: Id, active: bool)

  /** `walletOf` is the unique index of the wallets on their owner, `issuedFor` that of the
    authorizations on the request they answer, and `saldo` the users' decimal balance. */
  datatype Db = Db(
    wallets: map<Id, Wallet>,
    walletOf: map<Id, Id>,
    saldo: map<Id, real>,
    authorizations: map<Id, Authorization>,
    issuedFor: map<Id, Id>,
    commitments: map<Id, Commitment>,
    payments: map<Id, Payment>,
    claims: map<(Id, Id), Claim>,
    emissions: map<(Id, Id), Emission>,
    ledger: map<(Id, EntryType), LedgerEntry>,
    resolutions: map<Id, ResolutionRow>,
    topups: map<Id, Topup>,
    inventory: map<Id, Inventoried>,
    keys: map<Id, Key>,
    terminals: map<Id, Terminal>)

  datatype Issuer = Issuer(keyId: Id, publicKey: PublicKey)

  /** Configuration read by the handlers: trusted issuers, the active issuer and the issuance limits. */
  datatype Env = Env(trusted: map<(Id, Digest), PublicKey>, issuer: Option<Issuer>,
                     maxPaymentCents: int, maxOfflinePayments: int, authorizationSeconds: int)

  predicate TrustedGrant(env: Env, grant: Envelope) {
    && Proper(grant) && grant.message.body.Grant?
    && var gp := grant.message.body;
    && (gp.issuerKey, gp.issuerFingerprint) in env.trusted
    && var key := env.trusted[(gp.issuerKey, gp.issuerFingerprint)];
    && gp.issuerFingerprint == OfKey(key) && Verifies(grant, key)
  }

  /** Unknown revocation dates never silently authorize historical evidence. */
  predicate RequiresReview(key: Key, at: int) {
    key.revoked && (key.revokedAt.None? || at >= key.revokedAt.value)
  }

  /** The payer and the merchant of a payment may act on it; nobody else may. */
  predicate Authorized(db: Db, user: Id, wallet: Id, terminal: Id) {
    || (wallet in db.wallets && db.wallets[wallet].owner == user)
    || (terminal in db.terminals && db.terminals[terminal].merchantUser == user)
  }

  predicate NonceTaken(db: Db, nonce: nat) {
    exists op | op in db.payments :: db.payments[op].nonce == nonce
  }

  function Credit(wallets: map<Id, Wallet>, w: Id, amount: int): map<Id, Wallet> {
    if w in wallets then wallets[w := wallets[w].(balance := wallets[w].balance + amount)] else wallets
  }

  function CreditUser(saldo: map<Id, real>, u: Id, amount: int): map<Id, real> {
    if u in saldo then saldo[u := saldo[u] + amount as real / 100.0] else saldo
  }

  function Flag(wallets: map<Id, Wallet>, w: Id, raise: bool): map<Id, Wallet> {
    if raise && w in wallets then wallets[w := wallets[w].(review := true)] else wallets
  }
}
