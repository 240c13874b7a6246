/** The signed messages of the protocol, as values.

  A message is its version and its body; its canonical bytes are not repeated here, because
  `Json` proves that a value has exactly one wire form. Two idealisations stand for the
  cryptography: a digest is an injective constructor over what was hashed, and a signature
  records the key that made it and the message it covers. */
module Messages {
  datatype Option<+T> = None | Some(value: T)

  type Id = nat
  type PublicKey = nat

  const MAX_INT64: int := 0x7fff_ffff_ffff_ffff
  const MAX_REQUEST_LIFETIME: int := 120
  const LEGACY_MAX_AMOUNT: int := 100_000
  const MAX_MESSAGE_BYTES: nat := 4096

  datatype Digest = OfMessage(message: Message) | OfKey(key: PublicKey) | OfManifest(entries: seq<Entry>) | Other(nat)

  /** One line of a closure manifest. */
  datatype Entry = Entry(index: int, op: Id, amount: int, receiptDigest: Digest)

  /** The fields shared by a request, its receipt and its acknowledgement. */
  datatype Common = Common(op: Id, merchant: Id, terminal: Id, amount: int, nonce: nat,
                           issuedAt: int, expiresAt: int)

  datatype Body =
    | Request(common: Common, posKey: Id, posFingerprint: Digest)
    | Grant(auth: Id, wallet: Id, walletKey: Id, walletFingerprint: Digest, walletPublicKey: PublicKey,
            maxPayment: int, maxPayments: int, total: int, maxLifetime: int,
            grantedAt: int, spendExpiresAt: int, issuerKey: Id, issuerFingerprint: Digest)
    | Receipt(common: Common, wallet: Id, auth: Id, walletKey: Id, walletFingerprint: Digest,
              requestDigest: Digest, authorizationDigest: Digest, index: int, confirmedAt: int)
    | LegacyReceipt(common: Common, wallet: Id, auth: Id, walletKey: Id, walletFingerprint: Digest,
                    requestDigest: Digest)
    | Ack(common: Common, wallet: Id, auth: Id, posKey: Id, posFingerprint: Digest,
          receiptDigest: Digest, acceptedAt: int)
    | Closure(closureId: Id, auth: Id, wallet: Id, walletKey: Id, walletFingerprint: Digest,
              authorizationDigest: Digest, finalIndex: int, emittedTotal: int,
              manifestDigest: Digest, closedAt: int)
    | Resolution(op: Id, wallet: Id, merchant: Id, terminal: Id, amount: int, auth: Id,
                 authorizationDigest: Digest, requestDigest: Digest, receiptDigest: Digest,
                 accepted: bool, revision: int, issuerKey: Id, issuerFingerprint: Digest)
    | KeyRegistration(registered: Id)

  datatype Message = Message(version: int, body: Body)
  datatype Signature = Signature(key: PublicKey, over: Message)
  datatype Envelope = Envelope(message: Message, signature: Signature)

  /** A submitted Base64 field: undecodable, decodable but not an envelope, or an envelope. */
  datatype Wire = Undecodable | Garbled(nat) | Wire(envelope: Envelope)

  predicate Verifies(e: Envelope, key: PublicKey) {
    e.signature.key == key && e.signature.over == e.message
  }

  function Sign(body: Body, key: PublicKey): Envelope {
    Envelope(Message(3, body), Signature(key, Message(3, body)))
  }

  function DigestOf(e: Envelope): Digest {
    OfMessage(e.message)
  }

  predicate CommonFits(c: Common) {
    && 1 <= c.amount <= MAX_INT64
    && 0 < c.expiresAt - c.issuedAt <= MAX_REQUEST_LIFETIME
  }

  /** The value checks a version 3 body must pass before it is looked at. */
  predicate Valid3(b: Body) {
    match b
    case Request(c, _, _) => CommonFits(c)
    case Grant(_, _, _, fingerprint, key, maxPayment, maxPayments, total, lifetime, from, until, _, _) =>
      && 1 <= maxPayment <= MAX_INT64 && 1 <= maxPayments <= MAX_INT64 && 1 <= total <= MAX_INT64
      && 1 <= lifetime <= MAX_REQUEST_LIFETIME && from < until
      && maxPayment * maxPayments <= MAX_INT64 && total <= maxPayment * maxPayments
      && fingerprint == OfKey(key)
    case Receipt(c, _, _, _, _, _, _, index, confirmedAt) =>
      CommonFits(c) && 1 <= index <= MAX_INT64 && c.issuedAt <= confirmedAt <= c.expiresAt
    case LegacyReceipt(_, _, _, _, _, _) => false
    case Ack(c, _, _, _, _, _, acceptedAt) => CommonFits(c) && c.issuedAt <= acceptedAt <= c.expiresAt
    case Closure(_, _, _, _, _, _, finalIndex, emittedTotal, _, _) =>
      0 <= finalIndex <= MAX_INT64 && 0 <= emittedTotal <= MAX_INT64
    case Resolution(_, _, _, _, amount, _, _, _, _, _, revision, _, _) =>
      1 <= amount <= MAX_INT64 && 1 <= revision <= MAX_INT64
    case KeyRegistration(_) => true
  }

  /** The value checks of the retired version 2. */
  predicate Valid2(b: Body) {
    match b
    case Request(c, _, _) =>
      1 <= c.amount <= LEGACY_MAX_AMOUNT && 0 < c.expiresAt - c.issuedAt <= MAX_REQUEST_LIFETIME
    case LegacyReceipt(c, _, _, _, _, _) => 1 <= c.amount <= LEGACY_MAX_AMOUNT && c.issuedAt < c.expiresAt
    case Ack(c, _, _, _, _, _, acceptedAt) =>
      1 <= c.amount <= LEGACY_MAX_AMOUNT && c.issuedAt < c.expiresAt && c.issuedAt <= acceptedAt <= c.expiresAt
    case _ => false
  }

  function Parse3(w: Wire): (r: Option<Envelope>)
    ensures r.Some? <==> w.Wire? && w.envelope.message.version == 3 && Valid3(w.envelope.message.body)
    ensures r.Some? ==> r.value == w.envelope
  {
    if w.Wire? && w.envelope.message.version == 3 && Valid3(w.envelope.message.body) then Some(w.envelope) else None
  }

  function Parse2(w: Wire): (r: Option<Envelope>)
    ensures r.Some? <==> w.Wire? && w.envelope.message.version == 2 && Valid2(w.envelope.message.body)
    ensures r.Some? ==> r.value == w.envelope
  {
    if w.Wire? && w.envelope.message.version == 2 && Valid2(w.envelope.message.body) then Some(w.envelope) else None
  }

  /** The operation a message speaks of, when its type has one. */
  function OperationOf(b: Body): Option<Id> {
    if b.Request? || b.Receipt? || b.LegacyReceipt? || b.Ack? then Some(b.common.op)
    else if b.Resolution? then Some(b.op)
    else None
  }

  predicate NamesWallet(b: Body) {
    b.Grant? || b.Receipt? || b.LegacyReceipt? || b.Ack? || b.Closure? || b.Resolution?
  }

  predicate Proper(e: Envelope) {
    e.message.version == 3 && Valid3(e.message.body)
  }

  /** Does this receipt answer this request under this grant, signed by the granted wallet key? */
  predicate ReceiptBound(request: Envelope, receipt: Envelope, grant: Envelope) {
    && Proper(request) && Proper(receipt) && Proper(grant)
    && request.message.body.Request? && receipt.message.body.Receipt? && grant.message.body.Grant?
    && var rq, rp, gp := request.message.body, receipt.message.body, grant.message.body;
    && rq.common == rp.common
    && rp.requestDigest == DigestOf(request) && rp.authorizationDigest == DigestOf(grant)
    && rp.auth == gp.auth
    && rp.wallet == gp.wallet && rp.walletKey == gp.walletKey && rp.walletFingerprint == gp.walletFingerprint
    && rp.common.amount <= gp.maxPayment && rp.common.amount <= gp.total
    && rp.index <= gp.maxPayments
    && gp.grantedAt <= rp.common.issuedAt <= rp.confirmedAt <= rp.common.expiresAt <= gp.spendExpiresAt
    && rp.common.expiresAt - rp.common.issuedAt <= gp.maxLifetime
    && Verifies(receipt, gp.walletPublicKey)
  }

  /** Does this acknowledgement answer this receipt with the request's own POS identity? */
  predicate AckBound(request: Envelope, receipt: Envelope, ack: Envelope) {
    && Proper(request) && Proper(receipt) && Proper(ack)
    && request.message.body.Request? && receipt.message.body.Receipt? && ack.message.body.Ack?
    && var rq, rp, ap := request.message.body, receipt.message.body, ack.message.body;
    && rq.common == rp.common == ap.common
    && rp.wallet == ap.wallet && rp.auth == ap.auth
    && rq.posKey == ap.posKey && rq.posFingerprint == ap.posFingerprint
    && rp.requestDigest == DigestOf(request) && ap.receiptDigest == DigestOf(receipt)
    && rp.confirmedAt <= ap.acceptedAt
  }

  /** Is this request or acknowledgement signed by the POS key of the catalogue, within its scope? */
  predicate PosSigned(e: Envelope, key: PublicKey, keyId: Id, fingerprint: Digest, merchant: Id, terminal: Id) {
    && Proper(e) && (e.message.body.Request? || e.message.body.Ack?)
    && var p := e.message.body;
    && p.posKey == keyId && p.posFingerprint == fingerprint && OfKey(key) == fingerprint
    && p.common.merchant == merchant && p.common.terminal == terminal
    && Verifies(e, key)
  }

  /** Total amount of a manifest. */
  function Total(entries: seq<Entry>): int {
    if |entries| == 0 then 0 else Total(entries[..|entries| - 1]) + entries[|entries| - 1].amount
  }

  predicate WellFormedManifest(entries: seq<Entry>) {
    && (forall i | 0 <= i < |entries| :: entries[i].index == i + 1 && 1 <= entries[i].amount <= MAX_INT64)
    && (forall i, j | 0 <= i < j < |entries| :: entries[i].op != entries[j].op)
  }

  function DigitCount(n: int): nat {
    if n < 10 then 1 else 1 + DigitCount(n / 10)
  }

  /** Bytes of the lines of a manifest, each with one separator: 173 bytes of names, identifier, digest and punctuation,
    and the digits of two numbers. `ManifestSize.ManifestFits` proves it of the canonical form. */
  function LinesLength(entries: seq<Entry>): nat {
    if |entries| == 0 then 0
    else
      var last := entries[|entries| - 1];
      LinesLength(entries[..|entries| - 1]) + 174 + DigitCount(last.amount) + DigitCount(last.index)
  }

  /** Bytes of a manifest. */
  function ManifestLength(entries: seq<Entry>): nat {
    if |entries| == 0 then 2 else 1 + LinesLength(entries)
  }

  /** A larger manifest has no digest and is not parsed. */
  predicate Fits(entries: seq<Entry>) {
    ManifestLength(entries) <= MAX_MESSAGE_BYTES
  }

  /** Does this closure, signed by the granted wallet key, cover exactly this manifest? */
  predicate CloseBound(close: Envelope, grant: Envelope, entries: seq<Entry>) {
    && Proper(close) && Proper(grant)
    && close.message.body.Closure? && grant.message.body.Grant?
    && var cp, gp := close.message.body, grant.message.body;
    && cp.auth == gp.auth && cp.wallet == gp.wallet
    && cp.walletKey == gp.walletKey && cp.walletFingerprint == gp.walletFingerprint
    && cp.authorizationDigest == DigestOf(grant) && cp.manifestDigest == OfManifest(entries)
    && Fits(entries) && WellFormedManifest(entries)
    && |entries| == cp.finalIndex && |entries| <= gp.maxPayments
    && Total(entries) == cp.emittedTotal && Total(entries) <= gp.total
    && (forall i | 0 <= i < |entries| :: entries[i].amount <= gp.maxPayment)
    && gp.grantedAt <= cp.closedAt
    && Verifies(close, gp.walletPublicKey)
  }
}
