/** What every committed state keeps. Each clause names only the tables it speaks of. */
module Invariant {
  import opened Messages
  import opened Database
  import opened Sums
  import opened SyncV3
  import opened Authorizations

  /** Owners and wallets correspond, and the decimal balance is the one in cents. */
  ghost predicate WalletsOk(wallets: map<Id, Wallet>, walletOf: map<Id, Id>, saldo: map<Id, real>) {
    && (forall u | u in walletOf :: walletOf[u] in wallets && wallets[walletOf[u]].owner == u)
    && (forall w | w in wallets ::
          && wallets[w].owner in walletOf && walletOf[wallets[w].owner] == w
          && wallets[w].balance >= 0
          && wallets[w].owner in saldo && saldo[wallets[w].owner] == wallets[w].balance as real / 100.0)
  }

  ghost predicate AuthorizationsOk(authorizations: map<Id, Authorization>, wallets: map<Id, Wallet>) {
    forall a | a in authorizations ::
      authorizations[a].wallet in wallets && authorizations[a].remaining >= 0 && authorizations[a].payments >= 0
  }

  /** The commitment identity and its agreement with the authorization row and the signed grant. */
  ghost predicate CommitmentOk(a: Id, c: Commitment, row: Authorization) {
    && row.wallet == c.wallet && row.active == !c.Closed()
    && Proper(c.grant) && c.grant.message.body.Grant?
    && c.grant.message.body.auth == a && c.grant.message.body.wallet == c.wallet
    && c.grant.message.body.total == c.reserved
    && c.held == c.reserved - c.emitted - c.unissued - c.rejected
    && c.held >= 0 && c.emitted >= 0 && c.unissued >= 0 && c.rejected >= 0
    && row.remaining == c.reserved - c.emitted
    && row.payments == c.grant.message.body.maxPayments - c.count
    && (!c.Closed() ==> c.unissued == 0)
    && c.phase == (if !c.Closed() then OPEN else if c.held == 0 then SETTLED else SEALED)
  }

  ghost predicate CommitmentsOk(commitments: map<Id, Commitment>, authorizations: map<Id, Authorization>) {
    forall a | a in commitments :: a in authorizations && CommitmentOk(a, commitments[a], authorizations[a])
  }

  function ClaimOf(p: Payment): Claim
    requires p.receipt.message.body.Receipt?
  {
    Claim(p.receipt.message.body.index, p.amount, DigestOf(p.receipt))
  }

  /** A version 3 payment row is what its bound evidence says, in one of the states a commit may leave. */
  ghost predicate PaymentOk(op: Id, p: Payment, c: Commitment) {
    && ReceiptBound(p.request, p.receipt, c.grant)
    && var common := p.receipt.message.body.common;
    && common.op == op && p.wallet == c.wallet && p.amount == common.amount && p.nonce == common.nonce
    && p.merchant == common.merchant && p.terminal == common.terminal
    && p.auth == p.receipt.message.body.auth
    && (p.ack.Some? ==> AckBound(p.request, p.receipt, p.ack.value))
    && !p.state.Validated?
    && (p.state.PendingEvidence? ==> p.ack.None?)
    && (p.state.Accepted? ==> p.ack.Some?)
  }

  /** A version 2 payment row is what its evidence says; its state may be any. */
  ghost predicate LegacyPaymentOk(p: Payment) {
    && p.request.message.version == 2 && p.request.message.body.Request? && p.receipt.message.body.LegacyReceipt?
    && p.amount == p.request.message.body.common.amount && p.nonce == p.request.message.body.common.nonce
    && p.auth == p.receipt.message.body.auth && p.wallet == p.receipt.message.body.wallet
  }

  ghost predicate PaymentsOk(payments: map<Id, Payment>, commitments: map<Id, Commitment>, authorizations: map<Id, Authorization>) {
    && (forall op | op in payments ::
          && payments[op].auth in authorizations
          && if payments[op].auth in commitments then PaymentOk(op, payments[op], commitments[payments[op].auth])
             else LegacyPaymentOk(payments[op]))
    && (forall op, other | op in payments && other in payments && op != other ::
          payments[op].nonce != payments[other].nonce)
  }

  /** Operations with claims are exactly those with payments, and the claim is the payment's. */
  ghost predicate ClaimsOk(claims: map<(Id, Id), Claim>, payments: map<Id, Payment>, v3: set<Id>) {
    && (forall k | k in claims ::
          && k.1 in payments && payments[k.1].auth == k.0 && k.0 in v3
          && payments[k.1].receipt.message.body.Receipt? && claims[k] == ClaimOf(payments[k.1]))
    && (forall op | op in payments && payments[op].auth in v3 :: (payments[op].auth, op) in claims)
  }

  /** Two claims on one index flag the wallet. */
  ghost predicate FlagsOk(claims: map<(Id, Id), Claim>, commitments: map<Id, Commitment>, wallets: map<Id, Wallet>) {
    forall k, l | k in claims && l in claims && k.0 == l.0 && k != l && claims[k].index == claims[l].index ::
      k.0 in commitments && commitments[k.0].wallet in wallets && wallets[commitments[k.0].wallet].review
  }

  /** Accepted payments and emissions correspond, and no two emissions share an index. */
  ghost predicate EmissionsOk(emissions: map<(Id, Id), Emission>, payments: map<Id, Payment>, v3: set<Id>) {
    && (forall k | k in emissions ::
          && k.1 in payments && payments[k.1].auth == k.0 && k.0 in v3 && payments[k.1].state.Accepted?
          && payments[k.1].receipt.message.body.Receipt?
          && emissions[k] == Emission(payments[k.1].receipt.message.body.index, payments[k.1].amount))
    && (forall op | op in payments && payments[op].auth in v3 && payments[op].state.Accepted? ::
          (payments[op].auth, op) in emissions)
    && (forall k, l | k in emissions && l in emissions && k.0 == l.0 && k != l ::
          emissions[k].index != emissions[l].index)
  }

  ghost function EmittedBy(emissions: map<(Id, Id), Emission>, a: Id): ((Id, Id)) -> int {
    (k: (Id, Id)) => if k in emissions && k.0 == a then emissions[k].amount else 0
  }

  ghost function PaidBy(payments: map<Id, Payment>, a: Id, state: PaymentState): Id -> int {
    op => if op in payments && payments[op].auth == a && payments[op].state == state then payments[op].amount else 0
  }

  ghost function EmissionsOf(emissions: map<(Id, Id), Emission>, a: Id): set<(Id, Id)> {
    set k | k in emissions && k.0 == a
  }

  /** The counters of a commitment are the sums and counts of its rows. */
  ghost predicate CounterOk(a: Id, c: Commitment, emissions: map<(Id, Id), Emission>, payments: map<Id, Payment>) {
    && c.emitted == Sum(emissions.Keys, EmittedBy(emissions, a))
    && c.emitted == Sum(payments.Keys, PaidBy(payments, a, Accepted))
    && c.rejected == Sum(payments.Keys, PaidBy(payments, a, Rejected))
    && c.count == |EmissionsOf(emissions, a)|
  }

  ghost predicate CountersOk(commitments: map<Id, Commitment>, emissions: map<(Id, Id), Emission>, payments: map<Id, Payment>) {
    forall a | a in commitments :: CounterOk(a, commitments[a], emissions, payments)
  }

  /** Exactly the accepted payments have a debit and a credit, which cancel out. */
  ghost predicate LedgerOk(ledger: map<(Id, EntryType), LedgerEntry>, payments: map<Id, Payment>, wallets: map<Id, Wallet>) {
    && (forall k | k in ledger :: k.0 in payments && payments[k.0].state.Accepted?)
    && (forall op | op in payments && payments[op].state.Accepted? ::
          && (op, DEBIT) in ledger && (op, CREDIT) in ledger
          && ledger[(op, DEBIT)] == LedgerEntry(payments[op].wallet, -payments[op].amount)
          && ledger[(op, CREDIT)].delta == payments[op].amount
          && ledger[(op, CREDIT)].wallet in wallets)
  }

  ghost function LedgerBy(ledger: map<(Id, EntryType), LedgerEntry>, w: Id): ((Id, EntryType)) -> int {
    (k: (Id, EntryType)) => if k in ledger && ledger[k].wallet == w then ledger[k].delta else 0
  }

  ghost function TopupBy(topups: map<Id, Topup>, w: Id): Id -> int {
    r => if r in topups && topups[r].wallet == w then topups[r].amount else 0
  }

  /** A balance is the opening balance plus the wallet's top-ups plus its ledger. */
  ghost predicate BalancesOk(opening: map<Id, int>, wallets: map<Id, Wallet>, topups: map<Id, Topup>,
                             ledger: map<(Id, EntryType), LedgerEntry>)
  {
    && opening.Keys == wallets.Keys
    && forall w | w in wallets ::
         wallets[w].balance == opening[w] + Sum(topups.Keys, TopupBy(topups, w)) + Sum(ledger.Keys, LedgerBy(ledger, w))
  }

  /** Final version 3 payments, and only they, have a resolution with their status. */
  ghost predicate ResolutionsOk(resolutions: map<Id, ResolutionRow>, payments: map<Id, Payment>, v3: set<Id>) {
    && (forall op | op in resolutions ::
          && op in payments && payments[op].auth in v3 && payments[op].Final()
          && resolutions[op].status == payments[op].state)
    && (forall op | op in payments && payments[op].auth in v3 && payments[op].Final() :: op in resolutions)
  }

  /** What is held under a closed commitment is exactly the manifest minus its settled entries, and
    nothing outside the manifest was ever settled. */
  ghost predicate SealOk(a: Id, c: Commitment, payments: map<Id, Payment>, claims: map<(Id, Id), Claim>)
    requires c.Closed()
  {
    var entries := c.sealed.value.entries;
    && WellFormedManifest(entries)
    && c.unissued == c.reserved - Total(entries)
    && c.held == Total(entries) - TotalIn(payments, entries, Accepted) - TotalIn(payments, entries, Rejected)
    && (forall e | e in entries ::
          && e.op in payments && payments[e.op].auth == a
          && (a, e.op) in claims && claims[(a, e.op)] == Claim(e.index, e.amount, e.receiptDigest))
    && (forall op | op in payments && payments[op].auth == a && payments[op].Final() :: op in EntryOps(entries))
  }

  ghost predicate SealsOk(commitments: map<Id, Commitment>, payments: map<Id, Payment>, claims: map<(Id, Id), Claim>) {
    forall a | a in commitments && commitments[a].Closed() :: SealOk(a, commitments[a], payments, claims)
  }

  /** No wallet has promised more than it holds. */
  ghost predicate Solvent(wallets: map<Id, Wallet>, commitments: map<Id, Commitment>, authorizations: map<Id, Authorization>) {
    forall w | w in wallets ::
      Held(commitments, w) + Legacy(authorizations, commitments.Keys, w) <= wallets[w].balance
  }

  /** A request id stands for one authorization, and an authorization for one request id. */
  ghost predicate RequestsOk(issuedFor: map<Id, Id>, commitments: map<Id, Commitment>) {
    && (forall r | r in issuedFor :: issuedFor[r] in commitments)
    && (forall r, q | r in issuedFor && q in issuedFor && r != q :: issuedFor[r] != issuedFor[q])
  }

  ghost predicate Inv(db: Db, opening: map<Id, int>) {
    && WalletsOk(db.wallets, db.walletOf, db.saldo)
    && AuthorizationsOk(db.authorizations, db.wallets)
    && CommitmentsOk(db.commitments, db.authorizations)
    && PaymentsOk(db.payments, db.commitments, db.authorizations)
    && ClaimsOk(db.claims, db.payments, db.commitments.Keys)
    && FlagsOk(db.claims, db.commitments, db.wallets)
    && EmissionsOk(db.emissions, db.payments, db.commitments.Keys)
    && CountersOk(db.commitments, db.emissions, db.payments)
    && LedgerOk(db.ledger, db.payments, db.wallets)
    && BalancesOk(opening, db.wallets, db.topups, db.ledger)
    && ResolutionsOk(db.resolutions, db.payments, db.commitments.Keys)
    && SealsOk(db.commitments, db.payments, db.claims)
    && Solvent(db.wallets, db.commitments, db.authorizations)
    && RequestsOk(db.issuedFor, db.commitments)
  }

  lemma InvParts(db: Db, opening: map<Id, int>)
    requires Inv(db, opening)
    ensures WalletsOk(db.wallets, db.walletOf, db.saldo)
    ensures AuthorizationsOk(db.authorizations, db.wallets)
    ensures CommitmentsOk(db.commitments, db.authorizations)
    ensures PaymentsOk(db.payments, db.commitments, db.authorizations)
    ensures ClaimsOk(db.claims, db.payments, db.commitments.Keys)
    ensures FlagsOk(db.claims, db.commitments, db.wallets)
    ensures EmissionsOk(db.emissions, db.payments, db.commitments.Keys)
    ensures CountersOk(db.commitments, db.emissions, db.payments)
    ensures LedgerOk(db.ledger, db.payments, db.wallets)
    ensures BalancesOk(opening, db.wallets, db.topups, db.ledger)
    ensures ResolutionsOk(db.resolutions, db.payments, db.commitments.Keys)
    ensures SealsOk(db.commitments, db.payments, db.claims)
    ensures Solvent(db.wallets, db.commitments, db.authorizations)
    ensures RequestsOk(db.issuedFor, db.commitments)
  {
    hide WalletsOk, AuthorizationsOk, CommitmentsOk, PaymentsOk, ClaimsOk, FlagsOk, EmissionsOk, CountersOk, LedgerOk, BalancesOk, ResolutionsOk, SealsOk, Solvent, RequestsOk;
  }

  lemma InvBuild(db: Db, opening: map<Id, int>)
    requires WalletsOk(db.wallets, db.walletOf, db.saldo)
    requires AuthorizationsOk(db.authorizations, db.wallets)
    requires CommitmentsOk(db.commitments, db.authorizations)
    requires PaymentsOk(db.payments, db.commitments, db.authorizations)
    requires ClaimsOk(db.claims, db.payments, db.commitments.Keys)
    requires FlagsOk(db.claims, db.commitments, db.wallets)
    requires EmissionsOk(db.emissions, db.payments, db.commitments.Keys)
    requires CountersOk(db.commitments, db.emissions, db.payments)
    requires LedgerOk(db.ledger, db.payments, db.wallets)
    requires BalancesOk(opening, db.wallets, db.topups, db.ledger)
    requires ResolutionsOk(db.resolutions, db.payments, db.commitments.Keys)
    requires SealsOk(db.commitments, db.payments, db.claims)
    requires Solvent(db.wallets, db.commitments, db.authorizations)
    requires RequestsOk(db.issuedFor, db.commitments)
    ensures Inv(db, opening)
  {
    hide WalletsOk, AuthorizationsOk, CommitmentsOk, PaymentsOk, ClaimsOk, FlagsOk, EmissionsOk, CountersOk, LedgerOk, BalancesOk, ResolutionsOk, SealsOk, Solvent, RequestsOk;
  }
}
