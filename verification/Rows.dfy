/** What one row written into one table keeps, clause by clause. */
module Rows {
  import opened Messages
  import opened Database
  import opened Sums
  import opened SyncV3
  import opened Authorizations
  import opened Invariant

  /** p may be written for op: it repeats the fixed columns of a row that is not final, or has a new nonce. */
  ghost predicate Replaces(payments: map<Id, Payment>, op: Id, p: Payment) {
    if op in payments then
      var q := payments[op];
      && q.auth == p.auth && q.amount == p.amount && q.wallet == p.wallet && q.nonce == p.nonce
      && q.request == p.request && q.receipt == p.receipt && !q.Final()
    else forall o | o in payments :: payments[o].nonce != p.nonce
  }

  lemma PutPayments(payments: map<Id, Payment>, commitments: map<Id, Commitment>, authorizations: map<Id, Authorization>,
                    op: Id, p: Payment)
    requires PaymentsOk(payments, commitments, authorizations) && Replaces(payments, op, p)
    requires p.auth in authorizations
    requires if p.auth in commitments then PaymentOk(op, p, commitments[p.auth]) else LegacyPaymentOk(p)
    ensures PaymentsOk(payments[op := p], commitments, authorizations)
  {
    hide PaymentOk;
  }

  lemma PutClaims(claims: map<(Id, Id), Claim>, payments: map<Id, Payment>, v3: set<Id>, op: Id, p: Payment)
    requires ClaimsOk(claims, payments, v3) && Replaces(payments, op, p)
    requires p.auth in v3 && p.receipt.message.body.Receipt?
    ensures ClaimsOk(RecordClaim(claims, p.auth, op, ClaimOf(p)), payments[op := p], v3)
  {
  }

  lemma PutLegacyClaims(claims: map<(Id, Id), Claim>, payments: map<Id, Payment>, v3: set<Id>, op: Id, p: Payment)
    requires ClaimsOk(claims, payments, v3) && Replaces(payments, op, p) && p.auth !in v3
    ensures ClaimsOk(claims, payments[op := p], v3)
  {
  }

  lemma PutEmissions(emissions: map<(Id, Id), Emission>, payments: map<Id, Payment>, v3: set<Id>, op: Id, p: Payment)
    requires EmissionsOk(emissions, payments, v3) && Replaces(payments, op, p)
    requires !p.state.Accepted? || p.auth !in v3
    ensures EmissionsOk(emissions, payments[op := p], v3)
  {
  }

  /** Settling inserts the one emission of a payment on an index nobody else used. */
  lemma SettledEmissions(emissions: map<(Id, Id), Emission>, payments: map<Id, Payment>, v3: set<Id>, op: Id, p: Payment)
    requires EmissionsOk(emissions, payments, v3) && Replaces(payments, op, p)
    requires p.state.Accepted? && p.auth in v3 && p.receipt.message.body.Receipt?
    requires forall k | k in emissions && k.0 == p.auth && k.1 != op :: emissions[k].index != p.receipt.message.body.index
    ensures (p.auth, op) !in emissions
    ensures EmissionsOk(emissions[(p.auth, op) := Emission(p.receipt.message.body.index, p.amount)], payments[op := p], v3)
  {
  }

  lemma PutPaid(payments: map<Id, Payment>, op: Id, p: Payment, a: Id, state: PaymentState)
    requires Replaces(payments, op, p) && (state.Accepted? || state.Rejected?)
    ensures Sum(payments[op := p].Keys, PaidBy(payments[op := p], a, state)) ==
            Sum(payments.Keys, PaidBy(payments, a, state)) + if p.auth == a && p.state == state then p.amount else 0
  {
    assert payments[op := p].Keys == payments.Keys + {op};
    SumSet(payments.Keys, PaidBy(payments, a, state), PaidBy(payments[op := p], a, state), op);
  }

  lemma PutEmitted(emissions: map<(Id, Id), Emission>, k: (Id, Id), e: Emission, a: Id)
    requires k !in emissions
    ensures Sum(emissions[k := e].Keys, EmittedBy(emissions[k := e], a)) ==
            Sum(emissions.Keys, EmittedBy(emissions, a)) + if k.0 == a then e.amount else 0
  {
    hide Sum;
    assert emissions[k := e].Keys == emissions.Keys + {k};
    SumSet(emissions.Keys, EmittedBy(emissions, a), EmittedBy(emissions[k := e], a), k);
  }

  lemma CountEmitted(emissions: map<(Id, Id), Emission>, k: (Id, Id), e: Emission, a: Id)
    requires k !in emissions
    ensures |EmissionsOf(emissions[k := e], a)| == |EmissionsOf(emissions, a)| + if k.0 == a then 1 else 0
  {
    assert k !in EmissionsOf(emissions, a);
    assert EmissionsOf(emissions[k := e], a) == EmissionsOf(emissions, a) + (if k.0 == a then {k} else {});
  }

  lemma PutCounters(commitments: map<Id, Commitment>, emissions: map<(Id, Id), Emission>, payments: map<Id, Payment>,
                    op: Id, p: Payment)
    requires CountersOk(commitments, emissions, payments) && Replaces(payments, op, p)
    requires !p.Final() || p.auth !in commitments
    ensures CountersOk(commitments, emissions, payments[op := p])
  {
    hide Sum, Replaces;
    forall a | a in commitments
      ensures CounterOk(a, commitments[a], emissions, payments[op := p])
    {
      assert CounterOk(a, commitments[a], emissions, payments);
      PutPaid(payments, op, p, a, Accepted);
      PutPaid(payments, op, p, a, Rejected);
    }
  }

  lemma SettledCounter(a: Id, c: Commitment, emissions: map<(Id, Id), Emission>, payments: map<Id, Payment>,
                       op: Id, p: Payment, index: int)
    requires CounterOk(a, c, emissions, payments) && Replaces(payments, op, p)
    requires p.state.Accepted? && (p.auth, op) !in emissions
    ensures CounterOk(a, if a == p.auth then SpendCommitment(c, p.amount) else c,
                      emissions[(p.auth, op) := Emission(index, p.amount)], payments[op := p])
  {
    hide Sum, Replaces, EmittedBy, PaidBy, EmissionsOf;
    PutEmitted(emissions, (p.auth, op), Emission(index, p.amount), a);
    CountEmitted(emissions, (p.auth, op), Emission(index, p.amount), a);
    PutPaid(payments, op, p, a, Accepted);
    PutPaid(payments, op, p, a, Rejected);
  }

  /** Settling one payment advances its commitment's counters by exactly that payment. */
  lemma SettledCounters(commitments: map<Id, Commitment>, emissions: map<(Id, Id), Emission>, payments: map<Id, Payment>,
                        op: Id, p: Payment, index: int)
    requires CountersOk(commitments, emissions, payments) && Replaces(payments, op, p)
    requires p.state.Accepted? && p.auth in commitments && (p.auth, op) !in emissions
    ensures CountersOk(commitments[p.auth := SpendCommitment(commitments[p.auth], p.amount)],
                       emissions[(p.auth, op) := Emission(index, p.amount)], payments[op := p])
  {
    hide CounterOk, Replaces, SpendCommitment;
    forall a | a in commitments {
      SettledCounter(a, commitments[a], emissions, payments, op, p, index);
    }
  }

  lemma PutLedger(ledger: map<(Id, EntryType), LedgerEntry>, payments: map<Id, Payment>, wallets: map<Id, Wallet>, op: Id, p: Payment)
    requires LedgerOk(ledger, payments, wallets) && Replaces(payments, op, p) && !p.state.Accepted?
    ensures LedgerOk(ledger, payments[op := p], wallets)
  {
  }

  function Pair(ledger: map<(Id, EntryType), LedgerEntry>, op: Id, payer: Id, payee: Id, amount: int): map<(Id, EntryType), LedgerEntry> {
    ledger[(op, DEBIT) := LedgerEntry(payer, -amount)][(op, CREDIT) := LedgerEntry(payee, amount)]
  }

  lemma SettledLedger(ledger: map<(Id, EntryType), LedgerEntry>, payments: map<Id, Payment>, wallets: map<Id, Wallet>,
                      op: Id, p: Payment, payee: Id)
    requires LedgerOk(ledger, payments, wallets) && Replaces(payments, op, p) && p.state.Accepted? && payee in wallets
    ensures LedgerOk(Pair(ledger, op, p.wallet, payee, p.amount), payments[op := p], wallets)
    ensures (op, DEBIT) !in ledger && (op, CREDIT) !in ledger
  {
  }

  /** Only the set of wallets matters to the ledger, not their balances. */
  lemma LedgerFrame(ledger: map<(Id, EntryType), LedgerEntry>, payments: map<Id, Payment>,
                    before: map<Id, Wallet>, after: map<Id, Wallet>)
    requires LedgerOk(ledger, payments, before) && before.Keys <= after.Keys
    ensures LedgerOk(ledger, payments, after)
  {
  }

  /** A debit and a credit move an amount from one wallet's total to the other's. */
  lemma PairMoves(ledger: map<(Id, EntryType), LedgerEntry>, op: Id, payer: Id, payee: Id, amount: int, w: Id)
    requires (op, DEBIT) !in ledger && (op, CREDIT) !in ledger
    ensures
      var after := Pair(ledger, op, payer, payee, amount);
      Sum(after.Keys, LedgerBy(after, w)) ==
      Sum(ledger.Keys, LedgerBy(ledger, w)) - (if w == payer then amount else 0) + (if w == payee then amount else 0)
  {
    var half := ledger[(op, DEBIT) := LedgerEntry(payer, -amount)];
    var after := half[(op, CREDIT) := LedgerEntry(payee, amount)];
    assert half.Keys == ledger.Keys + {(op, DEBIT)};
    assert after.Keys == half.Keys + {(op, CREDIT)};
    SumSet(ledger.Keys, LedgerBy(ledger, w), LedgerBy(half, w), (op, DEBIT));
    SumSet(half.Keys, LedgerBy(half, w), LedgerBy(after, w), (op, CREDIT));
  }

  lemma PairBalances(opening: map<Id, int>, wallets: map<Id, Wallet>, topups: map<Id, Topup>,
                     ledger: map<(Id, EntryType), LedgerEntry>, op: Id, payer: Id, payee: Id, amount: int)
    requires BalancesOk(opening, wallets, topups, ledger)
    requires payer in wallets && payee in wallets && (op, DEBIT) !in ledger && (op, CREDIT) !in ledger
    ensures BalancesOk(opening, Credit(Credit(wallets, payer, -amount), payee, amount), topups,
                       Pair(ledger, op, payer, payee, amount))
  {
    hide Sum, Pair;
    forall w | w in wallets
      ensures Credit(Credit(wallets, payer, -amount), payee, amount)[w].balance ==
              opening[w] + Sum(topups.Keys, TopupBy(topups, w))
              + Sum(Pair(ledger, op, payer, payee, amount).Keys, LedgerBy(Pair(ledger, op, payer, payee, amount), w))
    {
      PairMoves(ledger, op, payer, payee, amount, w);
    }
  }

  /** Moving money keeps the two balances of each user equal, also when payer and payee coincide. */
  lemma PairWallets(wallets: map<Id, Wallet>, walletOf: map<Id, Id>, saldo: map<Id, real>, payer: Id, payee: Id, amount: int)
    requires WalletsOk(wallets, walletOf, saldo)
    requires payer in wallets && payee in wallets && amount >= 0 && wallets[payer].balance >= amount
    ensures WalletsOk(Credit(Credit(wallets, payer, -amount), payee, amount), walletOf,
                      CreditUser(CreditUser(saldo, wallets[payer].owner, -amount), wallets[payee].owner, amount))
  {
  }

  lemma PutResolutions(resolutions: map<Id, ResolutionRow>, payments: map<Id, Payment>, v3: set<Id>, op: Id, p: Payment)
    requires ResolutionsOk(resolutions, payments, v3) && Replaces(payments, op, p)
    requires !p.Final() || p.auth !in v3
    ensures ResolutionsOk(resolutions, payments[op := p], v3)
  {
  }

  lemma SettledResolutions(resolutions: map<Id, ResolutionRow>, payments: map<Id, Payment>, v3: set<Id>, op: Id, p: Payment, r: ResolutionRow)
    requires ResolutionsOk(resolutions, payments, v3) && Replaces(payments, op, p)
    requires p.Final() && p.auth in v3 && r.status == p.state
    ensures ResolutionsOk(resolutions[op := r], payments[op := p], v3)
    ensures op !in resolutions
  {
  }

  /** Payments outside a manifest do not matter to its totals. */
  lemma {:induction false} TotalInFrame(before: map<Id, Payment>, after: map<Id, Payment>, entries: seq<Entry>, state: PaymentState)
    requires forall e | e in entries :: e.op in before && e.op in after && (before[e.op].state == state <==> after[e.op].state == state)
    ensures TotalIn(before, entries, state) == TotalIn(after, entries, state)
  {
    if |entries| > 0 {
      var rest := entries[..|entries| - 1];
      assert entries[|entries| - 1] in entries && forall e | e in rest :: e in entries;
      TotalInFrame(before, after, rest, state);
    }
  }

  /** Settling the payment of one manifest entry moves that entry's amount. */
  lemma {:induction false} TotalInMove(payments: map<Id, Payment>, p: Payment, entries: seq<Entry>, i: nat, state: PaymentState)
    requires i < |entries| && forall j, k | 0 <= j < k < |entries| :: entries[j].op != entries[k].op
    requires forall e | e in entries :: e.op in payments
    requires payments[entries[i].op].state != state
    ensures TotalIn(payments[entries[i].op := p], entries, state) ==
            TotalIn(payments, entries, state) + if p.state == state then entries[i].amount else 0
  {
    var n := |entries| - 1;
    var rest := entries[..n];
    assert forall e | e in rest :: e in entries;
    assert entries[n] in entries;
    if i == n {
      assert forall e | e in rest :: e.op != entries[n].op;
      TotalInFrame(payments, payments[entries[n].op := p], rest, state);
    } else {
      assert rest[i] == entries[i];
      TotalInMove(payments, p, rest, i, state);
    }
  }

  lemma PutSeal(a: Id, c: Commitment, payments: map<Id, Payment>, claims: map<(Id, Id), Claim>, op: Id, p: Payment, recorded: map<(Id, Id), Claim>)
    requires c.Closed() && SealOk(a, c, payments, claims) && Replaces(payments, op, p)
    requires !p.Final() || p.auth != a
    requires forall k | k in claims :: k in recorded && recorded[k] == claims[k]
    ensures SealOk(a, c, payments[op := p], recorded)
  {
    var entries := c.sealed.value.entries;
    TotalInFrame(payments, payments[op := p], entries, Accepted);
    TotalInFrame(payments, payments[op := p], entries, Rejected);
  }

  lemma PutSeals(commitments: map<Id, Commitment>, payments: map<Id, Payment>, claims: map<(Id, Id), Claim>,
                 op: Id, p: Payment, recorded: map<(Id, Id), Claim>)
    requires SealsOk(commitments, payments, claims) && Replaces(payments, op, p)
    requires !p.Final() || p.auth !in commitments
    requires forall k | k in claims :: k in recorded && recorded[k] == claims[k]
    ensures SealsOk(commitments, payments[op := p], recorded)
  {
    forall a | a in commitments && commitments[a].Closed()
      ensures SealOk(a, commitments[a], payments[op := p], recorded)
    {
      PutSeal(a, commitments[a], payments, claims, op, p, recorded);
    }
  }

  /** Settling a payment of a manifest releases exactly its entry. */
  lemma SettledSeal(a: Id, c: Commitment, payments: map<Id, Payment>, claims: map<(Id, Id), Claim>, op: Id, p: Payment)
    requires c.Closed() && SealOk(a, c, payments, claims) && Replaces(payments, op, p)
    requires p.state.Accepted? && p.auth == a && p.receipt.message.body.Receipt? && (a, op) in claims
    requires InManifest(c.sealed.value.entries, op, ClaimOf(p))
    ensures SealOk(a, SpendCommitment(c, p.amount), payments[op := p], claims)
  {
    hide TotalIn, Total;
    var entries := c.sealed.value.entries;
    var i :| 0 <= i < |entries| && entries[i].op == op && entries[i].amount == p.amount;
    assert entries[i] in entries;
    TotalInMove(payments, p, entries, i, Accepted);
    TotalInMove(payments, p, entries, i, Rejected);
  }

  lemma SettledSeals(commitments: map<Id, Commitment>, payments: map<Id, Payment>, claims: map<(Id, Id), Claim>, op: Id, p: Payment)
    requires SealsOk(commitments, payments, claims) && Replaces(payments, op, p)
    requires p.state.Accepted? && p.auth in commitments && p.receipt.message.body.Receipt?
    requires commitments[p.auth].Closed() ==>
               (p.auth, op) in claims && InManifest(commitments[p.auth].sealed.value.entries, op, ClaimOf(p))
    ensures SealsOk(commitments[p.auth := SpendCommitment(commitments[p.auth], p.amount)], payments[op := p],
                    RecordClaim(claims, p.auth, op, ClaimOf(p)))
  {
    var spent := commitments[p.auth := SpendCommitment(commitments[p.auth], p.amount)];
    forall a | a in spent && spent[a].Closed()
      ensures SealOk(a, spent[a], payments[op := p], RecordClaim(claims, p.auth, op, ClaimOf(p)))
    {
      if a == p.auth {
        SettledSeal(a, commitments[a], payments, claims, op, p);
      } else {
        PutSeal(a, commitments[a], payments, claims, op, p, RecordClaim(claims, p.auth, op, ClaimOf(p)));
      }
    }
  }

  lemma HeldUpdate(commitments: map<Id, Commitment>, a: Id, c: Commitment, w: Id)
    requires a in commitments && commitments[a].wallet == c.wallet
    ensures Held(commitments[a := c], w) == Held(commitments, w) + if c.wallet == w then c.held - commitments[a].held else 0
  {
    hide Sum;
    assert commitments[a := c].Keys == commitments.Keys;
    SumUpdate(commitments.Keys, HeldBy(commitments, w), HeldBy(commitments[a := c], w), a);
  }

  /** The row of an authorization with a commitment is not part of the legacy budget. */
  lemma LegacyFrame(authorizations: map<Id, Authorization>, v3: set<Id>, a: Id, row: Authorization, w: Id)
    requires a in v3 && a in authorizations
    ensures Legacy(authorizations[a := row], v3, w) == Legacy(authorizations, v3, w)
  {
    hide Sum;
    assert authorizations[a := row].Keys == authorizations.Keys;
    SumSame(authorizations.Keys, LegacyBy(authorizations, v3, w), LegacyBy(authorizations[a := row], v3, w));
  }

  /** What a commitment gives up, its wallet may lose. */
  lemma SpendSolvent(wallets: map<Id, Wallet>, commitments: map<Id, Commitment>, authorizations: map<Id, Authorization>,
                     a: Id, c: Commitment, row: Authorization, payee: Id, amount: int)
    requires Solvent(wallets, commitments, authorizations)
    requires a in commitments && a in authorizations && commitments[a].wallet == c.wallet
    requires c.wallet in wallets && payee in wallets && amount >= 0
    requires c.held <= commitments[a].held - amount
    ensures Solvent(Credit(Credit(wallets, c.wallet, -amount), payee, amount), commitments[a := c], authorizations[a := row])
  {
    hide Held, Legacy;
    assert commitments[a := c].Keys == commitments.Keys;
    forall w | w in wallets
      ensures Held(commitments[a := c], w) + Legacy(authorizations[a := row], commitments.Keys, w) <=
              Credit(Credit(wallets, c.wallet, -amount), payee, amount)[w].balance
    {
      HeldUpdate(commitments, a, c, w);
      LegacyFrame(authorizations, commitments.Keys, a, row, w);
    }
  }

  lemma SpendCommitments(commitments: map<Id, Commitment>, authorizations: map<Id, Authorization>, a: Id, amount: int)
    requires CommitmentsOk(commitments, authorizations) && a in commitments
    requires 0 <= amount <= commitments[a].held
    ensures CommitmentsOk(commitments[a := SpendCommitment(commitments[a], amount)],
                          authorizations[a := authorizations[a].(remaining := authorizations[a].remaining - amount,
                                                                 payments := authorizations[a].payments - 1)])
  {
    hide Proper;
  }

  /** Payments look at their commitment's grant and wallet only. */
  lemma PaymentsFrame(payments: map<Id, Payment>, before: map<Id, Commitment>, after: map<Id, Commitment>,
                      rows: map<Id, Authorization>, rows': map<Id, Authorization>)
    requires PaymentsOk(payments, before, rows)
    requires before.Keys == after.Keys && rows.Keys <= rows'.Keys
    requires forall a | a in before :: after[a].grant == before[a].grant && after[a].wallet == before[a].wallet
    ensures PaymentsOk(payments, after, rows')
  {
    hide ReceiptBound, AckBound;
  }

  /** A colliding claim may be recorded once the wallet is flagged. */
  lemma PutFlags(claims: map<(Id, Id), Claim>, commitments: map<Id, Commitment>, before: map<Id, Wallet>,
                 after: map<Id, Wallet>, a: Id, op: Id, claim: Claim)
    requires FlagsOk(claims, commitments, before)
    requires a in commitments && commitments[a].wallet in before && before.Keys == after.Keys
    requires forall w | w in before && before[w].review :: after[w].review
    requires ClaimConflict(claims, a, op, claim) ==> after[commitments[a].wallet].review
    ensures FlagsOk(RecordClaim(claims, a, op, claim), commitments, after)
  {
  }

  lemma FlagsFrame(claims: map<(Id, Id), Claim>, before: map<Id, Commitment>, after: map<Id, Commitment>,
                   wallets: map<Id, Wallet>, wallets': map<Id, Wallet>)
    requires FlagsOk(claims, before, wallets) && before.Keys <= after.Keys && wallets.Keys <= wallets'.Keys
    requires forall a | a in before :: after[a].wallet == before[a].wallet
    requires forall w | w in wallets && wallets[w].review :: wallets'[w].review
    ensures FlagsOk(claims, after, wallets')
  {
  }

  /** Raising a flag touches no balance. */
  lemma FlagWallets(wallets: map<Id, Wallet>, walletOf: map<Id, Id>, saldo: map<Id, real>, w: Id, raise: bool)
    requires WalletsOk(wallets, walletOf, saldo)
    ensures WalletsOk(Flag(wallets, w, raise), walletOf, saldo)
  {
  }

  lemma FlagBalances(opening: map<Id, int>, wallets: map<Id, Wallet>, topups: map<Id, Topup>,
                     ledger: map<(Id, EntryType), LedgerEntry>, w: Id, raise: bool)
    requires BalancesOk(opening, wallets, topups, ledger)
    ensures BalancesOk(opening, Flag(wallets, w, raise), topups, ledger)
  {
    hide Sum, TopupBy, LedgerBy;
  }

  lemma FlagSolvent(wallets: map<Id, Wallet>, commitments: map<Id, Commitment>, authorizations: map<Id, Authorization>,
                    w: Id, raise: bool)
    requires Solvent(wallets, commitments, authorizations) && AuthorizationsOk(authorizations, wallets)
    ensures Solvent(Flag(wallets, w, raise), commitments, authorizations)
    ensures AuthorizationsOk(authorizations, Flag(wallets, w, raise))
  {
    hide Held, Legacy;
  }

  /** The same payments, except for their acknowledgements and codes. */
  ghost predicate SameButNotes(before: map<Id, Payment>, after: map<Id, Payment>) {
    && before.Keys == after.Keys
    && forall op | op in before :: after[op] == before[op].(ack := after[op].ack, code := after[op].code)
  }

  lemma AckPayments(before: map<Id, Payment>, after: map<Id, Payment>, commitments: map<Id, Commitment>,
                    authorizations: map<Id, Authorization>, op: Id)
    requires PaymentsOk(before, commitments, authorizations) && SameButNotes(before, after)
    requires op in before && forall o | o in before && o != op :: after[o] == before[o]
    requires before[op].Final() && after[op].ack.Some? && before[op].auth in commitments
    requires AckBound(before[op].request, before[op].receipt, after[op].ack.value)
    ensures PaymentsOk(after, commitments, authorizations)
  {
    hide AckBound, ReceiptBound;
  }

  lemma AckClaims(before: map<Id, Payment>, after: map<Id, Payment>, claims: map<(Id, Id), Claim>, v3: set<Id>)
    requires ClaimsOk(claims, before, v3) && SameButNotes(before, after)
    ensures ClaimsOk(claims, after, v3)
  {
  }

  lemma AckEmissions(before: map<Id, Payment>, after: map<Id, Payment>, emissions: map<(Id, Id), Emission>, v3: set<Id>)
    requires EmissionsOk(emissions, before, v3) && SameButNotes(before, after)
    ensures EmissionsOk(emissions, after, v3)
  {
  }

  lemma AckCounters(before: map<Id, Payment>, after: map<Id, Payment>, emissions: map<(Id, Id), Emission>,
                    commitments: map<Id, Commitment>)
    requires CountersOk(commitments, emissions, before) && SameButNotes(before, after)
    ensures CountersOk(commitments, emissions, after)
  {
    hide Sum, EmittedBy, EmissionsOf;
    forall a | a in commitments
      ensures CounterOk(a, commitments[a], emissions, after)
    {
      assert CounterOk(a, commitments[a], emissions, before);
      SumSame(before.Keys, PaidBy(before, a, Accepted), PaidBy(after, a, Accepted));
      SumSame(before.Keys, PaidBy(before, a, Rejected), PaidBy(after, a, Rejected));
    }
  }

  lemma AckLedger(before: map<Id, Payment>, after: map<Id, Payment>, ledger: map<(Id, EntryType), LedgerEntry>,
                  wallets: map<Id, Wallet>)
    requires LedgerOk(ledger, before, wallets) && SameButNotes(before, after)
    ensures LedgerOk(ledger, after, wallets)
  {
  }

  lemma AckResolutions(before: map<Id, Payment>, after: map<Id, Payment>, resolutions: map<Id, ResolutionRow>, v3: set<Id>)
    requires ResolutionsOk(resolutions, before, v3) && SameButNotes(before, after)
    ensures ResolutionsOk(resolutions, after, v3)
  {
  }

  lemma AckSeals(before: map<Id, Payment>, after: map<Id, Payment>, claims: map<(Id, Id), Claim>, commitments: map<Id, Commitment>)
    requires SealsOk(commitments, before, claims) && SameButNotes(before, after)
    ensures SealsOk(commitments, after, claims)
  {
    forall a | a in commitments && commitments[a].Closed()
      ensures SealOk(a, commitments[a], after, claims)
    {
      var entries := commitments[a].sealed.value.entries;
      assert SealOk(a, commitments[a], before, claims);
      TotalInFrame(before, after, entries, Accepted);
      TotalInFrame(before, after, entries, Rejected);
    }
  }
}
