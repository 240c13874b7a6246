# Offline payments: a verified model

The repository implements offline payments. A backend reserves part of a wallet's balance under a signed
authorization, a phone issues receipts against it without a connection, and a point-of-sale terminal collects and
acknowledges them. Either party later submits the evidence, and the backend settles each payment once. When the
wallet is done it closes the authorization with a manifest of what it issued.

This project models that system in Dafny and proves what it guarantees over every run. `dafny verify dfyconfig.toml`
checks all of it.

## How it is laid out

**Accounting.** `Messages` holds the signed messages as values, `Database` the tables, and `SyncV3`, `Authorizations`
and `SyncV2` say what each request is worth and what its one commit does. `Backend` is the same handlers in the form
the program has: an object whose committed state the methods update through a session, branch by branch. Each method
is proved to do exactly what those functions say.

`Invariant` states what every committed state keeps. `Rows`, `Steps`, `Reconciliation`, `Handlers` and `LegacySteps`
prove it preserved by every handler, `Rollback` and `LegacyRollback` by the second transaction of a failed settlement,
and `Machine` puts the handlers together: any request, by anyone, in any order, against any catalogue. The theorems
follow, most of them over the runs with safe windows (below):

- `Guards`: a settlement goes through if and only if what is held covers it, because distinct indices leave a payment.
- `History`, `Guarantees`: what no run can undo, the four-term identity, finality, claim integrity and solvency.
- `Persistence`, `Conservation`, `ExactlyOnce`: what holds of every run, safe or not: requests, grants and flags stay,
  money is conserved, and a request id gets one grant or credit.
- `Closures`, `CloseCompleteness`, `Lengths`: what a closed authorization holds, for ever, and exactly when it can be
  closed.
- `Window`, `Counterexample`: exactly when the second transaction of a failed settlement is safe, for single
  submissions and for whole runs, and two concrete databases on which it is not.
- `Batches`, `OrderIndependence`, `Interleaving`, `Plays`: the outcome of a batch is a function of what was submitted
  and what was acknowledged.

**Terms.** What each request has to be, and what it does, is also stated on fields, signatures and tables alone, apart
from the functions that decide it, and proved equivalent to them:

- `Authenticity`, `Outcomes`, `Movements`: exactly which evidence is recorded, when it settles, waits or is reviewed, and
  what each outcome moves. `Repetition`: what a payment that ended answers. `LegacyTerms`: the same of version 2.
- `Statements`: what every signed resolution states, and who attested each accepted payment, over every safe run.
- `IssuanceTerms`, `ClosureTerms`: exactly which authorizations are granted and closed, for how much, and what changes.
- `PhoneTerms`, `PosTerms`: what the phone confirms, takes and answers, and what the terminal's store and rounds do.
- `WireTerms`: the bits of Base64 and UTF-8, and the literal layout of envelopes, manifests and timestamps.

**Wire format.** `Utf8`, `Json`, `JsonRoundTrip`, `Canonical`, `Base64`, `Envelopes`, `ManifestSize` model the strict
byte formats with the full JSON grammar that the standard decoder reads (sections 4 to 7 of RFC 8259) and Base64
(sections 3.5, 4 and 5 of RFC 4648), and prove parser and printer inverse.

**Transport and terminal.** `Apdu`, `Phone`, `Delivery` model short command APDUs (section 5.1 of ISO/IEC 7816-4), the
phone double and the fragmented exchange. `PosStore`, `PosDatabase`, `PosSync`, `PosService` and `Timestamps` model the
terminal's durable state, its lease, its sync rounds and its two taps. `EndToEnd` joins the ends: whatever an honest
phone issued can be settled in any order and then closed, and the closure releases exactly the phone's remaining budget.
`Taps` says what the backend makes of a payment that a terminal collected.

## Reading the model

- A digest is an injective constructor over what was hashed, and a signature records the key that made it and the
  message it covers. Envelopes are compared as values where the program compares bytes; `Canonical.OneForm` and
  `Envelopes.EncodeParsed` are the reason this loses nothing.
- A database state is one record of maps. A handler is one commit or none; rows that a unique constraint would refuse
  are looked up where the program would see the constraint fail.
- `stale` in issuance and top-up says that the first lookup of the request id ran before a concurrent handler
  committed, so that only the unique constraint sees the earlier row; it may be true or false at every step, so all
  interleavings of lookups and commits are runs.
- `opening` gives the balances that ledger and top-ups are counted from. `Guarantees.FreshIsOk` shows that the
  invariant holds of every database without version 3 activity.
- An unavailable issuer key is a missing configuration: issuance is refused, and a settlement that reaches it is
  rolled back as invalid evidence (sync_v3.py:216-225, 372-374).

## What the code does not guarantee

- Between the rollback and the second transaction of a failed settlement (sync_v3.py:313-349, sync_v2.py:265-277) other
  handlers may commit. The row found again is not compared with the evidence that failed. A second transaction is a step
  of its own in `Machine`, unguarded; `SafeWindows` says of a run that each finds what it may write over, and the
  theorems that need it require it. `Window.SafeIffInvariant`: of the runs in which every second transaction belongs to
  an earlier failure, exactly those keep the invariant at every state in which each version 3 one finds no row or the row
  of the receipt that failed, and each version 2 one finds no row or a version 2 row that was not accepted. The handler
  could check either before it writes.
- `Counterexample.AcceptanceIsOverwritten` is a database with two receipts for one operation on which an accepted
  payment is taken back to review after its money moved, and `Counterexample.AcceptanceIsRejected` one on which a version
  2 submission turns it into a rejection.
- In the same window the acknowledgement of a payment under review, or of a version 2 rejection, may be replaced by the
  one that failed. Everywhere else it is written once (`History.RowEvolves`).
- A closure manifest is one message of at most 4096 bytes. `ManifestSize.ManifestFits` gives its exact length from the
  numbers in it: up to 21 payments always fit, 24 or more never do, and 22 or 23 depend on the amounts
  (`ManifestSize.BothHappen`). `CloseCompleteness.ClosableIffFits`: an authorization in an honest state can be closed if
  and only if the manifest of its payments fits, so one with 24 payments never can, and what it never
  issued is never released. The default limit is 10 (settings.py:33).
- Nothing increases the released-rejected counter and no version 3 payment is ever rejected; the counter is carried
  through every theorem as a constant.
- Several tests of the repository still exercise the retired version 2 issuance; the model follows the code, where
  version 2 authorizations only exist in the initial state.

## Model

| member | source | states |
|---|---|---|
| `Backend.Backend.ProcessEvidence` | sync_v3.py:27-234 | Any submission leaves exactly the state of its verdict, answers with that verdict's reply, and keeps the accounting invariant |
| `Backend.Backend.ProcessParsed` | sync_v3.py:47-97 | Authorization, repeated, contradictory and invalid submissions are told apart in the handler's order |
| `Backend.Backend.RepeatFinal` | sync_v3.py:50-82 | A payment that ended repeats its resolution, refuses other evidence, and takes at most a late acknowledgement |
| `Backend.Backend.Reconcile` | sync_v3.py:98-212 | Bound evidence is parked, held or settled exactly as its verdict says, claim and flag included |
| `Backend.Backend.ParkOmitted` | sync_v3.py:98-125 | Evidence a closed manifest does not list is kept for review, its claim recorded, the wallet flagged, unless its nonce is used |
| `Backend.Backend.ParkForReview` | sync_v3.py:126-148 | Evidence under review is kept, and an index conflict flags the wallet |
| `Backend.Backend.Apply` | sync_v3.py:277-399 | A settlement either commits all of its rows, parks the payment, or changes nothing |
| `Backend.ConditionalUpdates` | sync_v3.py:290-313 | All three updates match exactly when remaining amount, remaining payments, balance and held cover the payment |
| `Backend.Backend.Complete` | sync_v3.py:350-399 | A settlement whose updates matched is committed whole, or refused without a trace |
| `Backend.Backend.ParkUncovered` | sync_v3.py:313-349 | The second transaction of a failed settlement, on whatever is committed by then, parks the row it finds, or a new one, and flags the wallet, unless its nonce was used meanwhile |
| `Backend.Backend.RefuseInvalid` | sync_v3.py:216-225 | Invalid evidence changes nothing and repeats the resolution of a payment that ended |
| `Backend.RecordClaimIn` | sync_v3.py:416-438 | A claim is written once and a collision is reported exactly when another claim contradicts it |
| `Backend.FindEntry` | sync_v3.py:98-105 | The loop finds the entry exactly when the manifest lists this receipt under this index and amount |
| `Backend.Backend.IssueAuthorization` | api_v3.py:132-237 | Issuance reserves the least of what is free and what is asked, or refuses, and keeps the invariant |
| `Backend.Backend.HeldCents` | api_v3.py:189-191 | The loop computes the sum of held cents over the wallet's commitments |
| `Backend.Backend.LegacyCents` | api_v3.py:192-196 | The loop computes the remaining cents of the wallet's active authorizations without a commitment |
| `Backend.Backend.CloseAuthorization` | api_v3.py:251-417 | A closure request seals, repeats, refuses or flags exactly as specified, a manifest of more than 4096 bytes being refused, and keeps the invariant |
| `Backend.Backend.Seal` | api_v3.py:278-417 | The accounting part of a closure leaves exactly the sealed commitment or the flag |
| `Backend.Backend.CheckManifest` | api_v3.py:294-372 | The loop stops at the first contradicted or reviewed entry and otherwise totals what is accepted and rejected |
| `Backend.Backend.TotalIssued` | api_v3.py:373 | The loop computes the manifest's total |
| `Backend.Backend.SimulatedTopup` | api_v3.py:80-129 | A top-up id is credited once, and a reuse with other content is refused |
| `Backend.Backend.StoreResolutionOf` | api_v3.py:432-478 | Only a trusted resolution that matches the payment in every field is stored, once |
| `Backend.Backend.ProcessLegacyEvidence` | sync_v2.py:60-153 | Version 2 evidence leaves exactly the state of its verdict when nothing commits between its transactions, and keeps the invariant |
| `Backend.Backend.ApplyLegacy` | sync_v2.py:239-317 | A version 2 settlement debits, credits and books, or runs its second transaction when its updates fail |
| `Backend.Backend.RejectUncovered` | sync_v2.py:265-277 | The second transaction of a failed version 2 settlement, on whatever is committed by then, rejects the row it finds, or a new one, unless its nonce was used meanwhile |
| `Authenticity.ValidatesIffAuthentic` | sync_v3.py:237-274 | Evidence passes every check if and only if it is authentic, field by field and signature by signature, and needs a review if and only if a key was withdrawn by the time it was used |
| `Authenticity.RecordedIsAuthentic` | sync_v3.py:98-212 | Whatever is held, parked or settled is authentic, and its payee is the wallet of the merchant of its terminal |
| `Authenticity.ReviewTerms` | revocation.py:4-13 | A key needs a review from its revocation on, the moment itself included, and always when that moment is unknown |
| `Outcomes.RecordedIsSigned` | protocol_v3.py:389-403 | Nothing is recorded whose request, or acknowledgement, is not the catalogue key's signature over that very message, or whose receipt is not the granted wallet key's |
| `Outcomes.ForgedIsRefused` | sync_v3.py:245-269 | A submission whose request or acknowledgement is signed by another key leaves an unfinished operation as it was and is never called valid |
| `Outcomes.RecordedIffAcceptable` | sync_v3.py:92-234 | A submission for an unfinished operation is recorded if and only if it is authentic, from a party, and consistent with what is known; any other changes nothing and is never called valid |
| `Outcomes.OutcomeOfAcceptable` | sync_v3.py:98-212 | It settles exactly when acknowledged, untroubled and covered by what is held, waits exactly when untroubled and not acknowledged, and is reviewed otherwise; reply and row say which |
| `Movements.RecordingMoves` | sync_v3.py:98-212 | A settlement moves exactly the amount from the receipt's wallet to the merchant's, out of what its authorization holds, and books it; anything else moves nothing, and row, claim, reason and flag are exactly these |
| `Movements.SecondTransaction` | sync_v3.py:313-349 | The second transaction moves no money: it parks the row it finds, or a new one, under the acknowledgement that failed, and flags the wallet |
| `Movements.SecondRejection` | sync_v2.py:265-277 | The second transaction of version 2 rejects that row instead, and changes nothing else |
| `Statements.StatedForEver` | sync_v3.py:370-394 | After every run with safe windows, each resolution states its payment's own outcome, fields and evidence under the key it names, and each accepted payment is attested by its terminal and its wallet |
| `Repetition.EndedIsRepeated` | sync_v3.py:47-91 | A payment that ended repeats its outcome and resolution to a party, calls valid exactly what repeats its evidence, and stores nothing but a missing, authentic acknowledgement |
| `SyncV3.JudgedIsExecutable` | sync_v3.py:27-234 | A verdict only touches rows that exist |
| `ClosureTerms.EntryTerms` | api_v3.py:297-372 | An entry is fine if and only if its payment, receipt and index match, it is accepted, waiting or rejected for good, its evidence is still authentic and no key was withdrawn by the time it was used |
| `ClosureTerms.ClosesIff` | api_v3.py:251-417 | A closure succeeds if and only if its wallet signed it over exactly the payments of an open authorization and each entry is fine |
| `ClosureTerms.ClosureChanges` | api_v3.py:391-417 | A success seals exactly this manifest and releases exactly what it leaves; a failure changes no budget and at most flags the wallet, for a stated reason |
| `ClosureTerms.ReviewBlocksClosure` | api_v3.py:371-372 | A manifest with a payment under review never closes its authorization nor changes a budget |
| `ClosureTerms.RevocationHasReason` | api_v3.py:297-372 | A closure is blocked by a revocation only when a key of a listed payment was withdrawn by the time it was used |
| `ClosureTerms.RepeatedIff` | api_v3.py:271-276 | A closed authorization answers its own closure again if and only if closure and manifest are the sealed ones, and changes nothing |
| `Reconciliation.JudgeJustified` | sync_v3.py:92-212 | Every verdict is backed by bound evidence, and a settlement meets each precondition of settling |
| `Reconciliation.SyncKeepsInv` | sync_v3.py:27-234 | Any submission at all, by anyone, keeps the invariant |
| `Steps.RecordKeepsInv` | sync_v3.py:106-207 | Writing an unfinished payment with its claim keeps the invariant, if an index conflict flags the wallet |
| `Steps.SettleKeepsInv` | sync_v3.py:277-399 | Settling keeps every clause: identity, counters, ledger, balances, seals and solvency |
| `Handlers.IssueKeepsInv` | api_v3.py:132-237 | Issuance keeps the invariant, in particular solvency, whether or not its lookup was stale |
| `IssuanceTerms.GrantedIff` | api_v3.py:132-237 | A new request is granted exactly when limits, key, flag, issuer and free cents allow it, for all it asked or for all that was free, under a grant of exactly these terms |
| `IssuanceTerms.KnownIff` | api_v3.py:142-146 | A known request id changes nothing and gets its grant again exactly when it asks for the same |
| `IssuanceTerms.CreditedIff` | api_v3.py:80-129 | A new top-up credits exactly its amount to its wallet when it is within the limits, and a known one nothing |
| `Handlers.CloseKeepsInv` | api_v3.py:251-417 | A closure attempt, successful or not, keeps the invariant |
| `Handlers.SealKeepsInv` | api_v3.py:391-415 | Sealing releases what was not issued and keeps the identity, the counters and solvency |
| `Handlers.TopUpKeepsInv` | api_v3.py:80-129 | A top-up keeps the invariant |
| `Handlers.StoreKeepsInv` | api_v3.py:462-477 | Storing a resolution never changes a state that the handlers can reach |
| `Repetition.StoredIff` | api_v3.py:432-478 | A submitted resolution is acknowledged to a party if and only if it is the stored one and its issuer is trusted |
| `LegacySteps.SyncLegacyKeepsInv` | sync_v2.py:60-317 | Any version 2 submission with nothing between its transactions keeps the invariant |
| `LegacyTerms.OldOutcome` | sync_v2.py:60-317 | Version 2 evidence is recorded if and only if it is authentic, from a party and consistent; it waits without its acknowledgement, settles when its authorization can still pay and is rejected when it cannot |
| `Movements.OldMoves` | sync_v2.py:239-317 | A version 2 settlement moves and books exactly the amount; holding and rejecting change exactly one row |
| `LegacyRollback.LegacyReparkKeepsInv` | sync_v2.py:265-277 | The second transaction of a failed version 2 settlement keeps the invariant if it finds no row or a version 2 row that was not accepted |
| `LegacyRollback.LegacyReparkBreaks` | sync_v2.py:265-277 | On an accepted row, or one of version 3, it breaks the invariant |
| `Rollback.ReparkKeepsInv` | sync_v3.py:313-349 | Parking again the evidence that failed keeps the invariant while its payment has not ended |
| `Machine.StepKeepsInv` | sync_v3.py:27-399 | Every transaction of every handler keeps the invariant, a second transaction if it finds what it may write over |
| `Machine.RunKeepsInv` | api_v3.py:80-478 | The invariant holds after every run with safe windows, whatever the requests, their order and the catalogue |
| `Guards.FreshIndexHasPayment` | sync_v3.py:290-298 | Distinct emitted indices within the grant leave a payment for every index nobody settled (pigeonhole) |
| `Guards.HeldIsCovered` | sync_v3.py:299-311 | What one commitment holds, its wallet has |
| `Guards.GuardsAreHeld` | sync_v3.py:284-313 | For an index nobody settled, the three updates all succeed if and only if the amount is still held |
| `Guards.SettlesIff` | sync_v3.py:98-212 | Bound evidence settles if and only if it is acknowledged, free of review and index conflict, listed when closed, and covered by what is held |
| `Guards.InsufficientMeansNotHeld` | sync_v3.py:313-349 | The accounting refusal occurs only when less is held than the payment needs |
| `History.StepEvolves` | sync_v3.py:47-148 | No transaction rewrites a final payment, a claim, an emission, a ledger entry, a resolution, a grant or a sealed manifest, or lowers a flag, a second transaction if it is safe |
| `History.RunEvolves` | sync_v3.py:47-148 | The same over every run with safe windows |
| `Persistence.RunPersists` | api_v3.py:80-232 | Over every run, safe or not, request ids, top-ups, grants, totals, owners and flags stay, and version 2 authorizations only lose |
| `Guarantees.SolventForEver` | api_v3.py:189-198 | After every run with safe windows, held plus legacy cents never exceed the balance, so the lower bound of zero never acts |
| `Guarantees.AccountedForEver` | sync_v3.py:290-312 | The four-term identity, counters equal to sums and counts of rows, and what the authorization may still spend, after every run with safe windows |
| `Guarantees.FinalityIff` | sync_v3.py:313-399 | After every run with safe windows, accepted, emitted, debited, credited and resolved are the same thing for a version 3 payment, and the transient state is never committed |
| `Guarantees.FinalForEver` | sync_v3.py:50-91 | Over every run with safe windows, acceptance and review are never left, and the rows of an accepted payment never change |
| `Guarantees.ClaimsMirrorForEver` | sync_v3.py:416-438 | After every run with safe windows, claims are exactly the payments, emissions have a claim with their index, no two share one, and a shared claim index flags the wallet |
| `Guarantees.FlaggedGetsNoGrant` | api_v3.py:151-188 | Over every run, safe or not, a flagged wallet stays flagged and never gets another authorization |
| `Guarantees.BalancesForEver` | sync_v3.py:357-369 | After every run with safe windows, each balance is its opening balance plus its top-ups plus its ledger, and the decimal balance is the same amount |
| `Guarantees.FreshIsOk` | models.py:142-260 | A database before any version 3 activity satisfies the invariant |
| `Conservation.MoneyIsConserved` | sync_v3.py:357-369 | Over every run, safe or not, the total balance changes by exactly what was topped up |
| `ExactlyOnce.IssuedOnce` | api_v3.py:142-232 | At any two moments of any run, safe or not, two successful replies to one request id carry the same grant and total, and the later reserved nothing |
| `ExactlyOnce.ToppedUpOnce` | api_v3.py:89-129 | At any two moments of any run, safe or not, two confirmations of one top-up id name the same wallet, user and amount, and the later credited nothing |
| `Closures.ClosureIsExact` | api_v3.py:391-415 | From a close on, in every run with safe windows, released equals reserved minus the manifest, held equals its unfinished entries, settled means held is zero, and nothing unlisted ever moves money |
| `Closures.ListedIsHeld` | sync_v3.py:98-125 | What a listed, unfinished payment needs is always held |
| `Closures.LateAckIsAccepted` | sync_v3.py:186-212 | A late acknowledgement of a listed payment, without review and index conflict, is always accepted |
| `Closures.ManifestAgrees` | api_v3.py:373-384 | A manifest of exactly the authorization's payments agrees with every counter of its commitment |
| `CloseCompleteness.HonestCloseSucceeds` | api_v3.py:278-417 | The honest manifest of accepted or waiting payments with indices 1 to n passes every check if and only if it fits a message, what stays held is nonnegative, and one that does not fit is refused |
| `CloseCompleteness.SmallGrantsClose` | api_v3.py:278-417 | Under every grant of at most 21 payments the honest closure succeeds |
| `CloseCompleteness.ClosableIffFits` | protocol_v3.py:505-519 | An authorization in an honest state can be closed, by any closure over any manifest, if and only if the manifest of its payments fits |
| `CloseCompleteness.TooManyNeverClose` | protocol_v3.py:205-215 | In any state, an authorization with 24 payments or more is never closed |
| `CloseCompleteness.HonestIsBound` | protocol_v3.py:499-519 | The closure an honest wallet signs passes the checks of count, total, limits, digests and signature if and only if its manifest fits a message |
| `Window.WindowKeepsInvIff` | sync_v3.py:313-349 | After any safe run in between, the second transaction keeps the invariant if and only if it finds no row or the row of the receipt that failed |
| `Window.FailedNeverEnds` | sync_v3.py:299-313 | Evidence that once asked for more than is held never ends, because held only shrinks |
| `Window.OverwritesAcceptance` | sync_v3.py:313-323 | With another receipt settled in between, the second transaction takes an accepted payment back to review |
| `Counterexample.AcceptanceIsOverwritten` | sync_v3.py:313-323 | A concrete database and three submissions on which exactly that happens |
| `Window.LegacyWindowKeepsInvIff` | sync_v2.py:265-277 | After any safe run in between, the second transaction of version 2 keeps the invariant if and only if it finds no row or a version 2 row that was not accepted, and a row of its own receipt always is one |
| `Window.RefusedStaysRefused` | sync_v2.py:246-265 | Over every run, a version 2 settlement that was refused never passes later |
| `Window.RejectsAcceptance` | sync_v2.py:265-277 | When the operation is settled under version 3 in between, the second transaction of version 2 rejects the accepted payment |
| `Counterexample.AcceptanceIsRejected` | sync_v2.py:265-277 | A concrete database and three submissions on which exactly that happens |
| `Window.SafeIffInvariant` | sync_v3.py:313-349 | Of the runs in which every second transaction belongs to an earlier failure, exactly those whose second transactions find their rows keep the invariant at every state, and these are the safe ones |
| `Batches.Outcome` | sync_v3.py:165-212 | Each submission of a batch payment that was not accepted yet comes to hold or settle, depending only on its acknowledgement |
| `Interleaving.ElsewhereUntouched` | sync_v3.py:41-91 | No step of somebody else, second transactions included, touches what a batch left |
| `Plays.BatchOutcome` | sync_v3.py:41-212 | Whatever is safely interleaved, what the database shows of a batch depends only on which payments were submitted and which ever acknowledged, each applied exactly once |
| `Plays.OrderDoesNotMatter` | sync_v3.py:41-212 | Two runs that submit and acknowledge the same payments, in any order and number, end in the same database |
| `EndToEnd.SettleAndClose` | api_v3.py:251-417 | Once everything an honest phone issued was submitted, whatever others safely did meanwhile, its closure succeeds if and only if its manifest fits, as up to 21 payments do, releases exactly its remaining budget and keeps held exactly what was not acknowledged |
| `EndToEnd.PhoneBatchIsCoherent` | pos_desktop/simulator.py:111-143 | What an honest phone issued meets the hypotheses of order independence |
| `EndToEnd.HonestPhoneCloses` | protocol_v3.py:499-519 | The manifest of an honest phone passes every check of the closure that does not look at the database if and only if it fits a message |
| `EndToEnd.ManifestFitsGrant` | pos_desktop/simulator.py:111-143 | Its total is the authorized total minus the remaining budget and its length the indices issued |
| `Utf8.DecodeIffEncode` | protocol_v3.py:110-141 | Strict UTF-8 decoding and encoding are inverse, on all byte strings and texts |
| `WireTerms.CharBytes` | protocol_v3.py:110-141 | The bytes of a character have the prefixes and the six-bit groups of its number |
| `JsonRoundTrip.LoadsRendered` | protocol_v3.py:110-143 | The full JSON decoder reads every rendered value back |
| `Canonical.ParsePrinted` | protocol_v3.py:106-146 | Parsing a printed value returns it, with its members in order |
| `Canonical.PrintParsed` | protocol_v3.py:136-146 | Printing a parsed message returns the same bytes |
| `Canonical.AcceptsExactlyPrinted` | protocol_v3.py:136-146 | The parser accepts exactly the byte strings the printer can produce |
| `Canonical.OneForm` | protocol_v3.py:106-116 | Two values have the same bytes if and only if they are equal, objects compared as finite maps |
| `Canonical.SameIffNormal` | protocol_v3.py:110-111 | Sorting the keys decides equality of values |
| `Canonical.UniquePairs` | protocol_v3.py:123-129 | The loop refuses exactly the objects that repeat a key, and otherwise fills the finite map of their members |
| `WireTerms.LessTerms` | protocol_v3.py:110-111 | Keys are ordered by their first different code point, or by length when there is none |
| `WireTerms.EscapesAre` | protocol_v3.py:110-111 | Each character is written inside quotes as itself or as its literal escape |
| `WireTerms.DigitsAre` | protocol_v3.py:110-111 | An integer is written in decimal digits of its value without leading zeros |
| `WireTerms.NumbersFit` | protocol_v3.py:84-103 | Exactly the integers of 64 bits have a wire form |
| `Base64.DecodeIffEncoded` | protocol_v3.py:149-158 | The decoder accepts exactly the nonempty texts of the standard encoder and inverts it |
| `WireTerms.LettersAreBits` | protocol_v3.py:149-158 | The j-th letter of an encoding is that of bits 6j to 6j + 5 in the standard alphabet, and padding fills the last group |
| `Base64.NonceIffSixteenBytes` | protocol_v3.py:298-303 | A nonce is accepted exactly when it is the text of some 16 bytes |
| `Base64.NonceIsUnique` | protocol_v3.py:298-303 | Different 16 bytes have different nonces |
| `WireTerms.NonceLetters` | protocol_v3.py:298-303 | The 22 characters of a nonce are those of its bits in the URL-safe alphabet |
| `Envelopes.ParseEncoded` | protocol_v3.py:236-250 | Parsing an encoded envelope returns the payload bytes and the signature text |
| `Envelopes.EncodeParsed` | protocol_v3.py:236-250 | Every accepted envelope is the encoding of what was parsed from it |
| `WireTerms.EnvelopeLayout` | protocol_v3.py:236-241 | The bytes of an envelope are literally its two Base64 members, payload first |
| `Envelopes.ParseCloseManifest` | protocol_v3.py:479-496 | The loop accepts exactly the canonical bytes of a well-formed manifest and returns its lines |
| `WireTerms.ManifestLayout` | protocol_v3.py:479-496 | The bytes of a manifest are literally its lines, each with its four members in order |
| `ManifestSize.ManifestFits` | protocol_v3.py:106-116 | A well-formed manifest can be written if and only if its length, counted from its numbers, is at most 4096 bytes, and then it has that length |
| `ManifestSize.FitsByNumber` | protocol_v3.py:479-509 | Up to 21 payments always fit, 24 or more never do |
| `ManifestSize.BothHappen` | protocol_v3.py:479-509 | With 22 and with 23 payments there are manifests that fit and manifests that do not |
| `Apdu.ParseIffBuilt` | protocol_v2.py:288-307 | A frame parses to a command exactly when it was built from it |
| `PhoneTerms.FrameLayout` | protocol_v2.py:288-296 | The bytes of a command frame are class, instruction, sequence, last mark, length and data, and exactly the known instructions have one |
| `Apdu.AssembleChunked` | protocol_v2.py:310-322 | Cutting and assembling is the identity, in at most 26 fragments of 160 bytes |
| `Delivery.DeliveredWhole` | pos_desktop/simulator.py:72-186 | A message reaches the phone whole although frames are repeated at will, and repetitions afterwards change nothing |
| `Delivery.PutMessage` | pos_desktop/service.py:77-86 | The sending loop has the effect and the answer of the whole message |
| `Delivery.ReadMessage` | pos_desktop/service.py:155-175 | The reading loop of 26 steps always returns the whole message |
| `Delivery.ReadFragment` | pos_desktop/service.py:159-170 | One read returns its fragment and whether it is the last |
| `PhoneTerms.ReadAnswered` | pos_desktop/simulator.py:92-106 | A read answers with exactly one stretch of 160 bytes, marked when last, and its own status word beyond the end |
| `Phone.Simulator.Exchange` | pos_desktop/simulator.py:72-80 | An answered frame is answered from the cache, any other is processed and its answer kept |
| `Phone.Simulator.Answer` | pos_desktop/simulator.py:82-109 | Each instruction gets its answer or its status word, and only fragments change the state |
| `Phone.Simulator.PutFragment` | pos_desktop/simulator.py:145-157 | Fragments are kept in sequence up to 4096 bytes, and the last hands over the message |
| `Phone.Simulator.PutMessage` | pos_desktop/simulator.py:157-186 | A request or acknowledgement is stored when its key is trusted, its signature and binding hold and nothing else is stored |
| `Phone.Simulator.ConfirmRequest` | pos_desktop/simulator.py:111-143 | A confirmation takes the next index and its amount from the budget, or changes nothing |
| `PhoneTerms.ConfirmedIff` | pos_desktop/simulator.py:111-143 | A request is confirmed if and only if an index and its amount are left and it is within limits and time; the receipt is the one fixed by request, grant, next index and moment |
| `PhoneTerms.RequestAnswered` | pos_desktop/simulator.py:157-175 | A request is stored exactly when its key is trusted, its signature is that key's over it and nothing else is stored, and each refusal has its own status word |
| `PhoneTerms.AckAnswered` | pos_desktop/simulator.py:177-191 | An acknowledgement is stored exactly when it is signed, repeats request and receipt field by field and nothing else is stored |
| `PhoneTerms.StatusAnswered` | pos_desktop/simulator.py:188-197 | The status of an operation is answered by its name and how far it is, in these bytes |
| `Phone.HonestForEver` | pos_desktop/simulator.py:111-143 | Over any run, indices are 1 to n without gaps, n is within the grant, and remaining is the total minus the receipts and nonnegative |
| `Phone.NewIsHonest` | pos_desktop/simulator.py:38-70 | A new phone starts with index one and its whole budget, as every run requires |
| `PosStore.Lifecycle` | pos_desktop/database.py:263-440 | Over any calls, states only advance, evidence is written once, receipt and acknowledgement come together, and recovery is complete exactly when a resolution is stored |
| `PosStore.LeaseIsExclusive` | pos_desktop/database.py:205-222 | With a clock that never goes back, another owner gets the lease only after it expired |
| `PosTerms.ResultTerms` | pos_desktop/database.py:355-381 | Accepted ends in synced, rejected in rejected, anything else stays with its retry, and only a locally accepted operation takes a result |
| `PosTerms.BackoffTerms` | pos_desktop/sync.py:132-141 | A retry waits 15 seconds, doubled by every attempt, and never more than an hour |
| `Timestamps.OrderAgrees` | pos_desktop/database.py:209 | Comparing timestamp texts is comparing moments |
| `WireTerms.TimestampLayout` | protocol_v3.py:292-295 | A timestamp is its six numbers at fixed places between its literal separators |
| `PosDatabase.Database.InsertRequest` | pos_desktop/database.py:263-283 | A request is inserted once, repeated idempotently and refused under another content or a used nonce |
| `PosDatabase.Database.StoreAuthorization` | pos_desktop/database.py:288-297 | The authorization is kept once, only before acceptance |
| `PosDatabase.Database.AcceptReceiptAndAck` | pos_desktop/database.py:299-322 | Receipt and acknowledgement are written together, once, only before acceptance |
| `PosDatabase.Database.ApplySyncResult` | pos_desktop/database.py:355-381 | A result moves an accepted operation once, and a final one needs its resolution |
| `PosDatabase.Database.Earliest` | pos_desktop/database.py:342-353 | The listing has no repetition, is ordered by update and cut only by its limit |
| `PosSync.ApplyBatch` | pos_desktop/sync.py:51-76 | Candidates get exactly the update of their first known result, or a retry, up to the first final result without a resolution; if there is none, the counts sum to the candidates |
| `PosSync.IndexResults` | pos_desktop/sync.py:51-58 | The loop keeps the first known result of each candidate and nothing else |
| `PosSync.RetryAll` | pos_desktop/sync.py:46-49 | After a network error every candidate, and nothing else, is due again later |
| `PosSync.RecoverListed` | pos_desktop/sync.py:83-117 | Exactly the listed operations are recovered, flagged or rescheduled as their fetch says, up to the first authorization error, and the counts are the conclusions |
| `PosSync.Reconcile` | pos_desktop/sync.py:37-79 | The batch is what was due, the recovery what then awaits a resolution, every row is left as exactly one of the two says, and the round raises exactly when the batch fails or a fetch is unauthorized |
| `PosSync.SyncDue` | pos_desktop/sync.py:30-81 | A round runs exactly when no other owner holds an unexpired lease, does exactly that, counts what it did, and gives the lease back however it ends |
| `PosSync.RoundAdvances` | pos_desktop/sync.py:30-81 | However a round ends, receipt and acknowledgement stay paired, evidence and resolutions stay written once, recovery stays complete exactly with a resolution, and no state goes back |
| `PosTerms.NothingLeftDue` | pos_desktop/sync.py:30-117 | A round that its limit does not cut and that was answered in full leaves nothing due, to send or to recover |
| `PosService.Service.DeliverRequest` | pos_desktop/service.py:71-92 | A delivery succeeds exactly when the phone takes the stored request and it was not seen waiting yet, and the phone then holds exactly it |
| `PosService.Service.CollectReceipt` | pos_desktop/service.py:94-143 | A tap succeeds exactly when the phone shows a receipt that answers the stored request under a trusted grant, in time, and takes its acknowledgement; the row then holds exactly what the phone sent, a repeated tap delivers the stored acknowledgement, and an unconfirmed request waits |
| `PosService.HonestTap` | pos_desktop/service.py:94-143 | A confirmed request of the terminal, under a trusted grant, before it ends, on a phone that trusts the terminal's key, meets these conditions |
| `PosService.AcknowledgementTerms` | pos_desktop/service.py:115-135 | The terminal's acknowledgement repeats the receipt and its digest at the moment of the tap, under its own key's signature |
| `Taps.CollectedSettles` | sync_v3.py:186-212 | What a catalogued terminal collected in time from a phone is authentic to the backend, and settles exactly when nothing sends it to a review and its amount is still held |

## Left out

- Signatures, digests and key encodings: ECDSA, SHA-256 and DER are idealised as described above.
- Payload field syntax: identifiers, calendar dates and the UUID of a payload are opaque values; only a manifest's UUID
  and digest syntax, and the order of timestamps, are modelled on text.
- The bridge between a payload's JSON fields and the message values of `Messages`: `Phone.Codec` states what is needed
  of it, and `Envelopes` proves that for the canonical format.
- Clocks: issue and acknowledgement times are inputs; the times stored with a resolution and an applied payment, and the
  free text code inside a resolution, are not modelled. The currency is the constant ARS.
- Integer and decimal widths of the database: balances are unbounded integers and exact reals, so overflow of a 64-bit
  balance and rounding of the decimal column are not modelled.
- Session mechanics, busy databases and unexpected exceptions: a handler is one commit or none. The one exception that
  matters, the second transaction of a failed settlement, is modelled.
- Reads that issuance makes before it takes the wallet lock, other than the lookup of its request id: the key, the
  wallet's flag and the limits are read at the moment of the commit.
- Creation of users and wallets: the set of wallets is fixed over a run. Keys, terminals and the inventory are inputs
  that may change arbitrarily between steps.
- Registration of legacy inventory (api_v3.py:36-77) and read-only endpoints: they do not move money.
- Mercado Pago top-ups, login, throttling, routing and schemas: external services and plumbing.
- The recursion limit of the JSON library: values nested deeper than it allows are refused by the program and accepted
  by the model.
- Canonical.AcceptsExactlyPrinted: does not model that recursion limit, for the same reason.
- SELECT and its capability body (protocol_v3.py:406-424), PC/SC, the user interface and the POS identity store.
- Migrations of either database and the offline recovery tools: one-shot scripts.

