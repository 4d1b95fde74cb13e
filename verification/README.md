# Credit ledger verification

A Dafny 4.11 model of the money-critical core of Prelude, with machine-checked proofs. `dafny verify dfyconfig.toml` checks
the whole project.

**The prepaid credit ledger.** `CreditLots` is the pure lot policy. `LedgerModel` holds the four tables (wallets, lots,
reservations, signed entries) and one function per transaction; a transaction commits or throws, and a throw leaves the
tables as they were. `LedgerInvariant` and `LedgerRuns` prove that every operation, and so every run, keeps the stored
counters equal to both recomputations, from the lots and from the ledger. `LedgerHistory`, `LedgerGuarantees`,
`LedgerExits`, `LedgerEntries`, `WalletAudit`, `SweepConfluence`, `LotExhaustion` and `DisputeTransparency` state what
follows for whole runs, and `LedgerOutcomes` exactly when each call gives which answer and what it then leaves.
`CreditLedger.dfy` is the ledger as the program runs it: a class whose methods update the tables statement by statement,
with loops and running totals, each proved to commit exactly its transaction, so any sequence of calls is a run
(`CreditLedgerStore.CreditLedger.CommitAll`). `SelectionOptimality` shows that soonest-expiry-first serves the most
requests, and `ProrataRefund` settles the partial-refund gate over exact prices.

**Around the ledger.** `BillingAdmission` and `CreditSettlement` are its non-atomic callers, with faults between the
commits and, in admission, any commits of other callers. `BillableEvidence` is the fold from the event log to the billing
decision. `EventArchive` is the Stripe event archive.

**Two independent cores.** `DemoStarts` is the marketing-demo allocator. `JoinQueue` is the Redis stream queue of the live
worker, with crashes between any two commands, and the worker's own calls as steps of that system.

How to read the statements:

- Each ledger transaction is one atomic step under the wallet lock. What the program reads before the lock is separate: a
  money-exit step names a row that may have been located at any earlier moment (`LedgerExits.LocatedRowStays`), and the
  unlocked wallet check is covered by `LedgerExits.SeenWalletStays`.
- Runs start from any balanced state. The empty database is one, and so is a wallet without a currency lock that already
  has paid lots.
- The unconditional invariant counts lots whose status is active. Agreement with the clock holds exactly when no due lot
  has credits left (`WalletAudit.AuditIsExact`).
- Times are integers in milliseconds. Ids are integers, ordered like the strings they stand for. Clocks are parameters; only
  statements that need a clock order ask for one.

Where the code says less than one might expect, the model follows the code:

- A billed outcome of "captured" is no proof of a charge, because the result of the capture is ignored
  (apps/candidate/src/server/credit-settlement.ts:124-136). `CreditSettlement.CapturedTraceWithoutCharge` is a run that
  ends that way, `CreditSettlement.CapturedTraceIsChargeIff` the exact condition.
- The comment on the refund gate says its tolerance absorbs the rounding of a merchant
  (packages/billing/src/credit-ledger.ts:938-941). Below two cents a credit it can refuse an honestly rounded amount, also
  one rounded to the nearest cent: `ProrataRefund.CheapCreditsCanBeRefused` has two, `ProrataRefund.RoundedAmountsPass` the
  exact condition.
- The archive's comments call needs_admin terminal and a first error never overwritten
  (packages/billing/src/stripe-webhook.ts:86-89 and 385-398). That holds for deliveries in sequence
  (`EventArchive.HistoryKeeps`). The row is written twice with the handler in between and no lock, and two deliveries of one
  event, or a delivery and a reprocess pass, can overlap: `EventArchive.ParkedRowIsClosed` and
  `EventArchive.FirstErrorIsReplaced` are two such runs, `EventArchive.ParkedThroughoutIff` and
  `EventArchive.FirstErrorThroughoutIff` the exact conditions, and `EventArchive.InterleavingsKeep` is what still holds.
- A renewal takes its clock as given, so one that carries an earlier clock than the hold shortens it. It is the one step
  besides a release and a late sweep that can cost an admitted session its hold (`LedgerGuarantees.StepUnbacksIff`).
- A fully consumed lot need not be exhausted (packages/billing/src/credit-ledger.ts:1142-1147). A hold outlives its lot
  whether the lot is frozen, expired or revoked meanwhile, and a capture on a closed lot leaves its status.
  `LotExhaustion.SpentIsNotExhausted` has a run for each, `LotExhaustion.RunExhaustsIff` the exact condition: some capture
  took the last credit while the lot was active. Such a lot carries no credit and stays that way. Exhausted is also the
  one status in which a won dispute can differ from no dispute at all.

## Model

| member | source | states |
|---|---|---|
| CreditLots.SelectLotForReservation | packages/core/src/domain/credit-lots.ts:44-51 | Returns a lot exactly when one is eligible, and then an eligible lot of the table that no other eligible lot goes before. |
| CreditLots.FreeThenSoonest | packages/core/src/domain/credit-lots.ts:31-51 | The chosen lot is free whenever a free one is eligible, within its kind lapses no later than any other, and then is the oldest grant, then the smallest id. |
| CreditLots.SelectionIgnoresLoadOrder | packages/core/src/domain/credit-lots.ts:31-51 | Over lots with distinct ids the choice is the same for every order in which the same lots are loaded. |
| CreditLots.SortIsPermutation | packages/core/src/domain/credit-lots.ts:49 | The sort before the pick loses no lot and invents none. |
| CreditLots.NextExpiry | packages/core/src/domain/credit-lots.ts:69-82 | Names the credits and the expiry of an eligible lot that no eligible lot expires before; nothing exactly when no lot is eligible. |
| CreditLots.PaidTotalIsPaidCredits | packages/core/src/domain/credit-lots.ts:53-83 | The paid total, found by subtraction, is what the clock-active paid lots still carry, and the free total is the rest. |
| SelectionOptimality.SoonestExpiryIsOptimal | packages/core/src/domain/credit-lots.ts:31-51 | Over lots of one kind, any grants and any requests in time order, the policy serves at least as many requests as every other choice of eligible lots. |
| SelectionOptimality.PolicyServes | packages/core/src/domain/credit-lots.ts:44-51 | One request keeps the policy ahead of any rival at every deadline from now on, counting served requests plus credits still spendable past the deadline. |
| SelectionOptimality.LastingFalls | packages/core/src/domain/credit-lots.ts:16-29 | Credits spendable past a deadline fall at least by what is left in a lot that lapses before it. |
| LedgerModel.SelectRowIsBest | packages/billing/src/credit-ledger.ts:1058-1061 | The row found again by id is the best eligible row of the organization, and none is found exactly when none is eligible. |
| LedgerInvariant.BooksFollow | packages/billing/src/credit-ledger.ts:9-24 | A write that moves the wallet, one lot, its holds and the log by the same effect keeps every recomputation equal to the stored counters, for every wallet, lot and session. |
| LedgerInvariant.CloseKeepsInv | packages/billing/src/credit-ledger.ts:697-727 | Closing an active lot for what is available in it, held credits excluded, keeps the books, whether it expires, is frozen or is refunded. |
| LedgerInvariant.ReopenKeepsInv | packages/billing/src/credit-ledger.ts:787-803 | Reopening a frozen lot with what is available in it then keeps the books. |
| LedgerInvariant.CaptureKeepsInv | packages/billing/src/credit-ledger.ts:1138-1166 | Moving a held credit to consumed keeps the books, also on a lot that is no longer active. |
| LedgerInvariant.ReleaseKeepsInv | packages/billing/src/credit-ledger.ts:1362-1404 | Releasing a hold keeps the books: +1 on an active lot, a cancelling pair on a closed one. |
| LedgerInvariant.PlaceKeepsInv | packages/billing/src/credit-ledger.ts:1063-1101 | Taking a fresh hold, on a new row or over the released row of the same session, keeps the books. |
| LedgerInvariant.RenewKeepsInv | packages/billing/src/credit-ledger.ts:1045-1048 | Renewing a live hold moves no balance. |
| LedgerInvariant.NewWalletKeepsInv | packages/billing/src/credit-ledger.ts:406-420 | Opening an empty wallet for an organization that had none keeps the books of every other one. |
| LedgerInvariant.LockKeepsInv | packages/billing/src/credit-ledger.ts:573-576 | Locking a wallet to a currency that all its paid lots carry keeps the books. |
| LedgerInvariant.AddKeepsInv | packages/billing/src/credit-ledger.ts:587-639 | A new lot with its grant entry and its wallet credit keeps the books. |
| LedgerRuns.TtlSweepKeepsInv | packages/billing/src/credit-ledger.ts:1292-1325 | Releasing every hold past its deadline, across lots open and closed, keeps the books. |
| LedgerRuns.ExpirySweepKeepsInv | packages/billing/src/credit-ledger.ts:1406-1444 | Writing off every active lot past its expiry keeps the books. |
| LedgerRuns.ReleasesFreeHolds | packages/billing/src/credit-ledger.ts:1297-1316 | A sweep releases exactly the listed holds and no other row. |
| LedgerRuns.ReleasesFreeLots | packages/billing/src/credit-ledger.ts:1308-1316 | Each lot gets back exactly the listed holds that sit on it, and nothing else of it changes. |
| LedgerRuns.ExpiriesCloseLots | packages/billing/src/credit-ledger.ts:1420-1436 | A sweep expires exactly the listed lots and no other row. |
| LedgerRuns.ReserveKeepsInv | packages/billing/src/credit-ledger.ts:1013-1103 | Every branch of a reservation keeps the books. |
| LedgerRuns.ReleaseTxKeepsInv | packages/billing/src/credit-ledger.ts:1184-1217 | A release with its trailing sweep keeps the books. |
| LedgerRuns.GrantKeepsInv | packages/billing/src/credit-ledger.ts:521-634 | Every branch of a purchase keeps the books. |
| LedgerRuns.ResolveKeepsInv | packages/billing/src/credit-ledger.ts:767-816 | Winning or losing a dispute keeps the books. |
| LedgerRuns.RefundKeepsInv | packages/billing/src/credit-ledger.ts:850-932 | Every branch of a refund keeps the books. |
| LedgerRuns.ApplyKeepsInv | packages/billing/src/credit-ledger.ts:387-1444 | Any one of the ten operations, on any balanced state, leaves a balanced state. |
| LedgerRuns.RunKeepsInv | packages/billing/src/credit-ledger.ts:9-24 | After every sequence of operations the books are balanced. |
| LedgerHistory.RunEvolves | packages/billing/src/credit-ledger.ts:9-24 | Over any run rows are never removed or re-identified, consumption never falls, exhausted, expired and revoked are never left, a captured hold never changes, a currency lock never changes, and the log only grows at its end. |
| LedgerGuarantees.Conservation | packages/billing/src/credit-ledger.ts:1245-1286 | After any run the available counter equals the sum of all deltas and the spendable credits of all lots, the reserved counter equals the reserved credits and the number of live holds, and neither is negative. |
| LedgerGuarantees.LotConservation | packages/billing/src/credit-ledger.ts:9-24 | After any run the deltas naming a lot sum to its available credits if it is active and to zero otherwise, its counters count exactly its live and its captured holds, and they never exceed the grant. |
| LedgerGuarantees.SessionAudit | packages/billing/src/credit-ledger.ts:1063-1101 | What the log says about a session, consumes and reserves net of releases, is decided by its one reservation row. |
| LedgerGuarantees.ChargedAtMostOnce | packages/billing/src/credit-ledger.ts:995-1003 | No run charges a session twice, also through release and a new hold on another lot. |
| LedgerGuarantees.CapturedForGood | packages/billing/src/credit-ledger.ts:1026-1030 | After a capture no later operation changes the row, and reserving, capturing or releasing the session again writes nothing. |
| LedgerGuarantees.StepUnbacksIff | packages/billing/src/credit-ledger.ts:1031-1056 | For every operation and every hold that is captured or live to a deadline: it stops being so exactly by its own release, a sweep at or past its expiry, or a renewal at a clock that shortens it. |
| LedgerGuarantees.RunKeepsBacked | packages/billing/src/credit-ledger.ts:1031-1048 | A hold that no step releases, sweeps at or past the deadline, or renews from before the window stays held to the deadline, or is captured, whatever else runs and at whatever clocks. |
| LedgerGuarantees.HoldSafety | packages/billing/src/credit-ledger.ts:1031-1050 | A session admitted at t survives every run that does not release it, sweep at or past t plus the TTL, or renew it at a clock before t, and a capture then leaves exactly one charge; all other clocks are free. |
| LedgerEntries.RunLawful | packages/billing/src/credit-ledger.ts:14-19 | Every entry that any run writes has the sign and amount of its kind: whole lots granted, one credit reserved or released, nothing consumed, closings never adding, reopenings never taking. |
| LedgerEntries.ApplyLawful | packages/billing/src/credit-ledger.ts:14-19 | Every operation writes only such entries. |
| LedgerOutcomes.WalletOpened | packages/billing/src/credit-ledger.ts:387-440 | A new wallet has five credits on one free lot that can serve for the days given and is due after them; an existing one is left alone. |
| LedgerOutcomes.BadPurchaseIsRefused | packages/billing/src/credit-ledger.ts:505-509 | A purchase is refused for its amounts exactly when it grants nothing or its price is negative, and a failed one writes nothing. |
| LedgerOutcomes.PurchaseGranted | packages/billing/src/credit-ledger.ts:587-631 | A granted purchase credits the wallet and adds one paid lot with its credits, price, payment and upper-case currency, which can serve for 365 days and is due after them. |
| LedgerOutcomes.CapitalsMean | packages/billing/src/credit-ledger.ts:536-538 | Small letters of a currency code become capitals and nothing else changes. |
| LedgerOutcomes.ResumedOk | packages/billing/src/credit-ledger.ts:1024-1049 | A session with a captured hold of its organization is answered ok and nothing is written; one with a live hold is answered ok and held for an hour from now. |
| LedgerOutcomes.ReserveThrowsIff | packages/billing/src/credit-ledger.ts:1012-1023 | A reservation fails exactly for want of a wallet or on a session of another organization, and then writes nothing. |
| LedgerOutcomes.FreshHoldTaken | packages/billing/src/credit-ledger.ts:1063-1103 | A fresh hold is live for an hour from now, on the row the session has or a new one; one credit of its lot and wallet moves from available to reserved, and no other row changes. |
| LedgerOutcomes.CaptureAnswers | packages/billing/src/credit-ledger.ts:1117-1137 | A capture is done exactly on a live hold of the organization, repeated exactly on a captured one, and otherwise has nothing to take; only a done one writes. |
| LedgerOutcomes.CaptureTakes | packages/billing/src/credit-ledger.ts:1138-1166 | A done capture resolves the hold now and turns one reserved credit of its lot into a consumed one; the available balance stays. |
| LedgerOutcomes.ReleaseAnswers | packages/billing/src/credit-ledger.ts:1190-1201 | A release is done exactly on a live hold of the organization, already resolved exactly on any other row of it, and otherwise has nothing to give back; only a done one writes. |
| LedgerOutcomes.ReleaseGivesBack | packages/billing/src/credit-ledger.ts:1202-1216 | A done release resolves the hold now and gives its credit back to the lot, which lapses then if it was open and due. |
| LedgerOutcomes.FreezeAnswers | packages/billing/src/credit-ledger.ts:690-708 | A dispute freezes exactly an active lot, is parked for an operator exactly on an exhausted one, and is a replay on any other. |
| LedgerOutcomes.FreezeBlocks | packages/billing/src/credit-ledger.ts:710-738 | An applied freeze stamps the lot and reports exactly the credits that left the wallet; holds stay. |
| LedgerOutcomes.ResolveAnswers | packages/billing/src/credit-ledger.ts:778-814 | A resolution applies exactly to a frozen lot; lost, it revokes it and moves no balance; won, it reports what is available in it then. |
| LedgerOutcomes.FullRefundAnswers | packages/billing/src/credit-ledger.ts:862-905 | A full refund is applied exactly to an active lot on which no session was ever charged, parked exactly on an exhausted one or an active one with a charged session, and a replay on any other; only an applied one writes. |
| LedgerOutcomes.PartialRefundAnswers | packages/billing/src/credit-ledger.ts:862-906 | A partial refund is applied exactly to an active lot whose unconsumed credits it prices, and parked on an active lot otherwise. |
| LedgerOutcomes.RefundRevokes | packages/billing/src/credit-ledger.ts:908-930 | An applied refund revokes the lot and reports exactly the credits that left the wallet; holds stay. |
| LedgerOutcomes.SweepsReport | packages/billing/src/credit-ledger.ts:1220-1240 | The scheduled sweeps report the number of overdue holds and exactly the lapsed active lots, each once. |
| LedgerExits.LocatedRowStays | packages/billing/src/credit-ledger.ts:967-993 | The lot located before the lock is still the payment's only lot, with the same owner, price and grant, when the lock is held. |
| LedgerExits.ExitsStayOrdered | packages/billing/src/credit-ledger.ts:690-708 | Under any interleaving of duplicate deliveries a lot has at most one refund entry, only if it is revoked, and in every prefix of the log its freezes and releases alternate, freeze first. |
| LedgerExits.OnlyAppliedExitsWrite | packages/billing/src/credit-ledger.ts:690-708 | An exit that is parked for an operator or already applied leaves the whole state as it was. |
| LedgerExits.ClosedLotsIgnoreExits | packages/billing/src/credit-ledger.ts:690-708 | Once exhausted, expired or revoked, a lot keeps that status and every later exit on it changes nothing. |
| LedgerExits.ExitMovesAvailable | packages/billing/src/credit-ledger.ts:711-732 | An applied freeze or refund takes the unheld credits of the lot out of the wallet, never below zero, and leaves the reserved counter. |
| LedgerExits.SeenWalletStays | packages/billing/src/credit-ledger.ts:393-409 | A wallet seen before the lock is still there under it, whatever ran in between, so the unlocked check skips only a transaction that would change nothing. |
| LedgerExits.GrantIffCurrencyAgrees | packages/billing/src/credit-ledger.ts:534-585 | A new payment is granted exactly when neither the lock nor any paid lot of the wallet disagrees with its currency; otherwise it is refused as a mismatch and nothing is written. |
| LedgerExits.GrantedExactlyOnce | packages/billing/src/credit-ledger.ts:521-651 | Whatever runs after a grant, a replay of its payment changes nothing: the owner is told it was granted, anyone else fails, and the lot has exactly one purchase entry. |
| LedgerExits.CurrencyLocked | packages/billing/src/credit-ledger.ts:549-585 | A locked currency never changes in any run, and every paid lot the organization ever has carries it. |
| LedgerExits.GrantLocksCurrency | packages/billing/src/credit-ledger.ts:552-576 | Every grant leaves its wallet locked to the purchase's currency for good, also a wallet with legacy lots and no lock. |
| WalletAudit.AuditIsExact | packages/billing/src/credit-ledger.ts:1242-1286 | On every balanced state the audit passes if and only if every active lot past its expiry is empty; the reserved part always agrees. |
| WalletAudit.AuditPassesAfterSweeps | packages/billing/src/credit-ledger.ts:1184-1240 | The audit passes at the clock of a release, of a scheduled release sweep and of an expiry sweep. |
| WalletAudit.AuditPassesAfterFreshHold | packages/billing/src/credit-ledger.ts:1051-1103 | The audit passes right after an admission that took, or was refused, a fresh hold. |
| WalletAudit.AuditPassesAfterWon | packages/billing/src/credit-ledger.ts:804-807 | The audit passes right after a dispute was won, also for a lot that lapsed while frozen. |
| WalletAudit.AuditDetectsDrift | packages/billing/src/credit-ledger.ts:1252-1286 | On any tables, balanced or not, the audit passes exactly if the available counter equals both the clock-active credits of the lots and the sum of the deltas, and the reserved counter the reserved credits. |
| WalletAudit.FreshHoldIffBalance | packages/billing/src/credit-ledger.ts:1051-1061 | A fresh reservation succeeds if and only if the swept wallet has a credit, and it is taken on the best eligible row. |
| WalletAudit.FreshHoldSpendsInOrder | packages/billing/src/credit-ledger.ts:1051-1061 | While some lot of the swept organization can serve, a fresh hold is taken, and on a lot that goes before it: free before bought, then soonest to lapse, then oldest, then smallest id. |
| WalletAudit.SweepLeavesNothingDue | packages/billing/src/credit-ledger.ts:1406-1444 | After the expiry sweep no active lot of the organization is past its expiry. |
| SweepConfluence.TtlSweepRows | packages/billing/src/credit-ledger.ts:1292-1325 | The release sweep row by row: exactly the holds past their deadline are released, and each lot gets back as many credits as it carried of them. |
| SweepConfluence.ExpirySweepRows | packages/billing/src/credit-ledger.ts:1406-1444 | The expiry sweep row by row: exactly the due active lots become expired, with no other change. |
| SweepConfluence.SweepsCommute | packages/billing/src/credit-ledger.ts:1051-1056 | Either order of the two sweeps ends with the same wallets, lots, reservations and ledger totals per organization and per lot. |
| DisputeTransparency.WonDisputeIsTransparent | packages/billing/src/credit-ledger.ts:684-816 | For any operations of any organization between a freeze and its won resolution, but for exits on the disputed lot and fresh holds that would have drawn on it, all wallets, holds and lot counts equal those of the run without the dispute, swept at the same clock. |
| DisputeTransparency.RunMatches | packages/billing/src/credit-ledger.ts:387-1240 | Step by step the two runs differ only in the status of the disputed lot, in the balance of its wallet and in the log. |
| DisputeTransparency.SameChoice | packages/billing/src/credit-ledger.ts:1058-1061 | Unless the run without a dispute takes the disputed lot, a fresh hold takes the same lot in both runs. |
| DisputeTransparency.OthersNeverDraw | packages/billing/src/credit-ledger.ts:1058-1061 | No reservation of another organization ever draws on the disputed lot. |
| LotExhaustion.CaptureExhaustsIff | packages/billing/src/credit-ledger.ts:1138-1147 | On every balanced state a capture exhausts its lot exactly when it takes the last credit of a lot that is still active. |
| LotExhaustion.StepExhaustsIff | packages/billing/src/credit-ledger.ts:387-1444 | After any operation a lot is exhausted exactly when it was before or the operation is that capture. |
| LotExhaustion.RunExhaustsIff | packages/billing/src/credit-ledger.ts:1142-1147 | After any run a lot is exhausted exactly when it was before or some step of the run captured its last credit while it was active. |
| LotExhaustion.SpentButNotExhaustedForGood | packages/billing/src/credit-ledger.ts:1142-1147 | A fully consumed lot that is not exhausted has no free and no held credit, and no run ever makes it exhausted. |
| LotExhaustion.ClosedStatusOutlastsTheLastCredit | packages/billing/src/credit-ledger.ts:1142-1147 | Capturing the last credit of a frozen, expired or revoked lot leaves it fully consumed in the status it had. |
| LotExhaustion.WonLotFollowsTheClock | packages/billing/src/credit-ledger.ts:787-807 | A won dispute makes its lot active, or expired when due, whatever was consumed of it. |
| LotExhaustion.SpentWhileFrozenIsNotExhausted | packages/billing/src/credit-ledger.ts:1142-1147 | A lot captured to its last credit while frozen stays frozen, and a won dispute makes it active, or expired when due. |
| LotExhaustion.SpentIsNotExhausted | packages/billing/src/credit-ledger.ts:1142-1147 | Three runs from the empty database, closing a lot by dispute, expiry and refund, that end with it fully consumed and active, expired and revoked. |
| CreditLedgerStore.CreditLedger.ReleaseReservationRow | packages/billing/src/credit-ledger.ts:1362-1404 | Commits the single release of the model and returns exactly what it adds to available credits. |
| CreditLedgerStore.CreditLedger.ReleaseExpiredReservationsInTx | packages/billing/src/credit-ledger.ts:1292-1325 | The loop with its running total and one wallet write equals releasing the due holds one by one, and counts them. |
| CreditLedgerStore.CreditLedger.ExpireDueLotsInTx | packages/billing/src/credit-ledger.ts:1406-1444 | The loop with its running write-off and at most one wallet write equals expiring the due lots one by one, and lists them. |
| CreditLedgerStore.CreditLedger.EnsureWallet | packages/billing/src/credit-ledger.ts:387-448 | Opens the wallet with its five free credits once, and keeps the books. |
| CreditLedgerStore.CreditLedger.GrantPurchasedCreditLot | packages/billing/src/credit-ledger.ts:487-652 | Rejects bad amounts before any write, opens the wallet in a commit of its own, then commits the purchase or leaves the opened wallet. |
| CreditLedgerStore.CreditLedger.GrantUnderLock | packages/billing/src/credit-ledger.ts:521-634 | Idempotency first, then the currency gate, then the writes: exactly the purchase transaction. |
| CreditLedgerStore.CreditLedger.ReserveCreditForSession | packages/billing/src/credit-ledger.ts:1004-1104 | Opens the wallet in a commit of its own, then commits exactly the reservation transaction. |
| CreditLedgerStore.CreditLedger.ReserveUnderLock | packages/billing/src/credit-ledger.ts:1012-1103 | Resume, renewal, refusal and fresh hold, branch by branch, are the reservation transaction. |
| CreditLedgerStore.CreditLedger.TakeFreshHold | packages/billing/src/credit-ledger.ts:1051-1103 | Release sweep, expiry sweep, choice and writes, in that order, are the fresh-hold transaction. |
| CreditLedgerStore.CreditLedger.CaptureReservationForSession | packages/billing/src/credit-ledger.ts:1111-1178 | Commits exactly the capture transaction and reports its outcome. |
| CreditLedgerStore.CreditLedger.ReleaseReservationForSession | packages/billing/src/credit-ledger.ts:1184-1217 | Commits exactly the release transaction with its trailing sweep and reports its outcome. |
| CreditLedgerStore.CreditLedger.ReleaseExpiredReservations | packages/billing/src/credit-ledger.ts:1220-1230 | The scheduled release sweep followed by the expiry sweep. |
| CreditLedgerStore.CreditLedger.ExpireDueLots | packages/billing/src/credit-ledger.ts:1233-1240 | The scheduled expiry sweep, reporting the lots it closed. |
| CreditLedgerStore.CreditLedger.FreezeLotForDispute | packages/billing/src/credit-ledger.ts:684-740 | Commits exactly the freeze transaction on the located row. |
| CreditLedgerStore.CreditLedger.ResolveDisputeOnLot | packages/billing/src/credit-ledger.ts:767-816 | Commits exactly the resolution on the located row, with the expiry sweep after a win. |
| CreditLedgerStore.CreditLedger.RevokeUnconsumedLot | packages/billing/src/credit-ledger.ts:850-932 | Commits exactly the refund transaction on the located row. |
| CreditLedgerStore.CreditLedger.ExitForPayment | packages/billing/src/credit-ledger.ts:976-993 | Locate, any commits of others, lock and re-read, exit: a payment without a lot changes nothing, otherwise the exit commits on the same lot as it is under the lock, and only an applied one writes. |
| CreditLedgerStore.CreditLedger.Commit | packages/billing/src/credit-ledger.ts:387-1240 | Every step that runs are made of is committed by the method it stands for. |
| CreditLedgerStore.CreditLedger.CommitAll | packages/billing/src/credit-ledger.ts:387-1240 | Any sequence of calls leaves the state of the run of their steps. |
| CreditLedgerStore.CreditLedger.ReconcileWallet | packages/billing/src/credit-ledger.ts:1252-1286 | Changes nothing and reports consistent exactly when no lot past its expiry still has spendable credits. |
| ProrataRefund.GateIffNearPrice | packages/billing/src/credit-ledger.ts:949-965 | The partial-refund gate passes exactly when the refund is within a cent of the price of all the credits and within half a credit of it. |
| ProrataRefund.OneCountPerRefund | packages/billing/src/credit-ledger.ts:949-965 | A refund passes the gate for at most one number of credits. |
| ProrataRefund.RoundedAmountsPass | packages/billing/src/credit-ledger.ts:938-941 | The rounded-down and the rounded-up price pass exactly when they miss the price by less than half a credit, and always at two cents a credit or more. |
| ProrataRefund.CheapCreditsCanBeRefused | packages/billing/src/credit-ledger.ts:949-965 | Two concrete refunds are refused: nine credits at 1.1 cents rounded down, and two credits at 0.3 cents rounded to the nearest cent. |
| ProrataRefund.PartialRefundIsPriced | packages/billing/src/credit-ledger.ts:888-932 | An applied partial refund revokes every available credit; their price is within a cent of the refund and no other count would pass. |
| BillableEvidence.FoldStep | apps/candidate/src/server/credit-settlement.ts:203-224 | An attributable event overwrites the verdict of its question and no other, an event without a question changes nothing. |
| BillableEvidence.LoadQuestionOutcomes | apps/candidate/src/server/credit-settlement.ts:185-227 | One pass over the events yields as many answered outcomes as there are questions whose last event says answered. |
| BillableEvidence.DecideFromEvents | packages/core/src/domain/billable-completion.ts:17-34 | The decision taken from the event log is the one its final verdicts justify. |
| BillableEvidence.BilledIffEnough | packages/core/src/domain/billable-completion.ts:7-34 | An interview with a plan is billed exactly when at least three and at least half of its planned questions are answered, and the bar named is the least number that is enough; without a plan nothing is billed. |
| BillableEvidence.AttributionReads | apps/candidate/src/server/credit-settlement.ts:203-216 | An event belongs to the question named by its snake-case id, failing that by its camel-case id, failing both to none; only non-empty strings count. |
| BillableEvidence.VerdictReads | apps/candidate/src/server/credit-settlement.ts:217-223 | The verdict of an event is read in the same way. |
| BillableEvidence.SupersededEventsIgnored | apps/candidate/src/server/credit-settlement.ts:195-202 | An event that names no question, or whose question has a later event, never changes the decision. |
| BillableEvidence.ShortPlans | packages/core/src/domain/billable-completion.ts:7-13 | If events name planned questions, plans of one or two questions never bill and a plan of three bills exactly when all three are answered. |
| BillingAdmission.AdmissionOpensWallet | packages/billing/src/credit-ledger.ts:1004-1012 | A reserve never fails for want of a wallet, and leaves one, whatever others commit before its lock. |
| BillingAdmission.OkMeansCredit | packages/billing/src/credit-ledger.ts:1004-1104 | Whatever others commit before the reserve or before its lock, an ok means a hold or a captured credit of that organization behind that very session, good for a full TTL if held. |
| BillingAdmission.CreditStays | packages/billing/src/credit-ledger.ts:1031-1048 | The credit stays behind an admitted session through every later commit that does not release it, sweep at or past its TTL, or renew it at an earlier clock. |
| BillingAdmission.CandidateSessions.CreateCreditBackedCandidateSession | apps/candidate/src/server/billing-admission.ts:172-221 | Under any combination of crashes and failed calls, with any commits of others between the steps: an admission has its session row and a reserve committed in this call, a refusal means no credit was to be had, only a failed delete or a crash leaves a row behind, and the ledger moved by exactly the reserve and the others. Without faults the answer is admitted, limit reached or an error exactly as the ledger answered. |
| BillingAdmission.CandidateSessions.ResumeEntitledCandidateSession | apps/candidate/src/server/billing-admission.ts:134-163 | The session row is only ever written after a reserve committed in this call, and an admission has written it; a refusal or a failure leaves every session as it was. |
| CreditSettlement.Settlement.SettleCandidateSessionCredit | apps/candidate/src/server/credit-settlement.ts:53-158 | Ends in exactly one capture or release and one trace, or in nothing when billing is off, the session is unknown or a store is unreachable; a lost trace undoes nothing. |
| CreditSettlement.SettlingAgainChangesNothing | apps/candidate/src/server/credit-settlement.ts:49-52 | Settling a session again, at any later clock, with any evidence and after anything but a new admission of it, leaves the ledger identical. |
| CreditSettlement.TraceMeans | apps/candidate/src/server/credit-settlement.ts:76-150 | A trace is written exactly for a completed interview of an organization with a wallet; it says captured exactly if billable and released otherwise, with the answers found and the least number the plan asks for, and the ledger is captured or released likewise. |
| CreditSettlement.CapturedTraceIsChargeIff | apps/candidate/src/server/credit-settlement.ts:124-136 | A captured trace means a charge exactly when the session had a captured hold or a live hold of its own organization. |
| CreditSettlement.CapturedTraceWithoutCharge | apps/candidate/src/server/credit-settlement.ts:124-136 | A run from the empty database, its hold swept at the TTL, after which a fully answered interview is traced as captured and nobody is charged. |
| CreditSettlement.AdmittedSessionIsSettledOnce | apps/candidate/src/server/credit-settlement.ts:119-150 | A session admitted at t that no step releases, sweeps at or past its TTL or renews at an earlier clock is charged exactly once by its settlement if billable; otherwise settling adds no charge and gives back a hold that was still live. |
| DemoStarts.DailyCapHolds | apps/candidate/src/server/marketing-demo-admission.ts:272-302 | After any run the counter of a day is its starts minus its effective releases, never negative and never above the cap, and starts and releases of a preview alternate. |
| DemoStarts.AdmittedIff | apps/candidate/src/server/marketing-demo-admission.ts:222-279 | A start is admitted exactly when the demo is enabled, the preview is waiting, its role is open and both caps have room, and each refusal is given exactly when it is the first reason. |
| DemoStarts.StartedMeans | apps/candidate/src/server/marketing-demo-admission.ts:281-304 | An admitted start runs for twelve minutes, counts against its own day alone, and touches no other preview. |
| DemoStarts.ReleaseUndoesStart | apps/candidate/src/server/marketing-demo-admission.ts:314-345 | Releasing a start before it is confirmed leaves the previews and every day's count as they were before it. |
| DemoStarts.ConfirmedMeans | apps/candidate/src/server/marketing-demo-admission.ts:347-367 | A matching start is bound to a free realtime session and is then beyond release; anything else writes nothing. |
| DemoStarts.CompletedIsNotRunning | apps/candidate/src/server/marketing-demo-handoffs.ts:96-107 | A completed demo stops counting as running at once, and no other count changes. |
| DemoStarts.DayOf | apps/candidate/src/server/marketing-demo-admission.ts:369-373 | A day starts at midnight and lasts 24 hours. |
| DemoStarts.ConcurrencyCapHolds | apps/candidate/src/server/marketing-demo-admission.ts:201-270 | Over any run the running demos never exceed the cap at any instant from the latest start clock on, in whatever order the starts committed. |
| DemoStarts.ConfirmedStaysStarted | apps/candidate/src/server/marketing-demo-admission.ts:324-343 | Once its realtime session is confirmed, no later step makes a preview releasable again. |
| DemoStarts.TokenDay | apps/candidate/src/server/marketing-demo-admission.ts:338-343 | A token that still matches its preview was issued on the day the preview was started, and that day has a start to give back. |
| DemoStarts.RunKeepsInv | apps/candidate/src/server/marketing-demo-admission.ts:201-367 | Any sequence of starts, releases, confirmations, completions, edits, revocations and deletions keeps previews, counters and history in step. |
| DemoStarts.StepKeepsRunning | apps/candidate/src/server/marketing-demo-admission.ts:258-270 | No step but an admitted start adds a running demo, at any instant. |
| DemoStarts.StartKeepsRunning | apps/candidate/src/server/marketing-demo-admission.ts:258-270 | An admitted start leaves the running demos within the cap at its own clock, a refused one changes nothing. |
| DemoStarts.DemoAllocator.ReserveMarketingDemoStart | apps/candidate/src/server/marketing-demo-admission.ts:201-312 | Commits the start of the model or refuses with the first reason that applies and writes nothing. |
| DemoStarts.DemoAllocator.ReleaseMarketingDemoStart | apps/candidate/src/server/marketing-demo-admission.ts:314-345 | Gives one matching unconfirmed start back and lowers its day by one. |
| DemoStarts.DemoAllocator.ConfirmMarketingDemoProvisioning | apps/candidate/src/server/marketing-demo-admission.ts:347-367 | Binds the session to a matching start, or errors and writes nothing. |
| JoinQueue.NoJobIsLost | services/interviewer-agent/app/auto_worker.py:140-193 | After any run with crashes between any two commands, every single entry is unacknowledged, was acknowledged as finished, or has a copy or dead letter of its own, and its chain of copies ends in an unacknowledged entry, a finished one or a dead letter of the same session. |
| JoinQueue.ChainEnds | services/interviewer-agent/app/auto_worker.py:178-193 | Following the copies of an entry one arrives at an unacknowledged entry, a finished one or a dead letter, with the session unchanged. |
| JoinQueue.DeadLettersUsedUp | services/interviewer-agent/app/auto_worker.py:178-190 | In every reachable state a dead letter of a session copies an entry of the same session and candidate whose failure used up the last attempt; its attempts are one more than that entry's distance from an enqueue. |
| JoinQueue.FailedJobIsQueuedAgain | services/interviewer-agent/app/auto_worker.py:178-193 | While attempts are left a failed job is queued again, unread, one attempt later, for the same session and candidate, and no dead letter is written; otherwise exactly one dead letter is. Its own entry is acknowledged. |
| JoinQueue.OutcomesMean | services/interviewer-agent/app/auto_worker.py:298-316 | Done and terminal jobs are acknowledged as finished without a copy, failures and failed acknowledgements are retried, deferred and lost jobs change nothing. |
| JoinQueue.NextPrefersIdle | services/interviewer-agent/app/auto_worker.py:120-172 | A worker is handed the idle entry if it names a session, else the oldest unread one if that does, else nothing. |
| JoinQueue.RetriesAreBounded | services/interviewer-agent/app/auto_worker.py:178-193 | The attempts of an entry are its distance from an enqueue, and no copy is queued at or above the limit. |
| JoinQueue.ApplyKeepsInv | services/interviewer-agent/app/auto_worker.py:120-322 | Every command, claim, failure, acknowledgement and crash keeps every entry covered and every task in step with its entry. |
| JoinQueue.CopyCovers | services/interviewer-agent/app/auto_worker.py:187-193 | Writing the copy, to the stream or as a dead letter, covers the entry it copies, so the original may be acknowledged. |
| JoinQueue.AckKeepsCover | services/interviewer-agent/app/auto_worker.py:174-176 | An acknowledgement uncovers no other entry, and a safe one not even its own. |
| JoinQueue.RetryIsTwoSteps | services/interviewer-agent/app/auto_worker.py:178-193 | An uninterrupted retry is the copy step followed by the acknowledge step, between which a crash is allowed. |
| JoinQueue.RedisAgentJoinQueue.NextJob | services/interviewer-agent/app/auto_worker.py:120-172 | Hands out a stale entry before an unread one, leased to this worker, loses no live entry that names a session, and keeps every entry covered. |
| JoinQueue.HandOutIsSteps | services/interviewer-agent/app/auto_worker.py:155-172 | Handing an entry out is taking it up as a task and acknowledging it at once if it names no session. |
| JoinQueue.NextIsSteps | services/interviewer-agent/app/auto_worker.py:120-172 | One call of next_job is exactly the claim, read and acknowledge steps of the system, and what it hands out is a task of this worker. |
| JoinQueue.JobIsSteps | services/interviewer-agent/app/auto_worker.py:283-322 | The end of a job, whatever its outcome, is exactly the succeed, fail, acknowledge and defer steps of the system. |
| JoinQueue.NextKeepsSound | services/interviewer-agent/app/auto_worker.py:120-172 | A call of next_job leaves every entry on the stream covered. |
| JoinQueue.JobKeepsSound | services/interviewer-agent/app/auto_worker.py:283-322 | The end of a claimed job, whatever its outcome, leaves every entry on the stream covered. |
| JoinQueue.RedisAgentJoinQueue.Retry | services/interviewer-agent/app/auto_worker.py:178-193 | Copies to the stream below the limit and to the dead-letter list at it, and acknowledges after the copy. |
| JoinQueue.RefusedLeaseWasTaken | services/interviewer-agent/app/auto_worker.py:24-50 | In any run a renewal is refused only after the entry was reclaimed for another worker or acknowledged. |
| JoinQueue.AcknowledgedForGood | services/interviewer-agent/app/auto_worker.py:174-176 | No run makes an acknowledged entry pending again, so it is never reclaimed nor renewed. |
| JoinQueue.AutoWorker.RunJob | services/interviewer-agent/app/auto_worker.py:283-322 | Completed and terminal jobs are acknowledged and noted as finished, failures and failed acknowledgements are retried, deferred and lost ones stay pending; every entry stays covered and both counters follow. |
| EventArchive.HistoryKeeps | packages/billing/src/stripe-webhook.ts:113-198 | Over any deliveries and failures in sequence a parked row stays parked, the first error is never rewritten, a last error has a first one, and each delivery is counted once. |
| EventArchive.InterleavingsKeep | packages/billing/src/stripe-webhook.ts:113-198 | Over any interleaving of deliveries a last error has a first one, first errors and processing stamps never disappear, each delivery is counted exactly once, and no row is processed or ignored without a stamp or failed without an error. |
| EventArchive.DealtWithIsStamped | packages/billing/src/stripe-webhook.ts:134-196 | From the empty archive, in any interleaving, processed and ignored rows carry a stamp, failed ones an error, and received ones nothing. |
| EventArchive.SettledMeans | packages/billing/src/stripe-webhook.ts:134-196 | A failure leaves failed, or needs_admin exactly if the delivery saw that, with the error; a decision that was not refused leaves its own status, a stamp and no error; a refused one changes only the status. |
| EventArchive.AnswerMeans | packages/billing/src/stripe-webhook.ts:113-198 | A status is answered exactly when the handler decided and the row was written, and it is the one written; a throw is answered with its own error. |
| EventArchive.ParkedThroughoutIff | packages/billing/src/stripe-webhook.ts:162-196 | In any interleaving a parked row stays parked if and only if no delivery that saw it unparked settles it otherwise. |
| EventArchive.SeenParkedStaysParked | packages/billing/src/stripe-webhook.ts:162-196 | A row parked while every open delivery of it saw it parked, or none is open, stays parked for good. |
| EventArchive.FirstErrorThroughoutIff | packages/billing/src/stripe-webhook.ts:134-147 | In any interleaving a first error stays as it was if and only if no delivery that saw none fails with another message. |
| EventArchive.SeenFirstErrorIsFinal | packages/billing/src/stripe-webhook.ts:134-147 | A first error that every open delivery has seen, or recorded while none is open, is final. |
| EventArchive.StepClearsIff | packages/billing/src/stripe-webhook.ts:186-196 | A last error goes away exactly when a delivery settles with a decision it did not see refused. |
| EventArchive.ParkedRowIsClosed | packages/billing/src/stripe-webhook.ts:113-196 | Two overlapping deliveries from the empty archive: one parks the row, the other closes it as processed. |
| EventArchive.FirstErrorIsReplaced | packages/billing/src/stripe-webhook.ts:113-147 | Two overlapping failures from the empty archive: the second replaces the first error. |
| EventArchive.DeliveryAlone | packages/billing/src/stripe-webhook.ts:97-199 | With no other write in between, the two writes of a delivery are the one delivery of the sequential results. |
| EventArchive.ParkedSignalsSurvive | packages/billing/src/stripe-webhook.ts:186-196 | Refused transitions in sequence, however many, leave a processing stamp alone and never clear a live last error. |
| EventArchive.DeliveryKeeps | packages/billing/src/stripe-webhook.ts:113-198 | A last error is cleared only by a decision that stuck, and that decision stamps the row. |
| EventArchive.WebhookArchive.HandleStripeWebhookEvent | packages/billing/src/stripe-webhook.ts:97-199 | Archives, acts and settles with what the upsert returned, whatever others write in between, and answers its own status or the handler's own error, also when the failure cannot be archived. |
| EventArchive.WebhookArchive.ReprocessRow | packages/billing/src/stripe-webhook.ts:352-379 | One selected row is delivered once, or not at all when malformed, and counted under the one outcome it met. |
| EventArchive.WebhookArchive.ReprocessIgnoredStripeEvents | packages/billing/src/stripe-webhook.ts:328-383 | Among any live deliveries the table moves by exactly the writes of the pass and of the others, and every selected row is counted exactly once, under the outcome it met. |
| EventArchive.UndisturbedPass | packages/billing/src/stripe-webhook.ts:328-383 | With nobody else writing, every intact selected row is delivered exactly once, no other row changes, and a row qualifies for another pass exactly when it was malformed, could not be settled or was ignored again. |
| EventArchive.FateIsFinalStatus | packages/billing/src/stripe-webhook.ts:352-379 | In such a pass a row is counted under the status it ends with, and as failed exactly if it was malformed, could not be settled or its handler threw. |

## Left out

- Prisma, SQL and connection retries (P2028, serialization conflicts, backoff): a transaction is one atomic step. Since a
  wallet insert cannot race inside an atomic step, the re-read after its unique violation
  (packages/billing/src/credit-ledger.ts:441-447) never happens; a purchase whose payment is taken is refused inside the
  step instead of by the insert and the re-read after it.
- 32-bit integer columns: counters are unbounded integers.
- Columns no modelled decision reads: pack id, billing country, invoice and checkout-session ids (their unique constraints
  too), actor and reason of ledger entries, Stripe event ids on them.
- Unknown lot kinds and statuses in stored rows, which the program rejects when it reads them, and manual or enterprise
  grants, which no modelled operation writes.
- Case mapping of currency codes outside ASCII.
- Floating point in the unit price: prices are exact rationals, and rounding is floor(x + 1/2).
- The order in which a sweep reads its rows: the loops use table order. What a sweep does to each lot, hold and wallet is
  stated without an order in `SweepConfluence.TtlSweepRows` and `SweepConfluence.ExpirySweepRows`.
- SelectionOptimality.SoonestExpiryIsOptimal: compares choices over lots of one kind, because free lots go before paid ones
  whatever their expiry; releases and captures between the requests are not part of the comparison.
- DisputeTransparency.WonDisputeIsTransparent: leaves out runs in which, without the dispute, a fresh hold would have been
  taken on the disputed lot, since a frozen lot rightly serves no one and that session is served elsewhere or refused.
- Stripe's side of refunds and disputes (fulfilment, refund and dispute guard chains, signature checks, the routing table):
  the ledger gets a payment and amounts, the archive gets what the handler decided or threw.
- The legacy monthly-limit admission path and recording entitlement; the columns a caller writes to a session are one
  value.
- Threshold ratios other than the default one half in the billing decision.
- Creation of demo previews (launch nonces, role lists, snapshots), handoff codes and their deletion; a preview is created
  unstarted, and a completion is the one update the handoff makes to it.
- DemoStarts.ConcurrencyCapHolds: the caps are fixed for the run; an operator who lowers a cap while demos run is not covered.
- Redis beyond the pending-list meaning of its commands: idle times (any pending entry may be reclaimed), heartbeats, stream
  trimming, the enqueue lock of the dispatcher, the reason text and source id of a dead letter.
- asyncio scheduling and the bound on concurrent jobs; how the session events decide between completed, terminal and
  deferred is an input of a job. session_runner.py is not part of this model.
- JoinQueue.NoJobIsLost: says that something stands for every session, not that a worker eventually picks it up.
- Reading of question counts from stored interview plans: the planned count is a field of the session.
