# Verified model of the router's money paths

The router takes payments for calls to merchants, keeps prepaid credit, signs
refunds from its own account and settles payment channels on Stellar. This
project models the parts of it that move money and proves what they promise for
every input and every interleaving, with participants that die at any step; where
the code promises more than it keeps, it proves exactly when it does keep it, and
gives the run in which it does not. `dafny verify dfyconfig.toml` checks all of it.

Six groups of modules stand on one foundation.

* **Store.** `AtomicStore` is the single-threaded object with one value and one
  version per key. `CasClients` runs any number of read, compute, commit loops
  against it as interleaved steps and proves that they amount to updates made one
  at a time, as long as no deleted key is seeded, and that just this step breaks
  it. Everything below relies on that result: a function handed to the store's
  `update` is one atomic rewrite of the current value (`StoreChange`). `RateLimit`
  is the counter that uses the loop directly.
* **Refunds.** `RefundRecord` holds the five rewrites of a refund record,
  `RefundChain` the network, `RefundCoordinator` the reservation table,
  `RefundSequence` the sequence numbers of one run, and `RefundProtocol` puts
  them together: runs of the signer that list the open refunds, work on one at a time
  under one sequence guard, and check, reserve, lease, sign, present, broadcast, park,
  confirm, requeue and stop at any point, against a chain that includes any broadcast
  envelope its bounds allow, to succeed or to fail. `RefundSafety` and `RefundSteps`
  carry the invariant, `RefundTheorems` and `RefundTotals` the results on payouts,
  `RefundRecovery` those on refunds left to themselves. `RefundLateWrites` and
  `RefundGuards` say when a late write can be unsafe, on what `RefundSigned` knows of
  all envelopes, and `RefundHazards` shows that both unsafe steps are reached, by the
  steps of `RefundRuns`.
* **Prepaid ledger.** `Ledger` is the ledger as a value, `LedgerObject` the object
  whose handlers and alarm update it in place, each proved to be the change of the
  value that has its name. A reserve is two steps, the hold and the arming of the
  reaper, and may die between them; a firing of the reaper may be cut short anywhere.
  `LedgerConservation`, `LedgerRetries`, `LedgerAlarm` and `LedgerIntents` prove what
  holds over every run of requests, `DepositClaims` what the deposit scan adds to it.
* **Channels.** `Channel` holds the lock, voucher, watermark and write-off rewrites,
  `ChannelProtocol` the calls and settlements that use them, from the capacity gate
  over acceptance, payment and storing to rollback, fence and close. `ChannelSafety`
  carries the invariant of closes and `ChannelTheorems` its results,
  `ChannelCapacity` the invariant of the watermark and `ChannelLimits` its results,
  `ChannelPayouts` and `ChannelPayoutSteps` the invariant of what is paid upstream and
  `ChannelPayoutLimits` its results, `ChannelRuns` the runs that meet the bounds.
  `ChannelRollback` is the rollback of a charge with its second write.
* **Bounded settlement.** `Settlement` and `SettlementTheorems`: background
  attempts, signing, sending, polling, the retry, the deadline and the chain.
* **Text.** `Decimal`, `Money`, `Credits`, `DepositScan`, `IdempotencyKey` and
  `ConsumedKey`: amounts and keys as strings.

What is assumed: the stores and the storage transactions of Durable Objects are
atomic; identifiers the code draws at random are never drawn twice; SHA-256 and
transaction hashes are injective; the Stellar network closes ledgers at increasing
times, includes an envelope at most once, only within its time bounds and with an
unused sequence number, and the Soroban host consumes an authorisation's nonce with
the transaction that succeeds on it. An envelope handed to a node may be on the network
whatever the node answers, and an account read is never ahead of the chain. The payment
library advances a channel's watermark in one update, by exactly the price, which is
positive (src/playground/channel-config.ts:24-28).
A process that crashes takes no further step; a firing of the alarm that is cut short
is delivered again; no other request gets between a ledger transaction and the arming
that follows it. Clock readings in the store, refund and channel models are arbitrary
numbers, taken no later than they are used; only `LedgerAlarm` and the pace of a
channel relate them to one clock. The two readings an envelope's bounds are made of are
past the first minute of the epoch, the second no earlier than the first.

## Where the code does not do what its comments say

* `unparkRefund` says that dropping the parked envelope is safe because it was never
  included (src/refund/refund.ts:250-254). It is safe exactly when that envelope can
  no longer be included (`RefundTheorems.StepIsSafeExactlyWithoutHazard`); a refund
  that was executed, broadcast, refused by the node and parked is one whose envelope
  still can (`RefundHazards.UnparkHazardIsReachable`).
* `completeRefund` hands back a confirmed record before it compares the lease
  (src/refund/refund.ts:191-192). An executor whose `/complete` write comes in late
  takes that for acceptance and broadcasts its own envelope. The same theorem shows
  this to be the only other unsafe step. It takes an envelope signed two or more ahead
  of the chain's sequence number (`RefundLateWrites.ComesLateExactlyWhenAhead`). A run
  signs so far ahead only while an envelope it handed over for another refund was taken
  and has not landed (`RefundGuards.LateWriteNeedsGuardAhead`, `AheadMeansAnotherIsOut`),
  so that one refund alone never comes to it (`OneRefundNeverComesLate`), and any two do
  (`RefundHazards.LateWriteIsReached`).
* The recovery of submitted refunds (src/refund-signer-core.ts:426-459) has nothing for an
  envelope that landed and failed: its hash is found, so it is never requeued, and it
  moved nothing, so it is never confirmed. Such a refund is stuck until an operator steps
  in, and it is the only kind that is (`RefundRecovery.SubmittedSettlesExactlyUnlessFailed`).
* The reaper is there for calls whose request died after taking the hold
  (src/playground/ledger-do.ts:188-194). A request that dies after the hold's
  transaction and before the alarm is armed (696-703), while no alarm is set, leaves a
  hold that its own retries never end: they are told `duplicate` and arm nothing
  (`LedgerAlarm.HoldsEndExactlyUnlessLost`, `LostHoldLasts`, `LostArmingIsReached`).
* The ledger's limit on unclaimed intents is meant to bound the intents stored per
  account (src/playground/ledger-do.ts:375-378). Claiming an expired intent late
  gives its slot back once more each time, so the counter falls behind
  (`LedgerIntents.OpenKeepsCountExactUnlessExpired`, `CeilingIsReached`).
* The first comment on the reaper says that stale calls are committed
  (src/playground/ledger-do.ts:196-203) and the one on the dispatch mark that it lets
  the reaper commit (714-716). The code always releases.
* `verifyDeposit` promises the first *unclaimed* matching operation, so that the second
  can be claimed by a second intent (src/playground/deposit.ts:113-116). The scan knows
  nothing of claims, and the transaction's one memo names one intent: of all payments in
  a transaction at most one is ever credited (`DepositClaims.TransactionCreditsOnce`,
  `SpentTransactionMovesNothing`).
* `/seed` starts a deleted key's versions again at 1 (src/mpp/atomic-store-do.ts:285-298),
  so that a version read before the deletion may be met again with another value
  (`CasClients.VersionsAgreeExactly`, `StaleReaderIsReached`).
* The capacity gate says it bounds what the router may lose on a channel by exactly its
  deposit (src/routes/playground-channel.ts:499-505), another comment says by the deposit
  and one call (709-710). The second holds exactly when no call is both accepted and
  revalidated after its lock's lifetime, and the first exactly when, besides, a paid call
  revalidates within that lifetime and, if its voucher is not stored, sets the fence within
  it (`ChannelPayoutLimits.PaysWithinOneCallExactly`, `PaysWithinDepositExactly`).
  Nothing makes a call keep these times but its own revalidations, and the first one comes
  only after acceptance; when both come late there is no bound at all
  (`PaymentsAreForgotten`). The watermark's own accounting rests on more: an unpaid call is
  to be reversed in time, and the rollback does not look at the lock
  (`ChannelLimits.CountsExactlyWithinLockTime`).
* `put` retries after a conflict by reading again; its comment says the conflict
  response is used (src/mpp/kv-atomic-store.ts:225-227).

## Model

| member | source | states |
|---|---|---|
| AtomicStore.SeedAfterDeleteAcceptsStaleCommit | src/mpp/atomic-store-do.ts:285-298 | the run in which a seed after a delete makes a stale commit succeed |
| AtomicStore.AtomicStoreDO.HandleRead | src/mpp/atomic-store-do.ts:127-146 | answers with the key's value and version, 0 for a key never written |
| AtomicStore.AtomicStoreDO.HandleCommit | src/mpp/atomic-store-do.ts:152-207 | writes and bumps the version exactly on a version match, otherwise hands back the fresh cell; no other key changes |
| AtomicStore.AtomicStoreDO.HandleSeed | src/mpp/atomic-store-do.ts:277-304 | writes version 1 exactly when the value is absent |
| AtomicStore.AtomicStoreDO.HandleGate | src/mpp/atomic-store-do.ts:228-256 | the global counter always moves by one, the per-address one only while the global one is within its limit, and nothing else moves |
| CasClients.RunRefinesSequentialUpdates | src/mpp/kv-atomic-store.ts:265-310 | after every interleaving that seeds no deleted key the value is the fold of the committed functions in commit order, and the version their number |
| CasClients.FinishedCallTookEffectOnce | src/mpp/kv-atomic-store.ts:272-292 | a finished call took effect at one instant between its call and its return, on the value of that instant, and wrote then and only then, if its function asked for it |
| CasClients.ExhaustedCallWasOvertaken | src/mpp/kv-atomic-store.ts:303-309 | a call that gives up wrote nothing and was overtaken by at least as many commits of others as it had attempts |
| CasClients.VersionNamesOneValue | src/mpp/atomic-store-do.ts:166-195 | whoever holds the same version holds the same value |
| CasClients.StepRefinesExactlyWithoutReseed | src/mpp/atomic-store-do.ts:277-304 | after any run, the next step keeps the value the fold and the version the count of commits if and only if it is no seed of a deleted key |
| CasClients.VersionsAgreeExactly | src/mpp/atomic-store-do.ts:285-298 | from a step on, whoever holds the same version goes on holding the same value if and only if the step is not such a seed while a client holds one of the old versions |
| CasClients.StaleReaderIsReached | src/mpp/kv-atomic-store.ts:265-310 | the run that comes to such a moment |
| CasClients.Update | src/mpp/kv-atomic-store.ts:265-310 | the loop on the live object under arbitrary writes of others: success is one application to the value of that moment, failure leaves no trace and five foreign commits |
| RateLimit.AdmittedPerStretch | src/mpp/rate-limit-do.ts:98-128 | in every interleaving the calls admitted for a window are at most the limit for each stretch of commits of that window |
| RateLimit.LimitHoldsWhenWindowsInOrder | src/mpp/rate-limit-do.ts:156-185 | when windows are committed in order, at most `limit` calls are admitted for any of them |
| RateLimit.BoundIsReached | src/mpp/rate-limit-do.ts:107-127 | the bound per stretch is reached for every limit and number of stretches, so a window that comes back is admitted past its limit |
| RateLimit.RefusedCallConsumesNothing | src/mpp/rate-limit-do.ts:98-128 | a refused call commits nothing |
| RefundRecord.RewritesKeepIdentity | src/refund/refund.ts:94-311 | no sequence of calls moves a confirmed record, deletes one, or changes whose money it returns or how much |
| RefundChain.DeadMeansNoNextInclusion | src/refund/stellar-proof.ts:57-71 | an envelope that has not paid is dead, by failing or by running out, exactly when no ledger can let it pay next |
| RefundChain.DeadStaysDead | src/refund/stellar-proof.ts:57-71 | no later ledger revives a dead envelope or takes back a payment |
| RefundChain.ProvablyDeadIsDead | src/refund/stellar-proof.ts:72-85 | the check is sound for every truthful answer, however far behind or pruned the node is: the envelope has not landed, and never will |
| RefundChain.EachDeathConditionIsNeeded | src/refund/stellar-proof.ts:81-84 | without either comparison there is a chain giving the same answer on which the envelope is, or can still be, paid |
| RefundCoordinator.ReserveKeepsTable | src/refund-signer-core.ts:161-165 | whatever is asked in whatever order, the reservations of a payment never exceed it, and an accepted request is on the table under its own terms |
| RefundCoordinator.ReservesExactlyWhatFits | src/refund-signer-core.ts:161-165 | a refund not yet on the table is reserved exactly when a positive amount within what is left of the payment |
| RefundCoordinator.RefundSignerCoordinator.Reserve | src/refund-signer.ts:43-63 | the scans over the table decide and insert as the table function says |
| RefundCoordinator.RefundSignerCoordinator.MarkConfirmed | src/refund-signer.ts:65-67 | confirming marks that refund's row and leaves every payment's total as it was |
| RefundSequence.RefundSequenceGuard.Advance | src/refund-signer-core.ts:107-114 | hands out the sequence read or the last one the network took, and one older than neither |
| RefundSequence.RefundSequenceGuard.RecordAccepted | src/refund-signer-core.ts:116-120 | the recorded sequence only moves forward, to one that was taken, and covers the one just taken |
| RefundSequence.RunTurns | src/refund-signer-core.ts:554-594 | however stale the account reads: every envelope signed follows all sequences taken in the run, and directly follows one read or taken, so a rejection leaves no gap |
| RefundSteps.StepKeepsInv | src/refund-signer-core.ts:400-534 | every action of executors, router, operator and network keeps the invariant that an envelope ever accepted is the stored one or dead, but for the two named hazards |
| RefundTheorems.RefundPaidAtMostOnce | src/refund-signer-core.ts:491-534 | over every run with crashes, lost leases, takeovers, requeues and races, at most one envelope of a refund pays |
| RefundTheorems.RecordsTellTheTruth | src/refund/refund.ts:158-228 | a record's shape in each state, and that confirmed means its envelope has succeeded on chain, paying the payer the recorded, covered amount |
| RefundTheorems.StepIsSafeExactlyWithoutHazard | src/refund/refund.ts:256-290 | the guarantee survives a step if and only if it is neither an unpark of an envelope that is not dead nor a late `/complete` of a live envelope on a refund confirmed by another |
| RefundTheorems.UnparkOfLiveEnvelopeIsUnsafe | src/refund/refund.ts:250-288 | from every such unpark a run leads to two payouts |
| RefundTheorems.LateSubmitOfLiveEnvelopeIsUnsafe | src/refund/refund.ts:188-192 | from every such late write a run leads to two payouts |
| RefundHazards.UnparkHazardIsReachable | src/refund-signer-core.ts:491-534 | from every state in which a refund can be executed a run free of hazards comes to the unsafe unpark: taken once, then sent again, refused and parked |
| RefundHazards.UnparkIsReached | src/refund/refund.ts:250-288 | for every payment the router may refund, a run from fresh records comes to it |
| RefundHazards.LateWriteIsReached | src/refund/refund.ts:188-192 | for every two payments the router may refund, a run from fresh records comes to the unsafe late write, each envelope with live bounds and the sequence its run's guard gives it |
| RefundLateWrites.ComesLateExactlyWhenAhead | src/refund/refund.ts:186-228 | an envelope just signed can come to an unsafe late write if and only if the record still carries the lease, its sequence is two or more ahead of the chain's, and two more ledgers may close within its bounds |
| RefundGuards.LateWriteNeedsGuardAhead | src/refund-signer-core.ts:107-120 | where no run signs while its own guard is ahead of the chain, no late write is unsafe |
| RefundGuards.AheadMeansAnotherIsOut | src/refund-signer-core.ts:554-594 | a run's guard is ahead only by an envelope of another refund that it handed over, that was taken, and that has not landed |
| RefundGuards.OneRefundNeverComesLate | src/refund-signer-core.ts:536-594 | with one refund in the store no late write is ever unsafe |
| RefundSigned.RunKeepsSigned | src/refund-signer-core.ts:366-398 | on every run, hazards or not, whatever an executor, a record or a node holds was signed for that refund, within bounds |
| RefundTotals.PaidBackWithinPayment | src/refund-signer-core.ts:536-594 | over every run the money paid back on chain against one payment, summed over all its refunds, is at most what was paid |
| RefundRecovery.ExpiredRefundCanBeRequeued | src/refund-signer-core.ts:426-459 | a submitted refund whose envelope never landed can be taken back to pending once a ledger closed past its upper bound and the node's history covers its lower one |
| RefundRecovery.SubmittedSettlesExactlyUnlessFailed | src/refund-signer-core.ts:426-459 | a submitted refund can without an operator still be confirmed or taken back to pending, if and only if its envelope has not landed and failed |
| RefundRecovery.FailedStaysStuck | src/routes/refunds.ts:255-288 | one whose envelope did stays submitted, or parked, in every run without the operator's unpark |
| LedgerConservation.RunKeepsInv | src/playground/ledger-do.ts:430-805 | after every run: credited is committed plus balances plus holds, each counter equals its rows, charges lie within holds, payments and consumed intents match one to one, no balance is negative |
| LedgerConservation.EmptyLedgerIsInOrder | src/playground/ledger-do.ts:41-60 | the empty ledger satisfies all of this |
| LedgerConservation.PaymentCreditedOnce | src/playground/ledger-do.ts:493-497 | no payment is credited to two intents |
| LedgerConservation.CreateKeepsInvExactlyOffConsumed | src/playground/ledger-do.ts:388-409 | creating keeps the books if and only if it does not overwrite a consumed intent, which is why ids have to be fresh |
| LedgerConservation.ReapStep | src/playground/ledger-do.ts:229-264 | taking one more listed call into account is one turn of the loop, also for accounts with several stale calls |
| LedgerConservation.ReapingKeepsInv | src/playground/ledger-do.ts:216-268 | after any part of the listing the books are in order, and nothing was charged |
| LedgerConservation.CapsHold | src/playground/ledger-do.ts:512-557 | whatever caps the requests pass, outstanding credit and every account's daily tally stay within the largest, although intents reserve no headroom |
| LedgerConservation.DepositTallyIsExact | src/playground/ledger-do.ts:516-575 | the daily tally is what the run credited for payments confirmed that day |
| LedgerConservation.DailyCreditWithinCap | src/playground/ledger-do.ts:512-531 | over any run from an empty ledger an account's credit for one confirmation day is within the cap, however claims are spread |
| LedgerRetries.RetryIsStutter | src/playground/ledger-do.ts:468-489 | a repeat of an accepted reserve, dispatch mark, settle or open, put anywhere later, changes no later reply, balance, call, tally or counter, but for a session an open may renew |
| LedgerRetries.RepeatedSettleReportsFirst | src/playground/ledger-do.ts:742-763 | a repeated settle of either kind answers with the record the first made |
| LedgerRetries.CreditedExactlyWhen | src/playground/ledger-do.ts:452-587 | a payment is credited if and only if unclaimed, confirmed within the window however late it is claimed, and within the caps, also for an intent already marked expired |
| LedgerRetries.RunAdvances | src/playground/ledger-do.ts:719-763 | over every run a settled call's record, a dispatch mark and a consumed intent are never taken back |
| LedgerAlarm.HoldsEnd | src/playground/ledger-do.ts:698-703 | in runs that lose no arming, with alarms at most a given time late, no call is held for as long as lease, interval and that lateness; while one is held the alarm is armed at most an interval ahead |
| LedgerAlarm.StepArmsExactlyUnlessLost | src/playground/ledger-do.ts:696-703 | a request or firing, also one cut short, leaves every hold covered by the alarm if and only if it is not a reserve that dies between its hold and the arming while no alarm is set |
| LedgerAlarm.HoldsEndExactlyUnlessLost | src/playground/ledger-do.ts:696-703 | the guarantee on holds survives an event if and only if the event is not that |
| LedgerAlarm.LostHoldLasts | src/playground/ledger-do.ts:656-703 | after a lost arming the hold outlasts any time, however often the call is retried |
| LedgerAlarm.LostArmingIsReached | src/playground/ledger-do.ts:631-705 | from an empty ledger an account that buys credit and reserves it comes to such a loss |
| LedgerAlarm.EmptyLedgerIsArmed | src/playground/ledger-do.ts:266-268 | the alarm invariant holds at the start |
| LedgerIntents.SlotsNeverExceedOpen | src/playground/ledger-do.ts:379-407 | over every run the slot counter is at most the number of open intents |
| LedgerIntents.OpenKeepsCountExactUnlessExpired | src/playground/ledger-do.ts:590-594 | an exact counter stays exact through an open if and only if that is not an unclaimed payment for an intent already expired with slots left to give back |
| LedgerIntents.CeilingIsPassed | src/playground/ledger-do.ts:375-386 | from every exact counter at the ceiling, one such claim lets one more intent be created |
| LedgerIntents.CeilingIsReached | src/playground/ledger-do.ts:375-407 | a run from the empty ledger that ends one intent beyond the ceiling |
| LedgerIntents.HourlyRateHolds | src/playground/ledger-do.ts:344-352 | over every run no account creates more intents in an hour than the caps passed allow |
| LedgerIntents.MemoNamesOneIntent | src/playground/ledger-do.ts:388-392 | two intents never share a memo |
| LedgerObject.PlaygroundLedger.CreateIntent | src/playground/ledger-do.ts:327-410 | the handler's effect and reply are those of the ledger function proved about above |
| LedgerObject.PlaygroundLedger.Open | src/playground/ledger-do.ts:440-587 | the same for opening |
| LedgerObject.PlaygroundLedger.Reserve | src/playground/ledger-do.ts:631-705 | the same for reserving: the hold, and then the arming, for a new call and only when no alarm is set |
| LedgerObject.PlaygroundLedger.MarkDispatched | src/playground/ledger-do.ts:719-731 | the same for the dispatch mark |
| LedgerObject.PlaygroundLedger.Settle | src/playground/ledger-do.ts:745-805 | the same for committing and releasing |
| LedgerObject.PlaygroundLedger.Alarm | src/playground/ledger-do.ts:224-269 | the loop over a snapshot, reading balances afresh, releases every stale call once and sets the alarm again exactly while a call is in flight |
| LedgerObject.SumListed | src/playground/ledger-do.ts:845-847 | the balances loop returns the sum over the map |
| LedgerObject.ScanCalls | src/playground/ledger-do.ts:849-859 | the calls loop returns the holds and counts the reaped releases and those that may have been paid |
| LedgerObject.PlaygroundLedger.ReadTotals | src/playground/ledger-do.ts:819-900 | the report's sums are those of a full scan, each consumed payment is listed once with its intent, and a ledger in order reconciles |
| LedgerObject.ListedCredit | src/playground/ledger-do.ts:861-885 | the amounts bound to the listed payments add up to all credit ever given |
| Channel.AggregateIsExact | src/playground/channel-voucher-store.ts:207-243 | however often and in whatever order write-offs are marked, count and total are the size and sum of the channel map, each channel once at the amount first marked |
| ChannelSafety.RunKeepsInv | src/playground/channel-settle.ts:156-262 | with stores and closed markers in time every interleaving keeps closes, lock, voucher and markers consistent |
| ChannelTheorems.SafeExactlyWithinLockTime | src/mpp/stellar-channel-dispatch.ts:213-223 | every run's closes carry the final voucher if and only if both the time from a call's revalidation to its write and the time from a settlement's revalidation to the closed marker stay below the lock's lifetime |
| ChannelTheorems.CloseIsFinal | src/playground/channel-settle.ts:147-155 | from the first close on the stored voucher is the one collected, the highest ever supplied, no other close is submitted, and every call that asks is turned away |
| ChannelTheorems.WindowIsExclusive | src/mpp/stellar-channel-dispatch.ts:232-280 | from a commit that sets an expiry, nobody else touches the lock before it, however old their clock readings |
| ChannelTheorems.SupersededLeavesLock | src/mpp/stellar-channel-dispatch.ts:261-266 | a participant that was overtaken never changes its successor's lock |
| ChannelTheorems.VoucherNeverRewinds | src/playground/channel-voucher-store.ts:54-101 | at any pace the stored cumulative is the highest supplied, under its own signature, neither it nor the settled watermark goes down, and the watermark is at most the cumulative |
| ChannelTheorems.LatePutIsUnsafe | src/playground/channel-voucher-store.ts:60-83 | a call as slow as the lock's lifetime is overtaken by a close without its voucher |
| ChannelTheorems.LateMarkIsUnsafe | src/playground/channel-settle.ts:195-207 | a settlement as slow as that closes without a voucher stored meanwhile |
| ChannelCapacity.RunKeepsCap | src/routes/playground-channel.ts:1109-1205 | at such a pace every interleaving of calls and settlements keeps the deposit's accounting: who may still be accepted or reversed, on what watermark, over which charges |
| ChannelLimits.CountsExactlyWithinLockTime | src/routes/playground-channel.ts:499-524 | on every run the stored voucher is at most the watermark, the watermark at most the deposit, and on a channel not blocked exactly the charges that stand, if and only if acceptance, revalidation before payment, and the reversal of an unpaid call each come within the lock's lifetime |
| ChannelLimits.LateAcceptExceedsDeposit | src/routes/playground-channel.ts:493-541 | a call accepted later than that takes the watermark beyond the deposit |
| ChannelLimits.LateRefreshMiscounts | src/routes/playground-channel.ts:1134-1142 | a call that finds itself overtaken later than that is rolled back under another's feet, whose own rollback then restores a charge nobody owes |
| ChannelLimits.LateReverseMiscounts | src/routes/playground-channel.ts:637-671 | the same for a call that is not paid for and rolled back later than that |
| ChannelPayoutSteps.RunKeepsPay | src/routes/playground-channel.ts:1109-1205 | where no call is both accepted and revalidated after its lock's lifetime every interleaving keeps what payouts rest on: who may still be paid for, on what watermark, and who waits behind what was given back |
| ChannelPayoutLimits.PaysWithinDepositExactly | src/routes/playground-channel.ts:499-505 | in every run at a pace the router pays out no more than the deposit leaves, if and only if no call is both accepted and revalidated after its lock's lifetime, and a paid call revalidates, and sets its fence, within it |
| ChannelPayoutLimits.PaysWithinOneCallExactly | src/routes/playground-channel.ts:697-746 | it pays out no more than that and one call's price, if and only if no call is both accepted and revalidated after its lock's lifetime |
| ChannelPayoutLimits.SecondIsPaidForToo | src/routes/playground-channel.ts:811-849 | with such a late revalidation or fence the deposit and one call more are paid out, for every deposit and every price up to it |
| ChannelPayoutLimits.PaymentsAreForgotten | src/routes/playground-channel.ts:1134-1142 | with such a late acceptance and revalidation any number of calls is paid for, at every price up to the deposit: the overtaken call's rollback erases the charge of the one that was paid |
| ChannelLimits.BlockedTakesNoCalls | src/routes/playground-channel.ts:469-479 | once a channel is blocked no call is ever accepted that had not passed the gate by then |
| ChannelLimits.PaidIsFreedOnlyBehindFence | src/routes/playground-channel.ts:712-746 | in every run, at any pace, what a paid call took is given back only on a channel already blocked, and the charge is never undone |
| ChannelRollback.RollbackIsIdempotent | src/mpp/stellar-channel-dispatch.ts:203-211 | repeating a completed rollback succeeds and changes nothing |
| ChannelRollback.CutShortRollbackIsNotRecovered | src/mpp/stellar-channel-dispatch.ts:198-211 | exactly when a retry after the first write alone reports success: the challenge gone as well, or nothing to put back |
| Settlement.RunKeepsInv | src/mpp/stellar-x402-server.ts:1101-1172 | every schedule of attempt, signing, sending, polling, retry, deadline and chain without an untraced signature keeps the tracing's invariant |
| SettlementTheorems.AnswerStaysTrue | src/mpp/stellar-x402-server.ts:1148-1172 | whatever happens after the answer: `failed` means nothing signed landed or will, `settled` names one that did, and every envelope that reached the RPC is listed |
| SettlementTheorems.StepIsTrueExactlyUnlessUntraced | src/mpp/stellar-x402-server.ts:206-223 | the answers stay true after a step if and only if it is not a signing call, before the deadline, that leaves out the network for an envelope not listed yet |
| SettlementTheorems.UntracedEnvelopeLands | src/mpp/stellar-x402-server.ts:215-219 | the run in which such a call makes `failed` the answer to a payment that lands |
| SettlementTheorems.ChargesOnceExactlyWithOneNonce | src/mpp/stellar-x402-server.ts:1079-1086 | whatever the schedule and however many attempts, the payer is charged at most once if and only if all that is signed carries one nonce |
| SettlementTheorems.SettledIsTheOnlyCharge | src/mpp/stellar-x402-server.ts:1053-1062 | with one nonce, the envelope an answer calls settled is the only charge there will be |
| SettlementTheorems.ReauthorisedRetryChargesTwice | src/mpp/stellar-x402-server.ts:1132-1141 | the run that charges twice when the retry carries a nonce of its own |
| SettlementTheorems.AtMostTwoAttempts | src/mpp/stellar-x402-server.ts:1132-1141 | there are at most two attempts |
| SettlementTheorems.AcceptedEndsAttempts | src/mpp/stellar-x402-server.ts:180-187 | none begins after the RPC answered that it accepted an envelope |
| SettlementTheorems.RejectionIsReported | src/mpp/stellar-x402-server.ts:1160-1168 | when the one envelope signed is found rejected on chain, the answer is `failed`, not `unknown` |
| SettlementTheorems.RunAttempts | src/mpp/stellar-x402-server.ts:1119-1142 | the loop makes a second attempt exactly when the first reported a retryable failure with nothing accepted and time left, never a third, and returns the last result |
| SettlementTheorems.RunFollowsLoop | src/mpp/stellar-x402-server.ts:1110-1143 | every finished run of the settlement has made as many attempts, and has the result, of that loop over what its attempts reported |
| Money.ParseInvertsFormatUsdc7 | src/playground/amount.ts:36-67 | every integer survives the fixed seven-decimal form |
| Money.ParseInvertsFormatUsd | src/playground/amount.ts:76-82 | and the form for people, though it drops zeros |
| Money.FormatInvertsParse | src/playground/amount.ts:54-67 | on text in Horizon's form formatting undoes parsing, so comparing strings or integers comes to the same |
| Money.ParseIgnoresPadding | src/playground/amount.ts:36-52 | white space around any text changes nothing in what either parser makes of it |
| Money.HorizonAgreesWithParseUsd | src/playground/deposit.ts:103-108 | the second parser is the first without a sign, on every string |
| Credits.FaceLabelFace | src/partner-ui/money-js.ts:61-76 | from face value to the credits shown and back is rounding down to a multiple of 10500, refused exactly from a thousand million credits on |
| Credits.AffordableIsExact | src/partner-ui/money-js.ts:50-66 | the credits promised for a balance can be bought with it, and not one more; a number of a thousand million or more is refused |
| Credits.ShownAmountReads | src/partner-ui/money-js.ts:32-48 | amounts shown are cut to the cent, and exactly which are read back |
| DepositScan.FindPayment | src/playground/deposit.ts:177-193 | finds the first operation that pays, and none exactly when there is none |
| DepositClaims.TransactionCreditsOnce | src/routes/playground.ts:440-487 | over every run of opens the route lets through, of all payments in a transaction at most one is ever credited: the first that pays what the intent named by its memo asks for |
| DepositClaims.SpentTransactionMovesNothing | src/playground/deposit.ts:113-116 | from then on every open let through for that transaction is for that intent and that payment, hands its session back, and moves no money |
| DepositScan.WrittenAmountMatches | src/playground/deposit.ts:96-108 | an amount Horizon wrote matches just the integer it was written for |
| IdempotencyKey.FieldReadsBack | src/mpp/idempotency.ts:59-62 | a length-prefixed field is read back whatever digits and colons it holds |
| IdempotencyKey.MaterialReadsBack | src/mpp/idempotency.ts:48-62 | a decoder inverts the encoding of every list of fields |
| IdempotencyKey.MaterialIsInjective | src/mpp/idempotency.ts:48-62 | equal material means equal lists of fields, of whatever lengths |
| IdempotencyKey.JoinIsNotInjective | src/mpp/idempotency.ts:52-57 | two requests a plain join confuses |
| IdempotencyKey.KeyIdentifiesRequest | src/mpp/idempotency.ts:77-97 | two requests share a key if and only if they agree in payer, route, method, path, query, request id and body, a missing body being an empty one |
| IdempotencyKey.X402KeyIdentifiesRequest | src/mpp/idempotency.ts:119-137 | the same for the key that has the payload's hash for the payer |
| ConsumedKey.KeyReadsBack | src/playground/ledger-do.ts:870-880 | the storage key of a consumed payment is cut back into that payment, whatever its hash contains |

## Left out

* RefundTheorems.RefundPaidAtMostOnce: speaks of runs that avoid the two hazards; beyond them it is false, as `StepIsSafeExactlyWithoutHazard` shows.
* RateLimit.LimitHoldsWhenWindowsInOrder: asks for windows in commit order, which a caller delayed across midnight breaks; `BoundIsReached` shows how far it then goes.
* LedgerConservation.RunKeepsInv: asks that intent ids be fresh, which the code leaves to its caller; `CreateKeepsInvExactlyOffConsumed` shows why.
* ChannelTheorems.CloseIsFinal: asks for a safe pace; `SafeExactlyWithinLockTime` shows that nothing less will do.
* ChannelCapacity.RunKeepsCap: asks for the pace that `CountsExactlyWithinLockTime` shows the accounting to need.
* ChannelPayoutSteps.RunKeepsPay: asks for the pace that `PaysWithinOneCallExactly` shows payouts to need.
* RefundLateWrites.ComesLateExactlyWhenAhead: speaks of states in which no two refunds had one and the same envelope signed, which takes two runs with the same reads of clock and account, and the same payer and amount.
* RefundGuards.LateWriteNeedsGuardAhead: the same.
* DepositClaims.TransactionCreditsOnce: asks that intent ids be fresh, as all that is proved over runs of the ledger.
* CasClients.RunRefinesSequentialUpdates: asks that no deleted key be seeded; `StepRefinesExactlyWithoutReseed` shows that nothing else breaks it.
* LedgerAlarm.HoldsEnd: asks that no arming be lost; `HoldsEndExactlyUnlessLost` shows that nothing less will do.
* SettlementTheorems.AnswerStaysTrue: asks that no signature escape the tracing before the answer; `StepIsTrueExactlyUnlessUntraced` shows that nothing less will do.
* Requeue of an envelope without Soroban data: the router replaces such an envelope without proof of death (src/routes/refunds.ts:279-283); the network accepts none, and envelopes of that kind are not modelled.
* The refund executor's fee bids, its alert outbox, the order row written after a confirmation, and the stuck-refund report: no money moves there.
* The executor's `running` flag and cron timing: the refund results hold for any number of executors at once.
* The write-off record and the aggregate of a channel are written one after the other; the aggregate is treated on its own because it is shared by all channels.
* The fence's three tries, and the closed marker a call sets beside it: a fence is one write that may happen at any time, or fail.
* A channel's close credential, which the call endpoint rolls back without a fence, and the settlement by the payment library itself: the watermark's `settling` flag is only ever found set.
* The production channels of src/routes/proxy.ts: they use the same lock and rollback, but no capacity gate and no stored voucher.
* Over-cap records, call history, chip, model and release reason of calls: stored for reading only.
* Face values below zero: the credits label is modelled on the values a code can have.
* Bytes that are no valid text: a string of the key material stands for its UTF-8 bytes, so what a lone surrogate is replaced by is not modelled.
* JSON, HTTP, environment wiring, cron dispatch, allow-lists, pricing and user interface.
* Cryptography, XDR and the libraries for payment and channels: envelopes are amounts, bounds and sequence numbers, signatures are names.
* `bumpCumulative` in src/mpp/channel-store.ts and other read-then-put code on plain KV: its own comment admits the race, so nothing is claimed.
