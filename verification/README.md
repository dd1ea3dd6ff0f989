# A verified model of the Subly402 money engine

Subly402 is a private payment vault. An enclave keeps clients' deposits off-chain, reserves and settles payments to
providers, runs Atomic Service Channels (pay-per-result channels whose payments are adaptor signatures), writes every
change to a log before acknowledging it, rebuilds itself from snapshots and that log, and pays providers out on-chain in
batches. This project models that engine in Dafny and proves what it has to get right.

## How it is organised

- **The vault as a value.** `Ledger.dfy` and `Channels.dfy` give each operation of `VaultState` and of the channel manager
  as a function on a vault; `Steps.dfy` gives each handler's locked section as one atomic step whose log append succeeds
  or fails; `Runs.dfy` strings steps together.
- **The vault as the code holds it.** `VaultObject.dfy`, `ChannelObject.dfy`, `Handlers.dfy`, `ReplayObject.dfy`,
  `Snapshots.dfy`, `RecoverObject.dfy` and `BatchObject.dfy` update maps and counters in place, scan them with loops, and
  undo what they did when an append fails. Each method is proved equal to its function. The handlers are where
  mutate, log, roll back is shown to be one atomic step.
- **What every run keeps.** `Invariant.dfy` states it, `Preservation.dfy`, `MoneyLemmas.dfy`, `SettlementLemmas.dfy` and
  `BatchLemmas.dfy` prove it, `Consequences.dfy`, `LogTotals.dfy`, `Payouts.dfy`, `ChannelRuns.dfy` and `CreditStamps.dfy`
  draw the conclusions, and `Atomicity.dfy` says what a failed append can leave behind.
- **Recovery.** `Replay.dfy` replays the log; `Recovery.dfy`, `RecoveryRuns.dfy` and `FullReplay.dfy` prove that replay
  refines the live run; `Crashes.dfy` repeats this over any number of crashes and snapshots; `WriteAheadLog.dfy` and `ObjectKeys.dfy`
  cover sequence numbers and object names.
- **Channels' cryptography.** `AdaptorSig.dfy` works over any abelian group whose base point has Ed25519's order, with
  hashing and compression as parameters; `FinalizeRoutes.dfy` and `ProviderTwin.dfy` connect it to the channels and to the
  provider's side. `LawfulCurve.dfy` shows that the group laws asked for can be met.
- **Batches.** `CursorPass.dfy`, `BatchCursors.dfy`, `BatchSelect.dfy`, `RoundRobin.dfy`, `BatchChunks.dfy`, `BatchPipeline.dfy`,
  `Jitter.dfy`. Planning a batch is a step of a run like any other.
- **Planning without the lock.** The code plans batches without taking the lock that handlers take. `InFlight.dfy` gives the
  moments of a settlement at which a pass over the credits can fall, `InFlightLosses.dfy` what that costs,
  `InFlightClosing.dfy` the same for closing a channel, `BusyRuns.dfy` whole runs, `InFlightPayouts.dfy` the payouts.
- **Where things come apart.** `Witnesses.dfy` and `BusyWitnesses.dfy` run the vault into the cases below that concern it.
- **Around the vault.** `CanonicalJson.dfy` and `SingleExecution.dfy` with `MiddlewareObject.dfy`.

Clocks, random delays, generated ids, the outcome of a log append and the visiting order of a hash map are parameters.
Times are seconds after 1970. Amounts are unbounded; `Consequences.NothingOverflows` says when they fit in 64 bits.

A run is *admissible* when generated ids are fresh, a confirmed chunk lists distinct recorded settlements, an observed
withdrawal is one that was signed, and planning a batch visits every credit, each a 64-bit amount. The batch planner meets
its part of this by `BatchObject.PlanBatch`.

## Where the code falls short of a broader claim

Each of these is kept as the code has it and shown by a lemma; where some condition rules it out, that condition is exact.
The names ending in `Reached` are runs from the empty vault.

- A deposit whose append fails leaves an empty balance. Locking nothing against it is logged and then refused by replay:
  `FullReplay.PhantomLockFails`. Replaying a step works exactly when it is ready: `RecoveryRuns.StepSim`.
- A delivery is checked against the clock again on replay: `Witnesses.LateDeliveryReached`. The same exact condition covers it.
- Undoing a settlement drops a credit that already owed nothing: `Rollbacks.SettleUndone` says exactly when it is an
  inverse, `Witnesses.DroppedCreditReached` reaches the other case, and the vault then no longer matches its log.
- A withdrawal event that does not match is applied and never logged: `RecoveryRuns.MismatchDiverges`,
  `Witnesses.MismatchReached`.
- Planning a batch recomputes a credit that a closed channel added to, without the channel's earnings, and logs nothing.
  `BatchCursors.PassLoses` gives the exact loss, `Runs.RunKeeps` adds it up over runs, `BatchCursors.UntouchedIffBacked` says
  when there is none, `Witnesses.PruneReached` reaches one, and recovery brings the money back (`RecoveryRuns.UndoableIsExact`).
- Planning can run inside a settlement. If it sees the provider credited and the settlement not recorded, it prunes the
  settlement, and the invariant is lost exactly when there is money to lose: `InFlightLosses.SettleAmidExact`, over runs
  `BusyRuns.BusyExact`, reached in `BusyWitnesses.AmidPruneReached`. It takes a settlement under way.
- If it sees the record while the append is outstanding, the settlement can be paid out on-chain and then undone. The
  transfer exceeds what the vault stops owing by exactly that settlement, and only then: `InFlightPayouts.AmidIsPaid`, reached in
  `BusyWitnesses.UnmatchedReached`.
- If it looks a settlement up in the middle of its confirmation, a record of a paid settlement stays behind:
  `InFlight.RebuiltDuringConfirmation`.
- A record whose write is stored although an error was returned is undone by the enclave and comes back with the next
  start-up: `RecoverObject.UnreportedDiverges`; `WriteAheadLog.RecordedIffReported` has the exact condition.
- After a restart the next sequence number is a count of records. It is free exactly when no append that left no record
  came before one that left one (`WriteAheadLog.RestartAbove`), and above a snapshot's number exactly when every append before
  the snapshot had left a record (`WriteAheadLog.RestartReadsOn`, `WriteAheadLog.RestartKeepsSuffix`);
  `WriteAheadLog.GapOverwrites` shows a record being replaced.
- `oldest_credit_at` is the oldest settlement exactly while settlements come in time order: `CreditStamps.StampExtended`. The
  time is taken before the lock, so they need not: `BusyWitnesses.LateStampReached`.
- The chunk filter's escape for overdue settlements reads the batch's own time, so it never opens:
  `BatchChunks.EnoughAccounts`.
- An exception that escapes while a request is executing, for example from setting the payment header once the handler
  has begun to stream its response, leaves the cache entry executing for good. The catch block's own answer goes to the
  patched response and is never sent, and later requests for the verification wait without end. That happens exactly then:
  `SingleExecution.AbandonedIffEscaped`, `SingleExecution.StrandedWaiter`. (A route handler that throws does not do this:
  Express catches it and its error handler ends the response, which settles the entry.)

## Model

| member | source | states |
|---|---|---|
| Runs.RunKeeps | enclave/src/state.rs:295-603 | After any admissible run, with batches planned between its steps, the invariant holds: each client's locked funds are exactly its reservations, withdrawals and channels; cached expiries are the true maxima; payments, history and credits index each other; channels are well-formed; and deposits exceed what is held, owed and paid out by exactly what the planning lost; BusyRuns.BusyExact has planning inside settlements and closings too |
| Runs.StepKeeps | enclave/src/asc_manager.rs:76-870 | Every single live step keeps the invariant, whether its log append succeeds or is rolled back, and only planning a batch loses money |
| Consequences.NothingClips | enclave/src/state.rs:312-334 | In every reachable state each amount that a saturating subtraction takes away is covered by what it is taken from |
| Consequences.NothingOverflows | enclave/src/state.rs:454-492 | If all deposits together fit in 64 bits, so does every balance, credit and channel part, and all of them added up |
| LogTotals.Conservation | enclave/src/deposit_detector.rs:333-380 | Over any run from an empty vault with batches planned between its steps, logged deposits equal clients' free and locked funds plus logged withdrawals plus what providers are owed plus what was paid out on-chain plus what planning lost |
| LogTotals.StepBooks | enclave/src/state.rs:295-603 | Every step writes at most one balance, and its deposited and withdrawn totals move by exactly what the step logged |
| LogTotals.RunBooks | enclave/src/state.rs:419-434 | Over any run the deposited and withdrawn totals move by exactly the deposits and withdrawals in the log |
| Payouts.EventsCountedOnce | enclave/src/deposit_detector.rs:338-376 | Over any run no chain event is logged twice, and each logged one is marked as processed |
| Payouts.PaidOnce | enclave/src/state.rs:526-603 | Over any run no settlement is confirmed twice; each confirmed one is marked paid out and is in no history or credit, so it cannot be selected again |
| Payouts.PaidForever | enclave/src/state.rs:544-559 | A reservation that is paid out never changes again |
| Payouts.PaidUnselectable | enclave/src/batch.rs:492-559 | In a reachable state a settlement that is paid out is in no history record and no credit |
| StepFrames.StepWrites | enclave/src/state.rs:286-603 | Each kind of step writes only its own part of the vault |
| Atomicity.UnloggedLeaves | enclave/src/handlers.rs:893-975 | A step that logged nothing leaves the vault as it was, but for an empty balance of an unknown client, a used-up nonce, the time a channel was touched, the loss of a credit that owed nothing, or credits pruned while planning with some credit unbacked |
| CreditStamps.CreditsMatchHistory | enclave/src/state.rs:454-492 | Over any run with settlements in time order, every credit lists distinct ids, the recorded ones those of that provider's settled reservations; it owes at least the sum of its records, and exactly that if and only if all are recorded, and is then as old as its oldest settlement |
| CreditStamps.StampExtended | enclave/src/state.rs:477-489 | Adding a settlement to a credit keeps its age that of its oldest settlement if and only if the new one is not older |
| BusyWitnesses.LateStampReached | enclave/src/handlers.rs:892-896 | A run from the empty vault in which the later of two settlement times commits first, so that the credit is stamped younger than its oldest settlement |
| CreditStamps.StepStamps | enclave/src/state.rs:526-603 | Every step keeps the ages of credits right while settlements come in time order |
| ChannelRuns.ChannelRun | enclave/src/asc_manager.rs:145-201 | Over any run an open channel's three parts add up to its deposit, its earnings are the sum over distinct finalized requests in the log, it is Open exactly without a request, its lock is exactly that request, and a Pending one holds a verified pre-signature |
| ChannelRuns.PaidForResult | enclave/src/asc_manager.rs:457-545 | A provider is paid only when the plaintext it reveals hashes to the result it committed to |
| FinalizeRoutes.OffchainThenOnchain | enclave/src/asc_manager.rs:350-365 | Whoever can finalize off-chain can publish a signature that finalizes on-chain to the same vault and plaintext |
| FinalizeRoutes.OnchainThenOffchain | enclave/src/asc_manager.rs:367-404 | A signature that finalizes on-chain reveals a secret that finalizes off-chain to the same vault and plaintext |
| FinalizeRoutes.OffchainAccepts | enclave/src/asc_manager.rs:469-526 | A secret finalizes a pending request if and only if it is the discrete logarithm of the adaptor point and decrypts the ciphertext to the committed result |
| FinalizeRoutes.OnchainAccepts | enclave/src/asc_manager.rs:373-404 | A signature finalizes a pending request if and only if it verifies as a claim and what it reveals decrypts to the committed result |
| FinalizeRoutes.ClaimAccepted | enclave/src/asc_manager.rs:373-396 | Any valid signature on the nonce R' + T is accepted as a claim, nothing else is, and it reveals the secret behind T |
| FinalizeRoutes.SecretAccepted | enclave/src/asc_manager.rs:496-510 | A scalar opens a delivered request if and only if it is behind the adaptor point |
| FinalizeRoutes.OneResult | enclave/src/asc_manager.rs:457-545 | Two successful finalizes of one pending request use the same secret and reveal the same plaintext |
| AdaptorSig.PreSignVerifies | enclave/src/adaptor_sig.rs:125-153 | An honest pre-signature passes pre-verification for every adaptor point |
| AdaptorSig.AdaptVerifies | enclave/src/adaptor_sig.rs:199-214 | The secret behind the adaptor point turns every verified pre-signature into a valid signature |
| AdaptorSig.ExtractRecovers | enclave/src/adaptor_sig.rs:219-223 | A valid signature on the nonce R' + T yields a reduced scalar behind T |
| AdaptorSig.ExtractAdapt | enclave/src/adaptor_sig.rs:219-249 | Extracting from an adapted signature gives back exactly the secret used to adapt |
| AdaptorSig.SecretUnique | enclave/src/adaptor_sig.rs:61-70 | Reduced scalars with the same point are equal |
| Keystream.DecryptWithScalar | enclave/src/asc_manager.rs:887-907 | The chunked loop combines byte i with byte i mod 32 of hash block i / 32 |
| Keystream.XorInvolution | enclave/src/asc_manager.rs:887-912 | Encrypting and decrypting are the same operation and undo each other |
| Keystream.KeystreamXor | middleware/src/asc.ts:124-146 | The provider's loop computes the same bytes as the enclave's |
| ScalarBytes.CanonicalRoundTrip | enclave/src/adaptor_sig.rs:219-223 | Canonical 32-byte strings and reduced scalars correspond one to one |
| ScalarBytes.BytesToBigIntLE | middleware/src/asc.ts:37-43 | The loop from the last byte computes the little-endian number |
| ScalarBytes.BigIntToBytesLE | middleware/src/asc.ts:45-53 | The loop fills the little-endian bytes of the number reduced modulo the curve order |
| ProviderTwin.GenerateDelivery | middleware/src/asc.ts:272-312 | The provider's artifact is an honest pre-signature on the channel's payment message with the encrypted result; it fails only for a zero nonce |
| ProviderTwin.DeliveryAccepted | enclave/src/asc_manager.rs:237-306 | The enclave accepts that artifact for the active request exactly while the request has not expired |
| ProviderTwin.DeliveryIsPaid | middleware/src/asc.ts:88-104 | From submitted request to payment: the delivery is accepted and its secret hands the client the provider's result and the provider exactly the amount |
| ProviderTwin.TwinsAdaptAlike | middleware/src/asc.ts:227-249 | On deliveries the enclave accepts, the provider's adapted signature is the one the enclave would compute |
| Rollbacks.DepositUndone | enclave/src/state.rs:301-309 | Rolling a deposit back restores the vault if and only if the client was known; otherwise an empty balance stays |
| Rollbacks.ReserveUndone | enclave/src/state.rs:326-334 | Releasing undoes reserving |
| Rollbacks.ReleaseUndone | enclave/src/state.rs:312-323 | Reserving undoes releasing if and only if the lock covered the amount |
| Rollbacks.AuthorizeUndone | enclave/src/state.rs:395-417 | Expiring undoes an authorization if and only if its nonce was unused |
| Rollbacks.WithdrawUndone | enclave/src/state.rs:436-451 | Rolling an applied withdrawal back restores the vault if and only if it was filed under its own nonce and the lock covered it |
| Rollbacks.SettleUndone | enclave/src/state.rs:494-523 | Rolling a settlement back restores the vault if and only if the lock covered it and a credit already there owed something and did not list the id; a credit that owed nothing is dropped |
| Rollbacks.OpenUndone | enclave/src/asc_manager.rs:128-140 | Rolling an opening back restores the vault if and only if the channel id was new |
| Rollbacks.SubmitUndone | enclave/src/asc_manager.rs:203-231 | Rolling a request back restores the vault, up to the time of the change, if and only if no request was left over |
| Rollbacks.DeliverUndone | enclave/src/asc_manager.rs:308-344 | Rolling a delivery back restores the vault, up to the time of the change, if and only if the request carried none before |
| Rollbacks.FinalizeUndone | enclave/src/asc_manager.rs:547-575 | Rolling a payment back restores the pending request, up to the time of the change |
| Rollbacks.ExpiryUndone | enclave/src/asc_manager.rs:804-831 | Rolling an expiry back restores the request, up to the time of the change, if and only if the channel's lock covered it |
| Rollbacks.CloseUndone | enclave/src/asc_manager.rs:726-759 | Rolling a close back with the saved credit restores the vault if and only if the channel was filed under its own id and the client's lock covered it |
| Preservation.SettleFailed | enclave/src/handlers.rs:943-962 | A settlement whose append fails leaves the vault as it was, but for a credit that owed nothing |
| VaultObject.VaultState.constructor | enclave/src/state.rs:240-284 | A new vault is the empty one |
| VaultObject.VaultState.ApplyDeposit | enclave/src/state.rs:295-299 | The client's entry, created if need be, becomes what the deposit function gives |
| VaultObject.VaultState.RollbackDeposit | enclave/src/state.rs:301-309 | In place, the function whose inverse law is Rollbacks.DepositUndone |
| VaultObject.VaultState.ReserveBalance | enclave/src/state.rs:312-323 | In place, error paths included, the function whose inverse law is Rollbacks.ReserveUndone |
| VaultObject.VaultState.ReleaseBalance | enclave/src/state.rs:326-334 | In place, the function whose inverse law is Rollbacks.ReleaseUndone |
| VaultObject.VaultState.Refresh | enclave/src/state.rs:337-376 | Three scans in any order set the cached expiry to the maximum over open reservations, withdrawals and channel requests |
| VaultObject.VaultState.AuthorizeWithdrawal | enclave/src/state.rs:378-393 | Locks the amount and files the withdrawal under its nonce, or changes nothing |
| VaultObject.VaultState.ExpireWithdrawal | enclave/src/state.rs:395-417 | Removes the withdrawal and frees its lock, error paths included |
| VaultObject.VaultState.ApplyWithdrawal | enclave/src/state.rs:419-434 | Removes the withdrawal and moves its lock to withdrawn, error paths included |
| VaultObject.VaultState.RollbackAppliedWithdrawal | enclave/src/state.rs:436-451 | In place, the function whose inverse law is Rollbacks.WithdrawUndone |
| VaultObject.VaultState.SettlePayment | enclave/src/state.rs:454-492 | Moves the amount from the client's lock to the provider's credit, stamped when first created |
| VaultObject.VaultState.RollbackSettlePayment | enclave/src/state.rs:494-523 | In place, the function whose inverse law is Rollbacks.SettleUndone |
| VaultObject.VaultState.ConfirmId | enclave/src/state.rs:534-568 | One id of a confirmed chunk: marks its reservation, drops its record, lowers the credit that lists it, whatever order the maps are scanned in |
| VaultObject.VaultState.DropSpentCredits | enclave/src/state.rs:570-585 | The clean-up loop removes exactly the touched credits that are spent |
| VaultObject.VaultState.RestampCredits | enclave/src/state.rs:587-602 | The second clean-up loop gives each touched credit the earliest time the history records for it |
| VaultObject.VaultState.ApplyBatchConfirmation | enclave/src/state.rs:526-603 | The three loops together apply a confirmed chunk |
| VaultObject.FindOwner | enclave/src/state.rs:544-550 | A scan in any order finds a reservation with the settlement id if there is one, and the only one if ids are unique |
| VaultObject.EarliestOf | enclave/src/state.rs:589-597 | The loop finds the earliest recorded time of a list |
| VaultObject.LargestOf | enclave/src/state.rs:338-365 | A scan in any order finds the largest value, 0 if there is none |
| ChannelObject.OpenChannel | enclave/src/asc_manager.rs:76-126 | In place, error paths included, the function whose inverse law is Rollbacks.OpenUndone |
| ChannelObject.RollbackOpenChannel | enclave/src/asc_manager.rs:128-140 | Removes the channel and frees its deposit |
| ChannelObject.SubmitRequest | enclave/src/asc_manager.rs:145-201 | In place, error paths included, the function whose inverse law is Rollbacks.SubmitUndone |
| ChannelObject.RollbackSubmitRequest | enclave/src/asc_manager.rs:203-231 | Puts the amount back and forgets the request id |
| ChannelObject.DeliverAdaptor | enclave/src/asc_manager.rs:237-306 | In place, error paths included, the function whose acceptance is ProviderTwin.DeliveryAccepted |
| ChannelObject.RollbackDeliverAdaptor | enclave/src/asc_manager.rs:308-344 | Returns the channel to Locked without the delivery |
| ChannelObject.FinalizeWithSecret | enclave/src/asc_manager.rs:457-545 | In place, the function whose acceptance is FinalizeRoutes.OffchainAccepts; a refusal changes nothing |
| ChannelObject.FinalizeOffchain | enclave/src/asc_manager.rs:350-365 | Decodes the secret and finalizes with it |
| ChannelObject.FinalizeOnchain | enclave/src/asc_manager.rs:367-404 | Checks the claim, extracts the secret and finalizes with it |
| ChannelObject.RollbackFinalize | enclave/src/asc_manager.rs:547-575 | In place, the function whose inverse law is Rollbacks.FinalizeUndone |
| ChannelObject.FinalizeReplayed | enclave/src/asc_manager.rs:577-617 | Repeats a logged payment without its secret |
| ChannelObject.ExpireRequest | enclave/src/asc_manager.rs:761-802 | In place, error paths included, the function whose inverse law is Rollbacks.ExpiryUndone |
| ChannelObject.RollbackExpireRequest | enclave/src/asc_manager.rs:804-831 | Restores the expired request and its status |
| ChannelObject.ExpireReplayed | enclave/src/asc_manager.rs:833-870 | Repeats a logged expiry |
| ChannelObject.CloseChannel | enclave/src/asc_manager.rs:626-724 | In place, error paths included, the function whose inverse law is Rollbacks.CloseUndone |
| ChannelObject.RollbackCloseChannel | enclave/src/asc_manager.rs:726-759 | Reopens the channel and restores the balance and the saved credit |
| Handlers.ApplyDeposit | enclave/src/deposit_detector.rs:333-380 | Mutate, append, undo on failure is the atomic deposit step, and an event already seen changes nothing |
| Handlers.ApplyWithdrawal | enclave/src/deposit_detector.rs:688-745 | Mutate, append, undo on failure is the atomic withdrawal step, including the unlogged mismatch |
| Handlers.AuthorizeWithdraw | enclave/src/handlers.rs:1229-1290 | Authorizing, logging and undoing is one atomic step; the nonce is used up either way |
| Handlers.ExpireWithdraw | enclave/src/handlers.rs:2118-2159 | Logged first, then expired: one atomic step |
| Handlers.Verify | enclave/src/handlers.rs:679-772 | Reserving, logging and undoing is one atomic step; a known payment id reserves nothing again |
| Handlers.Settle | enclave/src/handlers.rs:893-975 | Settling, recording, logging and undoing is one atomic step, whatever the settlement id |
| Handlers.Cancel | enclave/src/handlers.rs:1135-1188 | Releasing, logging and undoing is one atomic step |
| Handlers.ExpireReservation | enclave/src/handlers.rs:2072-2116 | Logged first, then released: one atomic step |
| Handlers.Register | enclave/src/handlers.rs:1755-1795 | Logged first, then registered; a known provider is left alone |
| Handlers.IssueReceipt | enclave/src/handlers.rs:1524-1597 | Each receipt uses up one nonce and logs it as issued, then as mirrored |
| Handlers.ConfirmBatch | enclave/src/batch.rs:371-390 | A confirmed chunk is logged and then applied, in one atomic step |
| Handlers.OpenCh | enclave/src/handlers.rs:2414-2447 | Opening, logging and undoing is one atomic step |
| Handlers.Submit | enclave/src/handlers.rs:2475-2530 | Submitting, logging and undoing is one atomic step |
| Handlers.Deliver | enclave/src/handlers.rs:2568-2668 | Delivering with the registered key, logging and undoing is one atomic step |
| Handlers.Finalize | enclave/src/handlers.rs:2694-2742 | Finalizing off-chain, logging and undoing is one atomic step; the plaintext is handed out only once logged |
| Handlers.Claim | enclave/src/batch.rs:1205-1275 | Finalizing from an on-chain claim, logging and undoing is one atomic step |
| Handlers.Close | enclave/src/handlers.rs:2765-2807 | Closing, logging and undoing is one atomic step |
| Handlers.ExpireReq | enclave/src/handlers.rs:2161-2200 | Expiring a stale request, logging and undoing is one atomic step |
| RecoveryRuns.StepSim | enclave/src/wal.rs:490-1010 | Replaying what a step logged succeeds if and only if the step is ready, and then keeps the recovered vault standing for the live one |
| RecoveryRuns.RecoveryRefines | enclave/src/wal.rs:460-488 | From any related pair, the log of a run replays if and only if every step is ready in its turn, and then ends in a related pair |
| RecoveryRuns.DroppedCreditDiverges | enclave/src/state.rs:494-523 | A failed settlement that drops an empty credit leaves a vault that no longer matches its log |
| RecoveryRuns.UndoableIsExact | enclave/src/handlers.rs:945-962 | A step that logs nothing keeps the vault matching its log if and only if it drops no credit |
| RecoveryRuns.MismatchDiverges | enclave/src/deposit_detector.rs:704-714 | A mismatching withdrawal event leaves a vault that no longer matches its log |
| Witnesses.DroppedCreditReached | enclave/src/state.rs:494-523 | A run from the empty vault whose last step drops a credit, so that replaying its log succeeds and gives a vault it does not match |
| Witnesses.MismatchReached | enclave/src/deposit_detector.rs:704-714 | A run from the empty vault that ends in a mismatching event, so that replaying its log succeeds and gives a vault it does not match |
| Witnesses.PruneReached | enclave/src/batch.rs:588-622 | A run from the empty vault through a closed channel whose planning loses one unit, so that replaying its log succeeds and gives a vault it does not match |
| Witnesses.LateDeliveryReached | enclave/src/wal.rs:929-984 | A run from the empty vault with an accepted delivery whose log replay refuses when it takes longer than a request lives between two entries |
| FullReplay.FullRecovery | enclave/src/wal.rs:460-1010 | The log of a run replays from an empty vault without error to a vault that stands for the live one, with the same clients, balances and cached expiries, and nonce counters above every logged nonce |
| Crashes.RecoveredKeeps | enclave/src/wal.rs:456-488 | A recovered vault satisfies the invariant and has lost exactly what the live one had |
| Crashes.SurvivesCrashes | enclave/src/wal.rs:456-488 | From the empty vault or a snapshot's: however many times the enclave has crashed and started since, its vault satisfies the invariant with nothing more lost; one more replay of the log since succeeds if and only if every step of every life is ready in its turn, and then stands for the vault at the crash and again satisfies the invariant |
| Crashes.SurvivesSnapshots | enclave/src/snapshot.rs:120-164 | The same with any number of snapshots taken in between: loading the newest and replaying the log since recovers the vault at the crash, invariant and all, if and only if every step since is ready |
| Crashes.SnapshotReads | enclave/src/wal.rs:247-344 | Whatever restarts reset the numbering, reading above a snapshot's number finds exactly what all lives since have logged |
| Crashes.CrashesConserve | enclave/src/deposit_detector.rs:333-380 | Across any number of crashes and snapshots, deposits in the log equal clients' funds plus logged withdrawals plus what is owed plus what was paid out |
| FullReplay.PhantomLockFails | enclave/src/wal.rs:609-668 | A failed deposit followed by a reservation of nothing gives a log that replay refuses |
| FullReplay.KnownClients | enclave/src/wal.rs:492-510 | A replayed vault knows exactly the clients with a logged deposit |
| FullReplay.CountersAbove | enclave/src/wal.rs:511-540 | After replay both nonce counters are above every logged nonce |
| FullReplay.CacheRecovered | enclave/src/wal.rs:474-485 | After the final refresh the recovered cache agrees with the live one for clients without an active channel request |
| ReplayObject.ReplayEntry | enclave/src/wal.rs:490-1010 | In place, each kind of entry does what the replay function says, error paths included |
| ReplayObject.ReplayAll | enclave/src/wal.rs:460-488 | The loop replays entries in order, stops at the first error, and otherwise refreshes every client |
| ReplayObject.RefreshAll | enclave/src/wal.rs:474-485 | The loop recomputes every client's cached expiry |
| Snapshots.Capture | enclave/src/snapshot.rs:294-409 | The captured lists hold exactly the vault's entries |
| Snapshots.Apply | enclave/src/snapshot.rs:411-533 | Clearing and refilling every map gives the vault the lists describe, with fresh cached expiries |
| Snapshots.RoundTrip | enclave/src/snapshot.rs:294-533 | Capturing a reachable vault and applying the snapshot gives back exactly that vault |
| Snapshots.CacheIsFresh | enclave/src/snapshot.rs:519-530 | In a reachable vault recomputing the cached expiries changes nothing |
| RecoverObject.SnapshotRecovers | enclave/src/snapshot.rs:205-291 | Cut any run anywhere, with failed appends on both sides: the snapshot plus the records above its number replays if and only if every later step is ready, and then stands for the live vault |
| RecoverObject.SnapshotMatchesReplay | enclave/src/snapshot.rs:120-164 | For any run cut anywhere, start-up from the snapshot and its suffix and start-up from the whole log end, whenever both succeed, in vaults that agree; each succeeds if and only if the steps it replays are ready |
| RecoverObject.RunDetermined | enclave/src/wal.rs:876-884 | Every confirmation in the log of a run names settlements that replay finds whatever order the maps are scanned in |
| RecoverObject.RecoverFromLog | enclave/src/wal.rs:456-488 | Start-up without a snapshot succeeds and stands for the live vault |
| RecoverObject.RecoverFromSnapshot | enclave/src/snapshot.rs:120-164 | Start-up with a snapshot succeeds and stands for the live vault |
| RecoverObject.UnreportedDiverges | enclave/src/wal.rs:306-311 | A deposit whose write is stored behind an error is undone by the enclave and made again by the next start-up |
| ObjectKeys.KeyOrder | enclave/src/wal.rs:452-454 | Object keys sort exactly as the 64-bit numbers in them |
| ObjectKeys.NewestIsLargest | enclave/src/snapshot.rs:124-142 | Recovery picks the snapshot with the largest number |
| ObjectKeys.PruneKeepsNewest | enclave/src/snapshot.rs:599-604 | Pruning keeps as many snapshots as asked, only newer ones than those it drops, and always the newest |
| WriteAheadLog.ObjectLog.Append | enclave/src/wal.rs:277-316 | Every append uses up a number; a write that is stored, reported or not, keeps its entry under it, and only a reported one returns it |
| WriteAheadLog.ObjectLog.ReadAfter | enclave/src/wal.rs:330-339 | Reading above a number gives exactly the entries stored after it, in order |
| WriteAheadLog.RecordedIffReported | enclave/src/wal.rs:306-316 | The store holds exactly what was acknowledged if and only if no write was stored behind an error |
| WriteAheadLog.ObjectLog.LastSeqno | enclave/src/wal.rs:341-344 | The last number used up, if any |
| WriteAheadLog.ObjectLog.Restart | enclave/src/wal.rs:247-274 | After a restart the next number is the count of stored records; the log goes on as before if no append without a record came before one with a record |
| WriteAheadLog.RestartAbove | enclave/src/wal.rs:247-274 | The number after a restart is above every stored one if and only if no append that left no record came before one that left one |
| WriteAheadLog.RestartReadsOn | enclave/src/wal.rs:330-344 | The first append after a restart is found by reading above the last number if and only if every append had left a record |
| WriteAheadLog.RestartKeepsSuffix | enclave/src/wal.rs:247-274 | A restart that finds no gap keeps the numbers up to a snapshot's if and only if every append before the snapshot left a record, and then forgets no record since |
| WriteAheadLog.SessionsRead | enclave/src/wal.rs:247-344 | Over any number of restarts without gaps, reading above that number gives the records of every session since, in order |
| WriteAheadLog.GapOverwrites | enclave/src/wal.rs:277-316 | One failed append between two good ones: after a restart the next append destroys the second |
| WriteAheadLog.SuffixIsExact | enclave/src/wal.rs:330-339 | The records above the number a snapshot recorded are the entries stored since, and the acknowledged ones if and only if no write since was stored behind an error |
| BatchSelect.SelectProviderEntries | enclave/src/batch.rs:680-726 | The pass with running totals selects what the age window and the payout floor, stated over the whole list, allow |
| BatchSelect.ChosenAge | enclave/src/batch.rs:731-736 | An automatic batch selects only settlements as old as the smaller of the two windows |
| BatchSelect.CapIsHarmless | enclave/src/batch.rs:742-755 | The saturating total never changes the payout floor's verdict |
| RoundRobin.SelectBatchIds | enclave/src/batch.rs:773-808 | The loop takes turns and selects exactly the smaller of the maximum and the total |
| RoundRobin.FairShares | enclave/src/batch.rs:773-808 | Each provider contributes a prefix of its list; one contributes more than another with ids left only by one, and only if its credit is older or, at the same age, its id smaller |
| RoundRobin.ServedAre | enclave/src/batch.rs:777-782 | The served cursors are the non-empty ones, oldest credit first and then smallest provider id |
| RoundRobin.PicksDistinct | enclave/src/batch.rs:784-807 | No settlement is picked twice |
| BatchChunks.BuildChunks | enclave/src/batch.rs:810-833 | For every cap the chunks are the fewest possible, concatenate to the input, are non-empty, within the cap and within one of each other in size, and start where the one before ends |
| BatchChunks.IndexesUnique | enclave/src/batch.rs:920-936 | Start plus offset is a different byte for every entry, up to 256 entries |
| BatchChunks.BytesDistinctIff | enclave/src/batch.rs:826-930 | The index byte is different for every entry if and only if there are at most 256 of them |
| BatchChunks.FilteredIndexesUnique | enclave/src/batch.rs:920-936 | The indexes stay unique after the privacy filter |
| BatchChunks.FilteredAreSome | enclave/src/batch.rs:835-861 | The filter keeps a chunk, in order, if and only if it is mixed or overdue or no filtering is asked for |
| BatchChunks.EnoughAccounts | enclave/src/batch.rs:854-858 | With every entry audited at the batch's time the overdue escape never opens: every kept chunk pays enough token accounts |
| BatchChunks.Aggregate | enclave/src/batch.rs:863-887 | One transfer per token account with the exact total, refused if and only if a total leaves 64 bits |
| BatchCursors.PassLeaves | enclave/src/batch.rs:492-559 | Between steps and at every moment of a settlement or closing nothing is reconstructed: cursors come from recorded settlements, and what is missing are exactly the listed ids without a record |
| BatchCursors.PassCleans | enclave/src/batch.rs:588-622 | At all those moments building the cursors leaves each provider exactly what its recorded settlements account for, and nothing else changes |
| BatchCursors.PassLoses | enclave/src/batch.rs:548-556 | At all those moments what building the cursors takes off the books is exactly the part of the credits that no record accounts for |
| BatchCursors.PlanKeeps | enclave/src/batch.rs:492-559 | Between steps building the cursors keeps the whole invariant and loses exactly what closed channels had credited |
| InFlightLosses.SettleAmidExact | enclave/src/handlers.rs:895-962 | A settlement with any number of passes at each of its moments loses exactly what a pass between steps would, and more exactly when a pass sees the credit without its record: the amount if it commits, what undoing deducts a second time if it does not; the invariant survives if and only if no pass does so while there is money to lose |
| InFlight.AmidShape | enclave/src/handlers.rs:921-960 | Passes during a settlement touch the credits only and log nothing |
| InFlight.CreditedPlannable | enclave/src/state.rs:467-489 | A pass may run once the provider is credited and nothing is recorded |
| InFlight.RecordedPlannable | enclave/src/handlers.rs:926-951 | A pass may run once the record is there and the append is outstanding |
| InFlight.UndoingPlannable | enclave/src/handlers.rs:952-960 | A pass may run once the append has failed and only the record is gone |
| InFlight.PlansClean | enclave/src/batch.rs:492-559 | Any number of passes at one moment clean like one |
| InFlight.AloneIsStep | enclave/src/handlers.rs:895-962 | Without a pass the settlement is the atomic step |
| InFlight.RebuiltDuringConfirmation | enclave/src/state.rs:534-559 | A pass that looks a settlement up while its confirmation is between removing the record and marking the reservation puts the record back, and it stays behind |
| InFlightClosing.CloseAmidExact | enclave/src/handlers.rs:2772-2795 | A closing with passes before its append is answered keeps the invariant; committed it also loses the channel's earnings, undone it loses no more than a pass between steps, less what the saved credit brings back |
| BusyRuns.BusyExact | enclave/src/batch.rs:213-263 | Over runs in which batches are planned at any of these moments, the invariant holds throughout if and only if no pass sees a settlement's credit without its record while there is money to lose, and deposits then exceed what they are accounted for by exactly the losses |
| BusyRuns.BusyConservation | enclave/src/batch.rs:226-263 | Logged deposits equal clients' funds plus logged withdrawals plus what is owed plus what was paid out plus what planning lost, with batches planned at these moments too |
| BusyRuns.MovesLikeStep | enclave/src/handlers.rs:895-962 | A step with passes inside logs what it would without them and differs in the credits only |
| BusyWitnesses.AmidPruneReached | enclave/src/state.rs:467-489 | A run from the empty vault, every credit backed, in which a pass between a settlement's credit and its record makes the committed settlement owe nothing to anyone |
| BatchCursors.UntouchedIffBacked | enclave/src/batch.rs:492-559 | At all those moments building the cursors leaves the vault alone if and only if every listed id is recorded, which a settlement under way can break |
| BatchCursors.PruneDiverges | enclave/src/batch.rs:588-622 | A vault that lost a closed channel's credit this way no longer matches its log |
| BatchObject.BuildCursors | enclave/src/batch.rs:492-559 | The nested loops, in any visiting order, compute the cursors and the pruned vault |
| BatchObject.ScanIds | enclave/src/batch.rs:512-540 | The inner loop finds or rebuilds each record and lists what is missing |
| BatchObject.Reconstruct | enclave/src/batch.rs:561-586 | A missing record is rebuilt from its reservation exactly when that is settled, of this provider, and the provider is known |
| BatchObject.PruneReference | enclave/src/batch.rs:588-622 | Recomputes a credit without one id and drops it when spent |
| BatchObject.PrepareBatch | enclave/src/batch.rs:431-486 | The loop looks each pick up again and skips one whose record is gone |
| BatchObject.PlanBatch | enclave/src/batch.rs:306-325 | From cursors to filtered chunks: every chunk can be confirmed, repeats its records' accounts and amounts, fits the transaction, and when automatic passes both privacy gates |
| BatchPipeline.PreparedFacts | enclave/src/batch.rs:431-486 | A prepared batch holds distinct recorded settlements with their records' accounts and amounts, old enough when automatic |
| BatchPipeline.PrivacyGates | enclave/src/batch.rs:316-325 | Every submitted chunk of an automatic batch pays enough distinct token accounts, and every settlement in it has waited out the window |
| BatchPipeline.PayoutIsExact | enclave/src/state.rs:526-603 | Confirming a chunk lowers what is owed on each token account by exactly what the history recorded for it |
| BatchPipeline.TransfersMatchCredits | enclave/src/batch.rs:1028-1052 | For a chunk whose entries match the history, the transfer to each token account is exactly the drop in what the vault owes on it |
| BatchPipeline.PlannedIsPaid | enclave/src/batch.rs:306-406 | Plan a batch between steps, let any run confirm none of a chunk's settlements, then confirm the chunk: the transfer to each token account is exactly the drop in what the vault owes on it |
| InFlightPayouts.BusyIsPaid | enclave/src/batch.rs:306-406 | The same with batches planned inside settlements and closings too until the chunk is confirmed |
| InFlightPayouts.AmidIsPaid | enclave/src/batch.rs:306-406 | For a chunk planned during a settlement the transfer to each token account is the drop in what the vault owes on it, and more only if the settlement was undone and the chunk pays it: then by exactly that settlement |
| InFlightPayouts.RanKeepsRecords | enclave/src/batch.rs:441-458 | With batches planned at these moments too a settlement's record does not change until it is confirmed |
| BusyWitnesses.UnmatchedReached | enclave/src/handlers.rs:1905-1925 | A run from the empty vault in which a flush pays out a settlement whose append then fails, so that confirming it lowers no credit |
| BatchPipeline.RunKeepsRecords | enclave/src/batch.rs:352-376 | Over any run a settlement's record does not change until it is confirmed |
| BatchPipeline.StaysPayable | enclave/src/batch.rs:352-376 | Over any run a chunk stays payable until one of its settlements is confirmed |
| BatchPipeline.ChunksShareNothing | enclave/src/batch.rs:810-833 | Two chunks of a batch share no settlement |
| Jitter.BatchLoop | enclave/src/batch.rs:214-265 | The loop decides at each tick with the deadline carried from the tick before |
| Jitter.FiresInTime | enclave/src/batch.rs:631-667 | If the gates stay open, the loop fires no later than the first tick 30 seconds on |
| Jitter.OverdueFiresNow | enclave/src/batch.rs:631-667 | With something overdue and anyone to pay, the loop fires at once |
| Jitter.FiresWhen | enclave/src/batch.rs:631-667 | The loop skips if and only if the gates are closed, and carries a deadline if and only if it waits |
| Jitter.DeadlineBounded | enclave/src/batch.rs:631-667 | A carried deadline is never more than 30 seconds away |
| CanonicalJson.CanonicalIffEqual | enclave/src/handlers.rs:466-489 | Canonical texts are equal if and only if the values mean the same, whatever order their keys were inserted in |
| CanonicalJson.Injective | enclave/src/handlers.rs:459-464 | Equal canonical text means equal payment details |
| CanonicalJson.SameText | enclave/src/handlers.rs:466-489 | Values that mean the same have the same canonical text |
| CanonicalJson.Reads | enclave/src/handlers.rs:466-489 | Canonical text is uniquely readable even inside a longer text |
| CanonicalJson.QuoteReads | enclave/src/handlers.rs:475-477 | A quoted string, escaped as in section 7 of RFC 8259, ends where it says |
| SingleExecution.SingleExecution | middleware/src/middleware.ts:129-151 | Over every interleaving the handler runs at most once per verification, and every answer from the cache or to a waiter carries that execution's status, body and payment response |
| SingleExecution.RunKeeps | middleware/src/middleware.ts:129-284 | Every interleaving keeps the invariant that ties cache, waiters, running handlers and answers together |
| SingleExecution.AbandonedIffEscaped | middleware/src/middleware.ts:151-290 | Over every interleaving an entry is left executing for good if and only if an exception escaped from the request executing it, and then nobody asking for that verification is ever answered |
| SingleExecution.StrandedWaiter | middleware/src/middleware.ts:132-136 | A run in which an exception ends the execution and a second request for the verification waits for good |
| MiddlewareObject.ExecutionCache.Arrives | middleware/src/middleware.ts:129-155 | In place: run the handler, wait for the one running it, or answer from the cache |
| MiddlewareObject.ExecutionCache.Settles | middleware/src/middleware.ts:253-284 | In place: the entry is served, every waiter is resolved with it, and the response goes out |
| MiddlewareObject.ExecutionCache.SettlementFails | middleware/src/middleware.ts:214-252 | In place: the entry is served as a failure to the caller and every waiter |
| MiddlewareObject.ExecutionCache.Escapes | middleware/src/middleware.ts:177-290 | In place: the request is no longer executing, its entry still says so, and the answer to the exception goes to the patched response |
| MiddlewareObject.ExecutionCache.Wakes | middleware/src/middleware.ts:132-141 | In place: a waiter answers with what the finished entry holds |

## Left out

- Admin balance seeding and its log entry, and entries in the formats of older versions beyond their being refused.
- Planning, which takes no lock, at moments other than between steps and those of InFlight.dfy: during a confirmation (InFlight.RebuiltDuringConfirmation shows one look-up), between saving a closing's credit and adding to it, and a pass of which different parts fall into different moments.
- Two batches planned from the same settlements before either is confirmed, as a flush beside the loop can do; a run confirms a settlement once.
- Runs.RunKeeps: has planning between steps; BusyRuns.BusyExact has it at the other moments.
- LogTotals.Conservation: the same; BusyRuns.BusyConservation.
- BatchCursors.PlanKeeps: the same; InFlightLosses.SettleAmidExact and InFlightClosing.CloseAmidExact.
- BatchPipeline.PlannedIsPaid: the same; InFlightPayouts.AmidIsPaid and InFlightPayouts.BusyIsPaid.
- InFlightPayouts.AmidIsPaid: an id that was undone is not drawn again.
- Solana calls, building transactions, WebSocket subscriptions and paging through signatures; only the resulting events are modelled.
- TLS, vsock, KMS, attestation and certificate checks.
- Encryption of log records, snapshots and audit records, and turning entries and snapshots into JSON and back.
- The local-file log, which has no numbered objects.
- The auditor's secret and epoch and the time of the last batch, which snapshots carry beside the vault.
- Header and admin authentication, and HTTP status codes.
- Contents and signing of receipts, and their replication; only their nonces are modelled.
- The background loops that look for expired reservations, withdrawals and requests, and the clean-up of history records without a credit; by the last clause of Consequences.NothingClips such records are of nothing.
- A crash between submitting a chunk and logging it as confirmed, overlapping verifications of one payment id, and that payouts happen eventually: the code does not promise these.
- 64-bit wrap-around of nonces and sequence numbers; amounts are covered by Consequences.NothingOverflows.
- VaultObject.VaultState.ApplyBatchConfirmation: asks that each id be unambiguous, since the order in which the code scans its maps is not fixed; reachable states and the logs of runs meet this.
- VaultObject.VaultState.ConfirmId: the same.
- Handlers.ConfirmBatch: the same; Handlers.PayableUnambiguous shows it of planned chunks.
- ReplayObject.ReplayAll: asks the same of the confirmations in the log; RecoverObject.RunDetermined shows that logs of runs meet it.
- BatchObject.BuildCursors: asks that settlement ids be unique to a reservation, for the same reason.
- BatchObject.ScanIds: the same.
- BatchObject.Reconstruct: the same.
- Handlers.ApplyDeposit: takes the check for an event already seen as part of the step; the code makes it just before taking the lock, and its detector handles events one at a time.
- Handlers.ApplyWithdrawal: the same.
- Handlers.OpenCh: asks that the generated channel id is new.
- Snapshots.Capture: does not model the order in which the lists are sorted.
- BatchChunks.Aggregate: does not model the order in which transfers are listed.
- FullReplay.FullRecovery: asks that whoever locks funds has a logged deposit and that replay takes no longer than a request lives; RecoveryRuns.RecoveryRefines has the exact condition.
- FullReplay.CacheRecovered: leaves out clients with an active channel request, whose expiry replay stamps anew.
- CreditStamps.CreditsMatchHistory: asks for settlements in time order; CreditStamps.StampExtended has the exact condition and BusyWitnesses.LateStampReached a run without it.
- BatchChunks.IndexesUnique: stops at 256 entries, above which the byte wraps; BatchChunks.BytesDistinctIff has the exact condition.
- BatchChunks.FilteredIndexesUnique: the same; a batch has at most 20 entries.
- Crashes.SurvivesCrashes: asks that steps that log nothing leave no trace (RecoveryRuns.UndoableIsExact) and that a crash falls between steps.
- Crashes.SurvivesSnapshots: the same; start-up loads the newest snapshot.
- Crashes.CrashesConserve: the same.
- Crashes.SnapshotReads: asks for the exact conditions of WriteAheadLog.RestartAbove and WriteAheadLog.RestartKeepsSuffix, and that no write was stored behind an error.
- RecoverObject.SnapshotMatchesReplay: asks that no write was stored behind an error; WriteAheadLog.RecordedIffReported has the exact condition.
- MiddlewareObject.ExecutionCache.Settles: sending the response is taken to succeed.
- Keystream.DecryptWithScalar: the hash is any function to 32-byte blocks.
- AdaptorSig.PreSignVerifies: the curve is any abelian group whose base point has Ed25519's order with an exact compression; hashing to scalars is a parameter.
