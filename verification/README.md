# Verified model of the USDCx bridge services

The repository moves USDC between Circle's xReserve and Miden. Three services carry the money, and this
project models what is hard about each of them and proves it for every input and every run:

* the **light attester** (`crates/xusdc-light-attester`) finds burns on Miden, checks and signs Circle's
  prepared withdrawals, submits them, and recovers from crashes, lost replies, conflicts and limits out of a
  durable store;
* the **deposit relayer** (`crates/xreserve-deposit-relayer`) walks Circle's deposit feed from its head into
  the past and mints what it finds, resuming where it stopped;
* the **older listener** (`crates/withdrawal-listener-attester`) assembles burn evidence and submits
  multi-burn requests against an idempotency ledger.

`dafny verify dfyconfig.toml` checks the whole project.

## How the model is laid out

| files | what they hold |
|---|---|
| `Submission.dfy`, `SavedSubmission.dfy` | a saved withdrawal request, what Circle's answers do to it as a function, and the object whose fields the attester assigns |
| `StoreSpec.dfy`, `StoreInvariant.dfy`, `Store.dfy` | the store's transactions as functions on a value, the invariant that ties each note's rows to its replayed history, and the store itself as a class whose transactions write, check and roll back |
| `Discovery.dfy` | scanning a block, and the burns table as a declarative function of the authenticated chain |
| `Machine.dfy`, `MachineInvariant.dfy`, `MachineSteps.dfy`, `MachineAnswers.dfy` | the attester, its store, Circle and the clock as a state machine; its invariant, kept by every step |
| `RunTheorems.dfy`, `HistoryTheorems.dfy`, `QueueTheorems.dfy`, `DepthTheorems.dfy`, `StoreReads.dfy` | what holds of every run and every reachable store |
| `Signing.dfy`, `SigningTheorems.dfy` | the gate composed with the machine: what is ever signed, sent, accepted or paid |
| `Attester.dfy` | the cycle as imperative code, proved to take only steps of the machine, so every theorem about runs is one about it |
| `Relayer.dfy`, `RelayerTheorems.dfy`, `RelayerProcess.dfy` | the relayer's state machine, its theorems, and its loops proved against it |
| `Packing.dfy`, `Gate.dfy`, `GateTheorems.dfy` | Circle's packed encodings with a decoder, the checks before signing, and what they are worth |
| `Evidence.dfy`, `Listener.dfy`, `LedgerTheorems.dfy` | the older listener's evidence assembly and submission, and its ledger over every run |

Each store transaction is one step of the machine, so a crash may fall between any two. An imperative
process keeps the whole run it has taken part in as ghost history and is proved to extend it only by machine
steps; `CrashAnywhere` says that a run cut anywhere and ended by a crash is a run again.

What lies outside the services enters as arbitrary choice: the clock (which does not go back), what Circle
accepts, drops, pays or answers, what a node returns, what an operator commands, and when a write or a read
fails.

### What is assumed of Circle and of operators

* The copy of a request that Circle answers with 400 was not accepted and will not be; earlier copies may have
  been (`Machine.LegalAnswer`).
* Circle reports an authorization as expired only when it has lapsed, and a lapsed one is never paid
  (`Machine.Truthful`, `Machine.Enabled`).
* An operator's claim that Circle did not accept a held withdrawal is true (`Machine.ClaimTrue`).

* Circle accepts one authorization, a burn's transfer hash, at most once, however often its request is sent,
  and accepts none again that has lapsed (`Machine.Enabled`). What is paid once is therefore paid by one
  authorization, and `RunTheorems.PaidOnce` says that a burn has only one such.

Nothing else is assumed: Circle may accept a request long after it was sent, may lose any reply and may name
any ID in a 409. For the relayer, readable message hashes are unique and a confirmed transaction's notes are on
chain. The hashes and the contract-call codec of the gate are parameters. One law of theirs is required where it
is needed, that the two contract calls have different selectors; hashes are not assumed free of collisions.

Where the store's documentation says that saving an outcome keeps a known withdrawal ID, the code writes the
ID it is given; the model follows the code, and `QueueTheorems.IdIsStable` proves that the ID given is always
the known one.

## Model

| member | source | states |
|---|---|---|
| RunTheorems.AtMostOneOpen | crates/xusdc-light-attester/src/submission.rs:128-221 | at any moment of any run at most one authorization of a burn is accepted and not expired, or can still be accepted |
| RunTheorems.PaidOnce | crates/xusdc-light-attester/src/store.rs:300-330 | over any whole run, with crashes, lost replies, conflicts, limit rejections and releases, the authorizations ever paid for one burn are one |
| RunTheorems.SnapshotsAreCurrent | crates/xusdc-light-attester/src/attester.rs:372-446 | every submission a cycle still has to work on, and the one in flight, equals its stored row, and every burn still to withdraw is still withdrawable, although commands run in between |
| RunTheorems.NoWriteConflicts | crates/xusdc-light-attester/src/store.rs:651-673 | no cycle write conflicts: an answer, a prepared burn and a due waiter's next retry are saved unless a deadline is out of range or a request names another burn, and a block exactly unless its notes clash |
| RunTheorems.TableReflectsChain | crates/xusdc-light-attester/src/attester.rs:459-526 | after any mix of partial scans, failures and restarts the burns table is the one the authenticated blocks determine |
| RunTheorems.EveryStoreReopens | crates/xusdc-light-attester/src/store.rs:1098-1176 | at every transaction boundary the store passes its own startup and load checks, and a held burn has no submission or an expired one |
| RunTheorems.ReadsAreExact | crates/xusdc-light-attester/src/store.rs:462-536 | in every reachable store the progress counts partition the consumed burns and paging lists every hold once |
| HistoryTheorems.HistoryJustifiesSigning | crates/xusdc-light-attester/src/store.rs:764-826 | between any two authorizations of one burn the run logged an identified expiry, an operator release, or the limit rejection of a first send whose request it deleted, despite de-duplicated outcomes |
| HistoryTheorems.LiveUntilAllowed | crates/xusdc-light-attester/src/store.rs:783-795 | a burn's request is live from its latest authorization exactly until such a row is logged |
| HistoryTheorems.ResendAllowsNothing | crates/xusdc-light-attester/src/store.rs:796-811 | a limit rejection of a resend is no such row and leaves the request live, since an earlier send may have been accepted |
| HistoryTheorems.StepAccounts | crates/xusdc-light-attester/src/store.rs:1031-1089 | a step ends a live request exactly when it logs such a row, and only signing makes one live |
| SigningTheorems.SignedIsVerified | crates/xusdc-light-attester/src/attester.rs:656-675 | every authorization ever logged carries the request of a response that the gate passed for that burn, so it delivers the burn |
| SigningTheorems.AcceptedIsVerified | crates/xusdc-light-attester/src/attester.rs:656-675 | whatever Circle has accepted, and so pays, is a logged transfer that the gate passed for that burn and that delivers it |
| Signing.CheckedByGate | crates/xusdc-light-attester/src/attester.rs:672-673 | what may be signed is exactly the request for a response the gate passed for this burn |
| RunTheorems.LogGrows | crates/xusdc-light-attester/src/store.rs:1031-1060 | the log of any run only grows |
| RunTheorems.RevisionIdentifiesHold | crates/xusdc-light-attester/src/store.rs:356-400 | if a note's largest sequence number is the same at two moments, so are its hold's kind and reason |
| RunTheorems.CheckedReleaseIsListed | crates/xusdc-light-attester/src/store.rs:356-400 | a checked release releases exactly the listed hold or answers that it changed; an unmoved one is released, given the non-acceptance flag for a withdrawal |
| QueueTheorems.NothingOvertakesAWaiter | crates/xusdc-light-attester/src/attester.rs:541-565 | while a burn waits, whatever is prepared or posted without a known ID is that burn or one before it |
| QueueTheorems.RefusalCoversTheRest | crates/xusdc-light-attester/src/attester.rs:572-592 | stopping at the first refused burn skips nothing: every later burn is refused too, whatever the time |
| QueueTheorems.AttemptsAreSpaced | crates/xusdc-light-attester/src/store.rs:741-756 | two attempts of a burn, the later while it waits, are at least the retry interval apart, across restarts |
| QueueTheorems.StepKeepsId | crates/xusdc-light-attester/src/store.rs:303-330 | no step changes or drops a saved ID, except signing over an identified expired withdrawal |
| QueueTheorems.IdIsStable | crates/xusdc-light-attester/src/submission.rs:178-279 | until a new authorization is logged, a row with an ID keeps its request and ID, is never held or released, and every call for it looks that ID up |
| DepthTheorems.SignedAtDepth | crates/xusdc-light-attester/src/store.rs:846-864 | in any run every burn ever authorized, or being prepared, was consumed at least the configured depth below the verified checkpoint |
| StoreReads.PagingIsLossless | crates/xusdc-light-attester/src/attester.rs:237-264 | following the pages of an unchanged store yields every held burn and withdrawal exactly once, in note order |
| StoreReads.HoldShowsItsOwnAnswer | crates/xusdc-light-attester/src/store.rs:463-484 | a held burn is listed with the answer that led to the hold it has, not to an earlier one |
| StoreReads.ProgressPartitions | crates/xusdc-light-attester/src/store.rs:867-905 | consumed burns are held, held at Circle, failed, finalized or unfinished, each counted once; pending and waiting ones are unfinished |
| Submission.ReplyDecides | crates/xusdc-light-attester/src/submission.rs:446-520 | a reply moves the status only as Circle's word for exactly this withdrawal says, or to held when a POST is refused |
| Submission.ConflictDecides | crates/xusdc-light-attester/src/submission.rs:415-443 | a 409 gives an ID exactly when it names this burn, or none, and the ID is well formed |
| SavedSubmission.Saved.Receive | crates/xusdc-light-attester/src/submission.rs:257-279 | the answer's evidence replaces the last one's; a lost answer clears it |
| SavedSubmission.Saved.Hold | crates/xusdc-light-attester/src/submission.rs:407-411 | the submission is held with its reason and message, and nothing else changes |
| SavedSubmission.Saved.ReadConflict | crates/xusdc-light-attester/src/submission.rs:415-443 | the assigned fields and the failure are those of the specified reading |
| SavedSubmission.Saved.ReadResponse | crates/xusdc-light-attester/src/submission.rs:446-520 | the assigned fields and the failure are those of the specified reading |
| StoreInvariant.SaveKeeps | crates/xusdc-light-attester/src/store.rs:303-330 | signing a withdrawable burn always succeeds, keeps the store, and logs one authorization |
| StoreInvariant.SavesOnlyOverExpired | crates/xusdc-light-attester/src/store.rs:300-330 | in any store a signed request replaces only an expired withdrawal with an ID, starts over, and is logged with its bytes |
| StoreInvariant.UpdateKeeps | crates/xusdc-light-attester/src/store.rs:651-698 | saving any legal successor of a row succeeds and keeps the store, logged or de-duplicated |
| StoreInvariant.LatestOutcomeIsCurrent | crates/xusdc-light-attester/src/store.rs:1062-1089 | however outcomes repeat, the latest one logged says the status, ID, HTTP status, error and Circle's word just saved |
| StoreInvariant.LimitKeeps | crates/xusdc-light-attester/src/store.rs:764-826 | a limit rejection of exactly the stored request succeeds and keeps the store, whichever attempt it answers |
| StoreInvariant.HoldKeeps | crates/xusdc-light-attester/src/store.rs:597-632 | holding a withdrawable burn succeeds, keeps the store and logs the hold |
| StoreInvariant.ReleaseKeeps | crates/xusdc-light-attester/src/store.rs:410-458 | a release changes only the released note, keeps the store and logs the release |
| StoreInvariant.RetryKeeps | crates/xusdc-light-attester/src/store.rs:741-756 | moving a waiter's retry succeeds and keeps the store |
| StoreInvariant.KeptStoreReopens | crates/xusdc-light-attester/src/store.rs:1205-1297 | every well-kept store passes the startup and load checks |
| StoreInvariant.HoldIsInHistory | crates/xusdc-light-attester/src/store.rs:1065-1089 | a note's hold is a function of its history alone, although repeated outcomes write no row |
| StoreInvariant.HoldIsReleasable | crates/xusdc-light-attester/src/store.rs:410-458 | every hold is releasable at its revision, given the flag for a withdrawal, and the release removes it and counts it once |
| Store.AttesterStore.AppendEvent | crates/xusdc-light-attester/src/store.rs:1031-1060 | a history row is the burn and submission as they stand, and is refused for an unknown burn |
| Store.AttesterStore.LatestSeq | crates/xusdc-light-attester/src/store.rs:366-372 | the largest sequence number of the note's history |
| Store.AttesterStore.LatestOutcomeRepeats | crates/xusdc-light-attester/src/store.rs:1065-1089 | the search by sequence numbers finds the latest outcome since the authorization as replaying the history does |
| Store.AttesterStore.SaveSubmission | crates/xusdc-light-attester/src/store.rs:303-330 | commits the specified store, or reports its error and leaves the store as it was |
| Store.AttesterStore.UpdateSubmissionOutcome | crates/xusdc-light-attester/src/store.rs:651-698 | commits the specified store, or reports its error and leaves the store as it was |
| Store.AttesterStore.AdvanceLimitRetry | crates/xusdc-light-attester/src/store.rs:741-756 | only a waiting burn's retry moves |
| Store.AttesterStore.RecordLimitRejection | crates/xusdc-light-attester/src/store.rs:764-826 | commits the specified store, or rolls back when the stored request is another |
| Store.AttesterStore.FirstLimitWait | crates/xusdc-light-attester/src/store.rs:715-735 | the waiting burn before all other waiting ones in withdrawal order, if any waits |
| Store.AttesterStore.HoldBurn | crates/xusdc-light-attester/src/store.rs:597-632 | the burn is held, stops waiting, and the hold is logged with its evidence |
| Store.AttesterStore.ReleaseHold | crates/xusdc-light-attester/src/store.rs:410-458 | a burn's hold goes before a withdrawal's; a withdrawal's needs the flag; otherwise nothing changes |
| Store.AttesterStore.ReleaseHolds | crates/xusdc-light-attester/src/store.rs:336-348 | the named holds, each once and in note order, are all released or none is |
| Store.AttesterStore.ReleaseChecked | crates/xusdc-light-attester/src/store.rs:356-400 | releases only at the listed revision, with each refusal's own error |
| Store.AttesterStore.HoldsPage | crates/xusdc-light-attester/src/store.rs:462-536 | the first rows after the cursor in note order, one more than a page, each with its revision and Circle's answer |
| Store.AttesterStore.SubmissionsWith | crates/xusdc-light-attester/src/store.rs:1205-1263 | exactly the rows with the status, in note order, unless one fails its checks |
| Store.AttesterStore.BurnsReady | crates/xusdc-light-attester/src/store.rs:846-864 | exactly the withdrawable burns at a safe depth, in withdrawal order |
| Store.AttesterStore.CandidateByNullifier | crates/xusdc-light-attester/src/store.rs:287-298 | the saved, unconsumed note with the nullifier, if there is one |
| Store.AttesterStore.SaveScanProgress | crates/xusdc-light-attester/src/store.rs:909-939 | one block's candidates, burns and checkpoint are all saved or none is |
| Discovery.SavesBlock | crates/xusdc-light-attester/src/store.rs:1417-1465 | a block is saved exactly when its new notes clash with nothing and no saved note is spent twice in it, and then gives the table the block calls for |
| Discovery.SavingReflects | crates/xusdc-light-attester/src/attester.rs:823-869 | saving the next block extends the declarative table: first publication, and first strictly later faucet spend |
| Discovery.ChainDeterminesTable | crates/xusdc-light-attester/src/attester.rs:459-508 | two stores that reflect the same chain agree on every discovered column |
| Discovery.BlockKeeps | crates/xusdc-light-attester/src/store.rs:909-939 | saving a block keeps the store |
| Machine.RetryAt | crates/xusdc-light-attester/src/config.rs:250-261 | the whole second at or after now plus the interval, within one second of it, or nothing when out of range |
| MachineInvariant.AllowedIsAhead | crates/xusdc-light-attester/src/attester.rs:541-565 | an allowed burn is before every waiting one; if it waits itself it is due and its next retry is saved first |
| MachineAnswers.ResponseIsSuccessor | crates/xusdc-light-attester/src/submission.rs:446-520 | any reply to a live submission keeps its request and its ID once it has one, and holds it only without an ID |
| MachineAnswers.ExpiredIsLapsed | crates/xusdc-light-attester/src/submission.rs:488-520 | a submission becomes expired only when exactly its authorization has lapsed |
| MachineAnswers.FirstRejectedIsClosed | crates/xusdc-light-attester/src/store.rs:783-795 | a rejected first send leaves nothing of its burn open at Circle, so its request may be deleted |
| MachineAnswers.AnswerSettles | crates/xusdc-light-attester/src/submission.rs:178-221 | settling an answer succeeds unless the retry deadline is out of range, and re-establishes the invariant |
| MachineAnswers.StepKeeps | crates/xusdc-light-attester/src/attester.rs:372-402 | every step of the machine keeps the invariant |
| MachineAnswers.RunKeeps | crates/xusdc-light-attester/src/attester.rs:294-328 | every world of every run meets the invariant |
| Attester.Process.AdminCheckpoint | crates/xusdc-light-attester/src/attester.rs:194-284 | operator commands change only the store, by release steps |
| Attester.Process.ListHolds | crates/xusdc-light-attester/src/attester.rs:237-264 | one page of the holds and the next cursor; a well-kept store always answers |
| Attester.Process.ReleaseOffline | crates/xusdc-light-attester/src/attester.rs:691-699 | the named holds are all released or none is; when what the command says about Circle is true, that is one step of the machine |
| Attester.Process.SendSavedRequest | crates/xusdc-light-attester/src/submission.rs:223-279 | a request without an ID puts one copy of its authorization in flight; nothing is written before the answer is saved |
| Attester.Process.RecordAnswer | crates/xusdc-light-attester/src/submission.rs:178-221 | the store after an answer is the settled one, or unchanged when the cycle ends |
| Attester.Process.AdvanceSubmission | crates/xusdc-light-attester/src/submission.rs:178-221 | sends, saves, and after a 409 with an ID checks it, by machine steps only |
| Attester.Process.AllowedByLimit | crates/xusdc-light-attester/src/attester.rs:541-565 | answers and writes exactly what the machine's limit rule says |
| Attester.Process.AdvanceSubmissions | crates/xusdc-light-attester/src/submission.rs:155-174 | the listed submissions are tried in order by machine steps only; unless Circle answers 429 it was asked about each of them, by its ID when known, but for those without an ID that the limit queue refused |
| Attester.Process.AttemptWithdrawal | crates/xusdc-light-attester/src/attester.rs:622-675 | preparing ends in a wait, a hold, a retry next cycle or a saved and sent request that the gate passed for this burn, by machine steps only |
| Attester.Process.SettleFailure | crates/xusdc-light-attester/src/attester.rs:777-800 | a limit rejection leaves a wait, another 400 or a burn too small a hold with its reason, and any other failure nothing |
| Attester.Process.SubmitSigned | crates/xusdc-light-attester/src/submission.rs:128-150 | the signed request is saved before it is first sent |
| Attester.Process.SubmitWithdrawals | crates/xusdc-light-attester/src/attester.rs:572-592 | the ready burns are attempted in order by machine steps only; unless Circle answers 429, up to the first one the limit queue refused |
| Attester.Process.FindBurnsInBlock | crates/xusdc-light-attester/src/attester.rs:823-869 | the block's new burn notes, and the saved notes its faucet transactions spend |
| Attester.Process.SaveBlock | crates/xusdc-light-attester/src/attester.rs:501-508 | one block is one step, or nothing changes |
| Attester.Process.Startup | crates/xusdc-light-attester/src/attester.rs:165-177 | a new store saves the pinned anchor as its first checkpoint |
| Attester.Process.DiscoverBurns | crates/xusdc-light-attester/src/attester.rs:459-497 | blocks are scanned in order from the checkpoint, each its own step; success means every block the node reported is authenticated, unless the node is short of the anchor |
| Attester.WorkBeginsWithASnapshot | crates/xusdc-light-attester/src/attester.rs:380-384 | wherever a run begins a cycle's work, the work is a snapshot of the store as it stands |
| Attester.Process.TakeSnapshot | crates/xusdc-light-attester/src/attester.rs:441-446 | the work of a cycle is read in one step, before anything changes it |
| Attester.Process.Cycle | crates/xusdc-light-attester/src/attester.rs:372-402 | whatever a cycle meets, it takes only steps of the machine and ends idle; one that finishes took a snapshot and worked through it to the end |
| Attester.CrashAnywhere | crates/xusdc-light-attester/src/attester.rs:501-508 | a run cut anywhere and ended by a crash is a run |
| RelayerTheorems.ScanCoversTheFeed | crates/xreserve-deposit-relayer/src/lib.rs:219-450 | in every reachable saved state everything at or older than the watermark is handled, and everything from a saved head down to the entry its cursor names |
| RelayerTheorems.WatermarkMovesUp | crates/xreserve-deposit-relayer/src/lib.rs:295-334 | every saved watermark is the same as or newer than each before it |
| RelayerTheorems.CaughtUpScansAreIdle | crates/xreserve-deposit-relayer/src/lib.rs:380-449 | once a walk completed, scans of the same feed submit nothing and leave the saved state equal, even with unreadable entries above the watermark |
| RelayerTheorems.SeenIsHandled | crates/xreserve-deposit-relayer/src/lib.rs:303-323 | once a walk has completed, everything in the feed at its head page is handled, unreadable entries included |
| RelayerTheorems.StepKeeps | crates/xreserve-deposit-relayer/src/lib.rs:295-450 | every step, failure and restart keeps the coverage invariant |
| Relayer.PageExtends | crates/xreserve-deposit-relayer/src/lib.rs:303-316 | a page that leaves more to walk extends the handled stretch from the head down to its cursor |
| Relayer.PageCompletes | crates/xreserve-deposit-relayer/src/lib.rs:303-323 | a page that ends the walk makes its head a watermark with everything below it handled |
| Relayer.FreshCount | crates/xreserve-deposit-relayer/src/lib.rs:383-388 | the entries above the watermark, which ends them if it is on the page |
| Relayer.Newest | crates/xreserve-deposit-relayer/src/lib.rs:441-442 | the newest readable hash, with nothing readable above it |
| Relayer.Built | crates/xreserve-deposit-relayer/src/mint.rs:130-160 | exactly the deposits of the entries that build, in page order |
| Relayer.Unminted | crates/xreserve-deposit-relayer/src/miden.rs:288-320 | exactly the nonces not yet used, in order |
| RelayerProcess.WaitForInclusion | crates/xreserve-deposit-relayer/src/miden.rs:364-424 | the wait ends at its first deciding round: on chain, never to land, an actionable failure, or three failed syncs in a row |
| RelayerProcess.FindWatermark | crates/xreserve-deposit-relayer/src/lib.rs:383-388 | where the watermark stands on the page |
| RelayerProcess.BuildNotes | crates/xreserve-deposit-relayer/src/mint.rs:130-160 | every entry becomes a note or is skipped, in order |
| RelayerProcess.KeepUnminted | crates/xreserve-deposit-relayer/src/miden.rs:305-316 | keeps the unused nonces in order |
| RelayerProcess.Relay.SubmitNotes | crates/xreserve-deposit-relayer/src/miden.rs:336-424 | returns success only with the notes on chain |
| RelayerProcess.Relay.ProcessPage | crates/xreserve-deposit-relayer/src/lib.rs:357-450 | a page that succeeds is on chain above the watermark, and yields the specified outcome, by machine steps only |
| RelayerProcess.Relay.FinishPage | crates/xreserve-deposit-relayer/src/lib.rs:295-334 | progress is saved only after the page, a failure leaves the saved state, and the cursor moves strictly down |
| RelayerProcess.Relay.Scan | crates/xreserve-deposit-relayer/src/lib.rs:219-241 | a scan ends, stops at a shutdown before or after a page, takes only steps of the machine, and when one that began afresh completes, everything that was in the feed when it began is handled |
| RelayerProcess.CrashAnywhere | crates/xreserve-deposit-relayer/src/store.rs:91-131 | a run cut anywhere is a run that can stop there |
| Packing.BigEndianRoundTrip | crates/xusdc-light-attester/src/verify.rs:604-610 | a number that fits its width reads back |
| Packing.HookRoundTrip | crates/xusdc-light-attester/src/verify.rs:553-563 | hook data reads back from its encoding |
| Packing.SpecRoundTrip | crates/xusdc-light-attester/src/verify.rs:613-634 | a transfer spec reads back from its encoding |
| Packing.IntentRoundTrip | crates/xusdc-light-attester/src/verify.rs:644-650 | a burn intent, its spec included, reads back from its encoding |
| Packing.DecodedIsCanonical | crates/xusdc-light-attester/src/verify.rs:347-352 | whatever decodes is the one encoding of what it decodes to |
| Packing.EncodingsAreInjective | crates/xusdc-light-attester/src/verify.rs:347-352 | equal bytes mean equal fields |
| Packing.AppendWithLength | crates/xusdc-light-attester/src/verify.rs:604-610 | appends the length and the bytes, or refuses what a u32 cannot count |
| Packing.WriteHook | crates/xusdc-light-attester/src/verify.rs:553-563 | the extended buffer is the encoding |
| Packing.WriteSpec | crates/xusdc-light-attester/src/verify.rs:613-634 | the extended buffer is the encoding |
| Packing.WriteIntent | crates/xusdc-light-attester/src/verify.rs:644-650 | the extended buffer is the encoding |
| Gate.CeilingIsExact | crates/xusdc-light-attester/src/verify.rs:326-329 | the U256 fee ceiling wraps for no input |
| Gate.DecimalReadsShow | crates/xusdc-light-attester/src/verify.rs:570-576 | the decimal parser reads back every U256 |
| Gate.MalformedExactly | crates/xusdc-light-attester/src/verify.rs:578-602 | a helper of the two results below: parsing finds no malformed field exactly when every field parses |
| GateTheorems.CctpLegExactly | crates/xusdc-light-attester/src/verify.rs:380-437 | a helper of VerifiedDelivers and QuoteVerdict: the checks of the forwarded leg, flattened |
| GateTheorems.RedepositLegExactly | crates/xusdc-light-attester/src/verify.rs:461-529 | a helper of VerifiedDelivers and QuoteVerdict: the checks of the redeposit leg, flattened |
| GateTheorems.AmountsExactly | crates/xusdc-light-attester/src/verify.rs:321-333 | the U256 amount checks neither overflow nor saturate: they are the integer ones |
| GateTheorems.VerifiedDelivers | crates/xusdc-light-attester/src/verify.rs:253-374 | what gets signed, read back from Circle's own bytes: payout plus fee is the burn, and at least one unit and at least the burn less the ceiling reaches the burn's domain and recipient, on all three routes |
| GateTheorems.VerifiedIsSupported | crates/xusdc-light-attester/src/config.rs:460-468 | a remote destination is signed for only if supported and capped, and then only as a redeposit with that cap |
| GateTheorems.HashNamesBurn | crates/xusdc-light-attester/src/verify.rs:636-640 | verified withdrawals with one transfer hash are one transfer of one burn note, or their packed specs are two byte strings that hash alike |
| GateTheorems.ParsesBack | crates/xusdc-light-attester/src/verify.rs:578-602 | parsing reads back the intent and hook a reply was made from |
| GateTheorems.QuoteVerdict | crates/xusdc-light-attester/src/verify.rs:318-374 | a consistent quote passes exactly when it is bound to the burn and its four numbers fit, and otherwise fails with the error its numbers call for |
| GateTheorems.HonestQuotePasses | crates/xusdc-light-attester/src/verify.rs:253-374 | an honest direct quote passes for every burn, as soon as its fee is below the burn and within the ceiling |
| Evidence.AssembleEvidence | crates/withdrawal-listener-attester/src/evidence.rs:188-313 | the loops compute the specified package or error |
| Evidence.PackageExactly | crates/withdrawal-listener-attester/src/evidence.rs:188-313 | a package exists exactly when the public note was observed spent after its creation and one transaction, with one story, consumed it in that block |
| Evidence.EvidenceIgnoresOrder | crates/withdrawal-listener-attester/src/evidence.rs:239-300 | any permutation of the node's rows gives the same package or the same error |
| Listener.SubmitLedger.ClaimBurns | crates/withdrawal-listener-attester/src/idempotency/store.rs:176-225 | every key is claimed, or none and the ledger is unchanged; refused exactly when a key is accounted for |
| Listener.SubmitLedger.Transition | crates/withdrawal-listener-attester/src/idempotency/store.rs:401-435 | a burn moves only along an edge of the status machine, and a known ID is not erased |
| Listener.SettleCreated | crates/withdrawal-listener-attester/src/submit.rs:326-366 | every pairing is checked before any is written |
| Listener.RecoverConflict | crates/withdrawal-listener-attester/src/submit.rs:383-463 | a conflict settles the one burn it names and blocks the others |
| Listener.SettleFailure | crates/withdrawal-listener-attester/src/submit.rs:471-483 | a 400 frees the burns, anything else blocks them |
| Listener.BlockOthers | crates/withdrawal-listener-attester/src/submit.rs:520-527 | every other burn is blocked without an ID |
| Listener.PositionOf | crates/withdrawal-listener-attester/src/submit.rs:539-543 | the first burn an echo names, ignoring case |
| Listener.SubmitWithdraw | crates/withdrawal-listener-attester/src/submit.rs:231-279 | one POST at most, none for a duplicate or a burn accounted for; the answer settles every claimed burn unless a ledger write fails; even then a posted burn can be claimed again only after a 400; the ledger condition is kept |
| Listener.EveryAnswerSettles | crates/withdrawal-listener-attester/src/submit.rs:326-527 | no answer leaves a claimed burn pending; an ID is recorded only on the burn Circle named; a burn is final only if its own withdrawal was polled final |
| LedgerTheorems.PostedOnce | crates/withdrawal-listener-attester/src/idempotency/store.rs:176-225 | over any run of submissions, crashes and later moves on one ledger, a burn is posted again only if every earlier post of it was refused with a 400 |
| Listener.AcceptedIsABijection | crates/withdrawal-listener-attester/src/submit.rs:326-366 | an accepted 201 pairs statuses and burns one to one |

## Left out

- SQLite, migrations, byte codecs of rows, file locks and the temp-file rename: a store is maps, a log and atomic transactions, and a failed write is a crash before it.
- HTTP, JSON and `Link` parsing, request pacing and response size limits: a reply is the views the code decodes from it, a page is any stretch of the feed.
- keccak, EIP-712 hashing, the ABI codec, hexadecimal parsing, KMS signing and the two signatures: parameters of the gate.
- Miden block validation, note structure and account code: a block is authentic or not, an output note is a burn of the faucet or not.
- The wording of the error saved for an unexpected HTTP status, which repeats the status kept beside it, and how Circle's messages are cut and put on one line for a listing.
- The offline listing of holds, the oldest unfinished burn in the progress, timestamps, telemetry, log lines and failure classes.
- The admin socket, command deadlines, shutdown timing, pauses between cycles and the doubling after a 429.
- Configuration parsing and startup checks other than the store's own, and a restart with other settings: the retry interval, the limit's prefix, the depth and the gate's settings are those of the whole run.
- The comparison of the saved checkpoint with the node's block: its answer is arbitrary, since it writes nothing.
- The relayer's in-memory list of unminted deposits, its page-size cap after an expired submission, and its prover.
- Bounded retries of a 5xx inside one submission of the older listener: the retry loop counts as one POST.
- The older listener's signature quorum, authorization posture, evidence labels and ledger timestamps.
- SavedSubmission.Saved.ReadResponse: does not spell out the HTTP status in the error text of an unexpected one, as said above.
- Attester.Process.AdminCheckpoint: does not take a release whose non-acceptance claim is false, because the safety results rest on that claim being true.
