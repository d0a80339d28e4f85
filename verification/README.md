# RedDotRelay: a verified model

RedDotRelay follows a reorganising EVM chain, stores the decoded events together with their outbox rows in
SQLite, and delivers them to webhooks under leases. Operators backfill old ranges, skip a scanner to the head,
prune old events, and export, import and replace the configuration while everything runs. This project models
that behaviour in Dafny and proves what it is for: the stored events are exactly the configured logs of the
checkpoint's ancestry under any reorganisation, leases fence, backfills cover their range once, a skip never
races a live scanner, and configurations survive their round trips.

`dafny verify dfyconfig.toml` checks all of it.

## How it is built

SQLite runs on one connection, so each store call is one atomic step over maps, and a call that fails leaves
the state unchanged. The model has two layers:

* classes and methods with the loops, branches and error paths of the source (`Storage.Store`,
  `Scanning.Scanner`, `DeliveryWorker.Worker`, `RetentionService.Service`, `BackfillWorker.JobStore`,
  `BackfillWorker.Worker`, `SkipStore.Registry`, `Runtime.Manager`, `ListenerStore.Configurations`, and the
  loops of `Fetch`, `Backoff` and `Transfer`);
* specification functions of the same transactions on values (`Ledger`, `Outbox`, `Retention`, `Backfill`,
  `ListenerRows`), over which whole runs are sequences of steps (`ScannerRuns`, `MixedRuns`, `OutboxRuns`,
  `Backfill`, `SkipProtocol`).

The methods are proved against the functions. What a function writes is in turn stated field by field, in contracts
and lemmas that do not name it: `FreshRow`, `LeasedRow`, `Transitioned`, `Revived`, `Handled`, `Recorded`, `Saved`,
`Cut`, `OldestGone` and `Shows` say what the new rows contain, `DueEarlier` and `Older` what the queries order by, and
`SaveBatchOkIff`, `BackfillOkIff` and `ReplaceOkIff` when a transaction goes through. The operations that run through a
machine return their trace in it: `ScanOnce` in `ScannerRuns`, `DrainOnce` in `OutboxRuns`, `RunOne` in `Backfill`. For `SkipProtocol`, the
contracts of `Registry.Mutate` and `Registry.SkipScannerToHead` say which step a committing call is, and
`SkipAgreement` builds the trace of every reconcile pass from the contract of `Manager.Reconcile`.

The chain is a block DAG in which a hash determines number, parent and logs (`Chain`). A provider is a record of
functions of the time of each call (`Provider.Rpc`), so its replies may fail, contradict each other or follow any
reorganisation between two calls. `Provider.Honest` says that each reply is true of the view the provider has at
that call; results that do not mention it hold for every provider.

Decoding and routing are fixed functions (`Records.Decoder`). Clocks, tokens, webhook replies, build results and
cancellations are parameters. Hashes, addresses and texts that are only compared are numbers; integers of a fixed
width are written out where the width matters (`Common`). The retries of a single remote call are part of its
reply.

## What turned out to be false, and exactly when it holds

* A reorganisation inside one fetch can make it accept a batch that misses logs
  (`MidFetch.MidFetchReorgLosesLogs`), or a block that seems to descend from the checkpoint and does not, because
  the end header and the end hash are two calls (`MidFetch.MidFetchReorgMixesBranches`); the provider is honest in
  both. The comparison of the end hash at internal/scanner/scanner.go:518 cannot fail, since every branch stores
  that very hash first. Which batches are genuine is decided by two conditions on views and call times alone: the
  block whose hash is read and the block whose parent is read have the same parent, and the log query is answered
  from the blocks with wanted logs whose hashes are read (`FetchTruth.TrueBlocksIffParentsAgree`,
  `FetchTruth.CompleteIffLogViewHolds`, `FetchTruth.GenuineIff`). The theorems about whole runs assume of each
  commit exactly these two conditions; a view that stands still for the fetch meets them.
* Hash agreement between stored events and retained blocks fails when a backfill ran ahead of the checkpoint
  (`MixedRuns.BackfillAheadDisagrees`); a commit keeps it if and only if no stored event contradicts the blocks it
  is about to retain (`MixedRuns.CommitAgreesIff`).
* `Worker.backoff` is the capped exponential delay if and only if no doubling lands one short of the maximum
  (`Backoff.WorkerBackoff`, `Backoff.WorkerBackoffOvershoots`); `boundedBackoff` always is.
* The range test of `prepareBackfill` means what it says if and only if it is not asked for all 2^64 blocks
  (`Backfill.RangeTestIff`).
* A listener that the store's own validation admits comes back from a replacement with only new timestamps if and
  only if no direct URL in it looks like a secret reference (`ListenerRows.ValidatedComesBackIff`,
  `ListenerRows.UrlBecomesReference`). The management API refuses such URLs
  (cmd/reddotrelay/management.go:605 and :673), so the input reaches the store only past that check.
* A surviving row need not keep its creation time: one map keyed by id is filled from six tables, and nothing keeps
  the ids of different kinds apart (`ListenerRows.CreationTimeIsLost`). It keeps its time if and only if the last
  table that holds its id holds that time, a zero time counting as the current one
  (`ListenerRows.CreationTimeKeptIff`); where rows that share an id share a time, all times are kept and this stays
  so (`ListenerRows.SharedTimesAreKept`). The API draws fresh ids, so the input reaches the store only through its
  exported methods.
* With a reorg depth above 99999 every fork ends in an error and nothing is undone (`Scanning.Scanner.Recover`).

## Model

| member | source | states |
|---|---|---|
| `Common.BatchEndDoesNotWrap` | internal/scanner/scanner.go:305-309 | the wrapping 64-bit computation of a batch end always equals the wide one, stays in range and within the batch size |
| `Fetch.Deduplicate` | internal/scanner/scanner.go:586-615 | succeeds iff equal identities carry equal logs; the result is sorted by block number and log index, one log per identity, and has exactly the given logs, field by field |
| `Fetch.MatchFilter` | internal/scanner/scanner.go:571-584 | a log is wanted iff its address is listed, or none is, and every position with topics carries one of them |
| `Fetch.CanonicalHeadersSequential` | internal/scanner/batch.go:48-62 | one call per height in order; fails iff a call fails; otherwise exactly the replies |
| `Fetch.CanonicalHeadersByNumber` | internal/scanner/batch.go:13-46 | a batch reply counts only if it names exactly the requested heights with non-empty hashes; unsupported batches fall back to single calls |
| `Fetch.FetchVerifiedBatch` | internal/scanner/scanner.go:419-551 | returns a batch iff every header was read, every log is valid and in its accepted block, the blocks link to each other and to the expected parent, and no logs conflict; the batch is exactly those replies |
| `FetchTruth.AcceptedShape` | internal/scanner/scanner.go:451-551 | whatever the provider says, an accepted batch is a consecutive hash-linked run from the expected parent, its logs sorted, distinct and each in its block |
| `FetchTruth.TrueBlocksIffParentsAgree` | internal/scanner/scanner.go:421-508 | with an honest provider, the accepted blocks are a run of the true chain iff at every height the block whose hash is read and the block whose parent is read have the same parent |
| `FetchTruth.CompleteIffLogViewHolds` | internal/scanner/scanner.go:419-551 | an accepted batch misses no wanted log iff, at every height where the view has a block with one when its hash is read, the log query is answered from that block |
| `FetchTruth.GenuineIff` | internal/scanner/scanner.go:419-551 | an accepted batch is a true run with exactly its wanted logs iff both conditions on views and call times hold |
| `FetchTruth.StableFetchIsGenuine` | internal/scanner/scanner.go:419-551 | on a view that stands still for the fetch, the batch is a true run of that view with exactly its wanted logs |
| `FetchTruth.PathsAgree` | internal/scanner/scanner.go:461-508 | batch call, its fallback, single-call and two-call paths return the same batch on the same view, for any two honest providers |
| `FetchProgress.ServingAcceptsIff` | internal/scanner/scanner.go:419-551 | on a standing honest view with every call answered, and on every header path, the fetch accepts iff the first block's parent is the expected one |
| `FetchProgress.PathsAcceptTogether` | internal/scanner/scanner.go:461-508 | providers of any kind that serve one view accept the same ranges |
| `MidFetch.MidFetchReorgLosesLogs` | internal/scanner/scanner.go:421-442 | an honest provider whose view changes between the header reads and the log query makes a fetch accept an incomplete batch |
| `MidFetch.MidFetchReorgMixesBranches` | internal/scanner/scanner.go:421-437 | an honest provider whose view changes between the end header and the end hash makes a fetch accept a block with another branch's parent |
| `Exactness.PreparedEvents` | internal/decoder/processor.go:43-75 | an event is prepared, with the time of the batch, iff a log of the batch decodes to it |
| `Ledger.PrepareOkIff` | internal/decoder/processor.go:43-75 | a batch is prepared iff each log decodes or is not configured, and each decoded event has a route |
| `Exactness.CommitKeepsExact` | internal/store/sqlite/store.go:607-671 | committing a genuine batch that follows the checkpoint keeps events and history exactly those of the new checkpoint's ancestry |
| `Exactness.RewindKeepsExact` | internal/store/sqlite/store.go:693-718 | rewinding to a retained block keeps events and history exactly those of that block's ancestry |
| `Exactness.ResetEmpties` | internal/store/sqlite/store.go:862-897 | a reset to the start block succeeds on every exact ledger and leaves nothing |
| `Exactness.CheckpointDeterminesEvents` | internal/scanner/scanner.go:262-417 | two exact ledgers with one checkpoint store the same events, whatever batch size, confirmations and reorg depth |
| `ScannerRuns.EveryRunIsExact` | internal/scanner/scanner.go:262-417 | in every run of commits, rewinds, resets and delivery work whose fetches meet the two exact conditions, under otherwise arbitrary reorganisations, the stored events are exactly the configured logs of the checkpoint's ancestors from the start block on, each with exactly its routed outbox rows |
| `ScannerRuns.RunsWithOneCheckpointAgree` | internal/scanner/scanner.go:262-417 | incremental scanning refines a scan from scratch: any two runs that end at one checkpoint store the same events and the same outbox keys |
| `Scanning.Scanner.Process` | internal/decoder/processor.go:43-75 | succeeds iff the batch decodes, routes and is accepted by the store, and then commits it as a whole; otherwise nothing changes; each outbox row it adds is for a routed destination of its stored event, with that destination's authentication, due now, pending, unleased and unattempted |
| `Scanning.Scanner.FindCommon` | internal/scanner/scanner.go:380-399 | finds the first listed block that a standing view still holds, skipping those above its head, or none when it holds none |
| `Scanning.Scanner.Recover` | internal/scanner/scanner.go:375-416 | on a standing honest view: a rewind to the highest retained common block, a reset iff there is none; an error changes nothing; always an error when the history limit is exceeded |
| `Scanning.Scanner.ResumeBlock` | internal/scanner/scanner.go:345-417 | waits when the provider is behind, goes on when the checkpoint is on the view, otherwise recovers; the result is the position after the new checkpoint |
| `Scanning.ForkIsUndone` | internal/scanner/scanner.go:369-416 | undoing a fork deletes exactly the events of orphaned blocks and stops at the last block the old chain and the view share; without a retained block on the view everything goes |
| `Scanning.Scanner.ScanUpTo` | internal/scanner/scanner.go:296-330 | the batches follow each other without wrap, each within the batch size and the confirmed head; the loop terminates, success leaves the checkpoint at the confirmed head, and it fails only at a batch that is not accepted or cannot be stored |
| `Scanning.Scanner.ScanOnce` | internal/scanner/scanner.go:262-331 | every call, failed or not, is a run of issued steps: at most one recovery, which the replies justify, then commits within the batch size and at or below the confirmed head; without a head that reaches the confirmations there is no step; the checkpoint ends at or below the confirmed head or the old checkpoint; on a standing honest view that is at or past the old checkpoint, success leaves the exact events up to a checkpoint on that view, at or past the confirmed head if that is at or past the start block; it fails only for a named cause, and when every call is answered only because a batch does not decode, does not route or is refused by the store |
| `Scanning.Scanner.FetchRange` | internal/scanner/scanner.go:334-343 | succeeds iff the range fits the batch size, the chain id matches and the fetch accepts; returns the deduplicated logs |
| `Storage.Store.SaveBatch` | internal/store/sqlite/store.go:607-671 | events, outbox rows, history and checkpoint commit together, or the first error leaves everything as it was; the rows added are those given, outbox rows fresh and only for new events; the history gains the blocks and loses what is below the retained window; the checkpoint never moves back |
| `Ledger.SaveBatchOkIff` | internal/store/sqlite/store.go:607-671 | a batch over consecutive blocks is stored iff nothing is out of range, no two events of one identity differ, every delivery names a given event, and no hash stands at another height |
| `Storage.Store.RewindCanonical` | internal/store/sqlite/store.go:693-718 | deletes exactly the events, outbox rows and history from a height on and puts the checkpoint on the block below it |
| `Storage.Store.ResetFrom` | internal/store/sqlite/store.go:862-897 | deletes exactly the events, outbox rows and history from a height on and forgets the checkpoint; an error when there is none |
| `Ledger.NewestIsWhole` | internal/store/sqlite/store.go:673-691 | a history within its window is read whole by the bounded descending query |
| `Ledger.InsertEventsAdds` | internal/store/sqlite/store.go:720-774 | inserting keeps every stored row, stores every given event, and reports exactly the new identities |
| `Ledger.InsertDeliveriesAdds` | internal/store/sqlite/store.go:633-643 | outbox rows are added for exactly the proposed destinations of newly stored events, each with the given authentication and due time, pending, unleased and unattempted; none is altered |
| `Routing.CommitKeepsRouted` | internal/decoder/processor.go:43-75 | an event commits with exactly its routed outbox rows, and rows that exist are not touched |
| `Routing.CommitAddsRowsAsRouted` | internal/decoder/processor.go:60-72 | every outbox row a commit adds belongs to a new event and carries locator and authentication of a routed destination, due at the time of the commit |
| `Routing.ReplayAddsNothing` | internal/store/sqlite/store.go:621-643 | replaying a batch over stored events adds and alters no event and no outbox row |
| `Routing.CommitThenReplay` | internal/store/sqlite/store.go:621-643 | a committed batch always replays as a no-op |
| `Routing.BackfillStoresEvents` | internal/store/sqlite/backfill.go:184-214 | a backfill stores events as a live batch would and counts each as created or duplicate |
| `Routing.BackfillOkIff` | internal/store/sqlite/backfill.go:184-214 | a backfill batch is stored iff no event is out of range, contradicts a stored or given one, or lies at a height where the retained history has another block |
| `Routing.BackfillCountsCreated` | internal/store/sqlite/backfill.go:195-205 | the created count is the number of new identities |
| `Routing.BackfillCountsDeliveries` | internal/store/sqlite/backfill.go:195-213 | the delivery count is the number of items whose event the backfill created |
| `Routing.BackfillAddsDeliveries` | internal/store/sqlite/backfill.go:195-213 | each event a backfill creates gets exactly its proposed outbox rows, all fresh; stored rows are unchanged |
| `Routing.BackfillReplayAddsNothing` | internal/store/sqlite/backfill.go:184-214 | replaying a backfill batch counts only duplicates and changes nothing |
| `MixedRuns.EveryMixedRun` | internal/store/sqlite/scanner_skip.go:82-100 | in every run of scans, rewinds, resets, skips and backfills at or below the checkpoint, for any provider: no retained block above the checkpoint, all within the reorg depth, events agree with retained hashes; without skips the history is gapless and hash-linked |
| `MixedRuns.PrunesAgree` | internal/store/sqlite/scanner_skip.go:96-100 | the scan's prune and the skip's prune keep the same rows |
| `MixedRuns.CommitAgreesIff` | internal/store/sqlite/store.go:644-666 | a commit keeps the hash agreement iff no stored event contradicts a block it retains |
| `MixedRuns.BackfillAheadDisagrees` | internal/store/sqlite/backfill.go:184-194 | a backfill ahead of the checkpoint followed by a commit breaks the agreement |
| `Storage.Store.ClaimDueDeliveries` | internal/store/sqlite/store.go:1094-1172 | leases exactly the earliest due rows in order of due time, transaction, log index and destination, at most the limit; a due row is left only when the limit is reached; each claimed row is due again after the lease, counted, and under its own token; no other row changes |
| `Storage.Store.Transition` | internal/store/sqlite/store.go:1297-1346 | changes a row iff the token is non-empty, is the row's lease, and the row is pending; success, retry and giving up each write status, times, error and status code as asked, end the lease and keep the counters |
| `Storage.Store.RequeueDeadDeliveryAudited` | internal/store/sqlite/deliveryaudit.go:16-62 | revives exactly dead rows, due at once, unleased and with no attempts counted, and records the attempts it erases |
| `Storage.Store.RequeueAllDead` | internal/store/sqlite/store.go:1009-1022 | revives every dead row, due at once, and changes no other |
| `Outbox.SelectedIsDue` | internal/store/sqlite/store.go:1107-1125 | the claim query yields distinct due rows, at most the limit |
| `Outbox.SelectedAreEarliest` | internal/store/sqlite/store.go:1110-1115 | a due row is passed over only when the limit is reached, and only behind rows due earlier, or at the same time and first by identity and destination |
| `Outbox.SelectedInOrder` | internal/store/sqlite/store.go:1110-1115 | the claimed rows come in the order of due time, transaction, log index and destination |
| `Outbox.ClaimAllLeases` | internal/store/sqlite/store.go:1139-1166 | a claim leases each selected row once, with its own token, and leaves the rest |
| `OrderBy.TakeIsTheQuery` | internal/store/sqlite/store.go:1056-1089 | the ordered, limited query: that many rows, ascending, distinct, none left out below one taken |
| `OutboxRuns.RunKeepsInv` | internal/store/sqlite/store.go:1094-1346 | in every run a leased row carries its holder's attempt count and an unleased pending row has attempts left |
| `OutboxRuns.EachTokenResolvesOnce` | internal/store/sqlite/store.go:1297-1346 | with fresh tokens, each token resolves at most one delivery in every run |
| `OutboxRuns.SpentTokensAreFenced` | internal/store/sqlite/store.go:1326-1346 | a resolved or superseded token changes nothing at any later point of any run |
| `OutboxRuns.TakeoverSupersedes` | internal/store/sqlite/store.go:1139-1166 | claiming a row spends every earlier token of that row |
| `OutboxRuns.ClaimsAreALeaseApart` | internal/store/sqlite/store.go:1094-1172 | two claims of a row that no resolution or deletion separates are at least the lease apart, whatever clocks do in between |
| `OutboxRuns.AttemptsAreConserved` | internal/store/sqlite/store.go:1146-1166 | total attempts equal current attempts plus everything requeues erased, in every run |
| `OutboxRuns.AttemptsCountClaims` | internal/store/sqlite/store.go:1146-1166 | the attempt counter is the number of claims since insertion or requeue |
| `OutboxRuns.EveryDeliverySettles` | internal/delivery/worker.go:231-248 | if every claim is resolved, a delivery is claimed at most maxAttempts times and is then delivered or dead |
| `OutboxRuns.DeliveredIsFinal` | internal/store/sqlite/store.go:1297-1346 | a delivered row never changes until its event is deleted |
| `OutboxRuns.RowsAreNotLost` | internal/store/sqlite/store.go:783-803 | an inserted row stays until its event is deleted |
| `Backoff.WorkerBackoff` | internal/delivery/worker.go:269-278 | the delay is the capped exponential one iff no doubling lands one short of the maximum; otherwise it is one more; never above the maximum |
| `Backoff.WaitNeverDecreases` | internal/delivery/worker.go:269-278 | later attempts never wait less |
| `Backoff.WorkerBackoffOvershoots` | internal/delivery/worker.go:269-278 | an input on which it is not exact |
| `Backoff.BoundedBackoff` | cmd/reddotrelay/runtime_manager.go:444-459 | the exact capped exponential delay; the maximum when the base is unusable |
| `DeliveryWorker.Worker.Deliver` | internal/delivery/worker.go:166-250 | under the lease, a code from 200 to 299 makes the row delivered at the time of the reply; anything else makes it dead at the attempt limit, and below it pending again after the capped exponential delay, or one more where a doubling falls one short; without the lease nothing changes |
| `DeliveryWorker.Worker.DrainOnce` | internal/delivery/worker.go:121-164 | leases the earliest due rows, at most min(batch, workers), settles each whose outcome is recorded as Deliver does, leaves the others leased, touches no other row, and is a run of the outbox machine |
| `Storage.Store.PruneDeliveredBefore` | internal/store/sqlite/store.go:1056-1089 | deletes the events that the ordered, limited query selects, with their outbox rows, and reports how many; PruneDeletesOldest says which they are |
| `Retention.PruneDeletesOldest` | internal/store/sqlite/store.go:1027-1089 | exactly min(limit, eligible) events are deleted, in order of observation time, transaction and log index, only ones that have deliveries, all delivered before the cutoff, with exactly their outbox rows; checkpoint and history stand |
| `Retention.PruneInTwo` | internal/retention/service.go:75-104 | two bounded prunes in a row are one prune of the combined limit |
| `Retention.PruneAll` | internal/retention/service.go:75-104 | a limit that reaches all eligible events leaves none |
| `RetentionService.Service.Prune` | internal/retention/service.go:50-109 | batched pruning terminates and removes the oldest min(maximum, eligible) events, all when the maximum is zero, none when negative, as one prune would; it reports the number of events eligible and the number gone; one run at a time |
| `Backfill.RangeTestIff` | cmd/reddotrelay/backfill_operations.go:64-66 | the range test is the intended one iff it is not asked for all 2^64 blocks from zero |
| `Backfill.EveryRunIsOrderly` | internal/store/sqlite/backfill.go:108-260 | over every interleaving of operators and one worker: batches ascending, disjoint and consecutive; the counters are the totals of the committed batches; processed is next minus from; completed iff next is to plus one; discovered is created plus duplicates; one active job per listener; the audit trail is a path of the state diagram to the current state |
| `Backfill.BlocksCommittedOnce` | cmd/reddotrelay/backfill_operations.go:384-417 | every block below a job's position lies in exactly one committed batch, and no other block does |
| `Backfill.FinalStatesAbsorb` | internal/store/sqlite/backfill.go:108-260 | a completed or cancelled job never changes again |
| `Backfill.OperatorMoves` | internal/store/sqlite/backfill.go:108-145 | operators may make exactly the moves of the state diagram that are not the engine's own |
| `Backfill.WorkerRangeFits` | cmd/reddotrelay/backfill_operations.go:384-388 | the size guard of FetchRange never rejects the worker's range |
| `BackfillWorker.JobStore.CreateBackfill` | internal/store/sqlite/backfill.go:18-38 | queues a job at its first block with nothing counted iff its id is free, its listener has no unfinished job and its range fits the store |
| `BackfillWorker.JobStore.TransitionBackfill` | internal/store/sqlite/backfill.go:108-145 | pauses a queued or running job, requeues a paused or failed one, cancels any that is not completed or cancelled, and nothing else, guarded by the one-active index; only the state changes |
| `BackfillWorker.JobStore.ClaimBackfill` | internal/store/sqlite/backfill.go:147-172 | claims a running job first, else the oldest queued one; none iff there is none |
| `BackfillWorker.JobStore.SaveBackfillBatch` | internal/store/sqlite/backfill.go:174-238 | events and job position commit together iff no event conflicts and the job is running; otherwise nothing changes; created grows by the number of identities the store gained, duplicates by the rest of the batch, deliveries by the items of gained events; the outbox rows added are fresh; no other job changes |
| `BackfillWorker.JobStore.FailBackfill` | internal/store/sqlite/backfill.go:240-260 | fails exactly a running job |
| `BackfillWorker.DecodeRange` | cmd/reddotrelay/backfill_operations.go:396-412 | fails iff a log does not decode; otherwise exactly the configured events and exactly their routed deliveries |
| `BackfillWorker.Worker.RunOne` | cmd/reddotrelay/backfill_operations.go:317-428 | one turn does nothing iff no job is claimable; otherwise it claims one and commits exactly the decoded range, or fails the job for a named cause, or leaves it running because no scanner could be built or the service was cancelled; it is a run of the job machine |
| `SkipProtocol.SkipsNeverRace` | cmd/reddotrelay/scanner_skip.go:63-77 | over every interleaving of reconcile passes, mutations, exits, restarts and skip requests, no scanner of a listener runs when its skip commits |
| `SkipAgreement.ReconcileIsTrace` | cmd/reddotrelay/runtime_manager.go:190-273 | what Manager.Reconcile guarantees of a completed pass is a trace of exits, one read, visits and one publication, after which manager and protocol agree on what runs and on the stopped test |
| `SkipAgreement.InterruptedReconcileIsTrace` | cmd/reddotrelay/runtime_manager.go:262-265 | a pass that cancellation interrupts is a trace without a publication |
| `SkipProtocol.OneCommitPerRevision` | internal/store/sqlite/rpclistener.go:250-273 | of all mutations and skips prepared at one revision at most one commits; so a preview commits at most once |
| `SkipProtocol.CommitFindsStopped` | cmd/reddotrelay/scanner_skip.go:157-245 | a request that passed the stopped test and commits at its revision finds its listener stopped |
| `SkipStore.Registry.SkipScannerToHead` | internal/store/sqlite/scanner_skip.go:39-114 | commits iff the revision, pause, idle backfills, previewed checkpoint, strictly newer well-formed target, agreeing events and a hash at no other height all hold; moves checkpoint and history, resumes the listener, raises the revision and audits listener, skipped range and target hash; a commit is a skip step of the protocol and finds the listener stopped; otherwise nothing changes |
| `SkipStore.Registry.Mutate` | internal/store/sqlite/rpclistener.go:237-284 | a mutation commits iff prepared at the current revision and its own statements succeed, raises the revision by one, and is a mutation step of the protocol |
| `Runtime.Manager.Reconcile` | cmd/reddotrelay/runtime_manager.go:190-273 | a completed pass leaves each desired unpaused listener with a runtime of the current hash and no failure, or a failure for that hash with any older runtime in place; paused and deleted ones have neither; the status says so; runtimes closed before are not touched; only cancellation leaves a pass incomplete |
| `Runtime.Manager.Visit` | cmd/reddotrelay/runtime_manager.go:225-271 | what becomes of one listener, every other one untouched; a cancelled pass changes nothing |
| `Runtime.Manager.Replace` | cmd/reddotrelay/runtime_manager.go:249-270 | a new runtime is built before the old one is stopped; a failed build leaves the old one running |
| `Runtime.Manager.Stop` | cmd/reddotrelay/runtime_manager.go:288-304 | only a running runtime is stopped, and it is finished from then on |
| `Runtime.Manager.ReapExited` | cmd/reddotrelay/runtime_manager.go:306-320 | exactly the exited runtimes are collected |
| `Runtime.Manager.RecordFailure` | cmd/reddotrelay/runtime_manager.go:322-330 | counts failures of one configuration and schedules the retry after the capped exponential delay |
| `Runtime.Manager.PublishStatus` | cmd/reddotrelay/runtime_manager.go:334-377 | the status shows each listener as paused, running, idle, retrying after a second failure or failed to build, as pause, hash and failures say, and is ready iff none is retrying or failed |
| `Runtime.Manager.Shutdown` | cmd/reddotrelay/runtime_manager.go:380-389 | afterwards nothing runs and every runtime ever built is closed, none of them a second time |
| `Runtime.EveryListenerIsSettled` | cmd/reddotrelay/runtime_manager.go:225-272 | after a completed pass each desired unpaused listener runs its current hash with no failure, or has a failure for that hash with any older runtime in place |
| `Runtime.PausedIsStopped` | cmd/reddotrelay/runtime_manager.go:228-234 | a published status of paused means that no runtime of that listener is active |
| `Runtime.ReadyMeansRunning` | cmd/reddotrelay/runtime_manager.go:334-377 | ready iff no failure is on record and every unpaused listener runs its current configuration |
| `Transfer.ImportConfiguration` | cmd/reddotrelay/management_transfer.go:187-240 | accepts a document iff all ids of a kind are canonical and distinct at every depth, its URLs are secret-safe and its durations positive; returns exactly its contents |
| `Transfer.ImportWebhooks` | cmd/reddotrelay/management_transfer.go:242-269 | the shared seen-set rejects exactly the repeated or malformed ids |
| `Transfer.IsCanonicalUuid` | cmd/reddotrelay/management.go:722-725 | an id parses and prints back as itself iff it is lower-case hexadecimal in groups of 8, 4, 4, 4 and 12 |
| `Transfer.ExportConfiguration` | cmd/reddotrelay/management_transfer.go:131-180 | succeeds iff the configuration holds no credential and no unsafe URL; returns exactly its contents |
| `Transfer.ExportThenImport` | cmd/reddotrelay/management_transfer.go:131-269 | importing the export of a valid configuration with proper ids returns it up to timestamps |
| `ChildRows.PutThenQuery` | internal/store/sqlite/rpclistener.go:358-372 | a list inserted by position under a new parent is read back in order; other parents keep their rows |
| `ListenerRows.SplitRestoredIff` | internal/store/sqlite/rpclistener.go:639-644 | the URL/reference split survives its one column iff it is a reference alone or a URL that is not one |
| `ListenerRows.ReplaceThenLoad` | internal/store/sqlite/rpclistener.go:107-142 | a replaced listener loads back as the same nested aggregate in order, up to locators and timestamps; all other listeners load as before; foreign keys hold |
| `ListenerRows.CreationTimeKeptIff` | internal/store/sqlite/rpclistener.go:115-141 | a surviving row of any kind keeps its creation time iff it belongs to another listener or the last table that holds its id holds this time; an id seen nowhere gets the current time |
| `ListenerRows.SharedTimesAreKept` | internal/store/sqlite/rpclistener.go:115-141 | where rows that share an id share a nonzero time, every surviving row keeps its time, every new id gets the current one, and the premise is kept |
| `ListenerRows.CreationTimeIsLost` | internal/store/sqlite/rpclistener.go:115-137 | a listener whose creation time a replacement takes from a contract of another listener |
| `ListenerRows.ListenerRestoredIff` | internal/store/sqlite/rpclistener.go:381-531 | only timestamps change iff every locator in the aggregate is restorable |
| `ListenerRows.ValidatedComesBackIff` | internal/store/sqlite/rpclistener.go:533-617 | a listener whose locators the store's validation admits comes back with only new timestamps iff no direct URL in it looks like a reference |
| `ListenerRows.UrlBecomesReference` | internal/store/sqlite/rpclistener.go:533-546 | a listener that the store validates and replaces, and that loads with its URL turned into a reference |
| `ListenerStore.InsertWebhooks` | internal/store/sqlite/rpclistener.go:358-372 | inserts the rows in order, failing iff an id is taken |
| `ListenerChecks.ReplaceOkIff` | internal/store/sqlite/rpclistener.go:107-142 | the inserts of a replacement succeed iff the listener exists and, table by table, no id in it is repeated or held by another listener |
| `ListenerChecks.CheckListener` | internal/store/sqlite/rpclistener.go:533-617 | accepts iff every locator at every depth is exactly one of URL and reference, and every reference is well-formed |
| `ListenerChecks.CheckReference` | internal/secrets/resolver.go:76-95 | a reference names an environment variable or an absolute path, a slash before a drive letter dropped first |
| `ListenerStore.Configurations.ReplaceRPCListener` | internal/store/sqlite/rpclistener.go:107-142 | commits iff the locators are valid, it was prepared at the current revision, the listener exists and no id in the aggregate is repeated or held by another listener; raises the revision by one, satisfies the round trip and, with shared times, keeps creation times; otherwise nothing changes |

## Left out

- One chain per ledger: every statement of the store names one chain id, so the model holds one chain's rows; the skip's count of active jobs is over that chain.
- StartBlock and ReorgDepth are fixed while a ledger lives; a start block raised above the checkpoint would switch the parent test off.
- Block heights of 2^64 - 1: `Scanning.Scanner.ScanOnce` and `Fetch.FetchVerifiedBatch` require heads and range ends below it, where the source's counting loops would not stop.
- ScannerRuns.EveryRunIsExact: assumes of each commit the two conditions that make its batch genuine, which are exact for the batch (FetchTruth.GenuineIff); a batch that is not genuine can still leave an exact ledger when the blocks and logs it gets wrong hold no configured event and are not retained.
- Scanning.Scanner.ScanOnce: the clause that leaves failure to decoding, routing and storing assumes that the provider goes on answering from one view and that no two logs of that view share an identity.
- MixedRuns.EveryMixedRun: assumes backfills at or below the checkpoint, because the property is false otherwise; the exact condition is MixedRuns.CommitAgreesIff.
- BackfillWorker.Worker.RunOne: covers a turn that no operator interrupts; interruptions are steps of the machine in Backfill.
- Backfill.EveryRunIsOrderly: takes a finished job's position as to + 1 also for a range that ends at the largest stored integer, where SQLite leaves integer arithmetic.
- ListenerRows.ReplaceThenLoad: loading is stated as a function of the tables, not as row scans; sealing of credentials is the identity; of the validation only the locators are modelled, and the uniqueness of addresses, selectors and URLs under one parent is left to it.
- SkipAgreement.ReconcileIsTrace: relates a pass that runs by itself; steps of other actors between its read and its publication are interleavings of SkipProtocol.
- Runtime.Manager.Reconcile: visits listeners in snapshot order rather than sorted by id, and keeps the status entries as a map; a runtime's closing and the receipt of its result are one step.
- runtimeConfigHash: a parameter; it omits the RPC authentication, so equal hashes mean equal hashed fields only.
- The preview token's signature, expiry and confirmation phrase, and the re-reading of target and checkpoint from the provider during a skip.
- DeliveryWorker.Worker.DrainOnce: settles items one after another; interleavings of several workers are the runs of OutboxRuns.
- Retries, timeouts and concurrency limits of single remote calls, HTTP handlers, metrics, logging, sessions, users and API keys.
- ABI decoding, HMAC, encryption, event GUIDs, schema migration, backup and storage statistics.
- Store.Rewind and the checkpoint-only processor path, which the scanner does not use with this store.
- ReplaceGlobalWebhooks and ReplaceRPCListenerSnapshot: the same inserts over fewer or all tables.
