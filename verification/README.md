# relay-gateway: the durable task and media core, verified

relay-gateway sends paid image, video and chat requests to providers. What it must never get wrong is small and
concurrent: a worker that lost its lease must not write, a stored file must live exactly as long as something points at
it, an accepted task must stay routable after a crash, a paid submission must not be sent twice, and a finished task must
go on meaning what it meant. This project models that core and proves it.

| module | what it models | what is proved over whole runs |
|---|---|---|
| `TaskRuns` | task rows, poll leases, poll counters and status (`db/task.go`, `db/task_lease.go`) | token fencing, separated claims, exact counters, status never moves back |
| `Media`, `MediaInvariant`, `MediaRuns`, `MediaTables` | assets, reference-counted objects, materialization and deletion jobs, task promotion (`db/media*.go`) | reference counts are exact, at most one commit per asset, revoked assets stay revoked, only whole batches promote |
| `RecoveryJournal` | the write-ahead journal of unwritten routes (`router/async_task_recovery.go`) | with one process at a time nothing reported durable is ever lost, over any crashes; what a recovery pass clears, exactly |
| `JournalRaces` | several processes on that journal | exactly when nothing is lost, and the run in which one process empties the file under another |
| `TaskMappings`, `MappingCache`, `Sequences` | routing rows and the list-plus-map cache (`db/db.go`, `db/task_mapping_cache.go`) | routes are pinned, batches all-or-nothing and idempotent, the cache agrees with the rows for calls that run one after another |
| `MappingRaces` | the same cache between the statements of concurrent calls (`db/db.go`) | exactly when every cached route is the stored one or about to go, the order of publishes that ensures it, and the run in which a deletion overtakes a lookup |
| `ProfileCatalog`, `BindingPatterns` | protocol revisions, digest archive, channel bindings (`db/profile.go`, `db/profile_snapshot.go`) | history keeps its meaning through deletion and renumbering, content is immutable; exactly when enabled bindings stay on published revisions and lookup stays unambiguous, and the concurrent saves for which they do not |
| `Submission` | keyed lock and durable reservation (`router/profile_idempotency.go`, `router/profile_execution.go`) | mutual exclusion, at most one submission per operation, key and fingerprint; exactly when at most one per operation and key |
| `Failover` | candidate, credential and key-rotation loops (`router/profile_direct.go`, `protocol/executor.go`, `adapter/openai.go`) | nothing is resent after it may have been accepted, every key of a channel takes its turn |
| `AnthropicStream` | streaming against whole-message translation (`adapter/anthropic.go`) | the two agree exactly when blocks start empty and tools stream arguments |
| `PollSchedule` | 64-bit saturating delays and the wait loop (`protocol/async.go`) | no overflow, clamped exact arithmetic, bounded polls and sleeps |
| `LoginAdmission` | login buckets under a bound (`security/admission.go`) | never more than five failures and attempts, attempts keep their bucket; exactly when a lock holds, and the flood of clients that ends one |

Each of these says what its operations keep. What each operation does, for every state and without its own step function,
is said in a module beside it: `TaskRunEffects`, `MediaEffects`, `JournalEffects`, `TaskMappingEffects`, `ProfileEffects`,
`BindingEffects`, `SubmissionEffects`, `FailoverEffects`, `AnthropicEffects`, `PollEffects` and `LoginEffects`. They state
when an operation works and when not, what it leaves behind for the next one, and what it leaves alone: a claim lasts its
lease and not longer, a delete request queues a deletion that runs through, a published revision can be bound.

How the model is built:

- Each database transaction is one atomic step on maps of rows: it returns the new tables, or the old ones and an error.
  A statement outside a transaction is a step of its own. The step functions (`...Step`) give that meaning; the classes
  run the same steps field by field and are proved equal to them; the run lemmas quantify over every sequence of steps,
  so over every interleaving of them. `TaskMappings` alone takes a whole call as one step; `MappingRaces` takes its calls
  apart.
- The clock is passed in with each step. The code reads it before it waits for the database connection or a mutex
  (db/task.go:731, db/db.go:1652), so a later step may carry an earlier reading, and runs of task and media steps allow
  that. Two results ask for more and say so: a token that merely expired stays stale until a step reads an earlier clock
  (`MediaRuns.StaleWorkerChangesNothing`), and the cache histories of `MappingCache` are in time order. Lease tokens come
  from a counter, so no two are equal. Ids are numbers and 0 is the blank id. Strings arrive trimmed and, where the code
  lower-cases them, lower-cased; characters stand for bytes.
- A claim names the row it takes. The code takes the row that is due first, so the claims proved about are a superset.
- A stored object's id stands for the lease token it was written under, from which the code derives it
  (task/media_materialization_execution.go:37-46). Job rows are keyed by their asset, which carries a unique index.
- A media availability mark outside a commit is allowed onto an object that is Ready and already has a live reference.
  `MarkAvailableIsSafeExactlyWhenShared` shows that this guard is exactly what the bare mark needs.
- A journal append is all or nothing, and a failed sync may leave the line or not. The recovery key is the registration
  itself: the digest is taken as collision-free. So are content digests and reservation ids.
- Creating or updating a binding is three steps: the handler finds the revision published, the save finds no clashing peer,
  and the row is written (router/profile_binding_routes.go:238-305, db/profile.go:616-648). Other requests may run in
  between, and the results on bindings say what then has to hold at the write. The bulk apply runs the last two in one
  transaction (router/profile_binding_routes.go:147-192).
- Upstream replies, I/O outcomes, cancellation and jitter are arbitrary values or functions.

Where code and comments differ, the code is modelled: `EnsureTaskMappings` is described as publishing only inserted rows,
and also publishes a row whose alias it filled in (db/db.go:1427-1434).

## Model

| member | source | states |
|---|---|---|
| `TaskRuns.ClaimsAreSeparated` | db/task.go:719-813 | between two claims of one row the first was released, rescheduled or had expired |
| `TaskRuns.TakeoverNeedsEnd` | db/task.go:735-760 | a row held under a token changes hands only after that lease ran out or was given up |
| `TaskRuns.StaleTokenRefused` | db/task_lease.go:15-64 | once a later claim has taken the row, no operation with the earlier token succeeds, for the rest of the run |
| `TaskRuns.ReplacedForever` | db/task.go:742-760 | a replaced token never becomes the row's owner again |
| `TaskRuns.RunKeepsInv` | db/task.go:578-705 | in every reachable state the owner is blank exactly when the expiry is null, and polls equal successes plus failures |
| `TaskRuns.StatusMovesForward` | db/task.go:492-563 | over any run of transactions a status rank never falls and a terminal status is final |
| `TaskRuns.ApplyKeepsInv` | db/task.go:719-859 | each transaction, including a fenced callback of any nesting, keeps lease, counter and completion fields consistent |
| `TaskRuns.ApplyMovesForward` | db/task.go:492-563 | no transaction loses a row, reuses a token or moves a status back |
| `TaskRuns.LiveLeaseStays` | db/task.go:735-760 | while a lease is live, any transaction leaves the row with its holder unless the holder itself gives it up |
| `TaskRuns.ReplacedStays` | db/task.go:742-760 | one transaction cannot give a replaced token its row back |
| `TaskRuns.PolledAllKeepsCounters` | db/task.go:649-705 | a batch of observations keeps the counters adding up |
| `TaskRuns.TaskRunStore.Create` | db/task.go:288-320 | inserts a row with defaults, or refuses a blank or taken id |
| `TaskRuns.TaskRunStore.ClaimDue` | db/task.go:719-764 | grants a fresh lease exactly on a due, unleased background row |
| `TaskRuns.TaskRunStore.ClaimPoll` | db/task.go:770-813 | grants a fresh lease exactly on a pollable row whose lease is absent or over |
| `TaskRuns.TaskRunStore.Renew` | db/task_lease.go:47-64 | moves the expiry only under the live token |
| `TaskRuns.TaskRunStore.Release` | db/task.go:846-859 | clears the lease of the named owner and nothing else |
| `TaskRuns.TaskRunStore.Reschedule` | db/task.go:823-840 | clears the lease and sets the next poll |
| `TaskRuns.TaskRunStore.RecordPoll` | db/task.go:611-643 | adds one observation to the counters, which `TaskRunEffects.CountersAreWhatWasRecorded` says outright |
| `TaskRuns.TaskRunStore.RecordPollForLease` | db/task.go:578-609 | the same under a live lease only |
| `TaskRuns.TaskRunStore.RecordBatch` | db/task.go:649-705 | adds every observation of a batch, in order (`TaskRunEffects.PolledAllCounts`) |
| `TaskRuns.TaskRunStore.UpdateStatus` | db/task.go:492-522 | writes a status unless it regresses or replaces a terminal one |
| `TaskRuns.TaskRunStore.UpdateStatusForLease` | db/task.go:530-563 | the same under a live lease only |
| `TaskRuns.TaskRunStore.WithLease` | db/task_lease.go:15-45 | runs a callback's mutations under a live lease, all or none |
| `TaskRunEffects.CountersAreWhatWasRecorded` | db/task.go:574-705 | over any run a row's polls, successes, failures, trailing errors and last HTTP status are those of the observations recorded for it, counted in order |
| `TaskRunEffects.PolledAllCounts` | db/task.go:649-705 | a batch adds its successes and its failures, and leaves the length of its trailing run of failures and its last positive status |
| `TaskRunEffects.OtherRowsStay` | db/task.go:492-859 | every operation leaves all rows but the one it names |
| `TaskRunEffects.CreatedIsClaimable` | db/task.go:288-320 | a new background row can be claimed as soon as it is due |
| `TaskRunEffects.ClaimLastsItsLease` | db/task.go:719-813 | a claim works exactly on a claimable row, and shuts every other claim out until its lease ends and not longer |
| `TaskRunEffects.ClaimantMayWork` | db/task_lease.go:15-64 | the fenced operations let the claimant through while its lease runs |
| `TaskRunEffects.OnlyClaimsGrant` | db/task.go:719-813 | a row comes under a fresh token exactly by a claim of it that goes through |
| `TaskRunEffects.RenewalMovesTheEnd` | db/task_lease.go:47-64 | a renewal under a live lease makes it end at the new time, and changes nothing else |
| `TaskRunEffects.GivingUpFreesTheRow` | db/task.go:823-859 | a released row can be claimed at once, a rescheduled one from its next poll time on |
| `TaskRunEffects.StatusIsWrittenExactlyWhenItMayFollow` | db/task.go:492-563 | a status is written exactly when it may follow the stored one, and then it is the row's |
| `TaskRunEffects.RefusalSaysWhy` | db/task.go:492-705 | a missing row, a lost lease and a refused status are told apart |
| `TaskRunEffects.CallbackIsItsOperations` | db/task_lease.go:15-45 | a callback under a live lease is its operations one after another, or nothing at all |
| `MediaRuns.CountsAreExact` | db/media.go:272-329 | in every state of every run each object's count is the number of live assets pointing at it, it is Ready exactly when positive, and no asset names a missing object |
| `MediaInvariant.ApplyKeepsInv` | db/media.go:571-636 | every transaction of the pipeline keeps counts, links, indexes and job ownership together |
| `MediaInvariant.MarkAvailableIsSafeExactlyWhenShared` | db/media.go:598-617 | a bare availability mark keeps the counts exactly when the object is the asset's own or already has a live reference |
| `MediaRuns.StaleWorkerChangesNothing` | db/media_materialization_lease.go:114-213 | a worker whose token was replaced changes no row by renewing, committing or failing, ever after and whatever the clocks say; one whose token expired, as long as no step reads an earlier clock |
| `MediaRuns.StaleStays` | db/media.go:1142-1193 | a token stale at a time stays stale at that time unless a later step reads an earlier clock |
| `MediaRuns.AtMostOneCommit` | db/media_materialization_lease.go:157-196 | each asset gets at most one committed object over a whole run |
| `MediaRuns.RevokedNeverReturns` | db/media.go:571-585 | a revoked asset is never available again |
| `MediaRuns.SettledStays` | db/media.go:707-743 | a committed job is not reopened |
| `MediaRuns.PreparedIsDead` | db/media.go:978-989 | an object cleared for file deletion has no live reference and no worker that could still commit it |
| `MediaRuns.ClearedObjectStaysUnreferenced` | db/media.go:978-989 | once an object was cleared for file deletion, no live asset refers to it then or later |
| `MediaRuns.OnlyWholeBatchesPromote` | db/media.go:524-569 | outside its own status writes a task row is only promoted, and only with its whole non-empty batch available, or parked by the accept path |
| `MediaRuns.LastCommitCompletes` | db/media_materialization_lease.go:182-194 | the commit of the last asset leaves the task terminal in the same transaction |
| `MediaRuns.ProjectionAgreesWithBatch` | router/profile_retention_execution.go:64-89 | the accept projection ends terminal exactly when the batch was ready, whoever came first |
| `MediaRuns.StatusesMoveForward` | db/task.go:501-562 | across workers, projections and status writes no task's rank falls and terminal is final |
| `MediaRuns.FinishedBatchStaysFinished` | db/media_materialization_lease.go:182-194 | after the last commit the task keeps one terminal status for good |
| `MediaRuns.ApplyEvolves` | db/media.go:1142-1193 | what one transaction may do to assets, jobs and deletion jobs: ids are used once, leases pass only to fresh tokens, finished jobs reopen only for retryable assets |
| `MediaTables.MediaStore.CreateForMaterialization` | db/media_materialization_lease.go:15-41 | an asset and its leased job appear together, once per task slot |
| `MediaTables.MediaStore.EnsureResultMedia` | db/task.go:62-106 | creates missing assets and jobs for the result urls, leaving existing ones alone |
| `MediaTables.MediaStore.EnsureContentMedia` | db/task.go:115-167 | the same for the single content slot, refusing a slot of another kind |
| `MediaTables.MediaStore.ClaimJob` | db/media.go:1142-1193 | leases a due, unleased job to a fresh token |
| `MediaTables.MediaStore.ClaimAsset` | db/media_materialization_lease.go:46-97 | leases one asset's job and marks a retryable asset materializing |
| `MediaTables.MediaStore.RenewJob` | db/media_materialization_lease.go:114-133 | moves the expiry only under the live token |
| `MediaTables.MediaStore.Commit` | db/media_materialization_lease.go:157-196 | finishes the job, stores the object, attaches the asset and promotes a whole batch, or changes nothing |
| `MediaTables.MediaStore.CompleteJob` | db/media.go:1219-1238 | finishes a job under its live token |
| `MediaTables.MediaStore.FailJob` | db/media.go:1274-1299 | requeues or fails a job under its live token |
| `MediaTables.MediaStore.FailWithAsset` | db/media_materialization_lease.go:198-213 | fails job and live asset together |
| `MediaTables.MediaStore.MarkAvailable` | db/media.go:571-636 | moves the asset's reference from its old object to the new one |
| `MediaTables.MediaStore.CompleteTask` | db/media.go:524-569 | promotes a non-terminal task whose batch is ready |
| `MediaTables.MediaStore.RetryMaterialization` | db/media.go:707-743 | requeues a retryable asset unless a worker holds it |
| `MediaTables.MediaStore.RequestDelete` | db/media.go:272-329 | revokes the asset, gives up its reference once and queues a deletion (`MediaEffects.RequestQueuesADeletion`) |
| `MediaTables.MediaStore.ClaimDeletion` | db/media.go:782-825 | leases a due deletion job |
| `MediaTables.MediaStore.RenewDeletion` | db/media_materialization_lease.go:135-152 | moves a deletion lease only under the live token |
| `MediaTables.MediaStore.CompleteDeletion` | db/media.go:850-883 | finishes the job and the asset, and purges rows when asked to |
| `MediaTables.MediaStore.FailDeletion` | db/media.go:915-944 | requeues the deletion and marks asset and unreferenced object failed |
| `MediaTables.MediaStore.RetryDeletion` | db/media.go:991-1032 | requeues a failed deletion unless a worker holds it |
| `MediaTables.MediaStore.RequestPurge` | db/media_purge.go:13-40 | removes a deleted asset's rows now, or asks the deletion to do it on success |
| `MediaTables.MediaStore.HardDeleteAsset` | db/media.go:352-408 | removes the asset and its jobs, and its object unless another asset names it |
| `MediaTables.MediaStore.PrepareDeletion` | db/media.go:978-989 | clears an unreferenced object for file deletion |
| `MediaTables.MediaStore.ProjectMedia` | router/profile_retention_execution.go:64-89 | promotes a batch a worker already finished, else parks the task |
| `MediaRuns.RequestedDeletionsStayQueued` | db/media.go:272-329 | in every state of every run an asset that waits for its deletion has a deletion job that is not done, so a worker can claim it once no lease on it runs |
| `MediaEffects.EnsuredSlotsAreFilled` | db/task.go:62-106 | afterwards every result slot has an asset with its job, created if it was missing and as it was if not |
| `MediaEffects.ContentIsEnsuredExactlyWhen` | db/task.go:115-167 | content media is ensured exactly for a task whose provider has answered and whose slot 0 holds no other kind |
| `MediaEffects.ClaimLastsItsLease` | db/media.go:1142-1193 | a claim works exactly on a claimable job, and shuts every other claim out until its lease ends and not longer |
| `MediaEffects.AssetClaimIsAClaim` | db/media_materialization_lease.go:46-97 | the asset's own worker claims the same lease and marks the asset |
| `MediaEffects.ClaimableExactlyWhenOpen` | db/media.go:1142-1193 | a job can be claimed exactly while it is open and no lease on it runs, and an asset's own worker also needs an asset that wants its file |
| `MediaEffects.CreatedForItsWorker` | db/media_materialization_lease.go:15-41 | the first worker of a new asset holds its lease, and the slot is taken from then on |
| `MediaEffects.WorkerMayEndItsJob` | db/media.go:1219-1299 | a worker under a live lease can move its end, finish the job for good or give it back for later, and nothing else changes |
| `MediaEffects.FailedTogether` | db/media_materialization_lease.go:198-213 | a job fails together with a live asset only, which can then be claimed for another attempt |
| `MediaEffects.MarkAttachesTheFile` | db/media.go:571-636 | an asset can be marked available exactly while neither it nor the file is gone; it then has that file, and of the others only its old one changes |
| `MediaEffects.MarkGivesUpTheOldFile` | db/media.go:601-620 | the file an asset moves away from loses one reference, and may be deleted exactly with the last one |
| `MediaEffects.CommitAttachesTheFile` | db/media_materialization_lease.go:157-196 | a commit under a live lease works exactly while the asset is not revoked; the asset then has the worker's file with one reference, and the job is over |
| `MediaEffects.CommitMayCompleteItsTask` | db/media_materialization_lease.go:182-194 | the commit completes the asset's task if that makes its batch whole |
| `MediaEffects.RetryReopens` | db/media.go:707-743 | a retry leaves a running worker alone and otherwise makes the job claimable at once |
| `MediaEffects.CompletesExactlyWhenWhole` | db/media.go:524-569 | a task that has not ended ends successfully exactly when its batch is not empty and each asset of it has its file |
| `MediaEffects.RequestQueuesADeletion` | db/media.go:272-329 | a delete request works for every known asset; unless deleted already it has a deletion job afterwards, claimable at once if it is new, and a live asset is revoked |
| `MediaEffects.RequestGivesUpTheFile` | db/media.go:297-320 | the file of an asset that is given up loses one reference, and may be deleted with the last one |
| `MediaEffects.DeletionClaimLasts` | db/media.go:782-825 | a claim of a deletion lasts its lease |
| `MediaEffects.DeletionMayBeRenewed` | db/media_materialization_lease.go:135-152 | a deletion worker under a live lease can move its end |
| `MediaEffects.DeletionMayBeGivenBack` | db/media.go:915-944 | it can give the deletion back for a later attempt or one at once, and the asset is marked unless it is deleted |
| `MediaEffects.FileStaysDeletable` | db/media.go:915-1032 | the file of a failed or retried deletion can be cleared unless somebody refers to it |
| `MediaEffects.RetryReopensDeletion` | db/media.go:991-1032 | a retry of a deletion leaves a running worker alone and otherwise makes it claimable at once |
| `MediaEffects.CompletedDeletionEnds` | db/media.go:850-883 | a finished deletion leaves the asset deleted and its job done, and with a purge asked for neither |
| `MediaEffects.PurgeRemovesNowOrLater` | db/media_purge.go:13-40 | a purge removes a deleted asset's rows at once and otherwise queues a deletion that will |
| `MediaEffects.RemovalKeepsSharedFiles` | db/media.go:352-408 | removing an asset's rows keeps its file exactly if another asset names it |
| `MediaEffects.PreparedExactlyWhenGivenUp` | db/media.go:978-989 | a file can be cleared exactly when it has been given up, no asset refers to it and it is not gone |
| `MediaEffects.DeletionRunsThrough` | db/media.go:272-989 | from the delete request of the only asset with a file one worker can claim the deletion, clear the file and finish |
| `MediaEffects.SlotRefusalsSayWhy` | db/task.go:62-167 | a blank identity, a task without a provider's answer, a missing task and a taken slot are told apart |
| `MediaEffects.WorkerRefusalsSayWhy` | db/media.go:1142-1299 | nothing to claim, a lease that is not the worker's and an unknown or revoked asset are told apart |
| `MediaEffects.MarkRefusalsSayWhy` | db/media.go:571-636 | a missing asset or file, one that is gone and a lost lease are told apart |
| `MediaEffects.DeletionRefusalsSayWhy` | db/media.go:272-1032 | an unknown asset, one that does not wait for its deletion, a lost lease and a file that must stay are told apart |
| `MediaEffects.CompletionRefusalsSayWhy` | db/media.go:524-569 | a blank and an unknown task are told apart |
| `RecoveryJournal.EnqueuedIsNeverLost` | router/async_task_recovery.go:331-362 | from an Enqueue that reports durability on, over any steps and crashes, the registration is replayable or stored |
| `RecoveryJournal.RunKeeps` | router/async_task_recovery.go:331-484 | over any interleaving and crashes what was replayable or stored stays so, and the cache holds nothing else |
| `RecoveryJournal.AcknowledgeKeeps` | router/async_task_recovery.go:389-416 | acknowledging a persisted registration loses nothing, and the journal is emptied only when replaying it would find nothing |
| `RecoveryJournal.ReplayIsUnacknowledged` | router/async_task_recovery.go:252-284 | a registration is replayed exactly when a valid upsert of it is not followed by its acknowledgement |
| `RecoveryJournal.ConflictStaysJournaled` | router/async_task_recovery.go:434-484 | a journaled registration that conflicts with a stored route is never written, acknowledged or truncated away |
| `RecoveryJournal.RefusedExactlyByConflict` | router/async_task_recovery.go:136-150 | with the database answering, a valid registration is refused exactly by a conflicting row |
| `RecoveryJournal.RecoveryCompletes` | router/async_task_recovery.go:434-484 | a pass with nothing failing leaves pending exactly the conflicting registrations, stores the rest, and empties the journal if none is left |
| `RecoveryJournal.RecoverOneClears` | router/async_task_recovery.go:455-482 | one round clears its registration exactly when no stored route conflicts |
| `JournalRaces.NothingIsLostExactlyWhenNothingIsDropped` | router/async_task_recovery.go:389-416 | over any interleaving of any number of processes and crashes no registration that was replayable or stored is lost, exactly when no process empties the file over a line that is neither acknowledged nor stored |
| `JournalRaces.DurableForAll` | router/async_task_recovery.go:331-362 | what one process was told is durable stays replayable or stored whatever the others do, unless one of them does that |
| `JournalRaces.StepLosesExactlyWhenItDrops` | router/async_task_recovery.go:404-413 | one step of one process loses a registration exactly when it does that, and otherwise leaves every process's memory sound |
| `JournalRaces.OneAfterAnotherDropsNothing` | router/async_task_recovery.go:239-297 | processes of which only one at a time has the journal loaded drop nothing |
| `JournalRaces.TruncationDropsLine` | router/async_task_recovery.go:404-416 | a process that acknowledges its last item empties the file under another one, whose durable registration is gone when it crashes |
| `RecoveryJournal.RecoveryQueue.Load` | router/async_task_recovery.go:239-297 | replays the journal into memory once per process |
| `RecoveryJournal.RecoveryQueue.Enqueue` | router/async_task_recovery.go:331-362 | tracks, then journals, and reports durability only if both loading and the append worked (`JournalEffects.EnqueueIsDurableExactlyWhen`) |
| `RecoveryJournal.RecoveryQueue.EnsureJournaled` | router/async_task_recovery.go:364-387 | the same for an item already pending |
| `RecoveryJournal.RecoveryQueue.Acknowledge` | router/async_task_recovery.go:389-416 | appends the acknowledgement, forgets the item and compacts after the last one |
| `RecoveryJournal.RecoveryQueue.Persist` | router/async_task_recovery.go:136-150 | writes the routes as one batch |
| `RecoveryJournal.RecoveryQueue.Defer` | router/async_task_recovery.go:152-179 | publishes to the cache only after the journal is durable, and never a conflict |
| `RecoveryJournal.RecoveryQueue.Reconcile` | router/async_task_recovery.go:434-484 | a pass over a snapshot, each item at most once, all of them unless cut short |
| `JournalEffects.LoadBringsTheReplay` | router/async_task_recovery.go:239-297 | loading a readable journal brings everything it replays into memory, as journaled, and forgets nothing tracked |
| `JournalEffects.EnqueueIsDurableExactlyWhen` | router/async_task_recovery.go:331-362 | Enqueue reports a valid registration durable exactly when the journal is in memory or readable and the append works or it was journaled already; one that is new to memory and file is appended and nothing else is |
| `JournalEffects.EnsureJournaledIsDurableExactlyWhen` | router/async_task_recovery.go:364-387 | the same for a pending item, and one that is not pending is left out |
| `JournalEffects.RestartFindsIt` | router/async_task_recovery.go:239-362 | each new registration is appended, however many there were before, and a crash and a restart later it is pending and known to be in the file |
| `JournalEffects.AcknowledgedExactlyWhen` | router/async_task_recovery.go:389-416 | acknowledged exactly when it is pending, known to be in the file and the append works; then it is neither pending nor replayed, and the file is emptied exactly after the last one if it can be |
| `JournalEffects.PersistedExactlyWhen` | router/async_task_recovery.go:136-150 | a valid registration is stored exactly when the database answers and no stored route conflicts |
| `JournalEffects.PublishedExactlyWhenConfirmed` | router/async_task_recovery.go:152-179 | only what was reported durable is published, and a crash forgets everything but the file and the rows |
| `JournalEffects.TakenExactlyWhenComplete` | router/async_task_recovery.go:90-103 | a registration is taken exactly with a channel, a known kind and ids that can be looked up |
| `JournalEffects.OthersMayConflict` | router/async_task_recovery.go:136-150 | once another writer has given an id of a registration to another channel, recovery no longer stores it |
| `TaskMappings.EnsureSucceedsExactlyWhen` | db/db.go:1372-1450 | a batch goes through exactly when its mappings are well formed, agree with each other and agree with stored rows |
| `TaskMappings.PreparedExactlyWhenConsistent` | db/db.go:1380-1412 | the checks before the transaction pass exactly for well-formed batches that agree with themselves, and keep one stand-in per id |
| `TaskMappings.EnsurePins` | db/db.go:1418-1445 | a batch changes no stored channel, kind or real alias, and afterwards every id of it is routed as asked |
| `TaskMappings.EnsureIsIdempotent` | db/db.go:1418-1445 | repeating a batch that went through writes and publishes nothing |
| `TaskMappings.PinnedForGood` | db/db.go:1372-1450 | over any run of batches, lookups and deletions of other channels an id keeps channel and kind, and a real alias never changes |
| `TaskMappings.CacheNeverDisagrees` | db/db.go:1636-1668 | after any writes, deletions, lookups and purges that run one after another a lookup through the cache equals a direct read, also per kind |
| `MappingRaces.SettlingExactlyWhenPublishesAreCurrent` | db/db.go:1654-1668 | over any interleaving of the statements of concurrent calls every cached route is at every moment the stored one or about to be replaced or dropped, exactly when each publish finds its route still current |
| `MappingRaces.AgreesWhenQuiet` | db/db.go:1443-1450 | then cache and rows agree whenever no call is in flight |
| `MappingRaces.StepIsSafeExactlyWhenCurrent` | db/db.go:1065-1069 | one statement keeps that property exactly unless it publishes a route that is out of date |
| `MappingRaces.RunsInTurnStayCurrent` | db/db.go:1654-1668 | every publish is current when routes of one id are published in the order they were read or committed and a deletion invalidates after the routes of its channel read before it |
| `MappingRaces.DeletionOvertakesLookup` | db/db.go:1039-1072 | a lookup that reads its row before a channel deletion and publishes after the invalidation leaves a cached route without a row |
| `TaskMappings.CachedLookupIsRowLookup` | db/db.go:1636-1668 | an exact lookup answers with the stored row and keeps cache and rows in agreement |
| `TaskMappings.KindLookupIsRowLookup` | db/db.go:1595-1614 | a kind lookup, with its prefixed image fallback, answers from the rows and only with that kind |
| `TaskMappings.CheckedExactlyWhenWellFormed` | db/db.go:1452-1491 | the alias check cannot fail: the fallback alias of a valid key is valid |
| `TaskMappings.WriteAllMerges` | db/db.go:1418-1440 | the transaction leaves for every id exactly the merged row, or nothing at all |
| `TaskMappings.TaskMappingStore.Ensure` | db/db.go:1372-1450 | validates, writes in one transaction and publishes after it, or reports the first problem and changes nothing |
| `TaskMappings.TaskMappingStore.Prepare` | db/db.go:1380-1412 | checks and de-duplicates a batch in first-mention order |
| `TaskMappings.TaskMappingStore.RecordMapping` | db/db.go:1319-1351 | the older overwrite, published after it |
| `TaskMappings.TaskMappingStore.DeleteChannelRows` | db/db.go:1039-1072 | removes a channel's rows and its cached routes |
| `TaskMappings.TaskMappingStore.GetExact` | db/db.go:1636-1668 | cache first, then the row, which it publishes |
| `TaskMappings.TaskMappingStore.GetForKind` | db/db.go:1595-1614 | a lookup restricted to one kind |
| `TaskMappingEffects.BatchIsStored` | db/db.go:1418-1491 | a batch that goes through leaves a row for every id in it, made from its first mention: new ones as asked, stored ones with the alias filled in where it said nothing |
| `TaskMappingEffects.WritesOnlyItsIds` | db/db.go:1418-1440 | every other row stays |
| `TaskMappingEffects.RecordOverwrites` | db/db.go:1319-1351 | the older writer takes exactly the mappings whose id and alias are valid, and overwrites that row and no other |
| `TaskMappingEffects.DeletionRemovesTheChannel` | db/db.go:1039-1072 | a channel's deletion removes exactly its rows, and from the cache exactly its routes |
| `TaskMappingEffects.PublishIsAnsweredWhileFresh` | db/task_mapping_cache.go:47-80 | a publish is answered from the cache until it is as old as the cache allows, and not longer |
| `TaskMappingEffects.PublishedStaysCached` | db/task_mapping_cache.go:47-80 | and it stays there while fewer other ids are published than the cache holds |
| `TaskMappingEffects.ReadRowIsCached` | db/db.go:1636-1668 | a lookup that has to read the row leaves it cached, and one answered from the cache changes nothing |
| `TaskMappingEffects.ForgetsWhatIsGone` | db/task_mapping_cache.go:31-87 | a lookup that finds nothing forgets the entries of its id alone, a purge drops entries from the front while they are expired, and clearing drops all |
| `TaskMappingEffects.IdsAreValidExactlyWhen` | db/db.go:1452-1465 | an id is valid exactly with 1 to 128 bytes, no two dots in a row, and neither blanks, control characters nor what a path or a query needs |
| `TaskMappingEffects.RoutesAgreeExactlyWhen` | db/db.go:1418-1440 | routes agree exactly in channel and kind, where a row without a kind is a video row |
| `TaskMappingEffects.RefusalsSayWhy` | db/db.go:1319-1491 | a blank identity, an id that cannot be looked up, another route and a bad alias are told apart |
| `MappingCache.CacheRefinesSimple` | db/task_mapping_cache.go:26-97 | after any history in time order the unexpired entries are exactly those of a plain bounded sequence in which nothing expires early |
| `MappingCache.LookupIsExact` | db/task_mapping_cache.go:66-80 | a lookup after any history answers as the plain sequence does |
| `MappingCache.SimpleIsMostRecent` | db/task_mapping_cache.go:47-64 | that sequence holds the most recently published ids, so eviction takes the oldest publish |
| `MappingCache.HistoryKeepsShape` | db/task_mapping_cache.go:47-64 | entries stay in publication order, ids unique, size within the maximum |
| `MappingCache.PurgeRemovesExactlyTheExpired` | db/task_mapping_cache.go:31-39 | stopping at the first live entry removes exactly the expired ones |
| `MappingCache.CutKeepsLinked` | db/task_mapping_cache.go:26-29 | removing an element keeps map and list in bijection |
| `MappingCache.SizesAgree` | db/task_mapping_cache.go:59-61 | map and list have the same size, so the map's length bounds the list |
| `MappingCache.TaskMappingCache.Remove` | db/task_mapping_cache.go:26-29 | takes one id out of map and list |
| `MappingCache.TaskMappingCache.Purge` | db/task_mapping_cache.go:31-45 | drops the expired front |
| `MappingCache.TaskMappingCache.Publish` | db/task_mapping_cache.go:47-64 | purges, then moves a known id to the back or evicts the oldest and appends |
| `MappingCache.TaskMappingCache.Evict` | db/task_mapping_cache.go:59-61 | leaves room for one entry, oldest publish first |
| `MappingCache.TaskMappingCache.Get` | db/task_mapping_cache.go:66-80 | returns a live mapping, or drops an expired one and finds nothing |
| `MappingCache.TaskMappingCache.Clear` | db/task_mapping_cache.go:82-87 | empties map and list |
| `MappingCache.TaskMappingCache.InvalidateChannel` | db/task_mapping_cache.go:89-97 | removes exactly the channel's entries while iterating over the map |
| `ProfileCatalog.HistoryKeepsItsMeaning` | db/profile_snapshot.go:51-103 | whatever is created, edited, published, retired, deleted or renumbered, a task goes on resolving to the same protocol |
| `ProfileCatalog.ResolvesForGoodExactlyWhenAnchored` | db/profile_snapshot.go:64-103 | a resolving task resolves for good exactly when it is detached or its revision exists |
| `ProfileCatalog.NeverOtherContent` | db/profile_snapshot.go:60-63 | a task with a captured digest never resolves to other content, even if its number is taken over |
| `ProfileCatalog.CapturedDigestDecides` | db/profile_snapshot.go:113-134 | a captured digest admits only its own protocol in any state of catalogue and archive |
| `ProfileCatalog.DeletionPreserves` | db/profile.go:344-400 | deleting a revision or a profile changes where a task's protocol is read from, not what it is |
| `ProfileCatalog.ContentIsImmutable` | db/profile.go:243-323 | while a published or retired revision exists, its content never changes and it never becomes a draft |
| `ProfileCatalog.RunKeepsInv` | db/profile.go:174-323 | in every reachable catalogue the latest number is the largest existing one, revisions belong to profiles, and the archive is canonical |
| `ProfileCatalog.DeleteRevisionKeepsInv` | db/profile.go:332-405 | deletion recomputes the latest number and leaves the archive canonical |
| `ProfileCatalog.RawSaveIsSafeExactlyWhenPublished` | db/profile.go:616-648 | the binding write alone keeps enabled bindings on published revisions exactly for a disabled binding or a published revision |
| `ProfileCatalog.StepIsSafeExactlyWhenPublished` | db/profile.go:332-693 | every other operation keeps them there, and a binding write exactly if its revision is still published |
| `ProfileCatalog.EnabledStayPublishedExactlyWhenWritesAre` | router/profile_binding_routes.go:238-305 | over any interleaving of requests, publications, retirements and deletions enabled bindings are at every moment on existing published revisions, exactly when each write of an enabled binding finds its revision published |
| `ProfileCatalog.SparingRunsStayPublished` | router/profile_binding_routes.go:387-429 | that is so when no revision is retired or deleted between a request's check of it and its write |
| `ProfileCatalog.RetirementOvertakesRequest` | router/profile_binding_routes.go:238-264 | a retirement between check and write leaves an enabled binding on a retired revision |
| `ProfileCatalog.MaxNumber` | db/profile.go:391-399 | the largest number of the profile, 0 if it has none |
| `ProfileCatalog.ProfileStore.CreateProfile` | db/profile.go:106-123 | inserts a profile with no revisions |
| `ProfileCatalog.ProfileStore.CreateRevision` | db/profile.go:174-237 | inserts a draft under the given or the next number, rolling the number back on a duplicate |
| `ProfileCatalog.ProfileStore.SaveRevision` | db/profile.go:243-323 | writes over nothing or a draft only |
| `ProfileCatalog.ProfileStore.Publish` | db/profile.go:415-445 | publishes a draft or a retired revision (`ProfileEffects.PublishedAfterPublish`) |
| `ProfileCatalog.ProfileStore.Retire` | db/profile.go:453-491 | retires a published revision without enabled bindings |
| `ProfileCatalog.ProfileStore.ArchiveTasks` | db/profile_snapshot.go:139-188 | succeeds exactly when every referenced revision can be archived, and then archives them and fills blank digests |
| `ProfileCatalog.ProfileStore.DeleteRevision` | db/profile.go:332-405 | refuses bound or active revisions, else archives, detaches and deletes |
| `ProfileCatalog.ProfileStore.DeleteProfile` | db/profile.go:497-555 | the same for a whole profile |
| `ProfileCatalog.ProfileStore.Validate` | router/profile_binding_routes.go:387-429 | lets a request through exactly when its revision is published at that moment |
| `ProfileCatalog.ProfileStore.CheckPeers` | db/profile.go:624-636 | the peer check of a validated request as a statement of its own |
| `ProfileCatalog.ProfileStore.WriteBinding` | db/profile.go:637-647 | the write of a checked request, which looks at nothing |
| `ProfileCatalog.ProfileStore.SaveBinding` | router/profile_binding_routes.go:147-192 | both statements in one transaction, as the bulk apply runs them |
| `ProfileCatalog.ProfileStore.Toggle` | db/profile.go:653-693 | enables only on a published revision |
| `ProfileEffects.CreatedProfileIsEmpty` | db/profile.go:106-123 | a profile is created exactly under a free id, without revisions |
| `ProfileEffects.DraftIsAdded` | db/profile.go:174-237 | a draft is added exactly under a free positive number, or without one under a number above all there are |
| `ProfileEffects.SavedIsWritten` | db/profile.go:243-323 | a revision is written exactly where there is none or over a draft |
| `ProfileEffects.PublishedAfterPublish` | db/profile.go:415-445 | publishing works exactly for an existing revision, which is published with the content it had; otherwise only its profile's latest number may change |
| `ProfileEffects.RetiredAfterRetire` | db/profile.go:453-491 | retiring works exactly for a published revision without enabled bindings, and again for a retired one, which then is retired |
| `ProfileEffects.PublishKeepsNumbers` | db/profile.go:435-443 | in every reachable catalogue publication leaves the profile's latest number as it is |
| `ProfileEffects.DraftRefusalsSayWhy` | db/profile.go:106-491 | a blank identity, a missing row, a taken number, an immutable revision and an enabled binding are told apart |
| `ProfileEffects.ValidatedExactlyWhenPublished` | router/profile_binding_routes.go:387-429 | a request passes exactly when its revision has a positive number and is published |
| `ProfileEffects.BindableFromPublishToRetire` | db/profile.go:415-491 | a request passes straight after a publication and not straight after a retirement |
| `ProfileEffects.HandedToTheTable` | db/profile.go:616-648 | checks, writes and saves of bindings are those of the binding table, and touch nothing else |
| `ProfileEffects.ToggledExactlyWhen` | db/profile.go:653-693 | a binding is switched off always and on exactly while its revision is published |
| `ProfileEffects.BindingRefusalsSayWhy` | db/profile.go:616-693 | a blank identity, a missing row, a revision that is not published and a clash of patterns are told apart |
| `ProfileEffects.AttachedResolvesExactlyWhen` | db/profile_snapshot.go:51-103 | a task whose revision exists resolves exactly to its content, if that matches the captured digest |
| `ProfileEffects.DetachedResolvesExactlyWhen` | db/profile_snapshot.go:64-103 | any other task resolves exactly when the protocol of its digest is archived |
| `ProfileEffects.ArchivesExactlyWhenResolving` | db/profile_snapshot.go:139-188 | archiving for a deletion succeeds exactly when every task concerned can be archived |
| `ProfileEffects.RevisionDeletedExactlyWhenFree` | db/profile.go:332-405 | a revision is deleted exactly when nothing active or bound uses it and its tasks can be archived; then it is gone and they are detached |
| `ProfileEffects.ProfileDeletedExactlyWhenFree` | db/profile.go:497-555 | the same for a profile with all its revisions |
| `ProfileEffects.DeletionRefusalsSayWhy` | db/profile.go:332-555 | a refused deletion names the first of a built-in profile, a binding, an unfinished task and a protocol that would be lost |
| `ProfileEffects.TaskStepsAreLocal` | db/profile_snapshot.go:139-188 | creating, finishing and projecting a task changes that task alone |
| `BindingPatterns.OverlapExactlyWhenShared` | db/profile.go:698-715 | the overlap test is true exactly when some model name matches both patterns |
| `BindingPatterns.PutIsSafeExactlyWithoutClash` | db/profile.go:637-647 | a write keeps the patterns of equally preferred rules apart exactly when it clashes with no row it finds |
| `BindingPatterns.UnambiguousExactlyWhenWritesAreClear` | db/profile.go:616-693 | over any interleaving of checks, writes, transactional saves, toggles and deletions the patterns of equally preferred rules stay apart exactly when no write finds a clash |
| `BindingPatterns.RacingSavesAreAmbiguous` | db/profile.go:624-647 | two creates that both check before either writes pass, and leave two equally preferred rules for one model |
| `BindingPatterns.OrderlySavesAreClear` | db/profile.go:616-648 | saves that start only when they cannot clash with the ones in flight, in particular saves one at a time, find no clash when they write |
| `BindingPatterns.OneRuleEachMeansUnambiguous` | db/profile.go:698-715 | patterns are apart exactly where no model is selected twice: an overlap always has a common model |
| `BindingPatterns.OneRulePerPrecedence` | db/profile.go:616-693 | at every moment at most one rule of a channel, operation and precedence selects a model, exactly when no write of the run finds a clash |
| `BindingPatterns.LookupIgnoresRowIds` | db/profile.go:721-736 | after a run whose writes find no clash the rule that serves a model does not depend on the order of rows of equal precedence |
| `BindingPatterns.Find` | db/profile.go:721-736 | returns the matching enabled rule of highest precedence, unique, or none when nothing matches |
| `BindingPatterns.BindingTable.FindRefusal` | db/profile.go:624-636 | refuses exactly when an equally preferred rule overlaps |
| `BindingPatterns.BindingTable.CheckPeers` | db/profile.go:624-636 | the same as a statement of its own: what passes is ready to be written |
| `BindingPatterns.BindingTable.Write` | db/profile.go:637-647 | writes a ready row whatever the table holds by then |
| `BindingPatterns.BindingTable.Save` | router/profile_binding_routes.go:147-192 | check and write in the caller's transaction |
| `BindingPatterns.BindingTable.SetEnabled` | db/profile.go:653-693 | changes the flag and nothing else |
| `BindingEffects.PatternsSelect` | db/profile.go:698-736 | "*" selects every model, a pattern ending in "*" the models with its prefix, any other pattern the model it names |
| `BindingEffects.RefusedExactlyWhenShared` | db/profile.go:616-636 | a save is refused exactly without a channel, an operation or a pattern, or when another rule of equal precedence selects a model it selects |
| `BindingEffects.SavedIsStored` | db/profile.go:616-648 | any other save adds its rule under a fresh id or replaces the row it names, and every other row stays |
| `BindingEffects.OneRowChanges` | db/profile.go:653-693 | a toggle changes one flag and a deletion removes one row |
| `Submission.AtMostOneSubmission` | router/profile_execution.go:93-187 | over every interleaving of requests, processes and crashes at most one submission per operation, key and fingerprint, and per process one per operation and key |
| `Submission.OnceExactlyWhenNeverContended` | router/profile_execution.go:119-187 | a run is never one race away from a second submission for an operation and key exactly when at no moment two requests with different bodies are between lookup and reservation for it |
| `Submission.UncontendedRunsSubmitOnce` | router/profile_execution.go:119-187 | without such a moment at most one submission per operation and key, however many processes there are |
| `Submission.ReservedOnceExactlyWhenFree` | router/profile_idempotency.go:146-156 | an operation and key never has two reservations exactly when each one made finds none there, and then has at most one submission |
| `Submission.OverlappingProcessesSubmitTwice` | router/profile_idempotency.go:40-83 | the run in which two processes, each behind its own lock, submit two bodies under one key |
| `Submission.RestartsDoNotResubmit` | router/profile_execution.go:119-151 | processes that do not overlap never contend, so at most one submission per operation and key for good |
| `Submission.RunKeepsInv` | router/profile_idempotency.go:40-83 | in every reachable state the lock table is sound and everything sent was reserved first |
| `Submission.NeverTwoInside` | router/profile_idempotency.go:51-82 | in every reachable state two threads of a process inside for one key are the same thread, although lock objects are deleted and recreated |
| `Submission.EntriesLiveAsLongAsUsers` | router/profile_idempotency.go:51-69 | in every reachable state a key has a lock entry exactly while a thread of its process uses it, so the table is empty once all users are gone |
| `Submission.ProfileLocks.Enter` | router/profile_idempotency.go:51-61 | finds or creates the lock object and takes a reference |
| `Submission.ProfileLocks.TryTake` | router/profile_idempotency.go:70-72 | takes the semaphore exactly if it is free |
| `Submission.ProfileLocks.Release` | router/profile_idempotency.go:81-82 | frees the semaphore |
| `Submission.ProfileLocks.DropReference` | router/profile_idempotency.go:62-69 | gives the reference back, removing the entry with the last one |
| `Submission.ReservationTable.Reserve` | router/profile_idempotency.go:146-156 | creates the row exactly if it is new and the database answers |
| `Submission.ReservationTable.Find` | db/task.go:327-364 | no row, the caller's own row, or a conflict (`SubmissionEffects.AnsweredByItsRows`) |
| `SubmissionEffects.AnsweredByItsRows` | db/task.go:327-364 | a lookup finds nothing exactly if no row has its slot, replays exactly if its own row is the only one and was accepted, waits exactly if that row is not decided, and conflicts otherwise |
| `SubmissionEffects.AnswersAreJustified` | router/profile_idempotency.go:146-175 | over every run what a request answers is what the rows said when it looked |
| `SubmissionEffects.OnlyAcceptedIsReplayed` | router/profile_execution.go:119-187 | over every run no request is answered with a recorded outcome other than an accepted one |
| `SubmissionEffects.RecordedOutcomeIsFinal` | router/profile_execution.go:151-187 | over every interleaving and crash a recorded outcome never changes |
| `SubmissionEffects.RepetitionsAreAnswered` | router/profile_idempotency.go:159-175 | once a submission was recorded as accepted its repetitions are answered with it, and requests with another body with a conflict, for as long as different bodies do not contend |
| `SubmissionEffects.FirstRequestGoesThrough` | router/profile_execution.go:93-187 | a request that finds its key free takes the lock, reserves, submits once, records the outcome and leaves the table as it found it |
| `SubmissionEffects.CrashedStaysDown` | router/profile_idempotency.go:40-83 | a crash takes its process's threads and locks and nothing else, and that process never acts again |
| `SubmissionEffects.GivingUpLeavesNothing` | router/profile_idempotency.go:40-83 | a request that gives up writes and sends nothing and gives its reference or its lock back |
| `AnthropicStream.StreamAgreesWithConversion` | adapter/anthropic.go:241-395 | for every well-formed stream the accumulated chunks equal the converted message exactly when text and thinking blocks start empty and every tool streamed arguments |
| `AnthropicStream.StreamCarries` | adapter/anthropic.go:332-379 | after every well-formed prefix the accumulated chunks carry exactly the streamed text, reasoning, tools, ids and finish reason |
| `AnthropicStream.StreamAsOpenAI` | adapter/anthropic.go:292-395 | the translation loop, including the stop at an error event |
| `AnthropicStream.Convert` | adapter/anthropic.go:241-277 | the conversion loop over a whole message |
| `AnthropicEffects.StopReasonsAreNamed` | adapter/anthropic.go:279-290 | the token limit is a length stop, a tool request a tool stop, the end of a turn and a stop sequence a plain stop, and other reasons are passed on |
| `AnthropicEffects.JoinedFromTheFront` | adapter/anthropic.go:241-277 | text parts are joined from the first block to the last |
| `AnthropicEffects.ToolsFromTheFront` | adapter/anthropic.go:241-277 | and tools are listed in that order |
| `AnthropicEffects.TextIsRead` | adapter/anthropic.go:332-379 | a text block streamed in two parts is read as the two parts in order, under the message's id and model, with its stop reason |
| `AnthropicEffects.ToolCallIsRead` | adapter/anthropic.go:332-379 | a streamed tool call is read with its id, its name and its arguments put together |
| `AnthropicEffects.NothingAfterAnError` | adapter/anthropic.go:380-395 | nothing that follows an error event is translated |
| `AnthropicEffects.PingsDoNotMatter` | adapter/anthropic.go:332-379 | a ping changes nothing wherever it comes |
| `AnthropicEffects.StreamedMessageIsWellFormed` | adapter/anthropic.go:332-379 | a message streamed block by block is a well-formed stream exactly when every delta suits its block |
| `AnthropicEffects.MessageIsRead` | adapter/anthropic.go:241-277 | a whole message is read with text, reasoning and tools apart |
| `Failover.NothingIsResent` | router/profile_direct.go:306-387 | across candidates and keys every attempt but the last was answered with 401, 403, 404, 405, 408 or 429, and no candidate and key is tried twice |
| `Failover.MutatingGoesOnExactlyAfterRefusal` | router/profile_direct.go:441-458 | a state-changing request moves to the next candidate exactly after a readable refusal of those kinds |
| `Failover.CredentialLoop` | protocol/executor.go:91-171 | only 401 and 403 rotate credentials, keys are tried in order without gaps, the last reply decides |
| `Failover.NormalizedKeysAreDistinct` | protocol/executor.go:657-672 | the keys tried are distinct, not blank, and exactly those configured |
| `Failover.RotationIsSafe` | adapter/openai.go:654-742 | a POST changes key only after 401, 403 or 429, an idempotent request also after a failed connection |
| `Failover.EveryKeyStartsOnce` | adapter/openai.go:85-106 | any n successive requests of a channel with n keys try each key first exactly once, however requests of other channels are mixed in |
| `Failover.StartsWithMeans` | adapter/openai.go:98-105 | a request tries the keys from its turn on, then the ones before |
| `Failover.CounterCountsTurns` | adapter/openai.go:94-99 | a channel's counter counts that channel's requests only |
| `Failover.RotationIsARotation` | adapter/openai.go:100-105 | a rotation is the keys from a position on followed by the ones before it, so every configured key is tried as often as it is configured |
| `Failover.ExecuteRaw` | protocol/executor.go:55-171 | the credential loop |
| `Failover.NormalizeKeys` | protocol/executor.go:657-672 | trims, drops blanks and repeats |
| `Failover.RouteDirect` | router/profile_direct.go:306-392 | the candidate loop |
| `Failover.ExecuteWithKeyRotation` | adapter/openai.go:639-742 | the rotation loop |
| `Failover.KeyRotation.OrderedKeys` | adapter/openai.go:85-106 | rotates by the channel's call counter, which a single key leaves alone |
| `FailoverEffects.TrimStripsBlanks` | protocol/executor.go:657-672 | a key loses the blanks around it and nothing else |
| `FailoverEffects.RepliesAreClassified` | protocol/executor.go:91-171 | a reply answers exactly if it is a success read to its end; any other leaves a state-changing request in doubt except a refusal that was read and an answer already being delivered |
| `FailoverEffects.TriesUntilAuthorized` | protocol/executor.go:91-112 | a candidate's keys are tried exactly until one is not refused with 401 or 403 |
| `FailoverEffects.HeaderReachesTheClientExactlyWhen` | protocol/executor.go:113-171 | the client has been sent a header exactly after a success that was streamed or read and is not captured |
| `FailoverEffects.HarmlessGoesOnExactlyAfterRefusal` | router/profile_direct.go:441-458 | a request that changes nothing moves to the next candidate exactly after one of the six refusals |
| `FailoverEffects.FirstUsableAnswers` | router/profile_direct.go:306-387 | the first candidate that can be sent the request is, and if it succeeds at once that is the only attempt |
| `FailoverEffects.StoppedWithoutSending` | router/profile_direct.go:306-392 | an unusable binding, profile or request ends the route with its own error, and nothing is sent |
| `FailoverEffects.NobodyUsable` | router/profile_direct.go:306-392 | when every candidate is passed over nothing is sent, and the route is taken exactly if one of them was bound |
| `FailoverEffects.LettingGoHandsOn` | router/profile_direct.go:306-392 | after a candidate that lets go the rest is tried as if it had come first, and after any other nobody is |
| `FailoverEffects.AnsweredExactlyWhenSucceeded` | router/profile_direct.go:306-392 | a routed request is answered exactly if the last reply received is a success read to its end |
| `FailoverEffects.NoKeyIsTriedTwice` | router/profile_direct.go:306-392 | no key of a candidate is tried twice, and each attempt but the last met one of the six refusals |
| `FailoverEffects.RotationDoesNotStopEarly` | adapter/openai.go:654-742 | the rotation ends before the last key only after a reply it is not meant to go on after |
| `PollSchedule.SaturatingMultiply` | protocol/async.go:244-252 | the exact product clamped to 64 bits |
| `PollSchedule.SaturatingPowerOfTwo` | protocol/async.go:254-269 | the exact doubling clamped to 64 bits |
| `PollSchedule.SaturatingAdd` | protocol/async.go:233-242 | the exact sum clamped to 64 bits |
| `PollSchedule.RetryAfterIsExact` | protocol/async.go:271-294 | a readable header asks for its exact delay, clamped |
| `PollSchedule.DelayIsBounded` | protocol/async.go:170-212 | any delay is nonnegative and within the configured maximum |
| `PollSchedule.ScheduleIsNondecreasing` | protocol/async.go:170-184 | without jitter and header the schedule never shortens |
| `PollSchedule.JitterBoundFits` | protocol/async.go:189-194 | the bound of the random draw fits exactly below the longest whole-millisecond duration |
| `PollSchedule.NextDelay` | protocol/async.go:170-212 | the delay before the next poll |
| `PollSchedule.WaitIsBounded` | protocol/async.go:115-159 | at most the allowed polls, one observation per poll, in order |
| `PollSchedule.SucceedsExactlyOnSuccess` | protocol/async.go:131-136 | success exactly when the last poll matched a success value |
| `PollSchedule.SleepsAreBounded` | protocol/async.go:149-154 | every sleep is within bounds |
| `PollSchedule.EndingSaysWhy` | protocol/async.go:118-159 | a decisive value was the answer to the last poll; used-up polls report a poll error exactly when some poll failed; any other ending was a timeout or an interrupted sleep |
| `PollSchedule.Wait` | protocol/async.go:92-160 | the wait loop |
| `PollEffects.HeaderDecides` | protocol/async.go:185-187 | a readable Retry-After decides the delay whatever the backoff and the attempt: its seconds, or the time left until its date, cut at the maximum alone |
| `PollEffects.UnreadableHeaderIsIgnored` | protocol/async.go:271-294 | any other header asks for nothing and the backoff decides |
| `PollEffects.DelaysFollowTheirMode` | protocol/async.go:170-184 | the first delay is the base, or the interval if that is 0, and up to saturation each further one is the same, the base longer or twice as long |
| `PollEffects.MaximumCuts` | protocol/async.go:205-212 | the maximum cuts what comes out without it |
| `PollEffects.JitterAddsTheDraw` | protocol/async.go:188-204 | below saturation the jitter adds the whole milliseconds of the draw, brought into its bounds |
| `PollEffects.VerdictsMean` | protocol/async.go:127-147 | a success value counts as one even if it is a failure value too, and a failed poll is recorded as a failure |
| `PollEffects.FirstDecisionEnds` | protocol/async.go:115-160 | the wait ends, with the matching answer, at the first poll that is decisive, finds it over, is interrupted before the next or is the last |
| `PollEffects.SleepsFollowTheSchedule` | protocol/async.go:149-154 | after each poll that is followed by another it sleeps for the delay due after that poll |
| `LoginAdmission.RunKeepsInv` | security/admission.go:61-128 | under Begin, Finish, Cancel and Ask in any order failures and running attempts never exceed five, unfinished attempts keep their tabled bucket, and the table keeps its bound |
| `LoginAdmission.FiveAtATime` | security/admission.go:90-107 | from the empty table on, a client never has more than five running attempts |
| `LoginAdmission.StepDropsLockExactlyWhen` | security/admission.go:61-211 | within its window a lock is dropped by a step exactly when the step evicts the key or records a success on it |
| `LoginAdmission.LockLastsExactlyWhenKept` | security/admission.go:61-211 | over any run within the window the key stays locked exactly when no step does that |
| `LoginAdmission.EvictsExactlyWhenOldest` | security/admission.go:165-211 | a new client can cost a key its lock exactly when pruning leaves the table full and the key is the one seen longest ago among those without attempts |
| `LoginAdmission.LockHolds` | security/admission.go:61-73 | a locked key admits no attempt before its lock ends, unless it comes to be that key or a running attempt succeeds |
| `LoginAdmission.RoomOrBusyKeepsLock` | security/admission.go:165-211 | a key keeps its lock over any run in which, whenever an attempt begins, the table has room or the key has an attempt running |
| `LoginAdmission.FloodEndsLock` | security/admission.go:200-211 | the run in which a full table of other clients ends a lock before its time |
| `LoginAdmission.FifthFailureLocks` | security/admission.go:150-162 | the fifth remembered failure locks the key for the whole window |
| `LoginAdmission.MakeKeepsInv` | security/admission.go:165-178 | a new bucket is refused only when a full table has a running attempt in every bucket |
| `LoginAdmission.BeginKeepsInv` | security/admission.go:90-107 | admission takes at most the room left |
| `LoginAdmission.FinishKeepsInv` | security/admission.go:112-128 | a finished attempt frees its place, and its bucket goes only with its last user |
| `LoginAdmission.LoginAttempts.Begin` | security/admission.go:90-107 | admits exactly below the limit and outside a lock |
| `LoginAdmission.LoginAttempts.Finish` | security/admission.go:109-128 | records a result or a cancellation once |
| `LoginAdmission.LoginAttempts.PruneAttempts` | security/admission.go:191-198 | drops stale failures and idle buckets |
| `LoginAdmission.LoginAttempts.EvictOldest` | security/admission.go:200-211 | removes the bucket seen longest ago among those without attempts |
| `LoginAdmission.LoginAttempts.Ask` | security/admission.go:75-79 | answers from the key's own bucket, which it prunes |
| `LoginEffects.PruningKeepsExactlyTheWindow` | security/admission.go:180-189 | pruning keeps every failure inside the window as often as it was recorded, and none outside |
| `LoginEffects.AdmittedExactlyWhenOpen` | security/admission.go:61-107 | an attempt at a key with a bucket is admitted exactly when the key is not locked and its recent failures and running attempts are fewer than five; it then runs there and no other attempt or bucket changes |
| `LoginEffects.NewcomerAdmittedExactlyWhenRoom` | security/admission.go:90-178 | an attempt at a key without a bucket is admitted exactly when the table has room or a bucket without running attempts, and then runs alone in a bucket of its own |
| `LoginEffects.NewcomerCosts` | security/admission.go:165-211 | a newcomer costs nobody a bucket while there is room, in a full table the idle theirs, and at most one other client, the one seen longest ago |
| `LoginEffects.SafeExactlyWithRoomOrAnAttempt` | security/admission.go:165-211 | a key is safe from newcomers in the sense of `RoomOrBusyKeepsLock` exactly while the table has room or an attempt of it runs |
| `LoginEffects.PruningGivesUpExactlyTheIdle` | security/admission.go:191-198 | pruning gives up exactly the buckets without a running attempt, a lock or a recent failure |
| `LoginEffects.AskingAnswersForTheAttempt` | security/admission.go:61-79 | asking answers what an attempt at that moment would be told, as far as the key's own bucket decides |
| `LoginEffects.FinishingRecords` | security/admission.go:109-163 | a finished attempt frees its place; a success forgets failures and lock, a failure joins the recent ones and locks the key exactly if they are five then, a cancellation leaves both alone, and the bucket goes exactly when nothing is left in it |
| `LoginEffects.FinishedOnce` | security/admission.go:112-128 | only the first end of an attempt counts |
| `LoginEffects.CancellingGivesThePlaceBack` | security/admission.go:109-128 | what was open before a cancelled attempt is open after it |
| `LoginEffects.LockEnds` | security/admission.go:61-73 | once the lock and every remembered failure are a window old an attempt is admitted while fewer than five run |

## Left out

- TaskMappings.TaskMappingStore.RecordMapping: the older writer may repoint an id, so `PinnedForGood` excludes it; cache agreement includes it.
- ProfileCatalog.HistoryKeepsItsMeaning: covers tasks that are detached or whose revision exists; `ResolvesForGoodExactlyWhenAnchored` shows the remaining ones can be cut off by a new draft under the missing number, though never answered with other content.
- Submission.AtMostOneSubmission: per operation and key the bound is per process, as in the code; `OverlappingProcessesSubmitTwice` is the run that breaks it across processes and `OnceExactlyWhenNeverContended` says when it holds.
- ProfileCatalog.RunKeepsInv: does not promise that enabled bindings are on published revisions, which the code does not keep (`RetirementOvertakesRequest`); `EnabledStayPublishedExactlyWhenWritesAre` has the exact condition.
- BindingPatterns.LookupIgnoresRowIds: only for runs whose writes find no clash, which concurrent saves can miss (`RacingSavesAreAmbiguous`).
- TaskMappings.CacheNeverDisagrees: one call at a time; `MappingRaces` has the statements of concurrent calls.
- RecoveryJournal.EnqueuedIsNeverLost: one process at a time and crashes of that process; `JournalRaces` has several, which the code does not keep apart (`TruncationDropsLine`). Whether a line whose sync failed is in the file is settled when it is appended, so a power failure that loses a line already read back is not a step of the model.
- Failover.KeyRotation.OrderedKeys: does not model the wrap of the 64-bit call counter, nor RemoveChannelCounter (adapter/openai.go:80-83), which starts a removed channel's counter over.
- AnthropicStream.StreamAgreesWithConversion: argument text is compared as streamed; the conversion re-encodes the same JSON value.
- PollSchedule.NextDelay: the random draw is any value, clamped as the code clamps an injected one; `JitterBoundFits` says when the draw's own bound fits 64 bits.
- That no stored file leaks: an object left behind by moving an asset has no deletion job of its own in the database layer.
- The `expired` asset transition of the retention scanner; the status exists and counts as revoked.
- The unfenced helpers: CompleteMediaMaterializationJobContext, FailMediaMaterializationJobContext, CompleteMediaDeletionJobContext, FailMediaDeletionJobContext, CreateMediaDeletionJobContext, AcquireMediaObjectReferenceContext, MarkMediaAssetFailedContext, MarkMediaAssetDeleteFailedContext, a hard delete of a live asset, and RecordLoginResult. They break the invariants by design.
- UpdateProfileTaskRunProjectionContext as a status step: it writes the status unchecked at accept time, so the status results start after it. `ProfileCatalog` has it as a step that rewrites what a task has captured.
- Deletion of routing rows in `RecoveryJournal`: a registration already recovered is then gone with its channel; `TaskMappings` models the deletion.
- The legacy task row and media policy a recovery also writes (router/async_task_recovery.go:146-150), torn journal lines, and a change of journal path.
- Direct executions in `Submission`, and requests without a caller key, which take no lock and make no reservation; the image route, which repeats the same steps.
- The dispatcher and circuit breaker behind a channel being unavailable, and how candidates are chosen and ordered.
- LoginAdmission.LockHolds: a full table may evict a locked bucket without running attempts, and the lock goes with it, as in the code; `FloodEndsLock` is a run that does so.
- The password-work budget, the wrap-around of bucket addresses, and the cache's cleanup goroutine (its purge is modelled).
- Columns nothing decides on: timestamps of record, storage keys, MIME types, error texts, audit attempts and events, token usage.
- SQL, GORM and SQLite mechanics, HTTP handlers, TLS, encryption, URL checks, JSON encoding, metrics, channel and model CRUD, image size tables: plumbing or easier claims.
