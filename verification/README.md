# Verified model of the continuity store, process output and approval state machines

A Dafny model of the parts of the server that promise something across failures: the durable continuity
store (a write-ahead journal over several JSON files, a schema migration with rollback, the task and receipt
protocol on top), the process output pipeline, OAuth refresh rotation, the operator approval ledger and
UTF-8 file paging. `dafny verify dfyconfig.toml` checks the whole project.

## How it is modelled

**Disk.** `Durability` keeps what a running process sees (`visible`) and, for every path whose directory entry
changed since that directory was last synced, every content the path has had since (`unsynced`). A process
restart keeps `visible`; a power failure picks any one remembered content, path by path. Every primitive may
fail before or after its effect. A process that dies between two primitives leaves the same disk as one whose
next primitive fails without effect, so a failed call also stands for a crash at that point, and recovery may
itself fail or die any number of times. While a volume is `calm` no primitive fails: with that, contracts also
say what must succeed, and `walk` bounds what a directory walk adds up to, so that they can say when the byte
budget has room. SHA-256 and HMAC are injective constructors; a file is the value it decodes to plus a `layout`
number that stands for the rest of its bytes.

**Store and service.** `AtomicWriter`, `StorageJournal`, `StorageMigration`, `TaskStore`, `ExecutionRecorder` and
`TaskService` are classes and methods over that disk, in the order of the source's own steps. Their contracts speak
of `MayBecome`: every content a file can come out with after whatever happens next. An answer given to a caller
is a promise about all of those contents. `Soundness` says when every one of those outcomes passes the full check
of the next boot, and which writes keep it so. `Boot` is one process start, and `Runs` composes boots, requests,
failures and power losses into whole histories of one workspace.

**Concurrency.** `Runs` serves one request after the other. `ReceiptProtocol` is the interleaved system: each
storage operation of each call is one step (the storage lock makes it one), calls hold workspace and receipt locks
across steps, and restarts, power failures and failed writes happen anywhere. It uses the same receipt functions
as the recorder (`Started`, `Terminal`, `Resolve`, ...) and the same `Closable` test as the service. `ProtocolDisk`
connects it to the files: what each storage operation does to the disk is a step of the protocol. `TaskLocks` is
the promise-chain lock itself, shared by the workspace, execution and storage queues.

**Output.** `Utf8` states the grammar of section 4 of RFC 3629 and the greedy decomposition; `OutputChunks`,
`ProcessOutputBuffer` and `ProcessManager` follow the source's loops and counters and are proved against plain lists.
`OAuth` and `OperatorApproval` have a flag `works`: while it holds their state file can be written.

**Finding.** `writeExecution` can store a first receipt that makes the full ownership check of the next boot fail.
`DanglingReference` leads the service there by its own steps and shows that the answered requests are then never
answered again; the exact condition is `ForeignMention`, or `PossiblyForeign` where receipts are not durable yet
(`Ownership.ExecutionWriteKeepsOwnership`, `Soundness.WrittenDecides`).

## Model

| member | source | states |
|---|---|---|
| Durability.Volume.SyncFileAndParents | src/continuity/storage-durability.ts:25-38 | Success makes every entry in the file's directory and in all directories up to the boundary durable; in no case does anything visible change or anything durable become doubtful |
| Durability.Volume.RemoveDurably | src/continuity/storage-durability.ts:19-23 | Success leaves the path durably gone; a failure leaves it there, or gone but perhaps resurrectable, and touches nothing else |
| AtomicWriter.Writer.AtomicWrite | src/continuity/task-store.ts:669-726 | A write over the snapshot or total budget never changes the disk, and only such a write is refused; success means the new file survives a power loss; any other failure leaves the old or the new file; the byte count follows |
| AtomicWriter.Writer.ConfirmDurable | src/continuity/task-store.ts:375-379 | Success means what the file shows now survives a power loss, also when the answer comes from the durable-file set |
| StorageJournal.PrepareJournal | src/continuity/storage-journal.ts:45-56 | The journal lists the receipts in order and the snapshot last, with the bodies now visible as old and the planned ones as new, and passes the recovery validation; on a device that does not fail it is refused only if a file to replace is missing or the plan is not valid |
| StorageJournal.Apply | src/continuity/storage-journal.ts:58-73 | A target that is neither old nor new stops it before any write; otherwise a committed transaction stays committed at every failure and is applied and durable at the end; with the reserved room it is never refused for space |
| StorageJournal.Decide | src/continuity/storage-journal.ts:75-84 | Until the marker is durable nothing is applied and a failure leaves all targets old; success makes payload and marker durable with room for every target |
| StorageJournal.CommitJournal | src/continuity/storage-journal.ts:75-89 | Success: every target durably new and no journal file left, with a snapshot of this workspace visible and each replaced receipt one of a task of that; any failure leaves a state recovery can finish; an invalid journal changes nothing; a commit whose primitives succeed fails only if the reservation does not hold |
| StorageJournal.TargetsMustBeFirm | src/continuity/storage-journal.ts:75-89 | Before a commit, a power loss leaves every target at its old body exactly if no target has another content to come back: what `CommitJournal` needs of its targets cannot be weakened |
| StorageJournal.SnapshotComesLast | src/continuity/storage-journal.ts:58-73 | At every crash point the disk can show the new snapshot only if every receipt of the transaction is already durably new |
| StorageJournal.PowerLossKeepsTheTransaction | src/continuity/storage-journal.ts:112-116 | A power loss can undo only a marker that was never made durable; a committed transaction stays committed and a finished one finished |
| StorageJournal.NoConflicts | src/continuity/storage-journal.ts:59-64 | Wherever a transaction was interrupted, no target looks changed by someone else, so recovery is not stopped by its own check |
| StorageJournal.RecoverOne | src/continuity/storage-journal.ts:96-119 | One listed payload: an undecided one is dropped, a decided one replayed, and the decision is kept at every failure |
| StorageJournal.RecoverJournals | src/continuity/storage-journal.ts:91-128 | From any interruption: never refused as corrupt, never changes the decision, and when it finishes the targets are all durably old (nothing decided) or all durably new (decided) with no journal left; if no primitive fails it finishes unless the byte budget stops it, and with room for the bodies it does; on a quiet directory it changes nothing |
| StorageJournal.Storm | src/continuity/storage-journal.ts:75-128 | Any sequence of interrupted recoveries, restarts and power failures, outcome by outcome: a recovery that no primitive fails and that has room finishes; as soon as one finishes the outcome is fixed for ever, new if the marker was durable, old if it was never written |
| StorageMigration.MixtureReadsTheSame | src/continuity/storage-migration.ts:51-70 | Any mixture of originals and transforms passes the full validation and reads exactly like the v1 workspace |
| StorageMigration.UnderwayNarrows | src/continuity/storage-migration.ts:72-148 | Syncs, restarts and power failures never take a migration out of the states it can be resumed from |
| StorageMigration.OriginalsAreNeverLost | src/continuity/storage-migration.ts:100-124 | Whenever a source file can show anything but its v1 bytes, those exact bytes are durable in a backup |
| StorageMigration.ChooseGeneration | src/continuity/storage-migration.ts:88-99 | The first migration uses the plain backup directory, a migration after a rollback one named after the digests of its files; it is refused only if an earlier backup is damaged |
| StorageMigration.TurnOneIsNeverRefused | src/continuity/storage-migration.ts:114-121 | None of the integrity checks of the replacement loop can fail in a state reached by interrupted migrations and rollbacks |
| StorageMigration.WhatMigrateReads | src/continuity/storage-migration.ts:72-87 | Every check at the start of a migration passes wherever an earlier migration or rollback stopped |
| StorageMigration.Migrate | src/continuity/storage-migration.ts:72-126 | Started anywhere a crash can have stopped it, it is refused only by the byte budget; if no primitive fails and the budget has room it finishes, and then every file is durably the transform of its v1 original and says what that said, field by field: receipts are the same, each task is the same but for its legacy claim, and completion is claimed exactly for the tasks that had been completed |
| StorageMigration.CheckRollback | src/continuity/storage-migration.ts:128-141 | Each refusal says exactly what it found: no manifest, an unreadable one, a changed file count or file, or a damaged backup; passing says none of these |
| StorageMigration.MigratedIsUnchanged | src/continuity/storage-migration.ts:128-141 | After a finished migration with no write in between the rollback passes all of its checks |
| StorageMigration.Restore | src/continuity/storage-migration.ts:128-148 | Refuses before its first write if anything changed; if no primitive fails, a rollback of an unchanged migration with room finishes, and then every file has durably the identical v1 bytes and both markers are durably gone; interrupted, it can always be resumed |
| StorageMigration.LegacyServerMayWrite | src/continuity/storage-migration.ts:88-99 | After a finished rollback the v1 server may write any files: the directory can again be migrated from those, and the earlier backup is not mistaken for theirs |
| StorageMigration.FreshDirectory | src/continuity/storage-migration.ts:84-87 | A v1 directory that was never migrated is a state the theorems start from |
| StorageMigration.Storm | src/continuity/storage-migration.ts:72-148 | Any sequence of migrations, rollbacks, failures, restarts, power losses and v1 servers at work after a rollback, so that many backup generations pile up, outcome by outcome: no migration is refused as corrupt; one that no primitive fails and that has room succeeds, as does such a rollback of a finished migration; whatever finishes leaves all files durably at one version, after a migration the v1 files as a v2 reader must see them |
| StorageSchema.WhatASnapshotIs | src/continuity/storage-schema.ts:91-117 | A file is read as a snapshot if and only if it is one whose active tasks are exactly the one pointed at, whose tasks are filed under their ids and over exactly if they have an end, and whose recorded answers tell of a task there is and of no revision still to come |
| StorageSchema.WhatAReceiptIs | src/continuity/storage-schema.ts:119-129 | A file is read as a receipt if and only if it is one with the session and times its state must have, and a resolution only of its own unknown outcome |
| StorageSchema.ReadPrintRead | src/continuity/storage-schema.ts:91-129 | Reading a v1 or v2 file, printing the result and reading it again gives the same value |
| StorageSchema.ReadingUpgrades | src/continuity/storage-schema.ts:91-117 | A v1 snapshot that is read gives the same workspace task by task, each with the claim that it is complete if and only if it has a completion time; a v2 snapshot is read as it is |
| Ownership.WorkspaceWriteKeepsOwnership | src/continuity/task-store.ts:202-221 | A snapshot accepted by the incremental checks passes the full ownership check whenever the one before it did |
| Ownership.CommitKeepsOwnership | src/continuity/task-store.ts:223-256 | So does a snapshot with replaced receipts accepted by the transaction's checks |
| Ownership.ExecutionWriteKeepsOwnership | src/continuity/task-store.ts:447-466 | A receipt accepted by its incremental checks keeps the full check if and only if no stored resolution of another task names its operation |
| Ownership.ReplacedReceiptHasNoForeignMention | src/continuity/task-store.ts:301-306 | That condition can fail only for an operation's first receipt |
| ExecutionIndex.WorkspaceExecutionIndex.Publish | src/continuity/execution-index.ts:10-17 | An index that agrees with the receipts agrees with the receipts after the write, also when the operation changes task |
| ExecutionIndex.WorkspaceExecutionIndex.Task | src/continuity/execution-index.ts:19-22 | The view holds exactly the task's receipts, each with its own state and time, newest first and then by operation |
| ExecutionIndex.OrderedViewIsUnique | src/continuity/execution-index.ts:19-22 | Only one ordered view of a set of receipts exists, so the incremental index and a rebuilt one list the same |
| ExecutionIndex.Rebuild | src/continuity/task-store.ts:412-422 | Publishing all receipts in any order gives an index that agrees with them |
| ExecutionIndex.ReadPage | src/continuity/task-store.ts:490-513 | The page holds the unsettled receipts right behind the one the cursor names, at most as many as asked for, and exactly as many when it names a next cursor, which it does if and only if more is listed; the call is refused exactly when the receipt the cursor names is no longer listed as unsettled |
| Paging.BrowsingReturnsNothingTwice | src/continuity/task-store.ts:490-513 | A reader that follows nextCursor through the views of an index whose receipts are prepared, changed and settled in between is returned no receipt twice |
| Paging.BrowsingReturnsWhatStays | src/continuity/task-store.ts:490-513 | When it has reached the last page it was returned every receipt of the task that was there when it began and is still unsettled when it ends |
| Paging.Browse | src/continuity/task-store.ts:490-513 | The index under any publications and such a reader: the pages it gets are pages of the index's own views, and each request for a page gets one until a cursor is stale or nothing is left |
| StoreOutcomes.RecoveryAddsNoOutcome | src/continuity/task-store.ts:258-276 | Recovery of a failed commit, finished or not, makes no content of any file possible that was not possible before |
| StoreOutcomes.PowerLossAddsNoOutcome | src/continuity/storage-durability.ts:5-17 | A power failure picks among the contents that were already possible, during a transaction too |
| Soundness.PairsAreEnough | src/continuity/storage-schema.ts:131-156 | Ownership is a matter of pairs: if each receipt goes with each other receipt and with the snapshot, the full check passes (the converse is `OwnedGoTogether`), so that files which end old or new one by one can be judged together |
| Soundness.SoundIsAlwaysValid | src/continuity/storage-migration.ts:51-66 | On a sound workspace the full check of the next boot passes whatever the disk comes out with, file by file, after any power loss and recovery |
| Soundness.SettledIsSound | src/continuity/storage-migration.ts:51-66 | Where every file is durable, soundness is exactly the full check |
| Soundness.NothingNewIsSound | src/continuity/task-store.ts:258-276 | Recovery, syncs, restarts and power failures keep a workspace sound |
| Soundness.AdmittedIsSound | src/continuity/task-store.ts:202-256 | So do a snapshot write and a commit, also when they fail and wait for recovery |
| Soundness.RenewalIsSound | src/continuity/task-store.ts:644-667 | So do boot recovery and every change of an existing receipt, which are written without an ownership check |
| Soundness.WrittenDecides | src/continuity/task-store.ts:447-466 | A receipt write keeps it if and only if no receipt of another task that the disk may come out with names the operation: otherwise some outcome fails the next boot |
| Soundness.ReceiptWriteDecides | src/continuity/task-store.ts:447-466 | The same of the whole of writeExecution with what it syncs on the way; a write to an operation that has a receipt always keeps it |
| Soundness.FirmMentions | src/continuity/task-store.ts:447-466 | With every receipt durable a caller can read off the condition: it is whether a stored resolution of another task names the operation |
| Soundness.KnownOperationIsNotForeign | src/continuity/task-store.ts:301-306 | It can fail only for an operation that has no receipt yet |
| TaskStore.Store.EnsureRecovered | src/continuity/task-store.ts:278-291 | No read or write goes on past an unfinished transaction, and recovery adds no outcome |
| TaskStore.Store.ScanFiles | src/continuity/storage-migration.ts:51-66 | The file scan succeeds exactly when every file and every reference passes the full check |
| TaskStore.Store.RebuildIndex | src/continuity/task-store.ts:412-422 | Success: the directory passes the full check and the index agrees with it; it is refused as corrupt only if the check fails |
| TaskStore.Store.ReadWorkspace | src/continuity/task-store.ts:176-200 | Whatever it returns is the visible snapshot (or the empty one) and is durable, so a caller may answer from it; on a sound workspace whose device does not fail it is refused only while the budget stops recovery |
| TaskStore.Store.FindTask | src/continuity/task-store.ts:308-327 | It finds the task exactly in the visible snapshot, made durable, or says it is not there; refused only as ReadWorkspace is |
| TaskStore.Store.ValidateSelected | src/continuity/task-store.ts:388-410 | Reading only the mentioned receipts decides the ownership rules for the index's owners, in both directions |
| TaskStore.Store.WriteWorkspace | src/continuity/task-store.ts:202-221 | Success: exactly this snapshot, durable; any failure adds at most this snapshot as an outcome; full check and soundness are kept, after a failure too; on a sound workspace whose device does not fail the only refusals are the budget, a malformed snapshot and one the ownership checks reject |
| TaskStore.Store.WriteExecution | src/continuity/task-store.ts:447-466 | Success: exactly this receipt, durable and indexed; a failure adds at most this receipt; the full check survives if and only if no foreign resolution names the operation, and every later boot passes under the same condition on what the disk may come out with; the refusals have the same causes as WriteWorkspace |
| TaskStore.Store.CommitWorkspace | src/continuity/task-store.ts:223-256 | Success: snapshot and receipts durable together; full check and soundness are kept, after a failure too; a failure adds only the planned contents; a storage-full reply means nothing was written; on a sound workspace whose device does not fail the only refusals are the budget, an invalid plan and one the ownership checks reject |
| TaskStore.Store.ReadExecution | src/continuity/task-store.ts:434-445 | The receipt returned is the visible one and durable; none returned means there is none |
| TaskStore.Store.ListExecutions | src/continuity/task-store.ts:483-488 | Exactly the receipts of the task, newest first, all durable |
| TaskStore.Store.SelectExecutions | src/continuity/task-store.ts:468-481 | The selected receipts in the order asked for, all of the task and durable; on a sound workspace whose device does not fail it is refused only for a receipt that is missing or of another task |
| Boot.RecoverPreviousBoot | src/continuity/task-store.ts:644-667 | Every prepared or running receipt of an earlier boot becomes unknown, ends now unless it had an end and keeps an error code it had; nothing else of it and no other receipt changes, and a failure at any receipt adds only such receipts as outcomes |
| Boot.AdvancedStaysOwned | src/continuity/task-store.ts:644-667 | Boot's unchecked receipt writes keep the full ownership check |
| Boot.BootKeepsFullCheck | src/continuity/task-store.ts:104-113 | The directory that passed the check before boot recovery passes it afterwards |
| Boot.Start | src/continuity/task-store.ts:89-126 | A process that comes up has no transaction left, passes the full check, has an agreeing index and no receipt of an earlier boot that is prepared or running: each of those was made unknown, all other fields and receipts are as they were; one that fails leaves a disk the next boot can recover. On a sound workspace whose device does not fail and whose budget has room it comes up and stays sound; on one that fails the full check it never does and changes nothing |
| ExecutionRecorder.OperationsEvolve | src/continuity/execution-recorder.ts:95-222 | Every recorder operation and boot recovery keeps owner and input, keeps exited, spawn_failed and unknown, keeps a set resolution and produces a well-formed receipt |
| ExecutionRecorder.Recorder.Prepare | src/continuity/execution-recorder.ts:29-93 | shouldSpawn is answered only for an operation never granted before; whatever is answered is the only receipt the disk can come out with and belongs to the same execution of the active task; a failure adds at most the first receipt and touches no other file; it leaves the workspace sound unless another task may name the operation; each refusal has its cause; a granted receipt is the one asked for: prepared now in this boot, with no session, times, result, error or resolution yet |
| ExecutionRecorder.Recorder.MarkRunning | src/continuity/execution-recorder.ts:95-109 | A prepared receipt becomes running with this session from now on, any other is left alone, no other field changes, and the answer is the only content the disk can come out with; a failure adds at most that version; no other file changes; soundness is kept; on a sound workspace whose device does not fail it is refused only for the budget, a missing receipt or an empty session id |
| ExecutionRecorder.Recorder.MarkSpawnFailed | src/continuity/execution-recorder.ts:111-124 | The same for spawn_failed: a prepared receipt ends now with the given error code |
| ExecutionRecorder.Recorder.MarkTerminal | src/continuity/execution-recorder.ts:126-150 | The same for the terminal observation: spawn_failed if the spawn failed and exited otherwise, ending now, with the session, exit code, signal, timeout and output bytes observed, a start time and an error code it already had kept unless an error was observed; a terminal receipt, or an unknown one of an earlier boot, is left alone |
| ExecutionRecorder.Recorder.MarkPersistenceDegraded | src/continuity/execution-recorder.ts:152-165 | On a sound workspace whose device does not fail the receipt found is durably degraded unless the budget is full; at most that flag of this receipt can change, and a failed write is ignored |
| ExecutionRecorder.Recorder.WithReconciliations | src/continuity/execution-recorder.ts:198-222 | Every record handed to the commit is the durable receipt of this task in state unknown, resolved as asked; it is refused as a conflict only for a repeated operation, or a receipt that is not unknown or was resolved differently, and on a sound workspace whose device does not fail otherwise only for a receipt that is missing or of another task |
| TaskService.AppliedKeepsLedger | src/continuity/task-service.ts:133-164 | A mutation under a new request keeps: workspace revision = number of dedupe records = sum of task revisions, and each revision of each task produced by exactly one request |
| TaskService.AppliedIsWellFormed | src/continuity/storage-schema.ts:95-109 | The snapshot a mutation builds passes every semantic check of the parser, so the store does not refuse its own mutation |
| TaskService.CreateKeepsLedger | src/continuity/task-service.ts:99-168 | create keeps the ledger and adds exactly its own dedupe record |
| TaskService.UpdateKeepsLedger | src/continuity/task-service.ts:170-230 | update does |
| TaskService.CompleteKeepsLedger | src/continuity/task-service.ts:232-339 | complete does |
| TaskService.ReplayIsRemembered | src/continuity/task-service.ts:189-195 | A dedupe record read from a durable snapshot is in every snapshot the disk can ever come out with |
| TaskService.ListedReceiptsClose | src/continuity/task-service.ts:270-286 | If every listed receipt allows the outcome, then after the snapshot is written every receipt of the task, whatever happens to the disk, allows it |
| TaskService.CreateDigestTells | src/continuity/task-service.ts:99-113 | Two create requests count as the same input exactly if workspace, objective and checkpoint are the same, whatever the request id and the times |
| TaskService.UpdateDigestTells | src/continuity/task-service.ts:170-185 | Two updates do exactly if task, expected revision and checkpoint are the same |
| TaskService.CompleteDigestTells | src/continuity/task-service.ts:232-252 | Two completions do exactly if they differ in nothing but the request id |
| TaskService.Service.Replay | src/continuity/task-service.ts:596-609 | A known request with the same input gets its recorded result; it is refused exactly when the request id was used with other input; an answered request is never unknown |
| TaskService.Service.Create | src/continuity/task-service.ts:99-168 | An answer, fresh or replayed, is recorded durably before it is given, and a fresh one was applied as asked: the task it names is new and active at revision 1 with the objective and checkpoint asked for, and no other task or recorded answer changed; a retry of an answered request gets the same result, except that it may be refused while a primitive fails, the budget stops recovery or the workspace is not sound; a failure adds at most one application as an outcome and touches no receipt; each refusal of a new request has its cause; soundness is kept |
| TaskService.Service.Update | src/continuity/task-service.ts:170-230 | The same for update, which gives the active task one revision more, the checkpoint asked for and the new observation, and changes nothing else of it and no other task or recorded answer; a receipt can change only from unknown to resolved as asked, and an answered application has every resolution durably in its receipt |
| TaskService.Service.Complete | src/continuity/task-service.ts:232-339 | The same for complete, which touches no receipt, gives the task the outcome, summary and closing checkpoint asked for and leaves no task active; an answered application also has every receipt of the task on disk for good and allowing the outcome; an abandoned task is answered with exactly its visible receipts in state unknown, a completed one with none |
| TaskService.Service.CreateTask | src/continuity/task-service.ts:124-167 | A new request is applied only without an active task and refused for one only if there is one |
| TaskService.Service.UpdateTask | src/continuity/task-service.ts:196-229 | A new request is applied only to the active task at the expected revision, and an unapplied one is refused with the error that says which of these fails |
| TaskService.Service.CheckClosing | src/continuity/task-service.ts:270-307 | Closing goes on only with no blocker, no receipt in the way and a checkpoint fit to close with, and is refused as unresolved or in conflict only if the blocker, a visible receipt or the checkpoint is the reason |
| Runs.Run | src/continuity/task-service.ts:99-339 | Any number of processes, each booting, serving any requests and dying anywhere with or without power loss: the trace it returns, every answer in it included, is a chain of instants linked by what each step guarantees, in the order of the lives given |
| Runs.AnswersAgree | src/continuity/task-service.ts:596-609 | In any such run two answers to one request id are answers to the same input and are equal |
| Runs.GrantedOnce | src/continuity/execution-recorder.ts:43-92 | In any such run no operation is granted twice |
| Runs.RetryIsAnswered | src/continuity/task-service.ts:596-609 | An answered request asked again in any later life whose device does not fail is answered with the same result, unless a step in between wrote a first receipt that another task may name |
| Runs.BootComesUp | src/continuity/task-store.ts:89-126 | Under the same condition every boot that no primitive fails and that has room comes up |
| Runs.SoundForEver | src/continuity/task-store.ts:104-113 | Such a run keeps every outcome of the disk within the full check, through every failure, restart and power loss |
| Runs.DeadForEver | src/continuity/task-store.ts:104-113 | Once a settled workspace fails the full check, no process of any further run comes up on it and no request is served |
| Runs.EmptyIsHonest | src/continuity/task-store.ts:176-200 | The empty directory is a state those runs may start from |
| DanglingReference.Story | src/continuity/task-service.ts:99-339 | The service can be led to the failing write: create, update with a resolution naming operation 20, update without it, complete, create; each snapshot is the step of the one before, from the empty workspace on |
| DanglingReference.AcceptedOnTheWay | src/continuity/task-store.ts:202-256 | Every write of that story passes the checks the store makes |
| DanglingReference.DanglingReferenceExample | src/continuity/task-store.ts:447-466 | Its last snapshot keeps the ledger and is fully owned, the first receipt of operation 20 passes every check of writeExecution, and with it the full check fails |
| DanglingReference.TheLastWrite | src/continuity/task-store.ts:104-113 | Before that write every outcome of the disk passes the next boot; after it none does, with five requests answered |
| DanglingReference.NeverServedAgain | src/continuity/task-store.ts:104-113 | From there, in every run, no process comes up and no answered request is answered again |
| ReceiptProtocol.StepKeepsInv | src/continuity/execution-recorder.ts:43-222 | Every step of every interleaving of concurrent calls, failed writes, restarts and power failures keeps the invariant: what a call has learned under its locks stays true |
| ReceiptProtocol.Reachable | src/continuity/execution-recorder.ts:43-222 | Hence it holds in every reachable state |
| ReceiptProtocol.GrantedAtMostOnce | src/continuity/execution-recorder.ts:43-92 | Over every run each operation is granted to at most one caller, and its receipt can never be missing afterwards |
| ReceiptProtocol.GrantIsDurable | src/continuity/execution-recorder.ts:88-90 | When a grant is answered its first receipt is the only content the disk can come out with |
| ReceiptProtocol.RunDescends | src/continuity/execution-recorder.ts:95-222 | Any version of a receipt any later disk can show grew from a version possible now |
| ReceiptProtocol.FinalForEver | src/continuity/execution-recorder.ts:126-135 | A final state, once certain, is never left by any run, nor is the owner, the input or a resolution |
| ReceiptProtocol.ClosedTasksAreSettled | src/continuity/task-service.ts:270-286 | Whatever the disk comes out with, a closed task has no prepared or running receipt, and a completed one no unknown receipt unresolved or resolved as external_effect_unknown |
| ReceiptProtocol.EarlierBootsAreSettled | src/continuity/task-store.ts:644-667 | Once a boot has finished, no receipt of an earlier boot is prepared or running |
| ProtocolDisk.WritesFirst | src/continuity/execution-recorder.ts:81-92 | What prepare does to the files is the step WriteFirst of the protocol, and a success its grant |
| ProtocolDisk.WritesChange | src/continuity/execution-recorder.ts:95-165 | A changed receipt written by a mark operation is the step WriteChange |
| ProtocolDisk.WritesAtBoot | src/continuity/task-store.ts:644-667 | A receipt settled by boot is the step BootWrite |
| ProtocolDisk.WritesCreated | src/continuity/task-service.ts:124-167 | The snapshot create writes is the step WriteStatus with one more active task |
| ProtocolDisk.WritesClosed | src/continuity/task-service.ts:270-339 | The snapshot complete writes is the step WriteStatus with the task closed |
| ProtocolDisk.Commits | src/continuity/task-store.ts:223-256 | The transaction of an update, with the recovery it may need, is the step Commit: each receipt ends old or as collected, all new if the commit was answered, and no status changes |
| ProtocolDisk.SeesReceipt | src/continuity/task-store.ts:434-445 | A confirmed read of a receipt is the step SeeReceipt; SeesActive, SeesNoReceipt, Collects and SeesClosable say the same of the other reads |
| ProtocolDisk.Restarts | src/continuity/storage-durability.ts:5-17 | A restart, with or without power loss, is the step Restart, and the empty directory is an initial state (`StartsEmpty`) |
| TaskLocks.Reachable | src/continuity/task-store.ts:547-566 | Every interleaving of asking, starting and finishing keeps the queue map and the promise chains in agreement |
| TaskLocks.ExclusiveAndInOrder | src/continuity/task-store.ts:547-566 | Per key, a call has started only if every earlier call is over, and a key whose map entry was dropped is idle |
| TaskLocks.NeverStuck | src/continuity/task-store.ts:547-566 | While any call is open, some waiting call can start or some running owner waits for nothing: no reachable deadlock, if owners nest their locks in the stated order |
| TaskLocks.SortAscends | src/continuity/execution-recorder.ts:200-204 | Sorting distinct operation ids gives a strictly ascending order |
| TaskLocks.UpdateAsksInOrder | src/continuity/execution-recorder.ts:198-222 | The locks an update nests (workspace, execution ids sorted, storage) obey the order the deadlock theorem needs |
| TaskLocks.EveryCallerMayAsk | src/continuity/execution-recorder.ts:29-222 | And every caller there is nests its locks in that order: at each point of its plan it may ask for the next lock |
| Utf8.UnfinishedIs | src/process-manager.ts:69-90 | The bytes some continuation makes a character are exactly those the source's range tests accept |
| Utf8.PieceIsStable | src/process-manager.ts:48-92 | A piece cut before the end of the stream is the piece the whole stream has there |
| Utf8.TextBetweenCuts | src/process-manager.ts:94-135 | Well-formed text cut at two cuts of the decomposition is well-formed |
| OutputChunks.SequenceLengthAt | src/process-manager.ts:48-92 | The branch cascade computes the greedy piece of the RFC 3629 grammar, for final and non-final input |
| OutputChunks.SplitOutputChunks | src/process-manager.ts:94-135 | Chunks and remainder are the input, no chunk is empty or over 16384 bytes, every boundary is a cut, every chunk but the last is as full as it can be |
| OutputChunks.PendingIsShort | src/process-manager.ts:607-620 | At most three bytes stay pending |
| OutputChunks.EventContinuesStream | src/process-manager.ts:607-620 | One more data event keeps: stored chunks plus pending bytes are the stream so far, cut where the whole stream is cut |
| OutputChunks.FlushEndsStream | src/process-manager.ts:671-682 | The final flush leaves exactly the whole stream in chunks; a well-formed stream gives only well-formed chunks |
| OutputChunks.StreamThrough | src/process-manager.ts:94-135 | The same for any stream in any number of data events |
| ProcessOutputBuffer.IndexedProcessOutputBuffer.Append | src/process-output-buffer.ts:49-55 | The chunks join the end of the log under the next numbers; nothing is dropped |
| ProcessOutputBuffer.IndexedProcessOutputBuffer.TrimTo | src/process-output-buffer.ts:57-72 | Refines dropping the shortest sufficient prefix of the log and returns the bytes it dropped |
| ProcessOutputBuffer.TrimPointIsLeast | src/process-output-buffer.ts:57-72 | What is left fits, and no shorter dropped prefix would do |
| ProcessOutputBuffer.IndexedProcessOutputBuffer.CompactIfNeeded | src/process-output-buffer.ts:107-124 | Compaction changes only the representation, never the retained chunks or their numbers |
| ProcessOutputBuffer.IndexedProcessOutputBuffer.SelectAfter | src/process-output-buffer.ts:74-105 | The indexed selection equals a scan of all retained chunks for the longest fitting run after the cursor |
| ProcessOutputBuffer.FittingIsLongest | src/process-output-buffer.ts:89-97 | A prefix fits exactly when it is no longer than the selected one |
| ProcessOutputBuffer.IndexedProcessOutputBuffer.RetainedPlusDropped | src/process-output-buffer.ts:33-39 | Retained plus dropped bytes are the bytes appended |
| ProcessOutputBuffer.PageAdvances | src/process-manager.ts:356-363 | With room for any one chunk a page is empty only when nothing is retained after the cursor |
| ProcessOutputBuffer.Follow | src/process-output-buffer.ts:49-105 | Through any run of appends, trims and reads the ring gives a reader that follows nextSeq exactly what the plain list would |
| ProcessOutputBuffer.FollowerMissesOnlyDropped | src/process-output-buffer.ts:49-105 | Of that list the reader gets each chunk up to its cursor once and in order, except those dropped before their turn |
| ProcessManager.NothingIsLost | src/process-manager.ts:607-635 | Each process keeps total = retained + dropped + pending |
| ProcessManager.PageNeverStalls | src/process-manager.ts:356-363 | The page floor makes nextSeq advance whenever something is retained after the cursor, whatever size was asked for; a page over one chunk holds no more than was asked for, or the default, and than the maximum |
| ProcessManager.ProcessManager.AppendOutput | src/process-manager.ts:607-620 | The process receives the split event: its stream, as chunks and pending bytes, grows by exactly the event and the other stream stays; others only lose output from the front, and the global counter is the sum over processes and within the limit |
| ProcessManager.ProcessManager.TrimTotalRetainedOutput | src/process-manager.ts:652-669 | The eviction loop ends within the total limit, drops only from the front, and does nothing below the limit |
| ProcessManager.ProcessManager.TrimProcess | src/process-manager.ts:637-643 | The counters move by exactly the bytes dropped: the zero clamp never acts |
| ProcessManager.ProcessManager.FlushPendingOutput | src/process-manager.ts:671-682 | What was pending becomes chunks, no stream gains or loses a byte, and every process only loses output from the front |
| ProcessManager.ProcessManager.Finish | src/process-manager.ts:689-719 | The first end flushes, sets the time and counts down once, and other processes only lose output from the front; a second one changes nothing |
| ProcessManager.ProcessManager.Forget | src/process-manager.ts:775-788 | Exactly this process is gone and the counter still is the sum |
| ProcessManager.ProcessManager.Prune | src/process-manager.ts:542-549 | Exactly the processes that ended before the cutoff are forgotten |
| ProcessManager.ProcessManager.MakeCapacity | src/process-manager.ts:576-597 | Only ended processes are forgotten, those that ended first, and no more than make room for one; it fails only when all that are left run |
| ProcessManager.ProcessManager.Start | src/process-manager.ts:240-262 | No running process is forgotten or changed, and both capacity limits hold afterwards |
| FileService.ChunkLength | src/file-service.ts:129-168 | The length ends on a character boundary and exceeds the request only for a single character; it fails only on bytes that begin no text |
| FileService.ReadFileChunk | src/file-service.ts:266-312 | From a boundary of a text it never fails, the page is the file from offset to nextOffset, eof says the end, and it is empty exactly when the next character is longer than what may be read at once |
| FileService.NextPage | src/file-service.ts:278-308 | With the limits the server accepts (src/config.ts:367-371 refuses less than 4096) a page before the end is never empty |
| FileService.ReadAll | src/file-service.ts:266-312 | With such a limit, following nextOffset from 0 ends, and the pages, each nonempty text, concatenate to the file |
| FileService.LimitOfThreeStalls | src/config.ts:367-371 | The function alone needs a limit of at least four bytes: with three the page of a four-byte character is empty; the configuration admits no such limit |
| OAuth.PersistentOAuthStore.IssueTokenPair | src/oauth.ts:321-374 | A new grant whose access and refresh token each belong to this client, resource, grant and exactly these scopes and expire after their own time to live; every other token but the expired ones and every client stays; a failed write leaves the state as it was |
| OAuth.PersistentOAuthStore.RotateRefreshToken | src/oauth.ts:387-422 | A live refresh token is exchanged once, within its scopes and grant, for a pair that lives as long as an issued one; replay of an unexpired used one ends the grant; every other presentation changes only expired tokens; only a failed write leaves it undecided, and then the state is as it was |
| OAuth.DeadGrantsHaveNoTokens | src/oauth.ts:376-406 | Of a grant that is over no access or refresh token exists |
| OAuth.PersistentOAuthStore.Revoke | src/oauth.ts:438-450 | The owner's revocation ends the grant and touches no other unexpired token; anyone else's changes only expired tokens; only a failed write changes nothing |
| OAuth.PersistentOAuthStore.GetAccessToken | src/oauth.ts:424-436 | A token is accepted if and only if it is a live access token of a registered client; if it has a grant, that grant is not over and covers its scopes |
| OAuth.PersistentOAuthStore.RegisterClient | src/oauth.ts:297-319 | The client is registered in the room made, or the state is unchanged; if writes succeed it is refused only when clients with tokens fill the registry; no unexpired token changes |
| OAuth.MakeRoom | src/oauth.ts:225-247 | Only clients without tokens go, the oldest first and no more than needed; it fails only if clients with tokens fill the registry |
| OAuth.RegistrationKeepsActiveClients | src/oauth.ts:225-247 | The registry stays within its bound and no client with tokens is lost |
| OAuth.Run | src/oauth.ts:266-450 | Any run with failed writes and restarts: the responses it returns and the states between them are a chain of what each request guarantees |
| OAuth.ExchangedOnce | src/oauth.ts:387-422 | In any such run no refresh token is exchanged twice |
| OAuth.ReplayEndsTheGrant | src/oauth.ts:387-422 | After an answered replay no token of the grant lives again, in memory or on file, whatever follows |
| OAuth.AccessTokenLives | src/oauth.ts:334-374 | In any such run the access token of an answered issue or exchange is accepted exactly before its time to live is over and while its client is registered, until its grant is revoked or replayed |
| OAuth.RefreshTokenLives | src/oauth.ts:387-422 | Until then its refresh token, presented in time by its client for no more than its scopes, is exchanged |
| OAuth.AuthorizationCodes.BeginExchange | src/oauth.ts:636-653 | A code is taken if and only if it is held with this client, redirect and resource and unexpired; then it is neither redeemed nor being exchanged by anyone else |
| OAuth.AuthorizationCodes.EndExchange | src/oauth.ts:654-666 | A redeemed code is redeemed once and stays gone; after a failed issue it comes back unless it has expired |
| OperatorApproval.ReservedOk | src/operator-approval.ts:172-189 | The reservation keeps the ledger sound and is made only for an approval never started |
| OperatorApproval.OperatorApprovals.Initialize | src/operator-approval-store.ts:41-88 | An interrupted execution becomes unknown before the store opens, every other field and record stays |
| OperatorApproval.OperatorApprovals.Persist | src/operator-approval-store.ts:96-109 | A failed write disables the store; until a restart no mutation can be made on an uncertain ledger |
| OperatorApproval.OperatorApprovals.Request | src/operator-approval.ts:110-124 | An owner's request has one record, pending and as asked for in every field; the same input returns it, other input is refused, and no other record changes |
| OperatorApproval.OperatorApprovals.Decide | src/operator-approval.ts:142-156 | Only a pending, unexpired request is decided, and a repeated decision changes nothing; an approval keeps the reference given, a denial none, and no other field or record changes |
| OperatorApproval.OperatorApprovals.Reserve | src/operator-approval.ts:164-190 | A start is given at most once for each approval, only from an unexpired approved state and with nothing unresolved at its workspace or path; a retry with the same operation starts nothing |
| OperatorApproval.OperatorApprovals.FailStart | src/operator-approval.ts:205-211 | A start that threw leaves the approval used and its outcome unknown |
| OperatorApproval.OperatorApprovals.Finish | src/operator-approval.ts:215-231 | The end of the process sets succeeded or unknown and keeps the operation reserved |
| OperatorApproval.Run | src/operator-approval.ts:142-231 | Any run with failed writes and restarts from any possible ledgers: the responses it returns and the states between them are a chain of what each request guarantees |
| OperatorApproval.StartedOnce | src/operator-approval.ts:164-190 | In any such run each approval is started at most once |
| OperatorApproval.StartWasApproved | src/operator-approval.ts:164-190 | Each start was given for an approval of its owner, granted, unexpired and with its place free, and every outcome of the disk then names its operation |
| OperatorApproval.LaterLedgersFollow | src/operator-approval.ts:142-231 | Whatever ledger the disk comes out with later shares no operation id, has at most one unresolved execution at each place, and keeps the final states, approvals and owners of one there could be before |
| OperatorApproval.SameAskSameAnswer | src/operator-approval.ts:110-124 | In any such run, once a request was answered, the same request is never refused as a conflict and none with its id and another input is ever answered without an error |

## Left out

- TaskStore.Store.CommitWorkspace: requires the files it replaces to be durable, which the source does not check; its callers have it from reading those files under their locks just before (`readWorkspace`, `require`), as `Service.ApplyUpdate` shows. `StorageJournal.TargetsMustBeFirm` shows that no commit is all-or-nothing without it.
- TaskStore.Store.FindTask: the search over several workspaces is not modelled; one store is one workspace directory.
- StorageJournal.CommitJournal: is all-or-nothing only over targets that are durably old (`Startable`), for the same reason; on others it promises `CalmOutside` and no more.
- Boot.Start: starts from a v2 workspace; migration is a separate theorem (`StorageMigration.Storm`) and the two are not composed in one run.
- Runs.Run: serves requests one after the other; interleavings are the subject of `ReceiptProtocol`, which represents a snapshot by its task statuses. There a commit that fails decides its outcome at once, since recovery precedes the next read; `ProtocolDisk.Commits` takes the commit and that recovery together.
- Runs.RetryIsAnswered: asks for a life in which no primitive fails at all, not only none of the retry's own, and for create and update for a checkpoint within the size limit, which the source tests before it looks up the request.
- ExecutionRecorder.Recorder.WithReconciliations: reads the receipts in the given order; the sorted lock order is in `TaskLocks.UpdateAsksInOrder`.
- TaskLocks.NeverStuck: the nesting order is a rule of its `Ask` step; `EveryCallerMayAsk` shows that each caller keeps it, with the callers given as plans of locks rather than as code.
- ProcessManager.ProcessManager.AppendOutput: a process is a value in a map and its buffer the list it stands for (the buffer class is proved against that list separately), so aliasing of buffers is not captured; no output event arrives for a forgotten process.
- ProcessManager.ProcessManager.TrimTotalRetainedOutput: claims no strict least-recently-used order, because a partly trimmed process moves to the newest end.
- OutputChunks.StreamThrough: no output arrives after the final flush.
- FileService.ReadFileChunk: the file does not change while it is paged, a read returns all that was asked for, and base64 paging is left out.
- OAuth.PersistentOAuthStore.RotateRefreshToken: the clock is read once for a call, random tokens and grant ids are new values, and the state file outlives process restarts; the source does not sync it, so a power loss is not covered.
- OperatorApproval.OperatorApprovals.Request: the checks of kernel identity, workspace binding and view token come before the ledger and are left out, as are ledger signature, writer lock and size limit.
- TaskService.Service.Complete: the unknown executions it answers are a set, where the source lists them newest first; white space in the checkpoint text is reduced to blank, tab, carriage return and line feed.
- The `reconcile` method of the recorder: the server never calls it.
- Durability of newly made directories, temporary files and their removal, and the Windows case in which a directory cannot be synced.
- Installation id, HMAC key, writer guard, health report, offline maintenance: files outside the workspace directories.
- Field formats checked by Zod (lengths, patterns, exact keys), JSON printing and key order: a file that is not one of the modelled values is corrupt.
- Error codes are kept only where a caller can act on them; messages, metrics and telemetry are not modelled.
- The order in which directory entries are listed: no result depends on it.
- Processes, signals, timers, Git, HTTP, tool registration, HTML pages, context summaries, rate limiting and the rest of the file tools.
