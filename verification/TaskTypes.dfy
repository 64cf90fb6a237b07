/**
  * The continuity entities (src/continuity/task-types.ts) and the files that hold them.
  *
  * UUIDs and times are numbers (only equality and order are ever used), SHA-256 and HMAC are
  * injective constructors, and a file is the value it decodes to plus a `layout`, which stands
  * for everything else in its exact bytes (white space, key order).
  */
module TaskTypes {
  import opened Wrappers

  type Uuid = nat
  type Time = nat

  const MAX_SAFE_INTEGER: nat := 9007199254740991

  datatype TaskStatus = Active | Completed | Abandoned
  datatype EvidenceKind = ReceiptEvidence | ArtifactEvidence
  datatype EvidenceRef = EvidenceRef(kind: EvidenceKind, operationId: Option<Uuid>, detail: string)
  datatype Resolution = VerifiedNoRetry | ExternalEffectUnknown | Superseded

  datatype Reconciliation = Reconciliation(
    operationId: Uuid, resolution: Resolution, evidenceRefs: seq<EvidenceRef>, note: Option<string>, recordedAt: Time)

  datatype Checkpoint = Checkpoint(
    phase: string, current: string, remaining: seq<string>, blockers: seq<string>, otherText: string,
    evidenceRefs: seq<EvidenceRef>, executionReconciliations: Option<seq<Reconciliation>>)

  /** What a completing caller may replace; `receiptFields` says that it also sent one of the fields it must not. */
  datatype FinalCheckpoint = FinalCheckpoint(
    phase: string, current: string, remaining: seq<string>, blockers: seq<string>, otherText: string,
    receiptFields: bool)

  datatype Legacy = Legacy(completionClaimed: bool)

  datatype Task = Task(
    taskId: Uuid, objective: string, status: TaskStatus, revision: nat, createdAt: Time, updatedAt: Time,
    completedAt: Option<Time>, summary: Option<string>, checkpoint: Checkpoint,
    observedWorktree: string, legacy: Option<Legacy>)

  datatype MutationKind = Create | Update | Complete

  datatype MutationResult = MutationResult(
    taskId: Uuid, workspaceId: Uuid, revision: nat, workspaceRevision: nat, status: TaskStatus,
    unresolvedUnknown: set<Uuid>)

  /** What a request digest is taken of. Keyed SHA-256 is modelled as injective. */
  datatype SemanticInput =
    | CreateInput(workspaceId: Uuid, objective: string, checkpoint: Checkpoint)
    | UpdateInput(taskId: Uuid, expectedRevision: nat, checkpoint: Checkpoint)
    | CompleteInput(taskId: Uuid, expectedRevision: nat, outcome: TaskStatus, summary: string,
                    evidenceRefs: seq<EvidenceRef>, finalCheckpoint: Option<FinalCheckpoint>)
    | ExecutionInput(toolKind: ToolKind, semanticInput: string)
  datatype Hmac = Hmac(of: SemanticInput)

  datatype DedupeRecord = DedupeRecord(
    requestId: Uuid, taskId: Uuid, kind: MutationKind, inputHmac: Hmac, result: MutationResult, recordedAt: Time)

  datatype WorkspaceIdentity = WorkspaceIdentity(workspaceId: Uuid, worktreeIdentity: string)

  datatype WorkspaceState = WorkspaceState(
    workspace: WorkspaceIdentity, workspaceRevision: nat, activeTaskId: Option<Uuid>,
    tasks: map<Uuid, Task>, mutationDedupe: map<Uuid, DedupeRecord>)

  datatype ExecutionState = Prepared | Running | Exited | SpawnFailed | Unknown
  datatype ToolKind = ExecCommand | RunScript

  datatype ExecutionRecord = ExecutionRecord(
    operationId: Uuid, taskId: Uuid, workspaceId: Uuid, bootId: Uuid, sessionId: Option<string>,
    state: ExecutionState, toolKind: ToolKind, inputHmac: Hmac,
    preparedAt: Time, startedAt: Option<Time>, endedAt: Option<Time>,
    exitCode: Option<int>, signal: Option<string>, timedOut: Option<bool>, outputBytes: Option<nat>,
    degraded: bool, errorCode: Option<string>, callerResolution: Option<Reconciliation>)

  // ---------------------------------------------------------------- files of one workspace directory

  /** The files that belong to the state proper: state.json and executions/<operation>.json. */
  datatype Target = StateJson | Receipt(operationId: Uuid)

  datatype Schema = V1 | V2

  datatype Value =
    | Workspace(schema: Schema, state: WorkspaceState)
    | Execution(schema: Schema, record: ExecutionRecord)
    | JournalValue(journal: Journal)
    | CommitMarker(journalDigest: Sha256)
    | MigrationManifest(migration: Migration)
    | Text(text: string)

  datatype File = File(value: Value, layout: nat)

  datatype Sha256 = Sha256(of: File)

  /** The write-ahead record of one transaction (src/continuity/storage-journal.ts:15-22). */
  datatype JournalEntry = JournalEntry(path: Target, before: Sha256, after: Sha256, body: File)
  datatype Journal = Journal(transactionId: Uuid, workspaceId: Uuid, records: seq<JournalEntry>)

  /** The manifest of one schema migration (src/continuity/storage-migration.ts:14-21). */
  datatype MigrationEntry = MigrationEntry(path: Target, before: Sha256, after: Sha256)
  datatype Migration = Migration(backupDirectory: Generation, files: seq<MigrationEntry>)

  /** `schema-v1`, or `schema-v1-<digest of the listed originals>` after a completed rollback. */
  datatype Generation = First | ForFiles(listing: map<Target, Sha256>)

  /** What the code's own `body` helper prints. */
  function Body(value: Value): (f: File) { File(value, 0) }
}
