/** The checks of src/continuity/storage-schema.ts, on decoded values. */
module StorageSchema {
  import opened Wrappers
  import opened TaskTypes

  datatype StoreError =
    | StateCorrupt | WorkspaceMismatch | StorageFull | PersistenceUnavailable | IdempotencyConflict
    | RevisionConflict | UnknownTask | TaskClosed | ActiveTaskConflict | UnresolvedExecution
    | CompletionCheckpointConflict | InvalidInput | RollbackUnavailable | RollbackUnsafe

  // ------------------------------------------------------------------------------ workspace snapshot

  predicate ActivePointerOk(state: WorkspaceState) {
    && (state.activeTaskId.Some? ==> state.activeTaskId.value in state.tasks)
    && forall id :: id in state.tasks ==>
      (state.tasks[id].status == Active <==> state.activeTaskId == Some(id))
  }

  predicate TaskOk(id: Uuid, task: Task, state: WorkspaceState) {
    && id == task.taskId
    && 1 <= task.revision <= state.workspaceRevision
    && (task.status == Active <==> task.completedAt.None?)
    && task.observedWorktree == state.workspace.worktreeIdentity
  }

  predicate DedupeOk(id: Uuid, entry: DedupeRecord, state: WorkspaceState) {
    && id == entry.requestId
    && entry.taskId in state.tasks
    && entry.result.taskId == entry.taskId
    && entry.result.workspaceId == state.workspace.workspaceId
    && 1 <= entry.result.revision <= state.tasks[entry.taskId].revision
    && 1 <= entry.result.workspaceRevision <= state.workspaceRevision
    && (entry.kind == Complete <==> entry.result.status != Active)
  }

  predicate WorkspaceOk(state: WorkspaceState) {
    && state.workspaceRevision <= MAX_SAFE_INTEGER
    && ActivePointerOk(state)
    && (forall id :: id in state.tasks ==> TaskOk(id, state.tasks[id], state))
    && (forall id :: id in state.mutationDedupe ==> DedupeOk(id, state.mutationDedupe[id], state))
  }

  function WithLegacy(task: Task): Task {
    task.(legacy := Some(Legacy(task.status != Active)))
  }

  function UpgradeWorkspace(state: WorkspaceState): WorkspaceState {
    state.(tasks := map id | id in state.tasks :: WithLegacy(state.tasks[id]))
  }

  /** Reading a v1 snapshot adds the legacy claims; a v1 snapshot that already has them is corrupt. */
  function ParseWorkspace(file: File): (r: Result<WorkspaceState, StoreError>) {
    match file.value
    case Workspace(V2, state) => if WorkspaceOk(state) then Ok(state) else Err(StateCorrupt)
    case Workspace(V1, state) =>
      if WorkspaceOk(state) && forall id :: id in state.tasks ==> state.tasks[id].legacy.None?
      then Ok(UpgradeWorkspace(state)) else Err(StateCorrupt)
    case _ => Err(StateCorrupt)
  }

  /** The task says what it said, and besides whether it had been claimed to be complete. */
  predicate UpgradesTask(before: Task, after: Task) {
    && after.taskId == before.taskId && after.objective == before.objective && after.status == before.status
    && after.revision == before.revision && after.createdAt == before.createdAt && after.updatedAt == before.updatedAt
    && after.completedAt == before.completedAt && after.summary == before.summary
    && after.checkpoint == before.checkpoint && after.observedWorktree == before.observedWorktree
    && after.legacy.Some? && (after.legacy.value.completionClaimed <==> before.completedAt.Some?)
  }

  /** The snapshot says what it said, task by task. */
  predicate Upgrades(before: WorkspaceState, after: WorkspaceState) {
    && after.workspace == before.workspace && after.workspaceRevision == before.workspaceRevision
    && after.activeTaskId == before.activeTaskId && after.mutationDedupe == before.mutationDedupe
    && after.tasks.Keys == before.tasks.Keys
    && forall id :: id in before.tasks ==> UpgradesTask(before.tasks[id], after.tasks[id])
  }

  /** A v1 snapshot is read as what it says with each completion claim marked as one, a v2 snapshot as it is. */
  lemma ReadingUpgrades(file: File)
    requires ParseWorkspace(file).Ok?
    ensures file.value.Workspace?
    ensures match file.value.schema
      case V1 => Upgrades(file.value.state, ParseWorkspace(file).value)
      case V2 => ParseWorkspace(file).value == file.value.state
  {
    forall id | id in file.value.state.tasks
      ensures TaskOk(id, file.value.state.tasks[id], file.value.state)
    {
    }
  }

  function ActiveTasks(state: WorkspaceState): set<Uuid> {
    set id | id in state.tasks && state.tasks[id].status == Active
  }

  predicate IsDone(status: TaskStatus) { status == Completed || status == Abandoned }

  /** The task is filed under its id, no newer than the snapshot, and over exactly if it has an end. */
  predicate FiledTask(id: Uuid, task: Task, state: WorkspaceState) {
    && task.taskId == id && 0 < task.revision && task.revision <= state.workspaceRevision
    && (task.completedAt.Some? ==> IsDone(task.status)) && (task.completedAt.None? ==> task.status == Active)
    && task.observedWorktree == state.workspace.worktreeIdentity
  }

  /** The answer is filed under its request, about a task there is, and tells of no revision still to come. */
  predicate FiledAnswer(id: Uuid, entry: DedupeRecord, state: WorkspaceState) {
    && entry.requestId == id
    && entry.result.taskId == entry.taskId && entry.taskId in state.tasks
    && entry.result.workspaceId == state.workspace.workspaceId
    && 0 < entry.result.revision && entry.result.revision <= state.tasks[entry.taskId].revision
    && 0 < entry.result.workspaceRevision && entry.result.workspaceRevision <= state.workspaceRevision
    && (match entry.kind
        case Create | Update => entry.result.status == Active
        case Complete => IsDone(entry.result.status))
  }

  /** What a file must say to be read as a snapshot; at most one task is active, the one pointed at. */
  lemma WhatASnapshotIs(file: File)
    ensures ParseWorkspace(file).Ok? <==>
      && file.value.Workspace?
      && var state := file.value.state;
      && state.workspaceRevision <= MAX_SAFE_INTEGER
      && ActiveTasks(state) == (if state.activeTaskId.Some? then {state.activeTaskId.value} else {})
      && (forall id :: id in state.tasks ==> FiledTask(id, state.tasks[id], state))
      && (forall id :: id in state.mutationDedupe ==> FiledAnswer(id, state.mutationDedupe[id], state))
      && (file.value.schema == V1 ==> forall id :: id in state.tasks ==> state.tasks[id].legacy.None?)
  {
    if file.value.Workspace? {
      var state := file.value.state;
      var pointed := if state.activeTaskId.Some? then {state.activeTaskId.value} else {};
      assert forall id :: id in state.tasks ==> (id in ActiveTasks(state) <==> state.tasks[id].status == Active);
      if ActivePointerOk(state) {
        assert ActiveTasks(state) == pointed;
      }
      assert forall id :: id in state.tasks ==>
        (TaskOk(id, state.tasks[id], state) <==> FiledTask(id, state.tasks[id], state));
      assert forall id :: id in state.mutationDedupe ==>
        (DedupeOk(id, state.mutationDedupe[id], state) <==> FiledAnswer(id, state.mutationDedupe[id], state));
    }
  }

  // -------------------------------------------------------------------------------------- receipts

  predicate ExecutionOk(record: ExecutionRecord) {
    && (record.callerResolution.Some? ==>
          record.state == Unknown && record.callerResolution.value.operationId == record.operationId)
    && (record.state == Prepared ==> record.sessionId.None? && record.startedAt.None? && record.endedAt.None?)
    && (record.state == Running ==>
          record.sessionId.Some? && record.sessionId.value != "" && record.startedAt.Some? && record.endedAt.None?)
    && (record.state == Exited || record.state == SpawnFailed ==> record.endedAt.Some?)
  }

  function ParseExecution(file: File): (r: Result<ExecutionRecord, StoreError>) {
    match file.value
    case Execution(_, record) => if ExecutionOk(record) then Ok(record) else Err(StateCorrupt)
    case _ => Err(StateCorrupt)
  }

  /** What a file must say to be read as a receipt, state by state; only an unknown outcome has a resolution. */
  lemma WhatAReceiptIs(file: File)
    ensures ParseExecution(file).Ok? ==> ParseExecution(file).value == file.value.record
    ensures ParseExecution(file).Ok? <==>
      && file.value.Execution?
      && var r := file.value.record;
      && (match r.state
          case Prepared => r.sessionId.None? && r.startedAt.None? && r.endedAt.None?
          case Running => r.sessionId.Some? && r.sessionId != Some("") && r.startedAt.Some? && r.endedAt.None?
          case Exited | SpawnFailed => r.endedAt.Some?
          case Unknown => true)
      && match r.callerResolution
         case None => true
         case Some(resolution) => r.state == Unknown && resolution.operationId == r.operationId
  {
  }

  // -------------------------------------------------------------------------------------- ownership

  type Receipts = map<Uuid, ExecutionRecord>
  type Owners = map<Uuid, Uuid>

  function OwnersOf(receipts: Receipts): Owners {
    map op | op in receipts :: receipts[op].taskId
  }

  function ReconciliationsOf(task: Task): seq<Reconciliation> {
    match task.checkpoint.executionReconciliations case None => [] case Some(rs) => rs
  }

  /** A receipt reference may dangle; one that resolves must stay within its task. */
  predicate RefOk(ref: EvidenceRef, taskId: Uuid, owners: Owners) {
    ref.kind == ReceiptEvidence && ref.operationId.Some? && ref.operationId.value in owners
    ==> owners[ref.operationId.value] == taskId
  }

  predicate RefsOk(refs: seq<EvidenceRef>, taskId: Uuid, owners: Owners) {
    forall ref :: ref in refs ==> RefOk(ref, taskId, owners)
  }

  predicate RecordOwned(record: ExecutionRecord, state: WorkspaceState, owners: Owners) {
    && record.workspaceId == state.workspace.workspaceId
    && record.taskId in state.tasks
    && (record.callerResolution.Some? ==> RefsOk(record.callerResolution.value.evidenceRefs, record.taskId, owners))
  }

  predicate TaskOwned(task: Task, owners: Owners) {
    && RefsOk(task.checkpoint.evidenceRefs, task.taskId, owners)
    && forall entry :: entry in ReconciliationsOf(task) ==>
        && entry.operationId in owners && owners[entry.operationId] == task.taskId
        && RefsOk(entry.evidenceRefs, task.taskId, owners)
  }

  /** `validateOwnership(state, records, file, owners)`. */
  predicate OwnershipOk(state: WorkspaceState, records: set<ExecutionRecord>, owners: Owners) {
    && (forall record :: record in records ==> RecordOwned(record, state, owners))
    && (forall id :: id in state.tasks ==> TaskOwned(state.tasks[id], owners))
  }

  /** The full check of boot and recovery: every receipt, every reference. */
  predicate FullyOwned(state: WorkspaceState, receipts: Receipts) {
    OwnershipOk(state, receipts.Values, OwnersOf(receipts))
  }

  // --------------------------------------------------------------------------------- reading twice

  /** Printing what was read and reading it again gives the same value, for either schema. */
  lemma ReadPrintRead(file: File)
    ensures ParseWorkspace(file).Ok? ==>
      ParseWorkspace(Body(Workspace(V2, ParseWorkspace(file).value))) == ParseWorkspace(file)
    ensures ParseExecution(file).Ok? ==>
      ParseExecution(Body(Execution(V2, ParseExecution(file).value))) == ParseExecution(file)
  {
    if ParseWorkspace(file).Ok? && file.value.schema == V1 {
      var state := file.value.state;
      var upgraded := UpgradeWorkspace(state);
      forall id | id in upgraded.tasks
        ensures TaskOk(id, upgraded.tasks[id], upgraded)
      {
        assert TaskOk(id, state.tasks[id], state);
      }
      forall id | id in upgraded.mutationDedupe
        ensures DedupeOk(id, upgraded.mutationDedupe[id], upgraded)
      {
        assert DedupeOk(id, state.mutationDedupe[id], state);
      }
    }
  }
}
