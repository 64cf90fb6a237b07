/** The task mutations of src/continuity/task-service.ts: create, update, complete, and their replay. */
module TaskService {
  import opened Arithmetic
  import opened Wrappers
  import opened TaskTypes
  import opened StorageSchema
  import opened Durability
  import opened StorageJournal
  import opened StoreOutcomes
  import opened Soundness
  import opened TaskStore
  import opened Ownership
  import opened ExecutionRecorder
  import ExecutionIndex

  datatype CreateRequest = CreateRequest(identity: WorkspaceIdentity, requestId: Uuid, objective: string,
                                         checkpoint: Checkpoint)
  datatype UpdateRequest = UpdateRequest(taskId: Uuid, requestId: Uuid, expectedRevision: nat, checkpoint: Checkpoint)
  datatype CompleteRequest = CompleteRequest(
    taskId: Uuid, requestId: Uuid, expectedRevision: nat, outcome: TaskStatus, summary: string,
    evidenceRefs: seq<EvidenceRef>, finalCheckpoint: Option<FinalCheckpoint>)

  /** What one call reads from its surroundings: the clock (twice), and the observed worktree. */
  datatype Moment = Moment(now: Time, recordedAt: Time, observed: string)

  // ------------------------------------------------------------------------------------ checkpoints

  /** A caller's reconciliations carry no time; normalizing a checkpoint stamps them. */
  function Stamp(checkpoint: Checkpoint, t: Time): Checkpoint {
    match checkpoint.executionReconciliations
    case None => checkpoint
    case Some(rs) => checkpoint.(executionReconciliations := Some(StampAll(rs, t)))
  }

  function StampAll(rs: seq<Reconciliation>, t: Time): (r: seq<Reconciliation>)
    ensures |r| == |rs|
  {
    if rs == [] then [] else [rs[0].(recordedAt := t)] + StampAll(rs[1..], t)
  }

  function CreateDigest(q: CreateRequest): Hmac {
    Hmac(CreateInput(q.identity.workspaceId, q.objective, Stamp(q.checkpoint, 0)))
  }
  function UpdateDigest(q: UpdateRequest): Hmac {
    Hmac(UpdateInput(q.taskId, q.expectedRevision, Stamp(q.checkpoint, 0)))
  }
  function CompleteDigest(q: CompleteRequest): Hmac {
    Hmac(CompleteInput(q.taskId, q.expectedRevision, q.outcome, q.summary, q.evidenceRefs, q.finalCheckpoint))
  }

  predicate Blank(text: string) {
    forall c :: c in text ==> c in " \t\n\r"
  }

  /** `completionCheckpointConflict` (src/continuity/completion-checkpoint.ts:5-8). */
  predicate CompletionConflict(candidate: FinalCheckpoint) {
    candidate.phase != "completed" || Blank(candidate.current) || |candidate.remaining| > 0 || |candidate.blockers| > 0
  }

  function Candidate(q: CompleteRequest, task: Task): FinalCheckpoint {
    match q.finalCheckpoint
    case Some(f) => f
    case None => FinalCheckpoint(task.checkpoint.phase, task.checkpoint.current, task.checkpoint.remaining,
                                 task.checkpoint.blockers, task.checkpoint.otherText, false)
  }

  function ClosingCheckpoint(q: CompleteRequest, task: Task): Checkpoint {
    var c := Candidate(q, task);
    Checkpoint(if q.outcome == Completed then "completed" else "abandoned", c.current, c.remaining, c.blockers,
               c.otherText, q.evidenceRefs, task.checkpoint.executionReconciliations)
  }

  /** A receipt that does not stand in the way of closing its task. */
  predicate Closable(record: ExecutionRecord, outcome: TaskStatus) {
    match record.state
    case Prepared | Running => false
    case Exited | SpawnFailed => true
    case Unknown =>
      outcome == Abandoned
        || (record.callerResolution.Some? && record.callerResolution.value.resolution != ExternalEffectUnknown)
  }

  // ------------------------------------------------------------------------------- the next snapshot

  /** One mutation: the new task, the new active pointer, and the record that makes a retry return the same result. */
  function Applied(state: WorkspaceState, kind: MutationKind, requestId: Uuid, hmac: Hmac, task: Task,
                   unresolved: set<Uuid>, now: Time): WorkspaceState {
    var result := MutationResult(task.taskId, state.workspace.workspaceId, task.revision, state.workspaceRevision + 1,
      task.status, unresolved);
    state.(workspaceRevision := state.workspaceRevision + 1,
           activeTaskId := if task.status == Active then Some(task.taskId) else None,
           tasks := state.tasks[task.taskId := task],
           mutationDedupe := state.mutationDedupe[requestId := DedupeRecord(requestId, task.taskId, kind, hmac, result,
             now)])
  }

  function CreatedTask(q: CreateRequest, taskId: Uuid, m: Moment): Task {
    Task(taskId, q.objective, Active, 1, m.now, m.now, None, None, Stamp(q.checkpoint, m.recordedAt), m.observed, None)
  }

  function ResolutionsAsked(q: UpdateRequest, m: Moment): seq<Reconciliation> {
    match Stamp(q.checkpoint, m.recordedAt).executionReconciliations case None => [] case Some(rs) => rs
  }

  function UpdatedTask(task: Task, q: UpdateRequest, m: Moment): Task {
    task.(revision := task.revision + 1, updatedAt := m.now, checkpoint := Stamp(q.checkpoint, m.recordedAt),
      observedWorktree := m.observed)
  }

  function CompletedTask(task: Task, q: CompleteRequest, m: Moment): Task {
    task.(status := q.outcome, revision := task.revision + 1, updatedAt := m.now, completedAt := Some(m.now),
          summary := Some(q.summary), checkpoint := ClosingCheckpoint(q, task))
  }

  // ------------------------------------------------------------------------------------- the ledger

  /** The sum of all task revisions. */
  ghost function Revisions(tasks: map<Uuid, Task>): nat { Sum(tasks, RevisionOf) }

  function RevisionOf(task: Task): nat { task.revision }

  predicate Produces(entry: DedupeRecord, taskId: Uuid, revision: nat) {
    entry.result.taskId == taskId && entry.result.revision == revision
  }

  ghost predicate Produced(dedupe: map<Uuid, DedupeRecord>, taskId: Uuid, revision: nat) {
    exists a :: a in dedupe && Produces(dedupe[a], taskId, revision)
  }

  predicate Apart(a: DedupeRecord, b: DedupeRecord) {
    a.result.workspaceRevision != b.result.workspaceRevision && !Produces(b, a.result.taskId, a.result.revision)
  }

  predicate WithinState(entry: DedupeRecord, state: WorkspaceState) {
    && 1 <= entry.result.workspaceRevision <= state.workspaceRevision
    && entry.result.taskId in state.tasks
    && 1 <= entry.result.revision <= state.tasks[entry.result.taskId].revision
  }

  /** The recorded result is the one the recorded input asked for. */
  predicate Answers(entry: DedupeRecord) {
    && entry.taskId == entry.result.taskId
    && match entry.kind
       case Create => entry.inputHmac.of.CreateInput? && entry.result.revision == 1 && entry.result.status == Active
       case Update =>
         && entry.inputHmac.of.UpdateInput? && entry.inputHmac.of.taskId == entry.taskId
         && entry.result.revision == entry.inputHmac.of.expectedRevision + 1 && entry.result.status == Active
       case Complete =>
         && entry.inputHmac.of.CompleteInput? && entry.inputHmac.of.taskId == entry.taskId
         && entry.result.revision == entry.inputHmac.of.expectedRevision + 1
            && entry.result.status == entry.inputHmac.of.outcome
  }

  /** No two requests produced the same revision, of a task or of the workspace. */
  predicate ProducedOnce(state: WorkspaceState) {
    && (forall a :: a in state.mutationDedupe ==>
       WithinState(state.mutationDedupe[a], state) && Answers(state.mutationDedupe[a]))
    && (forall a, b :: a in state.mutationDedupe && b in state.mutationDedupe && a != b ==>
          Apart(state.mutationDedupe[a], state.mutationDedupe[b]))
  }

  /**
    * Each revision of each task was produced by exactly one recorded request, and nothing else was: the
    * requests, the workspace revision and the task revisions all count the same mutations.
    */
  ghost predicate Ledger(state: WorkspaceState) {
    && state.workspaceRevision == |state.mutationDedupe| == Revisions(state.tasks)
    && ProducedOnce(state)
    && forall id, k :: id in state.tasks && 1 <= k <= state.tasks[id].revision ==> Produced(state.mutationDedupe, id, k)
  }

  lemma EmptyLedger(identity: WorkspaceIdentity)
    ensures Ledger(EmptyState(identity)) && WorkspaceOk(EmptyState(identity))
  {
  }

  lemma OneMoreRevision(tasks: map<Uuid, Task>, task: Task)
    requires if task.taskId in tasks then task.revision == tasks[task.taskId].revision + 1 else task.revision == 1
    ensures Revisions(tasks[task.taskId := task]) == Revisions(tasks) + 1
  {
    SumUpdate(tasks, RevisionOf, task.taskId, task);
  }

  predicate NextRevision(state: WorkspaceState, task: Task) {
    if task.taskId in state.tasks then task.revision == state.tasks[task.taskId].revision + 1 else task.revision == 1
  }

  lemma AppliedProducesOnce(state: WorkspaceState, kind: MutationKind, requestId: Uuid, hmac: Hmac, task: Task,
                            unresolved: set<Uuid>, now: Time)
    requires ProducedOnce(state) && requestId !in state.mutationDedupe && NextRevision(state, task)
    requires Answers(Applied(state, kind, requestId, hmac, task, unresolved, now).mutationDedupe[requestId])
    ensures ProducedOnce(Applied(state, kind, requestId, hmac, task, unresolved, now))
  {
    var next := Applied(state, kind, requestId, hmac, task, unresolved, now);
    forall a | a in next.mutationDedupe ensures WithinState(next.mutationDedupe[a], next) {
      if a != requestId { assert WithinState(state.mutationDedupe[a], state); }
    }
    forall a, b | a in next.mutationDedupe && b in next.mutationDedupe && a != b
      ensures Apart(next.mutationDedupe[a], next.mutationDedupe[b])
    {
      if a != requestId { assert WithinState(state.mutationDedupe[a], state); }
      if b != requestId { assert WithinState(state.mutationDedupe[b], state); }
    }
  }

  /** Every revision there was is still produced, and so is the new one. */
  lemma AppliedProducesAll(state: WorkspaceState, kind: MutationKind, requestId: Uuid, hmac: Hmac, task: Task,
                           unresolved: set<Uuid>, now: Time, id: Uuid, k: nat)
    requires requestId !in state.mutationDedupe && NextRevision(state, task)
    requires id in state.tasks && 1 <= k <= state.tasks[id].revision ==> Produced(state.mutationDedupe, id, k)
    ensures var next := Applied(state, kind, requestId, hmac, task, unresolved, now);
      id in next.tasks && 1 <= k <= next.tasks[id].revision ==> Produced(next.mutationDedupe, id, k)
  {
    var next := Applied(state, kind, requestId, hmac, task, unresolved, now);
    if id == task.taskId && k == task.revision {
      assert Produces(next.mutationDedupe[requestId], id, k);
    } else if id in next.tasks && 1 <= k <= next.tasks[id].revision {
      var a :| a in state.mutationDedupe && Produces(state.mutationDedupe[a], id, k);
      assert a in next.mutationDedupe && next.mutationDedupe[a] == state.mutationDedupe[a];
    }
  }

  lemma AppliedCounts(state: WorkspaceState, kind: MutationKind, requestId: Uuid, hmac: Hmac, task: Task,
                      unresolved: set<Uuid>, now: Time)
    requires state.workspaceRevision == |state.mutationDedupe| == Revisions(state.tasks)
    requires requestId !in state.mutationDedupe && NextRevision(state, task)
    ensures var next := Applied(state, kind, requestId, hmac, task, unresolved, now);
      next.workspaceRevision == |next.mutationDedupe| == Revisions(next.tasks)
  {
    var next := Applied(state, kind, requestId, hmac, task, unresolved, now);
    OneMoreRevision(state.tasks, task);
    assert next.mutationDedupe.Keys == state.mutationDedupe.Keys + {requestId};
  }

  /** A mutation under a new request keeps the ledger. */
  lemma AppliedKeepsLedger(state: WorkspaceState, kind: MutationKind, requestId: Uuid, hmac: Hmac, task: Task,
                           unresolved: set<Uuid>, now: Time)
    requires Ledger(state) && requestId !in state.mutationDedupe && NextRevision(state, task)
    requires Answers(Applied(state, kind, requestId, hmac, task, unresolved, now).mutationDedupe[requestId])
    ensures Ledger(Applied(state, kind, requestId, hmac, task, unresolved, now))
  {
    var next := Applied(state, kind, requestId, hmac, task, unresolved, now);
    AppliedCounts(state, kind, requestId, hmac, task, unresolved, now);
    AppliedProducesOnce(state, kind, requestId, hmac, task, unresolved, now);
    forall id, k: nat | id in next.tasks && 1 <= k <= next.tasks[id].revision
      ensures Produced(next.mutationDedupe, id, k)
    {
      AppliedProducesAll(state, kind, requestId, hmac, task, unresolved, now, id, k);
    }
  }

  /** It also passes every check of the snapshot parser, so the store does not refuse it as corrupt. */
  lemma AppliedIsWellFormed(state: WorkspaceState, kind: MutationKind, requestId: Uuid, hmac: Hmac, task: Task,
                            unresolved: set<Uuid>, now: Time)
    requires WorkspaceOk(state) && state.workspaceRevision < MAX_SAFE_INTEGER && requestId !in state.mutationDedupe
    requires NextRevision(state, task)
    requires state.activeTaskId == None || state.activeTaskId == Some(task.taskId)
    requires task.observedWorktree == state.workspace.worktreeIdentity
    requires (task.status == Active <==> task.completedAt.None?)
    requires kind == Complete <==> task.status != Active
    ensures WorkspaceOk(Applied(state, kind, requestId, hmac, task, unresolved, now))
  {
    var next := Applied(state, kind, requestId, hmac, task, unresolved, now);
    assert forall id :: id in state.tasks ==> TaskOk(id, state.tasks[id], state);
    assert forall id :: id in next.tasks ==> TaskOk(id, next.tasks[id], next);
    forall a | a in next.mutationDedupe ensures DedupeOk(a, next.mutationDedupe[a], next) {
      if a != requestId { assert DedupeOk(a, state.mutationDedupe[a], state); }
    }
  }

  // ---------------------------------------------------------------- what a caller asked for, and when it is the same

  predicate SameResolutions(a: seq<Reconciliation>, b: seq<Reconciliation>) {
    |a| == |b| && forall i :: 0 <= i < |a| ==> SameResolution(a[i], b[i])
  }

  predicate SameButForTimes(a: Checkpoint, b: Checkpoint) {
    && a.phase == b.phase && a.current == b.current && a.remaining == b.remaining && a.blockers == b.blockers
    && a.otherText == b.otherText && a.evidenceRefs == b.evidenceRefs
    && (a.executionReconciliations.Some? <==> b.executionReconciliations.Some?)
    && (a.executionReconciliations.Some? ==>
          SameResolutions(a.executionReconciliations.value, b.executionReconciliations.value))
  }

  /** The checkpoint as it was sent, with each resolution recorded at this time. */
  predicate StoredAt(sent: Checkpoint, stored: Checkpoint, t: Time) {
    && SameButForTimes(sent, stored)
    && (stored.executionReconciliations.Some? ==>
          forall e :: e in stored.executionReconciliations.value ==> e.recordedAt == t)
  }

  lemma {:induction false} StampedAll(rs: seq<Reconciliation>, t: Time)
    ensures SameResolutions(rs, StampAll(rs, t))
    ensures forall i :: 0 <= i < |rs| ==> StampAll(rs, t)[i].recordedAt == t
  {
    if rs != [] {
      StampedAll(rs[1..], t);
      forall i | 0 <= i < |rs|
        ensures SameResolution(rs[i], StampAll(rs, t)[i]) && StampAll(rs, t)[i].recordedAt == t
      {
        if i > 0 { assert rs[i] == rs[1..][i - 1] && StampAll(rs, t)[i] == StampAll(rs[1..], t)[i - 1]; }
      }
    }
  }

  lemma StampStores(checkpoint: Checkpoint, t: Time)
    ensures StoredAt(checkpoint, Stamp(checkpoint, t), t)
  {
    if checkpoint.executionReconciliations.Some? { StampedAll(checkpoint.executionReconciliations.value, t); }
  }

  lemma StampsAgree(a: Checkpoint, b: Checkpoint)
    ensures Stamp(a, 0) == Stamp(b, 0) <==> SameButForTimes(a, b)
  {
    if a.executionReconciliations.Some? && b.executionReconciliations.Some? {
      StampedAlike(a.executionReconciliations.value, b.executionReconciliations.value);
    }
  }

  lemma StampedAlike(x: seq<Reconciliation>, y: seq<Reconciliation>)
    ensures StampAll(x, 0) == StampAll(y, 0) <==> SameResolutions(x, y)
  {
    StampedAll(x, 0);
    StampedAll(y, 0);
    if |x| == |y| {
      forall i | 0 <= i < |x|
        ensures StampAll(x, 0)[i] == StampAll(y, 0)[i] <==> SameResolution(x[i], y[i])
      {
        assert SameResolution(x[i], StampAll(x, 0)[i]) && SameResolution(y[i], StampAll(y, 0)[i]);
      }
    }
  }

  /** Two requests count as the same input exactly if they ask for the same, whatever their ids and times. */
  lemma CreateDigestTells(q: CreateRequest, p: CreateRequest)
    ensures CreateDigest(q) == CreateDigest(p) <==>
      && q.identity.workspaceId == p.identity.workspaceId && q.objective == p.objective
      && SameButForTimes(q.checkpoint, p.checkpoint)
  {
    StampsAgree(q.checkpoint, p.checkpoint);
  }

  lemma UpdateDigestTells(q: UpdateRequest, p: UpdateRequest)
    ensures UpdateDigest(q) == UpdateDigest(p) <==>
      && q.taskId == p.taskId && q.expectedRevision == p.expectedRevision && SameButForTimes(q.checkpoint, p.checkpoint)
  {
    StampsAgree(q.checkpoint, p.checkpoint);
  }

  lemma CompleteDigestTells(q: CompleteRequest, p: CompleteRequest)
    ensures CompleteDigest(q) == CompleteDigest(p) <==> q.(requestId := p.requestId) == p
  {
  }

  // --------------------------------------------------------------------------- the three mutations

  function Created(state: WorkspaceState, taskId: Uuid, q: CreateRequest, m: Moment): WorkspaceState {
    Applied(state.(workspace := q.identity), Create, q.requestId, CreateDigest(q), CreatedTask(q, taskId, m), {}, m.now)
  }

  function Updated(state: WorkspaceState, q: UpdateRequest, m: Moment): WorkspaceState
    requires q.taskId in state.tasks
  {
    Applied(state, Update, q.requestId, UpdateDigest(q), UpdatedTask(state.tasks[q.taskId], q, m), {}, m.now)
  }

  function Closed(state: WorkspaceState, executions: Receipts, q: CompleteRequest, m: Moment): WorkspaceState
    requires q.taskId in state.tasks
  {
    Applied(state, Complete, q.requestId, CompleteDigest(q), CompletedTask(state.tasks[q.taskId], q, m),
            LeftUnknown(executions, q.outcome), m.now)
  }

  ghost predicate CreateStep(before: WorkspaceState, after: WorkspaceState, q: CreateRequest, m: Moment) {
    && before.activeTaskId == None && q.requestId !in before.mutationDedupe
    && exists taskId :: taskId !in before.tasks && after == Created(before, taskId, q, m)
  }

  function RequireActiveTask(state: WorkspaceState, taskId: Uuid): Reply<Task> {
    if taskId !in state.tasks then Err(UnknownTask)
    else if state.tasks[taskId].status != Active || state.activeTaskId != Some(taskId) then Err(TaskClosed)
    else Ok(state.tasks[taskId])
  }

  /** The active task at the revision the caller expects. */
  function RequireCurrent(state: WorkspaceState, taskId: Uuid, expectedRevision: nat): Reply<Task> {
    var active := RequireActiveTask(state, taskId);
    if active.Ok? && active.value.revision != expectedRevision then Err(RevisionConflict) else active
  }

  ghost predicate UpdateStep(before: WorkspaceState, after: WorkspaceState, q: UpdateRequest, m: Moment) {
    && q.requestId !in before.mutationDedupe && RequireCurrent(before, q.taskId, q.expectedRevision).Ok?
    && after == Updated(before, q, m)
  }

  /** The receipts that stand in the way, and those an abandoned task leaves behind. */
  function Obstacles(executions: Receipts, outcome: TaskStatus): set<Uuid> {
    set op | op in executions && !Closable(executions[op], outcome)
  }

  function LeftUnknown(executions: Receipts, outcome: TaskStatus): set<Uuid> {
    if outcome == Abandoned then set op | op in executions && executions[op].state == Unknown else {}
  }

  /** Nothing remains to be done. */
  predicate Finished(phase: string, current: string, remaining: seq<string>, blockers: seq<string>) {
    phase == "completed" && remaining == [] && blockers == [] && exists c :: c in current && c !in " \t\n\r"
  }

  /** A completed task needs a completed checkpoint; a final one may not touch the receipt fields. */
  predicate ClosesWell(q: CompleteRequest, task: Task) {
    match q.finalCheckpoint
    case Some(f) =>
      && |f.current| <= 2048 && !f.receiptFields
      && (q.outcome == Completed ==> Finished(f.phase, f.current, f.remaining, f.blockers))
    case None =>
      q.outcome == Completed ==>
        Finished(task.checkpoint.phase, task.checkpoint.current, task.checkpoint.remaining, task.checkpoint.blockers)
  }

  ghost predicate CompleteStep(before: WorkspaceState, after: WorkspaceState, executions: Receipts, q: CompleteRequest,
                               m: Moment) {
    && q.requestId !in before.mutationDedupe && RequireCurrent(before, q.taskId, q.expectedRevision).Ok?
       && Obstacles(executions, q.outcome) == {}
    && ClosesWell(q, before.tasks[q.taskId])
    && after == Closed(before, executions, q, m)
  }

  ghost predicate CloseStep(before: WorkspaceState, after: WorkspaceState, q: CompleteRequest, m: Moment) {
    exists executions :: CompleteStep(before, after, executions, q, m)
  }

  // -------------------------------------------------------------------- what each mutation has to do

  /** One more revision of one task and of the workspace, and a record of the answer; all else stays. */
  predicate Advances(before: WorkspaceState, after: WorkspaceState, requestId: Uuid, kind: MutationKind, hmac: Hmac,
                     answer: MutationResult, now: Time) {
    && after.workspaceRevision == before.workspaceRevision + 1
    && after.tasks.Keys == before.tasks.Keys + {answer.taskId}
    && (forall id :: id in before.tasks && id != answer.taskId ==> after.tasks[id] == before.tasks[id])
    && answer.workspaceId == after.workspace.workspaceId && answer.workspaceRevision == after.workspaceRevision
    && answer.revision == after.tasks[answer.taskId].revision && answer.status == after.tasks[answer.taskId].status
    && after.mutationDedupe.Keys == before.mutationDedupe.Keys + {requestId}
    && (forall id :: id in before.mutationDedupe && id != requestId ==>
          after.mutationDedupe[id] == before.mutationDedupe[id])
    && var entry := after.mutationDedupe[requestId];
       && entry.requestId == requestId && entry.taskId == answer.taskId && entry.kind == kind
       && entry.inputHmac == hmac && entry.result == answer && entry.recordedAt == now
  }

  /** A new task, at its first revision, with what the caller sent; it is the active one. */
  predicate CreatesAsAsked(before: WorkspaceState, after: WorkspaceState, q: CreateRequest, m: Moment,
                           answer: MutationResult) {
    && Advances(before, after, q.requestId, Create, CreateDigest(q), answer, m.now)
    && before.activeTaskId == None && answer.taskId !in before.tasks && answer.unresolvedUnknown == {}
    && after.workspace == q.identity && after.activeTaskId == Some(answer.taskId)
    && var task := after.tasks[answer.taskId];
       && task.taskId == answer.taskId && task.objective == q.objective && task.status == Active && task.revision == 1
       && task.createdAt == m.now && task.updatedAt == m.now && task.completedAt.None? && task.summary.None?
       && StoredAt(q.checkpoint, task.checkpoint, m.recordedAt) && task.observedWorktree == m.observed
       && task.legacy.None?
  }

  /** The task was the active one, at the revision the caller expected. */
  predicate WasCurrent(state: WorkspaceState, taskId: Uuid, expectedRevision: nat) {
    && taskId in state.tasks && state.activeTaskId == Some(taskId)
    && state.tasks[taskId].status == Active && state.tasks[taskId].revision == expectedRevision
  }

  predicate SameTask(a: Task, b: Task) {
    b.taskId == a.taskId && b.objective == a.objective && b.createdAt == a.createdAt && b.legacy == a.legacy
  }

  /** The active task has the checkpoint the caller sent. */
  predicate UpdatesAsAsked(before: WorkspaceState, after: WorkspaceState, q: UpdateRequest, m: Moment,
                           answer: MutationResult) {
    && Advances(before, after, q.requestId, Update, UpdateDigest(q), answer, m.now)
    && WasCurrent(before, q.taskId, q.expectedRevision) && answer.taskId == q.taskId && answer.unresolvedUnknown == {}
    && after.workspace == before.workspace && after.activeTaskId == before.activeTaskId
    && var was, task := before.tasks[q.taskId], after.tasks[q.taskId];
       && SameTask(was, task) && task.status == Active && task.revision == was.revision + 1 && task.updatedAt == m.now
       && task.completedAt == was.completedAt && task.summary == was.summary
       && StoredAt(q.checkpoint, task.checkpoint, m.recordedAt) && task.observedWorktree == m.observed
  }

  /** The checkpoint a task is closed with: the final one or the last one, under the outcome's name. */
  predicate ClosesWith(q: CompleteRequest, was: Checkpoint, now: Checkpoint) {
    && now.evidenceRefs == q.evidenceRefs && now.executionReconciliations == was.executionReconciliations
    && (now.phase == "completed" <==> q.outcome == Completed)
    && (now.phase == "abandoned" <==> q.outcome != Completed)
    && match q.finalCheckpoint
       case Some(f) =>
         && now.current == f.current && now.remaining == f.remaining && now.blockers == f.blockers
         && now.otherText == f.otherText
       case None =>
         && now.current == was.current && now.remaining == was.remaining && now.blockers == was.blockers
         && now.otherText == was.otherText
  }

  /** The active task is closed with this outcome, and a completed one has nothing left to do. */
  predicate ClosesAsAsked(before: WorkspaceState, after: WorkspaceState, q: CompleteRequest, m: Moment,
                          answer: MutationResult) {
    && Advances(before, after, q.requestId, Complete, CompleteDigest(q), answer, m.now)
    && WasCurrent(before, q.taskId, q.expectedRevision) && answer.taskId == q.taskId
    && after.workspace == before.workspace && after.activeTaskId.None?
    && var was, task := before.tasks[q.taskId], after.tasks[q.taskId];
       && SameTask(was, task) && task.status == q.outcome && task.revision == was.revision + 1
       && task.updatedAt == m.now && task.completedAt == Some(m.now) && task.summary == Some(q.summary)
       && task.observedWorktree == was.observedWorktree && ClosesWith(q, was.checkpoint, task.checkpoint)
       && ClosesWell(q, was)
  }

  lemma CreateSays(before: WorkspaceState, after: WorkspaceState, q: CreateRequest, m: Moment)
    requires CreateStep(before, after, q, m) && q.requestId in after.mutationDedupe
    ensures CreatesAsAsked(before, after, q, m, after.mutationDedupe[q.requestId].result)
  {
    hide CreateDigest, StoredAt, Stamp;
    StampStores(q.checkpoint, m.recordedAt);
  }

  lemma UpdateSays(before: WorkspaceState, after: WorkspaceState, q: UpdateRequest, m: Moment)
    requires UpdateStep(before, after, q, m) && q.requestId in after.mutationDedupe && WorkspaceOk(after)
    ensures UpdatesAsAsked(before, after, q, m, after.mutationDedupe[q.requestId].result)
  {
    hide UpdateDigest, StoredAt, Stamp;
    StampStores(q.checkpoint, m.recordedAt);
    assert TaskOk(q.taskId, after.tasks[q.taskId], after);
  }

  lemma CompleteSays(before: WorkspaceState, after: WorkspaceState, q: CompleteRequest, m: Moment)
    requires CloseStep(before, after, q, m) && q.requestId in after.mutationDedupe && WorkspaceOk(after)
    ensures ClosesAsAsked(before, after, q, m, after.mutationDedupe[q.requestId].result)
  {
    hide CompleteDigest, ClosesWell, LeftUnknown;
    assert TaskOk(q.taskId, after.tasks[q.taskId], after);
  }

  predicate Same(entry: DedupeRecord, kind: MutationKind, hmac: Hmac) { entry.kind == kind && entry.inputHmac == hmac }

  predicate Recorded(before: WorkspaceState, after: WorkspaceState, requestId: Uuid, kind: MutationKind, hmac: Hmac) {
    && requestId !in before.mutationDedupe && requestId in after.mutationDedupe
    && after.mutationDedupe == before.mutationDedupe[requestId := after.mutationDedupe[requestId]]
    && Same(after.mutationDedupe[requestId], kind, hmac)
  }

  lemma CreateKeepsLedger(before: WorkspaceState, after: WorkspaceState, q: CreateRequest, m: Moment)
    requires Ledger(before) && CreateStep(before, after, q, m)
    ensures Ledger(after) && Recorded(before, after, q.requestId, Create, CreateDigest(q))
  {
    var taskId :| taskId !in before.tasks && after == Created(before, taskId, q, m);
    AppliedKeepsLedger(before.(workspace := q.identity), Create, q.requestId, CreateDigest(q),
                       CreatedTask(q, taskId, m), {}, m.now);
  }

  lemma UpdateKeepsLedger(before: WorkspaceState, after: WorkspaceState, q: UpdateRequest, m: Moment)
    requires Ledger(before) && WorkspaceOk(before) && UpdateStep(before, after, q, m)
    ensures Ledger(after) && Recorded(before, after, q.requestId, Update, UpdateDigest(q))
  {
    assert TaskOk(q.taskId, before.tasks[q.taskId], before);
    AppliedKeepsLedger(before, Update, q.requestId, UpdateDigest(q), UpdatedTask(before.tasks[q.taskId], q, m), {},
                       m.now);
  }

  lemma CompleteKeepsLedger(before: WorkspaceState, after: WorkspaceState, executions: Receipts, q: CompleteRequest,
                            m: Moment)
    requires Ledger(before) && WorkspaceOk(before) && CompleteStep(before, after, executions, q, m)
    ensures Ledger(after) && Recorded(before, after, q.requestId, Complete, CompleteDigest(q))
  {
    assert TaskOk(q.taskId, before.tasks[q.taskId], before);
    AppliedKeepsLedger(before, Complete, q.requestId, CompleteDigest(q), CompletedTask(before.tasks[q.taskId], q, m),
                       LeftUnknown(executions, q.outcome), m.now);
  }

  // ------------------------------------------------------------------------ what the service remembers

  /** Requests some caller has had an answer for, with the record the answer came from. */
  type Acked = map<Uuid, DedupeRecord>

  predicate Recalls(state: WorkspaceState, acked: Acked) {
    forall q :: q in acked ==> q in state.mutationDedupe && state.mutationDedupe[q] == acked[q]
  }

  ghost predicate History(c: Option<File>, acked: Acked) {
    match c
    case None => acked == map[]
    case Some(f) => ParseWorkspace(f).Ok? && Ledger(ParseWorkspace(f).value) && Recalls(ParseWorkspace(f).value, acked)
  }

  /** Whatever happens to the disk next, no answer is forgotten. */
  ghost predicate Remembers(s: DiskState, inflight: Option<Journal>, acked: Acked) {
    forall c :: MayBecome(s, inflight, StateJson, c) ==> History(c, acked)
  }

  lemma StillRemembers(s: DiskState, inflight: Option<Journal>, after: DiskState, inflightAfter: Option<Journal>,
                       next: WorkspaceState, acked: Acked)
    requires Remembers(s, inflight, acked) && Ledger(next) && Recalls(next, acked)
    requires forall c :: MayBecome(after, inflightAfter, StateJson, c) ==>
      MayBecome(s, inflight, StateJson, c) || (c == Some(StateFile(next)) && WorkspaceOk(next))
    ensures Remembers(after, inflightAfter, acked)
  {
  }

  /** The snapshot can come out as it could before or as `next`, a receipt as before or as one of `records`. */
  ghost predicate CommitAdds(s: DiskState, now: DiskState, inflight: Option<Journal>, next: WorkspaceState,
                             records: seq<ExecutionRecord>) {
    && (forall c :: MayBecome(now, inflight, StateJson, c) ==>
          MayBecome(s, None, StateJson, c) || (c == Some(StateFile(next)) && WorkspaceOk(next)))
    && forall op, c :: MayBecome(now, inflight, Receipt(op), c) ==>
       MayBecome(s, None, Receipt(op), c) || Wanted(next, records, Receipt(op), c)
  }

  lemma CommitForgetsNothing(s: DiskState, after: DiskState, inflight: Option<Journal>, next: WorkspaceState,
                             records: seq<ExecutionRecord>, acked: Acked, granted: set<Uuid>)
    requires Remembers(s, None, acked) && Permanent(s, None, granted) && Ledger(next) && Recalls(next, acked)
    requires forall t, c :: MayBecome(after, inflight, t, c) ==>
      MayBecome(s, None, t, c) || (Wanted(next, records, t, c) && WorkspaceOk(next))
    ensures Remembers(after, inflight, acked) && Permanent(after, inflight, granted)
    ensures CommitAdds(s, after, inflight, next, records)
  {
    StillRemembers(s, None, after, inflight, next, acked);
  }

  /** What reading the snapshot gives. */
  ghost predicate Reads(c: Option<File>, identity: WorkspaceIdentity, state: WorkspaceState) {
    if c == None then state == EmptyState(identity) else ParseWorkspace(c.value) == Ok(state)
  }

  lemma ReadStateIsRemembered(s: DiskState, identity: WorkspaceIdentity, state: WorkspaceState, acked: Acked)
    requires Remembers(s, None, acked) && Reads(Seen(s, Live(StateJson)), identity, state)
    ensures Ledger(state) && Recalls(state, acked) && WorkspaceOk(state)
  {
    var c := Seen(s, Live(StateJson));
    assert MayBecome(s, None, StateJson, c);
    if c == None { EmptyLedger(identity); } else { ReadPrintRead(c.value); }
  }

  lemma OneHistory(s: DiskState, f: File, state: WorkspaceState, acked: Acked)
    requires Settled(s, Live(StateJson), Some(f)) && ParseWorkspace(f) == Ok(state) && Ledger(state)
    requires Recalls(state, acked)
    ensures Remembers(s, None, acked)
  {
    assert History(Some(f), acked);
    forall c | MayBecome(s, None, StateJson, c) ensures c == Some(f) {}
  }

  /** The answer that was given is the one the snapshot records. */
  lemma AnswerIsRecorded(s: DiskState, next: WorkspaceState, acked: Acked, requestId: Uuid)
    requires Remembers(s, None, acked) && Seen(s, Live(StateJson)) == Some(StateFile(next)) && WorkspaceOk(next)
    requires requestId in acked
    ensures requestId in next.mutationDedupe && next.mutationDedupe[requestId] == acked[requestId]
  {
    assert MayBecome(s, None, StateJson, Seen(s, Live(StateJson)));
  }

  /** Answering from a durable snapshot: the record cannot be lost afterwards. */
  lemma ReplayIsRemembered(s: DiskState, identity: WorkspaceIdentity, state: WorkspaceState, acked: Acked,
                           requestId: Uuid)
    requires Loaded(s, identity, state, acked) && requestId in state.mutationDedupe
    ensures Remembers(s, None, acked[requestId := state.mutationDedupe[requestId]])
  {
    OneHistory(s, Seen(s, Live(StateJson)).value, state, acked[requestId := state.mutationDedupe[requestId]]);
  }

  /** A snapshot a mutation may start from: durable, and the only one the disk can come out with. */
  ghost predicate Loaded(s: DiskState, identity: WorkspaceIdentity, state: WorkspaceState, acked: Acked) {
    && Durable(s, Live(StateJson)) && Reads(Seen(s, Live(StateJson)), identity, state)
    && state.workspace.workspaceId == identity.workspaceId && WorkspaceOk(state) && Ledger(state)
       && Recalls(state, acked)
  }

  ghost predicate OnlySnapshot(s: DiskState, inflight: Option<Journal>, after: DiskState,
                               inflightAfter: Option<Journal>, next: WorkspaceState) {
    forall t, c :: MayBecome(after, inflightAfter, t, c) ==>
      MayBecome(s, inflight, t, c) || (t == StateJson && c == Some(StateFile(next)) && WorkspaceOk(next))
  }

  /** At most the step's snapshot became possible; an answered step is on disk for good. */
  ghost predicate Outcome(s: DiskState, inflight: Option<Journal>, after: DiskState, inflightAfter: Option<Journal>,
                          step: Option<(WorkspaceState, WorkspaceState)>, done: bool) {
    && (forall c :: MayBecome(after, inflightAfter, StateJson, c) ==>
          MayBecome(s, inflight, StateJson, c)
            || (step.Some? && c == Some(StateFile(step.value.1)) && WorkspaceOk(step.value.1)))
    && (done && step.Some? ==>
       Settled(after, Live(StateJson), Some(StateFile(step.value.1))) && WorkspaceOk(step.value.1))
  }

  /** No receipt can come out differently. */
  ghost predicate ReceiptsKept(s: DiskState, inflight: Option<Journal>, after: DiskState,
                               inflightAfter: Option<Journal>) {
    forall t: Target, c :: t.Receipt? && MayBecome(after, inflightAfter, t, c) ==> MayBecome(s, inflight, t, c)
  }

  /** c resolves a receipt of this task that was unknown, as one of these resolutions asks. */
  ghost predicate Resolves(s: DiskState, inflight: Option<Journal>, op: Uuid, taskId: Uuid,
                           resolutions: seq<Reconciliation>, c: Option<File>) {
    exists i, a :: 0 <= i < |resolutions| && resolutions[i].operationId == op && Possible(s, inflight, op, a)
      && a.taskId == taskId && a.state == Unknown && c == Some(ReceiptFile(Resolve(a, resolutions[i])))
  }

  /** A receipt can come out differently only by being resolved. */
  ghost predicate ReceiptsResolve(s: DiskState, inflight: Option<Journal>, after: DiskState,
                                  inflightAfter: Option<Journal>, taskId: Uuid, resolutions: seq<Reconciliation>) {
    forall op, c :: MayBecome(after, inflightAfter, Receipt(op), c) ==>
      MayBecome(s, inflight, Receipt(op), c) || Resolves(s, inflight, op, taskId, resolutions, c)
  }

  lemma WantedResolves(s: DiskState, locked: DiskState, workspaceId: Uuid, taskId: Uuid,
                       resolutions: seq<Reconciliation>, records: seq<ExecutionRecord>, next: WorkspaceState, op: Uuid,
                       c: Option<File>)
    requires Calmer(s, locked) && |records| == |resolutions| && Wanted(next, records, Receipt(op), c)
    requires forall i :: 0 <= i < |records| ==> Reconciled(locked, workspaceId, taskId, resolutions[i], records[i])
    ensures Resolves(s, None, op, taskId, resolutions, c)
  {
    var record :| record in records && record.operationId == op && c == Some(ReceiptFile(record));
    var i :| 0 <= i < |records| && records[i] == record;
    assert Reconciled(locked, workspaceId, taskId, resolutions[i], records[i]);
    var current := VisibleReceipt(locked, op).value;
    assert MayBecome(s, None, Receipt(op), Seen(s, Live(Receipt(op))));
    assert Possible(s, None, op, current);
  }

  lemma SyncResolvesNothing(s: DiskState, after: DiskState, taskId: Uuid, resolutions: seq<Reconciliation>)
    requires Calmer(s, after)
    ensures ReceiptsResolve(s, None, after, None, taskId, resolutions)
    ensures forall c :: MayBecome(after, None, StateJson, c) ==> MayBecome(s, None, StateJson, c)
  {
  }

  ghost predicate AllReconciled(s: DiskState, workspaceId: Uuid, taskId: Uuid, resolutions: seq<Reconciliation>,
                                records: seq<ExecutionRecord>) {
    |records| == |resolutions| && forall i :: 0 <= i < |records| ==>
      Reconciled(s, workspaceId, taskId, resolutions[i], records[i])
  }

  lemma ReconciledAreDurable(s: DiskState, workspaceId: Uuid, taskId: Uuid, resolutions: seq<Reconciliation>,
                             records: seq<ExecutionRecord>)
    requires AllReconciled(s, workspaceId, taskId, resolutions, records)
    ensures forall record :: record in records ==> Durable(s, Live(Receipt(record.operationId)))
  {
    forall record | record in records ensures Durable(s, Live(Receipt(record.operationId))) {
      var i :| 0 <= i < |records| && records[i] == record;
      assert Reconciled(s, workspaceId, taskId, resolutions[i], records[i]);
    }
  }

  lemma ReconciledStay(s: DiskState, after: DiskState, workspaceId: Uuid, taskId: Uuid,
                       resolutions: seq<Reconciliation>, records: seq<ExecutionRecord>)
    requires Calmer(s, after) && AllReconciled(s, workspaceId, taskId, resolutions, records)
    ensures AllReconciled(after, workspaceId, taskId, resolutions, records)
  {
    forall i | 0 <= i < |records| ensures Reconciled(after, workspaceId, taskId, resolutions[i], records[i]) {
      ReconciledStays(s, after, workspaceId, taskId, resolutions[i], records[i]);
    }
  }

  lemma CommitResolves(s: DiskState, locked: DiskState, now: DiskState, inflight: Option<Journal>, workspaceId: Uuid,
                       taskId: Uuid, resolutions: seq<Reconciliation>, records: seq<ExecutionRecord>,
                       next: WorkspaceState)
    requires Calmer(s, locked) && AllReconciled(locked, workspaceId, taskId, resolutions, records)
    requires CommitAdds(locked, now, inflight, next, records)
    ensures ReceiptsResolve(s, None, now, inflight, taskId, resolutions)
  {
    forall op, c | MayBecome(now, inflight, Receipt(op), c) && !MayBecome(s, None, Receipt(op), c)
      ensures Resolves(s, None, op, taskId, resolutions, c)
    {
      WantedResolves(s, locked, workspaceId, taskId, resolutions, records, next, op, c);
    }
  }

  lemma CommittedAreResolved(locked: DiskState, now: DiskState, workspaceId: Uuid, taskId: Uuid,
                             resolutions: seq<Reconciliation>, records: seq<ExecutionRecord>)
    requires AllReconciled(locked, workspaceId, taskId, resolutions, records)
    requires forall record :: record in records ==>
      Settled(now, Live(Receipt(record.operationId)), Some(ReceiptFile(record)))
    ensures AllResolved(now, taskId, resolutions)
  {
    forall i | 0 <= i < |resolutions| ensures Resolved(now, taskId, resolutions[i]) {
      assert Reconciled(locked, workspaceId, taskId, resolutions[i], records[i]) && records[i] in records;
      assert ResolvedOnDisk(now, taskId, resolutions[i], records[i]);
    }
  }

  lemma SyncedReceiptsResolve(s: DiskState, inflight: Option<Journal>, read: DiskState, inflightRead: Option<Journal>,
                              after: DiskState, inflightAfter: Option<Journal>, taskId: Uuid,
                              resolutions: seq<Reconciliation>)
    requires NoNewOutcome(s, inflight, read, inflightRead)
    requires ReceiptsResolve(read, inflightRead, after, inflightAfter, taskId, resolutions)
    ensures ReceiptsResolve(s, inflight, after, inflightAfter, taskId, resolutions)
  {
    forall op, c | MayBecome(after, inflightAfter, Receipt(op), c) && !MayBecome(s, inflight, Receipt(op), c)
      ensures Resolves(s, inflight, op, taskId, resolutions, c)
    {
      var i, a :| 0 <= i < |resolutions| && resolutions[i].operationId == op && Possible(read, inflightRead, op, a)
        && a.taskId == taskId && a.state == Unknown && c == Some(ReceiptFile(Resolve(a, resolutions[i])));
      assert Possible(s, inflight, op, a);
    }
  }

  lemma OutcomeAfterSync(s: DiskState, synced: DiskState, after: DiskState, inflight: Option<Journal>,
                         step: Option<(WorkspaceState, WorkspaceState)>, done: bool)
    requires Calmer(s, synced) && Outcome(synced, None, after, inflight, step, done)
    ensures Outcome(s, None, after, inflight, step, done)
  {
  }

  lemma SyncIsNoStep(s: DiskState, after: DiskState)
    requires Calmer(s, after)
    ensures Outcome(s, None, after, None, None, false) && ReceiptsKept(s, None, after, None)
  {
  }

  lemma ReceiptsKeptAfterSync(s: DiskState, synced: DiskState, after: DiskState, inflight: Option<Journal>)
    requires Calmer(s, synced) && ReceiptsKept(synced, None, after, inflight)
    ensures ReceiptsKept(s, None, after, inflight)
  {
  }

  lemma SavedIsRemembered(s: DiskState, next: WorkspaceState, acked: Acked, requestId: Uuid)
    requires Settled(s, Live(StateJson), Some(StateFile(next))) && WorkspaceOk(next) && Ledger(next)
    requires Recalls(next, acked) && requestId in next.mutationDedupe
    ensures Remembers(s, None, acked[requestId := next.mutationDedupe[requestId]])
  {
    OneHistory(s, StateFile(next), next, acked[requestId := next.mutationDedupe[requestId]]);
  }

  /** The state came from a snapshot the disk could already come out with. */
  ghost predicate Origin(s: DiskState, inflight: Option<Journal>, identity: WorkspaceIdentity, state: WorkspaceState) {
    exists c :: MayBecome(s, inflight, StateJson, c) && Reads(c, identity, state)
  }

  lemma ReadOrigin(s: DiskState, inflight: Option<Journal>, read: DiskState, identity: WorkspaceIdentity,
                   state: WorkspaceState)
    requires NoNewOutcome(s, inflight, read, None) && Reads(Seen(read, Live(StateJson)), identity, state)
    ensures Origin(s, inflight, identity, state)
  {
    assert MayBecome(read, None, StateJson, Seen(read, Live(StateJson)));
  }

  function CheckDedupe(state: WorkspaceState, requestId: Uuid, kind: MutationKind,
                       hmac: Hmac): Reply<Option<DedupeRecord>> {
    if requestId !in state.mutationDedupe then Ok(None)
    else if state.mutationDedupe[requestId].kind == kind && state.mutationDedupe[requestId].inputHmac == hmac
    then Ok(Some(state.mutationDedupe[requestId]))
    else Err(IdempotencyConflict)
  }

  /** How an answer extends what is remembered: once for each request, with that request's own input. */
  ghost predicate Answered(before: Acked, after: Acked, requestId: Uuid, kind: MutationKind, hmac: Hmac,
                           r: Reply<MutationResult>) {
    if r.Ok? then
      && requestId in after && Same(after[requestId], kind, hmac) && after[requestId].result == r.value
      && after == before[requestId := after[requestId]] && (requestId in before ==> after == before)
    else after == before
  }

  lemma ReplayAnswers(state: WorkspaceState, acked: Acked, requestId: Uuid, kind: MutationKind, hmac: Hmac)
    requires Recalls(state, acked) && requestId in state.mutationDedupe
    requires Same(state.mutationDedupe[requestId], kind, hmac)
    ensures var entry := state.mutationDedupe[requestId];
      Answered(acked, acked[requestId := entry], requestId, kind, hmac, Ok(entry.result))
  {
    var entry := state.mutationDedupe[requestId];
    assert requestId in acked ==> acked[requestId := entry] == acked;
  }

  // --------------------------------------------------------------------- why a request is refused

  predicate UsedOtherwise(state: WorkspaceState, requestId: Uuid, kind: MutationKind, hmac: Hmac) {
    requestId in state.mutationDedupe && !Same(state.mutationDedupe[requestId], kind, hmac)
  }

  predicate NotCurrent(state: WorkspaceState, taskId: Uuid, expectedRevision: nat, e: StoreError) {
    if taskId !in state.tasks then e == UnknownTask
    else if state.tasks[taskId].status != Active || state.activeTaskId != Some(taskId) then e == TaskClosed
    else state.tasks[taskId].revision != expectedRevision && e == RevisionConflict
  }

  /** The visible snapshot, or the one a workspace without a snapshot starts from. */
  function Current(s: DiskState, identity: WorkspaceIdentity): WorkspaceState {
    if StateOf(s).Ok? then StateOf(s).value else EmptyState(identity)
  }

  predicate CreateRefused(s: DiskState, q: CreateRequest, e: StoreError) {
    var state := Current(s, q.identity);
    || (e == IdempotencyConflict && UsedOtherwise(state, q.requestId, Create, CreateDigest(q)))
    || (e == ActiveTaskConflict && q.requestId !in state.mutationDedupe && state.activeTaskId.Some?)
  }

  predicate UpdateRefused(s: DiskState, q: UpdateRequest, e: StoreError) {
    || (e == UnknownTask && q.taskId !in TasksOf(s))
    || (StateOf(s).Ok? && e == IdempotencyConflict
       && UsedOtherwise(StateOf(s).value, q.requestId, Update, UpdateDigest(q)))
    || (StateOf(s).Ok? && q.requestId !in StateOf(s).value.mutationDedupe
       && NotCurrent(StateOf(s).value, q.taskId, q.expectedRevision, e))
  }

  predicate IsInTheWay(s: DiskState, op: Uuid, taskId: Uuid, outcome: TaskStatus) {
    match VisibleReceipt(s, op)
    case None => false
    case Some(record) =>
      && record.taskId == taskId
      && (record.state == Prepared || record.state == Running
          || (record.state == Unknown && outcome != Abandoned
              && (record.callerResolution.Some? ==>
                    record.callerResolution.value.resolution == ExternalEffectUnknown)))
  }

  /** Some receipt of the task does not allow the outcome. */
  ghost predicate InTheWay(s: DiskState, taskId: Uuid, outcome: TaskStatus) {
    exists op :: IsInTheWay(s, op, taskId, outcome)
  }

  lemma ObstacleIsVisible(s: DiskState, receipts: Receipts, taskId: Uuid, outcome: TaskStatus)
    requires Shows(s, receipts)
    requires Obstacles(Found(ExecutionIndex.TaskOperations(receipts, taskId), receipts), outcome) != {}
    ensures InTheWay(s, taskId, outcome)
  {
    var op :| op in Obstacles(Found(ExecutionIndex.TaskOperations(receipts, taskId), receipts), outcome);
    assert VisibleReceipt(s, op) == Some(receipts[op]);
    assert IsInTheWay(s, op, taskId, outcome);
  }

  /** The task of an answered update or completion is still there. */
  lemma AnsweredTaskExists(s: DiskState, acked: Acked, requestId: Uuid)
    requires Remembers(s, None, acked) && requestId in acked
    ensures acked[requestId].taskId in TasksOf(s) && Answers(acked[requestId])
  {
    assert MayBecome(s, None, StateJson, Seen(s, Live(StateJson)));
    assert WithinState(acked[requestId], StateOf(s).value);
  }

  /** The receipt is on disk for good, resolved the way the caller asked. */
  ghost predicate ResolvedOnDisk(s: DiskState, taskId: Uuid, resolution: Reconciliation, record: ExecutionRecord) {
    && Settled(s, Live(Receipt(resolution.operationId)), Some(ReceiptFile(record)))
    && record.operationId == resolution.operationId && record.taskId == taskId && record.state == Unknown
    && record.callerResolution.Some? && SameResolution(record.callerResolution.value, resolution)
  }

  ghost predicate Resolved(s: DiskState, taskId: Uuid, resolution: Reconciliation) {
    exists record :: ResolvedOnDisk(s, taskId, resolution, record)
  }

  ghost predicate AllResolved(s: DiskState, taskId: Uuid, resolutions: seq<Reconciliation>) {
    forall i :: 0 <= i < |resolutions| ==> Resolved(s, taskId, resolutions[i])
  }

  /** Every receipt of the task is there for good and does not stand in the way of its outcome. */
  ghost predicate ClosedFor(s: DiskState, receipts: Receipts, taskId: Uuid, outcome: TaskStatus) {
    && Shows(s, receipts)
    && forall op :: op in receipts && receipts[op].taskId == taskId ==>
        Closable(receipts[op], outcome) && forall c :: MayBecome(s, None, Receipt(op), c) ==>
          c == Seen(s, Live(Receipt(op)))
  }

  predicate LeftOpen(s: DiskState, op: Uuid, taskId: Uuid) {
    match VisibleReceipt(s, op)
    case None => false
    case Some(record) => record.taskId == taskId && record.state == Unknown
  }

  /** The answer names the task's unknown executions if it was abandoned, and none otherwise. */
  ghost predicate NamesWhatIsLeft(s: DiskState, q: CompleteRequest, unknown: set<Uuid>) {
    forall op :: op in unknown <==> q.outcome == Abandoned && LeftOpen(s, op, q.taskId)
  }

  ghost predicate AnswersWhatIsLeft(s: DiskState, q: CompleteRequest, next: WorkspaceState) {
    && q.requestId in next.mutationDedupe
    && NamesWhatIsLeft(s, q, next.mutationDedupe[q.requestId].result.unresolvedUnknown)
  }

  lemma ListedAreNamed(s: DiskState, receipts: Receipts, q: CompleteRequest)
    requires Shows(s, receipts)
    ensures var executions := Found(ExecutionIndex.TaskOperations(receipts, q.taskId), receipts);
      NamesWhatIsLeft(s, q, LeftUnknown(executions, q.outcome))
  {
    hide ParseExecution;
    var executions := Found(ExecutionIndex.TaskOperations(receipts, q.taskId), receipts);
    forall op
      ensures op in LeftUnknown(executions, q.outcome) <==> q.outcome == Abandoned && LeftOpen(s, op, q.taskId)
    {
      if op in receipts { assert VisibleReceipt(s, op) == Some(receipts[op]); }
    }
  }

  lemma ListedReceiptsClose(s: DiskState, after: DiskState, next: WorkspaceState, receipts: Receipts,
                            executions: Receipts, taskId: Uuid, outcome: TaskStatus)
    requires executions == Found(ExecutionIndex.TaskOperations(receipts, taskId), receipts)
    requires AllDurable(s, executions.Keys)
    requires Obstacles(executions, outcome) == {} && Shows(s, receipts) && Shows(after, receipts)
    requires OnlySnapshot(s, None, after, None, next)
    ensures ClosedFor(after, receipts, taskId, outcome)
  {
    forall op | op in receipts && receipts[op].taskId == taskId
      ensures Closable(receipts[op], outcome)
      ensures forall c :: MayBecome(after, None, Receipt(op), c) ==> c == Seen(after, Live(Receipt(op)))
    {
      assert op in executions && executions[op] == receipts[op];
      assert op !in Obstacles(executions, outcome);
      assert MayBecome(after, None, Receipt(op), Seen(after, Live(Receipt(op))));
    }
  }

  lemma ListedAreFound(records: seq<ExecutionRecord>, receipts: Receipts, taskId: Uuid)
    requires AreThose(records, ExecutionIndex.TaskOperations(receipts, taskId), receipts) && KeyedByOperation(receipts)
    ensures ByOperation(records) == Found(ExecutionIndex.TaskOperations(receipts, taskId), receipts)
  {
    var m := ByOperation(records);
    forall op | op in ExecutionIndex.TaskOperations(receipts, taskId)
      ensures op in m
    {
      OperationIsKept(records, receipts[op]);
    }
  }

  lemma OperationIsKept(records: seq<ExecutionRecord>, record: ExecutionRecord)
    requires record in records
    ensures record.operationId in ByOperation(records)
  {
    var rest := records[..|records| - 1];
    var k :| 0 <= k < |records| && records[k] == record;
    if k < |rest| {
      assert rest[k] == record;
      OperationIsKept(rest, record);
    }
  }

  class Service {
    const recorder: Recorder
    const checkpointMaxBytes: nat
    const checkpointBytes: Checkpoint -> nat
    ghost var acked: Acked

    ghost predicate Valid()
      reads this, recorder, recorder.store, recorder.store.writer, recorder.store.writer.volume, recorder.store.index
    {
      recorder.Valid() && Remembers(recorder.store.writer.volume.s, recorder.store.inflight, acked)
    }

    ghost function Disk(): DiskState
      reads recorder.store.writer.volume
    {
      recorder.store.writer.volume.s
    }

    ghost function Inflight(): Option<Journal>
      reads recorder.store
    {
      recorder.store.inflight
    }

    /** Why the snapshot cannot be written: the byte budget, or the checks of `writeWorkspace`. */
    ghost predicate PutRefused(next: WorkspaceState, e: StoreError)
      reads recorder.store, recorder.store.writer, recorder.store.writer.volume
    {
      if e == StorageFull then recorder.store.writer.OverBudget(Live(StateJson), StateFile(next))
      else !WorkspaceOk(next) || (recorder.store.index != null && !AcceptsWorkspace(next, recorder.store.receipts))
    }

    /** Why the transaction cannot be made: the byte budget, or the checks of `commitWorkspace`. */
    ghost predicate CommitRefused(next: WorkspaceState, records: seq<ExecutionRecord>, e: StoreError)
      reads recorder.store, recorder.store.writer, recorder.store.writer.volume
    {
      if e == StorageFull then exists j :: Plans(j, Disk(), next, records) && !Reserved(recorder.store.writer, j)
      else recorder.store.Unfit(next, records)
    }

    /** Some receipt is not the task's, not unknown or resolved otherwise; or the transaction that resolves them cannot
        be made. */
    ghost predicate ResolveRefused(taskId: Uuid, resolutions: seq<Reconciliation>, next: WorkspaceState, e: StoreError)
      reads recorder.store, recorder.store.writer, recorder.store.writer.volume
    {
      || (e == IdempotencyConflict && SomeUnresolvable(Disk(), resolutions))
      || SomeAstray(Disk(), taskId, resolutions)
      || exists records ::
         AllReconciled(Disk(), recorder.store.workspaceId, taskId, resolutions, records)
           && CommitRefused(next, records, e)
    }

    /** The task cannot be closed: a blocker, a receipt, the final checkpoint. */
    ghost predicate ClosingRefused(s: DiskState, q: CompleteRequest, task: Task, blocked: bool, e: StoreError) {
      || (e == UnresolvedExecution && (blocked || InTheWay(s, q.taskId, q.outcome)))
      || (e == CompletionCheckpointConflict && !ClosesWell(q, task))
      || (e == StorageFull && checkpointBytes(ClosingCheckpoint(q, task)) > checkpointMaxBytes)
    }

    ghost predicate CompleteRefused(s: DiskState, q: CompleteRequest, blocked: bool, e: StoreError) {
      || (e == UnknownTask && q.taskId !in TasksOf(s))
      || (StateOf(s).Ok? && e == IdempotencyConflict
         && UsedOtherwise(StateOf(s).value, q.requestId, MutationKind.Complete, CompleteDigest(q)))
      || (StateOf(s).Ok? && q.requestId !in StateOf(s).value.mutationDedupe
          && (NotCurrent(StateOf(s).value, q.taskId, q.expectedRevision, e)
              || (q.taskId in StateOf(s).value.tasks
                 && ClosingRefused(s, q, StateOf(s).value.tasks[q.taskId], blocked, e))))
    }

    /** The three ways an answered request can fail to be answered again: the device, the byte budget, an unsound
        workspace. */
    ghost predicate Excused(sound: bool)
      reads recorder.store, recorder.store.writer, recorder.store.writer.volume
    {
      !recorder.store.writer.volume.calm || recorder.store.Stuck() || !sound
    }

    constructor (recorder: Recorder, checkpointMaxBytes: nat, checkpointBytes: Checkpoint -> nat, ghost acked: Acked)
      requires recorder.Valid() && Remembers(recorder.store.writer.volume.s, recorder.store.inflight, acked)
      ensures Valid() && this.recorder == recorder && this.acked == acked
      ensures this.checkpointMaxBytes == checkpointMaxBytes && this.checkpointBytes == checkpointBytes
    {
      this.recorder, this.checkpointMaxBytes, this.checkpointBytes, this.acked := recorder, checkpointMaxBytes,
        checkpointBytes, acked;
    }

    /** Reading the snapshot, as every mutation does first under the workspace lock. */
    method ReadState(identity: WorkspaceIdentity) returns (r: Reply<WorkspaceState>)
      requires Valid() && identity.workspaceId == recorder.store.workspaceId
      modifies recorder.store, recorder.store.writer, recorder.store.writer.volume`s
      ensures recorder.store.index == null || recorder.store.index == old(recorder.store.index)
        || fresh(recorder.store.index)
      ensures Valid()
      ensures old(recorder.store.Consistent()) ==> recorder.store.Consistent()
      ensures old(Inflight().None?) && recorder.store.writer.volume.calm ==> Inflight().None?
      ensures NoNewOutcome(old(Disk()), old(Inflight()), Disk(), Inflight())
      ensures r.Err? ==> StorageFault(r.error)
      ensures r.Ok? ==> Inflight().None? && Loaded(Disk(), identity, r.value, acked)
      ensures r.Err? && old(recorder.store.Consistent()) && recorder.store.writer.volume.calm ==> recorder.store.Stuck()
    {
      hide Sound, MayBecome, StoreOk, WorkspaceOk, Shows;
      ghost var s, pending := Disk(), Inflight();
      r := recorder.store.ReadWorkspace(identity);
      if Sound(s, pending, recorder.store.workspaceId) {
        NothingNewIsSound(s, pending, Disk(), Inflight(), recorder.store.workspaceId);
      }
      if r.Ok? { ReadStateIsRemembered(Disk(), identity, r.value, acked); }
    }

    /** `checkDedupe`, and the answer it may give. */
    method Replay(identity: WorkspaceIdentity, state: WorkspaceState, requestId: Uuid, kind: MutationKind, hmac: Hmac)
      returns (r: Reply<Option<MutationResult>>)
      requires Valid() && Inflight().None? && Loaded(Disk(), identity, state, acked)
      modifies this`acked
      ensures Valid()
      ensures r.Ok? && r.value.Some? ==> Answered(old(acked), acked, requestId, kind, hmac, Ok(r.value.value))
      ensures !(r.Ok? && r.value.Some?) ==> acked == old(acked)
      ensures requestId in old(acked) && Same(old(acked)[requestId], kind, hmac) ==> r.Ok? && r.value.Some?
      ensures r.Ok? && r.value.None? ==> requestId !in state.mutationDedupe
      ensures r.Err? ==> r.error == IdempotencyConflict && UsedOtherwise(state, requestId, kind, hmac)
    {
      hide Sound, StoreOk, WorkspaceOk, Shows, Ledger;
      var dedupe := CheckDedupe(state, requestId, kind, hmac);
      if dedupe.Err? { return Err(dedupe.error); }
      if dedupe.value.None? { return Ok(None); }
      ReplayIsRemembered(Disk(), identity, state, acked, requestId);
      ReplayAnswers(state, acked, requestId, kind, hmac);
      acked := acked[requestId := dedupe.value.value];
      return Ok(Some(dedupe.value.value.result));
    }

    /** `writeWorkspace` of a snapshot that still recalls every answer. */
    method Put(next: WorkspaceState) returns (r: Reply<()>)
      requires Valid() && next.workspace.workspaceId == recorder.store.workspaceId && Ledger(next)
      requires Recalls(next, acked)
      modifies recorder.store, recorder.store.writer, recorder.store.writer.volume`s, recorder.store.index
      ensures recorder.store.index == null || recorder.store.index == old(recorder.store.index)
        || fresh(recorder.store.index)
      ensures Valid()
      ensures old(recorder.store.Consistent()) ==> recorder.store.Consistent()
      ensures old(Inflight().None?) && recorder.store.writer.volume.calm ==> Inflight().None?
      ensures OnlySnapshot(old(Disk()), old(Inflight()), Disk(), Inflight(), next)
      ensures r.Ok? ==> Inflight().None? && WorkspaceOk(next)
      ensures r.Ok? ==> Settled(Disk(), Live(StateJson), Some(StateFile(next)))
      ensures old(recorder.store.index != null) ==> recorder.store.receipts == old(recorder.store.receipts)
      ensures r.Ok? ==> Shows(Disk(), recorder.store.receipts)
      ensures r.Err? ==> WriteFault(r.error)
      ensures r.Err? && old(recorder.store.Consistent()) && recorder.store.writer.volume.calm ==>
        recorder.store.Stuck() || PutRefused(next, r.error)
    {
      hide Sound, StoreOk, Shows, Ledger, WorkspaceOk;
      ghost var s := Disk();
      ghost var inflight := Inflight();
      r := recorder.store.WriteWorkspace(next);
      StillRemembers(s, inflight, Disk(), Inflight(), next, acked);
    }

    /** The answer to a mutation that has just become durable. */
    method Answer(next: WorkspaceState, requestId: Uuid) returns (r: Reply<MutationResult>)
      requires Valid() && Inflight().None? && Settled(Disk(), Live(StateJson), Some(StateFile(next)))
      requires WorkspaceOk(next) && Ledger(next) && Recalls(next, acked) && requestId in next.mutationDedupe
      modifies this`acked
      ensures Valid() && r == Ok(next.mutationDedupe[requestId].result)
      ensures acked == old(acked)[requestId := next.mutationDedupe[requestId]]
    {
      SavedIsRemembered(Disk(), next, acked, requestId);
      acked := acked[requestId := next.mutationDedupe[requestId]];
      return Ok(next.mutationDedupe[requestId].result);
    }

    /** The end of create and complete: write the snapshot, then answer from it. */
    method Finish(ghost state: WorkspaceState, next: WorkspaceState, requestId: Uuid, ghost kind: MutationKind,
                  ghost hmac: Hmac)
      returns (r: Reply<MutationResult>)
      requires Valid() && Inflight().None? && Recalls(state, acked)
      requires next.workspace.workspaceId == recorder.store.workspaceId && Ledger(next)
      requires Recorded(state, next, requestId, kind, hmac)
      modifies this`acked, recorder.store, recorder.store.writer, recorder.store.writer.volume`s, recorder.store.index
      ensures recorder.store.index == null || recorder.store.index == old(recorder.store.index)
        || fresh(recorder.store.index)
      ensures Valid()
      ensures old(recorder.store.Consistent()) ==> recorder.store.Consistent()
      ensures old(Inflight().None?) && recorder.store.writer.volume.calm ==> Inflight().None?
      ensures Answered(old(acked), acked, requestId, kind, hmac, r)
      ensures r.Ok? ==> Inflight().None?
      ensures Outcome(old(Disk()), None, Disk(), Inflight(), Some((state, next)), r.Ok?)
      ensures OnlySnapshot(old(Disk()), None, Disk(), Inflight(), next)
      ensures r.Ok? ==> Inflight().None? && Shows(Disk(), recorder.store.receipts)
      ensures old(recorder.store.index != null) ==> recorder.store.receipts == old(recorder.store.receipts)
      ensures r.Err? ==> WriteFault(r.error)
      ensures r.Err? && old(recorder.store.Consistent()) && recorder.store.writer.volume.calm ==>
        PutRefused(next, r.error)
    {
      hide Sound, MayBecome, StoreOk, Shows, Ledger, WorkspaceOk, PutRefused, Remembers, Permanent;
      var written := Put(next);
      if written.Err? { return Err(written.error); }
      r := Answer(next, requestId);
    }

    /** `create`. */
    method Create(q: CreateRequest, m: Moment)
      returns (r: Reply<MutationResult>, ghost step: Option<(WorkspaceState, WorkspaceState)>)
      requires Valid() && q.identity.workspaceId == recorder.store.workspaceId
      modifies this`acked, recorder.store, recorder.store.writer, recorder.store.writer.volume`s, recorder.store.index
      ensures recorder.store.index == null || recorder.store.index == old(recorder.store.index)
        || fresh(recorder.store.index)
      ensures Valid()
      ensures old(recorder.store.Consistent()) ==> recorder.store.Consistent()
      ensures old(Inflight().None?) && recorder.store.writer.volume.calm ==> Inflight().None?
      ensures Answered(old(acked), acked, q.requestId, MutationKind.Create, CreateDigest(q), r)
      ensures r.Ok? ==> Inflight().None?
      ensures q.requestId in old(acked) ==> step.None?
      ensures q.requestId in old(acked) && Same(old(acked)[q.requestId], MutationKind.Create, CreateDigest(q)) ==>
        checkpointBytes(q.checkpoint) <= checkpointMaxBytes ==>
          r.Ok? || (StorageFault(r.error) && Excused(old(recorder.store.Consistent())))
      ensures step.Some? ==> CreateStep(step.value.0, step.value.1, q, m)
      ensures r.Ok? && step.Some? ==> CreatesAsAsked(step.value.0, step.value.1, q, m, r.value)
      ensures step.Some? ==> Origin(old(Disk()), old(Inflight()), q.identity, step.value.0)
      ensures Outcome(old(Disk()), old(Inflight()), Disk(), Inflight(), step, r.Ok?)
      ensures ReceiptsKept(old(Disk()), old(Inflight()), Disk(), Inflight())
      ensures r.Err? && old(recorder.store.Consistent()) && recorder.store.writer.volume.calm ==>
        || recorder.store.Stuck() || (r.error == StorageFull && checkpointBytes(q.checkpoint) > checkpointMaxBytes)
        || if step.None? then CreateRefused(Disk(), q, r.error) else PutRefused(step.value.1, r.error)
    {
      hide Sound, MayBecome, StoreOk, WorkspaceOk, Shows, Ledger, Remembers, Permanent, CreateStep,
        CreatesAsAsked, CreateDigest;
      step := None;
      if checkpointBytes(q.checkpoint) > checkpointMaxBytes { return Err(StorageFull), None; }
      var state := ReadState(q.identity);
      if state.Err? { return Err(state.error), None; }
      ReadOrigin(old(Disk()), old(Inflight()), Disk(), q.identity, state.value);
      var replay := Replay(q.identity, state.value, q.requestId, MutationKind.Create, CreateDigest(q));
      if replay.Err? { return Err(replay.error), None; }
      if replay.value.Some? { return Ok(replay.value.value), None; }
      r, step := CreateTask(state.value, q, m);
      if r.Ok? && step.Some? {
        AnswerIsRecorded(Disk(), step.value.1, acked, q.requestId);
        CreateSays(step.value.0, step.value.1, q, m);
      }
    }

    method CreateTask(state: WorkspaceState, q: CreateRequest, m: Moment)
      returns (r: Reply<MutationResult>, ghost step: Option<(WorkspaceState, WorkspaceState)>)
      requires Valid() && q.identity.workspaceId == recorder.store.workspaceId && Inflight().None?
      requires Loaded(Disk(), q.identity, state, acked) && q.requestId !in state.mutationDedupe
      modifies this`acked, recorder.store, recorder.store.writer, recorder.store.writer.volume`s, recorder.store.index
      ensures recorder.store.index == null || recorder.store.index == old(recorder.store.index)
        || fresh(recorder.store.index)
      ensures Valid()
      ensures old(recorder.store.Consistent()) ==> recorder.store.Consistent()
      ensures old(Inflight().None?) && recorder.store.writer.volume.calm ==> Inflight().None?
      ensures Answered(old(acked), acked, q.requestId, MutationKind.Create, CreateDigest(q), r)
      ensures r.Ok? ==> Inflight().None?
      ensures step.Some? ==> step.value.0 == state && CreateStep(state, step.value.1, q, m)
      ensures Outcome(old(Disk()), None, Disk(), Inflight(), step, r.Ok?)
      ensures ReceiptsKept(old(Disk()), None, Disk(), Inflight())
      ensures r.Err? ==> WriteFault(r.error) || (r.error == ActiveTaskConflict && state.activeTaskId.Some?)
      ensures r.Err? && old(recorder.store.Consistent()) && recorder.store.writer.volume.calm ==>
        if step.None? then r.error == ActiveTaskConflict && state.activeTaskId.Some?
          else PutRefused(step.value.1, r.error)
      ensures step.None? ==> Disk() == old(Disk())
    {
      if state.activeTaskId.Some? { return Err(ActiveTaskConflict), None; }
      r, step := ApplyCreate(state, q, m);
    }

    method ApplyCreate(state: WorkspaceState, q: CreateRequest, m: Moment)
      returns (r: Reply<MutationResult>, ghost step: Option<(WorkspaceState, WorkspaceState)>)
      requires Valid() && q.identity.workspaceId == recorder.store.workspaceId && Inflight().None?
      requires Loaded(Disk(), q.identity, state, acked)
      requires q.requestId !in state.mutationDedupe && state.activeTaskId == None
      modifies this`acked, recorder.store, recorder.store.writer, recorder.store.writer.volume`s, recorder.store.index
      ensures recorder.store.index == null || recorder.store.index == old(recorder.store.index)
        || fresh(recorder.store.index)
      ensures Valid()
      ensures old(recorder.store.Consistent()) ==> recorder.store.Consistent()
      ensures old(Inflight().None?) && recorder.store.writer.volume.calm ==> Inflight().None?
      ensures Answered(old(acked), acked, q.requestId, MutationKind.Create, CreateDigest(q), r)
      ensures r.Ok? ==> Inflight().None?
      ensures step.Some? && step.value.0 == state && CreateStep(state, step.value.1, q, m)
      ensures Outcome(old(Disk()), None, Disk(), Inflight(), step, r.Ok?)
      ensures ReceiptsKept(old(Disk()), None, Disk(), Inflight())
      ensures r.Err? ==> WriteFault(r.error)
      ensures r.Err? && old(recorder.store.Consistent()) && recorder.store.writer.volume.calm ==>
        PutRefused(step.value.1, r.error)
    {
      UnusedId(state.tasks.Keys);
      var taskId: Uuid :| taskId !in state.tasks;
      var next := Created(state, taskId, q, m);
      step := Some((state, next));
      CreateKeepsLedger(state, next, q, m);
      r := Finish(state, next, q.requestId, MutationKind.Create, CreateDigest(q));
    }

    // ---------------------------------------------------------------------------------------- update

    /** `requireTask`. */
    method RequireTask(taskId: Uuid) returns (r: Reply<WorkspaceIdentity>)
      requires Valid()
      modifies recorder.store, recorder.store.writer, recorder.store.writer.volume`s
      ensures recorder.store.index == null || recorder.store.index == old(recorder.store.index)
        || fresh(recorder.store.index)
      ensures Valid()
      ensures old(recorder.store.Consistent()) ==> recorder.store.Consistent()
      ensures old(Inflight().None?) && recorder.store.writer.volume.calm ==> Inflight().None?
      ensures NoNewOutcome(old(Disk()), old(Inflight()), Disk(), Inflight())
      ensures r.Ok? ==> r.value.workspaceId == recorder.store.workspaceId
      ensures r.Err? && !StorageFault(r.error) ==>
        forall q :: q in acked ==> acked[q].taskId != taskId && Answers(acked[q])
      ensures r.Err? ==> StorageFault(r.error) || (r.error == UnknownTask && taskId !in TasksOf(Disk()))
      ensures r.Err? && old(recorder.store.Consistent()) && recorder.store.writer.volume.calm ==>
        recorder.store.Stuck() || r.error == UnknownTask
    {
      hide Sound, MayBecome, StoreOk, WorkspaceOk, Shows;
      ghost var s, pending := Disk(), Inflight();
      var found := recorder.store.FindTask(taskId);
      if Sound(s, pending, recorder.store.workspaceId) {
        NothingNewIsSound(s, pending, Disk(), Inflight(), recorder.store.workspaceId);
      }
      if found.Err? { return Err(found.error); }
      if found.value.None? {
        forall q | q in acked
          ensures acked[q].taskId != taskId && Answers(acked[q])
        {
          AnsweredTaskExists(Disk(), acked, q);
        }
        return Err(UnknownTask);
      }
      return Ok(found.value.value.workspace);
    }

    /** `update`. */
    method Update(q: UpdateRequest, m: Moment, tx: Uuid)
      returns (r: Reply<MutationResult>, ghost step: Option<(WorkspaceState, WorkspaceState)>)
      requires Valid()
      modifies this`acked, recorder.store, recorder.store.writer, recorder.store.writer.volume`s
      ensures recorder.store.index == null || recorder.store.index == old(recorder.store.index)
        || fresh(recorder.store.index)
      ensures Valid()
      ensures old(recorder.store.Consistent()) ==> recorder.store.Consistent()
      ensures old(Inflight().None?) && recorder.store.writer.volume.calm ==> Inflight().None?
      ensures Answered(old(acked), acked, q.requestId, MutationKind.Update, UpdateDigest(q), r)
      ensures r.Ok? ==> Inflight().None?
      ensures q.requestId in old(acked) ==> step.None?
      ensures q.requestId in old(acked) && Same(old(acked)[q.requestId], MutationKind.Update, UpdateDigest(q)) ==>
        checkpointBytes(q.checkpoint) <= checkpointMaxBytes ==>
          r.Ok? || (StorageFault(r.error) && Excused(old(recorder.store.Consistent())))
      ensures step.Some? ==> UpdateStep(step.value.0, step.value.1, q, m)
      ensures r.Ok? && step.Some? ==> UpdatesAsAsked(step.value.0, step.value.1, q, m, r.value)
      ensures r.Ok? && step.Some? ==> AllResolved(Disk(), q.taskId, ResolutionsAsked(q, m))
      ensures step.Some? ==> Origin(old(Disk()), old(Inflight()), step.value.0.workspace, step.value.0)
      ensures Outcome(old(Disk()), old(Inflight()), Disk(), Inflight(), step, r.Ok?)
      ensures ReceiptsResolve(old(Disk()), old(Inflight()), Disk(), Inflight(), q.taskId,
                              if step.Some? then ResolutionsAsked(q, m) else [])
      ensures r.Err? && old(recorder.store.Consistent()) && recorder.store.writer.volume.calm ==>
        || recorder.store.Stuck() || (r.error == StorageFull && checkpointBytes(q.checkpoint) > checkpointMaxBytes)
        || if step.None? then UpdateRefused(Disk(), q, r.error)
           else ResolveRefused(q.taskId, ResolutionsAsked(q, m), step.value.1, r.error)
    {
      hide Sound, MayBecome, StoreOk, Shows, Ledger, WorkspaceOk, Resolves, Remembers, Permanent, UpdateStep,
        UpdatesAsAsked;
      step := None;
      if checkpointBytes(q.checkpoint) > checkpointMaxBytes { return Err(StorageFull), None; }
      var identity := RequireTask(q.taskId);
      if identity.Err? { return Err(identity.error), None; }
      ghost var found, inflight := Disk(), Inflight();
      r, step := UpdateLocked(identity.value, q, m, tx);
      if r.Ok? && step.Some? {
        AnswerIsRecorded(Disk(), step.value.1, acked, q.requestId);
        UpdateSays(step.value.0, step.value.1, q, m);
      }
      SyncedReceiptsResolve(old(Disk()), old(Inflight()), found, inflight, Disk(), Inflight(),
                            q.taskId, if step.Some? then ResolutionsAsked(q, m) else []);
    }

    method UpdateLocked(identity: WorkspaceIdentity, q: UpdateRequest, m: Moment, tx: Uuid)
      returns (r: Reply<MutationResult>, ghost step: Option<(WorkspaceState, WorkspaceState)>)
      requires Valid() && identity.workspaceId == recorder.store.workspaceId
      modifies this`acked, recorder.store, recorder.store.writer, recorder.store.writer.volume`s
      ensures recorder.store.index == null || recorder.store.index == old(recorder.store.index)
        || fresh(recorder.store.index)
      ensures Valid()
      ensures old(recorder.store.Consistent()) ==> recorder.store.Consistent()
      ensures old(Inflight().None?) && recorder.store.writer.volume.calm ==> Inflight().None?
      ensures Answered(old(acked), acked, q.requestId, MutationKind.Update, UpdateDigest(q), r)
      ensures r.Ok? ==> Inflight().None?
      ensures q.requestId in old(acked) ==> step.None?
      ensures q.requestId in old(acked) && Same(old(acked)[q.requestId], MutationKind.Update, UpdateDigest(q)) ==>
        r.Ok? || (StorageFault(r.error) && Excused(old(recorder.store.Consistent())))
      ensures step.Some? ==> UpdateStep(step.value.0, step.value.1, q, m)
      ensures r.Ok? && step.Some? ==> AllResolved(Disk(), q.taskId, ResolutionsAsked(q, m))
      ensures step.Some? ==> Origin(old(Disk()), old(Inflight()), identity, step.value.0)
      ensures Outcome(old(Disk()), old(Inflight()), Disk(), Inflight(), step, r.Ok?)
      ensures ReceiptsResolve(old(Disk()), old(Inflight()), Disk(), Inflight(), q.taskId,
                              if step.Some? then ResolutionsAsked(q, m) else [])
      ensures r.Err? && old(recorder.store.Consistent()) && recorder.store.writer.volume.calm ==>
        || recorder.store.Stuck()
        || if step.None? then UpdateRefused(Disk(), q, r.error)
           else ResolveRefused(q.taskId, ResolutionsAsked(q, m), step.value.1, r.error)
    {
      hide Sound, MayBecome, StoreOk, Shows, Ledger, WorkspaceOk, NotCurrent, UpdateStep, UpdateDigest, AllResolved,
        ResolutionsAsked, ResolveRefused;
      step := None;
      var state := ReadState(identity);
      if state.Err? { return Err(state.error), None; }
      ReadOrigin(old(Disk()), old(Inflight()), Disk(), identity, state.value);
      var replay := Replay(identity, state.value, q.requestId, MutationKind.Update, UpdateDigest(q));
      if replay.Err? { return Err(replay.error), None; }
      if replay.value.Some? { return Ok(replay.value.value), None; }
      ghost var loaded := Disk();
      r, step := UpdateTask(identity, state.value, q, m, tx);
      SyncedReceiptsResolve(old(Disk()), old(Inflight()), loaded, None, Disk(), Inflight(),
                            q.taskId, if step.Some? then ResolutionsAsked(q, m) else []);
    }

    method UpdateTask(identity: WorkspaceIdentity, state: WorkspaceState, q: UpdateRequest, m: Moment, tx: Uuid)
      returns (r: Reply<MutationResult>, ghost step: Option<(WorkspaceState, WorkspaceState)>)
      requires Valid() && identity.workspaceId == recorder.store.workspaceId && Inflight().None?
      requires Loaded(Disk(), identity, state, acked) && q.requestId !in state.mutationDedupe
      modifies this`acked, recorder.store, recorder.store.writer, recorder.store.writer.volume`s
      ensures recorder.store.index == null || recorder.store.index == old(recorder.store.index)
        || fresh(recorder.store.index)
      ensures Valid()
      ensures old(recorder.store.Consistent()) ==> recorder.store.Consistent()
      ensures old(Inflight().None?) && recorder.store.writer.volume.calm ==> Inflight().None?
      ensures Answered(old(acked), acked, q.requestId, MutationKind.Update, UpdateDigest(q), r)
      ensures r.Ok? ==> Inflight().None?
      ensures step.Some? ==> step.value.0 == state && UpdateStep(state, step.value.1, q, m)
      ensures Outcome(old(Disk()), None, Disk(), Inflight(), step, r.Ok?)
      ensures r.Ok? ==> step.Some? && AllResolved(Disk(), q.taskId, ResolutionsAsked(q, m))
      ensures ReceiptsResolve(old(Disk()), None, Disk(), Inflight(), q.taskId,
                              if step.Some? then ResolutionsAsked(q, m) else [])
      ensures step.None? ==> r.Err? && NotCurrent(state, q.taskId, q.expectedRevision, r.error)
      ensures step.None? ==> Disk() == old(Disk())
      ensures r.Err? && old(recorder.store.Consistent()) && recorder.store.writer.volume.calm ==>
        if step.None? then NotCurrent(state, q.taskId, q.expectedRevision, r.error)
        else ResolveRefused(q.taskId, ResolutionsAsked(q, m), step.value.1, r.error)
    {
      var current := RequireCurrent(state, q.taskId, q.expectedRevision);
      if current.Err? { return Err(current.error), None; }
      ghost var next;
      r, next := ApplyUpdate(identity, state, q, m, tx);
      step := Some((state, next));
    }

    method ApplyUpdate(identity: WorkspaceIdentity, state: WorkspaceState, q: UpdateRequest, m: Moment, tx: Uuid)
      returns (r: Reply<MutationResult>, ghost next: WorkspaceState)
      requires Valid() && identity.workspaceId == recorder.store.workspaceId && Inflight().None?
      requires Loaded(Disk(), identity, state, acked) && q.requestId !in state.mutationDedupe
      requires RequireCurrent(state, q.taskId, q.expectedRevision).Ok?
      modifies this`acked, recorder.store, recorder.store.writer, recorder.store.writer.volume`s
      ensures recorder.store.index == null || recorder.store.index == old(recorder.store.index)
        || fresh(recorder.store.index)
      ensures Valid()
      ensures old(recorder.store.Consistent()) ==> recorder.store.Consistent()
      ensures old(Inflight().None?) && recorder.store.writer.volume.calm ==> Inflight().None?
      ensures Answered(old(acked), acked, q.requestId, MutationKind.Update, UpdateDigest(q), r)
      ensures r.Ok? ==> Inflight().None?
      ensures UpdateStep(state, next, q, m) && q.taskId in next.tasks
      ensures ReconciliationsOf(next.tasks[q.taskId]) == ResolutionsAsked(q, m)
      ensures Outcome(old(Disk()), None, Disk(), Inflight(), Some((state, next)), r.Ok?)
      ensures r.Ok? ==> AllResolved(Disk(), q.taskId, ResolutionsAsked(q, m))
      ensures ReceiptsResolve(old(Disk()), None, Disk(), Inflight(), q.taskId, ResolutionsAsked(q, m))
      ensures r.Err? ==>
        WriteFault(r.error) || (r.error == IdempotencyConflict && SomeUnresolvable(Disk(), ResolutionsAsked(q, m)))
      ensures r.Err? && old(recorder.store.Consistent()) && recorder.store.writer.volume.calm ==>
        ResolveRefused(q.taskId, ResolutionsAsked(q, m), next, r.error)
    {
      hide Sound, MayBecome, StoreOk, Shows, Recalls, Resolves, ResolveRefused, ResolvedOnDisk, SomeUnresolvable;
      var after := Updated(state, q, m);
      UpdateKeepsLedger(state, after, q, m);
      r := FinishUpdate(state, after, q, tx);
      next := after;
    }

    method FinishUpdate(ghost state: WorkspaceState, next: WorkspaceState, q: UpdateRequest,
                        tx: Uuid) returns (r: Reply<MutationResult>)
      requires Valid() && Inflight().None? && Recalls(state, acked) && Durable(Disk(), Live(StateJson))
      requires next.workspace.workspaceId == recorder.store.workspaceId && Ledger(next) && q.taskId in next.tasks
      requires Recorded(state, next, q.requestId, MutationKind.Update, UpdateDigest(q))
      modifies this`acked, recorder.store, recorder.store.writer, recorder.store.writer.volume`s
      ensures recorder.store.index == null || recorder.store.index == old(recorder.store.index)
        || fresh(recorder.store.index)
      ensures Valid()
      ensures old(recorder.store.Consistent()) ==> recorder.store.Consistent()
      ensures old(Inflight().None?) && recorder.store.writer.volume.calm ==> Inflight().None?
      ensures Answered(old(acked), acked, q.requestId, MutationKind.Update, UpdateDigest(q), r)
      ensures r.Ok? ==> Inflight().None?
      ensures Outcome(old(Disk()), None, Disk(), Inflight(), Some((state, next)), r.Ok?)
      ensures r.Ok? ==> AllResolved(Disk(), q.taskId, ReconciliationsOf(next.tasks[q.taskId]))
      ensures ReceiptsResolve(old(Disk()), None, Disk(), Inflight(), q.taskId, ReconciliationsOf(next.tasks[q.taskId]))
      ensures r.Err? ==>
        WriteFault(r.error)
          || (r.error == IdempotencyConflict && SomeUnresolvable(Disk(), ReconciliationsOf(next.tasks[q.taskId])))
      ensures r.Err? && old(recorder.store.Consistent()) && recorder.store.writer.volume.calm ==>
        ResolveRefused(q.taskId, ReconciliationsOf(next.tasks[q.taskId]), next, r.error)
    {
      hide Sound, MayBecome, StoreOk, Shows, Ledger, Resolves;
      var resolved := ResolveAndCommit(q.taskId, ReconciliationsOf(next.tasks[q.taskId]), next, tx);
      if resolved.Err? { return Err(resolved.error); }
      r := Answer(next, q.requestId);
    }

    /** The commit runs inside the execution locks of the receipts it resolves, and replaces them with the snapshot. */
    method ResolveAndCommit(taskId: Uuid, reconciliations: seq<Reconciliation>, next: WorkspaceState,
                            tx: Uuid) returns (r: Reply<()>)
      requires Valid() && Inflight().None? && next.workspace.workspaceId == recorder.store.workspaceId
      requires Ledger(next) && Recalls(next, acked) && Durable(Disk(), Live(StateJson))
      modifies recorder.store, recorder.store.writer, recorder.store.writer.volume`s
      ensures recorder.store.index == null || recorder.store.index == old(recorder.store.index)
        || fresh(recorder.store.index)
      ensures Valid()
      ensures old(recorder.store.Consistent()) ==> recorder.store.Consistent()
      ensures old(Inflight().None?) && recorder.store.writer.volume.calm ==> Inflight().None?
      ensures forall c :: MayBecome(Disk(), Inflight(), StateJson, c) ==>
        old(MayBecome(Disk(), None, StateJson, c)) || (c == Some(StateFile(next)) && WorkspaceOk(next))
      ensures r.Ok? ==> Inflight().None? && WorkspaceOk(next)
      ensures r.Ok? ==> Settled(Disk(), Live(StateJson), Some(StateFile(next)))
      ensures r.Ok? ==> AllResolved(Disk(), taskId, reconciliations)
      ensures ReceiptsResolve(old(Disk()), None, Disk(), Inflight(), taskId, reconciliations)
      ensures r.Err? ==>
        WriteFault(r.error) || (r.error == IdempotencyConflict && SomeUnresolvable(Disk(), reconciliations))
      ensures r.Err? && old(recorder.store.Consistent()) && recorder.store.writer.volume.calm ==>
        ResolveRefused(taskId, reconciliations, next, r.error)
    {
      hide Sound, MayBecome, StoreOk, WorkspaceOk, Shows, Reconciled, Ledger, Resolves, ResolvedOnDisk, WorkspaceOk;
      ghost var s := Disk();
      var records := recorder.WithReconciliations(taskId, reconciliations);
      ghost var locked := Disk();
      if Sound(s, None, recorder.store.workspaceId) { CalmIsSound(s, locked, recorder.store.workspaceId); }
      SyncResolvesNothing(s, locked, taskId, reconciliations);
      StillRemembers(s, None, locked, None, next, acked);
      if records.Err? { return Err(records.error); }
      ReconciledAreDurable(locked, recorder.store.workspaceId, taskId, reconciliations, records.value);
      r := Commit(next, records.value, tx);
      CommitResolves(s, locked, Disk(), Inflight(), recorder.store.workspaceId, taskId, reconciliations, records.value,
                     next);
      if r.Err? && recorder.store.writer.volume.calm {
        ReconciledStay(locked, Disk(), recorder.store.workspaceId, taskId, reconciliations, records.value);
      }
      if r.Ok? {
        CommittedAreResolved(locked, Disk(), recorder.store.workspaceId, taskId, reconciliations, records.value);
      }
    }

    /** `commitWorkspace` of a snapshot that still recalls every answer. */
    method Commit(next: WorkspaceState, records: seq<ExecutionRecord>, tx: Uuid) returns (r: Reply<()>)
      requires Valid() && Inflight().None? && next.workspace.workspaceId == recorder.store.workspaceId
      requires Ledger(next) && Recalls(next, acked) && Durable(Disk(), Live(StateJson))
      requires forall record :: record in records ==> Durable(Disk(), Live(Receipt(record.operationId)))
      modifies recorder.store, recorder.store.writer, recorder.store.writer.volume`s
      ensures recorder.store.index == null || recorder.store.index == old(recorder.store.index)
        || fresh(recorder.store.index)
      ensures Valid()
      ensures old(recorder.store.Consistent()) ==> recorder.store.Consistent()
      ensures old(Inflight().None?) && recorder.store.writer.volume.calm ==> Inflight().None?
      ensures CommitAdds(old(Disk()), Disk(), Inflight(), next, records)
      ensures r.Ok? ==> Inflight().None? && WorkspaceOk(next)
      ensures r.Ok? ==> Settled(Disk(), Live(StateJson), Some(StateFile(next)))
      ensures r.Ok? ==> forall record :: record in records ==>
        Settled(Disk(), Live(Receipt(record.operationId)), Some(ReceiptFile(record)))
      ensures r.Err? ==> WriteFault(r.error)
      ensures r.Err? && old(recorder.store.Consistent()) && recorder.store.writer.volume.calm ==>
        CommitRefused(next, records, r.error)
      ensures r.Err? && recorder.store.writer.volume.calm ==> Calmer(old(Disk()), Disk())
    {
      ghost var s := Disk();
      r := recorder.store.CommitWorkspace(next, records, tx);
      CommitForgetsNothing(s, Disk(), Inflight(), next, records, acked, recorder.granted);
    }

    // -------------------------------------------------------------------------------------- complete

    /**
      * `complete`. `blocked` is the answer of the additional completion blocker. When the task is closed by
      * this call, every receipt of the task is on disk for good and none stands in the way of the outcome.
      */
    method Complete(q: CompleteRequest, m: Moment, blocked: bool)
      returns (r: Reply<MutationResult>, ghost step: Option<(WorkspaceState, WorkspaceState)>)
      requires Valid()
      modifies this`acked, recorder.store, recorder.store.writer, recorder.store.writer.volume`s, recorder.store.index
      ensures recorder.store.index == null || recorder.store.index == old(recorder.store.index)
        || fresh(recorder.store.index)
      ensures Valid()
      ensures old(recorder.store.Consistent()) ==> recorder.store.Consistent()
      ensures old(Inflight().None?) && recorder.store.writer.volume.calm ==> Inflight().None?
      ensures Answered(old(acked), acked, q.requestId, MutationKind.Complete, CompleteDigest(q), r)
      ensures r.Ok? ==> Inflight().None?
      ensures q.requestId in old(acked) ==> step.None?
      ensures q.requestId in old(acked) && Same(old(acked)[q.requestId], MutationKind.Complete, CompleteDigest(q)) ==>
        r.Ok? || (StorageFault(r.error) && Excused(old(recorder.store.Consistent())))
      ensures step.Some? ==> CloseStep(step.value.0, step.value.1, q, m)
      ensures r.Ok? && step.Some? ==> ClosesAsAsked(step.value.0, step.value.1, q, m, r.value)
      ensures step.Some? ==> Origin(old(Disk()), old(Inflight()), step.value.0.workspace, step.value.0)
      ensures Outcome(old(Disk()), old(Inflight()), Disk(), Inflight(), step, r.Ok?)
      ensures ReceiptsKept(old(Disk()), old(Inflight()), Disk(), Inflight())
      ensures r.Ok? && step.Some? ==> ClosedFor(Disk(), recorder.store.receipts, q.taskId, q.outcome)
      ensures r.Ok? && step.Some? ==> NamesWhatIsLeft(Disk(), q, r.value.unresolvedUnknown)
      ensures r.Err? && old(recorder.store.Consistent()) && recorder.store.writer.volume.calm ==>
        recorder.store.Stuck() || if step.None? then CompleteRefused(Disk(), q, blocked, r.error)
          else PutRefused(step.value.1, r.error)
    {
      hide Sound, MayBecome, StoreOk, Shows, Ledger, WorkspaceOk, Remembers, Permanent, CloseStep, ClosesAsAsked,
        NamesWhatIsLeft;
      step := None;
      var identity := RequireTask(q.taskId);
      if identity.Err? { return Err(identity.error), None; }
      r, step := CompleteLocked(identity.value, q, m, blocked);
      if r.Ok? && step.Some? {
        AnswerIsRecorded(Disk(), step.value.1, acked, q.requestId);
        CompleteSays(step.value.0, step.value.1, q, m);
      }
    }

    method CompleteLocked(identity: WorkspaceIdentity, q: CompleteRequest, m: Moment, blocked: bool)
      returns (r: Reply<MutationResult>, ghost step: Option<(WorkspaceState, WorkspaceState)>)
      requires Valid() && identity.workspaceId == recorder.store.workspaceId
      modifies this`acked, recorder.store, recorder.store.writer, recorder.store.writer.volume`s, recorder.store.index
      ensures recorder.store.index == null || recorder.store.index == old(recorder.store.index)
        || fresh(recorder.store.index)
      ensures Valid()
      ensures old(recorder.store.Consistent()) ==> recorder.store.Consistent()
      ensures old(Inflight().None?) && recorder.store.writer.volume.calm ==> Inflight().None?
      ensures Answered(old(acked), acked, q.requestId, MutationKind.Complete, CompleteDigest(q), r)
      ensures r.Ok? ==> Inflight().None?
      ensures q.requestId in old(acked) ==> step.None?
      ensures q.requestId in old(acked) && Same(old(acked)[q.requestId], MutationKind.Complete, CompleteDigest(q)) ==>
        r.Ok? || (StorageFault(r.error) && Excused(old(recorder.store.Consistent())))
      ensures step.Some? ==> CloseStep(step.value.0, step.value.1, q, m)
      ensures step.Some? ==> Origin(old(Disk()), old(Inflight()), identity, step.value.0)
      ensures Outcome(old(Disk()), old(Inflight()), Disk(), Inflight(), step, r.Ok?)
      ensures ReceiptsKept(old(Disk()), old(Inflight()), Disk(), Inflight())
      ensures r.Ok? && step.Some? ==> ClosedFor(Disk(), recorder.store.receipts, q.taskId, q.outcome)
      ensures r.Ok? && step.Some? ==> AnswersWhatIsLeft(Disk(), q, step.value.1)
      ensures r.Err? && old(recorder.store.Consistent()) && recorder.store.writer.volume.calm ==>
        recorder.store.Stuck() || if step.None? then CompleteRefused(Disk(), q, blocked, r.error)
          else PutRefused(step.value.1, r.error)
    {
      hide Sound, MayBecome, StoreOk, WorkspaceOk, Shows, Ledger, InTheWay, ClosesWell, PutRefused, CloseStep,
        CompleteDigest, AnswersWhatIsLeft, NamesWhatIsLeft;
      step := None;
      var state := ReadState(identity);
      if state.Err? { return Err(state.error), None; }
      ReadOrigin(old(Disk()), old(Inflight()), Disk(), identity, state.value);
      var replay := Replay(identity, state.value, q.requestId, MutationKind.Complete, CompleteDigest(q));
      if replay.Err? { return Err(replay.error), None; }
      if replay.value.Some? { return Ok(replay.value.value), None; }
      r, step := CompleteTask(identity, state.value, q, m, blocked);
    }

    method CompleteTask(identity: WorkspaceIdentity, state: WorkspaceState, q: CompleteRequest, m: Moment,
                        blocked: bool)
      returns (r: Reply<MutationResult>, ghost step: Option<(WorkspaceState, WorkspaceState)>)
      requires Valid() && identity.workspaceId == recorder.store.workspaceId && Inflight().None?
      requires Loaded(Disk(), identity, state, acked) && q.requestId !in state.mutationDedupe
      modifies this`acked, recorder.store, recorder.store.writer, recorder.store.writer.volume`s, recorder.store.index
      ensures recorder.store.index == null || recorder.store.index == old(recorder.store.index)
        || fresh(recorder.store.index)
      ensures Valid()
      ensures old(recorder.store.Consistent()) ==> recorder.store.Consistent()
      ensures old(Inflight().None?) && recorder.store.writer.volume.calm ==> Inflight().None?
      ensures Answered(old(acked), acked, q.requestId, MutationKind.Complete, CompleteDigest(q), r)
      ensures r.Ok? ==> Inflight().None?
      ensures step.Some? ==> step.value.0 == state && CloseStep(state, step.value.1, q, m)
      ensures Outcome(old(Disk()), None, Disk(), Inflight(), step, r.Ok?)
      ensures ReceiptsKept(old(Disk()), None, Disk(), Inflight())
      ensures r.Ok? ==> step.Some? && ClosedFor(Disk(), recorder.store.receipts, q.taskId, q.outcome)
      ensures r.Ok? && step.Some? ==> AnswersWhatIsLeft(Disk(), q, step.value.1)
      ensures step.None? ==> Calmer(old(Disk()), Disk())
      ensures r.Err? && old(recorder.store.Consistent()) && recorder.store.writer.volume.calm ==>
        || (step.Some? && PutRefused(step.value.1, r.error))
        || (step.None? && NotCurrent(state, q.taskId, q.expectedRevision, r.error))
        || (step.None? && q.taskId in state.tasks && ClosingRefused(Disk(), q, state.tasks[q.taskId], blocked, r.error))
    {
      var current := RequireCurrent(state, q.taskId, q.expectedRevision);
      if current.Err? { return Err(current.error), None; }
      r, step := CheckAndClose(identity, state, q, m, blocked);
    }

    method CheckAndClose(identity: WorkspaceIdentity, state: WorkspaceState, q: CompleteRequest, m: Moment,
                         blocked: bool)
      returns (r: Reply<MutationResult>, ghost step: Option<(WorkspaceState, WorkspaceState)>)
      requires Valid() && identity.workspaceId == recorder.store.workspaceId && Inflight().None?
      requires Loaded(Disk(), identity, state, acked) && q.requestId !in state.mutationDedupe
      requires RequireCurrent(state, q.taskId, q.expectedRevision).Ok?
      modifies this`acked, recorder.store, recorder.store.writer, recorder.store.writer.volume`s, recorder.store.index
      ensures recorder.store.index == null || recorder.store.index == old(recorder.store.index)
        || fresh(recorder.store.index)
      ensures Valid()
      ensures old(recorder.store.Consistent()) ==> recorder.store.Consistent()
      ensures old(Inflight().None?) && recorder.store.writer.volume.calm ==> Inflight().None?
      ensures Answered(old(acked), acked, q.requestId, MutationKind.Complete, CompleteDigest(q), r)
      ensures r.Ok? ==> Inflight().None?
      ensures step.Some? ==> step.value.0 == state && CloseStep(state, step.value.1, q, m)
      ensures Outcome(old(Disk()), None, Disk(), Inflight(), step, r.Ok?)
      ensures ReceiptsKept(old(Disk()), None, Disk(), Inflight())
      ensures r.Ok? ==> step.Some? && ClosedFor(Disk(), recorder.store.receipts, q.taskId, q.outcome)
      ensures r.Ok? && step.Some? ==> AnswersWhatIsLeft(Disk(), q, step.value.1)
      ensures step.None? ==> Calmer(old(Disk()), Disk())
      ensures r.Err? && old(recorder.store.Consistent()) && recorder.store.writer.volume.calm ==>
        if step.None? then ClosingRefused(Disk(), q, state.tasks[q.taskId], blocked, r.error)
          else PutRefused(step.value.1, r.error)
    {
      hide Sound, MayBecome, StoreOk, WorkspaceOk, Shows, Ledger, Closable, Recalls, AnswersWhatIsLeft, NamesWhatIsLeft;
      step := None;
      ghost var s := Disk();
      var executions := CheckClosing(q, state.tasks[q.taskId], blocked);
      ghost var listed := Disk();
      if executions.Err? {
        SyncIsNoStep(s, listed);
        return Err(executions.error), None;
      }
      r, step := CloseTask(identity, state, q, m, executions.value);
      OutcomeAfterSync(s, listed, Disk(), Inflight(), step, r.Ok?);
      ReceiptsKeptAfterSync(s, listed, Disk(), Inflight());
    }

    method CloseTask(identity: WorkspaceIdentity, state: WorkspaceState, q: CompleteRequest, m: Moment,
                     executions: Receipts)
      returns (r: Reply<MutationResult>, ghost step: Option<(WorkspaceState, WorkspaceState)>)
      requires Valid() && identity.workspaceId == recorder.store.workspaceId && Inflight().None?
      requires recorder.store.index != null
      requires Loaded(Disk(), identity, state, acked) && q.requestId !in state.mutationDedupe
      requires RequireCurrent(state, q.taskId, q.expectedRevision).Ok?
      requires executions == Found(ExecutionIndex.TaskOperations(recorder.store.receipts, q.taskId),
        recorder.store.receipts)
      requires AllDurable(Disk(), executions.Keys) && Obstacles(executions, q.outcome) == {}
      requires ClosesWell(q, state.tasks[q.taskId])
      modifies this`acked, recorder.store, recorder.store.writer, recorder.store.writer.volume`s, recorder.store.index
      ensures recorder.store.index == null || recorder.store.index == old(recorder.store.index)
        || fresh(recorder.store.index)
      ensures Valid()
      ensures old(recorder.store.Consistent()) ==> recorder.store.Consistent()
      ensures old(Inflight().None?) && recorder.store.writer.volume.calm ==> Inflight().None?
      ensures Answered(old(acked), acked, q.requestId, MutationKind.Complete, CompleteDigest(q), r)
      ensures r.Ok? ==> Inflight().None?
      ensures step.Some? && step.value.0 == state && CloseStep(state, step.value.1, q, m)
      ensures Outcome(old(Disk()), None, Disk(), Inflight(), step, r.Ok?)
      ensures ReceiptsKept(old(Disk()), None, Disk(), Inflight())
      ensures r.Ok? ==> ClosedFor(Disk(), recorder.store.receipts, q.taskId, q.outcome)
      ensures r.Ok? && step.Some? ==> AnswersWhatIsLeft(Disk(), q, step.value.1)
      ensures r.Err? ==> WriteFault(r.error)
      ensures r.Err? && old(recorder.store.Consistent()) && recorder.store.writer.volume.calm ==>
        PutRefused(step.value.1, r.error)
    {
      var next := Closed(state, executions, q, m);
      CompleteKeepsLedger(state, next, executions, q, m);
      assert CompleteStep(state, next, executions, q, m);
      step := Some((state, next));
      r := FinishComplete(state, next, executions, q);
      if r.Ok? { ListedAreNamed(Disk(), recorder.store.receipts, q); }
    }

    method FinishComplete(ghost state: WorkspaceState, next: WorkspaceState, ghost executions: Receipts,
                          q: CompleteRequest) returns (r: Reply<MutationResult>)
      requires Valid() && Inflight().None? && recorder.store.index != null && Recalls(state, acked)
      requires next.workspace.workspaceId == recorder.store.workspaceId && Ledger(next)
      requires Recorded(state, next, q.requestId, MutationKind.Complete, CompleteDigest(q))
      requires executions == Found(ExecutionIndex.TaskOperations(recorder.store.receipts, q.taskId),
        recorder.store.receipts)
      requires AllDurable(Disk(), executions.Keys) && Obstacles(executions, q.outcome) == {}
      modifies this`acked, recorder.store, recorder.store.writer, recorder.store.writer.volume`s, recorder.store.index
      ensures recorder.store.index == null || recorder.store.index == old(recorder.store.index)
        || fresh(recorder.store.index)
      ensures Valid()
      ensures old(recorder.store.Consistent()) ==> recorder.store.Consistent()
      ensures old(Inflight().None?) && recorder.store.writer.volume.calm ==> Inflight().None?
      ensures Answered(old(acked), acked, q.requestId, MutationKind.Complete, CompleteDigest(q), r)
      ensures r.Ok? ==> Inflight().None?
      ensures Outcome(old(Disk()), None, Disk(), Inflight(), Some((state, next)), r.Ok?)
      ensures ReceiptsKept(old(Disk()), None, Disk(), Inflight())
      ensures r.Ok? ==> ClosedFor(Disk(), recorder.store.receipts, q.taskId, q.outcome)
      ensures r.Ok? ==> recorder.store.receipts == old(recorder.store.receipts)
      ensures r.Err? ==> WriteFault(r.error)
      ensures r.Err? && old(recorder.store.Consistent()) && recorder.store.writer.volume.calm ==>
        PutRefused(next, r.error)
    {
      ghost var s := Disk();
      r := Finish(state, next, q.requestId, MutationKind.Complete, CompleteDigest(q));
      if r.Ok? { ListedReceiptsClose(s, Disk(), next, recorder.store.receipts, executions, q.taskId, q.outcome); }
    }

    /** The receipts of the task, none in the way, and a checkpoint fit to close with. */
    method CheckClosing(q: CompleteRequest, task: Task, blocked: bool) returns (r: Reply<Receipts>)
      requires Valid() && Inflight().None?
      modifies recorder.store, recorder.store.writer, recorder.store.writer.volume`s
      ensures recorder.store.index == null || recorder.store.index == old(recorder.store.index)
        || fresh(recorder.store.index)
      ensures Valid() && Inflight().None? && Calmer(old(Disk()), Disk())
      ensures old(recorder.store.Consistent()) ==> recorder.store.Consistent()
      ensures old(Inflight().None?) && recorder.store.writer.volume.calm ==> Inflight().None?
      ensures r.Ok? ==> recorder.store.index != null && AllDurable(Disk(), r.value.Keys)
      ensures r.Ok? ==>
        r.value == Found(ExecutionIndex.TaskOperations(recorder.store.receipts, q.taskId), recorder.store.receipts)
      ensures r.Ok? ==> !blocked && Obstacles(r.value, q.outcome) == {} && ClosesWell(q, task)
      ensures r.Ok? ==> checkpointBytes(ClosingCheckpoint(q, task)) <= checkpointMaxBytes
      ensures r.Err? && r.error == UnresolvedExecution ==> blocked || InTheWay(Disk(), q.taskId, q.outcome)
      ensures r.Err? && r.error == CompletionCheckpointConflict ==> !ClosesWell(q, task)
      ensures r.Err? ==>
        r.error == UnresolvedExecution || r.error == CompletionCheckpointConflict || WriteFault(r.error)
      ensures r.Err? && old(recorder.store.Consistent()) && recorder.store.writer.volume.calm ==>
        ClosingRefused(Disk(), q, task, blocked, r.error) || Seen(Disk(), Live(StateJson)) == None
    {
      hide Sound, StoreOk, WorkspaceOk, MayBecome;
      ghost var s := Disk();
      var listed := recorder.store.ListExecutions(q.taskId);
      if Sound(s, None, recorder.store.workspaceId) { CalmIsSound(s, Disk(), recorder.store.workspaceId); }
      if listed.Err? { return Err(listed.error); }
      ListedAreFound(listed.value, recorder.store.receipts, q.taskId);
      r := Ok(ByOperation(listed.value));
      if blocked || Obstacles(r.value, q.outcome) != {} {
        if !blocked { ObstacleIsVisible(Disk(), recorder.store.receipts, q.taskId, q.outcome); }
        return Err(UnresolvedExecution);
      }
      if q.outcome == Completed && CompletionConflict(Candidate(q, task)) { return Err(CompletionCheckpointConflict); }
      if q.finalCheckpoint.Some?
         && (|q.finalCheckpoint.value.current| > 2048 || q.finalCheckpoint.value.receiptFields) {
        return Err(CompletionCheckpointConflict);
      }
      if checkpointBytes(ClosingCheckpoint(q, task)) > checkpointMaxBytes { return Err(StorageFull); }
    }
  }

  lemma UnusedId(ids: set<Uuid>)
    ensures exists id: Uuid :: id !in ids
  {
    var id := Beyond(ids);
    assert id !in ids;
  }

  ghost function Beyond(ids: set<Uuid>): (id: Uuid)
    ensures forall other :: other in ids ==> other < id
  {
    if ids == {} then 0
    else
      var one :| one in ids;
      assert forall other :: other in ids ==> other == one || other in ids - {one};
      var rest := Beyond(ids - {one});
      if rest > one then rest else one + 1
  }
}
