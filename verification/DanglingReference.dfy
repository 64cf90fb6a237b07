/**
  * The one history after which a workspace is refused by every later boot, built by the service's own steps:
  * a resolution names an operation that has no receipt yet, its task is closed, and the next task prepares
  * that operation.
  */
module DanglingReference {
  import opened Wrappers
  import opened TaskTypes
  import opened StorageSchema
  import opened Durability
  import opened StoreOutcomes
  import opened Ownership
  import opened Soundness
  import opened ExecutionRecorder
  import opened TaskService
  import opened Runs
  import opened Arithmetic

  const HERE: WorkspaceIdentity := WorkspaceIdentity(7, "tree")
  const NOW: Moment := Moment(0, 0, "tree")
  const PLAIN: Checkpoint := Checkpoint("completed", "done", [], [], "", [], None)

  /** Operation 20 has no receipt yet. */
  const DANGLING: EvidenceRef := EvidenceRef(ReceiptEvidence, Some(20), "")
  const RESOLUTION: Reconciliation := Reconciliation(10, VerifiedNoRetry, [DANGLING], None, 0)
  const RESOLVING: Checkpoint := Checkpoint("work", "now", [], [], "", [], Some([RESOLUTION]))

  const CREATE_ONE: CreateRequest := CreateRequest(HERE, 101, "one", PLAIN)
  const RESOLVE: UpdateRequest := UpdateRequest(1, 102, 1, RESOLVING)
  const FORGET: UpdateRequest := UpdateRequest(1, 103, 2, PLAIN)
  const COMPLETE: CompleteRequest := CompleteRequest(1, 104, 3, Completed, "done", [], None)
  const CREATE_TWO: CreateRequest := CreateRequest(HERE, 105, "two", PLAIN)

  const INPUT: Hmac := Hmac(ExecutionInput(ExecCommand, "run"))

  /** Receipt 10 as boot 1 prepared it, as boot 2 found it, and as the update resolved it. */
  const PREPARED: ExecutionRecord := FirstReceipt(10, 1, 7, 1, ExecCommand, INPUT, 0)
  const UNKNOWN: ExecutionRecord := AfterBoot(PREPARED, 2, 0)
  const RESOLVED: ExecutionRecord := Resolve(UNKNOWN, RESOLUTION)
  /** The first receipt of operation 20, for the second task. */
  const FIRST: ExecutionRecord := FirstReceipt(20, 2, 7, 2, ExecCommand, INPUT, 0)

  const EMPTY: WorkspaceState := EmptyState(HERE)
  const ONE: WorkspaceState := Created(EMPTY, 1, CREATE_ONE, NOW)
  const TWO: WorkspaceState := Updated(ONE, RESOLVE, NOW)
  const THREE: WorkspaceState := Updated(TWO, FORGET, NOW)
  const FOUR: WorkspaceState := Closed(THREE, map[10 := RESOLVED], COMPLETE, NOW)
  const FIVE: WorkspaceState := Created(FOUR, 2, CREATE_TWO, NOW)

  lemma Stamped()
    ensures Stamp(PLAIN, 0) == PLAIN && Stamp(RESOLVING, 0) == RESOLVING
  {
    assert StampAll([], 0) == [] && [RESOLUTION][1..] == [];
    assert StampAll([RESOLUTION], 0) == [RESOLUTION];
  }

  /** A snapshot of the story: counted, well formed, with task 1 active at this revision. */
  ghost predicate Stands(state: WorkspaceState, revision: nat, requests: set<Uuid>) {
    && Ledger(state) && WorkspaceOk(state) && state.workspace == HERE
       && state.workspaceRevision == revision < MAX_SAFE_INTEGER
    && state.mutationDedupe.Keys == requests
  }

  ghost predicate OneIsActive(state: WorkspaceState, revision: nat, requests: set<Uuid>) {
    && Stands(state, revision, requests) && state.activeTaskId == Some(1) && state.tasks.Keys == {1}
    && state.tasks[1].status == Active && state.tasks[1].revision == revision && state.tasks[1].taskId == 1
    && state.tasks[1].observedWorktree == "tree" && state.tasks[1].completedAt.None?
  }

  lemma Creates()
    ensures CreateStep(EMPTY, ONE, CREATE_ONE, NOW) && OneIsActive(ONE, 1, {101}) && ONE.tasks[1].checkpoint == PLAIN
  {
    hide Ledger, WorkspaceOk;
    Stamped();
    EmptyLedger(HERE);
    assert CreateStep(EMPTY, ONE, CREATE_ONE, NOW) by {
      assert 1 !in EMPTY.tasks && ONE == Created(EMPTY, 1, CREATE_ONE, NOW);
    }
    CreateKeepsLedger(EMPTY, ONE, CREATE_ONE, NOW);
    AppliedIsWellFormed(EMPTY.(workspace := HERE), Create, 101, CreateDigest(CREATE_ONE),
                        CreatedTask(CREATE_ONE, 1, NOW), {}, 0);
  }

  /** Every mutation of a standing snapshot under a new request leaves one that stands. */
  lemma StandsOn(state: WorkspaceState, revision: nat, requests: set<Uuid>, kind: MutationKind, requestId: Uuid,
                 hmac: Hmac, task: Task, unresolved: set<Uuid>)
    requires Stands(state, revision, requests) && requestId !in requests && revision + 1 < MAX_SAFE_INTEGER
    requires NextRevision(state, task)
    requires Answers(Applied(state, kind, requestId, hmac, task, unresolved, 0).mutationDedupe[requestId])
    requires state.activeTaskId == None || state.activeTaskId == Some(task.taskId)
    requires task.observedWorktree == "tree" && (task.status == Active <==> task.completedAt.None?)
    requires kind == MutationKind.Complete <==> task.status != Active
    ensures Stands(Applied(state, kind, requestId, hmac, task, unresolved, 0), revision + 1, requests + {requestId})
  {
    hide Ledger, WorkspaceOk, Answers;
    AppliedKeepsLedger(state, kind, requestId, hmac, task, unresolved, 0);
    AppliedIsWellFormed(state, kind, requestId, hmac, task, unresolved, 0);
  }

  lemma Updates(before: WorkspaceState, revision: nat, requests: set<Uuid>, q: UpdateRequest)
    requires OneIsActive(before, revision, requests) && q.taskId == 1 && q.expectedRevision == revision
    requires q.requestId !in requests
    requires revision + 1 < MAX_SAFE_INTEGER && Stamp(q.checkpoint, 0) == q.checkpoint
    ensures UpdateStep(before, Updated(before, q, NOW), q, NOW)
    ensures OneIsActive(Updated(before, q, NOW), revision + 1, requests + {q.requestId})
    ensures Updated(before, q, NOW).tasks[1].checkpoint == q.checkpoint
  {
    hide Ledger, WorkspaceOk;
    StandsOn(before, revision, requests, Update, q.requestId, UpdateDigest(q), UpdatedTask(before.tasks[1], q, NOW),
             {});
    assert Updated(before, q, NOW).tasks.Keys == {1};
  }

  lemma Closes(before: WorkspaceState, requests: set<Uuid>)
    requires OneIsActive(before, 3, requests) && before.tasks[1].checkpoint == PLAIN && 104 !in requests
    ensures CompleteStep(before, Closed(before, map[10 := RESOLVED], COMPLETE, NOW), map[10 := RESOLVED], COMPLETE, NOW)
    ensures OneIsClosed(Closed(before, map[10 := RESOLVED], COMPLETE, NOW), requests + {104})
  {
    hide Ledger, WorkspaceOk;
    NothingInTheWay();
    var task := CompletedTask(before.tasks[1], COMPLETE, NOW);
    StandsOn(before, 3, requests, MutationKind.Complete, 104, CompleteDigest(COMPLETE), task,
             LeftUnknown(map[10 := RESOLVED], Completed));
    assert Closed(before, map[10 := RESOLVED], COMPLETE, NOW).tasks.Keys == {1};
  }

  lemma NothingInTheWay()
    ensures Obstacles(map[10 := RESOLVED], Completed) == {} && !Blank(PLAIN.current)
  {
    assert PLAIN.current[0] == 'd' && 'd' in PLAIN.current;
  }

  ghost predicate OneIsClosed(state: WorkspaceState, requests: set<Uuid>) {
    && Stands(state, 4, requests) && state.activeTaskId == None && state.tasks.Keys == {1} && Plain(state.tasks[1], 1)
  }

  /** The task mentions no receipt. */
  predicate Plain(task: Task, id: Uuid) {
    task.taskId == id && task.checkpoint.evidenceRefs == []
      && task.checkpoint.executionReconciliations in {None, Some([])}
  }

  lemma CreatesAgain(before: WorkspaceState, requests: set<Uuid>)
    requires OneIsClosed(before, requests) && 105 !in requests
    ensures CreateStep(before, Created(before, 2, CREATE_TWO, NOW), CREATE_TWO, NOW)
    ensures BothArePlain(Created(before, 2, CREATE_TWO, NOW), requests + {105})
  {
    hide Ledger, WorkspaceOk;
    Stamped();
    var after := Created(before, 2, CREATE_TWO, NOW);
    assert before.(workspace := HERE) == before;
    StandsOn(before, 4, requests, Create, 105, CreateDigest(CREATE_TWO), CreatedTask(CREATE_TWO, 2, NOW), {});
    assert 2 !in before.tasks && after.tasks.Keys == {1, 2};
  }

  ghost predicate BothArePlain(state: WorkspaceState, requests: set<Uuid>) {
    && Stands(state, 5, requests) && state.activeTaskId == Some(2) && state.tasks.Keys == {1, 2}
    && Plain(state.tasks[1], 1) && Plain(state.tasks[2], 2)
  }

  // ---------------------------------------------------------------------------------- the ownership checks

  lemma OneValue(op: Uuid, record: ExecutionRecord)
    ensures (map[op := record]).Values == {record}
  {
    assert (map[op := record])[op] == record;
  }

  lemma PlainIsOwned(task: Task, id: Uuid, owners: Owners)
    requires Plain(task, id)
    ensures TaskOwned(task, owners) && TaskRefs(task) == {}
  {
  }

  /** A snapshot whose tasks are owned is fully owned with receipt 10 in any of its versions. */
  lemma OwnedWithTen(state: WorkspaceState, record: ExecutionRecord)
    requires state.workspace == HERE && 1 in state.tasks && record in {PREPARED, UNKNOWN, RESOLVED}
    requires forall id :: id in state.tasks ==> TaskOwned(state.tasks[id], map[10 := 1])
    ensures FullyOwned(state, map[10 := record])
  {
    OneValue(10, record);
    assert OwnersOf(map[10 := record]) == map[10 := 1];
  }

  lemma ResolvingIsOwned(state: WorkspaceState, requests: set<Uuid>)
    requires OneIsActive(state, 2, requests) && state.tasks[1].checkpoint == RESOLVING
    ensures FullyOwned(state, map[10 := RESOLVED])
  {
    hide Ledger, WorkspaceOk;
    assert ReconciliationsOf(state.tasks[1]) == [RESOLUTION] && RESOLUTION.evidenceRefs == [DANGLING];
    OwnedWithTen(state, RESOLVED);
  }

  lemma PlainWithTen(state: WorkspaceState, record: ExecutionRecord)
    requires state.workspace == HERE && 1 in state.tasks && record in {PREPARED, UNKNOWN, RESOLVED}
    requires forall id :: id in state.tasks ==> Plain(state.tasks[id], id)
    ensures FullyOwned(state, map[10 := record])
  {
    forall id | id in state.tasks
      ensures TaskOwned(state.tasks[id], map[10 := 1])
    {
      PlainIsOwned(state.tasks[id], id, map[10 := 1]);
    }
    OwnedWithTen(state, record);
  }

  /** The first receipt of operation 20 passes every check that `writeExecution` makes. */
  lemma SecondIsAccepted(state: WorkspaceState, requests: set<Uuid>)
    requires BothArePlain(state, requests)
    ensures AcceptsExecution(FIRST, state, map[10 := RESOLVED])
  {
    hide Ledger, WorkspaceOk;
    OneValue(20, FIRST);
    assert Selected(state, map[20 := FIRST], map[10 := RESOLVED], false) == map[20 := FIRST];
    var owners := OwnersOf(map[10 := RESOLVED] + map[20 := FIRST]);
    forall id | id in state.tasks
      ensures TaskOwned(state.tasks[id], owners)
    {
      PlainIsOwned(state.tasks[id], id, owners);
    }
  }

  lemma SecondBreaks(state: WorkspaceState)
    ensures !FullyOwned(state, map[10 := RESOLVED, 20 := FIRST])
  {
    var receipts := map[10 := RESOLVED, 20 := FIRST];
    assert receipts[10] in receipts.Values && DANGLING in RESOLUTION.evidenceRefs && 20 in ResolutionRefs(RESOLVED);
    ForeignMentionBreaks(RESOLVED, 20, state, OwnersOf(receipts));
  }

  lemma TwoUpdates()
    ensures CreateStep(EMPTY, ONE, CREATE_ONE, NOW) && OneIsActive(ONE, 1, {101}) && ONE.tasks[1].checkpoint == PLAIN
    ensures UpdateStep(ONE, TWO, RESOLVE, NOW) && OneIsActive(TWO, 2, {101, 102})
    ensures TWO.tasks[1].checkpoint == RESOLVING
    ensures UpdateStep(TWO, THREE, FORGET, NOW) && OneIsActive(THREE, 3, {101, 102, 103})
    ensures THREE.tasks[1].checkpoint == PLAIN
  {
    hide Ledger, WorkspaceOk;
    Stamped();
    Creates();
    Updates(ONE, 1, {101}, RESOLVE);
    assert {101} + {102} == {101, 102};
    Updates(TWO, 2, {101, 102}, FORGET);
    assert {101, 102} + {103} == {101, 102, 103};
  }

  /** Each snapshot is the service's own step from the one before it, from the empty workspace on. */
  lemma Story()
    ensures CreateStep(EMPTY, ONE, CREATE_ONE, NOW) && OneIsActive(ONE, 1, {101}) && ONE.tasks[1].checkpoint == PLAIN
    ensures UpdateStep(ONE, TWO, RESOLVE, NOW) && OneIsActive(TWO, 2, {101, 102})
    ensures TWO.tasks[1].checkpoint == RESOLVING
    ensures UpdateStep(TWO, THREE, FORGET, NOW) && OneIsActive(THREE, 3, {101, 102, 103})
    ensures THREE.tasks[1].checkpoint == PLAIN
    ensures CompleteStep(THREE, FOUR, map[10 := RESOLVED], COMPLETE, NOW) && OneIsClosed(FOUR, {101, 102, 103, 104})
    ensures CreateStep(FOUR, FIVE, CREATE_TWO, NOW) && BothArePlain(FIVE, {101, 102, 103, 104, 105})
  {
    hide Ledger, WorkspaceOk;
    TwoUpdates();
    Closes(THREE, {101, 102, 103});
    assert {101, 102, 103} + {104} == {101, 102, 103, 104};
    CreatesAgain(FOUR, {101, 102, 103, 104});
    assert {101, 102, 103, 104} + {105} == {101, 102, 103, 104, 105};
  }

  lemma PlainAlone(state: WorkspaceState)
    requires forall id :: id in state.tasks ==> Plain(state.tasks[id], id)
    ensures FullyOwned(state, map[])
  {
    forall id | id in state.tasks
      ensures TaskOwned(state.tasks[id], OwnersOf(map[]))
    {
      PlainIsOwned(state.tasks[id], id, OwnersOf(map[]));
    }
  }

  /** What is written on the way leaves everything owned. */
  lemma OwnedOnTheWay(one: WorkspaceState, two: WorkspaceState, three: WorkspaceState, four: WorkspaceState,
                      five: WorkspaceState)
    requires OneIsActive(one, 1, {101}) && one.tasks[1].checkpoint == PLAIN && OneIsActive(two, 2, {101, 102})
    requires two.tasks[1].checkpoint == RESOLVING
    requires OneIsActive(three, 3, {101, 102, 103}) && three.tasks[1].checkpoint == PLAIN
    requires OneIsClosed(four, {101, 102, 103, 104}) && BothArePlain(five, {101, 102, 103, 104, 105})
    ensures FullyOwned(one, map[]) && FullyOwned(one, map[10 := PREPARED]) && FullyOwned(one, map[10 := UNKNOWN])
    ensures forall state :: state in {two, three, four, five} ==> FullyOwned(state, map[10 := RESOLVED])
  {
    hide Ledger, WorkspaceOk, FullyOwned, FirstReceipt, AfterBoot, Resolve;
    PlainAlone(one);
    PlainWithTen(one, PREPARED);
    PlainWithTen(one, UNKNOWN);
    ResolvingIsOwned(two, {101, 102});
    PlainWithTen(three, RESOLVED);
    PlainWithTen(four, RESOLVED);
    PlainWithTen(five, RESOLVED);
  }

  /**
    * The last write of the story: task 1 is closed, its receipt 10 was resolved with a reference to operation
    * 20, and task 2 prepares operation 20. Every check that is made passes; what the write leaves is not owned.
    */
  lemma DanglingReferenceExample()
    ensures Ledger(FIVE) && WorkspaceOk(FIVE) && FIVE.activeTaskId == Some(FIRST.taskId)
    ensures ExecutionOk(RESOLVED) && ExecutionOk(FIRST) && FIRST.state == Prepared
    ensures FullyOwned(FIVE, map[10 := RESOLVED]) && AcceptsExecution(FIRST, FIVE, map[10 := RESOLVED])
    ensures ForeignMention(FIRST, map[10 := RESOLVED]) && !FullyOwned(FIVE, map[10 := RESOLVED, 20 := FIRST])
  {
    hide Ledger, WorkspaceOk, FullyOwned, AcceptsExecution, ForeignMention;
    Story();
    PlainWithTen(FIVE, RESOLVED);
    SecondIsAccepted(FIVE, {101, 102, 103, 104, 105});
    SecondBreaks(FIVE);
    TenNamesTwenty();
  }

  lemma TenNamesTwenty()
    ensures ExecutionOk(RESOLVED) && ForeignMention(FIRST, map[10 := RESOLVED])
  {
    assert DANGLING in RESOLUTION.evidenceRefs && (map[10 := RESOLVED])[10] == RESOLVED;
    assert 20 in ResolutionRefs(RESOLVED);
  }

  /** And so it is accepted. */
  lemma AcceptedOnTheWay(one: WorkspaceState, two: WorkspaceState, three: WorkspaceState, four: WorkspaceState,
                         five: WorkspaceState)
    requires FullyOwned(one, map[]) && FullyOwned(one, map[10 := PREPARED])
    requires forall state :: state in {two, three, four, five} ==> FullyOwned(state, map[10 := RESOLVED])
    requires one.workspace == HERE
    ensures AcceptsWorkspace(one, map[]) && AcceptsExecution(PREPARED, one, map[])
    ensures AcceptsCommit(two, map[10 := RESOLVED], map[10 := UNKNOWN])
    ensures AcceptsCommit(three, map[], map[10 := RESOLVED])
    ensures AcceptsWorkspace(four, map[10 := RESOLVED]) && AcceptsWorkspace(five, map[10 := RESOLVED])
  {
    hide FullyOwned, AcceptsCommit, AcceptsWorkspace;
    var none: Receipts := map[];
    assert none + none == none && map[10 := UNKNOWN] + map[10 := RESOLVED] == map[10 := RESOLVED]
      && map[10 := RESOLVED] + none == map[10 := RESOLVED];
    OwnedIsAccepted(one, none, none);
    FirstIsAccepted(one);
    OwnedIsAccepted(two, map[10 := RESOLVED], map[10 := UNKNOWN]);
    OwnedIsAccepted(three, none, map[10 := RESOLVED]);
    OwnedIsAccepted(four, none, map[10 := RESOLVED]);
    OwnedIsAccepted(five, none, map[10 := RESOLVED]);
  }

  lemma FirstIsAccepted(one: WorkspaceState)
    requires FullyOwned(one, map[10 := PREPARED])
    ensures AcceptsExecution(PREPARED, one, map[])
  {
    OneValue(10, PREPARED);
    assert Selected(one, map[10 := PREPARED], map[], false) == map[10 := PREPARED];
    assert map[] + map[10 := PREPARED] == map[10 := PREPARED];
  }

  // ------------------------------------------------------------------------------------- on the disk

  /** The snapshot and these receipts, all durable, and nothing else. */
  function Laid(state: WorkspaceState, receipts: Receipts): DiskState {
    DiskState(map p | p in {Path.Live(StateJson)} + (set op | op in receipts :: Path.Live(Receipt(op))) ::
                if p.target.StateJson? then StateFile(state) else ReceiptFile(receipts[p.target.operationId]), map[])
  }

  /** Such a disk has the full check as its invariant: it is the one the next process finds. */
  lemma LaidIsWhatItSays(state: WorkspaceState, receipts: Receipts)
    requires WorkspaceOk(state) && state.workspace == HERE && KeyedByOperation(receipts)
    requires forall op :: op in receipts ==> ExecutionOk(receipts[op])
    ensures var s := Laid(state, receipts);
      && Shows(s, receipts) && StateOf(s) == Ok(state) && (forall t :: Durable(s, Path.Live(t))) && StoreOk(s, None, 7)
      && Seen(s, Path.Live(StateJson)) == Some(StateFile(state))
      && (FullCheck(s, 7) <==> FullyOwned(state, receipts))
  {
    hide WorkspaceOk, ExecutionOk, FullyOwned, FullCheck;
    var s := Laid(state, receipts);
    LaidShows(state, receipts);
    FullCheckSays(s, 7, receipts);
  }

  lemma LaidShows(state: WorkspaceState, receipts: Receipts)
    requires WorkspaceOk(state) && KeyedByOperation(receipts)
    requires forall op :: op in receipts ==> ExecutionOk(receipts[op])
    ensures var s := Laid(state, receipts);
      && Shows(s, receipts) && StateOf(s) == Ok(state) && (forall t :: Durable(s, Path.Live(t))) && StoreOk(s, None, 7)
      && Seen(s, Path.Live(StateJson)) == Some(StateFile(state))
  {
    hide Laid, WorkspaceOk, ExecutionOk, FullyOwned;
    LaidIsSeen(state, receipts);
  }

  lemma LaidIsSeen(state: WorkspaceState, receipts: Receipts)
    ensures var s := Laid(state, receipts);
      && s.unsynced == map[] && Seen(s, Path.Live(StateJson)) == Some(StateFile(state))
      && (forall op :: Seen(s, Path.Live(Receipt(op))) ==
                       if op in receipts then Some(ReceiptFile(receipts[op])) else None)
      && forall p: Path :: !p.Live? ==> Seen(s, p) == None
  {
  }

  /** Whoever was answered or granted so far was told the truth. */
  lemma LaidIsHonest(state: WorkspaceState, receipts: Receipts)
    requires WorkspaceOk(state) && state.workspace == HERE && KeyedByOperation(receipts) && Ledger(state)
    requires forall op :: op in receipts ==> ExecutionOk(receipts[op])
    ensures Honest(Laid(state, receipts), Told(state.mutationDedupe, receipts.Keys, None), 7)
  {
    hide WorkspaceOk, ExecutionOk, FullyOwned, Ledger, Laid, FullCheck, StoreOk;
    var s := Laid(state, receipts);
    LaidIsWhatItSays(state, receipts);
    OneHistory(s, StateFile(state), state, state.mutationDedupe);
    forall op, c | op in receipts && MayBecome(s, None, Receipt(op), c) ensures c.Some? {}
  }

  /** The disk before the last write, and after it. */
  function Before(): Instant { Instant(Laid(FIVE, map[10 := RESOLVED]), Told(FIVE.mutationDedupe, {10}, None)) }
  function After(): Instant {
    Instant(Laid(FIVE, map[10 := RESOLVED, 20 := FIRST]), Told(FIVE.mutationDedupe, {10, 20}, None))
  }

  /**
    * Before the last write every outcome passes the boot's check; after it none does. Five requests have been
    * answered by then.
    */
  lemma TheLastWrite()
    ensures Honest(Before().s, Before().told, 7) && IsSound(Before(), 7)
    ensures Honest(After().s, After().told, 7) && Dead(After(), 7) && |After().told.acked| == 5
  {
    hide Ledger, WorkspaceOk, FullyOwned, AcceptsExecution, Laid, FullCheck, Sound, Honest;
    DanglingReferenceExample();
    var one, two := map[10 := RESOLVED], map[10 := RESOLVED, 20 := FIRST];
    assert one.Keys == {10} && two.Keys == {10, 20};
    LaidIsHonest(FIVE, one);
    LaidIsWhatItSays(FIVE, one);
    SettledIsSound(Laid(FIVE, one), 7);
    LaidIsHonest(FIVE, two);
    LaidIsWhatItSays(FIVE, two);
    FiveAnswers();
  }

  lemma FiveAnswers()
    ensures |FIVE.mutationDedupe| == 5
  {
    hide WorkspaceOk;
    Story();
    assert FIVE.mutationDedupe.Keys == {101, 102, 103, 104, 105};
  }

  /** From then on, in every run, no process comes up and no request is served again. */
  lemma NeverServedAgain(limits: Limits, trace: seq<Step>, instants: seq<Instant>, n: nat, m: nat)
    requires Runs.Chain(limits, 7, trace, instants) && Orderly(trace) && n <= m <= |trace|
    requires instants[n] == After() && (n < |trace| ==> !trace[n].Serves?)
    ensures Dead(instants[m], 7)
    ensures forall k :: n <= k < m ==> trace[k] == PowerFails || (trace[k].Boots? && !trace[k].up)
  {
    hide Runs.Chain, Dead, After;
    TheLastWrite();
    DeadForEver(limits, 7, trace, instants, n, m);
  }
}
