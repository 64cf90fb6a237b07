/** The receipt life cycle of src/continuity/execution-recorder.ts. */
module ExecutionRecorder {
  import opened Wrappers
  import opened TaskTypes
  import opened StorageSchema
  import opened Durability
  import opened StoreOutcomes
  import opened Ownership
  import opened Soundness
  import opened TaskStore

  datatype Observation = Observation(
    sessionId: string, exitCode: Option<int>, signal: Option<string>, timedOut: bool, spawnFailed: bool,
    totalOutputBytes: nat, errorCode: Option<string>)

  // --------------------------------------------------------------------- what each operation writes

  function FirstReceipt(op: Uuid, taskId: Uuid, workspaceId: Uuid, bootId: Uuid, toolKind: ToolKind, inputHmac: Hmac,
                        now: Time): ExecutionRecord {
    ExecutionRecord(op, taskId, workspaceId, bootId, None, Prepared, toolKind, inputHmac,
                    now, None, None, None, None, None, None, false, None, None)
  }

  /** prepare answers for an existing receipt only if it is the same execution. */
  predicate SameExecution(r: ExecutionRecord, taskId: Uuid, workspaceId: Uuid, toolKind: ToolKind, inputHmac: Hmac) {
    r.taskId == taskId && r.workspaceId == workspaceId && r.toolKind == toolKind && r.inputHmac == inputHmac
  }

  /** Each of these returns the record unchanged when the operation leaves it alone. */
  function Started(r: ExecutionRecord, sessionId: string, now: Time): ExecutionRecord {
    if r.state != Prepared then r else r.(sessionId := Some(sessionId), state := Running, startedAt := Some(now))
  }

  function FailedToSpawn(r: ExecutionRecord, errorCode: string, now: Time): ExecutionRecord {
    if r.state != Prepared then r else r.(state := SpawnFailed, endedAt := Some(now), errorCode := Some(errorCode))
  }

  function Terminal(r: ExecutionRecord, bootId: Uuid, o: Observation, now: Time): ExecutionRecord {
    if r.state == Exited || r.state == SpawnFailed || (r.state == Unknown && r.bootId != bootId) then r
    else r.(sessionId := Some(o.sessionId),
            state := if o.spawnFailed then SpawnFailed else Exited,
            startedAt := if r.startedAt.Some? then r.startedAt else Some(r.preparedAt),
            endedAt := Some(now), exitCode := o.exitCode, signal := o.signal, timedOut := Some(o.timedOut),
            outputBytes := Some(o.totalOutputBytes),
            errorCode := if o.errorCode.Some? then o.errorCode else r.errorCode)
  }

  function Degraded(r: ExecutionRecord): ExecutionRecord { r.(degraded := true) }

  function Resolve(r: ExecutionRecord, resolution: Reconciliation): ExecutionRecord {
    if r.callerResolution.Some? then r else r.(callerResolution := Some(resolution))
  }

  /** `#recoverPreviousBootExecutions` on one receipt. */
  function AfterBoot(r: ExecutionRecord, bootId: Uuid, now: Time): ExecutionRecord {
    if (r.state == Prepared || r.state == Running) && r.bootId != bootId then
      r.(state := Unknown, endedAt := if r.endedAt.Some? then r.endedAt else Some(now),
         errorCode := if r.errorCode.Some? then r.errorCode else Some("previous_boot_unsettled"))
    else r
  }

  // ------------------------------------------------------------------------------ what never changes

  predicate SameOwner(a: ExecutionRecord, b: ExecutionRecord) {
    && b.operationId == a.operationId && b.taskId == a.taskId && b.workspaceId == a.workspaceId && b.bootId == a.bootId
    && b.toolKind == a.toolKind && b.inputHmac == a.inputHmac && b.preparedAt == a.preparedAt
  }

  // ------------------------------------------------------------------- what each operation has to do

  predicate SameEnd(a: ExecutionRecord, b: ExecutionRecord) {
    && b.endedAt == a.endedAt && b.errorCode == a.errorCode && b.exitCode == a.exitCode && b.signal == a.signal
    && b.timedOut == a.timedOut && b.outputBytes == a.outputBytes
  }

  predicate SameNotes(a: ExecutionRecord, b: ExecutionRecord) {
    b.degraded == a.degraded && b.callerResolution == a.callerResolution
  }

  /** The receipt of an execution that was asked for now and has not begun. */
  predicate JustPrepared(r: ExecutionRecord, op: Uuid, taskId: Uuid, workspaceId: Uuid, bootId: Uuid,
                         toolKind: ToolKind, inputHmac: Hmac, now: Time) {
    && r.operationId == op && SameExecution(r, taskId, workspaceId, toolKind, inputHmac) && r.bootId == bootId
    && r.state == Prepared && r.preparedAt == now && r.sessionId.None? && r.startedAt.None? && r.endedAt.None?
    && r.exitCode.None? && r.signal.None? && r.timedOut.None? && r.outputBytes.None? && r.errorCode.None?
    && !r.degraded && r.callerResolution.None?
  }

  /** A prepared receipt runs from now on in this session; any other is as it was. */
  predicate RunsFromNow(a: ExecutionRecord, b: ExecutionRecord, sessionId: string, now: Time) {
    if a.state == Prepared then
      && SameOwner(a, b) && SameEnd(a, b) && SameNotes(a, b)
      && b.state == Running && b.sessionId == Some(sessionId) && b.startedAt == Some(now)
    else b == a
  }

  /** A prepared receipt has ended now without ever running; any other is as it was. */
  predicate NeverRan(a: ExecutionRecord, b: ExecutionRecord, errorCode: string, now: Time) {
    if a.state == Prepared then
      && SameOwner(a, b) && SameNotes(a, b) && b.sessionId == a.sessionId && b.startedAt == a.startedAt
      && b.state == SpawnFailed && b.endedAt == Some(now) && b.errorCode == Some(errorCode)
      && b.exitCode == a.exitCode && b.signal == a.signal && b.timedOut == a.timedOut && b.outputBytes == a.outputBytes
    else b == a
  }

  /** What was observed of the end is what the receipt says; one that had ended, or an earlier boot's, is as it was. */
  predicate EndsAsObserved(a: ExecutionRecord, b: ExecutionRecord, bootId: Uuid, o: Observation, now: Time) {
    if a.state == Prepared || a.state == Running || (a.state == Unknown && a.bootId == bootId) then
      && SameOwner(a, b) && SameNotes(a, b)
      && (b.state == SpawnFailed <==> o.spawnFailed) && (b.state == Exited <==> !o.spawnFailed)
      && b.sessionId == Some(o.sessionId) && b.exitCode == o.exitCode && b.signal == o.signal
      && b.timedOut == Some(o.timedOut) && b.outputBytes == Some(o.totalOutputBytes)
      && b.endedAt == Some(now)
      && (a.startedAt.Some? ==> b.startedAt == a.startedAt)
      && (a.startedAt.None? ==> b.startedAt == Some(a.preparedAt))
      && (o.errorCode.Some? ==> b.errorCode == o.errorCode) && (o.errorCode.None? ==> b.errorCode == a.errorCode)
    else b == a
  }

  /** A receipt an earlier boot left open is unknown from now on; any other is as it was. */
  predicate SettledByBoot(a: ExecutionRecord, b: ExecutionRecord, bootId: Uuid, now: Time) {
    if a.bootId != bootId && (a.state == Prepared || a.state == Running) then
      && SameOwner(a, b) && SameNotes(a, b) && b.sessionId == a.sessionId && b.startedAt == a.startedAt
      && b.state == Unknown
      && (a.endedAt.Some? ==> b.endedAt == a.endedAt) && (a.endedAt.None? ==> b.endedAt == Some(now))
      && (a.errorCode.Some? ==> b.errorCode == a.errorCode)
      && (a.errorCode.None? ==> b.errorCode == Some("previous_boot_unsettled"))
      && b.exitCode == a.exitCode && b.signal == a.signal && b.timedOut == a.timedOut && b.outputBytes == a.outputBytes
    else b == a
  }

  /** The receipt has the resolution it had, or else this one; nothing besides changed. */
  predicate ResolvedAs(a: ExecutionRecord, b: ExecutionRecord, resolution: Reconciliation) {
    && SameOwner(a, b) && SameEnd(a, b) && b.state == a.state && b.sessionId == a.sessionId
    && b.startedAt == a.startedAt && b.degraded == a.degraded
    && (a.callerResolution.Some? ==> b.callerResolution == a.callerResolution)
    && (a.callerResolution.None? ==> b.callerResolution == Some(resolution))
  }

  predicate Final(state: ExecutionState) { state in {Exited, SpawnFailed, Unknown} }

  /** No receipt of the present boot is unknown: only a later boot says so. */
  predicate BootOk(r: ExecutionRecord, bootId: Uuid) {
    r.state == Unknown ==> r.bootId != bootId
  }

  /** From a to b: owner and input kept, a final state kept, a resolution kept, still well formed. */
  ghost predicate Evolves(a: ExecutionRecord, b: ExecutionRecord) {
    && SameOwner(a, b)
    && (Final(a.state) ==> b.state == a.state)
    && (a.callerResolution.Some? ==> b.callerResolution == a.callerResolution)
    && (ExecutionOk(a) ==> ExecutionOk(b))
  }

  lemma EvolutionIsTransitive(a: ExecutionRecord, b: ExecutionRecord, c: ExecutionRecord)
    requires Evolves(a, b) && Evolves(b, c)
    ensures Evolves(a, c)
  {
  }

  /** Every recorder operation, started in any boot, moves a well-formed receipt along. */
  lemma OperationsEvolve(r: ExecutionRecord, bootId: Uuid, sessionId: string, o: Observation,
                         resolution: Reconciliation, code: string, now: Time)
    requires ExecutionOk(r) && BootOk(r, bootId) && sessionId != ""
    ensures Evolves(r, Started(r, sessionId, now)) && BootOk(Started(r, sessionId, now), bootId)
    ensures Evolves(r, FailedToSpawn(r, code, now)) && BootOk(FailedToSpawn(r, code, now), bootId)
    ensures Evolves(r, Terminal(r, bootId, o, now)) && BootOk(Terminal(r, bootId, o, now), bootId)
    ensures Evolves(r, Degraded(r)) && BootOk(Degraded(r), bootId)
    ensures r.state == Unknown && resolution.operationId == r.operationId ==>
      Evolves(r, Resolve(r, resolution)) && BootOk(Resolve(r, resolution), bootId)
    ensures Evolves(r, AfterBoot(r, bootId, now)) && BootOk(AfterBoot(r, bootId, now), bootId)
  {
  }

  /** None of them touches the owner or the resolution. */
  lemma StartedKeepsRefs(r: ExecutionRecord, sessionId: string, now: Time)
    ensures SameRefs(r, Started(r, sessionId, now)) && RunsFromNow(r, Started(r, sessionId, now), sessionId, now)
    ensures ExecutionOk(r) && sessionId != "" ==> ExecutionOk(Started(r, sessionId, now))
  {
  }

  lemma FailedKeepsRefs(r: ExecutionRecord, code: string, now: Time)
    ensures NeverRan(r, FailedToSpawn(r, code, now), code, now)
    ensures SameRefs(r, FailedToSpawn(r, code, now)) && (ExecutionOk(r) ==> ExecutionOk(FailedToSpawn(r, code, now)))
  {
  }

  lemma TerminalKeepsRefs(r: ExecutionRecord, bootId: Uuid, o: Observation, now: Time)
    ensures SameRefs(r, Terminal(r, bootId, o, now))
    ensures EndsAsObserved(r, Terminal(r, bootId, o, now), bootId, o, now)
    ensures ExecutionOk(r) && BootOk(r, bootId) ==> ExecutionOk(Terminal(r, bootId, o, now))
  {
  }

  lemma BootSettles(r: ExecutionRecord, bootId: Uuid, now: Time)
    ensures SettledByBoot(r, AfterBoot(r, bootId, now), bootId, now)
  {
  }

  lemma NewIsNotGranted(s: DiskState, receipts: Receipts, granted: set<Uuid>, op: Uuid)
    requires Shows(s, receipts) && Permanent(s, None, granted) && op !in receipts
    ensures op !in granted
  {
    assert MayBecome(s, None, Receipt(op), Seen(s, Live(Receipt(op))));
  }

  lemma IndexedIsFound(s: DiskState, receipts: Receipts, op: Uuid)
    requires Shows(s, receipts) && op in receipts
    ensures Possible(s, None, op, receipts[op]) && receipts[op].operationId == op && Seen(s, Live(Receipt(op))).Some?
    ensures VisibleReceipt(s, op) == Some(receipts[op])
  {
    WrittenOwnerExists(s, receipts, op);
  }

  lemma NotIndexedIsNotFound(s: DiskState, receipts: Receipts, op: Uuid)
    requires Shows(s, receipts) && op !in receipts
    ensures VisibleReceipt(s, op).None?
  {
  }

  /** The checks of `writeExecution` accept a later version of a receipt that was found durable. */
  lemma ReplacementIsAccepted(s: DiskState, now: DiskState, workspaceId: Uuid, current: ExecutionRecord,
                              updated: ExecutionRecord)
    requires Sound(now, None, workspaceId) && AddsReceipt(s, now, updated) && SameRefs(current, updated)
    requires ExecutionOk(updated)
    requires VisibleReceipt(s, updated.operationId) == Some(current) && Durable(s, Live(Receipt(updated.operationId)))
    ensures StateOf(now).Ok?
    ensures forall receipts :: Shows(now, receipts) ==> AcceptsExecution(updated, StateOf(now).value, receipts)
  {
    var op := updated.operationId;
    assert MayBecome(now, None, Receipt(op), Seen(now, Live(Receipt(op))));
    VisibleReads(now, workspaceId);
    forall receipts | Shows(now, receipts) ensures AcceptsExecution(updated, StateOf(now).value, receipts) {
      assert op in receipts && SameRefs(receipts[op], updated);
      RenewalIsAccepted(now, workspaceId, receipts, updated);
    }
  }

  // ------------------------------------------------------------------------------------ the recorder

  function VisibleReceipt(s: DiskState, op: Uuid): Option<ExecutionRecord> {
    match Seen(s, Live(Receipt(op)))
    case None => None
    case Some(f) => match ParseExecution(f) case Ok(record) => Some(record) case Err(_) => None
  }

  /** These receipts exist whatever happens next. */
  ghost predicate Permanent(s: DiskState, inflight: Option<Journal>, granted: set<Uuid>) {
    forall op, c :: op in granted && MayBecome(s, inflight, Receipt(op), c) ==> c.Some?
  }

  /** No file but this receipt can come out differently. */
  ghost predicate OnlyReceipt(s: DiskState, inflight: Option<Journal>, after: DiskState, inflightAfter: Option<Journal>,
                              op: Uuid) {
    forall t, c :: t != Receipt(op) && MayBecome(after, inflightAfter, t, c) ==> MayBecome(s, inflight, t, c)
  }

  /** At most this version of this receipt became possible. */
  ghost predicate AtMost(s: DiskState, inflight: Option<Journal>, after: DiskState, inflightAfter: Option<Journal>,
                         op: Uuid, a: Option<ExecutionRecord>) {
    && OnlyReceipt(s, inflight, after, inflightAfter, op)
    && forall c :: MayBecome(after, inflightAfter, Receipt(op), c) ==>
        MayBecome(s, inflight, Receipt(op), c) || (a.Some? && c == Some(ReceiptFile(a.value)))
  }

  lemma AtMostAfterSync(s: DiskState, synced: DiskState, now: DiskState, inflight: Option<Journal>, op: Uuid,
                        a: Option<ExecutionRecord>)
    requires Calmer(s, synced) && AtMost(synced, None, now, inflight, op, a)
    ensures AtMost(s, None, now, inflight, op, a)
  {
  }

  lemma SyncIsAtMost(s: DiskState, synced: DiskState, op: Uuid, a: Option<ExecutionRecord>)
    requires Calmer(s, synced)
    ensures AtMost(s, None, synced, None, op, a)
  {
  }

  lemma DurableIsOnDisk(s: DiskState, receipts: Receipts, op: Uuid)
    requires Shows(s, receipts) && op in receipts && Durable(s, Live(Receipt(op)))
    ensures OnDisk(s, None, op, receipts[op])
  {
  }

  /** The visible snapshot says that the task is the active one. */
  predicate HasActive(s: DiskState, taskId: Uuid) {
    StateOf(s).Ok? && StateOf(s).value.activeTaskId == Some(taskId)
  }

  /** The operation has a receipt, of another execution. */
  predicate UsedForAnother(s: DiskState, op: Uuid, taskId: Uuid, workspaceId: Uuid, toolKind: ToolKind,
                           inputHmac: Hmac) {
    match VisibleReceipt(s, op)
    case None => false
    case Some(record) => !SameExecution(record, taskId, workspaceId, toolKind, inputHmac)
  }

  /** What a first receipt does to the next boot: it can fail the full check exactly when another task's receipt may
      name it. */
  ghost predicate Foreseen(s: DiskState, inflight: Option<Journal>, workspaceId: Uuid, first: ExecutionRecord,
                           granted: bool) {
    && (!PossiblyForeign(s, inflight, first) ==> Sound(s, inflight, workspaceId))
    && (granted ==> (AlwaysValid(s, inflight, workspaceId) <==> !PossiblyForeign(s, inflight, first)))
  }

  datatype Preparation = Preparation(record: ExecutionRecord, shouldSpawn: bool)

  class Recorder {
    const store: Store
    /** The operations some caller was told to spawn, in this boot or an earlier one. */
    ghost var granted: set<Uuid>

    ghost predicate Valid()
      reads this, store, store.writer, store.writer.volume, store.index
    {
      store.Valid() && Permanent(store.writer.volume.s, store.inflight, granted)
    }

    constructor (store: Store, ghost granted: set<Uuid>)
      requires store.Valid() && Permanent(store.writer.volume.s, store.inflight, granted)
      ensures Valid() && this.store == store && this.granted == granted
    {
      this.store, this.granted := store, granted;
    }

    /**
      * `prepare`, under the workspace lock and then the execution lock. It tells at most one caller, ever,
      * to spawn an operation, and only when the receipt of that operation is durable.
      */
    method Prepare(identity: WorkspaceIdentity, taskId: Uuid, op: Uuid, toolKind: ToolKind, inputHmac: Hmac, now: Time)
      returns (r: Reply<Preparation>)
      requires Valid() && identity.workspaceId == store.workspaceId
      modifies this, store, store.writer, store.writer.volume`s, store.index
      ensures store.index == null || store.index == old(store.index) || fresh(store.index)
      ensures Valid()
      ensures old(store.inflight.None?) ==> store.inflight.None?
      ensures AtMost(old(store.writer.volume.s), old(store.inflight), store.writer.volume.s, store.inflight, op,
                     Some(FirstReceipt(op, taskId, store.workspaceId, store.bootId, toolKind, inputHmac, now)))
      ensures r.Ok? && r.value.shouldSpawn ==>
        && op !in old(granted) && granted == old(granted) + {op}
        && r.value.record == FirstReceipt(op, taskId, store.workspaceId, store.bootId, toolKind, inputHmac, now)
        && JustPrepared(r.value.record, op, taskId, store.workspaceId, store.bootId, toolKind, inputHmac, now)
      ensures !(r.Ok? && r.value.shouldSpawn) ==> granted == old(granted)
      ensures r.Ok? ==> OnDisk(store.writer.volume.s, store.inflight, op, r.value.record)
      ensures r.Ok? ==> SameExecution(r.value.record, taskId, store.workspaceId, toolKind, inputHmac)
      ensures r.Ok? ==> HasActive(store.writer.volume.s, taskId)
      ensures old(store.Consistent()) ==>
        Foreseen(store.writer.volume.s, store.inflight, store.workspaceId,
                 FirstReceipt(op, taskId, store.workspaceId, store.bootId, toolKind, inputHmac, now),
                   r.Ok? && r.value.shouldSpawn)
      ensures old(store.Consistent()) && r.Ok? && !r.value.shouldSpawn ==> store.Consistent()
      ensures r.Err? && old(store.Consistent()) && store.writer.volume.calm ==>
        || store.Stuck() || r == Err(StorageFull)
        || !HasActive(store.writer.volume.s, taskId)
        || UsedForAnother(store.writer.volume.s, op, taskId, store.workspaceId, toolKind, inputHmac)
        || store.Unacceptable(FirstReceipt(op, taskId, store.workspaceId, store.bootId, toolKind, inputHmac, now))
    {
      hide Sound, StoreOk, WorkspaceOk, ExecutionOk, AlwaysValid, PossiblyForeign, AcceptsExecution, MayBecome, Shows;
      ghost var s0, pending := store.writer.volume.s, store.inflight;
      var active := RequireActive(identity, taskId);
      if Sound(s0, pending, store.workspaceId) {
        NothingNewIsSound(s0, pending, store.writer.volume.s, store.inflight, store.workspaceId);
      }
      if active.Err? { return Err(active.error); }
      r := PrepareActive(taskId, op, toolKind, inputHmac, now);
    }

    /** `prepare` once the task is known to be the active one, in a durable snapshot. */
    method PrepareActive(taskId: Uuid, op: Uuid, toolKind: ToolKind, inputHmac: Hmac,
                         now: Time) returns (r: Reply<Preparation>)
      requires Valid() && store.inflight.None? && Durable(store.writer.volume.s, Live(StateJson))
      requires HasActive(store.writer.volume.s, taskId)
      modifies this, store, store.writer, store.writer.volume`s, store.index
      ensures store.index == null || store.index == old(store.index) || fresh(store.index)
      ensures Valid() && store.inflight.None?
      ensures AtMost(old(store.writer.volume.s), None, store.writer.volume.s, store.inflight, op,
                     Some(FirstReceipt(op, taskId, store.workspaceId, store.bootId, toolKind, inputHmac, now)))
      ensures r.Ok? && r.value.shouldSpawn ==>
        && op !in old(granted) && granted == old(granted) + {op}
        && r.value.record == FirstReceipt(op, taskId, store.workspaceId, store.bootId, toolKind, inputHmac, now)
        && JustPrepared(r.value.record, op, taskId, store.workspaceId, store.bootId, toolKind, inputHmac, now)
      ensures !(r.Ok? && r.value.shouldSpawn) ==> granted == old(granted)
      ensures r.Ok? ==> OnDisk(store.writer.volume.s, store.inflight, op, r.value.record)
      ensures r.Ok? ==> SameExecution(r.value.record, taskId, store.workspaceId, toolKind, inputHmac)
      ensures r.Ok? ==> HasActive(store.writer.volume.s, taskId)
      ensures old(store.Consistent()) ==>
        Foreseen(store.writer.volume.s, store.inflight, store.workspaceId,
                 FirstReceipt(op, taskId, store.workspaceId, store.bootId, toolKind, inputHmac, now),
                   r.Ok? && r.value.shouldSpawn)
      ensures old(store.Consistent()) && r.Ok? && !r.value.shouldSpawn ==> store.Consistent()
      ensures r.Err? && old(store.Consistent()) && store.writer.volume.calm ==>
        || r == Err(StorageFull)
        || UsedForAnother(store.writer.volume.s, op, taskId, store.workspaceId, toolKind, inputHmac)
        || store.Unacceptable(FirstReceipt(op, taskId, store.workspaceId, store.bootId, toolKind, inputHmac, now))
    {
      hide Sound, StoreOk, WorkspaceOk, ExecutionOk, AlwaysValid, PossiblyForeign, AcceptsExecution, MayBecome, Shows,
        ParseExecution;
      ghost var s1 := store.writer.volume.s;
      var existing := store.ReadExecution(op);
      if Sound(s1, None, store.workspaceId) { CalmIsSound(s1, store.writer.volume.s, store.workspaceId); }
      ghost var s2 := store.writer.volume.s;
      SyncIsAtMost(s1, s2, op,
                   Some(FirstReceipt(op, taskId, store.workspaceId, store.bootId, toolKind, inputHmac, now)));
      if existing.Err? { return Err(existing.error); }
      if existing.value.Some? {
        IndexedIsFound(s2, store.receipts, op);
        DurableIsOnDisk(s2, store.receipts, op);
        var record := existing.value.value;
        if record.taskId != taskId || record.workspaceId != store.workspaceId || record.toolKind != toolKind
          || record.inputHmac != inputHmac {
          return Err(IdempotencyConflict);
        }
        return Ok(Preparation(existing.value.value, false));
      }
      r := Grant(FirstReceipt(op, taskId, store.workspaceId, store.bootId, toolKind, inputHmac, now));
      AtMostAfterSync(s1, s2, store.writer.volume.s, store.inflight, op,
                      Some(FirstReceipt(op, taskId, store.workspaceId, store.bootId, toolKind, inputHmac, now)));
    }

    method RequireActive(identity: WorkspaceIdentity, taskId: Uuid) returns (r: Reply<()>)
      requires Valid() && identity.workspaceId == store.workspaceId
      modifies store, store.writer, store.writer.volume`s
      ensures store.index == null || store.index == old(store.index) || fresh(store.index)
      ensures Valid()
      ensures NoNewOutcome(old(store.writer.volume.s), old(store.inflight), store.writer.volume.s, store.inflight)
      ensures old(store.inflight.None?) ==>
        store.inflight.None? && Calmer(old(store.writer.volume.s), store.writer.volume.s)
      ensures r.Ok? ==>
        store.inflight.None? && StateOf(store.writer.volume.s).Ok? && Durable(store.writer.volume.s, Live(StateJson))
      ensures r.Ok? ==> StateOf(store.writer.volume.s).value.activeTaskId == Some(taskId)
      ensures r.Err? && old(store.Consistent()) && store.writer.volume.calm ==>
        store.Stuck() || !HasActive(store.writer.volume.s, taskId)
    {
      var state := store.ReadWorkspace(identity);
      if state.Err? { return Err(state.error); }
      if taskId !in state.value.tasks { return Err(UnknownTask); }
      if state.value.tasks[taskId].status != Active || state.value.activeTaskId != Some(taskId) {
        return Err(TaskClosed);
      }
      return Ok(());
    }

    /** The first receipt of an operation that has none. */
    method Grant(record: ExecutionRecord) returns (r: Reply<Preparation>)
      requires Valid() && store.inflight.None? && record.workspaceId == store.workspaceId
      requires store.index != null && record.operationId !in store.receipts
      modifies this, store, store.writer, store.writer.volume`s, store.index
      ensures store.index == null || store.index == old(store.index) || fresh(store.index)
      ensures Valid() && store.inflight.None?
      ensures AtMost(old(store.writer.volume.s), None, store.writer.volume.s, store.inflight, record.operationId,
        Some(record))
      ensures if r.Ok? then r.value == Preparation(record, true) && record.operationId !in old(granted)
        && granted == old(granted) + {record.operationId}
        && OnDisk(store.writer.volume.s, store.inflight, record.operationId, record)
        else granted == old(granted)
      ensures r.Ok? && old(Durable(store.writer.volume.s, Live(StateJson))) ==>
        Seen(store.writer.volume.s, Live(StateJson)) == old(Seen(store.writer.volume.s, Live(StateJson)))
      ensures old(store.Consistent() && Durable(store.writer.volume.s, Live(StateJson))) ==>
        Foreseen(store.writer.volume.s, store.inflight, store.workspaceId, record, r.Ok?)
      ensures r.Err? && old(store.Consistent()) && store.writer.volume.calm ==>
        r == Err(StorageFull) || store.Unacceptable(record)
    {
      hide Sound, StoreOk, WorkspaceOk, ExecutionOk, AlwaysValid, PossiblyForeign, AcceptsExecution, Shows;
      var op := record.operationId;
      NewIsNotGranted(store.writer.volume.s, store.receipts, granted, op);
      ghost var before;
      var written;
      written, before := store.WriteExecution(record);
      if written.Err? { return Err(written.error); }
      assert MayBecome(store.writer.volume.s, None, StateJson, Seen(store.writer.volume.s, Live(StateJson)));
      granted := granted + {op};
      return Ok(Preparation(record, true));
    }

    /** `require`. */
    method Require(op: Uuid) returns (r: Reply<ExecutionRecord>)
      requires Valid()
      modifies store, store.writer, store.writer.volume`s
      ensures store.index == null || store.index == old(store.index) || fresh(store.index)
      ensures Valid()
      ensures NoNewOutcome(old(store.writer.volume.s), old(store.inflight), store.writer.volume.s, store.inflight)
      ensures old(store.inflight.None?) ==>
        store.inflight.None? && Calmer(old(store.writer.volume.s), store.writer.volume.s)
      ensures r.Ok? ==> store.inflight.None? && store.index != null
      ensures r.Ok? ==> VisibleReceipt(store.writer.volume.s, op) == Some(r.value) && ExecutionOk(r.value)
      ensures r.Ok? ==>
        && r.value.operationId == op && r.value.workspaceId == store.workspaceId
        && Durable(store.writer.volume.s, Live(Receipt(op)))
      ensures r.Ok? ==> Possible(old(store.writer.volume.s), old(store.inflight), op, r.value)
      ensures r.Err? ==> StorageFault(r.error)
      ensures r.Err? && old(store.Consistent()) && store.writer.volume.calm ==>
        store.Stuck() || VisibleReceipt(store.writer.volume.s, op).None?
    {
      var current := store.ReadExecution(op);
      if current.Err? { return Err(current.error); }
      if current.value.None? { return Err(StateCorrupt); }
      assert MayBecome(store.writer.volume.s, None, Receipt(op), Seen(store.writer.volume.s, Live(Receipt(op))));
      return Ok(current.value.value);
    }

    /** Writes the record unless the operation left it alone. */
    method Replace(current: ExecutionRecord, updated: ExecutionRecord) returns (r: Reply<ExecutionRecord>)
      requires Valid() && store.inflight.None? && SameRefs(current, updated) && updated.workspaceId == store.workspaceId
      requires updated.operationId == current.operationId
      requires VisibleReceipt(store.writer.volume.s, updated.operationId) == Some(current) && ExecutionOk(current)
      requires Durable(store.writer.volume.s, Live(Receipt(updated.operationId)))
      modifies store, store.writer, store.writer.volume`s, store.index
      ensures store.index == null || store.index == old(store.index) || fresh(store.index)
      ensures Valid() && store.inflight.None?
      ensures AtMost(old(store.writer.volume.s), None, store.writer.volume.s, store.inflight, updated.operationId,
        Some(updated))
      ensures r.Ok? ==>
        r.value == updated && OnDisk(store.writer.volume.s, store.inflight, updated.operationId, updated)
      ensures old(store.Consistent()) ==> store.Consistent()
      ensures r.Err? ==> WriteFault(r.error)
      ensures r.Err? && old(store.Consistent()) && store.writer.volume.calm ==>
        r == Err(StorageFull) || !ExecutionOk(updated)
    {
      hide Sound, StoreOk, WorkspaceOk, AlwaysValid, PossiblyForeign, AcceptsExecution, Shows;
      ghost var s := store.writer.volume.s;
      if updated == current { return Ok(current); }
      ghost var before;
      var written;
      written, before := store.WriteExecution(updated);
      if Sound(s, None, store.workspaceId) && ExecutionOk(updated) {
        ReplacementIsAccepted(s, store.writer.volume.s, store.workspaceId, current, updated);
      }
      if written.Err? { return Err(written.error); }
      return Ok(updated);
    }

    method MarkRunning(op: Uuid, sessionId: string, now: Time)
      returns (r: Reply<ExecutionRecord>, ghost found: Option<ExecutionRecord>)
      requires Valid()
      modifies store, store.writer, store.writer.volume`s, store.index
      ensures store.index == null || store.index == old(store.index) || fresh(store.index)
      ensures Valid()
      ensures old(store.inflight.None?) ==> store.inflight.None?
      ensures found.Some? ==> Possible(old(store.writer.volume.s), old(store.inflight), op, found.value)
      ensures AtMost(old(store.writer.volume.s), old(store.inflight), store.writer.volume.s, store.inflight, op,
                     if found.Some? then Some(Started(found.value, sessionId, now)) else None)
      ensures r.Ok? ==> found.Some? && r.value == Started(found.value, sessionId, now)
      ensures r.Ok? ==> RunsFromNow(found.value, r.value, sessionId, now)
      ensures r.Ok? ==> OnDisk(store.writer.volume.s, store.inflight, op, r.value)
      ensures old(store.Consistent()) ==> store.Consistent()
      ensures r.Err? && old(store.Consistent()) && store.writer.volume.calm ==>
        store.Stuck() || r == Err(StorageFull) || VisibleReceipt(store.writer.volume.s, op).None? || sessionId == ""
    {
      found := None;
      hide Sound, StoreOk, WorkspaceOk, ExecutionOk, SameRefs, MayBecome, Shows, Started, RunsFromNow;
      ghost var s0, pending := store.writer.volume.s, store.inflight;
      r := Require(op);
      if Sound(s0, pending, store.workspaceId) {
        NothingNewIsSound(s0, pending, store.writer.volume.s, store.inflight, store.workspaceId);
      }
      if r.Ok? {
        found := Some(r.value);
        StartedKeepsRefs(r.value, sessionId, now);
        r := Replace(r.value, Started(r.value, sessionId, now));
      }
    }

    method MarkSpawnFailed(op: Uuid, errorCode: string, now: Time)
      returns (r: Reply<ExecutionRecord>, ghost found: Option<ExecutionRecord>)
      requires Valid()
      modifies store, store.writer, store.writer.volume`s, store.index
      ensures store.index == null || store.index == old(store.index) || fresh(store.index)
      ensures Valid()
      ensures old(store.inflight.None?) ==> store.inflight.None?
      ensures found.Some? ==> Possible(old(store.writer.volume.s), old(store.inflight), op, found.value)
      ensures AtMost(old(store.writer.volume.s), old(store.inflight), store.writer.volume.s, store.inflight, op,
                     if found.Some? then Some(FailedToSpawn(found.value, errorCode, now)) else None)
      ensures r.Ok? ==> found.Some? && r.value == FailedToSpawn(found.value, errorCode, now)
      ensures r.Ok? ==> NeverRan(found.value, r.value, errorCode, now)
      ensures r.Ok? ==> OnDisk(store.writer.volume.s, store.inflight, op, r.value)
      ensures old(store.Consistent()) ==> store.Consistent()
      ensures r.Err? && old(store.Consistent()) && store.writer.volume.calm ==>
        store.Stuck() || r == Err(StorageFull) || VisibleReceipt(store.writer.volume.s, op).None?
    {
      found := None;
      hide Sound, StoreOk, WorkspaceOk, ExecutionOk, SameRefs, MayBecome, Shows, FailedToSpawn, NeverRan;
      ghost var s0, pending := store.writer.volume.s, store.inflight;
      r := Require(op);
      if Sound(s0, pending, store.workspaceId) {
        NothingNewIsSound(s0, pending, store.writer.volume.s, store.inflight, store.workspaceId);
      }
      if r.Ok? {
        found := Some(r.value);
        FailedKeepsRefs(r.value, errorCode, now);
        r := Replace(r.value, FailedToSpawn(r.value, errorCode, now));
      }
    }

    method MarkTerminal(op: Uuid, observation: Observation, now: Time)
      returns (r: Reply<ExecutionRecord>, ghost found: Option<ExecutionRecord>)
      requires Valid()
      modifies store, store.writer, store.writer.volume`s, store.index
      ensures store.index == null || store.index == old(store.index) || fresh(store.index)
      ensures Valid()
      ensures old(store.inflight.None?) ==> store.inflight.None?
      ensures found.Some? ==> Possible(old(store.writer.volume.s), old(store.inflight), op, found.value)
      ensures AtMost(old(store.writer.volume.s), old(store.inflight), store.writer.volume.s, store.inflight, op,
                     if found.Some? then Some(Terminal(found.value, store.bootId, observation, now)) else None)
      ensures r.Ok? ==> found.Some? && r.value == Terminal(found.value, store.bootId, observation, now)
      ensures r.Ok? ==> EndsAsObserved(found.value, r.value, store.bootId, observation, now)
      ensures r.Ok? ==> OnDisk(store.writer.volume.s, store.inflight, op, r.value)
      ensures old(store.Consistent()) ==> store.Consistent()
      ensures r.Err? && old(store.Consistent()) && store.writer.volume.calm ==>
        store.Stuck() || r == Err(StorageFull) || VisibleReceipt(store.writer.volume.s, op).None?
          || (found.Some? && !BootOk(found.value, store.bootId))
    {
      found := None;
      hide Sound, StoreOk, WorkspaceOk, ExecutionOk, SameRefs, MayBecome, Shows, Terminal, EndsAsObserved;
      ghost var s0, pending := store.writer.volume.s, store.inflight;
      r := Require(op);
      if Sound(s0, pending, store.workspaceId) {
        NothingNewIsSound(s0, pending, store.writer.volume.s, store.inflight, store.workspaceId);
      }
      if r.Ok? {
        found := Some(r.value);
        TerminalKeepsRefs(r.value, store.bootId, observation, now);
        r := Replace(r.value, Terminal(r.value, store.bootId, observation, now));
      }
    }

    /** `markPersistenceDegraded`: a failure of this write is ignored. */
    method MarkPersistenceDegraded(op: Uuid) returns (r: Reply<()>, ghost found: Option<ExecutionRecord>)
      requires Valid()
      modifies store, store.writer, store.writer.volume`s, store.index
      ensures store.index == null || store.index == old(store.index) || fresh(store.index)
      ensures Valid()
      ensures old(store.inflight.None?) ==> store.inflight.None?
      ensures found.Some? ==> Possible(old(store.writer.volume.s), old(store.inflight), op, found.value)
      ensures AtMost(old(store.writer.volume.s), old(store.inflight), store.writer.volume.s, store.inflight, op,
                     if found.Some? then Some(found.value.(degraded := true)) else None)
      ensures r.Ok? && found.None? ==> VisibleReceipt(store.writer.volume.s, op).None?
      ensures r.Ok? && found.Some? && old(store.Consistent()) && store.writer.volume.calm ==>
        || OnDisk(store.writer.volume.s, store.inflight, op, found.value.(degraded := true))
        || store.writer.OverBudget(Live(Receipt(op)), ReceiptFile(found.value.(degraded := true)))
      ensures old(store.Consistent()) ==> store.Consistent()
      ensures r.Err? && old(store.Consistent()) && store.writer.volume.calm ==> store.Stuck()
    {
      found := None;
      hide Sound, StoreOk, WorkspaceOk, ExecutionOk, AlwaysValid, PossiblyForeign, Shows, MayBecome, OnDisk;
      ghost var s0, pending := store.writer.volume.s, store.inflight;
      var current := store.ReadExecution(op);
      if Sound(s0, pending, store.workspaceId) {
        NothingNewIsSound(s0, pending, store.writer.volume.s, store.inflight, store.workspaceId);
      }
      if current.Err? { return Err(current.error), None; }
      if current.value.Some? {
        found := current.value;
        IndexedIsFound(store.writer.volume.s, store.receipts, op);
        WriteDegraded(current.value.value);
      } else {
        NotIndexedIsNotFound(store.writer.volume.s, store.receipts, op);
      }
      return Ok(()), found;
    }

    /** The write of the flag, whose failure nobody is told of. */
    method WriteDegraded(current: ExecutionRecord)
      requires Valid() && store.inflight.None? && ExecutionOk(current) && current.workspaceId == store.workspaceId
      requires VisibleReceipt(store.writer.volume.s, current.operationId) == Some(current)
      requires Durable(store.writer.volume.s, Live(Receipt(current.operationId)))
      modifies store, store.writer, store.writer.volume`s, store.index
      ensures store.index == null || store.index == old(store.index) || fresh(store.index)
      ensures Valid() && store.inflight.None?
      ensures AtMost(old(store.writer.volume.s), None, store.writer.volume.s, None, current.operationId,
                     Some(current.(degraded := true)))
      ensures old(store.Consistent()) && store.writer.volume.calm ==>
        || OnDisk(store.writer.volume.s, None, current.operationId, current.(degraded := true))
        || store.writer.OverBudget(Live(Receipt(current.operationId)), ReceiptFile(current.(degraded := true)))
      ensures old(store.Consistent()) ==> store.Consistent()
    {
      hide Sound, StoreOk, WorkspaceOk, AlwaysValid, PossiblyForeign, AcceptsExecution, Shows;
      ghost var s := store.writer.volume.s;
      var written;
      ghost var before;
      written, before := store.WriteExecution(Degraded(current));
      if Sound(s, None, store.workspaceId) {
        ReplacementIsAccepted(s, store.writer.volume.s, store.workspaceId, current, Degraded(current));
      }
    }

    /**
      * The receipts an update resolves, each one unknown, of this task, not resolved differently before, and
      * durable. They are read one by one under their execution locks and written only by the commit.
      */
    method WithReconciliations(taskId: Uuid,
                               reconciliations: seq<Reconciliation>) returns (r: Reply<seq<ExecutionRecord>>)
      requires Valid() && store.inflight.None?
      modifies store, store.writer, store.writer.volume`s
      ensures store.index == null || store.index == old(store.index) || fresh(store.index)
      ensures Valid() && store.inflight.None? && Calmer(old(store.writer.volume.s), store.writer.volume.s)
      ensures r.Ok? ==> |r.value| == |reconciliations|
      ensures r.Ok? ==>
        forall i :: 0 <= i < |r.value| ==>
          Reconciled(store.writer.volume.s, store.workspaceId, taskId, reconciliations[i], r.value[i])
      ensures r.Err? ==>
        StorageFault(r.error)
          || (r.error == IdempotencyConflict && SomeUnresolvable(store.writer.volume.s, reconciliations))
      ensures r.Err? && old(store.Consistent()) && store.writer.volume.calm ==>
        r.error == IdempotencyConflict || SomeAstray(store.writer.volume.s, taskId, reconciliations)
    {
      hide Sound, StoreOk, Shows, MayBecome;
      if exists a, b ::
        0 <= a < b < |reconciliations| && reconciliations[a].operationId == reconciliations[b].operationId {
        ghost var a, b :| 0 <= a < b < |reconciliations|
          && reconciliations[a].operationId == reconciliations[b].operationId;
        assert Clash(reconciliations, a, b);
        return Err(IdempotencyConflict);
      }
      var records: seq<ExecutionRecord> := [];
      ghost var s := store.writer.volume.s;
      for i := 0 to |reconciliations|
        invariant Valid() && store.inflight.None? && Calmer(s, store.writer.volume.s) && |records| == i
        invariant store.index == null || store.index == old(store.index) || fresh(store.index)
        invariant forall k :: 0 <= k < i ==>
          Reconciled(store.writer.volume.s, store.workspaceId, taskId, reconciliations[k], records[k])
      {
        ghost var before := store.writer.volume.s;
        if Sound(s, None, store.workspaceId) { CalmIsSound(s, before, store.workspaceId); }
        var one := ReconcileOne(taskId, reconciliations[i]);
        if one.Err? { return Err(one.error); }
        forall k | 0 <= k < i
          ensures Reconciled(store.writer.volume.s, store.workspaceId, taskId, reconciliations[k], records[k])
        {
          ReconciledStays(before, store.writer.volume.s, store.workspaceId, taskId, reconciliations[k], records[k]);
        }
        records := records + [one.value];
      }
      return Ok(records);
    }

    method ReconcileOne(taskId: Uuid, resolution: Reconciliation) returns (r: Reply<ExecutionRecord>)
      requires Valid() && store.inflight.None?
      modifies store, store.writer, store.writer.volume`s
      ensures store.index == null || store.index == old(store.index) || fresh(store.index)
      ensures Valid() && store.inflight.None? && Calmer(old(store.writer.volume.s), store.writer.volume.s)
      ensures r.Ok? ==> Reconciled(store.writer.volume.s, store.workspaceId, taskId, resolution, r.value)
      ensures r.Err? ==>
        StorageFault(r.error) || (r.error == IdempotencyConflict && Unresolvable(store.writer.volume.s, resolution))
      ensures r.Err? && old(store.Consistent()) && store.writer.volume.calm ==>
        r.error == IdempotencyConflict || IsAstray(store.writer.volume.s, taskId, resolution)
    {
      hide Sound, StoreOk, Shows, MayBecome;
      r := Require(resolution.operationId);
      if r.Err? { return; }
      var current := r.value;
      if current.taskId != taskId { return Err(WorkspaceMismatch); }
      if current.state != Unknown { return Err(IdempotencyConflict); }
      if current.callerResolution.Some?
         && current.callerResolution.value.(recordedAt := resolution.recordedAt) != resolution {
        return Err(IdempotencyConflict);
      }
      return Ok(Resolve(current, resolution));
    }
  }

  /** Equal but for the time of recording. */
  predicate SameResolution(a: Reconciliation, b: Reconciliation) {
    && a.operationId == b.operationId && a.resolution == b.resolution && a.evidenceRefs == b.evidenceRefs
    && a.note == b.note
  }

  /** The receipt is not unknown, or already resolved differently. */
  predicate Unresolvable(s: DiskState, resolution: Reconciliation) {
    match VisibleReceipt(s, resolution.operationId)
    case None => false
    case Some(current) =>
      current.state != Unknown
        || (current.callerResolution.Some? && !SameResolution(current.callerResolution.value, resolution))
  }

  /** The task has no such receipt. */
  predicate IsAstray(s: DiskState, taskId: Uuid, resolution: Reconciliation) {
    match VisibleReceipt(s, resolution.operationId) case None => true case Some(current) => current.taskId != taskId
  }

  predicate SomeAstray(s: DiskState, taskId: Uuid, resolutions: seq<Reconciliation>) {
    exists i {:trigger resolutions[i]} :: 0 <= i < |resolutions| && IsAstray(s, taskId, resolutions[i])
  }

  predicate Clash(resolutions: seq<Reconciliation>, a: nat, b: nat) {
    a < b < |resolutions| && resolutions[a].operationId == resolutions[b].operationId
  }

  ghost predicate SomeUnresolvable(s: DiskState, resolutions: seq<Reconciliation>) {
    || (exists a, b :: Clash(resolutions, a, b))
    || exists i {:trigger Unresolvable(s, resolutions[i])} :: 0 <= i < |resolutions| && Unresolvable(s, resolutions[i])
  }

  ghost predicate Reconciled(s: DiskState, workspaceId: Uuid, taskId: Uuid, resolution: Reconciliation,
                             record: ExecutionRecord) {
    match VisibleReceipt(s, resolution.operationId)
    case None => false
    case Some(current) =>
      && record == Resolve(current, resolution) && ResolvedAs(current, record, resolution)
      && current.operationId == resolution.operationId
      && current.taskId == taskId && current.state == Unknown && current.workspaceId == workspaceId
      && SameResolution(record.callerResolution.value, resolution)
      && Durable(s, Live(Receipt(record.operationId)))
  }

  lemma ReconciledStays(s: DiskState, after: DiskState, workspaceId: Uuid, taskId: Uuid, resolution: Reconciliation,
                        record: ExecutionRecord)
    requires Calmer(s, after) && Reconciled(s, workspaceId, taskId, resolution, record)
    ensures Reconciled(after, workspaceId, taskId, resolution, record)
  {
  }
}
