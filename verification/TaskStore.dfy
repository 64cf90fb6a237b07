/** `TaskStore` of src/continuity/task-store.ts for one workspace directory. */
module TaskStore {
  import opened Wrappers
  import opened TaskTypes
  import opened StorageSchema
  import opened Durability
  import opened AtomicWriter
  import opened StorageJournal
  import Migrations = StorageMigration
  import opened Ownership
  import opened ExecutionIndex
  import opened StoreOutcomes
  import opened Soundness

  predicate OwnersUnchanged(records: seq<ExecutionRecord>, byOperation: map<Uuid, Locator>) {
    forall record :: record in records && record.operationId in byOperation ==>
      byOperation[record.operationId].taskId == record.taskId
  }

  /** An atomic write of one live file, seen from outside. */
  method PutFile(w: Writer, workspaceId: Uuid, t: Target, f: File) returns (r: Outcome)
    requires w.Valid() && StoreOk(w.volume.s, None, workspaceId)
    modifies w, w.volume`s
    ensures w.Valid() && StoreOk(w.volume.s, None, workspaceId)
    ensures forall u, c :: MayBecome(w.volume.s, None, u, c) ==>
      old(MayBecome(w.volume.s, None, u, c)) || (u == t && c == Some(f))
    ensures SameLive(old(w.volume.s), w.volume.s) || OnlyChanged(old(w.volume.s), w.volume.s, t, f)
    ensures Attempted(old(w.volume.s), w.volume.s, Live(t), Some(f))
    ensures r.Refused? ==> r == Refused(StorageFull) && w.volume.s == old(w.volume.s) && w.OverBudget(Live(t), f)
    ensures r.Done? ==> w.bytesUsed <= old(w.bytesUsed) + w.size(f)
    ensures r.Refused? ==> w.bytesUsed == old(w.bytesUsed)
    ensures w.volume.calm ==> !r.Fault?
    ensures r.Done? ==> Settled(w.volume.s, Live(t), Some(f)) && OnlyChanged(old(w.volume.s), w.volume.s, t, f)
  {
    ghost var s := w.volume.s;
    r := w.AtomicWrite(Live(t), f);
    WriteOutcome(s, w.volume.s, t, f, workspaceId);
  }

  /** `#recoverTransactionsLocked` on this workspace. */
  method RecoverWorkspace(w: Writer, workspaceId: Uuid, ghost inflight: Option<Journal>) returns (done: bool)
    requires w.Valid() && StoreOk(w.volume.s, inflight, workspaceId)
    modifies w, w.volume`s
    ensures w.Valid() && StoreOk(w.volume.s, if done then None else inflight, workspaceId)
    ensures NoNewOutcome(old(w.volume.s), inflight, w.volume.s, if done then None else inflight)
    ensures inflight.None? ==> Calmer(old(w.volume.s), w.volume.s)
    ensures !done && w.volume.calm ==>
      inflight.Some? && Blocked(w, inflight.value) && !old(RoomFor(w, inflight.value, 0))
  {
    ghost var s := w.volume.s;
    w.durableFiles := {};
    ghost var j := if inflight.Some? then inflight.value else Journal(0, 0, []);
    var r := RecoverJournals(w, workspaceId, j);
    if inflight.Some? {
      RecoveryAddsNoOutcome(s, w.volume.s, j, workspaceId, r.Done?);
      RecoveredStore(s, w.volume.s, j, workspaceId, r.Done?);
    } else {
      SyncAddsNoOutcome(s, w.volume.s, None, workspaceId);
    }
    return r.Done?;
  }

  /** `#rawExecution`: the receipt as stored, confirmed durable before anyone relies on it. */
  method RawExecution(w: Writer, workspaceId: Uuid, op: Uuid,
                      ghost receipts: Receipts) returns (r: Reply<Option<ExecutionRecord>>)
    requires w.Valid() && Shows(w.volume.s, receipts)
    modifies w, w.volume`s
    ensures w.Valid() && Calmer(old(w.volume.s), w.volume.s) && Shows(w.volume.s, receipts)
    ensures r.Ok? && r.value.None? ==> op !in receipts
    ensures r.Ok? && r.value.Some? ==>
      && op in receipts && receipts[op] == r.value.value
      && Durable(w.volume.s, Live(Receipt(op))) && r.value.value.workspaceId == workspaceId
    ensures r == Err(StateCorrupt) ==> op in receipts && receipts[op].workspaceId != workspaceId
    ensures r.Err? ==> r == Err(StateCorrupt) || (r == Err(PersistenceUnavailable) && !w.volume.calm)
  {
    var ok, raw := w.volume.Read(Live(Receipt(op)));
    if !ok { return Err(PersistenceUnavailable); }
    if raw.None? { return Ok(None); }
    var record := ParseExecution(raw.value);
    if record.Err? || record.value.workspaceId != workspaceId || record.value.operationId != op {
      return Err(StateCorrupt);
    }
    ok := w.ConfirmDurable(Live(Receipt(op)));
    if !ok { return Err(PersistenceUnavailable); }
    return Ok(Some(record.value));
  }

  predicate NewestFirst(records: seq<ExecutionRecord>) {
    forall i, j :: 0 <= i < j < |records| ==> Before(LocatorOf(records[i]), LocatorOf(records[j]))
  }

  /** These are the receipts of these operations. */
  predicate AreThose(records: seq<ExecutionRecord>, ids: set<Uuid>, receipts: Receipts) {
    && (forall record :: record in records ==>
       record.operationId in ids && record.operationId in receipts && receipts[record.operationId] == record)
    && forall op :: op in ids && op in receipts ==> receipts[op] in records
  }

  /** The task has no such receipt. */
  predicate Astray(op: Uuid, receipts: Receipts, taskId: Uuid) { op !in receipts || receipts[op].taskId != taskId }

  predicate Picked(ids: seq<Uuid>, receipts: Receipts, records: seq<ExecutionRecord>) {
    |records| == |ids| && forall i :: 0 <= i < |ids| ==> ids[i] in receipts && records[i] == receipts[ids[i]]
  }

  lemma PickedAreVisible(ids: seq<Uuid>, receipts: Receipts, records: seq<ExecutionRecord>)
    requires Picked(ids, receipts, records) && KeyedByOperation(receipts)
    ensures var m := ByOperation(records); forall op :: op in m ==> op in receipts && m[op] == receipts[op]
  {
    var m := ByOperation(records);
    forall op | op in m ensures op in receipts && m[op] == receipts[op] {
      var i :| 0 <= i < |records| && records[i] == m[op];
    }
  }

  lemma ViewedAreListed(view: seq<Locator>, receipts: Receipts, taskId: Uuid)
    requires Elements(view) == Locators(receipts, taskId) && KeyedByOperation(receipts)
    ensures Elements(Operations(view)) == TaskOperations(receipts, taskId)
  {
    forall op ensures op in Operations(view) <==> op in TaskOperations(receipts, taskId) {
      if op in Operations(view) {
        var i :| 0 <= i < |view| && Operations(view)[i] == op;
        assert view[i] in Elements(view);
      }
      if op in TaskOperations(receipts, taskId) {
        assert LocatorOf(receipts[op]) in Elements(view);
        var i :| 0 <= i < |view| && view[i] == LocatorOf(receipts[op]);
        assert Operations(view)[i] == op;
      }
    }
  }

  lemma SelectedInOrder(view: seq<Locator>, receipts: Receipts, taskId: Uuid, records: seq<ExecutionRecord>)
    requires Ordered(view) && Elements(view) == Locators(receipts, taskId) && KeyedByOperation(receipts)
    requires Picked(Operations(view), receipts, records)
    ensures NewestFirst(records) && AreThose(records, TaskOperations(receipts, taskId), receipts)
  {
    ViewedAreListed(view, receipts, taskId);
    forall i | 0 <= i < |view| ensures LocatorOf(records[i]) == view[i] { assert view[i] in Elements(view); }
    forall i | 0 <= i < |records| ensures records[i].operationId == Operations(view)[i] {}
    forall op | op in TaskOperations(receipts, taskId) ensures receipts[op] in records {
      assert op in Elements(Operations(view));
      var i :| 0 <= i < |view| && Operations(view)[i] == op;
    }
  }

  ghost predicate AllDurable(s: DiskState, ids: set<Uuid>) {
    forall op :: op in ids ==> Durable(s, Live(Receipt(op)))
  }

  /** The lookup loop of `#validateSelected`. */
  method ReadReceipts(w: Writer, workspaceId: Uuid, ids: set<Uuid>,
                      ghost receipts: Receipts) returns (r: Reply<Receipts>, ghost foreign: Uuid)
    requires w.Valid() && Shows(w.volume.s, receipts)
    modifies w, w.volume`s
    ensures w.Valid() && Calmer(old(w.volume.s), w.volume.s) && Shows(w.volume.s, receipts)
    ensures r.Ok? ==> r.value == Found(ids, receipts) && AllDurable(w.volume.s, r.value.Keys)
    ensures r == Err(StateCorrupt) ==>
      foreign in ids && foreign in receipts && receipts[foreign].workspaceId != workspaceId
    ensures r.Err? ==> r == Err(StateCorrupt) || (r == Err(PersistenceUnavailable) && !w.volume.calm)
  {
    hide Shows, ExecutionOk;
    ghost var s := w.volume.s;
    foreign := 0;
    var todo := ids;
    var found: Receipts := map[];
    while todo != {}
      invariant w.Valid() && Calmer(s, w.volume.s) && Shows(w.volume.s, receipts)
      invariant todo <= ids && found == Found(ids - todo, receipts) && AllDurable(w.volume.s, found.Keys)
    {
      var op :| op in todo;
      var record := RawExecution(w, workspaceId, op, receipts);
      if record.Err? { foreign := op; return Err(record.error), foreign; }
      if record.value.Some? { found := found[op := record.value.value]; }
      todo := todo - {op};
    }
    assert ids - todo == ids;
    r := Ok(found);
  }

  lemma SameCheck(s: DiskState, after: DiskState, workspaceId: Uuid)
    requires SameLive(s, after) && FullCheck(s, workspaceId)
    ensures FullCheck(after, workspaceId)
  {
    SameLiveSameFiles(s, after);
  }

  lemma FoundAreDurable(s: DiskState, ids: set<Uuid>, receipts: Receipts)
    requires AllDurable(s, Found(ids, receipts).Keys)
    ensures forall op :: op in ids && op in receipts ==> Durable(s, Live(Receipt(op)))
  {
  }

  /** What a receipt write leaves the next boot: refused by it exactly when another task's receipt may name the
      operation. */
  ghost predicate Aftermath(s: DiskState, now: DiskState, workspaceId: Uuid, record: ExecutionRecord, written: bool) {
    && (!PossiblyForeign(now, None, record) ==> Sound(now, None, workspaceId))
    && (Seen(s, Live(Receipt(record.operationId))).Some? ==> Sound(now, None, workspaceId))
    && (written ==> (AlwaysValid(now, None, workspaceId) <==> !PossiblyForeign(now, None, record)))
  }

  lemma NothingWritten(s: DiskState, now: DiskState, workspaceId: Uuid, record: ExecutionRecord)
    requires Sound(s, None, workspaceId) && Calmer(s, now)
    ensures Aftermath(s, now, workspaceId, record, false)
  {
    CalmIsSound(s, now, workspaceId);
  }

  lemma ReceiptAftermath(s: DiskState, read: DiskState, now: DiskState, workspaceId: Uuid, receipts: Receipts,
                         state: WorkspaceState, record: ExecutionRecord, written: bool)
    requires Sound(s, None, workspaceId) && StoreOk(s, None, workspaceId) && Calmer(s, read) && Shows(read, receipts)
    requires StateOf(read) == Ok(state)
    requires Known(s, record.operationId) && record.workspaceId == workspaceId == state.workspace.workspaceId
    requires ExecutionOk(record) && AcceptsExecution(record, state, receipts) && AddsReceipt(read, now, record)
    requires written ==> Settled(now, Live(Receipt(record.operationId)), Some(ReceiptFile(record)))
    ensures Aftermath(s, now, workspaceId, record, written)
  {
    ReceiptWriteDecides(s, read, now, workspaceId, receipts, state, record);
  }

  lemma LastIsSnapshot(j: Journal, s: DiskState, state: WorkspaceState, records: seq<ExecutionRecord>)
    requires Plans(j, s, state, records)
    ensures |j.records| > 0 && j.records[|j.records| - 1].path == StateJson
    ensures forall i :: 0 <= i < |j.records| && j.records[i].path == StateJson ==> i == |j.records| - 1
  {
  }

  lemma OwnerChanged(records: seq<ExecutionRecord>, byOperation: map<Uuid, Locator>, receipts: Receipts)
    requires byOperation == map op | op in receipts :: LocatorOf(receipts[op])
    requires DistinctOperations(records) && !OwnersUnchanged(records, byOperation)
    ensures exists op :: op in ByOperation(records) && !ImmutableOwnerOk(ByOperation(records)[op], receipts)
  {
    ByOperationHas(records);
    var record :| record in records && record.operationId in byOperation
      && byOperation[record.operationId].taskId != record.taskId;
    assert !ImmutableOwnerOk(ByOperation(records)[record.operationId], receipts);
  }

  lemma TransactionIsSound(s: DiskState, after: DiskState, inflight: Option<Journal>, workspaceId: Uuid,
                           receipts: Receipts, state: WorkspaceState, records: seq<ExecutionRecord>, j: Journal)
    requires Sound(s, None, workspaceId) && StoreOk(s, None, workspaceId) && Shows(s, receipts)
    requires Plans(j, s, state, records)
    requires WorkspaceOk(state) && state.workspace.workspaceId == workspaceId && DistinctOperations(records)
    requires AdmittedCommit(state, ByOperation(records), receipts)
    requires forall record :: record in records ==> ExecutionOk(record) && Durable(s, Live(Receipt(record.operationId)))
    requires AllDurable(s, Found(LookedUp(state, ByOperation(records), true), receipts).Keys)
    requires forall t, c :: MayBecome(after, inflight, t, c) ==> MayBecome(s, None, t, c) || Planned(j, t, c)
    ensures Sound(after, inflight, workspaceId)
  {
    hide Sound, WorkspaceOk, SelectedOk, ExecutionOk;
    PlannedTargets(j, s, state, records);
    forall record | record in records
      ensures record.operationId in receipts
    {
      CommitReplaces(j, s, state, records, record);
    }
    FoundAreDurable(s, LookedUp(state, ByOperation(records), true), receipts);
    CommitIsSound(s, after, inflight, workspaceId, receipts, state, records);
  }

  lemma PutIsSound(s: DiskState, after: DiskState, workspaceId: Uuid, receipts: Receipts, state: WorkspaceState)
    requires Sound(s, None, workspaceId) && StoreOk(s, None, workspaceId) && Shows(s, receipts)
    requires WorkspaceOk(state) && state.workspace.workspaceId == workspaceId && AcceptsWorkspace(state, receipts)
    requires AllDurable(s, Found(LookedUp(state, map[], true), receipts).Keys)
    requires forall t, c :: MayBecome(after, None, t, c) ==>
      MayBecome(s, None, t, c) || (t == StateJson && c == Some(StateFile(state)))
    ensures Sound(after, None, workspaceId)
  {
    FoundAreDurable(s, LookedUp(state, map[], true), receipts);
    SnapshotIsSound(s, after, workspaceId, receipts, state);
  }

  class Store {
    const writer: Writer
    const workspaceId: Uuid
    const bootId: Uuid
    var index: WorkspaceExecutionIndex?
    var recoveryRequired: bool
    ghost var inflight: Option<Journal>
    ghost var receipts: Receipts

    ghost predicate Valid()
      reads this, writer, writer.volume, index
    {
      && writer.Valid()
      && StoreOk(writer.volume.s, inflight, workspaceId)
      && (inflight.Some? ==> recoveryRequired)
      && (index != null ==>
            && inflight.None? && Shows(writer.volume.s, receipts)
            && index.Agrees(receipts) && index.tasks == TasksOf(writer.volume.s))
    }

    /** Whatever the disk comes out with, the next boot's full check passes. */
    ghost predicate Consistent()
      reads this, writer, writer.volume
    {
      Sound(writer.volume.s, inflight, workspaceId)
    }

    /** A transaction waits for recovery, and the byte budget keeps recovery from finishing it. */
    ghost predicate Stuck()
      reads this, writer, writer.volume
    {
      inflight.Some? && Blocked(writer, inflight.value)
    }

    /** A new process on the same directory: recovery runs before anything else does. */
    constructor (writer: Writer, workspaceId: Uuid, bootId: Uuid, ghost inflight: Option<Journal>)
      requires writer.Valid() && StoreOk(writer.volume.s, inflight, workspaceId)
      ensures Valid() && this.writer == writer && this.workspaceId == workspaceId && this.bootId == bootId
      ensures this.inflight == inflight && index == null && recoveryRequired
    {
      this.writer, this.workspaceId, this.bootId := writer, workspaceId, bootId;
      this.inflight, index, recoveryRequired := inflight, null, true;
    }

    /** Every operation begins here, under the storage lock: an unfinished transaction is dealt with first. */
    method EnsureRecovered() returns (ok: bool)
      requires Valid()
      modifies this, writer, writer.volume`s
      ensures Valid() && index == old(index) && receipts == old(receipts)
      ensures NoNewOutcome(old(writer.volume.s), old(inflight), writer.volume.s, inflight)
      ensures ok ==> inflight.None? && !recoveryRequired
      ensures old(inflight.None?) ==> inflight.None? && Calmer(old(writer.volume.s), writer.volume.s)
      ensures !ok && writer.volume.calm ==>
        Stuck() && inflight == old(inflight) && !old(RoomFor(writer, inflight.value, 0))
      ensures ok && old(recoveryRequired) ==> writer.bytesUsed <= writer.volume.walk
    {
      hide MayBecome, Blocked, RoomFor, StoreOk;
      if !recoveryRequired { return true; }
      ok := RecoverWorkspace(writer, workspaceId, inflight);
      if !ok { return; }
      recoveryRequired, inflight := false, None;
      ok := writer.Measure();
    }

    /** The full check, and the receipts it read. */
    method ScanFiles() returns (r: Option<Receipts>)
      requires Valid()
      ensures r.Some? <==> FullCheck(writer.volume.s, workspaceId)
      ensures r.Some? ==> Shows(writer.volume.s, r.value)
    {
      var s := writer.volume.s;
      if !Migrations.FilesValid(FilesOf(s), workspaceId) { return None; }
      FullCheckShows(s, workspaceId);
      return Some(Migrations.ReceiptsIn(FilesOf(s)));
    }

    /** `#rebuildIndex`. */
    method RebuildIndex() returns (r: Reply<WorkspaceExecutionIndex>)
      requires Valid() && inflight.None?
      modifies this`index, this`receipts, writer`durableFiles
      ensures Valid()
      ensures r.Ok? ==> index == r.value && fresh(r.value) && FullCheck(writer.volume.s, workspaceId)
      ensures r.Err? ==> index == old(index)
      ensures r == Err(StateCorrupt) ==> !FullCheck(writer.volume.s, workspaceId)
      ensures r.Err? ==> r == Err(StateCorrupt) || (r == Err(PersistenceUnavailable) && !writer.volume.calm)
    {
      writer.durableFiles := {};
      var ok := writer.volume.MaySucceed();  // listing and reading every file
      if !ok { return Err(PersistenceUnavailable); }
      var found := ScanFiles();
      if found.None? { return Err(StateCorrupt); }
      r := AdoptIndex(found.value);
    }

    method AdoptIndex(shown: Receipts) returns (r: Reply<WorkspaceExecutionIndex>)
      requires Valid() && inflight.None? && Shows(writer.volume.s, shown)
      modifies this`index, this`receipts
      ensures Valid() && r == Ok(index) && receipts == shown && fresh(index)
    {
      var rebuilt := Rebuild(shown, TasksOf(writer.volume.s));
      index, receipts := rebuilt, shown;
      return Ok(rebuilt);
    }

    method GetIndex() returns (r: Reply<WorkspaceExecutionIndex>)
      requires Valid() && inflight.None?
      modifies this`index, this`receipts, writer`durableFiles
      ensures Valid()
      ensures r.Ok? ==> index == r.value && (fresh(r.value) || r.value == old(index))
      ensures old(index != null) ==> receipts == old(receipts)
      ensures r.Err? ==> index == old(index) && StorageFault(r.error)
      ensures r.Err? && writer.volume.calm ==> !FullCheck(writer.volume.s, workspaceId)
    {
      if index != null { return Ok(index); }
      r := RebuildIndex();
    }

    /** `#validateSelected`: the ownership rules on the given records and every receipt they or the snapshot mention. */
    method ValidateSelected(state: WorkspaceState, selected: Receipts, readFiles: bool) returns (r: Reply<()>)
      requires Valid() && index != null
      requires state.workspace.workspaceId == workspaceId
      modifies writer, writer.volume`s
      ensures Valid() && Calmer(old(writer.volume.s), writer.volume.s)
      ensures r.Ok? ==> SelectedOk(state, selected, receipts, readFiles)
      ensures r.Ok? ==> AllDurable(writer.volume.s, Found(LookedUp(state, selected, readFiles), receipts).Keys)
      ensures r == Err(StateCorrupt) ==> !SelectedOk(state, selected, receipts, readFiles)
      ensures r.Err? ==> r == Err(StateCorrupt) || (r == Err(PersistenceUnavailable) && !writer.volume.calm)
    {
      ghost var s := writer.volume.s;
      var ids := LookedUp(state, selected, readFiles);
      var found;
      ghost var foreign;
      found, foreign := ReadReceipts(writer, workspaceId, ids, receipts);
      SyncAddsNoOutcome(s, writer.volume.s, None, workspaceId);
      if found.Err? {
        if found == Err(StateCorrupt) { ForeignWorkspaceFails(state, selected, receipts, readFiles, foreign); }
        return Err(found.error);
      }
      var records := found.value + selected;
      var owners := LookupOwners(index.byOperation, ids - found.value.Keys, records);
      LookupAgrees(receipts, ids, selected, index.byOperation);
      if !OwnershipOk(state, records.Values, owners) { return Err(StateCorrupt); }
      return Ok(());
    }

    /** The same for a read, whose records are the visible ones. */
    method ValidateRead(state: WorkspaceState, selected: Receipts) returns (r: Reply<()>)
      requires Valid() && index != null && StateOf(writer.volume.s) == Ok(state)
      requires state.workspace.workspaceId == workspaceId
      requires forall op :: op in selected ==> op in receipts && selected[op] == receipts[op]
      modifies writer, writer.volume`s
      ensures Valid() && Calmer(old(writer.volume.s), writer.volume.s)
      ensures r.Err? ==> StorageFault(r.error)
      ensures r.Err? && writer.volume.calm ==> !old(Consistent())
    {
      hide Sound, WorkspaceOk, SelectedOk;
      if Consistent() { VisibleIsSelected(writer.volume.s, workspaceId, receipts, state, selected); }
      r := ValidateSelected(state, selected, true);
    }

    /** What every operation does first: recover if needed, and have an index. */
    method Enter() returns (r: Reply<()>)
      requires Valid()
      modifies this, writer, writer.volume`s
      ensures index == null || index == old(index) || fresh(index)
      ensures Valid()
      ensures NoNewOutcome(old(writer.volume.s), old(inflight), writer.volume.s, inflight)
      ensures r.Ok? ==> inflight.None? && !recoveryRequired && index != null
      ensures old(inflight.None?) ==> inflight.None? && Calmer(old(writer.volume.s), writer.volume.s)
      ensures old(index != null) ==> receipts == old(receipts) && index != null
      ensures r.Err? ==> StorageFault(r.error)
      ensures old(Consistent()) ==> Consistent()
      ensures r.Err? && old(Consistent()) && writer.volume.calm ==> Stuck()
    {
      hide Sound, StoreOk, FullCheck, Shows;
      ghost var s, before := writer.volume.s, inflight;
      var ok := EnsureRecovered();
      if Sound(s, before, workspaceId) { NothingNewIsSound(s, before, writer.volume.s, inflight, workspaceId); }
      if !ok { return Err(PersistenceUnavailable); }
      if Sound(s, before, workspaceId) { VisibleIsValid(writer.volume.s, workspaceId); }
      var i := GetIndex();
      if i.Err? { return Err(i.error); }
      return Ok(());
    }

    /**
      * `readWorkspace`. Whatever it returns is already durable: a caller may answer from a dedupe record in it.
      */
    method ReadWorkspace(identity: WorkspaceIdentity) returns (r: Reply<WorkspaceState>)
      requires Valid() && identity.workspaceId == workspaceId
      modifies this, writer, writer.volume`s
      ensures index == null || index == old(index) || fresh(index)
      ensures Valid()
      ensures NoNewOutcome(old(writer.volume.s), old(inflight), writer.volume.s, inflight)
      ensures r.Err? ==> StorageFault(r.error)
      ensures r.Ok? ==> inflight.None? && !recoveryRequired && Durable(writer.volume.s, Live(StateJson))
      ensures r.Ok? ==> r.value.workspace.workspaceId == workspaceId
      ensures r.Ok? ==>
        if Seen(writer.volume.s, Live(StateJson)) == None then r.value == EmptyState(identity)
        else StateOf(writer.volume.s) == Ok(r.value)
      ensures old(inflight.None?) ==> inflight.None? && Calmer(old(writer.volume.s), writer.volume.s)
      ensures r.Err? && old(Consistent()) && writer.volume.calm ==> Stuck()
    {
      hide Sound, WorkspaceOk, SelectedOk, Shows, ExecutionOk;
      var entered := Enter();
      if entered.Err? { return Err(entered.error); }
      var ok, raw := writer.volume.Read(Live(StateJson));
      if !ok { return Err(PersistenceUnavailable); }
      if raw.None? { return Ok(EmptyState(identity)); }
      if Consistent() { VisibleReads(writer.volume.s, workspaceId); }
      var state := ParseWorkspace(raw.value);
      if state.Err? { return Err(state.error); }
      if state.value.workspace.workspaceId != identity.workspaceId { return Err(WorkspaceMismatch); }
      var owned := ValidateRead(state.value, map[]);
      if owned.Err? { return Err(owned.error); }
      r := ConfirmSnapshot(state.value);
    }

    /** `findTask`: the snapshot that holds the task, as durable as a read one. */
    method FindTask(taskId: Uuid) returns (r: Reply<Option<WorkspaceState>>)
      requires Valid()
      modifies this, writer, writer.volume`s
      ensures index == null || index == old(index) || fresh(index)
      ensures Valid()
      ensures NoNewOutcome(old(writer.volume.s), old(inflight), writer.volume.s, inflight)
      ensures old(inflight.None?) ==> inflight.None?
      ensures r.Err? ==> StorageFault(r.error)
      ensures r.Err? && old(Consistent()) && writer.volume.calm ==> Stuck()
      ensures r.Ok? && r.value.None? ==> inflight.None? && taskId !in TasksOf(writer.volume.s)
      ensures r.Ok? && r.value.Some? ==>
        taskId in r.value.value.tasks && r.value.value.workspace.workspaceId == workspaceId
      ensures r.Ok? && r.value.Some? ==> inflight.None? && StateOf(writer.volume.s) == Ok(r.value.value)
      ensures r.Ok? && r.value.Some? ==> Durable(writer.volume.s, Live(StateJson))
    {
      hide Sound, WorkspaceOk, SelectedOk, StoreOk, Shows, ExecutionOk;
      var entered := Enter();
      if entered.Err? { return Err(entered.error); }
      if taskId !in index.tasks { return Ok(None); }
      var ok, raw := writer.volume.Read(Live(StateJson));
      if !ok { return Err(PersistenceUnavailable); }
      if raw.None? { return Ok(None); }
      if Consistent() { VisibleReads(writer.volume.s, workspaceId); }
      var state := ParseWorkspace(raw.value);
      if state.Err? { return Err(StateCorrupt); }
      if state.value.workspace.workspaceId != workspaceId { return Err(StateCorrupt); }
      var owned := ValidateRead(state.value, map[]);
      if owned.Err? { return Err(owned.error); }
      var confirmed := ConfirmSnapshot(state.value);
      if confirmed.Err? { return Err(confirmed.error); }
      return Ok(Some(state.value));
    }

    method ConfirmSnapshot(state: WorkspaceState) returns (r: Reply<WorkspaceState>)
      requires Valid() && inflight.None?
      modifies writer, writer.volume`s
      ensures Valid() && Calmer(old(writer.volume.s), writer.volume.s)
      ensures r.Err? ==> r == Err(PersistenceUnavailable) && !writer.volume.calm
      ensures r.Ok? ==> r.value == state && Durable(writer.volume.s, Live(StateJson))
    {
      ghost var s := writer.volume.s;
      var ok := writer.ConfirmDurable(Live(StateJson));
      SyncAddsNoOutcome(s, writer.volume.s, None, workspaceId);
      return if ok then Ok(state) else Err(PersistenceUnavailable);
    }

    // ------------------------------------------------------------------------------------- writing

    /** `#validateIndexedOwners`. */
    method ValidateIndexedOwners(state: WorkspaceState) returns (ok: bool)
      requires Valid() && index != null
      ensures ok <==> IndexedOwnersOk(state, receipts)
    {
      ok := forall t :: t in index.byTask && index.byTask[t] != {} ==> t in state.tasks;
      assert forall t :: index.OperationsOf(t) == TaskOperations(receipts, t);
      if ok {
        forall op | op in receipts ensures receipts[op].taskId in state.tasks {
          assert op in index.OperationsOf(receipts[op].taskId);
        }
      } else {
        var t :| t in index.byTask && index.byTask[t] != {} && t !in state.tasks;
        var op :| op in index.byTask[t];
        assert op in index.OperationsOf(t);
      }
    }

    /** The checks of `writeWorkspace`. */
    method AdmitSnapshot(state: WorkspaceState) returns (r: Reply<()>)
      requires Valid() && state.workspace.workspaceId == workspaceId
      modifies this, writer, writer.volume`s
      ensures index == null || index == old(index) || fresh(index)
      ensures Valid()
      ensures NoNewOutcome(old(writer.volume.s), old(inflight), writer.volume.s, inflight)
      ensures old(inflight.None?) ==> inflight.None? && SameLive(old(writer.volume.s), writer.volume.s)
      ensures old(index != null) ==> receipts == old(receipts)
      ensures r.Ok? ==> inflight.None? && index != null
      ensures r.Ok? ==> WorkspaceOk(state) && AcceptsWorkspace(state, receipts)
      ensures r.Ok? ==> AllDurable(writer.volume.s, Found(LookedUp(state, map[], true), receipts).Keys)
      ensures r.Err? ==> StorageFault(r.error)
      ensures r.Err? && old(Consistent()) && writer.volume.calm ==>
        Stuck() || !WorkspaceOk(state) || (index != null && !AcceptsWorkspace(state, receipts))
    {
      hide Sound, WorkspaceOk, SelectedOk, StoreOk, Shows;
      var entered := Enter();
      ghost var s1 := writer.volume.s;
      if entered.Err? { return Err(entered.error); }
      if !WorkspaceOk(state) { return Err(StateCorrupt); }
      var owned := ValidateIndexedOwners(state);
      if !owned { return Err(StateCorrupt); }
      r := ValidateSelected(state, map[], true);
      SyncAddsNoOutcome(s1, writer.volume.s, None, workspaceId);
    }

    /** `writeWorkspace`: one atomic file, after the incremental checks. */
    method WriteWorkspace(state: WorkspaceState) returns (r: Reply<()>)
      requires Valid() && state.workspace.workspaceId == workspaceId
      modifies this, writer, writer.volume`s, index
      ensures index == null || index == old(index) || fresh(index)
      ensures Valid()
      ensures old(inflight.None?) ==> inflight.None?
      ensures forall t, c :: MayBecome(writer.volume.s, inflight, t, c) ==>
        old(MayBecome(writer.volume.s, inflight, t, c))
          || (t == StateJson && c == Some(StateFile(state)) && WorkspaceOk(state))
      ensures old(index != null) ==> receipts == old(receipts)
      ensures r.Ok? ==> inflight.None? && Settled(writer.volume.s, Live(StateJson), Some(StateFile(state)))
      ensures r.Ok? ==> WorkspaceOk(state) && AcceptsWorkspace(state, receipts) && Shows(writer.volume.s, receipts)
      ensures old(inflight.None? && FullCheck(writer.volume.s, workspaceId)) ==> FullCheck(writer.volume.s, workspaceId)
      ensures old(Consistent()) ==> Consistent()
      ensures r.Err? ==> WriteFault(r.error)
      ensures r == Err(StorageFull) ==> writer.OverBudget(Live(StateJson), StateFile(state))
      ensures r.Err? && old(Consistent()) && writer.volume.calm ==>
        Stuck() || r == Err(StorageFull) || !WorkspaceOk(state) || (index != null && !AcceptsWorkspace(state, receipts))
    {
      hide Sound, WorkspaceOk, SelectedOk, StoreOk, Shows, FullCheck;
      ghost var s0, before := writer.volume.s, inflight;
      r := AdmitSnapshot(state);
      ghost var s1, shown := writer.volume.s, receipts;
      if Sound(s0, before, workspaceId) { NothingNewIsSound(s0, before, s1, inflight, workspaceId); }
      if before.None? && FullCheck(s0, workspaceId) { SameCheck(s0, s1, workspaceId); }
      if r.Ok? {
        r := PutSnapshot(state);
        if Sound(s0, before, workspaceId) { PutIsSound(s1, writer.volume.s, workspaceId, shown, state); }
      }
    }

    method PutSnapshot(state: WorkspaceState) returns (r: Reply<()>)
      requires Valid() && inflight.None? && index != null && WorkspaceOk(state)
      requires AcceptsWorkspace(state, receipts) && state.workspace.workspaceId == workspaceId
      modifies this`index, writer, writer.volume`s, index
      ensures index == null || index == old(index)
      ensures Valid()
      ensures forall t, c :: MayBecome(writer.volume.s, None, t, c) ==>
        old(MayBecome(writer.volume.s, None, t, c)) || (t == StateJson && c == Some(StateFile(state)))
      ensures Attempted(old(writer.volume.s), writer.volume.s, Live(StateJson), Some(StateFile(state)))
      ensures r.Ok? ==>
        Settled(writer.volume.s, Live(StateJson), Some(StateFile(state))) && Shows(writer.volume.s, receipts)
      ensures old(FullCheck(writer.volume.s, workspaceId)) ==> FullCheck(writer.volume.s, workspaceId)
      ensures r.Err? ==> WriteFault(r.error)
      ensures r == Err(StorageFull) ==> writer.OverBudget(Live(StateJson), StateFile(state))
      ensures r.Err? && writer.volume.calm ==> r == Err(StorageFull)
    {
      hide WorkspaceOk, SelectedOk, FullCheck, MissingIsFirm;
      ghost var s := writer.volume.s;
      if writer.size(StateFile(state)) > writer.maxSnapshotBytes { return Err(StorageFull); }
      var w := PutFile(writer, workspaceId, StateJson, StateFile(state));
      if FullCheck(s, workspaceId) { SnapshotWriteKeepsFullCheck(s, writer.volume.s, workspaceId, receipts, state); }
      if w.Refused? { return Err(w.error); }
      if w.Fault? {
        index := null;
        return Err(PersistenceUnavailable);
      }
      SnapshotWritten(s, writer.volume.s, receipts, state);
      NoteSnapshot(state);
      return Ok(());
    }

    method NoteSnapshot(state: WorkspaceState)
      requires writer.Valid() && StoreOk(writer.volume.s, None, workspaceId) && inflight.None?
      requires index != null && index.Agrees(receipts) && Shows(writer.volume.s, receipts)
      requires Seen(writer.volume.s, Live(StateJson)) == Some(StateFile(state)) && WorkspaceOk(state)
      modifies index
      ensures Valid()
    {
      index.tasks := state.tasks.Keys;
    }

    /** The checks of `writeExecution` refuse the record. */
    ghost predicate Unacceptable(record: ExecutionRecord)
      reads this, writer, writer.volume
    {
      || !ExecutionOk(record) || StateOf(writer.volume.s).Err?
      || (index != null && !AcceptsExecution(record, StateOf(writer.volume.s).value, receipts))
    }

    /** The checks of `writeExecution`; no receipt but the index is consulted. */
    method AdmitExecution(record: ExecutionRecord) returns (r: Reply<WorkspaceState>)
      requires Valid() && record.workspaceId == workspaceId
      modifies this, writer, writer.volume`s
      ensures index == null || index == old(index) || fresh(index)
      ensures Valid()
      ensures NoNewOutcome(old(writer.volume.s), old(inflight), writer.volume.s, inflight)
      ensures old(inflight.None?) ==> inflight.None? && Calmer(old(writer.volume.s), writer.volume.s)
      ensures r.Ok? ==> inflight.None? && index != null
      ensures r.Ok? ==> ExecutionOk(record) && StateOf(writer.volume.s) == Ok(r.value)
      ensures r.Ok? ==> r.value.workspace.workspaceId == workspaceId && AcceptsExecution(record, r.value, receipts)
      ensures r.Err? ==> StorageFault(r.error)
      ensures r.Err? && old(Consistent()) && writer.volume.calm ==> Stuck() || Unacceptable(record)
    {
      hide Sound, WorkspaceOk, SelectedOk, StoreOk, Shows, ExecutionOk;
      var entered := Enter();
      ghost var s1 := writer.volume.s;
      if entered.Err? { return Err(entered.error); }
      if !ExecutionOk(record) { return Err(StateCorrupt); }
      r := LoadSnapshot();
      if r.Err? { return; }
      var owned := CheckOwner(record, r.value);
      SyncAddsNoOutcome(s1, writer.volume.s, None, workspaceId);
      if owned.Err? { return Err(owned.error); }
    }

    /** The snapshot as the receipt operations read it: it must exist and be ours. */
    method LoadSnapshot() returns (r: Reply<WorkspaceState>)
      requires Valid()
      ensures r.Ok? ==> StateOf(writer.volume.s) == Ok(r.value) && r.value.workspace.workspaceId == workspaceId
      ensures r.Err? ==> StorageFault(r.error)
      ensures r.Err? && writer.volume.calm && inflight.None? && Consistent() ==>
        Seen(writer.volume.s, Live(StateJson)) == None
    {
      hide Sound, WorkspaceOk;
      if inflight.None? && Consistent() { VisibleReads(writer.volume.s, workspaceId); }
      var ok, raw := writer.volume.Read(Live(StateJson));
      if !ok || raw.None? { return Err(PersistenceUnavailable); }
      r := ParseWorkspace(raw.value);
      if r.Err? || r.value.workspace.workspaceId != workspaceId { return Err(StateCorrupt); }
    }

    method CheckOwner(record: ExecutionRecord, state: WorkspaceState) returns (r: Reply<()>)
      requires Valid() && index != null && state.workspace.workspaceId == workspaceId
      modifies writer, writer.volume`s
      ensures Valid() && Calmer(old(writer.volume.s), writer.volume.s)
      ensures r.Ok? ==> AcceptsExecution(record, state, receipts)
      ensures r.Err? ==> StorageFault(r.error) && (writer.volume.calm ==> !AcceptsExecution(record, state, receipts))
    {
      var owned := ValidateIndexedOwners(state);
      if !owned { return Err(StateCorrupt); }
      var op := record.operationId;
      if op in index.byOperation && index.byOperation[op].taskId != record.taskId { return Err(StateCorrupt); }
      r := ValidateSelected(state, map[op := record], false);
    }

    /**
      * `writeExecution`: one atomic receipt. The full check of the next boot survives exactly when no other
      * task's stored resolution already names the operation.
      */
    method WriteExecution(record: ExecutionRecord) returns (r: Reply<()>, ghost before: Receipts)
      requires Valid() && record.workspaceId == workspaceId
      modifies this, writer, writer.volume`s, index
      ensures index == null || index == old(index) || fresh(index)
      ensures Valid()
      ensures forall t, c :: MayBecome(writer.volume.s, inflight, t, c) ==>
        old(MayBecome(writer.volume.s, inflight, t, c))
          || (t == Receipt(record.operationId) && c == Some(ReceiptFile(record)))
      ensures r.Ok? ==>
        inflight.None? && Settled(writer.volume.s, Live(Receipt(record.operationId)), Some(ReceiptFile(record)))
      ensures r.Ok? ==> ExecutionOk(record) && index != null && receipts == before[record.operationId := record]
      ensures old(inflight.None? && FullCheck(writer.volume.s, workspaceId)) && r.Ok? ==>
        (FullCheck(writer.volume.s, workspaceId) <==> !ForeignMention(record, before))
      ensures old(inflight.None?) ==> inflight.None?
      ensures old(Consistent() && inflight.None? && Known(writer.volume.s, record.operationId)) ==>
        Aftermath(old(writer.volume.s), writer.volume.s, workspaceId, record, r.Ok?)
      ensures r.Err? ==> WriteFault(r.error)
      ensures r == Err(StorageFull) ==> writer.OverBudget(Live(Receipt(record.operationId)), ReceiptFile(record))
      ensures r.Err? && old(Consistent()) && writer.volume.calm ==>
        Stuck() || r == Err(StorageFull) || Unacceptable(record)
    {
      hide Sound, WorkspaceOk, SelectedOk, StoreOk, Shows, FullCheck, ExecutionOk, PossiblyForeign, AlwaysValid;
      ghost var s0, pending := writer.volume.s, inflight;
      before := map[];
      var admitted := AdmitExecution(record);
      ghost var s1, shown := writer.volume.s, receipts;
      if admitted.Err? {
        if pending.None? && Sound(s0, None, workspaceId) { NothingWritten(s0, s1, workspaceId, record); }
        return Err(admitted.error), before;
      }
      if pending.None? && FullCheck(s0, workspaceId) { SameCheck(s0, s1, workspaceId); }
      r, before := PutExecution(record, admitted.value);
      if pending.None? && Sound(s0, None, workspaceId) && Known(s0, record.operationId) {
        ReceiptAftermath(s0, s1, writer.volume.s, workspaceId, shown, admitted.value, record, r.Ok?);
      }
    }

    method PutExecution(record: ExecutionRecord, ghost state: WorkspaceState)
      returns (r: Reply<()>, ghost before: Receipts)
      requires Valid() && inflight.None? && index != null && ExecutionOk(record)
      requires StateOf(writer.volume.s) == Ok(state) && state.workspace.workspaceId == workspaceId
      requires AcceptsExecution(record, state, receipts)
      modifies this`index, this`receipts, writer, writer.volume`s, index
      ensures index == null || index == old(index)
      ensures Valid() && inflight.None?
      ensures AddsReceipt(old(writer.volume.s), writer.volume.s, record)
      ensures Attempted(old(writer.volume.s), writer.volume.s, Live(Receipt(record.operationId)),
                        Some(ReceiptFile(record)))
      ensures r.Ok? ==> Settled(writer.volume.s, Live(Receipt(record.operationId)), Some(ReceiptFile(record)))
      ensures r.Ok? ==> index != null && before == old(receipts) && receipts == before[record.operationId := record]
      ensures old(FullCheck(writer.volume.s, workspaceId)) && r.Ok? ==>
        (FullCheck(writer.volume.s, workspaceId) <==> !ForeignMention(record, before))
      ensures r.Err? ==> WriteFault(r.error)
      ensures r == Err(StorageFull) ==> writer.OverBudget(Live(Receipt(record.operationId)), ReceiptFile(record))
      ensures r.Err? && writer.volume.calm ==> r == Err(StorageFull)
    {
      hide WorkspaceOk, SelectedOk, FullCheck, MissingIsFirm, ForeignMention, ExecutionOk, Attempted;
      ghost var s := writer.volume.s;
      before := receipts;
      var w := PutFile(writer, workspaceId, Receipt(record.operationId), ReceiptFile(record));
      if w.Refused? { return Err(w.error), before; }
      if w.Fault? {
        index := null;
        return Err(PersistenceUnavailable), before;
      }
      if FullCheck(s, workspaceId) {
        ReceiptWriteAndFullCheck(s, writer.volume.s, workspaceId, receipts, record, state);
      }
      NoteExecution(record, s);
      r := Ok(());
    }

    method NoteExecution(record: ExecutionRecord, ghost s: DiskState)
      requires writer.Valid() && StoreOk(writer.volume.s, None, workspaceId) && inflight.None?
      requires index != null && index.Agrees(receipts) && index.tasks == TasksOf(s)
      requires Shows(s, receipts) && ExecutionOk(record)
      requires OnlyChanged(s, writer.volume.s, Receipt(record.operationId), ReceiptFile(record))
      modifies index, this`receipts
      ensures Valid() && receipts == old(receipts)[record.operationId := record]
    {
      ReceiptWritten(s, writer.volume.s, receipts, record);
      index.Publish(record, receipts);
      receipts := receipts[record.operationId := record];
    }

    // -------------------------------------------------------------------------------- transactions

    /** The checks of `commitWorkspace`. */
    method AdmitCommit(state: WorkspaceState, records: seq<ExecutionRecord>) returns (r: Reply<()>)
      requires Valid() && inflight.None? && state.workspace.workspaceId == workspaceId
      modifies this, writer, writer.volume`s
      ensures index == null || index == old(index) || fresh(index)
      ensures Valid() && inflight.None? && Calmer(old(writer.volume.s), writer.volume.s)
      ensures r.Ok? ==> index != null && WorkspaceOk(state) && DistinctOperations(records)
      ensures r.Ok? ==>
        && AdmittedCommit(state, ByOperation(records), receipts)
        && forall record :: record in records ==> ExecutionOk(record)
      ensures r.Ok? ==> AllDurable(writer.volume.s, Found(LookedUp(state, ByOperation(records), true), receipts).Keys)
      ensures r.Err? ==> StorageFault(r.error)
      ensures r.Err? && old(Consistent()) && writer.volume.calm ==> Unfit(state, records)
    {
      hide Sound, WorkspaceOk, SelectedOk, StoreOk, Shows, ExecutionOk;
      var entered := Enter();
      if entered.Err? { return Err(entered.error); }
      r := CheckCommit(state, records);
    }

    /** No transaction can be made of these: the plan is no valid journal, or it breaks the ownership rules. */
    ghost predicate Unfit(state: WorkspaceState, records: seq<ExecutionRecord>)
      reads this, writer, writer.volume
    {
      Unplannable(writer.volume.s, state, records)
        || (index != null && !AdmittedCommit(state, ByOperation(records), receipts))
    }

    method CheckCommit(state: WorkspaceState, records: seq<ExecutionRecord>) returns (r: Reply<()>)
      requires Valid() && index != null && state.workspace.workspaceId == workspaceId
      modifies writer, writer.volume`s
      ensures Valid() && Calmer(old(writer.volume.s), writer.volume.s)
      ensures r.Ok? ==> WorkspaceOk(state) && DistinctOperations(records)
      ensures r.Ok? ==>
        && AdmittedCommit(state, ByOperation(records), receipts)
        && forall record :: record in records ==> ExecutionOk(record)
      ensures r.Ok? ==> AllDurable(writer.volume.s, Found(LookedUp(state, ByOperation(records), true), receipts).Keys)
      ensures r.Err? ==> StorageFault(r.error) && (writer.volume.calm ==> Unfit(state, records))
    {
      hide WorkspaceOk, SelectedOk, StoreOk, Shows, ExecutionOk;
      if !WorkspaceOk(state) { return Err(StateCorrupt); }
      var owned := ValidateIndexedOwners(state);
      if !owned { return Err(StateCorrupt); }
      if exists record :: record in records && !ExecutionOk(record) { return Err(StateCorrupt); }
      if !DistinctOperations(records) { return Err(StateCorrupt); }
      if !OwnersUnchanged(records, index.byOperation) {
        OwnerChanged(records, index.byOperation, receipts);
        return Err(StateCorrupt);
      }
      r := ValidateSelected(state, ByOperation(records), true);
    }

    /**
      * `commitWorkspace`: snapshot and receipts in one transaction. Every file it replaces must be durable,
      * which holds for a caller that has just read them under its locks. Once the reservation is made, no
      * write of the commit can be refused for lack of space: a storage-full reply means nothing was written.
      */
    method CommitWorkspace(state: WorkspaceState, records: seq<ExecutionRecord>, tx: Uuid) returns (r: Reply<()>)
      requires Valid() && inflight.None? && state.workspace.workspaceId == workspaceId
      requires Durable(writer.volume.s, Live(StateJson))
      requires forall record :: record in records ==> Durable(writer.volume.s, Live(Receipt(record.operationId)))
      modifies this, writer, writer.volume`s
      ensures index == null || index == old(index) || fresh(index)
      ensures Valid()
      ensures forall t, c :: MayBecome(writer.volume.s, inflight, t, c) ==>
        old(MayBecome(writer.volume.s, inflight, t, c)) || (Wanted(state, records, t, c) && WorkspaceOk(state))
      ensures r.Ok? ==>
        inflight.None? && WorkspaceOk(state) && Settled(writer.volume.s, Live(StateJson), Some(StateFile(state)))
      ensures r.Ok? ==> forall record :: record in records ==>
        Settled(writer.volume.s, Live(Receipt(record.operationId)), Some(ReceiptFile(record)))
      ensures r == Err(StorageFull) ==> inflight.None? && Calmer(old(writer.volume.s), writer.volume.s)
      ensures writer.volume.calm ==> inflight.None? && (r.Err? ==> Calmer(old(writer.volume.s), writer.volume.s))
      ensures old(FullCheck(writer.volume.s, workspaceId)) && r.Ok? ==> FullCheck(writer.volume.s, workspaceId)
      ensures old(Consistent()) ==> Consistent()
      ensures r.Err? ==> WriteFault(r.error)
      ensures r == Err(StorageFull) ==> exists j :: Plans(j, writer.volume.s, state, records) && !Reserved(writer, j)
      ensures r.Err? && old(Consistent()) && writer.volume.calm ==> r == Err(StorageFull) || Unfit(state, records)
    {
      hide Sound, WorkspaceOk, SelectedOk, Shows, ExecutionOk, FullCheck, StoreOk;
      ghost var s0 := writer.volume.s;
      var admitted := AdmitCommit(state, records);
      SyncAddsNoOutcome(s0, writer.volume.s, None, workspaceId);
      ghost var s1, shown := writer.volume.s, receipts;
      if Sound(s0, None, workspaceId) { CalmIsSound(s0, s1, workspaceId); }
      if admitted.Err? { return Err(admitted.error); }
      var prepared := PrepareJournal(writer.volume, tx, state, records);
      if prepared.Err? { return Err(prepared.error); }
      if FullCheck(s0, workspaceId) { SameCheck(s0, s1, workspaceId); }
      PlannedTargets(prepared.value, s1, state, records);
      r := RunTransaction(state, records, prepared.value);
      if r.Ok? { PlannedAreNew(prepared.value, s1, writer.volume.s, state, records); }
      if Sound(s1, None, workspaceId) {
        TransactionIsSound(s1, writer.volume.s, inflight, workspaceId, shown, state, records, prepared.value);
      }
    }

    method RunTransaction(state: WorkspaceState, records: seq<ExecutionRecord>, j: Journal) returns (r: Reply<()>)
      requires Valid() && inflight.None? && index != null && state.workspace.workspaceId == workspaceId
      requires WorkspaceOk(state) && DistinctOperations(records)
      requires AdmittedCommit(state, ByOperation(records), receipts)
      requires forall record :: record in records ==> ExecutionOk(record)
      requires ValidJournal(j, workspaceId) && ShapeOk(j) && Plans(j, writer.volume.s, state, records)
      requires AllOld(writer.volume.s, j)
      modifies this, writer, writer.volume`s
      ensures index == null || index == old(index)
      ensures Valid()
      ensures forall t, c :: MayBecome(writer.volume.s, inflight, t, c) ==>
        old(MayBecome(writer.volume.s, None, t, c)) || Planned(j, t, c)
      ensures r.Ok? ==> inflight.None? && AllNew(writer.volume.s, j)
      ensures r == Err(StorageFull) ==>
        inflight.None? && writer.volume.s == old(writer.volume.s) && !Reserved(writer, j)
      ensures writer.volume.calm ==> inflight.None?
      ensures old(FullCheck(writer.volume.s, workspaceId)) && r.Ok? ==> FullCheck(writer.volume.s, workspaceId)
      ensures r.Err? ==> WriteFault(r.error) && (writer.volume.calm ==> r == Err(StorageFull))
    {
      hide WorkspaceOk, SelectedOk, ExecutionOk, FullCheck, MissingIsFirm, AdmittedCommit, Plans;
      ghost var s := writer.volume.s;
      ghost var shown := receipts;
      var measured := writer.Measure();
      if !measured { return Err(PersistenceUnavailable); }
      LastIsSnapshot(j, s, state, records);
      GrowthIsExcess(writer.size, j, 0);
      if writer.bytesUsed + writer.size(JournalFile(j)) + MARKER_BYTES + Growth(writer.size, j, 0) >
           writer.maxTotalBytes
        || writer.size(j.records[|j.records| - 1].body) > writer.maxSnapshotBytes {
        return Err(StorageFull);
      }
      var w := CommitJournal(writer, j);
      index := null;
      if !w.Done? {
        recoveryRequired := true;
        inflight := Some(j);
        CommitOutcome(s, writer.volume.s, j, workspaceId);
        measured := writer.Measure();
        return Err(PersistenceUnavailable);
      }
      CommittedOutcome(s, writer.volume.s, j, workspaceId);
      if FullCheck(s, workspaceId) { CommitKeepsFullCheck(s, writer.volume.s, workspaceId, shown, state, records, j); }
      measured := writer.Measure();
      return if measured then Ok(()) else Err(PersistenceUnavailable);
    }

    // ------------------------------------------------------------------------------ reading receipts

    /** `readExecution`: the receipt, durable, checked against the snapshot. */
    method ReadExecution(op: Uuid) returns (r: Reply<Option<ExecutionRecord>>)
      requires Valid()
      modifies this, writer, writer.volume`s
      ensures index == null || index == old(index) || fresh(index)
      ensures Valid()
      ensures NoNewOutcome(old(writer.volume.s), old(inflight), writer.volume.s, inflight)
      ensures r.Ok? ==> inflight.None? && index != null
      ensures old(inflight.None?) ==> inflight.None? && Calmer(old(writer.volume.s), writer.volume.s)
      ensures r.Ok? && r.value.None? ==> op !in receipts
      ensures r.Ok? && r.value.Some? ==>
        op in receipts && receipts[op] == r.value.value && Durable(writer.volume.s, Live(Receipt(op)))
          && r.value.value.workspaceId == workspaceId
      ensures r.Err? ==> StorageFault(r.error)
      ensures r.Err? && old(Consistent()) && writer.volume.calm ==> Stuck()
    {
      hide Sound, WorkspaceOk, SelectedOk, StoreOk, Shows, ExecutionOk;
      var entered := Enter();
      if entered.Err? { return Err(entered.error); }
      ghost var s := writer.volume.s;
      if Consistent() && op in receipts { VisibleReceiptReads(s, workspaceId, receipts, op); }
      var record := RawExecution(writer, workspaceId, op, receipts);
      SyncAddsNoOutcome(s, writer.volume.s, None, workspaceId);
      if Sound(s, None, workspaceId) { NothingNewIsSound(s, None, writer.volume.s, None, workspaceId); }
      if record.Err? || record.value.None? { return record; }
      r := CheckAgainstSnapshot(record.value.value);
    }

    method CheckAgainstSnapshot(record: ExecutionRecord) returns (r: Reply<Option<ExecutionRecord>>)
      requires Valid() && index != null && record.operationId in receipts && receipts[record.operationId] == record
      modifies writer, writer.volume`s
      ensures Valid() && Calmer(old(writer.volume.s), writer.volume.s)
      ensures r.Ok? ==> r.value == Some(record)
      ensures r.Err? ==> StorageFault(r.error)
      ensures r.Err? && writer.volume.calm ==> !old(Consistent())
    {
      hide Sound, WorkspaceOk, SelectedOk;
      if Consistent() { VisibleReads(writer.volume.s, workspaceId); }
      var state := LoadSnapshot();
      if state.Err? { return Err(state.error); }
      var selected := ValidateRead(state.value, map[record.operationId := record]);
      if selected.Err? { return Err(selected.error); }
      return Ok(Some(record));
    }

    /** `listExecutions`: every receipt of the task, newest first, and the snapshot they were checked against, all
        durable. */
    method ListExecutions(taskId: Uuid) returns (r: Reply<seq<ExecutionRecord>>)
      requires Valid()
      modifies this, writer, writer.volume`s
      ensures index == null || index == old(index) || fresh(index)
      ensures Valid()
      ensures NoNewOutcome(old(writer.volume.s), old(inflight), writer.volume.s, inflight)
      ensures r.Ok? ==> inflight.None? && index != null
      ensures old(inflight.None?) ==> inflight.None? && Calmer(old(writer.volume.s), writer.volume.s)
      ensures r.Ok? ==> NewestFirst(r.value) && AreThose(r.value, TaskOperations(receipts, taskId), receipts)
      ensures r.Ok? ==> AllDurable(writer.volume.s, TaskOperations(receipts, taskId))
      ensures r.Err? ==> StorageFault(r.error)
      ensures r.Err? && old(Consistent()) && writer.volume.calm ==>
        Stuck() || Seen(writer.volume.s, Live(StateJson)) == None
    {
      hide Sound, WorkspaceOk, SelectedOk, StoreOk, ExecutionOk;
      var entered := Enter();
      if entered.Err? { return Err(entered.error); }
      ghost var s := writer.volume.s;
      var view := index.Task(taskId, receipts);
      ViewedAreListed(view, receipts, taskId);
      r := SelectExecutions(taskId, Operations(view));
      SyncAddsNoOutcome(s, writer.volume.s, None, workspaceId);
      if r.Ok? { SelectedInOrder(view, receipts, taskId, r.value); }
    }

    /** `#selectedExecutions`: the receipts with these ids, in this order. */
    method SelectExecutions(taskId: Uuid, ids: seq<Uuid>) returns (r: Reply<seq<ExecutionRecord>>)
      requires Valid() && index != null
      modifies writer, writer.volume`s
      ensures Valid() && Calmer(old(writer.volume.s), writer.volume.s)
      ensures r.Ok? ==> Picked(ids, receipts, r.value) && forall record :: record in r.value ==> record.taskId == taskId
      ensures r.Ok? ==> AllDurable(writer.volume.s, Elements(ids)) && Durable(writer.volume.s, Live(StateJson))
      ensures r.Err? ==> StorageFault(r.error)
      ensures r.Err? && writer.volume.calm && old(Consistent()) ==>
        Seen(writer.volume.s, Live(StateJson)) == None || exists op :: op in ids && Astray(op, receipts, taskId)
    {
      hide Sound, WorkspaceOk, SelectedOk, StoreOk, Shows;
      ghost var s := writer.volume.s;
      var state := LoadSnapshot();
      if state.Err? { return Err(state.error); }
      r := ReadInOrder(taskId, ids);
      if Sound(s, None, workspaceId) { CalmIsSound(s, writer.volume.s, workspaceId); }
      if r.Err? { return; }
      r := CheckSelection(state.value, r.value, ids);
    }

    method ReadInOrder(taskId: Uuid, ids: seq<Uuid>) returns (r: Reply<seq<ExecutionRecord>>)
      requires Valid() && index != null
      modifies writer, writer.volume`s
      ensures Valid() && Calmer(old(writer.volume.s), writer.volume.s)
      ensures r.Ok? ==> Picked(ids, receipts, r.value) && forall record :: record in r.value ==> record.taskId == taskId
      ensures r.Ok? ==> AllDurable(writer.volume.s, Elements(ids))
      ensures r.Err? ==> StorageFault(r.error)
      ensures r.Err? && writer.volume.calm && old(Consistent()) ==>
        exists op :: op in ids && Astray(op, receipts, taskId)
    {
      hide Sound, StoreOk, Shows;
      ghost var s := writer.volume.s;
      var records: seq<ExecutionRecord> := [];
      for i := 0 to |ids|
        invariant Valid() && Calmer(s, writer.volume.s) && AllDurable(writer.volume.s, Elements(ids[..i]))
        invariant Picked(ids[..i], receipts, records) && forall record :: record in records ==> record.taskId == taskId
      {
        if Sound(s, None, workspaceId) && ids[i] in receipts { VisibleReceiptReads(s, workspaceId, receipts, ids[i]); }
        ghost var before := writer.volume.s;
        var record := RawExecution(writer, workspaceId, ids[i], receipts);
        SyncAddsNoOutcome(before, writer.volume.s, None, workspaceId);
        if record.Err? { return Err(record.error); }
        if record.value.None? || record.value.value.taskId != taskId {
          assert Astray(ids[i], receipts, taskId);
          return Err(StateCorrupt);
        }
        records := records + [record.value.value];
      }
      assert ids[..|ids|] == ids;
      return Ok(records);
    }

    method CheckSelection(state: WorkspaceState, records: seq<ExecutionRecord>,
                          ghost ids: seq<Uuid>) returns (r: Reply<seq<ExecutionRecord>>)
      requires Valid() && index != null && StateOf(writer.volume.s) == Ok(state)
      requires state.workspace.workspaceId == workspaceId
      requires Picked(ids, receipts, records)
      modifies writer, writer.volume`s
      ensures Valid() && Calmer(old(writer.volume.s), writer.volume.s)
      ensures r.Ok? ==> r.value == records && Durable(writer.volume.s, Live(StateJson))
      ensures r.Err? ==> StorageFault(r.error)
      ensures r.Err? && writer.volume.calm ==> !old(Consistent())
    {
      hide Sound, WorkspaceOk, SelectedOk;
      PickedAreVisible(ids, receipts, records);
      var owned := ValidateRead(state, ByOperation(records));
      if owned.Err? { return Err(owned.error); }
      var confirmed := ConfirmSnapshot(state);
      if confirmed.Err? { return Err(confirmed.error); }
      return Ok(records);
    }
  }
}
