/**
  * What one workspace directory shows, what it may come out with after any interruption, and what each kind
  * of write of src/continuity/task-store.ts adds to that.
  */
module StoreOutcomes {
  import opened Wrappers
  import opened TaskTypes
  import opened StorageSchema
  import opened Durability
  import opened AtomicWriter
  import opened StorageJournal
  import Migrations = StorageMigration
  import opened Ownership
  import opened ExecutionIndex

  // ------------------------------------------------------------------------ what the store may become

  /** `inflight` is the transaction a failed commit left behind, until recovery has dealt with it. */
  ghost predicate StoreOk(s: DiskState, inflight: Option<Journal>, workspaceId: Uuid) {
    && (inflight.None? ==> Quiet(s))
    && (inflight.Some? ==> Ours(s, inflight.value, workspaceId))
    && MissingIsFirm(s)
  }

  /** A file that is not there cannot come back. */
  ghost predicate MissingIsFirm(s: DiskState) {
    forall t :: Seen(s, Live(t)) == None ==> Durable(s, Live(t))
  }

  /** After any interruption and the recovery that follows, the file can have this content. */
  ghost predicate MayBecome(s: DiskState, inflight: Option<Journal>, t: Target, c: Option<File>) {
    if inflight.Some? && exists i :: 0 <= i < |inflight.value.records| && inflight.value.records[i].path == t then
      exists i :: 0 <= i < |inflight.value.records| && inflight.value.records[i].path == t
        && ((c == Old(inflight.value.records[i]) && !Committed(s, inflight.value))
            || (c == New(inflight.value.records[i]) && Decided(s, inflight.value)))
    else May(s, Live(t), c)
  }

  /** Nothing becomes possible that was not. */
  ghost predicate NoNewOutcome(s: DiskState, inflight: Option<Journal>, after: DiskState,
                               inflightAfter: Option<Journal>) {
    forall t, c :: MayBecome(after, inflightAfter, t, c) ==> MayBecome(s, inflight, t, c)
  }

  lemma SyncAddsNoOutcome(s: DiskState, after: DiskState, inflight: Option<Journal>, workspaceId: Uuid)
    requires StoreOk(s, inflight, workspaceId) && Calmer(s, after)
    ensures StoreOk(after, inflight, workspaceId) && NoNewOutcome(s, inflight, after, inflight)
  {
    if inflight.Some? {
      CalmKeeps(s, after, inflight.value);
      RecoveryAddsNoOutcome(s, after, inflight.value, workspaceId, false);
    }
  }

  /** Both readings of a transaction that is undecided and applied at once have the same bodies. */
  lemma UndecidedAndDecided(s: DiskState, j: Journal, i: nat)
    requires Undecided(s, j) && Decided(s, j) && i < |j.records|
    ensures Old(j.records[i]) == New(j.records[i])
  {
    assert Applied(s, j);
  }

  lemma RecoveryAddsNoOutcome(s: DiskState, after: DiskState, j: Journal, workspaceId: Uuid, done: bool)
    requires Ours(s, j, workspaceId) && (Calmer(s, after) || Kept(s, after, j)) && (done ==> Recovered(s, after, j))
    ensures NoNewOutcome(s, Some(j), after, if done then None else Some(j))
  {
    if Calmer(s, after) { CalmKeeps(s, after, j); }
    assert Kept(s, after, j);
    forall t, c | MayBecome(after, if done then None else Some(j), t, c)
      ensures MayBecome(s, Some(j), t, c)
    {
      if i :| 0 <= i < |j.records| && j.records[i].path == t {
        if done {
          assert c == Seen(after, Live(t));
          assert MayBecome(s, Some(j), t, c) by {
            if Decided(s, j) { assert c == New(j.records[i]); } else { assert c == Old(j.records[i]); }
          }
        } else {
          var k :| 0 <= k < |j.records| && j.records[k].path == t
            && ((c == Old(j.records[k]) && !Committed(after, j)) || (c == New(j.records[k]) && Decided(after, j)));
          if !Decided(s, j) && c == New(j.records[k]) && Decided(after, j) {
            UndecidedAndDecided(after, j, k);
          }
        }
      } else {
        assert Outside(Live(t), j);
      }
    }
  }

  /** A power failure picks among the outcomes there already were. */
  lemma PowerLossAddsNoOutcome(s: DiskState, after: DiskState, inflight: Option<Journal>, workspaceId: Uuid)
    requires StoreOk(s, inflight, workspaceId) && PowerLoss(s, after)
    ensures StoreOk(after, inflight, workspaceId) && NoNewOutcome(s, inflight, after, inflight)
  {
    assert forall p, c :: May(after, p, c) ==> May(s, p, c);
    if inflight.Some? {
      var j := inflight.value;
      PowerLossKeepsTheTransaction(s, after, j);
      forall t, c | MayBecome(after, inflight, t, c)
        ensures MayBecome(s, inflight, t, c)
      {
        if i :| 0 <= i < |j.records| && j.records[i].path == t {
          var k :| 0 <= k < |j.records| && j.records[k].path == t
            && ((c == Old(j.records[k]) && !Committed(after, j)) || (c == New(j.records[k]) && Decided(after, j)));
          if !Decided(s, j) && c == New(j.records[k]) && Decided(after, j) {
            UndecidedAndDecided(after, j, k);
          }
        }
      }
    }
  }

  // ------------------------------------------------------------------------------- what is visible

  function FilesOf(s: DiskState): Migrations.Files { Migrations.LiveFiles(s) }

  /** The full check of boot and recovery, on what is visible. */
  ghost predicate FullCheck(s: DiskState, workspaceId: Uuid) {
    Migrations.FilesValid(FilesOf(s), workspaceId)
  }

  /** These are the visible receipts, each well formed and stored under its own name. */
  ghost predicate Shows(s: DiskState, receipts: Receipts) {
    && (forall op :: op in receipts <==> Seen(s, Live(Receipt(op))).Some?)
    && (forall op :: op in receipts ==>
          ParseExecution(Seen(s, Live(Receipt(op))).value) == Ok(receipts[op]) && receipts[op].operationId == op)
  }

  ghost predicate SameLive(s: DiskState, after: DiskState) {
    forall t :: Seen(after, Live(t)) == Seen(s, Live(t))
  }

  lemma SameLiveSameFiles(s: DiskState, after: DiskState)
    requires SameLive(s, after)
    ensures FilesOf(after) == FilesOf(s)
  {
    forall t ensures t in FilesOf(after) <==> t in FilesOf(s) {
      assert Seen(after, Live(t)) == Seen(s, Live(t));
    }
    forall t | t in FilesOf(s) ensures FilesOf(after)[t] == FilesOf(s)[t] {
      assert Seen(after, Live(t)) == Seen(s, Live(t));
    }
  }

  function StateFile(state: WorkspaceState): File { Body(Workspace(V2, state)) }
  function ReceiptFile(record: ExecutionRecord): File { Body(Execution(V2, record)) }

  ghost predicate OnlyChanged(s: DiskState, after: DiskState, t: Target, f: File) {
    && Seen(after, Live(t)) == Some(f)
    && forall u :: u != t ==> Seen(after, Live(u)) == Seen(s, Live(u))
  }

  lemma ReceiptWritten(s: DiskState, after: DiskState, receipts: Receipts, record: ExecutionRecord)
    requires Shows(s, receipts) && ExecutionOk(record)
    requires OnlyChanged(s, after, Receipt(record.operationId), ReceiptFile(record))
    ensures Shows(after, receipts[record.operationId := record])
  {
  }

  lemma SnapshotWritten(s: DiskState, after: DiskState, receipts: Receipts, state: WorkspaceState)
    requires Shows(s, receipts)
    requires OnlyChanged(s, after, StateJson, StateFile(state))
    ensures Shows(after, receipts)
  {
  }

  /** The visible snapshot, when it parses. */
  function StateOf(s: DiskState): Result<WorkspaceState, StoreError> {
    match Seen(s, Live(StateJson))
    case None => Err(UnknownTask)
    case Some(f) => ParseWorkspace(f)
  }

  lemma ShownReceipts(s: DiskState, receipts: Receipts)
    requires Shows(s, receipts)
    ensures Migrations.ReceiptsIn(FilesOf(s)) == receipts
    ensures Migrations.OperationsIn(FilesOf(s)) == receipts.Keys
  {
    var files := FilesOf(s);
    forall op ensures op in Migrations.OperationsIn(files) <==> op in receipts {
      assert op in receipts <==> Seen(s, Live(Receipt(op))).Some?;
    }
  }

  /** The full check, restated on the parsed view. */
  lemma FullCheckSays(s: DiskState, workspaceId: Uuid, receipts: Receipts)
    requires Seen(s, Live(StateJson)).Some? && Shows(s, receipts)
    ensures FullCheck(s, workspaceId) <==>
      && StateOf(s).Ok? && StateOf(s).value.workspace.workspaceId == workspaceId
      && FullyOwned(StateOf(s).value, receipts)
  {
    ShownReceipts(s, receipts);
  }

  lemma FullCheckShows(s: DiskState, workspaceId: Uuid)
    requires FullCheck(s, workspaceId)
    ensures Shows(s, Migrations.ReceiptsIn(FilesOf(s)))
  {
    var files := FilesOf(s);
    var receipts := Migrations.ReceiptsIn(files);
    if StateJson !in files {
      assert files == map[];
      assert forall op :: Receipt(op) !in files;
    }
    forall op
      ensures op in receipts <==> Seen(s, Live(Receipt(op))).Some?
      ensures op in receipts ==> receipts[op].operationId == op
    {
      assert op in Migrations.OperationsIn(files) <==> Receipt(op) in files;
    }
  }

  // --------------------------------------------------------------------------- outcomes of the writes

  lemma WriteOutcome(s: DiskState, after: DiskState, t: Target, f: File, workspaceId: Uuid)
    requires StoreOk(s, None, workspaceId) && Attempted(s, after, Live(t), Some(f))
    ensures StoreOk(after, None, workspaceId)
    ensures forall u, c :: MayBecome(after, None, u, c) ==> MayBecome(s, None, u, c) || (u == t && c == Some(f))
    ensures SameLive(s, after) || OnlyChanged(s, after, t, f)
  {
  }

  /** Some target of the transaction takes the new content. */
  ghost predicate Planned(j: Journal, t: Target, c: Option<File>) {
    exists i :: 0 <= i < |j.records| && j.records[i].path == t && c == New(j.records[i])
  }

  lemma CommitOutcome(s: DiskState, after: DiskState, j: Journal, workspaceId: Uuid)
    requires StoreOk(s, None, workspaceId) && AllOld(s, j) && CalmOutside(s, after, j)
    requires Ours(after, j, workspaceId)
    ensures StoreOk(after, Some(j), workspaceId)
    ensures forall u, c :: MayBecome(after, Some(j), u, c) ==> MayBecome(s, None, u, c) || Planned(j, u, c)
  {
    TargetsStay(s, after, j, workspaceId);
    forall u, c | MayBecome(after, Some(j), u, c)
      ensures MayBecome(s, None, u, c) || Planned(j, u, c)
    {
      if !exists i :: 0 <= i < |j.records| && j.records[i].path == u {
        assert Outside(Live(u), j);
      }
    }
  }

  /** No transaction removes a file or leaves a new one undecided. */
  lemma TargetsStay(s: DiskState, after: DiskState, j: Journal, workspaceId: Uuid)
    requires Ours(after, j, workspaceId) && CalmOutside(s, after, j)
    requires MissingIsFirm(s)
    ensures MissingIsFirm(after)
  {
    forall t | Seen(after, Live(t)) == None ensures Durable(after, Live(t)) {
      if i :| 0 <= i < |j.records| && j.records[i].path == t {
        assert May(after, Live(j.records[i].path), Seen(after, Live(j.records[i].path)));
      } else {
        assert Outside(Live(t), j);
      }
    }
  }

  lemma CommittedOutcome(s: DiskState, after: DiskState, j: Journal, workspaceId: Uuid)
    requires StoreOk(s, None, workspaceId) && ValidJournal(j, workspaceId)
    requires CalmOutside(s, after, j) && Resolved(after, j, true)
    ensures StoreOk(after, None, workspaceId)
    ensures forall u, c :: MayBecome(after, None, u, c) ==>
      if exists i :: 0 <= i < |j.records| && j.records[i].path == u then Planned(j, u, c) else MayBecome(s, None, u, c)
  {
    var n := |j.records| - 1;
    assert Settled(after, Live(j.records[n].path), New(j.records[n]));
    forall u, c | MayBecome(after, None, u, c)
      ensures if exists i :: 0 <= i < |j.records| && j.records[i].path == u then Planned(j, u, c)
        else MayBecome(s, None, u, c)
    {
      if !exists i :: 0 <= i < |j.records| && j.records[i].path == u {
        assert Outside(Live(u), j);
      }
    }
  }

  function EmptyState(identity: WorkspaceIdentity): WorkspaceState {
    WorkspaceState(identity, 0, None, map[], map[])
  }

  function TasksOf(s: DiskState): set<Uuid> {
    if StateOf(s).Ok? then StateOf(s).value.tasks.Keys else {}
  }

  type Reply<T> = Result<T, StoreError>

  /** The disk or its content is at fault, not the request. */
  predicate StorageFault(e: StoreError) {
    e == StateCorrupt || e == PersistenceUnavailable || e == WorkspaceMismatch
  }

  /** A write can also be refused for lack of space. */
  predicate WriteFault(e: StoreError) { StorageFault(e) || e == StorageFull }

  // ------------------------------------------------------------------------- writes and the full check

  lemma ByOperationHas(records: seq<ExecutionRecord>)
    requires DistinctOperations(records)
    ensures forall record :: record in records ==>
      record.operationId in ByOperation(records) && ByOperation(records)[record.operationId] == record
  {
    if records != [] {
      var rest := records[..|records| - 1];
      ByOperationHas(rest);
      forall record | record in records
        ensures record.operationId in ByOperation(records) && ByOperation(records)[record.operationId] == record
      {
        var k :| 0 <= k < |records| && records[k] == record;
        if k < |rest| { assert rest[k] == record; }
      }
    }
  }

  lemma PlannedTargets(j: Journal, s: DiskState, state: WorkspaceState, records: seq<ExecutionRecord>)
    requires Plans(j, s, state, records)
    ensures forall t, c :: Planned(j, t, c) ==> Wanted(state, records, t, c)
    ensures Durable(s, Live(StateJson)) ==>
      (forall record :: record in records ==> Durable(s, Live(Receipt(record.operationId)))) ==> AllOld(s, j)
  {
    forall i | 0 <= i < |j.records|
      ensures Wanted(state, records, j.records[i].path, New(j.records[i]))
    {
      if i < |records| { assert records[i] in records; }
    }
  }

  lemma PlannedAreNew(j: Journal, s: DiskState, after: DiskState, state: WorkspaceState, records: seq<ExecutionRecord>)
    requires Plans(j, s, state, records) && AllNew(after, j)
    ensures Settled(after, Live(StateJson), Some(StateFile(state)))
    ensures forall record :: record in records ==>
      Settled(after, Live(Receipt(record.operationId)), Some(ReceiptFile(record)))
  {
    assert Settled(after, Live(j.records[|records|].path), New(j.records[|records|]));
    forall record | record in records
      ensures Settled(after, Live(Receipt(record.operationId)), Some(ReceiptFile(record)))
    {
      var k :| 0 <= k < |records| && records[k] == record;
      assert Settled(after, Live(j.records[k].path), New(j.records[k]));
    }
  }

  lemma CommitLeaves(j: Journal, s: DiskState, after: DiskState, state: WorkspaceState, records: seq<ExecutionRecord>,
                     op: Uuid)
    requires Plans(j, s, state, records) && CalmOutside(s, after, j)
    requires forall record :: record in records ==> record.operationId != op
    ensures Seen(after, Live(Receipt(op))) == Seen(s, Live(Receipt(op)))
  {
    forall k | 0 <= k < |j.records| ensures j.records[k].path != Receipt(op) {
      if k < |records| { assert records[k] in records; }
    }
    assert Outside(Live(Receipt(op)), j);
  }

  lemma CommitReplaces(j: Journal, s: DiskState, state: WorkspaceState, records: seq<ExecutionRecord>,
                       record: ExecutionRecord)
    requires Plans(j, s, state, records) && record in records
    ensures Seen(s, Live(Receipt(record.operationId))).Some?
  {
    var k :| 0 <= k < |records| && records[k] == record;
    assert Seen(s, Live(j.records[k].path)) == Old(j.records[k]);
  }

  /** What is visible once the transaction has been applied. */
  lemma CommitShows(s: DiskState, after: DiskState, receipts: Receipts, state: WorkspaceState,
                    records: seq<ExecutionRecord>, j: Journal)
    requires Shows(s, receipts) && DistinctOperations(records)
    requires forall record :: record in records ==> ExecutionOk(record)
    requires Plans(j, s, state, records) && AllNew(after, j) && CalmOutside(s, after, j)
    ensures Seen(after, Live(StateJson)) == Some(StateFile(state))
    ensures Shows(after, receipts + ByOperation(records))
    ensures ByOperation(records).Keys <= receipts.Keys
  {
    PlannedAreNew(j, s, after, state, records);
    forall op { CommitShowsOne(s, after, receipts, state, records, j, op); }
  }

  lemma CommitShowsOne(s: DiskState, after: DiskState, receipts: Receipts, state: WorkspaceState,
                       records: seq<ExecutionRecord>, j: Journal, op: Uuid)
    requires Shows(s, receipts) && DistinctOperations(records)
    requires forall record :: record in records ==> ExecutionOk(record)
    requires Plans(j, s, state, records) && AllNew(after, j) && CalmOutside(s, after, j)
    ensures op in ByOperation(records) ==> op in receipts
    ensures op in receipts + ByOperation(records) <==> Seen(after, Live(Receipt(op))).Some?
    ensures op in receipts + ByOperation(records) ==>
      ParseExecution(Seen(after, Live(Receipt(op))).value) == Ok((receipts + ByOperation(records))[op])
      && (receipts + ByOperation(records))[op].operationId == op
  {
    ByOperationHas(records);
    if op in ByOperation(records) {
      PlannedAreNew(j, s, after, state, records);
      CommitReplaces(j, s, state, records, ByOperation(records)[op]);
    } else {
      CommitLeaves(j, s, after, state, records, op);
    }
  }

  lemma CommitKeepsFullCheck(s: DiskState, after: DiskState, workspaceId: Uuid, receipts: Receipts,
                             state: WorkspaceState, records: seq<ExecutionRecord>, j: Journal)
    requires FullCheck(s, workspaceId) && Shows(s, receipts)
    requires WorkspaceOk(state) && state.workspace.workspaceId == workspaceId && DistinctOperations(records)
    requires forall record :: record in records ==> ExecutionOk(record)
    requires AdmittedCommit(state, ByOperation(records), receipts)
    requires Plans(j, s, state, records) && AllNew(after, j) && CalmOutside(s, after, j)
    ensures FullCheck(after, workspaceId)
  {
    CommitShows(s, after, receipts, state, records, j);
    assert Seen(s, Live(j.records[|records|].path)) == Old(j.records[|records|]);
    FullCheckSays(s, workspaceId, receipts);
    CommitKeepsOwnership(StateOf(s).value, state, ByOperation(records), receipts);
    FullCheckSays(after, workspaceId, receipts + ByOperation(records));
  }

  function ByOperation(records: seq<ExecutionRecord>): (m: Receipts)
    ensures KeyedByOperation(m)
    ensures forall op :: op in m ==> m[op] in records
  {
    if records == [] then map[]
      else ByOperation(records[..|records| - 1])[records[|records| - 1].operationId := records[|records| - 1]]
  }

  /** All of `AcceptsCommit` but the existence of the replaced receipts, which preparing the journal checks. */
  predicate AdmittedCommit(state: WorkspaceState, replaced: Receipts, receipts: Receipts) {
    && IndexedOwnersOk(state, receipts)
    && (forall op :: op in replaced ==> ImmutableOwnerOk(replaced[op], receipts))
    && SelectedOk(state, replaced, receipts, true)
  }

  predicate Wanted(state: WorkspaceState, records: seq<ExecutionRecord>, t: Target, c: Option<File>) {
    || (t == StateJson && c == Some(StateFile(state)))
    || (t.Receipt? && exists record ::
       record in records && record.operationId == t.operationId && c == Some(ReceiptFile(record)))
  }

  lemma ReceiptWriteAndFullCheck(s: DiskState, after: DiskState, workspaceId: Uuid, receipts: Receipts,
                                 record: ExecutionRecord, state: WorkspaceState)
    requires FullCheck(s, workspaceId) && Shows(s, receipts) && StateOf(s) == Ok(state)
    requires ExecutionOk(record) && AcceptsExecution(record, state, receipts)
    requires OnlyChanged(s, after, Receipt(record.operationId), ReceiptFile(record))
    ensures FullCheck(after, workspaceId) <==> !ForeignMention(record, receipts)
  {
    ReceiptWritten(s, after, receipts, record);
    FullCheckSays(s, workspaceId, receipts);
    FullCheckSays(after, workspaceId, receipts[record.operationId := record]);
    ExecutionWriteKeepsOwnership(record, state, receipts);
  }

  lemma SnapshotWriteKeepsFullCheck(s: DiskState, after: DiskState, workspaceId: Uuid, receipts: Receipts,
                                    state: WorkspaceState)
    requires FullCheck(s, workspaceId) && Shows(s, receipts)
    requires WorkspaceOk(state) && AcceptsWorkspace(state, receipts) && state.workspace.workspaceId == workspaceId
    requires SameLive(s, after) || OnlyChanged(s, after, StateJson, StateFile(state))
    ensures FullCheck(after, workspaceId)
  {
    if SameLive(s, after) {
      SameLiveSameFiles(s, after);
    } else {
      SnapshotWritten(s, after, receipts, state);
      NextSnapshotOwned(s, workspaceId, receipts, state);
      FullCheckSays(after, workspaceId, receipts);
    }
  }

  lemma NextSnapshotOwned(s: DiskState, workspaceId: Uuid, receipts: Receipts, state: WorkspaceState)
    requires FullCheck(s, workspaceId) && Shows(s, receipts)
    requires AcceptsWorkspace(state, receipts) && state.workspace.workspaceId == workspaceId
    ensures FullyOwned(state, receipts)
  {
    if Seen(s, Live(StateJson)).Some? {
      FullCheckSays(s, workspaceId, receipts);
      WorkspaceWriteKeepsOwnership(StateOf(s).value, state, receipts);
    } else {
      NoSnapshotNoReceipts(s, workspaceId, receipts);
      assert receipts + map[] == receipts;
    }
  }

  lemma NoSnapshotNoReceipts(s: DiskState, workspaceId: Uuid, receipts: Receipts)
    requires FullCheck(s, workspaceId) && Shows(s, receipts) && Seen(s, Live(StateJson)).None?
    ensures receipts == map[]
  {
    assert FilesOf(s) == map[];
    forall op ensures op !in receipts {
      assert op in receipts <==> Seen(s, Live(Receipt(op))).Some?;
      assert Receipt(op) in FilesOf(s) <==> Seen(s, Live(Receipt(op))).Some?;
    }
  }

  /** Whom an operation belongs to: nobody if its file is missing, else what was read, else what is indexed. */
  function LookupOwners(byOperation: map<Uuid, Locator>, missing: set<Uuid>, records: Receipts): Owners {
    map op | op in (byOperation.Keys - missing) + records.Keys ::
      if op in records then records[op].taskId else byOperation[op].taskId
  }

  lemma LookupAgrees(receipts: Receipts, ids: set<Uuid>, selected: Receipts, byOperation: map<Uuid, Locator>)
    requires byOperation == map op | op in receipts :: LocatorOf(receipts[op])
    requires ids !! selected.Keys
    ensures LookupOwners(byOperation, ids - Found(ids, receipts).Keys, Found(ids, receipts) + selected) ==
      OwnersOf(receipts + selected)
  {
  }

  lemma ForeignWorkspaceFails(state: WorkspaceState, selected: Receipts, receipts: Receipts, readFiles: bool, op: Uuid)
    requires op in LookedUp(state, selected, readFiles) && op in receipts
    requires receipts[op].workspaceId != state.workspace.workspaceId
    ensures !SelectedOk(state, selected, receipts, readFiles)
  {
    var records := Selected(state, selected, receipts, readFiles);
    var owners := OwnersOf(receipts + selected);
    assert records[op] == receipts[op] && records[op] in records.Values;
    assert !RecordOwned(records[op], state, owners);
  }

  lemma RecoveredStore(s: DiskState, after: DiskState, j: Journal, workspaceId: Uuid, done: bool)
    requires Ours(s, j, workspaceId) && MissingIsFirm(s) && Kept(s, after, j) && (done ==> Recovered(s, after, j))
    ensures StoreOk(after, if done then None else Some(j), workspaceId)
  {
    TargetsStay(s, after, j, workspaceId);
  }
}
