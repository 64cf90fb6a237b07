/**
  * Every disk the workspace can come out with passes the full check of the next boot.
  *
  * The check (src/continuity/storage-schema.ts:131-155) relates a snapshot to receipts and receipts to each
  * other, two files at a time. So it is enough that every two contents that are possible, whichever way a
  * transaction or a power loss decides them, go together.
  */
module Soundness {
  import opened Wrappers
  import opened TaskTypes
  import opened StorageSchema
  import opened Durability
  import opened AtomicWriter
  import opened StorageJournal
  import opened Ownership
  import opened StoreOutcomes
  import Migrations = StorageMigration

  // -------------------------------------------------------------------------------- two files at a time

  predicate ReceiptsAgree(a: ExecutionRecord, b: ExecutionRecord) {
    && (a.operationId == b.operationId ==> a.taskId == b.taskId)
    && (b.operationId in ResolutionRefs(a) ==> b.taskId == a.taskId)
  }

  predicate Houses(state: WorkspaceState, a: ExecutionRecord) {
    && a.taskId in state.tasks
    && forall id :: id in state.tasks && a.operationId in TaskRefs(state.tasks[id]) ==>
       a.taskId == state.tasks[id].taskId
  }

  /** A reconciliation stored in the snapshot needs this receipt. */
  predicate Needs(state: WorkspaceState, op: Uuid) {
    exists id, e :: id in state.tasks && e in ReconciliationsOf(state.tasks[id]) && e.operationId == op
  }

  ghost predicate AgreeAll(receipts: Receipts) {
    forall x, y :: x in receipts && y in receipts ==> ReceiptsAgree(receipts[x], receipts[y])
  }

  /** The full check, restated for pairs. */
  ghost predicate GoTogether(state: WorkspaceState, receipts: Receipts) {
    && (forall op :: op in receipts ==>
       receipts[op].workspaceId == state.workspace.workspaceId && Houses(state, receipts[op]))
    && AgreeAll(receipts)
    && forall op :: Needs(state, op) ==> op in receipts
  }

  lemma PairsAreEnough(state: WorkspaceState, receipts: Receipts)
    requires KeyedByOperation(receipts) && GoTogether(state, receipts)
    ensures FullyOwned(state, receipts)
  {
    var owners := OwnersOf(receipts);
    forall record | record in receipts.Values ensures RecordOwned(record, state, owners) {
      var op :| op in receipts && receipts[op] == record;
      assert Houses(state, record);
      if record.callerResolution.Some? {
        forall ref | ref in record.callerResolution.value.evidenceRefs ensures RefOk(ref, record.taskId, owners) {
          if ref.kind == ReceiptEvidence && ref.operationId.Some? && ref.operationId.value in receipts {
            assert ref.operationId.value in ResolutionRefs(record);
            assert ReceiptsAgree(record, receipts[ref.operationId.value]);
          }
        }
      }
    }
    forall id | id in state.tasks ensures TaskOwned(state.tasks[id], owners) { TaskGoesTogether(state, receipts, id); }
  }

  lemma TaskGoesTogether(state: WorkspaceState, receipts: Receipts, id: Uuid)
    requires KeyedByOperation(receipts) && GoTogether(state, receipts) && id in state.tasks
    ensures TaskOwned(state.tasks[id], OwnersOf(receipts))
  {
    var task, owners := state.tasks[id], OwnersOf(receipts);
    forall op | op in TaskRefs(task) && op in receipts
      ensures owners[op] == task.taskId
    {
      assert Houses(state, receipts[op]);
    }
    forall entry | entry in ReconciliationsOf(task)
      ensures entry.operationId in owners && owners[entry.operationId] == task.taskId
      ensures RefsOk(entry.evidenceRefs, task.taskId, owners)
    {
      assert Needs(state, entry.operationId) && entry.operationId in TaskRefs(task);
      forall ref | ref in entry.evidenceRefs ensures RefOk(ref, task.taskId, owners) {
        if ref.kind == ReceiptEvidence && ref.operationId.Some? {
          assert ref.operationId.value in ReceiptRefs(entry.evidenceRefs);
          assert ref.operationId.value in TaskRefs(task);
        }
      }
    }
    forall ref | ref in task.checkpoint.evidenceRefs ensures RefOk(ref, task.taskId, owners) {
      if ref.kind == ReceiptEvidence && ref.operationId.Some? { assert ref.operationId.value in TaskRefs(task); }
    }
  }

  lemma OwnedTaskHouses(state: WorkspaceState, owners: Owners, id: Uuid, op: Uuid)
    requires id in state.tasks && TaskOwned(state.tasks[id], owners)
    ensures op in TaskRefs(state.tasks[id]) && op in owners ==> owners[op] == state.tasks[id].taskId
  {
    var task := state.tasks[id];
    if op in TaskRefs(task) && op in owners {
      if op in ReceiptRefs(task.checkpoint.evidenceRefs) {
        var ref :| ref in task.checkpoint.evidenceRefs && ref.kind == ReceiptEvidence && ref.operationId == Some(op);
        assert RefOk(ref, task.taskId, owners);
      } else if entry :| entry in ReconciliationsOf(task) && entry.operationId == op {
      } else {
        var entry :| entry in ReconciliationsOf(task) && op in ReceiptRefs(entry.evidenceRefs);
        var ref :| ref in entry.evidenceRefs && ref.kind == ReceiptEvidence && ref.operationId == Some(op);
        assert RefOk(ref, task.taskId, owners);
      }
    }
  }

  /** What the ownership check of a snapshot says of one receipt of the given owners. */
  lemma OwnedHouses(state: WorkspaceState, owners: Owners, a: ExecutionRecord)
    requires forall id :: id in state.tasks ==> TaskOwned(state.tasks[id], owners)
    requires a.operationId in owners && owners[a.operationId] == a.taskId && a.taskId in state.tasks
    ensures Houses(state, a)
  {
    forall id | id in state.tasks && a.operationId in TaskRefs(state.tasks[id])
      ensures a.taskId == state.tasks[id].taskId
    {
      OwnedTaskHouses(state, owners, id, a.operationId);
    }
  }

  lemma OwnedNeeds(state: WorkspaceState, owners: Owners, op: Uuid)
    requires forall id :: id in state.tasks ==> TaskOwned(state.tasks[id], owners)
    requires Needs(state, op)
    ensures op in owners && op in Mentioned(state, map[])
  {
    var id, e :| id in state.tasks && e in ReconciliationsOf(state.tasks[id]) && e.operationId == op;
    assert TaskOwned(state.tasks[id], owners);
    assert op in TaskRefs(state.tasks[id]);
  }

  lemma OwnedAgree(record: ExecutionRecord, state: WorkspaceState, owners: Owners, b: ExecutionRecord)
    requires RecordOwned(record, state, owners) && b.operationId in owners && owners[b.operationId] == b.taskId
    ensures b.operationId in ResolutionRefs(record) ==> b.taskId == record.taskId
  {
    if b.operationId in ResolutionRefs(record) {
      var refs := record.callerResolution.value.evidenceRefs;
      var ref :| ref in refs && ref.kind == ReceiptEvidence && ref.operationId == Some(b.operationId);
      assert RefOk(ref, record.taskId, owners);
    }
  }

  // --------------------------------------------------------------------------- over all possible contents

  /** The next reader may find this receipt. */
  ghost predicate Possible(s: DiskState, inflight: Option<Journal>, op: Uuid, a: ExecutionRecord) {
    exists c :: MayBecome(s, inflight, Receipt(op), c) && c.Some? && ParseExecution(c.value) == Ok(a)
  }

  /** Every reader will find this receipt, whatever happens to the disk. */
  ghost predicate OnDisk(s: DiskState, inflight: Option<Journal>, op: Uuid, a: ExecutionRecord) {
    forall c :: MayBecome(s, inflight, Receipt(op), c) ==> c.Some? && ParseExecution(c.value) == Ok(a)
  }

  /** The next reader may find this snapshot. */
  ghost predicate PossibleState(s: DiskState, inflight: Option<Journal>, state: WorkspaceState) {
    exists c :: MayBecome(s, inflight, StateJson, c) && c.Some? && ParseWorkspace(c.value) == Ok(state)
  }

  predicate SnapshotReads(f: File, workspaceId: Uuid) {
    match ParseWorkspace(f) case Err(_) => false case Ok(state) => state.workspace.workspaceId == workspaceId
  }

  predicate ReceiptReads(f: File, op: Uuid, workspaceId: Uuid) {
    match ParseExecution(f) case Err(_) => false case Ok(a) => a.operationId == op && a.workspaceId == workspaceId
  }

  ghost predicate Readable(s: DiskState, inflight: Option<Journal>, workspaceId: Uuid) {
    && (forall c :: MayBecome(s, inflight, StateJson, c) && c.Some? ==> SnapshotReads(c.value, workspaceId))
    && forall op, c :: MayBecome(s, inflight, Receipt(op), c) && c.Some? ==> ReceiptReads(c.value, op, workspaceId)
  }

  ghost predicate Housed(s: DiskState, inflight: Option<Journal>) {
    && (forall state, op, a :: PossibleState(s, inflight, state) && Possible(s, inflight, op, a) ==> Houses(state, a))
    && forall op, a :: Possible(s, inflight, op, a) ==> !MayBecome(s, inflight, StateJson, None)
  }

  ghost predicate Agreed(s: DiskState, inflight: Option<Journal>) {
    forall x, y, a, b :: Possible(s, inflight, x, a) && Possible(s, inflight, y, b) ==> ReceiptsAgree(a, b)
  }

  ghost predicate Supplied(s: DiskState, inflight: Option<Journal>) {
    forall state, op :: PossibleState(s, inflight, state) && Needs(state, op) ==>
      !MayBecome(s, inflight, Receipt(op), None)
  }

  ghost predicate Sound(s: DiskState, inflight: Option<Journal>, workspaceId: Uuid) {
    Readable(s, inflight, workspaceId) && Housed(s, inflight) && Agreed(s, inflight) && Supplied(s, inflight)
  }

  /** One disk, after recovery and power losses: path by path a content that is possible. */
  ghost predicate Prospect(s: DiskState, inflight: Option<Journal>, o: DiskState) {
    forall t :: MayBecome(s, inflight, t, Seen(o, Live(t)))
  }

  /** Whatever the disk comes out with, the full check of the next boot passes. */
  ghost predicate AlwaysValid(s: DiskState, inflight: Option<Journal>, workspaceId: Uuid) {
    forall o :: Prospect(s, inflight, o) ==> FullCheck(o, workspaceId)
  }

  lemma SoundIsAlwaysValid(s: DiskState, inflight: Option<Journal>, workspaceId: Uuid)
    requires Sound(s, inflight, workspaceId)
    ensures AlwaysValid(s, inflight, workspaceId)
  {
    forall o | Prospect(s, inflight, o)
      ensures FullCheck(o, workspaceId)
    {
      ProspectIsValid(s, inflight, workspaceId, o);
    }
  }

  lemma ProspectIsValid(s: DiskState, inflight: Option<Journal>, workspaceId: Uuid, o: DiskState)
    requires Sound(s, inflight, workspaceId) && Prospect(s, inflight, o)
    ensures FullCheck(o, workspaceId)
  {
    var receipts := ProspectReceipts(s, inflight, workspaceId, o);
    if Seen(o, Live(StateJson)).None? {
      assert MayBecome(s, inflight, StateJson, None);
      NoFilesAreValid(o, workspaceId, receipts);
    } else {
      assert MayBecome(s, inflight, StateJson, Seen(o, Live(StateJson)));
      ProspectGoesTogether(s, inflight, workspaceId, o, receipts);
      PairsAreEnough(StateOf(o).value, receipts);
      FullCheckSays(o, workspaceId, receipts);
    }
  }

  lemma NoFilesAreValid(o: DiskState, workspaceId: Uuid, receipts: Receipts)
    requires Shows(o, receipts) && receipts == map[] && Seen(o, Live(StateJson)).None?
    ensures FullCheck(o, workspaceId)
  {
    forall t ensures t !in FilesOf(o) {
      if t.Receipt? { assert t.operationId in receipts <==> Seen(o, Live(t)).Some?; }
    }
    assert FilesOf(o) == map[];
  }

  lemma ProspectReceipts(s: DiskState, inflight: Option<Journal>, workspaceId: Uuid,
                         o: DiskState) returns (receipts: Receipts)
    requires Readable(s, inflight, workspaceId) && Prospect(s, inflight, o)
    ensures Shows(o, receipts) && KeyedByOperation(receipts)
    ensures forall op :: op in receipts ==> Possible(s, inflight, op, receipts[op])
  {
    receipts := Migrations.ReceiptsIn(FilesOf(o));
    forall op
      ensures op in receipts <==> Seen(o, Live(Receipt(op))).Some?
      ensures op in receipts ==>
        ParseExecution(Seen(o, Live(Receipt(op))).value) == Ok(receipts[op]) && receipts[op].operationId == op
      ensures op in receipts ==> Possible(s, inflight, op, receipts[op])
    {
      assert MayBecome(s, inflight, Receipt(op), Seen(o, Live(Receipt(op))));
      assert op in Migrations.OperationsIn(FilesOf(o)) <==> Receipt(op) in FilesOf(o);
    }
  }

  lemma ProspectGoesTogether(s: DiskState, inflight: Option<Journal>, workspaceId: Uuid, o: DiskState,
                             receipts: Receipts)
    requires Sound(s, inflight, workspaceId) && Prospect(s, inflight, o) && Shows(o, receipts)
    requires forall op :: op in receipts ==> Possible(s, inflight, op, receipts[op])
    requires StateOf(o).Ok? && PossibleState(s, inflight, StateOf(o).value)
    requires StateOf(o).value.workspace.workspaceId == workspaceId
    ensures GoTogether(StateOf(o).value, receipts)
  {
    hide MayBecome, Houses, ReceiptsAgree, TaskRefs, WorkspaceOk, Seen;
    var state := StateOf(o).value;
    forall op | op in receipts ensures receipts[op].workspaceId == workspaceId && Houses(state, receipts[op]) {
      assert MayBecome(s, inflight, Receipt(op), Seen(o, Live(Receipt(op))));
    }
    forall op | Needs(state, op) ensures op in receipts {
      assert MayBecome(s, inflight, Receipt(op), Seen(o, Live(Receipt(op))));
    }
  }

  /** Where every file is durable, the pairs say no more than the full check. */
  lemma SettledIsSound(s: DiskState, workspaceId: Uuid)
    requires forall t :: Durable(s, Live(t))
    ensures Sound(s, None, workspaceId) <==> FullCheck(s, workspaceId)
  {
    if Sound(s, None, workspaceId) {
      assert Prospect(s, None, s);
      ProspectIsValid(s, None, workspaceId, s);
    }
    if FullCheck(s, workspaceId) {
      var receipts := Migrations.ReceiptsIn(FilesOf(s));
      FullCheckShows(s, workspaceId);
      if Seen(s, Live(StateJson)).None? {
        NoSnapshotNoReceipts(s, workspaceId, receipts);
        EmptyIsSound(s, workspaceId, receipts);
      } else {
        FullCheckSays(s, workspaceId, receipts);
        OwnedIsSound(s, workspaceId, receipts, StateOf(s).value);
      }
    }
  }

  lemma EmptyIsSound(s: DiskState, workspaceId: Uuid, receipts: Receipts)
    requires (forall t :: Durable(s, Live(t))) && Shows(s, receipts) && receipts == map[]
    requires Seen(s, Live(StateJson)).None?
    ensures Sound(s, None, workspaceId)
  {
    forall op ensures Seen(s, Live(Receipt(op))).None? { assert op in receipts <==> Seen(s, Live(Receipt(op))).Some?; }
  }

  lemma OwnedGoTogether(state: WorkspaceState, receipts: Receipts)
    requires KeyedByOperation(receipts) && FullyOwned(state, receipts)
    ensures GoTogether(state, receipts)
  {
    var owners := OwnersOf(receipts);
    forall op | op in receipts ensures RecordOwned(receipts[op], state, owners) && Houses(state, receipts[op]) {
      assert receipts[op] in receipts.Values;
      OwnedHouses(state, owners, receipts[op]);
    }
    forall x, y | x in receipts && y in receipts ensures ReceiptsAgree(receipts[x], receipts[y]) {
      OwnedAgree(receipts[x], state, owners, receipts[y]);
    }
    forall op | Needs(state, op) ensures op in receipts { OwnedNeeds(state, owners, op); }
  }

  lemma OwnedIsSound(s: DiskState, workspaceId: Uuid, receipts: Receipts, state: WorkspaceState)
    requires (forall t :: Durable(s, Live(t))) && Shows(s, receipts) && StateOf(s) == Ok(state)
    requires state.workspace.workspaceId == workspaceId && FullyOwned(state, receipts)
    ensures Sound(s, None, workspaceId)
  {
    hide FullyOwned, Houses, ReceiptsAgree, Needs, WorkspaceOk;
    OwnedGoTogether(state, receipts);
    OnlyTheVisible(s, receipts, state);
    forall op, c | MayBecome(s, None, Receipt(op), c) && c.Some? ensures ReceiptReads(c.value, op, workspaceId) {}
  }

  lemma OnlyTheVisible(s: DiskState, receipts: Receipts, state: WorkspaceState)
    requires (forall t :: Durable(s, Live(t))) && Shows(s, receipts) && StateOf(s) == Ok(state)
    ensures forall op, a :: Possible(s, None, op, a) ==> op in receipts && receipts[op] == a
    ensures forall st :: PossibleState(s, None, st) ==> st == state
  {
  }

  // ------------------------------------------------------------------------------------ what keeps it

  /** Recovery, syncs, restarts and power failures. */
  lemma NothingNewIsSound(s: DiskState, inflight: Option<Journal>, after: DiskState, inflightAfter: Option<Journal>,
                          workspaceId: Uuid)
    requires Sound(s, inflight, workspaceId) && NoNewOutcome(s, inflight, after, inflightAfter)
    ensures Sound(after, inflightAfter, workspaceId)
  {
    assert forall op, a :: Possible(after, inflightAfter, op, a) ==> Possible(s, inflight, op, a);
    assert forall state :: PossibleState(after, inflightAfter, state) ==> PossibleState(s, inflight, state);
  }

  lemma CalmIsSound(s: DiskState, after: DiskState, workspaceId: Uuid)
    requires Sound(s, None, workspaceId) && Calmer(s, after)
    ensures Sound(after, None, workspaceId)
  {
    NothingNewIsSound(s, None, after, None, workspaceId);
  }

  /** The same owner, the same resolution. */
  predicate SameRefs(a: ExecutionRecord, b: ExecutionRecord) {
    && b.operationId == a.operationId && b.taskId == a.taskId && b.workspaceId == a.workspaceId
    && b.callerResolution == a.callerResolution
  }

  /** A later version of a receipt that was possible. */
  ghost predicate Renews(s: DiskState, inflight: Option<Journal>, op: Uuid, b: ExecutionRecord) {
    ExecutionOk(b) && exists a :: Possible(s, inflight, op, a) && SameRefs(a, b)
  }

  lemma RenewedAgree(a: ExecutionRecord, a': ExecutionRecord, b: ExecutionRecord, b': ExecutionRecord)
    requires ReceiptsAgree(a, b) && SameRefs(a, a') && SameRefs(b, b')
    ensures ReceiptsAgree(a', b')
  {
  }

  /** Where each version of a receipt comes from. */
  ghost predicate Origins(s: DiskState, inflight: Option<Journal>, after: DiskState, inflightAfter: Option<Journal>) {
    && (forall c :: MayBecome(after, inflightAfter, StateJson, c) ==> MayBecome(s, inflight, StateJson, c))
    && forall op, c :: MayBecome(after, inflightAfter, Receipt(op), c) ==>
        MayBecome(s, inflight, Receipt(op), c) || exists b :: Renews(s, inflight, op, b) && c == Some(ReceiptFile(b))
  }

  lemma RenewedFrom(s: DiskState, inflight: Option<Journal>, after: DiskState, inflightAfter: Option<Journal>,
                    workspaceId: Uuid, op: Uuid, b: ExecutionRecord)
    returns (a: ExecutionRecord)
    requires Readable(s, inflight, workspaceId) && Origins(s, inflight, after, inflightAfter)
    requires Possible(after, inflightAfter, op, b)
    ensures Possible(s, inflight, op, a) && SameRefs(a, b) && a.operationId == op && a.workspaceId == workspaceId
  {
    var c :| MayBecome(after, inflightAfter, Receipt(op), c) && c.Some? && ParseExecution(c.value) == Ok(b);
    if MayBecome(s, inflight, Receipt(op), c) {
      a := b;
    } else {
      var b' :| Renews(s, inflight, op, b') && c == Some(ReceiptFile(b'));
      a :| Possible(s, inflight, op, a) && SameRefs(a, b');
    }
  }

  /** Boot recovery, and every operation of the recorder on a receipt that exists. */
  lemma RenewalIsSound(s: DiskState, inflight: Option<Journal>, after: DiskState, inflightAfter: Option<Journal>,
                       workspaceId: Uuid)
    requires Sound(s, inflight, workspaceId) && Origins(s, inflight, after, inflightAfter)
    ensures Sound(after, inflightAfter, workspaceId)
  {
    hide MayBecome;
    assert forall state :: PossibleState(after, inflightAfter, state) ==> PossibleState(s, inflight, state);
    forall x, y, a, b | Possible(after, inflightAfter, x, a) && Possible(after, inflightAfter, y, b)
      ensures ReceiptsAgree(a, b)
    {
      var a' := RenewedFrom(s, inflight, after, inflightAfter, workspaceId, x, a);
      var b' := RenewedFrom(s, inflight, after, inflightAfter, workspaceId, y, b);
      RenewedAgree(a', a, b', b);
    }
    forall op, a | Possible(after, inflightAfter, op, a)
      ensures !MayBecome(after, inflightAfter, StateJson, None)
      ensures forall state :: PossibleState(after, inflightAfter, state) ==> Houses(state, a)
    {
      var a' := RenewedFrom(s, inflight, after, inflightAfter, workspaceId, op, a);
    }
    RenewedIsReadable(s, inflight, after, inflightAfter, workspaceId);
  }

  lemma RenewedIsReadable(s: DiskState, inflight: Option<Journal>, after: DiskState, inflightAfter: Option<Journal>,
                          workspaceId: Uuid)
    requires Readable(s, inflight, workspaceId) && Origins(s, inflight, after, inflightAfter)
    ensures Readable(after, inflightAfter, workspaceId)
  {
    forall op, c | MayBecome(after, inflightAfter, Receipt(op), c) && c.Some?
      ensures ReceiptReads(c.value, op, workspaceId)
    {
      if !MayBecome(s, inflight, Receipt(op), c) {
        var b :| Renews(s, inflight, op, b) && c == Some(ReceiptFile(b));
        var a :| Possible(s, inflight, op, a) && SameRefs(a, b);
      }
    }
  }

  // ------------------------------------------------------------------------- a snapshot and its receipts

  predicate NewContent(state: WorkspaceState, replaced: Receipts, t: Target, c: Option<File>) {
    match t
    case StateJson => c == Some(StateFile(state))
    case Receipt(op) => op in replaced && c == Some(ReceiptFile(replaced[op]))
  }

  ghost predicate Adds(s: DiskState, after: DiskState, inflight: Option<Journal>, state: WorkspaceState,
                       replaced: Receipts) {
    forall t, c :: MayBecome(after, inflight, t, c) ==> MayBecome(s, None, t, c) || NewContent(state, replaced, t, c)
  }

  /** The checks of `writeWorkspace` and `commitWorkspace`, and what they confirm on the way. */
  ghost predicate Admitted(s: DiskState, receipts: Receipts, state: WorkspaceState, replaced: Receipts) {
    && Shows(s, receipts) && WorkspaceOk(state) && AdmittedCommit(state, replaced, receipts)
    && KeyedByOperation(replaced) && replaced.Keys <= receipts.Keys
    && (forall op :: op in replaced ==> ExecutionOk(replaced[op]))
    && forall op :: op in receipts && (op in replaced || op in Mentioned(state, replaced)) ==>
       Durable(s, Live(Receipt(op)))
  }

  lemma OwnerIsFixed(s: DiskState, workspaceId: Uuid, receipts: Receipts, op: Uuid, a: ExecutionRecord)
    requires Sound(s, None, workspaceId) && MissingIsFirm(s) && Shows(s, receipts) && Possible(s, None, op, a)
    ensures op in receipts && receipts[op].taskId == a.taskId && a.operationId == op && a.workspaceId == workspaceId
    ensures Possible(s, None, op, receipts[op])
  {
    assert MayBecome(s, None, Receipt(op), Seen(s, Live(Receipt(op))));
    assert op in receipts && Possible(s, None, op, receipts[op]);
    assert ReceiptsAgree(a, receipts[op]);
  }

  /** Each version of a receipt, old or new, belongs to the indexed owner. */
  lemma AddedReceipt(s: DiskState, after: DiskState, inflight: Option<Journal>, workspaceId: Uuid, receipts: Receipts,
                     state: WorkspaceState, replaced: Receipts, op: Uuid, a: ExecutionRecord)
    requires Sound(s, None, workspaceId) && MissingIsFirm(s) && Admitted(s, receipts, state, replaced)
    requires Adds(s, after, inflight, state, replaced) && Possible(after, inflight, op, a)
    ensures op in receipts && receipts[op].taskId == a.taskId && a.operationId == op
    ensures Possible(s, None, op, a) || (op in replaced && a == replaced[op])
    ensures Possible(s, None, op, receipts[op])
  {
    var c :| MayBecome(after, inflight, Receipt(op), c) && c.Some? && ParseExecution(c.value) == Ok(a);
    if MayBecome(s, None, Receipt(op), c) {
      OwnerIsFixed(s, workspaceId, receipts, op, a);
    } else {
      assert NewContent(state, replaced, Receipt(op), c) && ImmutableOwnerOk(replaced[op], receipts);
      assert MayBecome(s, None, Receipt(op), Seen(s, Live(Receipt(op))));
    }
  }

  lemma AddedAgree(s: DiskState, after: DiskState, inflight: Option<Journal>, workspaceId: Uuid, receipts: Receipts,
                   state: WorkspaceState, replaced: Receipts, x: Uuid, a: ExecutionRecord, y: Uuid, b: ExecutionRecord)
    requires Sound(s, None, workspaceId) && MissingIsFirm(s) && Admitted(s, receipts, state, replaced)
    requires Adds(s, after, inflight, state, replaced) && Possible(after, inflight, x, a)
    requires Possible(after, inflight, y, b)
    ensures ReceiptsAgree(a, b)
  {
    AddedReceipt(s, after, inflight, workspaceId, receipts, state, replaced, x, a);
    AddedReceipt(s, after, inflight, workspaceId, receipts, state, replaced, y, b);
    var owners := OwnersOf(receipts + replaced);
    assert owners[y] == b.taskId by { if y in replaced { assert ImmutableOwnerOk(replaced[y], receipts); } }
    if Possible(s, None, x, a) {
      assert ReceiptsAgree(a, receipts[y]) && receipts[y].operationId == y;
    } else {
      var selected := Selected(state, replaced, receipts, true);
      assert x in selected && selected[x] == a && a in selected.Values;
      OwnedAgree(a, state, owners, b);
    }
  }

  lemma AddedHouses(s: DiskState, after: DiskState, inflight: Option<Journal>, workspaceId: Uuid, receipts: Receipts,
                    state: WorkspaceState, replaced: Receipts, st: WorkspaceState, op: Uuid, a: ExecutionRecord)
    requires Sound(s, None, workspaceId) && MissingIsFirm(s) && Admitted(s, receipts, state, replaced)
    requires Adds(s, after, inflight, state, replaced) && Possible(after, inflight, op, a)
    requires st == state || PossibleState(s, None, st)
    ensures Houses(st, a)
  {
    AddedReceipt(s, after, inflight, workspaceId, receipts, state, replaced, op, a);
    if PossibleState(s, None, st) {
      assert Houses(st, receipts[op]) && receipts[op].operationId == op;
    } else {
      var owners := OwnersOf(receipts + replaced);
      assert owners[op] == a.taskId by { if op in replaced { assert ImmutableOwnerOk(replaced[op], receipts); } }
      OwnedHouses(state, owners, a);
    }
  }

  lemma AddedSupplies(s: DiskState, after: DiskState, inflight: Option<Journal>, workspaceId: Uuid, receipts: Receipts,
                      state: WorkspaceState, replaced: Receipts, st: WorkspaceState, op: Uuid)
    requires Sound(s, None, workspaceId) && MissingIsFirm(s) && Admitted(s, receipts, state, replaced)
    requires Adds(s, after, inflight, state, replaced) && Needs(st, op)
    requires st == state || PossibleState(s, None, st)
    ensures !MayBecome(after, inflight, Receipt(op), None)
  {
    hide WorkspaceOk, ImmutableOwnerOk, Readable, Housed, Agreed, TaskRefs, ReconciliationsOf;
    if MayBecome(after, inflight, Receipt(op), None) {
      assert MayBecome(s, None, Receipt(op), None);
      assert st == state;
      OwnedNeeds(state, OwnersOf(receipts + replaced), op);
      assert false;
    }
  }

  lemma AddedState(s: DiskState, after: DiskState, inflight: Option<Journal>, state: WorkspaceState, replaced: Receipts,
                   st: WorkspaceState)
    requires Adds(s, after, inflight, state, replaced) && WorkspaceOk(state) && PossibleState(after, inflight, st)
    ensures st == state || PossibleState(s, None, st)
  {
    var c :| MayBecome(after, inflight, StateJson, c) && c.Some? && ParseWorkspace(c.value) == Ok(st);
  }

  lemma ReplacedIsOurs(state: WorkspaceState, replaced: Receipts, receipts: Receipts, op: Uuid)
    requires SelectedOk(state, replaced, receipts, true) && op in replaced
    requires ExecutionOk(replaced[op]) && replaced[op].operationId == op
    ensures ReceiptReads(ReceiptFile(replaced[op]), op, state.workspace.workspaceId)
  {
    var selected := Selected(state, replaced, receipts, true);
    assert op in selected && selected[op] == replaced[op] && replaced[op] in selected.Values;
  }

  lemma OursRead(state: WorkspaceState)
    requires WorkspaceOk(state)
    ensures SnapshotReads(StateFile(state), state.workspace.workspaceId)
  {
  }

  lemma AddedIsReadable(s: DiskState, after: DiskState, inflight: Option<Journal>, state: WorkspaceState,
                        replaced: Receipts, receipts: Receipts)
    requires Readable(s, None, state.workspace.workspaceId) && Admitted(s, receipts, state, replaced)
    requires Adds(s, after, inflight, state, replaced)
    ensures Readable(after, inflight, state.workspace.workspaceId)
  {
    hide MayBecome, Shows, WorkspaceOk, ExecutionOk, SnapshotReads, ReceiptReads, StateFile, ReceiptFile, Mentioned;
    forall op | op in replaced ensures ReceiptReads(ReceiptFile(replaced[op]), op, state.workspace.workspaceId) {
      ReplacedIsOurs(state, replaced, receipts, op);
    }
    OursRead(state);
    OnlyReadableAdded(s, after, inflight, state, replaced);
  }

  lemma OnlyReadableAdded(s: DiskState, after: DiskState, inflight: Option<Journal>, state: WorkspaceState,
                          replaced: Receipts)
    requires Readable(s, None, state.workspace.workspaceId) && Adds(s, after, inflight, state, replaced)
    requires SnapshotReads(StateFile(state), state.workspace.workspaceId)
    requires forall op :: op in replaced ==> ReceiptReads(ReceiptFile(replaced[op]), op, state.workspace.workspaceId)
    ensures Readable(after, inflight, state.workspace.workspaceId)
  {
    hide MayBecome, SnapshotReads, ReceiptReads, StateFile, ReceiptFile;
  }

  /** `writeWorkspace`, and `commitWorkspace` however it ends. */
  lemma AdmittedIsSound(s: DiskState, after: DiskState, inflight: Option<Journal>, workspaceId: Uuid,
                        receipts: Receipts, state: WorkspaceState, replaced: Receipts)
    requires Sound(s, None, workspaceId) && MissingIsFirm(s) && Admitted(s, receipts, state, replaced)
    requires state.workspace.workspaceId == workspaceId && Adds(s, after, inflight, state, replaced)
    ensures Sound(after, inflight, workspaceId)
  {
    AddedIsReadable(s, after, inflight, state, replaced, receipts);
    forall st | PossibleState(after, inflight, st) ensures st == state || PossibleState(s, None, st) {
      AddedState(s, after, inflight, state, replaced, st);
    }
    forall x, y, a, b | Possible(after, inflight, x, a) && Possible(after, inflight, y, b) ensures ReceiptsAgree(a, b) {
      AddedAgree(s, after, inflight, workspaceId, receipts, state, replaced, x, a, y, b);
    }
    forall st, op, a | PossibleState(after, inflight, st) && Possible(after, inflight, op, a) ensures Houses(st, a) {
      AddedHouses(s, after, inflight, workspaceId, receipts, state, replaced, st, op, a);
    }
    forall op, a | Possible(after, inflight, op, a) ensures !MayBecome(after, inflight, StateJson, None) {
      AddedReceipt(s, after, inflight, workspaceId, receipts, state, replaced, op, a);
    }
    forall st, op | PossibleState(after, inflight, st) && Needs(st, op)
      ensures !MayBecome(after, inflight, Receipt(op), None)
    {
      AddedSupplies(s, after, inflight, workspaceId, receipts, state, replaced, st, op);
    }
  }

  // ------------------------------------------------------------------------------------- one receipt

  /** Some receipt of another task may resolve itself with a reference to this operation. */
  ghost predicate PossiblyForeign(s: DiskState, inflight: Option<Journal>, record: ExecutionRecord) {
    exists y, b :: Possible(s, inflight, y, b) && Misses(b, record)
  }

  predicate Misses(b: ExecutionRecord, record: ExecutionRecord) {
    record.operationId in ResolutionRefs(b) && b.taskId != record.taskId
  }

  /** It is only ever true of an operation that has no receipt yet. */
  lemma KnownOperationIsNotForeign(s: DiskState, inflight: Option<Journal>, workspaceId: Uuid, a: ExecutionRecord,
                                   record: ExecutionRecord)
    requires Sound(s, inflight, workspaceId) && Possible(s, inflight, record.operationId, a)
    requires a.taskId == record.taskId
    ensures !PossiblyForeign(s, inflight, record)
  {
    assert a.operationId == record.operationId;
    forall y, b | Possible(s, inflight, y, b) ensures !Misses(b, record) { assert ReceiptsAgree(b, a); }
  }

  /** What `writeExecution` checks, and what its callers have confirmed: a first receipt needs the snapshot durable. */
  ghost predicate AdmittedReceipt(s: DiskState, receipts: Receipts, state: WorkspaceState, record: ExecutionRecord) {
    && Shows(s, receipts) && StateOf(s) == Ok(state) && record.workspaceId == state.workspace.workspaceId
    && ExecutionOk(record) && AcceptsExecution(record, state, receipts)
    && (record.operationId in receipts || Durable(s, Live(StateJson)))
  }

  ghost predicate AddsReceipt(s: DiskState, after: DiskState, record: ExecutionRecord) {
    forall t, c :: MayBecome(after, None, t, c) ==>
      MayBecome(s, None, t, c) || (t == Receipt(record.operationId) && c == Some(ReceiptFile(record)))
  }

  lemma WrittenOwnerExists(s: DiskState, receipts: Receipts, op: Uuid)
    requires Shows(s, receipts) && op in receipts
    ensures Possible(s, None, op, receipts[op])
  {
    assert MayBecome(s, None, Receipt(op), Seen(s, Live(Receipt(op))));
  }

  /** The new receipt is among those the check selects. */
  lemma SelectedIsOwned(state: WorkspaceState, record: ExecutionRecord, receipts: Receipts)
    requires AcceptsExecution(record, state, receipts)
    ensures RecordOwned(record, state, OwnersOf(receipts + map[record.operationId := record]))
  {
    var selected := Selected(state, map[record.operationId := record], receipts, false);
    assert selected[record.operationId] == record && record in selected.Values;
  }

  /** What every reference of the new receipt resolves to stays within its task. */
  lemma WrittenMentions(s: DiskState, workspaceId: Uuid, receipts: Receipts, state: WorkspaceState,
                        record: ExecutionRecord, y: Uuid, b: ExecutionRecord)
    requires Sound(s, None, workspaceId) && MissingIsFirm(s) && AdmittedReceipt(s, receipts, state, record)
    requires Possible(s, None, y, b)
    ensures ReceiptsAgree(record, b)
  {
    hide Sound, Shows, WorkspaceOk, MayBecome, ExecutionOk;
    OwnerIsFixed(s, workspaceId, receipts, y, b);
    SelectedIsOwned(state, record, receipts);
    OwnedAgree(record, state, OwnersOf(receipts + map[record.operationId := record]), b);
  }

  lemma WrittenHouses(s: DiskState, workspaceId: Uuid, receipts: Receipts, state: WorkspaceState,
                      record: ExecutionRecord, st: WorkspaceState)
    requires Sound(s, None, workspaceId) && MissingIsFirm(s) && AdmittedReceipt(s, receipts, state, record)
    requires PossibleState(s, None, st)
    ensures Houses(st, record)
  {
    var op := record.operationId;
    if op in receipts {
      WrittenOwnerExists(s, receipts, op);
      assert Houses(st, receipts[op]) && receipts[op].operationId == op;
    } else {
      assert st == state;
      SelectedIsOwned(state, record, receipts);
      OwnedHouses(state, OwnersOf(receipts + map[op := record]), record);
    }
  }

  lemma WrittenReceipt(s: DiskState, after: DiskState, workspaceId: Uuid, receipts: Receipts, state: WorkspaceState,
                       record: ExecutionRecord, op: Uuid, a: ExecutionRecord)
    requires AdmittedReceipt(s, receipts, state, record) && AddsReceipt(s, after, record)
    requires Possible(after, None, op, a)
    ensures Possible(s, None, op, a) || a == record
  {
  }

  lemma NoMention(s: DiskState, after: DiskState, workspaceId: Uuid, receipts: Receipts, state: WorkspaceState,
                  record: ExecutionRecord)
    requires Sound(s, None, workspaceId) && AdmittedReceipt(s, receipts, state, record) && AddsReceipt(s, after, record)
    requires record.operationId in receipts || !PossiblyForeign(s, None, record)
    ensures !PossiblyForeign(after, None, record)
  {
    if record.operationId in receipts {
      WrittenOwnerExists(s, receipts, record.operationId);
      KnownOperationIsNotForeign(s, None, workspaceId, receipts[record.operationId], record);
    }
    forall y, b | Possible(after, None, y, b) ensures !Misses(b, record) {
      WrittenReceipt(s, after, workspaceId, receipts, state, record, y, b);
    }
  }

  /** `writeExecution`, however it ends. */
  lemma WrittenIsSound(s: DiskState, after: DiskState, workspaceId: Uuid, receipts: Receipts, state: WorkspaceState,
                       record: ExecutionRecord)
    requires Sound(s, None, workspaceId) && MissingIsFirm(s) && AdmittedReceipt(s, receipts, state, record)
    requires record.workspaceId == workspaceId
    requires AddsReceipt(s, after, record) && !PossiblyForeign(after, None, record)
    ensures Sound(after, None, workspaceId)
  {
    forall x, y, a, b | Possible(after, None, x, a) && Possible(after, None, y, b) ensures ReceiptsAgree(a, b) {
      WrittenReceipt(s, after, workspaceId, receipts, state, record, x, a);
      WrittenReceipt(s, after, workspaceId, receipts, state, record, y, b);
      WrittenAgrees(s, after, workspaceId, receipts, state, record, x, a, y, b);
    }
    forall st, op, a | PossibleState(after, None, st) && Possible(after, None, op, a) ensures Houses(st, a) {
      assert PossibleState(s, None, st);
      WrittenReceipt(s, after, workspaceId, receipts, state, record, op, a);
      if !Possible(s, None, op, a) { WrittenHouses(s, workspaceId, receipts, state, record, st); }
    }
    WrittenLeavesTheRest(s, after, workspaceId, receipts, state, record);
  }

  lemma WrittenAgrees(s: DiskState, after: DiskState, workspaceId: Uuid, receipts: Receipts, state: WorkspaceState,
                      record: ExecutionRecord, x: Uuid, a: ExecutionRecord, y: Uuid, b: ExecutionRecord)
    requires Sound(s, None, workspaceId) && MissingIsFirm(s) && AdmittedReceipt(s, receipts, state, record)
    requires !PossiblyForeign(after, None, record) && Possible(after, None, x, a)
    requires Possible(s, None, x, a) || a == record
    requires Possible(s, None, y, b) || b == record
    ensures ReceiptsAgree(a, b)
  {
    assert !Misses(a, record);
    if Possible(s, None, y, b) {
      if !Possible(s, None, x, a) { WrittenMentions(s, workspaceId, receipts, state, record, y, b); }
    } else if Possible(s, None, x, a) {
      WrittenMentions(s, workspaceId, receipts, state, record, x, a);
    }
  }

  lemma WrittenLeavesTheRest(s: DiskState, after: DiskState, workspaceId: Uuid, receipts: Receipts,
                             state: WorkspaceState, record: ExecutionRecord)
    requires Sound(s, None, workspaceId) && AdmittedReceipt(s, receipts, state, record)
    requires record.workspaceId == workspaceId
    requires AddsReceipt(s, after, record)
    ensures Readable(after, None, workspaceId) && Supplied(after, None)
    ensures forall op, a :: Possible(after, None, op, a) ==> !MayBecome(after, None, StateJson, None)
  {
    assert !MayBecome(s, None, StateJson, None) by {
      if record.operationId in receipts { WrittenOwnerExists(s, receipts, record.operationId); }
    }
    assert forall st :: PossibleState(after, None, st) ==> PossibleState(s, None, st);
  }

  /** The other half: once both may be found together, some disk the workspace can come out with fails the check. */
  lemma ForeignIsNotValid(s: DiskState, workspaceId: Uuid, record: ExecutionRecord)
    requires OnDisk(s, None, record.operationId, record) && PossiblyForeign(s, None, record)
    ensures !AlwaysValid(s, None, workspaceId)
  {
    var op := record.operationId;
    var y, b :| Possible(s, None, y, b) && Misses(b, record);
    var c :| MayBecome(s, None, Receipt(y), c) && c.Some? && ParseExecution(c.value) == Ok(b);
    var o := DiskState(s.visible[Live(Receipt(y)) := c.value], map[]);
    assert forall p :: Seen(o, p) == if p == Live(Receipt(y)) then c else Seen(s, p);
    assert Prospect(s, None, o);
    assert MayBecome(s, None, Receipt(op), Seen(o, Live(Receipt(op))));
    if FullCheck(o, workspaceId) { FoundTogether(o, workspaceId, record, y, b); }
  }

  lemma FoundTogether(o: DiskState, workspaceId: Uuid, record: ExecutionRecord, y: Uuid, b: ExecutionRecord)
    requires Misses(b, record)
    requires Seen(o, Live(Receipt(y))).Some? && ParseExecution(Seen(o, Live(Receipt(y))).value) == Ok(b)
    requires Seen(o, Live(Receipt(record.operationId))).Some?
    requires ParseExecution(Seen(o, Live(Receipt(record.operationId))).value) == Ok(record)
    ensures !FullCheck(o, workspaceId)
  {
    if FullCheck(o, workspaceId) {
      FullCheckShows(o, workspaceId);
      var receipts := Migrations.ReceiptsIn(FilesOf(o));
      assert y in receipts && receipts[y] == b && record.operationId in receipts
        && receipts[record.operationId] == record;
      if Seen(o, Live(StateJson)).None? { NoSnapshotNoReceipts(o, workspaceId, receipts); }
      FullCheckSays(o, workspaceId, receipts);
      assert receipts[y] in receipts.Values;
      ForeignMentionBreaks(b, record.operationId, StateOf(o).value, OwnersOf(receipts));
    }
  }

  /** A receipt that was written: every boot passes exactly when no other receipt may name it from another task. */
  lemma WrittenDecides(s: DiskState, after: DiskState, workspaceId: Uuid, receipts: Receipts, state: WorkspaceState,
                       record: ExecutionRecord)
    requires Sound(s, None, workspaceId) && MissingIsFirm(s) && AdmittedReceipt(s, receipts, state, record)
    requires record.workspaceId == workspaceId
    requires AddsReceipt(s, after, record) && OnDisk(after, None, record.operationId, record)
    ensures AlwaysValid(after, None, workspaceId) <==> !PossiblyForeign(after, None, record)
    ensures Sound(after, None, workspaceId) <==> !PossiblyForeign(after, None, record)
  {
    if PossiblyForeign(after, None, record) {
      ForeignIsNotValid(after, workspaceId, record);
      if Sound(after, None, workspaceId) { SoundIsAlwaysValid(after, None, workspaceId); }
    } else {
      WrittenIsSound(s, after, workspaceId, receipts, state, record);
      SoundIsAlwaysValid(after, None, workspaceId);
    }
  }

  /** With every receipt durable, what may be named is what is named. */
  lemma FirmMentions(s: DiskState, receipts: Receipts, record: ExecutionRecord)
    requires Shows(s, receipts) && MissingIsFirm(s) && forall op :: op in receipts ==> Durable(s, Live(Receipt(op)))
    requires forall op :: op in receipts && op == record.operationId ==> receipts[op].taskId == record.taskId
    ensures PossiblyForeign(s, None, record) <==> ForeignMention(record, receipts)
  {
    if PossiblyForeign(s, None, record) {
      var y, b :| Possible(s, None, y, b) && Misses(b, record);
      assert MayBecome(s, None, Receipt(y), Seen(s, Live(Receipt(y)))) && y in receipts && receipts[y] == b;
    }
    if ForeignMention(record, receipts) {
      var y :| y in receipts && y != record.operationId && record.operationId in ResolutionRefs(receipts[y])
        && receipts[y].taskId != record.taskId;
      WrittenOwnerExists(s, receipts, y);
      assert Misses(receipts[y], record);
    }
  }

  // ------------------------------------------------------------------------------- what is visible now

  lemma VisibleIsValid(s: DiskState, workspaceId: Uuid)
    requires Sound(s, None, workspaceId)
    ensures FullCheck(s, workspaceId)
  {
    assert Prospect(s, None, s);
    ProspectIsValid(s, None, workspaceId, s);
  }

  lemma VisibleReads(s: DiskState, workspaceId: Uuid)
    requires Sound(s, None, workspaceId)
    ensures Seen(s, Live(StateJson)).Some? ==> StateOf(s).Ok? && StateOf(s).value.workspace.workspaceId == workspaceId
    ensures forall op :: Seen(s, Live(Receipt(op))).Some? ==> Seen(s, Live(StateJson)).Some?
  {
    assert MayBecome(s, None, StateJson, Seen(s, Live(StateJson)));
    forall op | Seen(s, Live(Receipt(op))).Some? ensures Seen(s, Live(StateJson)).Some? {
      var c := Seen(s, Live(Receipt(op)));
      assert MayBecome(s, None, Receipt(op), c) && ReceiptReads(c.value, op, workspaceId);
      assert Possible(s, None, op, ParseExecution(c.value).value);
    }
  }

  lemma VisibleReceiptReads(s: DiskState, workspaceId: Uuid, receipts: Receipts, op: Uuid)
    requires Sound(s, None, workspaceId) && Shows(s, receipts) && op in receipts
    ensures receipts[op].workspaceId == workspaceId
  {
    var c := Seen(s, Live(Receipt(op)));
    assert MayBecome(s, None, Receipt(op), c) && ReceiptReads(c.value, op, workspaceId);
  }

  /** So a read that validates what it selected is not refused. */
  lemma VisibleIsSelected(s: DiskState, workspaceId: Uuid, receipts: Receipts, state: WorkspaceState,
                          selected: Receipts)
    requires Sound(s, None, workspaceId) && Shows(s, receipts) && StateOf(s) == Ok(state)
    requires forall op :: op in selected ==> op in receipts && selected[op] == receipts[op]
    ensures state.workspace.workspaceId == workspaceId && SelectedOk(state, selected, receipts, true)
  {
    VisibleIsValid(s, workspaceId);
    FullCheckSays(s, workspaceId, receipts);
    OwnedIsSelected(state, receipts, selected);
  }

  // ------------------------------------------------------------------------------- as the store uses it

  /** The store may write this receipt: it exists already, or the snapshot it is checked against is durable. */
  predicate Known(s: DiskState, op: Uuid) {
    Seen(s, Live(Receipt(op))).Some? || Durable(s, Live(StateJson))
  }

  /** The whole of `writeExecution`: what reading synced on the way (`read`), and then the write. */
  lemma ReceiptWriteDecides(s: DiskState, read: DiskState, after: DiskState, workspaceId: Uuid, receipts: Receipts,
                            state: WorkspaceState, record: ExecutionRecord)
    requires Sound(s, None, workspaceId) && MissingIsFirm(s) && Calmer(s, read) && Shows(read, receipts)
    requires StateOf(read) == Ok(state)
    requires Known(s, record.operationId) && record.workspaceId == workspaceId == state.workspace.workspaceId
    requires ExecutionOk(record) && AcceptsExecution(record, state, receipts) && AddsReceipt(read, after, record)
    ensures !PossiblyForeign(after, None, record) ==> Sound(after, None, workspaceId)
    ensures Seen(s, Live(Receipt(record.operationId))).Some? ==> Sound(after, None, workspaceId)
    ensures OnDisk(after, None, record.operationId, record) ==>
      (AlwaysValid(after, None, workspaceId) <==> !PossiblyForeign(after, None, record))
  {
    CalmIsSound(s, read, workspaceId);
    assert MissingIsFirm(read);
    assert record.operationId in receipts <==> Seen(s, Live(Receipt(record.operationId))).Some?;
    if record.operationId in receipts { NoMention(read, after, workspaceId, receipts, state, record); }
    if !PossiblyForeign(after, None, record) { WrittenIsSound(read, after, workspaceId, receipts, state, record); }
    if OnDisk(after, None, record.operationId, record) {
      WrittenDecides(read, after, workspaceId, receipts, state, record);
    }
  }

  /** A later version of a visible receipt passes the checks of `writeExecution`. */
  lemma RenewalIsAccepted(s: DiskState, workspaceId: Uuid, receipts: Receipts, record: ExecutionRecord)
    requires Sound(s, None, workspaceId) && Shows(s, receipts) && record.operationId in receipts
    requires SameRefs(receipts[record.operationId], record)
    ensures StateOf(s).Ok? && AcceptsExecution(record, StateOf(s).value, receipts)
  {
    VisibleReads(s, workspaceId);
    VisibleIsValid(s, workspaceId);
    FullCheckSays(s, workspaceId, receipts);
    OwnedRenewalIsAccepted(StateOf(s).value, receipts, record);
  }

  lemma OwnedRenewalIsAccepted(state: WorkspaceState, receipts: Receipts, record: ExecutionRecord)
    requires FullyOwned(state, receipts) && record.operationId in receipts
    requires SameRefs(receipts[record.operationId], record)
    ensures AcceptsExecution(record, state, receipts)
  {
    var op := record.operationId;
    assert receipts[op] in receipts.Values && RecordOwned(receipts[op], state, OwnersOf(receipts));
    assert OwnersOf(receipts + map[op := record]) == OwnersOf(receipts);
    forall y | y in receipts ensures receipts[y].taskId in state.tasks { assert receipts[y] in receipts.Values; }
    forall other | other in Selected(state, map[op := record], receipts, false).Values ensures other == record {}
  }

  lemma WantedIsNew(state: WorkspaceState, records: seq<ExecutionRecord>, t: Target, c: Option<File>)
    requires DistinctOperations(records) && Wanted(state, records, t, c)
    ensures NewContent(state, ByOperation(records), t, c)
  {
    ByOperationHas(records);
  }

  /** A transaction, however it ends. */
  lemma CommitIsSound(s: DiskState, after: DiskState, inflight: Option<Journal>, workspaceId: Uuid, receipts: Receipts,
                      state: WorkspaceState, records: seq<ExecutionRecord>)
    requires Sound(s, None, workspaceId) && MissingIsFirm(s) && Shows(s, receipts) && WorkspaceOk(state)
    requires state.workspace.workspaceId == workspaceId
    requires DistinctOperations(records) && AdmittedCommit(state, ByOperation(records), receipts)
    requires forall record :: record in records ==>
      ExecutionOk(record) && Durable(s, Live(Receipt(record.operationId))) && record.operationId in receipts
    requires forall op :: op in LookedUp(state, ByOperation(records), true) && op in receipts ==>
      Durable(s, Live(Receipt(op)))
    requires forall t, c :: MayBecome(after, inflight, t, c) ==>
      MayBecome(s, None, t, c) || Wanted(state, records, t, c)
    ensures Sound(after, inflight, workspaceId)
  {
    var replaced := ByOperation(records);
    forall op | op in replaced
      ensures op in receipts && Durable(s, Live(Receipt(op))) && ExecutionOk(replaced[op])
    {
      assert replaced[op] in records;
    }
    forall t, c | MayBecome(after, inflight, t, c) && !MayBecome(s, None, t, c)
      ensures NewContent(state, replaced, t, c)
    {
      WantedIsNew(state, records, t, c);
    }
    AdmittedIsSound(s, after, inflight, workspaceId, receipts, state, replaced);
  }

  /** One snapshot, however its write ends. */
  lemma SnapshotIsSound(s: DiskState, after: DiskState, workspaceId: Uuid, receipts: Receipts, state: WorkspaceState)
    requires Sound(s, None, workspaceId) && MissingIsFirm(s) && Shows(s, receipts) && WorkspaceOk(state)
    requires state.workspace.workspaceId == workspaceId
    requires AcceptsWorkspace(state, receipts)
    requires forall op :: op in LookedUp(state, map[], true) && op in receipts ==> Durable(s, Live(Receipt(op)))
    requires forall t, c :: MayBecome(after, None, t, c) ==>
      MayBecome(s, None, t, c) || (t == StateJson && c == Some(StateFile(state)))
    ensures Sound(after, None, workspaceId)
  {
    CommitIsSound(s, after, None, workspaceId, receipts, state, []);
  }
}
