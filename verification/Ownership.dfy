/**
  * The incremental owner checks of src/continuity/task-store.ts, and why they are enough.
  *
  * Boot and recovery check every receipt against the snapshot (`FullyOwned`). A normal write reads only
  * the receipts its new snapshot or record mentions. The lemmas below relate the two.
  */
module Ownership {
  import opened Wrappers
  import opened TaskTypes
  import opened StorageSchema

  // ------------------------------------------------------------------------------- what is mentioned

  function ReceiptRefs(refs: seq<EvidenceRef>): set<Uuid> {
    set ref | ref in refs && ref.kind == ReceiptEvidence && ref.operationId.Some? :: ref.operationId.value
  }

  function TaskRefs(task: Task): set<Uuid> {
    ReceiptRefs(task.checkpoint.evidenceRefs)
    + (set entry | entry in ReconciliationsOf(task) :: entry.operationId)
    + (set entry, op | entry in ReconciliationsOf(task) && op in ReceiptRefs(entry.evidenceRefs) :: op)
  }

  function ResolutionRefs(record: ExecutionRecord): set<Uuid> {
    if record.callerResolution.Some? then ReceiptRefs(record.callerResolution.value.evidenceRefs) else {}
  }

  function Mentioned(state: WorkspaceState, selected: Receipts): set<Uuid> {
    (set id, op | id in state.tasks && op in TaskRefs(state.tasks[id]) :: op)
    + (set id, op | id in selected && op in ResolutionRefs(selected[id]) :: op)
  }

  // ----------------------------------------------------------------------- what a normal write checks

  predicate IndexedOwnersOk(state: WorkspaceState, receipts: Receipts) {
    forall op :: op in receipts ==> receipts[op].taskId in state.tasks
  }

  predicate ImmutableOwnerOk(record: ExecutionRecord, receipts: Receipts) {
    record.operationId in receipts ==> receipts[record.operationId].taskId == record.taskId
  }

  /** What `#validateSelected` looks up on disk: every mentioned receipt that was not handed to it. */
  function LookedUp(state: WorkspaceState, selected: Receipts, readFiles: bool): set<Uuid> {
    if readFiles then Mentioned(state, selected) - selected.Keys else {}
  }

  function Found(ids: set<Uuid>, receipts: Receipts): Receipts {
    map op | op in ids && op in receipts :: receipts[op]
  }

  function Selected(state: WorkspaceState, selected: Receipts, receipts: Receipts, readFiles: bool): Receipts {
    Found(LookedUp(state, selected, readFiles), receipts) + selected
  }

  predicate SelectedOk(state: WorkspaceState, selected: Receipts, receipts: Receipts, readFiles: bool) {
    OwnershipOk(state, Selected(state, selected, receipts, readFiles).Values, OwnersOf(receipts + selected))
  }

  /** `writeWorkspace` accepts the snapshot. */
  predicate AcceptsWorkspace(state: WorkspaceState, receipts: Receipts) {
    IndexedOwnersOk(state, receipts) && SelectedOk(state, map[], receipts, true)
  }

  /** `commitWorkspace` accepts the snapshot and the replaced receipts (each of which must exist to be journaled). */
  predicate AcceptsCommit(state: WorkspaceState, replaced: Receipts, receipts: Receipts) {
    && IndexedOwnersOk(state, receipts)
    && (forall op :: op in replaced ==> ImmutableOwnerOk(replaced[op], receipts))
    && replaced.Keys <= receipts.Keys
    && SelectedOk(state, replaced, receipts, true)
  }

  /** `writeExecution` accepts the record. */
  predicate AcceptsExecution(record: ExecutionRecord, state: WorkspaceState, receipts: Receipts) {
    && IndexedOwnersOk(state, receipts)
    && ImmutableOwnerOk(record, receipts)
    && SelectedOk(state, map[record.operationId := record], receipts, false)
  }

  // ------------------------------------------------------------------------------ why that is enough

  predicate KeyedByOperation(receipts: Receipts) {
    forall op :: op in receipts ==> receipts[op].operationId == op
  }

  lemma WorkspaceWriteKeepsOwnership(before: WorkspaceState, after: WorkspaceState, receipts: Receipts)
    requires FullyOwned(before, receipts) && AcceptsWorkspace(after, receipts)
    requires after.workspace.workspaceId == before.workspace.workspaceId
    ensures FullyOwned(after, receipts)
  {
    assert receipts + map[] == receipts;
    forall record | record in receipts.Values
      ensures RecordOwned(record, after, OwnersOf(receipts))
    {
      assert RecordOwned(record, before, OwnersOf(receipts));
      var op :| op in receipts && receipts[op] == record;
    }
  }

  lemma CommitKeepsOwnership(before: WorkspaceState, after: WorkspaceState, replaced: Receipts, receipts: Receipts)
    requires FullyOwned(before, receipts) && AcceptsCommit(after, replaced, receipts)
    requires KeyedByOperation(receipts) && KeyedByOperation(replaced)
    requires after.workspace.workspaceId == before.workspace.workspaceId
    ensures FullyOwned(after, receipts + replaced)
  {
    var merged := receipts + replaced;
    forall op | op in merged ensures op in receipts && OwnersOf(merged)[op] == OwnersOf(receipts)[op] {
      if op in replaced { assert ImmutableOwnerOk(replaced[op], receipts); }
    }
    forall record | record in merged.Values
      ensures RecordOwned(record, after, OwnersOf(merged))
    {
      var op :| op in merged && merged[op] == record;
      if op in replaced {
        assert Selected(after, replaced, receipts, true)[op] == record;
      } else {
        assert record in receipts.Values;
        assert RecordOwned(record, before, OwnersOf(receipts));
      }
    }
  }

  /** The selection a read checks is part of what the full check covers. */
  lemma OwnedIsSelected(state: WorkspaceState, receipts: Receipts, selected: Receipts)
    requires FullyOwned(state, receipts)
    requires forall op :: op in selected ==> op in receipts && selected[op] == receipts[op]
    ensures SelectedOk(state, selected, receipts, true)
  {
    assert receipts + selected == receipts;
    var chosen := Selected(state, selected, receipts, true);
    forall record | record in chosen.Values ensures record in receipts.Values {
      var op :| op in chosen && chosen[op] == record;
      assert receipts[op] == record;
    }
  }

  /** Another task's stored resolution already names this operation. */
  predicate ForeignMention(record: ExecutionRecord, receipts: Receipts) {
    exists op :: op in receipts && op != record.operationId
      && record.operationId in ResolutionRefs(receipts[op]) && receipts[op].taskId != record.taskId
  }

  /**
    * A receipt write reads no other receipt. It keeps the full check exactly when no stored resolution of
    * another task names the operation.
    */
  lemma ExecutionWriteKeepsOwnership(record: ExecutionRecord, state: WorkspaceState, receipts: Receipts)
    requires FullyOwned(state, receipts) && KeyedByOperation(receipts)
    requires AcceptsExecution(record, state, receipts)
    ensures FullyOwned(state, receipts[record.operationId := record]) <==> !ForeignMention(record, receipts)
  {
    var op0 := record.operationId;
    var after := receipts[op0 := record];
    assert receipts + map[op0 := record] == after;
    assert Selected(state, map[op0 := record], receipts, false)[op0] == record;
    assert RecordOwned(record, state, OwnersOf(after));
    if ForeignMention(record, receipts) {
      var op :| op in receipts && op != op0 && op0 in ResolutionRefs(receipts[op])
        && receipts[op].taskId != record.taskId;
      ForeignMentionBreaks(receipts[op], op0, state, OwnersOf(after));
      assert after[op] in after.Values;
    } else {
      forall other | other in after.Values
        ensures RecordOwned(other, state, OwnersOf(after))
      {
        var op :| op in after && after[op] == other;
        if op != op0 {
          assert other in receipts.Values;
          OtherReceiptStaysOwned(op, record, state, receipts);
        }
      }
    }
  }

  /** The condition can only fail for an operation's first receipt. */
  lemma ReplacedReceiptHasNoForeignMention(record: ExecutionRecord, state: WorkspaceState, receipts: Receipts)
    requires FullyOwned(state, receipts) && ImmutableOwnerOk(record, receipts)
    requires record.operationId in receipts
    ensures !ForeignMention(record, receipts)
  {
    forall op | op in receipts && op != record.operationId && record.operationId in ResolutionRefs(receipts[op])
      ensures receipts[op].taskId == record.taskId
    {
      assert receipts[op] in receipts.Values;
      if receipts[op].taskId != record.taskId {
        ForeignMentionBreaks(receipts[op], record.operationId, state, OwnersOf(receipts));
        assert false;
      }
    }
  }

  lemma ForeignMentionBreaks(other: ExecutionRecord, op: Uuid, state: WorkspaceState, owners: Owners)
    requires op in ResolutionRefs(other) && op in owners && owners[op] != other.taskId
    ensures !RecordOwned(other, state, owners)
  {
    var refs := other.callerResolution.value.evidenceRefs;
    var ref :| ref in refs && ref.kind == ReceiptEvidence && ref.operationId == Some(op);
    assert !RefOk(ref, other.taskId, owners);
  }

  lemma OtherReceiptStaysOwned(op: Uuid, record: ExecutionRecord, state: WorkspaceState, receipts: Receipts)
    requires op in receipts && op != record.operationId
    requires RecordOwned(receipts[op], state, OwnersOf(receipts)) && !ForeignMention(record, receipts)
    ensures RecordOwned(receipts[op], state, OwnersOf(receipts[record.operationId := record]))
  {
    var other := receipts[op];
    var after := OwnersOf(receipts[record.operationId := record]);
    if other.callerResolution.Some? {
      forall ref | ref in other.callerResolution.value.evidenceRefs
        ensures RefOk(ref, other.taskId, after)
      {
        assert RefOk(ref, other.taskId, OwnersOf(receipts));
        if ref.kind == ReceiptEvidence && ref.operationId == Some(record.operationId) {
          assert record.operationId in ResolutionRefs(other);
        }
      }
    }
  }

  /** What leaves everything owned is accepted. */
  lemma OwnedIsAccepted(state: WorkspaceState, replaced: Receipts, receipts: Receipts)
    requires FullyOwned(state, receipts + replaced) && replaced.Keys <= receipts.Keys && KeyedByOperation(replaced)
    requires forall op :: op in replaced ==> replaced[op].taskId == receipts[op].taskId
    ensures AcceptsCommit(state, replaced, receipts)
    ensures replaced == map[] ==> AcceptsWorkspace(state, receipts)
  {
    var merged := receipts + replaced;
    forall op | op in receipts ensures receipts[op].taskId in state.tasks { assert merged[op] in merged.Values; }
    var chosen := Selected(state, replaced, receipts, true);
    forall record | record in chosen.Values ensures record in merged.Values {
      var op :| op in chosen && chosen[op] == record;
      assert merged[op] == record;
    }
  }
}
