/** `initialize` of src/continuity/task-store.ts on one workspace of schema 2: what every new process does first. */
module Boot {
  import opened Arithmetic
  import opened Wrappers
  import opened TaskTypes
  import opened StorageSchema
  import opened Durability
  import opened AtomicWriter
  import opened StorageJournal
  import opened StoreOutcomes
  import opened Soundness
  import opened TaskStore
  import opened ExecutionRecorder
  import Migrations = StorageMigration

  /** The receipts once the boot with these times has dealt with the operations in `done`. */
  function Advanced(receipts: Receipts, done: set<Uuid>, bootId: Uuid, clock: Uuid -> Time): Receipts {
    map op | op in receipts :: if op in done then AfterBoot(receipts[op], bootId, clock(op)) else receipts[op]
  }

  predicate NoneUnsettled(receipts: Receipts, bootId: Uuid) {
    forall op :: op in receipts && receipts[op].bootId != bootId ==>
      receipts[op].state != Prepared && receipts[op].state != Running
  }

  /** Every receipt there was is there, and settled if an earlier boot left it open. */
  ghost predicate AllSettled(before: Receipts, after: Receipts, bootId: Uuid, clock: Uuid -> Time) {
    after.Keys == before.Keys && forall op :: op in before ==> SettledByBoot(before[op], after[op], bootId, clock(op))
  }

  lemma AdvancedIsSettled(receipts: Receipts, bootId: Uuid, clock: Uuid -> Time)
    ensures AllSettled(receipts, Advanced(receipts, receipts.Keys, bootId, clock), bootId, clock)
  {
    hide AfterBoot, SettledByBoot;
    forall op | op in receipts
      ensures SettledByBoot(receipts[op], AfterBoot(receipts[op], bootId, clock(op)), bootId, clock(op))
    {
      BootSettles(receipts[op], bootId, clock(op));
    }
  }

  /** Boot writes receipts without any ownership check; none is needed. */
  lemma AdvancedStaysOwned(state: WorkspaceState, receipts: Receipts, done: set<Uuid>, bootId: Uuid,
                           clock: Uuid -> Time)
    requires FullyOwned(state, receipts)
    ensures FullyOwned(state, Advanced(receipts, done, bootId, clock))
  {
    var after := Advanced(receipts, done, bootId, clock);
    assert OwnersOf(after) == OwnersOf(receipts);
    forall record | record in after.Values
      ensures RecordOwned(record, state, OwnersOf(after))
    {
      var op :| op in after && after[op] == record;
      assert receipts[op] in receipts.Values;
    }
  }

  lemma AdvanceOne(receipts: Receipts, done: set<Uuid>, bootId: Uuid, clock: Uuid -> Time, op: Uuid)
    requires op in receipts && op !in done
    ensures Advanced(receipts, done + {op}, bootId, clock)
      == Advanced(receipts, done, bootId, clock)[op := AfterBoot(receipts[op], bootId, clock(op))]
  {
  }

  /** What boot may put into a file. */
  ghost predicate BootWrites(receipts: Receipts, bootId: Uuid, clock: Uuid -> Time, t: Target, c: Option<File>) {
    t.Receipt? && t.operationId in receipts
      && c == Some(ReceiptFile(AfterBoot(receipts[t.operationId], bootId, clock(t.operationId))))
  }

  ghost predicate BootAdds(s: DiskState, now: DiskState, receipts: Receipts, bootId: Uuid, clock: Uuid -> Time) {
    forall t, c :: MayBecome(now, None, t, c) ==> MayBecome(s, None, t, c) || BootWrites(receipts, bootId, clock, t, c)
  }

  /** Where the loop stands; a failure leaves it here too. */
  ghost predicate Booting(s: DiskState, now: DiskState, workspaceId: Uuid, receipts: Receipts, done: set<Uuid>,
                          bootId: Uuid, clock: Uuid -> Time) {
    && StoreOk(now, None, workspaceId) && done <= receipts.Keys
    && Shows(now, Advanced(receipts, done, bootId, clock))
    && Seen(now, Live(StateJson)) == Seen(s, Live(StateJson))
    && BootAdds(s, now, receipts, bootId, clock)
  }

  lemma NothingAdded(s: DiskState, bootId: Uuid, clock: Uuid -> Time)
    ensures BootAdds(s, s, map[], bootId, clock)
  {
  }

  lemma BootingStep(s: DiskState, now: DiskState, after: DiskState, workspaceId: Uuid, receipts: Receipts,
                    done: set<Uuid>, bootId: Uuid, clock: Uuid -> Time, op: Uuid)
    requires Booting(s, now, workspaceId, receipts, done, bootId, clock)
    requires op in receipts && op !in done && ExecutionOk(receipts[op]) && receipts[op].operationId == op
    requires StoreOk(after, None, workspaceId)
    requires OnlyChanged(now, after, Receipt(op), ReceiptFile(AfterBoot(receipts[op], bootId, clock(op))))
    requires forall u, c :: MayBecome(after, None, u, c) ==>
      MayBecome(now, None, u, c)
        || (u == Receipt(op) && c == Some(ReceiptFile(AfterBoot(receipts[op], bootId, clock(op)))))
    ensures Booting(s, after, workspaceId, receipts, done + {op}, bootId, clock)
  {
    AdvanceOne(receipts, done, bootId, clock, op);
    ReceiptWritten(now, after, Advanced(receipts, done, bootId, clock), AfterBoot(receipts[op], bootId, clock(op)));
  }

  lemma BootingSkip(s: DiskState, now: DiskState, workspaceId: Uuid, receipts: Receipts, done: set<Uuid>, bootId: Uuid,
                    clock: Uuid -> Time, op: Uuid)
    requires Booting(s, now, workspaceId, receipts, done, bootId, clock)
    requires op in receipts && AfterBoot(receipts[op], bootId, clock(op)) == receipts[op]
    ensures Booting(s, now, workspaceId, receipts, done + {op}, bootId, clock)
  {
    assert Advanced(receipts, done + {op}, bootId, clock) == Advanced(receipts, done, bootId, clock);
  }

  /** The byte budget refuses what boot makes of some receipt. */
  ghost predicate NoRoomToBoot(w: Writer, receipts: Receipts, bootId: Uuid, clock: Uuid -> Time)
    reads w, w.volume
  {
    exists op ::
      op in receipts && w.OverBudget(Live(Receipt(op)), ReceiptFile(AfterBoot(receipts[op], bootId, clock(op))))
  }

  /** n receipts written since the budget stood at `before`. */
  ghost predicate Spent(size: File -> nat, largest: nat, before: int, now: int, n: nat) {
    Within(size, largest) ==> now <= before + Copies(n, largest)
  }

  /** One receipt too many for the budget. */
  ghost predicate Overspent(size: File -> nat, largest: nat, before: int, n: nat, limit: int) {
    Within(size, largest) ==> before + Copies(n, largest) > limit
  }

  /** The loop has `todo` before it. */
  ghost predicate Midway(s: DiskState, now: DiskState, workspaceId: Uuid, receipts: Receipts, todo: set<Uuid>,
                         bootId: Uuid, clock: Uuid -> Time, size: File -> nat, largest: nat, before: int, used: int) {
    && todo <= receipts.Keys && Booting(s, now, workspaceId, receipts, receipts.Keys - todo, bootId, clock)
    && Spent(size, largest, before, used, |receipts.Keys - todo|)
  }

  lemma MidwayStarts(s: DiskState, workspaceId: Uuid, receipts: Receipts, bootId: Uuid, clock: Uuid -> Time,
                     size: File -> nat, largest: nat, used: int)
    requires StoreOk(s, None, workspaceId) && Shows(s, receipts)
    ensures Midway(s, s, workspaceId, receipts, receipts.Keys, bootId, clock, size, largest, used, used)
    ensures Migrations.OperationsIn(FilesOf(s)) == receipts.Keys
  {
    ShownReceipts(s, receipts);
    assert receipts.Keys - receipts.Keys == {};
    assert Advanced(receipts, {}, bootId, clock) == receipts;
  }

  lemma MidwayStep(s: DiskState, now: DiskState, after: DiskState, workspaceId: Uuid, receipts: Receipts,
                   todo: set<Uuid>, op: Uuid, bootId: Uuid,
                   clock: Uuid -> Time, size: File -> nat, largest: nat, before: int, used: int, usedAfter: int)
    requires Midway(s, now, workspaceId, receipts, todo, bootId, clock, size, largest, before, used) && op in todo
    requires Booting(s, after, workspaceId, receipts, receipts.Keys - todo + {op}, bootId, clock)
    requires Within(size, largest) ==> usedAfter <= used + largest
    ensures Midway(s, after, workspaceId, receipts, todo - {op}, bootId, clock, size, largest, before, usedAfter)
  {
    var done := receipts.Keys - todo;
    assert receipts.Keys - (todo - {op}) == done + {op} && |done + {op}| == |done| + 1;
    OneMoreCopy(|done|, largest);
  }

  lemma MidwayIsWithin(s: DiskState, now: DiskState, workspaceId: Uuid, receipts: Receipts, todo: set<Uuid>, op: Uuid,
                       bootId: Uuid,
                       clock: Uuid -> Time, size: File -> nat, largest: nat, before: int, used: int, limit: int)
    requires Midway(s, now, workspaceId, receipts, todo, bootId, clock, size, largest, before, used) && op in todo
    ensures op in receipts && Booting(s, now, workspaceId, receipts, receipts.Keys - todo, bootId, clock)
    ensures (Within(size, largest) ==> used + largest > limit) ==>
      Overspent(size, largest, before, |receipts.Keys|, limit)
  {
    var done := receipts.Keys - todo;
    OneMoreCopy(|done|, largest);
    assert receipts.Keys == done + todo && |receipts.Keys| == |done| + |todo|;
    MoreCopies(|done| + 1, |receipts.Keys|, largest);
  }

  lemma MidwayEnds(s: DiskState, now: DiskState, workspaceId: Uuid, receipts: Receipts, bootId: Uuid,
                   clock: Uuid -> Time, size: File -> nat, largest: nat, before: int, used: int)
    requires Midway(s, now, workspaceId, receipts, {}, bootId, clock, size, largest, before, used)
    ensures Booting(s, now, workspaceId, receipts, receipts.Keys, bootId, clock) && StoreOk(now, None, workspaceId)
    ensures BootAdds(s, now, receipts, bootId, clock)
  {
    assert receipts.Keys - {} == receipts.Keys;
  }

  /** `#recoverPreviousBootExecutions`. */
  method RecoverPreviousBoot(w: Writer, workspaceId: Uuid, bootId: Uuid, clock: Uuid -> Time, ghost receipts: Receipts,
                             ghost largest: nat)
    returns (ok: bool)
    requires w.Valid() && StoreOk(w.volume.s, None, workspaceId) && Shows(w.volume.s, receipts)
    modifies w, w.volume`s
    ensures w.Valid() && StoreOk(w.volume.s, None, workspaceId)
    ensures BootAdds(old(w.volume.s), w.volume.s, receipts, bootId, clock)
    ensures ok ==> Booting(old(w.volume.s), w.volume.s, workspaceId, receipts, receipts.Keys, bootId, clock)
    ensures ok ==> exists after :: Shows(w.volume.s, after) && AllSettled(receipts, after, bootId, clock)
    ensures !ok && w.volume.calm ==> NoRoomToBoot(w, receipts, bootId, clock)
    ensures !ok && w.volume.calm ==> Overspent(w.size, largest, old(w.bytesUsed), |receipts.Keys|, w.maxTotalBytes)
  {
    hide StoreOk, Midway, Overspent, Shows, Booting, BootAdds, AfterBoot, AllSettled;
    var s := w.volume.s;
    ghost var before := w.bytesUsed;
    MidwayStarts(s, workspaceId, receipts, bootId, clock, w.size, largest, before);
    var todo := Migrations.OperationsIn(FilesOf(s));
    while todo != {}
      invariant w.Valid()
      invariant Midway(s, w.volume.s, workspaceId, receipts, todo, bootId, clock, w.size, largest, before, w.bytesUsed)
    {
      var op :| op in todo;
      ghost var now, used := w.volume.s, w.bytesUsed;
      MidwayIsWithin(s, now, workspaceId, receipts, todo, op, bootId, clock, w.size, largest, before, used,
                     w.maxTotalBytes);
      ok := RecoverReceipt(w, workspaceId, bootId, clock, op, receipts, receipts.Keys - todo, s, largest);
      if !ok { return false; }
      MidwayStep(s, now, w.volume.s, workspaceId, receipts, todo, op, bootId, clock, w.size, largest, before, used,
                 w.bytesUsed);
      todo := todo - {op};
    }
    MidwayEnds(s, w.volume.s, workspaceId, receipts, bootId, clock, w.size, largest, before, w.bytesUsed);
    AdvancedIsSettled(receipts, bootId, clock);
    AllAreSettled(s, w.volume.s, workspaceId, receipts, bootId, clock);
    return true;
  }

  method RecoverReceipt(w: Writer, workspaceId: Uuid, bootId: Uuid, clock: Uuid -> Time, op: Uuid,
                        ghost receipts: Receipts, ghost done: set<Uuid>, ghost s: DiskState, ghost largest: nat)
    returns (ok: bool)
    requires w.Valid() && Booting(s, w.volume.s, workspaceId, receipts, done, bootId, clock) && op in receipts
    requires op !in done
    modifies w, w.volume`s
    ensures w.Valid() && StoreOk(w.volume.s, None, workspaceId)
    ensures BootAdds(s, w.volume.s, receipts, bootId, clock)
    ensures ok ==> Booting(s, w.volume.s, workspaceId, receipts, done + {op}, bootId, clock)
    ensures !ok && w.volume.calm ==>
      w.OverBudget(Live(Receipt(op)), ReceiptFile(AfterBoot(receipts[op], bootId, clock(op))))
    ensures !ok && w.volume.calm && Within(w.size, largest) ==> old(w.bytesUsed) + largest > w.maxTotalBytes
    ensures ok && Within(w.size, largest) ==> w.bytesUsed <= old(w.bytesUsed) + largest
  {
    hide StoreOk, AfterBoot, ExecutionOk;
    ghost var now := w.volume.s;
    assert Advanced(receipts, done, bootId, clock)[op] == receipts[op];
    var read, raw := w.volume.Read(Live(Receipt(op)));
    if !read || raw.None? { return false; }
    var record := ParseExecution(raw.value);
    if record.Err? { return false; }
    var updated := AfterBoot(record.value, bootId, clock(op));
    if updated == record.value {
      BootingSkip(s, now, workspaceId, receipts, done, bootId, clock, op);
      return true;
    }
    var put := PutFile(w, workspaceId, Receipt(op), ReceiptFile(updated));
    if put.Done? { BootingStep(s, now, w.volume.s, workspaceId, receipts, done, bootId, clock, op); }
    return put.Done?;
  }

  lemma AfterBootKeepsRefs(r: ExecutionRecord, bootId: Uuid, now: Time)
    ensures SameRefs(r, AfterBoot(r, bootId, now)) && (ExecutionOk(r) ==> ExecutionOk(AfterBoot(r, bootId, now)))
  {
  }

  /** What boot writes cannot make a later boot fail. */
  lemma BootIsSound(s: DiskState, after: DiskState, workspaceId: Uuid, found: Receipts, bootId: Uuid,
                    clock: Uuid -> Time)
    requires Sound(s, None, workspaceId)
    requires forall op :: op in found ==> Possible(s, None, op, found[op])
    requires BootAdds(s, after, found, bootId, clock)
    ensures Sound(after, None, workspaceId)
  {
    hide Sound, MayBecome, AfterBoot, ExecutionOk;
    forall op, c | MayBecome(after, None, Receipt(op), c) && !MayBecome(s, None, Receipt(op), c)
      ensures exists b :: Renews(s, None, op, b) && c == Some(ReceiptFile(b))
    {
      assert BootWrites(found, bootId, clock, Receipt(op), c);
      AfterBootKeepsRefs(found[op], bootId, clock(op));
      PossibleIsOk(s, op, found[op]);
      assert Renews(s, None, op, AfterBoot(found[op], bootId, clock(op)));
    }
    RenewalIsSound(s, None, after, None, workspaceId);
  }

  lemma PossibleIsOk(s: DiskState, op: Uuid, a: ExecutionRecord)
    requires Possible(s, None, op, a)
    ensures ExecutionOk(a)
  {
  }

  /** The budget leaves room for one more copy of every file of a transaction, and of every receipt. */
  ghost predicate RoomToBoot(w: Writer, largest: nat, most: nat)
    reads w, w.volume
  {
    && Within(w.size, largest) && largest <= w.maxSnapshotBytes
    && w.volume.walk + Copies(MAX_RECORDS, largest) <= w.maxTotalBytes
    && w.volume.walk + Copies(most, largest) <= w.maxTotalBytes
  }

  ghost predicate CanBeFound(s: DiskState, inflight: Option<Journal>, op: Uuid) {
    exists a :: Possible(s, inflight, op, a)
  }

  /** No reader finds more receipts than this. */
  ghost predicate AtMostReceipts(s: DiskState, inflight: Option<Journal>, most: nat) {
    forall ids: set<Uuid> :: (forall op :: op in ids ==> CanBeFound(s, inflight, op)) ==> |ids| <= most
  }

  lemma RecoveryFits(w: Writer, j: Journal, workspaceId: Uuid, largest: nat, most: nat)
    requires StoreOk(w.volume.s, Some(j), workspaceId) && RoomToBoot(w, largest, most) && w.bytesUsed <= w.volume.walk
    ensures RoomFor(w, j, 0)
  {
    hide Copies, Quiet, MissingIsFirm, ValidJournal, InFlight;
    GrowthIsBounded(w.size, j, 0, largest);
    MoreCopies(|j.records|, MAX_RECORDS, largest);
  }

  lemma ReceiptsFit(w: Writer, used: int, s0: DiskState, inflight: Option<Journal>, s1: DiskState, found: Receipts,
                    largest: nat, most: nat)
    requires RoomToBoot(w, largest, most) && AtMostReceipts(s0, inflight, most) && used <= w.volume.walk
    requires NoNewOutcome(s0, inflight, s1, None)
    requires forall op :: op in found ==> Possible(s1, None, op, found[op])
    ensures used + Copies(|found.Keys|, largest) <= w.maxTotalBytes && Within(w.size, largest)
  {
    hide Copies, MayBecome;
    forall op | op in found.Keys ensures CanBeFound(s0, inflight, op) { assert Possible(s0, inflight, op, found[op]); }
    assert |found.Keys| <= most;
    MoreCopies(|found.Keys|, most, largest);
  }

  /**
    * A new process. When it comes up, the workspace passes the full check, the index agrees with it, and no
    * visible receipt of an earlier boot is prepared or running. When it fails, the next boot finds a disk it
    * can again recover, with no outcome but those there were and the receipts boot itself wrote.
    *
    * On a sound workspace it fails only for a failed primitive or for lack of space, and leaves the
    * workspace sound. With nothing to recover and a visible workspace that fails the full check it never
    * comes up, and changes nothing.
    */
  method Start(w: Writer, workspaceId: Uuid, bootId: Uuid, clock: Uuid -> Time, ghost inflight: Option<Journal>,
               ghost largest: nat, ghost most: nat)
    returns (r: Option<Store>, ghost left: Option<Journal>, ghost found: Receipts)
    requires w.Valid() && StoreOk(w.volume.s, inflight, workspaceId)
    modifies w, w.volume`s
    ensures w.Valid() && StoreOk(w.volume.s, left, workspaceId)
    ensures forall t, c :: MayBecome(w.volume.s, left, t, c) ==>
      old(MayBecome(w.volume.s, inflight, t, c)) || BootWrites(found, bootId, clock, t, c)
    ensures r.Some? ==>
      && fresh(r.value) && r.value.Valid() && r.value.writer == w && r.value.workspaceId == workspaceId
      && r.value.bootId == bootId
    ensures r.Some? ==> left.None? && r.value.inflight.None? && r.value.index != null && fresh(r.value.index)
    ensures r.Some? ==> FullCheck(w.volume.s, workspaceId) && NoneUnsettled(r.value.receipts, bootId)
    ensures r.Some? ==> AllSettled(found, r.value.receipts, bootId, clock)
    ensures forall op :: op in found ==> old(Possible(w.volume.s, inflight, op, found[op]))
    ensures old(Sound(w.volume.s, inflight, workspaceId)) ==> Sound(w.volume.s, left, workspaceId)
    ensures old(Sound(w.volume.s, inflight, workspaceId)) && w.volume.calm && r.None? ==>
      (left.Some? && Blocked(w, left.value)) || NoRoomToBoot(w, found, bootId, clock)
    ensures old(Sound(w.volume.s, inflight, workspaceId)) && w.volume.calm ==>
      old(AtMostReceipts(w.volume.s, inflight, most)) && RoomToBoot(w, largest, most) ==> r.Some?
    ensures inflight.None? && !old(FullCheck(w.volume.s, workspaceId)) ==>
      r.None? && left.None? && Calmer(old(w.volume.s), w.volume.s)
  {
    hide Sound, StoreOk, FullCheck, MayBecome, Shows, AtMostReceipts, RoomFor, Blocked, Copies, AllSettled;
    r, left, found := None, inflight, map[];
    var measured := w.Measure();
    if !measured { return; }
    var store := new Store(w, workspaceId, bootId, inflight);
    ghost var s0 := w.volume.s;
    if inflight.Some? && RoomToBoot(w, largest, most) { RecoveryFits(w, inflight.value, workspaceId, largest, most); }
    var recovered := store.EnsureRecovered();
    left := store.inflight;
    ghost var s1 := w.volume.s;
    if Sound(s0, inflight, workspaceId) { NothingNewIsSound(s0, inflight, s1, left, workspaceId); }
    if !recovered { return; }
    if inflight.None? { SameLiveSameCheck(s0, s1, workspaceId); }
    if Sound(s1, None, workspaceId) { VisibleIsValid(s1, workspaceId); }
    var ok;
    ghost var used := w.bytesUsed;
    ok, found := SettleReceipts(w, workspaceId, bootId, clock, largest);
    if RoomToBoot(w, largest, most) && AtMostReceipts(s0, inflight, most) {
      ReceiptsFit(w, used, s0, inflight, s1, found, largest, most);
    }
    if Sound(s1, None, workspaceId) { BootIsSound(s1, w.volume.s, workspaceId, found, bootId, clock); }
    if !ok { return; }
    var index := store.RebuildIndex();
    if index.Err? { return; }
    OneView(w.volume.s, store.receipts, Advanced(found, found.Keys, bootId, clock));
    AdvancedIsSettled(found, bootId, clock);
    r := Some(store);
  }

  lemma SameLiveSameCheck(s: DiskState, after: DiskState, workspaceId: Uuid)
    requires SameLive(s, after)
    ensures FullCheck(after, workspaceId) <==> FullCheck(s, workspaceId)
  {
    SameLiveSameFiles(s, after);
  }

  lemma AllAreSettled(s: DiskState, after: DiskState, workspaceId: Uuid, receipts: Receipts, bootId: Uuid,
                      clock: Uuid -> Time)
    requires Booting(s, after, workspaceId, receipts, receipts.Keys, bootId, clock)
    ensures Shows(after, Advanced(receipts, receipts.Keys, bootId, clock))
    ensures NoneUnsettled(Advanced(receipts, receipts.Keys, bootId, clock), bootId)
  {
    hide Shows, StoreOk, BootAdds;
  }

  /** The validation of every owner and receipt, and then the receipts of earlier boots. */
  method SettleReceipts(w: Writer, workspaceId: Uuid, bootId: Uuid, clock: Uuid -> Time,
                        ghost largest: nat) returns (ok: bool, ghost found: Receipts)
    requires w.Valid() && StoreOk(w.volume.s, None, workspaceId)
    modifies w, w.volume`s
    ensures w.Valid() && StoreOk(w.volume.s, None, workspaceId)
    ensures BootAdds(old(w.volume.s), w.volume.s, found, bootId, clock)
    ensures forall op :: op in found ==> Possible(old(w.volume.s), None, op, found[op])
    ensures ok ==> FullCheck(w.volume.s, workspaceId) && Shows(w.volume.s, Advanced(found, found.Keys, bootId, clock))
    ensures ok ==> NoneUnsettled(Advanced(found, found.Keys, bootId, clock), bootId)
    ensures !old(FullCheck(w.volume.s, workspaceId)) ==> !ok && w.volume.s == old(w.volume.s)
    ensures !ok && w.volume.calm && old(FullCheck(w.volume.s, workspaceId)) ==> NoRoomToBoot(w, found, bootId, clock)
    ensures !ok && w.volume.calm && old(FullCheck(w.volume.s, workspaceId)) ==>
      Overspent(w.size, largest, old(w.bytesUsed), |found.Keys|, w.maxTotalBytes)
  {
    hide StoreOk, BootAdds, Overspent, Shows, Booting, NoRoomToBoot, Advanced, NoneUnsettled, Migrations.FilesValid;
    found := map[];
    var s := w.volume.s;
    NothingAdded(s, bootId, clock);
    ok := w.volume.MaySucceed();  // listing and reading every file
    if !ok || !Migrations.FilesValid(FilesOf(s), workspaceId) { return false, found; }
    FullCheckShows(s, workspaceId);
    found := Migrations.ReceiptsIn(FilesOf(s));
    forall op | op in found ensures Possible(s, None, op, found[op]) { WrittenOwnerExists(s, found, op); }
    ok := RecoverPreviousBoot(w, workspaceId, bootId, clock, found, largest);
    if ok {
      BootKeepsFullCheck(s, w.volume.s, workspaceId, found, bootId, clock);
      AllAreSettled(s, w.volume.s, workspaceId, found, bootId, clock);
    }
  }

  lemma OneView(s: DiskState, a: Receipts, b: Receipts)
    requires Shows(s, a) && Shows(s, b)
    ensures a == b
  {
    forall op ensures op in a <==> op in b { assert op in a <==> Seen(s, Live(Receipt(op))).Some?; }
  }

  lemma BootKeepsFullCheck(s: DiskState, after: DiskState, workspaceId: Uuid, receipts: Receipts, bootId: Uuid,
                           clock: Uuid -> Time)
    requires FullCheck(s, workspaceId) && Shows(s, receipts)
    requires Booting(s, after, workspaceId, receipts, receipts.Keys, bootId, clock)
    ensures FullCheck(after, workspaceId)
  {
    var advanced := Advanced(receipts, receipts.Keys, bootId, clock);
    assert Shows(after, advanced) && Seen(after, Live(StateJson)) == Seen(s, Live(StateJson));
    if Seen(s, Live(StateJson)).Some? {
      FullCheckSays(s, workspaceId, receipts);
      AdvancedStaysOwned(StateOf(s).value, receipts, receipts.Keys, bootId, clock);
      FullCheckSays(after, workspaceId, advanced);
    } else {
      NoSnapshotNoReceipts(s, workspaceId, receipts);
      NothingIsValid(after, workspaceId);
    }
  }

  lemma NothingIsValid(s: DiskState, workspaceId: Uuid)
    requires Seen(s, Live(StateJson)).None? && Shows(s, map[])
    ensures FullCheck(s, workspaceId)
  {
    forall t ensures Seen(s, Live(t)) == None {
      if t.Receipt? { assert Seen(s, Live(Receipt(t.operationId))).None?; }
    }
    assert FilesOf(s) == map[];
  }
}
