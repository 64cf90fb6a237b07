/** The write-ahead transaction of src/continuity/storage-journal.ts. */
module StorageJournal {
  import opened Arithmetic
  import opened Wrappers
  import opened TaskTypes
  import opened StorageSchema
  import opened Durability
  import opened AtomicWriter

  const MAX_RECORDS: nat := 51

  function JournalFile(j: Journal): File { Body(JournalValue(j)) }
  function MarkerFile(j: Journal): File { Body(CommitMarker(Sha256(JournalFile(j)))) }
  function Old(e: JournalEntry): Option<File> { Some(e.before.of) }
  function New(e: JournalEntry): Option<File> { Some(e.body) }

  predicate ShapeOk(j: Journal) { 1 <= |j.records| <= MAX_RECORDS }

  predicate DistinctPaths(j: Journal) {
    forall a, b :: 0 <= a < b < |j.records| ==> j.records[a].path != j.records[b].path
  }

  predicate ReceiptEntryOk(e: JournalEntry, workspaceId: Uuid, state: WorkspaceState) {
    var record := ParseExecution(e.body);
    && record.Ok?
    && e.path == Receipt(record.value.operationId)
    && record.value.workspaceId == workspaceId
    && record.value.taskId in state.tasks
  }

  /** `validate`: owned by this workspace, receipts first and the snapshot last, digests right. */
  predicate ValidJournal(j: Journal, workspaceId: Uuid) {
    && j.workspaceId == workspaceId
    && DistinctPaths(j)
    && |j.records| > 0
    && j.records[|j.records| - 1].path == StateJson
    && (var state := ParseWorkspace(j.records[|j.records| - 1].body);
        && state.Ok? && state.value.workspace.workspaceId == workspaceId
        && forall i :: 0 <= i < |j.records| - 1 ==> ReceiptEntryOk(j.records[i], workspaceId, state.value))
    && forall i :: 0 <= i < |j.records| ==> j.records[i].after == Sha256(j.records[i].body)
  }

  // ---------------------------------------------------------------- where a transaction can stand

  ghost predicate NoOtherJournal(s: DiskState, j: Journal) {
    forall tx :: tx != j.transactionId ==> Settled(s, Payload(tx), None) && Settled(s, Marker(tx), None)
  }

  /** No journal file is left, visible or resurrectable. */
  ghost predicate Quiet(s: DiskState) {
    forall tx :: Settled(s, Payload(tx), None) && Settled(s, Marker(tx), None)
  }

  ghost predicate AllOld(s: DiskState, j: Journal) {
    forall i :: 0 <= i < |j.records| ==> Settled(s, Live(j.records[i].path), Old(j.records[i]))
  }

  ghost predicate AllNew(s: DiskState, j: Journal) {
    forall i :: 0 <= i < |j.records| ==> Settled(s, Live(j.records[i].path), New(j.records[i]))
  }

  /** The first k targets are durably new, the k-th is in doubt, the others durably old. */
  ghost predicate NewUpTo(s: DiskState, j: Journal, k: nat) {
    forall i :: 0 <= i < |j.records| ==>
      if i < k then Settled(s, Live(j.records[i].path), New(j.records[i]))
      else if i == k then Among(s, Live(j.records[i].path), Old(j.records[i]), New(j.records[i]))
      else Settled(s, Live(j.records[i].path), Old(j.records[i]))
  }

  /** Nothing decided: the payload may exist, the marker cannot. */
  ghost predicate Undecided(s: DiskState, j: Journal) {
    && NoOtherJournal(s, j) && AllOld(s, j)
    && Among(s, Payload(j.transactionId), None, Some(JournalFile(j)))
    && Settled(s, Marker(j.transactionId), None)
  }

  /** The marker is visible; a power loss may still take it back. */
  ghost predicate Deciding(s: DiskState, j: Journal) {
    && NoOtherJournal(s, j) && AllOld(s, j)
    && Settled(s, Payload(j.transactionId), Some(JournalFile(j)))
    && Seen(s, Marker(j.transactionId)) == Some(MarkerFile(j))
    && Among(s, Marker(j.transactionId), None, Some(MarkerFile(j)))
  }

  ghost predicate Applying(s: DiskState, j: Journal, k: nat) {
    && NoOtherJournal(s, j) && NewUpTo(s, j, k)
    && Settled(s, Payload(j.transactionId), Some(JournalFile(j)))
    && Settled(s, Marker(j.transactionId), Some(MarkerFile(j)))
  }

  ghost predicate Applied(s: DiskState, j: Journal) {
    && NoOtherJournal(s, j) && AllNew(s, j)
    && Among(s, Payload(j.transactionId), None, Some(JournalFile(j)))
    && Among(s, Marker(j.transactionId), None, Some(MarkerFile(j)))
  }

  /** The commit marker is durable, or its work is done: no failure can undo the transaction. */
  ghost predicate Committed(s: DiskState, j: Journal) {
    Applied(s, j) || exists k: nat :: Applying(s, j, k)
  }

  ghost predicate Decided(s: DiskState, j: Journal) {
    Deciding(s, j) || Committed(s, j)
  }

  ghost predicate InFlight(s: DiskState, j: Journal) {
    Undecided(s, j) || Decided(s, j)
  }

  /** The end of every story: no journal, all targets durably old or all durably new. */
  ghost predicate Resolved(s: DiskState, j: Journal, applied: bool) {
    Quiet(s) && if applied then AllNew(s, j) else AllOld(s, j)
  }

  predicate Outside(p: Path, j: Journal) {
    && p != Payload(j.transactionId) && p != Marker(j.transactionId)
    && forall i :: 0 <= i < |j.records| ==> p != Live(j.records[i].path)
  }

  /** Nothing outside the transaction's own files changed. */
  ghost predicate CalmOutside(s: DiskState, after: DiskState, j: Journal) {
    && (forall p :: Outside(p, j) ==> Seen(after, p) == Seen(s, p))
    && (forall p :: Outside(p, j) && Durable(s, p) ==> Durable(after, p))
    && (forall p, c :: Outside(p, j) && May(after, p, c) ==> May(s, p, c))
  }

  // ----------------------------------------------------------------------------- value-level lemmas

  lemma CalmKeeps(s: DiskState, after: DiskState, j: Journal)
    requires Calmer(s, after)
    ensures Undecided(s, j) ==> Undecided(after, j)
    ensures Deciding(s, j) ==> Deciding(after, j)
    ensures forall k: nat :: Applying(s, j, k) ==> Applying(after, j, k)
    ensures Applied(s, j) ==> Applied(after, j)
    ensures Quiet(s) ==> Quiet(after)
  {
  }

  /** A power loss can only take back a marker that was never made durable. */
  lemma PowerLossKeepsTheTransaction(s: DiskState, after: DiskState, j: Journal)
    requires PowerLoss(s, after) && InFlight(s, j)
    ensures InFlight(after, j)
    ensures Undecided(s, j) ==> Undecided(after, j)
    ensures Committed(s, j) ==> Committed(after, j)
    ensures forall b :: Resolved(s, j, b) ==> Resolved(after, j, b)
  {
    if k: nat :| Applying(s, j, k) {
      assert Applying(after, j, k);
    } else if Deciding(s, j) {
      assert Undecided(after, j) || Deciding(after, j);
    }
  }

  /** state.json can show the new snapshot only once every receipt of the transaction durably does. */
  lemma SnapshotComesLast(s: DiskState, j: Journal, i: nat)
    requires InFlight(s, j) && DistinctPaths(j) && |j.records| > 0
    requires j.records[|j.records| - 1].path == StateJson
    requires New(j.records[|j.records| - 1]) != Old(j.records[|j.records| - 1])
    requires May(s, Live(StateJson), New(j.records[|j.records| - 1]))
    requires i < |j.records| - 1
    ensures Settled(s, Live(j.records[i].path), New(j.records[i]))
  {
    if k: nat :| Applying(s, j, k) {
      assert k >= |j.records| - 1;
    }
  }

  /** One attempted target: still in order, and one step further if it succeeded. */
  lemma EntryStep(s: DiskState, after: DiskState, j: Journal, i: nat, k: nat, done: bool)
    requires DistinctPaths(j) && i < |j.records|
    requires Applying(s, j, At(i, k))
    requires if done then Calmer(Replace(s, Live(j.records[i].path), New(j.records[i])), after)
                          && Settled(after, Live(j.records[i].path), New(j.records[i]))
             else Attempted(s, after, Live(j.records[i].path), New(j.records[i]))
    requires Seen(s, Live(j.records[i].path)) == New(j.records[i]) ==> Calmer(s, after)
    ensures Applying(after, j, At(if done then i + 1 else i, k))
  {
    var p := Live(j.records[i].path);
  }

  /** How far the targets are new while the loop stands at i and a former run reached k. */
  function At(i: nat, k: nat): nat { if i <= k then k else i }

  lemma PayloadStep(s: DiskState, after: DiskState, j: Journal)
    requires Undecided(s, j)
    requires Attempted(s, after, Payload(j.transactionId), Some(JournalFile(j)))
    ensures Undecided(after, j)
  {
  }

  lemma MarkerStep(s: DiskState, after: DiskState, j: Journal)
    requires Undecided(s, j) && Settled(s, Payload(j.transactionId), Some(JournalFile(j)))
    requires Attempted(s, after, Marker(j.transactionId), Some(MarkerFile(j)))
    ensures Undecided(after, j) || Deciding(after, j)
    ensures Settled(after, Marker(j.transactionId), Some(MarkerFile(j))) ==> Deciding(after, j) && Applying(after, j, 0)
  {
  }

  /** Both journal files confirmed: some run of `apply` may start, or go on. */
  lemma ReadyToApply(s: DiskState, j: Journal)
    requires Decided(s, j)
    requires Settled(s, Payload(j.transactionId), Some(JournalFile(j)))
    requires Settled(s, Marker(j.transactionId), Some(MarkerFile(j)))
    ensures exists k: nat :: Applying(s, j, k)
  {
    if Deciding(s, j) {
      assert Applying(s, j, 0);
    } else if Applied(s, j) {
      assert Applying(s, j, |j.records|);
    }
  }

  lemma CleanUpStep(s: DiskState, after: DiskState, j: Journal, p: Path)
    requires p == Payload(j.transactionId) || p == Marker(j.transactionId)
    requires Attempted(s, after, p, None)
    ensures Applied(s, j) ==> Applied(after, j)
    ensures Undecided(s, j) && p.Payload? ==> Undecided(after, j)
  {
  }

  // --------------------------------------------------------------------------------- the procedures

  function EntryFor(path: Target, was: File, body: File): JournalEntry {
    JournalEntry(path, Sha256(was), Sha256(body), body)
  }

  /** Entry i of the journal of `state` and `records`: receipts in the given order, the snapshot last. */
  function PlannedPath(records: seq<ExecutionRecord>, i: nat): Target {
    if i < |records| then Receipt(records[i].operationId) else StateJson
  }

  function PlannedBody(state: WorkspaceState, records: seq<ExecutionRecord>, i: nat): File {
    if i < |records| then Body(Execution(V2, records[i])) else Body(Workspace(V2, state))
  }

  /** j turns the visible targets into `records` and `state`, in that order. */
  ghost predicate Plans(j: Journal, s: DiskState, state: WorkspaceState, records: seq<ExecutionRecord>) {
    && |j.records| == |records| + 1
    && forall i :: 0 <= i < |j.records| ==>
      && j.records[i].path == PlannedPath(records, i)
      && j.records[i].body == PlannedBody(state, records, i)
      && Seen(s, Live(j.records[i].path)) == Old(j.records[i])
  }

  predicate DistinctOperations(records: seq<ExecutionRecord>) {
    forall a, b :: 0 <= a < b < |records| ==> records[a].operationId != records[b].operationId
  }

  /** Why no journal can be made of this: a file to replace is missing, or the plan itself is not valid. */
  predicate Unplannable(s: DiskState, state: WorkspaceState, records: seq<ExecutionRecord>) {
    || (exists i {:trigger PlannedPath(records, i)} ::
       0 <= i <= |records| && Seen(s, Live(PlannedPath(records, i))).None?)
    || |records| >= MAX_RECORDS || !WorkspaceOk(state) || !DistinctOperations(records)
    || exists record :: record in records &&
         !(ExecutionOk(record) && record.workspaceId == state.workspace.workspaceId && record.taskId in state.tasks)
  }

  lemma PlannedIsValid(j: Journal, s: DiskState, state: WorkspaceState, records: seq<ExecutionRecord>)
    requires Plans(j, s, state, records) && j.workspaceId == state.workspace.workspaceId
    requires !Unplannable(s, state, records)
    requires forall i :: 0 <= i < |j.records| ==> j.records[i].after == Sha256(j.records[i].body)
    ensures ShapeOk(j) && ValidJournal(j, j.workspaceId)
  {
    forall i | 0 <= i < |j.records| - 1
      ensures ReceiptEntryOk(j.records[i], j.workspaceId, state)
    {
      assert records[i] in records;
    }
    forall a, b | 0 <= a < b < |j.records| ensures j.records[a].path != j.records[b].path {
      if b < |records| { assert records[a].operationId != records[b].operationId; }
    }
  }

  method PrepareJournal(volume: Volume, tx: Uuid, state: WorkspaceState, records: seq<ExecutionRecord>)
    returns (r: Result<Journal, StoreError>)
    ensures r.Ok? ==>
      r.value.transactionId == tx && ShapeOk(r.value) && ValidJournal(r.value, state.workspace.workspaceId)
    ensures r.Ok? ==> Plans(r.value, volume.s, state, records)
    ensures r.Err? ==> r.error == PersistenceUnavailable || r.error == StateCorrupt
    ensures r.Err? && volume.calm ==> Unplannable(volume.s, state, records)
  {
    var entries: seq<JournalEntry> := [];
    for i := 0 to |records| + 1
      invariant |entries| == i
      invariant forall a :: 0 <= a < i ==>
        && entries[a].path == PlannedPath(records, a)
        && entries[a].body == PlannedBody(state, records, a)
        && Seen(volume.s, Live(entries[a].path)) == Old(entries[a])
        && entries[a].after == Sha256(entries[a].body)
    {
      var path := PlannedPath(records, i);
      var ok, current := volume.Read(Live(path));
      if !ok || current.None? { return Err(PersistenceUnavailable); }
      entries := entries + [EntryFor(path, current.value, PlannedBody(state, records, i))];
    }
    var j := Journal(tx, state.workspace.workspaceId, entries);
    if !Unplannable(volume.s, state, records) { PlannedIsValid(j, volume.s, state, records); }
    if !ShapeOk(j) || !ValidJournal(j, j.workspaceId) { return Err(StateCorrupt); }
    return Ok(j);
  }

  /** What the targets still to be written can add to the byte count. */
  function Growth(size: File -> nat, j: Journal, from: nat): (g: nat)
    decreases |j.records| - from
  {
    if from >= |j.records| then 0
    else Max(0, size(j.records[from].body) - size(j.records[from].before.of)) + Growth(size, j, from + 1)
  }

  /** What these replacements exceed their originals by, summed. */
  ghost function Excess(size: File -> nat, entries: seq<JournalEntry>): nat {
    if entries == [] then 0
    else
      var last := entries[|entries| - 1];
      Excess(size, entries[..|entries| - 1])
      + if size(last.before.of) < size(last.body) then size(last.body) - size(last.before.of) else 0
  }

  lemma {:induction false} GrowthIsExcess(size: File -> nat, j: Journal, from: nat)
    requires from <= |j.records|
    ensures Excess(size, j.records[..from]) + Growth(size, j, from) == Excess(size, j.records)
    decreases |j.records| - from
  {
    if from < |j.records| {
      GrowthIsExcess(size, j, from + 1);
      assert j.records[..from + 1][..from] == j.records[..from];
    } else {
      assert j.records[..from] == j.records;
    }
  }

  lemma GrowthIsBounded(size: File -> nat, j: Journal, from: nat, largest: nat)
    requires Within(size, largest) && from <= |j.records|
    ensures Growth(size, j, from) <= Copies(|j.records| - from, largest)
    decreases |j.records| - from
  {
    if from < |j.records| {
      GrowthIsBounded(size, j, from + 1, largest);
      OneMoreCopy(|j.records| - from - 1, largest);
    }
  }

  /** The room reserved before the commit decision still covers every write from `from` on. */
  ghost predicate RoomFor(w: Writer, j: Journal, from: nat)
    reads w
  {
    && w.bytesUsed + Growth(w.size, j, from) <= w.maxTotalBytes
    && forall i :: 0 <= i < |j.records| && j.records[i].path == StateJson ==>
       w.size(j.records[i].body) <= w.maxSnapshotBytes
  }

  predicate Conflicts(s: DiskState, e: JournalEntry) {
    Seen(s, Live(e.path)) != Old(e) && Seen(s, Live(e.path)) != New(e)
  }

  ghost predicate HasConflict(s: DiskState, j: Journal) {
    exists i :: 0 <= i < |j.records| && Conflicts(s, j.records[i])
  }

  /** The byte budget stands in the way of one of the targets. */
  ghost predicate Blocked(w: Writer, j: Journal)
    reads w, w.volume
  {
    exists i {:trigger j.records[i]} :: 0 <= i < |j.records| && w.OverBudget(Live(j.records[i].path), j.records[i].body)
  }

  /** The first loop of `apply`. */
  method CheckTargets(w: Writer, j: Journal) returns (r: Outcome)
    ensures r.Refused? ==>
      r == Refused(StateCorrupt) && exists i :: 0 <= i < |j.records| && Conflicts(w.volume.s, j.records[i])
    ensures r.Done? ==> forall i :: 0 <= i < |j.records| ==> !Conflicts(w.volume.s, j.records[i])
    ensures r.Fault? && w.volume.calm ==> HasConflict(w.volume.s, j)
  {
    var i := 0;
    while i < |j.records|
      invariant 0 <= i <= |j.records|
      invariant forall a :: 0 <= a < i ==> !Conflicts(w.volume.s, j.records[a])
    {
      var ok, current := w.volume.Read(Live(j.records[i].path));
      if !ok || current.None? {
        assert ok ==> Conflicts(w.volume.s, j.records[i]);
        return Fault;
      }
      if current != Old(j.records[i]) && current != New(j.records[i]) {
        assert Conflicts(w.volume.s, j.records[i]);
        return Refused(StateCorrupt);
      }
      i := i + 1;
    }
    return Done;
  }

  /** One round of the second loop of `apply`. */
  method ApplyEntry(w: Writer, e: JournalEntry) returns (r: Outcome)
    requires w.Valid()
    modifies w, w.volume`s
    ensures w.Valid()
    ensures Attempted(old(w.volume.s), w.volume.s, Live(e.path), New(e))
    ensures old(Seen(w.volume.s, Live(e.path))) == New(e) ==> Calmer(old(w.volume.s), w.volume.s)
    ensures Seen(w.volume.s, Live(e.path)) in {old(Seen(w.volume.s, Live(e.path))), New(e)}
    ensures r.Done? ==> Calmer(old(Replace(w.volume.s, Live(e.path), New(e))), w.volume.s)
    ensures r.Done? ==> Settled(w.volume.s, Live(e.path), New(e))
    ensures r.Refused? ==> r == Refused(StorageFull) && old(w.OverBudget(Live(e.path), e.body))
    ensures r.Done? ==>
      || w.bytesUsed == old(w.bytesUsed)
      || w.bytesUsed == Max(0, old(w.bytesUsed - BytesAt(w.size, Seen(w.volume.s, Live(e.path)))) + w.size(e.body))
    ensures r.Fault? && w.volume.calm ==> old(Seen(w.volume.s, Live(e.path))) == None
    ensures r.Refused? ==> w.OverBudget(Live(e.path), e.body)
  {
    var ok, current := w.volume.Read(Live(e.path));
    if !ok || current.None? { return Fault; }
    if current != New(e) {
      r := w.AtomicWrite(Live(e.path), e.body);
      if !r.Done? { return; }
    }
    ok := w.volume.SyncFileAndParents(Live(e.path), WorkspaceDirectory);
    assert ok ==> Durable(w.volume.s, Live(e.path));
    return if ok then Done else Fault;
  }

  lemma RoomStep(size: File -> nat, j: Journal, i: nat, used: nat, usedAfter: nat, max: nat)
    requires i < |j.records|
    requires used + Growth(size, j, i) <= max
    requires usedAfter == used || usedAfter == Max(0, used - size(j.records[i].before.of) + size(j.records[i].body))
    ensures used - size(j.records[i].before.of) + size(j.records[i].body) <= max
    ensures usedAfter + Growth(size, j, i + 1) <= max
  {
  }

  /** What the second loop of `apply` keeps, started on `s` and now at entry i. */
  ghost predicate Progress(s: DiskState, now: DiskState, j: Journal, i: nat, k: nat) {
    && CalmOutside(s, now, j)
    && (forall a :: 0 <= a < |j.records| ==>
          Seen(now, Live(j.records[a].path)) in {Seen(s, Live(j.records[a].path)), New(j.records[a])})
    && (Applying(s, j, k) ==> Applying(now, j, At(i, k)))
  }

  lemma ProgressStep(s: DiskState, now: DiskState, after: DiskState, j: Journal, i: nat, k: nat, done: bool)
    requires DistinctPaths(j) && i < |j.records| && Progress(s, now, j, i, k)
    requires if done then Calmer(Replace(now, Live(j.records[i].path), New(j.records[i])), after)
                          && Settled(after, Live(j.records[i].path), New(j.records[i]))
             else Attempted(now, after, Live(j.records[i].path), New(j.records[i]))
    requires Seen(now, Live(j.records[i].path)) == New(j.records[i]) ==> Calmer(now, after)
    ensures Progress(s, after, j, if done then i + 1 else i, k)
  {
    if Applying(s, j, k) { EntryStep(now, after, j, i, k, done); }
  }

  lemma ProgressMeans(s: DiskState, now: DiskState, j: Journal, i: nat, k: nat)
    requires Progress(s, now, j, i, k)
    ensures Applying(s, j, k) ==> Committed(now, j)
    ensures Applying(s, j, k) && i >= |j.records| ==> Applied(now, j)
  {
  }

  method ApplyAt(w: Writer, j: Journal, i: nat, ghost s: DiskState, ghost k: nat) returns (r: Outcome)
    requires w.Valid() && DistinctPaths(j) && i < |j.records|
    requires Progress(s, w.volume.s, j, i, k) && !HasConflict(s, j)
    modifies w, w.volume`s
    ensures w.Valid()
    ensures Progress(s, w.volume.s, j, if r.Done? then i + 1 else i, k)
    ensures r.Refused? ==> r == Refused(StorageFull) && !old(RoomFor(w, j, i))
    ensures old(RoomFor(w, j, i)) && r.Done? ==> RoomFor(w, j, i + 1)
    ensures w.volume.calm ==> !r.Fault?
    ensures r.Refused? ==> Blocked(w, j)
  {
    ghost var before := w.volume.s;
    ghost var used := w.bytesUsed;
    assert !Conflicts(s, j.records[i]);
    r := ApplyEntry(w, j.records[i]);
    ProgressStep(s, before, w.volume.s, j, i, k, r.Done?);
    if old(RoomFor(w, j, i)) { RoomStep(w.size, j, i, used, if r.Done? then w.bytesUsed else used, w.maxTotalBytes); }
  }

  method Apply(w: Writer, j: Journal, ghost k: nat) returns (r: Outcome)
    requires w.Valid() && DistinctPaths(j)
    modifies w, w.volume`s
    ensures w.Valid()
    ensures CalmOutside(old(w.volume.s), w.volume.s, j)
    ensures old(HasConflict(w.volume.s, j)) ==> !r.Done? && w.volume.s == old(w.volume.s)
    ensures r == Refused(StateCorrupt) ==> old(HasConflict(w.volume.s, j))
    ensures old(Applying(w.volume.s, j, k)) ==> Committed(w.volume.s, j)
    ensures old(Applying(w.volume.s, j, k)) && r.Done? ==> Applied(w.volume.s, j)
    ensures r.Refused? && r != Refused(StateCorrupt) ==> r == Refused(StorageFull) && !old(RoomFor(w, j, 0))
    ensures w.volume.calm && !old(HasConflict(w.volume.s, j)) ==> !r.Fault?
    ensures r.Refused? && r != Refused(StateCorrupt) ==> Blocked(w, j)
  {
    ghost var start := w.volume.s;
    r := CheckTargets(w, j);
    if !r.Done? { return; }
    var i := 0;
    while i < |j.records|
      invariant 0 <= i <= |j.records|
      invariant w.Valid()
      invariant Progress(start, w.volume.s, j, i, k)
      invariant old(RoomFor(w, j, 0)) ==> RoomFor(w, j, i)
    {
      r := ApplyAt(w, j, i, start, k);
      if !r.Done? {
        ProgressMeans(start, w.volume.s, j, i, k);
        return;
      }
      i := i + 1;
    }
    ProgressMeans(start, w.volume.s, j, i, k);
    return Done;
  }

  /** The reservation of `commitWorkspace` (`journalBytes` plus every positive growth). */
  ghost predicate Reserved(w: Writer, j: Journal)
    reads w
  {
    && w.bytesUsed + w.size(JournalFile(j)) + MARKER_BYTES + Excess(w.size, j.records) <= w.maxTotalBytes
    && forall i :: 0 <= i < |j.records| && j.records[i].path == StateJson ==>
       w.size(j.records[i].body) <= w.maxSnapshotBytes
  }

  /** The transaction may begin: no other journal, and every target durably shows what the journal calls old. */
  ghost predicate Startable(s: DiskState, j: Journal) { Quiet(s) && AllOld(s, j) }

  /**
    * What a transaction needs of its targets is exactly that nothing but their old bodies can come back:
    * otherwise a power loss before any decision leaves some target at another content.
    */
  lemma TargetsMustBeFirm(s: DiskState, j: Journal)
    ensures (forall after :: PowerLoss(s, after) ==> AllOld(after, j))
      <==> (forall i, c :: 0 <= i < |j.records| && May(s, Live(j.records[i].path), c) ==> c == Old(j.records[i]))
  {
    if i, c :| 0 <= i < |j.records| && May(s, Live(j.records[i].path), c) && c != Old(j.records[i]) {
      var p := Live(j.records[i].path);
      var after := DiskState(if c.Some? then s.visible[p := c.value] else s.visible - {p}, map[]);
      assert Seen(after, p) == c && forall q :: q != p ==> Seen(after, q) == Seen(s, q);
      assert PowerLoss(s, after) && !AllOld(after, j);
    }
  }

  /** There is a snapshot of the journal's workspace, and each receipt it lists is one of a task of that. */
  ghost predicate ShowsOwnFiles(s: DiskState, j: Journal) {
    var snapshot := Seen(s, Live(StateJson));
    && snapshot.Some? && ParseWorkspace(snapshot.value).Ok?
    && ParseWorkspace(snapshot.value).value.workspace.workspaceId == j.workspaceId
    && forall i :: 0 <= i < |j.records| && j.records[i].path.Receipt? ==>
      var receipt := Seen(s, Live(j.records[i].path));
      && receipt.Some? && ParseExecution(receipt.value).Ok?
      && ParseExecution(receipt.value).value.operationId == j.records[i].path.operationId
      && ParseExecution(receipt.value).value.workspaceId == j.workspaceId
      && ParseExecution(receipt.value).value.taskId in ParseWorkspace(snapshot.value).value.tasks
  }

  lemma OwnFilesAreShown(s: DiskState, j: Journal)
    requires ValidJournal(j, j.workspaceId) && AllNew(s, j)
    ensures ShowsOwnFiles(s, j)
  {
    var last := |j.records| - 1;
    assert Settled(s, Live(j.records[last].path), New(j.records[last]));
  }

  method CommitJournal(w: Writer, j: Journal) returns (r: Outcome)
    requires w.Valid()
    modifies w, w.volume`s
    ensures w.Valid()
    ensures CalmOutside(old(w.volume.s), w.volume.s, j)
    ensures old(Startable(w.volume.s, j)) ==> InFlight(w.volume.s, j)
    ensures old(Startable(w.volume.s, j)) && r.Done? ==> Resolved(w.volume.s, j, true) && ShowsOwnFiles(w.volume.s, j)
    ensures !ValidJournal(j, j.workspaceId) ==> r == Refused(StateCorrupt) && w.volume.s == old(w.volume.s)
    ensures old(Startable(w.volume.s, j)) && r.Refused? && ValidJournal(j, j.workspaceId) ==>
      r == Refused(StorageFull) && !old(Reserved(w, j))
    ensures old(Startable(w.volume.s, j)) && w.volume.calm ==> !r.Fault?
  {
    if !ValidJournal(j, j.workspaceId) { return Refused(StateCorrupt); }
    ghost var ours := Startable(w.volume.s, j);
    r := Decide(w, j, ours);
    if !r.Done? { return; }
    r := Apply(w, j, 0);
    if !r.Done? { return; }
    r := CleanUp(w, j);
    if ours && r.Done? { OwnFilesAreShown(w.volume.s, j); }
  }

  /** Payload first, then the marker that decides; both confirmed before any target is touched. */
  method Decide(w: Writer, j: Journal, ghost ours: bool) returns (r: Outcome)
    requires w.Valid() && (ours ==> Startable(w.volume.s, j))
    modifies w, w.volume`s
    ensures w.Valid()
    ensures CalmOutside(old(w.volume.s), w.volume.s, j)
    ensures ours ==> Undecided(w.volume.s, j) || Deciding(w.volume.s, j)
    ensures ours && r.Done? ==> Applying(w.volume.s, j, 0)
    ensures old(Reserved(w, j)) && r.Done? ==> RoomFor(w, j, 0)
    ensures r.Refused? ==> r == Refused(StorageFull) && (ours ==> !old(Reserved(w, j)))
    ensures w.volume.calm ==> !r.Fault?
  {
    GrowthIsExcess(w.size, j, 0);
    var payload, marker := Payload(j.transactionId), Marker(j.transactionId);
    ghost var s0 := w.volume.s;
    r := w.AtomicWrite(payload, JournalFile(j));
    if ours && !r.Refused? { PayloadStep(s0, w.volume.s, j); }
    if !r.Done? { return; }
    ghost var s1 := w.volume.s;
    r := w.AtomicWrite(marker, MarkerFile(j));
    if ours && !r.Refused? { MarkerStep(s1, w.volume.s, j); }
    if !r.Done? { return; }
    assert ours ==> Deciding(w.volume.s, j) && Applying(w.volume.s, j, 0);
    ghost var s2 := w.volume.s;
    var ok := ConfirmJournal(w, j);
    CalmKeeps(s2, w.volume.s, j);
    return if ok then Done else Fault;
  }

  /** Before a target is touched, neither half of the journal may be lost to a power failure any more. */
  method ConfirmJournal(w: Writer, j: Journal) returns (ok: bool)
    requires w.Valid()
    modifies w.volume`s
    ensures w.Valid() && Calmer(old(w.volume.s), w.volume.s)
    ensures ok ==> Durable(w.volume.s, Payload(j.transactionId)) && Durable(w.volume.s, Marker(j.transactionId))
    ensures w.volume.calm ==> ok
  {
    ok := w.volume.SyncFileAndParents(Payload(j.transactionId), WorkspaceDirectory);
    if ok {
      ok := w.volume.SyncFileAndParents(Marker(j.transactionId), WorkspaceDirectory);
    }
  }

  /** In this order a failure in between leaves at worst a marker with nothing to replay. */
  method CleanUp(w: Writer, j: Journal) returns (r: Outcome)
    requires w.Valid()
    modifies w.volume`s
    ensures w.Valid() && !r.Refused?
    ensures CalmOutside(old(w.volume.s), w.volume.s, j)
    ensures old(Applied(w.volume.s, j)) ==> Applied(w.volume.s, j)
    ensures old(Applied(w.volume.s, j)) && r.Done? ==> Resolved(w.volume.s, j, true)
    ensures w.volume.calm ==> r.Done?
  {
    ghost var s0 := w.volume.s;
    var ok := w.volume.RemoveDurably(Payload(j.transactionId));
    CleanUpStep(s0, w.volume.s, j, Payload(j.transactionId));
    if !ok { return Fault; }
    ghost var s1 := w.volume.s;
    ok := w.volume.RemoveDurably(Marker(j.transactionId));
    CleanUpStep(s1, w.volume.s, j, Marker(j.transactionId));
    if !ok { return Fault; }
    return Done;
  }

  // ---------------------------------------------------------------------------------------- recovery

  ghost predicate Ours(s: DiskState, j: Journal, workspaceId: Uuid) {
    InFlight(s, j) && ValidJournal(j, workspaceId) && ShapeOk(j)
  }

  /** Recovery never changes the decision while the power stays on. */
  ghost predicate Kept(s: DiskState, now: DiskState, j: Journal) {
    && (Undecided(s, j) ==> Undecided(now, j))
    && (Decided(s, j) ==> Decided(now, j))
    && (Committed(s, j) ==> Committed(now, j))
    && CalmOutside(s, now, j)
  }

  /** A finished recovery: old bodies if nothing was decided, new bodies otherwise. */
  ghost predicate Recovered(s: DiskState, now: DiskState, j: Journal) {
    && (Undecided(s, j) ==> Resolved(now, j, false))
    && (Decided(s, j) ==> Resolved(now, j, true))
  }

  lemma DiscardStep(s: DiskState, after: DiskState, j: Journal)
    requires InFlight(s, j) && Seen(s, Marker(j.transactionId)) == None
    requires Attempted(s, after, Payload(j.transactionId), None)
    ensures Kept(s, after, j)
    ensures Settled(after, Payload(j.transactionId), None) && Durable(after, Marker(j.transactionId)) ==>
      Recovered(s, after, j)
  {
    assert !Deciding(s, j);
    assert forall k: nat :: !Applying(s, j, k);
    CleanUpStep(s, after, j, Payload(j.transactionId));
  }

  lemma WhatIsVisible(s: DiskState, j: Journal)
    requires InFlight(s, j)
    ensures Seen(s, Payload(j.transactionId)) in {None, Some(JournalFile(j))}
    ensures Seen(s, Marker(j.transactionId)) in {None, Some(MarkerFile(j))}
    ensures Seen(s, Marker(j.transactionId)).Some? ==> Decided(s, j) && !Undecided(s, j)
  {
    assert May(s, Payload(j.transactionId), Seen(s, Payload(j.transactionId)));
    assert May(s, Marker(j.transactionId), Seen(s, Marker(j.transactionId)));
  }

  method RecoverOne(w: Writer, tx: Uuid, workspaceId: Uuid, ghost j: Journal) returns (r: Outcome)
    requires w.Valid()
    modifies w, w.volume`s
    ensures w.Valid()
    ensures old(Ours(w.volume.s, j, workspaceId)) && tx == j.transactionId ==> Kept(old(w.volume.s), w.volume.s, j)
    ensures old(Ours(w.volume.s, j, workspaceId)) && tx == j.transactionId ==> !r.Refused? || r == Refused(StorageFull)
    ensures old(Ours(w.volume.s, j, workspaceId)) && tx == j.transactionId && r.Done? ==>
      Recovered(old(w.volume.s), w.volume.s, j)
    ensures old(Ours(w.volume.s, j, workspaceId)) && tx == j.transactionId && r.Refused? ==> Blocked(w, j)
    ensures old(Ours(w.volume.s, j, workspaceId)) && tx == j.transactionId && w.volume.calm ==>
      old(Seen(w.volume.s, Payload(tx))).Some? ==> !r.Fault?
    ensures old(Ours(w.volume.s, j, workspaceId)) && tx == j.transactionId && r.Refused? ==> !old(RoomFor(w, j, 0))
  {
    ghost var start := w.volume.s;
    ghost var ours := Ours(start, j, workspaceId) && tx == j.transactionId;
    if ours {
      CalmKeeps(start, start, j);
      WhatIsVisible(start, j);
    }
    var ok, raw := w.volume.Read(Payload(tx));
    if !ok || raw.None? { return Fault; }
    var marker;
    ok, marker := w.volume.Read(Marker(tx));
    if !ok { return Fault; }
    if marker.None? {
      ok := w.volume.RemoveDurably(Payload(tx));  // undecided, so every target is old
      if ours { DiscardStep(start, w.volume.s, j); }
      return if ok then Done else Fault;
    }
    if !raw.value.value.JournalValue? || !ShapeOk(raw.value.value.journal) { return Refused(StateCorrupt); }
    var journal := raw.value.value.journal;
    if journal.transactionId != tx || marker.value != Body(CommitMarker(Sha256(raw.value))) {
      return Refused(StateCorrupt);
    }
    if !ValidJournal(journal, workspaceId) { return Refused(StateCorrupt); }
    r := Replay(w, journal);
  }

  ghost predicate BothVisible(s: DiskState, j: Journal) {
    InFlight(s, j) && Seen(s, Payload(j.transactionId)).Some? && Seen(s, Marker(j.transactionId)).Some?
  }

  lemma NoConflicts(s: DiskState, j: Journal)
    requires InFlight(s, j)
    ensures !HasConflict(s, j)
  {
    forall i | 0 <= i < |j.records| ensures !Conflicts(s, j.records[i]) {
      assert May(s, Live(j.records[i].path), Seen(s, Live(j.records[i].path)));
    }
  }

  /** A committed journal: confirm it, apply it, remove it. */
  method Replay(w: Writer, j: Journal) returns (r: Outcome)
    requires w.Valid() && DistinctPaths(j)
    modifies w, w.volume`s
    ensures w.Valid()
    ensures r == Refused(StateCorrupt) ==> old(HasConflict(w.volume.s, j))
    ensures old(HasConflict(w.volume.s, j)) ==> !r.Done? && Calmer(old(w.volume.s), w.volume.s)
    ensures r.Refused? ==> r == Refused(StateCorrupt) || r == Refused(StorageFull)
    ensures CalmOutside(old(w.volume.s), w.volume.s, j)
    ensures old(BothVisible(w.volume.s, j)) ==> Kept(old(w.volume.s), w.volume.s, j)
    ensures old(BothVisible(w.volume.s, j)) && r.Done? ==> Recovered(old(w.volume.s), w.volume.s, j)
    ensures old(BothVisible(w.volume.s, j)) ==> !old(HasConflict(w.volume.s, j))
    ensures w.volume.calm && !old(HasConflict(w.volume.s, j)) ==> !r.Fault?
    ensures r == Refused(StorageFull) ==> Blocked(w, j)
    ensures r == Refused(StorageFull) ==> !old(RoomFor(w, j, 0))
  {
    ghost var start := w.volume.s;
    ghost var replaying := BothVisible(start, j);
    if replaying { WhatIsVisible(start, j); NoConflicts(start, j); }
    var ok := ConfirmJournal(w, j);
    CalmKeeps(start, w.volume.s, j);
    if !ok { return Fault; }
    ghost var k: nat := 0;
    if replaying {
      ReadyToApply(w.volume.s, j);
      k :| Applying(w.volume.s, j, k);
    }
    r := Apply(w, j, k);
    if !r.Done? { return; }
    r := CleanUp(w, j);
    assert replaying ==> Committed(w.volume.s, j);
  }

  lemma OrphanStep(s: DiskState, now: DiskState, after: DiskState, j: Journal)
    requires InFlight(s, j) && Seen(s, Marker(j.transactionId)).Some?
    requires Kept(s, now, j) && Seen(now, Payload(j.transactionId)) == None
    requires Attempted(now, after, Marker(j.transactionId), None)
    ensures Kept(s, after, j) && Seen(after, Payload(j.transactionId)) == None
  {
    WhatIsVisible(s, j);
    CleanUpStep(now, after, j, Marker(j.transactionId));
  }

  lemma SweptClean(s: DiskState, now: DiskState, after: DiskState, j: Journal)
    requires InFlight(s, j) && Kept(s, now, j)
    requires Seen(now, Payload(j.transactionId)) == None && Seen(now, Marker(j.transactionId)) == None
    requires Calmer(now, after)
    ensures Kept(s, after, j)
    ensures (forall tx :: Durable(after, Payload(tx)) && Durable(after, Marker(tx))) ==> Recovered(s, after, j)
  {
    CalmKeeps(now, after, j);
    if Decided(s, j) {
      assert Applied(now, j);
    }
  }

  method RecoverJournals(w: Writer, workspaceId: Uuid, ghost j: Journal) returns (r: Outcome)
    requires w.Valid()
    modifies w, w.volume`s
    ensures w.Valid()
    ensures old(Ours(w.volume.s, j, workspaceId)) ==>
      Kept(old(w.volume.s), w.volume.s, j) && (r.Refused? ==> r == Refused(StorageFull))
    ensures old(Ours(w.volume.s, j, workspaceId)) && r.Done? ==> Recovered(old(w.volume.s), w.volume.s, j)
    ensures old(Quiet(w.volume.s)) ==> Calmer(old(w.volume.s), w.volume.s) && !r.Refused?
    ensures old(Ours(w.volume.s, j, workspaceId)) && r.Refused? ==> Blocked(w, j)
    ensures (old(Ours(w.volume.s, j, workspaceId)) || old(Quiet(w.volume.s))) && w.volume.calm ==> !r.Fault?
    ensures old(Ours(w.volume.s, j, workspaceId)) && r.Refused? ==> !old(RoomFor(w, j, 0))
  {
    ghost var start := w.volume.s;
    r := Sweep(w, workspaceId, j);
    ghost var swept := w.volume.s;
    if !r.Done? { return; }
    var ok := w.volume.SyncDirectory(Transactions);  // also completes any deletion whose sync failed
    if Ours(start, j, workspaceId) { SweptClean(start, swept, w.volume.s, j); }
    return if ok then Done else Fault;
  }

  /** The two loops over the directory listing. */
  method Sweep(w: Writer, workspaceId: Uuid, ghost j: Journal) returns (r: Outcome)
    requires w.Valid()
    modifies w, w.volume`s
    ensures w.Valid()
    ensures old(Ours(w.volume.s, j, workspaceId)) ==>
      Kept(old(w.volume.s), w.volume.s, j) && (r.Refused? ==> r == Refused(StorageFull))
    ensures old(Ours(w.volume.s, j, workspaceId)) && r.Done? ==>
      Seen(w.volume.s, Payload(j.transactionId)) == None && Seen(w.volume.s, Marker(j.transactionId)) == None
    ensures old(Quiet(w.volume.s)) ==> w.volume.s == old(w.volume.s) && !r.Refused?
    ensures old(Ours(w.volume.s, j, workspaceId)) && r.Refused? ==> Blocked(w, j)
    ensures (old(Ours(w.volume.s, j, workspaceId)) || old(Quiet(w.volume.s))) && w.volume.calm ==> !r.Fault?
    ensures old(Ours(w.volume.s, j, workspaceId)) && r.Refused? ==> !old(RoomFor(w, j, 0))
  {
    ghost var start := w.volume.s;
    var listed := w.volume.MaySucceed();
    if !listed { return Fault; }
    var payloads := set p | p in w.volume.s.visible && p.Payload? :: p.transactionId;
    var markers := set p | p in w.volume.s.visible && p.Marker? :: p.transactionId;
    assert forall tx :: tx in payloads <==> Seen(start, Payload(tx)).Some?;
    assert forall tx :: tx in markers <==> Seen(start, Marker(tx)).Some?;
    assert Quiet(start) ==> payloads == {} && markers == {};
    r := RecoverEach(w, payloads, workspaceId, start, j);
    if !r.Done? { return; }
    r := RemoveOrphans(w, markers, start, j, Ours(start, j, workspaceId));
  }

  /** The first loop: every listed payload (the code goes in name order; no order is used here). */
  method RecoverEach(w: Writer, payloads: set<Uuid>, workspaceId: Uuid, ghost start: DiskState,
                     ghost j: Journal) returns (r: Outcome)
    requires w.Valid() && w.volume.s == start
    requires forall tx :: tx in payloads <==> Seen(start, Payload(tx)).Some?
    modifies w, w.volume`s
    ensures w.Valid()
    ensures Ours(start, j, workspaceId) ==>
      Kept(start, w.volume.s, j) && (r.Refused? ==> r == Refused(StorageFull))
    ensures Ours(start, j, workspaceId) && r.Done? ==>
      Seen(w.volume.s, Payload(j.transactionId)) == None
      && (j.transactionId in payloads ==> Seen(w.volume.s, Marker(j.transactionId)) == None)
      && (j.transactionId !in payloads ==> w.volume.s == start)
    ensures payloads == {} ==> w.volume.s == start && r.Done?
    ensures Ours(start, j, workspaceId) && r.Refused? ==> Blocked(w, j)
    ensures Ours(start, j, workspaceId) && w.volume.calm ==> !r.Fault?
    ensures Ours(start, j, workspaceId) && r.Refused? ==> !old(RoomFor(w, j, 0))
  {
    ghost var ours := Ours(start, j, workspaceId);
    CalmKeeps(start, start, j);
    var todo := payloads;
    while todo != {}
      invariant w.Valid() && todo <= payloads
      invariant ours ==> Kept(start, w.volume.s, j) && todo <= {j.transactionId}
      invariant ours && j.transactionId !in todo && j.transactionId in payloads ==>
        Seen(w.volume.s, Payload(j.transactionId)) == None && Seen(w.volume.s, Marker(j.transactionId)) == None
      invariant todo == payloads ==> w.volume.s == start && w.bytesUsed == old(w.bytesUsed)
    {
      var tx :| tx in todo;
      r := RecoverOne(w, tx, workspaceId, j);
      if !r.Done? { return; }
      todo := todo - {tx};
    }
    return Done;
  }

  /** Loop 2 stands here: the decision is kept, the payload is gone, and so is every marker done with. */
  ghost predicate Sweeping(s: DiskState, now: DiskState, j: Journal, todo: set<Uuid>) {
    && Kept(s, now, j)
    && Seen(now, Payload(j.transactionId)) == None
    && (j.transactionId !in todo ==> Seen(now, Marker(j.transactionId)) == None)
  }

  lemma SweepStep(s: DiskState, now: DiskState, after: DiskState, j: Journal, todo: set<Uuid>, tx: Uuid, ok: bool)
    requires InFlight(s, j) && Seen(s, Marker(tx)).Some?
    requires Sweeping(s, now, j, todo) && tx in todo
    requires Attempted(now, after, Marker(tx), None) && (ok ==> Seen(after, Marker(tx)) == None)
    ensures Sweeping(s, after, j, if ok then todo - {tx} else todo)
  {
    assert tx == j.transactionId;
    OrphanStep(s, now, after, j);
  }

  /** The second loop: markers whose payload is gone. */
  method RemoveOrphans(w: Writer, markers: set<Uuid>, ghost start: DiskState, ghost j: Journal,
                       ghost ours: bool) returns (r: Outcome)
    requires w.Valid()
    requires forall tx :: tx in markers <==> Seen(start, Marker(tx)).Some?
    requires ours ==> InFlight(start, j) && Sweeping(start, w.volume.s, j, markers)
    modifies w.volume`s
    ensures w.Valid() && !r.Refused?
    ensures ours ==> Kept(start, w.volume.s, j)
    ensures ours && r.Done? ==> Sweeping(start, w.volume.s, j, {})
    ensures markers == {} ==> w.volume.s == old(w.volume.s)
    ensures w.volume.calm ==> r.Done?
  {
    var todo := markers;
    while todo != {}
      invariant w.Valid() && todo <= markers
      invariant markers == {} ==> w.volume.s == old(w.volume.s)
      invariant ours ==> Sweeping(start, w.volume.s, j, todo)
    {
      var tx :| tx in todo;
      ghost var now := w.volume.s;
      assert ours ==> tx == j.transactionId;
      var ok, payload := w.volume.Read(Payload(tx));
      if !ok { return Fault; }
      if payload.None? {
        ok := w.volume.RemoveDurably(Marker(tx));
        if ours { SweepStep(start, now, w.volume.s, j, todo, tx, ok); }
        if !ok { return Fault; }
      }
      todo := todo - {tx};
    }
    return Done;
  }

  // --------------------------------------------------------------------------------- whole histories

  lemma StormRecovery(s: DiskState, after: DiskState, j: Journal, done: bool)
    requires InFlight(s, j) && Kept(s, after, j) && (done ==> Recovered(s, after, j)) && (Quiet(s) ==> Calmer(s, after))
    ensures InFlight(after, j)
    ensures forall b :: Resolved(s, j, b) ==> Resolved(after, j, b)
  {
    if Quiet(s) { CalmKeeps(s, after, j); }
  }

  /** `used` is what the process that attempts the recovery counts as used bytes at that time. */
  datatype Event = Recovery(calm: bool, used: nat) | ProcessRestart | PowerFailure

  /** With room for every target, a recovery that no primitive fails finishes. */
  predicate MustFinish(e: Event, size: File -> nat, maxSnapshotBytes: nat, maxTotalBytes: nat, j: Journal) {
    && e.Recovery? && e.calm && e.used + Growth(size, j, 0) <= maxTotalBytes
    && forall i :: 0 <= i < |j.records| && j.records[i].path == StateJson ==>
       size(j.records[i].body) <= maxSnapshotBytes
  }

  ghost predicate Finished(e: Event, r: Outcome) { e.Recovery? && r.Done? }

  /** How the story stands: once a recovery has finished, its outcome is there for good. */
  ghost predicate Fate(start: DiskState, now: DiskState, j: Journal, finished: Option<bool>) {
    && InFlight(now, j)
    && (finished.Some? ==> Resolved(now, j, finished.value))
    && (Committed(start, j) ==> Committed(now, j) && (finished.Some? ==> Resolved(now, j, true)))
    && (Undecided(start, j) ==> Undecided(now, j) && (finished.Some? ==> Resolved(now, j, false)))
  }

  /** What a finished recovery decides, if none has finished before. */
  ghost function Decision(before: DiskState, j: Journal, finished: Option<bool>): Option<bool> {
    if finished.Some? then finished else Some(!Undecided(before, j))
  }

  lemma RecoveryKeepsFate(start: DiskState, before: DiskState, now: DiskState, j: Journal, finished: Option<bool>,
                          done: bool)
    requires Fate(start, before, j, finished) && Kept(before, now, j) && (done ==> Recovered(before, now, j))
    requires Quiet(before) ==> Calmer(before, now)
    ensures Fate(start, now, j, if done then Decision(before, j, finished) else finished)
  {
    StormRecovery(before, now, j, done);
  }

  method RecoverOnce(w: Writer, workspaceId: Uuid, e: Event, j: Journal, ghost start: DiskState,
                     ghost finished: Option<bool>)
    returns (r: Outcome, ghost next: Option<bool>)
    requires w.Valid() && ValidJournal(j, workspaceId) && ShapeOk(j) && Fate(start, w.volume.s, j, finished)
    requires e.Recovery? && w.volume.calm == e.calm
    modifies w, w.volume`s
    ensures w.Valid() && Fate(start, w.volume.s, j, next)
    ensures next == if r.Done? then Some(next.Some? && next.value) else finished
    ensures MustFinish(e, w.size, w.maxSnapshotBytes, w.maxTotalBytes, j) ==> r.Done?
  {
    ghost var before := w.volume.s;
    w.bytesUsed := e.used;
    r := RecoverJournals(w, workspaceId, j);
    next := if r.Done? then Decision(before, j, finished) else finished;
    RecoveryKeepsFate(start, before, w.volume.s, j, finished, r.Done?);
  }

  method Happen(w: Writer, workspaceId: Uuid, e: Event, j: Journal, ghost start: DiskState,
                ghost finished: Option<bool>)
    returns (r: Outcome, after: Writer, ghost next: Option<bool>)
    requires w.Valid() && ValidJournal(j, workspaceId) && ShapeOk(j) && Fate(start, w.volume.s, j, finished)
    modifies w, w.volume
    ensures after.Valid() && (after == w || fresh(after)) && after.volume == w.volume && after.size == w.size
    ensures after.maxSnapshotBytes == w.maxSnapshotBytes && after.maxTotalBytes == w.maxTotalBytes
    ensures Fate(start, after.volume.s, j, next)
    ensures next == if Finished(e, r) then Some(next.Some? && next.value) else finished
    ensures MustFinish(e, w.size, w.maxSnapshotBytes, w.maxTotalBytes, j) ==> r.Done?
  {
    r, after, next := Done, w, finished;
    match e {
      case Recovery(calm, _) =>
        w.volume.calm := calm;
        r, next := RecoverOnce(w, workspaceId, e, j, start, finished);
      case ProcessRestart =>
        after := new Writer(w.volume, w.size, w.maxSnapshotBytes, w.maxTotalBytes);
      case PowerFailure =>
        ghost var before := w.volume.s;
        w.volume.PowerCut();
        PowerLossKeepsTheTransaction(before, w.volume.s, j);
        after := new Writer(w.volume, w.size, w.maxSnapshotBytes, w.maxTotalBytes);
    }
  }

  /**
    * Any interruption of a commit, followed by any sequence of recoveries (each of which may fail or die
    * at any of its own steps), process restarts and power failures. A recovery that meets no failure
    * finishes. As soon as one recovery has finished the outcome is fixed: all targets durably old or all
    * durably new, no journal left, and nothing that follows changes it. A transaction whose marker was
    * durable ends new, one whose marker was never written ends old.
    */
  method Storm(volume: Volume, size: File -> nat, maxSnapshotBytes: nat, maxTotalBytes: nat,
               j: Journal, workspaceId: Uuid, events: seq<Event>)
    returns (outcomes: seq<Outcome>, ghost finished: Option<bool>)
    requires Ours(volume.s, j, workspaceId)
    requires forall d :: size(Body(CommitMarker(d))) == MARKER_BYTES
    modifies volume
    ensures |outcomes| == |events|
    ensures forall n :: 0 <= n < |events| && MustFinish(events[n], size, maxSnapshotBytes, maxTotalBytes, j) ==>
      outcomes[n].Done?
    ensures finished.Some? <==> exists n :: 0 <= n < |events| && Finished(events[n], outcomes[n])
    ensures Fate(old(volume.s), volume.s, j, finished)
  {
    ghost var start := volume.s;
    var w := new Writer(volume, size, maxSnapshotBytes, maxTotalBytes);
    finished, outcomes := None, [];
    for n := 0 to |events|
      invariant w.Valid() && w.volume == volume && w.size == size && fresh(w)
      invariant w.maxSnapshotBytes == maxSnapshotBytes && w.maxTotalBytes == maxTotalBytes
      invariant Fate(start, volume.s, j, finished) && |outcomes| == n
      invariant forall k :: 0 <= k < n && MustFinish(events[k], size, maxSnapshotBytes, maxTotalBytes, j) ==>
        outcomes[k].Done?
      invariant finished.Some? <==> exists k :: 0 <= k < n && Finished(events[k], outcomes[k])
    {
      var r;
      r, w, finished := Happen(w, workspaceId, events[n], j, start, finished);
      outcomes := outcomes + [r];
    }
  }
}
