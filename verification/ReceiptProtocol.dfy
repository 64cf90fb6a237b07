/**
  * Receipts and task states under concurrent callers (src/continuity/execution-recorder.ts,
  * src/continuity/task-service.ts): every interleaving of calls at their storage operations, with failed
  * writes, restarts and power failures anywhere.
  *
  * A storage operation is one step, because the storage lock makes it one. Of a snapshot only the status of
  * each task matters here. A commit that fails leaves its files to the recovery that precedes the next
  * read; `seen` is what that read will find.
  */
module ReceiptProtocol {
  import opened Wrappers
  import opened TaskTypes
  import opened StorageSchema
  import opened ExecutionRecorder
  import opened TaskService

  type Statuses = map<Uuid, TaskStatus>
  type MaybeReceipt = Option<ExecutionRecord>

  // --------------------------------------------------------------------------------------- one file

  /** What the next reader finds, and everything the disk may come out with. */
  datatype Cell<!T> = Cell(seen: T, can: iset<T>)

  predicate Sound<T>(c: Cell<T>) { c.seen in c.can }

  ghost predicate Firm<T(!new)>(c: Cell<T>, v: T) {
    c.seen == v && forall x :: x in c.can <==> x == v
  }

  predicate SeenOf(c: Cell<Option<ExecutionRecord>>, taskId: Uuid) { c.seen.Some? && c.seen.value.taskId == taskId }

  /** Some of what was possible no longer is. */
  predicate Kept<T>(c: Cell<T>, d: Cell<T>) {
    d.seen == c.seen && Sound(d) && d.can <= c.can
  }

  /** An atomic write of v, which may fail on either side of its effect. */
  ghost predicate Wrote<T(!new)>(c: Cell<T>, d: Cell<T>, v: T, ok: bool) {
    && Sound(d) && (Kept(c, d) || (d.seen == v && d.can <= c.can + iset{v}))
    && (ok ==> Firm(d, v))
  }

  /** v as part of a transaction: after a failure, recovery decides which side is seen. */
  ghost predicate Committed<T(!new)>(c: Cell<T>, d: Cell<T>, v: T, ok: bool) {
    && Sound(d) && (d.seen == c.seen || d.seen == v) && d.can <= c.can + iset{v}
    && (ok ==> Firm(d, v))
  }

  ghost predicate PowerLost<T(!new)>(c: Cell<T>, d: Cell<T>) {
    d.seen in c.can && Firm(d, d.seen)
  }

  // ------------------------------------------------------------------------------------------ calls

  datatype Change =
    | ToRunning(sessionId: string, now: Time)
    | ToSpawnFailed(errorCode: string, now: Time)
    | ToTerminal(observation: Observation, now: Time)
    | ToDegraded

  function Changed(r: ExecutionRecord, change: Change, boot: Uuid): ExecutionRecord {
    match change
    case ToRunning(sessionId, now) => Started(r, sessionId, now)
    case ToSpawnFailed(code, now) => FailedToSpawn(r, code, now)
    case ToTerminal(o, now) => Terminal(r, boot, o, now)
    case ToDegraded => Degraded(r)
  }

  datatype Job =
    | Prepare(taskId: Uuid, op: Uuid, toolKind: ToolKind, inputHmac: Hmac, now: Time)
    | Mark(op: Uuid, change: Change)
    | Create
    | Update(taskId: Uuid, resolutions: seq<Reconciliation>)
    | Complete(taskId: Uuid, outcome: TaskStatus)

  /** What a call has found out so far, under the locks it holds. */
  datatype Stage =
    | Begin
    | SawActive
    | SawNoReceipt
    | SawReceipt(record: ExecutionRecord)
    | Collected(records: seq<ExecutionRecord>)
    | SawClosable

  datatype Call = Call(job: Job, workspace: bool, holds: set<Uuid>, stage: Stage)

  datatype System = System(
    workspaceId: Uuid, boot: Uuid, boots: set<Uuid>, booting: bool,
    statuses: Cell<Statuses>, receipts: imap<Uuid, Cell<MaybeReceipt>>,
    calls: map<nat, Call>, grants: seq<Uuid>)

  datatype Event =
    | Arrive(k: nat, job: Job)
    | LockWorkspace(k: nat)
    | LockReceipt(k: nat, op: Uuid)
    | SeeActive(k: nat)
    | SeeNoReceipt(k: nat)
    | SeeReceipt(k: nat)
    | Collect(k: nat)
    | SeeClosable(k: nat)
    | WriteFirst(k: nat, ok: bool)
    | WriteChange(k: nat, ok: bool)
    | WriteStatus(k: nat, taskId: Uuid, ok: bool)
    | Commit(k: nat, ok: bool)
    | Leave(k: nat)
    | Restart(boot: Uuid, powerFailed: bool)
    | BootWrite(op: Uuid, now: Time, ok: bool)
    | BootDone
    | Settle  // a directory is synced, for whatever reason

  // ---------------------------------------------------------------------------------------- the steps

  function With(s: System, k: nat, c: Call): System { s.(calls := s.calls[k := c]) }
  function Without(s: System, k: nat): System { s.(calls := s.calls - {k}) }

  /** The durable snapshot lets the job go on. */
  ghost predicate Fits(s: System, job: Job) {
    && Firm(s.statuses, s.statuses.seen)
    && match job
       case Create => forall id :: id in s.statuses.seen ==> s.statuses.seen[id] != Active
       case Mark(_, _) => true
       case _ => job.taskId in s.statuses.seen && s.statuses.seen[job.taskId] == Active
  }

  /** Reading confirms what it finds; other files may only settle further. */
  ghost predicate Narrows(s: System, t: System) {
    && t == s.(statuses := t.statuses, receipts := t.receipts, calls := t.calls)
    && Kept(s.statuses, t.statuses)
    && (forall op: Uuid :: op in t.receipts)
    && forall op :: op in s.receipts ==> Kept(s.receipts[op], t.receipts[op])
  }

  ghost predicate Reads(s: System, t: System, k: nat, c: Call) {
    Narrows(s, t) && t.calls == s.calls[k := c]
  }

  function FirstOf(s: System, job: Job): ExecutionRecord
    requires job.Prepare?
  {
    FirstReceipt(job.op, job.taskId, s.workspaceId, s.boot, job.toolKind, job.inputHmac, job.now)
  }

  ghost predicate ClosableCell(c: Cell<MaybeReceipt>, taskId: Uuid, outcome: TaskStatus) {
    forall r :: r in c.can && r.Some? && r.value.taskId == taskId ==> Closable(r.value, outcome)
  }

  /** The only file written is this receipt. */
  ghost predicate WritesReceipt(s: System, t: System, op: Uuid, v: ExecutionRecord, ok: bool) {
    && op in s.receipts && op in t.receipts && t.receipts == s.receipts[op := t.receipts[op]]
    && Wrote(s.receipts[op], t.receipts[op], Some(v), ok)
  }

  ghost predicate Unsettled(r: MaybeReceipt, boot: Uuid) {
    r.Some? && r.value.bootId != boot && (r.value.state == Prepared || r.value.state == Running)
  }

  ghost predicate Next(s: System, t: System, e: Event) {
    match e
    case Arrive(k, job) =>
      !s.booting && k !in s.calls && t == With(s, k, Call(job, false, {}, Begin))
    case LockWorkspace(k) =>
      && k in s.calls && s.calls[k].stage == Begin && !s.calls[k].job.Mark?
      && (forall j :: j in s.calls ==> !s.calls[j].workspace)
      && t == With(s, k, s.calls[k].(workspace := true))
    case LockReceipt(k, op) =>
      && k in s.calls && (forall j :: j in s.calls ==> op !in s.calls[j].holds)
      && ((s.calls[k].job.Mark? && s.calls[k].job.op == op && s.calls[k].stage == Begin)
          || (s.calls[k].job.Prepare? && s.calls[k].job.op == op && s.calls[k].stage == SawActive))
      && t == With(s, k, s.calls[k].(holds := s.calls[k].holds + {op}))
    case SeeActive(k) =>
      && k in s.calls && s.calls[k].stage == Begin && s.calls[k].workspace && !s.calls[k].job.Mark?
      && Reads(s, t, k, s.calls[k].(stage := if s.calls[k].job.Update? then Collected([]) else SawActive))
      && Fits(t, s.calls[k].job)
    case SeeNoReceipt(k) =>
      && k in s.calls && s.calls[k].stage == SawActive && s.calls[k].job.Prepare?
         && s.calls[k].job.op in s.calls[k].holds
      && Reads(s, t, k, s.calls[k].(stage := SawNoReceipt))
      && Firm(t.receipts[s.calls[k].job.op], None)
    case SeeReceipt(k) =>
      && k in s.calls && s.calls[k].stage == Begin && s.calls[k].job.Mark? && s.calls[k].job.op in s.calls[k].holds
      && Narrows(s, t) && t.receipts[s.calls[k].job.op].seen.Some?
      && Firm(t.receipts[s.calls[k].job.op], t.receipts[s.calls[k].job.op].seen)
      && t.calls == s.calls[k := s.calls[k].(stage := SawReceipt(t.receipts[s.calls[k].job.op].seen.value))]
    case Collect(k) => CollectStep(s, t, k)
    case SeeClosable(k) =>
      && k in s.calls && s.calls[k].stage == SawActive && s.calls[k].job.Complete?
      && Reads(s, t, k, s.calls[k].(stage := SawClosable))
      && forall op :: op in t.receipts && SeenOf(t.receipts[op], s.calls[k].job.taskId) ==>
          Firm(t.receipts[op], t.receipts[op].seen) && Closable(t.receipts[op].seen.value, s.calls[k].job.outcome)
    case WriteFirst(k, ok) =>
      && k in s.calls && s.calls[k].stage == SawNoReceipt && s.calls[k].job.Prepare?
      && WritesReceipt(s, t, s.calls[k].job.op, FirstOf(s, s.calls[k].job), ok)
      && t == Without(s, k).(receipts := t.receipts, grants := if ok then s.grants + [s.calls[k].job.op] else s.grants)
    case WriteChange(k, ok) =>
      && k in s.calls && s.calls[k].stage.SawReceipt? && s.calls[k].job.Mark?
      && ExecutionOk(Changed(s.calls[k].stage.record, s.calls[k].job.change, s.boot))
      && WritesReceipt(s, t, s.calls[k].job.op, Changed(s.calls[k].stage.record, s.calls[k].job.change, s.boot), ok)
      && t == Without(s, k).(receipts := t.receipts)
    case WriteStatus(k, taskId, ok) => WriteStatusStep(s, t, k, taskId, ok)
    case Commit(k, ok) => CommitStep(s, t, k, ok)
    case Leave(k) =>
      k in s.calls && t == Without(s, k)
    case Restart(boot, powerFailed) =>
      && boot !in s.boots
      && t == s.(boot := boot, boots := s.boots + {boot}, booting := true, calls := map[], statuses := t.statuses,
         receipts := t.receipts)
      && (forall op: Uuid :: op in t.receipts)
      && if powerFailed
         then PowerLost(s.statuses, t.statuses) && forall op :: op in s.receipts ==>
           PowerLost(s.receipts[op], t.receipts[op])
         else t.statuses == s.statuses && t.receipts == s.receipts
    case BootWrite(op, now, ok) =>
      && s.booting && op in s.receipts && Unsettled(s.receipts[op].seen, s.boot)
      && WritesReceipt(s, t, op, AfterBoot(s.receipts[op].seen.value, s.boot, now), ok)
      && t == s.(receipts := t.receipts)
    case BootDone =>
      && s.booting && (forall op :: op in s.receipts ==> !Unsettled(s.receipts[op].seen, s.boot))
      && t == s.(booting := false)
    case Settle => Narrows(s, t) && t.calls == s.calls
  }

  /** The next resolution: lock its receipt, read it, and resolve it in memory. */
  ghost predicate CollectStep(s: System, t: System, k: nat) {
    && k in s.calls && s.calls[k].job.Update? && s.calls[k].stage.Collected?
    && var c := s.calls[k];
       var i := |c.stage.records|;
       && i < |c.job.resolutions|
       && var op := c.job.resolutions[i].operationId;
          && (forall j :: j in s.calls ==> op !in s.calls[j].holds)
          && Narrows(s, t)
          && UnknownOf(t, op, c.job.taskId)
          && t.calls == s.calls[k := c.(holds := c.holds + {op},
                                        stage := Collected(c.stage.records + [Resolve(t.receipts[op].seen.value,
                                          c.job.resolutions[i])]))]
  }

  /** The receipt is durable, unknown, and of this task. */
  ghost predicate UnknownOf(s: System, op: Uuid, taskId: Uuid) {
    && op in s.receipts && s.receipts[op].seen.Some? && Firm(s.receipts[op], s.receipts[op].seen)
    && s.receipts[op].seen.value.state == Unknown && s.receipts[op].seen.value.taskId == taskId
  }

  /** create and complete end with one atomic write of the snapshot. */
  ghost predicate WriteStatusStep(s: System, t: System, k: nat, taskId: Uuid, ok: bool) {
    && k in s.calls
    && var c := s.calls[k];
       && ((c.job.Create? && c.stage == SawActive && NeverUsed(s, taskId))
           || (c.job.Complete? && c.stage == SawClosable && taskId == c.job.taskId))
       && Wrote(s.statuses, t.statuses, s.statuses.seen[taskId := if c.job.Create? then Active else c.job.outcome], ok)
       && t == Without(s, k).(statuses := t.statuses)
  }

  /** A random task id is one no file mentions. */
  ghost predicate NeverUsed(s: System, taskId: Uuid) {
    && (forall m :: m in s.statuses.can ==> taskId !in m)
    && forall op, r :: op in s.receipts && r in s.receipts[op].can && r.Some? ==> r.value.taskId != taskId
  }

  /** update ends with one transaction over the snapshot, whose statuses stay, and the collected receipts. */
  ghost predicate CommitStep(s: System, t: System, k: nat, ok: bool) {
    && k in s.calls && s.calls[k].job.Update? && s.calls[k].stage.Collected?
    && var c := s.calls[k];
       && |c.stage.records| == |c.job.resolutions|
       && (forall op: Uuid :: op in t.receipts)
       && t == Without(s, k).(receipts := t.receipts)
       && forall op :: op in s.receipts ==> CommitCell(c, op, s.receipts[op], t.receipts[op], ok)
  }

  ghost predicate CommitCell(c: Call, op: Uuid, before: Cell<MaybeReceipt>, after: Cell<MaybeReceipt>, ok: bool)
    requires c.job.Update? && c.stage.Collected? && |c.stage.records| == |c.job.resolutions|
  {
    if exists i :: 0 <= i < |c.stage.records| && c.job.resolutions[i].operationId == op then
      exists i :: 0 <= i < |c.stage.records| && c.job.resolutions[i].operationId == op
        && Committed(before, after, Some(c.stage.records[i]), ok)
    else after == before
  }

  // --------------------------------------------------------------------------------- the invariant

  predicate RecordOk(s: System, op: Uuid, r: ExecutionRecord) {
    ExecutionOk(r) && r.operationId == op && BootOk(r, s.boot) && r.bootId in s.boots
  }

  /** Every version of a receipt is well formed, they all have one owner, and a missing one cannot come back. */
  ghost predicate CellOk(s: System, op: Uuid) {
    && op in s.receipts
    && Sound(s.receipts[op]) && (s.receipts[op].seen.None? ==> Firm(s.receipts[op], None))
    && (forall r :: r in s.receipts[op].can && r.Some? ==> RecordOk(s, op, r.value))
    && (forall a, b :: a in s.receipts[op].can && b in s.receipts[op].can && a.Some? && b.Some? ==>
       SameOwner(a.value, b.value))
  }

  /** Whatever snapshot and receipts the disk comes out with: no receipt of a closed task stands in its way. */
  ghost predicate ClosedStayClosable(s: System) {
    forall m, id, op :: m in s.statuses.can && id in m && m[id] != Active && op in s.receipts ==>
      ClosableCell(s.receipts[op], id, m[id])
  }

  /** An operation is granted once, and its receipt exists from then on. */
  ghost predicate GrantsOk(s: System) {
    && (forall i, j :: 0 <= i < j < |s.grants| ==> s.grants[i] != s.grants[j])
    && (forall op :: op in s.grants ==> op in s.receipts && None !in s.receipts[op].can)
  }

  ghost predicate DiskOk(s: System) {
    && (forall op :: CellOk(s, op))
    && Sound(s.statuses) && s.boot in s.boots
    && ClosedStayClosable(s) && GrantsOk(s)
    && (!s.booting ==> forall op :: op in s.receipts ==> !Unsettled(s.receipts[op].seen, s.boot))
  }

  ghost predicate CollectedOk(s: System, c: Call, i: nat)
    requires c.job.Update? && c.stage.Collected? && i < |c.stage.records| <= |c.job.resolutions|
  {
    var op := c.job.resolutions[i].operationId;
    op in c.holds && UnknownOf(s, op, c.job.taskId)
      && c.stage.records[i] == Resolve(s.receipts[op].seen.value, c.job.resolutions[i])
  }

  /** What a call has found out is still so. */
  ghost predicate Knows(s: System, c: Call) {
    match c.stage
    case Begin => true
    case SawActive => c.workspace && !c.job.Mark? && Fits(s, c.job)
    case SawNoReceipt => c.workspace && c.job.Prepare? && Fits(s, c.job) && c.job.op in c.holds
      && c.job.op in s.receipts && Firm(s.receipts[c.job.op], None)
    case SawReceipt(r) =>
      c.job.Mark? && c.job.op in c.holds && c.job.op in s.receipts && Firm(s.receipts[c.job.op], Some(r))
    case Collected(rs) =>
      && c.workspace && c.job.Update? && Fits(s, c.job) && |rs| <= |c.job.resolutions|
      && forall i :: 0 <= i < |rs| ==> CollectedOk(s, c, i)
    case SawClosable =>
      c.workspace && c.job.Complete? && Fits(s, c.job) && forall op :: op in s.receipts ==>
        ClosableCell(s.receipts[op], c.job.taskId, c.job.outcome)
  }

  ghost predicate LocksOk(s: System) {
    forall j, k :: j in s.calls && k in s.calls && j != k ==>
      !(s.calls[j].workspace && s.calls[k].workspace) && s.calls[j].holds !! s.calls[k].holds
  }

  ghost predicate Inv(s: System) {
    && DiskOk(s) && LocksOk(s)
    && (s.booting ==> s.calls == map[])
    && forall k :: k in s.calls ==> Knows(s, s.calls[k])
  }

  // ------------------------------------------------------------------------------- reading keeps it

  lemma NarrowingKeepsDisk(s: System, t: System)
    requires DiskOk(s) && Narrows(s, t)
    ensures DiskOk(t)
  {
    forall op ensures CellOk(t, op) { assert CellOk(s, op) && Kept(s.receipts[op], t.receipts[op]); }
    forall m, id, op | m in t.statuses.can && id in m && m[id] != Active && op in t.receipts
      ensures ClosableCell(t.receipts[op], id, m[id])
    {
      assert CellOk(s, op);
      assert ClosableCell(s.receipts[op], id, m[id]) && Kept(s.receipts[op], t.receipts[op]);
    }
    forall op | op in t.grants ensures None !in t.receipts[op].can { assert Kept(s.receipts[op], t.receipts[op]); }
    if !t.booting {
      forall op | op in t.receipts ensures !Unsettled(t.receipts[op].seen, t.boot) {
        assert CellOk(s, op) && Kept(s.receipts[op], t.receipts[op]);
      }
    }
  }

  lemma NarrowingKeepsKnowledge(s: System, t: System, c: Call)
    requires DiskOk(s) && Narrows(s, t) && Knows(s, c)
    ensures Knows(t, c)
  {
    if c.stage.Collected? {
      forall i | 0 <= i < |c.stage.records| ensures CollectedOk(t, c, i) {
        assert CollectedOk(s, c, i);
        assert Kept(s.receipts[c.job.resolutions[i].operationId], t.receipts[c.job.resolutions[i].operationId]);
      }
    }
    if c.stage.SawClosable? {
      forall op | op in t.receipts ensures ClosableCell(t.receipts[op], c.job.taskId, c.job.outcome) {
        assert CellOk(s, op);
        assert ClosableCell(s.receipts[op], c.job.taskId, c.job.outcome) && Kept(s.receipts[op], t.receipts[op]);
      }
    }
    if c.stage.SawNoReceipt? || c.stage.SawReceipt? {
      assert Kept(s.receipts[c.job.op], t.receipts[c.job.op]);
    }
  }

  /** After a read by k: its own call knows more, the others what they knew. */
  lemma ReadingKeeps(s: System, t: System, k: nat)
    requires Inv(s) && !s.booting && k in s.calls && Narrows(s, t) && k in t.calls
    requires t.calls == s.calls[k := t.calls[k]] && Knows(t, t.calls[k])
    requires LocksOk(t)
    ensures Inv(t)
  {
    NarrowingKeepsDisk(s, t);
    forall j | j in t.calls ensures Knows(t, t.calls[j]) {
      if j != k { NarrowingKeepsKnowledge(s, t, s.calls[j]); }
    }
  }

  lemma CollectKeeps(s: System, t: System, k: nat)
    requires Inv(s) && CollectStep(s, t, k)
    ensures Inv(t)
  {
    var c := s.calls[k];
    var d := t.calls[k];
    NarrowingKeepsKnowledge(s, t, c);
    forall i | 0 <= i < |d.stage.records| ensures CollectedOk(t, d, i) {
      if i < |c.stage.records| { assert CollectedOk(t, c, i); }
    }
    ReadingKeeps(s, t, k);
  }

  lemma SeeClosableKeeps(s: System, t: System, e: Event)
    requires Inv(s) && e.SeeClosable? && Next(s, t, e)
    ensures Inv(t)
  {
    var k := e.k;
    var c := s.calls[k];
    NarrowingKeepsDisk(s, t);
    NarrowingKeepsKnowledge(s, t, c);
    forall op | op in t.receipts ensures ClosableCell(t.receipts[op], c.job.taskId, c.job.outcome) {
      assert CellOk(t, op);
    }
    ReadingKeeps(s, t, k);
  }

  lemma ReadsKeep(s: System, t: System, e: Event)
    requires Inv(s) && Next(s, t, e) && IsRead(e)
    ensures Inv(t)
  {
    NarrowingKeepsKnowledge(s, t, s.calls[e.k]);
    ReadingKeeps(s, t, e.k);
  }

  lemma SettleKeeps(s: System, t: System)
    requires Inv(s) && Next(s, t, Settle)
    ensures Inv(t)
  {
    NarrowingKeepsDisk(s, t);
    forall j | j in t.calls ensures Knows(t, t.calls[j]) { NarrowingKeepsKnowledge(s, t, s.calls[j]); }
  }

  // --------------------------------------------------------------------------- writing one receipt

  /** The new version belongs to the others: same owner as each, well formed. */
  ghost predicate Joins(s: System, op: Uuid, v: ExecutionRecord) {
    && op in s.receipts && RecordOk(s, op, v)
    && forall a :: a in s.receipts[op].can && a.Some? ==> SameOwner(a.value, v)
  }

  lemma ChangeEvolves(r: ExecutionRecord, change: Change, boot: Uuid)
    requires ExecutionOk(r) && BootOk(r, boot) && ExecutionOk(Changed(r, change, boot))
    ensures Evolves(r, Changed(r, change, boot)) && BootOk(Changed(r, change, boot), boot)
  {
  }

  /** Evolution never turns a closable receipt into one that is not. */
  lemma ClosableEvolves(a: ExecutionRecord, b: ExecutionRecord, outcome: TaskStatus)
    requires Evolves(a, b) && Closable(a, outcome)
    ensures Closable(b, outcome)
  {
  }

  lemma WriteKeepsCell(s: System, t: System, op: Uuid, v: ExecutionRecord)
    requires CellOk(s, op) && Joins(s, op, v) && op in t.receipts && t.boot == s.boot && t.boots == s.boots
    requires Sound(t.receipts[op]) && t.receipts[op].can <= s.receipts[op].can + iset{Some(v)}
    requires t.receipts[op].seen.None? ==> Kept(s.receipts[op], t.receipts[op])
    ensures CellOk(t, op)
  {
    forall r | r in t.receipts[op].can && r.Some? ensures RecordOk(t, op, r.value) {
      if r != Some(v) { assert r in s.receipts[op].can; }
    }
  }

  lemma WriteKeepsDisk(s: System, t: System, op: Uuid, v: ExecutionRecord, ok: bool)
    requires DiskOk(s) && WritesReceipt(s, t, op, v, ok) && Joins(s, op, v)
    requires t == s.(receipts := t.receipts, calls := t.calls, grants := t.grants)
    requires t.grants == s.grants || (ok && op !in s.grants && t.grants == s.grants + [op])
    requires !s.booting ==> !Unsettled(Some(v), s.boot)
    requires forall m :: m in s.statuses.can && v.taskId in m && m[v.taskId] != Active ==> Closable(v, m[v.taskId])
    ensures DiskOk(t)
  {
    forall o ensures CellOk(t, o) {
      assert CellOk(s, o);
      if o == op { WriteKeepsCell(s, t, op, v); }
    }
    forall m, id, o | m in t.statuses.can && id in m && m[id] != Active && o in t.receipts
      ensures ClosableCell(t.receipts[o], id, m[id])
    {
      assert ClosableCell(s.receipts[o], id, m[id]);
    }
  }

  lemma WriteKeepsKnowledge(s: System, t: System, op: Uuid, v: ExecutionRecord, ok: bool, c: Call)
    requires WritesReceipt(s, t, op, v, ok) && t.statuses == s.statuses
    requires Knows(s, c) && op !in c.holds
    requires c.stage.SawClosable? && c.job.Complete? && v.taskId == c.job.taskId ==> Closable(v, c.job.outcome)
    ensures Knows(t, c)
  {
    if c.stage.Collected? {
      forall i | 0 <= i < |c.stage.records| ensures CollectedOk(t, c, i) { assert CollectedOk(s, c, i); }
    }
  }

  lemma WriteFirstKeeps(s: System, t: System, e: Event)
    requires Inv(s) && e.WriteFirst? && Next(s, t, e)
    ensures Inv(t)
  {
    var k := e.k;
    var ok := e.ok;
    var c := s.calls[k];
    var v := FirstOf(s, c.job);
    assert CellOk(s, c.job.op);
    WriteKeepsDisk(s, t, c.job.op, v, ok);
    forall j | j in t.calls ensures Knows(t, t.calls[j]) {
      assert s.calls[j].holds !! s.calls[k].holds;
      WriteKeepsKnowledge(s, t, c.job.op, v, ok, t.calls[j]);
    }
  }

  lemma WriteChangeKeeps(s: System, t: System, e: Event)
    requires Inv(s) && e.WriteChange? && Next(s, t, e)
    ensures Inv(t)
  {
    var k := e.k;
    var ok := e.ok;
    var c := s.calls[k];
    var op := c.job.op;
    var r := c.stage.record;
    var v := Changed(r, c.job.change, s.boot);
    assert CellOk(s, op) && Some(r) in s.receipts[op].can && RecordOk(s, op, r);
    ChangeEvolves(r, c.job.change, s.boot);
    assert !Unsettled(Some(v), s.boot) by { assert !Unsettled(s.receipts[op].seen, s.boot); }
    forall m | m in s.statuses.can && v.taskId in m && m[v.taskId] != Active ensures Closable(v, m[v.taskId]) {
      assert ClosableCell(s.receipts[op], v.taskId, m[v.taskId]);
      ClosableEvolves(r, v, m[v.taskId]);
    }
    WriteKeepsDisk(s, t, op, v, ok);
    forall j | j in t.calls ensures Knows(t, t.calls[j]) {
      assert s.calls[j].holds !! s.calls[k].holds;
      if s.calls[j].stage.SawClosable? && v.taskId == s.calls[j].job.taskId {
        assert ClosableCell(s.receipts[op], v.taskId, s.calls[j].job.outcome);
        ClosableEvolves(r, v, s.calls[j].job.outcome);
      }
      WriteKeepsKnowledge(s, t, op, v, ok, t.calls[j]);
    }
  }

  lemma BootWriteKeeps(s: System, t: System, e: Event)
    requires Inv(s) && e.BootWrite? && Next(s, t, e)
    ensures Inv(t)
  {
    var op := e.op;
    var now := e.now;
    var ok := e.ok;
    var r := s.receipts[op].seen.value;
    var v := AfterBoot(r, s.boot, now);
    assert CellOk(s, op) && Some(r) in s.receipts[op].can && RecordOk(s, op, r);
    forall m | m in s.statuses.can && v.taskId in m ensures m[v.taskId] == Active {
      if m[v.taskId] != Active { assert false; }
    }
    WriteKeepsDisk(s, t, op, v, ok);
  }

  // ---------------------------------------------------------------------------- the other writes

  /** The new snapshot closes at most the task whose receipts were all seen closable. */
  lemma WriteStatusKeeps(s: System, t: System, k: nat, taskId: Uuid, ok: bool)
    requires Inv(s) && WriteStatusStep(s, t, k, taskId, ok)
    ensures Inv(t)
  {
    var c := s.calls[k];
    var next := s.statuses.seen[taskId := if c.job.Create? then Active else c.job.outcome];
    forall op ensures CellOk(t, op) { assert CellOk(s, op); }
    forall m, id, op | m in t.statuses.can && id in m && m[id] != Active && op in t.receipts
      ensures ClosableCell(t.receipts[op], id, m[id])
    {
      if m in s.statuses.can {
        assert ClosableCell(s.receipts[op], id, m[id]);
      } else if id == taskId {
        assert ClosableCell(s.receipts[op], c.job.taskId, c.job.outcome);
      } else {
        assert s.statuses.seen in s.statuses.can && s.statuses.seen[id] == m[id];
      }
    }
    forall j | j in t.calls ensures Knows(t, t.calls[j]) {
      assert s.calls[j].holds !! s.calls[k].holds;
      assert Knows(s, s.calls[j]);
      if t.calls[j].stage.Collected? { assert false; }
    }
  }

  lemma CommitKeeps(s: System, t: System, k: nat, ok: bool)
    requires Inv(s) && CommitStep(s, t, k, ok)
    ensures Inv(t)
  {
    var c := s.calls[k];
    forall op ensures CellOk(t, op) && CommittedCell(s, t, op) { CommitKeepsCell(s, t, k, ok, op); }
    forall m, id, op | m in t.statuses.can && id in m && m[id] != Active && op in t.receipts
      ensures ClosableCell(t.receipts[op], id, m[id])
    {
      assert CommittedCell(s, t, op);
      assert ClosableCell(s.receipts[op], id, m[id]);
      CommitKeepsClosable(s, t, op, id, m[id]);
    }
    forall op | op in t.grants ensures None !in t.receipts[op].can { assert CommittedCell(s, t, op); }
    forall op | op in t.receipts ensures !Unsettled(t.receipts[op].seen, t.boot) {
      assert CommittedCell(s, t, op) && CellOk(t, op) && !Unsettled(s.receipts[op].seen, s.boot);
    }
    forall j | j in t.calls ensures Knows(t, t.calls[j]) {
      assert s.calls[j].holds !! s.calls[k].holds;
      CommitKeepsKnowledge(s, t, k, ok, j);
    }
  }

  /** Each version is an old one, or resolves the unknown receipt that was the only one. */
  ghost predicate CommittedCell(s: System, t: System, op: Uuid) {
    && op in s.receipts && op in t.receipts
    && (t.receipts[op] == s.receipts[op]
        || (s.receipts[op].seen.Some? && Firm(s.receipts[op], s.receipts[op].seen)
           && s.receipts[op].seen.value.state == Unknown
            && forall r :: r in t.receipts[op].can ==>
                r in s.receipts[op].can
                  || (r.Some? && Evolves(s.receipts[op].seen.value, r.value) && r.value.state == Unknown)))
  }

  lemma CommitKeepsCell(s: System, t: System, k: nat, ok: bool, op: Uuid)
    requires Inv(s) && CommitStep(s, t, k, ok)
    ensures CellOk(t, op) && CommittedCell(s, t, op)
  {
    var c := s.calls[k];
    assert CellOk(s, op);
    assert CommitCell(c, op, s.receipts[op], t.receipts[op], ok);
    if t.receipts[op] != s.receipts[op] {
      var i :| 0 <= i < |c.stage.records| && c.job.resolutions[i].operationId == op
        && Committed(s.receipts[op], t.receipts[op], Some(c.stage.records[i]), ok);
      assert Knows(s, c) && CollectedOk(s, c, i);
      ResolveKeepsCell(s, t, op, c.job.resolutions[i], ok);
    }
  }

  lemma ResolveKeepsCell(s: System, t: System, op: Uuid, resolution: Reconciliation, ok: bool)
    requires CellOk(s, op) && op in t.receipts && t.boot == s.boot && t.boots == s.boots && resolution.operationId == op
    requires s.receipts[op].seen.Some? && Firm(s.receipts[op], s.receipts[op].seen)
    requires s.receipts[op].seen.value.state == Unknown
    requires Committed(s.receipts[op], t.receipts[op], Some(Resolve(s.receipts[op].seen.value, resolution)), ok)
    ensures CellOk(t, op) && CommittedCell(s, t, op)
  {
    assert RecordOk(s, op, s.receipts[op].seen.value);
    WriteKeepsCell(s, t, op, Resolve(s.receipts[op].seen.value, resolution));
  }

  lemma CommitKeepsClosable(s: System, t: System, op: Uuid, id: Uuid, outcome: TaskStatus)
    requires CommittedCell(s, t, op) && Sound(s.receipts[op]) && ClosableCell(s.receipts[op], id, outcome)
    ensures ClosableCell(t.receipts[op], id, outcome)
  {
    forall r | r in t.receipts[op].can && r.Some? && r.value.taskId == id ensures Closable(r.value, outcome) {
      if r !in s.receipts[op].can { ClosableEvolves(s.receipts[op].seen.value, r.value, outcome); }
    }
  }

  lemma CollectedIsHeld(s: System, c: Call, i: nat)
    requires c.stage.Collected? && i < |c.stage.records| && Knows(s, c)
    ensures c.job.resolutions[i].operationId in c.holds
  {
    assert CollectedOk(s, c, i);
  }

  lemma CommitKeepsKnowledge(s: System, t: System, k: nat, ok: bool, j: nat)
    requires Inv(s) && CommitStep(s, t, k, ok) && j in s.calls && j != k
    ensures Knows(t, s.calls[j])
  {
    var c := s.calls[k];
    var d := s.calls[j];
    assert d.holds !! c.holds && Knows(s, d);
    forall op | op in d.holds ensures op in s.receipts && op in t.receipts && t.receipts[op] == s.receipts[op] {
      assert CellOk(s, op);
      assert CommitCell(c, op, s.receipts[op], t.receipts[op], ok);
      if i :| 0 <= i < |c.stage.records| && c.job.resolutions[i].operationId == op {
        CollectedIsHeld(s, c, i);
        assert false;
      }
    }
  }

  lemma RestartKeeps(s: System, t: System, e: Event)
    requires Inv(s) && e.Restart? && Next(s, t, e)
    ensures Inv(t)
  {
    forall op ensures CellOk(t, op) && t.receipts[op].can <= s.receipts[op].can { assert CellOk(s, op); }
    forall m, id, op | m in t.statuses.can && id in m && m[id] != Active && op in t.receipts
      ensures ClosableCell(t.receipts[op], id, m[id])
    {
      assert CellOk(t, op) && CellOk(s, op);
      assert ClosableCell(s.receipts[op], id, m[id]);
    }
    forall op | op in t.grants ensures None !in t.receipts[op].can { assert CellOk(t, op) && CellOk(s, op); }
  }

  lemma SameDiskOk(s: System, t: System)
    requires DiskOk(s) && t == s.(booting := t.booting, calls := t.calls)
    requires !t.booting && s.booting ==> forall op :: op in s.receipts ==> !Unsettled(s.receipts[op].seen, s.boot)
    ensures DiskOk(t)
  {
    forall op ensures CellOk(t, op) { assert CellOk(s, op); }
    forall m, id, op | m in t.statuses.can && id in m && m[id] != Active && op in t.receipts
      ensures ClosableCell(t.receipts[op], id, m[id])
    {
      assert ClosableCell(s.receipts[op], id, m[id]);
    }
  }

  lemma LockingKeeps(s: System, t: System, e: Event)
    requires Inv(s) && (e.LockWorkspace? || e.LockReceipt?) && Next(s, t, e)
    ensures Inv(t)
  {
    SameDiskOk(s, t);
    forall j | j in t.calls ensures Knows(t, t.calls[j]) { SameDiskSameKnowledge(s, t, s.calls[j], t.calls[j]); }
  }

  lemma ComingAndGoingKeep(s: System, t: System, e: Event)
    requires Inv(s) && (e.Arrive? || e.Leave? || e.BootDone?) && Next(s, t, e)
    ensures Inv(t)
  {
    SameDiskOk(s, t);
    forall j | j in t.calls ensures Knows(t, t.calls[j]) {
      if j in s.calls { SameDiskSameKnowledge(s, t, s.calls[j], t.calls[j]); }
    }
  }

  lemma SameDiskSameKnowledge(s: System, t: System, c: Call, d: Call)
    requires t.statuses == s.statuses && t.receipts == s.receipts && Knows(s, c)
    requires d.stage == c.stage && d.job == c.job && (c.workspace ==> d.workspace) && c.holds <= d.holds
    ensures Knows(t, d)
  {
    if c.stage.Collected? {
      forall i | 0 <= i < |d.stage.records| ensures CollectedOk(t, d, i) { assert CollectedOk(s, c, i); }
    }
  }

  predicate IsRead(e: Event) { e.SeeActive? || e.SeeNoReceipt? || e.SeeReceipt? }
  predicate IsWrite(e: Event) { e.WriteFirst? || e.WriteChange? || e.WriteStatus? || e.Commit? || e.BootWrite? }

  lemma TheCollectStep(s: System, t: System, e: Event)
    requires Inv(s) && e.Collect? && Next(s, t, e)
    ensures Inv(t)
  {
    CollectKeeps(s, t, e.k);
  }

  lemma TheSteps(s: System, t: System, e: Event)
    requires Next(s, t, e)
    ensures e.WriteStatus? ==> WriteStatusStep(s, t, e.k, e.taskId, e.ok)
    ensures e.Commit? ==> CommitStep(s, t, e.k, e.ok)
  {
  }

  lemma WriteStepKeeps(s: System, t: System, e: Event)
    requires Inv(s) && IsWrite(e) && Next(s, t, e)
    ensures Inv(t)
  {
    hide Inv, Next, WriteStatusStep, CommitStep;
    TheSteps(s, t, e);
    match e
    case WriteFirst(_, _) => WriteFirstKeeps(s, t, e);
    case WriteChange(_, _) => WriteChangeKeeps(s, t, e);
    case WriteStatus(k, taskId, ok) => WriteStatusKeeps(s, t, k, taskId, ok);
    case Commit(k, ok) => CommitKeeps(s, t, k, ok);
    case BootWrite(_, _, _) => BootWriteKeeps(s, t, e);
  }

  /** Every step of every interleaving keeps the invariant. */
  lemma StepKeepsInv(s: System, t: System, e: Event)
    requires Inv(s) && Next(s, t, e)
    ensures Inv(t)
  {
    hide Inv, Next;
    if e.Collect? {
      TheCollectStep(s, t, e);
    } else if e.SeeClosable? {
      SeeClosableKeeps(s, t, e);
    } else if IsRead(e) {
      ReadsKeep(s, t, e);
    } else if IsWrite(e) {
      WriteStepKeeps(s, t, e);
    } else if e.LockWorkspace? || e.LockReceipt? {
      LockingKeeps(s, t, e);
    } else if e.Restart? {
      RestartKeeps(s, t, e);
    } else if e.Settle? {
      SettleKeeps(s, t);
    } else {
      ComingAndGoingKeep(s, t, e);
    }
  }

  // ------------------------------------------------------------------------------------- whole runs

  ghost predicate Initial(s: System) {
    && s.booting && s.boot in s.boots && s.calls == map[] && s.grants == []
    && Firm(s.statuses, map[]) && forall op: Uuid :: op in s.receipts && Firm(s.receipts[op], None)
  }

  ghost predicate Run(states: seq<System>, events: seq<Event>) {
    && |states| == |events| + 1 && Initial(states[0])
    && forall i :: 0 <= i < |events| ==> Next(states[i], states[i + 1], events[i])
  }

  lemma InitialInv(s: System)
    requires Initial(s)
    ensures Inv(s)
  {
    forall op ensures CellOk(s, op) {}
    forall op | op in s.receipts ensures Firm(s.receipts[op], None) {}
  }

  lemma {:induction false} Reachable(states: seq<System>, events: seq<Event>, i: nat)
    requires Run(states, events) && i < |states|
    ensures Inv(states[i])
  {
    if i == 0 {
      InitialInv(states[0]);
    } else {
      Reachable(states, events, i - 1);
      StepKeepsInv(states[i - 1], states[i], events[i - 1]);
    }
  }

  /** r is one of the versions there were, or a first receipt where there may have been none, or grown from one there
      was. */
  ghost predicate Descends(c: Cell<MaybeReceipt>, r: MaybeReceipt) {
    r in c.can || (r.Some? && exists a :: a in c.can && (a.None? || Evolves(a.value, r.value)))
  }

  lemma Begets(c: Cell<MaybeReceipt>, d: Cell<MaybeReceipt>, a: MaybeReceipt, v: ExecutionRecord, r: MaybeReceipt)
    requires a in c.can && (a.None? || Evolves(a.value, v)) && d.can <= c.can + iset{Some(v)} && r in d.can
    ensures Descends(c, r)
  {
  }

  lemma WriteDescends(s: System, t: System, e: Event, op: Uuid, r: MaybeReceipt)
    requires Inv(s) && IsWrite(e) && Next(s, t, e) && op in s.receipts && op in t.receipts && r in t.receipts[op].can
    ensures Descends(s.receipts[op], r)
  {
    hide Inv, Next, CommitStep, Descends, CommittedCell;
    TheSteps(s, t, e);
    match e
    case WriteFirst(_, _) => FirstDescends(s, t, e, op, r);
    case WriteChange(_, _) => ChangeDescends(s, t, e, op, r);
    case Commit(k, ok) =>
      CommitKeepsCell(s, t, k, ok, op);
      CommittedDescends(s, t, op, r);
    case BootWrite(_, _, _) => BootDescends(s, t, e, op, r);
    case WriteStatus(_, _, _) => StatusDescends(s, t, e, op, r);
  }

  lemma CommittedDescends(s: System, t: System, op: Uuid, r: MaybeReceipt)
    requires CommittedCell(s, t, op) && op in s.receipts && op in t.receipts && r in t.receipts[op].can
    ensures Descends(s.receipts[op], r)
  {
  }

  lemma StatusDescends(s: System, t: System, e: Event, op: Uuid, r: MaybeReceipt)
    requires e.WriteStatus? && Next(s, t, e) && op in s.receipts && op in t.receipts && r in t.receipts[op].can
    ensures Descends(s.receipts[op], r)
  {
  }

  lemma FirstDescends(s: System, t: System, e: Event, op: Uuid, r: MaybeReceipt)
    requires Inv(s) && e.WriteFirst? && Next(s, t, e) && op in s.receipts && op in t.receipts && r in t.receipts[op].can
    ensures Descends(s.receipts[op], r)
  {
    assert CellOk(s, op);
    if op == s.calls[e.k].job.op { Begets(s.receipts[op], t.receipts[op], None, FirstOf(s, s.calls[e.k].job), r); }
  }

  lemma ChangeDescends(s: System, t: System, e: Event, op: Uuid, r: MaybeReceipt)
    requires Inv(s) && e.WriteChange? && Next(s, t, e) && op in s.receipts && op in t.receipts
    requires r in t.receipts[op].can
    ensures Descends(s.receipts[op], r)
  {
    assert CellOk(s, op);
    if op == s.calls[e.k].job.op {
      var a := s.calls[e.k].stage.record;
      assert Knows(s, s.calls[e.k]) && RecordOk(s, op, a);
      ChangeEvolves(a, s.calls[e.k].job.change, s.boot);
      Begets(s.receipts[op], t.receipts[op], Some(a), Changed(a, s.calls[e.k].job.change, s.boot), r);
    }
  }

  lemma BootDescends(s: System, t: System, e: Event, op: Uuid, r: MaybeReceipt)
    requires Inv(s) && e.BootWrite? && Next(s, t, e) && op in s.receipts && op in t.receipts && r in t.receipts[op].can
    ensures Descends(s.receipts[op], r)
  {
    assert CellOk(s, op);
    if op == e.op {
      var a := s.receipts[op].seen.value;
      Begets(s.receipts[op], t.receipts[op], Some(a), AfterBoot(a, s.boot, e.now), r);
    }
  }

  lemma StepDescends(s: System, t: System, e: Event, op: Uuid, r: MaybeReceipt)
    requires Inv(s) && Next(s, t, e) && op in s.receipts && op in t.receipts && r in t.receipts[op].can
    ensures Descends(s.receipts[op], r)
  {
    if IsWrite(e) {
      WriteDescends(s, t, e, op, r);
    } else if IsRead(e) || e.Collect? || e.SeeClosable? || e.Settle? {
      assert Kept(s.receipts[op], t.receipts[op]);
    } else if e.Restart? && e.powerFailed {
      assert PowerLost(s.receipts[op], t.receipts[op]);
    }
  }

  lemma Everywhere(states: seq<System>, events: seq<Event>, i: nat, op: Uuid)
    requires Run(states, events) && i < |states|
    ensures op in states[i].receipts
  {
    Reachable(states, events, i);
    assert CellOk(states[i], op);
  }

  lemma LastStepDescends(states: seq<System>, events: seq<Event>, i: nat, op: Uuid, r: MaybeReceipt)
    requires Run(states, events) && 0 < i < |states| && op in states[i - 1].receipts && op in states[i].receipts
    requires r in states[i].receipts[op].can
    ensures Descends(states[i - 1].receipts[op], r)
  {
    Reachable(states, events, i - 1);
    StepDescends(states[i - 1], states[i], events[i - 1], op, r);
  }

  /** Every version any later disk may come out with descends from one of the versions of now. */
  lemma {:induction false} RunDescends(states: seq<System>, events: seq<Event>, i: nat, j: nat, op: Uuid,
                                       r: MaybeReceipt)
    requires Run(states, events) && i <= j < |states|
    requires op in states[i].receipts && op in states[j].receipts && r in states[j].receipts[op].can
    ensures Descends(states[i].receipts[op], r)
    decreases j
  {
    if i < j {
      Everywhere(states, events, j - 1, op);
      LastStepDescends(states, events, j, op, r);
      if r in states[j - 1].receipts[op].can {
        RunDescends(states, events, i, j - 1, op, r);
      } else {
        var a :| a in states[j - 1].receipts[op].can && (a.None? || Evolves(a.value, r.value));
        RunDescends(states, events, i, j - 1, op, a);
        DescentIsTransitive(states[i].receipts[op], a, r);
      }
    }
  }

  lemma DescentIsTransitive(c: Cell<MaybeReceipt>, a: MaybeReceipt, r: MaybeReceipt)
    requires Descends(c, a) && r.Some? && (a.None? || Evolves(a.value, r.value))
    ensures Descends(c, r)
  {
    if a !in c.can {
      var b :| b in c.can && (b.None? || Evolves(b.value, a.value));
      if b.Some? { EvolutionIsTransitive(b.value, a.value, r.value); }
    }
  }

  // ----------------------------------------------------------------------------------- what it means

  /** Over every run, each operation is granted to at most one caller, and its receipt is then there for good. */
  lemma GrantedAtMostOnce(states: seq<System>, events: seq<Event>, i: nat)
    requires Run(states, events) && i < |states|
    ensures forall a, b :: 0 <= a < b < |states[i].grants| ==> states[i].grants[a] != states[i].grants[b]
    ensures forall op :: op in states[i].grants ==> op in states[i].receipts && None !in states[i].receipts[op].can
  {
    Reachable(states, events, i);
  }

  /** When the grant is answered, the first receipt is all the disk can come out with. */
  lemma GrantIsDurable(s: System, t: System, k: nat)
    requires Inv(s) && Next(s, t, WriteFirst(k, true))
    ensures t.grants == s.grants + [s.calls[k].job.op] && s.calls[k].job.op !in s.grants
    ensures Firm(t.receipts[s.calls[k].job.op], Some(FirstOf(s, s.calls[k].job)))
  {
    assert Knows(s, s.calls[k]);
  }

  /** A final state, once certain, is never left; nor is the owner or a resolution. */
  lemma FinalForEver(states: seq<System>, events: seq<Event>, i: nat, j: nat, op: Uuid, a: ExecutionRecord)
    requires Run(states, events) && i <= j < |states|
    requires op in states[i].receipts && Firm(states[i].receipts[op], Some(a)) && Final(a.state)
    ensures op in states[j].receipts && forall r :: r in states[j].receipts[op].can ==>
      && r.Some? && SameOwner(a, r.value) && r.value.state == a.state && ExecutionOk(r.value)
      && (a.callerResolution.Some? ==> r.value.callerResolution == a.callerResolution)
  {
    Reachable(states, events, i);
    Reachable(states, events, j);
    assert CellOk(states[j], op) && CellOk(states[i], op) && RecordOk(states[i], op, a);
    forall r | r in states[j].receipts[op].can
      ensures r.Some? && (r.value == a || Evolves(a, r.value))
    {
      RunDescends(states, events, i, j, op, r);
    }
  }

  /** Whatever the disk comes out with: a closed task has nothing running, a completed one nothing unresolved. */
  lemma ClosedTasksAreSettled(states: seq<System>, events: seq<Event>, i: nat, statuses: Statuses, taskId: Uuid,
                              op: Uuid, r: ExecutionRecord)
    requires Run(states, events) && i < |states|
    requires statuses in states[i].statuses.can && taskId in statuses && statuses[taskId] != Active
    requires op in states[i].receipts && Some(r) in states[i].receipts[op].can && r.taskId == taskId
    ensures r.state != Prepared && r.state != Running
    ensures statuses[taskId] == Completed && r.state == Unknown ==>
      r.callerResolution.Some? && r.callerResolution.value.resolution != ExternalEffectUnknown
  {
    Reachable(states, events, i);
    assert ClosableCell(states[i].receipts[op], taskId, statuses[taskId]);
  }

  /** Once a boot has finished, no receipt of an earlier boot is prepared or running. */
  lemma EarlierBootsAreSettled(states: seq<System>, events: seq<Event>, i: nat, op: Uuid)
    requires Run(states, events) && i < |states| && !states[i].booting && op in states[i].receipts
    ensures states[i].receipts[op].seen.Some? && states[i].receipts[op].seen.value.bootId != states[i].boot ==>
      states[i].receipts[op].seen.value.state != Prepared && states[i].receipts[op].seen.value.state != Running
  {
    Reachable(states, events, i);
  }
}
