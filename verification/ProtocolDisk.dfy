/**
  * What `ReceiptProtocol` says of cells is true of files: each storage operation of the recorder and of the
  * task service, as the disk sees it, is a step of the protocol.
  *
  * A step on the disk may also settle files it does not touch, since a sync covers a whole directory; that is
  * the protocol's own step Settle.
  */
module ProtocolDisk {
  import opened Wrappers
  import opened TaskTypes
  import opened StorageSchema
  import opened Durability
  import J = StorageJournal
  import opened StoreOutcomes
  import opened ExecutionRecorder
  import opened TaskService
  import opened ReceiptProtocol

  // ------------------------------------------------------------------------------------ files as cells

  /** What a reader makes of a receipt file. */
  function ReceiptIn(c: Option<File>): MaybeReceipt {
    if c.Some? && ParseExecution(c.value).Ok? then Some(ParseExecution(c.value).value) else None
  }

  function StatusesOf(state: WorkspaceState): Statuses { map id | id in state.tasks :: state.tasks[id].status }

  /** And what it makes of the snapshot, of which only this matters to the protocol. */
  function StatusesIn(c: Option<File>): Statuses {
    if c.Some? && ParseWorkspace(c.value).Ok? then StatusesOf(ParseWorkspace(c.value).value) else map[]
  }

  ghost predicate ComesOut<T(!new)>(s: DiskState, t: Target, read: Option<File> -> T, x: T) {
    exists c :: May(s, Path.Live(t), c) && read(c) == x
  }

  ghost function CellOf<T(!new)>(s: DiskState, t: Target, read: Option<File> -> T): Cell<T> {
    Cell(read(Seen(s, Path.Live(t))), iset x | ComesOut(s, t, read, x))
  }

  ghost predicate Depicts(s: DiskState, y: System) {
    && y.statuses == CellOf(s, StateJson, StatusesIn)
    && forall op: Uuid :: op in y.receipts && y.receipts[op] == CellOf(s, Receipt(op), ReceiptIn)
  }

  /** The same calls over this disk. */
  ghost function On(s: DiskState, y: System): (z: System)
    ensures Depicts(s, z)
  {
    y.(statuses := CellOf(s, StateJson, StatusesIn),
       receipts := imap op: Uuid | true :: CellOf(s, Receipt(op), ReceiptIn))
  }

  lemma SyncKeepsCell<T(!new)>(s: DiskState, after: DiskState, t: Target, read: Option<File> -> T)
    requires Calmer(s, after)
    ensures Kept(CellOf(s, t, read), CellOf(after, t, read))
  {
    assert May(after, Path.Live(t), Seen(after, Path.Live(t)));
  }

  lemma DurableIsFirm<T(!new)>(s: DiskState, t: Target, read: Option<File> -> T)
    requires Durable(s, Path.Live(t))
    ensures Firm(CellOf(s, t, read), read(Seen(s, Path.Live(t))))
  {
    assert May(s, Path.Live(t), Seen(s, Path.Live(t)));
  }

  lemma WriteWrites<T(!new)>(s: DiskState, after: DiskState, t: Target, v: Option<File>, read: Option<File> -> T,
                             ok: bool)
    requires Attempted(s, after, Path.Live(t), v) && (ok ==> Settled(after, Path.Live(t), v))
    ensures Wrote(CellOf(s, t, read), CellOf(after, t, read), read(v), ok)
  {
    if Calmer(s, after) { SyncKeepsCell(s, after, t, read); }
    assert May(after, Path.Live(t), Seen(after, Path.Live(t)));
  }

  lemma OthersAreKept<T(!new)>(s: DiskState, after: DiskState, t: Target, v: Option<File>, u: Target,
                               read: Option<File> -> T)
    requires Attempted(s, after, Path.Live(t), v) && u != t
    ensures Kept(CellOf(s, u, read), CellOf(after, u, read))
  {
    assert May(after, Path.Live(u), Seen(after, Path.Live(u)));
  }

  lemma PowerLossLoses<T(!new)>(s: DiskState, after: DiskState, t: Target, read: Option<File> -> T)
    requires PowerLoss(s, after)
    ensures PowerLost(CellOf(s, t, read), CellOf(after, t, read))
  {
    DurableIsFirm(after, t, read);
    assert May(s, Path.Live(t), Seen(after, Path.Live(t)));
  }

  // ---------------------------------------------------------------------------------------- reading

  lemma SyncIsSettling(s: DiskState, after: DiskState, y: System)
    requires Depicts(s, y) && Calmer(s, after)
    ensures ReceiptProtocol.Narrows(y, On(after, y)) && Next(y, On(after, y), Settle)
    ensures On(after, y).calls == y.calls
    ensures On(after, y) == y.(statuses := CellOf(after, StateJson, StatusesIn), receipts := On(after, y).receipts)
    ensures forall op ::
      op in On(after, y).receipts && On(after, y).receipts[op] == CellOf(after, Receipt(op), ReceiptIn)
  {
    hide CellOf, Kept;
    var z := On(after, y);
    SyncKeepsCell(s, after, StateJson, StatusesIn);
    forall op | op in y.receipts ensures Kept(y.receipts[op], z.receipts[op]) {
      SyncKeepsCell(s, after, Receipt(op), ReceiptIn);
    }
  }

  /** A call that goes on does not change what the files are. */
  lemma CallGoesOn(y: System, z: System, k: nat, c: Call)
    requires ReceiptProtocol.Narrows(y, z) && z.calls == y.calls
    ensures ReceiptProtocol.Reads(y, With(z, k, c), k, c)
  {
  }

  /** The snapshot was read and confirmed, and lets the job go on. */
  lemma SeesActive(s: DiskState, after: DiskState, y: System, k: nat)
    requires Depicts(s, y) && Calmer(s, after) && Durable(after, Path.Live(StateJson))
    requires k in y.calls && y.calls[k].stage == Begin && y.calls[k].workspace && !y.calls[k].job.Mark?
    requires var seen := StatusesIn(Seen(after, Path.Live(StateJson))); match y.calls[k].job
             case Create => forall id :: id in seen ==> seen[id] != Active
             case Mark(_, _) => true
             case job => job.taskId in seen && seen[job.taskId] == Active
    ensures var stage := if y.calls[k].job.Update? then Collected([]) else SawActive;
      Next(y, With(On(after, y), k, y.calls[k].(stage := stage)), SeeActive(k))
  {
    hide CellOf, On, Depicts, ReceiptProtocol.Narrows, ReceiptIn, StatusesIn;
    SyncIsSettling(s, after, y);
    CallGoesOn(y, On(after, y), k, y.calls[k].(stage := if y.calls[k].job.Update? then Collected([]) else SawActive));
    DurableIsFirm(after, StateJson, StatusesIn);
  }

  /** The receipt was looked for and is certainly missing. */
  lemma SeesNoReceipt(s: DiskState, after: DiskState, y: System, k: nat)
    requires Depicts(s, y) && Calmer(s, after)
    requires k in y.calls && y.calls[k].stage == SawActive && y.calls[k].job.Prepare?
    requires y.calls[k].job.op in y.calls[k].holds
    requires Settled(after, Path.Live(Receipt(y.calls[k].job.op)), None)
    ensures Next(y, With(On(after, y), k, y.calls[k].(stage := SawNoReceipt)), SeeNoReceipt(k))
  {
    hide CellOf, On, Depicts, ReceiptProtocol.Narrows, StatusesIn;
    SyncIsSettling(s, after, y);
    CallGoesOn(y, On(after, y), k, y.calls[k].(stage := SawNoReceipt));
    DurableIsFirm(after, Receipt(y.calls[k].job.op), ReceiptIn);
  }

  /** The receipt was read and confirmed. */
  lemma SeesReceipt(s: DiskState, after: DiskState, y: System, k: nat, r: ExecutionRecord)
    requires Depicts(s, y) && Calmer(s, after)
    requires k in y.calls && y.calls[k].stage == Begin && y.calls[k].job.Mark?
    requires y.calls[k].job.op in y.calls[k].holds
    requires Durable(after, Path.Live(Receipt(y.calls[k].job.op)))
    requires ReceiptIn(Seen(after, Path.Live(Receipt(y.calls[k].job.op)))) == Some(r)
    ensures Next(y, With(On(after, y), k, y.calls[k].(stage := SawReceipt(r))), SeeReceipt(k))
  {
    hide CellOf, On, Depicts, ReceiptProtocol.Narrows, ReceiptIn, StatusesIn;
    SyncIsSettling(s, after, y);
    CallGoesOn(y, On(after, y), k, y.calls[k].(stage := SawReceipt(r)));
    DurableIsFirm(after, Receipt(y.calls[k].job.op), ReceiptIn);
  }

  /** One more resolution of an update: its receipt is durable, unknown and of the task. */
  lemma Collects(s: DiskState, after: DiskState, y: System, k: nat, r: ExecutionRecord)
    requires Depicts(s, y) && Calmer(s, after) && k in y.calls && y.calls[k].job.Update?
    requires y.calls[k].stage.Collected? && |y.calls[k].stage.records| < |y.calls[k].job.resolutions|
    requires var op := y.calls[k].job.resolutions[|y.calls[k].stage.records|].operationId;
      && (forall j :: j in y.calls ==> op !in y.calls[j].holds)
      && Durable(after, Path.Live(Receipt(op))) && ReceiptIn(Seen(after, Path.Live(Receipt(op)))) == Some(r)
      && r.state == Unknown && r.taskId == y.calls[k].job.taskId
    ensures var c := y.calls[k]; var resolution := c.job.resolutions[|c.stage.records|];
      var d := c.(holds := c.holds + {resolution.operationId},
                  stage := Collected(c.stage.records + [Resolve(r, resolution)]));
      Next(y, With(On(after, y), k, d), ReceiptProtocol.Collect(k))
  {
    hide CellOf, On, Depicts, ReceiptProtocol.Narrows, ReceiptIn, StatusesIn;
    var c := y.calls[k];
    var resolution := c.job.resolutions[|c.stage.records|];
    var d := c.(holds := c.holds + {resolution.operationId},
                stage := Collected(c.stage.records + [Resolve(r, resolution)]));
    SyncIsSettling(s, after, y);
    CallGoesOn(y, On(after, y), k, d);
    DurableIsFirm(after, Receipt(resolution.operationId), ReceiptIn);
    assert CollectStep(y, With(On(after, y), k, d), k);
  }

  /** Every receipt of the task that is there was confirmed and found closable. */
  lemma SeesClosable(s: DiskState, after: DiskState, y: System, k: nat)
    requires Depicts(s, y) && Calmer(s, after)
    requires k in y.calls && y.calls[k].stage == SawActive && y.calls[k].job.Complete?
    requires forall op, r: ExecutionRecord ::
      ReceiptIn(Seen(after, Path.Live(Receipt(op)))) == Some(r) && r.taskId == y.calls[k].job.taskId ==>
        Durable(after, Path.Live(Receipt(op))) && Closable(r, y.calls[k].job.outcome)
    ensures Next(y, With(On(after, y), k, y.calls[k].(stage := SawClosable)), SeeClosable(k))
  {
    hide CellOf, On, Depicts, ReceiptProtocol.Narrows, ReceiptIn, StatusesIn;
    SyncIsSettling(s, after, y);
    var z := On(after, y);
    CallGoesOn(y, z, k, y.calls[k].(stage := SawClosable));
    forall op | op in z.receipts && SeenOf(z.receipts[op], y.calls[k].job.taskId)
      ensures Firm(z.receipts[op], z.receipts[op].seen)
      ensures Closable(z.receipts[op].seen.value, y.calls[k].job.outcome)
    {
      SeenIn(after, op);
      DurableIsFirm(after, Receipt(op), ReceiptIn);
    }
  }

  lemma SeenIn(s: DiskState, op: Uuid)
    ensures CellOf(s, Receipt(op), ReceiptIn).seen == ReceiptIn(Seen(s, Path.Live(Receipt(op))))
  {
  }

  // ---------------------------------------------------------------------------------------- writing

  /** The event, and then whatever settled along with it. */
  ghost predicate Steps(y: System, e: Event, z: System) {
    exists mid :: Next(y, mid, e) && Next(mid, z, Settle)
  }

  lemma OneReceiptWritten(s: DiskState, after: DiskState, y: System, op: Uuid, v: ExecutionRecord, ok: bool,
                          mid: System)
    requires Depicts(s, y) && Attempted(s, after, Path.Live(Receipt(op)), Some(ReceiptFile(v))) && ExecutionOk(v)
    requires ok ==> Settled(after, Path.Live(Receipt(op)), Some(ReceiptFile(v)))
    requires mid == y.(receipts := y.receipts[op := CellOf(after, Receipt(op), ReceiptIn)])
    ensures WritesReceipt(y, mid, op, v, ok) && ReceiptProtocol.Narrows(mid, On(after, y))
  {
    hide CellOf, Kept, Wrote, Attempted;
    var z := On(after, y);
    WriteWrites(s, after, Receipt(op), Some(ReceiptFile(v)), ReceiptIn, ok);
    OthersAreKept(s, after, Receipt(op), Some(ReceiptFile(v)), StateJson, StatusesIn);
    forall o | o in mid.receipts ensures Kept(mid.receipts[o], z.receipts[o]) {
      if o == op {
        KeptItself(after, Receipt(op), ReceiptIn);
      } else {
        OthersAreKept(s, after, Receipt(op), Some(ReceiptFile(v)), Receipt(o), ReceiptIn);
      }
    }
  }

  lemma KeptItself<T(!new)>(s: DiskState, t: Target, read: Option<File> -> T)
    ensures Kept(CellOf(s, t, read), CellOf(s, t, read))
  {
    assert May(s, Path.Live(t), Seen(s, Path.Live(t)));
  }

  /** `prepare` writes the first receipt; a success is the grant. */
  lemma WritesFirst(s: DiskState, after: DiskState, y: System, k: nat, ok: bool)
    requires Depicts(s, y) && k in y.calls && y.calls[k].stage == SawNoReceipt && y.calls[k].job.Prepare?
    requires var v := FirstOf(y, y.calls[k].job);
      && ExecutionOk(v) && Attempted(s, after, Path.Live(Receipt(v.operationId)), Some(ReceiptFile(v)))
      && (ok ==> Settled(after, Path.Live(Receipt(v.operationId)), Some(ReceiptFile(v))))
    ensures var grants := if ok then y.grants + [y.calls[k].job.op] else y.grants;
      Steps(y, WriteFirst(k, ok), On(after, Without(y, k).(grants := grants)))
  {
    hide CellOf, Wrote, Attempted, Depicts, On, ReceiptProtocol.Narrows;
    var v := FirstOf(y, y.calls[k].job);
    var mid := y.(receipts := y.receipts[v.operationId := CellOf(after, Receipt(v.operationId), ReceiptIn)]);
    OneReceiptWritten(s, after, y, v.operationId, v, ok, mid);
    var left := Without(y, k).(grants := if ok then y.grants + [y.calls[k].job.op] else y.grants);
    SameFiles(after, y, mid, left);
    assert Next(y, left.(receipts := mid.receipts), WriteFirst(k, ok));
  }

  /** Which calls there are does not change what the files are. */
  lemma SameFiles(s: DiskState, y: System, mid: System, left: System)
    requires ReceiptProtocol.Narrows(mid, On(s, y)) && left == y.(calls := left.calls, grants := left.grants)
    requires mid == y.(statuses := mid.statuses, receipts := mid.receipts)
    ensures Next(left.(statuses := mid.statuses, receipts := mid.receipts), On(s, left), Settle)
  {
    hide CellOf, Kept;
  }

  /** `markRunning`, `markSpawnFailed`, `markTerminal`, `markPersistenceDegraded` write the changed receipt. */
  lemma WritesChange(s: DiskState, after: DiskState, y: System, k: nat, v: ExecutionRecord, ok: bool)
    requires Depicts(s, y) && k in y.calls && y.calls[k].stage.SawReceipt? && y.calls[k].job.Mark?
    requires v == Changed(y.calls[k].stage.record, y.calls[k].job.change, y.boot) && ExecutionOk(v)
    requires Attempted(s, after, Path.Live(Receipt(y.calls[k].job.op)), Some(ReceiptFile(v)))
    requires ok ==> Settled(after, Path.Live(Receipt(y.calls[k].job.op)), Some(ReceiptFile(v)))
    ensures Steps(y, WriteChange(k, ok), On(after, Without(y, k)))
  {
    hide CellOf, Wrote, Attempted, Depicts, On, ReceiptProtocol.Narrows, Changed;
    var op := y.calls[k].job.op;
    var mid := y.(receipts := y.receipts[op := CellOf(after, Receipt(op), ReceiptIn)]);
    OneReceiptWritten(s, after, y, op, v, ok, mid);
    SameFiles(after, y, mid, Without(y, k));
    assert Next(y, Without(y, k).(receipts := mid.receipts), WriteChange(k, ok));
  }

  /** Boot settles one receipt of an earlier process. */
  lemma WritesAtBoot(s: DiskState, after: DiskState, y: System, op: Uuid, r: ExecutionRecord, now: Time, ok: bool)
    requires Depicts(s, y) && y.booting && ReceiptIn(Seen(s, Path.Live(Receipt(op)))) == Some(r)
    requires Unsettled(Some(r), y.boot)
    requires var v := AfterBoot(r, y.boot, now);
      && ExecutionOk(v) && Attempted(s, after, Path.Live(Receipt(op)), Some(ReceiptFile(v)))
      && (ok ==> Settled(after, Path.Live(Receipt(op)), Some(ReceiptFile(v))))
    ensures Steps(y, BootWrite(op, now, ok), On(after, y))
  {
    hide CellOf, Wrote, Attempted, On, ReceiptProtocol.Narrows, AfterBoot, ReceiptIn;
    SeenIn(s, op);
    var mid := y.(receipts := y.receipts[op := CellOf(after, Receipt(op), ReceiptIn)]);
    OneReceiptWritten(s, after, y, op, AfterBoot(r, y.boot, now), ok, mid);
    SameFiles(after, y, mid, y);
    assert mid == y.(receipts := mid.receipts);
    assert Next(y, mid, BootWrite(op, now, ok));
  }

  lemma SnapshotIsWritten(s: DiskState, after: DiskState, y: System, next: WorkspaceState, ok: bool, mid: System)
    requires Depicts(s, y) && Attempted(s, after, Path.Live(StateJson), Some(StateFile(next))) && WorkspaceOk(next)
    requires ok ==> Settled(after, Path.Live(StateJson), Some(StateFile(next)))
    requires mid == y.(statuses := CellOf(after, StateJson, StatusesIn))
    ensures Wrote(y.statuses, mid.statuses, StatusesOf(next), ok) && ReceiptProtocol.Narrows(mid, On(after, y))
  {
    hide CellOf, Kept, Wrote, Attempted, WorkspaceOk;
    var z := On(after, y);
    WriteWrites(s, after, StateJson, Some(StateFile(next)), StatusesIn, ok);
    KeptItself(after, StateJson, StatusesIn);
    forall o | o in mid.receipts ensures Kept(mid.receipts[o], z.receipts[o]) {
      OthersAreKept(s, after, StateJson, Some(StateFile(next)), Receipt(o), ReceiptIn);
    }
  }

  lemma WritesStatus(s: DiskState, after: DiskState, y: System, k: nat, next: WorkspaceState, id: Uuid, ok: bool,
                     mid: System)
    requires Depicts(s, y) && k in y.calls && WorkspaceOk(next)
    requires Attempted(s, after, Path.Live(StateJson), Some(StateFile(next)))
    requires ok ==> Settled(after, Path.Live(StateJson), Some(StateFile(next)))
    requires mid == Without(y, k).(statuses := CellOf(after, StateJson, StatusesIn))
    requires Wrote(y.statuses, mid.statuses, StatusesOf(next), ok) ==> WriteStatusStep(y, mid, k, id, ok)
    ensures Steps(y, WriteStatus(k, id, ok), On(after, Without(y, k)))
  {
    hide CellOf, Wrote, Attempted, Depicts, On, ReceiptProtocol.Narrows, WorkspaceOk, WriteStatusStep;
    var written := y.(statuses := mid.statuses);
    SnapshotIsWritten(s, after, y, next, ok, written);
    SameFiles(after, y, written, Without(y, k));
    assert mid == Without(y, k).(statuses := written.statuses, receipts := written.receipts);
    assert Next(y, mid, WriteStatus(k, id, ok));
  }

  lemma StatusesAfterwards(state: WorkspaceState, id: Uuid, q: CreateRequest, m: Moment)
    ensures StatusesOf(Created(state, id, q, m)) == StatusesOf(state)[id := Active]
  {
  }

  lemma StatusesOnceClosed(state: WorkspaceState, executions: Receipts, q: CompleteRequest, m: Moment)
    requires q.taskId in state.tasks && state.tasks[q.taskId].taskId == q.taskId
    ensures StatusesOf(Closed(state, executions, q, m)) == StatusesOf(state)[q.taskId := q.outcome]
  {
  }

  lemma SnapshotSeen(s: DiskState)
    ensures CellOf(s, StateJson, StatusesIn).seen == StatusesIn(Seen(s, Path.Live(StateJson)))
  {
  }

  /** `create` writes the snapshot with one more active task, under an id that was never used. */
  lemma WritesCreated(s: DiskState, after: DiskState, y: System, k: nat, state: WorkspaceState, id: Uuid,
                      q: CreateRequest, m: Moment, ok: bool)
    requires Depicts(s, y) && k in y.calls && y.calls[k].job.Create? && y.calls[k].stage == SawActive
    requires StatusesIn(Seen(s, Path.Live(StateJson))) == StatusesOf(state) && NeverUsed(y, id)
    requires WorkspaceOk(Created(state, id, q, m))
    requires Attempted(s, after, Path.Live(StateJson), Some(StateFile(Created(state, id, q, m))))
    requires ok ==> Settled(after, Path.Live(StateJson), Some(StateFile(Created(state, id, q, m))))
    ensures Steps(y, WriteStatus(k, id, ok), On(after, Without(y, k)))
  {
    hide CellOf, Wrote, Attempted, On, WorkspaceOk, NeverUsed, Created, StatusesOf, StatusesIn, Steps;
    StatusesAfterwards(state, id, q, m);
    SnapshotSeen(s);
    WritesStatus(s, after, y, k, Created(state, id, q, m), id, ok,
                 Without(y, k).(statuses := CellOf(after, StateJson, StatusesIn)));
  }

  /** `complete` writes the snapshot with the task closed. */
  lemma WritesClosed(s: DiskState, after: DiskState, y: System, k: nat, state: WorkspaceState, executions: Receipts,
                     q: CompleteRequest, m: Moment, ok: bool)
    requires Depicts(s, y) && k in y.calls && y.calls[k].stage == SawClosable
    requires y.calls[k].job == Job.Complete(q.taskId, q.outcome) && q.taskId in state.tasks
    requires state.tasks[q.taskId].taskId == q.taskId
    requires StatusesIn(Seen(s, Path.Live(StateJson))) == StatusesOf(state)
    requires WorkspaceOk(Closed(state, executions, q, m))
    requires Attempted(s, after, Path.Live(StateJson), Some(StateFile(Closed(state, executions, q, m))))
    requires ok ==> Settled(after, Path.Live(StateJson), Some(StateFile(Closed(state, executions, q, m))))
    ensures Steps(y, WriteStatus(k, q.taskId, ok), On(after, Without(y, k)))
  {
    hide CellOf, Wrote, Attempted, On, WorkspaceOk, NeverUsed, Closed, StatusesOf, StatusesIn, Steps;
    StatusesOnceClosed(state, executions, q, m);
    SnapshotSeen(s);
    WritesStatus(s, after, y, k, Closed(state, executions, q, m), q.taskId, ok,
                 Without(y, k).(statuses := CellOf(after, StateJson, StatusesIn)));
  }

  // ------------------------------------------------------------------------------------ the transaction

  lemma TransactionCommits<T(!new)>(s: DiskState, after: DiskState, u: Target, v: Option<File>,
                                    read: Option<File> -> T, ok: bool)
    requires Durable(s, Path.Live(u)) && Durable(after, Path.Live(u))
    requires Seen(after, Path.Live(u)) == v || (!ok && Seen(after, Path.Live(u)) == Seen(s, Path.Live(u)))
    ensures Committed(CellOf(s, u, read), CellOf(after, u, read), read(v), ok)
  {
    DurableIsFirm(s, u, read);
    DurableIsFirm(after, u, read);
  }

  lemma OutsideIsKept<T(!new)>(s: DiskState, after: DiskState, j: Journal, u: Target, read: Option<File> -> T)
    requires J.CalmOutside(s, after, j) && J.Outside(Path.Live(u), j)
    ensures Kept(CellOf(s, u, read), CellOf(after, u, read))
  {
    assert May(after, Path.Live(u), Seen(after, Path.Live(u)));
  }

  /**
    * What the update has collected goes to disk: the disk before the commit, and the disk it leaves once it
    * has ended and any recovery it needs is over.
    */
  ghost predicate Carried(s: DiskState, after: DiskState, j: Journal, next: WorkspaceState,
                          records: seq<ExecutionRecord>, ok: bool) {
    && J.Plans(j, s, next, records) && J.AllOld(s, j) && J.CalmOutside(s, after, j)
    && exists applied :: J.Resolved(after, j, applied) && (ok ==> applied)
  }

  /** A commit that failed, and the recovery of what it left behind, say no less. */
  lemma RecoveryCarries(s: DiskState, failed: DiskState, after: DiskState, j: Journal, next: WorkspaceState,
                        records: seq<ExecutionRecord>)
    requires J.Plans(j, s, next, records) && J.AllOld(s, j) && J.CalmOutside(s, failed, j) && J.InFlight(failed, j)
    requires J.CalmOutside(failed, after, j) && J.Recovered(failed, after, j)
    ensures Carried(s, after, j, next, records, false)
  {
    hide J.Plans, J.AllOld, J.Undecided, J.Decided, J.Outside;
    if J.Undecided(failed, j) { assert J.Resolved(after, j, false); } else { assert J.Resolved(after, j, true); }
  }

  lemma CarriedReceipt(s: DiskState, after: DiskState, j: Journal, next: WorkspaceState, records: seq<ExecutionRecord>,
                       ok: bool, i: nat)
    requires Carried(s, after, j, next, records, ok) && i < |records| && ExecutionOk(records[i])
    ensures var u := Receipt(records[i].operationId);
      Committed(CellOf(s, u, ReceiptIn), CellOf(after, u, ReceiptIn), Some(records[i]), ok)
  {
    hide CellOf;
    assert j.records[i].path == Receipt(records[i].operationId);
    TransactionCommits(s, after, Receipt(records[i].operationId), Some(ReceiptFile(records[i])), ReceiptIn, ok);
  }

  lemma CarriedSnapshot(s: DiskState, after: DiskState, j: Journal, next: WorkspaceState, records: seq<ExecutionRecord>,
                        ok: bool)
    requires Carried(s, after, j, next, records, ok) && WorkspaceOk(next)
    requires StatusesIn(Seen(s, Path.Live(StateJson))) == StatusesOf(next)
    ensures Kept(CellOf(s, StateJson, StatusesIn), CellOf(after, StateJson, StatusesIn))
  {
    hide CellOf, WorkspaceOk;
    assert j.records[|records|].path == StateJson;
    SnapshotSeen(s);
    SnapshotSeen(after);
    SnapshotReads(next);
    DurableIsFirm(s, StateJson, StatusesIn);
    DurableIsFirm(after, StateJson, StatusesIn);
  }

  lemma SnapshotReads(state: WorkspaceState)
    requires WorkspaceOk(state)
    ensures StatusesIn(Some(StateFile(state))) == StatusesOf(state)
  {
  }

  lemma CarriedOther(s: DiskState, after: DiskState, j: Journal, next: WorkspaceState, records: seq<ExecutionRecord>,
                     ok: bool, op: Uuid)
    requires Carried(s, after, j, next, records, ok)
    requires forall i :: 0 <= i < |records| ==> records[i].operationId != op
    ensures Kept(CellOf(s, Receipt(op), ReceiptIn), CellOf(after, Receipt(op), ReceiptIn))
  {
    hide CellOf;
    forall i | 0 <= i < |j.records| ensures j.records[i].path != Receipt(op) {}
    OutsideIsKept(s, after, j, Receipt(op), ReceiptIn);
  }

  predicate Written(records: seq<ExecutionRecord>, op: Uuid) {
    exists i :: 0 <= i < |records| && records[i].operationId == op
  }

  ghost function Committing(s: DiskState, after: DiskState, y: System, k: nat, records: seq<ExecutionRecord>): System {
    Without(y, k).(receipts := imap op: Uuid | true ::
                     CellOf(if Written(records, op) then after else s, Receipt(op), ReceiptIn))
  }

  lemma CommitsCells(s: DiskState, after: DiskState, y: System, k: nat, j: Journal, next: WorkspaceState, ok: bool,
                     mid: System)
    requires Depicts(s, y) && Inv(y) && k in y.calls && y.calls[k].job.Update? && y.calls[k].stage.Collected?
    requires |y.calls[k].stage.records| == |y.calls[k].job.resolutions|
    requires Carried(s, after, j, next, y.calls[k].stage.records, ok)
    requires forall r :: r in y.calls[k].stage.records ==> ExecutionOk(r)
    requires mid == Committing(s, after, y, k, y.calls[k].stage.records)
    ensures CommitStep(y, mid, k, ok)
  {
    hide CellOf, Carried, Committed, Inv, ExecutionOk;
    var c := y.calls[k];
    forall i | 0 <= i < |c.stage.records|
      ensures c.stage.records[i].operationId == c.job.resolutions[i].operationId
    {
      CollectedUnderItsName(y, c, i);
    }
    forall op | op in y.receipts ensures CommitCell(c, op, y.receipts[op], mid.receipts[op], ok) {
      if i :| 0 <= i < |c.stage.records| && c.job.resolutions[i].operationId == op {
        CarriedReceipt(s, after, j, next, c.stage.records, ok, i);
      }
    }
  }

  /** `update` commits the snapshot and the receipts it resolves. */
  lemma Commits(s: DiskState, after: DiskState, y: System, k: nat, j: Journal, next: WorkspaceState, ok: bool)
    requires Depicts(s, y) && Inv(y) && k in y.calls && y.calls[k].job.Update? && y.calls[k].stage.Collected?
    requires |y.calls[k].stage.records| == |y.calls[k].job.resolutions|
    requires Carried(s, after, j, next, y.calls[k].stage.records, ok) && WorkspaceOk(next)
    requires StatusesIn(Seen(s, Path.Live(StateJson))) == StatusesOf(next)
    requires forall r :: r in y.calls[k].stage.records ==> ExecutionOk(r)
    ensures Steps(y, Commit(k, ok), On(after, Without(y, k)))
  {
    hide Depicts, Inv, Carried, WorkspaceOk, StatusesIn, StatusesOf, ExecutionOk, Committing, CommitStep, On;
    var mid := Committing(s, after, y, k, y.calls[k].stage.records);
    CommitsCells(s, after, y, k, j, next, ok, mid);
    CommittedIsSettled(s, after, y, k, j, next, ok, mid);
    assert Next(y, mid, Commit(k, ok));
  }

  lemma CollectedUnderItsName(y: System, c: Call, i: nat)
    requires Inv(y) && c in y.calls.Values && c.stage.Collected? && i < |c.stage.records| <= |c.job.resolutions|
    ensures c.stage.records[i].operationId == c.job.resolutions[i].operationId
  {
    var op := c.job.resolutions[i].operationId;
    assert CollectedOk(y, c, i) && CellOk(y, op);
    assert RecordOk(y, op, y.receipts[op].seen.value);
  }

  lemma CommittedIsSettled(s: DiskState, after: DiskState, y: System, k: nat, j: Journal, next: WorkspaceState,
                           ok: bool, mid: System)
    requires Depicts(s, y) && k in y.calls && y.calls[k].stage.Collected?
    requires Carried(s, after, j, next, y.calls[k].stage.records, ok) && WorkspaceOk(next)
    requires StatusesIn(Seen(s, Path.Live(StateJson))) == StatusesOf(next)
    requires mid == Committing(s, after, y, k, y.calls[k].stage.records)
    ensures Next(mid, On(after, Without(y, k)), Settle)
  {
    hide CellOf, Carried, Kept, WorkspaceOk, StatusesIn, StatusesOf;
    var records := y.calls[k].stage.records;
    var z := On(after, Without(y, k));
    CarriedSnapshot(s, after, j, next, records, ok);
    forall op | op in mid.receipts ensures Kept(mid.receipts[op], z.receipts[op]) {
      if Written(records, op) {
        KeptItself(after, Receipt(op), ReceiptIn);
      } else {
        CarriedOther(s, after, j, next, records, ok, op);
      }
    }
  }

  // ------------------------------------------------------------------------------------------- restarts

  /** The empty directory is where every run starts. */
  lemma StartsEmpty(y: System)
    requires y.booting && y.boot in y.boots && y.calls == map[] && y.grants == []
    ensures Initial(On(DiskState(map[], map[]), y))
  {
    var s := DiskState(map[], map[]);
    DurableIsFirm(s, StateJson, StatusesIn);
    forall op: Uuid ensures Firm(CellOf(s, Receipt(op), ReceiptIn), None) { DurableIsFirm(s, Receipt(op), ReceiptIn); }
  }

  /** A process ends, with or without the power. */
  lemma Restarts(s: DiskState, after: DiskState, y: System, boot: Uuid, powerFailed: bool)
    requires Depicts(s, y) && boot !in y.boots && if powerFailed then PowerLoss(s, after) else after == s
    ensures Next(y, On(after, y.(boot := boot, boots := y.boots + {boot}, booting := true, calls := map[])),
                 Restart(boot, powerFailed))
  {
    hide CellOf, PowerLost;
    var z := On(after, y);
    if powerFailed {
      PowerLossLoses(s, after, StateJson, StatusesIn);
      forall op | op in y.receipts ensures PowerLost(y.receipts[op], z.receipts[op]) {
        PowerLossLoses(s, after, Receipt(op), ReceiptIn);
      }
    }
  }
}
