/**
  * Whole runs of one workspace: any number of processes one after the other, each booting, taking any
  * sequence of requests, and ending anywhere, with or without a power failure.
  */
module Runs {
  import opened Arithmetic
  import opened Wrappers
  import opened TaskTypes
  import opened StorageSchema
  import opened Durability
  import opened AtomicWriter
  import opened StorageJournal
  import opened StoreOutcomes
  import opened Soundness
  import opened TaskStore
  import opened ExecutionRecorder
  import opened TaskService
  import opened Boot

  datatype Event =
    | CreateTask(creation: CreateRequest, moment: TaskService.Moment)
    | UpdateTask(change: UpdateRequest, moment: TaskService.Moment, tx: Uuid)
    | CompleteTask(completion: CompleteRequest, moment: TaskService.Moment, blocked: bool)
    | PrepareExecution(identity: WorkspaceIdentity, taskId: Uuid, op: Uuid, toolKind: ToolKind, inputHmac: Hmac,
      now: Time)
    | SpawnedExecution(op: Uuid, sessionId: string, now: Time)
    | FailedExecution(op: Uuid, errorCode: string, now: Time)
    | EndedExecution(op: Uuid, observation: Observation, now: Time)
    | DegradedExecution(op: Uuid)

  /**
    * One process: its boot, the requests it lives to take, and whether the power fails at its end. In a calm
    * life no primitive fails; `walk` bounds what a walk of its state directory adds up to.
    */
  datatype Life = Life(bootId: Uuid, clock: Uuid -> Time, events: seq<Event>, calm: bool, walk: nat, powerFails: bool)

  datatype Limits = Limits(
    size: File -> nat, maxSnapshotBytes: nat, maxTotalBytes: nat, checkpointMaxBytes: nat,
    checkpointBytes: Checkpoint -> nat)

  /** What callers were ever told, and what a failed commit may have left on disk. */
  datatype Told = Told(acked: Acked, granted: set<Uuid>, inflight: Option<Journal>)

  datatype Instant = Instant(s: DiskState, told: Told)

  /** The answer a caller gets; a request for another workspace is not served here. */
  datatype Response =
    | Mutated(answer: Reply<MutationResult>)
    | Prepares(preparation: Reply<Preparation>)
    | Tracked(record: Reply<ExecutionRecord>)
    | Flagged(done: bool)
    | Elsewhere

  datatype Step = Boots(life: Life, up: bool) | Serves(life: Life, event: Event, response: Response) | PowerFails

  /** The disk will never contradict it. */
  ghost predicate Honest(s: DiskState, told: Told, workspaceId: Uuid) {
    && StoreOk(s, told.inflight, workspaceId)
    && Remembers(s, told.inflight, told.acked)
    && Permanent(s, told.inflight, told.granted)
  }

  /** Answers and grants accumulate; none is changed or taken back. */
  predicate Grows(before: Told, after: Told) {
    && before.granted <= after.granted
    && forall q :: q in before.acked ==> q in after.acked && after.acked[q] == before.acked[q]
  }

  ghost predicate IsSound(a: Instant, workspaceId: Uuid) { Sound(a.s, a.told.inflight, workspaceId) }

  // ------------------------------------------------------------------------------- what each step does

  /** The budget leaves room for a copy of every file of a transaction, and of every receipt there can be. */
  ghost predicate Roomy(limits: Limits, life: Life, a: Instant) {
    exists largest, most :: RoomWith(limits, life, largest, most) && AtMostReceipts(a.s, a.told.inflight, most)
  }

  ghost predicate RoomWith(limits: Limits, life: Life, largest: nat, most: nat) {
    && Within(limits.size, largest) && largest <= limits.maxSnapshotBytes
    && life.walk + Copies(MAX_RECORDS, largest) <= limits.maxTotalBytes
    && life.walk + Copies(most, largest) <= limits.maxTotalBytes
  }

  /** On a sound workspace a calm boot comes up if the budget has room; on one that fails the full check none does. */
  ghost predicate Booted(limits: Limits, workspaceId: Uuid, a: Instant, life: Life, up: bool, b: Instant) {
    && b.told == a.told.(inflight := b.told.inflight)
    && (up ==> b.told.inflight.None? && FullCheck(b.s, workspaceId))
    && (IsSound(a, workspaceId) ==> IsSound(b, workspaceId))
    && (IsSound(a, workspaceId) && life.calm && Roomy(limits, life, a) ==> up)
    && (a.told.inflight.None? && !FullCheck(a.s, workspaceId) ==> !up && b.told == a.told && Calmer(a.s, b.s))
  }

  /** A request that was answered is answered again, on a sound workspace and a device that does not fail. */
  ghost predicate Mutates(workspaceId: Uuid, a: Instant, calm: bool, fits: bool, requestId: Uuid, kind: MutationKind,
                          hmac: Hmac, r: Reply<MutationResult>, b: Instant) {
    && Answered(a.told.acked, b.told.acked, requestId, kind, hmac, r) && b.told.granted == a.told.granted
    && (IsSound(a, workspaceId) ==> IsSound(b, workspaceId))
    && (fits && calm && a.told.inflight.None? && IsSound(a, workspaceId) ==>
          requestId in a.told.acked && Same(a.told.acked[requestId], kind, hmac) ==> r.Ok?)
  }

  predicate Grants(r: Reply<Preparation>) { r.Ok? && r.value.shouldSpawn }

  /** A grant is new and on disk; it leaves the workspace sound unless another task's receipt may name the operation. */
  ghost predicate PreparesOne(workspaceId: Uuid, a: Instant, first: ExecutionRecord, r: Reply<Preparation>,
                              b: Instant) {
    && b.told.acked == a.told.acked
    && (if Grants(r) then first.operationId !in a.told.granted && b.told.granted == a.told.granted + {first.operationId}
        else b.told.granted == a.told.granted)
    && (r.Ok? ==> OnDisk(b.s, b.told.inflight, first.operationId, r.value.record))
    && (IsSound(a, workspaceId) ==> Foreseen(b.s, b.told.inflight, workspaceId, first, Grants(r)))
    && (IsSound(a, workspaceId) && r.Ok? && !Grants(r) ==> IsSound(b, workspaceId))
  }

  ghost predicate Tracks(workspaceId: Uuid, a: Instant, op: Uuid, r: Reply<ExecutionRecord>, b: Instant) {
    && b.told == a.told.(inflight := b.told.inflight)
    && (r.Ok? ==> OnDisk(b.s, b.told.inflight, op, r.value))
    && (IsSound(a, workspaceId) ==> IsSound(b, workspaceId))
  }

  function FirstOf(workspaceId: Uuid, life: Life, e: Event): ExecutionRecord
    requires e.PrepareExecution?
  {
    FirstReceipt(e.op, e.taskId, workspaceId, life.bootId, e.toolKind, e.inputHmac, e.now)
  }

  predicate ForOther(workspaceId: Uuid, e: Event) {
    || (e.CreateTask? && e.creation.identity.workspaceId != workspaceId)
    || (e.PrepareExecution? && e.identity.workspaceId != workspaceId)
  }

  /** The step did with the event what its contract says, and answered this. */
  ghost predicate Served(limits: Limits, workspaceId: Uuid, a: Instant, life: Life, e: Event, r: Response, b: Instant) {
    if ForOther(workspaceId, e) then r == Elsewhere && b == a
    else
      match e
      case CreateTask(q, m) =>
        && r.Mutated?
        && Mutates(workspaceId, a, life.calm, limits.checkpointBytes(q.checkpoint) <= limits.checkpointMaxBytes,
                   q.requestId, MutationKind.Create, CreateDigest(q), r.answer, b)
      case UpdateTask(q, m, tx) =>
        && r.Mutated?
        && Mutates(workspaceId, a, life.calm, limits.checkpointBytes(q.checkpoint) <= limits.checkpointMaxBytes,
                   q.requestId, MutationKind.Update, UpdateDigest(q), r.answer, b)
      case CompleteTask(q, m, blocked) =>
        && r.Mutated?
        && Mutates(workspaceId, a, life.calm, true, q.requestId, MutationKind.Complete, CompleteDigest(q), r.answer, b)
      case PrepareExecution(_, _, _, _, _, _) =>
        r.Prepares? && PreparesOne(workspaceId, a, FirstOf(workspaceId, life, e), r.preparation, b)
      case SpawnedExecution(op, _, _) => r.Tracked? && Tracks(workspaceId, a, op, r.record, b)
      case FailedExecution(op, _, _) => r.Tracked? && Tracks(workspaceId, a, op, r.record, b)
      case EndedExecution(op, _, _) => r.Tracked? && Tracks(workspaceId, a, op, r.record, b)
      case DegradedExecution(op) =>
        r.Flagged? && b.told == a.told.(inflight := b.told.inflight)
          && (IsSound(a, workspaceId) ==> IsSound(b, workspaceId))
  }

  ghost predicate Happens(limits: Limits, workspaceId: Uuid, a: Instant, step: Step, b: Instant) {
    && Honest(b.s, b.told, workspaceId) && Grows(a.told, b.told)
    && match step
       case Boots(life, up) => Booted(limits, workspaceId, a, life, up, b)
       case Serves(life, e, r) =>
         Served(limits, workspaceId, a, life, e, r, b) && (life.calm && a.told.inflight.None? ==> b.told.inflight.None?)
       case PowerFails =>
         b.told == a.told && PowerLoss(a.s, b.s) && (IsSound(a, workspaceId) ==> IsSound(b, workspaceId))
  }

  lemma BootStaysHonest(s: DiskState, after: DiskState, told: Told, left: Option<Journal>, found: Receipts, life: Life,
                        workspaceId: Uuid)
    requires Honest(s, told, workspaceId) && StoreOk(after, left, workspaceId)
    requires forall t, c :: MayBecome(after, left, t, c) ==>
      MayBecome(s, told.inflight, t, c) || BootWrites(found, life.bootId, life.clock, t, c)
    ensures Honest(after, told.(inflight := left), workspaceId)
  {
  }

  lemma PowerFailureStaysHonest(s: DiskState, after: DiskState, told: Told, workspaceId: Uuid)
    requires Honest(s, told, workspaceId) && PowerLoss(s, after)
    ensures Honest(after, told, workspaceId)
    ensures Sound(s, told.inflight, workspaceId) ==> Sound(after, told.inflight, workspaceId)
  {
    PowerLossAddsNoOutcome(s, after, told.inflight, workspaceId);
    if Sound(s, told.inflight, workspaceId) { NothingNewIsSound(s, told.inflight, after, told.inflight, workspaceId); }
  }

  // ---------------------------------------------------------------------------------- one step at a time

  ghost function At(service: Service): Instant
    reads service, service.recorder, service.recorder.store, service.recorder.store.writer.volume
  {
    Instant(service.Disk(), Told(service.acked, service.recorder.granted, service.Inflight()))
  }

  ghost predicate Serving(service: Service, limits: Limits, workspaceId: Uuid, life: Life)
    reads service, service.recorder, service.recorder.store, service.recorder.store.writer,
      service.recorder.store.writer.volume, service.recorder.store.index
  {
    && service.Valid() && service.recorder.store.workspaceId == workspaceId
       && service.recorder.store.bootId == life.bootId
    && service.checkpointMaxBytes == limits.checkpointMaxBytes && service.checkpointBytes == limits.checkpointBytes
    && service.recorder.store.writer.volume.calm == life.calm
  }

  lemma ServingIsHonest(service: Service, limits: Limits, workspaceId: Uuid, life: Life)
    requires Serving(service, limits, workspaceId, life)
    ensures Honest(At(service).s, At(service).told, workspaceId)
  {
  }

  lemma AnswerGrows(before: Told, after: Told, requestId: Uuid, kind: MutationKind, hmac: Hmac,
                    r: Reply<MutationResult>)
    requires Answered(before.acked, after.acked, requestId, kind, hmac, r) && after.granted == before.granted
    ensures Grows(before, after)
  {
  }

  lemma NothingTold(told: Told)
    ensures Grows(told, told)
  {
  }

  /** One request; the service and the recorder share one store. */
  method Serve(service: Service, e: Event, ghost limits: Limits, workspaceId: Uuid,
               ghost life: Life) returns (r: Response)
    requires Serving(service, limits, workspaceId, life)
    modifies service, service.recorder, service.recorder.store, service.recorder.store.writer
    modifies service.recorder.store.writer.volume`s, service.recorder.store.index
    ensures service.recorder.store.index == null || service.recorder.store.index == old(service.recorder.store.index)
      || fresh(service.recorder.store.index)
    ensures Serving(service, limits, workspaceId, life)
    ensures Happens(limits, workspaceId, old(At(service)), Serves(life, e, r), At(service))
  {
    hide Sound, MayBecome, StoreOk, Shows, Remembers, Permanent, CompleteDigest, UpdateDigest, CreateDigest, Same,
      Answered, Grows;
    ghost var a := At(service);
    match e
    case CreateTask(q, m) =>
      if q.identity.workspaceId != workspaceId {
        r := Elsewhere;
        NothingTold(a.told);
      } else {
        var answer;
        ghost var step;
        answer, step := service.Create(q, m);
        AnswerGrows(a.told, At(service).told, q.requestId, MutationKind.Create, CreateDigest(q), answer);
        r := Mutated(answer);
      }
    case UpdateTask(q, m, tx) =>
      var answer;
      ghost var step;
      answer, step := service.Update(q, m, tx);
      AnswerGrows(a.told, At(service).told, q.requestId, MutationKind.Update, UpdateDigest(q), answer);
      r := Mutated(answer);
    case CompleteTask(q, m, blocked) =>
      var answer;
      ghost var step;
      answer, step := service.Complete(q, m, blocked);
      AnswerGrows(a.told, At(service).told, q.requestId, MutationKind.Complete, CompleteDigest(q), answer);
      r := Mutated(answer);
    case _ => r := Track(service, e, limits, workspaceId, life);
  }

  method Track(service: Service, e: Event, ghost limits: Limits, workspaceId: Uuid,
               ghost life: Life) returns (r: Response)
    requires Serving(service, limits, workspaceId, life) && !e.CreateTask? && !e.UpdateTask? && !e.CompleteTask?
    modifies service.recorder, service.recorder.store, service.recorder.store.writer
    modifies service.recorder.store.writer.volume`s, service.recorder.store.index
    ensures service.recorder.store.index == null || service.recorder.store.index == old(service.recorder.store.index)
      || fresh(service.recorder.store.index)
    ensures Serving(service, limits, workspaceId, life)
    ensures Happens(limits, workspaceId, old(At(service)), Serves(life, e, r), At(service))
  {
    hide Sound, MayBecome, StoreOk, Shows, Permanent, OnDisk, History, Started, FailedToSpawn, Terminal;
    var recorder := service.recorder;
    match e
    case PrepareExecution(_, _, _, _, _, _) => r := Ask(service, e, limits, workspaceId, life);
    case SpawnedExecution(op, sessionId, now) =>
      var record;
      ghost var found;
      record, found := recorder.MarkRunning(op, sessionId, now);
      r := Tracked(record);
    case FailedExecution(op, code, now) =>
      var record;
      ghost var found;
      record, found := recorder.MarkSpawnFailed(op, code, now);
      r := Tracked(record);
    case EndedExecution(op, o, now) =>
      var record;
      ghost var found;
      record, found := recorder.MarkTerminal(op, o, now);
      r := Tracked(record);
    case DegradedExecution(op) =>
      var done;
      ghost var found;
      done, found := recorder.MarkPersistenceDegraded(op);
      r := Flagged(done.Ok?);
  }

  lemma SnapshotsKept(s: DiskState, inflight: Option<Journal>, now: DiskState, inflightNow: Option<Journal>, op: Uuid,
                      record: Option<ExecutionRecord>, acked: Acked)
    requires AtMost(s, inflight, now, inflightNow, op, record) && Remembers(s, inflight, acked)
    ensures Remembers(now, inflightNow, acked)
  {
  }

  method Ask(service: Service, e: Event, ghost limits: Limits, workspaceId: Uuid,
             ghost life: Life) returns (r: Response)
    requires Serving(service, limits, workspaceId, life) && e.PrepareExecution?
    modifies service.recorder, service.recorder.store, service.recorder.store.writer
    modifies service.recorder.store.writer.volume`s, service.recorder.store.index
    ensures service.recorder.store.index == null || service.recorder.store.index == old(service.recorder.store.index)
      || fresh(service.recorder.store.index)
    ensures Serving(service, limits, workspaceId, life)
    ensures Happens(limits, workspaceId, old(At(service)), Serves(life, e, r), At(service))
  {
    hide Sound, MayBecome, StoreOk, Shows, Permanent, OnDisk, Remembers, Foreseen, SameExecution;
    ghost var a := At(service);
    if e.identity.workspaceId != workspaceId { return Elsewhere; }
    var preparation := service.recorder.Prepare(e.identity, e.taskId, e.op, e.toolKind, e.inputHmac, e.now);
    SnapshotsKept(a.s, a.told.inflight, service.Disk(), service.Inflight(), e.op, Some(FirstOf(workspaceId, life, e)),
                  a.told.acked);
    r := Prepares(preparation);
  }

  // ------------------------------------------------------------------------------------------- whole runs

  /** The steps lead from each instant to the next. */
  ghost predicate Chain(limits: Limits, workspaceId: Uuid, trace: seq<Step>, instants: seq<Instant>) {
    && |instants| == |trace| + 1
    && forall i :: 0 <= i < |trace| ==> Happens(limits, workspaceId, instants[i], trace[i], instants[i + 1])
  }

  /** One step for each request, in order. */
  ghost predicate Requests(life: Life, events: seq<Event>, served: seq<Step>) {
    && |served| == |events|
    && forall i :: 0 <= i < |events| ==> served[i].Serves? && served[i].life == life && served[i].event == events[i]
  }

  /** These are the steps of this process: its boot, then its requests if it came up, then its power failure. */
  ghost predicate IsLife(life: Life, part: seq<Step>) {
    exists up, served :: IsLifeUp(life, up, served, part)
  }

  ghost predicate IsLifeUp(life: Life, up: bool, served: seq<Step>, part: seq<Step>) {
    && Requests(life, if up then life.events else [], served)
    && part == [Boots(life, up)] + served + if life.powerFails then [PowerFails] else []
  }

  /** The trace is the lives one after the other. */
  ghost predicate Plays(lives: seq<Life>, trace: seq<Step>) {
    if lives == [] then trace == []
    else exists k ::
      0 <= k <= |trace| && Plays(lives[..|lives| - 1], trace[..k]) && IsLife(lives[|lives| - 1], trace[k..])
  }

  lemma ChainGoesOn(limits: Limits, workspaceId: Uuid, trace: seq<Step>, instants: seq<Instant>, step: Step,
                    next: Instant)
    requires Chain(limits, workspaceId, trace, instants) && Happens(limits, workspaceId, instants[|trace|], step, next)
    ensures Chain(limits, workspaceId, trace + [step], instants + [next])
  {
    hide Happens;
    forall i | 0 <= i < |trace| + 1
      ensures Happens(limits, workspaceId, (instants + [next])[i], (trace + [step])[i], (instants + [next])[i + 1])
    {
      if i < |trace| { assert Happens(limits, workspaceId, instants[i], trace[i], instants[i + 1]); }
    }
  }

  method Live(volume: Volume, workspaceId: Uuid, limits: Limits, life: Life, ghost told: Told)
    returns (trace: seq<Step>, ghost instants: seq<Instant>)
    requires Honest(volume.s, told, workspaceId)
    requires forall d :: limits.size(Body(CommitMarker(d))) == MARKER_BYTES
    modifies volume
    ensures Chain(limits, workspaceId, trace, instants) && IsLife(life, trace)
    ensures instants[0] == Instant(old(volume.s), told) && instants[|trace|].s == volume.s
    ensures Honest(volume.s, instants[|trace|].told, workspaceId)
  {
    hide Happens, Honest;
    volume.calm, volume.walk := life.calm, life.walk;
    ghost var a := Instant(volume.s, told);
    var up, b := BootProcess(volume, workspaceId, limits, life, a);
    trace, instants := [Boots(life, up.Some?)], [a, b];
    var served: seq<Step> := [];
    if up.Some? { served, instants := Work(volume, up.value, workspaceId, limits, life, a, b); }
    trace := trace + served;
    if life.powerFails {
      ghost var c := instants[|trace|];
      volume.PowerCut();
      PowerFailureHappens(limits, workspaceId, c, volume.s);
      ChainGoesOn(limits, workspaceId, trace, instants, PowerFails, Instant(volume.s, c.told));
      trace, instants := trace + [PowerFails], instants + [Instant(volume.s, c.told)];
    }
    assert IsLifeUp(life, up.Some?, served, trace);
  }

  lemma PowerFailureHappens(limits: Limits, workspaceId: Uuid, a: Instant, s: DiskState)
    requires Honest(a.s, a.told, workspaceId) && PowerLoss(a.s, s)
    ensures Happens(limits, workspaceId, a, PowerFails, Instant(s, a.told)) && Honest(s, a.told, workspaceId)
  {
    PowerFailureStaysHonest(a.s, s, a.told, workspaceId);
  }

  method BootProcess(volume: Volume, workspaceId: Uuid, limits: Limits, life: Life, ghost a: Instant)
    returns (up: Option<Store>, ghost b: Instant)
    requires a.s == volume.s && Honest(a.s, a.told, workspaceId) && volume.calm == life.calm && volume.walk == life.walk
    requires forall d :: limits.size(Body(CommitMarker(d))) == MARKER_BYTES
    modifies volume`s
    ensures b.s == volume.s && Happens(limits, workspaceId, a, Boots(life, up.Some?), b)
    ensures Honest(b.s, b.told, workspaceId)
    ensures up.Some? ==> b.told.inflight.None? && Ready(volume, up.value, workspaceId, life)
    ensures up.Some? ==> fresh(up.value) && fresh(up.value.writer) && up.value.index != null && fresh(up.value.index)
  {
    hide Sound, MayBecome, Shows, FullCheck, AtMostReceipts, Copies, NoneUnsettled, StoreOk, Remembers, Permanent,
      Calmer;
    var writer := new Writer(volume, limits.size, limits.maxSnapshotBytes, limits.maxTotalBytes);
    ghost var largest: nat, most: nat := 0, 0;
    if Roomy(limits, life, a) {
      largest, most :| RoomWith(limits, life, largest, most) && AtMostReceipts(a.s, a.told.inflight, most);
    }
    ghost var left, found;
    up, left, found := Start(writer, workspaceId, life.bootId, life.clock, a.told.inflight, largest, most);
    BootStaysHonest(a.s, volume.s, a.told, left, found, life, workspaceId);
    b := Instant(volume.s, a.told.(inflight := left));
  }

  /** A store that has just booted. */
  ghost predicate Ready(volume: Volume, store: Store, workspaceId: Uuid, life: Life)
    reads store, store.writer, volume, store.writer.volume, store.index
  {
    && store.Valid() && store.writer.volume == volume && store.inflight.None?
    && store.workspaceId == workspaceId && store.bootId == life.bootId && volume.calm == life.calm
  }

  method Work(volume: Volume, store: Store, workspaceId: Uuid, limits: Limits, life: Life, ghost a: Instant,
              ghost b: Instant)
    returns (served: seq<Step>, ghost instants: seq<Instant>)
    requires Ready(volume, store, workspaceId, life) && b.s == volume.s && b.told.inflight.None?
    requires Happens(limits, workspaceId, a, Boots(life, true), b) && Honest(b.s, b.told, workspaceId)
    modifies volume`s, store, store.writer, store.index
    ensures Chain(limits, workspaceId, [Boots(life, true)] + served, instants) && Requests(life, life.events, served)
    ensures instants[0] == a && instants[|served| + 1].s == volume.s
    ensures Honest(volume.s, instants[|served| + 1].told, workspaceId)
  {
    hide Happens, StoreOk, Remembers, Permanent, Shows;
    var recorder := new Recorder(store, b.told.granted);
    var service := new Service(recorder, limits.checkpointMaxBytes, limits.checkpointBytes, b.told.acked);
    served, instants := [], [a, b];
    for n := 0 to |life.events|
      invariant service.recorder == recorder && recorder.store == store && fresh(service) && fresh(recorder)
      invariant store.index == null || store.index == old(store.index) || fresh(store.index)
      invariant Serving(service, limits, workspaceId, life)
      invariant Chain(limits, workspaceId, [Boots(life, true)] + served, instants)
      invariant Requests(life, life.events[..n], served)
      invariant instants[0] == a && instants[|served| + 1] == At(service)
    {
      var r := Serve(service, life.events[n], limits, workspaceId, life);
      var step := Serves(life, life.events[n], r);
      ChainGoesOn(limits, workspaceId, [Boots(life, true)] + served, instants, step, At(service));
      assert [Boots(life, true)] + served + [step] == [Boots(life, true)] + (served + [step]);
      served, instants := served + [step], instants + [At(service)];
    }
    assert life.events[..|life.events|] == life.events;
    ServingIsHonest(service, limits, workspaceId, life);
  }

  /** Any sequence of lives. What follows is proved of the trace it returns. */
  method Run(volume: Volume, workspaceId: Uuid, limits: Limits, lives: seq<Life>, ghost told: Told)
    returns (trace: seq<Step>, ghost instants: seq<Instant>)
    requires Honest(volume.s, told, workspaceId)
    requires forall d :: limits.size(Body(CommitMarker(d))) == MARKER_BYTES
    modifies volume
    ensures Chain(limits, workspaceId, trace, instants) && Plays(lives, trace)
    ensures instants[0] == Instant(old(volume.s), told) && instants[|trace|].s == volume.s
  {
    hide Happens, Honest, IsLife;
    trace, instants := [], [Instant(volume.s, told)];
    for n := 0 to |lives|
      invariant Chain(limits, workspaceId, trace, instants) && Plays(lives[..n], trace)
      invariant instants[0] == Instant(old(volume.s), told) && instants[|trace|].s == volume.s
      invariant Honest(volume.s, instants[|trace|].told, workspaceId)
    {
      ghost var more: seq<Instant>;
      var part;
      part, more := Live(volume, workspaceId, limits, lives[n], instants[|trace|].told);
      ChainsJoin(limits, workspaceId, trace, instants, part, more);
      OneMoreLife(lives, n, trace, part);
      trace, instants := trace + part, instants + more[1..];
    }
    assert lives[..|lives|] == lives;
  }

  lemma ChainsJoin(limits: Limits, workspaceId: Uuid, trace: seq<Step>, instants: seq<Instant>, part: seq<Step>,
                   more: seq<Instant>)
    requires Chain(limits, workspaceId, trace, instants) && Chain(limits, workspaceId, part, more)
    requires instants[|trace|] == more[0]
    ensures Chain(limits, workspaceId, trace + part, instants + more[1..])
  {
    hide Happens;
    var all := instants + more[1..];
    forall i | 0 <= i < |trace + part| ensures Happens(limits, workspaceId, all[i], (trace + part)[i], all[i + 1]) {
      if i < |trace| {
        assert Happens(limits, workspaceId, instants[i], trace[i], instants[i + 1]);
      } else {
        assert Happens(limits, workspaceId, more[i - |trace|], part[i - |trace|], more[i - |trace| + 1]);
        assert all[i] == more[i - |trace|];
      }
    }
  }

  lemma OneMoreLife(lives: seq<Life>, n: nat, trace: seq<Step>, part: seq<Step>)
    requires n < |lives| && Plays(lives[..n], trace) && IsLife(lives[n], part)
    ensures Plays(lives[..n + 1], trace + part)
  {
    hide IsLife;
    var all := trace + part;
    assert lives[..n + 1][..n] == lives[..n] && all[..|trace|] == trace && all[|trace|..] == part;
  }

  // ------------------------------------------------------------------------------ what holds of every run

  lemma {:induction false} ToldForEver(limits: Limits, workspaceId: Uuid, trace: seq<Step>, instants: seq<Instant>,
                                       i: nat, j: nat)
    requires Chain(limits, workspaceId, trace, instants) && i <= j <= |trace|
    ensures Grows(instants[i].told, instants[j].told)
    decreases j - i
  {
    if i < j {
      assert Happens(limits, workspaceId, instants[i], trace[i], instants[i + 1]);
      ToldForEver(limits, workspaceId, trace, instants, i + 1, j);
    }
  }

  /** The request was answered in this step. */
  predicate Acks(step: Step, requestId: Uuid, kind: MutationKind, hmac: Hmac, result: MutationResult) {
    && step.Serves? && step.response == Mutated(Ok(result))
    && match step.event
       case CreateTask(q, _) => requestId == q.requestId && kind == MutationKind.Create && hmac == CreateDigest(q)
       case UpdateTask(q, _, _) => requestId == q.requestId && kind == MutationKind.Update && hmac == UpdateDigest(q)
       case CompleteTask(q, _, _) =>
         requestId == q.requestId && kind == MutationKind.Complete && hmac == CompleteDigest(q)
       case _ => false
  }

  lemma AckIsRemembered(limits: Limits, workspaceId: Uuid, a: Instant, step: Step, b: Instant,
                        requestId: Uuid, kind: MutationKind, hmac: Hmac, result: MutationResult)
    requires Happens(limits, workspaceId, a, step, b) && Acks(step, requestId, kind, hmac, result)
    ensures requestId in b.told.acked && Same(b.told.acked[requestId], kind, hmac)
    ensures b.told.acked[requestId].result == result
    ensures requestId in a.told.acked ==> b.told.acked == a.told.acked
  {
    hide Sound, Honest, Foreseen;
  }

  /** Over all lives: two answers to one request id are answers to the same input, and are the same. */
  lemma AnswersAgree(limits: Limits, workspaceId: Uuid, trace: seq<Step>, instants: seq<Instant>, i: nat, j: nat,
                     requestId: Uuid, kind: MutationKind, hmac: Hmac, result: MutationResult, kind': MutationKind,
                     hmac': Hmac, result': MutationResult)
    requires Chain(limits, workspaceId, trace, instants) && i < j < |trace|
    requires Acks(trace[i], requestId, kind, hmac, result) && Acks(trace[j], requestId, kind', hmac', result')
    ensures kind' == kind && hmac' == hmac && result' == result
  {
    hide Happens;
    AckIsRemembered(limits, workspaceId, instants[i], trace[i], instants[i + 1], requestId, kind, hmac, result);
    ToldForEver(limits, workspaceId, trace, instants, i + 1, j);
    AckIsRemembered(limits, workspaceId, instants[j], trace[j], instants[j + 1], requestId, kind', hmac', result');
  }

  /** Some caller was told to spawn the operation in this step. */
  predicate GrantsIn(workspaceId: Uuid, step: Step, op: Uuid) {
    && step.Serves? && step.event.PrepareExecution? && step.event.op == op && !ForOther(workspaceId, step.event)
    && step.response.Prepares? && Grants(step.response.preparation)
  }

  lemma GrantIsRemembered(limits: Limits, workspaceId: Uuid, a: Instant, step: Step, b: Instant, op: Uuid)
    requires Happens(limits, workspaceId, a, step, b) && GrantsIn(workspaceId, step, op)
    ensures op !in a.told.granted && op in b.told.granted
  {
    hide Sound, Honest, Foreseen;
  }

  /** Over all lives no operation is granted twice. */
  lemma GrantedOnce(limits: Limits, workspaceId: Uuid, trace: seq<Step>, instants: seq<Instant>, i: nat, j: nat,
                    op: Uuid)
    requires Chain(limits, workspaceId, trace, instants) && i < |trace| && j < |trace|
    requires GrantsIn(workspaceId, trace[i], op) && GrantsIn(workspaceId, trace[j], op)
    ensures i == j
  {
    if i < j {
      GrantIsRemembered(limits, workspaceId, instants[i], trace[i], instants[i + 1], op);
      ToldForEver(limits, workspaceId, trace, instants, i + 1, j);
      GrantIsRemembered(limits, workspaceId, instants[j], trace[j], instants[j + 1], op);
    } else if j < i {
      GrantIsRemembered(limits, workspaceId, instants[j], trace[j], instants[j + 1], op);
      ToldForEver(limits, workspaceId, trace, instants, j + 1, i);
      GrantIsRemembered(limits, workspaceId, instants[i], trace[i], instants[i + 1], op);
    }
  }

  /** The step may have written a first receipt that another task's receipt may name. */
  ghost predicate Endangers(workspaceId: Uuid, step: Step, b: Instant) {
    && step.Serves? && step.event.PrepareExecution? && !ForOther(workspaceId, step.event)
    && PossiblyForeign(b.s, b.told.inflight, FirstOf(workspaceId, step.life, step.event))
  }

  lemma StepKeepsSound(limits: Limits, workspaceId: Uuid, a: Instant, step: Step, b: Instant)
    requires Happens(limits, workspaceId, a, step, b) && IsSound(a, workspaceId) && !Endangers(workspaceId, step, b)
    ensures IsSound(b, workspaceId)
  {
    hide Sound, Honest, PossiblyForeign, AlwaysValid, FirstReceipt;
  }

  /** A run that never endangers it keeps the workspace sound through every failure, restart and power loss. */
  lemma {:induction false} SoundForEver(limits: Limits, workspaceId: Uuid, trace: seq<Step>, instants: seq<Instant>,
                                        n: nat)
    requires Chain(limits, workspaceId, trace, instants) && n <= |trace| && IsSound(instants[0], workspaceId)
    requires forall i :: 0 <= i < n ==> !Endangers(workspaceId, trace[i], instants[i + 1])
    ensures IsSound(instants[n], workspaceId)
  {
    hide Happens, Endangers, IsSound;
    if n > 0 {
      SoundForEver(limits, workspaceId, trace, instants, n - 1);
      StepKeepsSound(limits, workspaceId, instants[n - 1], trace[n - 1], instants[n]);
    }
  }

  /** Requests are only served after a boot of the same process came up. */
  ghost predicate Orderly(trace: seq<Step>) {
    forall k :: 0 <= k < |trace| && trace[k].Serves? ==> k > 0 && Precedes(trace[k - 1], trace[k].life)
  }

  ghost predicate Precedes(step: Step, life: Life) {
    (step.Boots? && step.up && step.life == life) || (step.Serves? && step.life == life)
  }

  lemma LifeIsOrderly(life: Life, part: seq<Step>)
    requires IsLife(life, part)
    ensures Orderly(part) && |part| > 0 && !part[0].Serves?
  {
    var up, served :| IsLifeUp(life, up, served, part);
    forall k | 0 <= k < |part| && part[k].Serves? ensures k > 0 && Precedes(part[k - 1], part[k].life) {
      assert 1 <= k <= |served| && part[k] == served[k - 1];
      if k > 1 { assert part[k - 1] == served[k - 2]; }
    }
  }

  lemma {:induction false} PlaysIsOrderly(lives: seq<Life>, trace: seq<Step>)
    requires Plays(lives, trace)
    ensures Orderly(trace)
  {
    if lives != [] {
      var k :| 0 <= k <= |trace| && Plays(lives[..|lives| - 1], trace[..k]) && IsLife(lives[|lives| - 1], trace[k..]);
      PlaysIsOrderly(lives[..|lives| - 1], trace[..k]);
      LifeIsOrderly(lives[|lives| - 1], trace[k..]);
      OrderlyTogether(trace[..k], trace[k..]);
      assert trace[..k] + trace[k..] == trace;
    }
  }

  lemma OrderlyTogether(first: seq<Step>, second: seq<Step>)
    requires Orderly(first) && Orderly(second) && (second != [] ==> !second[0].Serves?)
    ensures Orderly(first + second)
  {
    hide Precedes;
    var all := first + second;
    forall i | 0 <= i < |all| && all[i].Serves? ensures i > 0 && Precedes(all[i - 1], all[i].life) {
      if i < |first| {
        assert all[i] == first[i] && (i > 0 ==> all[i - 1] == first[i - 1]);
      } else {
        assert all[i] == second[i - |first|] && (i > |first| ==> all[i - 1] == second[i - |first| - 1]);
      }
    }
  }

  lemma ServingLeavesNothing(limits: Limits, workspaceId: Uuid, a: Instant, step: Step, b: Instant, life: Life)
    requires Happens(limits, workspaceId, a, step, b) && Precedes(step, life) && life.calm
    requires step.Serves? ==> a.told.inflight.None?
    ensures b.told.inflight.None?
  {
    hide Sound, Honest, Served;
  }

  /** In a calm life no request finds a transaction unfinished. */
  lemma {:induction false} CalmLifeIsQuiet(limits: Limits, workspaceId: Uuid, trace: seq<Step>, instants: seq<Instant>,
                                           n: nat)
    requires Chain(limits, workspaceId, trace, instants) && Orderly(trace) && n < |trace| && trace[n].Serves?
    requires trace[n].life.calm
    ensures instants[n].told.inflight.None?
  {
    hide Happens;
    assert Precedes(trace[n - 1], trace[n].life);
    if trace[n - 1].Serves? { CalmLifeIsQuiet(limits, workspaceId, trace, instants, n - 1); }
    ServingLeavesNothing(limits, workspaceId, instants[n - 1], trace[n - 1], instants[n], trace[n].life);
  }

  /** This step is asked what was answered before. */
  predicate Asks(limits: Limits, workspaceId: Uuid, step: Step, requestId: Uuid, kind: MutationKind, hmac: Hmac) {
    && step.Serves? && !ForOther(workspaceId, step.event)
    && match step.event
       case CreateTask(q, _) => requestId == q.requestId && kind == MutationKind.Create && hmac == CreateDigest(q)
         && limits.checkpointBytes(q.checkpoint) <= limits.checkpointMaxBytes
       case UpdateTask(q, _, _) => requestId == q.requestId && kind == MutationKind.Update && hmac == UpdateDigest(q)
         && limits.checkpointBytes(q.checkpoint) <= limits.checkpointMaxBytes
       case CompleteTask(q, _, _) =>
         requestId == q.requestId && kind == MutationKind.Complete && hmac == CompleteDigest(q)
       case _ => false
  }

  lemma RememberedIsAnswered(limits: Limits, workspaceId: Uuid, a: Instant, step: Step, b: Instant, requestId: Uuid,
                             kind: MutationKind, hmac: Hmac)
    requires Happens(limits, workspaceId, a, step, b) && Asks(limits, workspaceId, step, requestId, kind, hmac)
    requires requestId in a.told.acked && Same(a.told.acked[requestId], kind, hmac)
    requires step.life.calm && a.told.inflight.None? && IsSound(a, workspaceId)
    ensures Acks(step, requestId, kind, hmac, a.told.acked[requestId].result)
  {
    hide Sound, Honest;
  }

  /**
    * An answered request is answered again, with the same result, in any calm life after it, unless some
    * step in between wrote a first receipt that another task's receipt may name.
    */
  lemma RetryIsAnswered(limits: Limits, workspaceId: Uuid, lives: seq<Life>, trace: seq<Step>, instants: seq<Instant>,
                        i: nat, n: nat, requestId: Uuid, kind: MutationKind, hmac: Hmac, result: MutationResult)
    requires Chain(limits, workspaceId, trace, instants) && Plays(lives, trace) && i < n < |trace|
    requires Acks(trace[i], requestId, kind, hmac, result) && Asks(limits, workspaceId, trace[n], requestId, kind, hmac)
    requires trace[n].life.calm
    requires IsSound(instants[0], workspaceId)
    requires forall k :: 0 <= k < n ==> !Endangers(workspaceId, trace[k], instants[k + 1])
    ensures Acks(trace[n], requestId, kind, hmac, result)
  {
    hide Happens, Plays, Acks, Asks, Endangers;
    PlaysIsOrderly(lives, trace);
    AckIsServed(trace[n], limits, workspaceId, requestId, kind, hmac);
    CalmLifeIsQuiet(limits, workspaceId, trace, instants, n);
    SoundForEver(limits, workspaceId, trace, instants, n);
    AckIsRemembered(limits, workspaceId, instants[i], trace[i], instants[i + 1], requestId, kind, hmac, result);
    ToldForEver(limits, workspaceId, trace, instants, i + 1, n);
    RememberedIsAnswered(limits, workspaceId, instants[n], trace[n], instants[n + 1], requestId, kind, hmac);
  }

  lemma AckIsServed(step: Step, limits: Limits, workspaceId: Uuid, requestId: Uuid, kind: MutationKind, hmac: Hmac)
    requires Asks(limits, workspaceId, step, requestId, kind, hmac)
    ensures step.Serves?
  {
  }

  /** And a calm boot with room comes up. */
  lemma BootComesUp(limits: Limits, workspaceId: Uuid, trace: seq<Step>, instants: seq<Instant>, n: nat)
    requires Chain(limits, workspaceId, trace, instants) && n < |trace| && trace[n].Boots? && trace[n].life.calm
    requires IsSound(instants[0], workspaceId) && Roomy(limits, trace[n].life, instants[n])
    requires forall k :: 0 <= k < n ==> !Endangers(workspaceId, trace[k], instants[k + 1])
    ensures trace[n].up && FullCheck(instants[n + 1].s, workspaceId)
  {
    SoundForEver(limits, workspaceId, trace, instants, n);
    assert Happens(limits, workspaceId, instants[n], trace[n], instants[n + 1]);
  }

  /** All that is visible is durable, nothing waits for recovery, and it fails the full check. */
  ghost predicate Dead(a: Instant, workspaceId: Uuid) {
    a.told.inflight.None? && !FullCheck(a.s, workspaceId) && forall t :: Durable(a.s, Path.Live(t))
  }

  lemma StillDead(limits: Limits, workspaceId: Uuid, a: Instant, step: Step, b: Instant)
    requires Happens(limits, workspaceId, a, step, b) && Dead(a, workspaceId) && !step.Serves?
    ensures Dead(b, workspaceId) && SameLive(a.s, b.s) && (step.Boots? ==> !step.up)
  {
    SameLiveSameCheck(a.s, b.s, workspaceId);
  }

  lemma NothingServed(trace: seq<Step>, k: nat)
    requires Orderly(trace) && 0 < k < |trace|
    requires (trace[k - 1].PowerFails? || (trace[k - 1].Boots? && !trace[k - 1].up))
    ensures !trace[k].Serves?
  {
  }

  /** The other side: between two processes such a workspace stays as it is for ever, and no process comes up on it. */
  lemma {:induction false} DeadForEver(limits: Limits, workspaceId: Uuid, trace: seq<Step>, instants: seq<Instant>,
                                       n: nat, m: nat)
    requires Chain(limits, workspaceId, trace, instants) && Orderly(trace) && n <= m <= |trace|
    requires Dead(instants[n], workspaceId) && (n < |trace| ==> !trace[n].Serves?)
    ensures Dead(instants[m], workspaceId)
    ensures forall k :: n <= k < m ==> trace[k] == PowerFails || (trace[k].Boots? && !trace[k].up)
  {
    hide Happens, Dead;
    if n < m {
      DeadForEver(limits, workspaceId, trace, instants, n, m - 1);
      if m - 1 > n { NothingServed(trace, m - 1); }
      StillDead(limits, workspaceId, instants[m - 1], trace[m - 1], instants[m]);
    }
  }

  /** An empty workspace directory is honest about nothing having been said, and sound. */
  lemma EmptyIsHonest(workspaceId: Uuid)
    ensures Honest(DiskState(map[], map[]), Told(map[], {}, None), workspaceId)
    ensures IsSound(Instant(DiskState(map[], map[]), Told(map[], {}, None)), workspaceId)
  {
  }
}
