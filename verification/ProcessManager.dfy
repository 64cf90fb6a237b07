/** The output accounting and process capacity of src/process-manager.ts. */
module ProcessManager {
  import opened Arithmetic
  import opened Wrappers
  import opened Utf8
  import opened OutputChunks
  import opened ProcessOutputBuffer

  // -------------------------------------------------------------------------------- one process

  lemma {:induction false} BytesOfTagged(stream: Stream, pieces: seq<seq<byte>>, from: nat)
    ensures Bytes(Tagged(stream, pieces, from)) == |Concat(pieces)|
  {
    if pieces != [] {
      var init := Init(pieces);
      BytesOfTagged(stream, init, from);
      var tagged := Tagged(stream, pieces, from);
      assert tagged == Tagged(stream, init, from) + [tagged[|tagged| - 1]];
      BytesOfBoth(Tagged(stream, init, from), [tagged[|tagged| - 1]]);
    }
  }

  predicate ChunksSized(log: seq<Chunk>) {
    forall c :: c in log ==> 1 <= |c.data| <= OUTPUT_CHUNK_BYTES
  }

  /** A process and its output buffer, by what the buffer stands for. */
  datatype Managed = Managed(
    log: seq<Chunk>, dropped: nat, retainedBytes: nat, droppedBytes: nat,
    pending: map<Stream, seq<byte>>, totalOutputBytes: nat, endedAt: Option<int>)

  predicate ManagedOk(p: Managed) {
    && Numbered(p.log) && ChunksSized(p.log) && p.dropped <= |p.log|
    && p.retainedBytes == Bytes(p.log[p.dropped..]) && p.droppedBytes == Bytes(p.log[..p.dropped])
    && Stdout in p.pending && Stderr in p.pending
    && p.totalOutputBytes == Bytes(p.log) + |p.pending[Stdout]| + |p.pending[Stderr]|
  }

  predicate IsNew(p: Managed) {
    p == Managed([], 0, 0, 0, map[Stdout := [], Stderr := []], 0, None)
  }

  method NewProcess() returns (p: Managed)
    ensures IsNew(p) && ManagedOk(p) && p.endedAt.None? && p.retainedBytes == 0
  {
    p := Managed([], 0, 0, 0, map[Stdout := [], Stderr := []], 0, None);
  }

  /** Every byte received is retained, dropped or pending. */
  lemma NothingIsLost(p: Managed)
    requires ManagedOk(p)
    ensures p.totalOutputBytes == p.retainedBytes + p.droppedBytes + |p.pending[Stdout]| + |p.pending[Stderr]|
  {
    BytesSplit(p.log, p.dropped);
  }

  /** Splitting what is pending and new: the pieces are appended, the remainder stays pending. */
  ghost predicate Receives(p: Managed, q: Managed, stream: Stream, data: seq<byte>, final: bool, chunks: seq<seq<byte>>)
  {
    && stream in p.pending && stream in q.pending
    && Splits(p.pending[stream] + data, final, chunks, q.pending[stream])
    && q == p.(log := p.log + Tagged(stream, chunks, |p.log|), retainedBytes := p.retainedBytes + |Concat(chunks)|,
               pending := p.pending[stream := q.pending[stream]], totalOutputBytes := p.totalOutputBytes + |data|)
  }

  method Receive(p: Managed, stream: Stream, data: seq<byte>, final: bool)
    returns (q: Managed, ghost chunks: seq<seq<byte>>)
    requires ManagedOk(p)
    ensures ManagedOk(q) && Receives(p, q, stream, data, final, chunks)
  {
    var combined := p.pending[stream] + data;
    var pieces, rest := SplitOutputChunks(combined, final);
    assert |Concat(pieces) + rest| == |combined|;
    q := Keep(p, stream, |data|, pieces, rest);
    chunks := pieces;
  }

  method Keep(p: Managed, stream: Stream, more: nat, chunks: seq<seq<byte>>, rest: seq<byte>) returns (q: Managed)
    requires ManagedOk(p) && SizesOk(chunks) && |Concat(chunks)| + |rest| == |p.pending[stream]| + more
    ensures ManagedOk(q)
    ensures q == p.(log := p.log + Tagged(stream, chunks, |p.log|), retainedBytes := p.retainedBytes + |Concat(chunks)|,
                    pending := p.pending[stream := rest], totalOutputBytes := p.totalOutputBytes + more)
  {
    AppendedBytes(p.log, p.dropped, stream, chunks);
    q := p.(log := p.log + Tagged(stream, chunks, |p.log|), retainedBytes := p.retainedBytes + |Concat(chunks)|,
            pending := p.pending[stream := rest], totalOutputBytes := p.totalOutputBytes + more);
  }

  lemma AppendedBytes(log: seq<Chunk>, dropped: nat, stream: Stream, chunks: seq<seq<byte>>)
    requires Numbered(log) && ChunksSized(log) && dropped <= |log| && SizesOk(chunks)
    ensures var after := log + Tagged(stream, chunks, |log|);
      && Numbered(after) && ChunksSized(after)
      && Bytes(after) == Bytes(log) + |Concat(chunks)|
      && Bytes(after[dropped..]) == Bytes(log[dropped..]) + |Concat(chunks)| && after[..dropped] == log[..dropped]
  {
    BytesOfTagged(stream, chunks, |log|);
    BytesAppended(log, dropped, Tagged(stream, chunks, |log|));
    AppendedNumbers(log, stream, chunks);
  }

  lemma BytesAppended(log: seq<Chunk>, dropped: nat, more: seq<Chunk>)
    requires dropped <= |log|
    ensures Bytes(log + more) == Bytes(log) + Bytes(more)
    ensures Bytes((log + more)[dropped..]) == Bytes(log[dropped..]) + Bytes(more)
    ensures (log + more)[..dropped] == log[..dropped]
  {
    BytesOfBoth(log, more);
    BytesOfBoth(log[dropped..], more);
    assert (log + more)[dropped..] == log[dropped..] + more;
  }

  lemma AppendedNumbers(log: seq<Chunk>, stream: Stream, chunks: seq<seq<byte>>)
    requires Numbered(log)
    ensures Numbered(log + Tagged(stream, chunks, |log|))
    ensures ChunksSized(log) && SizesOk(chunks) ==> ChunksSized(log + Tagged(stream, chunks, |log|))
  {
  }

  // ------------------------------------------------------------------------------- what it received

  /** The bytes of one stream, as the log has them. */
  function OfStream(log: seq<Chunk>, stream: Stream): seq<byte> {
    if log == [] then []
    else OfStream(log[..|log| - 1], stream) + if log[|log| - 1].stream == stream then log[|log| - 1].data else []
  }

  /** All that one stream ever sent: what became chunks, and what is pending. */
  function Received(p: Managed, stream: Stream): seq<byte> {
    OfStream(p.log, stream) + if stream in p.pending then p.pending[stream] else []
  }

  lemma OneMoreChunk(log: seq<Chunk>, c: Chunk, stream: Stream)
    ensures OfStream(log + [c], stream) == OfStream(log, stream) + if c.stream == stream then c.data else []
  {
    assert (log + [c])[..|log|] == log;
  }

  lemma {:induction false} TaggedIsTheStream(log: seq<Chunk>, stream: Stream, pieces: seq<seq<byte>>, from: nat,
                                             other: Stream)
    ensures OfStream(log + Tagged(stream, pieces, from), other) ==
      OfStream(log, other) + if other == stream then Concat(pieces) else []
  {
    if pieces == [] {
      assert log + Tagged(stream, pieces, from) == log;
    } else {
      var init := Init(pieces);
      var last := Chunk(from + |init| + 1, stream, Last(pieces));
      TaggedIsTheStream(log, stream, init, from, other);
      assert log + Tagged(stream, pieces, from) == log + Tagged(stream, init, from) + [last];
      OneMoreChunk(log + Tagged(stream, init, from), last, other);
      AppendAssociates(OfStream(log, other), Concat(init), Last(pieces));
    }
  }

  /** An event adds its bytes to its own stream; the final flush of a stream adds nothing. */
  lemma ReceivingAdds(p: Managed, q: Managed, stream: Stream, data: seq<byte>, final: bool, chunks: seq<seq<byte>>,
                      other: Stream)
    requires Receives(p, q, stream, data, final, chunks)
    ensures Received(q, other) == Received(p, other) + if other == stream then data else []
  {
    TaggedIsTheStream(p.log, stream, chunks, |p.log|, other);
    if other == stream {
      AppendAssociates(OfStream(p.log, stream), Concat(chunks), q.pending[stream]);
      AppendAssociates(OfStream(p.log, stream), p.pending[stream], data);
    }
  }

  /** What was pending has become chunks; no stream gained or lost a byte. */
  predicate Flushes(p: Managed, q: Managed) {
    && NothingPending(q) && q == p.(log := q.log, retainedBytes := q.retainedBytes, pending := q.pending)
    && OfStream(q.log, Stdout) == Received(p, Stdout) && OfStream(q.log, Stderr) == Received(p, Stderr)
  }

  /** Only output was dropped, from the front. */
  predicate OnlyTrimmed(p: Managed, q: Managed) {
    && q == p.(dropped := q.dropped, retainedBytes := q.retainedBytes, droppedBytes := q.droppedBytes)
    && p.dropped <= q.dropped && q.retainedBytes <= p.retainedBytes
  }

  function CutTo(p: Managed, maxBytes: nat): (q: Managed)
    requires ManagedOk(p)
    ensures ManagedOk(q) && OnlyTrimmed(p, q)
    ensures q.retainedBytes <= maxBytes && (p.retainedBytes <= maxBytes ==> q == p)
  {
    var to := TrimPoint(p.log, p.dropped, maxBytes);
    TrimmingRetains(p.log, p.dropped, maxBytes);
    p.(dropped := to, retainedBytes := Bytes(p.log[to..]), droppedBytes := Bytes(p.log[..to]))
  }

  /** The page size of `read`: whatever is asked for, a whole chunk fits. */
  function PageBytes(requested: Option<nat>, defaultBytes: nat, maximum: nat): (r: nat)
    ensures OUTPUT_CHUNK_BYTES <= r && (r < maximum ==> r >= if requested.Some? then requested.value else defaultBytes)
    ensures OUTPUT_CHUNK_BYTES < r ==>
      r <= maximum && r <= if requested.Some? then requested.value else defaultBytes
  {
    var wanted := match requested case None => defaultBytes case Some(n) => n;
    Max(OUTPUT_CHUNK_BYTES, if wanted < maximum then wanted else maximum)
  }

  /** A page is empty only when nothing is retained after the cursor; otherwise nextSeq moves past it. */
  lemma PageNeverStalls(p: Managed, afterSeq: nat, requested: Option<nat>, defaultBytes: nat, maximum: nat)
    requires ManagedOk(p)
    ensures var page := Scan(p.log[p.dropped..], afterSeq, PageBytes(requested, defaultBytes, maximum));
      if After(p.log[p.dropped..], afterSeq) == [] then page == Nothing(afterSeq) else page.nextSeq > afterSeq
    ensures var size := Bytes(Scan(p.log[p.dropped..], afterSeq, PageBytes(requested, defaultBytes, maximum)).chunks);
      || size <= OUTPUT_CHUNK_BYTES
      || (size <= maximum && size <= if requested.Some? then requested.value else defaultBytes)
  {
    var retained := p.log[p.dropped..];
    assert forall c :: c in retained ==> c in p.log;
    PageAdvances(retained, afterSeq, PageBytes(requested, defaultBytes, maximum));
    PageIsRun(p.log, p.dropped, afterSeq, PageBytes(requested, defaultBytes, maximum));
    var later, size := After(retained, afterSeq), PageBytes(requested, defaultBytes, maximum);
    FittingIsLongest(later, size, FittingCount(later, size));
  }

  // ----------------------------------------------------------------------------- all processes

  function Drop(ids: seq<nat>, id: nat): (r: seq<nat>)
    ensures forall o :: o in r <==> o in ids && o != id
    ensures |r| <= |ids| && (id in ids ==> |r| < |ids|)
  {
    if ids == [] then [] else (if ids[0] == id then [] else [ids[0]]) + Drop(ids[1..], id)
  }

  function AtLeastZero(x: int): nat { if x < 0 then 0 else x }

  type Processes = map<nat, Managed>

  predicate AllOk(ps: Processes) {
    forall id {:trigger ManagedOk(ps[id])} :: id in ps ==> ManagedOk(ps[id])
  }

  function RetainedBy(p: Managed): nat { p.retainedBytes }

  ghost function Total(ps: Processes): nat { Sum(ps, RetainedBy) }

  lemma TotalUpdate(ps: Processes, id: nat, p: Managed)
    ensures id in ps ==> Total(ps[id := p]) == Total(ps) - ps[id].retainedBytes + p.retainedBytes
    ensures id !in ps ==> Total(ps[id := p]) == Total(ps) + p.retainedBytes
  {
    SumUpdate(ps, RetainedBy, id, p);
  }

  lemma TotalRemove(ps: Processes, id: nat)
    requires id in ps
    ensures Total(ps - {id}) == Total(ps) - ps[id].retainedBytes
  {
    SumRemove(ps, RetainedBy, id);
  }

  function Running(ps: Processes): set<nat> {
    set id | id in ps && ps[id].endedAt.None?
  }

  class ProcessManager {
    const maxRetainedOutputBytes: nat
    const maxTotalRetainedOutputBytes: nat
    const processRetentionMs: nat
    const maxProcesses: nat
    const maxRunningProcesses: nat
    var processes: Processes
    /** The insertion order of the `#outputRecency` map, oldest first. */
    var outputRecency: seq<nat>
    var runningProcesses: nat
    var retainedOutputBytes: nat
    var droppedOutputBytes: nat

    /** The counter is the sum it stands for, and whoever retains output can be found for eviction. */
    ghost predicate Counted()
      reads this
    {
      && AllOk(processes) && retainedOutputBytes == Total(processes)
      && (forall id :: id in outputRecency ==> id in processes)
      && (forall id :: id in processes && processes[id].retainedBytes > 0 ==> id in outputRecency)
    }

    ghost predicate Valid()
      reads this
    {
      && Counted()
      && runningProcesses == |Running(processes)|
      && retainedOutputBytes <= maxTotalRetainedOutputBytes
      && forall id :: id in processes ==> processes[id].retainedBytes <= maxRetainedOutputBytes
    }

    constructor (maxRetained: nat, maxTotal: nat, retentionMs: nat, maxProcesses: nat, maxRunning: nat)
      ensures Valid() && processes == map[]
    {
      maxRetainedOutputBytes, maxTotalRetainedOutputBytes, processRetentionMs := maxRetained, maxTotal, retentionMs;
      this.maxProcesses, maxRunningProcesses := maxProcesses, maxRunning;
      processes, outputRecency, runningProcesses, retainedOutputBytes, droppedOutputBytes := map[], [], 0, 0, 0;
    }

    /** The new state of one process, and the counter that goes with it. */
    method Put(id: nat, p: Managed, retained: nat)
      requires Counted() && id in processes && ManagedOk(p)
      requires retained == retainedOutputBytes - processes[id].retainedBytes + p.retainedBytes
      modifies this`processes, this`retainedOutputBytes, this`outputRecency
      ensures Counted() && processes == old(processes)[id := p] && retainedOutputBytes == retained
      ensures id in old(outputRecency) ==> |outputRecency| <= |old(outputRecency)|
    {
      TotalUpdate(processes, id, p);
      processes := processes[id := p];
      retainedOutputBytes := retained;
      outputRecency := Drop(outputRecency, id);
      if p.retainedBytes > 0 { outputRecency := outputRecency + [id]; }
    }

    /** `trimTo` of one process. The clamp never acts: its bytes are part of the sum. */
    method TrimProcess(id: nat, maxBytes: nat) returns (dropped: nat)
      requires Counted() && id in processes
      modifies this`processes, this`retainedOutputBytes, this`droppedOutputBytes, this`outputRecency
      ensures Counted() && ManagedOk(old(processes)[id])
      ensures processes == old(processes)[id := CutTo(old(processes)[id], maxBytes)]
      ensures dropped == old(processes)[id].retainedBytes - processes[id].retainedBytes
      ensures retainedOutputBytes == old(retainedOutputBytes) - dropped
      ensures droppedOutputBytes == old(droppedOutputBytes) + dropped
      ensures id in old(outputRecency) ==> |outputRecency| <= |old(outputRecency)|
    {
      assert ManagedOk(processes[id]);
      var p := CutTo(processes[id], maxBytes);
      TotalHas(processes, id);
      dropped := processes[id].retainedBytes - p.retainedBytes;
      droppedOutputBytes := droppedOutputBytes + dropped;
      Put(id, p, AtLeastZero(retainedOutputBytes - dropped));
    }

    /** `#trimTotalRetainedOutput`: evicts the oldest output until the total is within its limit. */
    method TrimTotalRetainedOutput()
      requires Counted()
      modifies this`processes, this`retainedOutputBytes, this`droppedOutputBytes, this`outputRecency
      ensures Counted() && retainedOutputBytes <= maxTotalRetainedOutputBytes
      ensures AllTrimmed(old(processes), processes)
      ensures old(retainedOutputBytes) <= maxTotalRetainedOutputBytes ==> processes == old(processes)
    {
      ghost var before := processes;
      while retainedOutputBytes > maxTotalRetainedOutputBytes
        invariant Counted() && AllTrimmed(before, processes)
        invariant old(retainedOutputBytes) <= maxTotalRetainedOutputBytes ==> processes == before
        decreases retainedOutputBytes, |outputRecency|
      {
        SomeoneRetains(processes, outputRecency);
        if outputRecency == [] { break; }
        ghost var now := processes;
        EvictOldest();
        TrimmedTwice(before, now, processes);
      }
    }

    /** One round of the loop: something is dropped, or a process that retains nothing leaves the queue. */
    method EvictOldest()
      requires Counted() && retainedOutputBytes > maxTotalRetainedOutputBytes && outputRecency != []
      modifies this`processes, this`retainedOutputBytes, this`droppedOutputBytes, this`outputRecency
      ensures Counted() && AllTrimmed(old(processes), processes)
      ensures retainedOutputBytes < old(retainedOutputBytes)
        || (retainedOutputBytes == old(retainedOutputBytes) && |outputRecency| < |old(outputRecency)|)
    {
      var oldest := outputRecency[0];
      var excess := retainedOutputBytes - maxTotalRetainedOutputBytes;
      var targetBytes := AtLeastZero(processes[oldest].retainedBytes - excess);
      if CutTo(processes[oldest], targetBytes).retainedBytes == processes[oldest].retainedBytes {
        Unqueue(oldest);
      } else {
        EvictTo(oldest, targetBytes);
      }
    }

    method EvictTo(id: nat, targetBytes: nat)
      requires Counted() && id in outputRecency
      requires CutTo(processes[id], targetBytes).retainedBytes < processes[id].retainedBytes
      modifies this`processes, this`retainedOutputBytes, this`droppedOutputBytes, this`outputRecency
      ensures Counted() && AllTrimmed(old(processes), processes)
      ensures retainedOutputBytes < old(retainedOutputBytes)
    {
      OneTrimmed(processes, id, targetBytes);
      var dropped := TrimProcess(id, targetBytes);
    }

    method Unqueue(id: nat)
      requires Counted() && id in outputRecency && processes[id].retainedBytes == 0
      modifies this`outputRecency
      ensures Counted() && |outputRecency| < |old(outputRecency)|
    {
      outputRecency := Drop(outputRecency, id);
    }

    /** `#trimRetainedOutput`: the process within its own limit, then all of them within the total. */
    method TrimRetainedOutput(id: nat)
      requires Counted() && runningProcesses == |Running(processes)| && id in processes
      requires forall o :: o in processes && o != id ==> processes[o].retainedBytes <= maxRetainedOutputBytes
      modifies this`processes, this`retainedOutputBytes, this`droppedOutputBytes, this`outputRecency
      ensures Valid() && AllTrimmed(old(processes), processes)
    {
      ghost var before := processes;
      TrimOwn(id);
      ghost var now := processes;
      TrimTotalRetainedOutput();
      TrimmedTwice(before, now, processes);
      TrimmedKeepRunning(before, processes);
      forall o | o in processes
        ensures processes[o].retainedBytes <= maxRetainedOutputBytes
      {
        assert OnlyTrimmed(now[o], processes[o]);
      }
    }

    method TrimOwn(id: nat)
      requires Counted() && id in processes
      requires forall o :: o in processes && o != id ==> processes[o].retainedBytes <= maxRetainedOutputBytes
      modifies this`processes, this`retainedOutputBytes, this`droppedOutputBytes, this`outputRecency
      ensures Counted() && AllTrimmed(old(processes), processes)
      ensures forall o :: o in processes ==> processes[o].retainedBytes <= maxRetainedOutputBytes
    {
      OneTrimmed(processes, id, maxRetainedOutputBytes);
      var dropped := TrimProcess(id, maxRetainedOutputBytes);
    }

    /** `#appendOutput`: the pieces of the event are appended; anyone may then lose output from the front. */
    method AppendOutput(id: nat, stream: Stream, data: seq<byte>)
      returns (ghost received: Managed, ghost chunks: seq<seq<byte>>)
      requires Valid() && id in processes
      modifies this`processes, this`retainedOutputBytes, this`droppedOutputBytes, this`outputRecency
      ensures Valid() && Receives(old(processes)[id], received, stream, data, false, chunks)
      ensures AllTrimmed(old(processes)[id := received], processes)
      ensures Received(received, stream) == Received(old(processes)[id], stream) + data
      ensures forall other :: other != stream ==> Received(received, other) == Received(old(processes)[id], other)
    {
      var p := processes[id];
      var q;
      q, chunks := Receive(p, stream, data, false);
      received := q;
      forall other ensures Received(q, other) == Received(p, other) + if other == stream then data else [] {
        ReceivingAdds(p, q, stream, data, false, chunks, other);
      }
      Store(id, q);
      TrimRetainedOutput(id);
    }

    /** `#storeOutputChunks`, with the counter moved by the difference it makes. */
    method Store(id: nat, q: Managed)
      requires Valid() && id in processes && ManagedOk(q) && q.endedAt == processes[id].endedAt
      requires q.retainedBytes >= processes[id].retainedBytes
      modifies this`processes, this`retainedOutputBytes, this`outputRecency
      ensures Counted() && runningProcesses == |Running(processes)|
      ensures processes == old(processes)[id := q]
      ensures forall o :: o in processes && o != id ==> processes[o].retainedBytes <= maxRetainedOutputBytes
    {
      assert Running(processes[id := q]) == Running(processes);
      Put(id, q, retainedOutputBytes + (q.retainedBytes - processes[id].retainedBytes));
    }

    /** `#finish`: flush, then the process no longer runs. The clamp of the counter never acts. */
    method Finish(id: nat, now: int) returns (ghost flushed: Managed)
      requires Valid() && id in processes
      modifies this`processes, this`retainedOutputBytes, this`droppedOutputBytes, this`outputRecency,
        this`runningProcesses
      ensures Valid()
      ensures old(processes)[id].endedAt.Some? ==> processes == old(processes)
      ensures old(processes)[id].endedAt.None? ==>
        && Flushes(old(processes)[id], flushed)
        && AllTrimmed(old(processes)[id := flushed.(endedAt := Some(now))], processes)
        && runningProcesses == old(runningProcesses) - 1
    {
      flushed := processes[id];
      if processes[id].endedAt.Some? { return; }
      flushed := FlushPendingOutput(id);
      EndingIsTrimmed(old(processes)[id := flushed], processes, id, now);
      SetEnded(id, now);
    }

    /** `#flushPendingOutput`: what was pending is appended; anyone may then lose output from the front. */
    method FlushPendingOutput(id: nat) returns (ghost flushed: Managed)
      requires Valid() && id in processes
      modifies this`processes, this`retainedOutputBytes, this`droppedOutputBytes, this`outputRecency
      ensures Valid() && Flushes(old(processes)[id], flushed)
      ensures AllTrimmed(old(processes)[id := flushed], processes)
    {
      assert ManagedOk(processes[id]);
      var q := FlushStreams(processes[id]);
      flushed := q;
      Store(id, q);
      TrimRetainedOutput(id);
    }

    method SetEnded(id: nat, now: int)
      requires Valid() && id in processes && processes[id].endedAt.None?
      modifies this`processes, this`runningProcesses
      ensures Valid() && processes == old(processes)[id := old(processes)[id].(endedAt := Some(now))]
      ensures runningProcesses == old(runningProcesses) - 1
    {
      assert ManagedOk(processes[id]);
      EndingKeeps(processes, id, now);
      processes := processes[id := processes[id].(endedAt := Some(now))];
      runningProcesses := AtLeastZero(runningProcesses - 1);
    }

    /** `#forget`. */
    method Forget(id: nat)
      requires Valid() && id in processes && processes[id].endedAt.Some?
      modifies this`processes, this`retainedOutputBytes, this`outputRecency
      ensures Valid() && processes == old(processes) - {id}
    {
      TotalRemove(processes, id);
      TotalHas(processes, id);
      assert Running(processes - {id}) == Running(processes);
      retainedOutputBytes := AtLeastZero(retainedOutputBytes - processes[id].retainedBytes);
      outputRecency := Drop(outputRecency, id);
      processes := processes - {id};
    }

    // ------------------------------------------------------------------------------------ capacity

    /** `prune`. */
    method Prune(now: int)
      requires Valid()
      modifies this`processes, this`retainedOutputBytes, this`outputRecency
      ensures Valid() && processes == Unexpired(old(processes), now - processRetentionMs)
      ensures forall id :: id in old(processes) && id !in processes <==>
        && id in old(processes) && old(processes)[id].endedAt.Some?
        && old(processes)[id].endedAt.value < now - processRetentionMs
    {
      ghost var before := processes;
      var todo := processes.Keys;
      while todo != {}
        invariant Valid() && PrunedSoFar(before, processes, todo, now - processRetentionMs)
      {
        var id :| id in todo;
        PruneStep(before, processes, todo, id, now - processRetentionMs);
        if Expired(processes[id], now - processRetentionMs) { Forget(id); }
        todo := todo - {id};
      }
      PruneDone(before, processes, now - processRetentionMs);
    }

    /** `#makeCapacity`: forgets ended processes only, those that ended first, and no more than needed. */
    method MakeCapacity() returns (ok: bool)
      requires Valid()
      modifies this`processes, this`retainedOutputBytes, this`outputRecency
      ensures Valid() && Forgetting(old(processes), processes, maxProcesses)
      ensures if ok then |processes| < maxProcesses else |processes| >= maxProcesses && forall id :: id in processes ==>
        processes[id].endedAt.None?
    {
      ghost var before := processes;
      while |processes| >= maxProcesses
        invariant Valid() && Forgetting(before, processes, maxProcesses)
        decreases |processes|
      {
        var oldest := OldestEnded(processes);
        if oldest.None? { return false; }
        ForgetStep(before, processes, maxProcesses, oldest.value);
        Forget(oldest.value);
      }
      return true;
    }

    /** The bookkeeping of `start`; a fresh session id names no managed process. */
    method Start(id: nat, now: int) returns (ok: bool)
      requires Valid() && id !in processes
      modifies this`processes, this`retainedOutputBytes, this`outputRecency, this`runningProcesses
      ensures Valid() && RunningKept(old(processes), processes)
      ensures ok ==> id in processes && IsNew(processes[id]) && |processes| <= maxProcesses
      ensures ok ==> runningProcesses == old(runningProcesses) + 1 <= maxRunningProcesses
    {
      ok := Reserve(now);
      if !ok { return; }
      ghost var before := processes;
      var p := NewProcess();
      Add(id, p);
    }

    method Reserve(now: int) returns (ok: bool)
      requires Valid()
      modifies this`processes, this`retainedOutputBytes, this`outputRecency
      ensures Valid() && RunningKept(old(processes), processes) && processes.Keys <= old(processes).Keys
      ensures ok ==> |processes| < maxProcesses && runningProcesses < maxRunningProcesses
    {
      ghost var before := processes;
      Prune(now);
      ghost var pruned := processes;
      var capacity := MakeCapacity();
      CapacityKeepsRunning(before, pruned, processes, now - processRetentionMs);
      ok := capacity && runningProcesses < maxRunningProcesses;
    }

    method Add(id: nat, p: Managed)
      requires Valid() && id !in processes && ManagedOk(p) && p.endedAt.None? && p.retainedBytes == 0
      modifies this`processes, this`runningProcesses
      ensures Valid() && processes == old(processes)[id := p] && |processes| == |old(processes)| + 1
      ensures runningProcesses == old(runningProcesses) + 1
    {
      TotalUpdate(processes, id, p);
      OneMoreRunning(processes, id, p);
      processes := processes[id := p];
      runningProcesses := runningProcesses + 1;
    }
  }

  /** No running process is forgotten or changed. */
  predicate RunningKept(before: Processes, after: Processes) {
    forall id :: id in before && before[id].endedAt.None? ==> id in after && after[id] == before[id]
  }

  lemma CapacityKeepsRunning(before: Processes, pruned: Processes, after: Processes, cutoff: int)
    requires pruned == Unexpired(before, cutoff) && ForgottenFirst(pruned, after)
    ensures RunningKept(before, after) && after.Keys <= before.Keys
  {
  }

  predicate Expired(p: Managed, cutoff: int) { p.endedAt.Some? && p.endedAt.value < cutoff }

  function Unexpired(ps: Processes, cutoff: int): Processes {
    map id | id in ps && !Expired(ps[id], cutoff) :: ps[id]
  }

  predicate PrunedSoFar(before: Processes, ps: Processes, todo: set<nat>, cutoff: int) {
    && todo <= ps.Keys <= before.Keys
    && (forall id :: id in ps ==> ps[id] == before[id])
    && (forall id :: id in before && id !in todo ==> (id in ps <==> !Expired(before[id], cutoff)))
  }

  lemma PruneStep(before: Processes, ps: Processes, todo: set<nat>, id: nat, cutoff: int)
    requires PrunedSoFar(before, ps, todo, cutoff) && id in todo
    ensures PrunedSoFar(before, if Expired(ps[id], cutoff) then ps - {id} else ps, todo - {id}, cutoff)
  {
  }

  lemma PruneDone(before: Processes, ps: Processes, cutoff: int)
    requires PrunedSoFar(before, ps, {}, cutoff)
    ensures ps == Unexpired(before, cutoff)
  {
    assert ps.Keys == Unexpired(before, cutoff).Keys;
  }

  /** Whoever is gone had ended, no later than any ended process still there; the rest is unchanged. */
  predicate ForgottenFirst(before: Processes, after: Processes) {
    && (forall id :: id in after ==> id in before && after[id] == before[id])
    && (forall id :: id in before && id !in after ==> before[id].endedAt.Some? && EndedFirst(before[id], after))
  }

  /** And no more is gone than makes room for one. */
  predicate Forgetting(before: Processes, after: Processes, capacity: nat) {
    && ForgottenFirst(before, after)
    && (|before| < capacity ==> after == before)
    && (|after| < |before| ==> |after| >= capacity - 1)
  }

  lemma ForgetStep(before: Processes, ps: Processes, capacity: nat, id: nat)
    requires Forgetting(before, ps, capacity) && |ps| >= capacity
    requires id in ps && ps[id].endedAt.Some? && EndedFirst(ps[id], ps)
    ensures Forgetting(before, ps - {id}, capacity) && |ps - {id}| < |ps|
  {
    assert (ps - {id}).Keys == ps.Keys - {id};
  }

  predicate EndedFirst(p: Managed, ps: Processes)
    requires p.endedAt.Some?
  {
    forall o :: o in ps && ps[o].endedAt.Some? ==> p.endedAt.value <= ps[o].endedAt.value
  }

  method OldestEnded(ps: Processes) returns (r: Option<nat>)
    ensures r.None? ==> forall id :: id in ps ==> ps[id].endedAt.None?
    ensures r.Some? ==> r.value in ps && ps[r.value].endedAt.Some? && EndedFirst(ps[r.value], ps)
  {
    r := None;
    var todo := ps.Keys;
    while todo != {}
      invariant todo <= ps.Keys
      invariant r.None? ==> forall id :: id in ps && id !in todo ==> ps[id].endedAt.None?
      invariant r.Some? ==> r.value in ps && ps[r.value].endedAt.Some?
      invariant r.Some? ==>
        forall o :: o in ps && o !in todo && ps[o].endedAt.Some? ==> ps[r.value].endedAt.value <= ps[o].endedAt.value
    {
      var id :| id in todo;
      if ps[id].endedAt.Some? && (r.None? || ps[id].endedAt.value < ps[r.value].endedAt.value) { r := Some(id); }
      todo := todo - {id};
    }
  }

  lemma OneMoreRunning(ps: Processes, id: nat, p: Managed)
    requires id !in ps && p.endedAt.None?
    ensures |Running(ps[id := p])| == |Running(ps)| + 1 && |ps[id := p]| == |ps| + 1
  {
    assert Running(ps[id := p]) == Running(ps) + {id};
    assert ps[id := p].Keys == ps.Keys + {id};
  }

  predicate NothingPending(p: Managed) {
    Stdout in p.pending && Stderr in p.pending && p.pending[Stdout] == [] && p.pending[Stderr] == []
  }

  /** `#flushPendingOutput` of one process: a stream with nothing pending is skipped. */
  method FlushStreams(p: Managed) returns (q: Managed)
    requires ManagedOk(p)
    ensures ManagedOk(q) && q.retainedBytes >= p.retainedBytes && Flushes(p, q)
  {
    var once := FlushStream(p, Stdout);
    q := FlushStream(once, Stderr);
  }

  method FlushStream(p: Managed, stream: Stream) returns (q: Managed)
    requires ManagedOk(p)
    ensures ManagedOk(q) && q.retainedBytes >= p.retainedBytes
    ensures q == p.(log := q.log, retainedBytes := q.retainedBytes, pending := p.pending[stream := []])
    ensures forall other :: Received(q, other) == Received(p, other)
  {
    if p.pending[stream] == [] { assert p.pending[stream := []] == p.pending; return p; }
    ghost var chunks;
    q, chunks := Receive(p, stream, [], true);
    FinalLeavesNothing(p.pending[stream] + [], chunks, q.pending[stream]);
    forall other
      ensures Received(q, other) == Received(p, other)
    {
      ReceivingAdds(p, q, stream, [], true, chunks, other);
    }
  }

  lemma EndingKeeps(ps: Processes, id: nat, now: int)
    requires id in ps && ps[id].endedAt.None?
    ensures var qs := ps[id := ps[id].(endedAt := Some(now))];
      && Total(qs) == Total(ps) && |Running(qs)| == |Running(ps)| - 1
      && forall o :: o in ps ==> qs[o].retainedBytes == ps[o].retainedBytes
  {
    var qs := ps[id := ps[id].(endedAt := Some(now))];
    TotalUpdate(ps, id, qs[id]);
    OneLessRunning(ps, id, qs[id]);
  }

  lemma OneLessRunning(ps: Processes, id: nat, p: Managed)
    requires id in ps && ps[id].endedAt.None? && p.endedAt.Some?
    ensures |Running(ps[id := p])| == |Running(ps)| - 1
  {
    assert Running(ps[id := p]) == Running(ps) - {id} && id in Running(ps);
  }

  lemma EndingIsTrimmed(ps: Processes, qs: Processes, id: nat, now: int)
    requires AllTrimmed(ps, qs) && id in ps
    ensures AllTrimmed(ps[id := ps[id].(endedAt := Some(now))], qs[id := qs[id].(endedAt := Some(now))])
    ensures qs[id].endedAt == ps[id].endedAt
  {
    assert OnlyTrimmed(ps[id], qs[id]);
  }

  lemma TrimmedKeepRunning(ps: Processes, qs: Processes)
    requires AllTrimmed(ps, qs)
    ensures Running(qs) == Running(ps)
  {
    forall id | id in ps ensures qs[id].endedAt == ps[id].endedAt { assert OnlyTrimmed(ps[id], qs[id]); }
  }

  /** Every process keeps all but a front part of its output. */
  predicate AllTrimmed(ps: Processes, qs: Processes) {
    qs.Keys == ps.Keys && forall id :: id in ps ==> OnlyTrimmed(ps[id], qs[id])
  }

  lemma OneTrimmed(ps: Processes, id: nat, maxBytes: nat)
    requires id in ps && ManagedOk(ps[id])
    ensures AllTrimmed(ps, ps[id := CutTo(ps[id], maxBytes)])
  {
  }

  lemma TrimmedTwice(ps: Processes, qs: Processes, rs: Processes)
    requires AllTrimmed(ps, qs) && AllTrimmed(qs, rs)
    ensures AllTrimmed(ps, rs)
  {
    forall id | id in ps
      ensures OnlyTrimmed(ps[id], rs[id])
    {
      assert OnlyTrimmed(ps[id], qs[id]) && OnlyTrimmed(qs[id], rs[id]);
    }
  }

  /** An empty eviction queue means nothing is retained. */
  lemma SomeoneRetains(ps: Processes, recency: seq<nat>)
    requires (forall id :: id in ps && ps[id].retainedBytes > 0 ==> id in recency)
    ensures recency == [] ==> Total(ps) == 0
  {
    if recency == [] { SumOfZeros(ps, RetainedBy); }
  }

  lemma TotalHas(ps: Processes, id: nat)
    requires id in ps
    ensures ps[id].retainedBytes <= Total(ps)
  {
    SumAround(ps, RetainedBy, id);
  }
}
