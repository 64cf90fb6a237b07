/**
  * The promise-chain locks of src/continuity/task-store.ts (`#serialize`): a ticket for each caller, the
  * promise it waits for, and the map entry that names the last promise of a key.
  */
module TaskLocks {
  import opened Wrappers

  datatype Key = Workspace(id: nat) | Execution(workspaceId: nat, operationId: nat) | Storage

  datatype Phase = Waiting | Running | Done

  /** One call of `serialize`: `prev` is the ticket whose promise it awaits. */
  datatype Ticket = Ticket(key: Key, owner: nat, prev: Option<nat>, phase: Phase)

  /** Tickets in the order they were taken, and the `queues` map. */
  datatype Locks = Locks(tickets: seq<Ticket>, queues: map<Key, nat>)

  /** The promise stored for ticket i has resolved: its operation and all those chained before it are over. */
  predicate Resolved(s: Locks, i: nat)
    decreases i
  {
    && i < |s.tickets| && s.tickets[i].phase == Done
    && (s.tickets[i].prev.Some? ==> s.tickets[i].prev.value < i && Resolved(s, s.tickets[i].prev.value))
  }

  // ------------------------------------------------------------------------------------- lock order

  /** Workspace before execution, executions by operation id, storage last. */
  predicate Before(a: Key, b: Key) {
    match (a, b)
    case (Workspace(_), Execution(_, _)) => true
    case (Execution(_, x), Execution(_, y)) => x < y
    case (Storage, _) => false
    case (_, Storage) => true
    case _ => false
  }

  predicate Open(s: Locks, i: nat) { i < |s.tickets| && s.tickets[i].phase != Done }

  /** The owner may ask for the key: it waits for nothing, and all it holds comes before. */
  predicate MayAsk(s: Locks, owner: nat, key: Key) {
    forall i :: 0 <= i < |s.tickets| && Open(s, i) && s.tickets[i].owner == owner ==>
      s.tickets[i].phase == Running && Before(s.tickets[i].key, key)
  }

  // -------------------------------------------------------------------------------------- the steps

  datatype Event = Ask(owner: nat, key: Key) | Start(ticket: nat) | Finish(ticket: nat)

  predicate CanStart(s: Locks, i: nat) {
    && i < |s.tickets| && s.tickets[i].phase == Waiting
    && (s.tickets[i].prev.Some? ==> Resolved(s, s.tickets[i].prev.value))
  }

  /** The innermost operation of an owner that awaits no lock may end. */
  predicate CanFinish(s: Locks, i: nat) {
    && i < |s.tickets| && s.tickets[i].phase == Running
    && forall j :: 0 <= j < |s.tickets| && Open(s, j) && s.tickets[j].owner == s.tickets[i].owner && j != i ==>
        s.tickets[j].phase == Running && Before(s.tickets[j].key, s.tickets[i].key)
  }

  function Asked(s: Locks, owner: nat, key: Key): Locks {
    Locks(s.tickets + [Ticket(key, owner, if key in s.queues then Some(s.queues[key]) else None, Waiting)],
          s.queues[key := |s.tickets|])
  }

  function WithPhase(s: Locks, i: nat, phase: Phase): seq<Ticket>
    requires i < |s.tickets|
  {
    s.tickets[i := s.tickets[i].(phase := phase)]
  }

  function Finished(s: Locks, i: nat): Locks
    requires i < |s.tickets|
  {
    var key := s.tickets[i].key;
    Locks(WithPhase(s, i, Done), if key in s.queues && s.queues[key] == i then s.queues - {key} else s.queues)
  }

  predicate Next(s: Locks, t: Locks, e: Event) {
    match e
    case Ask(owner, key) => MayAsk(s, owner, key) && t == Asked(s, owner, key)
    case Start(i) => CanStart(s, i) && t == Locks(WithPhase(s, i, Running), s.queues)
    case Finish(i) => CanFinish(s, i) && t == Finished(s, i)
  }

  // --------------------------------------------------------------------------------- the invariant

  predicate SameKey(s: Locks, i: nat, j: nat) {
    i < |s.tickets| && j < |s.tickets| && s.tickets[i].key == s.tickets[j].key
  }

  /** Nobody of this key between the ticket and the one it waits for; nobody open at all if it waits for none. */
  ghost predicate ChainOk(s: Locks, i: nat)
    requires i < |s.tickets|
  {
    match s.tickets[i].prev
    case None => forall j :: 0 <= j < i && SameKey(s, i, j) ==> s.tickets[j].phase == Done
    case Some(p) => p < i && SameKey(s, i, p) && forall j :: p < j < i ==> !SameKey(s, i, j)
  }

  /** Who has started finds every earlier ticket of its key done. */
  ghost predicate InTurn(s: Locks, i: nat)
    requires i < |s.tickets|
  {
    s.tickets[i].phase != Waiting ==> forall j :: 0 <= j < i && SameKey(s, i, j) ==> s.tickets[j].phase == Done
  }

  /** The map names the last ticket of each key; a key it lacks has nobody waiting or running. */
  ghost predicate QueueOk(s: Locks, key: Key) {
    if key in s.queues then
      && s.queues[key] < |s.tickets| && s.tickets[s.queues[key]].key == key
      && forall j :: s.queues[key] < j < |s.tickets| ==> s.tickets[j].key != key
    else forall j :: 0 <= j < |s.tickets| && s.tickets[j].key == key ==> s.tickets[j].phase == Done
  }

  /** The owner of ticket i waits for ticket j. */
  predicate Nested(s: Locks, i: nat, j: nat) {
    && Open(s, i) && Open(s, j) && s.tickets[i].owner == s.tickets[j].owner && s.tickets[j].phase == Waiting
  }

  /** An owner holds its locks in order, and whatever it waits for comes after all of them. */
  ghost predicate Ordered(s: Locks) {
    forall i, j :: 0 <= i < |s.tickets| && 0 <= j < |s.tickets| && i != j && Nested(s, i, j) ==>
      s.tickets[i].phase == Running && Before(s.tickets[i].key, s.tickets[j].key)
  }

  ghost predicate Inv(s: Locks) {
    && (forall i :: 0 <= i < |s.tickets| ==> ChainOk(s, i) && InTurn(s, i))
    && (forall key :: QueueOk(s, key))
    && Ordered(s)
  }

  /** A finished ticket's promise has resolved: everything chained before it is over too. */
  lemma {:induction false} DoneIsResolved(s: Locks, i: nat)
    requires Inv(s) && i < |s.tickets| && s.tickets[i].phase == Done
    ensures Resolved(s, i)
    decreases i
  {
    assert ChainOk(s, i) && InTurn(s, i);
    if s.tickets[i].prev.Some? { DoneIsResolved(s, s.tickets[i].prev.value); }
  }

  lemma AskKeeps(s: Locks, owner: nat, key: Key)
    requires Inv(s) && MayAsk(s, owner, key)
    ensures Inv(Asked(s, owner, key))
  {
    var t := Asked(s, owner, key);
    var n := |s.tickets|;
    assert QueueOk(s, key);
    forall i | 0 <= i < |t.tickets| ensures ChainOk(t, i) && InTurn(t, i) {
      if i < n {
        assert ChainOk(s, i) && InTurn(s, i); assert forall j :: 0 <= j < i ==> SameKey(t, i, j) == SameKey(s, i, j);
      }
    }
    forall other ensures QueueOk(t, other) { assert QueueOk(s, other); }
  }

  lemma StartKeeps(s: Locks, i: nat)
    requires Inv(s) && CanStart(s, i)
    ensures Inv(Locks(WithPhase(s, i, Running), s.queues))
  {
    var t := Locks(WithPhase(s, i, Running), s.queues);
    assert ChainOk(s, i);
    forall j | 0 <= j < i && SameKey(s, i, j) ensures s.tickets[j].phase == Done {
      if s.tickets[i].prev.Some? {
        var p := s.tickets[i].prev.value;
        assert InTurn(s, p) && (j < p ==> SameKey(s, p, j));
      }
    }
    forall m | 0 <= m < |t.tickets| ensures ChainOk(t, m) && InTurn(t, m) {
      assert ChainOk(s, m) && InTurn(s, m);
      assert forall j :: 0 <= j < m ==> SameKey(t, m, j) == SameKey(s, m, j);
    }
    forall key ensures QueueOk(t, key) { assert QueueOk(s, key); }
  }

  lemma FinishKeeps(s: Locks, i: nat)
    requires Inv(s) && CanFinish(s, i)
    ensures Inv(Finished(s, i))
  {
    var t := Finished(s, i);
    assert InTurn(s, i);
    forall m | 0 <= m < |t.tickets| ensures ChainOk(t, m) && InTurn(t, m) {
      assert ChainOk(s, m) && InTurn(s, m);
      assert forall j :: 0 <= j < m ==> SameKey(t, m, j) == SameKey(s, m, j);
    }
    forall key ensures QueueOk(t, key) {
      assert QueueOk(s, key);
      if key == s.tickets[i].key && key !in t.queues {
        forall j | 0 <= j < |t.tickets| && t.tickets[j].key == key ensures t.tickets[j].phase == Done {
          if key in s.queues && j < i { assert SameKey(s, i, j); }
        }
      }
    }
  }

  // ------------------------------------------------------------------------------------- whole runs

  ghost predicate Run(states: seq<Locks>, events: seq<Event>) {
    && |states| == |events| + 1 && states[0] == Locks([], map[])
    && forall i :: 0 <= i < |events| ==> Next(states[i], states[i + 1], events[i])
  }

  lemma {:induction false} Reachable(states: seq<Locks>, events: seq<Event>, n: nat)
    requires Run(states, events) && n < |states|
    ensures Inv(states[n])
  {
    if n > 0 {
      Reachable(states, events, n - 1);
      match events[n - 1]
      case Ask(owner, key) => AskKeeps(states[n - 1], owner, key);
      case Start(i) => StartKeeps(states[n - 1], i);
      case Finish(i) => FinishKeeps(states[n - 1], i);
    }
  }

  /** One operation at a time for each key, in the order the calls were made; and a dropped entry names an idle key. */
  lemma ExclusiveAndInOrder(states: seq<Locks>, events: seq<Event>, n: nat, i: nat, j: nat)
    requires Run(states, events) && n < |states| && i < j < |states[n].tickets| && SameKey(states[n], i, j)
    ensures states[n].tickets[j].phase != Waiting ==> states[n].tickets[i].phase == Done
    ensures states[n].tickets[i].key !in states[n].queues ==>
      states[n].tickets[i].phase == states[n].tickets[j].phase == Done
  {
    Reachable(states, events, n);
    assert InTurn(states[n], j) && QueueOk(states[n], states[n].tickets[i].key);
    if states[n].tickets[j].phase != Waiting { assert SameKey(states[n], j, i); }
  }

  // --------------------------------------------------------------------------- freedom from deadlock

  lemma BeforeIsTransitive(a: Key, b: Key, c: Key)
    requires Before(a, b) && Before(b, c)
    ensures Before(a, c) && !Before(b, a)
  {
  }

  /** Some open ticket has no open ticket of a later key. */
  lemma {:induction false} LastKey(s: Locks, n: nat) returns (best: nat)
    requires n <= |s.tickets| && exists i :: 0 <= i < n && Open(s, i)
    ensures best < n && Open(s, best)
    ensures forall j :: 0 <= j < n && Open(s, j) ==> !Before(s.tickets[best].key, s.tickets[j].key)
  {
    if exists i :: 0 <= i < n - 1 && Open(s, i) {
      best := LastKey(s, n - 1);
      if Open(s, n - 1) && Before(s.tickets[best].key, s.tickets[n - 1].key) {
        forall j | 0 <= j < n && Open(s, j) ensures !Before(s.tickets[n - 1].key, s.tickets[j].key) {
          if Before(s.tickets[n - 1].key, s.tickets[j].key) {
            BeforeIsTransitive(s.tickets[best].key, s.tickets[n - 1].key, s.tickets[j].key);
          }
        }
        best := n - 1;
      }
    } else {
      best := n - 1;
    }
  }

  /** The first open ticket with the same key as i. */
  lemma {:induction false} FirstInLine(s: Locks, i: nat) returns (first: nat)
    requires Open(s, i)
    ensures first <= i && Open(s, first) && SameKey(s, i, first)
    ensures forall j :: 0 <= j < first && SameKey(s, i, j) ==> s.tickets[j].phase == Done
  {
    first := i;
    var j := i;
    while j > 0
      invariant 0 <= j <= first <= i && Open(s, first) && SameKey(s, i, first)
      invariant forall m :: j <= m < first && SameKey(s, i, m) ==> s.tickets[m].phase == Done
    {
      j := j - 1;
      if SameKey(s, i, j) && s.tickets[j].phase != Done { first := j; }
    }
  }

  /** While any call is open, some waiting call can start or some running one awaits no lock. */
  lemma NeverStuck(states: seq<Locks>, events: seq<Event>, n: nat) returns (i: nat)
    requires Run(states, events) && n < |states| && exists j :: 0 <= j < |states[n].tickets| && Open(states[n], j)
    ensures Open(states[n], i)
    ensures CanStart(states[n], i) || (states[n].tickets[i].phase == Running &&
      forall j :: 0 <= j < |states[n].tickets| && states[n].tickets[j].owner == states[n].tickets[i].owner ==>
        states[n].tickets[j].phase != Waiting)
  {
    var s := states[n];
    Reachable(states, events, n);
    var last := LastKey(s, |s.tickets|);
    i := FirstInLine(s, last);
    assert ChainOk(s, i);
    if s.tickets[i].phase == Waiting {
      if s.tickets[i].prev.Some? {
        var p := s.tickets[i].prev.value;
        assert SameKey(s, last, p);
        DoneIsResolved(s, p);
      }
    } else {
      forall j | 0 <= j < |s.tickets| && s.tickets[j].owner == s.tickets[i].owner
        ensures s.tickets[j].phase != Waiting
      {
        if s.tickets[j].phase == Waiting && Nested(s, i, j) { assert false; }
      }
    }
  }

  // -------------------------------------------------------------------------------- the callers' order

  /** withReconciliations takes the execution locks in sorted order. */
  function Insert(id: nat, sorted: seq<nat>): (r: seq<nat>)
    ensures |r| == |sorted| + 1
    ensures forall x :: x in r <==> x == id || x in sorted
  {
    if sorted == [] || id <= sorted[0] then [id] + sorted else [sorted[0]] + Insert(id, sorted[1..])
  }

  function Sort(ids: seq<nat>): (r: seq<nat>)
    ensures |r| == |ids| && forall x :: x in r <==> x in ids
  {
    if ids == [] then [] else Insert(ids[0], Sort(ids[1..]))
  }

  predicate Ascending(ids: seq<nat>) {
    forall i, j :: 0 <= i < j < |ids| ==> ids[i] < ids[j]
  }

  lemma PrependAscends(x: nat, rest: seq<nat>)
    requires Ascending(rest) && forall y :: y in rest ==> x < y
    ensures Ascending([x] + rest)
  {
    var all := [x] + rest;
    forall i, j | 0 <= i < j < |all| ensures all[i] < all[j] {
      assert all[j] == rest[j - 1] && all[j] in rest;
      if i > 0 { assert all[i] == rest[i - 1]; }
    }
  }

  lemma {:induction false} InsertAscends(id: nat, sorted: seq<nat>)
    requires Ascending(sorted) && id !in sorted
    ensures Ascending(Insert(id, sorted))
  {
    if sorted != [] {
      assert sorted[0] in sorted;
      if id < sorted[0] {
        PrependAscends(id, sorted);
      } else {
        InsertAscends(id, sorted[1..]);
        PrependAscends(sorted[0], Insert(id, sorted[1..]));
      }
    }
  }

  lemma {:induction false} SortAscends(ids: seq<nat>)
    requires forall i, j :: 0 <= i < j < |ids| ==> ids[i] != ids[j]
    ensures Ascending(Sort(ids))
  {
    if ids != [] {
      SortAscends(ids[1..]);
      InsertAscends(ids[0], Sort(ids[1..]));
    }
  }

  /** Who takes locks, and for which operations. */
  datatype Caller =
    | Mutating                    // create, complete, and the execution of an approval
    | Updating(ids: seq<nat>)     // the receipts it resolves
    | Preparing(operationId: nat)
    | Marking(operationId: nat)   // running, terminal, failed, degraded
    | Reading

  function Executions(workspaceId: nat, ids: seq<nat>): (r: seq<Key>)
    ensures |r| == |ids| && forall i :: 0 <= i < |r| ==> r[i] == Execution(workspaceId, ids[i])
  {
    seq(|ids|, i requires 0 <= i < |ids| => Execution(workspaceId, ids[i]))
  }

  /** The locks a caller takes, one inside the other; it may take the storage lock inside any of them. */
  function Plan(workspaceId: nat, c: Caller): seq<Key> {
    match c
    case Mutating => [Workspace(workspaceId), Storage]
    case Updating(ids) => [Workspace(workspaceId)] + Executions(workspaceId, Sort(ids)) + [Storage]
    case Preparing(op) => [Workspace(workspaceId), Execution(workspaceId, op), Storage]
    case Marking(op) => [Execution(workspaceId, op), Storage]
    case Reading => [Storage]
  }

  predicate Distinct(ids: seq<nat>) { forall i, j :: 0 <= i < j < |ids| ==> ids[i] != ids[j] }

  predicate Ascends(plan: seq<Key>) { forall i, j :: 0 <= i < j < |plan| ==> Before(plan[i], plan[j]) }

  /** Distinct receipts: every lock of an update comes after all those taken before it. */
  lemma UpdateAsksInOrder(workspaceId: nat, ids: seq<nat>)
    requires Distinct(ids)
    ensures Ascends(Plan(workspaceId, Updating(ids)))
    ensures forall id :: id in ids <==> Execution(workspaceId, id) in Plan(workspaceId, Updating(ids))
  {
    SortAscends(ids);
    var plan := Plan(workspaceId, Updating(ids));
    forall id ensures id in ids <==> Execution(workspaceId, id) in plan {
      if k :| 0 <= k < |Sort(ids)| && Sort(ids)[k] == id { assert plan[k + 1] == Execution(workspaceId, id); }
    }
  }

  /** So does every caller there is: at each point of its plan it may ask for the next lock. */
  lemma EveryCallerMayAsk(s: Locks, owner: nat, workspaceId: nat, c: Caller, k: nat)
    requires c.Updating? ==> Distinct(c.ids)
    requires k < |Plan(workspaceId, c)|
    requires forall i :: 0 <= i < |s.tickets| && Open(s, i) && s.tickets[i].owner == owner ==>
      s.tickets[i].phase == Running && s.tickets[i].key in Plan(workspaceId, c)[..k]
    ensures Ascends(Plan(workspaceId, c)) && MayAsk(s, owner, Plan(workspaceId, c)[k])
  {
    if c.Updating? { UpdateAsksInOrder(workspaceId, c.ids); }
    var plan := Plan(workspaceId, c);
    forall i | 0 <= i < |s.tickets| && Open(s, i) && s.tickets[i].owner == owner
      ensures Before(s.tickets[i].key, plan[k])
    {
      var j :| 0 <= j < k && plan[..k][j] == s.tickets[i].key;
    }
  }
}
