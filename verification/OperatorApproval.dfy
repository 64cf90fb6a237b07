/**
  * The approval ledger and its life cycle (src/operator-approval.ts, src/operator-approval-store.ts).
  *
  * One mutation of the ledger is one atomic step, because the store queues them; calls interleave between
  * mutations. A write of the ledger that fails leaves the disk with either content, and disables the store
  * until a restart has read the disk and written it again.
  */
module OperatorApproval {
  import opened Wrappers

  datatype Status = Pending | Approved | Denied | Executing | Succeeded | Unknown

  datatype Approval = Approval(
    owner: nat, requestId: nat, inputDigest: nat, taskId: nat, workspaceId: nat, cwd: string,
    status: Status, expiresAt: int, approvalRef: Option<nat>, operationId: Option<nat>, sessionId: Option<nat>)

  /** The records, by approval id. */
  type Ledger = map<nat, Approval>

  datatype ApprovalError =
    | PersistenceUnavailable | NotFound | NotPending | AlreadyConsumed | ApprovalRequired
    | UnresolvedExecution | IdempotencyConflict | StorageFull

  const MAX_RECORDS: nat := 1000

  predicate Expired(r: Approval, now: int) { r.expiresAt <= now }

  predicate Unresolved(r: Approval) { r.status == Executing || r.status == Unknown }

  predicate SamePlace(a: Approval, b: Approval) { a.workspaceId == b.workspaceId || a.cwd == b.cwd }

  // -------------------------------------------------------------------------------- the mutations

  /** What a mutation makes of the ledger; an error leaves it alone. */
  datatype Mutation = Refused(error: ApprovalError) | Keep | Replace(ledger: Ledger)

  function FindRequest(ledger: Ledger, owner: nat, requestId: nat): set<nat> {
    set id | id in ledger && ledger[id].owner == owner && ledger[id].requestId == requestId
  }

  function Requested(ledger: Ledger, id: nat, r: Approval): Mutation {
    var raced := FindRequest(ledger, r.owner, r.requestId);
    if exists other :: other in raced && ledger[other].inputDigest != r.inputDigest then Refused(IdempotencyConflict)
    else if raced != {} then Keep
    else if |ledger| >= MAX_RECORDS then Refused(StorageFull)
    else Replace(ledger[id := r.(status := Pending, approvalRef := None, operationId := None, sessionId := None)])
  }

  function Decided(ledger: Ledger, id: nat, approve: bool, reference: nat, now: int): Mutation {
    if id !in ledger then Refused(NotFound)
    else
      var r := ledger[id];
      if r.status == (if approve then Approved else Denied) then Keep
      else if r.status != Pending || Expired(r, now) then Refused(NotPending)
      else
        Replace(ledger[id := if approve then r.(status := Approved, approvalRef := Some(reference))
                             else r.(status := Denied)])
  }

  /** The reservation of `executeLocked`: everything is checked again inside the mutation. */
  function Reserved(ledger: Ledger, id: nat, owner: nat, operationId: nat, now: int): Mutation {
    if id !in ledger || ledger[id].owner != owner then Refused(NotFound)
    else
      var r := ledger[id];
      if r.operationId.Some? then (if r.operationId.value == operationId then Keep else Refused(AlreadyConsumed))
      else if r.status != Approved || Expired(r, now) || r.approvalRef.None? then Refused(ApprovalRequired)
      else if exists other :: other in ledger && other != id && SamePlace(ledger[other], r) && Unresolved(ledger[other])
        then Refused(UnresolvedExecution)
      else if exists other :: other in ledger && ledger[other].operationId == Some(operationId)
        then Refused(IdempotencyConflict)
      else Replace(ledger[id := r.(status := Executing, operationId := Some(operationId))])
  }

  /** What a restart makes of the ledger it reads: interrupted executions are unknown. */
  function Interrupted(ledger: Ledger): Ledger {
    map id | id in ledger :: if ledger[id].status == Executing then ledger[id].(status := Unknown) else ledger[id]
  }

  // ------------------------------------------------------------------- what each request has to lead to

  /** What was asked for, by whom and where. */
  predicate SameRequest(r: Approval, q: Approval) {
    && q.owner == r.owner && q.requestId == r.requestId && q.inputDigest == r.inputDigest
    && q.taskId == r.taskId && q.workspaceId == r.workspaceId && q.cwd == r.cwd && q.expiresAt == r.expiresAt
  }

  predicate OnlyChanges(before: Ledger, after: Ledger, id: nat) {
    after.Keys == before.Keys + {id} && forall other :: other in before && other != id ==> after[other] == before[other]
  }

  predicate AskedBefore(ledger: Ledger, id: nat, r: Approval) {
    id in ledger && ledger[id].owner == r.owner && ledger[id].requestId == r.requestId
  }

  predicate IsFirstAsk(ledger: Ledger, r: Approval) { forall id :: id in ledger ==> !AskedBefore(ledger, id, r) }

  /** A first request is recorded as asked; a repeated one needs the same input, and changes nothing. */
  ghost predicate AskLeadsTo(before: Ledger, id: nat, r: Approval, e: Option<ApprovalError>, after: Ledger) {
    match e
    case None =>
      if IsFirstAsk(before, r) then
        && OnlyChanges(before, after, id) && id !in before && SameRequest(r, after[id]) && |before| < 1000
        && after[id].status == Pending && after[id].approvalRef.None?
        && after[id].operationId.None? && after[id].sessionId.None?
      else
        && after == before
        && forall other :: AskedBefore(before, other, r) ==> before[other].inputDigest == r.inputDigest
    case Some(PersistenceUnavailable) => after == before
    case Some(IdempotencyConflict) =>
      after == before && exists other :: AskedBefore(before, other, r) && before[other].inputDigest != r.inputDigest
    case Some(StorageFull) => after == before && IsFirstAsk(before, r) && |before| >= 1000
    case Some(_) => false
  }

  /** A pending request that has not expired is decided; the same decision again changes nothing. */
  predicate DecisionLeadsTo(before: Ledger, id: nat, approve: bool, reference: nat, now: int,
                            e: Option<ApprovalError>, after: Ledger) {
    match e
    case None =>
      && id in before && id in after
      && (approve ==> after[id].status == Approved) && (!approve ==> after[id].status == Denied)
      && if before[id].status == after[id].status then after == before
         else
           && before[id].status == Pending && now < before[id].expiresAt
           && OnlyChanges(before, after, id) && SameRequest(before[id], after[id])
           && (approve ==> after[id].approvalRef == Some(reference))
           && (!approve ==> after[id].approvalRef == before[id].approvalRef)
           && after[id].operationId == before[id].operationId && after[id].sessionId == before[id].sessionId
    case Some(PersistenceUnavailable) => after == before
    case Some(NotFound) => after == before && id !in before
    case Some(NotPending) =>
      && after == before && id in before && before[id].status != (if approve then Approved else Denied)
      && (before[id].status != Pending || before[id].expiresAt <= now)
    case Some(_) => false
  }

  /** Another execution at the same workspace or directory runs, or nobody knows how it ended. */
  predicate InTheWay(ledger: Ledger, id: nat, other: nat) {
    && id in ledger && other in ledger && other != id
    && (ledger[other].workspaceId == ledger[id].workspaceId || ledger[other].cwd == ledger[id].cwd)
    && (ledger[other].status == Executing || ledger[other].status == Unknown)
  }

  predicate Uses(ledger: Ledger, other: nat, operationId: nat) {
    other in ledger && ledger[other].operationId == Some(operationId)
  }

  /** The owner's approval is used for this operation, once, if nothing is in the way. */
  ghost predicate ReservationLeadsTo(before: Ledger, id: nat, owner: nat, operationId: nat, now: int,
                                     e: Option<ApprovalError>, start: bool, after: Ledger) {
    && (e.Some? ==> !start && after == before)
    && (e != Some(PersistenceUnavailable) && e != Some(NotFound) ==> id in before && before[id].owner == owner)
    && match e
       case None =>
         if start then
           && before[id].operationId.None? && before[id].status == Approved && now < before[id].expiresAt
           && before[id].approvalRef.Some? && (forall other :: !InTheWay(before, id, other))
           && (forall other :: !Uses(before, other, operationId))
           && OnlyChanges(before, after, id) && SameRequest(before[id], after[id])
           && after[id].status == Executing && after[id].operationId == Some(operationId)
           && after[id].approvalRef == before[id].approvalRef && after[id].sessionId == before[id].sessionId
         else after == before && before[id].operationId == Some(operationId)
       case Some(PersistenceUnavailable) => true
       case Some(NotFound) => id !in before || before[id].owner != owner
       case Some(AlreadyConsumed) => before[id].operationId.Some? && before[id].operationId != Some(operationId)
       case Some(ApprovalRequired) =>
         && before[id].operationId.None?
         && (before[id].status != Approved || before[id].expiresAt <= now || before[id].approvalRef.None?)
       case Some(UnresolvedExecution) => exists other :: InTheWay(before, id, other)
       case Some(IdempotencyConflict) => exists other :: Uses(before, other, operationId)
       case Some(_) => false
  }

  /** What was executing when the ledger was last written is unknown now; nothing else changed. */
  predicate ReopensAs(before: Ledger, after: Ledger) {
    && after.Keys == before.Keys
    && forall id :: id in before ==>
         && SameRequest(before[id], after[id]) && after[id].approvalRef == before[id].approvalRef
         && after[id].operationId == before[id].operationId && after[id].sessionId == before[id].sessionId
         && (before[id].status == Executing ==> after[id].status == Unknown)
         && (before[id].status != Executing ==> after[id].status == before[id].status)
  }

  lemma AskSays(ledger: Ledger, id: nat, r: Approval)
    requires id !in ledger
    ensures AskLeadsTo(ledger, id, r, Some(PersistenceUnavailable), ledger)
    ensures match Requested(ledger, id, r)
      case Refused(e) => AskLeadsTo(ledger, id, r, Some(e), ledger)
      case Keep => AskLeadsTo(ledger, id, r, None, ledger)
      case Replace(next) => AskLeadsTo(ledger, id, r, None, next)
  {
    assert forall other :: AskedBefore(ledger, other, r) <==> other in FindRequest(ledger, r.owner, r.requestId);
  }

  lemma ReservationSays(ledger: Ledger, id: nat, owner: nat, operationId: nat, now: int)
    ensures ReservationLeadsTo(ledger, id, owner, operationId, now, Some(PersistenceUnavailable), false, ledger)
    ensures match Reserved(ledger, id, owner, operationId, now)
      case Refused(e) => ReservationLeadsTo(ledger, id, owner, operationId, now, Some(e), false, ledger)
      case Keep => ReservationLeadsTo(ledger, id, owner, operationId, now, None, false, ledger)
      case Replace(next) => ReservationLeadsTo(ledger, id, owner, operationId, now, None, true, next)
  {
    var m := Reserved(ledger, id, owner, operationId, now);
    if m == Refused(UnresolvedExecution) {
      var other :| other in ledger && other != id && SamePlace(ledger[other], ledger[id]) && Unresolved(ledger[other]);
      assert InTheWay(ledger, id, other);
    }
    if m == Refused(IdempotencyConflict) {
      var other :| other in ledger && ledger[other].operationId == Some(operationId);
      assert Uses(ledger, other, operationId);
    }
  }

  // ------------------------------------------------------------------------------------- invariants

  /** An approval has an operation exactly when it has been reserved, and only an approved one was. */
  predicate RecordOk(r: Approval) {
    && (r.operationId.Some? <==> r.status == Executing || r.status == Succeeded || r.status == Unknown)
    && (r.operationId.Some? || r.status == Approved ==> r.approvalRef.Some?)
    && (r.status == Pending ==> r.approvalRef.None?)
  }

  /** No operation id is shared; at one place, at most one execution is under way or uncertain. */
  predicate Apart(a: Approval, b: Approval) {
    && (a.operationId.Some? ==> a.operationId != b.operationId)
    && (SamePlace(a, b) ==> !(Unresolved(a) && Unresolved(b)))
  }

  /** Every approval that was ever started is marked as used. */
  predicate LedgerOk(ledger: Ledger, started: set<nat>) {
    && (forall id :: id in ledger ==> RecordOk(ledger[id]))
    && (forall a, b :: a in ledger && b in ledger && a != b ==> Apart(ledger[a], ledger[b]))
    && (forall id :: id in started ==> id in ledger && ledger[id].operationId.Some?)
  }

  predicate Final(status: Status) { status == Denied || status == Succeeded || status == Unknown }

  /** From one ledger to a later one: owners, inputs, approvals and operations stay, and a final status is final. */
  predicate Follows(before: Ledger, after: Ledger) {
    forall id :: id in before ==> id in after && RecordFollows(before[id], after[id])
  }

  predicate RecordFollows(r: Approval, q: Approval) {
    && q.owner == r.owner && q.requestId == r.requestId && q.inputDigest == r.inputDigest
    && q.taskId == r.taskId && q.workspaceId == r.workspaceId && q.cwd == r.cwd && q.expiresAt == r.expiresAt
    && (r.approvalRef.Some? ==> q.approvalRef == r.approvalRef)
    && (r.operationId.Some? ==> q.operationId == r.operationId)
    && (Final(r.status) ==> q.status == r.status)
  }

  predicate Rooted(before: set<Ledger>, l: Ledger) {
    exists d :: d in before && Follows(d, l)
  }

  /** Each of these ledgers follows one of those. */
  predicate AllFollow(before: set<Ledger>, after: set<Ledger>) {
    forall l {:trigger Rooted(before, l)} :: l in after ==> Rooted(before, l)
  }

  lemma FollowsTwice(a: Ledger, b: Ledger, c: Ledger)
    requires Follows(a, b) && Follows(b, c)
    ensures Follows(a, c)
  {
  }

  /** One write, or none: `next` may have reached the disk, and is all there is if the write succeeded. */
  predicate Stepped(before: set<Ledger>, records: Ledger, next: Ledger, after: set<Ledger>) {
    after == before || (before == {records} && Follows(records, next) && (after == {next} || after == {records, next}))
  }

  lemma StepFollows(disk: set<Ledger>, before: set<Ledger>, records: Ledger, next: Ledger, after: set<Ledger>)
    requires AllFollow(disk, before) && Stepped(before, records, next, after)
    ensures AllFollow(disk, after)
  {
    if after != before {
      assert records in before && Rooted(disk, records);
      var d :| d in disk && Follows(d, records);
      FollowsTwice(d, records, next);
      forall l | l in after ensures Rooted(disk, l) { assert l == records || l == next; }
    }
  }

  lemma RestartFollows(disk: set<Ledger>, before: set<Ledger>, shown: Ledger, after: set<Ledger>)
    requires AllFollow(disk, before) && shown in before && Follows(shown, Interrupted(shown))
    requires after == {Interrupted(shown)} || after == before + {Interrupted(shown)}
    ensures AllFollow(disk, after)
  {
    assert Rooted(disk, shown);
    var d :| d in disk && Follows(d, shown);
    FollowsTwice(d, shown, Interrupted(shown));
  }

  lemma RequestedOk(ledger: Ledger, started: set<nat>, id: nat, r: Approval)
    requires LedgerOk(ledger, started) && id !in ledger && Requested(ledger, id, r).Replace?
    ensures LedgerOk(Requested(ledger, id, r).ledger, started) && Follows(ledger, Requested(ledger, id, r).ledger)
  {
  }

  lemma DecidedOk(ledger: Ledger, started: set<nat>, id: nat, approve: bool, reference: nat, now: int)
    requires LedgerOk(ledger, started) && Decided(ledger, id, approve, reference, now).Replace?
    ensures LedgerOk(Decided(ledger, id, approve, reference, now).ledger, started)
    ensures Follows(ledger, Decided(ledger, id, approve, reference, now).ledger)
  {
    var next := Decided(ledger, id, approve, reference, now).ledger;
    forall a, b | a in next && b in next && a != b
      ensures Apart(next[a], next[b])
    {
      assert Apart(ledger[a], ledger[b]);
    }
  }

  lemma ReservedOk(ledger: Ledger, started: set<nat>, id: nat, owner: nat, operationId: nat, now: int)
    requires LedgerOk(ledger, started) && Reserved(ledger, id, owner, operationId, now).Replace?
    ensures LedgerOk(Reserved(ledger, id, owner, operationId, now).ledger, started + {id}) && id !in started
    ensures Follows(ledger, Reserved(ledger, id, owner, operationId, now).ledger)
  {
    var next := Reserved(ledger, id, owner, operationId, now).ledger;
    forall a, b | a in next && b in next && a != b
      ensures Apart(next[a], next[b])
    {
      assert Apart(ledger[a], ledger[b]);
    }
  }

  /** The end of an execution, a session id, an uncertain start: the operation stays reserved. */
  lemma UsedStaysOk(ledger: Ledger, started: set<nat>, id: nat, r: Approval)
    requires LedgerOk(ledger, started) && id in ledger && ledger[id].operationId.Some?
    requires r.status == ledger[id].status
      || (ledger[id].status == Executing && (r.status == Succeeded || r.status == Unknown))
    requires r == ledger[id].(status := r.status, sessionId := r.sessionId)
    ensures LedgerOk(ledger[id := r], started) && Follows(ledger, ledger[id := r])
  {
    var next := ledger[id := r];
    forall a, b | a in next && b in next && a != b
      ensures Apart(next[a], next[b])
    {
      assert Apart(ledger[a], ledger[b]);
    }
  }

  lemma InterruptedOk(ledger: Ledger, started: set<nat>)
    requires LedgerOk(ledger, started)
    ensures LedgerOk(Interrupted(ledger), started) && Follows(ledger, Interrupted(ledger))
  {
    var next := Interrupted(ledger);
    forall a, b | a in next && b in next && a != b
      ensures Apart(next[a], next[b])
    {
      assert Apart(ledger[a], ledger[b]);
    }
  }

  // ---------------------------------------------------------------------------- what a mutation leaves

  /** One instance and its disk. */
  datatype Memory = Memory(
    records: Ledger, initialized: bool, broken: bool, possible: set<Ledger>, starting: set<nat>, live: set<nat>,
    started: set<nat>)

  /** The ledger was sent to the disk; it can only be uncertain whether it got there if writing may fail. */
  predicate Sends(a: Memory, next: Ledger, works: bool, e: Option<ApprovalError>, b: Memory) {
    if e.None? then b == a.(records := next, possible := {next})
    else !works && e == Some(PersistenceUnavailable) && b == a.(broken := true, possible := a.possible + {next})
  }

  /** A mutation that finds what it wants already there may leave it at that or write it again. */
  predicate Attempts(a: Memory, m: Mutation, works: bool, e: Option<ApprovalError>, b: Memory) {
    if !a.initialized || a.broken then e == Some(PersistenceUnavailable) && b == a
    else
      match m
      case Refused(error) => e == Some(error) && b == a
      case Keep => (e.None? && b == a) || Sends(a, a.records, works, e, b)
      case Replace(next) => Sends(a, next, works, e, b)
  }

  /** A reservation that was written starts the process. */
  predicate Starts(a: Memory, id: nat, m: Mutation, works: bool, e: Option<ApprovalError>, start: bool, b: Memory) {
    var reserved := if start then b.(started := a.started, live := a.live, starting := a.starting) else b;
    && Attempts(a, m, works, e, reserved) && (start <==> m.Replace? && e.None?)
    && (start ==> b.started == a.started + {id} && b.live == a.live + {id} && b.starting == a.starting + {id})
  }

  /** The end of a start or of a process: noted in the ledger if this instance still can. */
  predicate Notes(a: Memory, id: nat, r: Approval, works: bool, ok: bool, b: Memory) {
    Attempts(a, Replace(a.records[id := r]), works, if ok then None else Some(PersistenceUnavailable), b)
  }

  // ---------------------------------------------------------------------------------- the service

  class OperatorApprovals {
    var records: Ledger
    var initialized: bool
    var broken: bool
    /** The disk: every content the next restart may find. */
    var possible: set<Ledger>
    /** Approvals whose start has not returned, and those whose process has not been reported ended. */
    var starting: set<nat>
    var live: set<nat>
    /** Approvals whose process was ever started, by any instance; and the ledger last sent to the disk. */
    ghost var started: set<nat>
    ghost var sent: Ledger
    /** While this holds, writing the ledger does not fail. */
    var works: bool

    ghost function Now(): Memory
      reads this
    {
      Memory(records, initialized, broken, possible, starting, live, started)
    }

    ghost predicate Valid()
      reads this
    {
      && (forall l :: l in possible ==> LedgerOk(l, started))
      && live <= started && starting <= started && possible != {}
      && (Available() ==> possible == {records} && forall id :: id in live ==> records[id].status == Executing)
    }

    predicate Available()
      reads this
    {
      initialized && !broken
    }

    /** A process that has not read the ledger yet. */
    constructor (possible: set<Ledger>, ghost started: set<nat>)
      requires possible != {} && forall l :: l in possible ==> LedgerOk(l, started)
      ensures Valid() && !initialized && !broken && live == {}
      ensures this.possible == possible && this.started == started && works
      ensures Now() == Memory(map[], false, false, possible, {}, {}, started)
    {
      records, initialized, broken, this.possible, this.started := map[], false, false, possible, started;
      starting, live, sent, works := {}, {}, map[], true;
    }

    /** `initialize`, on the ledger the disk shows: interrupted executions become unknown, and that is written. */
    method Initialize(shown: Ledger) returns (ok: bool)
      requires Valid() && !initialized && !broken && live == {} && shown in possible
      modifies this
      ensures Valid() && started == old(started) && live == {} && Follows(shown, Interrupted(shown))
      ensures if ok then Available() && records == Interrupted(shown) && possible == {records}
        else !Available() && possible == old(possible) + {Interrupted(shown)}
      ensures ok ==> ReopensAs(shown, records)
      ensures old(works) ==> ok
      ensures Now() == if ok then old(Now()).(records := Interrupted(shown), initialized := true,
        possible := {Interrupted(shown)})
                       else old(Now()).(possible := old(possible) + {Interrupted(shown)})
    {
      InterruptedOk(shown, started);
      ok := *;
      ok := ok || works;
      if ok {
        records, initialized := Interrupted(shown), true;
        possible := {records};
      } else {
        possible := possible + {Interrupted(shown)};
      }
    }

    /** The end of `mutate`: an uncertain write disables this instance. */
    method Persist(next: Ledger) returns (ok: bool)
      requires Valid() && Available() && LedgerOk(next, started) && Follows(records, next)
      requires forall id :: id in live ==> id in next && next[id].status == Executing
      modifies this`records, this`broken, this`possible, this`sent
      ensures Valid() && sent == next && Stepped(old(possible), old(records), sent, possible)
      ensures if ok then Available() && records == next else !Available() && possible == old(possible) + {next}
      ensures Sends(old(Now()), next, works, if ok then None else Some(PersistenceUnavailable), Now())
    {
      ok, sent := *, next;
      ok := ok || works;
      if ok {
        records := next;
        possible := {next};
      } else {
        broken := true;
        possible := possible + {next};
      }
    }

    /** `request`, once the target is bound; `id` is a new UUID. */
    method Request(id: nat, r: Approval) returns (e: Option<ApprovalError>)
      requires Valid() && forall l :: l in possible ==> id !in l
      modifies this
      ensures Valid() && started == old(started) && live == old(live)
      ensures Stepped(old(possible), old(records), sent, possible)
      ensures e.None? ==>
        Available() && FindRequest(records, r.owner, r.requestId) != {} && Follows(old(records), records)
      ensures e.None? ==>
        forall other :: other in FindRequest(old(records), r.owner, r.requestId) ==>
          records == old(records) && old(records)[other].inputDigest == r.inputDigest
      ensures old(Available()) ==> AskLeadsTo(old(records), id, r, e, records)
      ensures Attempts(old(Now()), Requested(old(records), id, r), old(works), e, Now())
    {
      hide AskLeadsTo;
      if !Available() { return Some(PersistenceUnavailable); }
      AskSays(records, id, r);
      var next := records;
      match Requested(records, id, r) {
        case Refused(error) => return Some(error);
        case Keep =>
          var foundAtOnce: bool := *;  // before the mutation, or only inside it
          if foundAtOnce { return None; }
        case Replace(ledger) =>
          RequestedOk(records, started, id, r);
          next := ledger;
          assert id in FindRequest(next, r.owner, r.requestId);
      }
      var ok := Persist(next);
      return if ok then None else Some(PersistenceUnavailable);
    }

    /** `decide`. */
    method Decide(id: nat, approve: bool, reference: nat, now: int) returns (e: Option<ApprovalError>)
      requires Valid()
      modifies this
      ensures Valid() && started == old(started) && live == old(live)
      ensures Stepped(old(possible), old(records), sent, possible)
      ensures e.None? ==>
        && Available() && id in records && records[id].status == (if approve then Approved else Denied)
        && Follows(old(records), records)
      ensures e.None? && records != old(records) ==>
        id in old(records) && old(records)[id].status == Pending && !Expired(old(records)[id], now)
      ensures old(Available()) ==> DecisionLeadsTo(old(records), id, approve, reference, now, e, records)
      ensures Attempts(old(Now()), Decided(old(records), id, approve, reference, now), old(works), e, Now())
    {
      if !Available() { return Some(PersistenceUnavailable); }
      var next := records;
      match Decided(records, id, approve, reference, now) {
        case Refused(error) => return Some(error);
        case Keep =>
        case Replace(ledger) =>
          DecidedOk(records, started, id, approve, reference, now);
          next := ledger;
      }
      var ok := Persist(next);
      return if ok then None else Some(PersistenceUnavailable);
    }

    /**
      * `executeLocked` up to the process start. A start is granted at most once for each approval, ever, and
      * only to an approved one that has not expired, with no other execution unresolved at its place.
      */
    method Reserve(id: nat, owner: nat, operationId: nat, now: int) returns (e: Option<ApprovalError>, start: bool)
      requires Valid()
      modifies this
      ensures Valid() && Stepped(old(possible), old(records), sent, possible)
      ensures start ==> e.None? && id !in old(started) && started == old(started) + {id} && live == old(live) + {id}
      ensures start ==>
        && id in old(records) && old(records)[id].owner == owner && old(records)[id].status == Approved
        && !Expired(old(records)[id], now)
      ensures start ==>
        forall other :: other in old(records) && other != id && SamePlace(old(records)[other], old(records)[id]) ==>
          !Unresolved(old(records)[other])
      ensures start ==>
        Available() && id in records && records[id].operationId == Some(operationId) && Follows(old(records), records)
      ensures !start ==> started == old(started) && live == old(live)
      ensures e.None? && !start ==>
        Available() && id in records && records[id].operationId == Some(operationId) && records == old(records)
      ensures old(Available()) ==> ReservationLeadsTo(old(records), id, owner, operationId, now, e, start, records)
      ensures Starts(old(Now()), id, Reserved(old(records), id, owner, operationId, now), old(works), e, start, Now())
    {
      hide ReservationLeadsTo;
      start := false;
      if !Available() { return Some(PersistenceUnavailable), false; }
      ReservationSays(records, id, owner, operationId, now);
      match Reserved(records, id, owner, operationId, now) {
        case Refused(error) => return Some(error), false;
        case Keep =>
          var foundAtOnce: bool := *;
          if foundAtOnce { return None, false; }
          var kept := Persist(records);
          return if kept then None else Some(PersistenceUnavailable), false;
        case Replace(next) =>
          ReservedOk(records, started, id, owner, operationId, now);
          start := Consume(id, next);
          return if start then None else Some(PersistenceUnavailable), start;
      }
    }

    /** The reservation is written, and only then may the process be started. */
    method Consume(id: nat, next: Ledger) returns (ok: bool)
      requires Valid() && Available() && id !in started && id in next && next[id].status == Executing
      requires LedgerOk(next, started + {id}) && Follows(records, next)
      requires forall o :: o in records && o != id ==> next[o] == records[o]
      modifies this
      ensures Valid() && Stepped(old(possible), old(records), sent, possible)
      ensures if ok then Available() && records == next && started == old(started) + {id} && live == old(live) + {id}
              else started == old(started) && live == old(live) && records == old(records)
      ensures Starts(old(Now()), id, Replace(next), old(works), if ok then None else Some(PersistenceUnavailable), ok,
                     Now())
    {
      WithoutStarted(next, started, id);
      ok := Persist(next);
      if ok { started, live, starting := started + {id}, live + {id}, starting + {id}; }
    }

    /** The start returned a session id; the process may have ended before this is noted. */
    method NoteSession(id: nat, sessionId: nat) returns (ok: bool)
      requires Valid() && id in starting
      modifies this
      ensures Valid() && started == old(started) && live == old(live)
      ensures Stepped(old(possible), old(records), sent, possible)
      ensures old(Available()) ==> id in old(records) && Notes(old(Now()).(starting := old(starting) - {id}), id,
        old(records)[id].(sessionId := Some(sessionId)), old(works), ok, Now())
      ensures !old(Available()) ==> !ok && Now() == old(Now()).(starting := old(starting) - {id})
    {
      starting := starting - {id};
      if !Available() { return false; }
      assert records in possible;
      UsedStaysOk(records, started, id, records[id].(sessionId := Some(sessionId)));
      ok := Persist(records[id := records[id].(sessionId := Some(sessionId))]);
    }

    /** The start threw: the approval is used up, and its outcome uncertain. */
    method FailStart(id: nat) returns (ok: bool)
      requires Valid() && id in starting && id in live
      modifies this
      ensures Valid() && started == old(started) && live == old(live) - {id}
      ensures Stepped(old(possible), old(records), sent, possible)
      ensures old(Available()) ==>
        id in old(records) && Notes(old(Now()).(starting := old(starting) - {id}, live := old(live) - {id}), id,
        old(records)[id].(status := Unknown), old(works), ok, Now())
      ensures !old(Available()) ==>
        !ok && Now() == old(Now()).(starting := old(starting) - {id}, live := old(live) - {id})
    {
      starting, live := starting - {id}, live - {id};
      if !Available() { return false; }
      UsedStaysOk(records, started, id, records[id].(status := Unknown));
      ok := Persist(records[id := records[id].(status := Unknown)]);
    }

    /** `finish`, once for each process this instance waits for. */
    method Finish(id: nat, succeeded: bool, sessionId: nat) returns (ok: bool)
      requires Valid() && id in live
      modifies this
      ensures Valid() && started == old(started) && live == old(live) - {id}
      ensures Stepped(old(possible), old(records), sent, possible)
      ensures old(Available()) ==> id in old(records) && Notes(old(Now()).(live := old(live) - {id}), id,
        old(records)[id].(status := if succeeded then Succeeded else Unknown, sessionId := Some(sessionId)), old(works),
          ok, Now())
      ensures !old(Available()) ==> !ok && Now() == old(Now()).(live := old(live) - {id})
    {
      live := live - {id};
      if !Available() { return false; }
      var next := records[id].(status := if succeeded then Succeeded else Unknown, sessionId := Some(sessionId));
      UsedStaysOk(records, started, id, next);
      ok := Persist(records[id := next]);
    }
  }

  lemma WithoutStarted(ledger: Ledger, started: set<nat>, id: nat)
    requires LedgerOk(ledger, started + {id})
    ensures LedgerOk(ledger, started)
  {
  }

  // ------------------------------------------------------------------------------------ any run

  datatype Request =
    | Ask(id: nat, r: Approval)
    | Decision(id: nat, approve: bool, reference: nat, now: int)
    | Execute(id: nat, owner: nat, operationId: nat, now: int)
    | StartReturned(id: nat, sessionId: nat)
    | StartThrew(id: nat)
    | ProcessEnded(id: nat, succeeded: bool, sessionId: nat)
    | InstanceRestart

  /** A request, and whether the ledger can be written while it is served. */
  datatype Event = Event(request: Request, works: bool)

  /** `Void` answers what this instance does not wait for, and an id that is not new. */
  datatype Response = Reply(error: Option<ApprovalError>) | Executed(outcome: Option<ApprovalError>,
                                                                     start: bool) | Noted(ok: bool) | Void

  function SessionNoted(a: Memory, id: nat, sessionId: nat): Approval
    requires id in a.records
  {
    a.records[id].(sessionId := Some(sessionId))
  }

  function Ended(a: Memory, id: nat, succeeded: bool, sessionId: nat): Approval
    requires id in a.records
  {
    a.records[id].(status := if succeeded then Succeeded else Unknown, sessionId := Some(sessionId))
  }

  /** What became of the records of an instance that heard about one of its starts or processes. */
  predicate Hears(a: Memory, id: nat, r: Option<Approval>, works: bool, ok: bool, b: Memory) {
    if a.initialized && !a.broken then r.Some? && Notes(a, id, r.value, works, ok, b) else !ok && b == a
  }

  predicate Reopens(a: Memory, shown: Ledger, works: bool, b: Memory) {
    && shown in a.possible
    && (b == Memory(Interrupted(shown), true, false, {Interrupted(shown)}, {}, {}, a.started)
        || (!works && b == Memory(map[], false, false, a.possible + {Interrupted(shown)}, {}, {}, a.started)))
  }

  ghost predicate Does(a: Memory, q: Request, works: bool, r: Response, b: Memory) {
    match q
    case Ask(id, record) =>
      if exists l :: l in a.possible && id in l then r == Void && b == a
      else r.Reply? && Attempts(a, Requested(a.records, id, record), works, r.error, b)
    case Decision(id, approve, reference, now) =>
      r.Reply? && Attempts(a, Decided(a.records, id, approve, reference, now), works, r.error, b)
    case Execute(id, owner, operationId, now) =>
      r.Executed? && Starts(a, id, Reserved(a.records, id, owner, operationId, now), works, r.outcome, r.start, b)
    case StartReturned(id, sessionId) =>
      if id !in a.starting then r == Void && b == a
      else r.Noted? && Hears(a.(starting := a.starting - {id}), id,
                             if id in a.records then Some(SessionNoted(a, id, sessionId)) else None, works, r.ok, b)
    case StartThrew(id) =>
      if id !in a.starting || id !in a.live then r == Void && b == a
      else r.Noted? && Hears(a.(starting := a.starting - {id}, live := a.live - {id}), id,
                             if id in a.records then Some(a.records[id].(status := Unknown)) else None, works, r.ok, b)
    case ProcessEnded(id, succeeded, sessionId) =>
      if id !in a.live then r == Void && b == a
      else r.Noted? && Hears(a.(live := a.live - {id}), id,
                             if id in a.records then Some(Ended(a, id, succeeded, sessionId)) else None, works, r.ok, b)
    case InstanceRestart => r.Noted? && r.ok == b.initialized && exists shown :: Reopens(a, shown, works, b)
  }

  ghost predicate Sound(m: Memory) {
    && m.possible != {} && (forall l :: l in m.possible ==> LedgerOk(l, m.started))
    && (m.initialized && !m.broken ==> m.possible == {m.records})
  }

  ghost predicate Happens(a: Memory, e: Event, r: Response, b: Memory) {
    Sound(b) && AllFollow(a.possible, b.possible) && a.started <= b.started && Does(a, e.request, e.works, r, b)
      && (r.Executed? && r.start ==> e.request.Execute? && e.request.id !in a.started && e.request.id in b.started)
  }

  ghost predicate Chain(events: seq<Event>, responses: seq<Response>, instants: seq<Memory>) {
    && |responses| == |events| && |instants| == |events| + 1
    && forall i :: 0 <= i < |events| ==> Happens(instants[i], events[i], responses[i], instants[i + 1])
  }

  lemma Unchanged(ledgers: set<Ledger>)
    ensures AllFollow(ledgers, ledgers)
  {
    assert forall l :: l in ledgers ==> Follows(l, l);
  }

  method Handle(service: OperatorApprovals, e: Event) returns (r: Response)
    requires service.Valid() && !e.request.InstanceRestart?
    modifies service
    ensures service.Valid() && Stepped(old(service.possible), old(service.records), service.sent, service.possible)
    ensures Does(old(service.Now()), e.request, e.works, r, service.Now()) && old(service.started) <= service.started
    ensures r.Executed? && r.start ==>
      e.request.Execute? && e.request.id !in old(service.started) && e.request.id in service.started
  {
    hide LedgerOk, Requested, Decided, Reserved, Follows, Sends;
    service.works := e.works;
    r := Void;
    match e.request
    case Ask(id, record) =>
      if forall l :: l in service.possible ==> id !in l {
        var error := service.Request(id, record);
        r := Reply(error);
      }
    case Decision(id, approve, reference, now) =>
      var error := service.Decide(id, approve, reference, now);
      r := Reply(error);
    case Execute(id, owner, operationId, now) =>
      var error, start := service.Reserve(id, owner, operationId, now);
      r := Executed(error, start);
    case StartReturned(id, sessionId) =>
      if id in service.starting {
        var ok := service.NoteSession(id, sessionId);
        r := Noted(ok);
      }
    case StartThrew(id) =>
      if id in service.starting && id in service.live {
        var ok := service.FailStart(id);
        r := Noted(ok);
      }
    case ProcessEnded(id, succeeded, sessionId) =>
      if id in service.live {
        var ok := service.Finish(id, succeeded, sessionId);
        r := Noted(ok);
      }
  }

  /** The next instance on the same disk. */
  method Reopen(last: OperatorApprovals, works: bool) returns (service: OperatorApprovals, ok: bool)
    requires last.Valid()
    ensures fresh(service) && service.Valid() && ok == service.initialized
    ensures AllFollow(last.possible, service.possible) && service.started == last.started
    ensures exists shown :: Reopens(last.Now(), shown, works, service.Now())
  {
    var shown :| shown in last.possible;
    service := new OperatorApprovals(last.possible, last.started);
    service.works := works;
    ok := service.Initialize(shown);
    Unchanged(last.possible);
    RestartFollows(last.possible, last.possible, shown, service.possible);
    assert Reopens(last.Now(), shown, works, service.Now());
  }

  method Serve(service: OperatorApprovals, e: Event) returns (next: OperatorApprovals, r: Response)
    requires service.Valid()
    modifies service
    ensures next.Valid() && (next == service || fresh(next)) && Happens(old(service.Now()), e, r, next.Now())
  {
    if e.request.InstanceRestart? {
      var ok;
      next, ok := Reopen(service, e.works);
      r := Noted(ok);
    } else {
      next := service;
      Unchanged(service.possible);
      r := Handle(service, e);
      StepFollows(old(service.possible), old(service.possible), old(service.records), service.sent, service.possible);
    }
  }

  /** Any run, with failed writes and restarts anywhere. What follows is proved of the responses it gives. */
  method Run(disk: set<Ledger>, events: seq<Event>, ghost before: set<nat>)
    returns (responses: seq<Response>, ghost instants: seq<Memory>)
    requires disk != {} && forall l :: l in disk ==> LedgerOk(l, before)
    ensures Chain(events, responses, instants)
    ensures instants[0] == Memory(map[], false, false, disk, {}, {}, before)
  {
    hide Happens;
    var service := new OperatorApprovals(disk, before);
    responses, instants := [], [service.Now()];
    for n := 0 to |events|
      invariant service.Valid() && fresh(service)
      invariant Chain(events[..n], responses, instants) && instants[n] == service.Now()
      invariant instants[0] == Memory(map[], false, false, disk, {}, {}, before)
    {
      var r;
      service, r := Serve(service, events[n]);
      assert events[..n + 1] == events[..n] + [events[n]];
      responses, instants := responses + [r], instants + [service.Now()];
    }
    assert events[..|events|] == events;
  }

  // -------------------------------------------------------------------------- what holds of every run

  /**
    * Whatever ledger the disk comes out with later marks every started approval as used, shares no operation
    * id, has at most one unresolved execution at each place, and follows a ledger there could be before.
    */
  lemma {:induction false} LaterLedgersFollow(events: seq<Event>, responses: seq<Response>, instants: seq<Memory>,
                                              i: nat, j: nat)
    requires Chain(events, responses, instants) && i <= j <= |events| && Sound(instants[i])
    ensures Sound(instants[j]) && instants[i].started <= instants[j].started
    ensures AllFollow(instants[i].possible, instants[j].possible)
  {
    hide Does;
    if i == j {
      Unchanged(instants[i].possible);
    } else {
      LaterLedgersFollow(events, responses, instants, i, j - 1);
      assert Happens(instants[j - 1], events[j - 1], responses[j - 1], instants[j]);
      FollowingIsTransitive(instants[i].possible, instants[j - 1].possible, instants[j].possible);
    }
  }

  lemma FollowingIsTransitive(a: set<Ledger>, b: set<Ledger>, c: set<Ledger>)
    requires AllFollow(a, b) && AllFollow(b, c)
    ensures AllFollow(a, c)
  {
    forall l | l in c ensures Rooted(a, l) {
      assert Rooted(b, l);
      var d :| d in b && Follows(d, l);
      assert Rooted(a, d);
      var x :| x in a && Follows(x, d);
      FollowsTwice(x, d, l);
    }
  }

  /** The process of this approval was started in answer to this event. */
  predicate StartsIn(e: Event, r: Response,
                     id: nat) { e.request.Execute? && e.request.id == id && r.Executed? && r.start }

  /** Over any run each approval is started at most once. */
  lemma StartedOnce(events: seq<Event>, responses: seq<Response>, instants: seq<Memory>, i: nat, j: nat, id: nat)
    requires Chain(events, responses, instants) && Sound(instants[0]) && i < |events| && j < |events|
    requires StartsIn(events[i], responses[i], id) && StartsIn(events[j], responses[j], id)
    ensures i == j
  {
    hide Does;
    if i != j {
      var x, y := if i < j then i else j, if i < j then j else i;
      LaterLedgersFollow(events, responses, instants, 0, x + 1);
      LaterLedgersFollow(events, responses, instants, x + 1, y);
      StartIsNew(instants[x], events[x], responses[x], instants[x + 1], id);
      StartIsNew(instants[y], events[y], responses[y], instants[y + 1], id);
    }
  }

  lemma StartIsNew(a: Memory, e: Event, r: Response, b: Memory, id: nat)
    requires Happens(a, e, r, b) && StartsIn(e, r, id)
    ensures id !in a.started && id in b.started
  {
  }

  /** What a start was given for: an approval of its owner, granted and unexpired, with its place free, on every
      outcome of the disk. */
  lemma StartWasApproved(events: seq<Event>, responses: seq<Response>, instants: seq<Memory>, i: nat, id: nat)
    requires Chain(events, responses, instants) && i < |events| && StartsIn(events[i], responses[i], id)
    ensures var a, q := instants[i].records, events[i].request;
      && id in a && a[id].owner == q.owner && a[id].status == Approved && a[id].approvalRef.Some?
         && !Expired(a[id], q.now)
      && (forall other :: other in a && other != id && SamePlace(a[other], a[id]) ==> !Unresolved(a[other]))
    ensures forall l: Ledger :: l in instants[i + 1].possible ==>
      id in l && l[id].operationId == Some(events[i].request.operationId)
  {
    assert Happens(instants[i], events[i], responses[i], instants[i + 1]);
  }

  /** The event was a request, and it was answered. */
  predicate AskAnswered(e: Event, r: Response) { e.request.Ask? && r == Reply(None) }

  /** The ledger has this request, and only with this input. */
  ghost predicate HasAsk(l: Ledger, r: Approval) {
    && (exists id :: AskedBefore(l, id, r))
    && forall id :: AskedBefore(l, id, r) ==> l[id].inputDigest == r.inputDigest
  }

  /** So has every ledger the disk can come out with. */
  ghost predicate KeepsAsk(m: Memory, r: Approval) { forall l :: l in m.possible ==> HasAsk(l, r) }

  lemma AnsweredLeadsTo(a: Memory, e: Event, r: Response, b: Memory)
    requires Does(a, e.request, e.works, r, b) && AskAnswered(e, r) && Sound(a)
    ensures b.possible == {b.records} && AskLeadsTo(a.records, e.request.id, e.request.r, None, b.records)
  {
    hide LedgerOk, AskLeadsTo, Requested;
    assert a.possible == {a.records} && e.request.id !in a.records;
    AskSays(a.records, e.request.id, e.request.r);
  }

  lemma LedToHasAsk(before: Ledger, id: nat, r: Approval, after: Ledger)
    requires AskLeadsTo(before, id, r, None, after)
    ensures HasAsk(after, r)
  {
    if IsFirstAsk(before, r) {
      assert AskedBefore(after, id, r);
      assert forall other :: other in before ==> !AskedBefore(before, other, r);
    }
  }

  lemma AnsweredAskIsThere(a: Memory, e: Event, r: Response, b: Memory)
    requires Does(a, e.request, e.works, r, b) && Sound(a) && AskAnswered(e, r)
    ensures KeepsAsk(b, e.request.r)
  {
    hide Does, HasAsk, AskLeadsTo, LedgerOk;
    AnsweredLeadsTo(a, e, r, b);
    LedToHasAsk(a.records, e.request.id, e.request.r, b.records);
  }

  /** Whoever asked is still there, and there is no new request like this one. */
  predicate Carries(l: Ledger, next: Ledger, r: Approval) {
    && (forall id :: id in l ==> id in next && SameRequest(l[id], next[id]))
    && forall id :: id in next && id !in l ==> !AskedBefore(next, id, r)
  }

  lemma CarriedAsk(l: Ledger, next: Ledger, r: Approval)
    requires HasAsk(l, r) && Carries(l, next, r)
    ensures HasAsk(next, r)
  {
    var id :| AskedBefore(l, id, r);
    assert AskedBefore(next, id, r);
    forall other | AskedBefore(next, other, r) ensures next[other].inputDigest == r.inputDigest {
      assert AskedBefore(l, other, r);
    }
  }

  lemma RequestedCarries(l: Ledger, id: nat, record: Approval, r: Approval)
    requires HasAsk(l, r) && id !in l && Requested(l, id, record).Replace?
    ensures Carries(l, Requested(l, id, record).ledger, r)
  {
    var first :| AskedBefore(l, first, r);
    assert FindRequest(l, record.owner, record.requestId) == {};
    assert first !in FindRequest(l, record.owner, record.requestId);
  }

  lemma AttemptKeepsAsk(a: Memory, m: Mutation, works: bool, e: Option<ApprovalError>, b: Memory, r: Approval)
    requires Attempts(a, m, works, e, b) && Sound(a) && KeepsAsk(a, r)
    requires a.initialized && !a.broken && m.Replace? ==> Carries(a.records, m.ledger, r)
    ensures KeepsAsk(b, r)
  {
    hide HasAsk, Carries, LedgerOk;
    if a.initialized && !a.broken {
      assert a.records in a.possible;
      if m.Replace? { CarriedAsk(a.records, m.ledger, r); }
    }
  }

  lemma ReopenKeepsAsk(a: Memory, shown: Ledger, works: bool, b: Memory, r: Approval)
    requires Reopens(a, shown, works, b) && KeepsAsk(a, r)
    ensures KeepsAsk(b, r)
  {
    CarriedAsk(shown, Interrupted(shown), r);
  }

  lemma HearingKeepsAsk(a: Memory, id: nat, record: Option<Approval>, works: bool, ok: bool, b: Memory, r: Approval)
    requires Hears(a, id, record, works, ok, b) && Sound(a) && KeepsAsk(a, r) && (record.Some? ==> id in a.records)
    requires record.Some? ==> AllowedNote(a.records[id], record.value)
    ensures KeepsAsk(b, r)
  {
    hide HasAsk, LedgerOk, KeepsAsk, Sends;
    if a.initialized && !a.broken {
      assert Carries(a.records, a.records[id := record.value], r);
      AttemptKeepsAsk(a, Replace(a.records[id := record.value]), works,
                      if ok then None else Some(PersistenceUnavailable), b, r);
    }
  }

  /** A note of an execution leaves the request as it is. */
  predicate AllowedNote(r: Approval, q: Approval) { q == r.(status := q.status, sessionId := q.sessionId) }

  lemma AskStays(a: Memory, e: Event, r: Response, b: Memory, asked: Approval)
    requires Happens(a, e, r, b) && Sound(a) && KeepsAsk(a, asked)
    ensures KeepsAsk(b, asked)
  {
    hide HasAsk, LedgerOk, Carries, Attempts, Hears, Reserved, Decided, Requested, KeepsAsk, AllFollow, Sound, Reopens;
    match e.request
    case Ask(id, record) => AskingKeepsAsk(a, e, r, b, asked);
    case Decision(id, approve, reference, now) =>
      DecidedCarries(a.records, id, approve, reference, now, asked);
      AttemptKeepsAsk(a, Decided(a.records, id, approve, reference, now), e.works, r.error, b, asked);
    case Execute(id, owner, operationId, now) => ReservingKeepsAsk(a, e, r, b, asked);
    case StartReturned(id, sessionId) =>
      if id in a.starting {
        SameDisk(a, a.(starting := a.starting - {id}), asked);
        HearingKeepsAsk(a.(starting := a.starting - {id}), id,
                        if id in a.records then Some(SessionNoted(a, id, sessionId)) else None, e.works, r.ok, b,
                        asked);
      }
    case StartThrew(id) =>
      if id in a.starting && id in a.live {
        SameDisk(a, a.(starting := a.starting - {id}, live := a.live - {id}), asked);
        HearingKeepsAsk(a.(starting := a.starting - {id}, live := a.live - {id}), id,
                        if id in a.records then Some(a.records[id].(status := Unknown)) else None, e.works, r.ok, b,
                        asked);
      }
    case ProcessEnded(id, succeeded, sessionId) =>
      if id in a.live {
        SameDisk(a, a.(live := a.live - {id}), asked);
        HearingKeepsAsk(a.(live := a.live - {id}), id,
                        if id in a.records then Some(Ended(a, id, succeeded, sessionId)) else None, e.works, r.ok, b,
                        asked);
      }
    case InstanceRestart =>
      var shown :| Reopens(a, shown, e.works, b);
      ReopenKeepsAsk(a, shown, e.works, b, asked);
  }

  lemma SameDisk(a: Memory, b: Memory, r: Approval)
    requires b == a.(starting := b.starting, live := b.live)
    ensures Sound(a) ==> Sound(b)
    ensures KeepsAsk(a, r) ==> KeepsAsk(b, r)
  {
  }

  lemma DecidedCarries(l: Ledger, id: nat, approve: bool, reference: nat, now: int, r: Approval)
    ensures Decided(l, id, approve, reference, now).Replace? ==>
      Carries(l, Decided(l, id, approve, reference, now).ledger, r)
  {
  }

  lemma AskingKeepsAsk(a: Memory, e: Event, r: Response, b: Memory, asked: Approval)
    requires Happens(a, e, r, b) && e.request.Ask? && Sound(a) && KeepsAsk(a, asked)
    ensures KeepsAsk(b, asked)
  {
    hide HasAsk, LedgerOk, Carries, Attempts, Requested, AllFollow;
    if r.Reply? {
      var m := Requested(a.records, e.request.id, e.request.r);
      if a.initialized && !a.broken && m.Replace? {
        assert a.records in a.possible;
        RequestedCarries(a.records, e.request.id, e.request.r, asked);
      }
      AttemptKeepsAsk(a, m, e.works, r.error, b, asked);
    }
  }

  lemma ReservingKeepsAsk(a: Memory, e: Event, r: Response, b: Memory, asked: Approval)
    requires Happens(a, e, r, b) && e.request.Execute? && Sound(a) && KeepsAsk(a, asked)
    ensures KeepsAsk(b, asked)
  {
    hide HasAsk, LedgerOk, Attempts, AllFollow, KeepsAsk;
    var q := e.request;
    var m := Reserved(a.records, q.id, q.owner, q.operationId, q.now);
    var reserved := if r.start then b.(started := a.started, live := a.live, starting := a.starting) else b;
    AttemptKeepsAsk(a, m, e.works, r.outcome, reserved, asked);
    assert reserved.possible == b.possible;
    assert KeepsAsk(reserved, asked) ==> KeepsAsk(b, asked) by { SamePossible(reserved, b, asked); }
  }

  lemma SamePossible(a: Memory, b: Memory, r: Approval)
    requires a.possible == b.possible
    ensures KeepsAsk(a, r) <==> KeepsAsk(b, r)
  {
  }

  lemma StepDoes(events: seq<Event>, responses: seq<Response>, instants: seq<Memory>, i: nat)
    requires Chain(events, responses, instants) && i < |events|
    ensures Does(instants[i], events[i].request, events[i].works, responses[i], instants[i + 1])
  {
    hide Does, Sound, AllFollow;
    assert Happens(instants[i], events[i], responses[i], instants[i + 1]);
  }

  /** An answered request is in every ledger the disk can come out with, for the rest of the run. */
  lemma {:induction false} AskIsKept(events: seq<Event>, responses: seq<Response>, instants: seq<Memory>, i: nat,
                                     j: nat)
    requires Chain(events, responses, instants) && Sound(instants[0]) && i < j <= |events|
    requires AskAnswered(events[i], responses[i])
    ensures KeepsAsk(instants[j], events[i].request.r)
  {
    hide Happens, Does, KeepsAsk;
    LaterLedgersFollow(events, responses, instants, 0, j - 1);
    if j == i + 1 {
      StepDoes(events, responses, instants, i);
      AnsweredAskIsThere(instants[i], events[i], responses[i], instants[j]);
    } else {
      AskIsKept(events, responses, instants, i, j - 1);
      AskStays(instants[j - 1], events[j - 1], responses[j - 1], instants[j], events[i].request.r);
    }
  }

  /**
    * Over any run: once a request was answered, the same request is never refused as a conflict, and none with
    * the same id and another input is ever answered without an error.
    */
  lemma SameAskSameAnswer(events: seq<Event>, responses: seq<Response>, instants: seq<Memory>, i: nat, j: nat)
    requires Chain(events, responses, instants) && Sound(instants[0]) && i < j < |events|
    requires AskAnswered(events[i], responses[i]) && events[j].request.Ask?
    requires events[j].request.r.owner == events[i].request.r.owner
    requires events[j].request.r.requestId == events[i].request.r.requestId
    ensures events[j].request.r.inputDigest == events[i].request.r.inputDigest ==>
      responses[j] != Reply(Some(IdempotencyConflict))
    ensures events[j].request.r.inputDigest != events[i].request.r.inputDigest ==> responses[j] != Reply(None)
  {
    hide Follows;
    AskIsKept(events, responses, instants, i, j);
    LaterLedgersFollow(events, responses, instants, 0, j);
    JudgedByInput(instants[j], events[j], responses[j], instants[j + 1], events[i].request.r);
  }

  lemma JudgedByInput(a: Memory, e: Event, r: Response, b: Memory, asked: Approval)
    requires Happens(a, e, r, b) && Sound(a) && KeepsAsk(a, asked) && e.request.Ask?
    requires e.request.r.owner == asked.owner && e.request.r.requestId == asked.requestId
    ensures e.request.r.inputDigest == asked.inputDigest ==> r != Reply(Some(IdempotencyConflict))
    ensures e.request.r.inputDigest != asked.inputDigest ==> r != Reply(None)
  {
    var id, record := e.request.id, e.request.r;
    if r.Reply? && a.initialized && !a.broken {
      assert a.possible == {a.records} && HasAsk(a.records, asked);
      var first :| AskedBefore(a.records, first, asked);
      assert first in FindRequest(a.records, record.owner, record.requestId);
      forall other | other in FindRequest(a.records, record.owner, record.requestId)
        ensures a.records[other].inputDigest == asked.inputDigest
      {
        assert AskedBefore(a.records, other, asked);
      }
    }
  }
}
