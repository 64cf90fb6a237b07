/** The derived receipt index (src/continuity/execution-index.ts) and the pages read from it. */
module ExecutionIndex {
  import opened Wrappers
  import opened TaskTypes
  import opened StorageSchema
  import opened Ownership

  datatype Locator = Locator(operationId: Uuid, taskId: Uuid, state: ExecutionState, preparedAt: Time)

  function LocatorOf(record: ExecutionRecord): Locator {
    Locator(record.operationId, record.taskId, record.state, record.preparedAt)
  }

  /** Newest first, then by operation. */
  predicate Before(a: Locator, b: Locator) {
    a.preparedAt > b.preparedAt || (a.preparedAt == b.preparedAt && a.operationId < b.operationId)
  }

  predicate Ordered(view: seq<Locator>) {
    forall i, j :: 0 <= i < j < |view| ==> Before(view[i], view[j])
  }

  function Elements<T(==, !new)>(list: seq<T>): (r: set<T>)
    ensures forall x :: x in r <==> x in list
  {
    set x | x in list
  }

  function TaskOperations(receipts: Receipts, taskId: Uuid): set<Uuid> {
    set op | op in receipts && receipts[op].taskId == taskId
  }

  function Locators(receipts: Receipts, taskId: Uuid): set<Locator> {
    set op | op in receipts && receipts[op].taskId == taskId :: LocatorOf(receipts[op])
  }

  class WorkspaceExecutionIndex {
    var byOperation: map<Uuid, Locator>
    var byTask: map<Uuid, set<Uuid>>
    var tasks: set<Uuid>

    constructor ()
      ensures byOperation == map[] && byTask == map[] && tasks == {}
    {
      byOperation, byTask, tasks := map[], map[], {};
    }

    function OperationsOf(taskId: Uuid): set<Uuid>
      reads this
    {
      if taskId in byTask then byTask[taskId] else {}
    }

    /** The index says what one rebuilt from these receipts would say. */
    ghost predicate Agrees(receipts: Receipts)
      reads this
    {
      && byOperation == (map op | op in receipts :: LocatorOf(receipts[op]))
      && forall t :: OperationsOf(t) == TaskOperations(receipts, t)
    }

    method Publish(record: ExecutionRecord, ghost receipts: Receipts)
      requires Agrees(receipts) && KeyedByOperation(receipts)
      modifies this
      ensures Agrees(receipts[record.operationId := record]) && tasks == old(tasks)
    {
      var op := record.operationId;
      if op in byOperation {
        var previous := byOperation[op].taskId;
        if previous in byTask {
          byTask := byTask[previous := byTask[previous] - {op}];
        }
      }
      byOperation := byOperation[op := LocatorOf(record)];
      if record.taskId !in byTask {
        byTask := byTask[record.taskId := {}];
      }
      byTask := byTask[record.taskId := byTask[record.taskId] + {op}];
      ghost var after := receipts[op := record];
      forall t ensures OperationsOf(t) == TaskOperations(after, t) {
        assert old(OperationsOf(t)) == TaskOperations(receipts, t);
        assert OperationsOf(t) == if t == record.taskId then old(OperationsOf(t)) + {op}
          else old(OperationsOf(t)) - {op};
      }
    }

    /** `task(taskId)`: the sorted view. */
    method Task(taskId: Uuid, ghost receipts: Receipts) returns (view: seq<Locator>)
      requires Agrees(receipts) && KeyedByOperation(receipts)
      ensures Ordered(view) && Elements(view) == Locators(receipts, taskId)
      ensures forall i, j :: 0 <= i < j < |view| ==>
        || view[i].preparedAt > view[j].preparedAt
        || (view[i].preparedAt == view[j].preparedAt && view[i].operationId < view[j].operationId)
      ensures forall l :: l in view <==>
        && l.operationId in receipts && receipts[l.operationId].taskId == taskId && l.taskId == taskId
        && l.state == receipts[l.operationId].state && l.preparedAt == receipts[l.operationId].preparedAt
    {
      view := [];
      var todo := OperationsOf(taskId);
      ghost var done: set<Uuid> := {};
      while todo != {}
        invariant todo + done == TaskOperations(receipts, taskId) && todo !! done
        invariant Ordered(view)
        invariant forall l :: l in view ==> l.operationId in done && l == LocatorOf(receipts[l.operationId])
        invariant forall op :: op in done ==> LocatorOf(receipts[op]) in view
      {
        var op :| op in todo;
        var l := byOperation[op];
        assert l == LocatorOf(receipts[op]) && forall k :: 0 <= k < |view| ==> view[k] in view;
        view := Insert(view, l);
        todo, done := todo - {op}, done + {op};
      }
    }
  }

  /** An index rebuilt by publishing every receipt, in any order. */
  method Rebuild(receipts: Receipts, tasks: set<Uuid>) returns (index: WorkspaceExecutionIndex)
    requires KeyedByOperation(receipts)
    ensures fresh(index) && index.Agrees(receipts) && index.tasks == tasks
  {
    index := new WorkspaceExecutionIndex();
    index.tasks := tasks;
    var todo := receipts.Keys;
    ghost var done: Receipts := map[];
    while todo != {}
      invariant todo <= receipts.Keys && done == (map op | op in receipts.Keys - todo :: receipts[op])
      invariant index.Agrees(done) && index.tasks == tasks
    {
      var op :| op in todo;
      index.Publish(receipts[op], done);
      done := done[op := receipts[op]];
      todo := todo - {op};
    }
    assert done == receipts;
  }

  lemma HeadIsFirst(view: seq<Locator>)
    requires Ordered(view) && view != []
    ensures forall l :: l in view[1..] ==> Before(view[0], l)
  {
    forall l | l in view[1..] ensures Before(view[0], l) {
      var k :| 0 <= k < |view| - 1 && view[1..][k] == l;
      assert view[k + 1] == l;
    }
  }

  function Insert(view: seq<Locator>, l: Locator): (r: seq<Locator>)
    requires Ordered(view) && forall k :: 0 <= k < |view| ==> view[k].operationId != l.operationId
    ensures Ordered(r) && forall x :: x in r <==> x in view || x == l
  {
    if view == [] || Before(l, view[0]) then [l] + view
    else
      var rest := Insert(view[1..], l);
      assert view == [view[0]] + view[1..];
      HeadIsFirst(view);
      assert forall k :: 0 <= k < |rest| ==> rest[k] in rest && Before(view[0], rest[k]);
      [view[0]] + rest
  }

  /** There is only one ordered view of a set of locators. */
  lemma OrderedViewIsUnique(a: seq<Locator>, b: seq<Locator>)
    requires Ordered(a) && Ordered(b) && Elements(a) == Elements(b)
    ensures a == b
  {
    forall l ensures l in a <==> l in b {
      assert l in Elements(a) <==> l in Elements(b);
    }
    assert a != [] ==> a[0] in b;
    assert b != [] ==> b[0] in a;
    if a != [] {
      HeadIsFirst(a);
      HeadIsFirst(b);
      assert a == [a[0]] + a[1..] && b == [b[0]] + b[1..];
      assert a[0] == b[0];
      assert forall l :: l in a[1..] ==> l in a && l != a[0] && l in b;
      assert forall l :: l in b[1..] ==> l in b && l != b[0] && l in a;
      OrderedViewIsUnique(a[1..], b[1..]);
    }
  }

  // ------------------------------------------------------------------------------------------- pages

  predicate IsTerminal(l: Locator) { l.state == Exited || l.state == SpawnFailed }

  function Unsettled(view: seq<Locator>): (r: seq<Locator>)
    ensures forall l :: l in r <==> l in view && l.state != Exited && l.state != SpawnFailed
    ensures Ordered(view) ==> Ordered(r)
  {
    if view == [] then []
    else
      var rest := Unsettled(view[1..]);
      assert forall k :: 0 <= k < |rest| ==> rest[k] in rest && rest[k] in view[1..];
      if IsTerminal(view[0]) then rest else [view[0]] + rest
  }

  /** The ids of one page, and the last of them when more are listed. */
  datatype Page = Page(ids: seq<Uuid>, next: Option<Uuid>)

  function Operations(view: seq<Locator>): (ids: seq<Uuid>)
    ensures |ids| == |view| && forall i :: 0 <= i < |view| ==> ids[i] == view[i].operationId
  {
    seq(|view|, i requires 0 <= i < |view| => view[i].operationId)
  }

  /** The page of `size` ids that starts at `offset`. */
  function PageAt(list: seq<Uuid>, offset: nat, size: nat): Page
    requires offset <= |list| && size > 0
  {
    if offset + size < |list| then Page(list[offset..offset + size], Some(list[offset + size - 1]))
    else Page(list[offset..], None)
  }

  /**
    * The listing goes on after the id the cursor names; without a cursor it starts at 0. A page names a
    * next cursor, its own last id, if and only if more is listed, and then it is full.
    */
  ghost predicate IsPage(list: seq<Uuid>, cursor: Option<Uuid>, size: nat, page: Page) {
    exists from: nat :: GoesOnFrom(list, cursor, from) && ShownFrom(list, from, size, page)
  }

  ghost predicate GoesOnFrom(list: seq<Uuid>, cursor: Option<Uuid>, from: nat) {
    if cursor.None? then from == 0 else 0 < from <= |list| && list[from - 1] == cursor.value
  }

  ghost predicate ShownFrom(list: seq<Uuid>, from: nat, size: nat, page: Page) {
    && from + |page.ids| <= |list| && |page.ids| <= size
    && (forall i :: 0 <= i < |page.ids| ==> page.ids[i] == list[from + i])
    && (page.next.None? <==> from + |page.ids| == |list|)
    && (page.next.Some? ==> |page.ids| == size && size > 0 && page.next.value == page.ids[size - 1])
  }

  /** The unsettled half of `executionContext`, for the view `index.task(taskId)`: a stale cursor is refused. */
  method ReadPage(view: seq<Locator>, cursor: Option<Uuid>, size: nat) returns (r: Result<Page, StoreError>)
    requires size > 0
    ensures r.Ok? ==> IsPage(Operations(Unsettled(view)), cursor, size, r.value)
    ensures r.Ok? ==> |r.value.ids| <= size && (r.value.next.Some? ==> |r.value.ids| == size)
    ensures r.Err? <==> cursor.Some? && cursor.value !in Operations(Unsettled(view))
    ensures r.Err? ==> r.error == InvalidInput
  {
    var list := Operations(Unsettled(view));
    if cursor.None? {
      r := Ok(PageAt(list, 0, size));
      assert GoesOnFrom(list, cursor, 0) && ShownFrom(list, 0, size, r.value);
      return;
    }
    var previous := 0;
    while previous < |list| && list[previous] != cursor.value
      invariant 0 <= previous <= |list|
      invariant forall k :: 0 <= k < previous ==> list[k] != cursor.value
    {
      previous := previous + 1;
    }
    if previous == |list| { return Err(InvalidInput); }
    r := Ok(PageAt(list, previous + 1, size));
    assert GoesOnFrom(list, cursor, previous + 1) && ShownFrom(list, previous + 1, size, r.value);
  }

  // ----------------------------------------------------------------------------- walking by nextCursor

  /** When each operation was prepared; a receipt keeps that time for ever. */
  type Times = map<Uuid, Time>

  predicate Earlier(times: Times, a: Uuid, b: Uuid) {
    && a in times && b in times
    && (times[a] > times[b] || (times[a] == times[b] && a < b))
  }

  ghost predicate OrderedBy(times: Times, list: seq<Uuid>) {
    forall i, j :: 0 <= i < j < |list| ==> Earlier(times, list[i], list[j])
  }

  ghost predicate After(times: Times, cursor: Option<Uuid>, id: Uuid) {
    cursor.Some? ==> Earlier(times, cursor.value, id)
  }

  lemma ViewsAreOrdered(view: seq<Locator>, times: Times)
    requires Ordered(view)
    requires forall l :: l in view ==> l.operationId in times && times[l.operationId] == l.preparedAt
    ensures OrderedBy(times, Operations(Unsettled(view)))
  {
    var u := Unsettled(view);
    assert forall k :: 0 <= k < |u| ==> u[k] in u && u[k] in view;
  }

  /**
    * Page i was read from lists[i], the ids then listed as unsettled. From one list to the next receipts
    * may settle and new ones may be prepared; every page but the last named a next cursor.
    */
  ghost predicate Walk(times: Times, cursor: Option<Uuid>, lists: seq<seq<Uuid>>, pages: seq<Page>, size: nat)
    requires size > 0
    decreases |pages|
  {
    && |lists| == |pages|
    && (pages != [] ==>
          && OrderedBy(times, lists[0])
          && IsPage(lists[0], cursor, size, pages[0])
          && (|pages| > 1 ==> pages[0].next.Some?)
          && Walk(times, pages[0].next, lists[1..], pages[1..], size))
  }

  function Returned(pages: seq<Page>): seq<Uuid> {
    if pages == [] then [] else pages[0].ids + Returned(pages[1..])
  }

  lemma OnePage(times: Times, list: seq<Uuid>, cursor: Option<Uuid>, page: Page, size: nat)
    requires size > 0 && OrderedBy(times, list) && IsPage(list, cursor, size, page)
    ensures OrderedBy(times, page.ids)
    ensures forall id :: id in page.ids ==> After(times, cursor, id)
    ensures page.next.Some? ==> page.ids != [] && page.ids[|page.ids| - 1] == page.next.value
    ensures forall id :: id in list && After(times, cursor, id) ==>
      id in page.ids || (page.next.Some? && After(times, page.next, id))
  {
    var from: nat :| GoesOnFrom(list, cursor, from) && ShownFrom(list, from, size, page);
    forall i | 0 <= i < |page.ids|
      ensures page.ids[i] == list[from + i] && After(times, cursor, page.ids[i])
    {
    }
    forall k | 0 <= k < |list| && After(times, cursor, list[k])
      ensures list[k] in page.ids || (page.next.Some? && After(times, page.next, list[k]))
    {
      if from <= k < from + |page.ids| {
        assert page.ids[k - from] == list[k];
      }
    }
  }

  /** Pages concatenate in listing order, so no receipt is returned twice. */
  lemma {:induction false} WalkReturnsNothingTwice(times: Times, cursor: Option<Uuid>, lists: seq<seq<Uuid>>,
                                                   pages: seq<Page>, size: nat)
    requires size > 0 && Walk(times, cursor, lists, pages, size)
    ensures OrderedBy(times, Returned(pages))
    ensures forall id :: id in Returned(pages) ==> After(times, cursor, id)
    ensures forall i, j :: 0 <= i < j < |Returned(pages)| ==> Returned(pages)[i] != Returned(pages)[j]
    decreases |pages|
  {
    if pages != [] {
      var page, rest := pages[0], Returned(pages[1..]);
      OnePage(times, lists[0], cursor, page, size);
      WalkReturnsNothingTwice(times, page.next, lists[1..], pages[1..], size);
      if pages[1..] != [] {
        Concatenate(times, cursor, page.ids, rest);
      }
    }
  }

  lemma Concatenate(times: Times, cursor: Option<Uuid>, ids: seq<Uuid>, rest: seq<Uuid>)
    requires ids != [] && OrderedBy(times, ids) && OrderedBy(times, rest)
    requires forall id :: id in ids ==> After(times, cursor, id)
    requires forall id :: id in rest ==> Earlier(times, ids[|ids| - 1], id)
    ensures OrderedBy(times, ids + rest)
    ensures forall id :: id in ids + rest ==> After(times, cursor, id)
  {
    var last := ids[|ids| - 1];
    assert last in ids;
    forall i, j | 0 <= i < j < |ids + rest|
      ensures Earlier(times, (ids + rest)[i], (ids + rest)[j])
    {
      if i < |ids| <= j {
        assert rest[j - |ids|] in rest;
      }
    }
  }

  /** A finished walk returned every receipt that was listed as unsettled each time. */
  lemma {:induction false} WalkReturnsWhatStays(times: Times, cursor: Option<Uuid>, lists: seq<seq<Uuid>>,
                                                pages: seq<Page>, size: nat, id: Uuid)
    requires size > 0 && Walk(times, cursor, lists, pages, size)
    requires pages != [] && pages[|pages| - 1].next.None?
    requires forall n :: 0 <= n < |lists| ==> id in lists[n]
    requires After(times, cursor, id)
    ensures id in Returned(pages)
    decreases |pages|
  {
    OnePage(times, lists[0], cursor, pages[0], size);
    if id !in pages[0].ids {
      WalkReturnsWhatStays(times, pages[0].next, lists[1..], pages[1..], size, id);
    }
  }
}
