/**
  * Paging through the unsettled executions of a task (`executionContext` of src/continuity/task-store.ts)
  * while its receipts are prepared and settled.
  */
module Paging {
  import opened Wrappers
  import opened TaskTypes
  import opened StorageSchema
  import opened Ownership
  import opened ExecutionIndex
  import opened ExecutionRecorder

  /** One receipt is published: the first of an operation, or a later version of it. */
  predicate Publishes(before: Receipts, record: ExecutionRecord, after: Receipts) {
    && after == before[record.operationId := record]
    && (record.operationId in before ==> Later(before[record.operationId], record))
  }

  /** What a version keeps of an earlier one: owner, time, and the final states. */
  predicate Later(a: ExecutionRecord, b: ExecutionRecord) {
    && b.operationId == a.operationId && b.taskId == a.taskId && b.preparedAt == a.preparedAt
    && (Final(a.state) ==> b.state == a.state)
  }

  lemma EvolvedIsLater(a: ExecutionRecord, b: ExecutionRecord)
    requires Evolves(a, b)
    ensures Later(a, b)
  {
  }

  /** The receipts as they were indexed, one publication after the other. */
  ghost predicate History(hist: seq<Receipts>) {
    && |hist| > 0 && KeyedByOperation(hist[0])
    && forall n :: 0 <= n < |hist| - 1 ==> Published(hist[n], hist[n + 1])
  }

  ghost predicate Published(before: Receipts, after: Receipts) { exists record :: Publishes(before, record, after) }

  lemma {:induction false} VersionsGrowLater(hist: seq<Receipts>, i: nat, j: nat, op: Uuid)
    requires History(hist) && i <= j < |hist| && op in hist[i]
    ensures op in hist[j] && Later(hist[i][op], hist[j][op]) && hist[j][op].operationId == op
  {
    if i < j {
      VersionsGrowLater(hist, i, j - 1, op);
      assert Published(hist[j - 1], hist[j]);
    } else if j > 0 && op in hist[j - 1] {
      VersionsGrowLater(hist, j - 1, j - 1, op);
      assert Published(hist[j - 1], hist[j]);
    } else if j > 0 {
      assert Published(hist[j - 1], hist[j]);
    }
  }

  /** A reader that follows nextCursor: page i was read from the view that `task` gave at time at[i]. */
  ghost predicate Browses(hist: seq<Receipts>, taskId: Uuid, at: seq<nat>, views: seq<seq<Locator>>, pages: seq<Page>,
                          size: nat)
    requires size > 0
  {
    && |at| == |views| == |pages|
    && (forall i, j :: 0 <= i < j < |at| ==> at[i] <= at[j])
    && forall i :: 0 <= i < |at| ==>
       at[i] < |hist| && PageReadFrom(hist[at[i]], taskId, views[i], CursorOf(pages, i), pages[i], size)
  }

  ghost predicate PageReadFrom(receipts: Receipts, taskId: Uuid, view: seq<Locator>, cursor: Option<Uuid>, page: Page,
                               size: nat)
    requires size > 0
  {
    Ordered(view) && Elements(view) == Locators(receipts, taskId)
      && IsPage(Operations(Unsettled(view)), cursor, size, page)
  }

  /** The first page is read without a cursor, every other from where the one before it ended. */
  function CursorOf(pages: seq<Page>, i: nat): Option<Uuid>
    requires i <= |pages|
  {
    if i == 0 then None else pages[i - 1].next
  }

  /** Every page but the last says where to go on. */
  predicate GoesOn(pages: seq<Page>) {
    forall i :: 0 <= i < |pages| - 1 ==> pages[i].next.Some?
  }

  function TimesIn(receipts: Receipts): Times { map op | op in receipts :: receipts[op].preparedAt }

  ghost function ListsOf(views: seq<seq<Locator>>): (r: seq<seq<Uuid>>)
    ensures |r| == |views| && forall i :: 0 <= i < |r| ==> r[i] == Operations(Unsettled(views[i]))
  {
    seq(|views|, i requires 0 <= i < |views| => Operations(Unsettled(views[i])))
  }

  lemma ListIsOrdered(hist: seq<Receipts>, taskId: Uuid, n: nat, view: seq<Locator>)
    requires History(hist) && n < |hist| && Ordered(view) && Elements(view) == Locators(hist[n], taskId)
    ensures OrderedBy(TimesIn(hist[|hist| - 1]), Operations(Unsettled(view)))
  {
    var times := TimesIn(hist[|hist| - 1]);
    forall l | l in view ensures l.operationId in times && times[l.operationId] == l.preparedAt {
      assert l in Elements(view);
      var op :| op in hist[n] && hist[n][op].taskId == taskId && l == LocatorOf(hist[n][op]);
      VersionsGrowLater(hist, n, n, op);
      VersionsGrowLater(hist, n, |hist| - 1, op);
    }
    ViewsAreOrdered(view, times);
  }

  /** Such a reader walks through ordered lists. */
  lemma {:induction false} BrowsingWalks(hist: seq<Receipts>, taskId: Uuid, at: seq<nat>, views: seq<seq<Locator>>,
                                         pages: seq<Page>, size: nat, k: nat)
    requires size > 0 && History(hist) && Browses(hist, taskId, at, views, pages, size) && GoesOn(pages) && k <= |pages|
    ensures Walk(TimesIn(hist[|hist| - 1]), CursorOf(pages, k), ListsOf(views)[k..], pages[k..], size)
    decreases |pages| - k
  {
    if k < |pages| {
      BrowsingWalks(hist, taskId, at, views, pages, size, k + 1);
      assert PageReadFrom(hist[at[k]], taskId, views[k], CursorOf(pages, k), pages[k], size);
      ListIsOrdered(hist, taskId, at[k], views[k]);
      assert pages[k..][1..] == pages[k + 1..] && ListsOf(views)[k..][1..] == ListsOf(views)[k + 1..];
    }
  }

  /** However many receipts are prepared and settled meanwhile, no receipt is returned twice. */
  lemma BrowsingReturnsNothingTwice(hist: seq<Receipts>, taskId: Uuid, at: seq<nat>, views: seq<seq<Locator>>,
                                    pages: seq<Page>, size: nat)
    requires size > 0 && History(hist) && Browses(hist, taskId, at, views, pages, size) && GoesOn(pages)
    ensures forall i, j :: 0 <= i < j < |Returned(pages)| ==> Returned(pages)[i] != Returned(pages)[j]
  {
    BrowsingWalks(hist, taskId, at, views, pages, size, 0);
    assert pages[0..] == pages && ListsOf(views)[0..] == ListsOf(views);
    WalkReturnsNothingTwice(TimesIn(hist[|hist| - 1]), None, ListsOf(views), pages, size);
  }

  predicate UnsettledIn(receipts: Receipts, taskId: Uuid, op: Uuid) {
    op in receipts && receipts[op].taskId == taskId && receipts[op].state != Exited && receipts[op].state != SpawnFailed
  }

  lemma StaysListed(hist: seq<Receipts>, taskId: Uuid, n: nat, m: nat, last: nat, view: seq<Locator>, op: Uuid)
    requires History(hist) && n <= m <= last < |hist| && op in hist[n] && UnsettledIn(hist[last], taskId, op)
    requires Elements(view) == Locators(hist[m], taskId)
    ensures op in Operations(Unsettled(view))
  {
    VersionsGrowLater(hist, n, m, op);
    VersionsGrowLater(hist, m, last, op);
    var l := LocatorOf(hist[m][op]);
    assert l in Elements(view) && l in Unsettled(view);
    var k :| 0 <= k < |Unsettled(view)| && Unsettled(view)[k] == l;
    assert Operations(Unsettled(view))[k] == op;
  }

  lemma StaysListedAt(hist: seq<Receipts>, taskId: Uuid, at: seq<nat>, views: seq<seq<Locator>>, pages: seq<Page>,
                      size: nat, op: Uuid, i: nat)
    requires size > 0 && History(hist) && Browses(hist, taskId, at, views, pages, size) && i < |pages|
    requires op in hist[at[0]] && UnsettledIn(hist[at[|at| - 1]], taskId, op)
    ensures op in ListsOf(views)[i]
  {
    hide Later, IsPage;
    assert PageReadFrom(hist[at[i]], taskId, views[i], CursorOf(pages, i), pages[i], size);
    assert at[0] <= at[i] && at[i] <= at[|at| - 1];
    StaysListed(hist, taskId, at[0], at[i], at[|at| - 1], views[i], op);
  }

  /**
    * A reader that reached the last page was given every receipt of the task that was there when it began
    * and is still unsettled when it ends.
    */
  lemma BrowsingReturnsWhatStays(hist: seq<Receipts>, taskId: Uuid, at: seq<nat>, views: seq<seq<Locator>>,
                                 pages: seq<Page>, size: nat, op: Uuid)
    requires size > 0 && History(hist) && Browses(hist, taskId, at, views, pages, size) && GoesOn(pages)
    requires pages != [] && pages[|pages| - 1].next.None?
    requires op in hist[at[0]] && UnsettledIn(hist[at[|at| - 1]], taskId, op)
    ensures op in Returned(pages)
  {
    hide Walk, Returned;
    var lists, times := ListsOf(views), TimesIn(hist[|hist| - 1]);
    forall i | 0 <= i < |pages| ensures op in lists[i] { StaysListedAt(hist, taskId, at, views, pages, size, op, i); }
    BrowsingWalks(hist, taskId, at, views, pages, size, 0);
    assert pages[0..] == pages && lists[0..] == lists;
    WalkReturnsWhatStays(times, None, lists, pages, size, op);
  }

  // --------------------------------------------------------------------------------- with the index

  datatype Event = Publish(record: ExecutionRecord) | ReadNext

  /** Each publication is of a first receipt or of a later version. */
  predicate Publishable(receipts: Receipts, events: seq<Event>)
    decreases |events|
  {
    events != [] ==>
      match events[0]
      case ReadNext => Publishable(receipts, events[1..])
      case Publish(record) =>
        && (record.operationId in receipts ==> Later(receipts[record.operationId], record))
        && Publishable(receipts[record.operationId := record], events[1..])
  }

  lemma OnePublication(hist: seq<Receipts>, record: ExecutionRecord)
    requires History(hist)
    requires (record.operationId in hist[|hist| - 1] ==> Later(hist[|hist| - 1][record.operationId], record))
    ensures History(hist + [hist[|hist| - 1][record.operationId := record]])
  {
    hide Later;
    assert Publishes(hist[|hist| - 1], record, hist[|hist| - 1][record.operationId := record]);
    assert Published(hist[|hist| - 1], hist[|hist| - 1][record.operationId := record]);
  }

  lemma ReadBefore(hist: seq<Receipts>, next: Receipts, taskId: Uuid, at: seq<nat>, views: seq<seq<Locator>>,
                   pages: seq<Page>, size: nat)
    requires size > 0 && Browses(hist, taskId, at, views, pages, size)
    ensures Browses(hist + [next], taskId, at, views, pages, size)
  {
    hide PageReadFrom;
    forall i | 0 <= i < |at|
      ensures PageReadFrom((hist + [next])[at[i]], taskId, views[i], CursorOf(pages, i), pages[i], size)
    {
      assert PageReadFrom(hist[at[i]], taskId, views[i], CursorOf(pages, i), pages[i], size);
    }
  }

  lemma OnePageMore(hist: seq<Receipts>, taskId: Uuid, at: seq<nat>, views: seq<seq<Locator>>, pages: seq<Page>,
                    size: nat, view: seq<Locator>, page: Page)
    requires size > 0 && |hist| > 0 && Browses(hist, taskId, at, views, pages, size)
    requires PageReadFrom(hist[|hist| - 1], taskId, view, CursorOf(pages, |pages|), page, size)
    ensures Browses(hist, taskId, at + [|hist| - 1], views + [view], pages + [page], size)
  {
    hide PageReadFrom;
    forall i | 0 <= i < |at|
      ensures PageReadFrom(hist[at[i]], taskId, (views + [view])[i], CursorOf(pages + [page], i), (pages + [page])[i],
        size)
    {
      assert PageReadFrom(hist[at[i]], taskId, views[i], CursorOf(pages, i), pages[i], size);
    }
  }

  lemma LastIsKeyed(hist: seq<Receipts>)
    requires History(hist)
    ensures KeyedByOperation(hist[|hist| - 1])
  {
    var n := |hist| - 1;
    forall op | op in hist[n] ensures hist[n][op].operationId == op { VersionsGrowLater(hist, n, n, op); }
  }

  /** Where a reader stands: what it read, and whether its cursor was found stale. */
  ghost predicate Standing(hist: seq<Receipts>, taskId: Uuid, at: seq<nat>, views: seq<seq<Locator>>, pages: seq<Page>,
                           size: nat, stale: bool)
    requires size > 0
  {
    && History(hist) && Browses(hist, taskId, at, views, pages, size) && GoesOn(pages)
    && (stale ==> exists n :: 0 <= n < |hist| && StaleAt(hist[n], taskId, CursorOf(pages, |pages|)))
  }

  lemma StandsAtFirst(receipts: Receipts, taskId: Uuid, size: nat)
    requires size > 0 && KeyedByOperation(receipts)
    ensures Standing([receipts], taskId, [], [], [], size, false)
  {
  }

  lemma StandsAfterPublication(hist: seq<Receipts>, taskId: Uuid, at: seq<nat>, views: seq<seq<Locator>>,
                               pages: seq<Page>, size: nat, stale: bool, record: ExecutionRecord)
    requires size > 0 && Standing(hist, taskId, at, views, pages, size, stale)
    requires record.operationId in hist[|hist| - 1] ==> Later(hist[|hist| - 1][record.operationId], record)
    ensures KeyedByOperation(hist[|hist| - 1])
    ensures Standing(hist + [hist[|hist| - 1][record.operationId := record]], taskId, at, views, pages, size, stale)
  {
    hide Browses, StaleAt, Later;
    LastIsKeyed(hist);
    OnePublication(hist, record);
    var next := hist[|hist| - 1][record.operationId := record];
    ReadBefore(hist, next, taskId, at, views, pages, size);
    if stale {
      var n :| 0 <= n < |hist| && StaleAt(hist[n], taskId, CursorOf(pages, |pages|));
      assert (hist + [next])[n] == hist[n];
    }
  }

  /** The index under any publications, and a reader that goes on until a cursor is stale or nothing is left. */
  method Browse(index: WorkspaceExecutionIndex, ghost receipts: Receipts, taskId: Uuid, size: nat, events: seq<Event>)
    returns (pages: seq<Page>, stale: bool, ghost hist: seq<Receipts>, ghost at: seq<nat>,
      ghost views: seq<seq<Locator>>)
    requires size > 0 && index.Agrees(receipts) && KeyedByOperation(receipts) && Publishable(receipts, events)
    modifies index
    ensures Standing(hist, taskId, at, views, pages, size, stale) && |hist| == 1 + Publications(events)
    ensures hist[0] == receipts && index.Agrees(hist[|hist| - 1])
    ensures !stale && !Finished(pages) ==> |pages| == |events| - Publications(events)
  {
    hide Standing, Publishable, Publications;
    pages, stale, hist, at, views := [], false, [receipts], [], [];
    StandsAtFirst(receipts, taskId, size);
    NothingPublished();
    for n := 0 to |events|
      invariant Standing(hist, taskId, at, views, pages, size, stale) && |hist| == 1 + Publications(events[..n])
      invariant hist[0] == receipts && index.Agrees(hist[|hist| - 1])
      invariant Publishable(hist[|hist| - 1], events[n..])
      invariant !stale && !Finished(pages) ==> |pages| == n - Publications(events[..n])
    {
      OneEventMore(hist[|hist| - 1], events, n);
      match events[n]
      case Publish(record) =>
        StandsAfterPublication(hist, taskId, at, views, pages, size, stale, record);
        index.Publish(record, hist[|hist| - 1]);
        hist := hist + [hist[|hist| - 1][record.operationId := record]];
      case ReadNext =>
        if !stale && !Finished(pages) {
          pages, stale, at, views := ReadOn(index, hist, taskId, at, views, pages, size);
        }
    }
    assert events[..|events|] == events;
  }

  method ReadOn(index: WorkspaceExecutionIndex, ghost hist: seq<Receipts>, taskId: Uuid, ghost at: seq<nat>,
                ghost views: seq<seq<Locator>>, pages: seq<Page>, size: nat)
    returns (morePages: seq<Page>, stale: bool, ghost moreAt: seq<nat>, ghost moreViews: seq<seq<Locator>>)
    requires size > 0 && |hist| > 0 && Standing(hist, taskId, at, views, pages, size, false)
    requires index.Agrees(hist[|hist| - 1]) && !Finished(pages)
    ensures Standing(hist, taskId, moreAt, moreViews, morePages, size, stale)
    ensures if stale then morePages == pages else |morePages| == |pages| + 1
  {
    hide History, Browses, PageReadFrom, StaleAt;
    morePages, stale, moreAt, moreViews := pages, false, at, views;
    LastIsKeyed(hist);
    ghost var view;
    var page;
    page, view := ReadOne(index, hist[|hist| - 1], taskId, CursorOf(pages, |pages|), size);
    if page.Err? {
      stale := true;
    } else {
      OnePageMore(hist, taskId, at, views, pages, size, view, page.value);
      morePages, moreAt, moreViews := pages + [page.value], at + [|hist| - 1], views + [view];
    }
  }

  lemma NothingPublished()
    ensures Publications([]) == 0
  {
  }

  lemma OneEventMore(receipts: Receipts, events: seq<Event>, n: nat)
    requires n < |events| && Publishable(receipts, events[n..])
    ensures Publications(events[..n + 1]) == Publications(events[..n]) + if events[n].Publish? then 1 else 0
    ensures match events[n]
            case ReadNext => Publishable(receipts, events[n + 1..])
            case Publish(record) =>
              && (record.operationId in receipts ==> Later(receipts[record.operationId], record))
              && Publishable(receipts[record.operationId := record], events[n + 1..])
  {
    assert events[n..][1..] == events[n + 1..] && events[..n + 1][..n] == events[..n];
  }

  function Publications(events: seq<Event>): nat {
    if events == [] then 0 else Publications(events[..|events| - 1]) + if events[|events| - 1].Publish? then 1 else 0
  }

  predicate Finished(pages: seq<Page>) { pages != [] && pages[|pages| - 1].next.None? }

  /** The cursor names a receipt that is not listed as unsettled. */
  ghost predicate StaleAt(receipts: Receipts, taskId: Uuid, cursor: Option<Uuid>) {
    cursor.Some? && !UnsettledIn(receipts, taskId, cursor.value)
  }

  method ReadOne(index: WorkspaceExecutionIndex, ghost receipts: Receipts, taskId: Uuid, cursor: Option<Uuid>,
                 size: nat)
    returns (r: Result<Page, StoreError>, ghost view: seq<Locator>)
    requires size > 0 && index.Agrees(receipts) && KeyedByOperation(receipts)
    ensures r.Ok? ==> PageReadFrom(receipts, taskId, view, cursor, r.value, size)
    ensures r.Err? ==> StaleAt(receipts, taskId, cursor)
  {
    var found := index.Task(taskId, receipts);
    view := found;
    r := ReadPage(found, cursor, size);
    if r.Err? && UnsettledIn(receipts, taskId, cursor.value) {
      StaysListed([receipts], taskId, 0, 0, 0, view, cursor.value);
    }
  }
}
