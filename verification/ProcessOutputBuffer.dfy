/** `IndexedProcessOutputBuffer` of src/process-output-buffer.ts: an indexed ring that stands for a plain list. */
module ProcessOutputBuffer {
  import opened Arithmetic
  import opened Utf8

  datatype Stream = Stdout | Stderr
  datatype Chunk = Chunk(number: nat, stream: Stream, data: seq<byte>)

  datatype Selection = Selection(chunks: seq<Chunk>, nextSeq: nat, hasMore: bool, selectedBytes: nat)

  const COMPACT_HEAD_THRESHOLD: nat := 4096

  function Bytes(chunks: seq<Chunk>): nat {
    if chunks == [] then 0 else |chunks[0].data| + Bytes(chunks[1..])
  }

  lemma {:induction false} BytesOfBoth(a: seq<Chunk>, b: seq<Chunk>)
    ensures Bytes(a + b) == Bytes(a) + Bytes(b)
  {
    if a == [] {
      assert a + b == b;
    } else {
      BytesOfBoth(a[1..], b);
      assert (a + b)[1..] == a[1..] + b;
    }
  }

  lemma BytesSplit(chunks: seq<Chunk>, k: nat)
    requires k <= |chunks|
    ensures Bytes(chunks) == Bytes(chunks[..k]) + Bytes(chunks[k..])
  {
    BytesOfBoth(chunks[..k], chunks[k..]);
    assert chunks[..k] + chunks[k..] == chunks;
  }

  // ----------------------------------------------------------------------------- the plain list

  /** Chunk number k+1 is at position k. */
  predicate Numbered(log: seq<Chunk>) {
    forall k :: 0 <= k < |log| ==> log[k].number == k + 1
  }

  /** What a reader scanning every chunk would be given. */
  function After(chunks: seq<Chunk>, afterSeq: nat): seq<Chunk> {
    if chunks == [] then []
    else if chunks[0].number <= afterSeq then After(chunks[1..], afterSeq)
    else [chunks[0]] + After(chunks[1..], afterSeq)
  }

  function FittingCount(chunks: seq<Chunk>, maxBytes: nat): (n: nat)
    ensures n <= |chunks|
  {
    if chunks == [] || |chunks[0].data| > maxBytes then 0
      else 1 + FittingCount(chunks[1..], maxBytes - |chunks[0].data|)
  }

  function Scan(retained: seq<Chunk>, afterSeq: nat, maxBytes: nat): Selection {
    PageOf(After(retained, afterSeq), afterSeq, maxBytes)
  }

  function Nothing(afterSeq: nat): Selection { Selection([], afterSeq, false, 0) }

  /** The longest fitting run at the front of `later`. */
  function PageOf(later: seq<Chunk>, afterSeq: nat, maxBytes: nat): Selection {
    var page := later[..FittingCount(later, maxBytes)];
    Selection(page, if page == [] then afterSeq else page[|page| - 1].number, |page| < |later|, Bytes(page))
  }

  /** The fitting run is the longest: a prefix fits exactly when it is no longer. */
  lemma {:induction false} FittingIsLongest(chunks: seq<Chunk>, maxBytes: nat, k: nat)
    requires k <= |chunks|
    ensures Bytes(chunks[..k]) <= maxBytes || k > FittingCount(chunks, maxBytes)
    ensures k <= FittingCount(chunks, maxBytes) || Bytes(chunks[..k]) > maxBytes
  {
    if k > 0 {
      assert chunks[..k][1..] == chunks[1..][..k - 1];
      if |chunks[0].data| <= maxBytes { FittingIsLongest(chunks[1..], maxBytes - |chunks[0].data|, k - 1); }
    }
  }

  /** In a numbered list the scan is a position. */
  lemma {:induction false} AfterIsPosition(log: seq<Chunk>, dropped: nat, afterSeq: nat)
    requires Numbered(log) && dropped <= |log|
    ensures After(log[dropped..], afterSeq) == if Max(dropped, afterSeq) <= |log| then log[Max(dropped, afterSeq)..]
      else []
    decreases |log| - dropped
  {
    if dropped < |log| {
      assert log[dropped..][1..] == log[dropped + 1..];
      AfterIsPosition(log, dropped + 1, afterSeq);
      if afterSeq <= dropped { assert [log[dropped]] + log[dropped + 1..] == log[dropped..]; }
    }
  }

  // -------------------------------------------------------------------------------- the ring

  function Tagged(stream: Stream, pieces: seq<seq<byte>>, from: nat): (r: seq<Chunk>)
    ensures |r| == |pieces|
  {
    seq(|pieces|, k requires 0 <= k < |pieces| => Chunk(from + k + 1, stream, pieces[k]))
  }

  class IndexedProcessOutputBuffer {
    var chunks: seq<Chunk>
    var headIndex: nat
    var baseSeq: nat
    var nextSeq: nat
    var retainedBytes: nat
    var droppedBytes: nat
    /** Everything ever appended, and how much of its front has been dropped. */
    ghost var log: seq<Chunk>
    ghost var dropped: nat

    ghost predicate Valid()
      reads this
    {
      && Numbered(log) && dropped <= |log| && headIndex <= |chunks|
      && chunks[headIndex..] == log[dropped..]
      && nextSeq == |log| + 1 && baseSeq == dropped + 1
      && retainedBytes == Bytes(log[dropped..]) && droppedBytes == Bytes(log[..dropped])
      && Compact()
    }

    /** The backing array never holds more dropped chunks than retained ones. */
    ghost predicate Compact()
      reads this
    {
      headIndex == 0 || (headIndex < COMPACT_HEAD_THRESHOLD && 2 * headIndex < |chunks|)
    }

    ghost function Retained(): seq<Chunk>
      requires Valid()
      reads this
    {
      log[dropped..]
    }

    constructor ()
      ensures Valid() && log == [] && dropped == 0
    {
      chunks, headIndex, baseSeq, nextSeq, retainedBytes, droppedBytes := [], 0, 1, 1, 0, 0;
      log, dropped := [], 0;
    }

    /** Nothing appended is ever unaccounted for. */
    lemma RetainedPlusDropped()
      requires Valid()
      ensures retainedBytes + droppedBytes == Bytes(log)
    {
      BytesSplit(log, dropped);
    }

    method Append(stream: Stream, pieces: seq<seq<byte>>)
      requires Valid()
      modifies this
      ensures Valid() && dropped == old(dropped)
      ensures log == old(log) + Tagged(stream, pieces, |old(log)|)
    {
      ghost var before := log;
      for k := 0 to |pieces|
        invariant Valid() && dropped == old(dropped)
        invariant log == before + Tagged(stream, pieces, |before|)[..k]
      {
        Push(Chunk(nextSeq, stream, pieces[k]));
        assert Tagged(stream, pieces, |before|)[..k + 1] ==
          Tagged(stream, pieces, |before|)[..k] + [Chunk(|before| + k + 1, stream, pieces[k])];
      }
      assert Tagged(stream, pieces, |before|)[..|pieces|] == Tagged(stream, pieces, |before|);
    }

    method Push(chunk: Chunk)
      requires Valid() && chunk.number == nextSeq
      modifies this
      ensures Valid() && log == old(log) + [chunk] && dropped == old(dropped) && nextSeq == old(nextSeq) + 1
    {
      ghost var before := log;
      chunks := chunks + [chunk];
      nextSeq := nextSeq + 1;
      retainedBytes := retainedBytes + |chunk.data|;
      log := log + [chunk];
      assert log[dropped..] == before[dropped..] + [chunk] && log[..dropped] == before[..dropped];
      BytesOfBoth(before[dropped..], [chunk]);
      assert chunks[headIndex..] == old(chunks)[headIndex..] + [chunk];
    }

    /** Drops the shortest prefix that leaves at most `maxBytes`. */
    method TrimTo(maxBytes: nat) returns (n: nat)
      requires Valid()
      modifies this
      ensures Valid() && log == old(log) && dropped == TrimPoint(log, old(dropped), maxBytes)
      ensures n == droppedBytes - old(droppedBytes) == old(retainedBytes) - retainedBytes
    {
      n := DropOver(maxBytes);
      CompactIfNeeded();
    }

    /** The loop of `trimTo`. */
    method DropOver(maxBytes: nat) returns (n: nat)
      requires Uncompacted()
      modifies this`headIndex, this`baseSeq, this`retainedBytes, this`droppedBytes, this`dropped
      ensures Uncompacted() && dropped == TrimPoint(log, old(dropped), maxBytes)
      ensures n == droppedBytes - old(droppedBytes) == old(retainedBytes) - retainedBytes
    {
      hide Bytes;
      n := 0;
      ghost var first, retained0, dropped0 := dropped, retainedBytes, droppedBytes;
      while retainedBytes > maxBytes && headIndex < |chunks|
        invariant Uncompacted()
        invariant first <= dropped && TrimPoint(log, dropped, maxBytes) == TrimPoint(log, first, maxBytes)
        invariant droppedBytes == dropped0 + n && retainedBytes + n == retained0
        decreases |log| - dropped
      {
        assert |chunks[headIndex..]| == |log[dropped..]|;
        var bytes := DropHead();
        n := n + bytes;
      }
      assert |chunks[headIndex..]| == |log[dropped..]|;
    }

    method DropHead() returns (bytes: nat)
      requires Uncompacted() && headIndex < |chunks|
      modifies this`headIndex, this`baseSeq, this`retainedBytes, this`droppedBytes, this`dropped
      ensures Uncompacted() && dropped == old(dropped) + 1
      ensures bytes == droppedBytes - old(droppedBytes) == old(retainedBytes) - retainedBytes
    {
      assert chunks[headIndex..][0] == log[dropped..][0];
      var removed := chunks[headIndex];
      DropOne(log, dropped);
      headIndex := headIndex + 1;
      baseSeq := removed.number + 1;
      retainedBytes := retainedBytes - |removed.data|;
      droppedBytes := droppedBytes + |removed.data|;
      dropped := dropped + 1;
      assert chunks[headIndex..] == chunks[headIndex - 1..][1..];
      return |removed.data|;
    }

    /** Valid but for the compaction that ends a trim. */
    ghost predicate Uncompacted()
      reads this
    {
      && Numbered(log) && dropped <= |log| && headIndex <= |chunks|
      && chunks[headIndex..] == log[dropped..]
      && nextSeq == |log| + 1 && baseSeq == dropped + 1
      && retainedBytes == Bytes(log[dropped..]) && droppedBytes == Bytes(log[..dropped])
    }

    method CompactIfNeeded()
      requires Uncompacted()
      modifies this`chunks, this`headIndex, this`baseSeq
      ensures Valid()
    {
      if headIndex == 0 { return; }
      if headIndex == |chunks| {
        chunks, headIndex, baseSeq := [], 0, nextSeq;
        return;
      }
      if headIndex >= COMPACT_HEAD_THRESHOLD || headIndex * 2 >= |chunks| {
        chunks := chunks[headIndex..];
        headIndex := 0;
      }
    }

    method SelectAfter(afterSeq: nat, maxBytes: nat) returns (r: Selection)
      requires Valid()
      ensures r == Scan(Retained(), afterSeq, maxBytes)
    {
      AfterIsPosition(log, dropped, afterSeq);
      if headIndex >= |chunks| || nextSeq <= afterSeq + 1 { return Nothing(afterSeq); }
      var requestedSeq := Max(afterSeq + 1, baseSeq);
      if requestedSeq >= nextSeq { return Nothing(afterSeq); }
      var index := headIndex + (requestedSeq - baseSeq);
      ghost var later := log[Max(dropped, afterSeq)..];
      assert chunks[index..] == later by { assert chunks[index..] == chunks[headIndex..][index - headIndex..]; }
      r := SelectFrom(index, afterSeq, maxBytes);
    }

    /** The loop of `selectAfter`. */
    method SelectFrom(start: nat, afterSeq: nat, maxBytes: nat) returns (r: Selection)
      requires start <= |chunks|
      ensures r == PageOf(chunks[start..], afterSeq, maxBytes)
    {
      ghost var later := chunks[start..];
      var index := start;
      var selected: seq<Chunk> := [];
      var selectedBytes := 0;
      while index < |chunks|
        invariant start <= index <= |chunks| && selected == later[..index - start]
        invariant selectedBytes == Bytes(selected) <= maxBytes
      {
        var chunk := chunks[index];
        TakeOne(later, index - start);
        if selectedBytes + |chunk.data| > maxBytes {
          FittingIsLongest(later, maxBytes, index - start + 1);
          break;
        }
        selected := selected + [chunk];
        selectedBytes := selectedBytes + |chunk.data|;
        index := index + 1;
      }
      FittingIsLongest(later, maxBytes, index - start);
      return Selection(selected, if selected == [] then afterSeq else selected[|selected| - 1].number,
                       index < |chunks|, selectedBytes);
    }
  }

  lemma TakeOne(chunks: seq<Chunk>, k: nat)
    requires k < |chunks|
    ensures chunks[..k + 1] == chunks[..k] + [chunks[k]]
    ensures Bytes(chunks[..k + 1]) == Bytes(chunks[..k]) + |chunks[k].data|
  {
    assert chunks[..k + 1] == chunks[..k] + [chunks[k]];
    BytesOfBoth(chunks[..k], [chunks[k]]);
  }

  /** Where trimming stops: the first position from which at most `maxBytes` remain. */
  function TrimPoint(log: seq<Chunk>, dropped: nat, maxBytes: nat): (to: nat)
    requires dropped <= |log|
    ensures dropped <= to <= |log|
    decreases |log| - dropped
  {
    if Bytes(log[dropped..]) <= maxBytes || dropped == |log| then dropped else TrimPoint(log, dropped + 1, maxBytes)
  }

  /** It is the shortest sufficient prefix. */
  lemma {:induction false} TrimPointIsLeast(log: seq<Chunk>, dropped: nat, maxBytes: nat, k: nat)
    requires dropped <= k <= |log|
    ensures Bytes(log[TrimPoint(log, dropped, maxBytes)..]) <= maxBytes
    ensures k < TrimPoint(log, dropped, maxBytes) <==> Bytes(log[k..]) > maxBytes
    decreases |log| - dropped
  {
    if dropped == |log| {
      assert log[dropped..] == [];
    } else if Bytes(log[dropped..]) <= maxBytes {
      assert log[k..] == log[dropped..][k - dropped..];
      BytesSplit(log[dropped..], k - dropped);
    } else if k == dropped {
      TrimPointIsLeast(log, dropped + 1, maxBytes, dropped + 1);
    } else {
      TrimPointIsLeast(log, dropped + 1, maxBytes, k);
    }
  }

  lemma TrimmingRetains(log: seq<Chunk>, dropped: nat, maxBytes: nat)
    requires dropped <= |log|
    ensures var to := TrimPoint(log, dropped, maxBytes);
      Bytes(log[to..]) <= maxBytes && Bytes(log[to..]) <= Bytes(log[dropped..])
        && (Bytes(log[dropped..]) <= maxBytes ==> to == dropped)
  {
    var to := TrimPoint(log, dropped, maxBytes);
    TrimPointIsLeast(log, dropped, maxBytes, dropped);
    assert log[dropped..][to - dropped..] == log[to..];
    BytesSplit(log[dropped..], to - dropped);
  }

  lemma DropOne(log: seq<Chunk>, dropped: nat)
    requires dropped < |log|
    ensures Bytes(log[dropped..]) == |log[dropped].data| + Bytes(log[dropped + 1..])
    ensures Bytes(log[..dropped + 1]) == Bytes(log[..dropped]) + |log[dropped].data|
  {
    assert log[dropped..][1..] == log[dropped + 1..];
    assert log[..dropped + 1] == log[..dropped] + [log[dropped]];
    BytesOfBoth(log[..dropped], [log[dropped]]);
  }

  // ------------------------------------------------------------------------------- following nextSeq

  /** A page big enough for any one chunk is empty only when nothing is left. */
  lemma PageAdvances(retained: seq<Chunk>, afterSeq: nat, maxBytes: nat)
    requires forall c :: c in retained ==> |c.data| <= maxBytes
    ensures Scan(retained, afterSeq, maxBytes).chunks == [] <==> After(retained, afterSeq) == []
  {
    AfterIsPart(retained, afterSeq);
  }

  lemma {:induction false} AfterIsPart(chunks: seq<Chunk>, afterSeq: nat)
    ensures forall c :: c in After(chunks, afterSeq) <==> c in chunks && c.number > afterSeq
  {
    if chunks != [] { AfterIsPart(chunks[1..], afterSeq); }
  }

  datatype Event = Written(stream: Stream, pieces: seq<seq<byte>>) | Trimmed(maxBytes: nat) | Page(maxBytes: nat)

  /** The plain list, how much of it is gone, and what a reader that follows nextSeq has been given. */
  datatype Following = Following(log: seq<Chunk>, dropped: nat, cursor: nat, got: seq<Chunk>)

  function AfterEvent(f: Following, e: Event): (g: Following)
    requires f.dropped <= |f.log|
    ensures g.dropped <= |g.log|
  {
    match e
    case Written(stream, pieces) => f.(log := f.log + Tagged(stream, pieces, |f.log|))
    case Trimmed(maxBytes) => f.(dropped := TrimPoint(f.log, f.dropped, maxBytes))
    case Page(maxBytes) =>
      var page := Scan(f.log[f.dropped..], f.cursor, maxBytes);
      f.(cursor := page.nextSeq, got := f.got + page.chunks)
  }

  function AfterEvents(f: Following, events: seq<Event>): (g: Following)
    requires f.dropped <= |f.log|
    ensures g.dropped <= |g.log|
  {
    if events == [] then f else AfterEvent(AfterEvents(f, events[..|events| - 1]), events[|events| - 1])
  }

  /** The ring gives the reader what the plain list would. */
  method Follow(buffer: IndexedProcessOutputBuffer, events: seq<Event>, start: nat)
    returns (cursor: nat, got: seq<Chunk>)
    requires buffer.Valid()
    modifies buffer
    ensures buffer.Valid()
    ensures Following(buffer.log, buffer.dropped, cursor, got) ==
      AfterEvents(Following(old(buffer.log), old(buffer.dropped), start, []), events)
  {
    ghost var first := Following(buffer.log, buffer.dropped, start, []);
    cursor, got := start, [];
    for n := 0 to |events|
      invariant buffer.Valid() && first.dropped <= |first.log|
      invariant Following(buffer.log, buffer.dropped, cursor, got) == AfterEvents(first, events[..n])
    {
      assert events[..n + 1][..n] == events[..n];
      match events[n]
      case Written(stream, pieces) => buffer.Append(stream, pieces);
      case Trimmed(maxBytes) => var _ := buffer.TrimTo(maxBytes);
      case Page(maxBytes) =>
        var page := buffer.SelectAfter(cursor, maxBytes);
        cursor, got := page.nextSeq, got + page.chunks;
    }
    assert events[..|events|] == events;
  }

  predicate Ascending(chunks: seq<Chunk>) {
    forall i, j :: 0 <= i < j < |chunks| ==> chunks[i].number < chunks[j].number
  }

  /** Every chunk up to the cursor exactly once and in order, but for those that are gone. */
  ghost predicate Complete(f: Following, start: nat) {
    && Numbered(f.log) && f.dropped <= |f.log| && Ascending(f.got) && start <= f.cursor
    && (forall c :: c in f.got ==> start < c.number <= f.cursor && c.number <= |f.log| && f.log[c.number - 1] == c)
    && (f.cursor <= |f.log| || f.cursor == start)
    && (forall k {:trigger f.log[k]} :: start <= k < f.cursor && f.dropped <= k ==> f.log[k] in f.got)
  }

  /** Whatever is written, trimmed and read in between: a chunk is missed only if it was dropped before its turn. */
  lemma {:induction false} FollowerMissesOnlyDropped(f: Following, events: seq<Event>, start: nat)
    requires Complete(f, start)
    ensures Complete(AfterEvents(f, events), start)
  {
    if events != [] {
      FollowerMissesOnlyDropped(f, events[..|events| - 1], start);
      OneEvent(AfterEvents(f, events[..|events| - 1]), events[|events| - 1], start);
    }
  }

  lemma OneEvent(f: Following, e: Event, start: nat)
    requires Complete(f, start)
    ensures Complete(AfterEvent(f, e), start)
  {
    match e
    case Written(stream, pieces) =>
      var log := f.log + Tagged(stream, pieces, |f.log|);
      assert forall k :: 0 <= k < |f.log| ==> log[k] == f.log[k];
    case Trimmed(maxBytes) =>
    case Page(maxBytes) => OnePage(f, maxBytes, start);
  }

  lemma OnePage(f: Following, maxBytes: nat, start: nat)
    requires Complete(f, start)
    ensures Complete(AfterEvent(f, Page(maxBytes)), start)
  {
    var page := Scan(f.log[f.dropped..], f.cursor, maxBytes);
    PageIsRun(f.log, f.dropped, f.cursor, maxBytes);
    hide Scan, PageOf, Complete;
    assert page.chunks != [] ==> page.chunks[|page.chunks| - 1].number == Max(f.dropped, f.cursor) + |page.chunks|;
    RunCompletes(f, page.chunks, page.nextSeq, start);
  }

  /** The page is the chunks from here on, and the next cursor its end. */
  predicate IsRun(f: Following, page: seq<Chunk>, next: nat) {
    var base := Max(f.dropped, f.cursor);
    && (page != [] ==> base + |page| <= |f.log|)
    && (forall i :: 0 <= i < |page| ==> page[i] == f.log[base + i])
    && next == if page == [] then f.cursor else base + |page|
  }

  lemma RunCompletes(f: Following, page: seq<Chunk>, next: nat, start: nat)
    requires Complete(f, start) && IsRun(f, page, next)
    ensures Complete(f.(cursor := next, got := f.got + page), start)
  {
    var base := Max(f.dropped, f.cursor);
    forall i | 0 <= i < |page| ensures page[i].number == base + i + 1 {}
    PageAscends(f, page, start);
    RunIsLogged(f, page, next, start);
    RunCovers(f, page, next);
  }

  lemma RunIsLogged(f: Following, page: seq<Chunk>, next: nat, start: nat)
    requires Numbered(f.log) && IsRun(f, page, next) && start <= f.cursor
    ensures forall c :: c in page ==> start < c.number <= next && c.number <= |f.log| && f.log[c.number - 1] == c
  {
    forall c | c in page ensures start < c.number <= next && c.number <= |f.log| && f.log[c.number - 1] == c {
      var i :| 0 <= i < |page| && page[i] == c;
    }
  }

  lemma RunCovers(f: Following, page: seq<Chunk>, next: nat)
    requires IsRun(f, page, next)
    ensures next > f.cursor ==> next <= |f.log|
    ensures forall k {:trigger f.log[k]} :: f.cursor <= k < next && f.dropped <= k ==> f.log[k] in page
  {
    forall k | f.cursor <= k < next && f.dropped <= k
      ensures f.log[k] in page
    {
      assert page[k - Max(f.dropped, f.cursor)] == f.log[k];
    }
  }

  lemma PageAscends(f: Following, page: seq<Chunk>, start: nat)
    requires Complete(f, start)
    requires forall i :: 0 <= i < |page| ==> page[i].number == Max(f.dropped, f.cursor) + i + 1
    ensures Ascending(f.got + page)
  {
    var got := f.got + page;
    forall i, j | 0 <= i < j < |got| ensures got[i].number < got[j].number {
      if i < |f.got| <= j { assert got[i] in f.got; }
    }
  }

  /** A page is the run of numbers from the first one retained after the cursor to the new cursor. */
  lemma PageIsRun(log: seq<Chunk>, dropped: nat, afterSeq: nat, maxBytes: nat)
    requires Numbered(log) && dropped <= |log|
    ensures var page := Scan(log[dropped..], afterSeq, maxBytes);
      && (forall i :: 0 <= i < |page.chunks| ==>
            Max(dropped, afterSeq) + i < |log| && page.chunks[i] == log[Max(dropped, afterSeq) + i]
              && page.chunks[i].number == Max(dropped, afterSeq) + i + 1)
      && page.nextSeq == if page.chunks == [] then afterSeq else Max(dropped, afterSeq) + |page.chunks|
  {
    AfterIsPosition(log, dropped, afterSeq);
  }
}
