/** The streaming UTF-8 splitter of src/process-manager.ts (lines 44-135). */
module OutputChunks {
  import opened Wrappers
  import opened Utf8

  const OUTPUT_CHUNK_BYTES: nat := 16384

  function Concat(chunks: seq<seq<byte>>): seq<byte> {
    if chunks == [] then [] else Concat(chunks[..|chunks| - 1]) + chunks[|chunks| - 1]
  }

  lemma ConcatPush(chunks: seq<seq<byte>>, c: seq<byte>)
    ensures Concat(chunks + [c]) == Concat(chunks) + c
  {
    assert (chunks + [c])[..|chunks|] == chunks;
  }

  lemma {:induction false} ConcatOfBoth(a: seq<seq<byte>>, b: seq<seq<byte>>)
    ensures Concat(a + b) == Concat(a) + Concat(b)
  {
    if b == [] {
      assert a + b == a;
    } else {
      var init, last := b[..|b| - 1], b[|b| - 1];
      ConcatOfBoth(a, init);
      assert a + b == (a + init) + [last];
      ConcatPush(a + init, last);
      AppendAssociates(Concat(a), Concat(init), last);
    }
  }

  lemma AppendAssociates(x: seq<byte>, y: seq<byte>, z: seq<byte>)
    ensures x + y + z == x + (y + z)
  {
  }

  function Init(chunks: seq<seq<byte>>): seq<seq<byte>>
    requires chunks != []
  {
    chunks[..|chunks| - 1]
  }

  function Last(chunks: seq<seq<byte>>): seq<byte>
    requires chunks != []
  {
    chunks[|chunks| - 1]
  }

  /** Every chunk ends at a cut of the greedy decomposition. */
  ghost predicate AllCuts(data: seq<byte>, final: bool, chunks: seq<seq<byte>>) {
    && |Concat(chunks)| <= |data| && Reaches(data, final, 0, |Concat(chunks)|)
    && (chunks != [] ==> AllCuts(data, final, Init(chunks)))
  }

  predicate SizesOk(chunks: seq<seq<byte>>) {
    forall c :: c in chunks ==> 1 <= |c| <= OUTPUT_CHUNK_BYTES
  }

  /** The last chunk could not have taken the piece after it. */
  ghost predicate LastIsFull(data: seq<byte>, final: bool, chunks: seq<seq<byte>>) {
    chunks != [] ==>
      var end := |Concat(chunks)|;
      end < |data| && PieceLength(data[end..], final).Some?
        && |Last(chunks)| + PieceLength(data[end..], final).value > OUTPUT_CHUNK_BYTES
  }

  /** Every chunk but the last is full. */
  ghost predicate ButLastFull(data: seq<byte>, final: bool, chunks: seq<seq<byte>>) {
    chunks != [] ==> LastIsFull(data, final, Init(chunks)) && ButLastFull(data, final, Init(chunks))
  }

  /** The last one too, or it holds exactly the maximum. */
  ghost predicate FullSoFar(data: seq<byte>, final: bool, chunks: seq<seq<byte>>) {
    ButLastFull(data, final, chunks)
      && (chunks == [] || |Last(chunks)| == OUTPUT_CHUNK_BYTES || LastIsFull(data, final, chunks))
  }

  /** `utf8SequenceLengthAt`, with undefined as None. */
  method SequenceLengthAt(data: seq<byte>, offset: nat, final: bool) returns (r: Option<nat>)
    requires offset < |data|
    ensures r == PieceLength(data[offset..], final)
  {
    ghost var s := data[offset..];
    UnfinishedIs(s);
    var first := data[offset];
    if first <= 0x7F { return Some(1); }
    var length := 0;
    if 0xC2 <= first <= 0xDF { length := 2; }
    else if 0xE0 <= first <= 0xEF { length := 3; }
    else if 0xF0 <= first <= 0xF4 { length := 4; }
    else { return Some(1); }
    if offset + 1 >= |data| { return if final then Some(1) else None; }
    var second := data[offset + 1];
    assert s[1] == second;
    if !Tail(second) { return Some(1); }
    if (first == 0xE0 && second < 0xA0) || (first == 0xED && second > 0x9F) { return Some(1); }
    if (first == 0xF0 && second < 0x90) || (first == 0xF4 && second > 0x8F) { return Some(1); }
    var index := 2;
    while index < length
      invariant 2 <= index <= length && offset + index <= |data|
      invariant forall k :: 2 <= k < index ==> Tail(s[k])
    {
      if offset + index >= |data| { return if final then Some(1) else None; }
      assert data[offset + index] == s[index];
      if !Tail(data[offset + index]) { return Some(1); }
      index := index + 1;
    }
    assert IsChar(s[..length]);
    NoOtherChar(s, length);
    return Some(length);
  }

  lemma NoOtherChar(s: seq<byte>, length: nat)
    requires StartsWithChar(s, length)
    ensures s != [] && PieceLength(s, true) == PieceLength(s, false) == Some(length)
  {
    forall n | n <= 4 && StartsWithChar(s, n) ensures n == length { NoCharExtendsAnother(s, n, length); }
    NoCharExtendsAnother(s, length, length);
  }

  // ------------------------------------------------------------------------------------ splitting

  predicate IsAscii(data: seq<byte>) {
    forall b :: b in data ==> b <= 0x7F
  }

  lemma {:induction false} AsciiCuts(data: seq<byte>, final: bool, a: nat, b: nat)
    requires IsAscii(data) && a <= b <= |data|
    ensures Reaches(data, final, a, b)
    decreases b - a
  {
    if a < b {
      assert data[a] in data && StartsWithChar(data[a..], 1);
      NoOtherChar(data[a..], 1);
      AsciiCuts(data, final, a + 1, b);
    }
  }

  /** What splitting promises of its chunks; `rest` starts at the last cut. */
  ghost predicate Splits(data: seq<byte>, final: bool, chunks: seq<seq<byte>>, rest: seq<byte>) {
    && Concat(chunks) + rest == data
    && SizesOk(chunks) && AllCuts(data, final, chunks)
    && (rest == [] || PieceLength(rest, final).None?)
  }

  lemma FinalLeavesNothing(data: seq<byte>, chunks: seq<seq<byte>>, rest: seq<byte>)
    requires Splits(data, true, chunks, rest)
    ensures rest == []
  {
  }

  /** `splitOutputChunks`. */
  method SplitOutputChunks(data: seq<byte>, final: bool) returns (chunks: seq<seq<byte>>, rest: seq<byte>)
    ensures Splits(data, final, chunks, rest)
    ensures ButLastFull(data, final, chunks)
  {
    if IsAscii(data) {
      chunks := SplitAscii(data, final);
      rest := [];
    } else {
      chunks, rest := SplitPieces(data, final);
    }
  }

  method SplitAscii(data: seq<byte>, final: bool) returns (chunks: seq<seq<byte>>)
    requires IsAscii(data)
    ensures Splits(data, final, chunks, [])
    ensures ButLastFull(data, final, chunks)
  {
    chunks := [];
    var offset := 0;
    while offset < |data|
      invariant offset <= |data| && Stored(data, final, chunks, offset)
      invariant ButLastFull(data, final, chunks) && (offset < |data| ==> FullSoFar(data, final, chunks))
    {
      var end := if offset + OUTPUT_CHUNK_BYTES <= |data| then offset + OUTPUT_CHUNK_BYTES else |data|;
      AsciiCuts(data, final, 0, end);
      AsciiPiece(data, final, offset);
      chunks := Store(data, final, chunks, offset, end);
      offset := end;
    }
    assert data[..offset] == data;
  }

  lemma AsciiPiece(data: seq<byte>, final: bool, offset: nat)
    requires IsAscii(data) && offset < |data|
    ensures PieceLength(data[offset..], final) == Some(1)
  {
    assert data[offset] in data && StartsWithChar(data[offset..], 1);
    NoOtherChar(data[offset..], 1);
  }

  ghost predicate Stored(data: seq<byte>, final: bool, chunks: seq<seq<byte>>, start: nat) {
    start <= |data| && Concat(chunks) == data[..start] && SizesOk(chunks) && AllCuts(data, final, chunks)
  }

  /** Storing data[start..end]: the chunk before it turns out full, and it is, if nothing more would fit. */
  method Store(data: seq<byte>, final: bool, chunks: seq<seq<byte>>, start: nat,
               end: nat) returns (more: seq<seq<byte>>)
    requires start < end <= |data| && end - start <= OUTPUT_CHUNK_BYTES && Stored(data, final, chunks, start)
    requires FullSoFar(data, final, chunks) && Reaches(data, final, 0, end) && PieceLength(data[start..], final).Some?
    ensures Stored(data, final, more, end) && ButLastFull(data, final, more)
    ensures end - start == OUTPUT_CHUNK_BYTES || NoRoom(data, final, start, end) ==> FullSoFar(data, final, more)
  {
    more := chunks + [data[start..end]];
    assert Init(more) == chunks && Last(more) == data[start..end];
    assert data[..start] + data[start..end] == data[..end];
  }

  /** The piece at `end` does not fit behind `start`. */
  ghost predicate NoRoom(data: seq<byte>, final: bool, start: nat, end: nat) {
    start <= end < |data| && PieceLength(data[end..], final).Some?
      && end + PieceLength(data[end..], final).value - start > OUTPUT_CHUNK_BYTES
  }

  lemma ScanOne(data: seq<byte>, final: bool, cursor: nat, n: nat)
    requires cursor < |data| && Reaches(data, final, 0, cursor) && PieceLength(data[cursor..], final) == Some(n)
    ensures cursor < cursor + n <= |data| && Reaches(data, final, 0, cursor + n)
  {
    CutsCompose(data, final, 0, cursor, cursor + n);
  }

  lemma NothingStored(data: seq<byte>, final: bool)
    ensures Stored(data, final, [], 0) && FullSoFar(data, final, []) && Reaches(data, final, 0, 0)
  {
  }

  /** The loop of `splitOutputChunks`: what it has stored, and the tail it has seen but not stored. */
  method ScanPieces(data: seq<byte>, final: bool) returns (chunks: seq<seq<byte>>, chunkStart: nat, cursor: nat)
    ensures chunkStart <= cursor <= |data| && cursor - chunkStart < OUTPUT_CHUNK_BYTES
    ensures Stored(data, final, chunks, chunkStart) && FullSoFar(data, final, chunks) && Reaches(data, final, 0, cursor)
    ensures chunkStart < cursor ==> PieceLength(data[chunkStart..], final).Some?
    ensures cursor < |data| ==> PieceLength(data[cursor..], final).None?
  {
    hide Stored, FullSoFar, ButLastFull, Reaches, PieceLength;
    NothingStored(data, final);
    chunks, chunkStart, cursor := [], 0, 0;
    while cursor < |data|
      invariant chunkStart <= cursor <= |data| && cursor - chunkStart < OUTPUT_CHUNK_BYTES
      invariant Stored(data, final, chunks, chunkStart) && FullSoFar(data, final, chunks)
      invariant Reaches(data, final, 0, cursor)
      invariant chunkStart < cursor ==> PieceLength(data[chunkStart..], final).Some?
      decreases |data| - cursor, |data| - chunkStart
    {
      var length := SequenceLengthAt(data, cursor, final);
      if length.None? { return; }
      if cursor > chunkStart && cursor + length.value - chunkStart > OUTPUT_CHUNK_BYTES {
        chunks := Store(data, final, chunks, chunkStart, cursor);
        chunkStart := cursor;
        continue;
      }
      ScanOne(data, final, cursor, length.value);
      cursor := cursor + length.value;
      if cursor - chunkStart == OUTPUT_CHUNK_BYTES {
        chunks := Store(data, final, chunks, chunkStart, cursor);
        chunkStart := cursor;
      }
    }
  }

  method SplitPieces(data: seq<byte>, final: bool) returns (chunks: seq<seq<byte>>, rest: seq<byte>)
    ensures Splits(data, final, chunks, rest)
    ensures ButLastFull(data, final, chunks)
  {
    var chunkStart, cursor;
    chunks, chunkStart, cursor := ScanPieces(data, final);
    if cursor > chunkStart { chunks := Store(data, final, chunks, chunkStart, cursor); }
    rest := data[cursor..];
    assert data[..cursor] + rest == data;
  }

  // ------------------------------------------------------------------------------------ streaming

  /** After any number of data events: what is stored and pending is the stream, cut where the whole stream is cut. */
  ghost predicate Streamed(all: seq<byte>, stored: seq<seq<byte>>, pending: seq<byte>) {
    Splits(all, false, stored, pending)
  }

  lemma EmptyStream()
    ensures Streamed(Concat([]), [], [])
  {
  }

  lemma PendingIsShort(all: seq<byte>, stored: seq<seq<byte>>, pending: seq<byte>)
    requires Streamed(all, stored, pending)
    ensures |pending| <= 3
  {
    if pending != [] { UnfinishedIs(pending); }
  }

  lemma {:induction false} EarlierCutsStay(all: seq<byte>, more: seq<byte>, stored: seq<seq<byte>>, final: bool)
    requires AllCuts(all, false, stored)
    ensures AllCuts(all + more, final, stored)
  {
    CutsAreStable(all, more, final, 0, |Concat(stored)|);
    if stored != [] { EarlierCutsStay(all, more, Init(stored), final); }
  }

  lemma LaterCut(whole: seq<byte>, base: nat, size: nat, final: bool)
    requires base + size <= |whole| && Reaches(whole, final, 0, base) && Reaches(whole[base..], final, 0, size)
    ensures Reaches(whole, final, 0, base + size)
  {
    CutsOfSuffix(whole, final, base, 0, size);
    CutsCompose(whole, final, 0, base, base + size);
  }

  lemma {:induction false} LaterCutsAreCuts(whole: seq<byte>, stored: seq<seq<byte>>, chunks: seq<seq<byte>>,
                                            final: bool)
    requires AllCuts(whole, final, stored) && AllCuts(whole[|Concat(stored)|..], final, chunks)
    ensures AllCuts(whole, final, stored + chunks)
  {
    if chunks == [] {
      assert stored + chunks == stored;
    } else {
      assert Init(stored + chunks) == stored + Init(chunks);
      LaterCutsAreCuts(whole, stored, Init(chunks), final);
      ConcatOfBoth(stored, chunks);
      LaterCut(whole, |Concat(stored)|, |Concat(chunks)|, final);
    }
  }

  /** The cuts of the split suffix are cuts of the whole. */
  lemma CutsContinue(all: seq<byte>, more: seq<byte>, stored: seq<seq<byte>>, pending: seq<byte>,
                     chunks: seq<seq<byte>>, rest: seq<byte>, final: bool)
    requires Splits(all, false, stored, pending) && Splits(pending + more, final, chunks, rest)
    ensures Splits(all + more, final, stored + chunks, rest)
  {
    hide Reaches, PieceLength;
    EarlierCutsStay(all, more, stored, final);
    assert (all + more)[|Concat(stored)|..] == pending + more;
    LaterCutsAreCuts(all + more, stored, chunks, final);
    assert Concat(stored + chunks) + rest == all + more by {
      ConcatOfBoth(stored, chunks);
      AppendAssociates(Concat(stored), pending, more);
      AppendAssociates(Concat(stored), Concat(chunks), rest);
    }
  }

  /** However the stream is cut into data events: one more event, or the final flush. */
  lemma EventContinuesStream(all: seq<byte>, more: seq<byte>, stored: seq<seq<byte>>, pending: seq<byte>,
                             chunks: seq<seq<byte>>, rest: seq<byte>)
    requires Streamed(all, stored, pending) && Splits(pending + more, false, chunks, rest)
    ensures Streamed(all + more, stored + chunks, rest)
  {
    CutsContinue(all, more, stored, pending, chunks, rest, false);
  }

  /** The chunks are the whole stream, cut at its own cuts; text gives only text. */
  ghost predicate Whole(all: seq<byte>, chunks: seq<seq<byte>>) {
    && Concat(chunks) == all && SizesOk(chunks) && AllCuts(all, true, chunks)
    && (WellFormed(all) ==> forall c :: c in chunks ==> WellFormed(c))
  }

  /** After the flush the chunks are the whole stream, cut at its own cuts; text gives only text. */
  lemma FlushEndsStream(all: seq<byte>, stored: seq<seq<byte>>, pending: seq<byte>, chunks: seq<seq<byte>>,
                        rest: seq<byte>)
    requires Streamed(all, stored, pending) && Splits(pending, true, chunks, rest)
    ensures Whole(all, stored + chunks) && rest == [] && |Concat(chunks)| == |pending|
  {
    assert pending + [] == pending && all + [] == all;
    CutsContinue(all, [], stored, pending, chunks, rest, true);
    assert rest == [];
    if WellFormed(all) { TextGivesText(all, stored + chunks); }
  }

  lemma TextBetweenReached(all: seq<byte>, a: nat, b: nat)
    requires WellFormed(all) && a <= b <= |all| && Reaches(all, true, 0, a) && Reaches(all, true, 0, b)
    ensures WellFormed(all[a..b])
  {
    assert all[0..] == all;
    TextBetweenCuts(all, 0, a);
    CutsBetween(all, 0, a, b);
    TextBetweenCuts(all, a, b);
  }

  lemma {:induction false} TextGivesText(all: seq<byte>, chunks: seq<seq<byte>>)
    requires WellFormed(all) && Concat(chunks) <= all && AllCuts(all, true, chunks)
    ensures forall c :: c in chunks ==> WellFormed(c)
  {
    if chunks != [] {
      var a, b := |Concat(Init(chunks))|, |Concat(chunks)|;
      TextGivesText(all, Init(chunks));
      assert Last(chunks) == all[a..b];
      TextBetweenReached(all, a, b);
      forall c | c in chunks ensures WellFormed(c) { assert c == Last(chunks) || c in Init(chunks); }
    }
  }

  /** Of two cuts, the later is reached from the earlier. */
  lemma {:induction false} CutsBetween(s: seq<byte>, start: nat, a: nat, b: nat)
    requires start <= a <= b <= |s| && Reaches(s, true, start, a) && Reaches(s, true, start, b)
    ensures Reaches(s, true, a, b)
    decreases a - start
  {
    if start < a { CutsBetween(s, start + PieceLength(s[start..], true).value, a, b); }
  }

  /** Any stream in any number of data events, each split as it comes, and the flush at the end. */
  method StreamThrough(events: seq<seq<byte>>) returns (stored: seq<seq<byte>>)
    ensures Whole(Concat(events), stored)
  {
    hide Streamed, Whole, Concat;
    var pending: seq<byte> := [];
    stored := [];
    EmptyStream();
    for n := 0 to |events|
      invariant Streamed(Concat(events[..n]), stored, pending)
    {
      stored, pending := TakeEvent(Concat(events[..n]), stored, pending, events[n]);
      ConcatPush(events[..n], events[n]);
      assert events[..n + 1] == events[..n] + [events[n]];
    }
    assert events[..|events|] == events;
    stored := TakeEnd(Concat(events), stored, pending);
  }

  method TakeEvent(ghost all: seq<byte>, stored: seq<seq<byte>>, pending: seq<byte>, data: seq<byte>)
    returns (more: seq<seq<byte>>, rest: seq<byte>)
    requires Streamed(all, stored, pending)
    ensures Streamed(all + data, more, rest)
  {
    hide Streamed, Splits, ButLastFull;
    var chunks;
    chunks, rest := SplitOutputChunks(pending + data, false);
    EventContinuesStream(all, data, stored, pending, chunks, rest);
    more := stored + chunks;
  }

  method TakeEnd(ghost all: seq<byte>, stored: seq<seq<byte>>, pending: seq<byte>) returns (more: seq<seq<byte>>)
    requires Streamed(all, stored, pending)
    ensures Whole(all, more)
  {
    hide Streamed, Splits, ButLastFull, Whole;
    var chunks, rest := SplitOutputChunks(pending, true);
    FlushEndsStream(all, stored, pending, chunks, rest);
    more := stored + chunks;
  }
}
