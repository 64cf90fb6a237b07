/** Paging through a UTF-8 file: `utf8ChunkLength` and `readFileChunk` of src/file-service.ts. */
module FileService {
  import opened Arithmetic
  import opened Wrappers
  import opened Utf8
  import opened OutputChunks

  datatype ReadError = InvalidUtf8(offset: nat) | TruncatedUtf8(offset: nat)

  datatype Page = Page(data: seq<byte>, offset: nat, nextOffset: nat, eof: bool)

  /** `utf8SequenceLength`: what the first byte announces. */
  function SequenceLength(first: byte): nat {
    if first <= 0x7F then 1
    else if 0xC2 <= first <= 0xDF then 2
    else if 0xE0 <= first <= 0xEF then 3
    else if 0xF0 <= first <= 0xF4 then 4
    else 0
  }

  // ------------------------------------------------------------------------------------- characters

  lemma CharAnnouncesItself(s: seq<byte>, n: nat)
    requires StartsWithChar(s, n)
    ensures s != [] && SequenceLength(s[0]) == n && 1 <= n <= 4
  {
    assert n > 0 && s[..n][0] == s[0];
  }

  /** Bytes as many as their first one announces are text only when they are one character. */
  lemma AnnouncedTextIsChar(s: seq<byte>)
    requires s != [] && |s| == SequenceLength(s[0]) && WellFormed(s)
    ensures IsChar(s)
  {
    var n :| 1 <= n <= 4 && n <= |s| && StartsWithChar(s, n) && WellFormed(s[n..]);
    CharAnnouncesItself(s, n);
    assert s[..n] == s;
  }

  lemma CharIsText(s: seq<byte>)
    requires IsChar(s)
    ensures WellFormed(s)
  {
    assert s[..|s|] == s;
    CharThenText(s, |s|);
  }

  /** The first character of a text, as its first byte announces it. */
  lemma FirstChar(s: seq<byte>) returns (n: nat)
    requires WellFormed(s) && s != []
    ensures n == SequenceLength(s[0]) && 1 <= n <= |s| && StartsWithChar(s, n) && WellFormed(s[n..])
  {
    n :| 1 <= n <= 4 && n <= |s| && StartsWithChar(s, n) && WellFormed(s[n..]);
    CharAnnouncesItself(s, n);
  }

  lemma DropOfConcat(a: seq<byte>, b: seq<byte>, n: nat)
    requires n <= |a|
    ensures (a + b)[n..] == a[n..] + b && (a + b)[..|a|] == a
  {
  }

  lemma WindowShift(s: seq<byte>, c: nat, n: nat)
    requires n <= c <= |s|
    ensures s[..c][n..] == s[n..][..c - n] && s[n..][c - n..] == s[c..]
  {
  }

  lemma SameStart(s: seq<byte>, c: nat, n: nat)
    requires n <= c <= |s|
    ensures StartsWithChar(s[..c], n) == StartsWithChar(s, n)
  {
    assert s[..c][..n] == s[..n];
  }

  lemma {:induction false} TextThenText(a: seq<byte>, b: seq<byte>)
    requires WellFormed(a) && WellFormed(b)
    ensures WellFormed(a + b)
    decreases |a|
  {
    if a == [] {
      assert a + b == b;
    } else {
      var n := FirstChar(a);
      TextThenText(a[n..], b);
      DropOfConcat(a, b, n);
      SameStart(a + b, |a|, n);
      CharThenText(a + b, n);
    }
  }

  /** What follows a text prefix of a text is text. */
  lemma {:induction false} RestIsText(s: seq<byte>, c: nat)
    requires c <= |s| && WellFormed(s) && WellFormed(s[..c])
    ensures WellFormed(s[c..])
    decreases c
  {
    hide StartsWithChar, IsChar;
    if c == 0 {
      assert s[0..] == s;
    } else {
      var n := FirstChar(s);
      var m := FirstChar(s[..c]);
      assert m == n by { SameStart(s, c, m); }
      WindowShift(s, c, n);
      RestIsText(s[n..], c - n);
    }
  }

  /** The next character of a text, at a boundary of it. */
  lemma NextChar(s: seq<byte>, c: nat)
    requires c < |s| && WellFormed(s) && WellFormed(s[..c])
    ensures 1 <= SequenceLength(s[c]) <= |s| - c && IsChar(s[c..c + SequenceLength(s[c])])
  {
    hide WellFormed, IsChar;
    RestIsText(s, c);
    var n := FirstChar(s[c..]);
    assert s[c..][..n] == s[c..c + n];
  }

  // ------------------------------------------------------------------------------------- one page

  /** Some text begins with these bytes (and is all of them, at the end of the file). */
  ghost predicate BeginsText(buffer: seq<byte>, reachesEndOfFile: bool) {
    exists more: seq<byte> :: (reachesEndOfFile ==> more == []) && WellFormed(buffer + more)
  }

  /** `utf8ChunkLength`. */
  method ChunkLength(buffer: seq<byte>, requestedBytes: nat, absoluteOffset: nat,
                     reachesEndOfFile: bool) returns (r: Result<nat, ReadError>)
    ensures r.Err? ==> !BeginsText(buffer, reachesEndOfFile)
    ensures r.Ok? ==> r.value <= |buffer| && WellFormed(buffer[..r.value])
    ensures r.Ok? ==> r.value <= requestedBytes || IsChar(buffer[..r.value])
    ensures r.Ok? && r.value < |buffer| && r.value < requestedBytes ==>
      SequenceLength(buffer[r.value]) > requestedBytes - r.value || SequenceLength(buffer[r.value]) > |buffer| - r.value
    ensures r == Ok(0) && buffer != [] ==> SequenceLength(buffer[0]) > |buffer| && !reachesEndOfFile
  {
    var cursor := 0;
    var lastBoundary := 0;
    while cursor < |buffer|
      invariant cursor == lastBoundary <= |buffer| && WellFormed(buffer[..cursor]) && cursor <= requestedBytes
    {
      if cursor >= requestedBytes && lastBoundary > 0 { return Ok(lastBoundary); }
      var sequenceLength := SequenceLength(buffer[cursor]);
      NotText(buffer, cursor, reachesEndOfFile);
      if sequenceLength == 0 { return Err(InvalidUtf8(absoluteOffset + cursor)); }
      var nextBoundary := cursor + sequenceLength;
      if nextBoundary > |buffer| {
        if reachesEndOfFile { return Err(TruncatedUtf8(absoluteOffset + cursor)); }
        break;
      }
      if !WellFormed(buffer[cursor..nextBoundary]) { return Err(InvalidUtf8(absoluteOffset + cursor)); }
      AnnouncedTextIsChar(buffer[cursor..nextBoundary]);
      assert buffer[..nextBoundary] == buffer[..cursor] + buffer[cursor..nextBoundary];
      TextThenText(buffer[..cursor], buffer[cursor..nextBoundary]);
      if nextBoundary > requestedBytes { return Ok(if lastBoundary == 0 then nextBoundary else lastBoundary); }
      lastBoundary := nextBoundary;
      cursor := nextBoundary;
    }
    return Ok(lastBoundary);
  }

  /** What the error branches rule out. */
  lemma NotText(buffer: seq<byte>, cursor: nat, reachesEndOfFile: bool)
    requires cursor < |buffer| && WellFormed(buffer[..cursor])
    ensures BeginsText(buffer, reachesEndOfFile) ==>
      var n := SequenceLength(buffer[cursor]);
      n > 0 && (reachesEndOfFile ==> cursor + n <= |buffer|)
        && (cursor + n <= |buffer| ==> WellFormed(buffer[cursor..cursor + n]))
  {
    if BeginsText(buffer, reachesEndOfFile) { NextOfText(buffer, cursor, reachesEndOfFile); }
  }

  lemma NextOfText(buffer: seq<byte>, cursor: nat, reachesEndOfFile: bool)
    requires cursor < |buffer| && WellFormed(buffer[..cursor]) && BeginsText(buffer, reachesEndOfFile)
    ensures var n := SequenceLength(buffer[cursor]);
      n > 0 && (reachesEndOfFile ==> cursor + n <= |buffer|)
        && (cursor + n <= |buffer| ==> WellFormed(buffer[cursor..cursor + n]))
  {
    var more: seq<byte> :| (reachesEndOfFile ==> more == []) && WellFormed(buffer + more);
    var s := buffer + more;
    assert s[..cursor] == buffer[..cursor];
    NextChar(s, cursor);
    var n := SequenceLength(s[cursor]);
    if cursor + n <= |buffer| {
      assert s[cursor..cursor + n] == buffer[cursor..cursor + n];
      CharIsText(s[cursor..cursor + n]);
    }
  }

  // --------------------------------------------------------------------------------- reading a file

  function Requested(available: nat, maxBytes: nat, maxChunkBytes: nat): nat {
    Min(Min(maxBytes, maxChunkBytes), available)
  }

  /** How many bytes are read to find the boundary: up to three more than asked for. */
  function Probe(available: nat, maxBytes: nat, maxChunkBytes: nat): nat {
    Min(Min(maxChunkBytes, available), Requested(available, maxBytes, maxChunkBytes) + 3)
  }

  /** A character boundary of a text file. */
  predicate AtBoundary(file: seq<byte>, offset: int) {
    0 <= offset <= |file| && WellFormed(file[..offset])
  }

  /** A page of a text, read from a boundary. */
  ghost predicate TextPage(file: seq<byte>, offset: nat, maxBytes: nat, maxChunkBytes: nat, page: Page)
    requires offset <= |file|
  {
    && page.offset == offset && page.offset <= page.nextOffset <= |file| && page.data == file[offset..page.nextOffset]
    && WellFormed(page.data) && AtBoundary(file, page.nextOffset) && (page.eof <==> page.nextOffset == |file|)
    && (|page.data| <= Requested(|file| - offset, maxBytes, maxChunkBytes) || IsChar(page.data))
    && (page.data == [] <==>
       offset == |file| || SequenceLength(file[offset]) > Probe(|file| - offset, maxBytes, maxChunkBytes))
  }

  /**
    * `readFileChunk` with utf8 encoding, of an unchanged file whose read returns all that was asked for.
    * From a boundary of a text it never fails, and it stalls exactly when the next character is longer
    * than what may be read at once.
    */
  method ReadFileChunk(file: seq<byte>, offset: int, maxBytes: nat, maxChunkBytes: nat)
    returns (r: Result<Page, ReadError>)
    ensures r.Ok? ==> WellFormed(r.value.data)
    ensures WellFormed(file) && AtBoundary(file, offset) ==>
      r.Ok? && TextPage(file, offset, maxBytes, maxChunkBytes, r.value)
  {
    var safeOffset: nat := if offset < 0 then 0 else Min(offset, |file|);
    var availableBytes := |file| - safeOffset;
    var requestedBytes := Requested(availableBytes, maxBytes, maxChunkBytes);
    var probeBytes := Probe(availableBytes, maxBytes, maxChunkBytes);
    var bytesRead := ReadAt(file, safeOffset, requestedBytes, probeBytes);
    if bytesRead.Err? { return Err(bytesRead.error); }
    var nextOffset := safeOffset + bytesRead.value;
    if WellFormed(file) && AtBoundary(file, offset) { PageOfText(file, safeOffset, nextOffset, probeBytes); }
    return Ok(Page(file[safeOffset..nextOffset], safeOffset, nextOffset, nextOffset >= |file|));
  }

  /** How many of the probed bytes make the page. */
  method ReadAt(file: seq<byte>, offset: nat, requestedBytes: nat, probeBytes: nat) returns (r: Result<nat, ReadError>)
    requires offset + probeBytes <= |file|
    ensures r.Ok? ==> r.value <= probeBytes && WellFormed(file[offset..offset + r.value])
    ensures r.Ok? ==> r.value <= requestedBytes || IsChar(file[offset..offset + r.value])
    ensures r == Ok(0) && probeBytes > 0 ==> SequenceLength(file[offset]) > probeBytes
    ensures WellFormed(file) && AtBoundary(file, offset) ==> r.Ok?
  {
    if probeBytes == 0 { return Ok(0); }
    var buffer := file[offset..offset + probeBytes];
    r := ChunkLength(buffer, requestedBytes, offset, offset + probeBytes >= |file|);
    if r.Err? && WellFormed(file) && AtBoundary(file, offset) { WindowBeginsText(file, offset, probeBytes); }
    if r.Ok? { assert buffer[..r.value] == file[offset..offset + r.value]; }
  }

  lemma WindowBeginsText(file: seq<byte>, offset: nat, probe: nat)
    requires WellFormed(file) && AtBoundary(file, offset) && offset + probe <= |file|
    ensures BeginsText(file[offset..offset + probe], offset + probe >= |file|)
  {
    RestIsText(file, offset);
    SplitWindow(file, offset, offset + probe);
    assert WellFormed(file[offset..offset + probe] + file[offset + probe..]);
  }

  lemma SplitWindow(s: seq<byte>, a: nat, b: nat)
    requires a <= b <= |s|
    ensures s[a..] == s[a..b] + s[b..] && s[..b] == s[..a] + s[a..b]
  {
  }

  /** Where a page of text ends is a boundary, and what the first character has to do with its being empty. */
  lemma PageOfText(file: seq<byte>, offset: nat, next: nat, probe: nat)
    requires WellFormed(file) && AtBoundary(file, offset) && offset <= next <= offset + probe <= |file|
    requires WellFormed(file[offset..next])
    ensures AtBoundary(file, next)
    ensures offset < next ==> SequenceLength(file[offset]) <= next - offset
    ensures offset == next < |file| ==> 1 <= SequenceLength(file[offset]) <= |file| - offset
  {
    SplitWindow(file, offset, next);
    TextThenText(file[..offset], file[offset..next]);
    if offset < next {
      var n := FirstChar(file[offset..next]);
    } else if offset < |file| {
      NextChar(file, offset);
    }
  }

  /** With room for any character, a page before the end is never empty. */
  method NextPage(file: seq<byte>, offset: nat, maxBytes: nat, maxChunkBytes: nat) returns (page: Page)
    requires WellFormed(file) && AtBoundary(file, offset) && offset < |file| && maxBytes >= 1 && maxChunkBytes >= 4
    ensures offset < page.nextOffset && TextPage(file, offset, maxBytes, maxChunkBytes, page)
    ensures |page.data| <= Min(maxBytes, maxChunkBytes) || (IsChar(page.data) && |page.data| <= 4)
  {
    var r := ReadFileChunk(file, offset, maxBytes, maxChunkBytes);
    NextChar(file, offset);
    page := r.value;
  }

  /** Following nextOffset from 0 reads the whole text, page by nonempty page. */
  method ReadAll(file: seq<byte>, maxBytes: nat, maxChunkBytes: nat) returns (pages: seq<seq<byte>>)
    requires WellFormed(file) && maxBytes >= 1 && maxChunkBytes >= 4
    ensures Concat(pages) == file
    ensures forall page :: page in pages ==> page != [] && WellFormed(page)
    ensures forall page :: page in pages ==> |page| <= Min(maxBytes, maxChunkBytes) || (IsChar(page) && |page| <= 4)
  {
    pages := [];
    var offset: nat := 0;
    while offset < |file|
      invariant AtBoundary(file, offset) && Concat(pages) == file[..offset]
      invariant forall page :: page in pages ==> page != [] && WellFormed(page)
      invariant forall page :: page in pages ==> |page| <= Min(maxBytes, maxChunkBytes) || (IsChar(page) && |page| <= 4)
    {
      var page := NextPage(file, offset, maxBytes, maxChunkBytes);
      ConcatPush(pages, page.data);
      SplitWindow(file, offset, page.nextOffset);
      pages := pages + [page.data];
      offset := page.nextOffset;
    }
    assert file[..offset] == file;
  }

  /**
    * Where the limit of four in `NextPage` and `ReadAll` comes from: with three, the loop of a reader would
    * stay before a character of four bytes. The configuration rejects a chunk limit below 4096 bytes
    * (src/config.ts:367-371), so the server always meets it.
    */
  lemma LimitOfThreeStalls(maxBytes: nat, page: Page)
    requires TextPage([0xF0, 0x9F, 0x98, 0x80], 0, maxBytes, 3, page)
    ensures WellFormed([0xF0, 0x9F, 0x98, 0x80]) && page.data == [] && page.nextOffset == 0 && !page.eof
  {
    CharIsText([0xF0, 0x9F, 0x98, 0x80]);
  }
}
