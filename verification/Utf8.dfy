/** Well-formed UTF-8, as section 4 of RFC 3629 defines it, and the greedy cut of arbitrary bytes into pieces. */
module Utf8 {
  import opened Wrappers

  type byte = b: int | 0 <= b < 256

  predicate Tail(b: byte) { 0x80 <= b <= 0xBF }

  /** One UTF8-char of the grammar. */
  predicate IsChar(s: seq<byte>) {
    || (|s| == 1 && s[0] <= 0x7F)
    || (|s| == 2 && 0xC2 <= s[0] <= 0xDF && Tail(s[1]))
    || (|s| == 3 && Tail(s[2]) &&
        (|| (s[0] == 0xE0 && 0xA0 <= s[1] <= 0xBF)
         || (0xE1 <= s[0] <= 0xEC && Tail(s[1]))
         || (s[0] == 0xED && 0x80 <= s[1] <= 0x9F)
         || (0xEE <= s[0] <= 0xEF && Tail(s[1]))))
    || (|s| == 4 && Tail(s[2]) && Tail(s[3]) &&
        (|| (s[0] == 0xF0 && 0x90 <= s[1] <= 0xBF)
         || (0xF1 <= s[0] <= 0xF3 && Tail(s[1]))
         || (s[0] == 0xF4 && 0x80 <= s[1] <= 0x8F)))
  }

  predicate StartsWithChar(s: seq<byte>, n: nat) { n <= |s| && IsChar(s[..n]) }

  /** UTF8-octets: any number of characters. */
  predicate WellFormed(s: seq<byte>) {
    s == [] || exists n :: 1 <= n <= 4 && n <= |s| && StartsWithChar(s, n) && WellFormed(s[n..])
  }

  /** More bytes can make it a character. */
  ghost predicate Unfinished(s: seq<byte>) {
    s != [] && exists more: seq<byte> :: more != [] && IsChar(s + more)
  }

  /**
    * How many bytes the next piece of `s` has: a character is a piece, and so is a byte that starts none.
    * While more bytes may come, an unfinished character is not cut yet.
    */
  ghost function PieceLength(s: seq<byte>, final: bool): (r: Option<nat>)
    requires s != []
    ensures r.Some? ==> 1 <= r.value <= |s| && r.value <= 4
  {
    if StartsWithChar(s, 1) then Some(1)
    else if StartsWithChar(s, 2) then Some(2)
    else if StartsWithChar(s, 3) then Some(3)
    else if StartsWithChar(s, 4) then Some(4)
    else if Unfinished(s) && !final then None
    else Some(1)
  }

  /** b is a cut of the greedy decomposition that starts at a. */
  ghost predicate Reaches(s: seq<byte>, final: bool, a: nat, b: nat)
    requires a <= b <= |s|
    decreases b - a
  {
    a == b || (PieceLength(s[a..], final).Some? && a + PieceLength(s[a..], final).value <= b
               && Reaches(s, final, a + PieceLength(s[a..], final).value, b))
  }

  // -------------------------------------------------------------------------------------- characters

  lemma NoCharExtendsAnother(s: seq<byte>, m: nat, n: nat)
    requires StartsWithChar(s, m) && StartsWithChar(s, n)
    ensures m == n && 1 <= m <= 4
  {
    assert m > 0 && n > 0 && s[..m][0] == s[0] && s[..n][0] == s[0];
  }

  /** Being unfinished takes at most three bytes, and says what the second may be. */
  lemma UnfinishedIs(s: seq<byte>)
    ensures Unfinished(s) <==>
      || (|s| == 1 && 0xC2 <= s[0] <= 0xF4)
      || (2 <= |s| <= 3 && 0xE0 <= s[0] <= 0xF4 && Tail(s[1]) && (|s| == 3 ==> s[0] >= 0xF0 && Tail(s[2]))
          && (s[0] == 0xE0 ==> s[1] >= 0xA0) && (s[0] == 0xED ==> s[1] <= 0x9F)
          && (s[0] == 0xF0 ==> s[1] >= 0x90) && (s[0] == 0xF4 ==> s[1] <= 0x8F))
  {
    if Unfinished(s) {
      var more :| more != [] && IsChar(s + more);
      assert (s + more)[0] == s[0] && (|s| > 1 ==> (s + more)[1] == s[1]) && (|s| > 2 ==> (s + more)[2] == s[2]);
    }
    if |s| == 1 && 0xC2 <= s[0] <= 0xF4 {
      var second: byte := if s[0] == 0xE0 then 0xA0 else if s[0] == 0xF0 then 0x90 else 0x80;
      var more: seq<byte> := if s[0] <= 0xDF then [second] else if s[0] <= 0xEF then [second, 0x80]
        else [second, 0x80, 0x80];
      assert IsChar(s + more);
    }
    if |s| == 2 && 0xE0 <= s[0] <= 0xF4 && Tail(s[1]) && (s[0] == 0xE0 ==> s[1] >= 0xA0)
      && (s[0] == 0xED ==> s[1] <= 0x9F)
      && (s[0] == 0xF0 ==> s[1] >= 0x90) && (s[0] == 0xF4 ==> s[1] <= 0x8F) {
      var more: seq<byte> := if s[0] <= 0xEF then [0x80] else [0x80, 0x80];
      assert IsChar(s + more);
    }
    if |s| == 3 && 0xF0 <= s[0] <= 0xF4 && Tail(s[1]) && Tail(s[2]) && (s[0] == 0xF0 ==> s[1] >= 0x90)
      && (s[0] == 0xF4 ==> s[1] <= 0x8F) {
      var more: seq<byte> := [0x80];
      assert IsChar(s + more);
    }
  }

  // ------------------------------------------------------------------------------- more bytes coming

  lemma BeginningIsUnfinished(s: seq<byte>, more: seq<byte>)
    requires s != []
    ensures Unfinished(s + more) ==> Unfinished(s)
    ensures forall n :: |s| < n && StartsWithChar(s + more, n) ==> Unfinished(s)
  {
    if Unfinished(s + more) {
      var rest :| rest != [] && IsChar(s + more + rest);
      assert s + (more + rest) == s + more + rest;
    }
    forall n | |s| < n && StartsWithChar(s + more, n) ensures Unfinished(s) {
      assert s + more[..n - |s|] == (s + more)[..n];
    }
  }

  /** A piece cut before the end of the stream is the piece the whole stream has there. */
  lemma PieceIsStable(s: seq<byte>, more: seq<byte>, final: bool)
    requires s != [] && PieceLength(s, false).Some?
    ensures PieceLength(s + more, final) == PieceLength(s, false)
  {
    BeginningIsUnfinished(s, more);
    forall n | 1 <= n <= |s|
      ensures StartsWithChar(s, n) == StartsWithChar(s + more, n)
    {
      assert (s + more)[..n] == s[..n];
    }
    var found := PieceLength(s, false).value;
    if StartsWithChar(s, found) {
      forall n | n <= 4 && StartsWithChar(s + more, n) ensures n == found { NoCharExtendsAnother(s + more, n, found); }
    }
  }

  lemma {:induction false} CutsAreStable(s: seq<byte>, more: seq<byte>, final: bool, a: nat, b: nat)
    requires a <= b <= |s| && Reaches(s, false, a, b)
    ensures Reaches(s + more, final, a, b)
    decreases b - a
  {
    if a < b {
      assert (s + more)[a..] == s[a..] + more;
      PieceIsStable(s[a..], more, final);
      CutsAreStable(s, more, final, a + PieceLength(s[a..], false).value, b);
    }
  }

  lemma {:induction false} CutsCompose(s: seq<byte>, final: bool, a: nat, b: nat, c: nat)
    requires a <= b <= c <= |s| && Reaches(s, final, a, b) && Reaches(s, final, b, c)
    ensures Reaches(s, final, a, c)
    decreases b - a
  {
    if a < b { CutsCompose(s, final, a + PieceLength(s[a..], final).value, b, c); }
  }

  /** The cuts of a suffix are the cuts of the whole from there on. */
  lemma {:induction false} CutsOfSuffix(s: seq<byte>, final: bool, start: nat, a: nat, b: nat)
    requires start <= |s| && a <= b <= |s| - start && Reaches(s[start..], final, a, b)
    ensures Reaches(s, final, start + a, start + b)
    decreases b - a
  {
    if a < b {
      assert s[start..][a..] == s[start + a..];
      CutsOfSuffix(s, final, start, a + PieceLength(s[start..][a..], final).value, b);
    }
  }

  // --------------------------------------------------------------------------------------- text

  /** The first piece of well-formed text is its first character, and the rest is text again. */
  lemma FirstPieceOfText(s: seq<byte>)
    requires WellFormed(s) && s != []
    ensures PieceLength(s, true).Some? && StartsWithChar(s, PieceLength(s, true).value)
    ensures WellFormed(s[PieceLength(s, true).value..])
  {
    var n :| 1 <= n <= 4 && n <= |s| && StartsWithChar(s, n) && WellFormed(s[n..]);
    var m := PieceLength(s, true).value;
    NoCharExtendsAnother(s, n, if StartsWithChar(s, m) then m else n);
  }

  lemma CharThenText(s: seq<byte>, n: nat)
    requires StartsWithChar(s, n) && WellFormed(s[n..])
    ensures WellFormed(s)
  {
    NoCharExtendsAnother(s, n, n);
  }

  lemma SameFirstChar(s: seq<byte>, a: nat, b: nat, n: nat)
    requires a + n <= b <= |s| && StartsWithChar(s[a..], n)
    ensures StartsWithChar(s[a..b], n) && s[a..b][n..] == s[a + n..b] && s[a..][n..] == s[a + n..]
  {
    assert s[a..b][..n] == s[a..][..n];
  }

  /** Cutting text at two of its cuts gives text. */
  lemma {:induction false} TextBetweenCuts(s: seq<byte>, a: nat, b: nat)
    requires a <= b <= |s| && WellFormed(s[a..]) && Reaches(s, true, a, b)
    ensures WellFormed(s[a..b]) && WellFormed(s[b..])
    decreases b - a
  {
    hide StartsWithChar, IsChar, PieceLength;
    if a < b {
      FirstPieceOfText(s[a..]);
      var n := PieceLength(s[a..], true).value;
      SameFirstChar(s, a, b, n);
      TextBetweenCuts(s, a + n, b);
      CharThenText(s[a..b], n);
    } else {
      assert s[a..b] == [];
    }
  }
}
