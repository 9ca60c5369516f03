/**
 Counting the `data:` frames of a streamed reply across arbitrary chunk
 boundaries, with a bounded buffer for the line that is still incomplete.
 */
module Frames {

  newtype byte = x: int | 0 <= x < 256

  const LF: byte := 10
  const CR: byte := 13
  const DATA: seq<byte> := [100, 97, 116, 97, 58]     // "data:"
  const DONE: seq<byte> := [91, 68, 79, 78, 69, 93]   // "[DONE]"

  /** Longest partial line that is kept. */
  const MAX_PARTIAL: nat := 64 * 1024

  // ----- One line -----

  predicate IsSpace(b: byte) {
    b == 32 || b == 9 || b == LF || b == 12 || b == CR
  }

  function TrimStart(s: seq<byte>): seq<byte> {
    if s != [] && IsSpace(s[0]) then TrimStart(s[1..]) else s
  }

  function TrimEnd(s: seq<byte>): seq<byte> {
    if s != [] && IsSpace(s[|s| - 1]) then TrimEnd(s[..|s| - 1]) else s
  }

  function StripCr(line: seq<byte>): seq<byte> {
    if line != [] && line[|line| - 1] == CR then line[..|line| - 1] else line
  }

  /** 1 for a line that carries a token, 0 for any other. */
  function CountLine(line: seq<byte>): (n: nat)
    ensures n <= 1
  {
    var l := StripCr(line);
    if DATA <= l && TrimEnd(TrimStart(l[|DATA|..])) != DONE then 1 else 0
  }

  predicate AllSpace(s: seq<byte>) {
    forall i :: 0 <= i < |s| ==> IsSpace(s[i])
  }

  /** Space, tab, line feed, form feed and carriage return. */
  predicate Blank(s: seq<byte>) {
    forall i :: 0 <= i < |s| ==> s[i] in {32, 9, 10, 12, 13}
  }

  /** The payload is `[DONE]`, with any white space around it. */
  ghost predicate IsDone(payload: seq<byte>) {
    exists a, b :: Blank(a) && Blank(b) && payload == a + ([91, 68, 79, 78, 69, 93] + b)
  }

  lemma BlankIsSpace(s: seq<byte>)
    ensures Blank(s) <==> AllSpace(s)
  {
  }

  lemma {:induction false} TrimStartSplits(s: seq<byte>) returns (a: seq<byte>)
    ensures AllSpace(a) && s == a + TrimStart(s)
  {
    if s != [] && IsSpace(s[0]) {
      var rest := TrimStartSplits(s[1..]);
      a := [s[0]] + rest;
      assert s == [s[0]] + s[1..];
    } else {
      a := [];
    }
  }

  lemma {:induction false} TrimEndSplits(s: seq<byte>) returns (b: seq<byte>)
    ensures AllSpace(b) && s == TrimEnd(s) + b
  {
    if s != [] && IsSpace(s[|s| - 1]) {
      var rest := TrimEndSplits(s[..|s| - 1]);
      b := rest + [s[|s| - 1]];
      assert s == s[..|s| - 1] + [s[|s| - 1]];
    } else {
      b := [];
    }
  }

  lemma {:induction false} TrimStartSkips(a: seq<byte>, s: seq<byte>)
    requires AllSpace(a) && s != [] && !IsSpace(s[0])
    ensures TrimStart(a + s) == s
  {
    if a == [] {
      assert a + s == s;
    } else {
      assert (a + s)[1..] == a[1..] + s;
      TrimStartSkips(a[1..], s);
    }
  }

  lemma {:induction false} TrimEndSkips(s: seq<byte>, b: seq<byte>)
    requires AllSpace(b) && s != [] && !IsSpace(s[|s| - 1])
    ensures TrimEnd(s + b) == s
  {
    if b == [] {
      assert s + b == s;
    } else {
      assert (s + b)[..|s + b| - 1] == s + b[..|b| - 1];
      TrimEndSkips(s, b[..|b| - 1]);
    }
  }

  lemma TrimmedIsDone(payload: seq<byte>)
    ensures TrimEnd(TrimStart(payload)) == DONE <==> IsDone(payload)
  {
    var a := TrimStartSplits(payload);
    var b := TrimEndSplits(TrimStart(payload));
    BlankIsSpace(a);
    BlankIsSpace(b);
    if TrimEnd(TrimStart(payload)) == DONE {
      assert payload == a + (DONE + b);
    }
    if IsDone(payload) {
      var a', b' :| Blank(a') && Blank(b') && payload == a' + ([91, 68, 79, 78, 69, 93] + b');
      BlankIsSpace(a');
      BlankIsSpace(b');
      TrimStartSkips(a', DONE + b');
      TrimEndSkips(DONE, b');
    }
  }

  lemma DoneAndMore(payload: seq<byte>)
    requires IsDone(payload)
    ensures IsDone(payload + [13])
  {
    var done: seq<byte> := [91, 68, 79, 78, 69, 93];
    var a, b :| Blank(a) && Blank(b) && payload == a + (done + b);
    assert Blank(b + [13]);
    assert payload + [13] == a + (done + (b + [13]));
  }

  lemma ButLast(x: seq<byte>, c: byte, y: seq<byte>, d: byte)
    requires x + [c] == y + [d]
    ensures x == y && c == d
  {
    assert x == (x + [c])[..|x|] && y == (y + [d])[..|y|];
    assert (x + [c])[|x|] == c && (y + [d])[|y|] == d;
  }

  lemma DoneAndLess(payload: seq<byte>)
    requires IsDone(payload + [13])
    ensures IsDone(payload)
  {
    var done: seq<byte> := [91, 68, 79, 78, 69, 93];
    var a, b :| Blank(a) && Blank(b) && payload + [13] == a + (done + b);
    if b == [] {
      assert done + b == done[..5] + [93] && a + (done[..5] + [93]) == (a + done[..5]) + [93];
      ButLast(payload, 13, a + done[..5], 93);
      assert false;
    }
    var b', c := b[..|b| - 1], b[|b| - 1];
    assert b == b' + [c] && a + (done + (b' + [c])) == (a + (done + b')) + [c];
    ButLast(payload, 13, a + (done + b'), c);
    assert Blank(b');
  }

  lemma CountIsPrefix(line: seq<byte>)
    ensures CountLine(line) == 1 <==> DATA <= StripCr(line) && !IsDone(StripCr(line)[|DATA|..])
  {
    if DATA <= StripCr(line) { TrimmedIsDone(StripCr(line)[|DATA|..]); }
  }

  /**
   Which lines count: those that start with `data:` and do not go on with just
   `[DONE]` and white space. So it makes no difference whether a line ends with a
   carriage return.
   */
  lemma CountLineMeans(line: seq<byte>)
    ensures CountLine(line) == 1 <==> [100, 97, 116, 97, 58] <= line && !IsDone(line[5..])
    ensures CountLine(line + [13]) == CountLine(line)
  {
    hide CountLine, IsDone;
    CountIsPrefix(line);
    CountIsPrefix(line + [13]);
    assert StripCr(line + [13]) == line;
    if line != [] && line[|line| - 1] == 13 {
      var l := StripCr(line);
      assert line == l + [13];
      if DATA <= line { assert line[4] == 58; }
      if DATA <= l {
        assert line[5..] == l[5..] + [13];
        if IsDone(l[5..]) { DoneAndMore(l[5..]); }
        if IsDone(line[5..]) { DoneAndLess(l[5..]); }
      }
    }
  }

  // ----- The whole stream -----

  /** Position of the first newline, or the length if there is none. */
  function FirstNewline(s: seq<byte>): (p: nat)
    ensures p <= |s| && LF !in s[..p]
    ensures p < |s| ==> s[p] == LF
  {
    if s == [] || s[0] == LF then 0
    else
      var p := 1 + FirstNewline(s[1..]);
      assert s[..p] == [s[0]] + s[1..][..p - 1];
      p
  }

  /** Sum of `f` over the lines of a stream that a newline terminates. */
  function LineSum(s: seq<byte>, f: seq<byte> -> int): int {
    var p := FirstNewline(s);
    if p == |s| then 0 else f(s[..p]) + LineSum(s[p + 1..], f)
  }

  /** What follows the last newline. */
  function Tail(s: seq<byte>): seq<byte> {
    var p := FirstNewline(s);
    if p == |s| then s else Tail(s[p + 1..])
  }

  /** The lines that a newline terminates. */
  function Lines(s: seq<byte>): seq<seq<byte>> {
    var p := FirstNewline(s);
    if p == |s| then [] else [s[..p]] + Lines(s[p + 1..])
  }

  function Token(line: seq<byte>): int { CountLine(line) }
  function Long(line: seq<byte>): int { if |line| > MAX_PARTIAL then 1 else 0 }

  /** The count that a stream defines: one for every terminated line that carries a token. */
  function StreamCount(s: seq<byte>): int { LineSum(s, Token) }

  // ----- The scanner -----

  /** What the buffer holds after a piece of a line without its end: a piece that does not fit is dropped. */
  function Buffered(partial: seq<byte>, piece: seq<byte>): seq<byte> {
    if |partial| + |piece| <= MAX_PARTIAL then partial + piece else partial
  }

  /** What one chunk adds to the count, and the partial line that it leaves. */
  function Fed(partial: seq<byte>, bytes: seq<byte>): (nat, seq<byte>)
    decreases |bytes|
  {
    var p := FirstNewline(bytes);
    if p == |bytes| then (0, Buffered(partial, bytes))
    else
      var (n, partial') := Fed([], bytes[p + 1..]);
      (CountLine(partial + bytes[..p]) + n, partial')
  }

  /** One turn of the loop: the line up to the first newline, then the rest with an empty buffer. */
  lemma FedLine(partial: seq<byte>, bytes: seq<byte>)
    requires FirstNewline(bytes) < |bytes|
    ensures var p := FirstNewline(bytes);
      Fed(partial, bytes) == (CountLine(partial + bytes[..p]) + Fed([], bytes[p + 1..]).0, Fed([], bytes[p + 1..]).1)
  {
    hide FirstNewline, CountLine;
  }

  lemma FedEnd(partial: seq<byte>, bytes: seq<byte>)
    requires FirstNewline(bytes) == |bytes|
    ensures Fed(partial, bytes) == (0, Buffered(partial, bytes))
  {
  }

  class FrameCounter {
    /** What the buffer holds of the line whose end is still to come. */
    var partial: seq<byte>

    constructor ()
      ensures partial == []
    {
      partial := [];
    }

    method Feed(bytes: seq<byte>) returns (n: nat)
      modifies this
      ensures (n, partial) == Fed(old(partial), bytes)
      ensures |old(partial)| <= MAX_PARTIAL ==> |partial| <= MAX_PARTIAL
    {
      hide CountLine, FirstNewline, Fed;
      n := 0;
      var rest := bytes;
      var pos := FirstNewline(rest);
      while pos < |rest|
        invariant pos == FirstNewline(rest)
        invariant n + Fed(partial, rest).0 == Fed(old(partial), bytes).0
        invariant Fed(partial, rest).1 == Fed(old(partial), bytes).1
        invariant |old(partial)| <= MAX_PARTIAL ==> |partial| <= MAX_PARTIAL
        decreases |rest|
      {
        FedLine(partial, rest);
        var lineEnd, after := rest[..pos], rest[pos..];
        assert after[1..] == rest[pos + 1..];
        if partial == [] {
          assert partial + lineEnd == lineEnd;
          n := n + CountLine(lineEnd);
        } else {
          partial := partial + lineEnd;
          n := n + CountLine(partial);
          partial := [];
        }
        rest := after[1..];
        pos := FirstNewline(rest);
      }
      FedEnd(partial, rest);
      if |partial| + |rest| <= MAX_PARTIAL {
        partial := partial + rest;
      }
    }
  }

  /** The count reported for a whole stream that arrives in `chunks`. */
  function FedAll(partial: seq<byte>, chunks: seq<seq<byte>>): nat
    decreases |chunks|
  {
    if chunks == [] then 0
    else
      var (n, partial') := Fed(partial, chunks[0]);
      n + FedAll(partial', chunks[1..])
  }

  function Flatten(chunks: seq<seq<byte>>): seq<byte> {
    if chunks == [] then [] else chunks[0] + Flatten(chunks[1..])
  }

  // ----- Splitting a stream into lines -----

  lemma NewlineAt(s: seq<byte>, p: nat)
    requires p <= |s| && LF !in s[..p] && (p < |s| ==> s[p] == LF)
    ensures FirstNewline(s) == p
  {
    var q := FirstNewline(s);
    assert forall i :: 0 <= i < p ==> s[..p][i] == s[i];
    assert forall i :: 0 <= i < q ==> s[..q][i] == s[i];
  }

  /** The first line of `cur + c` when `cur` has no newline. */
  lemma FirstLine(cur: seq<byte>, c: seq<byte>)
    requires LF !in cur
    ensures FirstNewline(cur + c) == |cur| + FirstNewline(c)
    ensures (cur + c)[..|cur| + FirstNewline(c)] == cur + c[..FirstNewline(c)]
    ensures FirstNewline(c) < |c| ==> (cur + c)[|cur| + FirstNewline(c) + 1..] == c[FirstNewline(c) + 1..]
  {
    var p := FirstNewline(c);
    assert (cur + c)[..|cur| + p] == cur + c[..p];
    NewlineAt(cur + c, |cur| + p);
  }

  lemma {:induction false} SplitLines(a: seq<byte>, b: seq<byte>, f: seq<byte> -> int)
    ensures LF !in Tail(a)
    ensures LineSum(a + b, f) == LineSum(a, f) + LineSum(Tail(a) + b, f)
    ensures Tail(a + b) == Tail(Tail(a) + b)
    decreases |a|
  {
    var p := FirstNewline(a);
    if p == |a| {
      assert a[..p] == a;
    } else {
      assert (a + b)[..p] == a[..p];
      NewlineAt(a + b, p);
      assert (a + b)[p + 1..] == a[p + 1..] + b;
      SplitLines(a[p + 1..], b, f);
    }
  }

  /** Unfolding the sums and the tail at the first newline of `c`. */
  lemma FirstLineSums(cur: seq<byte>, c: seq<byte>, f: seq<byte> -> int)
    requires LF !in cur
    ensures var p := FirstNewline(c);
      && (p == |c| ==> LineSum(cur + c, f) == 0 && Tail(cur + c) == cur + c && LF !in cur + c)
      && (p < |c| ==> LineSum(cur + c, f) == f(cur + c[..p]) + LineSum(c[p + 1..], f) && Tail(cur + c) == Tail(c[p + 1..]))
  {
    hide FirstNewline;
    FirstLine(cur, c);
    var p := FirstNewline(c);
    if p == |c| {
      assert c[..p] == c;
    } else {
      var s, q := cur + c, |cur| + p;
      assert FirstNewline(s) == q < |s| && s[..q] == cur + c[..p] && s[q + 1..] == c[p + 1..];
    }
  }

  /** A stream that arrives in one piece is counted exactly, however long its lines. */
  lemma {:induction false} OneChunk(s: seq<byte>)
    ensures Fed([], s) == (StreamCount(s), Buffered([], Tail(s)))
    decreases |s|
  {
    hide FirstNewline, CountLine, Fed;
    var p := FirstNewline(s);
    if p < |s| {
      FedLine([], s);
      assert [] + s[..p] == s[..p];
      OneChunk(s[p + 1..]);
    } else {
      FedEnd([], s);
      assert [] + s == s;
    }
  }

  /** A line counts when its newline comes, and not before. */
  lemma OneLine(line: seq<byte>)
    requires 10 !in line
    ensures StreamCount(line) == 0 && StreamCount(line + [10]) == CountLine(line)
  {
    hide CountLine, FirstNewline;
    NewlineAt([10], 0);
    NewlineAt([], 0);
    FirstLineSums(line, [10], Token);
    FirstLineSums(line, [], Token);
    assert line + [10][..0] == line && line + [] == line && [10][1..] == [];
  }

  /** Of a line without its end 64 KiB are kept; a longer one that comes in one piece is dropped. */
  lemma KeptUpTo(line: seq<byte>)
    ensures Buffered([], line) == if |line| <= 65536 then line else []
  {
    assert [] + line == line;
  }

  // ----- What can be left of one line -----

  /**
   With `kept` in the buffer and `rest` of the line still to come, some way to
   cut `rest` into pieces, each kept or dropped as it fits, leaves a line that
   counts. The last piece, which comes with the newline, is never dropped.
   */
  ghost predicate CanCount(kept: seq<byte>, rest: seq<byte>)
    decreases |rest|
  {
    || CountLine(kept + rest) == 1
    || exists i :: 1 <= i <= |rest| && CanCount(Buffered(kept, rest[..i]), rest[i..])
  }

  /** However the line is cut into pieces, what is left of it does not count. */
  ghost predicate Inert(line: seq<byte>) { !CanCount([], line) }

  /** The least and the most that splits can make of a line. */
  function Least(line: seq<byte>): int { if |line| > MAX_PARTIAL then 0 else CountLine(line) }

  ghost function Most(line: seq<byte>): int {
    if |line| <= MAX_PARTIAL then CountLine(line) else if Inert(line) then 0 else 1
  }

  lemma CutCounts(kept: seq<byte>, piece: seq<byte>, rest: seq<byte>)
    requires CanCount(Buffered(kept, piece), rest)
    ensures CanCount(kept, piece + rest)
  {
    hide CountLine;
    var line := piece + rest;
    if piece == [] {
      assert line == rest && kept + piece == kept;
    } else {
      assert line[..|piece|] == piece && line[|piece|..] == rest;
      assert 1 <= |piece| <= |line| && CanCount(Buffered(kept, line[..|piece|]), line[|piece|..]);
    }
  }

  /** A long line that starts with the prefix is never inert: its token can be lost, or its end marker cut off. */
  lemma LongDataCounts(line: seq<byte>)
    requires |line| > MAX_PARTIAL && DATA <= line
    ensures !Inert(line)
  {
    var rest := line[|DATA|..];
    assert line == DATA + rest;
    DataCounts();
    assert DATA + [] == DATA && rest + [] == rest;
    assert CanCount(DATA, []);
    hide CanCount;
    assert Buffered(DATA, rest) == DATA;
    CutCounts(DATA, rest, []);
    assert [] + DATA == DATA;
    CutCounts([], DATA, rest);
  }

  lemma DataCounts()
    ensures CountLine(DATA) == 1 && CountLine([]) == 0
  {
    assert StripCr(DATA) == DATA && DATA[|DATA|..] == [];
  }

  /** A line whose end, behind more than the buffer holds, counts by itself is not inert. */
  lemma LongEndCounts(x: seq<byte>, y: seq<byte>)
    requires |x| > MAX_PARTIAL && CountLine(y) == 1
    ensures !Inert(x + y)
  {
    hide CountLine;
    assert [] + y == y;
    CutCounts([], x, y);
  }

  /** A line without a colon is inert. */
  lemma {:induction false} NoColonNeverCounts(kept: seq<byte>, rest: seq<byte>)
    requires DATA[4] !in kept && DATA[4] !in rest
    ensures !CanCount(kept, rest)
    decreases |rest|
  {
    if DATA <= StripCr(kept + rest) {
      assert false;
    }
    forall i | 1 <= i <= |rest|
      ensures !CanCount(Buffered(kept, rest[..i]), rest[i..])
    {
      NoColonNeverCounts(Buffered(kept, rest[..i]), rest[i..]);
    }
  }

  // ----- The range of the count -----

  /** What is in the buffer of the line `cur` read so far: all of it unless it is long, and nothing that no split leaves. */
  ghost predicate Tracks(partial: seq<byte>, cur: seq<byte>) {
    && LF !in cur && |partial| <= MAX_PARTIAL && (|cur| <= MAX_PARTIAL ==> partial == cur)
    && forall rest :: CanCount(partial, rest) ==> CanCount([], cur + rest)
  }

  lemma TracksNothing()
    ensures Tracks([], [])
  {
    hide CanCount;
    forall rest | CanCount([], rest)
      ensures CanCount([], [] + rest)
    {
      assert [] + rest == rest;
    }
  }

  lemma TracksPiece(partial: seq<byte>, cur: seq<byte>, piece: seq<byte>)
    requires Tracks(partial, cur) && LF !in piece
    ensures Tracks(Buffered(partial, piece), cur + piece)
  {
    hide CanCount;
    forall rest | CanCount(Buffered(partial, piece), rest)
      ensures CanCount([], (cur + piece) + rest)
    {
      CutCounts(partial, piece, rest);
      assert (cur + piece) + rest == cur + (piece + rest);
    }
  }

  lemma OneLineRange(partial: seq<byte>, cur: seq<byte>, x: seq<byte>)
    requires Tracks(partial, cur)
    ensures Least(cur + x) <= CountLine(partial + x) <= Most(cur + x)
  {
    hide CountLine;
    if |cur + x| > MAX_PARTIAL && CountLine(partial + x) == 1 {
      assert CanCount(partial, x);
    }
  }

  /** One chunk. The scanner resynchronises at every newline. */
  lemma {:induction false} ChunkRange(partial: seq<byte>, cur: seq<byte>, c: seq<byte>)
    requires Tracks(partial, cur)
    ensures LineSum(cur + c, Least) <= Fed(partial, c).0 <= LineSum(cur + c, Most)
    ensures Tracks(Fed(partial, c).1, Tail(cur + c))
    decreases |c|
  {
    hide FirstNewline, CountLine, LineSum, Tail, Fed, Least, Most, Tracks;
    var p := FirstNewline(c);
    LineOf(partial, cur);
    FirstLineSums(cur, c, Least);
    FirstLineSums(cur, c, Most);
    if p < |c| {
      FedLine(partial, c);
      TracksNothing();
      ChunkRange([], [], c[p + 1..]);
      assert [] + c[p + 1..] == c[p + 1..];
      OneLineRange(partial, cur, c[..p]);
    } else {
      FedEnd(partial, c);
      assert c[..p] == c;
      TracksPiece(partial, cur, c);
    }
  }

  lemma LineOf(partial: seq<byte>, cur: seq<byte>)
    requires Tracks(partial, cur)
    ensures LF !in cur
  {
  }

  lemma {:induction false} ChunksRange(partial: seq<byte>, cur: seq<byte>, chunks: seq<seq<byte>>)
    requires Tracks(partial, cur)
    ensures LineSum(cur + Flatten(chunks), Least) <= FedAll(partial, chunks) <= LineSum(cur + Flatten(chunks), Most)
    decreases |chunks|
  {
    hide FirstNewline, CountLine, Fed, Tracks, Least, Most;
    LineOf(partial, cur);
    if chunks == [] {
      assert cur + [] == cur;
      NewlineAt(cur, |cur|);
    } else {
      hide LineSum;
      var c, rest := chunks[0], chunks[1..];
      ChunkRange(partial, cur, c);
      ChunksRange(Fed(partial, c).1, Tail(cur + c), rest);
      assert cur + Flatten(chunks) == (cur + c) + Flatten(rest);
      SplitLines(cur + c, Flatten(rest), Least);
      SplitLines(cur + c, Flatten(rest), Most);
    }
  }

  /** However a stream is split into chunks, the reported count lies between the sums of the least and the most of its lines. */
  lemma CountRange(chunks: seq<seq<byte>>)
    ensures LineSum(Flatten(chunks), Least) <= FedAll([], chunks) <= LineSum(Flatten(chunks), Most)
  {
    hide LineSum, FedAll;
    TracksNothing();
    ChunksRange([], [], chunks);
    assert [] + Flatten(chunks) == Flatten(chunks);
  }

  // ----- Both ends of the range are reported -----

  /** A chunk that ends with a newline, and others after it. */
  lemma LineChunk(kept: seq<byte>, x: seq<byte>, more: seq<seq<byte>>)
    requires LF !in x
    ensures var chunks := [x + [LF]] + more;
      && Flatten(chunks) == x + ([LF] + Flatten(more))
      && FedAll(kept, chunks) == CountLine(kept + x) + FedAll([], more)
  {
    hide CountLine, FirstNewline;
    var c, chunks := x + [LF], [x + [LF]] + more;
    assert chunks[1..] == more && c[..|x|] == x && c[|x| + 1..] == [];
    assert c + Flatten(more) == x + ([LF] + Flatten(more));
    NewlineAt(c, |x|);
    FedLine(kept, c);
    NewlineAt([], 0);
    FedEnd([], []);
  }

  /** A piece of a line, and other chunks after it. */
  lemma PieceChunk(kept: seq<byte>, piece: seq<byte>, more: seq<seq<byte>>)
    requires LF !in piece
    ensures Flatten([piece] + more) == piece + Flatten(more)
    ensures FedAll(kept, [piece] + more) == FedAll(Buffered(kept, piece), more)
  {
    hide CountLine, FirstNewline, Buffered;
    assert ([piece] + more)[1..] == more;
    NewlineAt(piece, |piece|);
    FedEnd(kept, piece);
  }

  lemma {:induction false} CountedChunks(kept: seq<byte>, line: seq<byte>, more: seq<seq<byte>>) returns (chunks: seq<seq<byte>>)
    requires CanCount(kept, line) && LF !in line
    ensures Flatten(chunks) == line + ([LF] + Flatten(more))
    ensures FedAll(kept, chunks) == 1 + FedAll([], more)
    decreases |line|
  {
    hide CountLine, FedAll, Flatten, Buffered;
    if CountLine(kept + line) == 1 {
      LineChunk(kept, line, more);
      chunks := [line + [LF]] + more;
    } else {
      var i :| 1 <= i <= |line| && CanCount(Buffered(kept, line[..i]), line[i..]);
      var rest := CountedChunks(Buffered(kept, line[..i]), line[i..], more);
      PieceChunk(kept, line[..i], rest);
      chunks := [line[..i]] + rest;
      assert line[..i] + (line[i..] + ([LF] + Flatten(more))) == line + ([LF] + Flatten(more));
    }
  }

  lemma DroppedChunks(line: seq<byte>, more: seq<seq<byte>>) returns (chunks: seq<seq<byte>>)
    requires |line| > MAX_PARTIAL && LF !in line
    ensures Flatten(chunks) == line + ([LF] + Flatten(more))
    ensures FedAll([], chunks) == FedAll([], more)
  {
    hide CountLine, FedAll, Flatten;
    DataCounts();
    LineChunk([], [], more);
    var nothing: seq<byte> := [];
    assert nothing + [LF] == [LF] && nothing + nothing == nothing;
    assert nothing + ([LF] + Flatten(more)) == [LF] + Flatten(more);
    var rest := [[LF]] + more;
    PieceChunk([], line, rest);
    chunks := [line] + rest;
  }

  /** Some split reports what `most` says: the most, or else the least, of every line. */
  lemma {:induction false} RangeAttained(s: seq<byte>, most: bool) returns (chunks: seq<seq<byte>>)
    ensures Flatten(chunks) == s
    ensures FedAll([], chunks) == LineSum(s, if most then Most else Least)
    decreases |s|
  {
    hide CountLine, FirstNewline, FedAll, Flatten;
    var p := FirstNewline(s);
    if p == |s| {
      UnfinishedLine(s);
      chunks := [s];
    } else {
      var line := s[..p];
      assert s == line + ([LF] + s[p + 1..]);
      var more := RangeAttained(s[p + 1..], most);
      if |line| <= MAX_PARTIAL || (most && Inert(line)) {
        LineChunk([], line, more);
        chunks := [line + [LF]] + more;
        assert [] + line == line;
      } else if most {
        chunks := CountedChunks([], line, more);
      } else {
        chunks := DroppedChunks(line, more);
      }
    }
  }

  lemma UnfinishedLine(s: seq<byte>)
    requires FirstNewline(s) == |s|
    ensures Flatten([s]) == s && FedAll([], [s]) == 0
  {
    assert s[..|s|] == s;
    PieceChunk([], s, []);
    assert [s] + [] == [s] && s + [] == s;
  }

  // ----- Exactly when chunking does not matter -----

  /** Two sums over the lines are ordered as their summands are, and equal only if these are. */
  lemma {:induction false} LineSumOrder(s: seq<byte>, f: seq<byte> -> int, g: seq<byte> -> int)
    requires forall line :: f(line) <= g(line)
    ensures LineSum(s, f) <= LineSum(s, g)
    ensures LineSum(s, f) == LineSum(s, g) <==> forall line :: line in Lines(s) ==> f(line) == g(line)
    decreases |s|
  {
    hide FirstNewline;
    var p := FirstNewline(s);
    if p < |s| {
      LineSumOrder(s[p + 1..], f, g);
      assert forall line :: line in Lines(s) <==> line == s[..p] || line in Lines(s[p + 1..]);
    }
  }

  /** No split misses a token if and only if no line longer than `MAX_PARTIAL` carries one. */
  lemma NeverMissedIff(s: seq<byte>)
    ensures (forall chunks :: Flatten(chunks) == s ==> FedAll([], chunks) >= StreamCount(s)) <==>
      forall line :: line in Lines(s) && |line| > MAX_PARTIAL ==> CountLine(line) == 0
  {
    hide CountLine, LineSum, FedAll, Flatten, Lines;
    LineSumOrder(s, Least, Token);
    var chunks := RangeAttained(s, false);
    forall chunks | Flatten(chunks) == s
      ensures FedAll([], chunks) >= LineSum(s, Least)
    {
      CountRange(chunks);
    }
  }

  lemma MostAtLeastToken(line: seq<byte>)
    ensures Token(line) <= Most(line)
    ensures Token(line) == Most(line) <==> |line| <= MAX_PARTIAL || CountLine(line) == 1 || Inert(line)
  {
    hide CountLine;
    assert [] + line == line;
  }

  /** No split adds a token if and only if every line longer than `MAX_PARTIAL` carries one or is inert. */
  lemma NeverAddedIff(s: seq<byte>)
    ensures (forall chunks :: Flatten(chunks) == s ==> FedAll([], chunks) <= StreamCount(s)) <==>
      forall line :: line in Lines(s) && |line| > MAX_PARTIAL ==> CountLine(line) == 1 || Inert(line)
  {
    hide CountLine, LineSum, FedAll, Flatten, Lines, Most, Inert;
    forall line
      ensures Token(line) <= Most(line)
      ensures Token(line) == Most(line) <==> |line| <= MAX_PARTIAL || CountLine(line) == 1 || Inert(line)
    {
      MostAtLeastToken(line);
    }
    LineSumOrder(s, Token, Most);
    var chunks := RangeAttained(s, true);
    forall chunks | Flatten(chunks) == s
      ensures FedAll([], chunks) <= LineSum(s, Most)
    {
      CountRange(chunks);
    }
  }

  lemma InertIsSilent(line: seq<byte>)
    requires Inert(line)
    ensures CountLine(line) == 0
  {
    assert [] + line == line;
  }

  /** No split changes the count if and only if every line longer than `MAX_PARTIAL` is inert. */
  lemma ChunkingExactIff(s: seq<byte>)
    ensures (forall chunks :: Flatten(chunks) == s ==> FedAll([], chunks) == StreamCount(s)) <==>
      forall line :: line in Lines(s) && |line| > MAX_PARTIAL ==> Inert(line)
  {
    hide CountLine, LineSum, FedAll, Flatten, Lines, Inert;
    NeverMissedIff(s);
    NeverAddedIff(s);
    forall line | Inert(line)
      ensures CountLine(line) == 0
    {
      InertIsSilent(line);
    }
  }

  /**
   However a stream is split into chunks, the reported count differs from the
   stream's by at most the number of lines longer than `MAX_PARTIAL`, and not at
   all when there is no such line.
   */
  lemma ChunkingDoesNotMatter(chunks: seq<seq<byte>>)
    ensures var s, n: int := Flatten(chunks), FedAll([], chunks);
      && StreamCount(s) - LineSum(s, Long) <= n <= StreamCount(s) + LineSum(s, Long)
      && (LineSum(s, Long) == 0 ==> n == StreamCount(s))
  {
    hide FedAll, Flatten;
    CountRange(chunks);
    LongLineSums(Flatten(chunks));
  }

  lemma {:induction false} LongLineSums(s: seq<byte>)
    ensures LineSum(s, Token) - LineSum(s, Long) <= LineSum(s, Least)
    ensures LineSum(s, Most) <= LineSum(s, Token) + LineSum(s, Long)
    ensures LineSum(s, Long) >= 0
    decreases |s|
  {
    hide CountLine, FirstNewline, Inert;
    var p := FirstNewline(s);
    if p < |s| { LongLineSums(s[p + 1..]); }
  }

  /** A long line without a token from which some split makes one. */
  lemma TokenCanBeInvented() returns (s: seq<byte>, chunks: seq<seq<byte>>)
    ensures Flatten(chunks) == s && StreamCount(s) == 0 && FedAll([], chunks) == 1
  {
    hide CountLine, LineSum, Fed, FedAll, Flatten, FirstNewline, Inert;
    var x: seq<byte> := seq(MAX_PARTIAL + 1, i => 120);
    var y := DATA + [120];
    InventedLine(x);
    LongEndCounts(x, y);
    s := (x + y) + [LF];
    EndOfLine(x + y, Token);
    EndOfLine(x + y, Most);
    chunks := RangeAttained(s, true);
  }

  lemma EndOfLine(line: seq<byte>, f: seq<byte> -> int)
    requires LF !in line
    ensures LineSum(line + [LF], f) == f(line)
  {
    NewlineAt([LF], 0);
    FirstLineSums(line, [LF], f);
    assert line + [LF][..0] == line;
    assert [LF][1..] == [];
  }

  lemma InventedLine(x: seq<byte>)
    requires |x| > MAX_PARTIAL && x[0] == 120
    ensures CountLine(x + (DATA + [120])) == 0
    ensures CountLine(DATA + [120]) == 1
  {
    var line := x + (DATA + [120]);
    assert line[|line| - 1] == 120 && line[0] == 120;
    assert (DATA + [120])[5..] == [120];
    assert TrimStart([120]) == [120] && TrimEnd([120]) == [120];
  }
}
