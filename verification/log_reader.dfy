/**
 The tail of a log file: the last lines, found by reading an ever larger window at the end
 of the file. The file does not change during the call, and its size fits a signed 64-bit
 offset.
 */
module LogReader {
  import opened Common

  type Bytes = seq<byte>

  const NEWLINE: byte := 10
  const CARRIAGE_RETURN: byte := 13

  const INITIAL_READ_WINDOW_BYTES: nat := 64 * 1024

  // Lines

  /** The first newline at or after `from` stands at `i`, or there is none and `i` is the
      length. */
  predicate FirstNewlineAt(c: Bytes, from: nat, i: nat) {
    && from <= i <= |c| && (i < |c| ==> c[i] == NEWLINE)
    && forall j :: from <= j < i ==> c[j] != NEWLINE
  }

  lemma {:induction false} NewlineOrEnd(c: Bytes, from: nat)
    requires from <= |c|
    ensures exists i: nat :: FirstNewlineAt(c, from, i)
    decreases |c| - from
  {
    if from == |c| || c[from] == NEWLINE {
      assert FirstNewlineAt(c, from, from);
    } else {
      NewlineOrEnd(c, from + 1);
      var i: nat :| FirstNewlineAt(c, from + 1, i);
      assert FirstNewlineAt(c, from, i);
    }
  }

  function FindNewline(c: Bytes, from: nat): (i: nat)
    requires from <= |c|
    ensures FirstNewlineAt(c, from, i)
  {
    NewlineOrEnd(c, from);
    var i: nat :| FirstNewlineAt(c, from, i);
    i
  }

  /** The text between two positions, without one carriage return at its end. */
  function LineBetween(c: Bytes, from: nat, to: nat): Bytes
    requires from <= to <= |c|
  {
    if from < to && c[to - 1] == CARRIAGE_RETURN then c[from..to - 1] else c[from..to]
  }

  lemma FirstNewlineIsUnique(c: Bytes, from: nat, i: nat)
    requires FirstNewlineAt(c, from, i)
    ensures FindNewline(c, from) == i
  {
  }

  /** The line that starts at `from`, and where the one after it starts. */
  function FirstLine(c: Bytes, from: nat): Bytes
    requires from < |c|
  {
    LineBetween(c, from, FindNewline(c, from))
  }

  function NextLine(c: Bytes, from: nat): (next: nat)
    requires from < |c|
    ensures from < next <= |c|
  {
    var i := FindNewline(c, from);
    if i < |c| then i + 1 else i
  }

  /** The lines that start at position `from` or later, without their newlines and without
      one carriage return before it. A text that ends in a newline has no empty line after
      it. */
  function LinesFrom(c: Bytes, from: nat): seq<Bytes>
    requires from <= |c|
    decreases |c| - from
  {
    if from == |c| then [] else [FirstLine(c, from)] + LinesFrom(c, NextLine(c, from))
  }

  function Lines(c: Bytes): seq<Bytes> { LinesFrom(c, 0) }

  /** The same lines with everything that ends them. */
  function PiecesFrom(c: Bytes, from: nat): seq<Bytes>
    requires from <= |c|
    decreases |c| - from
  {
    if from == |c| then [] else [c[from..NextLine(c, from)]] + PiecesFrom(c, NextLine(c, from))
  }

  function Flatten(ps: seq<Bytes>): Bytes {
    if ps == [] then [] else ps[0] + Flatten(ps[1..])
  }

  function Text(p: Bytes): Bytes {
    LineBetween(p, 0, if p != [] && p[|p| - 1] == NEWLINE then |p| - 1 else |p|)
  }

  /** A newline stands only at the end of a piece, and every piece but the last has one. */
  predicate PieceOk(p: Bytes, last: bool) {
    && p != [] && (forall j :: 0 <= j < |p| - 1 ==> p[j] != NEWLINE)
    && (!last ==> p[|p| - 1] == NEWLINE)
  }

  lemma {:induction false} PiecesArePartition(c: Bytes, from: nat)
    requires from <= |c|
    ensures var ps := PiecesFrom(c, from);
      Flatten(ps) == c[from..] && forall k :: 0 <= k < |ps| ==> PieceOk(ps[k], k == |ps| - 1)
    decreases |c| - from
  {
    if from < |c| {
      var next := NextLine(c, from);
      PiecesArePartition(c, next);
      PieceFits(c, from);
      assert c[from..] == c[from..next] + c[next..];
      assert PiecesFrom(c, from)[1..] == PiecesFrom(c, next);
    }
  }

  lemma PieceFits(c: Bytes, from: nat)
    requires from < |c|
    ensures PieceOk(c[from..NextLine(c, from)], NextLine(c, from) == |c|)
  {
  }

  lemma PieceSays(c: Bytes, from: nat)
    requires from < |c|
    ensures Text(c[from..NextLine(c, from)]) == FirstLine(c, from)
  {
    var i, p := FindNewline(c, from), c[from..NextLine(c, from)];
    assert i == |c| ==> p[|p| - 1] == c[|c| - 1];
    assert p[0..i - from] == c[from..i];
    SameLine(c, from, p, 0, i - from);
  }

  lemma SameLine(c: Bytes, from: nat, d: Bytes, from': nat, n: nat)
    requires from + n <= |c| && from' + n <= |d|
    requires c[from..from + n] == d[from'..from' + n]
    ensures LineBetween(c, from, from + n) == LineBetween(d, from', from' + n)
  {
    if n > 0 {
      assert c[from + n - 1] == c[from..from + n][n - 1] == d[from' + n - 1];
      assert c[from..from + n - 1] == c[from..from + n][..n - 1] == d[from'..from' + n - 1];
    }
  }

  lemma {:induction false} LinesAreTexts(c: Bytes, from: nat)
    requires from <= |c|
    ensures |LinesFrom(c, from)| == |PiecesFrom(c, from)|
    ensures forall k :: 0 <= k < |PiecesFrom(c, from)| ==> LinesFrom(c, from)[k] == Text(PiecesFrom(c, from)[k])
    decreases |c| - from
  {
    if from < |c| {
      LinesAreTexts(c, NextLine(c, from));
      PieceSays(c, from);
    }
  }

  /** The text falls into pieces, each ending in its only newline but perhaps the last, and
      the lines are what the pieces say: nothing is lost and nothing invented. */
  lemma LinesPartitionText(c: Bytes)
    ensures var ps := PiecesFrom(c, 0);
      && Flatten(ps) == c && (forall k :: 0 <= k < |ps| ==> PieceOk(ps[k], k == |ps| - 1))
      && |Lines(c)| == |ps| && (forall k :: 0 <= k < |ps| ==> Lines(c)[k] == Text(ps[k]))
  {
    PiecesArePartition(c, 0);
    LinesAreTexts(c, 0);
    assert c[0..] == c;
  }

  /** `line` is the piece without its ending: a newline if the piece ends in one, and one
      carriage return if it stands directly before that newline, or at the end of a piece that
      has none. */
  predicate IsLineOf(line: Bytes, piece: Bytes) {
    line <= piece &&
    var ending := piece[|line|..];
    var body := if piece != [] && piece[|piece| - 1] == 10 then piece[..|piece| - 1] else piece;
    && ending in {[], [10], [13], [13, 10]}
    && (10 in ending <==> piece != [] && piece[|piece| - 1] == 10)
    && (13 in ending <==> body != [] && body[|body| - 1] == 13)
  }

  lemma TextIsLine(p: Bytes)
    ensures IsLineOf(Text(p), p)
  {
    var body := if p != [] && p[|p| - 1] == NEWLINE then p[..|p| - 1] else p;
    var line := Text(p);
    assert line == if body != [] && body[|body| - 1] == CARRIAGE_RETURN then body[..|body| - 1] else body;
    assert p[..|line|] == line;
    var ending := p[|line|..];
    assert |ending| <= 2;
    assert |ending| == 1 ==> ending == [p[|line|]];
    assert |ending| == 2 ==> ending == [p[|line|], p[|line| + 1]];
  }

  /** Every line is its piece but for the ending: nothing else is lost, and nothing is kept
      that ends it. */
  lemma LinesArePieces(c: Bytes)
    ensures |Lines(c)| == |PiecesFrom(c, 0)|
    ensures forall k :: 0 <= k < |Lines(c)| ==> IsLineOf(Lines(c)[k], PiecesFrom(c, 0)[k])
  {
    LinesAreTexts(c, 0);
    forall k | 0 <= k < |Lines(c)|
      ensures IsLineOf(Lines(c)[k], PiecesFrom(c, 0)[k])
    {
      TextIsLine(PiecesFrom(c, 0)[k]);
    }
  }

  /** The lines after a newline are the end of all lines. */
  lemma {:induction false} LinesAfterNewline(c: Bytes, from: nat, k: nat)
    requires from <= k <= |c| && (k == from || c[k - 1] == NEWLINE)
    ensures |LinesFrom(c, k)| <= |LinesFrom(c, from)|
    ensures LinesFrom(c, from)[|LinesFrom(c, from)| - |LinesFrom(c, k)|..] == LinesFrom(c, k)
    decreases |c| - from
  {
    if from < k {
      NextLineBefore(c, from, k);
      LinesAfterNewline(c, NextLine(c, from), k);
    }
  }

  lemma NextLineBefore(c: Bytes, from: nat, k: nat)
    requires from < k <= |c| && c[k - 1] == NEWLINE
    ensures NextLine(c, from) <= k
  {
  }

  /** The end `w` of a text has the lines that the text has there. */
  lemma {:induction false} SameLines(c: Bytes, k: nat, w: Bytes, from: nat)
    requires k + from <= |c| && w == c[k..]
    ensures LinesFrom(w, from) == LinesFrom(c, k + from)
    decreases |w| - from
  {
    if from < |w| {
      SameFirstLine(c, k, w, from);
      SameLines(c, k, w, NextLine(w, from));
    }
  }

  lemma SameFirstLine(c: Bytes, k: nat, w: Bytes, from: nat)
    requires k + from < |c| && w == c[k..]
    ensures FirstLine(w, from) == FirstLine(c, k + from) && NextLine(c, k + from) == k + NextLine(w, from)
  {
    SameNewline(c, k, w, from);
    SameLine(c, k + from, w, from, FindNewline(w, from) - from);
  }

  lemma SameNewline(c: Bytes, k: nat, w: Bytes, from: nat)
    requires k + from <= |c| && w == c[k..]
    ensures FindNewline(c, k + from) == k + FindNewline(w, from)
  {
    var i := FindNewline(w, from);
    NewlineShifted(c, k, w, from, i);
    FirstNewlineIsUnique(c, k + from, k + i);
  }

  lemma NewlineShifted(c: Bytes, k: nat, w: Bytes, from: nat, i: nat)
    requires k + from <= |c| && w == c[k..] && FirstNewlineAt(w, from, i)
    ensures FirstNewlineAt(c, k + from, k + i)
  {
    forall j | k + from <= j < k + i
      ensures c[j] != NEWLINE
    {
      assert c[j] == w[j - k];
    }
  }

  // Keeping the last lines

  /** Takes the line at `pos` off the input, without its carriage return. */
  method GetLine(content: Bytes, pos: nat) returns (line: Bytes, next: nat)
    requires pos < |content|
    ensures pos < next <= |content|
    ensures LinesFrom(content, pos) == [line] + LinesFrom(content, next)
  {
    var end := FindNewline(content, pos);
    line := content[pos..end];
    if line != [] && line[|line| - 1] == CARRIAGE_RETURN {
      line := line[..|line| - 1];
    }
    assert line == LineBetween(content, pos, end);
    next := if end < |content| then end + 1 else end;
  }

  /** A queue of at most `n` takes one more, dropping its oldest when it is full. */
  function Pushed<T>(queue: seq<T>, x: T, n: nat): seq<T>
    requires n > 0
  {
    (if |queue| == n then queue[1..] else queue) + [x]
  }

  method KeepLastLines(content: Bytes, maxLines: nat) returns (lines: seq<Bytes>)
    requires maxLines > 0
    ensures lines == LastOf(Lines(content), maxLines)
  {
    lines := [];
    var pos := 0;
    ghost var seen: seq<Bytes> := [];
    while pos < |content|
      invariant 0 <= pos <= |content|
      invariant Lines(content) == seen + LinesFrom(content, pos)
      invariant lines == LastOf(seen, maxLines)
    {
      var line, next := GetLine(content, pos);
      Regrouped(seen, [line], LinesFrom(content, next));
      PushedLast(seen, line, maxLines);
      lines := Push(lines, line, maxLines);
      pos, seen := next, seen + [line];
    }
    assert LinesFrom(content, pos) == [];
  }

  method Push<T>(queue: seq<T>, x: T, n: nat) returns (next: seq<T>)
    requires n > 0
    ensures next == Pushed(queue, x, n)
  {
    next := queue;
    if |next| == n {
      next := next[1..];
    }
    next := next + [x];
  }

  lemma PushedLast<T>(s: seq<T>, x: T, n: nat)
    requires n > 0
    ensures LastOf(s + [x], n) == Pushed(LastOf(s, n), x, n)
  {
  }

  /** The last lines are those of the last pieces: as many as asked for, or as there are. */
  lemma LastLinesArePieces(c: Bytes, maxLines: nat)
    ensures var lines, ps := LastOf(Lines(c), maxLines), PiecesFrom(c, 0);
      && |lines| == (if |ps| < maxLines then |ps| else maxLines)
      && forall k :: 0 <= k < |lines| ==> IsLineOf(lines[k], ps[|ps| - |lines| + k])
  {
    LinesArePieces(c);
    LastOfIs(Lines(c), maxLines);
    var lines, ps := LastOf(Lines(c), maxLines), PiecesFrom(c, 0);
    forall k | 0 <= k < |lines|
      ensures IsLineOf(lines[k], ps[|ps| - |lines| + k])
    {
      var i := |ps| - |lines| + k;
      assert lines[k] == Lines(c)[i];
      assert IsLineOf(Lines(c)[i], ps[i]);
    }
  }

  // Reading the tail

  datatype Failure = SizeUnknown | CannotOpen | CannotSeek

  /** What the file system answers: whether the file exists, whether its size can be had and
      it can be opened, and the round, if any, in which seeking fails. */
  datatype FileSystem = FileSystem(exists_: bool, sizeFails: bool, openFails: bool, seekFailsIn: Option<nat>)

  lemma LastOfSuffix<T>(s: seq<T>, end: seq<T>, n: nat)
    requires n <= |end| <= |s| && s[|s| - |end|..] == end
    ensures LastOf(s, n) == LastOf(end, n)
  {
  }

  lemma LastOfPrefix<T>(s: seq<T>, n: nat)
    ensures LastOf(LastOf(s, n), n) == LastOf(s, n)
    ensures |LastOf(s, n)| >= n <==> |s| >= n
  {
  }

  /** What follows the first newline of a window at the end of the file yields the file's
      last lines as soon as it has enough of them. */
  lemma WindowSuffices(file: Bytes, start: nat, newline: nat, maxLines: nat)
    requires start <= newline < |file| && file[newline] == NEWLINE
    requires |Lines(file[newline + 1..])| >= maxLines
    ensures LastOf(Lines(file[newline + 1..]), maxLines) == LastOf(Lines(file), maxLines)
  {
    SameLines(file, newline + 1, file[newline + 1..], 0);
    LinesAfterNewline(file, 0, newline + 1);
    LastOfSuffix(Lines(file), LinesFrom(file, newline + 1), maxLines);
  }

  /** The window at the end of the file is enough: it is the whole file, or what follows its
      first newline has enough lines. */
  predicate Suffices(file: Bytes, windowSize: nat, maxLines: nat)
    requires windowSize <= |file|
  {
    var start := |file| - windowSize;
    start == 0 ||
    var i := FindNewline(file, start);
    i < |file| && |LinesFrom(file, i + 1)| >= maxLines
  }

  /** How many windows fail before one is enough. */
  function RoundsFrom(file: Bytes, windowSize: nat, maxLines: nat): nat
    requires 0 < windowSize <= |file|
    decreases |file| - windowSize
  {
    if Suffices(file, windowSize, maxLines) then 0 else 1 + RoundsFrom(file, NextWindow(windowSize, |file|), maxLines)
  }

  function NextWindow(windowSize: nat, fileSize: nat): nat {
    if 2 * windowSize < fileSize then 2 * windowSize else fileSize
  }

  function FirstWindow(fileSize: nat): nat {
    if fileSize < INITIAL_READ_WINDOW_BYTES then fileSize else INITIAL_READ_WINDOW_BYTES
  }

  /** Seeking fails in one of the rounds that are needed. */
  predicate SeekFails(fs: FileSystem, file: Bytes, maxLines: nat)
    requires file != []
  {
    fs.seekFailsIn.Some? && fs.seekFailsIn.value <= RoundsFrom(file, FirstWindow(|file|), maxLines)
  }

  /** Returns the last `maxLines` lines of the whole file, however few of its bytes are
      read; it fails to if and only if seeking fails in a round that is reached. */
  method ReadLastLines(fs: FileSystem, file: Bytes, maxLines: nat) returns (lines: seq<Bytes>, error: Option<Failure>)
    requires |file| < 0x8000_0000_0000_0000
    ensures maxLines == 0 || !fs.exists_ ==> lines == [] && error == None
    ensures maxLines > 0 && fs.exists_ ==>
      if fs.sizeFails then lines == [] && error == Some(SizeUnknown)
      else if file == [] then lines == [] && error == None
      else if fs.openFails then lines == [] && error == Some(CannotOpen)
      else if SeekFails(fs, file, maxLines) then lines == [] && error == Some(CannotSeek)
      else lines == LastOf(Lines(file), maxLines) && error == None
  {
    if maxLines == 0 || !fs.exists_ {
      return [], None;
    }
    if fs.sizeFails {
      return [], Some(SizeUnknown);
    }
    var fileSize := |file|;
    if fileSize == 0 {
      return [], None;
    }
    if fs.openFails {
      return [], Some(CannotOpen);
    }
    var windowSize := if fileSize < INITIAL_READ_WINDOW_BYTES then fileSize else INITIAL_READ_WINDOW_BYTES;
    var round := 0;
    while true
      invariant 0 < windowSize <= fileSize
      invariant RoundsFrom(file, FirstWindow(fileSize), maxLines) == round + RoundsFrom(file, windowSize, maxLines)
      invariant fs.seekFailsIn.Some? ==> fs.seekFailsIn.value >= round
      decreases fileSize - windowSize
    {
      if fs.seekFailsIn == Some(round) {
        return [], Some(CannotSeek);
      }
      var found := ReadWindow(file, windowSize, maxLines);
      if found.Some? {
        return found.value, None;
      }
      round := round + 1;
      windowSize := Doubled(windowSize, fileSize);
    }
  }

  /** One round, after seeking: the lines, unless the window has too few. A window without a
      newline does not reach the beginning of the file, so it can still grow. */
  method ReadWindow(file: Bytes, windowSize: nat, maxLines: nat) returns (found: Option<seq<Bytes>>)
    requires 0 < windowSize <= |file| && maxLines > 0
    ensures found.Some? <==> Suffices(file, windowSize, maxLines)
    ensures found.Some? ==> found.value == LastOf(Lines(file), maxLines)
  {
    var startOffset := |file| - windowSize;
    var content := file[startOffset..];
    if startOffset > 0 {
      WindowNewline(file, startOffset);
      var firstNewline := FindNewline(content, 0);
      if firstNewline == |content| {
        return None;
      }
      RestOfWindow(file, startOffset, startOffset + firstNewline, maxLines);
      SliceOfSlice(file, startOffset, firstNewline + 1);
      content := content[firstNewline + 1..];
    }
    var kept := KeepLastLines(content, maxLines);
    LastOfPrefix(Lines(content), maxLines);
    if |kept| >= maxLines || startOffset == 0 {
      return Some(kept);
    }
    return None;
  }

  /** The first newline of the window, in the file. */
  lemma WindowNewline(file: Bytes, start: nat)
    requires start <= |file|
    ensures FindNewline(file[start..], 0) == FindNewline(file, start) - start
  {
    SameNewline(file, start, file[start..], 0);
  }

  /** What follows it. */
  lemma RestOfWindow(file: Bytes, start: nat, newline: nat, maxLines: nat)
    requires start <= newline < |file| && file[newline] == NEWLINE
    ensures Lines(file[newline + 1..]) == LinesFrom(file, newline + 1)
    ensures |LinesFrom(file, newline + 1)| >= maxLines ==>
      LastOf(Lines(file[newline + 1..]), maxLines) == LastOf(Lines(file), maxLines)
  {
    SameLines(file, newline + 1, file[newline + 1..], 0);
    if |LinesFrom(file, newline + 1)| >= maxLines {
      WindowSuffices(file, start, newline, maxLines);
    }
  }

  /** The next window: twice as large, or the whole file. The product does not overflow. */
  method Doubled(windowSize: nat, fileSize: nat) returns (next: nat)
    requires 0 < windowSize < fileSize < 0x8000_0000_0000_0000
    ensures windowSize < next <= fileSize && next == NextWindow(windowSize, fileSize)
  {
    assert windowSize * 2 <= UINT64_MAX;
    next := if windowSize * 2 < fileSize then windowSize * 2 else fileSize;
  }
}
