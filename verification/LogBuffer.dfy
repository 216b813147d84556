/**
 The live log buffer of a tool: a queue of lines bounded in lines and in bytes, filled line by line
 or, for a log another process writes, reloaded from the tail of the file.
 */
module LogBuffer {
  import opened Basics

  type Line = seq<Byte>

  const NEWLINE: Byte := 10
  const CARRIAGE_RETURN: Byte := 13
  const MAX_TAIL_BYTES: nat := 2 * 1024 * 1024

  /** Limits of the configuration and of Rust's strings. */
  const MAX_LOG_BUFFER_LINES: nat := 100_000
  const MAX_LOG_BUFFER_BYTES: nat := 64 * 1024 * 1024
  const MAX_LOG_LINE_BYTES: nat := 1024 * 1024
  const ISIZE_MAX: nat := 0x7FFF_FFFF_FFFF_FFFF

  function TotalBytes(lines: seq<Line>): nat {
    if lines == [] then 0 else |lines[0]| + TotalBytes(lines[1..])
  }

  predicate Fits(lines: seq<Line>, lineCapacity: nat, byteCapacity: nat) {
    |lines| <= lineCapacity && TotalBytes(lines) <= byteCapacity
  }

  /** The longest suffix within both capacities. */
  function LongestFit(lines: seq<Line>, lineCapacity: nat, byteCapacity: nat): seq<Line>
    decreases |lines|
  {
    if lines == [] || Fits(lines, lineCapacity, byteCapacity) then lines
    else LongestFit(lines[1..], lineCapacity, byteCapacity)
  }

  lemma {:induction false} LongestFitIsFittingSuffix(lines: seq<Line>, lineCapacity: nat, byteCapacity: nat)
    ensures var r := LongestFit(lines, lineCapacity, byteCapacity);
            Fits(r, lineCapacity, byteCapacity) && |r| <= |lines| && r == lines[|lines| - |r|..]
    decreases |lines|
  {
    if lines == [] || Fits(lines, lineCapacity, byteCapacity) {
      assert lines[0..] == lines;
    } else {
      LongestFitIsFittingSuffix(lines[1..], lineCapacity, byteCapacity);
    }
  }

  lemma {:induction false} SuffixIsSmaller(lines: seq<Line>, k: nat)
    requires k <= |lines|
    ensures TotalBytes(lines[k..]) <= TotalBytes(lines)
  {
    if k > 0 {
      SuffixIsSmaller(lines[1..], k - 1);
      assert lines[1..][k - 1..] == lines[k..];
    }
  }

  /** No suffix that fits is longer. */
  lemma {:induction false} LongestFitIsLongest(lines: seq<Line>, lineCapacity: nat, byteCapacity: nat, k: nat)
    requires k <= |lines| && Fits(lines[k..], lineCapacity, byteCapacity)
    ensures |lines[k..]| <= |LongestFit(lines, lineCapacity, byteCapacity)|
  {
    if lines != [] && !Fits(lines, lineCapacity, byteCapacity) {
      assert k > 0;
      assert lines[1..][k - 1..] == lines[k..];
      LongestFitIsLongest(lines[1..], lineCapacity, byteCapacity, k - 1);
    }
  }

  lemma {:induction false} TotalBytesAppend(a: seq<Line>, b: seq<Line>)
    ensures TotalBytes(a + b) == TotalBytes(a) + TotalBytes(b)
  {
    if a == [] {
      assert a + b == b;
    } else {
      assert (a + b)[1..] == a[1..] + b;
      TotalBytesAppend(a[1..], b);
    }
  }

  lemma TotalBytesPush(lines: seq<Line>, line: Line)
    ensures TotalBytes(lines + [line]) == TotalBytes(lines) + |line|
  {
    TotalBytesAppend(lines, [line]);
    assert TotalBytes([line]) == |line| + TotalBytes([]);
  }

  /** What has been dropped never comes back: trimming may be done after every push. */
  lemma {:induction false} TrimThenPush(history: seq<Line>, line: Line, lineCapacity: nat, byteCapacity: nat)
    ensures LongestFit(LongestFit(history, lineCapacity, byteCapacity) + [line], lineCapacity, byteCapacity)
         == LongestFit(history + [line], lineCapacity, byteCapacity)
  {
    if history != [] && !Fits(history, lineCapacity, byteCapacity) {
      TotalBytesAppend(history, [line]);
      assert (history + [line])[1..] == history[1..] + [line];
      TrimThenPush(history[1..], line, lineCapacity, byteCapacity);
    }
  }

  function PushAll(buffer: seq<Line>, lines: seq<Line>, lineCapacity: nat, byteCapacity: nat): seq<Line>
    decreases |lines|
  {
    if lines == [] then buffer
    else PushAll(LongestFit(buffer + [lines[0]], lineCapacity, byteCapacity), lines[1..], lineCapacity, byteCapacity)
  }

  /** Pushing lines one by one keeps the longest fitting suffix of everything ever pushed. */
  lemma {:induction false} PushAllKeepsLongest(history: seq<Line>, lines: seq<Line>, lineCapacity: nat,
                                               byteCapacity: nat)
    ensures PushAll(LongestFit(history, lineCapacity, byteCapacity), lines, lineCapacity, byteCapacity)
         == LongestFit(history + lines, lineCapacity, byteCapacity)
    decreases |lines|
  {
    if lines == [] {
      assert history + lines == history;
    } else {
      var longer := history + [lines[0]];
      assert history + lines == longer + lines[1..];
      TrimThenPush(history, lines[0], lineCapacity, byteCapacity);
      PushAllKeepsLongest(longer, lines[1..], lineCapacity, byteCapacity);
    }
  }

  /** Taking the newest lines first does not change the longest fit. */
  lemma {:induction false} TakeNewestFirst(lines: seq<Line>, lineCapacity: nat, byteCapacity: nat)
    requires lineCapacity <= |lines|
    ensures LongestFit(lines[|lines| - lineCapacity..], lineCapacity, byteCapacity)
            == LongestFit(lines, lineCapacity, byteCapacity)
  {
    if lineCapacity < |lines| {
      assert lines[1..][|lines| - 1 - lineCapacity..] == lines[|lines| - lineCapacity..];
      TakeNewestFirst(lines[1..], lineCapacity, byteCapacity);
    } else {
      assert lines[|lines| - lineCapacity..] == lines;
    }
  }

  // ---------- splitting a text into lines ----------

  function IndexOf(text: seq<Byte>, b: Byte): (i: nat)
    ensures i <= |text| && (i < |text| ==> text[i] == b)
  {
    if text == [] || text[0] == b then 0 else 1 + IndexOf(text[1..], b)
  }

  function WithoutReturn(line: Line): Line {
    if line != [] && Last(line) == CARRIAGE_RETURN then line[..|line| - 1] else line
  }

  /** `str::lines`. */
  function SplitLines(text: seq<Byte>): seq<Line>
    decreases |text|
  {
    if text == [] then []
    else
      var i := IndexOf(text, NEWLINE);
      if i == |text| then [text] else [WithoutReturn(text[..i])] + SplitLines(text[i + 1..])
  }

  /** The text `snapshot_external` looks at: the last two mebibytes, less a line cut in two. */
  function TailText(file: seq<Byte>): seq<Byte> {
    if |file| <= MAX_TAIL_BYTES then file
    else
      var tail := file[|file| - MAX_TAIL_BYTES..];
      var i := IndexOf(tail, NEWLINE);
      if i == |tail| then [] else tail[i + 1..]
  }

  lemma {:induction false} IndexOfAppend(a: seq<Byte>, b: seq<Byte>)
    requires NEWLINE in a
    ensures IndexOf(a + b, NEWLINE) == IndexOf(a, NEWLINE) < |a|
  {
    assert a != [];
    if a[0] != NEWLINE {
      assert (a + b)[1..] == a[1..] + b;
      IndexOfAppend(a[1..], b);
    }
  }

  lemma SplitLinesStep(text: seq<Byte>, i: nat, front: seq<Byte>, rest: seq<Byte>)
    requires i == IndexOf(text, NEWLINE) < |text| && front == text[..i] && rest == text[i + 1..]
    ensures SplitLines(text) == [WithoutReturn(front)] + SplitLines(rest)
  {
    assert text != [];
  }

  lemma SliceAppend(a: seq<Byte>, b: seq<Byte>, i: nat)
    requires i < |a|
    ensures (a + b)[..i] == a[..i] && (a + b)[i + 1..] == a[i + 1..] + b
  {
  }

  /** The first line of a text does not depend on what follows its newline. */
  lemma FirstLine(a: seq<Byte>, b: seq<Byte>, i: nat)
    requires i == IndexOf(a, NEWLINE) < |a|
    ensures SplitLines(a + b) == [WithoutReturn(a[..i])] + SplitLines(a[i + 1..] + b)
  {
    assert a[i] == NEWLINE;
    IndexOfAppend(a, b);
    SliceAppend(a, b, i);
    SplitLinesStep(a + b, i, a[..i], a[i + 1..] + b);
  }

  lemma {:induction false} NewlineFound(a: seq<Byte>)
    requires NEWLINE in a
    ensures IndexOf(a, NEWLINE) < |a|
  {
    if a[0] != NEWLINE {
      NewlineFound(a[1..]);
    }
  }

  lemma {:induction false} SplitAtNewline(a: seq<Byte>, b: seq<Byte>)
    requires a != [] && Last(a) == NEWLINE
    ensures SplitLines(a + b) == SplitLines(a) + SplitLines(b)
    decreases |a|
  {
    NewlineFound(a);
    var i := IndexOf(a, NEWLINE);
    var first, rest := WithoutReturn(a[..i]), a[i + 1..];
    assert SplitLines(rest + b) == SplitLines(rest) + SplitLines(b) by {
      if rest == [] {
        assert rest + b == b;
      } else {
        SplitAtNewline(rest, b);
      }
    }
    FirstLine(a, b, i);
    SplitLinesStep(a, i, a[..i], rest);
    LinesAssociate([first], SplitLines(rest), SplitLines(b));
  }

  lemma LinesAssociate(a: seq<Line>, b: seq<Line>, c: seq<Line>)
    ensures (a + b) + c == a + (b + c)
  {
  }

  ghost predicate IsNewestPart(part: seq<Line>, all: seq<Line>) {
    |part| <= |all| && part == all[|all| - |part|..]
  }

  lemma LinesAfterNewline(head: seq<Byte>, rest: seq<Byte>)
    requires head != [] && Last(head) == NEWLINE
    ensures IsNewestPart(SplitLines(rest), SplitLines(head + rest))
  {
    SplitAtNewline(head, rest);
  }

  lemma TailTextSplits(file: seq<Byte>) returns (head: seq<Byte>)
    requires MAX_TAIL_BYTES < |file|
    ensures file == head + TailText(file) && head != []
    ensures TailText(file) == [] || Last(head) == NEWLINE
  {
    var tail := file[|file| - MAX_TAIL_BYTES..];
    var i := IndexOf(tail, NEWLINE);
    head := if i < |tail| then file[..|file| - MAX_TAIL_BYTES + i + 1] else file;
    assert i < |tail| ==> file == head + tail[i + 1..];
  }

  /** Whatever the size of the file, the lines looked at are the newest whole lines of it. */
  lemma TailLinesAreNewest(file: seq<Byte>)
    ensures IsNewestPart(SplitLines(TailText(file)), SplitLines(file))
  {
    if MAX_TAIL_BYTES < |file| {
      var head := TailTextSplits(file);
      if TailText(file) != [] {
        LinesAfterNewline(head, TailText(file));
      }
    }
  }

  // ---------- the program ----------

  /** The buffer part of a tool log.  `history` is every line pushed since the buffer was created or
      reloaded, the reloaded lines included. */
  class LogInner {
    const lineCapacity: nat
    const byteCapacity: nat
    var lines: seq<Line>
    var bufferedBytes: nat
    ghost var history: seq<Line>

    ghost predicate Valid()
      reads this
    {
      && lines == LongestFit(history, lineCapacity, byteCapacity)
      && bufferedBytes == TotalBytes(lines) <= byteCapacity
      && byteCapacity <= MAX_LOG_BUFFER_BYTES
    }

    constructor (lineCapacity: nat, byteCapacity: nat)
      requires byteCapacity <= MAX_LOG_BUFFER_BYTES
      ensures Valid() && history == [] && this.lineCapacity == lineCapacity && this.byteCapacity == byteCapacity
    {
      this.lineCapacity, this.byteCapacity := lineCapacity, byteCapacity;
      lines, bufferedBytes, history := [], 0, [];
    }

    /** Pops from the front until both capacities hold. */
    method Trim()
      requires bufferedBytes == TotalBytes(lines)
      modifies this`lines, this`bufferedBytes
      ensures lines == LongestFit(old(lines), lineCapacity, byteCapacity)
      ensures bufferedBytes == TotalBytes(lines) <= byteCapacity
    {
      while |lines| > lineCapacity || bufferedBytes > byteCapacity
        invariant bufferedBytes == TotalBytes(lines)
        invariant LongestFit(lines, lineCapacity, byteCapacity) == LongestFit(old(lines), lineCapacity, byteCapacity)
        decreases |lines|
      {
        if lines == [] {
          break;
        }
        bufferedBytes := SaturatingSub(bufferedBytes, |lines[0]|);
        lines := lines[1..];
      }
    }

    /** `push_bounded`. */
    method PushBounded(line: Line)
      requires Valid() && |line| <= ISIZE_MAX
      modifies this
      ensures Valid() && history == old(history) + [line]
    {
      TotalBytesPush(lines, line);
      TrimThenPush(history, line, lineCapacity, byteCapacity);
      bufferedBytes := SaturatingAdd(bufferedBytes, |line|);
      lines := lines + [line];
      history := history + [line];
      assert bufferedBytes == TotalBytes(lines);
      Trim();
    }

    /** The reload of `snapshot_external`: the newest lines first, up to the line capacity, then bytes. */
    method Reload(file: seq<Byte>)
      requires byteCapacity <= MAX_LOG_BUFFER_BYTES
      modifies this
      ensures Valid() && history == SplitLines(TailText(file))
    {
      var all := SplitLines(TailText(file));
      lines := if |all| <= lineCapacity then all else all[|all| - lineCapacity..];
      bufferedBytes := TotalBytes(lines);
      history := all;
      if lineCapacity < |all| {
        TakeNewestFirst(all, lineCapacity, byteCapacity);
      }
      PopWhileTooLarge();
    }

    method PopWhileTooLarge()
      requires |lines| <= lineCapacity && bufferedBytes == TotalBytes(lines)
      modifies this`lines, this`bufferedBytes
      ensures lines == LongestFit(old(lines), lineCapacity, byteCapacity)
      ensures bufferedBytes == TotalBytes(lines) <= byteCapacity
    {
      while bufferedBytes > byteCapacity
        invariant |lines| <= lineCapacity && bufferedBytes == TotalBytes(lines)
        invariant LongestFit(lines, lineCapacity, byteCapacity) == LongestFit(old(lines), lineCapacity, byteCapacity)
        decreases |lines|
      {
        if lines == [] {
          break;
        }
        bufferedBytes := SaturatingSub(bufferedBytes, |lines[0]|);
        lines := lines[1..];
      }
    }
  }

  // ---------- reloading against pushing ----------

  lemma PushAllFromEmpty(lines: seq<Line>, lineCapacity: nat, byteCapacity: nat)
    ensures PushAll([], lines, lineCapacity, byteCapacity) == LongestFit(lines, lineCapacity, byteCapacity)
  {
    assert [] + lines == lines;
    assert LongestFit([], lineCapacity, byteCapacity) == [];
    PushAllKeepsLongest([], lines, lineCapacity, byteCapacity);
  }

  /** A part of a sequence that fits goes on fitting when its front is dropped. */
  lemma SuffixFits(lines: seq<Line>, k: nat, lineCapacity: nat, byteCapacity: nat)
    requires k <= |lines| && Fits(lines, lineCapacity, byteCapacity)
    ensures Fits(lines[k..], lineCapacity, byteCapacity)
  {
    SuffixIsSmaller(lines, k);
  }

  lemma {:induction false} DroppedFrontIsMissed(lines: seq<Line>, k: nat, lineCapacity: nat, byteCapacity: nat)
    requires 0 < k <= |lines| && !Fits(lines[k - 1..], lineCapacity, byteCapacity)
    ensures LongestFit(lines[k..], lineCapacity, byteCapacity) == LongestFit(lines, lineCapacity, byteCapacity)
  {
    if Fits(lines, lineCapacity, byteCapacity) {
      SuffixFits(lines, k - 1, lineCapacity, byteCapacity);
    }
    if k > 1 {
      assert lines[1..][k - 2..] == lines[k - 1..] && lines[1..][k - 1..] == lines[k..];
      DroppedFrontIsMissed(lines[1..], k - 1, lineCapacity, byteCapacity);
    }
  }

  /** Leaving out the first `k` lines makes no difference exactly when there are none, or the rest with
      one line more would not fit. */
  lemma FrontIsMissedExactly(lines: seq<Line>, k: nat, lineCapacity: nat, byteCapacity: nat)
    requires k <= |lines|
    ensures LongestFit(lines[k..], lineCapacity, byteCapacity) == LongestFit(lines, lineCapacity, byteCapacity)
       <==> k == 0 || !Fits(lines[k - 1..], lineCapacity, byteCapacity)
  {
    if k == 0 {
      assert lines[0..] == lines;
    } else if Fits(lines[k - 1..], lineCapacity, byteCapacity) {
      LongestFitIsLongest(lines, lineCapacity, byteCapacity, k - 1);
      LongestFitIsFittingSuffix(lines[k..], lineCapacity, byteCapacity);
    } else {
      DroppedFrontIsMissed(lines, k, lineCapacity, byteCapacity);
    }
  }

  /** How many of a file's lines the reload does not look at. */
  function LinesNotRead(file: seq<Byte>): int {
    |SplitLines(file)| - |SplitLines(TailText(file))|
  }

  /** The reload gives what pushing the file's lines one by one gives exactly when it read them all, or
      when one line more than it read would not have fitted. */
  lemma ReloadMatchesExactly(file: seq<Byte>, lineCapacity: nat, byteCapacity: nat)
    ensures 0 <= LinesNotRead(file) <= |SplitLines(file)|
    ensures LongestFit(SplitLines(TailText(file)), lineCapacity, byteCapacity)
            == PushAll([], SplitLines(file), lineCapacity, byteCapacity)
       <==> var k := LinesNotRead(file);
            k == 0 || !Fits(SplitLines(file)[k - 1..], lineCapacity, byteCapacity)
  {
    TailLinesAreNewest(file);
    PushAllFromEmpty(SplitLines(file), lineCapacity, byteCapacity);
    FrontIsMissedExactly(SplitLines(file), LinesNotRead(file), lineCapacity, byteCapacity);
  }

  /** For a file of at most two mebibytes it always does. */
  lemma ReloadMatchesPushing(file: seq<Byte>, lineCapacity: nat, byteCapacity: nat)
    requires |file| <= MAX_TAIL_BYTES
    ensures LongestFit(SplitLines(TailText(file)), lineCapacity, byteCapacity)
         == PushAll([], SplitLines(file), lineCapacity, byteCapacity)
  {
    PushAllFromEmpty(SplitLines(file), lineCapacity, byteCapacity);
  }

  /** A line of the greatest length the configuration allows. */
  function LongLine(): (line: Line)
    ensures |line| == MAX_LOG_LINE_BYTES && forall i | 0 <= i < |line| :: line[i] == 0x61
  {
    seq(MAX_LOG_LINE_BYTES, _ => 0x61)
  }

  lemma {:induction false} OnlyNewline(line: Line, rest: seq<Byte>)
    requires NEWLINE !in line
    ensures IndexOf(line + [NEWLINE] + rest, NEWLINE) == |line|
  {
    var text := line + [NEWLINE] + rest;
    if line != [] {
      assert line[0] in line;
      assert text[1..] == line[1..] + [NEWLINE] + rest;
      OnlyNewline(line[1..], rest);
    }
  }

  lemma LineThenRest(line: Line, rest: seq<Byte>)
    requires NEWLINE !in line && (line != [] ==> Last(line) != CARRIAGE_RETURN)
    ensures SplitLines(line + [NEWLINE] + rest) == [line] + SplitLines(rest)
  {
    var text := line + [NEWLINE] + rest;
    OnlyNewline(line, rest);
    assert text[..|line|] == line && text[|line| + 1..] == rest;
    SplitLinesStep(text, |line|, line, rest);
  }

  /** Two lines of the greatest length make a file of which the reload sees the second only, although a
      buffer of the greatest size would have kept both. */
  lemma ReloadMissesLine()
    ensures var file := LongLine() + [NEWLINE] + (LongLine() + [NEWLINE] + []);
            && LongestFit(SplitLines(TailText(file)), MAX_LOG_BUFFER_LINES, MAX_LOG_BUFFER_BYTES) == [LongLine()]
            && PushAll([], SplitLines(file), MAX_LOG_BUFFER_LINES, MAX_LOG_BUFFER_BYTES) == [LongLine(), LongLine()]
  {
    var line := LongLine();
    var second := line + [NEWLINE] + [];
    var file := line + [NEWLINE] + second;
    LineThenRest(line, []);
    LineThenRest(line, second);
    assert SplitLines(second) == [line] && SplitLines(file) == [line, line];
    TailOfTwo(line);
    PushAllFromEmpty([line, line], MAX_LOG_BUFFER_LINES, MAX_LOG_BUFFER_BYTES);
    assert TotalBytes([line]) == |line| && TotalBytes([line, line]) == 2 * |line|;
  }

  lemma TailOfTwo(line: Line)
    requires NEWLINE !in line && |line| == MAX_LOG_LINE_BYTES
    ensures TailText(line + [NEWLINE] + (line + [NEWLINE] + [])) == line + [NEWLINE] + []
  {
    var second := line + [NEWLINE] + [];
    var file := line + [NEWLINE] + second;
    assert file[2..] == line[2..] + [NEWLINE] + second;
    OnlyNewline(line[2..], second);
  }
}
