/** The window of a log that the user interface shows: its newest lines, clipped, under a byte budget. */
module LogWindow {
  import opened Basics
  import opened Utf8
  import opened LogBuffer
  import ElevatedNames

  const MAX_LINES: nat := 400
  const MAX_BYTES: nat := 48 * 1024
  const LINE_MAX_BYTES: nat := 2 * 1024

  function Ascii(s: string): (r: seq<Byte>)
    requires forall i | 0 <= i < |s| :: s[i] as int < 128
    ensures |r| == |s| && forall i | 0 <= i < |r| :: r[i] < 128
  {
    seq(|s|, i requires 0 <= i < |s| => s[i] as int)
  }

  /** The ellipsis character. */
  const ELLIPSIS: seq<Byte> := [0xE2, 0x80, 0xA6]
  const MARKER: seq<Byte> := [0x20] + ELLIPSIS + Ascii("[truncated]")
  const HEADER_END: seq<Byte> := Ascii(" earlier lines omitted; ") + Ascii("open the log file ")
    + Ascii("for full history\n")

  function Header(omitted: nat): seq<Byte> {
    var digits := ElevatedNames.Decimal(omitted);
    assert forall i | 0 <= i < |digits| :: '0' <= digits[i] <= '9';
    ELLIPSIS + [0x20] + Ascii(digits) + HEADER_END
  }

  /** A line as shown: its longest well-formed prefix within the limit, marked if it was cut. */
  function Shown(line: Line): seq<Byte> {
    Clip(line, LINE_MAX_BYTES) + if |line| > LINE_MAX_BYTES then MARKER else []
  }

  function Body(lines: seq<Line>): seq<Byte> {
    if lines == [] then []
    else Body(lines[..|lines| - 1]) + (if |lines| > 1 then [NEWLINE] else []) + Shown(Last(lines))
  }

  function ClippedLength(line: Line): nat {
    Min(|line|, LINE_MAX_BYTES)
  }

  function ClippedBytes(lines: seq<Line>): nat {
    if lines == [] then 0 else ClippedLength(lines[0]) + ClippedBytes(lines[1..])
  }

  /** What a window may hold. */
  predicate WindowFits(lines: seq<Line>) {
    |lines| <= MAX_LINES && ClippedBytes(lines) <= MAX_BYTES
  }

  /** Where the longest suffix that fits begins. */
  function WindowStart(lines: seq<Line>): (start: nat)
    ensures start <= |lines| && WindowFits(lines[start..])
    decreases |lines|
  {
    if lines == [] || WindowFits(lines) then
      assert lines[0..] == lines;
      0
    else
      assert lines[1..][WindowStart(lines[1..])..] == lines[1 + WindowStart(lines[1..])..];
      1 + WindowStart(lines[1..])
  }

  function Render(lines: seq<Line>): seq<Byte> {
    var start := WindowStart(lines);
    (if start > 0 then Header(start) else []) + Body(lines[start..])
  }

  // ---------- the window is the longest suffix ----------

  lemma {:induction false} ClippedSuffix(lines: seq<Line>, k: nat)
    requires k <= |lines|
    ensures ClippedBytes(lines[k..]) <= ClippedBytes(lines)
  {
    if k > 0 {
      ClippedSuffix(lines[1..], k - 1);
      assert lines[1..][k - 1..] == lines[k..];
    }
  }

  /** A suffix fits exactly from the window's start on. */
  lemma {:induction false} WindowStartExactly(lines: seq<Line>, k: nat)
    requires k <= |lines|
    ensures WindowFits(lines[k..]) <==> WindowStart(lines) <= k
  {
    if lines == [] || WindowFits(lines) {
      ClippedSuffix(lines, k);
    } else if k == 0 {
      assert lines[0..] == lines;
    } else {
      WindowStartExactly(lines[1..], k - 1);
      assert lines[1..][k - 1..] == lines[k..];
    }
  }

  /** The newest line is always shown: alone it never exceeds the budget. */
  lemma NewestIsShown(lines: seq<Line>)
    requires lines != []
    ensures WindowStart(lines) < |lines|
  {
    var newest := lines[|lines| - 1..];
    assert newest == [Last(lines)] && newest[1..] == [];
    WindowStartExactly(lines, |lines| - 1);
  }

  // ---------- size ----------

  function Truncated(lines: seq<Line>): nat {
    if lines == [] then 0 else Truncated(lines[1..]) + if |lines[0]| > LINE_MAX_BYTES then 1 else 0
  }

  lemma {:induction false} TruncatedLinesAreFull(lines: seq<Line>)
    ensures Truncated(lines) * LINE_MAX_BYTES <= ClippedBytes(lines)
  {
    if lines != [] {
      TruncatedLinesAreFull(lines[1..]);
    }
  }

  lemma {:induction false} SplitLast(lines: seq<Line>)
    requires lines != []
    ensures ClippedBytes(lines) == ClippedBytes(lines[..|lines| - 1]) + ClippedLength(Last(lines))
    ensures Truncated(lines) == Truncated(lines[..|lines| - 1]) + if |Last(lines)| > LINE_MAX_BYTES then 1 else 0
  {
    if |lines| > 1 {
      SplitLast(lines[1..]);
      assert lines[1..][..|lines| - 2] == lines[..|lines| - 1][1..];
    } else {
      assert lines[1..] == [] && lines[..0] == [];
    }
  }

  lemma {:induction false} BodySize(lines: seq<Line>)
    ensures |Body(lines)| <= ClippedBytes(lines) + Max(|lines| - 1, 0) + |MARKER| * Truncated(lines)
  {
    if lines != [] {
      BodySize(lines[..|lines| - 1]);
      SplitLast(lines);
      assert |Shown(Last(lines))|
             <= ClippedLength(Last(lines)) + if |Last(lines)| > LINE_MAX_BYTES then |MARKER| else 0;
    }
  }

  lemma MarkerSize()
    ensures |MARKER| == 15 && |HEADER_END| == 59
  {
  }

  /** The output is at most 48 KiB of text, 399 newlines, 24 markers and one header. */
  lemma RenderSize(lines: seq<Line>)
    ensures |Render(lines)| <= MAX_BYTES + 399 + 24 * 15 + |Header(WindowStart(lines))|
  {
    var window := lines[WindowStart(lines)..];
    BodySize(window);
    TruncatedLinesAreFull(window);
    MarkerSize();
    assert Truncated(window) <= 24;
  }

  function Pow10(e: nat): nat {
    if e == 0 then 1 else 10 * Pow10(e - 1)
  }

  lemma {:induction false} DecimalSizeExactly(n: nat, digits: nat)
    requires digits > 0
    ensures |ElevatedNames.Decimal(n)| <= digits <==> n < Pow10(digits)
    decreases digits
  {
    assert Pow10(digits) == 10 * Pow10(digits - 1);
    if n >= 10 && digits > 1 {
      DecimalSizeExactly(n / 10, digits - 1);
    } else if n >= 10 {
      assert Pow10(0) == 1;
      assert |ElevatedNames.Decimal(n / 10)| >= 1;
    } else {
      PowPositive(digits - 1);
    }
  }

  lemma {:induction false} PowPositive(e: nat)
    ensures Pow10(e) >= 1
  {
    if e > 0 {
      PowPositive(e - 1);
    }
  }

  /** For any number of omitted lines, the header takes 63 bytes and one for each of its digits. */
  lemma HeaderSize(omitted: nat, digits: nat)
    requires digits > 0
    ensures |Header(omitted)| <= 63 + digits <==> omitted < Pow10(digits)
  {
    DecimalSizeExactly(omitted, digits);
    MarkerSize();
  }

  // ---------- well-formedness ----------

  lemma {:induction false} AsciiIsValid(s: seq<Byte>)
    requires forall i | 0 <= i < |s| :: s[i] < 128
    ensures ValidUtf8(s)
  {
    if s != [] {
      assert CharLength(s) == 1;
      AsciiIsValid(s[1..]);
    }
  }

  lemma MarkerIsValid()
    ensures ValidUtf8(MARKER) && ValidUtf8(ELLIPSIS + [0x20])
  {
    AsciiIsValid([0x20]);
    EllipsisIsValid();
    AsciiIsValid(Ascii("[truncated]"));
    ValidConcat([0x20], ELLIPSIS);
    ValidConcat([0x20] + ELLIPSIS, Ascii("[truncated]"));
    ValidConcat(ELLIPSIS, [0x20]);
  }

  lemma EllipsisIsValid()
    ensures ValidUtf8(ELLIPSIS)
  {
    assert CharLength(ELLIPSIS) == 3;
    assert ELLIPSIS[3..] == [];
  }

  lemma ShownIsValid(line: Line)
    requires ValidUtf8(line)
    ensures ValidUtf8(Shown(line))
  {
    ClipIsLongestPrefix(line, LINE_MAX_BYTES);
    MarkerIsValid();
    ValidConcat(Clip(line, LINE_MAX_BYTES), if |line| > LINE_MAX_BYTES then MARKER else []);
  }

  lemma {:induction false} BodyIsValid(lines: seq<Line>)
    requires forall line | line in lines :: ValidUtf8(line)
    ensures ValidUtf8(Body(lines))
  {
    if lines != [] {
      var init, newline := lines[..|lines| - 1], if |lines| > 1 then [NEWLINE] else [];
      BodyIsValid(init);
      AsciiIsValid(newline);
      ShownIsValid(Last(lines));
      ValidConcat(Body(init), newline);
      ValidConcat(Body(init) + newline, Shown(Last(lines)));
    }
  }

  /** What is shown is again a well-formed text, although lines were cut. */
  lemma RenderIsValid(lines: seq<Line>)
    requires forall line | line in lines :: ValidUtf8(line)
    ensures ValidUtf8(Render(lines))
  {
    var start := WindowStart(lines);
    var digits := ElevatedNames.Decimal(start);
    MarkerIsValid();
    AsciiIsValid(Ascii(digits));
    AsciiIsValid(HEADER_END);
    ValidConcat(ELLIPSIS + [0x20], Ascii(digits));
    ValidConcat(ELLIPSIS + [0x20] + Ascii(digits), HEADER_END);
    BodyIsValid(lines[start..]);
    ValidConcat(if start > 0 then Header(start) else [], Body(lines[start..]));
  }

  // ---------- the program ----------

  lemma BodyNext(window: seq<Line>, index: nat)
    requires index < |window|
    ensures Body(window[..index + 1])
         == Body(window[..index]) + (if index > 0 then [NEWLINE] else []) + Shown(window[index])
  {
    assert window[..index + 1][..index] == window[..index];
  }

  /** `format_snapshot`. */
  method FormatSnapshot(lines: seq<Line>) returns (output: seq<Byte>)
    requires forall line | line in lines :: ValidUtf8(line)
    ensures output == Render(lines)
  {
    var start := FindStart(lines);
    var body := RenderBody(lines[start..]);
    output := (if start > 0 then Header(start) else []) + body;
  }

  method RenderBody(window: seq<Line>) returns (body: seq<Byte>)
    requires forall line | line in window :: ValidUtf8(line)
    ensures body == Body(window)
  {
    body := [];
    for index := 0 to |window|
      invariant body == Body(window[..index])
    {
      BodyNext(window, index);
      if index > 0 {
        body := body + [NEWLINE];
      }
      var text, truncated := TruncateUtf8(window[index], LINE_MAX_BYTES);
      body := body + (text + if truncated then MARKER else []);
    }
    assert window[..|window|] == window;
  }

  /** The first loop of `format_snapshot`: walks back from the newest line. */
  method FindStart(lines: seq<Line>) returns (start: nat)
    ensures start == WindowStart(lines)
  {
    var total := |lines|;
    start := total;
    var keptBytes := 0;
    var full := false;
    while start > 0 && !full
      invariant start <= total && keptBytes == ClippedBytes(lines[start..]) && WindowFits(lines[start..])
      invariant full ==> start > 0 && !WindowFits(lines[start - 1..])
      decreases start, !full
    {
      var lineLength := Min(|lines[start - 1]|, LINE_MAX_BYTES);
      assert lines[start - 1..][1..] == lines[start..];
      if start < total && keptBytes + lineLength > MAX_BYTES {
        full := true;
      } else if total - start >= MAX_LINES {
        full := true;
      } else {
        start := start - 1;
        keptBytes := keptBytes + lineLength;
      }
    }
    WindowStartExactly(lines, start);
    if start > 0 {
      WindowStartExactly(lines, start - 1);
    }
  }
}
