/** What the user interface shows of a log, spelled out: which lines, in which order, how each is cut and marked, and
    what the header says. */
module LogWindowText {
  import opened Basics
  import opened Utf8
  import opened LogBuffer
  import opened LogLines
  import opened LogWindow
  import ElevatedNames

  /** The bytes the budget counts: a line for no more than 2048. */
  function Counted(lines: seq<Line>): nat {
    if lines == [] then 0 else Min(|lines[0]|, 2048) + Counted(lines[1..])
  }

  predicate InBudget(lines: seq<Line>) {
    |lines| <= 400 && Counted(lines) <= 49_152
  }

  /** How a line is shown: whole, or as its longest well-formed beginning within 2048 bytes, marked. */
  ghost predicate IsShown(line: Line, shown: Line) {
    if |line| <= 2048 then shown == line
    else exists n | 2045 <= n <= 2048 ::
        && ValidUtf8(line[..n]) && (forall j | n < j <= 2048 :: !ValidUtf8(line[..j]))
        && shown == line[..n] + [0x20, 0xE2, 0x80, 0xA6] + Ascii("[truncated]")
  }

  /** The header before `omitted` lines that are left out: none, or their number in words. */
  ghost predicate IsHeader(omitted: nat, header: seq<Byte>) {
    if omitted == 0 then header == []
    else exists digits: string ::
        && ElevatedNames.AllDigits(digits) && digits != [] && digits[0] != '0'
        && ElevatedNames.DigitsValue(digits) == omitted
        && header == [0xE2, 0x80, 0xA6, 0x20] + Ascii(digits) + (Ascii(" earlier lines omitted; ")
                     + Ascii("open the log file ") + Ascii("for full history\n"))
  }

  lemma {:induction false} CountedBytes(lines: seq<Line>)
    ensures Counted(lines) == ClippedBytes(lines)
  {
    if lines != [] {
      CountedBytes(lines[1..]);
    }
  }

  lemma ShownSpelledOut(line: Line)
    requires ValidUtf8(line)
    ensures IsShown(line, Shown(line))
  {
    ClipIsLongestPrefix(line, 2048);
    if |line| > 2048 {
      ClipLosesLittle(line, 2048);
      var n := |Clip(line, 2048)|;
      assert line[..n] == Clip(line, 2048);
      MarkedSpelledOut(line[..n]);
    } else {
      assert Shown(line) == line + [];
    }
  }

  lemma MarkedSpelledOut(kept: seq<Byte>)
    ensures kept + MARKER == kept + [0x20, 0xE2, 0x80, 0xA6] + Ascii("[truncated]")
  {
    Reassociate(kept, [0x20, 0xE2, 0x80, 0xA6], Ascii("[truncated]"));
    assert [0x20] + ELLIPSIS == [0x20, 0xE2, 0x80, 0xA6];
  }

  lemma Reassociate(a: seq<Byte>, b: seq<Byte>, c: seq<Byte>)
    ensures a + (b + c) == a + b + c
  {
  }

  lemma {:induction false} FirstDigit(n: nat)
    requires n > 0
    ensures ElevatedNames.Decimal(n)[0] != '0'
  {
    if n >= 10 {
      FirstDigit(n / 10);
    }
  }

  lemma HeaderSpelledOut(omitted: nat)
    requires omitted > 0
    ensures IsHeader(omitted, Header(omitted))
  {
    var digits := ElevatedNames.Decimal(omitted);
    FirstDigit(omitted);
    ElevatedNames.DecimalValue(omitted);
    assert ELLIPSIS + [0x20] == [0xE2, 0x80, 0xA6, 0x20];
  }

  /** One line end between lines and none after the last. */
  predicate AreBetween(ends: seq<seq<Byte>>) {
    forall i | 0 <= i < |ends| :: ends[i] == if i < |ends| - 1 then [10] else []
  }

  ghost predicate AreShown(lines: seq<Line>, shown: seq<Line>) {
    |shown| == |lines| && forall i | 0 <= i < |lines| :: IsShown(lines[i], shown[i])
  }

  lemma {:induction false} JoinedAppend(lines: seq<Line>, ends: seq<seq<Byte>>, line: Line, end: seq<Byte>)
    requires |lines| == |ends|
    ensures Joined(lines + [line], ends + [end]) == Joined(lines, ends) + line + end
  {
    if lines == [] {
      assert [] + [line] == [line] && [] + [end] == [end];
      assert Joined([line], [end]) == line + end + Joined([], []);
    } else {
      JoinedAppend(lines[1..], ends[1..], line, end);
      assert (lines + [line])[1..] == lines[1..] + [line] && (ends + [end])[1..] == ends[1..] + [end];
    }
  }

  /** The body of a window is its lines as they are shown, with newlines between them. */
  lemma {:induction false} BodySpelledOut(lines: seq<Line>) returns (shown: seq<Line>, ends: seq<seq<Byte>>)
    requires forall line | line in lines :: ValidUtf8(line)
    ensures AreShown(lines, shown) && |ends| == |lines| && AreBetween(ends) && Body(lines) == Joined(shown, ends)
  {
    shown, ends := [], [];
    if lines != [] {
      var init, line := lines[..|lines| - 1], Last(lines);
      var shown', ends' := BodySpelledOut(init);
      ShownSpelledOut(line);
      shown, ends := shown' + [Shown(line)], ends' + [[]];
      if init == [] {
        BodyOfOne(lines);
      } else {
        BodyEndsMove(shown', ends', Shown(line));
        ends := ends'[|ends'| - 1 := [10]] + [[]];
        assert Body(lines) == Body(init) + [10] + Shown(line);
      }
    }
  }

  lemma BodyOfOne(lines: seq<Line>)
    requires |lines| == 1
    ensures Body(lines) == Joined([Shown(lines[0])], [[]])
  {
    var shown := Shown(lines[0]);
    assert Joined([shown], [[]]) == shown + [] + Joined([], []);
    assert Body(lines) == Body([]) + [] + shown;
  }

  lemma BodyEndsMove(shown: seq<Line>, ends: seq<seq<Byte>>, line: Line)
    requires |shown| == |ends| > 0 && AreBetween(ends)
    ensures var ends' := ends[|ends| - 1 := [10]] + [[]];
            AreBetween(ends') && Joined(shown + [line], ends') == Joined(shown, ends) + [10] + line
  {
    var n := |ends| - 1;
    var init := ends[..n];
    assert ends == init + [[]] && ends[n := [10]] == init + [[10]] && shown == shown[..n] + [shown[n]];
    JoinedAppend(shown[..n], init, shown[n], []);
    JoinedAppend(shown[..n], init, shown[n], [10]);
    JoinedAppend(shown, ends[n := [10]], line, []);
  }

  /** `output` is what is to be shown of `lines` when the first `start` of them are left out. */
  ghost predicate IsWindow(lines: seq<Line>, output: seq<Byte>, start: nat, header: seq<Byte>, shown: seq<Line>,
                           ends: seq<seq<Byte>>)
    requires start <= |lines|
  {
    && IsHeader(start, header) && AreShown(lines[start..], shown) && |ends| == |shown| && AreBetween(ends)
    && output == header + Joined(shown, ends)
  }

  /** What is shown of any log: its longest end of at most 400 lines that counts no more than 48 KiB, each line whole
      or cut and marked, on a line of its own, after a header that tells how many lines are left out, if any are. */
  lemma WindowSpelledOut(lines: seq<Line>) returns (start: nat, header: seq<Byte>, shown: seq<Line>,
                                                    ends: seq<seq<Byte>>)
    requires forall line | line in lines :: ValidUtf8(line)
    ensures start <= |lines| && forall k | 0 <= k <= |lines| :: InBudget(lines[k..]) <==> k >= start
    ensures IsWindow(lines, Render(lines), start, header, shown, ends)
  {
    start := WindowStart(lines);
    forall k | 0 <= k <= |lines|
      ensures InBudget(lines[k..]) <==> k >= start
    {
      CountedBytes(lines[k..]);
      WindowStartExactly(lines, k);
    }
    header := [];
    if start > 0 {
      HeaderSpelledOut(start);
      header := Header(start);
    }
    shown, ends := BodySpelledOut(lines[start..]);
  }
}
