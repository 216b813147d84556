/** The lines of a text and of the tail of a file, told without the functions that compute them: by joining the lines
    back to the text, and by the newlines of the file. */
module LogLines {
  import opened Basics
  import opened LogBuffer

  function Joined(lines: seq<Line>, ends: seq<seq<Byte>>): seq<Byte>
    requires |lines| == |ends|
  {
    if lines == [] then [] else lines[0] + ends[0] + Joined(lines[1..], ends[1..])
  }

  /** A line without a newline in it, and what ends it: a newline, a carriage return and a newline, or, for a last
      line that is not empty, the end of the text.  What ends it is as long as it can be. */
  predicate IsLine(line: Line, end: seq<Byte>, last: bool) {
    10 !in line
    && (|| end == [13, 10]
        || (end == [10] && (line != [] ==> Last(line) != 13))
        || (end == [] && last && line != []))
  }

  ghost predicate IsSplit(text: seq<Byte>, lines: seq<Line>, ends: seq<seq<Byte>>) {
    && |lines| == |ends| && Joined(lines, ends) == text
    && forall i | 0 <= i < |lines| :: IsLine(lines[i], ends[i], i == |lines| - 1)
  }

  lemma {:induction false} NoNewlineBefore(text: seq<Byte>)
    ensures 10 !in text[..IndexOf(text, NEWLINE)]
  {
    if text != [] && text[0] != 10 {
      NoNewlineBefore(text[1..]);
      var i := IndexOf(text[1..], NEWLINE);
      assert text[..i + 1] == [text[0]] + text[1..][..i];
    }
  }

  lemma JoinOneMore(text: seq<Byte>, line: Line, end: seq<Byte>, rest: seq<Byte>, lines: seq<Line>,
                    ends: seq<seq<Byte>>)
    requires text == line + end + rest && IsSplit(rest, lines, ends)
    requires IsLine(line, end, rest == [] && lines == [])
    ensures IsSplit(text, [line] + lines, [end] + ends)
  {
    assert ([line] + lines)[1..] == lines && ([end] + ends)[1..] == ends;
  }

  /** Every text is its lines joined by what ends them. */
  lemma {:induction false} LinesJoinBack(text: seq<Byte>) returns (ends: seq<seq<Byte>>)
    ensures IsSplit(text, SplitLines(text), ends)
    decreases |text|
  {
    ends := [];
    if text != [] {
      var i := IndexOf(text, NEWLINE);
      NoNewlineBefore(text);
      if i == |text| {
        assert text[..i] == text == text + [] + [];
        JoinOneMore(text, text, [], [], [], []);
        ends := [[]];
      } else {
        var front, rest := text[..i], text[i + 1..];
        var tail := LinesJoinBack(rest);
        var line := WithoutReturn(front);
        var end := if line == front then [10] else [13, 10];
        assert front + [10] == line + end;
        assert text == front + [10] + rest;
        JoinOneMore(text, line, end, rest, SplitLines(rest), tail);
        ends := [end] + tail;
      }
    }
  }

  lemma {:induction false} FirstNewlineAt(line: Line, rest: seq<Byte>)
    requires 10 !in line
    ensures IndexOf(line + [NEWLINE] + rest, NEWLINE) == |line|
    ensures IndexOf(line, NEWLINE) == |line|
  {
    if line != [] {
      assert line[0] in line;
      assert (line + [NEWLINE] + rest)[1..] == line[1..] + [NEWLINE] + rest;
      FirstNewlineAt(line[1..], rest);
    }
  }

  lemma FirstLineTaken(text: seq<Byte>, line: Line, end: seq<Byte>, rest: seq<Byte>, last: bool)
    requires text == line + end + rest && IsLine(line, end, last) && (last ==> rest == [])
    ensures SplitLines(text) == [line] + SplitLines(rest)
  {
    if end == [] {
      FirstNewlineAt(line, []);
      assert text == line;
    } else {
      var front := if end == [10] then line else line + [13];
      FirstNewlineAt(front, rest);
      assert text == front + [NEWLINE] + rest;
      assert text[..|front|] == front && text[|front| + 1..] == rest;
      SplitLinesStep(text, |front|, front, rest);
      assert WithoutReturn(front) == line;
    }
  }

  /** There is only one way to split a text into lines, and it is the one the program takes. */
  lemma {:induction false} SplitIsUnique(text: seq<Byte>, lines: seq<Line>, ends: seq<seq<Byte>>)
    requires IsSplit(text, lines, ends)
    ensures lines == SplitLines(text)
    decreases |lines|
  {
    if lines != [] {
      var rest := Joined(lines[1..], ends[1..]);
      assert IsSplit(rest, lines[1..], ends[1..]) by {
        forall i | 0 <= i < |lines| - 1
          ensures IsLine(lines[1..][i], ends[1..][i], i == |lines| - 2)
        {
          assert IsLine(lines[i + 1], ends[i + 1], i + 1 == |lines| - 1);
        }
      }
      SplitIsUnique(rest, lines[1..], ends[1..]);
      assert IsLine(lines[0], ends[0], 0 == |lines| - 1);
      FirstLineTaken(text, lines[0], ends[0], rest, |lines| == 1);
    }
  }

  /** The text of a reload is the whole file up to two mebibytes.  Of a larger file it starts after the first newline
      of its last two mebibytes, and is empty when there is none. */
  lemma TailExactly(file: seq<Byte>)
    ensures |file| <= 2_097_152 ==> TailText(file) == file
    ensures |file| > 2_097_152 ==>
              var start := |file| - 2_097_152;
              if 10 in file[start..] then
                exists k | start < k <= |file| ::
                    file[k - 1] == 10 && 10 !in file[start..k - 1] && TailText(file) == file[k..]
              else TailText(file) == []
  {
    if |file| > 2_097_152 {
      var start := |file| - 2_097_152;
      var tail := file[start..];
      var i := IndexOf(tail, NEWLINE);
      NoNewlineBefore(tail);
      if 10 in tail {
        NewlineFound(tail);
        var k := start + i + 1;
        assert tail[..i] == file[start..k - 1] && tail[i + 1..] == file[k..] && file[k - 1] == tail[i];
      }
    }
  }
}
