/**
 The file side of a tool log: appending lines and rotating the file, under file-system failures.

 Any call to the file system may fail.  A failed append is taken to leave the file as it was.
 */
module LogFile {
  import opened Basics
  import opened Utf8
  import opened LogBuffer
  import opened LogWindow
  import opened LogWindowText

  /** `YYYY-MM-DD HH:MM:SS.mmm` */
  const STAMP_BYTES: nat := 23

  /** Room the configuration demands beyond the longest line. */
  const LINE_ROOM: nat := 256

  /** The size of a file of newline-terminated lines. */
  function FileSize(lines: seq<Line>): nat {
    if lines == [] then 0 else FileSize(lines[..|lines| - 1]) + |Last(lines)| + 1
  }

  /** The line that `ToolLog::write` logs for one line of a message. */
  function Format(stamp: seq<Byte>, channel: seq<Byte>, line: Line, maxLineBytes: nat): Line {
    stamp + Ascii(" [") + channel + Ascii("] ") + Clip(line, maxLineBytes)
      + if |line| > maxLineBytes then MARKER else []
  }

  /** A formatted line, spelled out: stamp, channel in brackets, and the line, whole or cut and marked. */
  lemma FormatSpelledOut(stamp: seq<Byte>, channel: seq<Byte>, line: Line, maxLineBytes: nat)
    requires ValidUtf8(line)
    ensures var entry, head := Format(stamp, channel, line, maxLineBytes),
                               stamp + [0x20, 0x5B] + channel + [0x5D, 0x20];
            if |line| <= maxLineBytes then
              entry == head + line
            else
              exists n | 0 <= n <= maxLineBytes < n + 4 && n <= |line| ::
                  ValidUtf8(line[..n]) && entry == head + line[..n] + [0x20, 0xE2, 0x80, 0xA6] + Ascii("[truncated]")
  {
    ClipIsLongestPrefix(line, maxLineBytes);
    var head, kept := stamp + [0x20, 0x5B] + channel + [0x5D, 0x20], Clip(line, maxLineBytes);
    HeadSpelledOut(stamp, channel);
    if |line| <= maxLineBytes {
      assert head + line + [] == head + line;
    } else {
      ClipLosesLittle(line, maxLineBytes);
      assert kept == line[..|kept|];
      MarkedSpelledOut(head + line[..|kept|]);
    }
  }

  lemma HeadSpelledOut(stamp: seq<Byte>, channel: seq<Byte>)
    ensures stamp + Ascii(" [") + channel + Ascii("] ") == stamp + [0x20, 0x5B] + channel + [0x5D, 0x20]
  {
    assert Ascii(" [") == [0x20, 0x5B] && Ascii("] ") == [0x5D, 0x20];
  }

  /** A formatted line, newline included, fits the smallest file size the configuration accepts. */
  lemma FormattedFits(stamp: seq<Byte>, channel: seq<Byte>, line: Line, maxLineBytes: nat, maxFileBytes: nat)
    requires |stamp| == STAMP_BYTES && |channel| <= LINE_ROOM - 43
    requires maxFileBytes >= maxLineBytes + LINE_ROOM
    ensures |Format(stamp, channel, line, maxLineBytes)| + 1 <= maxFileBytes
  {
    MarkerSize();
  }

  /** `kept` is the newest part of `written`. */
  ghost predicate IsNewest(kept: seq<Line>, written: seq<Line>) {
    |kept| <= |written| && written[|written| - |kept|..] == kept
  }

  lemma NewestAfterAppend(kept: seq<Line>, written: seq<Line>, line: Line)
    requires IsNewest(kept, written)
    ensures IsNewest(kept + [line], written + [line])
  {
  }

  /** The log file at its path and its backup.  `written` is what the two held at first and every line
      written successfully since. */
  class RotatingFile {
    const maxFileBytes: nat
    var isOpen: bool
    var fileBytes: nat
    var current: seq<Line>
    var backup: seq<Line>
    ghost var written: seq<Line>

    ghost predicate Valid()
      reads this
    {
      && (isOpen ==> fileBytes == FileSize(current))
      && IsNewest(backup + current, written)
    }

    constructor (maxFileBytes: nat, backup: seq<Line>, current: seq<Line>)
      ensures Valid() && this.maxFileBytes == maxFileBytes && written == backup + current
    {
      this.maxFileBytes := maxFileBytes;
      this.backup, this.current, written := backup, current, backup + current;
      isOpen, fileBytes := true, FileSize(current);
    }

    /** `open_private_log` followed by asking for the file's length. */
    method Open() returns (ok: bool)
      requires Valid()
      modifies this`isOpen, this`fileBytes
      ensures Valid() && (ok ==> isOpen)
    {
      ok := *;
      if ok {
        isOpen, fileBytes := true, FileSize(current);
      }
    }

    /** `rotate`: the backup is removed, the file becomes the backup, and a new file is opened. */
    method Rotate() returns (ok: bool)
      requires Valid()
      modifies this`isOpen, this`fileBytes, this`current, this`backup
      ensures Valid() && (ok ==> isOpen && current == [] && backup == old(current))
      ensures (current == old(current) || current == [])
    {
      if isOpen {
        isOpen := false;
        var flushed := *;
        if !flushed {
          return false;
        }
      }
      var removed := *;
      var renamed := *;
      if removed {
        backup := [];
        if renamed {
          backup, current := current, [];
        }
      }
      var reopened := Open();
      ok := removed && renamed && reopened;
    }

    /** `write_formatted`.  While the line fits behind what the file holds, or the file is empty, it is appended or
        nothing changes; otherwise it is written to a new file, and the old file is the backup. */
    method WriteFormatted(line: Line) returns (ok: bool)
      requires Valid() && |line| <= ISIZE_MAX && maxFileBytes <= ISIZE_MAX
      modifies this
      ensures Valid()
      ensures ok ==> written == old(written) + [line] && current != [] && Last(current) == line
      ensures !ok ==> written == old(written) && (current == old(current) || current == [])
      ensures ok ==> FileSize(current) <= Max(maxFileBytes, |line| + 1)
      ensures var size := FileSize(old(current));
              if size == 0 || size + |line| + 1 <= maxFileBytes then
                backup == old(backup) && current == if ok then old(current) + [line] else old(current)
              else
                ok ==> backup == old(current) && current == [line]
    {
      ok := false;
      if !isOpen {
        var reopened := Open();
        if !reopened {
          return;
        }
      }
      var bytes := |line| + 1;
      if fileBytes > 0 && SaturatingAdd(fileBytes, bytes) > maxFileBytes {
        var rotated := Rotate();
        if !rotated {
          return;
        }
      }
      ok := Append(line);
    }

    /** Writing the line to the open file. */
    method Append(line: Line) returns (ok: bool)
      requires Valid() && isOpen && FileSize(current) + |line| + 1 <= U64_MAX
      modifies this`current, this`written, this`fileBytes
      ensures Valid()
      ensures ok ==> written == old(written) + [line] && current == old(current) + [line]
      ensures ok ==> FileSize(current) == FileSize(old(current)) + |line| + 1
      ensures !ok ==> written == old(written) && current == old(current)
    {
      ok := *;
      if ok {
        NewestAfterAppend(backup + current, written, line);
        assert backup + (current + [line]) == backup + current + [line];
        current, written := current + [line], written + [line];
        fileBytes := SaturatingAdd(fileBytes, |line| + 1);
        assert current[..|current| - 1] == old(current);
      }
    }
  }

  /** A stamp under which `formatted` is what is logged for `line`. */
  ghost predicate IsFormatted(formatted: Line, channel: seq<Byte>, line: Line, maxLineBytes: nat) {
    exists stamp: seq<Byte> :: |stamp| == STAMP_BYTES && formatted == Format(stamp, channel, line, maxLineBytes)
  }

  class ToolLog {
    const maxLineBytes: nat
    const buffer: LogInner
    const file: RotatingFile

    ghost predicate Valid()
      reads this, buffer, file
    {
      && buffer.Valid() && file.Valid()
      && file.maxFileBytes <= ISIZE_MAX && maxLineBytes + LINE_ROOM <= file.maxFileBytes
    }

    constructor (buffer: LogInner, file: RotatingFile, maxLineBytes: nat)
      requires buffer.Valid() && file.Valid() && file.maxFileBytes <= ISIZE_MAX
      requires maxLineBytes + LINE_ROOM <= file.maxFileBytes
      ensures Valid() && this.buffer == buffer && this.file == file && this.maxLineBytes == maxLineBytes
    {
      this.buffer, this.file, this.maxLineBytes := buffer, file, maxLineBytes;
    }

    method Now() returns (stamp: seq<Byte>)
      ensures |stamp| == STAMP_BYTES
    {
      stamp := seq(STAMP_BYTES, _ => 0x30);
      for i := 0 to STAMP_BYTES
        invariant |stamp| == STAMP_BYTES
      {
        var b: Byte :| b < 128;
        stamp := stamp[i := b];
      }
    }

    method FormatLine(channel: seq<Byte>, line: Line) returns (entry: Line)
      requires |channel| <= LINE_ROOM - 43 && ValidUtf8(line)
      ensures IsFormatted(entry, channel, line, maxLineBytes) && |entry| < maxLineBytes + LINE_ROOM
    {
      var text, truncated := TruncateUtf8(line, maxLineBytes);
      var stamp := Now();
      entry := stamp + Ascii(" [") + channel + Ascii("] ") + text + if truncated then MARKER else [];
      FormattedFits(stamp, channel, line, maxLineBytes, maxLineBytes + LINE_ROOM);
      assert entry == Format(stamp, channel, line, maxLineBytes);
    }

    ghost predicate WithinLimit()
      reads file
    {
      FileSize(file.current) <= file.maxFileBytes
    }

    /** Writes one formatted line to the file, and to the live buffer in any case. */
    method WriteLine(entry: Line) returns (ok: bool)
      requires Valid() && |entry| < maxLineBytes + LINE_ROOM
      modifies buffer, file
      ensures Valid() && buffer.history == old(buffer.history) + [entry]
      ensures file.written == old(file.written) + if ok then [entry] else []
      ensures if ok then WithinLimit() else old(WithinLimit()) ==> WithinLimit()
    {
      ok := file.WriteFormatted(entry);
      buffer.PushBounded(entry);
    }

    /** The loop body of `write`. */
    method LogLine(channel: seq<Byte>, line: Line) returns (entry: Line, ok: bool)
      requires Valid() && |channel| <= LINE_ROOM - 43 && ValidUtf8(line)
      modifies buffer, file
      ensures Valid() && IsFormatted(entry, channel, line, maxLineBytes)
      ensures buffer.history == old(buffer.history) + [entry]
      ensures file.written == old(file.written) + if ok then [entry] else []
      ensures if ok then WithinLimit() else old(WithinLimit()) ==> WithinLimit()
    {
      entry := FormatLine(channel, line);
      ok := WriteLine(entry);
    }

    /** `write`: every line of the message reaches the live buffer, also when the file fails; the file
        gains some of these lines, in their order, and is within its limit once one has been written. */
    method Write(channel: seq<Byte>, lines: seq<Line>)
      requires Valid() && |channel| <= LINE_ROOM - 43
      requires forall line | line in lines :: ValidUtf8(line)
      modifies buffer, file
      ensures Valid()
      ensures old(buffer.history) <= buffer.history
      ensures AreFormatted(buffer.history[|old(buffer.history)|..], channel, lines, maxLineBytes)
      ensures old(file.written) <= file.written
      ensures IsSubsequence(file.written[|old(file.written)|..], buffer.history[|old(buffer.history)|..])
      ensures file.written != old(file.written) ==> WithinLimit()
    {
      ghost var logged: seq<Line>, stored: seq<Line> := [], [];
      for i := 0 to |lines|
        invariant Valid()
        invariant buffer.history == old(buffer.history) + logged && file.written == old(file.written) + stored
        invariant LoggedSoFar(logged, stored, channel, lines[..i], maxLineBytes)
        invariant stored != [] ==> WithinLimit()
      {
        var entry, ok := LogLine(channel, lines[i]);
        OneMoreLogged(logged, stored, channel, lines, i, entry, ok, maxLineBytes);
        LinesAssociate(old(buffer.history), logged, [entry]);
        LinesAssociate(old(file.written), stored, if ok then [entry] else []);
        logged, stored := logged + [entry], stored + if ok then [entry] else [];
      }
      assert lines[..|lines|] == lines;
      assert buffer.history[|old(buffer.history)|..] == logged;
      assert file.written[|old(file.written)|..] == stored;
    }
  }

  /** `logged` are the formatted `lines`, and `stored` those of them that reached the file. */
  ghost predicate LoggedSoFar(logged: seq<Line>, stored: seq<Line>, channel: seq<Byte>, lines: seq<Line>,
                              maxLineBytes: nat) {
    AreFormatted(logged, channel, lines, maxLineBytes) && IsSubsequence(stored, logged)
  }

  lemma OneMoreLogged(logged: seq<Line>, stored: seq<Line>, channel: seq<Byte>, lines: seq<Line>, i: nat,
                      entry: Line, ok: bool, maxLineBytes: nat)
    requires i < |lines| && LoggedSoFar(logged, stored, channel, lines[..i], maxLineBytes)
    requires IsFormatted(entry, channel, lines[i], maxLineBytes)
    ensures LoggedSoFar(logged + [entry], stored + (if ok then [entry] else []), channel, lines[..i + 1], maxLineBytes)
  {
    AnotherFormatted(logged, entry, channel, lines[..i], lines[i], maxLineBytes);
    assert lines[..i + 1] == lines[..i] + [lines[i]];
    LongerSubsequence(stored, logged, entry);
    assert stored + [] == stored;
  }

  /** `part` is `whole` with some of its lines left out. */
  ghost predicate IsSubsequence(part: seq<Line>, whole: seq<Line>) {
    || part == []
    || (&& whole != []
        && var init := whole[..|whole| - 1];
           IsSubsequence(part, init) || (Last(part) == Last(whole) && IsSubsequence(part[..|part| - 1], init)))
  }

  lemma LongerSubsequence(part: seq<Line>, whole: seq<Line>, line: Line)
    requires IsSubsequence(part, whole)
    ensures IsSubsequence(part, whole + [line]) && IsSubsequence(part + [line], whole + [line])
  {
    assert (whole + [line])[..|whole|] == whole && (part + [line])[..|part|] == part;
  }

  ghost predicate AreFormatted(logged: seq<Line>, channel: seq<Byte>, lines: seq<Line>, maxLineBytes: nat) {
    |logged| == |lines| && forall i | 0 <= i < |lines| :: IsFormatted(logged[i], channel, lines[i], maxLineBytes)
  }

  lemma AnotherFormatted(logged: seq<Line>, entry: Line, channel: seq<Byte>, lines: seq<Line>, line: Line,
                         maxLineBytes: nat)
    requires AreFormatted(logged, channel, lines, maxLineBytes) && IsFormatted(entry, channel, line, maxLineBytes)
    ensures AreFormatted(logged + [entry], channel, lines + [line], maxLineBytes)
  {
  }
}
