/**
 Reading the output of a tool line by line with a cap on the bytes kept, from a buffered reader that
 hands out its input in chunks of any size.
 */
module CappedReader {
  import opened Basics
  import opened LogWindow

  const NEWLINE: Byte := 10

  /** The length of the first line of a stream, its newline included. */
  function LineLength(stream: seq<Byte>): (n: nat)
    ensures n <= |stream| && (stream != [] ==> n > 0)
  {
    if stream == [] then 0
    else if stream[0] == NEWLINE then 1
    else LineLength(stream[1..]) + 1
  }

  /** The first line ends with the first newline, or with the stream if there is none. */
  lemma {:induction false} LineLengthEffect(stream: seq<Byte>)
    ensures var n := LineLength(stream);
            if NEWLINE in stream[..n] then stream[n - 1] == NEWLINE && NEWLINE !in stream[..n - 1] else n == |stream|
  {
    if stream != [] && stream[0] != NEWLINE {
      LineLengthEffect(stream[1..]);
      var n := LineLength(stream[1..]);
      assert stream[..n + 1] == [stream[0]] + stream[1..][..n];
      assert n > 0 ==> stream[..n] == [stream[0]] + stream[1..][..n - 1];
    }
  }

  datatype ReadResult = Failed | End | Read(bytes: seq<Byte>, truncated: bool)

  /** What one read returns, as a function of the stream alone. */
  function CappedLine(stream: seq<Byte>, max: nat): ReadResult {
    if stream == [] then End
    else
      var line := stream[..LineLength(stream)];
      Read(line[..Min(|line|, max)], |line| > max)
  }

  /** One read takes exactly the first line and returns what is kept of it; a failed one may lose a
      part of that line and nothing else. */
  ghost predicate Outcome(stream: seq<Byte>, max: nat, result: ReadResult, rest: seq<Byte>) {
    if result.Failed? then exists n | 0 <= n <= LineLength(stream) :: rest == stream[n..]
    else result == CappedLine(stream, max) && rest == stream[LineLength(stream)..]
  }

  /** A buffered reader: `rest` is the unread input.  Each fill shows a non-empty part of it, as large
      as the system pleases, or reports an error; the history counts the errors. */
  class Reader {
    var rest: seq<Byte>
    ghost var errors: nat

    constructor (stream: seq<Byte>)
      ensures rest == stream && errors == 0
    {
      rest, errors := stream, 0;
    }

    method FillBuf() returns (buffer: Option<seq<Byte>>)
      modifies this`errors
      ensures buffer.Some? ==> buffer.value <= rest && (buffer.value == [] <==> rest == [])
      ensures errors == old(errors) + if buffer.None? then 1 else 0
    {
      var fails: bool := *;
      if fails {
        errors := errors + 1;
        return None;
      }
      var n: nat :| n <= |rest| && (n == 0 <==> rest == []);
      buffer := Some(rest[..n]);
    }

    method Consume(n: nat)
      requires n <= |rest|
      modifies this`rest
      ensures rest == old(rest)[n..]
    {
      rest := rest[n..];
    }

    /** `read_capped_line`.  It fails exactly when the system reported an error. */
    method ReadCappedLine(max: nat) returns (result: ReadResult)
      modifies this
      ensures Outcome(old(rest), max, result, rest)
      ensures errors == old(errors) + if result.Failed? then 1 else 0
    {
      var output: seq<Byte> := [];
      var truncated, observed := false, false;
      ghost var stream := rest;
      ghost var read: nat := 0;
      while true
        invariant InLine(stream, read, rest, output, truncated, max)
        invariant observed <==> read > 0
        invariant errors == old(errors)
        decreases |rest|
      {
        var filled := FillBuf();
        if filled.None? {
          return Failed;
        }
        var buffer := filled.value;
        if buffer == [] {
          LineEnds(stream, read, rest, output, truncated, max);
          return if observed then Read(output, truncated) else End;
        }
        observed := true;
        var end, kept, found := ScanBuffer(buffer, SaturatingSub(max, |output|));
        TakeChunk(stream, read, rest, output, truncated, max, buffer, end);
        output, truncated := output + kept, truncated || |kept| < end;
        Consume(end);
        read := read + end;
        if found {
          return Read(output, truncated);
        }
      }
    }
  }

  /** `read` bytes of the stream's first line have been consumed, without its newline. */
  ghost predicate InLine(stream: seq<Byte>, read: nat, rest: seq<Byte>, output: seq<Byte>, truncated: bool, max: nat) {
    && read <= LineLength(stream) && rest == stream[read..] && NEWLINE !in stream[..read]
    && output == stream[..Min(read, max)] && (truncated <==> read > max)
  }

  /** Consuming a chunk up to its end or past its first newline. */
  lemma TakeChunk(stream: seq<Byte>, read: nat, rest: seq<Byte>, output: seq<Byte>, truncated: bool, max: nat,
                  buffer: seq<Byte>, end: nat)
    requires InLine(stream, read, rest, output, truncated, max) && buffer <= rest && 0 < end <= |buffer|
    requires NEWLINE !in buffer[..end - 1] && (buffer[end - 1] != NEWLINE ==> NEWLINE !in buffer)
    ensures var copied := Min(end, SaturatingSub(max, |output|));
            var output', truncated' := output + buffer[..copied], truncated || copied < end;
            if buffer[end - 1] == NEWLINE
            then CappedLine(stream, max) == Read(output', truncated') && rest[end..] == stream[LineLength(stream)..]
            else InLine(stream, read + end, rest[end..], output', truncated', max)
  {
    LineAdvances(stream, read, buffer, end);
    OutputAdvances(stream, read, buffer, end, max);
    var copied := Min(end, SaturatingSub(max, |output|));
    assert |output| == Min(read, max);
    if buffer[end - 1] == NEWLINE {
      LineTaken(stream, output + buffer[..copied], truncated || copied < end, max);
    }
  }

  lemma LineEnds(stream: seq<Byte>, read: nat, rest: seq<Byte>, output: seq<Byte>, truncated: bool, max: nat)
    requires InLine(stream, read, rest, output, truncated, max) && rest == []
    ensures read == LineLength(stream) == |stream|
    ensures CappedLine(stream, max) == if read > 0 then Read(output, truncated) else End
  {
    assert stream[..read] == stream;
  }

  lemma LineTaken(stream: seq<Byte>, output: seq<Byte>, truncated: bool, max: nat)
    requires stream != [] && output == stream[..Min(LineLength(stream), max)]
             && (truncated <==> LineLength(stream) > max)
    ensures CappedLine(stream, max) == Read(output, truncated)
  {
    var line := stream[..LineLength(stream)];
    assert line[..Min(|line|, max)] == output;
  }

  lemma OutputAdvances(stream: seq<Byte>, read: nat, buffer: seq<Byte>, end: nat, max: nat)
    requires read <= |stream| && buffer <= stream[read..] && end <= |buffer|
    ensures var output, available := stream[..Min(read, max)], SaturatingSub(max, Min(read, max));
            && output + buffer[..Min(end, available)] == stream[..Min(read + end, max)]
            && (read > max || Min(end, available) < end <==> read + end > max)
  {
    assert forall i | 0 <= i < |buffer| :: buffer[i] == stream[read + i];
  }

  /** The scan of one chunk (src/core/supervisor.rs:992-1002): how far to consume a chunk, what to keep of
      it, and whether the line ends there. */
  method ScanBuffer(buffer: seq<Byte>, available: nat) returns (end: nat, kept: seq<Byte>, found: bool)
    requires buffer != []
    ensures 0 < end <= |buffer| && NEWLINE !in buffer[..end - 1]
    ensures kept == buffer[..Min(end, available)]
    ensures found <==> buffer[end - 1] == NEWLINE
    ensures !found ==> NEWLINE !in buffer
  {
    var position := Position(buffer);
    end := if position.Some? then position.value + 1 else |buffer|;
    var copied := Min(end, available);
    kept := buffer[..copied];
    found := buffer[end - 1] == NEWLINE;
  }

  /** `position(|byte| *byte == b'\n')`. */
  method Position(buffer: seq<Byte>) returns (index: Option<nat>)
    ensures index.Some? ==>
              index.value < |buffer| && buffer[index.value] == NEWLINE && NEWLINE !in buffer[..index.value]
    ensures index.None? ==> NEWLINE !in buffer
  {
    for i := 0 to |buffer|
      invariant NEWLINE !in buffer[..i]
    {
      if buffer[i] == NEWLINE {
        return Some(i);
      }
    }
    index := None;
  }

  /** Reading on to the end of a chunk, or past its first newline, stays within the line. */
  lemma LineAdvances(stream: seq<Byte>, read: nat, buffer: seq<Byte>, end: nat)
    requires read <= LineLength(stream) && buffer <= stream[read..] && 0 < end <= |buffer|
    requires NEWLINE !in stream[..read] && NEWLINE !in buffer[..end - 1]
    requires buffer[end - 1] != NEWLINE ==> NEWLINE !in buffer
    ensures read + end <= LineLength(stream)
    ensures buffer[end - 1] == NEWLINE ==> read + end == LineLength(stream)
    ensures buffer[end - 1] != NEWLINE ==> NEWLINE !in stream[..read + end]
    ensures stream[read..][end..] == stream[read + end..]
  {
    assert forall i | 0 <= i < |buffer| :: buffer[i] == stream[read + i];
    assert stream[..read + end] == stream[..read] + buffer[..end];
    assert stream[..read + end - 1] == stream[..read] + buffer[..end - 1];
    FirstNewline(stream, read + end);
  }

  /** The first line reaches at least as far as the bytes before which there is no newline. */
  lemma {:induction false} FirstNewline(stream: seq<Byte>, n: nat)
    requires 0 < n <= |stream| && NEWLINE !in stream[..n - 1]
    ensures n <= LineLength(stream)
    ensures stream[n - 1] == NEWLINE ==> n == LineLength(stream)
  {
    if n > 1 {
      assert stream[0] in stream[..n - 1];
      assert stream[1..][..n - 2] == stream[..n - 1][1..];
      FirstNewline(stream[1..], n - 1);
    }
  }

  // ---------- reading a whole stream ----------

  /** The lines of a stream, newlines included. */
  function RawLines(stream: seq<Byte>): seq<seq<Byte>>
    decreases |stream|
  {
    if stream == [] then []
    else [stream[..LineLength(stream)]] + RawLines(stream[LineLength(stream)..])
  }

  function Concat(lines: seq<seq<Byte>>): seq<Byte> {
    if lines == [] then [] else lines[0] + Concat(lines[1..])
  }

  ghost predicate IsRawLine(line: seq<Byte>, last: bool) {
    line != [] && NEWLINE !in line[..|line| - 1] && (!last ==> Last(line) == NEWLINE)
  }

  /** The lines partition the stream: joined they give it back, each but perhaps the last ends with
      its only newline, and none is empty. */
  lemma {:induction false} RawLinesPartition(stream: seq<Byte>)
    ensures Concat(RawLines(stream)) == stream
    ensures forall i | 0 <= i < |RawLines(stream)| :: IsRawLine(RawLines(stream)[i], i == |RawLines(stream)| - 1)
    decreases |stream|
  {
    if stream != [] {
      var n := LineLength(stream);
      var line, rest := stream[..n], stream[n..];
      RawLinesPartition(rest);
      assert line + rest == stream;
      assert RawLines(stream)[1..] == RawLines(rest);
      FirstLineIsRaw(stream);
    }
  }

  lemma FirstLineIsRaw(stream: seq<Byte>)
    requires stream != []
    ensures var line := stream[..LineLength(stream)];
            IsRawLine(line, stream[LineLength(stream)..] == [])
  {
    LineLengthEffect(stream);
    var n := LineLength(stream);
    var line := stream[..n];
    if NEWLINE in line {
      assert line[..n - 1] == stream[..n - 1];
    } else {
      assert forall i | 0 <= i < n - 1 :: line[i] in line;
    }
  }

  // ---------- the reader thread ----------

  const CARRIAGE_RETURN: Byte := 13

  /** `" …[output line truncated]"` */
  const TRUNCATED: seq<Byte> := [0x20] + ELLIPSIS + Ascii("[output line truncated]")

  predicate EndsLine(b: Byte) {
    b == NEWLINE || b == CARRIAGE_RETURN
  }

  /** `trim_end_matches(['\r', '\n'])`. */
  function TrimEnd(text: seq<Byte>): seq<Byte> {
    if text != [] && EndsLine(Last(text)) then TrimEnd(text[..|text| - 1]) else text
  }

  /** What is cut off is line ends only, and all of them. */
  lemma {:induction false} TrimEndExactly(text: seq<Byte>)
    ensures TrimEnd(text) <= text && forall i | |TrimEnd(text)| <= i < |text| :: EndsLine(text[i])
    ensures TrimEnd(text) != [] ==> !EndsLine(Last(TrimEnd(text)))
  {
    if text != [] && EndsLine(Last(text)) {
      TrimEndExactly(text[..|text| - 1]);
    }
  }

  /** The text logged for one line of output; `decode` replaces what is not well-formed. */
  function OutputText(line: seq<Byte>, max: nat, decode: seq<Byte> -> seq<Byte>): seq<Byte> {
    TrimEnd(decode(line[..Min(|line|, max)])) + if |line| > max then TRUNCATED else []
  }

  /** A line within the limit that needs no decoding is logged whole, without its line end, so that it is
      one line of the log. */
  lemma ShortLineIsLoggedWhole(line: seq<Byte>, max: nat, decode: seq<Byte> -> seq<Byte>, last: bool)
    requires IsRawLine(line, last) && |line| <= max && decode(line) == line
    ensures OutputText(line, max, decode) <= line && NEWLINE !in OutputText(line, max, decode)
    ensures forall i | |OutputText(line, max, decode)| <= i < |line| :: EndsLine(line[i])
  {
    assert line[..Min(|line|, max)] == line;
    TrimEndExactly(line);
    var text := TrimEnd(line);
    assert OutputText(line, max, decode) == text;
    forall i | 0 <= i < |text|
      ensures text[i] != NEWLINE
    {
      if i < |line| - 1 {
        assert text[i] == line[..|line| - 1][i];
      }
    }
  }

  /** A line beyond the limit is logged as its decoded beginning, without line ends, and
      `" …[output line truncated]"`. */
  lemma LongLineIsMarked(line: seq<Byte>, max: nat, decode: seq<Byte> -> seq<Byte>)
    requires |line| > max
    ensures var text, kept, mark := OutputText(line, max, decode), decode(line[..max]),
                                    [0x20, 0xE2, 0x80, 0xA6] + Ascii("[output line truncated]");
            && |text| >= |mark| && var n := |text| - |mark|;
            && text[n..] == mark && text[..n] <= kept
            && (forall i | n <= i < |kept| :: EndsLine(kept[i])) && (n > 0 ==> !EndsLine(text[n - 1]))
  {
    var kept := decode(line[..max]);
    assert line[..Min(|line|, max)] == line[..max];
    TrimEndExactly(kept);
    assert TRUNCATED == [0x20, 0xE2, 0x80, 0xA6] + Ascii("[output line truncated]");
    assert OutputText(line, max, decode) == TrimEnd(kept) + TRUNCATED;
  }

  /** `spawn_reader`: until the end of its input or an error of the system, every line of it is logged once and in
      order, however the input was chunked. */
  method CopyOutput(reader: Reader, max: nat, decode: seq<Byte> -> seq<Byte>)
    returns (texts: seq<seq<Byte>>, failed: bool)
    modifies reader
    ensures |texts| <= |RawLines(old(reader.rest))|
    ensures forall i | 0 <= i < |texts| :: texts[i] == OutputText(RawLines(old(reader.rest))[i], max, decode)
    ensures !failed ==> |texts| == |RawLines(old(reader.rest))|
    ensures failed <==> reader.errors > old(reader.errors)
  {
    texts, failed := [], false;
    ghost var lines := RawLines(reader.rest);
    while true
      invariant |texts| <= |lines| && lines[|texts|..] == RawLines(reader.rest)
      invariant forall i | 0 <= i < |texts| :: texts[i] == OutputText(lines[i], max, decode)
      invariant reader.errors == old(reader.errors)
      decreases |reader.rest|
    {
      ghost var stream := reader.rest;
      var result := reader.ReadCappedLine(max);
      match result
      case Failed => failed := true; return;
      case End => return;
      case Read(bytes, truncated) =>
        assert lines[|texts|] == stream[..LineLength(stream)];
        assert lines[|texts| + 1..] == lines[|texts|..][1..] == RawLines(reader.rest);
        var text := TrimEnd(decode(bytes));
        texts := texts + [if truncated then text + TRUNCATED else text];
        assert text + [] == text;
    }
  }
}
