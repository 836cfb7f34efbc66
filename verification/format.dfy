/**
 * The text of one log line:
 *   "<time> <LEVEL> [<function>.<line> goid-<id>] <text>\n"
 * The timestamp, the frame and the goroutine id are inputs; `GetLog` builds
 * the line of one sink from the clock reading and the goroutine stack dump.
 */
module Format {
  import opened Wrappers
  import opened Decimal
  import opened Frames
  import opened Goid

  function LogLine(time: string, level: string, frame: Frame, id: int, text: string): string
  {
    time + Tail(level, frame, id, text)
  }

  /** The part of a line after the timestamp; it does not depend on the clock. */
  function Tail(level: string, frame: Frame, id: int, text: string): string
  {
    " " + level + Bracketed(frame, id, text)
  }

  /** From the opening bracket to the end of the line. */
  function Bracketed(frame: Frame, id: int, text: string): string
  {
    " [" + Site(frame, id) + "] " + text + "\n"
  }

  /** The bracketed call site and goroutine id, without the brackets. */
  function Site(frame: Frame, id: int): string
  {
    frame.funcName + "." + IntToString(frame.line) + " goid-" + IntToString(id)
  }

  /** Where the three parts of `a + b + c` sit. */
  lemma Parts(a: string, b: string, c: string)
    ensures (a + b + c)[..|a|] == a
    ensures (a + b + c)[|a|..|a| + |b|] == b
    ensures (a + b + c)[|a| + |b|..] == c
  {
  }

  /** A line opens with the timestamp, a space, the level name verbatim and " [". */
  lemma LogLineHead(time: string, level: string, frame: Frame, id: int, text: string)
    ensures var line := LogLine(time, level, frame, id, text);
      && line[..|time|] == time
      && line[|time|] == ' '
      && line[|time| + 1..|time| + 1 + |level|] == level
      && line[|time| + 1 + |level|..|time| + 3 + |level|] == " ["
  {
    var line := LogLine(time, level, frame, id, text);
    var front := time + " ";
    var rest := Bracketed(frame, id, text);
    assert line == front + level + rest;
    Parts(front, level, rest);
    assert line[|time|] == front[|time|];
    assert line[|front| + |level|..|front| + |level| + 2] == rest[..2];
  }

  /** A line closes with "] ", the message verbatim and a newline. */
  lemma LogLineEnd(time: string, level: string, frame: Frame, id: int, text: string)
    ensures var line := LogLine(time, level, frame, id, text);
      |line| >= |text| + 3 && line[|line| - |text| - 3..] == "] " + text + "\n"
  {
    var line := LogLine(time, level, frame, id, text);
    var front := time + " " + level + " [" + Site(frame, id);
    var end := "] " + text + "\n";
    assert line == front + end;
    assert line[|front|..] == end;
  }

  /**
   * Every line ends in a newline, and in exactly one unless the message itself
   * ends in a newline.
   */
  lemma LogLineEndsInNewline(time: string, level: string, frame: Frame, id: int, text: string)
    ensures var line := LogLine(time, level, frame, id, text);
      && |line| >= 2
      && line[|line| - 1] == '\n'
      && (line[|line| - 2] == '\n' <==> text != [] && text[|text| - 1] == '\n')
  {
    LogLineEnd(time, level, frame, id, text);
    var line := LogLine(time, level, frame, id, text);
    var end := "] " + text + "\n";
    assert line[|line| - |text| - 3..] == end;
    assert line[|line| - 1] == end[|end| - 1];
    assert line[|line| - 2] == end[|end| - 2];
    if text != [] {
      assert end[|end| - 2] == text[|text| - 1];
    }
  }

  /**
   * Two lines built from the same level, frame, id and message are identical
   * exactly when their timestamps are.
   */
  lemma LogLineSameIffSameTime(t1: string, t2: string, level: string, frame: Frame, id: int, text: string)
    ensures LogLine(t1, level, frame, id, text) == LogLine(t2, level, frame, id, text) <==> t1 == t2
  {
    var tail := Tail(level, frame, id, text);
    if t1 + tail == t2 + tail {
      assert |t1| == |t2|;
      assert t1 == (t1 + tail)[..|t1|];
    }
  }

  /**
   * `time.Now().Format(layout)` as read while writing to the sink at the given
   * index of one `write` call: every sink's line reads the clock afresh.
   */
  type Clock = (string, nat) -> string

  /** `getLog` for the sink at index `reading`: the line, or the fault of the id lookup. */
  function GetLog(layout: string, clock: Clock, reading: nat, level: string, text: string,
                  frame: Frame, dump: string): (r: Result<string, GoidFault>)
    ensures r.Success? <==> ParseGoid(dump).Success?
  {
    match ParseGoid(dump)
    case Failure(e) => Failure(e)
    case Success(id) => Success(LogLine(clock(layout, reading), level, frame, id, text))
  }

  /**
   * On a dump whose header reads "goroutine N" followed by white space (or by
   * nothing), `getLog` yields the line carrying N and this sink's own clock
   * reading, for every N that fits in 64 bits.
   */
  lemma GetLogOfHeader(layout: string, clock: Clock, reading: nat, level: string, text: string,
                       frame: Frame, id: int, rest: string)
    requires MinInt64 <= id <= MaxInt64
    requires rest == [] || IsSpace(rest[0])
    ensures GetLog(layout, clock, reading, level, text, frame, Prefix + IntToString(id) + rest)
            == Success(LogLine(clock(layout, reading), level, frame, id, text))
  {
    GoidOfHeader(id, rest);
  }

  /** A dump whose first field Atoi refuses makes `getLog` fail with that field, whatever the clock reads. */
  lemma GetLogOfNonInteger(layout: string, clock: Clock, reading: nat, level: string, text: string,
                           frame: Frame, field: string, rest: string)
    requires field != [] && NoSpaces(field) && Atoi(field) == None
    requires rest == [] || IsSpace(rest[0])
    ensures GetLog(layout, clock, reading, level, text, frame, Prefix + field + rest) == Failure(NotInteger(field))
  {
    GoidRejectsNonInteger(field, rest);
  }

  /** A dump with nothing but white space after the prefix makes `getLog` fail for want of a field. */
  lemma GetLogOfBlank(layout: string, clock: Clock, reading: nat, level: string, text: string,
                      frame: Frame, blank: string)
    requires forall i :: 0 <= i < |blank| ==> IsSpace(blank[i])
    ensures GetLog(layout, clock, reading, level, text, frame, Prefix + blank) == Failure(NoField)
  {
    GoidRejectsBlank(blank);
  }
}
