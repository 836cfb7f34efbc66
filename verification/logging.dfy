/**
 * The Logger: its configuration (threshold, timestamp layout, write-once sink
 * list), the threshold gate of `write`, and the fan-out of one formatted line
 * to every configured sink in order.
 *
 * The outside world enters as parameters: a Clock gives the formatted
 * timestamp each sink's write reads, a dump string stands for the goroutine
 * stack dump, and a frame sequence stands for the call stack.
 */
module Logging {
  import opened Wrappers
  import opened Levels
  import opened Frames
  import opened Goid
  import opened Format

  /** The layout a new Logger formats timestamps with: day.month.year hour:minute:second.millis. */
  const DefaultTimeFormat: string := "02.01.2006 15:04:05.000"

  /** A sink: the lines it has accepted so far, and whether a write to it fails. */
  datatype Sink = Sink(lines: seq<string>, failing: bool)
  {
    function Append(line: string): Sink
    {
      this.(lines := lines + [line])
    }
  }

  /** The two panics a write can end in. */
  datatype Fault =
    | SinkFault(index: nat)      // the sink at this index refused the line
    | IdFault(reason: GoidFault) // the goroutine id could not be read

  /** How a call into the logger ends. */
  datatype Outcome = Returned | Panicked(fault: Fault) | Exited(code: int)

  /** The sinks after a write, and how the write ended. */
  datatype Effect = Effect(sinks: seq<Sink>, outcome: Outcome)

  /** The index of the first failing sink, or the number of sinks when none fails. */
  function FirstFailing(sinks: seq<Sink>): (k: nat)
    ensures k <= |sinks|
    ensures forall j :: 0 <= j < k ==> !sinks[j].failing
    ensures k < |sinks| ==> sinks[k].failing
  {
    if sinks == [] || sinks[0].failing then 0 else 1 + FirstFailing(sinks[1..])
  }

  /**
   * The sinks after the first `k` of them have each received their own line,
   * in order; the rest are untouched.
   */
  function Deliver(sinks: seq<Sink>, k: nat, layout: string, clock: Clock, level: string, frame: Frame,
                   id: int, text: string): (r: seq<Sink>)
    requires k <= |sinks|
    ensures |r| == |sinks|
    ensures forall j :: 0 <= j < k ==> r[j] == sinks[j].Append(LogLine(clock(layout, j), level, frame, id, text))
    ensures forall j :: k <= j < |sinks| ==> r[j] == sinks[j]
  {
    if k == 0 then sinks
    else
      var done := Deliver(sinks, k - 1, layout, clock, level, frame, id, text);
      done[k - 1 := sinks[k - 1].Append(LogLine(clock(layout, k - 1), level, frame, id, text))]
  }

  /**
   * The loop of `write` past the threshold gate: each sink in turn receives
   * its own line, until a sink fails (a panic at that index) or the id cannot
   * be read (a panic before the first sink is written).
   */
  function FanOut(sinks: seq<Sink>, level: string, text: string, frame: Frame,
                  layout: string, clock: Clock, dump: string): Effect
  {
    if sinks == [] then Effect(sinks, Returned)
    else
      match ParseGoid(dump)
      case Failure(e) => Effect(sinks, Panicked(IdFault(e)))
      case Success(id) =>
        var k := FirstFailing(sinks);
        Effect(Deliver(sinks, k, layout, clock, level, frame, id, text),
               if k < |sinks| then Panicked(SinkFault(k)) else Returned)
  }

  /**
   * What `write` does to the sinks: nothing when the threshold exceeds the
   * level's ordinal, and otherwise the fan-out of one line per sink.
   */
  function WriteEffect(sinks: seq<Sink>, threshold: int, level: string, text: string, frame: Frame,
                       layout: string, clock: Clock, dump: string): Effect
  {
    if threshold > Lookup(level) then Effect(sinks, Returned)
    else FanOut(sinks, level, text, frame, layout, clock, dump)
  }

  /** The frame `getFrame(1)` picks from inside an emission method: that method's caller. */
  function CallSite(stack: seq<Frame>): Frame
  {
    if 3 < |stack| then stack[3] else UnknownFrame
  }

  /** Below the threshold nothing is formatted and nothing is written. */
  lemma WriteSuppressed(sinks: seq<Sink>, threshold: int, level: string, text: string, frame: Frame,
                        layout: string, clock: Clock, dump: string)
    requires threshold > Lookup(level)
    ensures WriteEffect(sinks, threshold, level, text, frame, layout, clock, dump) == Effect(sinks, Returned)
  {
  }

  /**
   * With a working first sink and a readable id, a write leaves the sinks as
   * they were exactly when the threshold exceeds the level's ordinal.
   */
  lemma WriteChangesSinksIff(sinks: seq<Sink>, threshold: int, level: string, text: string, frame: Frame,
                             layout: string, clock: Clock, dump: string)
    requires sinks != [] && !sinks[0].failing && ParseGoid(dump).Success?
    ensures WriteEffect(sinks, threshold, level, text, frame, layout, clock, dump).sinks == sinks
            <==> threshold > Lookup(level)
  {
    var r := WriteEffect(sinks, threshold, level, text, frame, layout, clock, dump);
    if !(threshold > Lookup(level)) {
      var id := ParseGoid(dump).value;
      var line := LogLine(clock(layout, 0), level, frame, id, text);
      assert FirstFailing(sinks) > 0;
      assert r.sinks[0] == sinks[0].Append(line);
      assert |r.sinks[0].lines| == |sinks[0].lines| + 1;
    }
  }

  /** For a level, the gate passes exactly when its ordinal reaches the threshold. */
  lemma LevelPassesGateIff(threshold: int, l: Level)
    ensures !(threshold > Lookup(Name(l))) <==> Ordinal(l) >= threshold
    ensures threshold > Ordinal(Fatal) ==> threshold > Lookup(Name(l))
    ensures threshold <= Ordinal(Trace) ==> !(threshold > Lookup(Name(l)))
  {
    NameTableMatchesLevels();
  }

  /**
   * With no failing sink and a readable id, a write that passes the gate
   * appends exactly one line to every sink, the line carrying that sink's own
   * clock reading, and returns normally.
   */
  lemma WriteDeliversToEverySink(sinks: seq<Sink>, threshold: int, level: string, text: string, frame: Frame,
                                 layout: string, clock: Clock, dump: string, id: int)
    requires !(threshold > Lookup(level))
    requires forall j :: 0 <= j < |sinks| ==> !sinks[j].failing
    requires ParseGoid(dump) == Success(id)
    ensures var r := WriteEffect(sinks, threshold, level, text, frame, layout, clock, dump);
      && r.outcome == Returned
      && |r.sinks| == |sinks|
      && forall j :: 0 <= j < |sinks| ==>
           r.sinks[j].lines == sinks[j].lines + [LogLine(clock(layout, j), level, frame, id, text)]
           && r.sinks[j].failing == sinks[j].failing
  {
    if sinks != [] {
      var k := FirstFailing(sinks);
      assert k == |sinks|;
    }
  }

  /**
   * When sink `i` is the first failing one, the sinks before it have each
   * received their line, it and the sinks after it have received nothing,
   * and the write ends in a panic at `i`.
   */
  lemma WriteStopsAtFailingSink(sinks: seq<Sink>, threshold: int, level: string, text: string, frame: Frame,
                                layout: string, clock: Clock, dump: string, id: int, i: nat)
    requires !(threshold > Lookup(level))
    requires i < |sinks| && sinks[i].failing
    requires forall j :: 0 <= j < i ==> !sinks[j].failing
    requires ParseGoid(dump) == Success(id)
    ensures var r := WriteEffect(sinks, threshold, level, text, frame, layout, clock, dump);
      && r.outcome == Panicked(SinkFault(i))
      && |r.sinks| == |sinks|
      && (forall j :: 0 <= j < i ==> r.sinks[j] == sinks[j].Append(LogLine(clock(layout, j), level, frame, id, text)))
      && r.sinks[i..] == sinks[i..]
  {
    assert FirstFailing(sinks) == i;
    var r := WriteEffect(sinks, threshold, level, text, frame, layout, clock, dump);
    var d := Deliver(sinks, i, layout, clock, level, frame, id, text);
    assert r == Effect(d, Panicked(SinkFault(i)));
    assert d[i..] == sinks[i..];
  }

  /** An unreadable id panics before the first sink is written, if there is one. */
  lemma WriteIdFault(sinks: seq<Sink>, threshold: int, level: string, text: string, frame: Frame,
                     layout: string, clock: Clock, dump: string)
    requires !(threshold > Lookup(level))
    requires ParseGoid(dump).Failure?
    ensures WriteEffect(sinks, threshold, level, text, frame, layout, clock, dump)
            == Effect(sinks, if sinks == [] then Returned else Panicked(IdFault(ParseGoid(dump).error)))
  {
  }

  /**
   * Whatever happens, a write keeps the number of sinks and their failure
   * flags, keeps every line already written, adds at most one line per sink,
   * and never exits.
   */
  lemma WriteKeepsHistory(sinks: seq<Sink>, threshold: int, level: string, text: string, frame: Frame,
                          layout: string, clock: Clock, dump: string)
    ensures var r := WriteEffect(sinks, threshold, level, text, frame, layout, clock, dump);
      && !r.outcome.Exited?
      && |r.sinks| == |sinks|
      && forall j :: 0 <= j < |sinks| ==>
           && r.sinks[j].failing == sinks[j].failing
           && sinks[j].lines <= r.sinks[j].lines
           && |r.sinks[j].lines| <= |sinks[j].lines| + 1
  {
    var r := WriteEffect(sinks, threshold, level, text, frame, layout, clock, dump);
    if !(threshold > Lookup(level)) && sinks != [] && ParseGoid(dump).Success? {
      var id := ParseGoid(dump).value;
      var k := FirstFailing(sinks);
      forall j | 0 <= j < |sinks|
        ensures r.sinks[j].failing == sinks[j].failing
        ensures sinks[j].lines <= r.sinks[j].lines && |r.sinks[j].lines| <= |sinks[j].lines| + 1
      {
        if j < k {
          assert r.sinks[j] == sinks[j].Append(LogLine(clock(layout, j), level, frame, id, text));
        }
      }
    }
  }

  /**
   * Two sinks served by the same write receive the same line exactly when
   * their clock readings agree.
   */
  lemma CopiesAgreeIffClockAgrees(sinks: seq<Sink>, threshold: int, level: string, text: string, frame: Frame,
                                  layout: string, clock: Clock, dump: string, id: int, i: nat, j: nat)
    requires !(threshold > Lookup(level))
    requires forall k :: 0 <= k < |sinks| ==> !sinks[k].failing
    requires ParseGoid(dump) == Success(id)
    requires i < |sinks| && j < |sinks|
    ensures var r := WriteEffect(sinks, threshold, level, text, frame, layout, clock, dump);
      var lineI := LogLine(clock(layout, i), level, frame, id, text);
      var lineJ := LogLine(clock(layout, j), level, frame, id, text);
      && r.sinks[i].lines == sinks[i].lines + [lineI]
      && r.sinks[j].lines == sinks[j].lines + [lineJ]
      && (lineI == lineJ <==> clock(layout, i) == clock(layout, j))
  {
    WriteDeliversToEverySink(sinks, threshold, level, text, frame, layout, clock, dump, id);
    LogLineSameIffSameTime(clock(layout, i), clock(layout, j), level, frame, id, text);
  }

  /**
   * A Logger. `configured` records whether the one-time guard around the sink
   * list has fired; until it has, the sink list is empty.
   */
  class Logger {
    var outputs: seq<Sink>
    var logLevel: int
    var timeFormat: string
    var configured: bool

    ghost predicate Valid()
      reads this
    {
      !configured ==> outputs == []
    }

    /** `NewLogger`: threshold Trace, the default layout, no sinks, not yet configured. */
    constructor ()
      ensures Valid()
      ensures outputs == [] && !configured
      ensures logLevel == Ordinal(Level.Trace) && timeFormat == DefaultTimeFormat
    {
      outputs := [];
      configured := false;
      logLevel := 0;
      timeFormat := "";
      new;
      SetLevel(Ordinal(Level.Trace));
      SetTimeFormat(DefaultTimeFormat);
    }

    /** Replaces the layout, unvalidated; nothing else changes. */
    method SetTimeFormat(format: string)
      requires Valid()
      modifies this
      ensures Valid()
      ensures timeFormat == format
      ensures logLevel == old(logLevel) && outputs == old(outputs) && configured == old(configured)
    {
      timeFormat := format;
    }

    /** Replaces the threshold with any integer, unvalidated; nothing else changes. */
    method SetLevel(level: int)
      requires Valid()
      modifies this
      ensures Valid()
      ensures logLevel == level
      ensures timeFormat == old(timeFormat) && outputs == old(outputs) && configured == old(configured)
    {
      logLevel := level;
    }

    /**
     * Installs the sink list on the first call only; every later call leaves
     * the sinks as they are, whatever it is given.
     */
    method SetOutput(sinks: seq<Sink>)
      requires Valid()
      modifies this
      ensures Valid()
      ensures configured
      ensures outputs == if old(configured) then old(outputs) else sinks
      ensures logLevel == old(logLevel) && timeFormat == old(timeFormat)
    {
      if !configured {
        configured := true;
        outputs := sinks;
      }
    }

    /**
     * `write`: gate on the threshold, then hand the line to every sink.
     */
    method Write(level: string, text: string, frame: Frame, clock: Clock, dump: string)
      returns (outcome: Outcome)
      requires Valid()
      modifies this
      ensures Valid()
      ensures logLevel == old(logLevel) && timeFormat == old(timeFormat) && configured == old(configured)
      ensures Effect(outputs, outcome)
              == WriteEffect(old(outputs), logLevel, level, text, frame, timeFormat, clock, dump)
      ensures !configured ==> outcome == Returned && outputs == []
    {
      if logLevel > Lookup(level) {
        return Returned;
      }
      outcome := WriteToSinks(level, text, frame, clock, dump);
    }

    /**
     * The loop of `write`: walk the sinks in order, formatting one line per
     * sink and writing it, and panic at the first failure.
     */
    method WriteToSinks(level: string, text: string, frame: Frame, clock: Clock, dump: string)
      returns (outcome: Outcome)
      requires Valid()
      modifies this
      ensures Valid()
      ensures logLevel == old(logLevel) && timeFormat == old(timeFormat) && configured == old(configured)
      ensures Effect(outputs, outcome) == FanOut(old(outputs), level, text, frame, timeFormat, clock, dump)
    {
      ghost var before := outputs;
      ghost var id := if ParseGoid(dump).Success? then ParseGoid(dump).value else 0;
      var i := 0;
      while i < |outputs|
        invariant 0 <= i <= |before| && i <= FirstFailing(before)
        invariant i > 0 ==> ParseGoid(dump) == Success(id)
        invariant outputs == Deliver(before, i, timeFormat, clock, level, frame, id, text)
        invariant !configured ==> outputs == []
        invariant logLevel == old(logLevel) && timeFormat == old(timeFormat) && configured == old(configured)
      {
        assert outputs[i] == before[i];
        var log := GetLog(timeFormat, clock, i, level, text, frame, dump);
        if log.Failure? {
          assert i == 0 && outputs == before;
          return Panicked(IdFault(log.error));
        }
        if outputs[i].failing {
          assert FirstFailing(before) == i;
          return Panicked(SinkFault(i));
        }
        assert FirstFailing(before) != i;
        outputs := outputs[i := outputs[i].Append(log.value)];
        i := i + 1;
      }
      if before != [] {
        assert ParseGoid(dump) == Success(id) && FirstFailing(before) == |before|;
      }
      return Returned;
    }

    method Trace(text: string, stack: seq<Frame>, clock: Clock, dump: string) returns (outcome: Outcome)
      requires Valid()
      modifies this
      ensures Valid()
      ensures logLevel == old(logLevel) && timeFormat == old(timeFormat) && configured == old(configured)
      ensures Effect(outputs, outcome)
              == WriteEffect(old(outputs), logLevel, Name(Level.Trace), text, CallSite(stack), timeFormat, clock, dump)
    {
      var frame := GetFrame(stack, 1);
      outcome := Write(Name(Level.Trace), text, frame, clock, dump);
    }

    method Debug(text: string, stack: seq<Frame>, clock: Clock, dump: string) returns (outcome: Outcome)
      requires Valid()
      modifies this
      ensures Valid()
      ensures logLevel == old(logLevel) && timeFormat == old(timeFormat) && configured == old(configured)
      ensures Effect(outputs, outcome)
              == WriteEffect(old(outputs), logLevel, Name(Level.Debug), text, CallSite(stack), timeFormat, clock, dump)
    {
      var frame := GetFrame(stack, 1);
      outcome := Write(Name(Level.Debug), text, frame, clock, dump);
    }

    method Info(text: string, stack: seq<Frame>, clock: Clock, dump: string) returns (outcome: Outcome)
      requires Valid()
      modifies this
      ensures Valid()
      ensures logLevel == old(logLevel) && timeFormat == old(timeFormat) && configured == old(configured)
      ensures Effect(outputs, outcome)
              == WriteEffect(old(outputs), logLevel, Name(Level.Info), text, CallSite(stack), timeFormat, clock, dump)
    {
      var frame := GetFrame(stack, 1);
      outcome := Write(Name(Level.Info), text, frame, clock, dump);
    }

    method Warn(text: string, stack: seq<Frame>, clock: Clock, dump: string) returns (outcome: Outcome)
      requires Valid()
      modifies this
      ensures Valid()
      ensures logLevel == old(logLevel) && timeFormat == old(timeFormat) && configured == old(configured)
      ensures Effect(outputs, outcome)
              == WriteEffect(old(outputs), logLevel, Name(Level.Warn), text, CallSite(stack), timeFormat, clock, dump)
    {
      var frame := GetFrame(stack, 1);
      outcome := Write(Name(Level.Warn), text, frame, clock, dump);
    }

    method Error(text: string, stack: seq<Frame>, clock: Clock, dump: string) returns (outcome: Outcome)
      requires Valid()
      modifies this
      ensures Valid()
      ensures logLevel == old(logLevel) && timeFormat == old(timeFormat) && configured == old(configured)
      ensures Effect(outputs, outcome)
              == WriteEffect(old(outputs), logLevel, Name(Level.Error), text, CallSite(stack), timeFormat, clock, dump)
    {
      var frame := GetFrame(stack, 1);
      outcome := Write(Name(Level.Error), text, frame, clock, dump);
    }

    /**
     * Writes at level FATAL, then exits with status 1. A panic during the
     * write unwinds before the exit is reached.
     */
    method Fatal(text: string, stack: seq<Frame>, clock: Clock, dump: string) returns (outcome: Outcome)
      requires Valid()
      modifies this
      ensures Valid()
      ensures logLevel == old(logLevel) && timeFormat == old(timeFormat) && configured == old(configured)
      ensures var e := WriteEffect(old(outputs), logLevel, Name(Level.Fatal), text, CallSite(stack), timeFormat, clock, dump);
        outputs == e.sinks && outcome == if e.outcome.Panicked? then e.outcome else Exited(1)
    {
      var frame := GetFrame(stack, 1);
      var written := Write(Name(Level.Fatal), text, frame, clock, dump);
      outcome := if written.Panicked? then written else Exited(1);
    }
  }

  /**
   * Threshold Info: a write at INFO followed by a write at DEBUG leaves every
   * working sink holding exactly one new line, the INFO one, with that sink's
   * own clock reading; the DEBUG message reaches none of them.
   */
  lemma InfoThenDebugScenario(sinks: seq<Sink>, shown: string, hidden: string, frame: Frame, layout: string,
                              clockInfo: Clock, clockDebug: Clock, dump: string, id: int)
    requires forall j :: 0 <= j < |sinks| ==> !sinks[j].failing
    requires ParseGoid(dump) == Success(id)
    ensures var info := WriteEffect(sinks, Ordinal(Level.Info), Name(Level.Info), shown, frame, layout, clockInfo, dump);
      var debug := WriteEffect(info.sinks, Ordinal(Level.Info), Name(Level.Debug), hidden, frame, layout,
                               clockDebug, dump);
      && debug == Effect(info.sinks, Returned)
      && info.outcome == Returned
      && |info.sinks| == |sinks|
      && forall j :: 0 <= j < |sinks| ==>
           info.sinks[j].lines == sinks[j].lines + [LogLine(clockInfo(layout, j), Name(Level.Info), frame, id, shown)]
  {
    LevelPassesGateIff(Ordinal(Level.Info), Level.Info);
    LevelPassesGateIff(Ordinal(Level.Info), Level.Debug);
    WriteDeliversToEverySink(sinks, Ordinal(Level.Info), Name(Level.Info), shown, frame, layout, clockInfo, dump, id);
    var info := WriteEffect(sinks, Ordinal(Level.Info), Name(Level.Info), shown, frame, layout, clockInfo, dump);
    WriteSuppressed(info.sinks, Ordinal(Level.Info), Name(Level.Debug), hidden, frame, layout, clockDebug, dump);
  }

  /** Of two sink lists installed one after the other, only the first is kept. */
  method SetOutputOnceScenario(first: seq<Sink>, second: seq<Sink>) returns (outputs: seq<Sink>)
    ensures outputs == first
  {
    var logger := new Logger();
    logger.SetOutput(first);
    logger.SetOutput(second);
    outputs := logger.outputs;
  }

  /**
   * `Fatal("dying")` on a fresh logger with one working sink: the sink
   * receives the one FATAL line and the process exits with status 1.
   */
  method FatalScenario(stack: seq<Frame>, clock: Clock, id: int, rest: string) returns (sink: Sink, outcome: Outcome)
    requires Decimal.MinInt64 <= id <= Decimal.MaxInt64 && (rest == [] || IsSpace(rest[0]))
    ensures outcome == Exited(1)
    ensures sink.lines == [LogLine(clock(DefaultTimeFormat, 0), Name(Level.Fatal), CallSite(stack), id, "dying")]
  {
    var dump := Prefix + Decimal.IntToString(id) + rest;
    GoidOfHeader(id, rest);
    LevelPassesGateIff(Ordinal(Level.Trace), Level.Fatal);
    var logger := new Logger();
    logger.SetOutput([Sink([], false)]);
    var sinks := logger.outputs;
    outcome := logger.Fatal("dying", stack, clock, dump);
    WriteDeliversToEverySink(sinks, Ordinal(Level.Trace), Name(Level.Fatal), "dying", CallSite(stack),
                             DefaultTimeFormat, clock, dump, id);
    sink := logger.outputs[0];
  }
}
