# A verified model of the golog leveled logger

This project models the decision logic of `logger/logger.go`, a small leveled
logger for Go. A `Logger` holds a severity threshold, a timestamp layout and a
list of output sinks that can be set only once. Each of the six emission
methods (`Trace` … `Fatal`) resolves its caller's frame and calls `write`.
`write` drops the message when the threshold is above the level's ordinal.
Otherwise it formats one line per sink,

    <time> <LEVEL> [<function>.<line> goid-<id>] <text>\n

and writes the sinks in order, panicking at the first sink that fails.

The model is split by concern:

- `levels.dfy` (`Levels`): the six levels, their names and ordinals, and the
  name-to-ordinal table that `write` looks levels up in. A Go map read of an
  absent name gives 0.
- `decimal.dfy` (`Decimal`): `%d` rendering and `strconv.Atoi`, including
  Atoi's optional sign and its 64-bit range error.
- `frames.dfy` (`Frames`): `getFrame`, as a method whose loop steps through
  the captured frames. The call stack is an input.
- `goid.dfy` (`Goid`): the id parse inside `goid`. It trims the
  `"goroutine "` prefix, takes the first field (`strings.Fields` with Go's
  `unicode.IsSpace`) and runs Atoi on it. The stack-dump text is an input.
- `format.dfy` (`Format`): the line that `getLog` builds, and `getLog` itself.
- `logging.dfy` (`Logging`): these parts:
  - sinks, as values that hold their accepted lines and a "fails" flag;
  - `WriteEffect`, a pure specification of `write`, with lemmas about it;
  - the `Logger` class, whose fields the configuration methods update in
    place;
  - `Write` (the threshold gate) and `WriteToSinks` (the loop over the
    sinks), proved to agree with `WriteEffect` and `FanOut`;
  - the six emission methods.

The clock, the goroutine dump and the call stack are parameters. A `Clock`
maps (layout, sink index) to the formatted timestamp read while writing to
that sink, so every sink's line reads the clock again, as in the source.

Three behaviours of the code are worth stating:

- `Fatal` exits with status 1 only when its write returns. If a sink fails,
  the panic unwinds past the `os.Exit(1)` call. The model reports that as
  `Panicked`, not `Exited`.
- `getFrame` returns the `"unknown"` frame when the stack is empty. It also
  does so whenever the stack is not deep enough. That frame's line is 0.
- `SetLevel` accepts any integer. A threshold above 5 silences every level,
  and a threshold of 0 or less lets every level through.

## Model

| member | source | states |
|---|---|---|
| `Levels.Ordinal` | logger/logger.go:14-20 | defines the `iota` ordinals: Trace 0, Debug 1, Info 2, Warn 3, Error 4, Fatal 5 |
| `Levels.Name` | logger/logger.go:22-27 | defines the printed names "TRACE" … "FATAL" |
| `Levels.NameTable` | logger/logger.go:43-50 | defines the package map `m` from each name to its ordinal |
| `Levels.NameTableMatchesLevels` | logger/logger.go:42-51 | the table's keys are exactly the six level names, and looking up a level's name gives that level's ordinal |
| `Levels.OrdinalsIncrease` | logger/logger.go:14-20 | in declaration order the levels get ordinals 0..5, strictly increasing, and every level is listed |
| `Levels.LevelsDistinct` | logger/logger.go:14-27 | distinct levels have distinct names and distinct ordinals |
| `Levels.Lookup` | logger/logger.go:101 | the Go map read `m[logLevel]`: always an ordinal between Trace's 0 and Fatal's 5, the zero value for an absent name |
| `Levels.LookupOnlyKnowsLevelNames` | logger/logger.go:42-51 | every key of the table is some level's name with that level's ordinal; a name that is no level's name reads as 0, Trace's ordinal |
| `Decimal.NatToString` | logger/logger.go:116 | `%d` of a natural is non-empty, all digits, and starts with '0' only for zero |
| `Decimal.IntToString` | logger/logger.go:116 | `%d` of an integer starts with '-' exactly for negative values, and digits follow |
| `Decimal.Atoi` | logger/logger.go:127 | a successful parse always lies in the 64-bit range |
| `Decimal.DigitsValueOfNatToString` | logger/logger.go:116 | reading back the digits `%d` prints gives the printed value |
| `Decimal.AtoiOfIntToString` | logger/logger.go:126-127 | Atoi recovers every 64-bit integer from its `%d` text |
| `Decimal.IntToStringInjective` | logger/logger.go:116 | different integers never print the same way |
| `Decimal.AtoiRejectsNonDigit` | logger/logger.go:127-130 | a character that is neither a digit nor a leading sign makes Atoi fail |
| `Decimal.AtoiRejectsOverflow` | logger/logger.go:127-130 | a numeral, unsigned or with a leading '+' or '-', whose signed value lies outside the 64-bit range makes Atoi fail |
| `Frames.UnknownFrame` | logger/logger.go:142 | defines the default frame: function "unknown", line 0 |
| `Frames.GetFrame` | logger/logger.go:134-155 | returns element `skipFrames + 2` of the stack when the stack is deeper than that, and otherwise the frame with function "unknown" and line 0 |
| `Goid.TrimPrefix` | logger/logger.go:126 | with the prefix present, prefix + result is the input; without it, the input comes back unchanged |
| `Goid.IsSpace` | logger/logger.go:126 | defines the white space of Go's `unicode.IsSpace`, which separates the fields of `strings.Fields` |
| `Goid.TrimLeftSpaces` | logger/logger.go:126 | the result is a suffix of the input, everything dropped is white space, and the result does not start with white space |
| `Goid.FieldPrefix` | logger/logger.go:126 | the result is a prefix without white space, and it stops only at white space or at the end |
| `Goid.FirstField` | logger/logger.go:126 | defines `strings.Fields(s)[0]`: the first maximal run of non-space characters, or none |
| `Goid.FirstFieldFound` | logger/logger.go:126 | there is no first field exactly when the text is all white space; a found field is non-empty and holds no white space |
| `Goid.ParseGoid` | logger/logger.go:123-131 | defines the id parse of `goid`: trim the prefix, take the first field, run Atoi on it |
| `Goid.ParseGoidOutcomes` | logger/logger.go:123-131 | a parsed id lies in the 64-bit range; a rejected field is non-empty, space-free and refused by Atoi |
| `Goid.FieldPrefixOfField` | logger/logger.go:126 | a field followed by white space or by nothing is taken whole and no further |
| `Goid.FirstFieldOf` | logger/logger.go:126 | the first field of a field followed by white space is that field, whatever follows |
| `Goid.GoidOfHeader` | logger/logger.go:123-131 | a dump starting "goroutine N" then white space yields N, for every 64-bit N |
| `Goid.GoidRejectsNonInteger` | logger/logger.go:126-130 | a first field that Atoi refuses makes the id parse fail with that field |
| `Goid.GoidNoFieldIffBlank` | logger/logger.go:126 | the parse finds no field exactly when everything after the prefix is white space |
| `Goid.GoidRejectsBlank` | logger/logger.go:126 | a dump that is only white space after the prefix has no field, a fault |
| `Format.LogLine` | logger/logger.go:116 | defines the `Sprintf` of a line from timestamp, level, frame, id and message |
| `Format.LogLineHead` | logger/logger.go:115-117 | a line opens with the timestamp, one space, the level name verbatim, then " [" |
| `Format.LogLineEnd` | logger/logger.go:116 | a line closes with "] ", the message verbatim and a newline |
| `Format.LogLineEndsInNewline` | logger/logger.go:116 | every line ends in a newline, and in exactly one unless the message ends in one |
| `Format.LogLineSameIffSameTime` | logger/logger.go:116-121 | two lines with the same level, frame, id and message are equal exactly when their timestamps are |
| `Format.GetLog` | logger/logger.go:115-117 | defines `getLog`: the id parse of `goid`, then the line with this sink's clock reading; a line comes out exactly when the id parses |
| `Format.GetLogOfHeader` | logger/logger.go:115-131 | on a dump headed "goroutine N" then white space or nothing, `getLog` yields the line carrying N and this sink's clock reading, for every 64-bit N |
| `Format.GetLogOfNonInteger` | logger/logger.go:115-130 | on a dump whose first field Atoi refuses, `getLog` fails with that field, whatever the clock reads |
| `Format.GetLogOfBlank` | logger/logger.go:115-126 | on a dump with only white space after the prefix, `getLog` fails for want of a field |
| `Logging.FirstFailing` | logger/logger.go:105-111 | the result is the index of the first failing sink, or the number of sinks when none fails |
| `Logging.Deliver` | logger/logger.go:105-112 | the first k sinks have each received their own line, in order, and the rest are untouched |
| `Logging.DefaultTimeFormat` | logger/logger.go:31 | defines the default layout `TimeFromat`, "02.01.2006 15:04:05.000" |
| `Logging.FanOut` | logger/logger.go:105-112 | defines the loop of `write`: every sink in turn gets its own line, until a sink fails or the id cannot be read |
| `Logging.WriteEffect` | logger/logger.go:100-112 | defines `write`: nothing below the threshold, otherwise the fan-out |
| `Logging.CallSite` | logger/logger.go:75-77 | defines the frame `getFrame(1)` picks inside an emission method: stack entry 3, or "unknown" |
| `Logging.WriteSuppressed` | logger/logger.go:100-103 | when the threshold exceeds the level's ordinal, no sink changes and the write returns |
| `Logging.WriteChangesSinksIff` | logger/logger.go:100-112 | with a working first sink and a readable id, the sinks change exactly when the threshold does not exceed the level's ordinal |
| `Logging.LevelPassesGateIff` | logger/logger.go:100-103 | a level passes the gate exactly when its ordinal is at least the threshold; above 5 nothing passes, at 0 or below everything passes |
| `Logging.WriteDeliversToEverySink` | logger/logger.go:105-112 | with no failing sink, each sink gets exactly one line appended, carrying its own clock reading; the sink count and earlier lines stay, and the write returns |
| `Logging.WriteStopsAtFailingSink` | logger/logger.go:105-111 | when sink i fails first, sinks before i have their line, sink i and later ones are unchanged, and the write panics at i |
| `Logging.WriteIdFault` | logger/logger.go:105-111 | an unreadable id panics before the first sink is written; with no sinks the write returns |
| `Logging.WriteKeepsHistory` | logger/logger.go:100-113 | any write keeps the number of sinks, their failure flags and every earlier line, adds at most one line per sink, and never exits |
| `Logging.CopiesAgreeIffClockAgrees` | logger/logger.go:105-121 | two sinks served by one write receive identical lines exactly when their clock readings agree |
| `Logging.Logger.constructor` | logger/logger.go:53-59 | a new logger has threshold Trace (0), layout "02.01.2006 15:04:05.000", no sinks, and is not yet configured |
| `Logging.Logger.SetTimeFormat` | logger/logger.go:61-63 | only the layout changes, to the given one |
| `Logging.Logger.SetLevel` | logger/logger.go:65-67 | only the threshold changes, to the given integer, with no validation |
| `Logging.Logger.SetOutput` | logger/logger.go:69-73 | the first call installs the sinks; every later call leaves them unchanged; the other fields stay |
| `Logging.Logger.Write` | logger/logger.go:100-113 | the gate and then the loop; the new sinks and the outcome are exactly `WriteEffect` of the old state, the configuration is unchanged, and a logger whose sinks were never set returns without writing |
| `Logging.Logger.WriteToSinks` | logger/logger.go:105-112 | the loop over the sinks; the new sinks and the outcome are exactly `FanOut` of the old sinks, and the configuration is unchanged |
| `Logging.Logger.Trace` | logger/logger.go:75-77 | writes at TRACE with the caller's frame (stack entry 3 or "unknown") |
| `Logging.Logger.Debug` | logger/logger.go:79-81 | writes at DEBUG with the caller's frame |
| `Logging.Logger.Info` | logger/logger.go:83-85 | writes at INFO with the caller's frame |
| `Logging.Logger.Warn` | logger/logger.go:87-89 | writes at WARN with the caller's frame |
| `Logging.Logger.Error` | logger/logger.go:91-93 | writes at ERROR with the caller's frame |
| `Logging.Logger.Fatal` | logger/logger.go:95-98 | writes at FATAL, then ends in exit status 1 unless the write panicked |
| `Logging.InfoThenDebugScenario` | logger/logger.go:79-103 | under threshold Info, an INFO write adds one line per sink and a following DEBUG write changes nothing |
| `Logging.SetOutputOnceScenario` | logger/logger.go:69-73 | of two sink lists installed in turn on a new logger, only the first is kept |
| `Logging.FatalScenario` | logger/logger.go:95-98 | `Fatal` on a new logger with one working sink leaves exactly the FATAL line in it and exits with status 1 |

## Left out

- The wall clock and Go's time-layout engine (`time.Now().Format`) are not modelled. The formatted timestamp is a `Clock` parameter, read once per sink.
- `runtime.Stack` is not modelled. Its dump text is a parameter, and the truncation to a 64-byte buffer is not modelled. The source takes a fresh dump for every sink, because `getLog` calls `goid` inside the loop. The model reads one dump for a whole write. A goroutine's dump header is the same on every call, so no line differs.
- `runtime.Callers` and `runtime.CallersFrames` are not modelled. The frames arrive as a sequence, one per program counter, so the expansion of inlined calls into extra frames is not modelled.
- `io.Writer` is replaced by the `Sink` value. A failing sink accepts nothing: a partial write before an error is not modelled. A writer listed twice counts as two independent sinks, so aliasing is not modelled.
- A sink's `failing` flag is fixed for the sink's whole life. A writer that fails on one write and succeeds on a later one is not modelled. So the clause of `Logging.WriteKeepsHistory` that keeps the failure flags is a property of this abstraction, not of real writers.
- `SetOutput` stores the caller's own slice. A caller that later swaps writers through that slice changes the logger's sinks; this sharing is not modelled, and the model's sink list changes only through `Write`.
- `os.Exit(1)` becomes the `Exited(1)` outcome. A panic becomes the `Panicked` outcome with a fault: the sink index or the id fault. Panic messages and error wrapping are not modelled.
- `sync.Once` becomes the `configured` flag. Concurrency is not modelled: races on the threshold and layout, and interleaving of lines from different goroutines.
- The exported package variable `TimeFromat` is the constant `DefaultTimeFormat`. A client that reassigns it before calling `NewLogger` is not modelled.
- The dump is taken as already-decoded characters. Invalid UTF-8 in the dump buffer is not modelled.
- `Frames.GetFrame` takes a natural `skipFrames`, and the source only ever passes 1. Negative skips are not modelled. With a skip of -1 or -2 the source still returns stack entry `skipFrames + 2`. With -3 or -4 it returns the "unknown" frame. From -5 down, `make` panics on a negative length.
- Frame line numbers and goroutine ids are unbounded integers. Only the parse in `Decimal.Atoi` applies Go's 64-bit range.
