# Leveled logging facade, modelled in Dafny

A model of a small Go logging library with RFC 5424 severity levels. It covers the
eight severity levels and their names, the formatter that renders one call as a
`[<Name>] <msg>, <c1>, <c2>, …` line, and the three loggers: the standard-output
writer (`StdoutLogger`), the no-op logger (`NilLogger`), and the fan-out logger
built by `NewLogger`. The fan-out forwards a call to its children in order and
stops at the first error. It also covers the eight fixed-level convenience calls
(Emergency … Debug), each of which is `Log` at its own level.

Layout (one module per component):

- `errors.dfy` (`Errors`): the two error kinds, plus `Result` and `Option`.
- `levels.dfy` (`Levels`): the level constants, the RFC 5424 severity table and `Name`, which models `stringifyLevel`.
- `format.dfy` (`Format`): `FormatMsg`. `AppendContext` is the joining loop. `Suffix` and `Tagged` are the reference shape of a line.
- `logger.dfy` (`Logger`): the closed `Sink` datatype, `Log`, the fan-out walk `LogAll`, the constructors and the convenience calls.
- `fanout.dfy` (`FanOutLaws`), `stdout.dfy` (`StdoutLogger`) and `nil.dfy` (`NilLogger`): laws about each logger.

A logger is a value of `Sink`:

- `Nil` is the no-op logger.
- `Stdout(dest)` is the writer. Its destination is standard output or a separate buffer.
- `FanOut(children)` is the fan-out logger.
- `Custom(tag, failure)` stands for a Logger the caller writes. It records the call it receives and returns a fixed outcome.

A call returns a `Dispatch`. This holds the returned error (`None` for Go's `nil`) and the events the call caused, in order. An event is either a written line or a call received by a `Custom` logger.

## Model

| member | source | states |
|---|---|---|
| Levels.Numbering | logger.go:14-31 | The constants Emergency … Debug are 0 … 7, strictly increasing, and they are exactly the defined levels |
| Levels.Name | logger.go:64-86 | Name succeeds exactly for levels 0..7, and returns the RFC 5424 severity keyword for that code; every other integer (e.g. -1) gives UndefinedLevel |
| Levels.NameIsInjective | logger.go:65-85 | Two defined levels with the same name are the same level |
| Format.AppendContext | logger.go:98-100 | The joining loop appends to its starting content exactly ", c" for each context string c, in order |
| Format.SuffixOfConcat | logger.go:98-100 | The rendering of two concatenated context lists is the concatenation of their renderings |
| Format.SuffixSplit | logger.go:98-101 | The i-th context string sits between the rendering of the strings before it and the rendering of those after it |
| Format.FormatMsg | logger.go:88-102 | Formatting fails exactly for undefined levels, and then with the level lookup's own UndefinedLevel error; otherwise the line is "[Name] msg" followed by ", c" for every context string in order (just "[Name] msg" when there is none) |
| Format.LineContainsMessage | logger.go:97-101 | For every defined level, a formatted line contains the message, with or without context |
| Format.LineSplitsAtContext | logger.go:98-101 | A formatted line splits as the line for the first i context strings, then ", " + the i-th string, then the rendering of the rest, so context order is kept |
| Format.LineContainsContext | logger.go:98-101 | Every context string occurs in the formatted line |
| Logger.Log | logger.go:122-129 | For the library's loggers at any nesting depth, and for the `Custom` stand-in, every received call carries the caller's exact arguments and every written line is the formatted call; UndefinedLevel is returned only for undefined levels |
| Logger.LogAll | logger.go:122-129 | The fan-out walk returns no error exactly when every child returns no error, and passes every child the same call |
| Logger.NewStdoutLogger | stdout.go:14-26 | The default writer, for every call with a defined level, writes the formatted line to standard output and succeeds; for an undefined level it returns UndefinedLevel and writes nothing |
| Logger.NewNilLogger | nil.go:6-14 | The logger it builds returns no error and has no effect on every call |
| Logger.NewLogger | logger.go:109-120 | The result is a fan-out with at least one child: exactly the given loggers in the given order, or a single standard-output writer when none are given |
| Logger.Emergency | logger.go:131-133 | For the library's loggers and the `Custom` stand-in: never reports UndefinedLevel; every child call carries level 0; every written line is tagged "[Emergency]" |
| Logger.Alert | logger.go:134-136 | For the library's loggers and the `Custom` stand-in: never reports UndefinedLevel; every child call carries level 1; every written line is tagged "[Alert]" |
| Logger.Critical | logger.go:137-139 | For the library's loggers and the `Custom` stand-in: never reports UndefinedLevel; every child call carries level 2; every written line is tagged "[Critical]" |
| Logger.Error | logger.go:140-142 | For the library's loggers and the `Custom` stand-in: never reports UndefinedLevel; every child call carries level 3; every written line is tagged "[Error]" |
| Logger.Warning | logger.go:143-145 | For the library's loggers and the `Custom` stand-in: never reports UndefinedLevel; every child call carries level 4; every written line is tagged "[Warning]" |
| Logger.Notice | logger.go:146-148 | For the library's loggers and the `Custom` stand-in: never reports UndefinedLevel; every child call carries level 5; every written line is tagged "[Notice]" |
| Logger.Informational | logger.go:149-151 | For the library's loggers and the `Custom` stand-in: never reports UndefinedLevel; every child call carries level 6; every written line is tagged "[Informational]" |
| Logger.Debug | logger.go:152-154 | For the library's loggers and the `Custom` stand-in: never reports UndefinedLevel; every child call carries level 7; every written line is tagged "[Debug]" |
| Logger.ConvenienceIsFixedLevelLog | logger.go:131-154 | Each of the eight convenience calls equals Log with its fixed level, on the library's loggers (fan-out, writer, no-op) and on the caller-written stand-in |
| FanOutLaws.AllSucceedEmitsBroadcast | logger.go:122-129 | When every child succeeds, the fan-out returns no error and its output is every child's output, in child order |
| FanOutLaws.FirstFailureStopsDispatch | logger.go:123-126 | When child k is the first to fail, the fan-out returns that child's error, and only children 0..k produce output: later children are not called |
| FanOutLaws.ErrorComesFromFirstFailingChild | logger.go:123-126 | An error from the fan-out is exactly the error of some child k, and every child before k succeeded |
| FanOutLaws.FanOutOutcome | logger.go:122-129 | The complete outcome: success with all children's output, or the first failing child's error with the output of the children up to it |
| FanOutLaws.LogAllOfConcat | logger.go:122-129 | Walking two child lists one after the other is the same as walking the second list only if the first list succeeded |
| FanOutLaws.NestedFanOutFlattens | logger.go:114-129 | A fan-out over two fan-outs behaves as one fan-out over all their children in order |
| FanOutLaws.DefaultLoggerWritesToStandardOutput | logging_test.go:73-80 | The default logger's Debug(msg) succeeds and writes the single line "[Debug] msg" to standard output |
| FanOutLaws.DefaultLoggerRejectsUndefinedLevel | logging_test.go:82-86 | The default logger returns UndefinedLevel for an undefined level and writes nothing |
| FanOutLaws.FailingChildShieldsLaterChildren | logger.go:123-126 | With a failing first child and a second child, Error returns the first child's error and the second child receives nothing |
| FanOutLaws.SucceedingChildrenSeeTheSameCall | logger.go:122-129 | With two succeeding children, Error returns no error and each child receives the identical call once, in order |
| StdoutLogger.UndefinedLevelWritesNothing | stdout.go:19-23 | For an undefined level the writer returns UndefinedLevel and writes nothing |
| StdoutLogger.DefinedLevelWritesOneLine | stdout.go:19-25 | For a defined level the writer writes exactly one line, the formatted call, and returns no error |
| StdoutLogger.WrittenLineHoldsEveryMessage | stdout_test.go:43-47 | For a defined level, exactly one line is written, and it holds the message and every context string, including when the context is empty |
| StdoutLogger.ConvenienceWritesTaggedLine | stdout.go:28-51 | Each convenience call on the writer succeeds and writes one line tagged with its level's name |
| StdoutLogger.DebugLineShapes | logger.go:97-101 | Debug with message "M" renders as "[Debug] M" without context and as "[Debug] M, a, b" with context a, b |
| NilLogger.NilSucceedsSilently | nil.go:12-14 | The no-op logger returns no error and has no effect for every call, including undefined levels such as -1 |
| NilLogger.NilConvenienceSucceeds | nil.go:16-39 | Each convenience call on the no-op logger returns no error and has no effect |
| NilLogger.AllNilFanOutSucceeds | nil.go:12-14 | A fan-out whose children are all no-op loggers returns no error and has no effect for every call, even one with an undefined level: the fan-out does not check levels itself |

## Left out

- The timestamp prefix of the standard writer is left out because it depends on the clock. It comes from the `log.LstdFlags` flag at stdout.go:16. A written line is modelled as the formatted message alone.
- `Println`'s trailing newline and the byte-level write to `os.Stdout` are left out. A write becomes a `Wrote(dest, line)` event in the returned trace.
- The writer ignores the result of its underlying write (stdout.go:24), so the modelled writer never fails once formatting succeeds. No write-failure error kind is modelled.
- The embedded `Logger` interface field of the fan-out struct (logger.go:104-107) and Go interface dispatch are left out. They are replaced by the closed `Sink` datatype. A caller-written Logger is represented by `Custom`.
- `Custom` loggers report errors as `Foreign(code)`, kept apart from `UndefinedLevel`. In Go, errors are distinct fresh values compared by identity. The model compares errors structurally instead.
- Levels.Name: on failure Go also returns the empty string next to the error (logger.go:84). The model's `Failure` carries no string, so that zero value is not represented.
- Format.FormatMsg: on failure Go also returns the empty string next to the error (logger.go:95). It is not represented, for the same reason.
- `Level` is modelled as an unbounded `int`. The code does no arithmetic on levels, only compares them, so the platform-dependent width of Go's `int` (32 or 64 bits) makes no difference.
- Reference receivers and object identity (`*StdoutLogger`, `*NilLogger`) are left out. The writer and the no-op logger hold no mutable state of their own. The fan-out does hold shared state, described in the next four lines.
- `NewLogger` keeps the caller's slice itself (logger.go:118), so a caller that later assigns into that slice changes the fan-out's children. The model's `FanOut` children are fixed once built.
- Through that aliasing a fan-out can become one of its own children, and a call then recurses without end. The `Sink` datatype is acyclic, so this case is not modelled; `LogAll` terminates only because of that.
- The fan-out hands every child the same `context` slice (logger.go:124). A caller-written child that writes into it changes what later children receive. `Call` is a value in the model, so `Logger.Log`'s promise that every child receives the identical call does not cover such a child.
- A nil child (for example `NewLogger(nil)`) makes the fan-out panic at logger.go:124. The model has no nil sink, so this panic is not modelled.
- Logger.Log: the clause "UndefinedLevel only for undefined levels" covers the library's loggers and `Custom` children, whose errors are always `Foreign`. A caller-written Go Logger may return the error of a library logger it wraps, for example by calling `NewStdoutLogger().Log(-1, msg)` inside its own `Log`. A fan-out over it then reports "Undefined log level" at a defined level (logger.go:84, 124-125). The same limit applies to the "never reports UndefinedLevel" clause of the eight convenience calls, `Logger.Emergency` through `Logger.Debug`.
- Strings are modelled as Dafny `string`, a sequence of Unicode characters. Go's `string` is an arbitrary byte sequence, so a message or context string that is not valid UTF-8 (such as `"\xff"`) cannot be represented. `Format.IsInfix` compares characters, while Go's `strings.Contains` (logging_test.go:35) compares bytes; the two agree on valid UTF-8, and formatting only concatenates.
- Logger.ConvenienceIsFixedLevelLog: a caller-written Logger is only advised to delegate its convenience methods to Log (logger.go:58-60). The `Custom` stand-in always does, so the lemma promises this for caller-written loggers too, which Go does not guarantee.
- The test-only machinery is left out: random strings seeded from the clock, pipe-based stdout capture and `reflect` type checks (logging_test.go:13-53, stdout_test.go:13). Their assertions appear instead as the lemmas cited above.
- Concurrency is left out. The code has none and defines no locking.
