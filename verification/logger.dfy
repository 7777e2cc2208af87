/** The Logger capability and its three implementations as one closed datatype,
    with the generic Log entry point, the fan-out constructor and the eight
    fixed-level convenience calls. Output is modelled as the sequence of events a
    call emits, in the order they happen. */
module Logger {
  import opened Errors
  import Levels
  import opened Format

  /** Where a writer's lines go: the process's standard output, or another buffer. */
  datatype Destination = StandardOutput | Buffer(id: nat)

  /** A logger.
      - Nil does nothing and always succeeds.
      - Stdout formats the call and writes one line to its destination.
      - FanOut forwards each call to its children, in order, until one fails.
      - Custom stands for a Logger written by the caller: it records the call it
        receives under its tag and returns its fixed outcome (an opaque error code,
        or success). */
  datatype Sink =
    | Nil
    | Stdout(dest: Destination)
    | FanOut(children: seq<Sink>)
    | Custom(tag: nat, failure: Option<nat>)

  /** The arguments of one log call. */
  datatype Call = Call(level: Levels.Level, msg: string, context: seq<string>)

  /** An observable effect of a call: a line written, or a call received by a
      caller-written logger. */
  datatype Event = Wrote(dest: Destination, line: string) | Received(tag: nat, call: Call)

  /** The error a call returns (None for Go's nil) and the events it caused. */
  datatype Dispatch = Dispatch(err: Option<LogError>, emitted: seq<Event>)

  /** Every effect of a dispatch is made with the arguments of the call itself:
      received calls are the call, written lines are its formatting; and the
      dispatch reports UndefinedLevel only for a level that has no name. */
  ghost predicate Faithful(d: Dispatch, c: Call) {
    && (forall ev | ev in d.emitted && ev.Received? :: ev.call == c)
    && (forall ev | ev in d.emitted && ev.Wrote? :: FormatMsg(c.level, c.msg, c.context) == Success(ev.line))
    && (d.err == Some(UndefinedLevel) ==> !Levels.IsDefined(c.level))
  }

  /** The generic entry point of every logger. */
  function Log(s: Sink, c: Call): (d: Dispatch)
    ensures Faithful(d, c)
    decreases s, 1
  {
    match s
    case Nil => Dispatch(None, [])
    case Stdout(dest) =>
      (match FormatMsg(c.level, c.msg, c.context)
       case Failure(e) => Dispatch(Some(e), [])
       case Success(line) => Dispatch(None, [Wrote(dest, line)]))
    case FanOut(children) => LogAll(children, c)
    case Custom(tag, failure) =>
      Dispatch(if failure.Some? then Some(Foreign(failure.value)) else None, [Received(tag, c)])
  }

  /** The fan-out loop: each child in turn gets the same call; the first error stops
      the walk and is returned as it is. The fan-out checks no level itself. */
  function LogAll(children: seq<Sink>, c: Call): (d: Dispatch)
    ensures Faithful(d, c)
    ensures d.err.None? <==> forall i | 0 <= i < |children| :: Log(children[i], c).err.None?
    decreases children, 0
  {
    if children == [] then Dispatch(None, [])
    else
      var first := Log(children[0], c);
      if first.err.Some? then first
      else
        var rest := LogAll(children[1..], c);
        assert forall i | 1 <= i < |children| :: children[i] == children[1..][i - 1];
        Dispatch(rest.err, first.emitted + rest.emitted)
  }

  /** The default writer: for a defined level it writes the formatted call to
      standard output and succeeds; otherwise it writes nothing and fails. */
  function NewStdoutLogger(): (s: Sink)
    ensures forall c: Call | Levels.IsDefined(c.level) ::
      Log(s, c) == Dispatch(None, [Wrote(StandardOutput, Tagged(Levels.SeverityTable[c.level], c.msg, c.context))])
    ensures forall c: Call | !Levels.IsDefined(c.level) :: Log(s, c) == Dispatch(Some(UndefinedLevel), [])
  {
    Stdout(StandardOutput)
  }

  /** The logger that accepts every call and does nothing. */
  function NewNilLogger(): (s: Sink)
    ensures forall c: Call :: Log(s, c) == Dispatch(None, [])
  {
    Nil
  }

  /** A fan-out over the given loggers, kept as given; with none, over one standard
      output writer. */
  function NewLogger(loggers: seq<Sink>): (s: Sink)
    ensures s.FanOut? && |s.children| >= 1
    ensures loggers != [] ==> s.children == loggers
    ensures loggers == [] ==> s.children == [NewStdoutLogger()]
  {
    if |loggers| == 0 then FanOut([NewStdoutLogger()]) else FanOut(loggers)
  }

  /** What a convenience call at a fixed, defined level promises: no UndefinedLevel
      error, every received call carries that level and the caller's arguments, and
      every written line is tagged with the level's name. */
  ghost predicate IssuedAt(d: Dispatch, level: Levels.Level, name: string, msg: string, context: seq<string>) {
    && d.err != Some(UndefinedLevel)
    && (forall ev | ev in d.emitted && ev.Received? :: ev.call == Call(level, msg, context))
    && (forall ev | ev in d.emitted && ev.Wrote? :: ev.line == Tagged(name, msg, context))
  }

  function Emergency(s: Sink, msg: string, context: seq<string>): (d: Dispatch)
    ensures IssuedAt(d, 0, "Emergency", msg, context)
  {
    Log(s, Call(Levels.Emergency, msg, context))
  }

  function Alert(s: Sink, msg: string, context: seq<string>): (d: Dispatch)
    ensures IssuedAt(d, 1, "Alert", msg, context)
  {
    Log(s, Call(Levels.Alert, msg, context))
  }

  function Critical(s: Sink, msg: string, context: seq<string>): (d: Dispatch)
    ensures IssuedAt(d, 2, "Critical", msg, context)
  {
    Log(s, Call(Levels.Critical, msg, context))
  }

  function Error(s: Sink, msg: string, context: seq<string>): (d: Dispatch)
    ensures IssuedAt(d, 3, "Error", msg, context)
  {
    Log(s, Call(Levels.Error, msg, context))
  }

  function Warning(s: Sink, msg: string, context: seq<string>): (d: Dispatch)
    ensures IssuedAt(d, 4, "Warning", msg, context)
  {
    Log(s, Call(Levels.Warning, msg, context))
  }

  function Notice(s: Sink, msg: string, context: seq<string>): (d: Dispatch)
    ensures IssuedAt(d, 5, "Notice", msg, context)
  {
    Log(s, Call(Levels.Notice, msg, context))
  }

  function Informational(s: Sink, msg: string, context: seq<string>): (d: Dispatch)
    ensures IssuedAt(d, 6, "Informational", msg, context)
  {
    Log(s, Call(Levels.Informational, msg, context))
  }

  function Debug(s: Sink, msg: string, context: seq<string>): (d: Dispatch)
    ensures IssuedAt(d, 7, "Debug", msg, context)
  {
    Log(s, Call(Levels.Debug, msg, context))
  }

  /** Each convenience call is the generic Log at its fixed level. */
  lemma ConvenienceIsFixedLevelLog(s: Sink, msg: string, context: seq<string>)
    ensures Emergency(s, msg, context) == Log(s, Call(0, msg, context))
    ensures Alert(s, msg, context) == Log(s, Call(1, msg, context))
    ensures Critical(s, msg, context) == Log(s, Call(2, msg, context))
    ensures Error(s, msg, context) == Log(s, Call(3, msg, context))
    ensures Warning(s, msg, context) == Log(s, Call(4, msg, context))
    ensures Notice(s, msg, context) == Log(s, Call(5, msg, context))
    ensures Informational(s, msg, context) == Log(s, Call(6, msg, context))
    ensures Debug(s, msg, context) == Log(s, Call(7, msg, context))
  {
  }
}
