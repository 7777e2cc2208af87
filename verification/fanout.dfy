/** Laws of the fan-out dispatcher: ordered, fail-fast, at most one call per child. */
module FanOutLaws {
  import opened Errors
  import Levels
  import opened Format
  import opened Logger

  /** Reference for the fan-out's output: the events of every child, each given the
      call, concatenated in child order, with no stopping. */
  function Broadcast(children: seq<Sink>, c: Call): seq<Event> {
    if children == [] then [] else Log(children[0], c).emitted + Broadcast(children[1..], c)
  }

  /** When every child succeeds, the fan-out succeeds and its output is the outputs of
      all children in order. */
  lemma {:induction false} AllSucceedEmitsBroadcast(children: seq<Sink>, c: Call)
    requires forall i | 0 <= i < |children| :: Log(children[i], c).err.None?
    ensures LogAll(children, c) == Dispatch(None, Broadcast(children, c))
    decreases |children|
  {
    if children != [] {
      assert Log(children[0], c).err.None?;
      assert forall i | 0 <= i < |children| - 1 :: children[1..][i] == children[i + 1];
      AllSucceedEmitsBroadcast(children[1..], c);
    }
  }

  /** When child k is the first to fail, the fan-out returns that child's error, and
      only children 0..k have produced output: no later child is called. */
  lemma {:induction false} FirstFailureStopsDispatch(children: seq<Sink>, c: Call, k: int)
    requires 0 <= k < |children|
    requires Log(children[k], c).err.Some?
    requires forall j | 0 <= j < k :: Log(children[j], c).err.None?
    ensures LogAll(children, c) == Dispatch(Log(children[k], c).err, Broadcast(children[..k + 1], c))
    decreases k
  {
    var upTo := children[..k + 1];
    if k == 0 {
      assert upTo == [children[0]] && upTo[1..] == [];
    } else {
      var tail := children[1..];
      assert Log(children[0], c).err.None?;
      assert forall j | 0 <= j < k - 1 :: tail[j] == children[j + 1];
      FirstFailureStopsDispatch(tail, c, k - 1);
      assert upTo[0] == children[0] && upTo[1..] == tail[..k];
    }
  }

  /** An error returned by the fan-out is the error of its first failing child. */
  lemma {:induction false} ErrorComesFromFirstFailingChild(children: seq<Sink>, c: Call) returns (k: int)
    requires LogAll(children, c).err.Some?
    ensures 0 <= k < |children|
    ensures Log(children[k], c).err == LogAll(children, c).err
    ensures forall j | 0 <= j < k :: Log(children[j], c).err.None?
    decreases |children|
  {
    if Log(children[0], c).err.Some? {
      k := 0;
    } else {
      var tail := children[1..];
      var k' := ErrorComesFromFirstFailingChild(tail, c);
      k := k' + 1;
      assert forall j | 1 <= j < k :: children[j] == tail[j - 1];
    }
  }

  /** The fan-out's outcome as a whole: it fails exactly when some child fails, and
      then with the first failing child's error and the output of the children up to
      and including that one; otherwise with the output of every child. */
  lemma FanOutOutcome(children: seq<Sink>, c: Call)
    ensures LogAll(children, c).err.None? ==> LogAll(children, c).emitted == Broadcast(children, c)
    ensures LogAll(children, c).err.Some? ==>
      exists k | 0 <= k < |children| ::
        && (forall j | 0 <= j < k :: Log(children[j], c).err.None?)
        && LogAll(children, c) == Dispatch(Log(children[k], c).err, Broadcast(children[..k + 1], c))
  {
    if LogAll(children, c).err.None? {
      AllSucceedEmitsBroadcast(children, c);
    } else {
      var k := ErrorComesFromFirstFailingChild(children, c);
      FirstFailureStopsDispatch(children, c, k);
    }
  }

  /** Dispatching to the children of two lists is dispatching to the first list and,
      if that succeeded, to the second. */
  lemma {:induction false} LogAllOfConcat(xs: seq<Sink>, ys: seq<Sink>, c: Call)
    ensures LogAll(xs + ys, c)
         == if LogAll(xs, c).err.Some? then LogAll(xs, c)
            else Dispatch(LogAll(ys, c).err, LogAll(xs, c).emitted + LogAll(ys, c).emitted)
    decreases |xs|
  {
    if xs == [] {
      assert xs + ys == ys;
    } else {
      assert (xs + ys)[0] == xs[0] && (xs + ys)[1..] == xs[1..] + ys;
      LogAllOfConcat(xs[1..], ys, c);
    }
  }

  /** A fan-out of fan-outs behaves as one fan-out over all their children in order. */
  lemma NestedFanOutFlattens(xs: seq<Sink>, ys: seq<Sink>, c: Call)
    ensures Log(FanOut([FanOut(xs), FanOut(ys)]), c) == Log(FanOut(xs + ys), c)
  {
    LogAllOfConcat(xs, ys, c);
    var inner := [FanOut(xs), FanOut(ys)];
    assert inner[1..] == [FanOut(ys)] && inner[1..][1..] == [];
    var second := LogAll(ys, c);
    assert LogAll([FanOut(ys)], c) == Dispatch(second.err, second.emitted + []);
    assert second.emitted + [] == second.emitted;
  }

  /** The default logger writes the debug line to standard output and succeeds. */
  lemma DefaultLoggerWritesToStandardOutput(msg: string)
    ensures Debug(NewLogger([]), msg, []) == Dispatch(None, [Wrote(StandardOutput, "[Debug] " + msg)])
  {
    var c := Call(Levels.Debug, msg, []);
    var line := "[Debug] " + msg;
    assert Suffix([]) == "";
    assert Tagged("Debug", msg, []) == line;
    assert FormatMsg(Levels.Debug, msg, []) == Success(line);
    var only := Log(Stdout(StandardOutput), c);
    assert only == Dispatch(None, [Wrote(StandardOutput, line)]);
    assert [Stdout(StandardOutput)][1..] == [];
    assert LogAll([Stdout(StandardOutput)], c) == Dispatch(None, only.emitted + []);
    assert only.emitted + [] == only.emitted;
  }

  /** The default logger rejects an undefined level and writes nothing. */
  lemma DefaultLoggerRejectsUndefinedLevel(level: Levels.Level, msg: string, context: seq<string>)
    requires !Levels.IsDefined(level)
    ensures Log(NewLogger([]), Call(level, msg, context)) == Dispatch(Some(UndefinedLevel), [])
  {
  }

  /** A failing first child hides the call from the second: it returns the first
      child's error and the second child never receives anything. */
  lemma FailingChildShieldsLaterChildren(msg: string, context: seq<string>, code: nat)
    ensures Error(NewLogger([Custom(1, Some(code)), Custom(2, None)]), msg, context)
         == Dispatch(Some(Foreign(code)), [Received(1, Call(Levels.Error, msg, context))])
  {
    var cs := [Custom(1, Some(code)), Custom(2, None)];
    var c := Call(Levels.Error, msg, context);
    assert NewLogger(cs) == FanOut(cs);
    assert Log(cs[0], c) == Dispatch(Some(Foreign(code)), [Received(1, c)]);
    assert LogAll(cs, c) == Log(cs[0], c);
  }

  /** Two succeeding children each receive the call once, in order, with the same
      arguments. */
  lemma SucceedingChildrenSeeTheSameCall(msg: string, context: seq<string>)
    ensures Error(NewLogger([Custom(1, None), Custom(2, None)]), msg, context)
         == Dispatch(None, [Received(1, Call(Levels.Error, msg, context)), Received(2, Call(Levels.Error, msg, context))])
  {
    var cs := [Custom(1, None), Custom(2, None)];
    assert cs[1..] == [Custom(2, None)] && cs[1..][1..] == [];
  }
}
