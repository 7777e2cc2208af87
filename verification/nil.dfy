/** Laws of the logger that does nothing. */
module NilLogger {
  import opened Errors
  import opened Logger

  /** Every call succeeds and has no effect, whatever its level, defined or not. */
  lemma NilSucceedsSilently(c: Call)
    ensures Log(NewNilLogger(), c) == Dispatch(None, [])
  {
  }

  /** Every convenience call succeeds and has no effect. */
  lemma NilConvenienceSucceeds(msg: string, context: seq<string>)
    ensures Emergency(Nil, msg, context) == Dispatch(None, [])
    ensures Alert(Nil, msg, context) == Dispatch(None, [])
    ensures Critical(Nil, msg, context) == Dispatch(None, [])
    ensures Error(Nil, msg, context) == Dispatch(None, [])
    ensures Warning(Nil, msg, context) == Dispatch(None, [])
    ensures Notice(Nil, msg, context) == Dispatch(None, [])
    ensures Informational(Nil, msg, context) == Dispatch(None, [])
    ensures Debug(Nil, msg, context) == Dispatch(None, [])
  {
  }

  /** A fan-out whose children all do nothing succeeds silently for every call, even
      one with an undefined level: the fan-out validates no level of its own. */
  lemma {:induction false} AllNilFanOutSucceeds(children: seq<Sink>, c: Call)
    requires forall i | 0 <= i < |children| :: children[i] == Nil
    ensures Log(FanOut(children), c) == Dispatch(None, [])
    decreases |children|
  {
    if children != [] {
      assert forall i | 0 <= i < |children| - 1 :: children[1..][i] == children[i + 1];
      AllNilFanOutSucceeds(children[1..], c);
    }
  }
}
