/** Laws of the standard output writer: format the call, then write one line or
    return the formatting error. */
module StdoutLogger {
  import opened Errors
  import Levels
  import opened Format
  import opened Logger

  /** An undefined level is reported as UndefinedLevel and nothing is written. */
  lemma UndefinedLevelWritesNothing(dest: Destination, c: Call)
    requires !Levels.IsDefined(c.level)
    ensures Log(Stdout(dest), c) == Dispatch(Some(UndefinedLevel), [])
  {
  }

  /** A defined level writes exactly one line, the formatted call, and succeeds:
      writing itself never fails. */
  lemma DefinedLevelWritesOneLine(dest: Destination, c: Call)
    requires Levels.IsDefined(c.level)
    ensures Log(Stdout(dest), c)
         == Dispatch(None, [Wrote(dest, Tagged(Levels.SeverityTable[c.level], c.msg, c.context))])
  {
  }

  /** For a defined level the single line written holds the message and every
      context string, whether or not there is any context. */
  lemma WrittenLineHoldsEveryMessage(dest: Destination, c: Call)
    requires Levels.IsDefined(c.level)
    ensures |Log(Stdout(dest), c).emitted| == 1
    ensures IsInfix(c.msg, Log(Stdout(dest), c).emitted[0].line)
    ensures forall i | 0 <= i < |c.context| :: IsInfix(c.context[i], Log(Stdout(dest), c).emitted[0].line)
  {
    LineContainsMessage(c.level, c.msg, c.context);
    forall i | 0 <= i < |c.context|
      ensures IsInfix(c.context[i], Log(Stdout(dest), c).emitted[0].line)
    {
      LineContainsContext(c.level, c.msg, c.context, i);
    }
  }

  /** Each convenience call writes one line tagged with its level's name. */
  lemma ConvenienceWritesTaggedLine(dest: Destination, msg: string, context: seq<string>)
    ensures Emergency(Stdout(dest), msg, context) == Dispatch(None, [Wrote(dest, Tagged("Emergency", msg, context))])
    ensures Alert(Stdout(dest), msg, context) == Dispatch(None, [Wrote(dest, Tagged("Alert", msg, context))])
    ensures Critical(Stdout(dest), msg, context) == Dispatch(None, [Wrote(dest, Tagged("Critical", msg, context))])
    ensures Error(Stdout(dest), msg, context) == Dispatch(None, [Wrote(dest, Tagged("Error", msg, context))])
    ensures Warning(Stdout(dest), msg, context) == Dispatch(None, [Wrote(dest, Tagged("Warning", msg, context))])
    ensures Notice(Stdout(dest), msg, context) == Dispatch(None, [Wrote(dest, Tagged("Notice", msg, context))])
    ensures Informational(Stdout(dest), msg, context) == Dispatch(None, [Wrote(dest, Tagged("Informational", msg, context))])
    ensures Debug(Stdout(dest), msg, context) == Dispatch(None, [Wrote(dest, Tagged("Debug", msg, context))])
  {
  }

  /** The line shapes promised for a Debug call with no context and with two. */
  lemma DebugLineShapes()
    ensures FormatMsg(Levels.Debug, "M", []) == Success("[Debug] M")
    ensures FormatMsg(Levels.Debug, "M", ["a", "b"]) == Success("[Debug] M, a, b")
  {
    var ab: seq<string> := ["a", "b"];
    assert Suffix([]) == "";
    assert ab[1..] == ["b"] && ab[1..][1..] == [];
    assert Suffix(ab) == ", a, b";
    assert "[" + Levels.SeverityTable[7] + "] " + "M" + "" == "[Debug] M";
    assert "[" + Levels.SeverityTable[7] + "] " + "M" + ", a, b" == "[Debug] M, a, b";
  }
}
