/** Rendering of one log call as a display line: `[<Name>] <msg>` followed by
    `, <c>` for each context string c, in order. */
module Format {
  import opened Errors
  import Levels

  /** The separator placed before every context string. */
  const Separator: string := ", "

  /** Reference rendering of the context: each string preceded by the separator. */
  function Suffix(context: seq<string>): string {
    if context == [] then "" else Separator + context[0] + Suffix(context[1..])
  }

  /** The formatting loop: each context string is joined onto the content built so
      far, with the separator between them. The loop appends exactly the reference
      suffix to its starting content. */
  function AppendContext(content: string, context: seq<string>): (r: string)
    ensures r == content + Suffix(context)
    decreases |context|
  {
    if context == [] then content
    else
      var joined := content + Separator + context[0];
      assert joined + Suffix(context[1..]) == content + Suffix(context);
      AppendContext(joined, context[1..])
  }

  /** The reference shape of a display line for a level named `name`. */
  function Tagged(name: string, msg: string, context: seq<string>): string {
    "[" + name + "] " + msg + Suffix(context)
  }

  /** The rendering of a concatenation is the concatenation of the renderings. */
  lemma {:induction false} SuffixOfConcat(a: seq<string>, b: seq<string>)
    ensures Suffix(a + b) == Suffix(a) + Suffix(b)
    decreases |a|
  {
    if a != [] {
      assert (a + b)[1..] == a[1..] + b;
      SuffixOfConcat(a[1..], b);
    } else {
      assert a + b == b;
    }
  }

  /** The i-th context string appears after the rendering of those before it and
      before the rendering of those after it. */
  lemma SuffixSplit(context: seq<string>, i: int)
    requires 0 <= i < |context|
    ensures Suffix(context) == Suffix(context[..i]) + Separator + context[i] + Suffix(context[i + 1..])
  {
    var tail := context[i..];
    assert context == context[..i] + tail;
    SuffixOfConcat(context[..i], tail);
    assert tail[1..] == context[i + 1..];
    var a, x, b := Suffix(context[..i]), context[i], Suffix(context[i + 1..]);
    assert Suffix(tail) == Separator + x + b;
    assert a + (Separator + x + b) == a + Separator + x + b;
  }

  /** The display line of a call, or the error of the level lookup, unchanged. */
  function FormatMsg(level: Levels.Level, msg: string, context: seq<string>): (r: Result<string>)
    ensures r.Failure? <==> !Levels.IsDefined(level)
    ensures r.Failure? ==> r.error == Levels.Name(level).error == UndefinedLevel
    ensures r.Success? ==> r.value == Tagged(Levels.SeverityTable[level], msg, context)
  {
    match Levels.Name(level)
    case Failure(e) => Failure(e)
    case Success(l) => Success(AppendContext("[" + l + "] " + msg, context))
  }

  ghost predicate IsInfix(t: string, s: string) {
    exists pre: string, post: string :: s == pre + t + post
  }

  /** A formatted line contains the message, whatever the context. */
  lemma LineContainsMessage(level: Levels.Level, msg: string, context: seq<string>)
    requires Levels.IsDefined(level)
    ensures IsInfix(msg, FormatMsg(level, msg, context).value)
  {
    var head := "[" + Levels.SeverityTable[level] + "] ";
    assert FormatMsg(level, msg, context).value == head + msg + Suffix(context);
  }

  /** The i-th context string follows the line formatted from the strings before it,
      and precedes the rendering of those after it: context order is kept. */
  lemma LineSplitsAtContext(level: Levels.Level, msg: string, context: seq<string>, i: int)
    requires Levels.IsDefined(level)
    requires 0 <= i < |context|
    ensures FormatMsg(level, msg, context).value
         == FormatMsg(level, msg, context[..i]).value + Separator + context[i] + Suffix(context[i + 1..])
  {
    var head := "[" + Levels.SeverityTable[level] + "] ";
    assert FormatMsg(level, msg, context).value == head + msg + Suffix(context);
    SuffixSplit(context, i);
  }

  /** Every context string occurs in the formatted line. */
  lemma LineContainsContext(level: Levels.Level, msg: string, context: seq<string>, i: int)
    requires Levels.IsDefined(level)
    requires 0 <= i < |context|
    ensures IsInfix(context[i], FormatMsg(level, msg, context).value)
  {
    LineSplitsAtContext(level, msg, context, i);
    var pre := FormatMsg(level, msg, context[..i]).value + Separator;
    var post := Suffix(context[i + 1..]);
    assert FormatMsg(level, msg, context).value == pre + context[i] + post;
  }
}
