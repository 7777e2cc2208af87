/** The eight severity levels and their names. The numbering and the names are those
    of the syslog severity table, Table 2 in section 6.2.1 of RFC 5424. */
module Levels {
  import opened Errors

  /** A level is any integer; only eight of them are defined. */
  type Level = int

  const Emergency: Level := 0
  const Alert: Level := 1
  const Critical: Level := 2
  const Error: Level := 3
  const Warning: Level := 4
  const Notice: Level := 5
  const Informational: Level := 6
  const Debug: Level := 7

  /** The defined levels, most severe first. */
  const All: seq<Level> := [Emergency, Alert, Critical, Error, Warning, Notice, Informational, Debug]

  /** The severity keywords of RFC 5424, indexed by numerical code. */
  const SeverityTable: seq<string> :=
    ["Emergency", "Alert", "Critical", "Error", "Warning", "Notice", "Informational", "Debug"]

  predicate IsDefined(l: Level) {
    Emergency <= l <= Debug
  }

  /** The canonical name of a level, or UndefinedLevel for any other integer. */
  function Name(l: Level): (r: Result<string>)
    ensures r.Success? <==> IsDefined(l)
    ensures r.Failure? ==> r.error == UndefinedLevel
    ensures r.Success? ==> r.value == SeverityTable[l]
  {
    if l == Emergency then Success("Emergency")
    else if l == Alert then Success("Alert")
    else if l == Critical then Success("Critical")
    else if l == Error then Success("Error")
    else if l == Warning then Success("Warning")
    else if l == Notice then Success("Notice")
    else if l == Informational then Success("Informational")
    else if l == Debug then Success("Debug")
    else Failure(UndefinedLevel)
  }

  /** The constants are the codes 0 to 7, in order of decreasing severity, and they
      are exactly the defined levels. */
  lemma Numbering()
    ensures All == [0, 1, 2, 3, 4, 5, 6, 7]
    ensures forall i, j :: 0 <= i < j < |All| ==> All[i] < All[j]
    ensures forall l :: IsDefined(l) <==> l in All
  {
  }

  /** Distinct defined levels have distinct names, so a name identifies its level. */
  lemma NameIsInjective(a: Level, b: Level)
    requires Name(a).Success? && Name(b).Success?
    requires Name(a).value == Name(b).value
    ensures a == b
  {
  }
}
