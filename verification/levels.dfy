/** The three string-keyed tables of the logger: `levelToInt` (severity
    ordinal used for gating), `LevelToSeverity` (coarse class for external
    consumers) and `colors` (ANSI start codes), together with the threshold
    a console logger derives from a level name. A Go map read with a
    missing key yields the zero value, so every lookup here falls back to
    0 or "" rather than failing. */
module Levels {
  import opened Text

  /** The four levels the logger's methods pass to its formatters. */
  datatype Level = Debug | Info | Warn | Error {

    /** The level's name as written inside the bracket of a line. */
    function Name(): string
    {
      match this
      case Debug => "DEBUG"
      case Info => "INFO"
      case Warn => "WARN"
      case Error => "ERROR"
    }

    /** Position in the order DEBUG < INFO < WARN < ERROR. */
    function Rank(): nat
    {
      match this
      case Debug => 0
      case Info => 1
      case Warn => 2
      case Error => 3
    }
  }

  /** True when `name` is one of the four level names. */
  predicate IsLevelName(name: string)
  {
    exists l: Level :: l.Name() == name
  }

  /** The four names, spelled out, are exactly the level names. */
  lemma LevelNames(name: string)
    ensures IsLevelName(name) <==> name in {"DEBUG", "INFO", "WARN", "ERROR"}
  {
    if name == "DEBUG" { assert Debug.Name() == name; }
    if name == "INFO" { assert Info.Name() == name; }
    if name == "WARN" { assert Warn.Name() == name; }
    if name == "ERROR" { assert Error.Name() == name; }
  }

  const LevelToIntTable: map<string, int> :=
    map["" := -1, "DEBUG" := 0, "INFO" := 1, "WARN" := 2, "ERROR" := 3]

  /** `levelToInt[name]`: the ordinal of a level name; "" is the sentinel
      -1 below DEBUG, and a name the table lacks reads as 0. */
  function LevelToInt(name: string): (r: int)
    ensures -1 <= r <= 3
    ensures r == -1 <==> name == ""
    ensures forall l: Level :: name == l.Name() ==> r == l.Rank()
    ensures name != "" && !IsLevelName(name) ==> r == 0
  {
    LevelNames(name);
    if name in LevelToIntTable then LevelToIntTable[name] else 0
  }

  const LevelToSeverityTable: map<string, int> :=
    map["" := 0, "DEBUG" := 0, "INFO" := 0, "WARN" := 1, "ERROR" := 2]

  /** `LevelToSeverity[name]`: normal (0) for DEBUG, INFO, "" and unknown
      names, warning (1) for WARN, error (2) for ERROR. */
  function LevelToSeverity(name: string): (r: int)
    ensures 0 <= r <= 2
    ensures forall l: Level :: name == l.Name() ==> r == (if l.Rank() <= 1 then 0 else l.Rank() - 1)
    ensures !IsLevelName(name) ==> r == 0
  {
    LevelNames(name);
    if name in LevelToSeverityTable then LevelToSeverityTable[name] else 0
  }

  /** A more severe level never has a lower severity class. */
  lemma SeverityMonotone(a: Level, b: Level)
    requires a.Rank() <= b.Rank()
    ensures LevelToSeverity(a.Name()) <= LevelToSeverity(b.Name())
  {
  }

  /** The ANSI escape character. */
  const Esc: char := '\U{1B}'

  /** The ANSI "reset all attributes" sequence that ends a coloured line. */
  const ColorReset: string := [Esc] + "[0m"

  const ColorTable: map<string, string> :=
    map["INFO" := [Esc] + "[36m", "WARN" := [Esc] + "[33m", "ERROR" := [Esc] + "[31m"]

  /** `colors[name]`: cyan, yellow and red start codes for INFO, WARN and
      ERROR; DEBUG, like any name the table lacks, has the empty code. */
  function ColorCode(name: string): (r: string)
    ensures r != "" <==> name in {"INFO", "WARN", "ERROR"}
    ensures r != "" ==> |r| == 5 && r[0] == Esc && r[1] == '[' && r[|r| - 1] == 'm'
    ensures name == "INFO" ==> r == [Esc] + "[36m"
    ensures name == "WARN" ==> r == [Esc] + "[33m"
    ensures name == "ERROR" ==> r == [Esc] + "[31m"
    ensures r != ColorReset
  {
    if name in ColorTable then ColorTable[name] else ""
  }

  /** Only DEBUG, among the four levels, lacks a colour. */
  lemma ColorCodeOfLevel(l: Level)
    ensures ColorCode(l.Name()) == "" <==> l == Debug
  {
  }

  /** Each level has its own colour: no two levels share a start code. */
  lemma ColorCodesDistinct(a: Level, b: Level)
    requires a != b
    ensures ColorCode(a.Name()) != ColorCode(b.Name())
  {
    var ca, cb := ColorCode(a.Name()), ColorCode(b.Name());
    if a != Debug && b != Debug {
      assert ca[3] != cb[3];
    }
  }

  /** The minimum ordinal of a console logger built with `minLevel`:
      `levelToInt[strings.ToUpper(minLevel)]`. */
  function Threshold(minLevel: string): (r: int)
    ensures -1 <= r <= 3
    ensures r == -1 <==> minLevel == ""
    ensures forall l: Level :: ToUpper(minLevel) == l.Name() ==> r == l.Rank()
    ensures minLevel != "" && !IsLevelName(ToUpper(minLevel)) ==> r == 0
  {
    LevelToInt(ToUpper(minLevel))
  }

  /** The threshold ignores case: upper-casing the name first changes nothing. */
  lemma ThresholdCaseInsensitive(minLevel: string)
    ensures Threshold(ToUpper(minLevel)) == Threshold(minLevel)
  {
    ToUpperIdempotent(minLevel);
  }

  /** Any spelling of a level name, in any mix of cases, yields that
      level's ordinal. */
  lemma ThresholdOfAnyCase(minLevel: string, l: Level)
    requires |minLevel| == |l.Name()|
    requires forall i :: 0 <= i < |minLevel| ==> UpperChar(minLevel[i]) == l.Name()[i]
    ensures Threshold(minLevel) == l.Rank()
  {
    ToUpperEqualFold(minLevel, l.Name());
    assert ToUpper(l.Name()) == l.Name();
  }

  /** An empty or unrecognised name lets every level through. */
  lemma ThresholdPermissive(minLevel: string)
    requires !IsLevelName(ToUpper(minLevel))
    ensures forall l: Level :: l.Rank() >= Threshold(minLevel)
  {
  }
}
