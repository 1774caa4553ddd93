/**
  Log levels of the clog package (level.go; the same declarations appear at the
  top of clog.go): a 32-bit unsigned severity, where a larger number means a
  more verbose level, its lower-case name, the parser back from names, and the
  threshold comparison every leveled call makes.
 */
module Levels {

  /** `type Level uint32`: every 32-bit value is a Level, named or not. */
  newtype Level = x: int | 0 <= x < 0x1_0000_0000

  const FatalLevel: Level := 0
  const ErrorLevel: Level := 1
  const WarnLevel: Level := 2
  const InfoLevel: Level := 3
  const DebugLevel: Level := 4

  /** The value the package variable `globalLogLevel` starts with. */
  const InitialGlobalLevel: Level := InfoLevel

  /** The five levels that have a name of their own. */
  predicate IsNamed(l: Level)
  {
    l <= DebugLevel
  }

  /** The names `String` can produce. */
  const LevelNames: set<string> := {"fatal", "error", "warn", "info", "debug", "unknown"}

  /** `Level.String`: the lower-case name, "unknown" for any value above Debug. */
  function LevelString(l: Level): (s: string)
    ensures s in LevelNames
    ensures s == "unknown" <==> !IsNamed(l)
  {
    if l == DebugLevel then "debug"
    else if l == InfoLevel then "info"
    else if l == WarnLevel then "warn"
    else if l == ErrorLevel then "error"
    else if l == FatalLevel then "fatal"
    else "unknown"
  }

  /** `StringToLevel`: exact, case-sensitive match on the names (and the alias
      "warning"); anything else is Info. */
  function StringToLevel(s: string): (l: Level)
    ensures IsNamed(l)
    ensures l != InfoLevel ==> s in {"fatal", "error", "warn", "warning", "debug"}
  {
    match s
    case "fatal" => FatalLevel
    case "error" => ErrorLevel
    case "warn" => WarnLevel
    case "warning" => WarnLevel
    case "debug" => DebugLevel
    case "info" => InfoLevel
    case _ => InfoLevel
  }

  /** A record at `severity` is written by a logger whose threshold is
      `threshold` exactly when this holds (the check in `levelContextLog`). */
  predicate Enabled(threshold: Level, severity: Level)
  {
    threshold >= severity
  }

  /** `DebugEnabled`, reading the package's `globalLogLevel`. */
  function DebugEnabled(globalLogLevel: Level): (b: bool)
    ensures b <==> Enabled(globalLogLevel, DebugLevel)
    ensures b <==> (globalLogLevel == DebugLevel || LevelString(globalLogLevel) == "unknown")
  {
    globalLogLevel >= DebugLevel
  }

  lemma LevelsStrictlyOrdered()
    ensures FatalLevel < ErrorLevel < WarnLevel < InfoLevel < DebugLevel
    ensures FatalLevel == 0 && DebugLevel == 4
  {
  }

  /** The names of the five named levels are pairwise distinct. */
  lemma LevelStringInjective(l1: Level, l2: Level)
    requires IsNamed(l1) && IsNamed(l2)
    requires LevelString(l1) == LevelString(l2)
    ensures l1 == l2
  {
  }

  /** Parsing the name of a named level gives the level back. */
  lemma LevelRoundTrip(l: Level)
    requires IsNamed(l)
    ensures StringToLevel(LevelString(l)) == l
  {
  }

  /** Any other value prints as "unknown", which parses as Info. */
  lemma UnknownLevelParsesToInfo(l: Level)
    requires !IsNamed(l)
    ensures LevelString(l) == "unknown"
    ensures StringToLevel(LevelString(l)) == InfoLevel
  {
  }

  /** Printing a parsed level never yields "unknown", and reparsing is stable. */
  lemma ParsedLevelPrintsKnown(s: string)
    ensures LevelString(StringToLevel(s)) != "unknown"
    ensures StringToLevel(LevelString(StringToLevel(s))) == StringToLevel(s)
  {
    LevelRoundTrip(StringToLevel(s));
  }

  /** For a level other than Info, exactly its own name (and, for Warn, the
      alias "warning") parses to it. */
  lemma StringToLevelExact(s: string, l: Level)
    requires IsNamed(l) && l != InfoLevel
    ensures StringToLevel(s) == l <==> (s == LevelString(l) || (l == WarnLevel && s == "warning"))
  {
  }

  /** Info is reached by "info" and by every string that is not a name. */
  lemma StringToLevelDefault(s: string)
    requires s !in {"fatal", "error", "warn", "warning", "debug"}
    ensures StringToLevel(s) == InfoLevel
  {
  }

  lemma StringToLevelExamples()
    ensures StringToLevel("warning") == WarnLevel
    ensures StringToLevel("") == InfoLevel
    ensures StringToLevel("DEBUG") == InfoLevel
    ensures StringToLevel("Warn") == InfoLevel
  {
  }

  /** A more verbose threshold lets through everything a less verbose one does. */
  lemma EnabledMonotone(t1: Level, t2: Level, severity: Level)
    requires t1 <= t2 && Enabled(t1, severity)
    ensures Enabled(t2, severity)
  {
  }

  /** Fatal records pass every threshold; Debug records pass only Debug and above. */
  lemma EnabledExtremes(t: Level)
    ensures Enabled(t, FatalLevel)
    ensures Enabled(t, DebugLevel) <==> t >= DebugLevel
  {
  }

  /** At the initial global level Info, Debug is off and the other four are on. */
  lemma InitialGlobalLevelFilters(severity: Level)
    requires IsNamed(severity)
    ensures InitialGlobalLevel == InfoLevel && !DebugEnabled(InitialGlobalLevel)
    ensures Enabled(InitialGlobalLevel, severity) <==> severity != DebugLevel
  {
  }
}
