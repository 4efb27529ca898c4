/**
 * Severities of logs/logs.go: the `iota` constants, the label a line carries,
 * and the two switches that translate between configuration names and the
 * stored threshold (`SetLevel` and `GetLevel`).
 */
module Levels {

  /** Go declares `type Level int`; every int is a level, six of them are named. */
  type Level = int

  const DEBUG: Level := 0
  const INFO: Level := 1
  const WARN: Level := 2
  const ERROR: Level := 3
  const PANIC: Level := 4
  const FATAL: Level := 5

  /** The display label of each named severity, indexed by its value. */
  const Labels: seq<string> := ["DEBUG", "INFO", "WARN", "ERROR", "PANIC", "FATAL"]

  /** The configuration name of each threshold `SetLevel` can store, indexed by its value. */
  const Names: seq<string> := ["debug", "info", "warn", "error"]

  /** One of the six named severities. */
  predicate IsSeverity(level: Level) {
    DEBUG <= level <= FATAL
  }

  /** One of the four severities that `SetLevel` can select as threshold. */
  predicate IsThreshold(level: Level) {
    DEBUG <= level <= ERROR
  }

  /** A name `SetLevel` recognises (case-sensitive, no aliases). */
  predicate IsLevelName(name: string) {
    name in Names
  }

  /** The label switch of `Log`: unnamed level values are labelled as INFO. */
  function Label(level: Level): (r: string)
    ensures IsSeverity(level) ==> r == Labels[level]
    ensures !IsSeverity(level) ==> r == Labels[INFO]
    ensures ' ' !in r && |r| > 0
  {
    if level == DEBUG then "DEBUG"
    else if level == INFO then "INFO"
    else if level == WARN then "WARN"
    else if level == ERROR then "ERROR"
    else if level == PANIC then "PANIC"
    else if level == FATAL then "FATAL"
    else "INFO"
  }

  /** The switch of `SetLevel`: the threshold a name selects, INFO for any unknown name. */
  function LevelFromName(name: string): (r: Level)
    ensures IsThreshold(r)
    ensures IsLevelName(name) ==> Names[r] == name
    ensures !IsLevelName(name) ==> r == INFO
  {
    if name == "info" then INFO
    else if name == "warn" then WARN
    else if name == "debug" then DEBUG
    else if name == "error" then ERROR
    else INFO
  }

  /** The switch of `GetLevel`: the name of a threshold, "wrong" for every other value. */
  function LevelName(level: Level): (r: string)
    ensures IsThreshold(level) ==> r == Names[level]
    ensures r == "wrong" <==> !IsThreshold(level)
    ensures r != "wrong" ==> IsLevelName(r)
  {
    if level == DEBUG then "debug"
    else if level == WARN then "warn"
    else if level == INFO then "info"
    else if level == ERROR then "error"
    else "wrong"
  }

  /** Reading back a name that was just configured gives that name. */
  lemma NameRoundTrip(name: string)
    requires IsLevelName(name)
    ensures LevelName(LevelFromName(name)) == name
  {
  }

  /** Configuring the name of a threshold selects that threshold again. */
  lemma LevelRoundTrip(level: Level)
    requires IsThreshold(level)
    ensures LevelFromName(LevelName(level)) == level
  {
  }

  /** PANIC and FATAL are labelled but never reported by `GetLevel`. */
  lemma TerminalLevelsUnnamed()
    ensures LevelName(PANIC) == "wrong" && LevelName(FATAL) == "wrong"
    ensures Label(PANIC) == "PANIC" && Label(FATAL) == "FATAL"
  {
  }
}
