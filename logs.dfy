/**
 * The package state of logs/logs.go and the adapter of
 * logs/standardInterface.go. One `LoggerState` object stands for the package
 * globals `currentLevel`, `consoleLoggingEnabled` and `logger`; what the
 * package writes is recorded in the ghost sequence `writes`.
 */
module Logs {

  import opened Wrappers
  import opened Levels
  import opened Format
  import opened LogFiles

  /** A destination of a line: the rotating file, `ConsoleLogger` (stdout), or the standard logger (stderr). */
  datatype Sink = File(sink: FileSink) | Console | Stderr

  datatype Write = Write(sink: Sink, line: string)

  /** The configuration a log call reads: threshold, console switch, bound file sink. */
  datatype Config = Config(threshold: Level, console: bool, file: Option<FileSink>)

  /** The template `SetLevel` logs an unknown name with. */
  const WrongLevelFormat: string := "wrong level %s: default info"

  /** The template `Init` reports a directory it cannot create with. */
  const MkdirFailureFormat: string := "E! could not create log directory. (%v)"

  /** What `Panicf` and `Fatalf` end in instead of returning. */
  datatype Terminal = Panicked(message: string) | Exited(status: int)

  /** The number of sinks a configuration writes an emitted line to. */
  function ActiveSinks(c: Config): nat {
    (if c.file.Some? then 1 else 0) + (if c.console then 1 else 0)
  }

  /**
   * The writes one `Log(level, v...)` call makes under configuration `c`:
   * the gate, the rendering and the choice of sinks.
   */
  function Dispatch(c: Config, sprintf: Formatter, level: Level, v: seq<Value>): (r: seq<Write>)
    requires level >= c.threshold ==> |v| > 0
    ensures |r| > 0 <==> level >= c.threshold && (c.file.Some? || c.console)
    ensures level >= c.threshold ==> |r| == ActiveSinks(c)
    ensures forall w :: w in r ==> w.line == Render(Label(level), v, sprintf)
    ensures forall w :: w in r ==> w.sink == Console || (c.file.Some? && w.sink == File(c.file.value))
    ensures |r| > 0 && c.file.Some? ==> r[0].sink == File(c.file.value)
    ensures |r| > 0 && c.console ==> r[|r| - 1].sink == Console
  {
    if level < c.threshold then []
    else
      var line := Render(Label(level), v, sprintf);
      (if c.file.Some? then [Write(File(c.file.value), line)] else [])
      + (if c.console then [Write(Console, line)] else [])
  }

  /** The arguments `SetLevel` hands to `Infof` for an unknown name. */
  function WrongLevelArgs(name: string): seq<Value> {
    [Str(WrongLevelFormat), Str(name)]
  }

  /** The arguments `LoggerDef.Printf` hands to `Infof`: the format, then its arguments in order. */
  function PrintfArgs(format: string, v: seq<Value>): seq<Value> {
    [Str(format)] + v
  }

  /**
   * Once `SetLevel` has fallen back to INFO, its notice passes the gate:
   * each active sink gets one line, the INFO template applied to the name.
   */
  lemma WrongLevelNotice(c: Config, sprintf: Formatter, name: string)
    requires c.threshold == INFO
    ensures var r := Dispatch(c, sprintf, INFO, WrongLevelArgs(name));
      |r| == ActiveSinks(c) &&
      forall w :: w in r ==> w.line == sprintf("[INFO] " + WrongLevelFormat, [Str(name)])
  {
    var args := WrongLevelArgs(name);
    assert args[1..] == [Str(name)];
    assert Bracket(Label(INFO)) + " " + WrongLevelFormat == "[INFO] " + WrongLevelFormat;
  }

  /** `Printf` always takes the format path of `Log`, at INFO. */
  lemma PrintfFormats(c: Config, sprintf: Formatter, format: string, v: seq<Value>)
    ensures forall w :: w in Dispatch(c, sprintf, INFO, PrintfArgs(format, v)) ==>
      w.line == sprintf("[INFO] " + format, v)
  {
    assert Bracket(Label(INFO)) + " " + format == "[INFO] " + format;
  }

  /** A log call below the threshold writes nothing, whatever the sinks. */
  lemma BelowThresholdSilent(c: Config, sprintf: Formatter, level: Level, v: seq<Value>)
    requires level < c.threshold
    ensures Dispatch(c, sprintf, level, v) == []
  {
  }

  class LoggerState {
    var currentLevel: Level
    var consoleLoggingEnabled: bool
    /** The package's `logger`: `None` while it is `nil`. */
    var fileSink: Option<FileSink>
    /** The package's `loggerInstance`. */
    var loggerInstance: LoggerDef?
    /** Everything written so far, in order. */
    ghost var writes: seq<Write>
    /** `fmt.Sprintf`, supplied from outside. */
    const sprintf: Formatter

    ghost predicate Valid()
      reads this
    {
      IsThreshold(currentLevel) && loggerInstance != null && loggerInstance.logs == this
    }

    function State(): Config
      reads this
    {
      Config(currentLevel, consoleLoggingEnabled, fileSink)
    }

    /** The package as loaded: the zero level (DEBUG), console off, no file sink. */
    constructor (sprintf: Formatter)
      ensures Valid()
      ensures currentLevel == DEBUG && !consoleLoggingEnabled && fileSink == None
      ensures writes == [] && this.sprintf == sprintf
    {
      currentLevel := DEBUG;
      consoleLoggingEnabled := false;
      fileSink := None;
      writes := [];
      this.sprintf := sprintf;
      new;
      loggerInstance := new LoggerDef(this);
    }

    /** `InitDefault`: `Init` with the default base directory. */
    method InitDefault(appName: string, mkdirError: Option<string>, nowNanos: Int64)
      modifies this`fileSink, this`writes
      ensures mkdirError.Some? ==> fileSink == old(fileSink)
      ensures mkdirError.Some? ==> writes == old(writes) + [Write(Stderr, sprintf(MkdirFailureFormat, [Str(mkdirError.value)]))]
      ensures mkdirError.None? ==> fileSink == Some(FileSink(Join(DefaultBaseDir, LogFileName(appName, nowNanos)), DefaultPolicy))
      ensures mkdirError.None? ==> writes == old(writes)
    {
      Init(appName, DefaultBaseDir, mkdirError, nowNanos);
    }

    /**
     * `Init`. `mkdirError` is what `os.MkdirAll` returned for the resolved
     * directory and `nowNanos` what `time.Now().UnixNano()` returned. On a
     * failure the standard logger reports it and the old sink stays bound.
     */
    method Init(appName: string, baseDir: string, mkdirError: Option<string>, nowNanos: Int64)
      modifies this`fileSink, this`writes
      ensures mkdirError.Some? ==> fileSink == old(fileSink)
      ensures mkdirError.Some? ==> writes == old(writes) + [Write(Stderr, sprintf(MkdirFailureFormat, [Str(mkdirError.value)]))]
      ensures mkdirError.None? ==> fileSink == Some(FileSink(Join(ResolveBaseDir(baseDir), LogFileName(appName, nowNanos)), DefaultPolicy))
      ensures mkdirError.None? ==> writes == old(writes)
    {
      var dir := baseDir;
      if dir == "" {
        dir := DefaultBaseDir;
      }
      if mkdirError.Some? {
        writes := writes + [Write(Stderr, sprintf(MkdirFailureFormat, [Str(mkdirError.value)]))];
        return;
      }
      var logFileName: string;
      if appName == "" {
        logFileName := Decimal(nowNanos) + LogSuffix;
      } else {
        logFileName := appName + LogSuffix;
      }
      InitLogger(Join(dir, logFileName), MaxSizeMB, MaxBackups, MaxAgeDays);
    }

    /** `initLogger`: bind a new rotating file sink, replacing any previous one. */
    method InitLogger(logFilePath: FilePath, maxSize: int, maxBackups: int, maxAge: int)
      modifies this`fileSink
      ensures fileSink == Some(FileSink(logFilePath, RotationPolicy(maxSize, maxBackups, maxAge)))
    {
      fileSink := Some(FileSink(logFilePath, RotationPolicy(maxSize, maxBackups, maxAge)));
    }

    method SetConsoleLogging(status: bool)
      modifies this`consoleLoggingEnabled
      ensures consoleLoggingEnabled == status
    {
      consoleLoggingEnabled := status;
    }

    /**
     * `SetLevel`: store the named threshold; an unknown name stores INFO and
     * then logs a notice at INFO through the configuration just stored.
     */
    method SetLevel(level: string)
      requires Valid()
      modifies this`currentLevel, this`writes
      ensures Valid()
      ensures currentLevel == LevelFromName(level)
      ensures IsLevelName(level) ==> GetLevel() == level && writes == old(writes)
      ensures !IsLevelName(level) ==> GetLevel() == "info"
      ensures !IsLevelName(level) ==> writes == old(writes) + Dispatch(State(), sprintf, INFO, WrongLevelArgs(level))
    {
      if level == "info" {
        currentLevel := INFO;
      } else if level == "warn" {
        currentLevel := WARN;
      } else if level == "debug" {
        currentLevel := DEBUG;
      } else if level == "error" {
        currentLevel := ERROR;
      } else {
        currentLevel := INFO;
        Infof(WrongLevelArgs(level));
      }
    }

    /** `GetLevel`: the name of the stored threshold. */
    function GetLevel(): (r: string)
      reads this
      ensures r == "wrong" <==> !IsThreshold(currentLevel)
      ensures Valid() ==> IsLevelName(r) && LevelFromName(r) == currentLevel
    {
      LevelName(currentLevel)
    }

    /**
     * `Log`: nothing at all below the threshold; otherwise the rendered
     * line goes to the file sink when one is bound, then to the console
     * when it is enabled. Go indexes `v[0]` only once the gate has passed.
     */
    method Log(level: Level, v: seq<Value>)
      requires level >= currentLevel ==> |v| > 0
      modifies this`writes
      ensures writes == old(writes) + Dispatch(State(), sprintf, level, v)
    {
      if level >= currentLevel {
        var tag := Label(level);
        var output := Render(tag, v, sprintf);
        if fileSink.Some? {
          writes := writes + [Write(File(fileSink.value), output)];
        }
        if consoleLoggingEnabled {
          writes := writes + [Write(Console, output)];
        }
      }
    }

    method Debugf(v: seq<Value>)
      requires DEBUG >= currentLevel ==> |v| > 0
      modifies this`writes
      ensures writes == old(writes) + Dispatch(State(), sprintf, DEBUG, v)
    {
      Log(DEBUG, v);
    }

    method Infof(v: seq<Value>)
      requires INFO >= currentLevel ==> |v| > 0
      modifies this`writes
      ensures writes == old(writes) + Dispatch(State(), sprintf, INFO, v)
    {
      Log(INFO, v);
    }

    method Warnf(v: seq<Value>)
      requires WARN >= currentLevel ==> |v| > 0
      modifies this`writes
      ensures writes == old(writes) + Dispatch(State(), sprintf, WARN, v)
    {
      Log(WARN, v);
    }

    method Errorf(v: seq<Value>)
      requires ERROR >= currentLevel ==> |v| > 0
      modifies this`writes
      ensures writes == old(writes) + Dispatch(State(), sprintf, ERROR, v)
    {
      Log(ERROR, v);
    }

    /** `Panicf`: log at PANIC, then panic with the arguments' `Sprint` text. */
    method Panicf(v: seq<Value>) returns (outcome: Terminal)
      requires PANIC >= currentLevel ==> |v| > 0
      modifies this`writes
      ensures writes == old(writes) + Dispatch(State(), sprintf, PANIC, v)
      ensures outcome == Panicked(Sprint(v))
    {
      Log(PANIC, v);
      outcome := Panicked(Sprint(v));
    }

    /** `Fatalf`: log at FATAL, then exit with status 1. */
    method Fatalf(v: seq<Value>) returns (outcome: Terminal)
      requires FATAL >= currentLevel ==> |v| > 0
      modifies this`writes
      ensures writes == old(writes) + Dispatch(State(), sprintf, FATAL, v)
      ensures outcome == Exited(1)
    {
      Log(FATAL, v);
      outcome := Exited(1);
    }

    /** `StandardInterface`: the one shared adapter, which acts on this package. */
    function StandardInterface(): (r: LoggerDef)
      reads this
      requires Valid()
      ensures r.logs == this
    {
      loggerInstance
    }
  }

  /** `LoggerDef`, the printf-style adapter; it keeps no state of its own. */
  class LoggerDef {
    /** The package whose globals the adapter's calls use. */
    const logs: LoggerState

    constructor (logs: LoggerState)
      ensures this.logs == logs
    {
      this.logs := logs;
    }

    /** `Printf`: log the format and its arguments at INFO. */
    method Printf(format: string, v: seq<Value>)
      modifies logs`writes
      ensures logs.writes == old(logs.writes) + Dispatch(logs.State(), logs.sprintf, INFO, PrintfArgs(format, v))
    {
      logs.Infof(PrintfArgs(format, v));
    }
  }
}
