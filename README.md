# go-logs: a Dafny model of the leveled logger

This project models the `logs` package of moonfrog/go-logs: a process-wide
logger with a mutable threshold, an optional size- and age-rotated log file,
an optional console mirror, and a printf-style adapter for code that wants
an abstract logger.

- `Levels` (levels.dfy): the six severities DEBUG..FATAL (0..5), the label
  switch of `Log`, and the name switches of `SetLevel` and `GetLevel`.
- `Format` (format.dfy): a log argument as `Value` (`Str` for a value whose
  dynamic type is `string`, `Other` for any other value with its `%v` text),
  `fmt.Sprintln` and `fmt.Sprint` written out, `fmt.Sprintf` left
  uninterpreted as a `Formatter`, and the rendering of one log call.
- `LogFiles` (logfiles.dfy): the default base directory, the file name
  `Init` chooses, the decimal text of a nanosecond timestamp, and the fixed
  rotation policy 500 MB / 10 backups / 28 days.
- `Logs` (logs.dfy): class `LoggerState`, whose fields are the package globals
  `currentLevel`, `consoleLoggingEnabled`, `logger` (as `fileSink`, `None`
  for `nil`) and `loggerInstance`, with a ghost sequence `writes` of every
  `(sink, line)` pair the package emits; class `LoggerDef`, the adapter; and
  `Dispatch`, the pure statement of what one `Log` call writes.

`Level`'s zero value is DEBUG, so the package starts at level DEBUG
(logs/logs.go:14, 28).

`LoggerState.Valid()` is the invariant that the stored threshold is one of
DEBUG, INFO, WARN, ERROR and that `loggerInstance` is the adapter of this
package; the constructor establishes it and `SetLevel` preserves it.

Inputs from the environment are parameters: `Init` takes the result of
`os.MkdirAll` for the resolved directory (`None`, or `Some` of the error
text) and the value of `time.Now().UnixNano()`; `fmt.Sprintf` is the
`sprintf` constant given to the `LoggerState` constructor; `filepath.Join` is the
abstract path `Join(dir, name)`.

## Model

| member | source | states |
|---|---|---|
| Levels.Label | logs/logs.go:104-119 | each of the six severities gets its own label from the table DEBUG..FATAL, every other level value is labelled INFO; labels are non-empty and contain no space |
| Levels.LevelFromName | logs/logs.go:72-84 | "debug", "info", "warn", "error" select the threshold whose name they are; any other string selects INFO; the result is always one of the four thresholds |
| Levels.LevelName | logs/logs.go:87-99 | a threshold is reported by its lowercase name; "wrong" is returned exactly for values outside DEBUG..ERROR |
| Levels.NameRoundTrip | logs/logs.go:71-98 | for each of the four names, configuring it and reading back gives that name |
| Levels.LevelRoundTrip | logs/logs.go:71-98 | for each of the four thresholds, configuring its name selects it again |
| Levels.TerminalLevelsUnnamed | logs/logs.go:87-119 | PANIC and FATAL have labels but `GetLevel` reports them as "wrong" |
| Format.Render | logs/logs.go:120-129 | a string first argument becomes the template "[LABEL] " + first for the remaining arguments; otherwise the line starts with "[LABEL] " and the first argument's text and ends in a newline (corrected join path, see Findings) |
| Format.RenderAsWritten | logs/logs.go:120-128 | the rendering as the code computes it; on a string first argument it agrees with `Render` |
| Format.JoinSpaces | logs/logs.go:126-128 | the operands `Sprintln` joins keep their total length plus one separator between each two, the first operand leading |
| Format.Sprintln | logs/logs.go:128 | the joined text always ends in a newline |
| Format.SplitJoin | logs/logs.go:126-128 | operands without spaces that are joined by single spaces are recovered by cutting at the spaces |
| Format.JoinPathTokens | logs/logs.go:120-129 | when neither the label nor any argument's text contains a space, a join-path line is newline-terminated and cuts back into the bracketed label followed by every argument's text, in order |
| Format.JoinPathIgnoresFormatter | logs/logs.go:122-128 | the join path never uses `Sprintf`, so `%` in its arguments is printed as is |
| Format.AsWrittenLosesFirst | logs/logs.go:120-128 | as written, a non-string first argument with non-empty text is missing from the line, which is exactly that text shorter than intended |
| Format.AsWrittenExample | logs/logs.go:120-128 | `Log(INFO, 42)` renders "[INFO] \n" as written and "[INFO] 42\n" as intended |
| Format.SprintOfStrings | logs/logs.go:157 | the panic text of string arguments is their concatenation |
| Format.SprintOfOthers | logs/logs.go:157 | the panic text of non-string arguments is their texts separated by spaces |
| LogFiles.DecimalRoundTrip | logs/logs.go:49 | the decimal text of the timestamp reads back as that timestamp |
| LogFiles.LogFileName | logs/logs.go:47-52 | the file name ends in ".log"; before it stands the application name, or, when that is empty, the timestamp's decimal text (digits without a leading zero, a minus sign first when negative), which reads back as the timestamp |
| LogFiles.TimestampNamesDistinct | logs/logs.go:48-49 | without an application name, different instants give different file names |
| Logs.Dispatch | logs/logs.go:101-136 | a call writes something exactly when its level is at least the threshold and a sink is active; then it writes once per active sink, every write carries the rendered line, the file comes first and the console last, and no other sink is written |
| Logs.BelowThresholdSilent | logs/logs.go:101-102 | below the threshold a call writes nothing, whatever the sinks |
| Logs.WrongLevelNotice | logs/logs.go:81-83 | once the threshold is INFO the notice passes the gate and each active sink gets exactly one line, the INFO template applied to the rejected name |
| Logs.PrintfFormats | logs/standardInterface.go:9-13 | every line the adapter causes is `Sprintf("[INFO] " + format, v)`: it always takes the format path at INFO |
| Logs.LoggerState.constructor | logs/logs.go:28-32 | the package starts at DEBUG, console off, no file sink, nothing written, with the adapter instance bound |
| Logs.LoggerState.InitDefault | logs/logs.go:34-36 | `Init` with the default base directory |
| Logs.LoggerState.Init | logs/logs.go:38-56 | when the directory cannot be created one error line goes to stderr and the previous sink is kept; otherwise the sink becomes the resolved directory ("/var/moonfrog/go/" for an empty one) joined with the chosen file name, at 500/10/28, and nothing is written |
| Logs.LoggerState.InitLogger | logs/logs.go:58-65 | a new file sink with the given path and rotation numbers replaces any previous one |
| Logs.LoggerState.SetConsoleLogging | logs/logs.go:67-69 | the console switch becomes the given status |
| Logs.LoggerState.SetLevel | logs/logs.go:71-85 | a known name is stored and read back by `GetLevel` with nothing written; any other name stores INFO, reads back as "info", and writes exactly the notice `Log(INFO, ...)` makes under the new threshold; the invariant is kept |
| Logs.LoggerState.GetLevel | logs/logs.go:87-99 | "wrong" exactly when the stored level is not a threshold; under the invariant a recognised name that selects the stored level |
| Logs.LoggerState.Log | logs/logs.go:101-137 | appends to the writes exactly what `Dispatch` states for the current configuration and changes nothing else |
| Logs.LoggerState.Debugf | logs/logs.go:139-141 | `Log` at DEBUG |
| Logs.LoggerState.Infof | logs/logs.go:143-145 | `Log` at INFO |
| Logs.LoggerState.Warnf | logs/logs.go:147-149 | `Log` at WARN |
| Logs.LoggerState.Errorf | logs/logs.go:151-153 | `Log` at ERROR |
| Logs.LoggerState.Panicf | logs/logs.go:155-159 | `Log` at PANIC, then a panic carrying the `Sprint` text of the arguments |
| Logs.LoggerState.Fatalf | logs/logs.go:161-165 | `Log` at FATAL, then exit status 1 |
| Logs.LoggerState.StandardInterface | logs/standardInterface.go:15-19 | the shared adapter, which acts on this package's state |
| Logs.LoggerDef.constructor | logs/standardInterface.go:7 | an adapter bound to the package |
| Logs.LoggerDef.Printf | logs/standardInterface.go:9-13 | appends exactly what `Log(INFO, [format] + v)` appends: the format as a string first, then the arguments in order, one more argument than given |

## Findings

| source | as written | input that shows it | evidently intended | confidence | as-written member | corrected member |
|---|---|---|---|---|---|---|
| logs/logs.go:120-128 | when `v[0]` is not a string, the failed assertion leaves `first` as the empty string, and that empty string is what the join path puts after the label | `Log(INFO, 42)` renders "[INFO] \n" | "[INFO] 42\n": the first argument appears after the label | high; not executed | Format.RenderAsWritten (discrepancy: Format.AsWrittenLosesFirst, Format.AsWrittenExample) | Format.Render (property: Format.JoinPathTokens) |

`LoggerState.Log`, and so every entry point and the adapter, renders with the
corrected `Format.Render`.

## Left out

- Logs.LoggerState.Log: requires at least one argument whenever the gate passes; Go indexes `v[0]` there and an empty argument list ends in a runtime panic, which is not modelled.
- Logs.LoggerState.Log: uses the corrected join path (see Findings); the code's own rendering is `Format.RenderAsWritten`.
- Logs.Dispatch: the line it puts on every write is the corrected `Format.Render`, not the join path as logs/logs.go:126 computes it (`Format.RenderAsWritten`).
- The date, time and `file:line` prefix that `log.Logger.Output` adds, and its call depth of 3: standard library behaviour; a write records the rendered message only.
- Rolling, backups and age pruning of the rotating file: they belong to the rotation library; only the path and the numbers 500, 10 and 28 are recorded.
- The verbs of `fmt.Sprintf`: the formatter is an uninterpreted parameter.
- The path cleaning of `filepath.Join` and the permission bits 0755 of `os.MkdirAll`: the path is the abstract pair of directory and file name, and the directory's creation is a parameter of `Init`.
- Logs.LoggerState.Panicf: the Go panic itself is not modelled; the method returns it as the outcome `Panicked(text)`.
- Logs.LoggerState.Fatalf: `debug.PrintStack` and process termination are not modelled; the method returns the outcome `Exited(1)` and no stack trace is recorded.
- The standard logger's own formatting of the "could not create log directory" report: the write records the `Sprintf` of the template and the error text.
- Replacing the exported `ConsoleLogger`: the console sink is fixed.
- The `Logger` interface type of logs/standardInterface.go: `LoggerDef` is its only implementation and stands for it.
- Named string types: `Value.Str` stands for a value whose dynamic type is exactly `string`; a value of a named string type counts as a string for `fmt.Sprint` but not for the type assertion in `Log`, and the model does not distinguish it.
- Concurrent access to the package globals: the model is sequential.
- Metrics counters and silent variants are not part of this model: they do not appear in logs/logs.go.
