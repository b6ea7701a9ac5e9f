# lazylog, modelled in Dafny

lazylog is a small Go logging library. A `Logger` holds an ordered list of transports
(writer, console, file, rotating file, syslog, or any foreign implementation of the
`Transport` interface), lists of before-, after- and error-hooks, and a stack-trace
policy. Each log call builds an `Entry` and hands it to `dispatchEntry`. That function
runs the before-hooks, visits every transport in list order behind a per-transport level
filter, runs the error hooks for each failing transport, and then runs the after-hooks.
Transports format the entry with a text or JSON formatter and write the bytes to their
sink. Most of them write a fixed fallback line when formatting fails. Levels come from
a process-wide registry that can be extended at run time.

The model is split by source file:

- `level.dfy` (`Levels`): the level constants, the registry as a table and as a `Registry` class, `String`, `ParseLevel` and `RegisterLevel`.
- `entry.dfy` (`Entries`): `Entry` and the values fields can hold.
- `formatter.dfy` (`Formatters`):
  - the text and JSON formatters, each as a method with its loop, proved against a specification function;
  - the opaque `Runtime`: time layouts, `%v`, `json.Marshal`, the map iteration order and foreign formatters.
- `sink.dfy` (`Sinks`): sinks, the single effect of a `WriteLog` call, and the fallback line.
- One module per transport:
  - `writer_transport.dfy`, `console_transport.dfy`, `file_transport.dfy`, `lumberjack_transport.dfy`, `syslog_transport.dfy`;
  - `transport.dfy` (`Transports`): a transport as an object whose identity is Go pointer identity, `MinLevel`, the type dispatch of `WriteLog`, closers and the constructors.
- `dispatch.dfy` (`Dispatch`):
  - `dispatchEntry` and `writeFormatted`, as a method that returns the trace of what happened: hook runs, deliveries, error-hook runs;
  - that method is proved equal to a specification of the trace.
- `dispatch_properties.dfy` (`DispatchProperties`): what a dispatch promises, proved about that trace:
  - pipeline order;
  - the level filter, in both directions;
  - list order;
  - error hooks running once each, per failure;
  - isolation of failures;
  - the per-call formatter override.
- `logger.dfy` (`Lazylog`):
  - the `Logger` class with its mutators, `Close` and the log entry points;
  - the child logger's field merge, the entry builder, and construction from a `LoggerConfig`.

Inputs from outside the program are parameters:

- `now` is `time.Now()`.
- `stack` is `debug.Stack()`.
- `io(i)` is the error returned by the sink operation of the transport at position `i`.
- `closeErr(i)` is the error returned by its `Close`.
- `open` is `os.OpenFile`.
- `levels` is the registry's current table.

Three behaviours of the code may differ from what a reader would expect, and the model follows the code:

- The child-logger merge and the JSON formatter replace a nested map under a shared key as a whole. They do not merge it recursively. See `Lazylog.MergeIsShallow`.
- `ParseLevel` upper-cases only its input. A level registered under a name with a lower-case ASCII letter (a-z) therefore never parses. See `Levels.LowerCaseRegistrationNotParsed`.
- `NewLoggerFromConfig` returns no logger at all on the first bad transport. It does not return a partly built one.

## Model

| member | source | states |
|---|---|---|
| Levels.Builtins | level.go:7-27 | the built-in table names exactly DEBUG, INFO, WARN, ERROR and each name parses back to its value |
| Levels.ToUpper | level.go:43 | upper-casing keeps the length and maps each character through the ASCII upper-case map |
| Levels.Name | level.go:35-40 | the name registered for the level, or "UNKNOWN" when none is |
| Levels.Parse | level.go:42-47 | the value registered under the upper-cased input when there is one; any result other than INFO comes from the table |
| Levels.Register | level.go:30-33 | after registering, the value prints as the new name; every other value prints as before; an upper-case name parses to the value; every input that does not upper-case to the name parses as before |
| Levels.UpperIsFixed | level.go:43 | an upper-case name is left unchanged by upper-casing |
| Levels.ToUpperIsUpper | level.go:43 | upper-casing yields an upper-case string and is idempotent |
| Levels.ParseIgnoresCase | level.go:42-47 | a string and its upper-case form parse to the same level |
| Levels.LowerCaseNameUnreachable | level.go:43 | no input upper-cases to a name containing a lower-case ASCII letter (a-z) |
| Levels.ParseDefaultsToInfo | level.go:46 | an unregistered name parses to INFO |
| Levels.RoundTrip | level.go:35-47 | in a consistent table, parsing a registered value's name gives the value back |
| Levels.RegisterKeepsConsistent | level.go:30-33 | registering a free (or same-valued) upper-case name keeps every registered name round-tripping |
| Levels.BuiltinOrder | level.go:7-27 | DEBUG < INFO < WARN < ERROR; each of the four built-ins prints under its own name; "warn" parses to WARN |
| Levels.RebindKeepsOldName | level.go:31-32 | binding INFO to a new name changes how INFO prints, yet "INFO" still parses to INFO |
| Levels.ReRegisterBreaksRoundTrip | level.go:31-32 | re-registering "ERROR" at 7 leaves ERROR printing as "ERROR" while "ERROR" now parses to 7 |
| Levels.LowerCaseRegistrationNotParsed | level.go:42-47 | a level registered as "notice" prints as "notice" but "notice" parses to INFO |
| Levels.Registry.RegisterLevel | level.go:30-33 | the two maps gain exactly the two bindings, and the table is the one `Register` describes |
| Levels.Registry.String | level.go:35-40 | the registered name, or "UNKNOWN" for an unregistered value |
| Levels.Registry.ParseLevel | level.go:42-47 | the value registered under the upper-cased input, or INFO |
| Formatters.EffectiveLayout | formatter.go:26-29 | an empty layout becomes RFC 3339; any other is kept |
| Formatters.FormatText | formatter.go:25-57 | the buffer loop produces exactly the text line `TextOutput` describes |
| Formatters.ChunkList | formatter.go:49-51 | one `k=v ` chunk per visited key, in visiting order |
| Formatters.ChunksAreChunkList | formatter.go:49-51 | the field part is the concatenation of those chunks |
| Formatters.TextWithoutFields | formatter.go:34-54 | with no fields the line is `ts [LEVEL] message` and a newline, nothing between message and newline |
| Formatters.TextWithFields | formatter.go:47-52 | with fields: one space after the message, then exactly one chunk per field (each key once), then the newline |
| Formatters.DistinctKeysCount | formatter.go:49 | a visiting order that lists each key once has as many entries as the map |
| Formatters.JsonObject | formatter.go:67-74 | the object holds timestamp, level, message and every field; a field wins over a reserved key, as a whole value |
| Formatters.FormatJson | formatter.go:65-83 | the fill loop and marshal give the marshalled object plus one newline, or the marshal error and no bytes |
| Formatters.Format | formatter.go:12-14 | formatting through the interface runs each formatter's own code |
| Formatters.OutputEndsWithNewline | formatter.go:54-82 | a text line always, and a JSON line when marshalling succeeds, ends in a newline |
| Sinks.FallbackIsPlainText | writer_transport.go:17 | the fallback line is what a default text formatter prints for the entry without fields |
| WriterTransport.WriteLog | writer_transport.go:13-22 | one write to the writer: the formatted bytes, or the fallback line when formatting fails; the write's error is returned and the format error dropped |
| ConsoleTransport.Out | console_transport.go:15-18 | stderr exactly when ToStdErr, otherwise stdout |
| ConsoleTransport.WriteLog | console_transport.go:14-26 | one write to the chosen stream of the formatted bytes or the fallback line; the write's error is returned |
| FileTransport.WriteLog | file_transport.go:27-35 | one write to the file of the formatted bytes or the fallback line; the write's error is returned |
| LumberjackTransport.FormatterOrDefault | lumberjack_transport.go:29-32 | a missing formatter becomes a default TextFormatter |
| LumberjackTransport.WriteLog | lumberjack_transport.go:28-40 | one write to the rotating file of the (default) formatter's bytes or the fallback line; the write's error is returned |
| SyslogTransport.WriteLog | syslog_transport.go:26-32 | a format error is returned unchanged with nothing sent; otherwise the bytes are sent as one Info message and the send's error returned |
| Transports.RawSink | lazylog.go:164-185 | exactly the writer, console, file and rotating-file kinds have a raw sink |
| Transports.MinLevel | writer_transport.go:24-26 | each kind returns the Level field it was built with |
| Transports.IsCloser | lazylog.go:101 | file and rotating-file transports are closers; writer, console and syslog are not; a foreign one is exactly when it implements Close |
| Transports.WriteLog | transport.go:6 | when something reaches the sink the sink's error is returned; only syslog can skip the sink, and then with an error; a foreign transport receives the entry itself |
| Transports.WriteLogAlwaysWritesRawSink | lazylog.go:164-185 | those four kinds always write once, to the same sink the override path writes to, and return the write's error |
| Transports.FormatErrorDiscarded | writer_transport.go:14-19 | when their formatter fails, those four kinds write the fallback line and return only the write's error |
| Transports.NewFileTransport | file_transport.go:15-25 | an open error is returned with no transport; otherwise a new transport holds the handle, level and formatter |
| Transports.NewLumberjackTransport | lumberjack_transport.go:14-26 | the level, formatter and rotation settings are copied unchanged; the result is a closer whose MinLevel is the level |
| Transports.NewSyslogTransport | syslog_transport.go:14-24 | a connection error is returned with no transport; otherwise a new transport that is not a closer |
| Dispatch.ErrorHookEvents | lazylog.go:152-154 | error hook j is the j-th call, each with the entry, the transport and its error |
| Dispatch.WriteFormatted | lazylog.go:164-185 | raw bytes to the raw sink of the four known kinds; any other kind gets `WriteLog` of a bare entry carrying the bytes as message |
| Dispatch.Attempt | lazylog.go:138-150 | no override: the transport's WriteLog; a format error: that error and nothing written; otherwise `writeFormatted` |
| Dispatch.RunHooks | lazylog.go:133-135 | the hooks run in order, each on the entry the previous left |
| Dispatch.RunErrorHooks | lazylog.go:151-155 | every error hook runs once, in order |
| Dispatch.AttemptTransport | lazylog.go:138-150 | one transport's attempt has the outcome `Attempt` specifies |
| Dispatch.Visit | lazylog.go:137-156 | one turn of the fan-out: nothing below the level, otherwise the delivery and, on error, the error hooks |
| Dispatch.FanOutExtends | lazylog.go:136-157 | the fan-out over one more transport is the old fan-out followed by that transport's step |
| Dispatch.DispatchEntry | lazylog.go:132-161 | the loop produces exactly the specified trace: before-hooks, fan-out, after-hooks |
| DispatchProperties.HookEventsAt | lazylog.go:133-135 | hook k runs k-th, exactly once, on the entry hooks 0..k-1 produced |
| DispatchProperties.StepConcerns | lazylog.go:137-156 | every event of a transport's turn belongs to that transport |
| DispatchProperties.FanOutIndices | lazylog.go:136-157 | the fan-out holds only deliveries and error-hook runs of transports in the list |
| DispatchProperties.FanOutInListOrder | lazylog.go:136-157 | transports are visited in list order: a transport's error hooks finish before the next transport is tried |
| DispatchProperties.FanOutFor | lazylog.go:136-157 | the fan-out's events for transport i are exactly its own turn |
| DispatchProperties.DispatchPhases | lazylog.go:132-161 | all before-hooks in order first, then only transport events, then all after-hooks in order on the hooked entry |
| DispatchProperties.DispatchFor | lazylog.go:136-157 | a dispatch's events for transport i are its turn on the hooked entry |
| DispatchProperties.LevelFilter | lazylog.go:137 | below its MinLevel a transport gets nothing; it receives a delivery iff the level passes and the attempt had an effect |
| DispatchProperties.ErrorHooksPerFailure | lazylog.go:151-155 | on failure with err, each error hook runs once, in order, with (entry, that transport, err), after its delivery; without failure none runs |
| DispatchProperties.FailuresAreIsolated | lazylog.go:136-157 | what transport i gets does not depend on any other transport's failure |
| DispatchProperties.OverridePath | lazylog.go:139-147 | with a per-call formatter: a format error becomes the transport's error with nothing written; otherwise the raw sink gets the bytes, or a foreign kind gets a bare entry |
| DispatchProperties.OverrideOnSyslog | lazylog.go:182-184 | a syslog transport reached through the override re-formats a bare entry whose message is the override's bytes |
| Lazylog.RemoveFirstAt | lazylog.go:66-70 | removal splices out exactly the first identical transport and keeps the rest in order |
| Lazylog.RemoveFirstAbsent | lazylog.go:66-71 | removing an absent transport leaves the list unchanged |
| Lazylog.RemoveFirstCounts | lazylog.go:63-72 | removal takes away at most one copy of the transport and nothing else |
| Lazylog.RemoveUndoesAdd | lazylog.go:56-72 | removing a transport just added (not there before) restores the list |
| Lazylog.Closers | lazylog.go:100-106 | the positions of every closer, only closers, strictly increasing |
| Lazylog.FirstCloseError | lazylog.go:99-107 | nil iff every closer closed cleanly; otherwise the error of the first closer that failed |
| Lazylog.WithStacktrace | lazylog.go:262-267 | "stacktrace" is set only when the policy is enabled and lists the level; no other field changes |
| Lazylog.TerminalFields | lazylog.go:227-234 | Fatal/Panic log the first map passed (or a new one) with "stacktrace" set |
| Lazylog.WithTraceId | lazylog.go:394-402 | trace_id from the typed key if non-nil, otherwise from the string key, otherwise fields unchanged; no other field changes |
| Lazylog.AttachTraceId | lazylog.go:394-402 | the key loop with break gives exactly that result |
| Lazylog.Logger.EnableStacktrace | lazylog.go:45-53 | the policy is on and lists exactly the given levels; lists unchanged |
| Lazylog.Logger.constructor | lazylog.go:38-42 | the given transports, no hooks, stack traces off |
| Lazylog.Logger.Snap | lazylog.go:119-129 | the snapshot holds the logger's current transports, hooks and policy |
| Lazylog.Logger.AddTransport | lazylog.go:56-60 | the transport is appended; nothing else changes |
| Lazylog.Logger.RemoveTransport | lazylog.go:63-72 | the list becomes `RemoveFirst` of the old list; nothing else changes |
| Lazylog.Logger.AddHook | lazylog.go:75-83 | the hook is appended to the before- or the after-list as asked; nothing else changes |
| Lazylog.Logger.AddErrorHook | lazylog.go:86-90 | the error hook is appended; nothing else changes |
| Lazylog.Logger.Close | lazylog.go:93-108 | every closer is closed, in order, even after a failure; the first error is returned |
| Lazylog.Logger.LogWithFields | lazylog.go:254-269 | dispatches the entry with the given fields plus the policy's stack trace, without override |
| Lazylog.Logger.Log | lazylog.go:189-203 | as LogWithFields with no fields |
| Lazylog.Logger.LogWithFieldsCustomFormatter | lazylog.go:302-311 | dispatches the fields exactly as given (never a stack trace) with the per-call formatter |
| Lazylog.Logger.LogWithContext | lazylog.go:385-404 | dispatches the fields with trace_id taken from the context, never a stack trace |
| Lazylog.Logger.Fatal | lazylog.go:226-237 | the ERROR dispatch with stack-traced fields completes, and exit(1) is the last event |
| Lazylog.Logger.Panic | lazylog.go:240-251 | the ERROR dispatch with stack-traced fields completes, and the panic with the message is the last event |
| Lazylog.TerminalEntryHasStacktrace | lazylog.go:231-235 | whatever the policy, the entry Fatal and Panic dispatch has a stack trace |
| Lazylog.Merged | lazylog.go:446-456 | bound keys plus the first call-site map's keys; call-site values win; other maps ignored |
| Lazylog.MergeFields | lazylog.go:447-455 | the two copy loops build exactly that merge in a new map |
| Lazylog.ChildLog | lazylog.go:446-457 | a child logs through its parent's `logWithFields` with the merged fields |
| Lazylog.MergeIsShallow | lazylog.go:452-454 | a nested object under a shared key is replaced whole; its other keys are lost |
| Lazylog.BuilderLog | lazylog.go:288-299 | a builder dispatches its fields and formatter as given, never with a stack trace |
| Lazylog.ConfigFormatter | lazylog.go:330-335 | "json" selects JSON; every other name selects the text formatter |
| Lazylog.StderrOption | lazylog.go:339-342 | true exactly when the "stderr" option holds the boolean true |
| Lazylog.PathOption | lazylog.go:349 | the "path" option when it holds a string; a non-empty result always comes from that option |
| Lazylog.ConfigKind | lazylog.go:336-357 | console with the parsed level and stderr option; file on the opened path, or the open error; any other type is an unknown-type error |
| Lazylog.BuildKinds | lazylog.go:328-358 | one transport per entry in order, or the error of the first entry that fails |
| Lazylog.BuildKindsStops | lazylog.go:350-356 | the first failing entry's error is the whole configuration's error |
| Lazylog.NewLoggerFromConfig | lazylog.go:326-360 | on success a new logger whose transports are the built ones, in order, with no hooks; on error only the error |

## Left out

- Locking and concurrent callers are not modelled; every call runs alone. `snapshot` shares the live slices with the logger, and `RemoveTransport` shifts the backing array in place, so a concurrent removal can change a snapshot. That race is not captured.
- Process termination is not modelled: `os.Exit` and `panic` are only the last event of the trace.
- `time.Now`, `debug.Stack`, `Time.Format`, `%v`, `json.Marshal` and foreign formatters are opaque functions or parameters, so their output is not modelled.
- Go's random map iteration order is not modelled. The runtime's `keyOrder` gives one order per map, and the text properties assume only that it visits each key once.
- Real I/O is left out: writes, `os.OpenFile`, `syslog.New`, rotation inside lumberjack, and the close of the files a failed `NewLoggerFromConfig` leaves open. Each sink operation is only its effect plus an error parameter.
- `LoadLoggerConfigJSON` and `LoadLoggerConfigYAML` are not modelled: they read a file and call library decoders.
- `TransportWithFilter` is not modelled; its source is not available. Foreign transports (the `Other` kind) stand for it.
- Error hooks, foreign transports and foreign formatters can change the entry through its pointer. The model treats them as observers; only before- and after-hooks change the entry.
- Dispatch.DispatchEntry, DispatchProperties.DispatchFor: hooks, foreign transports and foreign formatters are assumed not to call back into the logger (its mutators or its log methods) during a dispatch. In Go they can. `snapshot` hands the dispatch loop the live transport slice, and `RemoveTransport` shifts its backing array in place. So a removal from a hook during the fan-out skips a later transport and visits the last one twice. For example, take transports [A, B, C] and an error hook that removes A when A fails: B never gets the entry and C gets it twice. The model's per-position guarantee does not cover such re-entrant calls.
- A transport whose struct fields are changed after it is created is not modelled; a transport's kind is fixed.
- Fatal and Panic write "stacktrace" into the caller's own map. The model gives them a copy, so that side effect on the caller is lost.
- Lazylog.Logger.LogWithContext, Lazylog.Logger.LogWithFieldsCustomFormatter, Lazylog.Logger.LogWithFields, Lazylog.BuilderLog: Go uses the caller's map as the entry's map, so writes to it (`trace_id` from a context, "stacktrace", before-hook edits) stay in that map for later calls that pass it again, or through the same builder. The model passes fields by value and does not capture that write-through.
- `%q` quoting in the unknown-transport-type error message is not modelled; the error carries the type name.
- Levels.ToUpper: covers ASCII letters only, not the full Unicode upper-casing of `strings.ToUpper`.
- Levels.Level: an unbounded integer, so the 64-bit wrap-around of Go's `int` is not modelled.
- A nil `Fields` map and an empty one are the same value.
- The fixed-level wrappers `Debug`, `Info`, `Warn`, `Error` (and their Ctx, builder and child forms) are not modelled separately: each is `Log`, `LogWithContext`, `BuilderLog` or `ChildLog` at a fixed level.
- WriterTransport.WriteLog, ConsoleTransport.WriteLog, FileTransport.WriteLog and SyslogTransport.WriteLog: a missing (nil) formatter, which makes the Go code panic, is not modelled.
