# Structured-logging facade: a Dafny model of its decision rules

This project models the decision logic of a small Go logging facade built on
the logrus engine and on gRPC server middleware. It covers:

- how a logger is constructed from its configuration: formatter choice,
  level resolution with an environment override, normalisation of the
  hooks setting, and dispatch of hooks by name;
- the two hooks. The caller-location hook picks a stack frame and shortens
  its path. The Sentry error-reporting hook resolves its settings;
- the context carrier that attaches a logger to a request context;
- the gRPC call logging. This is the per-call logger, the severity chosen
  from a status code, the completion line, and the unary and stream
  interceptors.

The engine's process-wide settings are not mutated. Construction returns
them as a `Setup` record next to the logger's fields. Everything the Go code
gets from its surroundings is an explicit input:

- environment variables;
- the struct decoders;
- the Sentry client constructor;
- the call stack;
- trace ids, clocks and time formatting.

Modules, one per Dafny file:

| module | file | contents |
|---|---|---|
| `Levels` | `levels.dfy` | logrus levels in ordinal order (Panic = 0 … Trace = 6), `ParseLevel`, `logrusLevelByString` |
| `Values` | `values.dfy` | Go `interface{}` values; outcomes of the struct decoder and of a hook factory |
| `Hooks` | `hook.dfy` | the `Hook` descriptor and `listToHooks` |
| `FileLine` | `hook_fileline.dfy` | the caller-location hook |
| `Sentry` | `hook_sentry.dfy` | the error-reporting hook's settings |
| `Loggers` | `logger.dfy` | `New`, `newWithSettings`, and the field merges of `wrapper.go` |
| `Contexts` | `context.dfy` | `WithLogger`, `FromContext` |
| `GoPath` | `go_path.dfy` | Go's `path.Base` and `path.Dir`, needed to split a method name |
| `GrpcLogging` | `grpc_logger.dfy` | severity, per-call logger, completion line, interceptors |

Assumptions about library code that the model does not contain:

- `ParseLevel` is a table of logrus's documented behaviour. It lower-cases
  its input, then accepts panic, fatal, error, warn/warning, info, debug
  and trace.
- `Lower` lower-cases only the characters whose lower case is ASCII. These
  are `A`–`Z`, U+0130 and U+212A. Go's `strings.ToLower` also maps other
  characters, but always to non-ASCII ones. Level names are ASCII, so no
  parse result changes.
- `EqualFoldLower` is Go's `strings.EqualFold` against a lower-case ASCII
  word. It includes the two non-ASCII characters that fold onto ASCII
  letters: U+017F onto `s` and U+212A onto `k`.
- `WithFields` is logrus's entry merge: a map override, where the added
  fields win. `WithField` is the one-entry merge, and `WithError` stores
  the error under "error" as `ErrorVal(message)`. logrus stores the error
  value itself, which the model represents by its message.
- The struct decoders (mapstructure `Decode`/`WeakDecode`) are function
  parameters. It is assumed that mapstructure's decode returns early on
  nil input without setting the target, so the pointer stays nil
  (`DecodedNil`). The finding below depends on this assumption.

Choices the code makes that the model keeps:

- The per-call field `system` is `"grpc"`.
- `FromContext`'s fallback passes formatter name `"text"`. That name is
  non-empty and is not "custom", so the formatter is left as it was
  (`Contexts.DefaultLoggerIsConstructed`).
- Map-shaped hook settings are turned into descriptors in Go's map
  iteration order, which is a parameter here. Only the set of descriptors
  is fixed (`Loggers.NormaliseHooksOrderIrrelevant`).

## Model

| member | source | states |
|---|---|---|
| `Levels.LevelByString` | logger.go:142-148 | the parsed level when the string parses, and exactly the supplied default otherwise |
| `Levels.LevelByStringName` | logger.go:142-148 | a level's own name resolves to that level, whatever the default |
| `Levels.ParseIgnoresCase` | logger.go:137 | lower-casing before parsing does not change the parse |
| `Hooks.StringKeyed` | hook.go:24-29 | a key is kept iff it is a string, and a kept string key keeps its value |
| `Hooks.Contribution` | hook.go:20-34 | an element gives at most one hook. It gives one iff it is a `map[interface{}]interface{}` whose string-keyed part decodes, and that hook is the decoded one |
| `Hooks.ListToHooks` | hook.go:17-36 | the output is never longer than the input; an empty input gives an empty output |
| `Hooks.ListToHooksAppend` | hook.go:19-35 | normalising a concatenation normalises each part in turn, in order |
| `Hooks.ListToHooksSurvivors` | hook.go:17-36 | the output is the decoded forms of exactly the surviving elements, in input order |
| `Hooks.ListToHooksDropsNonAnyMap` | hook.go:20 | elements of any other dynamic type, `map[string]interface{}` included, contribute nothing |
| `FileLine.GetFileLineHook` | hook_fileline.go:27-38 | no hook iff decoding fails. Otherwise the hook carries the configured key, or "where" when that is empty. Nil settings read as empty settings (see Findings) |
| `FileLine.GetFileLineHookAsWritten` | hook_fileline.go:27-38 | decoding fails → `(nil, false)`; a nil decode result → nil-pointer panic; decoded settings → a hook with the configured key, or "where" when that is empty |
| `FileLine.GetFileLineHookAgrees` | hook_fileline.go:27-38 | wherever the code as written does not panic, the corrected factory returns the same |
| `FileLine.NilSettingsPanic` | hook_fileline.go:29-34 | with nil settings, the code as written panics and the corrected factory gives a "where" hook |
| `FileLine.HookLevels` | hook_fileline.go:41-43 | the hook fires on all seven levels |
| `FileLine.LastSlash` | hook_fileline.go:69-70 | the last `/` at an index of at least 1, or none when no such `/` exists |
| `FileLine.ShortPathMeaning` | hook_fileline.go:68-77 | the shortened path is a suffix of the input. With two or more `/` at indices ≥ 1 it is the text after one of them and holds exactly one `/`; otherwise it is the input |
| `FileLine.ShortenPath` | hook_fileline.go:68-77 | the backward scan computes the reference shortened path |
| `FileLine.GetCaller` | hook_fileline.go:62-80 | a missing frame gives ("", 0); otherwise the frame's line and its shortened file |
| `FileLine.SelectFrame` | hook_fileline.go:51-56 | the result is frame 2+i, where every earlier inspected frame starts with "logrus" and frame 2+i does not, or i is 9 (the tenth) |
| `FileLine.Fire` | hook_fileline.go:46-60 | stores "file:line" of the selected frame under the configured key, leaves every other field, returns no error |
| `Sentry.GetLogrusLevels` | hook_sentry.go:116-127 | `[p, p-1, …, Panic]` with p the level parsed with Error as the fallback: length p+1, first p, strictly descending by one, last Panic |
| `Sentry.GetLogrusLevelsMembership` | hook_sentry.go:116-127 | a level is listed iff it is at least as severe as p |
| `Sentry.GetLogrusLevelsUnparsable` | hook_sentry.go:117 | an unparsable level string gives exactly [Error, Fatal, Panic] |
| `Sentry.TimeoutNanos` | hook_sentry.go:80 | seconds × 1,000,000,000, wrapped to 64 bits; exact whenever the product fits |
| `Sentry.TimeoutWraps` | hook_sentry.go:80 | 9223372037 seconds wraps to a negative duration |
| `Sentry.StackTrace` | hook_sentry.go:81-111 | no stack-trace settings → the defaults (Error, false, 3, true, true, 6, true). With settings: the level parsed from the hook level, and each set option in place of its default |
| `Sentry.StackTraceOptionsIndependent` | hook_sentry.go:91-110 | each policy field depends only on its own option: two settings that agree on an option give the same value for that field, and the level depends on the hook level alone |
| `Sentry.HookFromConfig` | hook_sentry.go:60-113 | empty DSN → no hook. Otherwise a hook iff the client constructor accepts the DSN, the tags (empty map for nil) and the levels of the level ("error" when empty). The hook carries the timeout and the stack-trace policy |
| `Sentry.StackTraceLevelIsHookLevel` | hook_sentry.go:63-90 | with stack-trace settings present, the stack-trace level is the first entry of the hook's level list |
| `Sentry.GetSentryHook` | hook_sentry.go:53-114 | a decode failure or nil settings give no hook; decoded settings resolve as `HookFromConfig` (see Findings) |
| `Sentry.GetSentryHookAsWritten` | hook_sentry.go:53-62 | decoding fails → `(nil, false)`; a nil decode result → nil-pointer panic |
| `Sentry.GetSentryHookAgrees` | hook_sentry.go:53-114 | wherever the code as written does not panic, the corrected factory returns the same |
| `Sentry.NilSettingsPanic` | hook_sentry.go:55-62 | with nil settings, the code as written panics and the corrected factory gives no hook |
| `Loggers.SelectFormatter` | logger.go:76-94 | priority: "production" → JSON; else a supplied instance; else a non-empty name gives the custom formatter iff it equals "custom" ignoring case, and otherwise leaves the formatter unchanged; else colored text. Each outcome is stated as an iff |
| `Loggers.CustomNameIgnoresCase` | logger.go:84-87 | "Custom" and "CUSTOM" select the custom formatter; "text" leaves the formatter unchanged |
| `Loggers.ResolveLevel` | logger.go:133-138 | an empty level gives Info; an unparsable one gives Info; otherwise the parsed level |
| `Loggers.ResolveLevelName` | logger.go:133-138 | a level's name in any case resolves to that level |
| `Loggers.ResolveLevelUnknown` | logger.go:133-138 | "verbose" resolves to Info |
| `Loggers.NormaliseHooks` | logger.go:96-113 | a list goes through `listToHooks`; a string-keyed map gives one descriptor per key, with name = key and settings = value; any other shape gives none |
| `Loggers.NormaliseHooksOrderIrrelevant` | logger.go:103-109 | the descriptors of a map do not depend on its iteration order |
| `Loggers.Dispatch` | logger.go:121-126 | "filename_line" and "sentry" go to their corrected factories and yield a hook exactly when the factory does; other names yield none |
| `Loggers.DispatchAsWritten` | logger.go:121-126 | with the factories as written: unknown names yield none; a panic exactly when the named factory panics; otherwise the same hook as `Dispatch` |
| `Loggers.RegisterHooks` | logger.go:115-130 | never more hooks than descriptors, and every registered hook is what `Dispatch` yields for one of the descriptors; the order is stated by `RegisterHooksAppend` and one step by `RegisterOne` |
| `Loggers.RegisterHooksAsWritten` | logger.go:115-130 | the loop as written aborts iff some descriptor's factory panics; otherwise it registers exactly what `RegisterHooks` does |
| `Loggers.NilFileLineSettingsAbort` | logger.go:121-123 | a "filename_line" descriptor without settings aborts the loop as written, while the corrected loop registers a hook keyed "where" |
| `Loggers.RegisterHooksAppend` | logger.go:115-130 | registration of a concatenation registers each part in turn, in order |
| `Loggers.RegisterOne` | logger.go:127-129 | a descriptor is registered iff its factory returns ok |
| `Loggers.UnknownNamesSkipped` | logger.go:115-130 | descriptors with unknown names register nothing |
| `Loggers.NewWithSettings` | logger.go:71-140 | total, given the corrected factories: the formatter, hooks and level are resolved independently, and the base fields become the logger's fields |
| `Loggers.NewWithSettingsAsWritten` | logger.go:71-140 | construction as written yields no logger iff the hook loop as written aborts, and otherwise the logger of `NewWithSettings` |
| `Loggers.CopyFields` | logger.go:52-55 | every base field is copied unchanged and no other field appears |
| `Loggers.New` | logger.go:51-69 | a non-empty LOG_LEVEL replaces the configured level and an empty one leaves it; every base field is copied unchanged |
| `Loggers.WithField` | wrapper.go:14-16 | the one-field merge: `WithFields` with a single entry, so the key holds the value, other fields are kept and the settings are unchanged |
| `Loggers.WithError` | wrapper.go:10-12 | the error under the "error" key, through `WithField`; the other fields are kept |
| `Loggers.WithFields` | wrapper.go:18-20 | the added fields override and extend the receiver's fields; the settings are unchanged |
| `Contexts.WithLogger` | context.go:8-10 | the logger sits under the private key; the deadline and other keys' values are unchanged |
| `Contexts.FromContext` | context.go:13-23 | returns the attached non-nil logger, and the default logger (level Info) when nothing is attached |
| `Contexts.FromWithLogger` | context.go:8-22 | retrieving after attaching gives the attached logger |
| `Contexts.LatestLoggerWins` | context.go:8-22 | after two attachments, the most recent logger is retrieved |
| `Contexts.NilLoggerFallsBack` | context.go:13-20 | a nil logger attached gives the default logger |
| `Contexts.NothingAttached` | context.go:13-20 | a context chain without the logger key gives the default logger |
| `Contexts.DefaultLoggerIsConstructed` | context.go:15-20 | the default logger is construction with ("development", "info", no instance, "text", no fields, an empty `[]Hook`): level Info, no hooks, formatter left unchanged |
| `GrpcLogging.CodeLevel` | grpc_logger.go:83-107 | Info iff the code is one of OK, Canceled, InvalidArgument, NotFound, AlreadyExists, Unauthenticated. Warn iff it is one of the seven degraded codes. Error otherwise, including Unknown, Unimplemented, DataLoss, Internal and every code above 16 |
| `GrpcLogging.CodeBucketsPartition` | grpc_logger.go:84-106 | the three named buckets are disjoint and cover codes 0–16 |
| `GrpcLogging.WithCodeLevel` | grpc_logger.go:83-107 | exactly one log call, at the code's severity, with the given message and the logger's fields |
| `GrpcLogging.ServiceAndMethodSplit` | grpc_logger.go:60-61 | for "/S/M" with S and M non-empty and free of `/`, and S not "." or "..": the service is S and the method is M |
| `GoPath.DirBaseOfTwoSegments` | grpc_logger.go:60-61 | `path.Dir("/S/M")` is "/S" and `path.Base("/S/M")` is M |
| `GrpcLogging.CallFields` | grpc_logger.go:62-70 | the six call fields: traceID, system "grpc", span.kind "server", service, method, start time |
| `GrpcLogging.CallLogger` | grpc_logger.go:62-77 | keeps the settings; the keys are the logger's keys plus the six, plus the deadline key iff there is a deadline. The call fields win, and other fields are kept |
| `GrpcLogging.NewLoggerForCall` | grpc_logger.go:59-81 | the new context keeps the deadline and carries the per-call logger built from the split name and the formatted start and deadline |
| `GrpcLogging.DeadlineFieldIffDeadline` | grpc_logger.go:72-77 | the deadline field is present iff the incoming context has a deadline |
| `GrpcLogging.FromError` | grpc_logger.go:111 | the flag is true iff the error is nil or a status; nil gives OK, and any other error gives Unknown with its text |
| `GrpcLogging.CompletionFields` | grpc_logger.go:112-116 | exactly the three completion fields: the status code, the status message and the elapsed time |
| `GrpcLogging.LogFinishedRequest` | grpc_logger.go:109-122 | exactly one line, with code, message and duration added. Its message is "request finished" iff the error is a status or nil, else "request failed". Its severity is `CodeLevel` of the status code |
| `GrpcLogging.SeverityByCodeOnly` | grpc_logger.go:117-121 | two outcomes with the same code get the same severity |
| `GrpcLogging.NotFoundIsInfo` | grpc_logger.go:113-121 | a NotFound status logs at Info with the code field set; a non-status error logs at Error |
| `GrpcLogging.CompletionCarriesCallFields` | grpc_logger.go:62-70 | the completion line carries the trace id, system, kind, service and method of the call |
| `GrpcLogging.UnaryServerInterceptor` | grpc_logger.go:28-40 | returns the handler's response and error unchanged. The log is the handler's lines followed by exactly one completion line |
| `GrpcLogging.StreamServerInterceptor` | grpc_logger.go:43-57 | returns the handler's error unchanged. The log is the handler's lines followed by exactly one completion line |

## Left out

- Process-wide engine state. `SetFormatter`, `SetLevel`, `AddHook` and `SetOutput` are not modelled as mutations. Construction returns a `Setup` record. Hooks that accumulate across several constructions, and the fact that `FromContext` resets the global level, are not modelled. The output is always standard output and is not represented.
- The engine itself: writing, filtering by level, formatting, and the `Fatal`/`Panic` process exit and unwind. `Loggers.Logf` records the log call as issued.
- `formatter_custom.go`. Its output depends on Go's `%s` rendering of times, levels and maps. It is represented only as the `CustomFormatter` choice.
- The Sentry client and its network send path. Whether the client constructor succeeds is an input.
- Stack walking. `runtime.Caller` is an input sequence of frames. Go indexes strings by byte and the model by character. `/` is ASCII, so the suffix kept is the same.
- UUID generation, `time.Now`, `time.Since`, and RFC 3339/RFC 1123 formatting. These are parameters or constant layout strings.
- The struct decoders (mapstructure) and `ParseLevel`. These are library code, passed in as functions or stated as a table (see above).
- gRPC stream wrapping and concurrency between interceptors. The stream handler sees the per-call context directly.
- `status.FromError` is modelled for three kinds of error: nil, a status error and any other error. Wrapped status errors are not distinguished.
- `Contexts.WithLogger`: contexts are modelled only by their stored values and deadline. Cancellation and the other context operations are not modelled.
- `Loggers.WithFields`: states the engine's map merge as an assumption. Fields with function values, which the engine refuses, cannot occur here.
- The local `Printf` of a decode failure is not modelled.
- `Loggers.Dispatch`: uses the corrected hook factories (see Findings), so a hook without settings is resolved instead of panicking. `Loggers.DispatchAsWritten` models the panic.
- `Loggers.NewWithSettings`: total only because it uses the corrected factories. The construction as written, which panics on a hook without settings, is `Loggers.NewWithSettingsAsWritten`.
- `Loggers.New`: builds on the corrected construction `Loggers.NewWithSettings`, so it does not show the panic on a hook without settings.

## Findings

| source | as written | input that shows it | evidently intended | confidence | as-written member | corrected member |
|---|---|---|---|---|---|---|
| hook_fileline.go:29-34 | decodes into a nil `*FileLineHook`, then reads `hook.LogKeyName` | a hook entry `{name: filename_line}` with no settings. `Decode(nil, &hook)` leaves `hook` nil, and the field read panics at construction | a hook with no settings gets the default key "where"; construction never fails | medium — relies on the decoder leaving the target untouched for nil input; not executed | `FileLine.GetFileLineHookAsWritten` (exhibited by `FileLine.NilSettingsPanic`, and during construction by `Loggers.NilFileLineSettingsAbort`) | `FileLine.GetFileLineHook` |
| hook_sentry.go:55-62 | decodes into a nil `*SentryHookConfig`, then reads `setrySettings.DSN` | a hook entry `{name: sentry}` with no settings. The DSN read panics at construction | a hook with no settings has no DSN and is not registered | medium — same decoder behaviour; not executed | `Sentry.GetSentryHookAsWritten` (exhibited by `Sentry.NilSettingsPanic`) | `Sentry.GetSentryHook` |
