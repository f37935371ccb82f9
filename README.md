# otzap bridge, modelled in Dafny

This project models the core of `otzap`, a bridge between the zap
structured logger and OpenTelemetry spans. The bridge runs in both
directions:

- **Log to span** (`OTelZapCore`, module `ZapCore`). `Write` finds the
  first field keyed by the span key or the context key. `AddEventToSpan`
  then turns the log entry into one span event: a source tag, then the
  level name, then the copied fields. Each error field becomes one error
  record on the span.
- **Span to log** (`ZapSpanProcessor`, module `SpanProcessor`). When a
  span ends, `OnEnd` hands each of its events, oldest first, to
  `LogEvent`. `LogEvent` writes at most one log entry per event: the span
  id, an optional Google Cloud trace link, the event time, the span
  attributes, the event attributes, and its own source tag at the end.

Each side tags what it emits with a source value under a source key. Each
side drops what carries its own tag or its counterpart's tag ("zapApi" and
"otelApi"). That guard is what stops records from bouncing between the
two forwarders forever; module `Bridge` proves it in both directions.

The smaller modules around the two forwarders:

- the trim-or-default configuration getters of both sides (`ZapGetters`,
  `OTelGetters`) and their defaults (`Consts`);
- the span helpers `AddXEvent`, `AddXEventToSpan` and `RecordErrors`
  (`Sugar`);
- the redaction of environment variables before they become resource
  attributes (`EnvFilter`);
- two zap level encoders: Google Cloud severities (`GoogleCloud`) and ANSI
  coloured three-letter labels (`ColorConsole`).

The OpenTelemetry SDK span, zap's logger and zap's array encoder are
modelled in module `Telemetry`:

- `Span` and `Logger` are classes whose methods update their fields in
  place.
- `Logger.Check` accepts exactly the levels its `enabled` function holds
  for.
- `ArrayEncoder` keeps the appended strings as a sequence.

`Text` models Go's `strings.TrimSpace`, `strings.ToLower`,
`strings.EqualFold` and `strings.Contains` on ASCII. `Levels` models
`zapcore.Level` as an `int8` newtype.

The duplicated files share one module each: src/otel_getters.go is
modelled by `OTelGetters`, and src/zap_color_console.go by
`ColorConsole`.

Behaviour kept as the code has it, even where it looks unintended:

- zap_core.go:201 compares field keys with the raw `ContextAttrKey`, not
  with the defaulted `GetContextAttrKey()`. With nothing configured, a
  field keyed "ctx" is therefore passed over by `Write`, while a field
  keyed "" is taken as the context. `CoreKeys.rawContextKey` carries that
  string, and `ZapCore.DefaultContextKeyIsRaw` shows the consequence. The
  copy loop still skips the defaulted key.
- otel_span_processor.go:120 declares a new `logLevel` that shadows the
  one declared at line 114. The parsed level therefore only gates an
  event. The entry is checked and written at zap's zero level, info
  (`SpanProcessor.WrittenLevelIsInfo`,
  `SpanProcessor.ShadowedLevelDropsErrorEvent`).
- Span-level attributes are copied without the source-tag guard.
- A blank level string falls back to `DefaultLevel` exactly as
  configured, without trimming or lower-casing it.

Two more points where the model follows the code:

- `GetLogger` falls back to the global logger (`zap.L()`,
  otel_getters.go:48-54). So `Validate` returns "logger required"
  (otel_span_processor.go:180) only when neither logger exists.
- The field comment at zap_core.go:62 gives "zap" as the default source
  value. The getter returns `defaultZapSourceValue`, which is "zapApi".

Three things outside the code become parameters:

- `now`: the clock the SDK stamps events with;
- `render`: `fmt.Sprintf("%v", ...)` of a field payload that has no
  attribute type of its own;
- `global`: what `zap.L()` returns.

## Model

| member | source | states |
|---|---|---|
| ZapGetters.GetContextAttrKey | otzap/zap_getters.go:5-12 | the trimmed configured key when it is not blank, otherwise "ctx"; never empty and never padded |
| ZapGetters.GetEventSourceKey | otzap/zap_getters.go:14-21 | the trimmed key when not blank, otherwise "logEventSource"; never empty |
| ZapGetters.GetEventSourceValue | otzap/zap_getters.go:23-30 | the trimmed tag when not blank, otherwise "zapApi"; never empty |
| ZapGetters.GetLevelKey | otzap/zap_getters.go:32-39 | the trimmed key when not blank, otherwise "level"; never empty |
| ZapGetters.GetSpanAttrKey | otzap/zap_getters.go:41-48 | the trimmed key when not blank, otherwise "span"; never empty |
| ZapGetters.Keys | otzap/zap_getters.go:5-48 | every resolved key is non-empty and trimmed; the raw context key is the configured string as written |
| ZapGetters.ResolveIdempotent | otzap/zap_getters.go:6-11 | resolving an already resolved configuration changes nothing |
| ZapGetters.DefaultHandleKeysDiffer | otzap/zap_getters.go:11-47 | with both keys blank, the span key and the context key differ |
| ZapCore.Enabled | zap_core.go:79-83 | the core accepts every level |
| ZapCore.With | zap_core.go:174-178 | the copy has exactly the given extra fields and otherwise equals the receiver |
| ZapCore.WithKeepsKeys | zap_core.go:180-213 | the extra fields set by `With` change none of the keys `Write` works with |
| ZapCore.CopyFields | zap_core.go:99-146 | the copy loop reports an abort exactly when some field reached by the loop carries either forwarder's tag under the source key; otherwise it returns the header plus the copied attributes and the errors, in field order |
| ZapCore.AddEventToSpan | zap_core.go:94-156 | returns nil; the span afterwards is the forward of the entry to its old state: unchanged on an abort, otherwise one event plus one error record per error field |
| ZapCore.EmitEvent | zap_core.go:149-153 | adds the event, then one error record per error, in order, each with the event's attributes |
| ZapCore.AddEventToSpanInContext | zap_core.go:159-171 | returns nil; a missing or non-recording span is untouched, a recording one receives the forward |
| ZapCore.FindDecider | zap_core.go:189-210 | returns the index of the first field keyed by the span key or the raw context key, or the field count when there is none |
| ZapCore.Write | zap_core.go:180-213 | the error is "invalid span type" or "invalid context type" when the deciding field's payload has the wrong type, otherwise nil; only the target span changes, and it receives the forward |
| ZapCore.Validate | zap_core.go:215-238 | checks the five getters in order for blank values; since every getter falls back to a non-blank default, it never reports an error |
| ZapCore.ForwardNotRecording | zap_core.go:164-168 | forwarding to a span that is not recording changes nothing |
| ZapCore.LoopTagAborts | zap_core.go:111-116 | a non-handle field whose payload is the own tag under the source key leaves the span unchanged: no event and no error records, even for errors collected before it |
| ZapCore.ForwardEffect | zap_core.go:99-153 | a forward that is not dropped appends exactly one event named after the message; its attributes are the source tag, then the level name, then the copied fields; it appends one error record per collected error with the same attributes; status and span attributes are unchanged |
| ZapCore.CopiedAttrsSkipHandles | zap_core.go:107-109 | no copied attribute is keyed by the span key or the context key |
| ZapCore.CopiedAttrsAppend | zap_core.go:106-144 | fields are copied one at a time: the attributes of two runs of fields are those of each run, one after the other |
| ZapCore.CollectedErrorsAppend | zap_core.go:120-121 | the errors of two runs of fields are those of each run, one after the other |
| ZapCore.CopiedAttrsInOrder | zap_core.go:118-143 | without handles or errors every field is copied, in order, keeping string, int64 and bool types, duration as int64 and anything else rendered as a string |
| ZapCore.FieldAccounting | zap_core.go:106-146 | copied attributes, collected errors and skipped handles together account for every field exactly once |
| ZapCore.ErrorsCollectedInOrder | zap_core.go:120-121 | error fields never become attributes and are collected one each, in field order |
| ZapCore.DecideIsFirstHandle | zap_core.go:189-210 | the first field keyed by the span key or the raw context key decides the outcome, whatever follows it |
| ZapCore.NoHandleIsNoop | zap_core.go:189-212 | with no such field `Write` does nothing and returns nil |
| ZapCore.DefaultContextKeyIsRaw | zap_core.go:201-208 | with nothing configured, a context field keyed "ctx" is passed over while one keyed "" is taken |
| OTelGetters.GetEventSourceKey | otel_getters.go:30-37 | the trimmed key when not blank, otherwise "logEventSource"; never empty |
| OTelGetters.GetEventSourceValue | otel_getters.go:39-46 | the trimmed tag when not blank, otherwise "otelApi"; never empty |
| OTelGetters.GetLogger | otel_getters.go:48-54 | the configured logger when there is one, otherwise the global logger |
| OTelGetters.GetSpanIdKey | otel_getters.go:56-63 | the trimmed key when not blank, otherwise "spanId"; never empty |
| OTelGetters.GetTimestampKey | otel_getters.go:65-72 | the trimmed key when not blank, otherwise "timestamp"; never empty |
| OTelGetters.GetZapLevelKey | otel_getters.go:74-81 | the trimmed key when not blank, otherwise "level"; never empty |
| OTelGetters.Keys | otel_getters.go:30-81 | every resolved key and the tag are non-empty and trimmed |
| OTelGetters.ResolveIdempotent | otel_getters.go:30-81 | resolving an already resolved configuration changes nothing |
| SpanProcessor.GetZapLevel | otel_span_processor.go:154-176 | total and always one of the five named levels; a recognised name yields its level, and any result other than debug names exactly the cleaned input |
| SpanProcessor.GetZapLevelNormalised | otel_span_processor.go:155 | trimming and lower-casing the input first does not change the result |
| SpanProcessor.GetZapLevelIgnoresCase | otel_span_processor.go:155 | upper- and lower-case spellings parse alike |
| SpanProcessor.DefaultLevelIsVerbatim | otel_span_processor.go:155-159 | a blank input falls back to the default level as written: a default " Warn" selects debug, while the input " Warn" selects warn |
| SpanProcessor.SpanAttrFields | otel_span_processor.go:107-111 | one field per span attribute, in order, with key and value kept |
| SpanProcessor.PrefixFields | otel_span_processor.go:86-111 | the fields before the event's own attributes: span id, the trace link when a project id is set, the timestamp, then the span attributes |
| SpanProcessor.CopyEventAttrs | otel_span_processor.go:116-140 | reports a veto exactly when some event attribute is a level the core rejects or either forwarder's tag under the source key; otherwise returns every non-level attribute as a field, in order |
| SpanProcessor.LogEvent | otel_span_processor.go:81-152 | the logger's entries grow by exactly the event's entry, or by nothing when the event is vetoed or the zero level is not accepted |
| SpanProcessor.OnEnd | otel_span_processor.go:61-70 | the logger's entries grow by the entries of the span's events, in stored order |
| SpanProcessor.Validate | otel_span_processor.go:178-204 | fails exactly when there is no logger, configured or global, and then says "logger required"; the key checks after it never fail |
| SpanProcessor.WrittenLevelIsInfo | otel_span_processor.go:113-151 | every written entry is at the info level, and the logger accepts info |
| SpanProcessor.ShadowedLevelDropsErrorEvent | otel_span_processor.go:114-144 | an event tagged "error" passes the level gate of a core accepting warn and above, yet is not written |
| SpanProcessor.LevelGateDrops | otel_span_processor.go:119-128 | a level attribute naming a level the core rejects means nothing is written for the event |
| SpanProcessor.LoopTagDrops | otel_span_processor.go:130-137 | an event attribute holding the own tag or "zapApi" under the source key means nothing is written for the event |
| SpanProcessor.SpanAttrsNotGuarded | otel_span_processor.go:107-111 | whether an event is written does not depend on the span attributes |
| SpanProcessor.EventFieldsSkipLevel | otel_span_processor.go:117-128 | no copied event attribute is keyed by the level key |
| SpanProcessor.EventFieldsAppend | otel_span_processor.go:117-140 | event attributes become fields one at a time: the fields of two runs of attributes are those of each run, one after the other |
| SpanProcessor.EventFieldsInOrder | otel_span_processor.go:117-140 | without level attributes every event attribute is copied, in order |
| SpanProcessor.BaseLayout | otel_span_processor.go:89-111 | the position of every field before the event's own attributes |
| SpanProcessor.RecordLayout | otel_span_processor.go:89-142 | a written entry is span id, optional trace link, timestamp, span attributes, copied event attributes, then the own source tag last |
| SpanProcessor.SpanRecordsAppend | otel_span_processor.go:61-70 | the entries for two runs of events are those of each run, one after the other |
| SpanProcessor.AtMostOneEntryPerEvent | otel_span_processor.go:67-69 | a span yields at most one entry per event |
| SpanProcessor.DroppedEventSkipped | otel_span_processor.go:67-69 | a dropped event does not stop the events after it |
| SpanProcessor.EntriesFollowEvents | otel_span_processor.go:66-69 | when every event is written, entry i is the entry of event i |
| Sugar.RecordErrors | otel_sugar.go:160-173 | with at least one error, nil ones included, the span afterwards is the old state marked failed, flagged, and given one record per non-nil error, in order; a nil error is passed to `RecordError`, which ignores it |
| Sugar.RecordErrorsEffect | otel_sugar.go:165-172 | with at least one error: status Error with an empty description, `error=true` appended, one record per non-nil error, in order, without attributes; events untouched |
| Sugar.NonNilInOrder | otel_sugar.go:169-171 | the recorded errors are the non-nil ones: no more than were passed, and exactly those values |
| Sugar.NilErrorsStillMarkFailed | otel_sugar.go:160-172 | a list holding only nil errors still sets status Error and `error=true`, but adds no error record |
| Sugar.RecordErrorsNoop | otel_sugar.go:160-163 | no errors, or a span that is not recording, leaves the span unchanged |
| Sugar.LevelEventEffect | otel_sugar.go:35-41 | a helper appends exactly one event named `msg` whose only attribute is the level under "level", before the error handling |
| Sugar.AddLevelEvent | otel_sugar.go:35-41 | the span afterwards is the helper event followed by `RecordErrors` |
| Sugar.AddDebugEvent | otel_sugar.go:35-41 | the helper with level name "debug" |
| Sugar.AddInfoEvent | otel_sugar.go:46-52 | the helper with level name "info" |
| Sugar.AddWarnEvent | otel_sugar.go:57-63 | the helper with level name "warn" |
| Sugar.AddErrorEvent | otel_sugar.go:68-74 | the helper with level name "error" |
| Sugar.AddFatalEvent | otel_sugar.go:79-85 | the helper with level name "fatal" |
| Sugar.AddLevelEventToSpan | otel_sugar.go:91-99 | a span in the context that is not recording is untouched; a recording one gets the helper event |
| Sugar.AddDebugEventToSpan | otel_sugar.go:91-99 | the same, with level name "debug" |
| Sugar.AddInfoEventToSpan | otel_sugar.go:105-113 | the same, with level name "info" |
| Sugar.AddWarnEventToSpan | otel_sugar.go:119-127 | the same, with level name "warn" |
| Sugar.AddErrorEventToSpan | otel_sugar.go:133-141 | the same, with level name "error" |
| Sugar.AddFatalEventToSpan | otel_sugar.go:147-155 | the same, with level name "fatal" |
| EnvFilter.SplitEnv | src/otel_env.go:16 | splits an entry holding '=' at the first '=': the name holds no '=', and name + "=" + value is the entry |
| EnvFilter.SplitN | src/otel_env.go:16 | `strings.SplitN(e, "=", 2)`: one part, the whole entry, exactly when it holds no '='; otherwise two parts joined by the first '=' |
| EnvFilter.IsBlockedName | src/otel_env.go:40-44 | definition: the name equals an entry of `BlockedEnvVars`, ignoring case (its properties: `PinButNotPine`, `MustNotLogIgnoresCase`) |
| EnvFilter.HasBlockedSubstring | src/otel_env.go:46-50 | definition: the lower-cased name contains a lower-cased entry of `BlockedEnvVarSubstrings` (its properties: `SubstringBlocks`, `PineNotBlocked`) |
| EnvFilter.MustNotLogEnvVar | src/otel_env.go:38-53 | definition: blocked by name or by substring (its properties: `MustNotLogIgnoresCase`, `PineNotBlocked`, `SubstringBlocks`) |
| EnvFilter.ScanBlocklists | src/otel_env.go:38-53 | the two early-return loops of `MustNotLogEnvVar` answer true exactly when the name is blocked by name or by substring |
| EnvFilter.AddEntry | src/otel_env.go:15-23 | one pass of the loop: false exactly when the entry panics; otherwise the attributes grow by the entry's attribute, or not at all when its name is sensitive |
| EnvFilter.NoPanicMeans | src/otel_env.go:15-23 | the loop survives a list exactly when no single entry panics |
| EnvFilter.NoPanicAt | src/otel_env.go:16-22 | one panicking entry anywhere makes the whole loop panic |
| EnvFilter.CollectResourceAttributes | src/otel_env.go:12-31 | None (the panic of `pair[1]`) exactly when some entry holds no '=' and its name is not sensitive; otherwise the non-sensitive environment variables in order, then `cpuCount`, then `goVersion` |
| EnvFilter.EnvAttrsSafe | src/otel_env.go:15-23 | when nothing panics, no kept attribute has a sensitive name, and each comes from an entry of the environment |
| EnvFilter.EnvAttrsComplete | src/otel_env.go:15-23 | when nothing panics, every variable that is not sensitive holds '=' and is kept |
| EnvFilter.EnvAttrsKeepAll | src/otel_env.go:15-23 | when nothing panics and nothing is sensitive, every variable is kept, in order, as name and value |
| EnvFilter.MustNotLogIgnoresCase | src/otel_env.go:38-53 | the verdict is the same for a name and its lower-case form |
| EnvFilter.PinButNotPine | src/otel_env.go:40-44 | "PIN" and "pin" are blocked by name; "PINE" matches no name |
| EnvFilter.PineNotBlocked | src/otel_env.go:38-53 | "PINE" is not blocked at all |
| EnvFilter.SubstringBlocks | src/otel_env.go:46-50 | any name whose lower-case form contains a blocked substring is blocked |
| EnvFilter.SubstringBlocksExample | src/otel_env.go:46-50 | "AWS_Secret_Id" is blocked through the substring "secret" |
| EnvFilter.BareEntries | src/otel_env.go:16-22 | the bare entry "PINE" panics; the bare entry "PIN" is skipped before `pair[1]` is read, so it does not |
| Consts.DefaultsUsable | src/const.go:4-17 | every default key and both tags are non-empty and have no surrounding white space |
| Consts.DefaultsDistinct | src/const.go:5-16 | the two tags differ, and the span key differs from the context key |
| Consts.BlocklistSizes | src/const.go:21-68 | twenty exact names and twenty-one substrings |
| Consts.SubstringsLowerCase | src/const.go:46-68 | every blocked substring is lower-case |
| Levels.ZeroLevelIsInfo | otel_span_processor.go:114 | the zero `Level` is info |
| Levels.LevelName | zap_core.go:101 | the level name written on forwarded events is never empty |
| GoogleCloud.Severity | zap_google_cloud.go:62-74 | "DEFAULT" exactly for the levels other than the five named ones |
| GoogleCloud.GoogleCloudLevelEncoder | zap_google_cloud.go:58-77 | appends exactly one string, the severity of the level |
| GoogleCloud.SeverityRoundTrip | zap_google_cloud.go:62-74 | the severity of a named level reads back as that level; any other reads back as none |
| GoogleCloud.SeverityDistinct | zap_google_cloud.go:63-74 | the five named levels get five distinct severities |
| GoogleCloud.SeverityTable | zap_google_cloud.go:62-74 | DEBUG, INFO, WARNING, ERROR and ALERT for the five named levels; DEFAULT for DPanic and Panic |
| ColorConsole.ColorCode | zap_color_console.go:61-74 | the colour code always lies between 30 and 34 |
| ColorConsole.Label | zap_color_console.go:61-74 | exactly three characters; "LOG" exactly for the levels other than the five named ones |
| ColorConsole.ColoredLayout | zap_color_console.go:63 | escape, "[", the two digits, "m", the label, escape, "[0m", each at a fixed place |
| ColorConsole.ColorConsoleLevel | zap_color_console.go:60-74 | the written string has that layout, with the level's code and label |
| ColorConsole.ColorConsoleLevelEncoder | zap_color_console.go:55-77 | appends exactly one string, the coloured label of the level |
| ColorConsole.ColorTable | zap_color_console.go:62-73 | DBG/34, INF/32, WRN/33, ERR/31, FTL/31, and LOG/30 for every other level |
| ColorConsole.WrittenString | zap_color_console.go:63 | a level whose code is 3 followed by a digit d is written as ESC, "[3", d, "m", its label, ESC, "[0m" |
| ColorConsole.ColorStrings | zap_color_console.go:60-74 | the exact string written for each level: ESC "[34mDBG" ESC "[0m" for debug, "[32mINF" for info, "[33mWRN" for warn, "[31mERR" for error, "[31mFTL" for fatal, "[30mLOG" for any other level |
| ColorConsole.ColorConsoleDistinct | zap_color_console.go:61-74 | the strings of the five named levels are pairwise distinct |
| ColorConsole.ErrorFatalShareColour | zap_color_console.go:69-71 | error and fatal share a colour but not a label |
| Text.TrimSpace | otzap/zap_getters.go:6 | the result has no leading or trailing white space and is no longer than the input |
| Text.TrimSpaceInfix | otzap/zap_getters.go:6 | the result is a slice of the input with only white space outside it |
| Text.TrimOrDefault | otzap/zap_getters.go:5-12 | the trimmed string when not blank, otherwise the fallback; non-empty and trimmed when the fallback is |
| Text.TrimOrDefaultIdempotent | otzap/zap_getters.go:6-11 | applying the getter twice gives what applying it once gives |
| Text.TrimSpaceToLower | otel_span_processor.go:155 | trimming and lower-casing commute |
| Text.ToLower | src/otel_env.go:47 | same length, each character lower-cased |
| Text.MissingCharNotContained | src/otel_env.go:47 | a needle with a character absent from the text does not occur in it |
| Text.Decimal | zap_color_console.go:63 | at least one digit, all of them decimal, one digit exactly below ten, a leading '0' only for zero |
| Text.DecimalValue | zap_color_console.go:63 | the digits read back as the number written |
| Bridge.CoreEventDroppedByProcessor | otel_span_processor.go:130-137 | an event the core wrote reaches a processor sharing its source key and is not written back |
| Bridge.ProcessorRecordDroppedByCore | zap_core.go:111-116 | an entry the processor wrote, handed back to a core sharing its source key, is dropped and leaves the span unchanged |
| Bridge.DefaultsCloseTheLoop | otel_getters.go:30-46 | with nothing configured, both sides share "logEventSource", use the tags "zapApi" and "otelApi", and meet the conditions of both drop lemmas |
| Bridge.AttrSurvivesProcessor | otel_span_processor.go:108-111 | an attribute written as a field and copied back by the core keeps its key and value |
| Bridge.FieldSurvivesCore | zap_core.go:123-133 | a string, int64 or bool field copied as an attribute and written back is the same field |
| Bridge.LevelNameParses | otel_span_processor.go:161-171 | the name of each of the five named levels parses back to that level, whatever the default |
| Bridge.CoreLevelAttrParses | zap_core.go:101 | the level attribute of a forwarded event is under the level key and parses back to the entry's level |
| Bridge.SugarEventGated | otel_span_processor.go:117-147 | a helper event is written exactly when the logger accepts its level and info |

## Left out

- The OpenTelemetry SDK itself is not modelled beyond what the bridge
  observes. `RecordError` is modelled as a separate list of error
  records; the SDK really adds an exception event. `SetAttributes` is
  modelled as appending, without the SDK's de-duplication by key.
  `SetStatus` is modelled as replacing the status, without the SDK's
  status-precedence rules.
- `OnStart`, `ForceFlush`, `Shutdown`, `Sync`, and `Check` at
  zap_core.go:72-77 are trivial hooks or calls into zap.
- zap_init.go, `NewGoogleCloudCore`, `NewPrettyConsoleCore`,
  `PrintEnvVars`, cloud detection and zap_aws.go are not part of this
  model. They are I/O or configuration of libraries outside the
  repository.
- Unicode: `TrimSpace`, `ToLower`, `EqualFold` and `Contains` are modelled
  on ASCII letters and ASCII white space only.
- `fmt.Sprintf("%v")` is the `render` parameter. The event time and the
  conversion to UTC are opaque values. The hex span and trace ids are
  strings carried by the span context.
- Floating-point fields go through the `render` branch, as in the code;
  the commented-out float path is not modelled.
- ZapCore.CopyFields: a bool payload is modelled directly. The panic of
  `f.Interface.(bool)` at zap_core.go:133, which depends on zap's field
  layout, is not modelled.
- Telemetry.Logger.Check: modelled as the core's `enabled` test. zap's
  handling of DPanic, Panic and Fatal entries inside `Check` is not
  modelled.
- Levels.LevelName: for levels outside the seven zap defines, the exact
  text is modelled as `Level(<n>)`; nothing depends on it.
- SpanProcessor.LogEvent and SpanProcessor.OnEnd require a logger
  (configured or global). The code dereferences it without a check, and
  `zap.L()` is never nil in Go.
- `os.Environ()`, `runtime.NumCPU()` and `runtime.Version()` are
  parameters of `CollectResourceAttributes`. The CPU count is modelled as
  an `int64` attribute. The index-out-of-range panic on an entry without
  '=' is modelled as the result None, not as a crash of the process.
- SpanProcessor.CopyEventAttrs: attribute values are modelled as strings,
  int64 and bools only. OpenTelemetry's float64 attributes and its slice
  attributes (bool, int64, float64 and string slices) are not modelled. The
  code copies them with `zap.Any`, among the span attributes
  (otel_span_processor.go:110) and the event attributes (line 139).
  `AsString` reads them as "". So under the level key (line 120) they
  select the default level, and they never match a source tag (line 131).
- The loops of `AddEventToSpan`, `Write` and `LogEvent` are split into
  helper methods (`CopyFields`, `FindDecider`, `PrefixFields`,
  `CopyEventAttrs`). The getters are pure, so each method reads them once.
- `zap.L()` is the `global` parameter. The process-wide state behind it is
  not modelled.
