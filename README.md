# A verified model of a structured-logging facade

This project models the core of a small Go logging library. The library has:

- a 25-value severity scale following the OpenTelemetry Logs Data Model;
- attributes, a list of name/value pairs attached to an entry;
- an immutable `Entry` record with trace correlation and resource metadata;
- an entry factory that reads the span context and the resource from a `context.Context`;
- a `Sink` interface with `LogEntry` and `Sync`;
- four sink implementations: two identical stdout formatters (`SimpleSink`, `SimpleLogger`),
  a Google Cloud Logging client adapter, and a writer adapter that encodes one Cloud Logging
  structured-logging JSON object per line;
- a leveled API (`Print` … `Emergency`), both as package functions over `DefaultSink` and as
  methods of a `Logger` bound to a sink. `Fatal` logs, syncs, and then panics or exits.

Layout, one module per source file, plus three helper modules (`Decimal`, `Printing`, `Wrappers`):

| file | module | models |
|---|---|---|
| decimal.dfy | `Decimal` | `strconv.Itoa`, and a decimal reader used to prove it loses nothing |
| severity.dfy | `SeverityScale` | severity.go |
| attribute.dfy | `AttributeModel` | attribute.go, and the `interface{}` values the library carries |
| entry.dfy | `EntryModel` | entry.go |
| printing.dfy | `Printing` | the `fmt` verbs `%v`/`%s` and time formatting that the sinks use |
| simple.dfy | `SimpleSinks` | the line built by simple_sink.go and simple_logger.go |
| gcp.dfy | `Gcp` | sinks/gcp/gcp.go: severity table, labels, client entry, JSON object |
| sink.dfy | `Sinks` | sink.go and the effects of all four `LogEntry`/`Sync` implementations |
| log.dfy | `LogPackage` | log.go: `createEntry`, tier severities, `Fatal`, `DefaultSink` |
| logger.dfy | `Loggers` | logger.go: `Logger` |
| wrappers.dfy | `Wrappers` | `Option`, standing for a Go `error` result (None is nil) |

How the Go constructs are represented:

- The `Sink` interface is a single class, `Sinks.Sink`. Its `kind` field selects which of the
  four implementations it behaves as.
- The ghost field `calls` records every `LogEntry` and `Sync` call made on the sink.
- The field `output` records what the sink produced: a stdout line, a `Log` or `Flush` call on
  the logging client, or a JSON object written to the writer.
- The leveled methods are specified by the twostate predicates `LoggedOnce` and
  `LoggedThenSynced`. These say exactly which calls were added and which output was produced.
- `DefaultSink` is the field `defaultSink` of the class `LogPackage.Package`, which holds the
  package's global state.
- `panic` and `os.Exit(1)` are the values `Panicked(err)` and `Exited(1)` of the datatype
  `Termination`, which `Fatal` returns.
- Go distinguishes a nil slice from an empty non-nil slice. `Attributes` is therefore
  `NilAttributes | Slice(elems)`.
- The clock is the `now: Instant` parameter of `CreateEntry`.
- The span context and the resource lookup are the `Context` record: trace id, span id,
  sampled bit, and resource.
- The cloud client's `Flush` result is the `clientFlush` parameter of `Sync` and `Fatal`.
- `Printing.Formats` holds the renderings that come from outside the library: RFC3339 and
  RFC3339Nano formatting, `%v`/`%s` of opaque values, and the cloud library's severity names.
- `%v` and `%s` are defined concretely for strings, values of Go type `int`, booleans, errors and nil, as the
  `fmt` package documents them. Everything else is an opaque token rendered by `Formats`.
- `TraceFlags` is `bv8`, Go's `byte`. `TraceFlagsSampled` is `1 << 1 = 2`, because it is
  declared as `1 << iota` on the second line of its const block. The W3C trace-context
  sampled bit is 1, but the library only uses the value internally, so no behaviour depends
  on the difference.

Facts about the code that the model keeps:

- The stdout sinks omit the parenthetical only when the attribute slice is nil (simple_sink.go:19).
  An empty non-nil slice prints ` ()` (`SimpleSinks.NilAndEmptyDiffer`, `SimpleSinks.LineWithAttributes`).
- Trace and span ids are copied verbatim from the span context (log.go:95-97). When no span is
  active, the tracing library renders an all-zero hex id. The model promises nothing about emptiness.
- The backend severity scale has nine levels, from Default to Emergency.
- Both cloud sinks set the trace fields only when the sampled bit is set (sinks/gcp/gcp.go:91, 118).
- `severityMap[e.Severity]` on a severity outside 0..24 yields Go's zero value,
  `logging.Default`. `Gcp.MapSeverity` models this, so the map is monotone only on the 25
  named severities.

## Model

| member | source | states |
|---|---|---|
| `Decimal.Itoa` | severity.go:73 | the fallback rendering is a decimal numeral (optional '-', then digits), with a '-' exactly for negative values and no leading zero except for 0 itself |
| `Decimal.ParseItoa` | severity.go:73 | reading the decimal text back gives the original integer, so the rendering loses nothing |
| `Decimal.ItoaInjective` | severity.go:73 | distinct integers render to distinct text |
| `SeverityScale.SeverityString` | severity.go:67-74 | String is total and never returns the empty string |
| `SeverityScale.DeclaredConsecutive` | severity.go:10-36 | the 25 constants in declaration order are exactly 0, 1, …, 24, so later means more severe |
| `SeverityScale.NamedAreDeclared` | severity.go:38-64 | the name table has an entry for a value iff it is in 0..24 |
| `SeverityScale.SeverityStringNamedTrace` | severity.go:39-43 | NONE and TRACE1 … TRACE4 render as their table names |
| `SeverityScale.SeverityStringNamedDebugInfo` | severity.go:44-51 | DEBUG1 … DEBUG4 and INFO1 … INFO4 render as their table names |
| `SeverityScale.SeverityStringNamedWarnError` | severity.go:52-59 | WARN1 … WARN4 and ERROR1 … ERROR4 render as their table names |
| `SeverityScale.SeverityStringNamedFatal` | severity.go:60-63 | FATAL1 … FATAL4 render as their table names |
| `SeverityScale.SeverityStringFallback` | severity.go:73 | any value below 0 or above 24 renders as its decimal form |
| `SeverityScale.NamesAreNotNumerals` | severity.go:38-64 | no table name is a decimal numeral, so it can never be mistaken for a fallback |
| `SeverityScale.NamesDistinct` | severity.go:38-64 | the 25 table names are pairwise distinct |
| `SeverityScale.SeverityStringInjective` | severity.go:67-74 | String maps distinct severities, named or not, to distinct strings |
| `AttributeModel.A` | attribute.go:15-20 | the attribute has exactly the given name and value |
| `AttributeModel.E` | attribute.go:23-28 | the attribute is named "error" and holds the error |
| `AttributeModel.ErrorIsNamedAttribute` | attribute.go:23-28 | E(err) is the same attribute as A("error", err) |
| `EntryModel.IsSampled` | sinks/gcp/gcp.go:91 | the sampled test `flags & TraceFlagsSampled != 0` holds exactly when bit 1 of the byte is set, read arithmetically as `(flags / 2) % 2 == 1` (also gcp.go:118); TraceFlagValues states its value on the two constants |
| `EntryModel.TraceFlagValues` | entry.go:12-18 | None is 0, Sampled is 2, their AND is 0, and only Sampled passes the sampled test |
| `Printing.VerbsAgreeOnText` | sinks/gcp/gcp.go:115 | %v (stdout body) and %s (JSON message) agree exactly for strings and errors, and differ for ints, bools and nil |
| `SimpleSinks.Join` | simple_sink.go:24 | the definition of `strings.Join`; its contract says a non-empty join starts with the first part, and JoinLength and JoinCons state its length and its order |
| `SimpleSinks.JoinLength` | simple_sink.go:24 | joining n parts adds exactly n-1 separators and nothing else |
| `SimpleSinks.JoinCons` | simple_sink.go:24 | joining keeps the parts in order: first part, separator, then the join of the rest |
| `SimpleSinks.RenderAll` | simple_sink.go:20-23 | the i-th rendered string is "name: value" of the i-th attribute, one per attribute |
| `SimpleSinks.Line` | simple_sink.go:15-26 | the definition of the printed line; its contract says the line starts with timestamp, severity name and body, and is exactly that long iff the attribute slice is nil. LineWithoutAttributes, LineWithAttributes, NilAndEmptyDiffer and AttributesInOrder state the rest |
| `SimpleSinks.BuildLine` | simple_sink.go:15-25 | the line accumulated with `+=` and the indexed loop equals `SimpleSinks.Line` |
| `SimpleSinks.LineWithoutAttributes` | simple_sink.go:16-19 | with nil attributes the line is timestamp, " ", severity name, " ", body, and nothing more |
| `SimpleSinks.LineWithAttributes` | simple_sink.go:19-25 | a non-nil slice appends " (" + joined renderings + ")"; an empty one appends " ()" |
| `SimpleSinks.NilAndEmptyDiffer` | simple_logger.go:19 | a nil slice and an empty non-nil slice give different lines, because the code tests nil and not length |
| `SimpleSinks.AttributesInOrder` | simple_logger.go:20-24 | the first attribute follows " (" directly, then ", " and the others in input order |
| `Gcp.MapSeverity` | sinks/gcp/gcp.go:82 | the definition of `severityMap[e.Severity]`: a severity in 0..24 gets its table entry, any other gets Default, the zero value of the missing key (also gcp.go:114). SeverityMapTotal, MapSeverityMonotone and MapSeverityOnto state the table's shape |
| `Gcp.SeverityMapTotal` | sinks/gcp/gcp.go:30-56 | the table has an entry for each of the 25 severities and for nothing else |
| `Gcp.MapSeverityUnnamed` | sinks/gcp/gcp.go:82 | a severity outside 0..24 maps to Default, the zero value of the missing key |
| `Gcp.MapSeverityMonotone` | sinks/gcp/gcp.go:30-56 | on the named severities, more severe never maps to a lower backend level |
| `Gcp.MapSeverityOnto` | sinks/gcp/gcp.go:30-56 | each of the nine backend levels is the image of some named severity |
| `Gcp.Labels` | sinks/gcp/gcp.go:76-79 | the definition of the label map after the attributes are assigned one by one; its contract says it has at most one label per attribute. LabelKeys and LabelLastWins pin down its keys and values (also gcp.go:107-110) |
| `Gcp.LabelKeys` | sinks/gcp/gcp.go:76-79 | the label map's keys are exactly the attribute names |
| `Gcp.LabelLastWins` | sinks/gcp/gcp.go:76-79 | for a repeated name, the %v of the last attribute carrying it is kept |
| `Gcp.BuildLabels` | sinks/gcp/gcp.go:107-110 | the in-place loop over the attributes builds exactly `Gcp.Labels` of them (both LogEntry methods use it) |
| `Gcp.TraceName` | sinks/gcp/gcp.go:92 | the trace name is "projects/" + id + "/traces/" + trace id, 17 characters longer than its parts |
| `Gcp.TraceNameInjective` | sinks/gcp/gcp.go:120 | within one project, the trace name determines the trace id |
| `Gcp.CloudEntryOf` | sinks/gcp/gcp.go:80-95 | the entry keeps the timestamp, mapped severity, raw body and labels; trace, span and sampled are set iff the sampled bit is set, and are zero values otherwise |
| `Gcp.BuildCloudEntry` | sinks/gcp/gcp.go:75-95 | the step-by-step construction, with its conditional field updates, yields CloudEntryOf |
| `Gcp.WriterObject` | sinks/gcp/gcp.go:112-122 | the definition of the JSON map; its contract says the four base keys are always present and the trace key is present iff the sampled bit is set. WriterObjectKeys and WriterObjectValues state the exact keys and values |
| `Gcp.BuildWriterObject` | sinks/gcp/gcp.go:106-122 | the map literal plus the conditional inserts yields exactly `Gcp.WriterObject` |
| `Gcp.WriterObjectKeys` | sinks/gcp/gcp.go:112-122 | exactly the 4 fixed keys when unsampled; those plus spanId, trace and trace_sampled (7 keys) when sampled |
| `Gcp.WriterObjectValues` | sinks/gcp/gcp.go:113-121 | message is %s of the body, severity is the backend name of the mapped level, labels are the label map; when sampled, trace is the project-scoped name, the span id is copied and trace_sampled is true |
| `Sinks.Emitted` | sink.go:8 | the effect of one LogEntry: a stdout line for SimpleSink and SimpleLogger (simple_sink.go:26, simple_logger.go:26), a client Log for the client adapter (gcp.go:97), a writer line for the writer adapter (gcp.go:126), and never a flush |
| `Sinks.SyncEffect` | sink.go:11 | the effect of one Sync: at most one, always a flush, and present iff the sink is the client adapter (gcp.go:101-103); the other sinks' Sync does nothing (simple_sink.go:30-32, gcp.go:133-135) |
| `Sinks.SyncResult` | sinks/gcp/gcp.go:101-103 | the cloud client adapter's Sync returns exactly the client's flush result; every other sink returns a nil error (simple_sink.go:30-32, gcp.go:133-135) |
| `Sinks.SimpleLoggerIsSimpleSink` | simple_logger.go:15-32 | SimpleLogger logs and syncs exactly as SimpleSink does |
| `Sinks.Sink.constructor` | sinks/gcp/gcp.go:59-72 | a new sink has the chosen kind and renderings, and has made no calls and produced no output |
| `Sinks.Sink.LogEntry` | sink.go:8 | one call is recorded and exactly one effect is produced: a stdout line, a client Log of CloudEntryOf, or a writer object |
| `Sinks.Sink.Sync` | sinks/gcp/gcp.go:101-103 | one Sync is recorded; the client adapter flushes and returns the client's result; the other sinks change nothing and return nil (also simple_sink.go:30-32, gcp.go:133-135) |
| `LogPackage.CreateEntry` | log.go:94-113 | severity, body and attributes are the inputs unchanged; trace and span ids are copied; flags are Sampled iff the span is sampled, else None; resource is the context's |
| `LogPackage.CreatedEntrySampled` | log.go:98-101 | the sinks' sampled test on a created entry holds exactly when the span context is sampled |
| `LogPackage.TiersIncreasing` | log.go:18-91 | the severities of Print … Emergency strictly increase in declaration order |
| `LogPackage.TiersOnCloudScale` | log.go:18-91 | on the cloud scale the tiers reach all nine backend levels; only Critical and Fatal share one |
| `LogPackage.FatalOutcome` | log.go:72-76 | a sync error leads to a panic with that error; otherwise the process exits with status 1 |
| `LogPackage.FatalPanicsOnlyOnFlushFailure` | log.go:70-77 | among the library's four sinks, Fatal panics only when the sink is the cloud client adapter and its flush fails |
| `LogPackage.Package.constructor` | log.go:13 | DefaultSink starts out as a fresh SimpleSink that uses the given renderings |
| `LogPackage.Package.Print` | log.go:18-20 | one LogEntry of an entry at Trace1, no Sync |
| `LogPackage.Package.Debug` | log.go:25-27 | one LogEntry of an entry at Debug1, no Sync |
| `LogPackage.Package.Info` | log.go:32-34 | one LogEntry of an entry at Info1, no Sync |
| `LogPackage.Package.Notice` | log.go:39-41 | one LogEntry of an entry at Info2, no Sync |
| `LogPackage.Package.Warning` | log.go:46-48 | one LogEntry of an entry at Warn1, no Sync |
| `LogPackage.Package.Error` | log.go:53-55 | one LogEntry of an entry at Error1, no Sync |
| `LogPackage.Package.Critical` | log.go:60-62 | one LogEntry of an entry at Error3, no Sync |
| `LogPackage.Package.Fatal` | log.go:70-77 | LogEntry at Fatal1, then Sync, nothing else; the outcome is a panic on a sync error and exit(1) otherwise |
| `LogPackage.Package.Alert` | log.go:82-84 | one LogEntry of an entry at Fatal2, no Sync |
| `LogPackage.Package.Emergency` | log.go:89-91 | one LogEntry of an entry at Fatal4, no Sync |
| `LogPackage.InfoHelloLines` | simple_sink.go:15-26 | Info("hello") prints "<time> INFO1 hello" with nil attributes, and adds " (x: 5)" for the attribute x = 5 |
| `LogPackage.ContextReachesWriter` | sinks/gcp/gcp.go:106-122 | an entry created in a context reaches the writer with trace keys exactly when the span is sampled, with the message and the ids intact |
| `LogPackage.ContextReachesClient` | sinks/gcp/gcp.go:75-95 | the client entry of a created entry carries the payload and the trace fields exactly when the span is sampled, and none otherwise |
| `Loggers.Logger.constructor` | logger.go:14-18 | NewLogger returns a Logger whose sink is the given sink |
| `Loggers.Logger.Print` | logger.go:23-25 | one LogEntry at Trace1 on the Logger's sink, no Sync; the Logger is unchanged |
| `Loggers.Logger.Debug` | logger.go:30-32 | one LogEntry at Debug1, no Sync; the Logger is unchanged |
| `Loggers.Logger.Info` | logger.go:37-39 | one LogEntry at Info1, no Sync; the Logger is unchanged |
| `Loggers.Logger.Notice` | logger.go:44-46 | one LogEntry at Info2, no Sync; the Logger is unchanged |
| `Loggers.Logger.Warning` | logger.go:51-53 | one LogEntry at Warn1, no Sync; the Logger is unchanged |
| `Loggers.Logger.Error` | logger.go:58-60 | one LogEntry at Error1, no Sync; the Logger is unchanged |
| `Loggers.Logger.Critical` | logger.go:65-67 | one LogEntry at Error3, no Sync; the Logger is unchanged |
| `Loggers.Logger.Fatal` | logger.go:75-82 | LogEntry at Fatal1, then Sync, then a panic on a sync error and exit(1) otherwise; the sink is not reassigned |
| `Loggers.Logger.Alert` | logger.go:87-89 | one LogEntry at Fatal2, no Sync; the Logger is unchanged |
| `Loggers.Logger.Emergency` | logger.go:94-96 | one LogEntry at Fatal4, no Sync; the Logger is unchanged |

## Left out

- The mutex in `WriterSink` (sinks/gcp/gcp.go:27, 124-125) is left out. It only serialises concurrent writers, and the model is sequential.
- JSON encoding, the `io.Writer`, and the panic on an encode failure (sinks/gcp/gcp.go:126-129) are left out, because they are foreign I/O. The model stops at the `map[string]interface{}`, which it records as one `WriterLine` output.
- The Cloud Logging client is not modelled. Its `Log` call is recorded as a `ClientLog` output and its `Flush` as a `ClientFlush` output. The flush result is a parameter, and the names of its severities are a parameter (`Formats.backendSeverityName`).
- `time.Now().UTC()` is the `now` parameter. RFC3339 and RFC3339Nano formatting are parameters of `Formats`. So is `%v`/`%s` of any value other than a string, integer, boolean, error or nil.
- OpenTelemetry span-context extraction and `resource.FromContext` are not modelled. Their results are the `Context` record.
- resource/resource.go is not part of this model beyond the `Resource` map type.
- The `ctx` argument of `Sink.LogEntry` and `Sink.Sync` is left out, because no sink reads it.
- The process effect of `os.Exit` and `panic` is left out. Both are returned as `Termination` values. A caller that recovers the panic is outside the model.
- The 64-bit width of `Severity` (a Go `int`) is not modelled. Severities are unbounded integers, which gives the same `String` on every value a 64-bit `int` can hold.
- Only the library's four sinks are modelled. `Sink` is an open Go interface (sink.go:6-12), so `NewLogger` and `DefaultSink` accept any implementation. A user sink, for example one whose `Sync` returns an error and so makes `Fatal` panic, is outside the model.
- `AttributeModel.E`: an `E(nil)` attribute is not a separate case. In Go it holds a nil interface, which is `A("error", Nil)` here.
- examples/hello/main.go is an example program and is not modelled.
