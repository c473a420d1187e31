# otelkit in Dafny

otelkit is a thin convenience layer over the OpenTelemetry Go SDK. It is one `OTelKit` handle that:

- creates the trace, metric and log pipelines from a `Config`;
- wraps user callbacks in spans;
- emits leveled logs to a local `slog` logger and to the OpenTelemetry logs API, with trace correlation;
- records a few standard metrics;
- provides an HTTP middleware and operation wrappers (database, cache, external call, batch, conditional, timed).

This project models the decision rules and envelope semantics the kit itself defines. The SDK is replaced throughout by abstract outcomes.

Modules:

- `Telemetry` (telemetry.dfy): shared values. These are `Option`, `Result`, a Go `error` seen as its message, the `%w` wrapping `Wrap`, attribute values, levels and signals.
- `Configuration` (config.dfy): `DefaultConfig` over an explicit environment map.
- `Exporters` (exporters.dfy): the three `create*Exporter` selections. The SDK constructors become a `Constructor` function that says whether building a backend fails.
- `Tracing` (tracing.dfy): a `Span` class (name, parent, attributes, events, status, number of `End` calls), the context as an optional current span, and the context operations. It also has the user callback as a `Body`: the attributes and events it adds, and the error it returns.
- `Logging` (logging.dfy): `slog` attributes by kind, `convertSlogAttr`, and the record `emitOTelLog` builds.
- `OTelKitCore` (kit.dfy): the `Kit` class and the pure functions its operations are proved against.
  - `New` and the `init*` steps, against the SDK outcomes in an `Sdk` value.
  - `Shutdown`, `TraceFunction` and `TraceHTTPHandler`.
  - The metric and logging calls. What the kit hands to the SDK (spans started, measurements, local and OpenTelemetry log entries) is kept in sequences on the kit.
- `Middleware` (middleware.dfy): `responseWriter`, `HTTPMiddleware` serving one request, and the six wrappers. Elapsed time is an explicit nanosecond parameter.

Two behaviours of the source are preconditions rather than patched:

- `Tracing.RecordError` requires a non-nil error, because the source calls `err.Error()` unconditionally.
- `Middleware.HTTPMiddleware` requires the local logger to exist, because the completion log is written through `o.logger` with no nil check. The other log calls check for nil.

`HTTPMiddleware` also requires every status code the handler writes to be between 100 and 999. Go's `http.ResponseWriter.WriteHeader` panics on any other code.

## Model

| member | source | states |
|---|---|---|
| Telemetry.Wrap | otelkit.go:264 | `fmt.Errorf("<context>: %w", e)`: the message is the context, then ": ", then the cause's message, with the lengths stated |
| Configuration.GetEnvOrDefault | otelkit.go:879-884 | the value when the variable is set and non-empty; otherwise the default, with an empty value treated like a missing one |
| Configuration.ParseLogLevel | otelkit.go:202-210 | "debug", "warn" and "error" give their levels, each as an iff; every other string, unknown ones included, gives Info |
| Configuration.DefaultConfig | otelkit.go:201-229 | every string field is the environment value when set, else its documented default; each flag is true iff its value is exactly "true", with defaults false/true/true; the level is parsed permissively; PrometheusPort is 9090 and SampleRate is 0.1 whatever the environment |
| Configuration.EmptyEnvironmentDefaults | otelkit.go:212-228 | for an empty environment the whole Config is: unknown-service, 1.0.0, development, stdout traces, the Jaeger and OTLP defaults, prometheus metrics, stdout logs, Info |
| Configuration.IdentityFieldsNonEmpty | otelkit_test.go:114-124 | service name, version and environment are never empty, for any environment |
| Configuration.NonExactFlagDisables | otelkit.go:220-222 | a flag variable set to any non-empty value other than "true" turns Debug, EnableMetrics and EnableLogs off |
| Exporters.OtlpEndpoint | otelkit.go:778-781 | an empty endpoint becomes "localhost:4318"; a non-empty one is kept |
| Exporters.CreateTraceExporter | otelkit.go:772-796 | tags are exactly jaeger/otlp/stdout/none; any other tag gives "unsupported trace exporter type: <tag>"; none gives no exporter and no error; a constructor failure is returned; a success is built with the configured Jaeger URL, or the OTLP endpoint and /v1/traces |
| Exporters.CreateMetricsExporter | otelkit.go:799-837 | the same rule, over exactly otlp/prometheus/stdout/none, with /v1/metrics |
| Exporters.CreateLogsExporter | otelkit.go:840-866 | the same rule, over exactly otlp/stdout/none, with /v1/logs |
| Exporters.AcceptedTags | otelkit.go:772-866 | the accepted tags per signal as explicit sets, so "" and cross-signal tags (jaeger for logs, prometheus for traces) are rejected |
| Exporters.SelectedBackendSupported | otelkit.go:772-866 | any exporter a selection yields comes from a non-none accepted tag, for a backend its signal supports |
| Tracing.Span.SetAttributes | otelkit.go:466-469 | appends to a recording span's attributes; no-op on an ended span; nothing else changes |
| Tracing.Span.AddEvent | otelkit.go:440-443 | appends one event to a recording span; nothing else changes |
| Tracing.Span.RecordError | otelkit.go:399 | adds the exception event and leaves the status alone |
| Tracing.Span.SetError | otelkit.go:400 | a recording span's status becomes Error with the description |
| Tracing.Span.End | otelkit.go:391 | counts one more end and changes nothing else |
| Tracing.SetAttributes | otelkit.go:466-469 | attributes go to the context's span; no-op without one |
| Tracing.AddEvent | otelkit.go:440-443 | the event goes to the context's span; no-op without one |
| Tracing.RecordError | otelkit.go:486-490 | requires a non-nil error; adds the exception event and sets Error(message) on a recording span; no-op without a span |
| Tracing.RunBody | otelkit.go:397 | calling the callback: the error is returned unchanged, and its attributes then events are appended to the context's span |
| Logging.ErrorAttr | otelkit.go:575 | `slog.Any("error", err)`: key "error", an any-kind value, converted for OpenTelemetry to the error's message, or "<nil>" for a nil error |
| Logging.Correlation | otelkit.go:676-682 | trace_id then span_id of the context's span, as strings, when it has one; nothing otherwise |
| Logging.ConvertSlogAttr | otelkit.go:689-703 | the key is kept; string/int64/float64/bool keep kind and value; every other kind becomes its string rendering |
| Logging.ConvertRoundTrip | otelkit.go:689-703 | converting an attribute built from an attribute value gives that key and value back |
| Logging.ConvertAll | otelkit.go:671-673 | converts every attribute, same length, in input order |
| Logging.OTelRecord | otelkit.go:659-686 | the record carries the given severity and the message as body, then the converted attributes in input order, then trace_id and span_id exactly when the context has a span |
| Logging.BuildLogRecord | otelkit.go:664-684 | the loop that builds the record attribute by attribute yields `OTelRecord` |
| OTelKitCore.FirstFailing | otelkit.go:968-1009 | how many instruments register before the first failure: all earlier ones succeed and the one at that position fails |
| OTelKitCore.TracingFailure | otelkit.go:887-892 | `initTracing` fails iff the trace exporter cannot be created, with that error wrapped as "failed to create trace exporter" |
| OTelKitCore.InstrumentsFailure | otelkit.go:968-1009 | `initMetricsInstruments` fails iff some instrument's registration fails |
| OTelKitCore.MetricsFailure | otelkit.go:926-959 | `initMetrics` fails iff the exporter or an instrument fails; an exporter failure is reported, wrapped, ahead of the instruments |
| OTelKitCore.LoggingFailure | otelkit.go:1012-1043 | `initLogging` fails iff the exporter fails or, with LogFilePath set, the file cannot be opened; an exporter failure is reported, wrapped, first |
| OTelKitCore.TracerProviderFor | otelkit.go:895-907 | ratio sampling at SampleRate with an exporter; NeverSample exactly when there is none |
| OTelKitCore.InitFailure | otelkit.go:260-296 | New succeeds iff the resource, tracing, metrics (only when enabled) and logs (only when enabled) all succeed; a resource failure is reported first |
| OTelKitCore.DisabledMetricsTagIgnored | otelkit.go:276-281 | with metrics disabled, the metrics exporter tag, even an invalid one, does not change the outcome of New, whatever logs do |
| OTelKitCore.DisabledLogsTagIgnored | otelkit.go:283-288 | with logs disabled, the logs exporter tag, even an invalid one, does not change the outcome of New, whatever metrics do |
| OTelKitCore.DisabledSignalsIgnored | otelkit.go:276-288 | with both disabled, neither tag changes the outcome of New |
| OTelKitCore.MetricsFailureReportedBeforeLogs | otelkit.go:276-288 | with tracing fine and metrics enabled and failing, New reports the metrics failure, whatever logging would do |
| OTelKitCore.TracingFailureReportedFirst | otelkit.go:271-274 | a tracing failure is what New reports, whatever later stages would do |
| OTelKitCore.NoneTracesWithSignalsOffInitialises | otelkit_test.go:127-150 | the test's custom config (none traces, other fields zero) initialises whenever the resource builds |
| OTelKitCore.ShutdownFailuresEmpty | otelkit.go:313-343 | no failure is collected iff no attempted provider failed |
| OTelKitCore.ShutdownFailuresFaithful | otelkit.go:314-335 | every collected error is some attempted provider's failure wrapped with its context, and every attempted provider's failure is collected |
| OTelKitCore.JoinMessagesEnds | otelkit.go:339 | the `%v` rendering of the error slice starts with the first message and ends with the last |
| OTelKitCore.CombinedFormat | otelkit.go:339 | the combined error reads "shutdown errors: [", the joined messages, "]"; for one failure, exactly that message in brackets |
| OTelKitCore.ShutdownFailuresAppend | otelkit.go:313-343 | failures are collected in attempt order: the failures of a + b are those of a followed by those of b |
| OTelKitCore.EnvelopeStatus | otelkit.go:398-402 | the span status is Error iff the body failed, with the error's message as description |
| OTelKitCore.Kit.constructor | otelkit.go:267-269 | a kit with only its config: no providers, instruments or loggers |
| OTelKitCore.Kit.New | otelkit.go:260-296 | the error equals `InitFailure`; no kit iff an error; a returned kit holds the tracer provider, the meter provider and the four instruments iff metrics are enabled, and the logger and loggers iff logs are enabled |
| OTelKitCore.Kit.InitTracing | otelkit.go:887-923 | the error is the wrapped trace-exporter failure; on success the tracer provider is `TracerProviderFor` the selected exporter |
| OTelKitCore.Kit.InitMetrics | otelkit.go:926-965 | the error is a wrapped exporter or instruments failure; the meter provider is set only on success, and then all four instruments are registered |
| OTelKitCore.Kit.InitMetricsInstruments | otelkit.go:968-1009 | registers the four instruments in order up to the first failure (`FirstFailing`); the error names the failing instrument and kind |
| OTelKitCore.Kit.InitLogging | otelkit.go:1012-1065 | the error is the wrapped logs-exporter failure, or the log-file failure when LogFilePath is set; on success the logger provider and both loggers are set |
| OTelKitCore.Kit.Present | otelkit.go:317-335 | the signals whose provider is present, each iff its provider is set |
| OTelKitCore.Kit.Shutdown | otelkit.go:313-343 | every present provider is attempted, in the order tracer, meter, logger; the result is nil iff none failed; otherwise "shutdown errors: [...]" over one wrapped error per failure, in attempt order |
| OTelKitCore.Kit.StartSpan | otelkit.go:362-364 | a fresh span, child of the context's span, with the start attributes, recorded by the tracer |
| OTelKitCore.Kit.TraceFunction | otelkit.go:389-404 | the body's error is returned unchanged; the new span has the given name and parent, the caller's attributes before the body's, the body's events plus an exception event iff it failed, status Error(message) iff it failed, and it is ended exactly once |
| OTelKitCore.Kit.TraceHTTPHandler | otelkit.go:421-425 | the same envelope, with the span named "http." + handlerName |
| OTelKitCore.Kit.RecordMetric | otelkit.go:634-639 | adds `value` with the caller's attributes followed by operation_type; no-op without the business counter |
| OTelKitCore.Kit.RecordHTTPMetrics | otelkit.go:642-656 | one count and one duration measurement with method and status_code, each only when its instrument exists |
| OTelKitCore.Kit.IncrementActiveSpans | otelkit.go:706-710 | +1 on the gauge; no-op without it |
| OTelKitCore.Kit.DecrementActiveSpans | otelkit.go:713-717 | -1 on the gauge; no-op without it |
| OTelKitCore.Kit.EmitOTelLog | otelkit.go:659-686 | no-op without the OpenTelemetry logger; otherwise exactly the record `OTelRecord` is emitted |
| OTelKitCore.Kit.Log | otelkit.go:554-622 | the shared shape of the four log calls: one entry to the local logger iff it exists, and the converted record at the matching severity to the OpenTelemetry logger iff it exists |
| OTelKitCore.Kit.LogInfo | otelkit.go:554-562 | an Info entry to the local logger when present, and the Info record to the OpenTelemetry logger when present |
| OTelKitCore.Kit.LogWarn | otelkit.go:614-622 | the same at Warn |
| OTelKitCore.Kit.LogDebug | otelkit.go:595-603 | the same at Debug |
| OTelKitCore.Kit.LogError | otelkit.go:574-584 | the same at Error, with the "error" attribute after the caller's attributes (a nil error allowed) |
| OTelKitCore.Kit.LogAttrs | middleware.go:94-100 | a direct call on the local logger: requires it to exist and appends one entry |
| Middleware.ResponseWriter.constructor | middleware.go:62 | the wrapper starts at status 200 around the given writer |
| Middleware.ResponseWriter.WriteHeader | middleware.go:129-132 | the recorded status becomes the code, overwriting the previous one, and the code is forwarded to the underlying writer |
| Middleware.FinalStatus | middleware.go:62 | the status after a run of writes: the last code written, or the initial 200 when none was; valid codes give a valid code |
| Middleware.ServeHTTP | middleware.go:65 | the handler's writes are forwarded in order and the last one is the captured status; its attributes and events go to the request span |
| Middleware.CompletionLevel | middleware.go:87-92 | Error iff the status is >= 500, Warn iff it is 400–499, Info iff it is below 400 |
| Middleware.CompletionLevelMonotone | middleware.go:87-92 | a higher status never gets a milder completion level |
| Middleware.DecimalString | middleware.go:69 | `strconv.Itoa`: a non-empty string of decimal digits with no leading zero, except for 0 itself |
| Middleware.DecimalRoundTrip | middleware.go:69 | the status_code string reads back as the status code |
| Middleware.StatusTextPhrases | middleware.go:74-80 | `http.StatusText` samples: 404 "Not Found", 500 "Internal Server Error", 506 "Variant Also Negotiates" |
| Middleware.RequestStatus | middleware.go:79-81 | the span status is Error iff the final status is >= 400, with the status text as description |
| Middleware.RequestSlogRecords | middleware.go:54-109 | the local entries for one request: first "HTTP request started" at Info with the four request attributes, "completed" at `CompletionLevel`, and a third, "failed" at Error with a nil error, iff the status is >= 400 |
| Middleware.RequestOTelRecords | middleware.go:54-109 | the OpenTelemetry records for one request: "started" at Info, plus "failed" at Error iff the status is >= 400 (the completion log is local only) |
| Middleware.BeginRequest | middleware.go:38-59 | the request span is named method + " " + path with the five http.* attributes; the gauge is incremented; the "started" log is written with span correlation |
| Middleware.FinishRequest | middleware.go:68-109 | adds http.status_code, http.status_text and http.duration_ms; sets Error(status text) from 400; records the HTTP metrics; writes the completion and failure logs; decrements the gauge and ends the span |
| Middleware.ServeRequest | middleware.go:61-109 | the handler's writes are forwarded and its attributes and events reach the span; then `FinishRequest` runs with the final status, writing the local and OpenTelemetry records that follow the "started" ones |
| Middleware.HTTPMiddleware | middleware.go:33-111 | one request: span name, parent and attribute order (request, handler, response), events, the status rule, a single end, the writes forwarded, the measurements (+1 gauge, HTTP metrics, -1 gauge) and the exact local and OpenTelemetry log entries |
| Middleware.GaugeTotalAppend | middleware.go:50-51 | the net gauge change of two runs of measurements is the sum of their changes |
| Middleware.MiddlewareGaugeBalanced | middleware.go:50-51 | the measurements of one request leave the active-spans gauge where it was, whatever instruments are registered |
| Middleware.DatabaseOutcome | middleware.go:173-185 | the completion log is "failed" at Error carrying the error iff the error is non-nil, else "completed" at Debug; both carry operation, table, duration_ms |
| Middleware.DatabaseFinish | middleware.go:173-185 | the completion log goes to each logger that exists: `DatabaseOutcome` locally, and its converted record at the matching severity |
| Middleware.DatabaseOperation | middleware.go:154-195 | returns the body's error unchanged; span "db." + op with db.operation, db.table and db.type="unknown"; a Debug "started" log then `DatabaseOutcome`; database_operation recorded with success = (err == nil) |
| Middleware.CacheOperation | middleware.go:211-217 | span "cache." + op with cache.operation and cache.key; the error is returned unchanged |
| Middleware.ExternalServiceCall | middleware.go:235-241 | span "external." + service + "." + op with service.name and service.operation; the error is returned unchanged |
| Middleware.BatchOperation | middleware.go:291-297 | span "batch." + name with batch.operation and batch.item_count; the error is returned unchanged |
| Middleware.ConditionalTrace | middleware.go:315-320 | false: the body runs once on the caller's context and no span is started; true: the `TraceFunction` envelope with the caller's span untouched |
| Middleware.TimedOperation | middleware.go:258-272 | returns the elapsed time and the body's error unchanged; the span is the `TraceFunction` envelope named operationName with no extra attributes; operation.duration_ms (whole milliseconds) goes on the caller's span, not the new span |
| Middleware.DefaultStatusIsOk | middleware.go:62 | a handler that writes nothing gives 200, an Unset span and an Info completion log with no failure log |
| Middleware.NotFoundIsWarned | middleware.go:79-109 | 404 gives span status Error("Not Found"), a Warn completion log and the failure log |
| Middleware.LastWriteWins | middleware.go:129-132 | writing 201 then 503 ends at 503: Error("Service Unavailable") and an Error completion log |

## Left out

- SDK object construction. The jaeger/otlp/prometheus/stdout constructors, the resource merge, batch processors, periodic readers (with their 15-second interval) and global provider registration are foreign SDK calls. Each is an abstract success or failure in `Sdk` and `Constructor`, and a built exporter is an enum tag with its settings.
- Sampling. Spans are always treated as recording until ended. `TraceIDRatioBased` and `NeverSample` are only named in the provider, so a non-sampled span would still be modelled as recording.
- Trace identity. Trace and span IDs are SDK-chosen constants that the model leaves unconstrained. A child does not inherit its parent's trace ID. Span-context validity is "the context carries a span".
- Tracing.Span.RecordError: only the exception.message attribute of the exception event is modelled. exception.type is left out because it is the Go type name of the error.
- Tracing.RecordError: requires a non-nil error. The source calls `err.Error()` on it unconditionally, so a nil error panics there. That panic path is not modelled.
- Middleware.ResponseWriter.WriteHeader: requires a code between 100 and 999. Go's `WriteHeader` panics on any other code, and that path is not modelled.
- Middleware.HTTPMiddleware: requires the local logger, because the completion log is written through `o.logger` with no nil check (a nil logger panics). It also requires every code the handler writes to be between 100 and 999, as `WriteHeader` does. Neither panic path is modelled.
- OTelKitCore.Kit.LogAttrs: requires the local logger, for the same unchecked call; the panic without one is not modelled.
- OTelKitCore.Kit.TraceFunction: the callback is a `Body` value (the attributes and events it adds, and the error it returns). The model leaves out callbacks that panic (the deferred `End` still runs), that call `RecordError` on the span themselves, that start child spans through the kit, or that log or record metrics through the kit. The status rule and the exact span contents hold for callbacks that do none of these.
- Middleware.HTTPMiddleware: the handler is a `Handler` value (its writes, attributes and events), with the same exclusions as `TraceFunction`'s callback. A panicking handler still ends the span and decrements the gauge through the defers. A handler that sets the span status itself, starts child spans, or logs or records metrics is left out. The status rule and the exact log, measurement and gauge sequences hold for handlers that do none of these.
- SDK attribute handling (deduplication of keys, attribute and event limits) is left out. A span's attributes are the sequence of those set.
- Time and floating point. Clocks are parameters in nanoseconds. Milliseconds and seconds are computed with `real` division, so float64 rounding is not modelled. Timestamps on log records are left out.
- The local logger's handler. Its level threshold (LogLevel), JSON format, source locations and the timestamp key rename are library configuration on the handler. Every entry handed to `LogAttrs` is recorded, whatever its level.
- Opening the log file is the `logFileFailure` outcome; writing to it is file I/O.
- OTelKitCore.Kit.InitMetricsInstruments: on a failed registration the source may keep the no-op instruments the SDK returns. The model registers only the successful ones. Such a kit is discarded by `New` anyway.
- The source's `Debug` printouts (`log.Printf` in `New` and `createLogsExporter`) are console output.
- `GetTracer`, `GetMeter` and `GetLogger` are getters of SDK objects.
- `newResource` and the `createExporter` alias are SDK calls or trivial.
- Concurrency. The kit is shared across goroutines, and the SDK's instruments are atomic. The model is sequential.
- `Shutdown`'s context deadline is folded into each provider's abstract outcome. Calling `Shutdown` twice is not modelled as changing anything.
- `http.StatusText` is given as Go's table of reason phrases (the empty string for unknown codes), not derived from net/http.
- The demo programs and example servers are not library logic.
