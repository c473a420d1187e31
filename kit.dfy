/** The `OTelKit` handle: initialisation of the three pipelines (`New`,
    `initTracing`, `initMetrics`, `initMetricsInstruments`, `initLogging`),
    `Shutdown`, `TraceFunction`/`TraceHTTPHandler`, the metric helpers and the
    leveled logging calls. What the kit hands to the SDK (spans started, metric
    measurements, log entries) is kept in sequences on the kit. */
module OTelKitCore {
  import opened Telemetry
  import opened Configuration
  import opened Exporters
  import opened Tracing
  import opened Logging

  /** The outcomes of SDK calls the kit makes during initialisation. */
  datatype Sdk = Sdk(
    resourceFailure: Option<Error>,               // resource.Merge
    construct: Constructor,                       // the exporter constructors
    instrumentFailure: string -> Option<Error>,   // registering an instrument, by name
    logFileFailure: Option<Error>)                // opening LogFilePath

  datatype Sampler = TraceIDRatioBased(fraction: real) | NeverSample

  datatype TracerProvider = TracerProvider(exporter: Option<Exporter>, sampler: Sampler)

  /** A meter or logger provider; without an exporter it is a no-op provider. */
  datatype Provider = Provider(exporter: Option<Exporter>)

  datatype InstrumentKind = Histogram | Counter | UpDownCounter

  datatype Instrument = Instrument(name: string, kind: InstrumentKind)

  const DurationHistogram := "http_request_duration_seconds"
  const RequestsCounter := "http_requests_total"
  const ActiveSpansGauge := "otelkit_active_spans"
  const BusinessCounter := "otelkit_business_operations_total"

  /** The instruments `initMetricsInstruments` registers, in registration order. */
  const Instruments: seq<Instrument> := [
    Instrument(DurationHistogram, Histogram),
    Instrument(RequestsCounter, Counter),
    Instrument(ActiveSpansGauge, UpDownCounter),
    Instrument(BusinessCounter, Counter)]

  /** The names of `Instruments`, in the same order. */
  const InstrumentNames: seq<string> := seq(|Instruments|, i requires 0 <= i < |Instruments| => Instruments[i].name)

  /** The word the registration error uses for an instrument's kind. */
  function KindWord(kind: InstrumentKind): string {
    match kind
    case Histogram => "histogram"
    case Counter => "counter"
    case UpDownCounter => "gauge"
  }

  function RegistrationError(inst: Instrument, cause: Error): Error {
    Wrap("failed to create " + inst.name + " " + KindWord(inst.kind), cause)
  }

  /** How many names can be registered before the first failure: every name before
      the result succeeds, and the name at the result (if any) fails. */
  function FirstFailing(names: seq<string>, fail: string -> Option<Error>): (k: nat)
    ensures k <= |names|
    ensures forall j :: 0 <= j < k ==> fail(names[j]).None?
    ensures k < |names| ==> fail(names[k]).Some?
  {
    if names == [] then 0
    else if fail(names[0]).Some? then 0
    else 1 + FirstFailing(names[1..], fail)
  }

  /** A recorded metric measurement: instrument, value and attributes. */
  datatype Measurement = Measurement(instrument: string, value: Value, attributes: seq<KeyValue>)

  // ---- Initialisation, as pure functions of the configuration and the SDK outcomes ----

  /** `initTracing`'s error: only the exporter can fail, and its error is wrapped. */
  function TracingFailure(config: Config, sdk: Sdk): (err: Option<Error>)
    ensures err.None? <==> CreateTraceExporter(config, sdk.construct).Ok?
    ensures err.Some? ==> err.value == Wrap("failed to create trace exporter", CreateTraceExporter(config, sdk.construct).error)
  {
    match CreateTraceExporter(config, sdk.construct)
    case Err(e) => Some(Wrap("failed to create trace exporter", e))
    case Ok(_) => None
  }

  /** The tracer provider `initTracing` builds: ratio sampling with an exporter, no sampling without. */
  function TracerProviderFor(exporter: Option<Exporter>, config: Config): (tp: TracerProvider)
    ensures tp.exporter == exporter
    ensures tp.sampler == NeverSample <==> exporter.None?
    ensures exporter.Some? ==> tp.sampler == TraceIDRatioBased(config.sampleRate)
  {
    if exporter.Some? then TracerProvider(exporter, TraceIDRatioBased(config.sampleRate))
    else TracerProvider(None, NeverSample)
  }

  /** `initMetricsInstruments`' error: the first instrument whose registration fails. */
  function InstrumentsFailure(sdk: Sdk): (err: Option<Error>)
    ensures err.None? <==> forall j :: 0 <= j < |InstrumentNames| ==> sdk.instrumentFailure(InstrumentNames[j]).None?
  {
    var k := FirstFailing(InstrumentNames, sdk.instrumentFailure);
    if k < |Instruments| then Some(RegistrationError(Instruments[k], sdk.instrumentFailure(InstrumentNames[k]).value))
    else None
  }

  /** `initMetrics`' error: the exporter's, else the instruments'. */
  function MetricsFailure(config: Config, sdk: Sdk): (err: Option<Error>)
    ensures err.None? <==> CreateMetricsExporter(config, sdk.construct).Ok? && InstrumentsFailure(sdk).None?
    ensures CreateMetricsExporter(config, sdk.construct).Err? ==>
      err == Some(Wrap("failed to create metrics exporter", CreateMetricsExporter(config, sdk.construct).error))
  {
    match CreateMetricsExporter(config, sdk.construct)
    case Err(e) => Some(Wrap("failed to create metrics exporter", e))
    case Ok(_) =>
      match InstrumentsFailure(sdk)
      case Some(e) => Some(Wrap("failed to initialize metrics instruments", e))
      case None => None
  }

  /** `initLogging`'s error: the exporter's, else the log file's when a path is set. */
  function LoggingFailure(config: Config, sdk: Sdk): (err: Option<Error>)
    ensures err.None? <==> CreateLogsExporter(config, sdk.construct).Ok? && (config.logFilePath == "" || sdk.logFileFailure.None?)
    ensures CreateLogsExporter(config, sdk.construct).Err? ==>
      err == Some(Wrap("failed to create logs exporter", CreateLogsExporter(config, sdk.construct).error))
  {
    match CreateLogsExporter(config, sdk.construct)
    case Err(e) => Some(Wrap("failed to create logs exporter", e))
    case Ok(_) =>
      if config.logFilePath != "" && sdk.logFileFailure.Some? then
        Some(Wrap("failed to open log file " + config.logFilePath, sdk.logFileFailure.value))
      else None
  }

  /** The error `New` returns: the first failing stage in the order resource,
      tracing, metrics (only when enabled), logging (only when enabled). */
  function InitFailure(config: Config, sdk: Sdk): (err: Option<Error>)
    ensures err.None? <==>
      && sdk.resourceFailure.None?
      && TracingFailure(config, sdk).None?
      && (config.enableMetrics ==> MetricsFailure(config, sdk).None?)
      && (config.enableLogs ==> LoggingFailure(config, sdk).None?)
    ensures sdk.resourceFailure.Some? ==> err == Some(Wrap("failed to create resource", sdk.resourceFailure.value))
  {
    if sdk.resourceFailure.Some? then Some(Wrap("failed to create resource", sdk.resourceFailure.value))
    else if TracingFailure(config, sdk).Some? then Some(Wrap("failed to initialize tracing", TracingFailure(config, sdk).value))
    else if config.enableMetrics && MetricsFailure(config, sdk).Some? then Some(Wrap("failed to initialize metrics", MetricsFailure(config, sdk).value))
    else if config.enableLogs && LoggingFailure(config, sdk).Some? then Some(Wrap("failed to initialize logging", LoggingFailure(config, sdk).value))
    else None
  }

  /** With metrics disabled the metrics tag is never looked at, whatever logs do. */
  lemma DisabledMetricsTagIgnored(config: Config, sdk: Sdk, metricsTag: string)
    requires !config.enableMetrics
    ensures InitFailure(config.(metricsExporterType := metricsTag), sdk) == InitFailure(config, sdk)
  {
    var c' := config.(metricsExporterType := metricsTag);
    assert CreateTraceExporter(c', sdk.construct) == CreateTraceExporter(config, sdk.construct);
    assert CreateLogsExporter(c', sdk.construct) == CreateLogsExporter(config, sdk.construct);
  }

  /** With logs disabled the logs tag is never looked at, whatever metrics do. */
  lemma DisabledLogsTagIgnored(config: Config, sdk: Sdk, logsTag: string)
    requires !config.enableLogs
    ensures InitFailure(config.(logsExporterType := logsTag), sdk) == InitFailure(config, sdk)
  {
    var c' := config.(logsExporterType := logsTag);
    assert CreateTraceExporter(c', sdk.construct) == CreateTraceExporter(config, sdk.construct);
    assert CreateMetricsExporter(c', sdk.construct) == CreateMetricsExporter(config, sdk.construct);
  }

  /** Both disabled: neither tag is looked at. */
  lemma DisabledSignalsIgnored(config: Config, sdk: Sdk, metricsTag: string, logsTag: string)
    requires !config.enableMetrics && !config.enableLogs
    ensures InitFailure(config.(metricsExporterType := metricsTag, logsExporterType := logsTag), sdk) == InitFailure(config, sdk)
  {
    DisabledMetricsTagIgnored(config.(logsExporterType := logsTag), sdk, metricsTag);
    DisabledLogsTagIgnored(config, sdk, logsTag);
    assert config.(logsExporterType := logsTag).(metricsExporterType := metricsTag)
        == config.(metricsExporterType := metricsTag, logsExporterType := logsTag);
  }

  /** Metrics are initialised before logs: with both enabled and both failing, the metrics failure is reported. */
  lemma MetricsFailureReportedBeforeLogs(config: Config, sdk: Sdk)
    requires sdk.resourceFailure.None? && TracingFailure(config, sdk).None?
    requires config.enableMetrics && MetricsFailure(config, sdk).Some?
    ensures InitFailure(config, sdk) == Some(Wrap("failed to initialize metrics", MetricsFailure(config, sdk).value))
  {
  }

  /** A later stage's failure cannot hide an earlier one: when tracing fails, that is what `New` reports. */
  lemma TracingFailureReportedFirst(config: Config, sdk: Sdk)
    requires sdk.resourceFailure.None? && TracingFailure(config, sdk).Some?
    ensures InitFailure(config, sdk) == Some(Wrap("failed to initialize tracing", TracingFailure(config, sdk).value))
  {
  }

  /** The configuration of the custom-config test: "none" traces, metrics and logs
      off (their tags left empty) initialises whenever the resource can be built. */
  lemma NoneTracesWithSignalsOffInitialises(sdk: Sdk)
    requires sdk.resourceFailure.None?
    ensures InitFailure(Config("custom-service", "2.0.0", "test", "none", "", "", 1.0, false,
                               false, false, "", "", 0, LevelInfo, ""), sdk).None?
  {
  }

  // ---- Shutdown ----

  function ShutdownContext(s: Signal): string {
    match s
    case Traces => "tracer provider shutdown"
    case Metrics => "meter provider shutdown"
    case Logs => "logger provider shutdown"
  }

  /** One wrapped error per failing signal, in the order the signals were attempted. */
  function ShutdownFailures(attempted: seq<Signal>, outcome: Signal -> Option<Error>): (errs: seq<Error>)
    ensures |errs| <= |attempted|
  {
    if attempted == [] then []
    else
      var first := if outcome(attempted[0]).Some? then [Wrap(ShutdownContext(attempted[0]), outcome(attempted[0]).value)] else [];
      first + ShutdownFailures(attempted[1..], outcome)
  }

  /** The messages separated by spaces, as `%v` prints the elements of a slice. */
  function JoinMessages(errs: seq<Error>): string {
    if errs == [] then ""
    else if |errs| == 1 then errs[0].message
    else errs[0].message + " " + JoinMessages(errs[1..])
  }

  /** `fmt.Errorf("shutdown errors: %v", errs)`. */
  function Combined(errs: seq<Error>): Error {
    Error("shutdown errors: [" + JoinMessages(errs) + "]")
  }

  /** The joined text starts with the first message and ends with the last. */
  lemma {:induction false} JoinMessagesEnds(errs: seq<Error>)
    requires errs != []
    ensures errs[0].message <= JoinMessages(errs)
    ensures |errs[|errs| - 1].message| <= |JoinMessages(errs)|
    ensures JoinMessages(errs)[|JoinMessages(errs)| - |errs[|errs| - 1].message|..] == errs[|errs| - 1].message
  {
    if |errs| > 1 {
      JoinMessagesEnds(errs[1..]);
      var rest := JoinMessages(errs[1..]);
      var last := errs[|errs| - 1].message;
      assert errs[1..][|errs[1..]| - 1] == errs[|errs| - 1];
      var s := errs[0].message + " " + rest;
      assert s[|s| - |last|..] == rest[|rest| - |last|..];
    }
  }

  /** The combined error's text: the bracketed list of the messages, and for a
      single failure exactly that failure's message in brackets. */
  lemma CombinedFormat(errs: seq<Error>)
    ensures Combined(errs).message[..18] == "shutdown errors: ["
    ensures Combined(errs).message[18..|Combined(errs).message| - 1] == JoinMessages(errs)
    ensures Combined(errs).message[|Combined(errs).message| - 1] == ']'
    ensures |errs| == 1 ==> Combined(errs).message == "shutdown errors: [" + errs[0].message + "]"
  {
  }

  /** Shutdown reports nothing exactly when no attempted provider failed. */
  lemma {:induction false} ShutdownFailuresEmpty(attempted: seq<Signal>, outcome: Signal -> Option<Error>)
    ensures ShutdownFailures(attempted, outcome) == [] <==> forall s :: s in attempted ==> outcome(s).None?
  {
    if attempted != [] {
      ShutdownFailuresEmpty(attempted[1..], outcome);
      assert forall s :: s in attempted <==> s == attempted[0] || s in attempted[1..];
    }
  }

  /** Every reported error is some attempted provider's wrapped failure, and every
      attempted provider's failure is reported. */
  lemma {:induction false} ShutdownFailuresFaithful(attempted: seq<Signal>, outcome: Signal -> Option<Error>)
    ensures forall e :: e in ShutdownFailures(attempted, outcome) ==>
      exists s :: s in attempted && outcome(s).Some? && e == Wrap(ShutdownContext(s), outcome(s).value)
    ensures forall s :: s in attempted && outcome(s).Some? ==>
      Wrap(ShutdownContext(s), outcome(s).value) in ShutdownFailures(attempted, outcome)
  {
    if attempted != [] {
      ShutdownFailuresFaithful(attempted[1..], outcome);
      assert forall s :: s in attempted <==> s == attempted[0] || s in attempted[1..];
    }
  }

  /** Each failure of an attempted provider is reported, in attempt order. */
  lemma {:induction false} ShutdownFailuresAppend(a: seq<Signal>, b: seq<Signal>, outcome: Signal -> Option<Error>)
    ensures ShutdownFailures(a + b, outcome) == ShutdownFailures(a, outcome) + ShutdownFailures(b, outcome)
  {
    if a == [] {
      assert a + b == b;
    } else {
      assert (a + b)[0] == a[0];
      assert (a + b)[1..] == a[1..] + b;
      ShutdownFailuresAppend(a[1..], b, outcome);
      var first := if outcome(a[0]).Some? then [Wrap(ShutdownContext(a[0]), outcome(a[0]).value)] else [];
      calc {
        ShutdownFailures(a + b, outcome);
        first + ShutdownFailures(a[1..] + b, outcome);
        first + (ShutdownFailures(a[1..], outcome) + ShutdownFailures(b, outcome));
        (first + ShutdownFailures(a[1..], outcome)) + ShutdownFailures(b, outcome);
        ShutdownFailures(a, outcome) + ShutdownFailures(b, outcome);
      }
    }
  }

  /** One more attempted provider adds its wrapped failure, if it failed, at the end. */
  lemma ShutdownFailuresSnoc(a: seq<Signal>, s: Signal, outcome: Signal -> Option<Error>)
    ensures ShutdownFailures(a + [s], outcome) ==
      ShutdownFailures(a, outcome) + if outcome(s).Some? then [Wrap(ShutdownContext(s), outcome(s).value)] else []
  {
    ShutdownFailuresAppend(a, [s], outcome);
    assert [s][1..] == [];
  }

  // ---- Logging and tracing helpers shared by the kit's operations ----

  /** The events a traced body leaves on its span: its own, then the recorded error. */
  function EnvelopeEvents(body: Body): seq<Event> {
    body.events + if body.result.Some? then [ExceptionEvent(body.result.value)] else []
  }

  /** The status rule: Error with the error's message iff the body failed. */
  function EnvelopeStatus(body: Body): (s: Status)
    ensures s.StatusError? <==> body.result.Some?
    ensures body.result.Some? ==> s.description == body.result.value.message
  {
    if body.result.Some? then StatusError(body.result.value.message) else Unset
  }

  /** The span `TraceFunction` leaves behind: named `name`, child of `parent`, the
      caller's attributes before the body's, the status rule, ended exactly once. */
  ghost predicate Enveloped(span: Span, name: string, parent: Option<Span>, attrs: seq<KeyValue>, body: Body)
    reads span
  {
    && span.name == name
    && span.parent == parent
    && span.attributes == attrs + body.attributes
    && span.events == EnvelopeEvents(body)
    && span.status == EnvelopeStatus(body)
    && span.endCount == 1
  }

  class Kit {
    const config: Config
    // providers and loggers; `None`/false where the Go field stays nil
    var tracerProvider: Option<TracerProvider>
    var meterProvider: Option<Provider>
    var loggerProvider: Option<Provider>
    var registered: seq<string>
    var hasLogger: bool
    var hasOtelLogger: bool
    // what the kit has handed to the SDK and to the local logger
    var started: seq<Span>
    var measurements: seq<Measurement>
    var slogRecords: seq<SlogRecord>
    var otelRecords: seq<LogRecord>

    /** `&OTelKit{config: config}`: nothing initialised yet. */
    constructor (config: Config)
      ensures this.config == config
      ensures tracerProvider.None? && meterProvider.None? && loggerProvider.None?
      ensures registered == [] && !hasLogger && !hasOtelLogger
      ensures started == [] && measurements == [] && slogRecords == [] && otelRecords == []
    {
      this.config := config;
      tracerProvider, meterProvider, loggerProvider := None, None, None;
      registered, hasLogger, hasOtelLogger := [], false, false;
      started, measurements, slogRecords, otelRecords := [], [], [], [];
    }

    /** The state `New` leaves a kit in when it succeeds. */
    ghost predicate InitializedFrom(sdk: Sdk)
      reads this
    {
      && CreateTraceExporter(config, sdk.construct).Ok?
      && tracerProvider == Some(TracerProviderFor(CreateTraceExporter(config, sdk.construct).value, config))
      && (config.enableMetrics <==> meterProvider.Some?)
      && (config.enableMetrics ==> CreateMetricsExporter(config, sdk.construct).Ok? &&
                                   meterProvider == Some(Provider(CreateMetricsExporter(config, sdk.construct).value)))
      && registered == (if config.enableMetrics then InstrumentNames else [])
      && (config.enableLogs <==> loggerProvider.Some?)
      && (config.enableLogs ==> CreateLogsExporter(config, sdk.construct).Ok? &&
                                loggerProvider == Some(Provider(CreateLogsExporter(config, sdk.construct).value)))
      && hasLogger == config.enableLogs && hasOtelLogger == config.enableLogs
      && started == [] && measurements == [] && slogRecords == [] && otelRecords == []
    }

    /** `New`: validates and builds each enabled signal in order, aborting on the first failure. */
    static method New(config: Config, sdk: Sdk) returns (kit: Kit?, err: Option<Error>)
      ensures err == InitFailure(config, sdk)
      ensures kit == null <==> err.Some?
      ensures kit != null ==> fresh(kit) && kit.config == config && kit.InitializedFrom(sdk)
    {
      if sdk.resourceFailure.Some? {
        return null, Some(Wrap("failed to create resource", sdk.resourceFailure.value));
      }
      kit := new Kit(config);
      var e := kit.InitTracing(sdk);
      if e.Some? {
        return null, Some(Wrap("failed to initialize tracing", e.value));
      }
      if config.enableMetrics {
        e := kit.InitMetrics(sdk);
        if e.Some? {
          return null, Some(Wrap("failed to initialize metrics", e.value));
        }
      }
      if config.enableLogs {
        e := kit.InitLogging(sdk);
        if e.Some? {
          return null, Some(Wrap("failed to initialize logging", e.value));
        }
      }
      err := None;
    }

    method InitTracing(sdk: Sdk) returns (err: Option<Error>)
      modifies this`tracerProvider
      ensures err == TracingFailure(config, sdk)
      ensures err.None? ==> tracerProvider == Some(TracerProviderFor(CreateTraceExporter(config, sdk.construct).value, config))
      ensures err.Some? ==> tracerProvider == old(tracerProvider)
    {
      var r := CreateTraceExporter(config, sdk.construct);
      if r.Err? {
        return Some(Wrap("failed to create trace exporter", r.error));
      }
      if r.value.Some? {
        tracerProvider := Some(TracerProvider(r.value, TraceIDRatioBased(config.sampleRate)));
      } else {
        tracerProvider := Some(TracerProvider(None, NeverSample));
      }
      err := None;
    }

    method InitMetrics(sdk: Sdk) returns (err: Option<Error>)
      modifies this`meterProvider, this`registered
      ensures err == MetricsFailure(config, sdk)
      ensures err.None? ==> meterProvider == Some(Provider(CreateMetricsExporter(config, sdk.construct).value))
      ensures err.None? ==> registered == old(registered) + InstrumentNames
      ensures err.Some? ==> meterProvider == old(meterProvider)
    {
      var r := CreateMetricsExporter(config, sdk.construct);
      if r.Err? {
        return Some(Wrap("failed to create metrics exporter", r.error));
      }
      var provider := Provider(r.value);
      var e := InitMetricsInstruments(sdk);
      if e.Some? {
        return Some(Wrap("failed to initialize metrics instruments", e.value));
      }
      meterProvider := Some(provider);
      err := None;
    }

    /** Registers the four instruments in order and stops at the first failure. */
    method InitMetricsInstruments(sdk: Sdk) returns (err: Option<Error>)
      modifies this`registered
      ensures err == InstrumentsFailure(sdk)
      ensures registered == old(registered) + InstrumentNames[..FirstFailing(InstrumentNames, sdk.instrumentFailure)]
    {
      var k := FirstFailing(InstrumentNames, sdk.instrumentFailure);
      assert InstrumentNames[0] == DurationHistogram && InstrumentNames[1] == RequestsCounter;
      assert InstrumentNames[2] == ActiveSpansGauge && InstrumentNames[3] == BusinessCounter;
      var e := sdk.instrumentFailure(DurationHistogram);
      if e.Some? {
        assert k == 0;
        return Some(RegistrationError(Instruments[0], e.value));
      }
      registered := registered + [DurationHistogram];
      e := sdk.instrumentFailure(RequestsCounter);
      if e.Some? {
        assert k == 1;
        return Some(RegistrationError(Instruments[1], e.value));
      }
      registered := registered + [RequestsCounter];
      e := sdk.instrumentFailure(ActiveSpansGauge);
      if e.Some? {
        assert k == 2;
        return Some(RegistrationError(Instruments[2], e.value));
      }
      registered := registered + [ActiveSpansGauge];
      e := sdk.instrumentFailure(BusinessCounter);
      if e.Some? {
        assert k == 3;
        return Some(RegistrationError(Instruments[3], e.value));
      }
      registered := registered + [BusinessCounter];
      assert k == 4;
      err := None;
    }

    method InitLogging(sdk: Sdk) returns (err: Option<Error>)
      modifies this`loggerProvider, this`hasLogger, this`hasOtelLogger
      ensures err == LoggingFailure(config, sdk)
      ensures err.None? ==> loggerProvider == Some(Provider(CreateLogsExporter(config, sdk.construct).value))
      ensures err.None? ==> hasLogger && hasOtelLogger
      ensures err.Some? ==> loggerProvider == old(loggerProvider) && hasLogger == old(hasLogger) && hasOtelLogger == old(hasOtelLogger)
    {
      var r := CreateLogsExporter(config, sdk.construct);
      if r.Err? {
        return Some(Wrap("failed to create logs exporter", r.error));
      }
      var provider := Provider(r.value);
      if config.logFilePath != "" && sdk.logFileFailure.Some? {
        return Some(Wrap("failed to open log file " + config.logFilePath, sdk.logFileFailure.value));
      }
      loggerProvider := Some(provider);
      hasOtelLogger := true;
      hasLogger := true;
      err := None;
    }

    /** The signals whose provider is present, in tracer, meter, logger order. */
    function Present(): (signals: seq<Signal>)
      reads this
      ensures Traces in signals <==> tracerProvider.Some?
      ensures Metrics in signals <==> meterProvider.Some?
      ensures Logs in signals <==> loggerProvider.Some?
    {
      (if tracerProvider.Some? then [Traces] else [])
      + (if meterProvider.Some? then [Metrics] else [])
      + (if loggerProvider.Some? then [Logs] else [])
    }

    /** `Shutdown`: every present provider is shut down (`outcome` says how each
        attempt ends), later attempts happen whatever earlier ones did, and the
        failures are combined into one error. `attempted` lists the providers
        shut down, in order. */
    method Shutdown(outcome: Signal -> Option<Error>) returns (err: Option<Error>, attempted: seq<Signal>)
      ensures attempted == Present()
      ensures err.None? <==> forall s :: s in attempted ==> outcome(s).None?
      ensures err.Some? ==> err.value == Combined(ShutdownFailures(attempted, outcome))
    {
      var errs: seq<Error> := [];
      attempted := [];
      if tracerProvider.Some? {
        ShutdownFailuresSnoc(attempted, Traces, outcome);
        attempted := attempted + [Traces];
        var e := outcome(Traces);
        if e.Some? {
          errs := errs + [Wrap("tracer provider shutdown", e.value)];
        }
      }
      assert errs == ShutdownFailures(attempted, outcome);
      if meterProvider.Some? {
        ShutdownFailuresSnoc(attempted, Metrics, outcome);
        attempted := attempted + [Metrics];
        var e := outcome(Metrics);
        if e.Some? {
          errs := errs + [Wrap("meter provider shutdown", e.value)];
        }
      }
      assert errs == ShutdownFailures(attempted, outcome);
      if loggerProvider.Some? {
        ShutdownFailuresSnoc(attempted, Logs, outcome);
        attempted := attempted + [Logs];
        var e := outcome(Logs);
        if e.Some? {
          errs := errs + [Wrap("logger provider shutdown", e.value)];
        }
      }
      assert errs == ShutdownFailures(attempted, outcome);
      ShutdownFailuresEmpty(attempted, outcome);
      if |errs| > 0 {
        return Some(Combined(errs)), attempted;
      }
      err := None;
    }

    // ---- Spans ----

    /** `StartSpan`: a new child of the context's span, recorded by the tracer. */
    method StartSpan(ctx: Context, name: string, attrs: seq<KeyValue>) returns (child: Context, span: Span)
      requires tracerProvider.Some?
      modifies this`started
      ensures fresh(span) && started == old(started) + [span]
      ensures child == Context(Some(span))
      ensures span.name == name && span.parent == ctx.span
      ensures span.attributes == attrs && span.events == [] && span.status == Unset && span.endCount == 0
    {
      span := new Span(name, ctx.span, attrs);
      started := started + [span];
      child := Context(Some(span));
    }

    /** `TraceFunction`: runs `body` inside a new span and returns its error unchanged. */
    method TraceFunction(ctx: Context, name: string, body: Body, attrs: seq<KeyValue>) returns (err: Option<Error>, ghost span: Span)
      requires tracerProvider.Some?
      modifies this`started
      ensures err == body.result
      ensures fresh(span) && started == old(started) + [span]
      ensures Enveloped(span, name, ctx.span, attrs, body)
    {
      var child, s := StartSpan(ctx, name, []);
      s.SetAttributes(attrs);
      err := RunBody(child, body);
      if err.Some? {
        s.RecordError(err.value);
        s.SetError(err.value.message);
      }
      s.End();
      span := s;
    }

    /** Calling the function `TraceHTTPHandler` returns: the handler traced under "http." + its name. */
    method TraceHTTPHandler(ctx: Context, handlerName: string, handler: Body) returns (err: Option<Error>, ghost span: Span)
      requires tracerProvider.Some?
      modifies this`started
      ensures err == handler.result
      ensures fresh(span) && started == old(started) + [span]
      ensures Enveloped(span, "http." + handlerName, ctx.span, [], handler)
    {
      err, span := TraceFunction(ctx, "http." + handlerName, handler, []);
    }

    // ---- Metrics ----

    predicate Has(instrument: string)
      reads this
    {
      instrument in registered
    }

    /** `RecordMetric`: the caller's attributes followed by operation_type; nothing without the counter. */
    method RecordMetric(operation: string, value: int, attrs: seq<KeyValue>)
      modifies this`measurements
      ensures measurements == old(measurements) +
        if Has(BusinessCounter) then [Measurement(BusinessCounter, Int(value), attrs + [KeyValue("operation_type", Str(operation))])] else []
    {
      if Has(BusinessCounter) {
        measurements := measurements + [Measurement(BusinessCounter, Int(value), attrs + [KeyValue("operation_type", Str(operation))])];
      }
    }

    /** `RecordHTTPMetrics`: one request counted and its duration (in seconds) recorded. */
    method RecordHTTPMetrics(httpMethod: string, statusCode: string, seconds: real)
      modifies this`measurements
      ensures measurements == old(measurements) + HTTPMeasurements(httpMethod, statusCode, seconds)
    {
      var attrs := [KeyValue("method", Str(httpMethod)), KeyValue("status_code", Str(statusCode))];
      if Has(RequestsCounter) {
        measurements := measurements + [Measurement(RequestsCounter, Int(1), attrs)];
      }
      if Has(DurationHistogram) {
        measurements := measurements + [Measurement(DurationHistogram, Float(seconds), attrs)];
      }
    }

    function HTTPMeasurements(httpMethod: string, statusCode: string, seconds: real): seq<Measurement>
      reads this
    {
      var attrs := [KeyValue("method", Str(httpMethod)), KeyValue("status_code", Str(statusCode))];
      (if Has(RequestsCounter) then [Measurement(RequestsCounter, Int(1), attrs)] else [])
      + (if Has(DurationHistogram) then [Measurement(DurationHistogram, Float(seconds), attrs)] else [])
    }

    /** The gauge update `IncrementActiveSpans` (+1) or `DecrementActiveSpans` (-1) makes. */
    function GaugeUpdate(delta: int): seq<Measurement>
      reads this
    {
      if Has(ActiveSpansGauge) then [Measurement(ActiveSpansGauge, Int(delta), [])] else []
    }

    method IncrementActiveSpans()
      modifies this`measurements
      ensures measurements == old(measurements) + GaugeUpdate(1)
    {
      if Has(ActiveSpansGauge) {
        measurements := measurements + [Measurement(ActiveSpansGauge, Int(1), [])];
      }
    }

    method DecrementActiveSpans()
      modifies this`measurements
      ensures measurements == old(measurements) + GaugeUpdate(-1)
    {
      if Has(ActiveSpansGauge) {
        measurements := measurements + [Measurement(ActiveSpansGauge, Int(-1), [])];
      }
    }

    // ---- Logging ----

    /** `o.logger.LogAttrs`: the local logger must exist. */
    method LogAttrs(level: Level, msg: string, attrs: seq<SlogAttr>)
      requires hasLogger
      modifies this`slogRecords
      ensures slogRecords == old(slogRecords) + [SlogRecord(level, msg, attrs)]
    {
      slogRecords := slogRecords + [SlogRecord(level, msg, attrs)];
    }

    /** `emitOTelLog`: nothing without an OpenTelemetry logger. */
    method EmitOTelLog(ctx: Context, severity: Severity, msg: string, attrs: seq<SlogAttr>)
      modifies this`otelRecords
      ensures otelRecords == old(otelRecords) + if hasOtelLogger then [OTelRecord(ctx, severity, msg, attrs)] else []
    {
      if hasOtelLogger {
        var rec := BuildLogRecord(ctx, severity, msg, attrs);
        otelRecords := otelRecords + [rec];
      }
    }

    /** A leveled log call: to the local logger when present, then to the OpenTelemetry logger. */
    method Log(ctx: Context, level: Level, msg: string, attrs: seq<SlogAttr>)
      modifies this`slogRecords, this`otelRecords
      ensures slogRecords == old(slogRecords) + if hasLogger then [SlogRecord(level, msg, attrs)] else []
      ensures otelRecords == old(otelRecords) + if hasOtelLogger then [OTelRecord(ctx, SeverityOf(level), msg, attrs)] else []
    {
      if hasLogger {
        LogAttrs(level, msg, attrs);
      }
      EmitOTelLog(ctx, SeverityOf(level), msg, attrs);
    }

    method LogInfo(ctx: Context, msg: string, attrs: seq<SlogAttr>)
      modifies this`slogRecords, this`otelRecords
      ensures slogRecords == old(slogRecords) + if hasLogger then [SlogRecord(LevelInfo, msg, attrs)] else []
      ensures otelRecords == old(otelRecords) + if hasOtelLogger then [OTelRecord(ctx, SeverityInfo, msg, attrs)] else []
    {
      Log(ctx, LevelInfo, msg, attrs);
    }

    method LogWarn(ctx: Context, msg: string, attrs: seq<SlogAttr>)
      modifies this`slogRecords, this`otelRecords
      ensures slogRecords == old(slogRecords) + if hasLogger then [SlogRecord(LevelWarn, msg, attrs)] else []
      ensures otelRecords == old(otelRecords) + if hasOtelLogger then [OTelRecord(ctx, SeverityWarn, msg, attrs)] else []
    {
      Log(ctx, LevelWarn, msg, attrs);
    }

    method LogDebug(ctx: Context, msg: string, attrs: seq<SlogAttr>)
      modifies this`slogRecords, this`otelRecords
      ensures slogRecords == old(slogRecords) + if hasLogger then [SlogRecord(LevelDebug, msg, attrs)] else []
      ensures otelRecords == old(otelRecords) + if hasOtelLogger then [OTelRecord(ctx, SeverityDebug, msg, attrs)] else []
    {
      Log(ctx, LevelDebug, msg, attrs);
    }

    /** `LogError`: the "error" attribute goes after the caller's; a nil error is allowed. */
    method LogError(ctx: Context, msg: string, err: Option<Error>, attrs: seq<SlogAttr>)
      modifies this`slogRecords, this`otelRecords
      ensures slogRecords == old(slogRecords) + if hasLogger then [SlogRecord(LevelError, msg, attrs + [ErrorAttr(err)])] else []
      ensures otelRecords == old(otelRecords) + if hasOtelLogger then [OTelRecord(ctx, SeverityError, msg, attrs + [ErrorAttr(err)])] else []
    {
      Log(ctx, LevelError, msg, attrs + [ErrorAttr(err)]);
    }
  }

  /** The OpenTelemetry severity each leveled call uses. */
  function SeverityOf(level: Level): Severity {
    match level
    case LevelDebug => SeverityDebug
    case LevelInfo => SeverityInfo
    case LevelWarn => SeverityWarn
    case LevelError => SeverityError
  }
}
