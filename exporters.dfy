/** Backend selection: `createTraceExporter`, `createMetricsExporter` and
    `createLogsExporter`. The SDK constructors are replaced by `construct`, which
    says whether building a given backend for a given signal fails, and with what. */
module Exporters {
  import opened Telemetry
  import opened Configuration

  datatype Backend = Jaeger | Otlp | Stdout | Prometheus

  /** What a successful selection hands to the provider, with the settings it was built from. */
  datatype Exporter =
    | JaegerCollector(collectorURL: string)
    | OtlpHttp(signal: Signal, endpoint: string, urlPath: string)
    | StdoutPretty(signal: Signal)
    | PrometheusReader

  /** The SDK's exporter constructors: `Some(e)` when building `backend` for `signal` fails with `e`. */
  type Constructor = (Signal, Backend) -> Option<Error>

  function BackendOf(e: Exporter): Backend {
    match e
    case JaegerCollector(_) => Jaeger
    case OtlpHttp(_, _, _) => Otlp
    case StdoutPretty(_) => Stdout
    case PrometheusReader => Prometheus
  }

  /** The backend an exporter tag names, if any. */
  function BackendNamed(tag: string): Option<Backend> {
    if tag == ExporterJaeger then Some(Jaeger)
    else if tag == ExporterOTLP then Some(Otlp)
    else if tag == ExporterStdout then Some(Stdout)
    else if tag == ExporterPrometheus then Some(Prometheus)
    else None
  }

  /** Which backends each signal can be sent to: Jaeger takes only traces, Prometheus only metrics. */
  predicate Supports(signal: Signal, b: Backend) {
    match b
    case Jaeger => signal == Traces
    case Prometheus => signal == Metrics
    case Otlp => true
    case Stdout => true
  }

  /** The closed set of tags a signal accepts: "none" and the names of the backends it supports. */
  predicate Accepts(signal: Signal, tag: string) {
    tag == ExporterNone || (BackendNamed(tag).Some? && Supports(signal, BackendNamed(tag).value))
  }

  function SignalWord(signal: Signal): string {
    match signal
    case Traces => "trace"
    case Metrics => "metrics"
    case Logs => "logs"
  }

  function UnsupportedType(signal: Signal, tag: string): Error {
    Error("unsupported " + SignalWord(signal) + " exporter type: " + tag)
  }

  function UrlPath(signal: Signal): string {
    match signal
    case Traces => "/v1/traces"
    case Metrics => "/v1/metrics"
    case Logs => "/v1/logs"
  }

  /** The OTLP endpoint, defaulted when the configuration leaves it empty. */
  function OtlpEndpoint(config: Config): (endpoint: string)
    ensures endpoint != ""
    ensures config.otlpEndpoint != "" ==> endpoint == config.otlpEndpoint
    ensures config.otlpEndpoint == "" ==> endpoint == "localhost:4318"
  {
    if config.otlpEndpoint == "" then "localhost:4318" else config.otlpEndpoint
  }

  /** What every one of the three selections promises: the accepted tags are closed,
      "none" means no exporter and no error, a supported backend is built with the
      configured settings, and a construction failure is returned unchanged. */
  ghost predicate SelectionRule(signal: Signal, tag: string, config: Config, construct: Constructor, r: Result<Option<Exporter>>) {
    && (!Accepts(signal, tag) ==> r == Err(UnsupportedType(signal, tag)))
    && (tag == ExporterNone ==> r == Ok(None))
    && (Accepts(signal, tag) && tag != ExporterNone ==>
          var b := BackendNamed(tag).value;
          && (construct(signal, b).Some? ==> r == Err(construct(signal, b).value))
          && (construct(signal, b).None? ==>
                && r.Ok? && r.value.Some?
                && BackendOf(r.value.value) == b
                && (b == Otlp ==> r.value.value == OtlpHttp(signal, OtlpEndpoint(config), UrlPath(signal)))
                && (b == Jaeger ==> r.value.value == JaegerCollector(config.jaegerURL))
                && (b == Stdout ==> r.value.value == StdoutPretty(signal))))
  }

  /** Builds `b` for `signal`, or returns the constructor's error. */
  function Build(signal: Signal, b: Backend, e: Exporter, construct: Constructor): Result<Option<Exporter>> {
    match construct(signal, b)
    case Some(err) => Err(err)
    case None => Ok(Some(e))
  }

  function CreateTraceExporter(config: Config, construct: Constructor): (r: Result<Option<Exporter>>)
    ensures SelectionRule(Traces, config.exporterType, config, construct, r)
  {
    var tag := config.exporterType;
    if tag == ExporterJaeger then Build(Traces, Jaeger, JaegerCollector(config.jaegerURL), construct)
    else if tag == ExporterOTLP then Build(Traces, Otlp, OtlpHttp(Traces, OtlpEndpoint(config), "/v1/traces"), construct)
    else if tag == ExporterStdout then Build(Traces, Stdout, StdoutPretty(Traces), construct)
    else if tag == ExporterNone then Ok(None)
    else Err(Error("unsupported trace exporter type: " + tag))
  }

  function CreateMetricsExporter(config: Config, construct: Constructor): (r: Result<Option<Exporter>>)
    ensures SelectionRule(Metrics, config.metricsExporterType, config, construct, r)
  {
    var tag := config.metricsExporterType;
    if tag == ExporterOTLP then Build(Metrics, Otlp, OtlpHttp(Metrics, OtlpEndpoint(config), "/v1/metrics"), construct)
    else if tag == ExporterPrometheus then Build(Metrics, Prometheus, PrometheusReader, construct)
    else if tag == ExporterStdout then Build(Metrics, Stdout, StdoutPretty(Metrics), construct)
    else if tag == ExporterNone then Ok(None)
    else Err(Error("unsupported metrics exporter type: " + tag))
  }

  function CreateLogsExporter(config: Config, construct: Constructor): (r: Result<Option<Exporter>>)
    ensures SelectionRule(Logs, config.logsExporterType, config, construct, r)
  {
    var tag := config.logsExporterType;
    if tag == ExporterOTLP then Build(Logs, Otlp, OtlpHttp(Logs, OtlpEndpoint(config), "/v1/logs"), construct)
    else if tag == ExporterStdout then Build(Logs, Stdout, StdoutPretty(Logs), construct)
    else if tag == ExporterNone then Ok(None)
    else Err(Error("unsupported logs exporter type: " + tag))
  }

  /** The accepted tags, written out per signal; "" and cross-signal tags are rejected. */
  lemma AcceptedTags(t: string)
    ensures Accepts(Traces, t) <==> t in {"jaeger", "otlp", "stdout", "none"}
    ensures Accepts(Metrics, t) <==> t in {"otlp", "prometheus", "stdout", "none"}
    ensures Accepts(Logs, t) <==> t in {"otlp", "stdout", "none"}
  {
  }

  /** Any selection that yields an exporter yields one of a backend the signal supports. */
  lemma SelectedBackendSupported(signal: Signal, tag: string, config: Config, construct: Constructor, r: Result<Option<Exporter>>)
    requires SelectionRule(signal, tag, config, construct, r)
    requires r.Ok? && r.value.Some?
    ensures Accepts(signal, tag) && tag != ExporterNone
    ensures Supports(signal, BackendOf(r.value.value))
  {
  }
}
