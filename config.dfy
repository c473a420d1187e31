/** Configuration resolution: `DefaultConfig` reads the process environment,
    modelled as a map from variable names to values (a missing name reads as ""). */
module Configuration {
  import opened Telemetry

  type Env = map<string, string>

  datatype Config = Config(
    serviceName: string,
    serviceVersion: string,
    environment: string,
    exporterType: string,
    jaegerURL: string,
    otlpEndpoint: string,
    sampleRate: real,
    debug: bool,
    enableMetrics: bool,
    enableLogs: bool,
    metricsExporterType: string,
    logsExporterType: string,
    prometheusPort: int,
    logLevel: Level,
    logFilePath: string)

  // Exporter tags of the `ExporterType` constants.
  const ExporterJaeger := "jaeger"
  const ExporterOTLP := "otlp"
  const ExporterStdout := "stdout"
  const ExporterPrometheus := "prometheus"
  const ExporterNone := "none"

  /** `os.Getenv`: the empty string for a variable that is not set. */
  function Getenv(env: Env, key: string): string {
    if key in env then env[key] else ""
  }

  /** A variable counts as set only when it is present with a non-empty value. */
  predicate IsSet(env: Env, key: string) {
    key in env && env[key] != ""
  }

  /** `getEnvOrDefault`: an empty value is treated like a missing one. */
  function GetEnvOrDefault(env: Env, key: string, default: string): (v: string)
    ensures IsSet(env, key) ==> v == env[key]
    ensures !IsSet(env, key) ==> v == default
    ensures v == "" ==> default == ""
  {
    var value := Getenv(env, key);
    if value != "" then value else default
  }

  /** The `switch` on OTEL_LOG_LEVEL: three names are recognised, everything else is Info. */
  function ParseLogLevel(name: string): (l: Level)
    ensures l == LevelDebug <==> name == "debug"
    ensures l == LevelWarn <==> name == "warn"
    ensures l == LevelError <==> name == "error"
    ensures l == LevelInfo <==> name != "debug" && name != "warn" && name != "error"
  {
    match name
    case "debug" => LevelDebug
    case "warn" => LevelWarn
    case "error" => LevelError
    case _ => LevelInfo
  }

  /** A flag is on only for the exact text "true". */
  function Flag(env: Env, key: string, default: string): bool {
    GetEnvOrDefault(env, key, default) == "true"
  }

  /** `DefaultConfig`, the environment given explicitly. */
  function DefaultConfig(env: Env): (c: Config)
    // string fields: the environment's value when set and non-empty, else the documented default
    ensures c.serviceName == if IsSet(env, "OTEL_SERVICE_NAME") then env["OTEL_SERVICE_NAME"] else "unknown-service"
    ensures c.serviceVersion == if IsSet(env, "OTEL_SERVICE_VERSION") then env["OTEL_SERVICE_VERSION"] else "1.0.0"
    ensures c.environment == if IsSet(env, "OTEL_ENVIRONMENT") then env["OTEL_ENVIRONMENT"] else "development"
    ensures c.exporterType == if IsSet(env, "OTEL_EXPORTER_TYPE") then env["OTEL_EXPORTER_TYPE"] else ExporterStdout
    ensures c.jaegerURL == if IsSet(env, "JAEGER_URL") then env["JAEGER_URL"] else "http://localhost:14268/api/traces"
    ensures c.otlpEndpoint == if IsSet(env, "OTEL_EXPORTER_OTLP_ENDPOINT") then env["OTEL_EXPORTER_OTLP_ENDPOINT"] else "http://localhost:4318"
    ensures c.metricsExporterType == if IsSet(env, "OTEL_METRICS_EXPORTER") then env["OTEL_METRICS_EXPORTER"] else ExporterPrometheus
    ensures c.logsExporterType == if IsSet(env, "OTEL_LOGS_EXPORTER") then env["OTEL_LOGS_EXPORTER"] else ExporterStdout
    ensures c.logFilePath == Getenv(env, "OTEL_LOG_FILE_PATH")
    // flags: exact "true" only, with the defaults false, true, true
    ensures c.debug <==> Getenv(env, "OTEL_DEBUG") == "true"
    ensures c.enableMetrics <==> !IsSet(env, "OTEL_ENABLE_METRICS") || env["OTEL_ENABLE_METRICS"] == "true"
    ensures c.enableLogs <==> !IsSet(env, "OTEL_ENABLE_LOGS") || env["OTEL_ENABLE_LOGS"] == "true"
    // permissive level: unknown names fall back to Info
    ensures c.logLevel == ParseLogLevel(Getenv(env, "OTEL_LOG_LEVEL"))
    // constants that no variable overrides
    ensures c.prometheusPort == 9090 && c.sampleRate == 0.1
  {
    var logLevel := ParseLogLevel(GetEnvOrDefault(env, "OTEL_LOG_LEVEL", "info"));
    Config(
      serviceName := GetEnvOrDefault(env, "OTEL_SERVICE_NAME", "unknown-service"),
      serviceVersion := GetEnvOrDefault(env, "OTEL_SERVICE_VERSION", "1.0.0"),
      environment := GetEnvOrDefault(env, "OTEL_ENVIRONMENT", "development"),
      exporterType := GetEnvOrDefault(env, "OTEL_EXPORTER_TYPE", ExporterStdout),
      jaegerURL := GetEnvOrDefault(env, "JAEGER_URL", "http://localhost:14268/api/traces"),
      otlpEndpoint := GetEnvOrDefault(env, "OTEL_EXPORTER_OTLP_ENDPOINT", "http://localhost:4318"),
      sampleRate := 0.1,
      debug := Flag(env, "OTEL_DEBUG", "false"),
      enableMetrics := Flag(env, "OTEL_ENABLE_METRICS", "true"),
      enableLogs := Flag(env, "OTEL_ENABLE_LOGS", "true"),
      metricsExporterType := GetEnvOrDefault(env, "OTEL_METRICS_EXPORTER", ExporterPrometheus),
      logsExporterType := GetEnvOrDefault(env, "OTEL_LOGS_EXPORTER", ExporterStdout),
      prometheusPort := 9090,
      logLevel := logLevel,
      logFilePath := GetEnvOrDefault(env, "OTEL_LOG_FILE_PATH", ""))
  }

  /** With nothing set, every field holds its documented default. */
  lemma EmptyEnvironmentDefaults()
    ensures DefaultConfig(map[]) == Config(
      "unknown-service", "1.0.0", "development", "stdout",
      "http://localhost:14268/api/traces", "http://localhost:4318",
      0.1, false, true, true, "prometheus", "stdout", 9090, LevelInfo, "")
  {
  }

  /** Whatever the environment holds, the identity fields are never empty. */
  lemma IdentityFieldsNonEmpty(env: Env)
    ensures DefaultConfig(env).serviceName != ""
    ensures DefaultConfig(env).serviceVersion != ""
    ensures DefaultConfig(env).environment != ""
  {
  }

  /** A flag variable set to anything other than "true" (say "TRUE" or "1") turns the signal off. */
  lemma NonExactFlagDisables(env: Env, v: string)
    requires v != "" && v != "true"
    ensures !DefaultConfig(env["OTEL_ENABLE_METRICS" := v]).enableMetrics
    ensures !DefaultConfig(env["OTEL_ENABLE_LOGS" := v]).enableLogs
    ensures !DefaultConfig(env["OTEL_DEBUG" := v]).debug
  {
  }
}
