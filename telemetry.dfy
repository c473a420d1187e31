/** Values shared by every part of the kit: optional values, Go-style errors,
    typed attribute values, log levels and the three telemetry signals. */
module Telemetry {

  datatype Option<+T> = None | Some(value: T)

  /** A Go `(value, error)` pair where exactly one side is meaningful. */
  datatype Result<+T> = Ok(value: T) | Err(error: Error)

  /** A Go `error` value, seen through its `Error()` text. */
  datatype Error = Error(message: string)

  /** `fmt.Errorf("<context>: %w", cause)`: the cause's text behind a context prefix. */
  function Wrap(context: string, cause: Error): (e: Error)
    ensures |e.message| == |context| + 2 + |cause.message|
    ensures e.message[..|context|] == context
    ensures e.message[|context|..|context| + 2] == ": "
    ensures e.message[|context| + 2..] == cause.message
  {
    Error(context + ": " + cause.message)
  }

  /** The typed value of an OpenTelemetry attribute (also used for log attributes). */
  datatype Value =
    | Str(s: string)
    | Int(i: int)
    | Float(f: real)
    | Bool(b: bool)

  datatype KeyValue = KeyValue(key: string, value: Value)

  /** `slog.Level`: the levels a log call can carry, ordered by severity. */
  datatype Level = LevelDebug | LevelInfo | LevelWarn | LevelError

  /** `otellog.Severity` as used by the kit. */
  datatype Severity = SeverityDebug | SeverityInfo | SeverityWarn | SeverityError

  /** The three telemetry pipelines. */
  datatype Signal = Traces | Metrics | Logs
}
