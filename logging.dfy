/** Log attributes and records: `slog.Attr` values by kind, `convertSlogAttr`,
    and the record `emitOTelLog` builds before handing it to the OpenTelemetry logger. */
module Logging {
  import opened Telemetry
  import opened Tracing

  /** An `slog.Value` by kind. Kinds other than string, int64, float64 and bool
      (any, duration, time, uint64, group, log valuer) keep only what their
      `String()` method renders. */
  datatype SlogValue =
    | SlogString(s: string)
    | SlogInt64(i: int)
    | SlogFloat64(f: real)
    | SlogBool(b: bool)
    | SlogOther(text: string)

  datatype SlogAttr = SlogAttr(key: string, value: SlogValue)

  /** An entry handed to the local structured logger (`slog.Logger.LogAttrs`). */
  datatype SlogRecord = SlogRecord(level: Level, message: string, attributes: seq<SlogAttr>)

  /** An OpenTelemetry log record as emitted: severity, string body and attributes.
      The timestamp is left out. */
  datatype LogRecord = LogRecord(severity: Severity, body: string, attributes: seq<KeyValue>)

  /** The slog value the typed constructors (`slog.String`, `slog.Int64`, ...) build for `v`. */
  function SlogValueOf(v: Value): SlogValue {
    match v
    case Str(s) => SlogString(s)
    case Int(i) => SlogInt64(i)
    case Float(f) => SlogFloat64(f)
    case Bool(b) => SlogBool(b)
  }

  /** `slog.Any("error", err)`: an any-kind value whose text is the error's
      message, or "<nil>" for a nil error. */
  function ErrorAttr(err: Option<Error>): (a: SlogAttr)
    ensures a.key == "error" && a.value.SlogOther?
    ensures err.Some? ==> ConvertSlogAttr(a) == KeyValue("error", Str(err.value.message))
    ensures err.None? ==> ConvertSlogAttr(a) == KeyValue("error", Str("<nil>"))
  {
    SlogAttr("error", SlogOther(if err.Some? then err.value.message else "<nil>"))
  }

  /** `convertSlogAttr`: the four scalar kinds keep their kind and value, every
      other kind becomes its string rendering; the key is kept. */
  function ConvertSlogAttr(a: SlogAttr): (kv: KeyValue)
    ensures kv.key == a.key
    ensures !a.value.SlogOther? ==> SlogValueOf(kv.value) == a.value
    ensures a.value.SlogOther? ==> kv.value == Str(a.value.text)
  {
    match a.value
    case SlogString(s) => KeyValue(a.key, Str(s))
    case SlogInt64(i) => KeyValue(a.key, Int(i))
    case SlogFloat64(f) => KeyValue(a.key, Float(f))
    case SlogBool(b) => KeyValue(a.key, Bool(b))
    case SlogOther(text) => KeyValue(a.key, Str(text))
  }

  /** Converting an attribute built by a typed constructor gives back the value it was built from. */
  lemma ConvertRoundTrip(key: string, v: Value)
    ensures ConvertSlogAttr(SlogAttr(key, SlogValueOf(v))) == KeyValue(key, v)
  {
  }

  /** The conversion of a whole attribute list, in input order. */
  function ConvertAll(attrs: seq<SlogAttr>): (kvs: seq<KeyValue>)
    ensures |kvs| == |attrs|
    ensures forall i :: 0 <= i < |attrs| ==> kvs[i] == ConvertSlogAttr(attrs[i])
  {
    if attrs == [] then [] else [ConvertSlogAttr(attrs[0])] + ConvertAll(attrs[1..])
  }

  /** The correlation attributes: trace_id then span_id of the context's span, when it has one. */
  function Correlation(ctx: Context): (kvs: seq<KeyValue>)
    ensures |kvs| == if ctx.HasValidSpan() then 2 else 0
    ensures ctx.HasValidSpan() ==> kvs[0].key == "trace_id" && kvs[0].value == Str(ctx.span.value.traceId)
    ensures ctx.HasValidSpan() ==> kvs[1].key == "span_id" && kvs[1].value == Str(ctx.span.value.spanId)
  {
    if ctx.HasValidSpan() then
      [KeyValue("trace_id", Str(ctx.span.value.traceId)), KeyValue("span_id", Str(ctx.span.value.spanId))]
    else []
  }

  /** The record `emitOTelLog` builds: severity, the message as body, each
      attribute converted in input order, then the correlation attributes. */
  function OTelRecord(ctx: Context, severity: Severity, msg: string, attrs: seq<SlogAttr>): (rec: LogRecord)
    ensures rec.severity == severity && rec.body == msg
    ensures |rec.attributes| == |attrs| + |Correlation(ctx)|
    ensures forall i :: 0 <= i < |attrs| ==> rec.attributes[i] == ConvertSlogAttr(attrs[i])
    ensures rec.attributes[|attrs|..] == Correlation(ctx)
  {
    LogRecord(severity, msg, ConvertAll(attrs) + Correlation(ctx))
  }

  /** `emitOTelLog`'s loop: the record built attribute by attribute. */
  method BuildLogRecord(ctx: Context, severity: Severity, msg: string, attrs: seq<SlogAttr>) returns (rec: LogRecord)
    ensures rec == OTelRecord(ctx, severity, msg, attrs)
  {
    rec := LogRecord(severity, msg, []);
    var i := 0;
    while i < |attrs|
      invariant 0 <= i <= |attrs|
      invariant rec.severity == severity && rec.body == msg
      invariant rec.attributes == ConvertAll(attrs[..i])
    {
      rec := rec.(attributes := rec.attributes + [ConvertSlogAttr(attrs[i])]);
      i := i + 1;
    }
    assert attrs[..i] == attrs;
    if ctx.HasValidSpan() {
      rec := rec.(attributes := rec.attributes + Correlation(ctx));
    }
  }
}
