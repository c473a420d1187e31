/** The HTTP middleware and the operation wrappers: `HTTPMiddleware` with its
    status-capturing `responseWriter`, and `DatabaseOperation`,
    `CacheOperation`, `ExternalServiceCall`, `TimedOperation`, `BatchOperation`
    and `ConditionalTrace`. Elapsed time is a parameter in nanoseconds. */
module Middleware {
  import opened Telemetry
  import opened Tracing
  import opened Logging
  import opened OTelKitCore

  // ---- Status codes ----

  /** The codes an `http.ResponseWriter` accepts; `WriteHeader` panics on any other. */
  predicate ValidCode(code: int) {
    100 <= code <= 999
  }

  /** `http.StatusText`: the reason phrase of a known code, "" for any other. */
  const StatusTexts: map<int, string> := map[
    100 := "Continue", 101 := "Switching Protocols", 102 := "Processing", 103 := "Early Hints",
    200 := "OK", 201 := "Created", 202 := "Accepted", 203 := "Non-Authoritative Information",
    204 := "No Content", 205 := "Reset Content", 206 := "Partial Content", 207 := "Multi-Status",
    208 := "Already Reported", 226 := "IM Used",
    300 := "Multiple Choices", 301 := "Moved Permanently", 302 := "Found", 303 := "See Other",
    304 := "Not Modified", 305 := "Use Proxy", 307 := "Temporary Redirect", 308 := "Permanent Redirect",
    400 := "Bad Request", 401 := "Unauthorized", 402 := "Payment Required", 403 := "Forbidden",
    404 := "Not Found", 405 := "Method Not Allowed", 406 := "Not Acceptable",
    407 := "Proxy Authentication Required", 408 := "Request Timeout", 409 := "Conflict",
    410 := "Gone", 411 := "Length Required", 412 := "Precondition Failed",
    413 := "Request Entity Too Large", 414 := "Request URI Too Long", 415 := "Unsupported Media Type",
    416 := "Requested Range Not Satisfiable", 417 := "Expectation Failed", 418 := "I'm a teapot",
    421 := "Misdirected Request", 422 := "Unprocessable Entity", 423 := "Locked",
    424 := "Failed Dependency", 425 := "Too Early", 426 := "Upgrade Required",
    428 := "Precondition Required", 429 := "Too Many Requests",
    431 := "Request Header Fields Too Large", 451 := "Unavailable For Legal Reasons",
    500 := "Internal Server Error", 501 := "Not Implemented", 502 := "Bad Gateway",
    503 := "Service Unavailable", 504 := "Gateway Timeout", 505 := "HTTP Version Not Supported",
    506 := "Variant Also Negotiates", 507 := "Insufficient Storage", 508 := "Loop Detected",
    510 := "Not Extended", 511 := "Network Authentication Required"]

  /** `http.StatusText`: the registered reason phrase, or "" for an unregistered code. */
  function StatusText(code: int): string {
    if code in StatusTexts then StatusTexts[code] else ""
  }

  /** Sample phrases of the table, among them 506's. */
  lemma StatusTextPhrases()
    ensures StatusText(404) == "Not Found"
    ensures StatusText(500) == "Internal Server Error"
    ensures StatusText(506) == "Variant Also Negotiates"
  {
  }

  /** The level of the completion log: Error from 500, Warn from 400 to 499, Info below 400. */
  function CompletionLevel(code: int): (level: Level)
    ensures level == LevelError <==> code >= 500
    ensures level == LevelWarn <==> 400 <= code < 500
    ensures level == LevelInfo <==> code < 400
  {
    if code >= 500 then LevelError
    else if code >= 400 then LevelWarn
    else LevelInfo
  }

  function LevelRank(level: Level): nat {
    match level
    case LevelDebug => 0
    case LevelInfo => 1
    case LevelWarn => 2
    case LevelError => 3
  }

  /** A worse status never gets a milder completion log. */
  lemma CompletionLevelMonotone(c1: int, c2: int)
    requires c1 <= c2
    ensures LevelRank(CompletionLevel(c1)) <= LevelRank(CompletionLevel(c2))
  {
  }

  /** `strconv.Itoa` for the non-negative codes the middleware formats. */
  function DecimalString(n: nat): (s: string)
    ensures |s| > 0
    ensures forall i :: 0 <= i < |s| ==> '0' <= s[i] <= '9'
    ensures s[0] == '0' <==> n == 0
  {
    if n < 10 then [DigitChar(n)] else DecimalString(n / 10) + [DigitChar(n % 10)]
  }

  function DigitChar(d: nat): (c: char)
    requires d < 10
    ensures '0' <= c <= '9'
  {
    ('0' as int + d) as char
  }

  /** `strconv.Atoi` on a string of decimal digits: the inverse of `DecimalString`. */
  function ParseDecimal(s: string): nat
    requires forall i :: 0 <= i < |s| ==> '0' <= s[i] <= '9'
  {
    if s == [] then 0 else ParseDecimal(s[..|s| - 1]) * 10 + (s[|s| - 1] as int - '0' as int)
  }

  /** The status_code metric attribute reads back as the status code. */
  lemma {:induction false} DecimalRoundTrip(n: nat)
    ensures ParseDecimal(DecimalString(n)) == n
  {
    var s := DecimalString(n);
    if n >= 10 {
      DecimalRoundTrip(n / 10);
      assert s[..|s| - 1] == DecimalString(n / 10);
    }
  }

  // ---- The response writer ----

  /** The `http.ResponseWriter` the middleware is given: the status codes forwarded to it. */
  class HeaderSink {
    var written: seq<int>

    constructor ()
      ensures written == []
    {
      written := [];
    }
  }

  /** `responseWriter`: remembers the last status written and forwards each write. */
  class ResponseWriter {
    const inner: HeaderSink
    var statusCode: int

    /** `&responseWriter{ResponseWriter: w, statusCode: 200}`. */
    constructor (inner: HeaderSink)
      ensures this.inner == inner && statusCode == 200
    {
      this.inner := inner;
      statusCode := 200;
    }

    method WriteHeader(code: int)
      requires ValidCode(code)
      modifies this`statusCode, inner
      ensures statusCode == code
      ensures inner.written == old(inner.written) + [code]
    {
      statusCode := code;
      inner.written := inner.written + [code];
    }
  }

  /** The status a response ends with: the last code written, or `initial` when none was. */
  function FinalStatus(initial: int, writes: seq<int>): (code: int)
    ensures writes == [] ==> code == initial
    ensures writes != [] ==> code == writes[|writes| - 1]
    ensures (forall i :: 0 <= i < |writes| ==> ValidCode(writes[i])) && ValidCode(initial) ==> ValidCode(code)
  {
    if writes == [] then initial else writes[|writes| - 1]
  }

  // ---- Requests and handlers ----

  /** The request fields the middleware reads; `ctx` is `r.Context()`. */
  datatype Request = Request(httpMethod: string, url: string, path: string, userAgent: string, remoteAddr: string, ctx: Context)

  /** A `next` handler as the middleware observes it: the status codes it writes,
      in order, and what it adds to the request span. */
  datatype Handler = Handler(writes: seq<int>, attributes: seq<KeyValue>, events: seq<Event>)

  predicate ValidWrites(h: Handler) {
    forall i :: 0 <= i < |h.writes| ==> ValidCode(h.writes[i])
  }

  /** `next.ServeHTTP(wrapped, r.WithContext(ctx))`. */
  method ServeHTTP(w: ResponseWriter, ctx: Context, h: Handler)
    requires ValidWrites(h)
    requires ctx.span.Some? && ctx.span.value.Recording()
    modifies w`statusCode, w.inner, ctx.Footprint()
    ensures w.statusCode == FinalStatus(old(w.statusCode), h.writes)
    ensures w.inner.written == old(w.inner.written) + h.writes
    ensures ctx.span.value.attributes == old(ctx.span.value.attributes) + h.attributes
    ensures ctx.span.value.events == old(ctx.span.value.events) + h.events
    ensures ctx.span.value.status == old(ctx.span.value.status) && ctx.span.value.endCount == old(ctx.span.value.endCount)
  {
    var i := 0;
    while i < |h.writes|
      invariant 0 <= i <= |h.writes|
      invariant w.statusCode == FinalStatus(old(w.statusCode), h.writes[..i])
      invariant w.inner.written == old(w.inner.written) + h.writes[..i]
      invariant unchanged(ctx.Footprint())
    {
      w.WriteHeader(h.writes[i]);
      assert h.writes[..i + 1] == h.writes[..i] + [h.writes[i]];
      i := i + 1;
    }
    assert h.writes[..i] == h.writes;
    var _ := RunBody(ctx, Body(h.attributes, h.events, None));
  }

  function RequestAttributes(req: Request): seq<KeyValue> {
    [KeyValue("http.method", Str(req.httpMethod)), KeyValue("http.url", Str(req.url)),
     KeyValue("http.route", Str(req.path)), KeyValue("http.user_agent", Str(req.userAgent)),
     KeyValue("http.remote_addr", Str(req.remoteAddr))]
  }

  function ResponseAttributes(code: int, ms: real): seq<KeyValue> {
    [KeyValue("http.status_code", Int(code)), KeyValue("http.status_text", Str(StatusText(code))),
     KeyValue("http.duration_ms", Float(ms))]
  }

  function StartedAttributes(req: Request): seq<SlogAttr> {
    [SlogAttr("method", SlogString(req.httpMethod)), SlogAttr("path", SlogString(req.path)),
     SlogAttr("user_agent", SlogString(req.userAgent)), SlogAttr("remote_addr", SlogString(req.remoteAddr))]
  }

  function CompletedAttributes(req: Request, code: int, ms: real): seq<SlogAttr> {
    [SlogAttr("method", SlogString(req.httpMethod)), SlogAttr("path", SlogString(req.path)),
     SlogAttr("status_code", SlogInt64(code)), SlogAttr("status_text", SlogString(StatusText(code))),
     SlogAttr("duration_ms", SlogFloat64(ms))]
  }

  function FailedAttributes(req: Request, code: int): seq<SlogAttr> {
    [SlogAttr("status_code", SlogInt64(code)), SlogAttr("path", SlogString(req.path))]
  }

  /** `float64(duration.Nanoseconds())/1e6`, without rounding. */
  function Millis(nanos: nat): real {
    nanos as real / 1000000.0
  }

  /** The local log entries one request produces. */
  function RequestSlogRecords(req: Request, code: int, ms: real): (recs: seq<SlogRecord>)
    ensures |recs| == if code >= 400 then 3 else 2
    ensures recs[0] == SlogRecord(LevelInfo, "HTTP request started", StartedAttributes(req))
    ensures recs[1].level == CompletionLevel(code) && recs[1].message == "HTTP request completed"
    ensures code >= 400 ==> recs[2].level == LevelError && recs[2].message == "HTTP request failed"
    ensures code >= 400 ==> ErrorAttr(None) in recs[2].attributes
  {
    [SlogRecord(LevelInfo, "HTTP request started", StartedAttributes(req)),
     SlogRecord(CompletionLevel(code), "HTTP request completed", CompletedAttributes(req, code, ms))]
    + if code >= 400 then [SlogRecord(LevelError, "HTTP request failed", FailedAttributes(req, code) + [ErrorAttr(None)])] else []
  }

  /** The OpenTelemetry log records one request produces: the completion log goes
      only to the local logger. */
  function RequestOTelRecords(ctx: Context, req: Request, code: int): (recs: seq<LogRecord>)
    ensures |recs| == if code >= 400 then 2 else 1
    ensures recs[0] == OTelRecord(ctx, SeverityInfo, "HTTP request started", StartedAttributes(req))
    ensures code >= 400 ==> recs[1].severity == SeverityError && recs[1].body == "HTTP request failed"
  {
    [OTelRecord(ctx, SeverityInfo, "HTTP request started", StartedAttributes(req))]
    + if code >= 400 then [OTelRecord(ctx, SeverityError, "HTTP request failed", FailedAttributes(req, code) + [ErrorAttr(None)])] else []
  }

  /** The span status the middleware sets: Error with the status text from 400 up. */
  function RequestStatus(code: int): (s: Status)
    ensures s.StatusError? <==> code >= 400
    ensures code >= 400 ==> s.description == StatusText(code)
  {
    if code >= 400 then StatusError(StatusText(code)) else Unset
  }

  /** The part of `HTTPMiddleware` before the handler runs: the request span, the
      gauge increment and the "started" log. */
  method BeginRequest(kit: Kit, req: Request) returns (ctx: Context, span: Span)
    requires kit.tracerProvider.Some? && kit.hasLogger
    modifies kit`started, kit`measurements, kit`slogRecords, kit`otelRecords
    ensures fresh(span) && kit.started == old(kit.started) + [span] && ctx == Context(Some(span))
    ensures span.name == req.httpMethod + " " + req.path && span.parent == req.ctx.span
    ensures span.attributes == RequestAttributes(req) && span.events == [] && span.status == Unset && span.endCount == 0
    ensures kit.measurements == old(kit.measurements) + kit.GaugeUpdate(1)
    ensures kit.slogRecords == old(kit.slogRecords) + [SlogRecord(LevelInfo, "HTTP request started", StartedAttributes(req))]
    ensures kit.otelRecords == old(kit.otelRecords) +
      if kit.hasOtelLogger then [OTelRecord(ctx, SeverityInfo, "HTTP request started", StartedAttributes(req))] else []
  {
    ctx, span := kit.StartSpan(req.ctx, req.httpMethod + " " + req.path, RequestAttributes(req));
    kit.IncrementActiveSpans();
    kit.LogInfo(ctx, "HTTP request started", StartedAttributes(req));
  }

  /** The part of `HTTPMiddleware` after the handler returns, for final status `code`. */
  method FinishRequest(kit: Kit, req: Request, ctx: Context, span: Span, code: int, elapsedNanos: nat)
    requires kit.hasLogger && ValidCode(code)
    requires ctx == Context(Some(span)) && span.Recording()
    modifies span, kit`measurements, kit`slogRecords, kit`otelRecords
    ensures span.attributes == old(span.attributes) + ResponseAttributes(code, Millis(elapsedNanos))
    ensures span.events == old(span.events)
    ensures span.status == if code >= 400 then RequestStatus(code) else old(span.status)
    ensures span.endCount == 1
    ensures kit.measurements == old(kit.measurements)
      + kit.HTTPMeasurements(req.httpMethod, DecimalString(code), elapsedNanos as real / 1000000000.0)
      + kit.GaugeUpdate(-1)
    ensures kit.slogRecords == old(kit.slogRecords)
      + [SlogRecord(CompletionLevel(code), "HTTP request completed", CompletedAttributes(req, code, Millis(elapsedNanos)))]
      + if code >= 400 then [SlogRecord(LevelError, "HTTP request failed", FailedAttributes(req, code) + [ErrorAttr(None)])] else []
    ensures kit.otelRecords == old(kit.otelRecords) +
      if kit.hasOtelLogger && code >= 400 then [OTelRecord(ctx, SeverityError, "HTTP request failed", FailedAttributes(req, code) + [ErrorAttr(None)])] else []
  {
    var ms := Millis(elapsedNanos);
    span.SetAttributes(ResponseAttributes(code, ms));
    if code >= 400 {
      span.SetError(StatusText(code));
    }
    kit.RecordHTTPMetrics(req.httpMethod, DecimalString(code), elapsedNanos as real / 1000000000.0);
    kit.LogAttrs(CompletionLevel(code), "HTTP request completed", CompletedAttributes(req, code, ms));
    if code >= 400 {
      kit.LogError(ctx, "HTTP request failed", None, FailedAttributes(req, code));
    }
    kit.DecrementActiveSpans();
    span.End();
  }

  /** `HTTPMiddleware(next)` serving one request. The completion log goes through
      the local logger with no nil check, so logging must be enabled. */
  method HTTPMiddleware(kit: Kit, req: Request, handler: Handler, w: HeaderSink, elapsedNanos: nat) returns (ghost span: Span)
    requires kit.tracerProvider.Some? && kit.hasLogger
    requires ValidWrites(handler)
    modifies kit`started, kit`measurements, kit`slogRecords, kit`otelRecords, w
    ensures fresh(span) && kit.started == old(kit.started) + [span]
    ensures span.name == req.httpMethod + " " + req.path && span.parent == req.ctx.span
    ensures span.attributes == RequestAttributes(req) + handler.attributes + ResponseAttributes(FinalStatus(200, handler.writes), Millis(elapsedNanos))
    ensures span.events == handler.events
    ensures span.status == RequestStatus(FinalStatus(200, handler.writes))
    ensures span.endCount == 1
    ensures w.written == old(w.written) + handler.writes
    ensures kit.measurements == old(kit.measurements) + kit.GaugeUpdate(1)
      + kit.HTTPMeasurements(req.httpMethod, DecimalString(FinalStatus(200, handler.writes)), elapsedNanos as real / 1000000000.0)
      + kit.GaugeUpdate(-1)
    ensures kit.slogRecords == old(kit.slogRecords) + RequestSlogRecords(req, FinalStatus(200, handler.writes), Millis(elapsedNanos))
    ensures kit.otelRecords == old(kit.otelRecords) +
      if kit.hasOtelLogger then RequestOTelRecords(Context(Some(span)), req, FinalStatus(200, handler.writes)) else []
  {
    var ctx, s := BeginRequest(kit, req);
    ServeRequest(kit, req, ctx, s, handler, w, elapsedNanos);
    span := s;
  }

  /** The part of `HTTPMiddleware` from wrapping the writer on: the handler runs, then `FinishRequest`. */
  method ServeRequest(kit: Kit, req: Request, ctx: Context, span: Span, handler: Handler, w: HeaderSink, elapsedNanos: nat)
    requires kit.hasLogger && ValidWrites(handler)
    requires ctx == Context(Some(span)) && span.Recording()
    modifies span, w, kit`measurements, kit`slogRecords, kit`otelRecords
    ensures span.attributes == old(span.attributes) + handler.attributes + ResponseAttributes(FinalStatus(200, handler.writes), Millis(elapsedNanos))
    ensures span.events == old(span.events) + handler.events
    ensures span.status == if FinalStatus(200, handler.writes) >= 400 then RequestStatus(FinalStatus(200, handler.writes)) else old(span.status)
    ensures span.endCount == 1
    ensures w.written == old(w.written) + handler.writes
    ensures kit.measurements == old(kit.measurements)
      + kit.HTTPMeasurements(req.httpMethod, DecimalString(FinalStatus(200, handler.writes)), elapsedNanos as real / 1000000000.0)
      + kit.GaugeUpdate(-1)
    ensures kit.slogRecords == old(kit.slogRecords) + RequestSlogRecords(req, FinalStatus(200, handler.writes), Millis(elapsedNanos))[1..]
    ensures kit.otelRecords == old(kit.otelRecords) +
      if kit.hasOtelLogger then RequestOTelRecords(ctx, req, FinalStatus(200, handler.writes))[1..] else []
  {
    var wrapped := new ResponseWriter(w);
    ServeHTTP(wrapped, ctx, handler);
    var code := wrapped.statusCode;
    assert code == FinalStatus(200, handler.writes);
    FinishRequest(kit, req, ctx, span, code, elapsedNanos);
  }

  // ---- The active-spans gauge ----

  /** The net value added to the active-spans gauge by a sequence of measurements. */
  function GaugeTotal(ms: seq<Measurement>): int {
    if ms == [] then 0
    else (if ms[0].instrument == ActiveSpansGauge && ms[0].value.Int? then ms[0].value.i else 0) + GaugeTotal(ms[1..])
  }

  lemma {:induction false} GaugeTotalAppend(a: seq<Measurement>, b: seq<Measurement>)
    ensures GaugeTotal(a + b) == GaugeTotal(a) + GaugeTotal(b)
  {
    if a == [] {
      assert a + b == b;
    } else {
      assert (a + b)[0] == a[0];
      assert (a + b)[1..] == a[1..] + b;
      GaugeTotalAppend(a[1..], b);
    }
  }

  /** Whatever the request does, the middleware leaves the active-spans gauge where it found it. */
  lemma MiddlewareGaugeBalanced(kit: Kit, httpMethod: string, statusCode: string, seconds: real)
    ensures GaugeTotal(kit.GaugeUpdate(1) + kit.HTTPMeasurements(httpMethod, statusCode, seconds) + kit.GaugeUpdate(-1)) == 0
  {
    var up, http, down := kit.GaugeUpdate(1), kit.HTTPMeasurements(httpMethod, statusCode, seconds), kit.GaugeUpdate(-1);
    GaugeTotalAppend(up + http, down);
    GaugeTotalAppend(up, http);
    var attrs := [KeyValue("method", Str(httpMethod)), KeyValue("status_code", Str(statusCode))];
    var counted := if kit.Has(RequestsCounter) then [Measurement(RequestsCounter, Int(1), attrs)] else [];
    var timed := if kit.Has(DurationHistogram) then [Measurement(DurationHistogram, Float(seconds), attrs)] else [];
    assert http == counted + timed;
    GaugeTotalAppend(counted, timed);
  }

  // ---- Operation wrappers ----

  function DatabaseAttributes(operation: string, table: string): seq<KeyValue> {
    [KeyValue("db.operation", Str(operation)), KeyValue("db.table", Str(table)), KeyValue("db.type", Str("unknown"))]
  }

  function DatabaseLogAttributes(operation: string, table: string, ms: real): seq<SlogAttr> {
    [SlogAttr("operation", SlogString(operation)), SlogAttr("table", SlogString(table)), SlogAttr("duration_ms", SlogFloat64(ms))]
  }

  /** The completion log of a database operation: "failed" at Error with the error iff there is one. */
  function DatabaseOutcome(operation: string, table: string, ms: real, err: Option<Error>): (rec: SlogRecord)
    ensures rec.level == LevelError <==> err.Some?
    ensures err.None? ==> rec.level == LevelDebug && rec.message == "Database operation completed"
    ensures err.Some? ==> rec.message == "Database operation failed" && ErrorAttr(err) in rec.attributes
    ensures DatabaseLogAttributes(operation, table, ms) <= rec.attributes
  {
    if err.Some? then SlogRecord(LevelError, "Database operation failed", DatabaseLogAttributes(operation, table, ms) + [ErrorAttr(err)])
    else SlogRecord(LevelDebug, "Database operation completed", DatabaseLogAttributes(operation, table, ms))
  }

  function DatabaseStarted(operation: string, table: string): seq<SlogAttr> {
    [SlogAttr("operation", SlogString(operation)), SlogAttr("table", SlogString(table))]
  }

  /** The business-metric attributes: success is whether the body returned no error. */
  function DatabaseMetricAttributes(operation: string, table: string, err: Option<Error>): seq<KeyValue> {
    [KeyValue("db.operation", Str(operation)), KeyValue("db.table", Str(table)), KeyValue("success", Bool(err.None?))]
  }

  method DatabaseOperation(kit: Kit, ctx: Context, operation: string, table: string, body: Body, elapsedNanos: nat)
    returns (err: Option<Error>, ghost span: Span)
    requires kit.tracerProvider.Some?
    modifies kit`started, kit`measurements, kit`slogRecords, kit`otelRecords
    ensures err == body.result
    ensures fresh(span) && kit.started == old(kit.started) + [span]
    ensures Enveloped(span, "db." + operation, ctx.span, DatabaseAttributes(operation, table), body)
    ensures kit.slogRecords == old(kit.slogRecords) +
      if kit.hasLogger then
        [SlogRecord(LevelDebug, "Database operation started", DatabaseStarted(operation, table)),
         DatabaseOutcome(operation, table, Millis(elapsedNanos), err)]
      else []
    ensures kit.otelRecords == old(kit.otelRecords) +
      if kit.hasOtelLogger then
        var done := DatabaseOutcome(operation, table, Millis(elapsedNanos), err);
        [OTelRecord(ctx, SeverityDebug, "Database operation started", DatabaseStarted(operation, table)),
         OTelRecord(ctx, SeverityOf(done.level), done.message, done.attributes)]
      else []
    ensures kit.measurements == old(kit.measurements) +
      if kit.Has(BusinessCounter) then
        [Measurement(BusinessCounter, Int(1), DatabaseMetricAttributes(operation, table, err) + [KeyValue("operation_type", Str("database_operation"))])]
      else []
  {
    kit.LogDebug(ctx, "Database operation started", DatabaseStarted(operation, table));
    err, span := kit.TraceFunction(ctx, "db." + operation, body, DatabaseAttributes(operation, table));
    DatabaseFinish(kit, ctx, operation, table, Millis(elapsedNanos), err);
    kit.RecordMetric("database_operation", 1, DatabaseMetricAttributes(operation, table, err));
  }

  /** `DatabaseOperation`'s completion log: failed at Error, else completed at Debug. */
  method DatabaseFinish(kit: Kit, ctx: Context, operation: string, table: string, ms: real, err: Option<Error>)
    modifies kit`slogRecords, kit`otelRecords
    ensures kit.slogRecords == old(kit.slogRecords) +
      if kit.hasLogger then [DatabaseOutcome(operation, table, ms, err)] else []
    ensures kit.otelRecords == old(kit.otelRecords) +
      if kit.hasOtelLogger then
        var done := DatabaseOutcome(operation, table, ms, err);
        [OTelRecord(ctx, SeverityOf(done.level), done.message, done.attributes)]
      else []
  {
    if err.Some? {
      kit.LogError(ctx, "Database operation failed", err, DatabaseLogAttributes(operation, table, ms));
    } else {
      kit.LogDebug(ctx, "Database operation completed", DatabaseLogAttributes(operation, table, ms));
    }
  }

  method CacheOperation(kit: Kit, ctx: Context, operation: string, key: string, body: Body) returns (err: Option<Error>, ghost span: Span)
    requires kit.tracerProvider.Some?
    modifies kit`started
    ensures err == body.result
    ensures fresh(span) && kit.started == old(kit.started) + [span]
    ensures Enveloped(span, "cache." + operation, ctx.span, [KeyValue("cache.operation", Str(operation)), KeyValue("cache.key", Str(key))], body)
  {
    err, span := kit.TraceFunction(ctx, "cache." + operation, body, [KeyValue("cache.operation", Str(operation)), KeyValue("cache.key", Str(key))]);
  }

  method ExternalServiceCall(kit: Kit, ctx: Context, serviceName: string, operation: string, body: Body) returns (err: Option<Error>, ghost span: Span)
    requires kit.tracerProvider.Some?
    modifies kit`started
    ensures err == body.result
    ensures fresh(span) && kit.started == old(kit.started) + [span]
    ensures Enveloped(span, "external." + serviceName + "." + operation, ctx.span,
                      [KeyValue("service.name", Str(serviceName)), KeyValue("service.operation", Str(operation))], body)
  {
    err, span := kit.TraceFunction(ctx, "external." + serviceName + "." + operation, body,
                                   [KeyValue("service.name", Str(serviceName)), KeyValue("service.operation", Str(operation))]);
  }

  method BatchOperation(kit: Kit, ctx: Context, operationName: string, itemCount: int, body: Body) returns (err: Option<Error>, ghost span: Span)
    requires kit.tracerProvider.Some?
    modifies kit`started
    ensures err == body.result
    ensures fresh(span) && kit.started == old(kit.started) + [span]
    ensures Enveloped(span, "batch." + operationName, ctx.span,
                      [KeyValue("batch.operation", Str(operationName)), KeyValue("batch.item_count", Int(itemCount))], body)
  {
    err, span := kit.TraceFunction(ctx, "batch." + operationName, body,
                                   [KeyValue("batch.operation", Str(operationName)), KeyValue("batch.item_count", Int(itemCount))]);
  }

  /** With a false condition the body runs once on the caller's context and no span
      is started; with a true one this is `TraceFunction(spanName)`. */
  method ConditionalTrace(kit: Kit, ctx: Context, condition: bool, spanName: string, body: Body) returns (err: Option<Error>)
    requires kit.tracerProvider.Some?
    modifies kit`started, ctx.Footprint()
    ensures err == body.result
    ensures !condition ==> kit.started == old(kit.started)
    ensures !condition && ctx.span.Some? && old(ctx.span.value.Recording()) ==>
      && ctx.span.value.attributes == old(ctx.span.value.attributes) + body.attributes
      && ctx.span.value.events == old(ctx.span.value.events) + body.events
    ensures condition ==>
      && |kit.started| == |old(kit.started)| + 1
      && kit.started[..|old(kit.started)|] == old(kit.started)
      && fresh(kit.started[|old(kit.started)|])
      && Enveloped(kit.started[|old(kit.started)|], spanName, ctx.span, [], body)
    ensures condition && ctx.span.Some? ==> unchanged(ctx.span.value)
    ensures ctx.span.Some? ==> ctx.span.value.status == old(ctx.span.value.status) && ctx.span.value.endCount == old(ctx.span.value.endCount)
  {
    if condition {
      ghost var span;
      err, span := kit.TraceFunction(ctx, spanName, body, []);
      return;
    }
    err := RunBody(ctx, body);
  }

  /** Returns the elapsed time and the body's error; the duration in whole
      milliseconds goes on the caller's span, not on the one started here. */
  method TimedOperation(kit: Kit, ctx: Context, operationName: string, body: Body, elapsedNanos: nat)
    returns (duration: nat, err: Option<Error>, ghost span: Span)
    requires kit.tracerProvider.Some?
    modifies kit`started, ctx.Footprint()
    ensures duration == elapsedNanos && err == body.result
    ensures fresh(span) && kit.started == old(kit.started) + [span]
    ensures Enveloped(span, operationName, ctx.span, [], body)
    ensures ctx.span.Some? ==>
      ctx.span.value.attributes ==
        if old(ctx.span.value.Recording()) then old(ctx.span.value.attributes) + [KeyValue("operation.duration_ms", Int(elapsedNanos / 1000000))]
        else old(ctx.span.value.attributes)
    ensures ctx.span.Some? ==>
      && ctx.span.value.events == old(ctx.span.value.events)
      && ctx.span.value.status == old(ctx.span.value.status)
      && ctx.span.value.endCount == old(ctx.span.value.endCount)
  {
    err, span := kit.TraceFunction(ctx, operationName, body, []);
    duration := elapsedNanos;
    SetAttributes(ctx, [KeyValue("operation.duration_ms", Int(duration / 1000000))]);
  }

  // ---- Concrete requests ----

  /** A handler that writes nothing answers 200: the span stays Unset and the request logs twice. */
  lemma DefaultStatusIsOk(req: Request, ms: real)
    ensures FinalStatus(200, []) == 200
    ensures RequestStatus(200) == Unset
    ensures |RequestSlogRecords(req, 200, ms)| == 2 && RequestSlogRecords(req, 200, ms)[1].level == LevelInfo
  {
  }

  /** A 404 marks the span "Not Found", completes at Warn and adds the failure log. */
  lemma NotFoundIsWarned(req: Request, ms: real)
    ensures RequestStatus(404) == StatusError("Not Found")
    ensures RequestSlogRecords(req, 404, ms)[1].level == LevelWarn
    ensures RequestSlogRecords(req, 404, ms)[2].message == "HTTP request failed"
  {
  }

  /** When the handler writes 201 then 503, the last write decides: an Error completion log. */
  lemma LastWriteWins(req: Request, ms: real)
    ensures FinalStatus(200, [201, 503]) == 503
    ensures RequestStatus(503) == StatusError("Service Unavailable")
    ensures RequestSlogRecords(req, 503, ms)[1].level == LevelError
  {
  }
}
