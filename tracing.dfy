/** Spans as the kit sees them, the context that carries the current span, the
    context operations `AddEvent`, `SetAttributes` and `RecordError`, and the
    user-supplied body that a traced operation runs. */
module Tracing {
  import opened Telemetry

  /** A span's status: unset (success is not marked) or error with a description. */
  datatype Status = Unset | StatusError(description: string)

  datatype Event = Event(name: string, attributes: seq<KeyValue>)

  /** The event the SDK's `span.RecordError(err)` adds. */
  function ExceptionEvent(err: Error): Event {
    Event("exception", [KeyValue("exception.message", Str(err.message))])
  }

  /** A span under construction. The SDK ignores changes to a span once it has
      ended; `endCount` counts the calls to `End` so that "ended exactly once"
      can be stated. Trace and span IDs are chosen by the SDK: the constructor
      leaves them unconstrained. */
  class Span {
    const name: string
    const parent: Option<Span>
    const traceId: string
    const spanId: string
    var attributes: seq<KeyValue>
    var events: seq<Event>
    var status: Status
    var endCount: nat

    constructor (name: string, parent: Option<Span>, attributes: seq<KeyValue>)
      ensures this.name == name && this.parent == parent
      ensures this.attributes == attributes && events == [] && status == Unset && endCount == 0
    {
      this.name := name;
      this.parent := parent;
      this.attributes := attributes;
      events := [];
      status := Unset;
      endCount := 0;
    }

    predicate Recording()
      reads this
    {
      endCount == 0
    }

    method SetAttributes(kvs: seq<KeyValue>)
      modifies this
      ensures attributes == if old(Recording()) then old(attributes) + kvs else old(attributes)
      ensures events == old(events) && status == old(status) && endCount == old(endCount)
    {
      if Recording() {
        attributes := attributes + kvs;
      }
    }

    method AddEvent(e: Event)
      modifies this
      ensures events == if old(Recording()) then old(events) + [e] else old(events)
      ensures attributes == old(attributes) && status == old(status) && endCount == old(endCount)
    {
      if Recording() {
        events := events + [e];
      }
    }

    /** `span.RecordError(err)`: an exception event; the status is left alone. */
    method RecordError(err: Error)
      modifies this
      ensures events == if old(Recording()) then old(events) + [ExceptionEvent(err)] else old(events)
      ensures attributes == old(attributes) && status == old(status) && endCount == old(endCount)
    {
      AddEvent(ExceptionEvent(err));
    }

    /** `span.SetStatus(codes.Error, description)`. */
    method SetError(description: string)
      modifies this
      ensures status == if old(Recording()) then StatusError(description) else old(status)
      ensures attributes == old(attributes) && events == old(events) && endCount == old(endCount)
    {
      if Recording() {
        status := StatusError(description);
      }
    }

    method End()
      modifies this
      ensures endCount == old(endCount) + 1
      ensures attributes == old(attributes) && events == old(events) && status == old(status)
    {
      endCount := endCount + 1;
    }
  }

  /** A `context.Context` reduced to what the kit reads from it: the current span, if any. */
  datatype Context = Context(span: Option<Span>) {
    /** The objects an operation on this context may change. */
    function Footprint(): set<object> {
      if span.Some? then {span.value} else {}
    }

    /** `span.SpanContext().IsValid()` for the span `trace.SpanFromContext` finds. */
    predicate HasValidSpan() {
      span.Some?
    }
  }

  /** Everything a user callback does that the kit observes: the attributes and
      events it adds to the span of the context it is given, and the error it returns. */
  datatype Body = Body(attributes: seq<KeyValue>, events: seq<Event>, result: Option<Error>)

  /** `SetAttributes`: a no-op when the context carries no span. */
  method SetAttributes(ctx: Context, kvs: seq<KeyValue>)
    modifies ctx.Footprint()
    ensures ctx.span.Some? ==>
      ctx.span.value.attributes == if old(ctx.span.value.Recording()) then old(ctx.span.value.attributes) + kvs else old(ctx.span.value.attributes)
    ensures ctx.span.Some? ==> ctx.span.value.events == old(ctx.span.value.events)
    ensures ctx.span.Some? ==> ctx.span.value.status == old(ctx.span.value.status)
    ensures ctx.span.Some? ==> ctx.span.value.endCount == old(ctx.span.value.endCount)
  {
    if ctx.span.Some? {
      ctx.span.value.SetAttributes(kvs);
    }
  }

  /** `AddEvent`: a no-op when the context carries no span. */
  method AddEvent(ctx: Context, name: string, attrs: seq<KeyValue>)
    modifies ctx.Footprint()
    ensures ctx.span.Some? ==>
      ctx.span.value.events == if old(ctx.span.value.Recording()) then old(ctx.span.value.events) + [Event(name, attrs)] else old(ctx.span.value.events)
    ensures ctx.span.Some? ==> ctx.span.value.attributes == old(ctx.span.value.attributes)
    ensures ctx.span.Some? ==> ctx.span.value.status == old(ctx.span.value.status)
    ensures ctx.span.Some? ==> ctx.span.value.endCount == old(ctx.span.value.endCount)
  {
    if ctx.span.Some? {
      ctx.span.value.AddEvent(Event(name, attrs));
    }
  }

  /** `RecordError`: Go calls `err.Error()` unconditionally, so a nil error is not allowed. */
  method RecordError(ctx: Context, err: Option<Error>)
    requires err.Some?
    modifies ctx.Footprint()
    ensures ctx.span.Some? && old(ctx.span.value.Recording()) ==>
      && ctx.span.value.events == old(ctx.span.value.events) + [ExceptionEvent(err.value)]
      && ctx.span.value.status == StatusError(err.value.message)
    ensures ctx.span.Some? && !old(ctx.span.value.Recording()) ==>
      && ctx.span.value.events == old(ctx.span.value.events)
      && ctx.span.value.status == old(ctx.span.value.status)
    ensures ctx.span.Some? ==> ctx.span.value.attributes == old(ctx.span.value.attributes)
    ensures ctx.span.Some? ==> ctx.span.value.endCount == old(ctx.span.value.endCount)
  {
    if ctx.span.Some? {
      ctx.span.value.RecordError(err.value);
      ctx.span.value.SetError(err.value.message);
    }
  }

  /** Runs a body with `ctx`: its attributes, then each of its events, go to the
      context's span (nowhere when there is none), and its error is returned. */
  method RunBody(ctx: Context, body: Body) returns (err: Option<Error>)
    modifies ctx.Footprint()
    ensures err == body.result
    ensures ctx.span.Some? && old(ctx.span.value.Recording()) ==>
      && ctx.span.value.attributes == old(ctx.span.value.attributes) + body.attributes
      && ctx.span.value.events == old(ctx.span.value.events) + body.events
    ensures ctx.span.Some? && !old(ctx.span.value.Recording()) ==>
      && ctx.span.value.attributes == old(ctx.span.value.attributes)
      && ctx.span.value.events == old(ctx.span.value.events)
    ensures ctx.span.Some? ==> ctx.span.value.status == old(ctx.span.value.status)
    ensures ctx.span.Some? ==> ctx.span.value.endCount == old(ctx.span.value.endCount)
  {
    SetAttributes(ctx, body.attributes);
    var i := 0;
    while i < |body.events|
      invariant 0 <= i <= |body.events|
      invariant ctx.span.Some? && old(ctx.span.value.Recording()) ==>
        && ctx.span.value.attributes == old(ctx.span.value.attributes) + body.attributes
        && ctx.span.value.events == old(ctx.span.value.events) + body.events[..i]
      invariant ctx.span.Some? && !old(ctx.span.value.Recording()) ==>
        && ctx.span.value.attributes == old(ctx.span.value.attributes)
        && ctx.span.value.events == old(ctx.span.value.events)
      invariant ctx.span.Some? ==> ctx.span.value.status == old(ctx.span.value.status)
      invariant ctx.span.Some? ==> ctx.span.value.endCount == old(ctx.span.value.endCount)
    {
      var e := body.events[i];
      AddEvent(ctx, e.name, e.attributes);
      assert body.events[..i + 1] == body.events[..i] + [e];
      i := i + 1;
    }
    assert body.events[..i] == body.events;
    err := body.result;
  }
}
