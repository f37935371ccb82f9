/**
  The collaborators the bridge talks to, reduced to the state it can observe:
  zap fields and log records, a logger that records what it writes, and
  OpenTelemetry attributes, span events and spans.

  Span mutations follow the OpenTelemetry SDK: a span that is not recording
  (ended, sampled out, or the no-op span) ignores every mutation.
 */
module Telemetry {
  import opened Wrappers
  import opened Levels

  newtype int64 = x: int | -0x8000_0000_0000_0000 <= x < 0x8000_0000_0000_0000

  /** An instant, in Unix nanoseconds; the bridge only copies it. */
  type Time = int

  /** A Go `error` value, known by its message. */
  datatype ErrorValue = ErrorValue(message: string)

  // --- OpenTelemetry attributes, events and span state

  /** The attribute value kinds the bridge produces and reads. */
  datatype AttrValue = AStr(s: string) | AInt(i: int64) | ABool(b: bool)

  datatype Attr = Attr(key: string, value: AttrValue)

  /** `attribute.Value.AsString()`: the string of a string value, "" for any other kind. */
  function AsString(v: AttrValue): string {
    if v.AStr? then v.s else ""
  }

  datatype Event = Event(name: string, attrs: seq<Attr>, time: Time)

  datatype ErrorRecord = ErrorRecord(err: ErrorValue, attrs: seq<Attr>)

  datatype StatusCode = StatusUnset | StatusError | StatusOk

  datatype Status = Status(code: StatusCode, description: string)

  /** Everything about a span that the bridge can change. */
  datatype SpanState = SpanState(
    recording: bool,
    events: seq<Event>,
    errors: seq<ErrorRecord>,
    status: Status,
    attrs: seq<Attr>)

  /** `span.AddEvent(name, attributes)`, stamped at `t`. */
  function WithEvent(s: SpanState, name: string, attrs: seq<Attr>, t: Time): SpanState {
    if s.recording then s.(events := s.events + [Event(name, attrs, t)]) else s
  }

  /** `span.RecordError(err, attributes)`. */
  function WithError(s: SpanState, err: ErrorValue, attrs: seq<Attr>): SpanState {
    if s.recording then s.(errors := s.errors + [ErrorRecord(err, attrs)]) else s
  }

  /** `span.SetStatus(code, description)`. */
  function WithStatus(s: SpanState, st: Status): SpanState {
    if s.recording then s.(status := st) else s
  }

  /** `span.SetAttributes(attributes...)`. */
  function WithAttributes(s: SpanState, attrs: seq<Attr>): SpanState {
    if s.recording then s.(attrs := s.attrs + attrs) else s
  }

  /** `RecordError` called once per error, in order, each time with the same attributes. */
  function WithErrors(s: SpanState, errs: seq<ErrorValue>, attrs: seq<Attr>): SpanState
    decreases |errs|
  {
    if errs == [] then s
    else WithError(WithErrors(s, errs[..|errs| - 1], attrs), errs[|errs| - 1], attrs)
  }

  /** The records a recording span keeps for `errs`, one per error, in order. */
  function ErrorRecords(errs: seq<ErrorValue>, attrs: seq<Attr>): (r: seq<ErrorRecord>)
    ensures |r| == |errs|
    ensures forall k :: 0 <= k < |errs| ==> r[k] == ErrorRecord(errs[k], attrs)
  {
    seq(|errs|, k requires 0 <= k < |errs| => ErrorRecord(errs[k], attrs))
  }

  /**
    Recording a list of errors appends exactly one record per error, in list
    order, and changes nothing else; a span that is not recording is left as it is.
   */
  lemma {:induction false} WithErrorsEffect(s: SpanState, errs: seq<ErrorValue>, attrs: seq<Attr>)
    ensures WithErrors(s, errs, attrs)
         == if s.recording then s.(errors := s.errors + ErrorRecords(errs, attrs)) else s
    decreases |errs|
  {
    if errs != [] {
      var init := errs[..|errs| - 1];
      WithErrorsEffect(s, init, attrs);
      assert ErrorRecords(errs, attrs) == ErrorRecords(init, attrs) + [ErrorRecord(errs[|errs| - 1], attrs)];
    }
  }

  /** A live OpenTelemetry span (the SDK's read-write span). */
  class Span {
    var recording: bool
    var events: seq<Event>
    var errors: seq<ErrorRecord>
    var status: Status
    var attrs: seq<Attr>

    function State(): SpanState
      reads this
    {
      SpanState(recording, events, errors, status, attrs)
    }

    constructor (recording: bool)
      ensures State() == SpanState(recording, [], [], Status(StatusUnset, ""), [])
    {
      this.recording := recording;
      events := [];
      errors := [];
      status := Status(StatusUnset, "");
      attrs := [];
    }

    method IsRecording() returns (r: bool)
      ensures r == recording
    {
      r := recording;
    }

    method AddEvent(name: string, eventAttrs: seq<Attr>, now: Time)
      modifies this
      ensures State() == WithEvent(old(State()), name, eventAttrs, now)
    {
      if recording {
        events := events + [Event(name, eventAttrs, now)];
      }
    }

    /** `span.RecordError(err, attributes)`; a nil error (None) is ignored, as the SDK does. */
    method RecordError(err: Option<ErrorValue>, errAttrs: seq<Attr>)
      modifies this
      ensures err.Some? ==> State() == WithError(old(State()), err.value, errAttrs)
      ensures err.None? ==> State() == old(State())
    {
      if err.Some? && recording {
        errors := errors + [ErrorRecord(err.value, errAttrs)];
      }
    }

    method SetStatus(code: StatusCode, description: string)
      modifies this
      ensures State() == WithStatus(old(State()), Status(code, description))
    {
      if recording {
        status := Status(code, description);
      }
    }

    method SetAttributes(newAttrs: seq<Attr>)
      modifies this
      ensures State() == WithAttributes(old(State()), newAttrs)
    {
      if recording {
        attrs := attrs + newAttrs;
      }
    }
  }

  /** A `context.Context`, seen only through the span it carries; null stands for "no span". */
  datatype Context = Context(span: Span?)

  /**
    `trace.SpanFromContext`: the carried span, or null for the no-op span,
    which never records.
   */
  function SpanFromContext(ctx: Context): Span? {
    ctx.span
  }

  // --- zap fields and log records

  /** What a `zapcore.Field` carries, by field type. */
  datatype Payload =
    | StringVal(s: string)
    | Int64Val(i: int64)
    | DurationVal(nanos: int64)
    | BoolVal(b: bool)
    | ErrorVal(err: ErrorValue)
    | TimeVal(t: Time)
    | SpanVal(span: Span)
    | ContextVal(ctx: Context)
    | OtherVal(kind: string)

  datatype Field = Field(key: string, payload: Payload)

  /** The field's `String` member: set by string fields only, "" otherwise. */
  function FieldString(f: Field): string {
    if f.payload.StringVal? then f.payload.s else ""
  }

  /** A `zapcore.Entry` as the bridge sees it. */
  datatype LogEntry = LogEntry(level: Level, message: string)

  /** One entry a logger wrote, with its fields. */
  datatype Record = Record(entry: LogEntry, fields: seq<Field>)

  /** A zap logger: its core's level filter and the records it has written. */
  class Logger {
    const enabled: Level -> bool
    var writes: seq<Record>

    constructor (enabled: Level -> bool)
      ensures this.enabled == enabled && writes == []
    {
      this.enabled := enabled;
      writes := [];
    }

    /** `logger.Check(level, msg) != nil`: the core accepts the level. */
    method Check(l: Level) returns (accepted: bool)
      ensures accepted == enabled(l)
    {
      accepted := enabled(l);
    }

    /** `ce.Write(fields...)` on a checked entry. */
    method Write(r: Record)
      modifies this
      ensures writes == old(writes) + [r]
    {
      writes := writes + [r];
    }
  }

  /** Trace and span ids, as the hex strings the SDK renders. */
  datatype SpanContext = SpanContext(spanIdHex: string, traceIdHex: string)

  /** A span handed to a span processor when it ends. */
  datatype ReadOnlySpan = ReadOnlySpan(attrs: seq<Attr>, events: seq<Event>, ctx: SpanContext)

  /** zap's `PrimitiveArrayEncoder`, as a level encoder sees it: the strings appended so far. */
  class ArrayEncoder {
    var items: seq<string>

    constructor ()
      ensures items == []
    {
      items := [];
    }

    /** `enc.AppendString(s)`. */
    method AppendString(s: string)
      modifies this
      ensures items == old(items) + [s]
    {
      items := items + [s];
    }
  }
}
