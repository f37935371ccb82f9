/**
  Span helpers for application code: add one event carrying a fixed level
  attribute, then mark the span as failed and record each error. The
  variants ending in `ToSpan` take the span from a context and do nothing
  when it is not recording.
 */
module Sugar {
  import opened Wrappers
  import opened Levels
  import opened Consts
  import opened Telemetry

  /** The attribute every helper event carries: the level name under the default level key. */
  function LevelAttrs(levelName: string): seq<Attr> {
    [Attr(DefaultLevelKey, AStr(levelName))]
  }

  /** The attribute `RecordErrors` sets before recording errors. */
  const ErrorFlag: Attr := Attr("error", ABool(true))

  /**
    The errors of a variadic `err ...error` list that are not nil, in order;
    None stands for a nil error.
   */
  function NonNil(errs: seq<Option<ErrorValue>>): seq<ErrorValue>
    decreases |errs|
  {
    if errs == [] then []
    else NonNil(errs[..|errs| - 1]) + ToSeq(errs[|errs| - 1])
  }

  lemma NonNilStep(errs: seq<Option<ErrorValue>>, i: int)
    requires 0 <= i < |errs|
    ensures NonNil(errs[..i + 1]) == NonNil(errs[..i]) + ToSeq(errs[i])
  {
    assert errs[..i + 1][..i] == errs[..i];
  }

  /**
    The span state after `RecordErrors(span, errs...)`: a non-empty list marks
    the span failed even when every error in it is nil.
   */
  function RecordErrorsSpec(s: SpanState, errs: seq<Option<ErrorValue>>): SpanState {
    if errs == [] then s
    else WithErrors(WithAttributes(WithStatus(s, Status(StatusError, "")), [ErrorFlag]), NonNil(errs), [])
  }

  /** The span state after one of the `AddXEvent` helpers with level name `levelName`. */
  function LevelEventSpec(s: SpanState, levelName: string, msg: string, errs: seq<Option<ErrorValue>>, now: Time): SpanState {
    RecordErrorsSpec(WithEvent(s, msg, LevelAttrs(levelName), now), errs)
  }

  /**
    Marks the span as failed, flags it with `error=true` for Jaeger, then
    records each error, in order; nothing happens for an empty list.
   */
  method RecordErrors(span: Span, errs: seq<Option<ErrorValue>>)
    modifies span
    ensures span.State() == RecordErrorsSpec(old(span.State()), errs)
  {
    if |errs| == 0 {
      return;
    }

    span.SetStatus(StatusError, "");

    // Jaeger needs this
    span.SetAttributes([ErrorFlag]);

    ghost var flagged := span.State();
    var i := 0;
    while i < |errs|
      invariant 0 <= i <= |errs|
      invariant span.State() == WithErrors(flagged, NonNil(errs[..i]), [])
    {
      NonNilStep(errs, i);
      var kept := NonNil(errs[..i]);
      span.RecordError(errs[i], []);
      if errs[i].Some? {
        assert NonNil(errs[..i + 1]) == kept + [errs[i].value];
        assert (kept + [errs[i].value])[..|kept|] == kept;
      } else {
        assert NonNil(errs[..i + 1]) == kept;
      }
      i := i + 1;
    }
    assert errs[..i] == errs;
  }

  method AddLevelEvent(span: Span, levelName: string, msg: string, errs: seq<Option<ErrorValue>>, now: Time)
    modifies span
    ensures span.State() == LevelEventSpec(old(span.State()), levelName, msg, errs, now)
  {
    span.AddEvent(msg, LevelAttrs(levelName), now);
    RecordErrors(span, errs);
  }

  method AddDebugEvent(span: Span, msg: string, errs: seq<Option<ErrorValue>>, now: Time)
    modifies span
    ensures span.State() == LevelEventSpec(old(span.State()), "debug", msg, errs, now)
  {
    AddLevelEvent(span, "debug", msg, errs, now);
  }

  method AddInfoEvent(span: Span, msg: string, errs: seq<Option<ErrorValue>>, now: Time)
    modifies span
    ensures span.State() == LevelEventSpec(old(span.State()), "info", msg, errs, now)
  {
    AddLevelEvent(span, "info", msg, errs, now);
  }

  method AddWarnEvent(span: Span, msg: string, errs: seq<Option<ErrorValue>>, now: Time)
    modifies span
    ensures span.State() == LevelEventSpec(old(span.State()), "warn", msg, errs, now)
  {
    AddLevelEvent(span, "warn", msg, errs, now);
  }

  method AddErrorEvent(span: Span, msg: string, errs: seq<Option<ErrorValue>>, now: Time)
    modifies span
    ensures span.State() == LevelEventSpec(old(span.State()), "error", msg, errs, now)
  {
    AddLevelEvent(span, "error", msg, errs, now);
  }

  method AddFatalEvent(span: Span, msg: string, errs: seq<Option<ErrorValue>>, now: Time)
    modifies span
    ensures span.State() == LevelEventSpec(old(span.State()), "fatal", msg, errs, now)
  {
    AddLevelEvent(span, "fatal", msg, errs, now);
  }

  /** The frame of the `ToSpan` variants: the span the context carries, if any. */
  function ContextFrame(ctx: Context): set<Span> {
    if SpanFromContext(ctx) != null then {SpanFromContext(ctx)} else {}
  }

  /**
    The shared body of the `ToSpan` variants: a missing or non-recording span
    is left alone, any other gets the helper event.
   */
  method AddLevelEventToSpan(ctx: Context, levelName: string, msg: string, errs: seq<Option<ErrorValue>>, now: Time)
    modifies ContextFrame(ctx)
    ensures SpanFromContext(ctx) != null ==>
      SpanFromContext(ctx).State()
        == if old(SpanFromContext(ctx).recording)
           then LevelEventSpec(old(SpanFromContext(ctx).State()), levelName, msg, errs, now)
           else old(SpanFromContext(ctx).State())
  {
    var span := SpanFromContext(ctx);
    if span == null {
      // eg. noop span or missing
      return;
    }
    var recording := span.IsRecording();
    if !recording {
      return;
    }
    AddLevelEvent(span, levelName, msg, errs, now);
  }

  method AddDebugEventToSpan(ctx: Context, msg: string, errs: seq<Option<ErrorValue>>, now: Time)
    modifies ContextFrame(ctx)
    ensures SpanFromContext(ctx) != null ==>
      SpanFromContext(ctx).State()
        == if old(SpanFromContext(ctx).recording)
           then LevelEventSpec(old(SpanFromContext(ctx).State()), "debug", msg, errs, now)
           else old(SpanFromContext(ctx).State())
  {
    AddLevelEventToSpan(ctx, "debug", msg, errs, now);
  }

  method AddInfoEventToSpan(ctx: Context, msg: string, errs: seq<Option<ErrorValue>>, now: Time)
    modifies ContextFrame(ctx)
    ensures SpanFromContext(ctx) != null ==>
      SpanFromContext(ctx).State()
        == if old(SpanFromContext(ctx).recording)
           then LevelEventSpec(old(SpanFromContext(ctx).State()), "info", msg, errs, now)
           else old(SpanFromContext(ctx).State())
  {
    AddLevelEventToSpan(ctx, "info", msg, errs, now);
  }

  method AddWarnEventToSpan(ctx: Context, msg: string, errs: seq<Option<ErrorValue>>, now: Time)
    modifies ContextFrame(ctx)
    ensures SpanFromContext(ctx) != null ==>
      SpanFromContext(ctx).State()
        == if old(SpanFromContext(ctx).recording)
           then LevelEventSpec(old(SpanFromContext(ctx).State()), "warn", msg, errs, now)
           else old(SpanFromContext(ctx).State())
  {
    AddLevelEventToSpan(ctx, "warn", msg, errs, now);
  }

  method AddErrorEventToSpan(ctx: Context, msg: string, errs: seq<Option<ErrorValue>>, now: Time)
    modifies ContextFrame(ctx)
    ensures SpanFromContext(ctx) != null ==>
      SpanFromContext(ctx).State()
        == if old(SpanFromContext(ctx).recording)
           then LevelEventSpec(old(SpanFromContext(ctx).State()), "error", msg, errs, now)
           else old(SpanFromContext(ctx).State())
  {
    AddLevelEventToSpan(ctx, "error", msg, errs, now);
  }

  method AddFatalEventToSpan(ctx: Context, msg: string, errs: seq<Option<ErrorValue>>, now: Time)
    modifies ContextFrame(ctx)
    ensures SpanFromContext(ctx) != null ==>
      SpanFromContext(ctx).State()
        == if old(SpanFromContext(ctx).recording)
           then LevelEventSpec(old(SpanFromContext(ctx).State()), "fatal", msg, errs, now)
           else old(SpanFromContext(ctx).State())
  {
    AddLevelEventToSpan(ctx, "fatal", msg, errs, now);
  }

  // --- Properties

  /**
    On a recording span, `RecordErrors` with at least one error sets the
    status to Error with an empty description, appends `error=true` to the
    attributes and one record per error, in order, with no attributes; the
    events are untouched.
   */
  lemma RecordErrorsEffect(s: SpanState, errs: seq<Option<ErrorValue>>)
    requires s.recording && errs != []
    ensures var r := RecordErrorsSpec(s, errs);
            && r.recording && r.events == s.events
            && r.status == Status(StatusError, "")
            && r.attrs == s.attrs + [ErrorFlag]
            && r.errors == s.errors + ErrorRecords(NonNil(errs), [])
  {
    WithErrorsEffect(WithAttributes(WithStatus(s, Status(StatusError, "")), [ErrorFlag]), NonNil(errs), []);
  }

  /** The errors kept are those of the list that are not nil, one each, in list order. */
  lemma {:induction false} NonNilInOrder(errs: seq<Option<ErrorValue>>)
    ensures |NonNil(errs)| <= |errs|
    ensures forall e :: e in NonNil(errs) <==> Some(e) in errs
    decreases |errs|
  {
    if errs != [] {
      var init := errs[..|errs| - 1];
      NonNilInOrder(init);
      assert errs == init + [errs[|errs| - 1]];
    }
  }

  /**
    A list holding only nil errors still marks the span failed and flags it,
    but records nothing.
   */
  lemma {:induction false} NilErrorsStillMarkFailed(s: SpanState, errs: seq<Option<ErrorValue>>)
    requires s.recording && errs != []
    requires forall i :: 0 <= i < |errs| ==> errs[i].None?
    ensures var r := RecordErrorsSpec(s, errs);
            && r.status == Status(StatusError, "")
            && r.attrs == s.attrs + [ErrorFlag]
            && r.errors == s.errors
  {
    RecordErrorsEffect(s, errs);
    NonNilOfNils(errs);
  }

  lemma {:induction false} NonNilOfNils(errs: seq<Option<ErrorValue>>)
    requires forall i :: 0 <= i < |errs| ==> errs[i].None?
    ensures NonNil(errs) == []
    decreases |errs|
  {
    if errs != [] {
      var init := errs[..|errs| - 1];
      assert forall i :: 0 <= i < |init| ==> init[i] == errs[i];
      NonNilOfNils(init);
    }
  }

  /** With no errors, or on a span that is not recording, `RecordErrors` changes nothing. */
  lemma RecordErrorsNoop(s: SpanState, errs: seq<Option<ErrorValue>>)
    requires errs == [] || !s.recording
    ensures RecordErrorsSpec(s, errs) == s
  {
    if errs != [] {
      WithErrorsEffect(WithAttributes(WithStatus(s, Status(StatusError, "")), [ErrorFlag]), NonNil(errs), []);
    }
  }

  /**
    A helper event on a recording span comes first: exactly one event named
    `msg` whose only attribute is the level under the default level key, and
    then the error handling.
   */
  lemma LevelEventEffect(s: SpanState, levelName: string, msg: string, errs: seq<Option<ErrorValue>>, now: Time)
    requires s.recording
    ensures var r := LevelEventSpec(s, levelName, msg, errs, now);
            && r.events == s.events + [Event(msg, [Attr(DefaultLevelKey, AStr(levelName))], now)]
            && r.errors == s.errors + ErrorRecords(NonNil(errs), [])
            && (errs == [] ==> r.status == s.status && r.attrs == s.attrs)
            && (errs != [] ==> r.status == Status(StatusError, "") && r.attrs == s.attrs + [ErrorFlag])
  {
    var e := WithEvent(s, msg, LevelAttrs(levelName), now);
    if errs == [] {
      assert ErrorRecords(NonNil(errs), []) == [];
    } else {
      RecordErrorsEffect(e, errs);
    }
  }
}
