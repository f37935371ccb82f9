/**
  The log-to-span forwarder, `OTelZapCore`. `Write` looks among an entry's
  fields for a span, or for a context that carries one, and `AddEventToSpan`
  turns the entry into one span event plus one error record per error field.

  Two parameters stand for code outside the repository: `now` is the clock
  the SDK stamps events with, and `render` is `fmt.Sprintf("%v", ...)` of a
  field payload that has no attribute kind of its own.
 */
module ZapCore {
  import opened Wrappers
  import opened Text
  import opened Consts
  import opened Levels
  import opened Telemetry
  import opened ZapGetters

  /** The core accepts every level: filtering is left to OpenTelemetry. */
  function Enabled(oc: OTelZapCore, l: Level): (r: bool)
    ensures r
  {
    true
  }

  /** A copy of the core whose extra fields are `fields`; the receiver is a value and is not changed. */
  function With(oc: OTelZapCore, fields: seq<Field>): (r: OTelZapCore)
    ensures r.extraFields == fields
    ensures r.(extraFields := oc.extraFields) == oc
  {
    oc.(extraFields := fields)
  }

  // --- What AddEventToSpan computes

  /** The field holds the span or the context handle, so it is not copied. */
  predicate IsHandleKey(k: CoreKeys, f: Field) {
    f.key == k.spanKey || f.key == k.contextKey
  }

  /** The field is a source tag written by this forwarder or by its counterpart. */
  predicate IsLoopTag(k: CoreKeys, f: Field) {
    f.key == k.sourceKey
    && (FieldString(f) == k.sourceValue || FieldString(f) == DefaultOtelSourceValue)
  }

  /** A field the copy loop reaches that makes it return early. */
  predicate Trips(k: CoreKeys, f: Field) {
    !IsHandleKey(k, f) && IsLoopTag(k, f)
  }

  /** Some field trips the loop guard, so the whole forward is dropped. */
  predicate Aborts(k: CoreKeys, fields: seq<Field>) {
    exists i :: 0 <= i < |fields| && Trips(k, fields[i])
  }

  /** The two attributes every forwarded event starts with: the source tag, then the level name. */
  function Header(k: CoreKeys, entry: LogEntry): seq<Attr> {
    [Attr(k.sourceKey, AStr(k.sourceValue)),
     Attr(k.levelKey, AStr(LevelName(entry.level)))]
  }

  /** The attribute value a copied (non-error) payload becomes. */
  function AttrValueOf(p: Payload, render: Payload -> string): AttrValue {
    match p
    case DurationVal(d) => AInt(d)
    case Int64Val(i) => AInt(i)
    case StringVal(s) => AStr(s)
    case BoolVal(b) => ABool(b)
    case _ => AStr(render(p))
  }

  /** The attributes one field adds: none for a handle or an error, one otherwise. */
  function Contribution(k: CoreKeys, f: Field, render: Payload -> string): seq<Attr> {
    if IsHandleKey(k, f) || f.payload.ErrorVal? then [] else [Attr(f.key, AttrValueOf(f.payload, render))]
  }

  /** The errors one field sets aside: its error when it is an error field that is not a handle. */
  function ErrorContribution(k: CoreKeys, f: Field): seq<ErrorValue> {
    if !IsHandleKey(k, f) && f.payload.ErrorVal? then [f.payload.err] else []
  }

  function CopiedAttrs(k: CoreKeys, fields: seq<Field>, render: Payload -> string): seq<Attr>
    decreases |fields|
  {
    if fields == [] then []
    else CopiedAttrs(k, fields[..|fields| - 1], render) + Contribution(k, fields[|fields| - 1], render)
  }

  function CollectedErrors(k: CoreKeys, fields: seq<Field>): seq<ErrorValue>
    decreases |fields|
  {
    if fields == [] then []
    else CollectedErrors(k, fields[..|fields| - 1]) + ErrorContribution(k, fields[|fields| - 1])
  }

  /** The attribute list of the forwarded event, which each error record carries too. */
  function EventAttrs(k: CoreKeys, entry: LogEntry, fields: seq<Field>, render: Payload -> string): seq<Attr> {
    Header(k, entry) + CopiedAttrs(k, fields, render)
  }

  /** The span state after forwarding `entry` with `fields` to a span in state `s`. */
  function Forward(k: CoreKeys, entry: LogEntry, fields: seq<Field>, now: Time,
                   render: Payload -> string, s: SpanState): SpanState
  {
    if Aborts(k, fields) then s
    else
      var attrs := EventAttrs(k, entry, fields, render);
      WithErrors(WithEvent(s, entry.message, attrs, now), CollectedErrors(k, fields), attrs)
  }

  /** How the prefix summaries grow by one field: the abort test... */
  lemma AbortsStep(k: CoreKeys, fields: seq<Field>, i: int)
    requires 0 <= i < |fields|
    ensures Aborts(k, fields[..i + 1]) == (Aborts(k, fields[..i]) || Trips(k, fields[i]))
  {
    assert fields[..i + 1][..i] == fields[..i];
    if Aborts(k, fields[..i + 1]) && !Trips(k, fields[i]) {
      var j :| 0 <= j < i + 1 && Trips(k, fields[..i + 1][j]);
      assert fields[..i][j] == fields[..i + 1][j];
    }
    if Aborts(k, fields[..i]) {
      var j :| 0 <= j < i && Trips(k, fields[..i][j]);
      assert fields[..i + 1][j] == fields[..i][j];
    }
    if Trips(k, fields[i]) {
      assert fields[..i + 1][i] == fields[i];
    }
  }

  /** ... the copied attributes ... */
  lemma CopiedStep(k: CoreKeys, fields: seq<Field>, i: int, render: Payload -> string)
    requires 0 <= i < |fields|
    ensures CopiedAttrs(k, fields[..i + 1], render)
         == CopiedAttrs(k, fields[..i], render) + Contribution(k, fields[i], render)
  {
    assert fields[..i + 1][..i] == fields[..i];
  }

  /** ... and the collected errors. */
  lemma CollectedStep(k: CoreKeys, fields: seq<Field>, i: int)
    requires 0 <= i < |fields|
    ensures CollectedErrors(k, fields[..i + 1])
         == CollectedErrors(k, fields[..i]) + ErrorContribution(k, fields[i])
  {
    assert fields[..i + 1][..i] == fields[..i];
  }

  // --- Write's choice of span

  /** How `Write` treats the field that decides where the entry goes. */
  datatype Handle = NoHandle | InvalidSpan | InvalidContext | DirectSpan(span: Span) | InContext(ctx: Context)

  /** `Write` matches the span key through its getter but the context key on the raw configured string. */
  predicate IsWriteHandle(k: CoreKeys, f: Field) {
    f.key == k.spanKey || f.key == k.rawContextKey
  }

  function Classify(k: CoreKeys, f: Field): Handle {
    if f.key == k.spanKey then
      (if f.payload.SpanVal? then DirectSpan(f.payload.span) else InvalidSpan)
    else if f.key == k.rawContextKey then
      (if f.payload.ContextVal? then InContext(f.payload.ctx) else InvalidContext)
    else NoHandle
  }

  /** The handle of the first field whose key matches, or NoHandle. */
  function Decide(k: CoreKeys, fields: seq<Field>): Handle
    decreases |fields|
  {
    if fields == [] then NoHandle
    else if IsWriteHandle(k, fields[0]) then Classify(k, fields[0])
    else Decide(k, fields[1..])
  }

  function WriteError(h: Handle): Option<string> {
    match h
    case InvalidSpan => Some("invalid span type")
    case InvalidContext => Some("invalid context type")
    case _ => None
  }

  /** The span a decision forwards to, or null. */
  function Target(h: Handle): Span? {
    match h
    case DirectSpan(s) => s
    case InContext(c) => SpanFromContext(c)
    case _ => null
  }

  /** The span a field payload would hand to `Write`, or null. */
  function PayloadSpan(p: Payload): Span? {
    match p
    case SpanVal(s) => s
    case ContextVal(c) => SpanFromContext(c)
    case _ => null
  }

  /** Every span reachable from the fields: all `Write` may change. */
  function HandleSpans(fields: seq<Field>): set<Span?> {
    set i | 0 <= i < |fields| && PayloadSpan(fields[i].payload) != null :: PayloadSpan(fields[i].payload)
  }

  /** One step of the search for the deciding field. */
  lemma DecideStep(k: CoreKeys, fields: seq<Field>, i: int)
    requires 0 <= i < |fields|
    ensures Decide(k, fields[i..])
         == if IsWriteHandle(k, fields[i]) then Classify(k, fields[i]) else Decide(k, fields[i + 1..])
  {
    assert fields[i..][0] == fields[i] && fields[i..][1..] == fields[i + 1..];
  }

  // --- The operations

  /**
    The copy loop: walks the fields in order, skipping handles, setting error
    fields aside and turning every other field into an attribute after the
    two header attributes; a loop tag stops the walk and reports an abort.
   */
  method CopyFields(keys: CoreKeys, entry: LogEntry, fields: seq<Field>, render: Payload -> string)
    returns (aborted: bool, opts: seq<Attr>, errorsToRecord: seq<ErrorValue>)
    ensures aborted == Aborts(keys, fields)
    ensures !aborted ==> opts == EventAttrs(keys, entry, fields, render)
    ensures !aborted ==> errorsToRecord == CollectedErrors(keys, fields)
  {
    opts := [Attr(keys.sourceKey, AStr(keys.sourceValue))];
    opts := opts + [Attr(keys.levelKey, AStr(LevelName(entry.level)))];
    errorsToRecord := [];

    var i := 0;
    while i < |fields|
      invariant 0 <= i <= |fields|
      invariant !Aborts(keys, fields[..i])
      invariant opts == Header(keys, entry) + CopiedAttrs(keys, fields[..i], render)
      invariant errorsToRecord == CollectedErrors(keys, fields[..i])
    {
      var f := fields[i];
      AbortsStep(keys, fields, i);
      CopiedStep(keys, fields, i, render);
      CollectedStep(keys, fields, i);
      if f.key == keys.spanKey || f.key == keys.contextKey {
        i := i + 1;
        continue;
      }

      var sourceIsMe := FieldString(f) == keys.sourceValue;
      var sourceIsMyDual := FieldString(f) == DefaultOtelSourceValue;
      if f.key == keys.sourceKey && (sourceIsMe || sourceIsMyDual) {
        assert Trips(keys, fields[i]);
        assert Aborts(keys, fields);
        return true, opts, errorsToRecord;
      }

      if f.payload.ErrorVal? {
        errorsToRecord := errorsToRecord + [f.payload.err];
      } else {
        opts := opts + [Attr(f.key, AttrValueOf(f.payload, render))];
      }
      i := i + 1;
    }
    assert fields[..i] == fields;
    aborted := false;
  }

  /**
    Adds one event named after the message to `span` with the entry's fields
    as attributes, then records each error field, unless a field carries
    this forwarder's or the counterpart's source tag. The getters are pure,
    so their results are read once.
   */
  method AddEventToSpan(oc: OTelZapCore, span: Span, entry: LogEntry, fields: seq<Field>,
                        now: Time, render: Payload -> string)
    returns (err: Option<string>)
    modifies span
    ensures err == None
    ensures span.State() == Forward(Keys(oc), entry, fields, now, render, old(span.State()))
  {
    var keys := Keys(oc);
    var aborted, opts, errorsToRecord := CopyFields(keys, entry, fields, render);
    if aborted {
      return None;
    }

    EmitEvent(span, entry.message, opts, errorsToRecord, now);
    return None;
  }

  /** Adds the event, then records each error with the event's attributes, in order. */
  method EmitEvent(span: Span, name: string, opts: seq<Attr>, errorsToRecord: seq<ErrorValue>, now: Time)
    modifies span
    ensures span.State() == WithErrors(WithEvent(old(span.State()), name, opts, now), errorsToRecord, opts)
  {
    span.AddEvent(name, opts, now);

    ghost var afterEvent := span.State();
    var j := 0;
    while j < |errorsToRecord|
      invariant 0 <= j <= |errorsToRecord|
      invariant span.State() == WithErrors(afterEvent, errorsToRecord[..j], opts)
    {
      assert errorsToRecord[..j + 1][..j] == errorsToRecord[..j];
      span.RecordError(Some(errorsToRecord[j]), opts);
      j := j + 1;
    }
    assert errorsToRecord[..j] == errorsToRecord;
  }

  /** Forwards to the span the context carries, when that span is recording. */
  method AddEventToSpanInContext(oc: OTelZapCore, ctx: Context, entry: LogEntry, fields: seq<Field>,
                                 now: Time, render: Payload -> string)
    returns (err: Option<string>)
    modifies if SpanFromContext(ctx) != null then {SpanFromContext(ctx)} else {}
    ensures err == None
    ensures SpanFromContext(ctx) != null ==>
      SpanFromContext(ctx).State()
        == if old(SpanFromContext(ctx).recording)
           then Forward(Keys(oc), entry, fields, now, render, old(SpanFromContext(ctx).State()))
           else old(SpanFromContext(ctx).State())
  {
    var span := SpanFromContext(ctx);
    if span == null {
      // the no-op span, which never records
      return None;
    }
    var recording := span.IsRecording();
    if !recording {
      return None;
    }
    err := AddEventToSpan(oc, span, entry, fields, now, render);
  }

  /**
    The loop of `Write` up to the field it returns at: the index of the first
    field keyed by the span key or the raw context key, or the number of
    fields when there is none.
   */
  method FindDecider(keys: CoreKeys, fields: seq<Field>) returns (i: nat)
    ensures i <= |fields|
    ensures forall j :: 0 <= j < i ==> !IsWriteHandle(keys, fields[j])
    ensures i == |fields| ==> Decide(keys, fields) == NoHandle
    ensures i < |fields| ==> IsWriteHandle(keys, fields[i]) && Decide(keys, fields) == Classify(keys, fields[i])
  {
    i := 0;
    while i < |fields| && !(fields[i].key == keys.spanKey || fields[i].key == keys.rawContextKey)
      invariant 0 <= i <= |fields|
      invariant forall j :: 0 <= j < i ==> !IsWriteHandle(keys, fields[j])
      invariant Decide(keys, fields) == Decide(keys, fields[i..])
    {
      DecideStep(keys, fields, i);
      i := i + 1;
    }
    if i < |fields| {
      DecideStep(keys, fields, i);
    }
  }

  /**
    The zap sink: the first field keyed by the span key or by the raw context
    key decides where the entry goes; a payload of the wrong type is an error.
   */
  method Write(oc: OTelZapCore, entry: LogEntry, fields: seq<Field>, now: Time, render: Payload -> string)
    returns (err: Option<string>)
    modifies HandleSpans(fields)
    ensures err == WriteError(Decide(Keys(oc), fields))
    ensures forall sp :: sp in HandleSpans(fields) && sp != Target(Decide(Keys(oc), fields)) ==>
      sp.State() == old(sp.State())
    ensures Target(Decide(Keys(oc), fields)) != null ==>
      Target(Decide(Keys(oc), fields)).State()
        == Forward(Keys(oc), entry, fields, now, render, old(Target(Decide(Keys(oc), fields)).State()))
  {
    if |fields| == 0 {
      return None;
    }

    var keys := Keys(oc);
    var i := FindDecider(keys, fields);
    if i == |fields| {
      return None;
    }

    var f := fields[i];
    if f.key == keys.spanKey {
      if !f.payload.SpanVal? {
        return Some("invalid span type");
      }
      var span := f.payload.span;
      assert PayloadSpan(fields[i].payload) == span;
      err := AddEventToSpan(oc, span, entry, fields, now, render);
      return;
    }

    // not the span key, so the raw context key
    if !f.payload.ContextVal? {
      return Some("invalid context type");
    }
    var ctx := f.payload.ctx;
    assert PayloadSpan(fields[i].payload) == SpanFromContext(ctx);
    if SpanFromContext(ctx) != null && !SpanFromContext(ctx).recording {
      ForwardNotRecording(keys, entry, fields, now, render, SpanFromContext(ctx).State());
    }
    err := AddEventToSpanInContext(oc, ctx, entry, fields, now, render);
  }

  /**
    Checks that each getter is non-blank, in order; every getter falls back
    to a non-blank default, so no check ever fails.
   */
  function Validate(oc: OTelZapCore): (r: Option<string>)
    ensures r == None
  {
    TrimSpaceOfTrimmed(GetContextAttrKey(oc));
    TrimSpaceOfTrimmed(GetEventSourceKey(oc));
    TrimSpaceOfTrimmed(GetEventSourceValue(oc));
    TrimSpaceOfTrimmed(GetLevelKey(oc));
    TrimSpaceOfTrimmed(GetSpanAttrKey(oc));
    if TrimSpace(GetContextAttrKey(oc)) == "" then Some("contextAttrKey required")
    else if TrimSpace(GetEventSourceKey(oc)) == "" then Some("eventSourceKey required")
    else if TrimSpace(GetEventSourceValue(oc)) == "" then Some("eventSourceValue required")
    else if TrimSpace(GetLevelKey(oc)) == "" then Some("levelKey required")
    else if TrimSpace(GetSpanAttrKey(oc)) == "" then Some("spanAttrKey required")
    else None
  }

  // --- Properties

  /** Forwarding to a span that is not recording changes nothing. */
  lemma ForwardNotRecording(k: CoreKeys, entry: LogEntry, fields: seq<Field>, now: Time,
                            render: Payload -> string, s: SpanState)
    requires !s.recording
    ensures Forward(k, entry, fields, now, render, s) == s
  {
    if !Aborts(k, fields) {
      var attrs := EventAttrs(k, entry, fields, render);
      WithErrorsEffect(WithEvent(s, entry.message, attrs, now), CollectedErrors(k, fields), attrs);
    }
  }

  /**
    Loop guard: one field with this forwarder's or the counterpart's tag under
    the source key drops the whole forward, error fields before it included.
   */
  lemma LoopTagAborts(k: CoreKeys, entry: LogEntry, fields: seq<Field>, now: Time,
                      render: Payload -> string, s: SpanState, n: int)
    requires 0 <= n < |fields|
    requires fields[n].key == k.sourceKey && !IsHandleKey(k, fields[n])
    requires fields[n].payload == StringVal(k.sourceValue)
          || fields[n].payload == StringVal(DefaultOtelSourceValue)
    ensures Forward(k, entry, fields, now, render, s) == s
  {
    assert Trips(k, fields[n]);
  }

  /**
    A forward that is not dropped adds exactly one event, named after the
    message, whose attributes are the source tag, the level name and the
    copied fields, then one error record per collected error, in order,
    carrying the same attributes; nothing else about the span changes.
   */
  lemma ForwardEffect(k: CoreKeys, entry: LogEntry, fields: seq<Field>, now: Time,
                      render: Payload -> string, s: SpanState)
    requires !Aborts(k, fields) && s.recording
    ensures var r := Forward(k, entry, fields, now, render, s);
            var attrs := EventAttrs(k, entry, fields, render);
            && r.recording && r.status == s.status && r.attrs == s.attrs
            && r.events == s.events + [Event(entry.message, attrs, now)]
            && attrs[0] == Attr(k.sourceKey, AStr(k.sourceValue))
            && attrs[1] == Attr(k.levelKey, AStr(LevelName(entry.level)))
            && attrs[2..] == CopiedAttrs(k, fields, render)
            && r.errors == s.errors + ErrorRecords(CollectedErrors(k, fields), attrs)
  {
    var attrs := EventAttrs(k, entry, fields, render);
    WithErrorsEffect(WithEvent(s, entry.message, attrs, now), CollectedErrors(k, fields), attrs);
  }

  /** Fields are copied one at a time: the attributes of two runs of fields are those of each run. */
  lemma {:induction false} CopiedAttrsAppend(k: CoreKeys, a: seq<Field>, b: seq<Field>, render: Payload -> string)
    ensures CopiedAttrs(k, a + b, render) == CopiedAttrs(k, a, render) + CopiedAttrs(k, b, render)
    decreases |b|
  {
    if b == [] {
      assert a + b == a;
    } else {
      var init := b[..|b| - 1];
      assert (a + b)[..|a + b| - 1] == a + init;
      assert (a + b)[|a + b| - 1] == b[|b| - 1];
      CopiedAttrsAppend(k, a, init, render);
    }
  }

  /** Errors are collected one field at a time: those of two runs of fields are those of each run. */
  lemma {:induction false} CollectedErrorsAppend(k: CoreKeys, a: seq<Field>, b: seq<Field>)
    ensures CollectedErrors(k, a + b) == CollectedErrors(k, a) + CollectedErrors(k, b)
    decreases |b|
  {
    if b == [] {
      assert a + b == a;
    } else {
      var init := b[..|b| - 1];
      assert (a + b)[..|a + b| - 1] == a + init;
      assert (a + b)[|a + b| - 1] == b[|b| - 1];
      CollectedErrorsAppend(k, a, init);
    }
  }

  /** No copied attribute is keyed by the span key or the context key. */
  lemma {:induction false} CopiedAttrsSkipHandles(k: CoreKeys, fields: seq<Field>, render: Payload -> string)
    ensures forall a :: a in CopiedAttrs(k, fields, render) ==> a.key != k.spanKey && a.key != k.contextKey
    decreases |fields|
  {
    if fields != [] {
      CopiedAttrsSkipHandles(k, fields[..|fields| - 1], render);
    }
  }

  /**
    Without handle or error fields every field is copied, in order, under its
    own key: strings stay strings, int64 and durations become int64, bools
    stay bools, anything else is rendered as a string.
   */
  lemma {:induction false} CopiedAttrsInOrder(k: CoreKeys, fields: seq<Field>, render: Payload -> string)
    requires forall i :: 0 <= i < |fields| ==> !IsHandleKey(k, fields[i]) && !fields[i].payload.ErrorVal?
    ensures |CopiedAttrs(k, fields, render)| == |fields|
    ensures forall i :: 0 <= i < |fields| ==>
      CopiedAttrs(k, fields, render)[i] == Attr(fields[i].key, AttrValueOf(fields[i].payload, render))
    decreases |fields|
  {
    if fields != [] {
      CopiedAttrsInOrder(k, fields[..|fields| - 1], render);
    }
  }

  /** The number of fields keyed by the span key or the context key. */
  function HandleCount(k: CoreKeys, fields: seq<Field>): nat
    decreases |fields|
  {
    if fields == [] then 0
    else HandleCount(k, fields[..|fields| - 1]) + (if IsHandleKey(k, fields[|fields| - 1]) then 1 else 0)
  }

  /** Every field goes exactly one way: skipped as a handle, set aside as an error, or copied. */
  lemma {:induction false} FieldAccounting(k: CoreKeys, fields: seq<Field>, render: Payload -> string)
    ensures |CopiedAttrs(k, fields, render)| + |CollectedErrors(k, fields)| + HandleCount(k, fields) == |fields|
    decreases |fields|
  {
    if fields != [] {
      FieldAccounting(k, fields[..|fields| - 1], render);
    }
  }

  /** Error fields are collected in field order and never become attributes. */
  lemma {:induction false} ErrorsCollectedInOrder(k: CoreKeys, fields: seq<Field>, render: Payload -> string)
    requires forall i :: 0 <= i < |fields| ==> !IsHandleKey(k, fields[i]) && fields[i].payload.ErrorVal?
    ensures CopiedAttrs(k, fields, render) == []
    ensures |CollectedErrors(k, fields)| == |fields|
    ensures forall i :: 0 <= i < |fields| ==> CollectedErrors(k, fields)[i] == fields[i].payload.err
    decreases |fields|
  {
    if fields != [] {
      ErrorsCollectedInOrder(k, fields[..|fields| - 1], render);
    }
  }

  /** `Write` is decided by the first field whose key is the span key or the raw context key. */
  lemma {:induction false} DecideIsFirstHandle(k: CoreKeys, fields: seq<Field>, n: int)
    requires 0 <= n < |fields| && IsWriteHandle(k, fields[n])
    requires forall j :: 0 <= j < n ==> !IsWriteHandle(k, fields[j])
    ensures Decide(k, fields) == Classify(k, fields[n])
    decreases n
  {
    if n > 0 {
      DecideIsFirstHandle(k, fields[1..], n - 1);
    }
  }

  /** With no field keyed by the span key or the raw context key, `Write` does nothing. */
  lemma {:induction false} NoHandleIsNoop(k: CoreKeys, fields: seq<Field>)
    requires forall j :: 0 <= j < |fields| ==> !IsWriteHandle(k, fields[j])
    ensures Decide(k, fields) == NoHandle
    decreases |fields|
  {
    if fields != [] {
      NoHandleIsNoop(k, fields[1..]);
    }
  }

  /**
    With nothing configured, the raw context key is "", not "ctx": a field
    "ctx" holding a context is passed over, while a field keyed "" is taken as
    the context.
   */
  lemma DefaultContextKeyIsRaw(ctx: Context)
    ensures var k := Keys(OTelZapCore("", "", "", "", "", []));
            && k.contextKey == DefaultContextKey
            && Decide(k, [Field(DefaultContextKey, ContextVal(ctx))]) == NoHandle
            && Decide(k, [Field("", ContextVal(ctx))]) == InContext(ctx)
  {
    var oc := OTelZapCore("", "", "", "", "", []);
    assert GetSpanAttrKey(oc) == DefaultSpanKey;
  }

  /**
    `Write` never reads the extra fields that `With` sets: the keys are the
    same, hence so are the choice of span and what is forwarded.
   */
  lemma WithKeepsKeys(oc: OTelZapCore, extra: seq<Field>)
    ensures Keys(With(oc, extra)) == Keys(oc)
  {
  }
}
