/**
  The span-to-log forwarder, `ZapSpanProcessor`. When a span ends, `OnEnd`
  hands each of its events, oldest first, to `LogEvent`, which writes at
  most one log entry per event: the span id, an optional Google Cloud trace
  link, the event time, the span's attributes, the event's attributes and
  this forwarder's source tag.

  Two facts of the code are kept as written. The level named by an event's
  level attribute only gates the event; the entry itself is checked and
  written at the zero `Level` (info), because the parsed level is bound to
  a new variable that shadows the one handed to `Check`. And span-level
  attributes are copied without the source-tag guard.
 */
module SpanProcessor {
  import opened Wrappers
  import opened Text
  import opened Consts
  import opened Levels
  import opened Telemetry
  import opened OTelGetters

  // --- GetZapLevel

  /**
    The string `GetZapLevel` switches on: the trimmed, lower-cased input, or,
    when that is blank, the configured default level exactly as written.
   */
  function LevelInput(zp: ZapSpanProcessor, raw: string): string {
    var clean := ToLower(TrimSpace(raw));
    if clean == "" then zp.defaultLevel else clean
  }

  /**
    Parses a level name: the five names zap's `Level.String()` gives debug,
    info, warn, error and fatal map to those levels, anything else to debug.
   */
  function GetZapLevel(zp: ZapSpanProcessor, raw: string): (l: Level)
    ensures IsNamed(l)
    ensures forall m :: IsNamed(m) && LevelName(m) == LevelInput(zp, raw) ==> l == m
    ensures l != DebugLevel ==> LevelName(l) == LevelInput(zp, raw)
  {
    var clean := LevelInput(zp, raw);
    if clean == "debug" then DebugLevel
    else if clean == "info" then InfoLevel
    else if clean == "warn" then WarnLevel
    else if clean == "error" then ErrorLevel
    else if clean == "fatal" then FatalLevel
    else DebugLevel
  }

  // --- What LogEvent writes

  /** `zap.Any(key, value.AsInterface())` for the attribute kinds of the model. */
  function AttrField(a: Attr): Field {
    match a.value
    case AStr(s) => Field(a.key, StringVal(s))
    case AInt(i) => Field(a.key, Int64Val(i))
    case ABool(b) => Field(a.key, BoolVal(b))
  }

  /** The span attributes, each as a field, in order. */
  function SpanAttrFields(attrs: seq<Attr>): (r: seq<Field>)
    ensures |r| == |attrs|
    ensures forall i :: 0 <= i < |attrs| ==> r[i] == AttrField(attrs[i])
  {
    seq(|attrs|, i requires 0 <= i < |attrs| => AttrField(attrs[i]))
  }

  /** The Google Cloud trace link, `projects/<id>/traces/<trace id>`. */
  function TraceLink(projectId: string, traceIdHex: string): string {
    "projects/" + projectId + "/traces/" + traceIdHex
  }

  /** The fields written before the event's own attributes. */
  function BaseFields(k: ProcessorKeys, zp: ZapSpanProcessor, evt: Event, spanAttrs: seq<Attr>,
                      spanCtx: SpanContext): seq<Field>
  {
    [Field(k.spanIdKey, StringVal(spanCtx.spanIdHex))]
    + (if zp.googleCloudProjectId != ""
       then [Field("trace", StringVal(TraceLink(zp.googleCloudProjectId, spanCtx.traceIdHex)))]
       else [])
    + [Field(k.timestampKey, TimeVal(evt.time))]
    + SpanAttrFields(spanAttrs)
  }

  /** The event attributes that are copied: every one not keyed by the level key. */
  function EventFields(k: ProcessorKeys, attrs: seq<Attr>): seq<Field>
    decreases |attrs|
  {
    if attrs == [] then []
    else
      var last := attrs[|attrs| - 1];
      EventFields(k, attrs[..|attrs| - 1]) + (if last.key == k.levelKey then [] else [AttrField(last)])
  }

  /**
    An event attribute that stops the event from being written: a level
    attribute naming a level the logger's core does not accept, or a source
    tag of this forwarder or of its counterpart.
   */
  predicate Vetoes(zp: ZapSpanProcessor, k: ProcessorKeys, a: Attr, enabled: Level -> bool) {
    if a.key == k.levelKey then !enabled(GetZapLevel(zp, AsString(a.value)))
    else a.key == k.sourceKey
         && (AsString(a.value) == k.sourceValue || AsString(a.value) == DefaultZapSourceValue)
  }

  predicate Vetoed(zp: ZapSpanProcessor, k: ProcessorKeys, attrs: seq<Attr>, enabled: Level -> bool) {
    exists i :: 0 <= i < |attrs| && Vetoes(zp, k, attrs[i], enabled)
  }

  /** This forwarder's source tag, the last field of every entry it writes. */
  function SourceTag(k: ProcessorKeys): Field {
    Field(k.sourceKey, StringVal(k.sourceValue))
  }

  /**
    The entry `LogEvent` writes for `evt` to a logger whose core accepts the
    levels `enabled` holds for, or None when it writes nothing.
   */
  function EventRecord(zp: ZapSpanProcessor, evt: Event, spanAttrs: seq<Attr>, spanCtx: SpanContext,
                       enabled: Level -> bool): Option<Record>
  {
    var k := Keys(zp);
    if Vetoed(zp, k, evt.attrs, enabled) || !enabled(ZeroLevel) then None
    else Some(Record(LogEntry(ZeroLevel, evt.name),
                     BaseFields(k, zp, evt, spanAttrs, spanCtx) + EventFields(k, evt.attrs) + [SourceTag(k)]))
  }

  /** The entries `OnEnd` writes for `events`, in order. */
  function SpanRecords(zp: ZapSpanProcessor, events: seq<Event>, spanAttrs: seq<Attr>, spanCtx: SpanContext,
                       enabled: Level -> bool): seq<Record>
    decreases |events|
  {
    if events == [] then []
    else SpanRecords(zp, events[..|events| - 1], spanAttrs, spanCtx, enabled)
         + ToSeq(EventRecord(zp, events[|events| - 1], spanAttrs, spanCtx, enabled))
  }

  /** No veto among the first `i` attributes nor at the `i`-th: none among the first `i + 1`. */
  lemma NotVetoedStep(zp: ZapSpanProcessor, k: ProcessorKeys, attrs: seq<Attr>, enabled: Level -> bool, i: int)
    requires 0 <= i < |attrs|
    requires !Vetoed(zp, k, attrs[..i], enabled) && !Vetoes(zp, k, attrs[i], enabled)
    ensures !Vetoed(zp, k, attrs[..i + 1], enabled)
  {
    var s := attrs[..i + 1];
    forall j | 0 <= j < |s|
      ensures !Vetoes(zp, k, s[j], enabled)
    {
      if j < i {
        assert s[j] == attrs[..i][j];
      }
    }
  }

  lemma EventFieldsStep(k: ProcessorKeys, attrs: seq<Attr>, i: int)
    requires 0 <= i < |attrs|
    ensures EventFields(k, attrs[..i + 1])
         == EventFields(k, attrs[..i]) + (if attrs[i].key == k.levelKey then [] else [AttrField(attrs[i])])
  {
    assert attrs[..i + 1][..i] == attrs[..i];
  }

  lemma SpanRecordsStep(zp: ZapSpanProcessor, events: seq<Event>, spanAttrs: seq<Attr>, spanCtx: SpanContext,
                        enabled: Level -> bool, i: int)
    requires 0 <= i < |events|
    ensures SpanRecords(zp, events[..i + 1], spanAttrs, spanCtx, enabled)
         == SpanRecords(zp, events[..i], spanAttrs, spanCtx, enabled)
            + ToSeq(EventRecord(zp, events[i], spanAttrs, spanCtx, enabled))
  {
    assert events[..i + 1][..i] == events[..i];
  }

  // --- The operations

  /** The first loop of `LogEvent`: the fields before the event's own attributes. */
  method PrefixFields(zp: ZapSpanProcessor, keys: ProcessorKeys, evt: Event, spanAttrs: seq<Attr>,
                      spanCtx: SpanContext)
    returns (fields: seq<Field>)
    ensures fields == BaseFields(keys, zp, evt, spanAttrs, spanCtx)
  {
    var hexSpanId := spanCtx.spanIdHex;
    var hexTraceId := spanCtx.traceIdHex;

    fields := [Field(keys.spanIdKey, StringVal(hexSpanId))];
    if zp.googleCloudProjectId != "" {
      fields := fields + [Field("trace", StringVal(TraceLink(zp.googleCloudProjectId, hexTraceId)))];
    }
    fields := fields + [Field(keys.timestampKey, TimeVal(evt.time))];
    ghost var head := fields;

    var i := 0;
    while i < |spanAttrs|
      invariant 0 <= i <= |spanAttrs|
      invariant fields == head + SpanAttrFields(spanAttrs[..i])
    {
      assert SpanAttrFields(spanAttrs[..i + 1]) == SpanAttrFields(spanAttrs[..i]) + [AttrField(spanAttrs[i])];
      fields := fields + [AttrField(spanAttrs[i])];
      i := i + 1;
    }
    assert spanAttrs[..i] == spanAttrs;
  }

  /**
    The second loop of `LogEvent`: copies the event's attributes, returning
    early (with `vetoed` set) at a level the core does not accept or at a
    source tag of either forwarder.
   */
  method CopyEventAttrs(zp: ZapSpanProcessor, keys: ProcessorKeys, attrs: seq<Attr>, logger: Logger)
    returns (vetoed: bool, copied: seq<Field>)
    ensures vetoed == Vetoed(zp, keys, attrs, logger.enabled)
    ensures !vetoed ==> copied == EventFields(keys, attrs)
  {
    copied := [];
    var j := 0;
    while j < |attrs|
      invariant 0 <= j <= |attrs|
      invariant !Vetoed(zp, keys, attrs[..j], logger.enabled)
      invariant copied == EventFields(keys, attrs[..j])
    {
      var attr := attrs[j];
      EventFieldsStep(keys, attrs, j);
      var key := attr.key;
      if key == keys.levelKey {
        var logLevel := GetZapLevel(zp, AsString(attr.value));
        if !logger.enabled(logLevel) {
          // logger will ignore this level
          assert Vetoes(zp, keys, attrs[j], logger.enabled);
          return true, copied;
        }
        NotVetoedStep(zp, keys, attrs, logger.enabled, j);
        j := j + 1;
        continue;
      }

      var v := AsString(attr.value);
      var sourceIsMe := v == keys.sourceValue;
      var sourceIsMyDual := v == DefaultZapSourceValue;
      if key == keys.sourceKey && (sourceIsMe || sourceIsMyDual) {
        assert Vetoes(zp, keys, attrs[j], logger.enabled);
        return true, copied;
      }

      NotVetoedStep(zp, keys, attrs, logger.enabled, j);
      copied := copied + [AttrField(attr)];
      j := j + 1;
    }
    assert attrs[..j] == attrs;
    vetoed := false;
  }

  /**
    Writes the entry for one span event, unless one of its attributes vetoes
    it or the logger does not accept the zero level.
   */
  method LogEvent(zp: ZapSpanProcessor, global: Logger?, evt: Event, spanAttrs: seq<Attr>,
                  spanCtx: SpanContext)
    requires GetLogger(zp, global) != null
    modifies GetLogger(zp, global)
    ensures GetLogger(zp, global).writes
         == old(GetLogger(zp, global).writes)
            + ToSeq(EventRecord(zp, evt, spanAttrs, spanCtx, GetLogger(zp, global).enabled))
  {
    var keys := Keys(zp);
    var fields := PrefixFields(zp, keys, evt, spanAttrs, spanCtx);

    var logger := GetLogger(zp, global);
    // the only level ever handed to Check: the parsed level of the loop is a
    // different variable
    var logLevel: Level := ZeroLevel;

    var vetoed, copied := CopyEventAttrs(zp, keys, evt.attrs, logger);
    if vetoed {
      return;
    }
    fields := fields + copied;

    fields := fields + [Field(keys.sourceKey, StringVal(keys.sourceValue))];

    var accepted := logger.Check(logLevel);
    if !accepted {
      return;
    }
    logger.Write(Record(LogEntry(logLevel, evt.name), fields));
  }

  /** Logs every event of an ended span, oldest first. */
  method OnEnd(zp: ZapSpanProcessor, global: Logger?, span: ReadOnlySpan)
    requires |span.events| > 0 ==> GetLogger(zp, global) != null
    modifies if GetLogger(zp, global) != null then {GetLogger(zp, global)} else {}
    ensures GetLogger(zp, global) != null ==>
      GetLogger(zp, global).writes
        == old(GetLogger(zp, global).writes)
           + SpanRecords(zp, span.events, span.attrs, span.ctx, GetLogger(zp, global).enabled)
  {
    if |span.events| == 0 {
      return;
    }

    var logger := GetLogger(zp, global);
    ghost var before := logger.writes;
    var i := 0;
    while i < |span.events|
      invariant 0 <= i <= |span.events|
      invariant logger.writes == before + SpanRecords(zp, span.events[..i], span.attrs, span.ctx, logger.enabled)
    {
      SpanRecordsStep(zp, span.events, span.attrs, span.ctx, logger.enabled, i);
      LogEvent(zp, global, span.events[i], span.attrs, span.ctx);
      i := i + 1;
    }
    assert span.events[..i] == span.events;
  }

  /**
    Checks the logger, then each key getter, in that order. The key getters
    are never blank, so it fails exactly when there is no logger.
   */
  function Validate(zp: ZapSpanProcessor, global: Logger?): (r: Option<string>)
    ensures r == None <==> GetLogger(zp, global) != null
    ensures GetLogger(zp, global) == null ==> r == Some("logger required")
  {
    TrimSpaceOfTrimmed(GetEventSourceKey(zp));
    TrimSpaceOfTrimmed(GetEventSourceValue(zp));
    TrimSpaceOfTrimmed(GetZapLevelKey(zp));
    TrimSpaceOfTrimmed(GetSpanIdKey(zp));
    TrimSpaceOfTrimmed(GetTimestampKey(zp));
    if GetLogger(zp, global) == null then Some("logger required")
    else if TrimSpace(GetEventSourceKey(zp)) == "" then Some("eventSourceKey required")
    else if TrimSpace(GetEventSourceValue(zp)) == "" then Some("eventSourceValue required")
    else if TrimSpace(GetZapLevelKey(zp)) == "" then Some("zapLevelKey required")
    else if TrimSpace(GetSpanIdKey(zp)) == "" then Some("spanIdKey required")
    else if TrimSpace(GetTimestampKey(zp)) == "" then Some("timestampKey required")
    else None
  }

  // --- Properties

  /** The level is read from the trimmed, lower-cased input: cleaning it first changes nothing. */
  lemma GetZapLevelNormalised(zp: ZapSpanProcessor, raw: string)
    ensures GetZapLevel(zp, ToLower(TrimSpace(raw))) == GetZapLevel(zp, raw)
  {
    var clean := ToLower(TrimSpace(raw));
    ToLowerKeepsTrimmed(TrimSpace(raw));
    TrimSpaceOfTrimmed(clean);
    ToLowerIdempotent(TrimSpace(raw));
    assert LevelInput(zp, clean) == LevelInput(zp, raw);
  }

  /** Upper- and lower-case spellings of a level name parse alike. */
  lemma GetZapLevelIgnoresCase(zp: ZapSpanProcessor, raw: string)
    ensures GetZapLevel(zp, ToLower(raw)) == GetZapLevel(zp, raw)
  {
    TrimSpaceToLower(raw);
    ToLowerIdempotent(TrimSpace(raw));
    assert LevelInput(zp, ToLower(raw)) == LevelInput(zp, raw);
  }

  /**
    A blank input falls back to the configured default without trimming or
    lower-casing it: a default of " Warn" selects debug, while the same text
    as input selects warn.
   */
  lemma DefaultLevelIsVerbatim(zp: ZapSpanProcessor)
    requires zp.defaultLevel == " Warn"
    ensures GetZapLevel(zp, "  ") == DebugLevel
    ensures GetZapLevel(zp, " Warn") == WarnLevel
  {
    assert TrimSpace("  ") == "";
    assert TrimSpace(" Warn") == "Warn";
    assert ToLower("Warn") == "warn";
  }

  /** Every entry is checked and written at the zero level, info, whatever its level attribute says. */
  lemma WrittenLevelIsInfo(zp: ZapSpanProcessor, evt: Event, spanAttrs: seq<Attr>, spanCtx: SpanContext,
                           enabled: Level -> bool)
    requires EventRecord(zp, evt, spanAttrs, spanCtx, enabled).Some?
    ensures EventRecord(zp, evt, spanAttrs, spanCtx, enabled).value.entry == LogEntry(InfoLevel, evt.name)
    ensures enabled(InfoLevel)
  {
  }

  /**
    The shadowed level drops entries its level attribute would let through:
    with a core that accepts warn and above, an event whose level attribute
    is "error" passes the gate but is still not written, since it is checked
    at info.
   */
  lemma ShadowedLevelDropsErrorEvent(zp: ZapSpanProcessor, name: string, t: Time, spanAttrs: seq<Attr>,
                                     spanCtx: SpanContext)
    requires TrimSpace(zp.levelKey) == ""
    ensures var evt := Event(name, [Attr(DefaultLevelKey, AStr("error"))], t);
            var enabled := (l: Level) => l >= WarnLevel;
            && !Vetoed(zp, Keys(zp), evt.attrs, enabled)
            && EventRecord(zp, evt, spanAttrs, spanCtx, enabled) == None
  {
    var evt := Event(name, [Attr(DefaultLevelKey, AStr("error"))], t);
    var enabled := (l: Level) => l >= WarnLevel;
    assert TrimSpace("error") == "error";
    assert GetZapLevel(zp, "error") == ErrorLevel;
    assert !Vetoes(zp, Keys(zp), evt.attrs[0], enabled);
  }

  /** A level attribute naming a level the core does not accept drops the event. */
  lemma LevelGateDrops(zp: ZapSpanProcessor, evt: Event, spanAttrs: seq<Attr>, spanCtx: SpanContext,
                       enabled: Level -> bool, n: int)
    requires 0 <= n < |evt.attrs| && evt.attrs[n].key == GetZapLevelKey(zp)
    requires !enabled(GetZapLevel(zp, AsString(evt.attrs[n].value)))
    ensures EventRecord(zp, evt, spanAttrs, spanCtx, enabled) == None
  {
    assert Vetoes(zp, Keys(zp), evt.attrs[n], enabled);
  }

  /**
    Loop guard: an event attribute (other than the level attribute) with
    this forwarder's or the counterpart's tag under the source key drops the
    event.
   */
  lemma LoopTagDrops(zp: ZapSpanProcessor, evt: Event, spanAttrs: seq<Attr>, spanCtx: SpanContext,
                     enabled: Level -> bool, n: int)
    requires 0 <= n < |evt.attrs|
    requires evt.attrs[n].key == GetEventSourceKey(zp) && evt.attrs[n].key != GetZapLevelKey(zp)
    requires evt.attrs[n].value == AStr(GetEventSourceValue(zp))
          || evt.attrs[n].value == AStr(DefaultZapSourceValue)
    ensures EventRecord(zp, evt, spanAttrs, spanCtx, enabled) == None
  {
    assert Vetoes(zp, Keys(zp), evt.attrs[n], enabled);
  }

  /** Span-level attributes are never checked: whether an event is written does not depend on them. */
  lemma SpanAttrsNotGuarded(zp: ZapSpanProcessor, evt: Event, spanAttrs: seq<Attr>, otherAttrs: seq<Attr>,
                            spanCtx: SpanContext, enabled: Level -> bool)
    ensures EventRecord(zp, evt, spanAttrs, spanCtx, enabled).Some?
        == EventRecord(zp, evt, otherAttrs, spanCtx, enabled).Some?
  {
  }

  /** No copied event attribute is keyed by the level key. */
  lemma {:induction false} EventFieldsSkipLevel(k: ProcessorKeys, attrs: seq<Attr>)
    ensures forall f :: f in EventFields(k, attrs) ==> f.key != k.levelKey
    decreases |attrs|
  {
    if attrs != [] {
      EventFieldsSkipLevel(k, attrs[..|attrs| - 1]);
    }
  }

  /** Without level attributes every event attribute is copied, in order. */
  lemma {:induction false} EventFieldsInOrder(k: ProcessorKeys, attrs: seq<Attr>)
    requires forall i :: 0 <= i < |attrs| ==> attrs[i].key != k.levelKey
    ensures EventFields(k, attrs) == SpanAttrFields(attrs)
    decreases |attrs|
  {
    if attrs != [] {
      var init := attrs[..|attrs| - 1];
      EventFieldsInOrder(k, init);
      assert SpanAttrFields(attrs) == SpanAttrFields(init) + [AttrField(attrs[|attrs| - 1])];
    }
  }

  /** Where each of the fields before the event's own attributes sits. */
  lemma BaseLayout(k: ProcessorKeys, zp: ZapSpanProcessor, evt: Event, spanAttrs: seq<Attr>, spanCtx: SpanContext)
    ensures var base := BaseFields(k, zp, evt, spanAttrs, spanCtx);
            var off := if zp.googleCloudProjectId != "" then 3 else 2;
            && |base| == off + |spanAttrs|
            && base[0] == Field(k.spanIdKey, StringVal(spanCtx.spanIdHex))
            && (zp.googleCloudProjectId != "" ==>
                  base[1] == Field("trace", StringVal(TraceLink(zp.googleCloudProjectId, spanCtx.traceIdHex))))
            && base[off - 1] == Field(k.timestampKey, TimeVal(evt.time))
            && base[off..] == SpanAttrFields(spanAttrs)
  {
    var off := if zp.googleCloudProjectId != "" then 3 else 2;
    var base := BaseFields(k, zp, evt, spanAttrs, spanCtx);
    assert base[off..] == SpanAttrFields(spanAttrs);
  }

  /**
    The layout of a written entry: the span id first; the trace link next
    exactly when a project id is set; then the timestamp; then the span
    attributes in order, the copied event attributes, and the source tag last.
   */
  lemma RecordLayout(zp: ZapSpanProcessor, evt: Event, spanAttrs: seq<Attr>, spanCtx: SpanContext,
                     enabled: Level -> bool)
    requires EventRecord(zp, evt, spanAttrs, spanCtx, enabled).Some?
    ensures var k := Keys(zp);
            var fs := EventRecord(zp, evt, spanAttrs, spanCtx, enabled).value.fields;
            var off := if zp.googleCloudProjectId != "" then 3 else 2;
            && |fs| == off + |spanAttrs| + |EventFields(k, evt.attrs)| + 1
            && fs[0] == Field(k.spanIdKey, StringVal(spanCtx.spanIdHex))
            && (zp.googleCloudProjectId != "" ==>
                  fs[1] == Field("trace", StringVal(TraceLink(zp.googleCloudProjectId, spanCtx.traceIdHex))))
            && fs[off - 1] == Field(k.timestampKey, TimeVal(evt.time))
            && fs[off..off + |spanAttrs|] == SpanAttrFields(spanAttrs)
            && fs[off + |spanAttrs|..|fs| - 1] == EventFields(k, evt.attrs)
            && fs[|fs| - 1] == SourceTag(k)
  {
    var k := Keys(zp);
    var base := BaseFields(k, zp, evt, spanAttrs, spanCtx);
    var ev := EventFields(k, evt.attrs);
    BaseLayout(k, zp, evt, spanAttrs, spanCtx);
    var fs := base + ev + [SourceTag(k)];
    var off := if zp.googleCloudProjectId != "" then 3 else 2;
    assert fs[off..off + |spanAttrs|] == base[off..];
    assert fs[off + |spanAttrs|..|fs| - 1] == ev;
  }

  /** Attributes become fields one at a time: the fields of two runs of attributes are those of each run. */
  lemma {:induction false} EventFieldsAppend(k: ProcessorKeys, a: seq<Attr>, b: seq<Attr>)
    ensures EventFields(k, a + b) == EventFields(k, a) + EventFields(k, b)
    decreases |b|
  {
    if b == [] {
      assert a + b == a;
    } else {
      var init := b[..|b| - 1];
      assert (a + b)[..|a + b| - 1] == a + init;
      assert (a + b)[|a + b| - 1] == b[|b| - 1];
      EventFieldsAppend(k, a, init);
    }
  }

  /** The entries for two runs of events are those of each run, one after the other. */
  lemma {:induction false} SpanRecordsAppend(zp: ZapSpanProcessor, a: seq<Event>, b: seq<Event>,
                                             spanAttrs: seq<Attr>, spanCtx: SpanContext, enabled: Level -> bool)
    ensures SpanRecords(zp, a + b, spanAttrs, spanCtx, enabled)
         == SpanRecords(zp, a, spanAttrs, spanCtx, enabled) + SpanRecords(zp, b, spanAttrs, spanCtx, enabled)
    decreases |b|
  {
    if b == [] {
      assert a + b == a;
    } else {
      var init := b[..|b| - 1];
      var last := b[|b| - 1];
      assert (a + b)[..|a + b| - 1] == a + init;
      assert (a + b)[|a + b| - 1] == last;
      calc {
        SpanRecords(zp, a + b, spanAttrs, spanCtx, enabled);
        SpanRecords(zp, a + init, spanAttrs, spanCtx, enabled)
          + ToSeq(EventRecord(zp, last, spanAttrs, spanCtx, enabled));
        { SpanRecordsAppend(zp, a, init, spanAttrs, spanCtx, enabled); }
        SpanRecords(zp, a, spanAttrs, spanCtx, enabled) + SpanRecords(zp, init, spanAttrs, spanCtx, enabled)
          + ToSeq(EventRecord(zp, last, spanAttrs, spanCtx, enabled));
        SpanRecords(zp, a, spanAttrs, spanCtx, enabled) + SpanRecords(zp, b, spanAttrs, spanCtx, enabled);
      }
    }
  }

  /** Each event yields at most one entry. */
  lemma {:induction false} AtMostOneEntryPerEvent(zp: ZapSpanProcessor, events: seq<Event>, spanAttrs: seq<Attr>,
                                                  spanCtx: SpanContext, enabled: Level -> bool)
    ensures |SpanRecords(zp, events, spanAttrs, spanCtx, enabled)| <= |events|
    decreases |events|
  {
    if events != [] {
      AtMostOneEntryPerEvent(zp, events[..|events| - 1], spanAttrs, spanCtx, enabled);
    }
  }

  /**
    A dropped event does not stop the ones after it: the entries of `a`, a
    dropped event, then `b` are those of `a` and of `b`.
   */
  lemma DroppedEventSkipped(zp: ZapSpanProcessor, a: seq<Event>, dropped: Event, b: seq<Event>,
                            spanAttrs: seq<Attr>, spanCtx: SpanContext, enabled: Level -> bool)
    requires EventRecord(zp, dropped, spanAttrs, spanCtx, enabled) == None
    ensures SpanRecords(zp, a + [dropped] + b, spanAttrs, spanCtx, enabled)
         == SpanRecords(zp, a, spanAttrs, spanCtx, enabled) + SpanRecords(zp, b, spanAttrs, spanCtx, enabled)
  {
    var ad := a + [dropped];
    SpanRecordsAppend(zp, ad, b, spanAttrs, spanCtx, enabled);
    assert ad[..|ad| - 1] == a;
    assert SpanRecords(zp, ad, spanAttrs, spanCtx, enabled) == SpanRecords(zp, a, spanAttrs, spanCtx, enabled);
  }

  /** When every event is written, the entries follow the events one for one, oldest first. */
  lemma {:induction false} EntriesFollowEvents(zp: ZapSpanProcessor, events: seq<Event>, spanAttrs: seq<Attr>,
                                               spanCtx: SpanContext, enabled: Level -> bool)
    requires forall i :: 0 <= i < |events| ==> EventRecord(zp, events[i], spanAttrs, spanCtx, enabled).Some?
    ensures |SpanRecords(zp, events, spanAttrs, spanCtx, enabled)| == |events|
    ensures forall i :: 0 <= i < |events| ==>
      SpanRecords(zp, events, spanAttrs, spanCtx, enabled)[i]
        == EventRecord(zp, events[i], spanAttrs, spanCtx, enabled).value
    decreases |events|
  {
    if events != [] {
      EntriesFollowEvents(zp, events[..|events| - 1], spanAttrs, spanCtx, enabled);
    }
  }
}
