/**
  How the two forwarders meet when both are installed: a log entry the core
  turns into a span event must not come back as a log entry, and an entry
  the span processor writes must not come back as a span event. Each side
  tags what it emits with a source value under a source key and drops what
  carries either side's tag. With nothing configured both sides use the same
  key, "logEventSource", so each default tag is caught by the other side.

  Also here: attribute values survive the trip through both forwarders, and
  the level names the bridge writes parse back to their levels.
 */
module Bridge {
  import opened Wrappers
  import opened Text
  import opened Consts
  import opened Levels
  import opened Telemetry
  import ZapGetters
  import OTelGetters
  import ZapCore
  import SpanProcessor
  import Sugar

  // --- The loop law

  /**
    A span event the core wrote is dropped by a span processor that reads the
    core's source key as its own, unless the processor reads that key as its
    level key; the core's tag must be "zapApi" or the processor's own value.
   */
  lemma CoreEventDroppedByProcessor(oc: ZapGetters.OTelZapCore, zp: OTelGetters.ZapSpanProcessor,
                                    entry: LogEntry, fields: seq<Field>, now: Time, render: Payload -> string,
                                    s: SpanState, spanAttrs: seq<Attr>, spanCtx: SpanContext,
                                    enabled: Level -> bool)
    requires s.recording && !ZapCore.Aborts(ZapGetters.Keys(oc), fields)
    requires OTelGetters.Keys(zp).sourceKey == ZapGetters.Keys(oc).sourceKey
    requires OTelGetters.Keys(zp).levelKey != ZapGetters.Keys(oc).sourceKey
    requires ZapGetters.Keys(oc).sourceValue == DefaultZapSourceValue
             || ZapGetters.Keys(oc).sourceValue == OTelGetters.Keys(zp).sourceValue
    ensures var r := ZapCore.Forward(ZapGetters.Keys(oc), entry, fields, now, render, s);
            && |r.events| == |s.events| + 1
            && SpanProcessor.EventRecord(zp, r.events[|s.events|], spanAttrs, spanCtx, enabled) == None
  {
    var k := ZapGetters.Keys(oc);
    var pk := OTelGetters.Keys(zp);
    ZapCore.ForwardEffect(k, entry, fields, now, render, s);
    var r := ZapCore.Forward(k, entry, fields, now, render, s);
    var evt := r.events[|s.events|];
    assert evt.attrs[0] == Attr(k.sourceKey, AStr(k.sourceValue));
    assert SpanProcessor.Vetoes(zp, pk, evt.attrs[0], enabled);
  }

  /**
    An entry the span processor wrote, handed back to a core that reads the
    processor's source key as its own and not as a handle key, makes the core
    drop the whole forward; the processor's tag must be "otelApi" or the
    core's own value.
   */
  lemma ProcessorRecordDroppedByCore(oc: ZapGetters.OTelZapCore, zp: OTelGetters.ZapSpanProcessor,
                                     evt: Event, spanAttrs: seq<Attr>, spanCtx: SpanContext,
                                     enabled: Level -> bool, rec: Record,
                                     now: Time, render: Payload -> string, s: SpanState)
    requires SpanProcessor.EventRecord(zp, evt, spanAttrs, spanCtx, enabled) == Some(rec)
    requires ZapGetters.Keys(oc).sourceKey == OTelGetters.Keys(zp).sourceKey
    requires ZapGetters.Keys(oc).sourceKey != ZapGetters.Keys(oc).spanKey
    requires ZapGetters.Keys(oc).sourceKey != ZapGetters.Keys(oc).contextKey
    requires OTelGetters.Keys(zp).sourceValue == DefaultOtelSourceValue
             || OTelGetters.Keys(zp).sourceValue == ZapGetters.Keys(oc).sourceValue
    ensures ZapCore.Aborts(ZapGetters.Keys(oc), rec.fields)
    ensures ZapCore.Forward(ZapGetters.Keys(oc), rec.entry, rec.fields, now, render, s) == s
  {
    var k := ZapGetters.Keys(oc);
    var pk := OTelGetters.Keys(zp);
    var last := |rec.fields| - 1;
    assert rec.fields[last] == SpanProcessor.SourceTag(pk);
    assert ZapCore.Trips(k, rec.fields[last]);
  }

  /** With every key left blank on both sides, the loop is closed in both directions. */
  lemma DefaultsCloseTheLoop(oc: ZapGetters.OTelZapCore, zp: OTelGetters.ZapSpanProcessor)
    requires TrimSpace(oc.contextAttrKey) == "" && TrimSpace(oc.spanAttrKey) == ""
    requires TrimSpace(oc.eventSourceKey) == "" && TrimSpace(oc.eventSourceValue) == ""
    requires TrimSpace(zp.eventSourceKey) == "" && TrimSpace(zp.eventSourceValue) == ""
    requires TrimSpace(zp.levelKey) == ""
    ensures OTelGetters.Keys(zp).sourceKey == ZapGetters.Keys(oc).sourceKey == DefaultLogEventSourceKey
    ensures OTelGetters.Keys(zp).levelKey != ZapGetters.Keys(oc).sourceKey
    ensures ZapGetters.Keys(oc).sourceKey != ZapGetters.Keys(oc).spanKey
    ensures ZapGetters.Keys(oc).sourceKey != ZapGetters.Keys(oc).contextKey
    ensures ZapGetters.Keys(oc).sourceValue == DefaultZapSourceValue
    ensures OTelGetters.Keys(zp).sourceValue == DefaultOtelSourceValue
  {
  }

  // --- Attribute values

  /** A span attribute the processor writes as a field keeps its key and value when the core copies it back. */
  lemma AttrSurvivesProcessor(a: Attr, render: Payload -> string)
    ensures SpanProcessor.AttrField(a).key == a.key
    ensures ZapCore.AttrValueOf(SpanProcessor.AttrField(a).payload, render) == a.value
  {
  }

  /** A string, int64 or bool field the core copies as an attribute comes back as the same field. */
  lemma FieldSurvivesCore(f: Field, render: Payload -> string)
    requires f.payload.StringVal? || f.payload.Int64Val? || f.payload.BoolVal?
    ensures SpanProcessor.AttrField(Attr(f.key, ZapCore.AttrValueOf(f.payload, render))) == f
  {
  }

  // --- Level names

  /** The name zap gives each of the five named levels parses back to that level, whatever the default. */
  lemma LevelNameParses(zp: OTelGetters.ZapSpanProcessor, l: Level)
    requires IsNamed(l)
    ensures SpanProcessor.GetZapLevel(zp, LevelName(l)) == l
  {
    var name := LevelName(l);
    TrimSpaceOfTrimmed(name);
    ToLowerOfLower(name);
    assert SpanProcessor.LevelInput(zp, name) == name;
  }

  /** The level attribute of a span event the core wrote names the entry's level, and parses back to it. */
  lemma CoreLevelAttrParses(oc: ZapGetters.OTelZapCore, zp: OTelGetters.ZapSpanProcessor,
                            entry: LogEntry, fields: seq<Field>, render: Payload -> string)
    requires IsNamed(entry.level)
    ensures var attrs := ZapCore.EventAttrs(ZapGetters.Keys(oc), entry, fields, render);
            && attrs[1].key == ZapGetters.Keys(oc).levelKey
            && SpanProcessor.GetZapLevel(zp, AsString(attrs[1].value)) == entry.level
  {
    LevelNameParses(zp, entry.level);
  }

  /**
    A helper event (from `AddDebugEvent` and the like) reaching a processor
    with the default level key is written exactly when the logger's core
    accepts its level as well as the info level, the level the entry is
    checked at.
   */
  lemma SugarEventGated(zp: OTelGetters.ZapSpanProcessor, l: Level, msg: string, now: Time,
                        spanAttrs: seq<Attr>, spanCtx: SpanContext, enabled: Level -> bool)
    requires IsNamed(l)
    requires TrimSpace(zp.levelKey) == ""
    ensures SpanProcessor.EventRecord(zp, Event(msg, Sugar.LevelAttrs(LevelName(l)), now), spanAttrs, spanCtx, enabled).Some?
            <==> enabled(l) && enabled(ZeroLevel)
  {
    var pk := OTelGetters.Keys(zp);
    var attrs := Sugar.LevelAttrs(LevelName(l));
    LevelNameParses(zp, l);
    assert pk.levelKey == DefaultLevelKey;
    assert SpanProcessor.Vetoes(zp, pk, attrs[0], enabled) <==> !enabled(l);
    assert SpanProcessor.Vetoed(zp, pk, attrs, enabled) <==> SpanProcessor.Vetoes(zp, pk, attrs[0], enabled);
  }
}
