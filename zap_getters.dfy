/**
  The configuration of the log-to-span forwarder (the fields of `OTelZapCore`)
  and its five getters. Each getter trims the configured string and falls back
  to a fixed default when the result is blank. `GetEventSourceKey` and
  `GetLevelKey` have the same bodies as their `OTelGetters` counterparts
  because the Go code gives both receivers the same one-line getters.
 */
module ZapGetters {
  import opened Text
  import opened Consts
  import opened Telemetry

  datatype OTelZapCore = OTelZapCore(
    contextAttrKey: string,
    spanAttrKey: string,
    eventSourceKey: string,
    eventSourceValue: string,
    levelKey: string,
    extraFields: seq<Field>)

  /** The key of a field holding a `context.Context`; default "ctx". */
  function GetContextAttrKey(oc: OTelZapCore): (r: string)
    ensures UsableDefault(r)
    ensures TrimSpace(oc.contextAttrKey) != "" ==> r == TrimSpace(oc.contextAttrKey)
    ensures TrimSpace(oc.contextAttrKey) == "" ==> r == DefaultContextKey
  {
    DefaultsUsable();
    TrimOrDefault(oc.contextAttrKey, DefaultContextKey)
  }

  /** The key of the source-tag attribute; default "logEventSource". */
  function GetEventSourceKey(oc: OTelZapCore): (r: string)
    ensures UsableDefault(r)
    ensures TrimSpace(oc.eventSourceKey) != "" ==> r == TrimSpace(oc.eventSourceKey)
    ensures TrimSpace(oc.eventSourceKey) == "" ==> r == DefaultLogEventSourceKey
  {
    DefaultsUsable();
    TrimOrDefault(oc.eventSourceKey, DefaultLogEventSourceKey)
  }

  /** This forwarder's own source tag; default "zapApi". */
  function GetEventSourceValue(oc: OTelZapCore): (r: string)
    ensures UsableDefault(r)
    ensures TrimSpace(oc.eventSourceValue) != "" ==> r == TrimSpace(oc.eventSourceValue)
    ensures TrimSpace(oc.eventSourceValue) == "" ==> r == DefaultZapSourceValue
  {
    DefaultsUsable();
    TrimOrDefault(oc.eventSourceValue, DefaultZapSourceValue)
  }

  /** The key of the level attribute; default "level". */
  function GetLevelKey(oc: OTelZapCore): (r: string)
    ensures UsableDefault(r)
    ensures TrimSpace(oc.levelKey) != "" ==> r == TrimSpace(oc.levelKey)
    ensures TrimSpace(oc.levelKey) == "" ==> r == DefaultLevelKey
  {
    DefaultsUsable();
    TrimOrDefault(oc.levelKey, DefaultLevelKey)
  }

  /** The key of a field holding a span; default "span". */
  function GetSpanAttrKey(oc: OTelZapCore): (r: string)
    ensures UsableDefault(r)
    ensures TrimSpace(oc.spanAttrKey) != "" ==> r == TrimSpace(oc.spanAttrKey)
    ensures TrimSpace(oc.spanAttrKey) == "" ==> r == DefaultSpanKey
  {
    DefaultsUsable();
    TrimOrDefault(oc.spanAttrKey, DefaultSpanKey)
  }

  /**
    The keys the forwarder works with: what each getter returns, plus the
    configured context key as written, which `Write` matches on directly.
   */
  datatype CoreKeys = CoreKeys(
    contextKey: string,
    spanKey: string,
    sourceKey: string,
    sourceValue: string,
    levelKey: string,
    rawContextKey: string)

  function Keys(oc: OTelZapCore): (k: CoreKeys)
    ensures UsableDefault(k.contextKey) && UsableDefault(k.spanKey) && UsableDefault(k.levelKey)
    ensures UsableDefault(k.sourceKey) && UsableDefault(k.sourceValue)
    ensures k.rawContextKey == oc.contextAttrKey
  {
    CoreKeys(GetContextAttrKey(oc), GetSpanAttrKey(oc), GetEventSourceKey(oc),
             GetEventSourceValue(oc), GetLevelKey(oc), oc.contextAttrKey)
  }

  /** The configuration with every key replaced by what its getter returns. */
  function Resolved(oc: OTelZapCore): OTelZapCore {
    OTelZapCore(GetContextAttrKey(oc), GetSpanAttrKey(oc), GetEventSourceKey(oc),
                GetEventSourceValue(oc), GetLevelKey(oc), oc.extraFields)
  }

  /** Resolution is idempotent: a resolved configuration resolves to the same keys. */
  lemma ResolveIdempotent(oc: OTelZapCore)
    ensures Resolved(Resolved(oc)) == Resolved(oc)
  {
    DefaultsUsable();
    TrimOrDefaultIdempotent(oc.contextAttrKey, DefaultContextKey);
    TrimOrDefaultIdempotent(oc.spanAttrKey, DefaultSpanKey);
    TrimOrDefaultIdempotent(oc.eventSourceKey, DefaultLogEventSourceKey);
    TrimOrDefaultIdempotent(oc.eventSourceValue, DefaultZapSourceValue);
    TrimOrDefaultIdempotent(oc.levelKey, DefaultLevelKey);
  }

  /** With nothing configured, the span key and the context key differ, so the two skip tests are distinct. */
  lemma DefaultHandleKeysDiffer(oc: OTelZapCore)
    requires TrimSpace(oc.spanAttrKey) == "" && TrimSpace(oc.contextAttrKey) == ""
    ensures GetSpanAttrKey(oc) != GetContextAttrKey(oc)
  {
  }
}
