/**
  The configuration of the span-to-log forwarder (the fields of
  `ZapSpanProcessor`) and its getters. The key getters trim the configured
  string and fall back to a fixed default when the result is blank;
  `GetLogger` falls back to the global logger.
 */
module OTelGetters {
  import opened Text
  import opened Consts
  import opened Telemetry

  datatype ZapSpanProcessor = ZapSpanProcessor(
    defaultLevel: string,
    logger: Logger?,
    eventSourceKey: string,
    eventSourceValue: string,
    levelKey: string,
    spanIdKey: string,
    timestampKey: string,
    googleCloudProjectId: string)

  /** The key of the source-tag field; default "logEventSource". */
  function GetEventSourceKey(zp: ZapSpanProcessor): (r: string)
    ensures UsableDefault(r)
    ensures TrimSpace(zp.eventSourceKey) != "" ==> r == TrimSpace(zp.eventSourceKey)
    ensures TrimSpace(zp.eventSourceKey) == "" ==> r == DefaultLogEventSourceKey
  {
    DefaultsUsable();
    TrimOrDefault(zp.eventSourceKey, DefaultLogEventSourceKey)
  }

  /** This forwarder's own source tag; default "otelApi". */
  function GetEventSourceValue(zp: ZapSpanProcessor): (r: string)
    ensures UsableDefault(r)
    ensures TrimSpace(zp.eventSourceValue) != "" ==> r == TrimSpace(zp.eventSourceValue)
    ensures TrimSpace(zp.eventSourceValue) == "" ==> r == DefaultOtelSourceValue
  {
    DefaultsUsable();
    TrimOrDefault(zp.eventSourceValue, DefaultOtelSourceValue)
  }

  /**
    The configured logger, or `global` (what `zap.L()` returns) when none is
    configured.
   */
  function GetLogger(zp: ZapSpanProcessor, global: Logger?): (r: Logger?)
    ensures zp.logger != null ==> r == zp.logger
    ensures zp.logger == null ==> r == global
  {
    if zp.logger != null then zp.logger else global
  }

  /** The key of the span id field; default "spanId". */
  function GetSpanIdKey(zp: ZapSpanProcessor): (r: string)
    ensures UsableDefault(r)
    ensures TrimSpace(zp.spanIdKey) != "" ==> r == TrimSpace(zp.spanIdKey)
    ensures TrimSpace(zp.spanIdKey) == "" ==> r == DefaultSpanIdKey
  {
    DefaultsUsable();
    TrimOrDefault(zp.spanIdKey, DefaultSpanIdKey)
  }

  /** The key of the timestamp field; default "timestamp". */
  function GetTimestampKey(zp: ZapSpanProcessor): (r: string)
    ensures UsableDefault(r)
    ensures TrimSpace(zp.timestampKey) != "" ==> r == TrimSpace(zp.timestampKey)
    ensures TrimSpace(zp.timestampKey) == "" ==> r == DefaultTimestampKey
  {
    DefaultsUsable();
    TrimOrDefault(zp.timestampKey, DefaultTimestampKey)
  }

  /** The key of the level attribute; default "level". */
  function GetZapLevelKey(zp: ZapSpanProcessor): (r: string)
    ensures UsableDefault(r)
    ensures TrimSpace(zp.levelKey) != "" ==> r == TrimSpace(zp.levelKey)
    ensures TrimSpace(zp.levelKey) == "" ==> r == DefaultLevelKey
  {
    DefaultsUsable();
    TrimOrDefault(zp.levelKey, DefaultLevelKey)
  }

  /** The keys and the tag the forwarder works with, each what its getter returns. */
  datatype ProcessorKeys = ProcessorKeys(
    spanIdKey: string,
    timestampKey: string,
    levelKey: string,
    sourceKey: string,
    sourceValue: string)

  function Keys(zp: ZapSpanProcessor): (k: ProcessorKeys)
    ensures UsableDefault(k.spanIdKey) && UsableDefault(k.timestampKey) && UsableDefault(k.levelKey)
    ensures UsableDefault(k.sourceKey) && UsableDefault(k.sourceValue)
  {
    ProcessorKeys(GetSpanIdKey(zp), GetTimestampKey(zp), GetZapLevelKey(zp),
                  GetEventSourceKey(zp), GetEventSourceValue(zp))
  }

  /** The configuration with every key replaced by what its getter returns. */
  function Resolved(zp: ZapSpanProcessor): ZapSpanProcessor {
    zp.(eventSourceKey := GetEventSourceKey(zp), eventSourceValue := GetEventSourceValue(zp),
        levelKey := GetZapLevelKey(zp), spanIdKey := GetSpanIdKey(zp),
        timestampKey := GetTimestampKey(zp))
  }

  /** Resolution is idempotent: a resolved configuration resolves to the same keys. */
  lemma ResolveIdempotent(zp: ZapSpanProcessor)
    ensures Resolved(Resolved(zp)) == Resolved(zp)
  {
    DefaultsUsable();
    TrimOrDefaultIdempotent(zp.eventSourceKey, DefaultLogEventSourceKey);
    TrimOrDefaultIdempotent(zp.eventSourceValue, DefaultOtelSourceValue);
    TrimOrDefaultIdempotent(zp.levelKey, DefaultLevelKey);
    TrimOrDefaultIdempotent(zp.spanIdKey, DefaultSpanIdKey);
    TrimOrDefaultIdempotent(zp.timestampKey, DefaultTimestampKey);
  }
}
