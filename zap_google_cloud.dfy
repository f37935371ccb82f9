/**
  The level encoder for Google Cloud Logging: each zap level becomes a
  `LogSeverity` name, and levels without a counterpart become "DEFAULT".
 */
module GoogleCloud {
  import opened Wrappers
  import opened Levels
  import opened Telemetry

  /** The Google Cloud severity written for `l`. */
  function Severity(l: Level): (s: string)
    ensures s == "DEFAULT" <==> !IsNamed(l)
  {
    if l == DebugLevel then "DEBUG"
    else if l == InfoLevel then "INFO"
    else if l == WarnLevel then "WARNING"
    else if l == ErrorLevel then "ERROR"
    else if l == FatalLevel then "ALERT"
    else "DEFAULT"
  }

  /** Appends exactly one string, the severity of `lvl`, to `enc`. */
  method GoogleCloudLevelEncoder(lvl: Level, enc: ArrayEncoder)
    modifies enc
    ensures enc.items == old(enc.items) + [Severity(lvl)]
  {
    var s := "DEFAULT";
    if lvl == DebugLevel {
      s := "DEBUG";
    } else if lvl == InfoLevel {
      s := "INFO";
    } else if lvl == WarnLevel {
      s := "WARNING";
    } else if lvl == ErrorLevel {
      s := "ERROR";
    } else if lvl == FatalLevel {
      s := "ALERT";
    }
    enc.AppendString(s);
  }

  // --- Properties

  /** The zap level a severity name stands for, when it stands for one. */
  function SeverityLevel(s: string): Option<Level> {
    if s == "DEBUG" then Some(DebugLevel)
    else if s == "INFO" then Some(InfoLevel)
    else if s == "WARNING" then Some(WarnLevel)
    else if s == "ERROR" then Some(ErrorLevel)
    else if s == "ALERT" then Some(FatalLevel)
    else None
  }

  /**
    The severity of a named level reads back as that level, so the five named
    levels get five distinct severities; every other level reads back as none.
   */
  lemma SeverityRoundTrip(l: Level)
    ensures IsNamed(l) ==> SeverityLevel(Severity(l)) == Some(l)
    ensures !IsNamed(l) ==> SeverityLevel(Severity(l)) == None
  {
  }

  lemma SeverityDistinct(a: Level, b: Level)
    requires IsNamed(a) && IsNamed(b) && a != b
    ensures Severity(a) != Severity(b)
  {
    SeverityRoundTrip(a);
    SeverityRoundTrip(b);
  }

  /** The mapping itself: DPanic and Panic have no counterpart. */
  lemma SeverityTable()
    ensures Severity(DebugLevel) == "DEBUG" && Severity(InfoLevel) == "INFO"
    ensures Severity(WarnLevel) == "WARNING" && Severity(ErrorLevel) == "ERROR"
    ensures Severity(FatalLevel) == "ALERT"
    ensures Severity(DPanicLevel) == "DEFAULT" && Severity(PanicLevel) == "DEFAULT"
  {
  }
}
