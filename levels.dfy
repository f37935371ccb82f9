/**
  zap's severity levels. `zapcore.Level` is an `int8`; the named levels are
  -1 (debug) to 5 (fatal), and the zero value of the type is 0, the info level.
 */
module Levels {
  import opened Text

  newtype Level = x: int | -128 <= x < 128

  const DebugLevel: Level := -1
  const InfoLevel: Level := 0
  const WarnLevel: Level := 1
  const ErrorLevel: Level := 2
  const DPanicLevel: Level := 3
  const PanicLevel: Level := 4
  const FatalLevel: Level := 5

  /** What a Go variable declared as `var l zapcore.Level` holds. */
  const ZeroLevel: Level := 0

  /** The five levels the bridge names: debug, info, warn, error, fatal. */
  predicate IsNamed(l: Level) {
    l == DebugLevel || l == InfoLevel || l == WarnLevel || l == ErrorLevel || l == FatalLevel
  }

  lemma ZeroLevelIsInfo()
    ensures ZeroLevel == InfoLevel
  {
  }

  /** `-` followed by the digits for a negative value, as `%d` prints an int8. */
  function SignedDecimal(x: int): (r: string)
    ensures |r| >= 1
  {
    if x < 0 then "-" + Decimal(-x) else Decimal(x)
  }

  /**
    zap's `Level.String()`: the lower-case name of a known level and
    `Level(<n>)` for any other value of the type.
   */
  function LevelName(l: Level): (r: string)
    ensures r != ""
  {
    if l == DebugLevel then "debug"
    else if l == InfoLevel then "info"
    else if l == WarnLevel then "warn"
    else if l == ErrorLevel then "error"
    else if l == DPanicLevel then "dpanic"
    else if l == PanicLevel then "panic"
    else if l == FatalLevel then "fatal"
    else "Level(" + SignedDecimal(l as int) + ")"
  }
}
