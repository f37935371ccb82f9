/**
  The level encoder for the pretty console: a three-letter label wrapped in
  an ANSI colour escape, `ESC "[" code "m" label ESC "[0m"`.
 */
module ColorConsole {
  import opened Text
  import opened Levels
  import opened Telemetry

  /** The escape character, `\x1b`. */
  const Esc: char := 27 as char

  const ConsoleColorBlack: nat := 30
  const ConsoleColorBlue: nat := 34
  const ConsoleColorGreen: nat := 32
  const ConsoleColorRed: nat := 31
  const ConsoleColorYellow: nat := 33

  /** The colour code of `l`; levels other than the five named ones are black. */
  function ColorCode(l: Level): (c: nat)
    ensures 30 <= c <= 34
  {
    if l == DebugLevel then ConsoleColorBlue
    else if l == InfoLevel then ConsoleColorGreen
    else if l == WarnLevel then ConsoleColorYellow
    else if l == ErrorLevel then ConsoleColorRed
    else if l == FatalLevel then ConsoleColorRed
    else ConsoleColorBlack
  }

  /** The label of `l`, always exactly three characters. */
  function Label(l: Level): (s: string)
    ensures |s| == 3
    ensures s == "LOG" <==> !IsNamed(l)
  {
    if l == DebugLevel then "DBG"
    else if l == InfoLevel then "INF"
    else if l == WarnLevel then "WRN"
    else if l == ErrorLevel then "ERR"
    else if l == FatalLevel then "FTL"
    else "LOG"
  }

  /** `fmt.Sprintf("\x1b[%dm%s\x1b[0m", uint8(code), label)`. */
  function Colored(code: nat, name: string): string
    requires code < 256
  {
    [Esc] + "[" + Decimal(code) + "m" + name + [Esc] + "[0m"
  }

  /** Where each part of a two-digit colour and a three-letter label sits in the written string. */
  lemma ColoredLayout(code: nat, name: string)
    requires 10 <= code < 100 && |name| == 3
    ensures var s := Colored(code, name);
            && |s| == 12
            && s[0] == Esc && s[1] == '[' && s[2..4] == Decimal(code) && s[4] == 'm'
            && s[5..8] == name
            && s[8] == Esc && s[9..] == "[0m"
  {
    var d := Decimal(code);
    assert |d| == 2 by {
      assert d == Decimal(code / 10) + [Digit(code % 10)];
    }
    var s := Colored(code, name);
    assert s == ([Esc] + "[") + d + ("m" + name + [Esc] + "[0m");
    assert s[2..4] == d;
    assert s[5..8] == name;
    assert s[9..] == "[0m";
  }

  /** The string the encoder writes for `l`. */
  function ColorConsoleLevel(l: Level): (s: string)
    ensures |s| == 12
    ensures s[0] == Esc && s[1] == '[' && s[2..4] == Decimal(ColorCode(l)) && s[4] == 'm'
    ensures s[5..8] == Label(l)
    ensures s[8] == Esc && s[9..] == "[0m"
  {
    ColoredLayout(ColorCode(l), Label(l));
    Colored(ColorCode(l), Label(l))
  }

  /** Appends exactly one string, the coloured label of `l`, to `enc`. */
  method ColorConsoleLevelEncoder(l: Level, enc: ArrayEncoder)
    modifies enc
    ensures enc.items == old(enc.items) + [ColorConsoleLevel(l)]
  {
    var s := "";
    if l == DebugLevel {
      s := Colored(ConsoleColorBlue, "DBG");
    } else if l == InfoLevel {
      s := Colored(ConsoleColorGreen, "INF");
    } else if l == WarnLevel {
      s := Colored(ConsoleColorYellow, "WRN");
    } else if l == ErrorLevel {
      s := Colored(ConsoleColorRed, "ERR");
    } else if l == FatalLevel {
      s := Colored(ConsoleColorRed, "FTL");
    } else {
      s := Colored(ConsoleColorBlack, "LOG");
    }
    enc.AppendString(s);
  }

  // --- Properties

  /** The code and the label of each level. */
  lemma ColorTable()
    ensures ColorCode(DebugLevel) == 34 && Label(DebugLevel) == "DBG"
    ensures ColorCode(InfoLevel) == 32 && Label(InfoLevel) == "INF"
    ensures ColorCode(WarnLevel) == 33 && Label(WarnLevel) == "WRN"
    ensures ColorCode(ErrorLevel) == 31 && Label(ErrorLevel) == "ERR"
    ensures ColorCode(FatalLevel) == 31 && Label(FatalLevel) == "FTL"
    ensures forall l :: !IsNamed(l) ==> ColorCode(l) == 30 && Label(l) == "LOG"
  {
  }

  /** The written string of a level whose code is "3" followed by `d`. */
  lemma WrittenString(l: Level, d: char)
    requires '0' <= d <= '4' && ColorCode(l) == 30 + (d as int - '0' as int)
    ensures ColorConsoleLevel(l) == [Esc] + ['[', '3', d, 'm'] + Label(l) + [Esc] + "[0m"
  {
  }

  /** The string written for each level. */
  lemma ColorStrings()
    ensures ColorConsoleLevel(DebugLevel) == [Esc] + "[34m" + "DBG" + [Esc] + "[0m"
    ensures ColorConsoleLevel(InfoLevel) == [Esc] + "[32m" + "INF" + [Esc] + "[0m"
    ensures ColorConsoleLevel(WarnLevel) == [Esc] + "[33m" + "WRN" + [Esc] + "[0m"
    ensures ColorConsoleLevel(ErrorLevel) == [Esc] + "[31m" + "ERR" + [Esc] + "[0m"
    ensures ColorConsoleLevel(FatalLevel) == [Esc] + "[31m" + "FTL" + [Esc] + "[0m"
    ensures forall l :: !IsNamed(l) ==> ColorConsoleLevel(l) == [Esc] + "[30m" + "LOG" + [Esc] + "[0m"
  {
    ColorTable();
    WrittenString(DebugLevel, '4');
    WrittenString(InfoLevel, '2');
    WrittenString(WarnLevel, '3');
    WrittenString(ErrorLevel, '1');
    WrittenString(FatalLevel, '1');
    forall l | !IsNamed(l)
      ensures ColorConsoleLevel(l) == [Esc] + "[30m" + "LOG" + [Esc] + "[0m"
    {
      WrittenString(l, '0');
    }
  }

  /**
    Error and fatal share a colour, yet the written strings of the five named
    levels are pairwise distinct, because the label sits at a fixed place.
   */
  lemma ColorConsoleDistinct(a: Level, b: Level)
    requires IsNamed(a) && IsNamed(b) && a != b
    ensures ColorConsoleLevel(a) != ColorConsoleLevel(b)
  {
    assert ColorConsoleLevel(a)[5..8] == Label(a);
    assert ColorConsoleLevel(b)[5..8] == Label(b);
  }

  lemma ErrorFatalShareColour()
    ensures ColorCode(ErrorLevel) == ColorCode(FatalLevel)
    ensures Label(ErrorLevel) != Label(FatalLevel)
  {
  }
}
