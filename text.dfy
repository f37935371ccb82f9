/**
  The ASCII behaviour of the few Go `strings` functions the bridge relies on:
  TrimSpace, ToLower, EqualFold and Contains, and `%d` of a small number.
  Strings are sequences of characters; only the ASCII letters and the ASCII
  white space characters are treated specially.
 */
module Text {

  /** The ASCII characters Go's `unicode.IsSpace` accepts: tab, newline, vertical tab, form feed, carriage return and space. */
  predicate IsSpace(c: char) {
    c == ' ' || 9 <= c as int <= 13
  }

  /** A string with no white space at either end. */
  predicate IsTrimmed(s: string) {
    s == [] || (!IsSpace(s[0]) && !IsSpace(s[|s| - 1]))
  }

  /**
    Go's `strings.TrimSpace`: drops the white space at the front, then at the
    back, one character at a time.
   */
  function TrimSpace(s: string): (r: string)
    ensures IsTrimmed(r)
    ensures |r| <= |s|
    decreases |s|
  {
    if |s| > 0 && IsSpace(s[0]) then TrimSpace(s[1..])
    else if |s| > 0 && IsSpace(s[|s| - 1]) then TrimSpace(s[..|s| - 1])
    else s
  }

  /** Every character of `s` outside `s[a..b]` is white space. */
  predicate SpaceOutside(s: string, a: int, b: int) {
    0 <= a <= b <= |s|
    && (forall i :: 0 <= i < a ==> IsSpace(s[i]))
    && (forall i :: b <= i < |s| ==> IsSpace(s[i]))
  }

  /** What TrimSpace removes is white space at either end: the result is an infix of `s`. */
  lemma {:induction false} TrimSpaceInfix(s: string)
    ensures exists a, b :: SpaceOutside(s, a, b) && TrimSpace(s) == s[a..b]
    decreases |s|
  {
    if |s| > 0 && IsSpace(s[0]) {
      var tail := s[1..];
      TrimSpaceInfix(tail);
      var a, b :| SpaceOutside(tail, a, b) && TrimSpace(tail) == tail[a..b];
      assert tail[a..b] == s[a + 1..b + 1];
      forall i | 0 < i < |s| ensures s[i] == tail[i - 1] { }
      assert SpaceOutside(s, a + 1, b + 1);
    } else if |s| > 0 && IsSpace(s[|s| - 1]) {
      var init := s[..|s| - 1];
      TrimSpaceInfix(init);
      var a, b :| SpaceOutside(init, a, b) && TrimSpace(init) == init[a..b];
      assert init[a..b] == s[a..b];
      assert SpaceOutside(s, a, b);
    } else {
      assert TrimSpace(s) == s[0..|s|];
      assert SpaceOutside(s, 0, |s|);
    }
  }

  /** A string that is already trimmed comes back unchanged, so TrimSpace is idempotent. */
  lemma TrimSpaceOfTrimmed(s: string)
    requires IsTrimmed(s)
    ensures TrimSpace(s) == s
  {
  }

  lemma TrimSpaceIdempotent(s: string)
    ensures TrimSpace(TrimSpace(s)) == TrimSpace(s)
  {
    TrimSpaceOfTrimmed(TrimSpace(s));
  }

  /**
    A getter's resolution rule: the trimmed configured value when it is not
    blank, the fallback otherwise.
   */
  function TrimOrDefault(raw: string, fallback: string): (r: string)
    ensures TrimSpace(raw) != "" ==> r == TrimSpace(raw)
    ensures TrimSpace(raw) == "" ==> r == fallback
    ensures fallback != "" ==> r != ""
    ensures IsTrimmed(fallback) ==> IsTrimmed(r)
  {
    var clean := TrimSpace(raw);
    if clean != "" then clean else fallback
  }

  /** Resolving an already-resolved value yields it again. */
  lemma TrimOrDefaultIdempotent(raw: string, fallback: string)
    requires fallback != "" && IsTrimmed(fallback)
    ensures TrimOrDefault(TrimOrDefault(raw, fallback), fallback) == TrimOrDefault(raw, fallback)
  {
    TrimSpaceOfTrimmed(TrimOrDefault(raw, fallback));
  }

  predicate IsUpper(c: char) {
    'A' <= c <= 'Z'
  }

  /** ASCII lower-casing of one character. */
  function LowerChar(c: char): (r: char)
    ensures IsUpper(c) ==> r as int == c as int + 32
    ensures !IsUpper(c) ==> r == c
    ensures !IsUpper(r)
    ensures IsSpace(r) <==> IsSpace(c)
  {
    if IsUpper(c) then (c as int + 32) as char else c
  }

  /** Go's `strings.ToLower`, restricted to ASCII letters. */
  function ToLower(s: string): (r: string)
    ensures |r| == |s|
    ensures forall i :: 0 <= i < |s| ==> r[i] == LowerChar(s[i])
  {
    seq(|s|, i requires 0 <= i < |s| => LowerChar(s[i]))
  }

  /** Lower-casing and trimming commute, since lower-casing never adds or removes white space. */
  lemma {:induction false} TrimSpaceToLower(s: string)
    ensures TrimSpace(ToLower(s)) == ToLower(TrimSpace(s))
    decreases |s|
  {
    var t := ToLower(s);
    if |s| > 0 && IsSpace(s[0]) {
      TrimSpaceToLower(s[1..]);
      assert t[1..] == ToLower(s[1..]);
    } else if |s| > 0 && IsSpace(s[|s| - 1]) {
      TrimSpaceToLower(s[..|s| - 1]);
      assert t[..|t| - 1] == ToLower(s[..|s| - 1]);
    }
  }

  predicate IsLower(s: string) {
    forall i :: 0 <= i < |s| ==> !IsUpper(s[i])
  }

  lemma ToLowerOfLower(s: string)
    requires IsLower(s)
    ensures ToLower(s) == s
  {
  }

  lemma ToLowerIdempotent(s: string)
    ensures ToLower(ToLower(s)) == ToLower(s)
  {
  }

  /** Lower-casing keeps a trimmed string trimmed: it never turns a letter into white space. */
  lemma ToLowerKeepsTrimmed(s: string)
    requires IsTrimmed(s)
    ensures IsTrimmed(ToLower(s))
  {
  }

  /** Go's `strings.EqualFold` under ASCII simple case folding. */
  predicate EqualFold(a: string, b: string) {
    ToLower(a) == ToLower(b)
  }

  /** `needle` occurs in `s` starting at index `i`. */
  predicate OccursAt(s: string, needle: string, i: int) {
    0 <= i && i + |needle| <= |s| && s[i..i + |needle|] == needle
  }

  /** Go's `strings.Contains`: `needle` occurs somewhere in `s`. */
  predicate Contains(s: string, needle: string) {
    exists i :: 0 <= i <= |s| && OccursAt(s, needle, i)
  }

  /** A needle holding a character that `s` lacks does not occur in `s`. */
  lemma MissingCharNotContained(s: string, needle: string, k: int)
    requires 0 <= k < |needle| && needle[k] !in s
    ensures !Contains(s, needle)
  {
    forall i | 0 <= i <= |s|
      ensures !OccursAt(s, needle, i)
    {
      if i + |needle| <= |s| {
        assert s[i..i + |needle|][k] == s[i + k];
      }
    }
  }

  /** The decimal digit of a value below ten. */
  function Digit(d: nat): (c: char)
    requires d < 10
    ensures '0' <= c <= '9'
  {
    ('0' as int + d) as char
  }

  /** Decimal rendering of a natural number, as Go's `%d` writes it. */
  function Decimal(n: nat): (r: string)
    ensures |r| >= 1
    ensures forall i :: 0 <= i < |r| ==> '0' <= r[i] <= '9'
    ensures n < 10 <==> |r| == 1
    ensures r[0] == '0' <==> n == 0
  {
    if n < 10 then [Digit(n)] else Decimal(n / 10) + [Digit(n % 10)]
  }

  /** The value of a string of decimal digits, most significant first. */
  function DigitsValue(s: string): nat
    requires forall i :: 0 <= i < |s| ==> '0' <= s[i] <= '9'
    decreases |s|
  {
    if s == [] then 0
    else DigitsValue(s[..|s| - 1]) * 10 + (s[|s| - 1] as int - '0' as int)
  }

  /** `Decimal` writes the digits of `n` and nothing else: they read back as `n`. */
  lemma {:induction false} DecimalValue(n: nat)
    ensures DigitsValue(Decimal(n)) == n
    decreases n
  {
    if n >= 10 {
      var r := Decimal(n);
      DecimalValue(n / 10);
      assert r[..|r| - 1] == Decimal(n / 10);
    }
  }
}
