/**
  Redaction of environment variables before they become resource
  attributes: a name is withheld when it equals a blocked name or contains a
  blocked substring, both ignoring (ASCII) case. The environment, the CPU
  count and the Go version are parameters.
 */
module EnvFilter {
  import opened Wrappers
  import opened Text
  import opened Consts
  import opened Telemetry

  /** The name equals an entry of the exact-match list, ignoring case. */
  predicate IsBlockedName(name: string) {
    exists j :: 0 <= j < |BlockedEnvVars| && EqualFold(name, BlockedEnvVars[j])
  }

  /** The lower-cased name contains a lower-cased entry of the substring list. */
  predicate HasBlockedSubstring(name: string) {
    exists j :: 0 <= j < |BlockedEnvVarSubstrings| && Contains(ToLower(name), ToLower(BlockedEnvVarSubstrings[j]))
  }

  /** The variable is sensitive and must not be logged. */
  predicate MustNotLogEnvVar(name: string) {
    IsBlockedName(name) || HasBlockedSubstring(name)
  }

  /**
    `MustNotLogEnvVar`'s two scans: the exact-match list first, then the
    substring list, each returning at the first hit.
   */
  method ScanBlocklists(name: string) returns (blocked: bool)
    ensures blocked == MustNotLogEnvVar(name)
  {
    var j := 0;
    while j < |BlockedEnvVars|
      invariant 0 <= j <= |BlockedEnvVars|
      invariant forall m :: 0 <= m < j ==> !EqualFold(name, BlockedEnvVars[m])
    {
      if EqualFold(name, BlockedEnvVars[j]) {
        return true;
      }
      j := j + 1;
    }
    j := 0;
    while j < |BlockedEnvVarSubstrings|
      invariant 0 <= j <= |BlockedEnvVarSubstrings|
      invariant forall m :: 0 <= m < j ==> !Contains(ToLower(name), ToLower(BlockedEnvVarSubstrings[m]))
    {
      if Contains(ToLower(name), ToLower(BlockedEnvVarSubstrings[j])) {
        return true;
      }
      j := j + 1;
    }
    return false;
  }

  /** The index of the first `c` in `s`. */
  function FirstIndex(s: string, c: char): (i: nat)
    requires c in s
    ensures i < |s| && s[i] == c
    ensures forall j :: 0 <= j < i ==> s[j] != c
  {
    if s[0] == c then 0 else 1 + FirstIndex(s[1..], c)
  }

  /** The name before the first '=' of an entry and the value after it. */
  function SplitEnv(e: string): (pair: (string, string))
    requires '=' in e
    ensures pair.0 + "=" + pair.1 == e
    ensures '=' !in pair.0
  {
    var i := FirstIndex(e, '=');
    assert e == e[..i] + "=" + e[i + 1..];
    (e[..i], e[i + 1..])
  }

  /**
    `strings.SplitN(e, "=", 2)`: the whole entry when it holds no '=',
    otherwise the parts before and after the first '='.
   */
  function SplitN(e: string): (parts: seq<string>)
    ensures |parts| == 1 || |parts| == 2
    ensures |parts| == 1 <==> '=' !in e
    ensures '=' !in parts[0]
    ensures |parts| == 1 ==> parts[0] == e
    ensures |parts| == 2 ==> parts[0] + "=" + parts[1] == e
  {
    if '=' in e then [SplitEnv(e).0, SplitEnv(e).1] else [e]
  }

  /** The name `CollectResourceAttributes` tests: `pair[0]`. */
  function EnvName(e: string): string {
    SplitN(e)[0]
  }

  /**
    The entry makes `CollectResourceAttributes` panic: it holds no '=', so
    `pair[1]` is out of range, and its name is not sensitive, so the loop does
    not skip it before reading `pair[1]`.
   */
  predicate Panics(e: string) {
    '=' !in e && !MustNotLogEnvVar(EnvName(e))
  }

  /** No entry of `env` makes the loop panic (entry by entry: `NoPanicMeans`). */
  predicate NoPanic(env: seq<string>)
    decreases |env|
  {
    env == [] || (NoPanic(env[..|env| - 1]) && !Panics(env[|env| - 1]))
  }

  /** The attribute kept for an entry that holds a '='. */
  function EnvAttr(e: string): Attr
    requires '=' in e
  {
    Attr(SplitEnv(e).0, AStr(SplitEnv(e).1))
  }

  /** The attributes kept from `env`: one string attribute per variable that may be logged, in order. */
  function EnvAttrs(env: seq<string>): seq<Attr>
    requires NoPanic(env)
    decreases |env|
  {
    if env == [] then []
    else
      var init := env[..|env| - 1];
      var e := env[|env| - 1];
      EnvAttrs(init) + (if MustNotLogEnvVar(EnvName(e)) then [] else [EnvAttr(e)])
  }

  lemma EnvAttrsStep(env: seq<string>, i: int)
    requires 0 <= i < |env| && NoPanic(env[..i + 1])
    ensures NoPanic(env[..i])
    ensures EnvAttrs(env[..i + 1])
         == EnvAttrs(env[..i]) + (if MustNotLogEnvVar(EnvName(env[i])) then [] else [EnvAttr(env[i])])
  {
    assert env[..i + 1][..i] == env[..i];
  }

  lemma NoPanicStep(env: seq<string>, i: int)
    requires 0 <= i < |env| && NoPanic(env[..i]) && !Panics(env[i])
    ensures NoPanic(env[..i + 1])
  {
    assert env[..i + 1][..i] == env[..i];
  }

  /** `NoPanic` holds exactly when no entry panics. */
  lemma {:induction false} NoPanicMeans(env: seq<string>)
    ensures NoPanic(env) <==> forall i :: 0 <= i < |env| ==> !Panics(env[i])
    decreases |env|
  {
    forall i | 0 <= i < |env| {
      NoPanicAt(env, i);
    }
    if env != [] {
      var init := env[..|env| - 1];
      NoPanicMeans(init);
      assert forall i :: 0 <= i < |init| ==> init[i] == env[i];
    }
  }

  /** One panicking entry makes the whole list panic. */
  lemma {:induction false} NoPanicAt(env: seq<string>, i: int)
    requires 0 <= i < |env|
    ensures NoPanic(env) ==> !Panics(env[i])
    decreases |env|
  {
    if i < |env| - 1 {
      var init := env[..|env| - 1];
      NoPanicAt(init, i);
      assert init[i] == env[i];
    }
  }

  /**
    One pass of `CollectResourceAttributes`' loop: split entry `i`, skip it
    when its name is sensitive, otherwise read `pair[1]` (false: the read
    panics) and append the attribute.
   */
  method AddEntry(env: seq<string>, i: int, attrs: seq<Attr>) returns (ok: bool, next: seq<Attr>)
    requires 0 <= i < |env| && NoPanic(env[..i]) && attrs == EnvAttrs(env[..i])
    ensures ok <==> !Panics(env[i])
    ensures ok ==> NoPanic(env[..i + 1]) && next == EnvAttrs(env[..i + 1])
  {
    var pair := SplitN(env[i]);
    var blocked := ScanBlocklists(pair[0]);
    assert blocked == MustNotLogEnvVar(EnvName(env[i]));
    if blocked {
      NoPanicStep(env, i);
      EnvAttrsStep(env, i);
      return true, attrs;
    }
    if |pair| < 2 {
      // pair[1] is out of range: the program panics
      return false, attrs;
    }
    NoPanicStep(env, i);
    EnvAttrsStep(env, i);
    return true, attrs + [Attr(pair[0], AStr(pair[1]))];
  }

  /**
    The non-sensitive variables of `env`, in order, followed by the CPU count
    and the Go version; None when an entry makes the loop panic.
   */
  method CollectResourceAttributes(env: seq<string>, cpuCount: int64, goVersion: string)
    returns (r: Option<seq<Attr>>)
    ensures !NoPanic(env) ==> r == None
    ensures NoPanic(env) ==>
      r == Some(EnvAttrs(env) + [Attr("cpuCount", AInt(cpuCount)), Attr("goVersion", AStr(goVersion))])
  {
    var attrs := [];
    var i := 0;
    while i < |env|
      invariant 0 <= i <= |env|
      invariant NoPanic(env[..i])
      invariant attrs == EnvAttrs(env[..i])
    {
      var ok;
      ok, attrs := AddEntry(env, i, attrs);
      if !ok {
        NoPanicAt(env, i);
        return None;
      }
      i := i + 1;
    }
    assert env[..i] == env;
    r := Some(attrs + [Attr("cpuCount", AInt(cpuCount)), Attr("goVersion", AStr(goVersion))]);
  }

  // --- Properties

  /** No kept attribute is keyed by a sensitive name, and every one comes from an entry of `env`. */
  lemma {:induction false} EnvAttrsSafe(env: seq<string>)
    requires NoPanic(env)
    ensures forall a :: a in EnvAttrs(env) ==> !MustNotLogEnvVar(a.key)
    ensures forall a :: a in EnvAttrs(env) ==>
      exists i :: 0 <= i < |env| && '=' in env[i] && a == EnvAttr(env[i])
    decreases |env|
  {
    if env != [] {
      var init := env[..|env| - 1];
      assert forall i :: 0 <= i < |init| ==> init[i] == env[i];
      EnvAttrsSafe(init);
      forall a | a in EnvAttrs(init)
        ensures exists i :: 0 <= i < |env| && '=' in env[i] && a == EnvAttr(env[i])
      {
        var i :| 0 <= i < |init| && '=' in init[i] && a == EnvAttr(init[i]);
        assert env[i] == init[i];
      }
    }
  }

  /** Every variable that may be logged is kept: with `EnvAttrsSafe`, kept exactly when not sensitive. */
  lemma {:induction false} EnvAttrsComplete(env: seq<string>, i: int)
    requires NoPanic(env) && 0 <= i < |env|
    requires !MustNotLogEnvVar(EnvName(env[i]))
    ensures '=' in env[i] && EnvAttr(env[i]) in EnvAttrs(env)
    decreases |env|
  {
    var init := env[..|env| - 1];
    NoPanicAt(env, i);
    if i < |init| {
      assert init[i] == env[i];
      EnvAttrsComplete(init, i);
    }
  }

  lemma AppendIndex(s: seq<Attr>, x: Attr, i: int)
    requires 0 <= i < |s|
    ensures (s + [x])[i] == s[i]
  {
  }

  /** With nothing sensitive in `env`, every variable is kept, in order, as `name = value`. */
  lemma {:induction false} EnvAttrsKeepAll(env: seq<string>)
    requires NoPanic(env)
    requires forall i :: 0 <= i < |env| ==> !MustNotLogEnvVar(EnvName(env[i]))
    ensures |EnvAttrs(env)| == |env|
    ensures forall i :: 0 <= i < |env| ==> '=' in env[i] && EnvAttrs(env)[i] == EnvAttr(env[i])
    decreases |env|
  {
    if env != [] {
      var init := env[..|env| - 1];
      assert forall i :: 0 <= i < |init| ==> init[i] == env[i];
      EnvAttrsKeepAll(init);
      var e := env[|env| - 1];
      assert !Panics(e);
      var kept, keptInit := EnvAttrs(env), EnvAttrs(init);
      assert kept == keptInit + [EnvAttr(e)];
      forall i | 0 <= i < |env|
        ensures '=' in env[i] && kept[i] == EnvAttr(env[i])
      {
        NoPanicAt(env, i);
        assert '=' in env[i];
        if i < |init| {
          assert init[i] == env[i];
          AppendIndex(keptInit, EnvAttr(e), i);
        } else {
          assert i == |env| - 1;
        }
      }
    }
  }

  /** An entry without '=' panics exactly when its name is not sensitive: "PINE" does, "PIN" is skipped. */
  lemma BareEntries()
    ensures !NoPanic(["PINE"])
    ensures NoPanic(["PIN"]) && EnvAttrs(["PIN"]) == []
  {
    PineNotBlocked();
    PinButNotPine();
    assert EnvName("PINE") == "PINE";
    assert EnvName("PIN") == "PIN";
    assert Panics(["PINE"][0]);
    assert ["PIN"][..0] == [];
  }

  /** Whether a name is sensitive depends only on its lower-case form. */
  lemma MustNotLogIgnoresCase(name: string)
    ensures MustNotLogEnvVar(ToLower(name)) == MustNotLogEnvVar(name)
  {
    ToLowerIdempotent(name);
  }

  /** "PIN" is blocked by name, so is "pin"; "PINE" is not, since the name list is matched exactly. */
  lemma PinButNotPine()
    ensures MustNotLogEnvVar("PIN") && MustNotLogEnvVar("pin")
    ensures !IsBlockedName("PINE")
  {
    assert EqualFold("PIN", BlockedEnvVars[14]);
    assert EqualFold("pin", BlockedEnvVars[14]);
  }

  /** "PINE" is not blocked at all: no exact name matches it and no blocked substring occurs in "pine". */
  lemma PineNotBlocked()
    ensures !MustNotLogEnvVar("PINE")
  {
    PinButNotPine();
    assert ToLower("PINE") == "pine";
    SubstringsLowerCase();
    forall j | 0 <= j < |BlockedEnvVarSubstrings|
      ensures !Contains(ToLower("PINE"), ToLower(BlockedEnvVarSubstrings[j]))
    {
      ToLowerOfLower(BlockedEnvVarSubstrings[j]);
      if j < 7 {
        PineMissesBelow(j, 7);
      } else if j < 14 {
        PineMissesBelow(j, 14);
      } else {
        PineMissesBelow(j, 21);
      }
    }
  }

  /** Each blocked substring has a letter outside "pine" at its first or second place, seven entries at a time. */
  lemma PineMissesBelow(j: int, hi: int)
    requires hi == 7 || hi == 14 || hi == 21
    requires hi - 7 <= j < hi
    ensures !Contains("pine", BlockedEnvVarSubstrings[j])
  {
    var needle := BlockedEnvVarSubstrings[j];
    if needle[0] != 'p' {
      MissingCharNotContained("pine", needle, 0);
    } else {
      MissingCharNotContained("pine", needle, 1);
    }
  }

  /** A name whose lower-case form contains a blocked substring is blocked, whatever its case. */
  lemma SubstringBlocks(name: string, j: int)
    requires 0 <= j < |BlockedEnvVarSubstrings|
    requires Contains(ToLower(name), BlockedEnvVarSubstrings[j])
    ensures MustNotLogEnvVar(name)
  {
    SubstringsLowerCase();
    ToLowerOfLower(BlockedEnvVarSubstrings[j]);
  }

  /** For example "AWS_Secret_Id", whose lower-case form contains "secret". */
  lemma SubstringBlocksExample()
    ensures MustNotLogEnvVar("AWS_Secret_Id")
  {
    assert ToLower("AWS_Secret_Id") == "aws_secret_id";
    assert ToLower(BlockedEnvVarSubstrings[17]) == "secret";
    assert OccursAt("aws_secret_id", "secret", 4);
  }
}
