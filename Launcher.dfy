// How the scraper turns its keyword arguments and the browser configuration
// into the Chrome command line: resolving a keyword, merging per-call
// overrides, assembling the argument list in its fixed order, and withholding
// the arguments the browser library manages itself.

module Launcher {
  import opened Json

  /** `_resolve`: the stored keyword when it is not None, else the fallback; the config is never read. */
  function Resolve(kwargs: seq<(string, JSON)>, key: string, fallback: JSON): (r: JSON)
    ensures Lookup(kwargs, key).Some? && Lookup(kwargs, key).value != JNull ==> r == Lookup(kwargs, key).value
    ensures Lookup(kwargs, key).None? || Lookup(kwargs, key).value == JNull ==> r == fallback
  {
    var value := LookupOr(kwargs, key, JNull);
    if value != JNull then value else fallback
  }

  /** Storing None under a keyword makes `_resolve` fall back; storing anything else returns it. */
  lemma ResolveAfterSet(kwargs: seq<(string, JSON)>, key: string, v: JSON, fallback: JSON)
    ensures Resolve(Set(kwargs, key, v), key, fallback) == if v == JNull then fallback else v
  {
    SetLookup(kwargs, key, v, key);
  }

  /** `{**kwargs, **overrides}` */
  function Merge(kwargs: seq<(string, JSON)>, overrides: seq<(string, JSON)>): seq<(string, JSON)>
  {
    Update(kwargs, overrides)
  }

  /** Overrides replace constructor keywords key by key; every other keyword survives. */
  lemma MergeLookup(kwargs: seq<(string, JSON)>, overrides: seq<(string, JSON)>, k: string)
    requires DistinctKeys(overrides)
    ensures Lookup(Merge(kwargs, overrides), k) ==
              if k in Keys(overrides) then Lookup(overrides, k) else Lookup(kwargs, k)
  {
    UpdateLookup(kwargs, overrides, k);
  }

  /** The parts of the browser configuration the argument list reads. */
  datatype BrowserConfig = BrowserConfig(
    headless: bool,
    windowSize: seq<JSON>,
    disableBlinkFeatures: seq<string>,
    chromeArgs: seq<string>)

  /** `merged.get(k)`: None for a missing key. */
  function MGet(merged: seq<(string, JSON)>, k: string): JSON
  {
    LookupOr(merged, k, JNull)
  }

  /**
   * `w, h = merged.get("window_size") or browser_cfg.window_size or (1920, 1080)`:
   * unpacking raises TypeError for a value that cannot be iterated and
   * ValueError for one without exactly two items.
   */
  function WindowSize(merged: seq<(string, JSON)>, cfg: BrowserConfig): (r: Outcome<(JSON, JSON)>)
    ensures !Truthy(MGet(merged, "window_size")) && cfg.windowSize == [] ==> r == Ok((JInt(1920), JInt(1080)))
    ensures !Truthy(MGet(merged, "window_size")) && |cfg.windowSize| == 2 ==>
              r == Ok((cfg.windowSize[0], cfg.windowSize[1]))
    ensures var v := MGet(merged, "window_size");
            v.JArr? && |v.items| == 2 ==> r == Ok((v.items[0], v.items[1]))
    ensures var v := MGet(merged, "window_size");
            v.JArr? && |v.items| != 2 && v.items != [] ==> r == Raise(ValueError)
    ensures var v := MGet(merged, "window_size");
            Truthy(v) && !(v.JArr? || v.JObj? || v.JStr?) ==> r == Raise(TypeError)
  {
    var v := MGet(merged, "window_size");
    var items :- if Truthy(v) then Iter(v)
                 else if cfg.windowSize != [] then Ok(cfg.windowSize)
                 else Ok([JInt(1920), JInt(1080)]);
    if |items| != 2 then Raise(ValueError) else Ok((items[0], items[1]))
  }

  /** `config.headless = headless or False`, headless being the merged value unless it is None. */
  function Headless(merged: seq<(string, JSON)>, cfg: BrowserConfig): (r: JSON)
    ensures MGet(merged, "headless") == JNull ==> r == JBool(cfg.headless)
    ensures MGet(merged, "headless") != JNull && Truthy(MGet(merged, "headless")) ==> r == MGet(merged, "headless")
    ensures MGet(merged, "headless") != JNull && !Truthy(MGet(merged, "headless")) ==> r == JBool(false)
  {
    var h := MGet(merged, "headless");
    var headless := if h != JNull then h else JBool(cfg.headless);
    Or(headless, JBool(false))
  }

  /** The boolean keywords and the Chrome switch each turns on. */
  const FlagMap: seq<(string, string)> := [
    ("no_sandbox", "--no-sandbox"),
    ("disable_dev_shm_usage", "--disable-dev-shm-usage"),
    ("disable_gpu", "--disable-gpu"),
    ("disable_web_security", "--disable-web-security")]

  /** The switches of `flags` whose keyword holds exactly True (`is True`), in map order. */
  function FlagArgs(merged: seq<(string, JSON)>, flags: seq<(string, string)>): seq<string>
    decreases |flags|
  {
    if flags == [] then []
    else FlagArgs(merged, flags[..|flags| - 1]) +
         (if MGet(merged, flags[|flags| - 1].0) == JBool(true) then [flags[|flags| - 1].1] else [])
  }

  function Join(sep: string, xs: seq<string>): string
    decreases |xs|
  {
    if xs == [] then "" else if |xs| == 1 then xs[0] else xs[0] + sep + Join(sep, xs[1..])
  }

  /** The arguments built before the config and extra arguments: proxy, flags, features, blink features, logging. */
  function BaseArgs(merged: seq<(string, JSON)>, cfg: BrowserConfig): seq<string>
  {
    ProxyArgs(merged) + FlagArgs(merged, FlagMap) + FeatureArgs(merged) + BlinkArgs(cfg) + LoggingArgs(merged)
  }

  function ProxyArgs(merged: seq<(string, JSON)>): seq<string>
  {
    if Truthy(MGet(merged, "proxy")) then ["--proxy-server=" + Str(MGet(merged, "proxy"))] else []
  }

  function FeatureArgs(merged: seq<(string, JSON)>): seq<string>
  {
    if Truthy(MGet(merged, "disable_features")) then ["--disable-features=" + Str(MGet(merged, "disable_features"))] else []
  }

  function BlinkArgs(cfg: BrowserConfig): seq<string>
  {
    if cfg.disableBlinkFeatures != [] then ["--disable-blink-features=" + Join(",", cfg.disableBlinkFeatures)] else []
  }

  function LoggingArgs(merged: seq<(string, JSON)>): seq<string>
  {
    if Truthy(MGet(merged, "enable_logging"))
    then ["--log-level=" + Str(LookupOr(merged, "log_level", JInt(0))), "--enable-logging"]
    else []
  }

  /** The loop `for arg in extra: if arg not in args: args.append(arg)`. */
  function AppendNew(xs: seq<string>, ys: seq<string>): seq<string>
    decreases |ys|
  {
    if ys == [] then xs
    else
      var a := AppendNew(xs, ys[..|ys| - 1]);
      if ys[|ys| - 1] in a then a else a + [ys[|ys| - 1]]
  }

  /**
   * `merged.get("arguments") or []` as a list of strings: iterating a
   * non-iterable raises TypeError, and a non-string item fails later at
   * `arg.lower()` with AttributeError.
   */
  function ExtraArguments(merged: seq<(string, JSON)>): (r: Outcome<seq<string>>)
    ensures !Truthy(MGet(merged, "arguments")) ==> r == Ok([])
    ensures r.Ok? && MGet(merged, "arguments").JArr? ==>
              |r.value| == |MGet(merged, "arguments").items| &&
              forall i :: 0 <= i < |r.value| ==> MGet(merged, "arguments").items[i] == JStr(r.value[i])
  {
    var items :- Iter(Or(MGet(merged, "arguments"), JArr([])));
    if items == [] then Ok([])
    else if forall i :: 0 <= i < |items| ==> items[i].JStr?
    then Ok(seq(|items|, i requires 0 <= i < |items| => items[i].s))
    else Raise(AttributeError)
  }

  /** The full `browser_args` list `start_browser` builds. */
  function BrowserArgs(merged: seq<(string, JSON)>, cfg: BrowserConfig): Outcome<seq<string>>
  {
    var extra :- ExtraArguments(merged);
    Ok(AppendNew(AppendNew(BaseArgs(merged, cfg), cfg.chromeArgs), extra))
  }

  /** The argument-list assembly of `start_browser`, step by step. */
  method AssembleArgs(merged: seq<(string, JSON)>, cfg: BrowserConfig) returns (r: Outcome<seq<string>>)
    ensures r == BrowserArgs(merged, cfg)
  {
    var args := BuildBaseArgs(merged, cfg);
    args := AppendMissing(args, cfg.chromeArgs);
    var extra := ExtraArguments(merged);
    if extra.Raise? {
      return Raise(extra.exc);
    }
    args := AppendMissing(args, extra.value);
    return Ok(args);
  }

  /** Proxy, boolean switches, disabled features, blink features and logging, in that order. */
  method BuildBaseArgs(merged: seq<(string, JSON)>, cfg: BrowserConfig) returns (args: seq<string>)
    ensures args == BaseArgs(merged, cfg)
  {
    var proxyArgs: seq<string> := [];
    var proxy := MGet(merged, "proxy");
    if Truthy(proxy) {
      proxyArgs := proxyArgs + ["--proxy-server=" + Str(proxy)];
    }
    assert proxyArgs == ProxyArgs(merged);
    args := AppendFlags(merged, proxyArgs);
    var featureArgs: seq<string> := [];
    var disableFeatures := MGet(merged, "disable_features");
    if Truthy(disableFeatures) {
      featureArgs := featureArgs + ["--disable-features=" + Str(disableFeatures)];
    }
    assert featureArgs == FeatureArgs(merged);
    var blinkArgs: seq<string> := [];
    if cfg.disableBlinkFeatures != [] {
      blinkArgs := blinkArgs + ["--disable-blink-features=" + Join(",", cfg.disableBlinkFeatures)];
    }
    assert blinkArgs == BlinkArgs(cfg);
    var logging: seq<string> := [];
    if Truthy(MGet(merged, "enable_logging")) {
      logging := logging + ["--log-level=" + Str(LookupOr(merged, "log_level", JInt(0)))];
      logging := logging + ["--enable-logging"];
    }
    assert logging == LoggingArgs(merged);
    args := args + featureArgs + blinkArgs + logging;
  }

  /** The `_flag_map` loop: appends each switch whose keyword is exactly True. */
  method AppendFlags(merged: seq<(string, JSON)>, base: seq<string>) returns (args: seq<string>)
    ensures args == base + FlagArgs(merged, FlagMap)
  {
    args := base;
    for i := 0 to |FlagMap|
      invariant args == base + FlagArgs(merged, FlagMap[..i])
    {
      assert FlagMap[..i + 1][..i] == FlagMap[..i];
      var (kwargKey, chromeArg) := FlagMap[i];
      if MGet(merged, kwargKey) == JBool(true) {
        args := args + [chromeArg];
      }
    }
    assert FlagMap[..|FlagMap|] == FlagMap;
  }

  /** Appends each argument of `ys` that the list does not hold yet. */
  method AppendMissing(xs: seq<string>, ys: seq<string>) returns (r: seq<string>)
    ensures r == AppendNew(xs, ys)
  {
    r := xs;
    for i := 0 to |ys|
      invariant r == AppendNew(xs, ys[..i])
    {
      assert ys[..i + 1][..i] == ys[..i];
      if ys[i] !in r {
        r := r + [ys[i]];
      }
    }
    assert ys[..|ys|] == ys;
  }

  /**
   * Appending only missing arguments keeps the list as a prefix, adds
   * exactly the arguments of `ys` not yet listed, and adds each once.
   */
  lemma {:induction false} AppendNewProperties(xs: seq<string>, ys: seq<string>)
    ensures xs <= AppendNew(xs, ys)
    ensures forall s :: s in AppendNew(xs, ys) <==> s in xs || s in ys
    ensures var r := AppendNew(xs, ys);
            forall i, j :: |xs| <= i < j < |r| ==> r[i] != r[j]
    ensures var r := AppendNew(xs, ys);
            forall i :: |xs| <= i < |r| ==> r[i] !in xs
    decreases |ys|
  {
    if ys != [] {
      var init, last := ys[..|ys| - 1], ys[|ys| - 1];
      AppendNewProperties(xs, init);
      assert ys == init + [last];
      var a := AppendNew(xs, init);
      if last !in a {
        var r := a + [last];
        forall i | |xs| <= i < |r| ensures r[i] !in xs {
          if i == |a| {
            assert last !in xs;
          } else {
            assert r[i] == a[i];
          }
        }
      }
    }
  }

  /** A list without repeats gains none from the config and extra phases. */
  lemma AppendNewDistinct(xs: seq<string>, ys: seq<string>)
    requires forall i, j :: 0 <= i < j < |xs| ==> xs[i] != xs[j]
    ensures var r := AppendNew(xs, ys);
            forall i, j :: 0 <= i < j < |r| ==> r[i] != r[j]
  {
    AppendNewProperties(xs, ys);
    var r := AppendNew(xs, ys);
    forall i, j | 0 <= i < j < |r| ensures r[i] != r[j] {
      if j >= |xs| && i < |xs| {
        assert r[i] == xs[i];
        assert r[i] in xs;
      } else if j < |xs| {
        assert r[i] == xs[i] && r[j] == xs[j];
      }
    }
  }

  /** A flag switch is present exactly when its keyword is True. */
  lemma {:induction false} FlagArgsIff(merged: seq<(string, JSON)>, flags: seq<(string, string)>, k: nat)
    requires k < |flags|
    requires forall i, j :: 0 <= i < j < |flags| ==> flags[i].1 != flags[j].1
    ensures flags[k].1 in FlagArgs(merged, flags) <==> MGet(merged, flags[k].0) == JBool(true)
    decreases |flags|
  {
    var init := flags[..|flags| - 1];
    FlagArgsOnly(merged, init);
    if k < |init| {
      FlagArgsIff(merged, init, k);
    }
  }

  lemma {:induction false} FlagArgsOnly(merged: seq<(string, JSON)>, flags: seq<(string, string)>)
    ensures forall s :: s in FlagArgs(merged, flags) ==> exists i :: 0 <= i < |flags| && flags[i].1 == s
    decreases |flags|
  {
    if flags != [] {
      var init := flags[..|flags| - 1];
      FlagArgsOnly(merged, init);
      forall s | s in FlagArgs(merged, flags) ensures exists i :: 0 <= i < |flags| && flags[i].1 == s {
        if s in FlagArgs(merged, init) {
          var i :| 0 <= i < |init| && init[i].1 == s;
          assert flags[i].1 == s;
        } else {
          assert flags[|flags| - 1].1 == s;
        }
      }
    }
  }

  /** Each of the four boolean switches is passed exactly when its keyword is True. */
  lemma FlagSwitches(merged: seq<(string, JSON)>, k: nat)
    requires k < |FlagMap|
    ensures FlagMap[k].1 in FlagArgs(merged, FlagMap) <==> MGet(merged, FlagMap[k].0) == JBool(true)
  {
    FlagArgsIff(merged, FlagMap, k);
  }

  /**
   * The argument list starts with the base arguments, in their order; with
   * logging on, `--log-level=<n>` is immediately followed by `--enable-logging`.
   */
  lemma ArgsOrder(merged: seq<(string, JSON)>, cfg: BrowserConfig)
    requires BrowserArgs(merged, cfg).Ok?
    ensures BaseArgs(merged, cfg) <= BrowserArgs(merged, cfg).value
    ensures Truthy(MGet(merged, "enable_logging")) ==>
              var base := BaseArgs(merged, cfg);
              |base| >= 2 && base[|base| - 1] == "--enable-logging" &&
              base[|base| - 2] == "--log-level=" + Str(LookupOr(merged, "log_level", JInt(0)))
  {
    var base := BaseArgs(merged, cfg);
    var extra := ExtraArguments(merged).value;
    AppendNewProperties(base, cfg.chromeArgs);
    AppendNewProperties(AppendNew(base, cfg.chromeArgs), extra);
  }

  // ---------------------------------------------------------------------
  // The managed-argument filter

  const Managed: seq<string> := ["headless", "data-dir", "data_dir", "no-sandbox", "no_sandbox", "lang"]

  function LowerChar(c: char): char
  {
    if 'A' <= c <= 'Z' then (c as int + 32) as char else c
  }

  /** `s.lower()` on ASCII letters. */
  function Lower(s: string): (r: string)
    ensures |r| == |s|
  {
    seq(|s|, i requires 0 <= i < |s| => LowerChar(s[i]))
  }

  /** `any(m in s for m in subs)` */
  function AnyIn(subs: seq<string>, s: string): (b: bool)
    ensures b <==> exists i :: 0 <= i < |subs| && IsSubstring(subs[i], s)
    decreases |subs|
  {
    if subs == [] then false
    else if IsSubstring(subs[0], s) then true
    else
      assert forall i :: 1 <= i < |subs| ==> subs[i] == subs[1..][i - 1];
      AnyIn(subs[1..], s)
  }

  predicate IsManaged(arg: string)
  {
    AnyIn(Managed, Lower(arg))
  }

  predicate DisablesSandbox(arg: string)
  {
    IsSubstring("no-sandbox", Lower(arg)) || IsSubstring("no_sandbox", Lower(arg))
  }

  /** The arguments handed to `add_argument`: the unmanaged ones, in order. */
  function Unmanaged(args: seq<string>): seq<string>
    decreases |args|
  {
    if args == [] then []
    else Unmanaged(args[..|args| - 1]) + (if IsManaged(args[|args| - 1]) then [] else [args[|args| - 1]])
  }

  /**
   * The filter loop: every unmanaged argument is added, in order; a
   * no-sandbox argument turns the sandbox off.  `sandbox` starts as the
   * browser library's default.
   */
  method FilterManaged(args: seq<string>, sandbox0: bool) returns (added: seq<string>, sandbox: bool)
    ensures added == Unmanaged(args)
    ensures sandbox <==> sandbox0 && forall i :: 0 <= i < |args| ==> !DisablesSandbox(args[i])
  {
    added := [];
    sandbox := sandbox0;
    for i := 0 to |args|
      invariant added == Unmanaged(args[..i])
      invariant sandbox <==> sandbox0 && forall j :: 0 <= j < i ==> !DisablesSandbox(args[j])
    {
      assert args[..i + 1][..i] == args[..i];
      var arg := args[i];
      if AnyIn(Managed, Lower(arg)) {
        if IsSubstring("no-sandbox", Lower(arg)) || IsSubstring("no_sandbox", Lower(arg)) {
          sandbox := false;
        }
      } else {
        added := added + [arg];
      }
    }
    assert args[..|args|] == args;
  }

  /** An argument is added exactly when it is listed and unmanaged. */
  lemma {:induction false} UnmanagedMembers(args: seq<string>, s: string)
    ensures s in Unmanaged(args) <==> s in args && !IsManaged(s)
    decreases |args|
  {
    if args != [] {
      var init := args[..|args| - 1];
      UnmanagedMembers(init, s);
      assert args == init + [args[|args| - 1]];
    }
  }

  /** A sandbox switch is itself managed, so it is never added. */
  lemma SandboxSwitchManaged(arg: string)
    requires DisablesSandbox(arg)
    ensures IsManaged(arg)
  {
    assert IsSubstring(Managed[3], Lower(arg)) || IsSubstring(Managed[4], Lower(arg));
  }

  /** Example: a feature list naming Language holds "lang" once lower-cased, so it is withheld. */
  lemma LanguageFeatureWithheld()
    ensures IsManaged("--disable-features=Language")
  {
    var low := Lower("--disable-features=Language");
    assert low[19..23] == "lang";
    assert OccursAt(low, Managed[5], 19);
  }
}
