// The advanced scraper wrapper of the examples: its built-in configuration
// merged with a user's settings, the bounded retry loops that count attempts
// into the session statistics, and the file name of a raw-data dump.

module AdvancedConfig {
  import opened Json

  /** A Python dict with string keys, in insertion order. */
  type Dict = seq<(string, JSON)>

  // ---------------------------------------------------------------------
  // The built-in configuration (the delays 2.0 and 5.0 are floats in the
  // source; the model has no floats and keeps their integral values)

  const BrowserDefaults: Dict := [
    ("headless", JBool(false)), ("window_size", JStr("1920,1080")), ("user_agent", JNull),
    ("disable_images", JBool(true)), ("disable_css", JBool(true)), ("disable_plugins", JBool(true)),
    ("enable_javascript", JBool(true)), ("page_load_timeout", JInt(30)), ("implicit_wait", JInt(10))]

  const ScrapingDefaults: Dict := [
    ("request_delay", JInt(2)), ("max_retries", JInt(3)), ("retry_delay", JInt(5)),
    ("rate_limit_per_minute", JInt(30)), ("enable_network_monitoring", JBool(true)), ("save_raw_data", JBool(true))]

  const OutputDefaults: Dict := [
    ("save_json", JBool(true)), ("save_csv", JBool(false)), ("output_directory", JStr("./output")),
    ("filename_pattern", JStr("{type}_{id}_{timestamp}")), ("compress_files", JBool(false))]

  const DebugDefaults: Dict := [
    ("enable_debug_mode", JBool(false)), ("save_page_source", JBool(false)),
    ("save_screenshots", JBool(false)), ("verbose_logging", JBool(false))]

  const Defaults: Dict := [
    ("browser", JObj(BrowserDefaults)), ("scraping", JObj(ScrapingDefaults)),
    ("output", JObj(OutputDefaults)), ("debug", JObj(DebugDefaults))]

  // ---------------------------------------------------------------------
  // _load_config

  /**
   * `dict.update(settings)` on a section: a dict's members are written in;
   * an empty string or list changes nothing; any other string fails on its
   * one-character elements (ValueError); anything else is rejected (TypeError).
   */
  function UpdateSection(current: Dict, settings: JSON): (r: Outcome<Dict>)
    ensures r.Raise? <==> !(settings.JObj? || settings == JStr("") || settings == JArr([]))
    ensures r.Raise? ==> r.exc == (if settings.JStr? then ValueError else TypeError)
  {
    if settings.JObj? then Ok(Update(current, settings.members))
    else if settings == JStr("") || settings == JArr([]) then Ok(current)
    else if settings.JStr? then Raise(ValueError)
    else Raise(TypeError)
  }

  /**
   * One `(section, settings)` item of the user's config: a known section is
   * updated in place (AttributeError if it is not a dict), an unknown one
   * is set to the settings as given.
   */
  function MergeSection(d: Dict, section: string, settings: JSON): (r: Outcome<Dict>)
  {
    match Lookup(d, section)
    case None => Ok(Set(d, section, settings))
    case Some(current) =>
      if !current.JObj? then Raise(AttributeError)
      else
        var merged :- UpdateSection(current.members, settings);
        Ok(Set(d, section, JObj(merged)))
  }

  /** The items of the user's config merged into `d` in order; the first failure escapes. */
  function MergeAll(d: Dict, items: Dict): Outcome<Dict>
    decreases |items|
  {
    if items == [] then Ok(d)
    else
      var prev :- MergeAll(d, items[..|items| - 1]);
      MergeSection(prev, items[|items| - 1].0, items[|items| - 1].1)
  }

  /** `_load_config(config)`: the defaults for a falsy config, else the merge; `.items()` needs a dict. */
  function Loaded(config: JSON): (r: Outcome<Dict>)
    ensures !Truthy(config) ==> r == Ok(Defaults)
    ensures Truthy(config) && !config.JObj? ==> r == Raise(AttributeError)
  {
    if !Truthy(config) then Ok(Defaults)
    else if !config.JObj? then Raise(AttributeError)
    else MergeAll(Defaults, config.members)
  }

  /** A section after one item is merged into it: the settings when it is new, else the updated dict. */
  function SectionMerged(current: Option<JSON>, settings: JSON): Option<JSON>
  {
    match current
    case None => Some(settings)
    case Some(c) => Some(if c.JObj? && settings.JObj? then JObj(Update(c.members, settings.members)) else c)
  }

  /** What a section is after the merge, read off the defaults and the user's items. */
  function SectionAfter(d: Dict, items: Dict, s: string): Option<JSON>
  {
    match Lookup(items, s)
    case None => Lookup(d, s)
    case Some(v) => SectionMerged(Lookup(d, s), v)
  }

  /** An item the merge accepts against the section `d` holds under its name. */
  predicate Fits(d: Dict, item: (string, JSON))
  {
    match Lookup(d, item.0)
    case None => true
    case Some(c) => c.JObj? && UpdateSection(c.members, item.1).Ok?
  }

  predicate SectionIsDict(d: Dict, s: string)
  {
    Lookup(d, s).None? || Lookup(d, s).value.JObj?
  }

  lemma DistinctInit(items: Dict)
    requires items != [] && DistinctKeys(items)
    ensures DistinctKeys(items[..|items| - 1])
    ensures Lookup(items[..|items| - 1], items[|items| - 1].0).None?
  {
    var init, last := items[..|items| - 1], items[|items| - 1];
    assert last.0 !in Keys(init) by {
      forall i | 0 <= i < |init| ensures Keys(init)[i] != last.0 {
        assert items[i].0 != items[|items| - 1].0;
      }
    }
  }

  lemma {:induction false} MergePrefixRaises(d: Dict, items: Dict, n: nat)
    requires n <= |items| && MergeAll(d, items[..n]).Raise?
    ensures MergeAll(d, items) == Raise(MergeAll(d, items[..n]).exc)
    decreases |items| - n
  {
    if n < |items| {
      var p := items[..n + 1];
      assert p[..|p| - 1] == items[..n];
      MergePrefixRaises(d, items, n + 1);
    } else {
      assert items[..n] == items;
    }
  }

  /** One merged item changes its own section only. */
  lemma MergeSectionLookup(prev: Dict, section: string, settings: JSON, s: string)
    requires MergeSection(prev, section, settings).Ok?
    ensures Lookup(MergeSection(prev, section, settings).value, s) ==
            if s == section then SectionMerged(Lookup(prev, section), settings) else Lookup(prev, s)
  {
    match Lookup(prev, section)
    case None =>
      SetLookup(prev, section, settings, s);
    case Some(c) =>
      var merged := UpdateSection(c.members, settings).value;
      SetLookup(prev, section, JObj(merged), s);
  }

  /** Merging an item succeeds on `prev` as on `d` when both hold the same section under its name. */
  lemma MergeSectionOk(prev: Dict, d: Dict, item: (string, JSON))
    requires Lookup(prev, item.0) == Lookup(d, item.0)
    ensures MergeSection(prev, item.0, item.1).Ok? <==> Fits(d, item)
  {
  }

  /** The last item's lookup in the whole items, and every other key's. */
  lemma LookupLast(items: Dict, s: string)
    requires items != [] && DistinctKeys(items)
    ensures var init, last := items[..|items| - 1], items[|items| - 1];
            Lookup(items, s) == if s == last.0 then Some(last.1) else Lookup(init, s)
  {
    var init, last := items[..|items| - 1], items[|items| - 1];
    assert items == init + [last];
    DistinctInit(items);
    LookupAppend(init, last, s);
  }

  /**
   * After the merge of items with distinct section names, each section is
   * the default one updated with the user's settings, the user's settings
   * for an unknown section, or the default when the user gave none.
   */
  lemma {:induction false} MergeLookup(d: Dict, items: Dict, s: string)
    requires DistinctKeys(items) && MergeAll(d, items).Ok?
    ensures Lookup(MergeAll(d, items).value, s) == SectionAfter(d, items, s)
    decreases |items|
  {
    if items != [] {
      var init, last := items[..|items| - 1], items[|items| - 1];
      DistinctInit(items);
      MergeLookup(d, init, s);
      LookupLast(items, s);
      MergeSectionLookup(MergeAll(d, init).value, last.0, last.1, s);
    }
  }

  lemma AllFitSplit(d: Dict, items: Dict)
    requires items != []
    ensures var init := items[..|items| - 1];
            (forall i :: 0 <= i < |items| ==> Fits(d, items[i])) <==>
            (forall i :: 0 <= i < |init| ==> Fits(d, init[i])) && Fits(d, items[|items| - 1])
  {
    var init := items[..|items| - 1];
    assert forall i :: 0 <= i < |init| ==> init[i] == items[i];
  }

  /** The merge of items with distinct section names succeeds exactly when every item fits its default section. */
  lemma {:induction false} MergeOk(d: Dict, items: Dict)
    requires DistinctKeys(items)
    ensures MergeAll(d, items).Ok? <==> forall i :: 0 <= i < |items| ==> Fits(d, items[i])
    decreases |items|
  {
    if items != [] {
      var init, last := items[..|items| - 1], items[|items| - 1];
      DistinctInit(items);
      MergeOk(d, init);
      AllFitSplit(d, items);
      if MergeAll(d, init).Ok? {
        MergeLookup(d, init, last.0);
        MergeSectionOk(MergeAll(d, init).value, d, last);
      }
    }
  }

  /** When every section the items name is a dict (or absent), the merge fails only on a setting update. */
  lemma {:induction false} MergeRaises(d: Dict, items: Dict)
    requires DistinctKeys(items)
    requires forall i :: 0 <= i < |items| ==> SectionIsDict(d, items[i].0)
    ensures MergeAll(d, items).Raise? ==> MergeAll(d, items).exc == TypeError || MergeAll(d, items).exc == ValueError
    decreases |items|
  {
    if items != [] {
      var init, last := items[..|items| - 1], items[|items| - 1];
      DistinctInit(items);
      assert forall i :: 0 <= i < |init| ==> init[i] == items[i];
      MergeRaises(d, init);
      if MergeAll(d, init).Ok? {
        MergeLookup(d, init, last.0);
        assert SectionIsDict(d, items[|items| - 1].0);
      }
    }
  }

  /** Every built-in section is a dict. */
  lemma DefaultSectionsAreDicts(s: string)
    ensures SectionIsDict(Defaults, s)
  {
    if Lookup(Defaults, s).Some? {
      LookupSomeAt(Defaults, s);
      var i :| 0 <= i < |Defaults| && Defaults[i].1 == Lookup(Defaults, s).value;
      assert i == 0 || i == 1 || i == 2 || i == 3;
    }
  }

  lemma {:induction false} LookupSomeAt(m: Dict, k: string)
    requires Lookup(m, k).Some?
    ensures exists i :: 0 <= i < |m| && m[i].1 == Lookup(m, k).value
    decreases |m|
  {
    if m[0].0 == k {
      assert m[0].1 == Lookup(m, k).value;
    } else {
      LookupSomeAt(m[1..], k);
      var i :| 0 <= i < |m[1..]| && m[1..][i].1 == Lookup(m[1..], k).value;
      assert m[i + 1].1 == Lookup(m, k).value;
    }
  }

  /**
   * A known section the user names is the default one with the user's keys
   * overriding it, and every other default key kept.
   */
  lemma KnownSectionMerged(m: Dict, s: string, defaults: Dict, settings: Dict, k: string)
    requires DistinctKeys(m) && DistinctKeys(settings)
    requires Loaded(JObj(m)).Ok? && Lookup(Defaults, s) == Some(JObj(defaults)) && Lookup(m, s) == Some(JObj(settings))
    ensures var section := Lookup(Loaded(JObj(m)).value, s);
            section.Some? && section.value.JObj? &&
            Lookup(section.value.members, k) == if k in Keys(settings) then Lookup(settings, k) else Lookup(defaults, k)
  {
    LoadedDict(m);
    MergeKnown(Defaults, m, s, defaults, settings, k);
  }

  lemma MergeKnown(d: Dict, m: Dict, s: string, defaults: Dict, settings: Dict, k: string)
    requires DistinctKeys(m) && DistinctKeys(settings)
    requires MergeAll(d, m).Ok? && Lookup(d, s) == Some(JObj(defaults)) && Lookup(m, s) == Some(JObj(settings))
    ensures var section := Lookup(MergeAll(d, m).value, s);
            section.Some? && section.value.JObj? &&
            Lookup(section.value.members, k) == if k in Keys(settings) then Lookup(settings, k) else Lookup(defaults, k)
  {
    MergeLookup(d, m, s);
    UpdateLookup(defaults, settings, k);
  }

  /** A dict config is merged into the defaults; an empty one leaves them as they are. */
  lemma LoadedDict(m: Dict)
    ensures Loaded(JObj(m)) == MergeAll(Defaults, m)
  {
    if m != [] {
      assert Truthy(JObj(m));
    }
  }

  /** An unknown section is added as given. */
  lemma UnknownSectionAdded(m: Dict, s: string)
    requires DistinctKeys(m) && Loaded(JObj(m)).Ok? && s in Keys(m) && s !in Keys(Defaults)
    ensures Lookup(Loaded(JObj(m)).value, s) == Lookup(m, s)
  {
    LoadedDict(m);
    MergeLookup(Defaults, m, s);
  }

  /** A section the user does not name stays as built in. */
  lemma UnnamedSectionKept(m: Dict, s: string)
    requires DistinctKeys(m) && Loaded(JObj(m)).Ok? && s !in Keys(m)
    ensures Lookup(Loaded(JObj(m)).value, s) == Lookup(Defaults, s)
  {
    LoadedDict(m);
    MergeLookup(Defaults, m, s);
  }

  /**
   * A dict config loads exactly when each known section it names gets a
   * dict (or an empty string or list); otherwise TypeError, or ValueError
   * for a string, escapes.
   */
  lemma LoadedIff(m: Dict)
    requires DistinctKeys(m)
    ensures Loaded(JObj(m)).Ok? <==> forall i :: 0 <= i < |m| ==> Fits(Defaults, m[i])
    ensures Loaded(JObj(m)).Raise? ==> Loaded(JObj(m)).exc == TypeError || Loaded(JObj(m)).exc == ValueError
  {
    LoadedDict(m);
    MergeOk(Defaults, m);
    forall i | 0 <= i < |m| ensures SectionIsDict(Defaults, m[i].0) {
      DefaultSectionsAreDicts(m[i].0);
    }
    MergeRaises(Defaults, m);
  }

  // ---------------------------------------------------------------------
  // The retry loops

  /** `config['scraping'][key]` */
  function Setting(config: Dict, key: string): Outcome<JSON>
  {
    var scraping :- Subscript(JObj(config), "scraping");
    Subscript(scraping, key)
  }

  /** `max_retries + 1`: a bool counts as 0 or 1; anything but an int raises TypeError. */
  function PlusOne(v: JSON): (r: Outcome<int>)
    ensures r.Raise? <==> !(v.JInt? || v.JBool?)
    ensures r.Raise? ==> r.exc == TypeError
    ensures v.JInt? ==> r == Ok(v.i + 1)
  {
    match v
    case JInt(i) => Ok(i + 1)
    case JBool(b) => Ok(if b then 2 else 1)
    case _ => Raise(TypeError)
  }

  /**
   * The number of attempts, `range(max_retries + 1)`: a max_retries of None
   * falls back to the configured one; retry_delay is read before the loop.
   */
  function AttemptCount(config: Dict, maxRetries: JSON): Outcome<int>
  {
    var n :- if maxRetries == JNull then Setting(config, "max_retries") else Ok(maxRetries);
    var _ :- Setting(config, "retry_delay");
    PlusOne(n)
  }

  /** The dict the retry loops return: the data and attempt number, or the last error and the attempt count. */
  datatype Report = Success(data: JSON, attempts: nat) | Failure(error: Exc, attempts: nat)

  datatype Kind = Videos | Users

  /** `session_stats` without its start time. */
  datatype Stats = Stats(requestsMade: nat, errorsEncountered: nat, videosProcessed: nat, usersProcessed: nat)

  const NoStats: Stats := Stats(0, 0, 0, 0)

  /** The first successful attempt below n, or n when all of them fail. */
  function FirstOk(outcome: nat -> Outcome<JSON>, n: nat): (k: nat)
    ensures k <= n
    ensures k < n ==> outcome(k).Ok?
    ensures forall j :: 0 <= j < k ==> outcome(j).Raise?
  {
    if n == 0 then 0
    else
      var k := FirstOk(outcome, n - 1);
      if k < n - 1 then k else if outcome(n - 1).Ok? then n - 1 else n
  }

  /** What the loop returns after `count` attempts at most: None when there is no attempt at all. */
  function Retried(outcome: nat -> Outcome<JSON>, count: int): Option<Report>
  {
    if count <= 0 then None
    else
      var k := FirstOk(outcome, count);
      if k < count then Some(Success(outcome(k).value, k + 1))
      else Some(Failure(outcome(count - 1).exc, count))
  }

  /** The failed attempts the loop makes. */
  function Failures(outcome: nat -> Outcome<JSON>, count: int): nat
  {
    if count <= 0 then 0 else FirstOk(outcome, count)
  }

  predicate Succeeded(r: Option<Report>) { r.Some? && r.value.Success? }

  /** The statistics after the loop: one error per failed attempt, one request and one item on success. */
  function Tally(st: Stats, kind: Kind, outcome: nat -> Outcome<JSON>, count: int): Stats
  {
    var won := if Succeeded(Retried(outcome, count)) then 1 else 0;
    st.(errorsEncountered := st.errorsEncountered + Failures(outcome, count),
        requestsMade := st.requestsMade + won,
        videosProcessed := st.videosProcessed + (if kind == Videos then won else 0),
        usersProcessed := st.usersProcessed + (if kind == Users then won else 0))
  }

  /** A success at attempt k, after k failures, is reported with attempts k + 1. */
  lemma SucceedsAt(outcome: nat -> Outcome<JSON>, count: int, k: nat)
    requires k < count && outcome(k).Ok? && forall j :: 0 <= j < k ==> outcome(j).Raise?
    ensures Retried(outcome, count) == Some(Success(outcome(k).value, k + 1))
    ensures Failures(outcome, count) == k
  {
  }

  /** When every attempt fails, the last error is reported with attempts max_retries + 1. */
  lemma AllFail(outcome: nat -> Outcome<JSON>, count: int)
    requires count > 0 && forall j :: 0 <= j < count ==> outcome(j).Raise?
    ensures Retried(outcome, count) == Some(Failure(outcome(count - 1).exc, count))
    ensures Failures(outcome, count) == count
  {
  }

  /**
   * A report never claims more attempts than were allowed; a success is the
   * outcome of its own attempt after only failures, and every attempt but a
   * successful one counts as an error.
   */
  lemma ReportBounds(outcome: nat -> Outcome<JSON>, count: int)
    requires Retried(outcome, count).Some?
    ensures var rep := Retried(outcome, count).value;
            1 <= rep.attempts <= count &&
            Failures(outcome, count) == (if rep.Success? then rep.attempts - 1 else rep.attempts) &&
            (rep.Success? ==> outcome(rep.attempts - 1) == Ok(rep.data) &&
                              forall j :: 0 <= j < rep.attempts - 1 ==> outcome(j).Raise?) &&
            (rep.Failure? ==> rep.attempts == count && forall j :: 0 <= j < count ==> outcome(j).Raise?)
  {
  }

  /** With max_retries below 0 the loop makes no attempt and returns None. */
  lemma NoAttempt(outcome: nat -> Outcome<JSON>, count: int, st: Stats, kind: Kind)
    requires count <= 0
    ensures Retried(outcome, count).None? && Tally(st, kind, outcome, count) == st
  {
  }

  /** A max_retries of None falls back to the configured one; any other value is used as given. */
  lemma MaxRetriesFallback(config: Dict, maxRetries: JSON)
    requires Setting(config, "max_retries").Ok? && Setting(config, "retry_delay").Ok?
    ensures AttemptCount(config, maxRetries) ==
            PlusOne(if maxRetries == JNull then Setting(config, "max_retries").value else maxRetries)
  {
  }

  lemma DefaultScraping()
    ensures Lookup(Defaults, "scraping") == Some(JObj(ScrapingDefaults))
  {
    assert Defaults[0].0 != "scraping" && Defaults[1..][0].0 == "scraping";
  }

  lemma DefaultRetrySettings()
    ensures Lookup(ScrapingDefaults, "max_retries") == Some(JInt(3))
    ensures Lookup(ScrapingDefaults, "retry_delay") == Some(JInt(5))
  {
    assert ScrapingDefaults[0].0 != "max_retries" && ScrapingDefaults[1..][0].0 == "max_retries";
    assert ScrapingDefaults[1..][0].0 != "retry_delay" && ScrapingDefaults[1..][1..][0].0 == "retry_delay";
  }

  /** The built-in configuration allows four attempts. */
  lemma DefaultAttempts()
    ensures AttemptCount(Defaults, JNull) == Ok(4)
  {
    DefaultScraping();
    DefaultRetrySettings();
  }

  // ---------------------------------------------------------------------
  // _save_raw_data's file name

  /** `str.format` with keyword fields only: `vals(name)` is the value of field `name`. */
  function Format(p: string, vals: string -> Option<string>): (r: Outcome<string>)
    decreases |p|
  {
    if p == [] then Ok([])
    else if p[0] == '{' then
      if |p| >= 2 && p[1] == '{' then Prefix("{", Format(p[2..], vals))
      else
        var close := Find(p, "}", 1);
        if close < 0 then Raise(ValueError)
        else
          var name := p[1..close];
          if '{' in name then Raise(ValueError)
          else if name == [] || AllDigits(name) then Raise(IndexError)
          else if vals(name).None? then Raise(KeyError)
          else Prefix(vals(name).value, Format(p[close + 1..], vals))
    else if p[0] == '}' then
      if |p| >= 2 && p[1] == '}' then Prefix("}", Format(p[2..], vals)) else Raise(ValueError)
    else Prefix([p[0]], Format(p[1..], vals))
  }

  function Prefix(s: string, o: Outcome<string>): (r: Outcome<string>)
    ensures r.Ok? <==> o.Ok?
    ensures r.Ok? ==> r.value == s + o.value
    ensures r.Raise? ==> r.exc == o.exc
  {
    if o.Ok? then Ok(s + o.value) else o
  }

  /** The fields `_save_raw_data` passes: type, id and timestamp. */
  function RawFields(dataType: string, identifier: string, timestamp: string): string -> Option<string>
  {
    name => if name == "type" then Some(dataType) else if name == "id" then Some(identifier)
            else if name == "timestamp" then Some(timestamp) else None
  }

  /**
   * The file name: the pattern formatted with the fields, then ".json"; the
   * identifier is formatted as `str()` would; the timestamp, from the clock,
   * is a parameter.
   */
  function RawDataFilename(pattern: string, dataType: string, identifier: JSON, timestamp: string): (r: Outcome<string>)
    ensures r.Ok? <==> Format(pattern, RawFields(dataType, Str(identifier), timestamp)).Ok?
  {
    var name :- Format(pattern, RawFields(dataType, Str(identifier), timestamp));
    Ok(name + ".json")
  }

  predicate NoBraces(s: string)
  {
    forall i :: 0 <= i < |s| ==> s[i] != '{' && s[i] != '}'
  }

  /** Text without braces is copied as it is. */
  lemma {:induction false} FormatPlain(s: string, vals: string -> Option<string>)
    requires NoBraces(s)
    ensures Format(s, vals) == Ok(s)
    decreases |s|
  {
    if s != [] {
      assert NoBraces(s[1..]) by {
        forall i | 0 <= i < |s[1..]| ensures s[1..][i] != '{' && s[1..][i] != '}' {
          assert s[1..][i] == s[i + 1];
        }
      }
      FormatPlain(s[1..], vals);
      assert [s[0]] + s[1..] == s;
    }
  }

  /** A character other than a brace is copied in front of the rest. */
  lemma FormatChar(c: char, rest: string, vals: string -> Option<string>)
    requires c != '{' && c != '}'
    ensures Format([c] + rest, vals) == Prefix([c], Format(rest, vals))
  {
    assert ([c] + rest)[1..] == rest;
  }

  /** The field `{name}` at the front of a pattern ends at its closing brace. */
  lemma FieldBounds(name: string, rest: string)
    requires NoBraces(name)
    ensures var p := "{" + name + "}" + rest;
            Find(p, "}", 1) == |name| + 1 && p[1..|name| + 1] == name && p[|name| + 2..] == rest
  {
    var p := "{" + name + "}" + rest;
    var close := |name| + 1;
    assert OccursAt(p, "}", close) by { assert p[close..close + 1] == "}"; }
    forall i | 1 <= i < close ensures !OccursAt(p, "}", i) {
      assert p[i] == name[i - 1];
      assert p[i..i + 1] == [p[i]];
    }
  }

  /** A named field is replaced by its value, and formatting goes on after its closing brace. */
  lemma FormatField(name: string, rest: string, vals: string -> Option<string>)
    requires name != [] && NoBraces(name) && !AllDigits(name) && vals(name).Some?
    ensures Format("{" + name + "}" + rest, vals) == Prefix(vals(name).value, Format(rest, vals))
  {
    var p := "{" + name + "}" + rest;
    assert p[0] == '{' && p[1] == name[0];
    FieldBounds(name, rest);
  }

  /** A field the values do not include raises KeyError. */
  lemma FormatMissingField(name: string, rest: string, vals: string -> Option<string>)
    requires name != [] && NoBraces(name) && !AllDigits(name) && vals(name).None?
    ensures Format("{" + name + "}" + rest, vals) == Raise(KeyError)
  {
    var p := "{" + name + "}" + rest;
    assert p[0] == '{' && p[1] == name[0];
    FieldBounds(name, rest);
  }

  /** An underscore and a field in front of text that formats to `tail`. */
  lemma FormatSeparatedField(name: string, rest: string, tail: string, vals: string -> Option<string>)
    requires name != [] && NoBraces(name) && !AllDigits(name) && vals(name).Some?
    requires Format(rest, vals) == Ok(tail)
    ensures Format("_" + ("{" + name + "}" + rest), vals) == Ok("_" + vals(name).value + tail)
  {
    FormatChar('_', "{" + name + "}" + rest, vals);
    FormatField(name, rest, vals);
    assert "_" + (vals(name).value + tail) == "_" + vals(name).value + tail;
  }

  /** An underscore and a last field format to the underscore and its value. */
  lemma FormatLastField(n: string, vals: string -> Option<string>)
    requires n != [] && NoBraces(n) && !AllDigits(n) && vals(n).Some?
    ensures Format("_" + ("{" + n + "}" + ""), vals) == Ok("_" + vals(n).value)
  {
    FormatPlain("", vals);
    FormatSeparatedField(n, "", [], vals);
    assert "_" + vals(n).value + [] == "_" + vals(n).value;
  }

  /** Two underscore-separated last fields format to their values so joined. */
  lemma FormatLastTwo(n2: string, n3: string, vals: string -> Option<string>)
    requires n2 != [] && NoBraces(n2) && !AllDigits(n2) && vals(n2).Some?
    requires n3 != [] && NoBraces(n3) && !AllDigits(n3) && vals(n3).Some?
    ensures Format("_" + ("{" + n2 + "}" + ("_" + ("{" + n3 + "}" + ""))), vals) ==
            Ok("_" + vals(n2).value + ("_" + vals(n3).value))
  {
    FormatLastField(n3, vals);
    FormatSeparatedField(n2, "_" + ("{" + n3 + "}" + ""), "_" + vals(n3).value, vals);
  }

  /** Three fields joined by underscores, with no text after the last, format to their values so joined. */
  lemma FormatThreeFields(n1: string, n2: string, n3: string, vals: string -> Option<string>)
    requires n1 != [] && NoBraces(n1) && !AllDigits(n1) && vals(n1).Some?
    requires n2 != [] && NoBraces(n2) && !AllDigits(n2) && vals(n2).Some?
    requires n3 != [] && NoBraces(n3) && !AllDigits(n3) && vals(n3).Some?
    ensures Format("{" + n1 + "}" + ("_" + ("{" + n2 + "}" + ("_" + ("{" + n3 + "}" + "")))), vals) ==
            Ok(vals(n1).value + "_" + vals(n2).value + "_" + vals(n3).value)
  {
    FormatLastTwo(n2, n3, vals);
    FormatField(n1, "_" + ("{" + n2 + "}" + ("_" + ("{" + n3 + "}" + ""))), vals);
    JoinThree(vals(n1).value, vals(n2).value, vals(n3).value);
  }

  lemma JoinThree(v1: string, v2: string, v3: string)
    ensures v1 + ("_" + v2 + ("_" + v3)) == v1 + "_" + v2 + "_" + v3
  {
  }

  /** The built-in pattern gives `<type>_<id>_<timestamp>.json`, whatever the values hold. */
  lemma DefaultFilename(dataType: string, identifier: JSON, timestamp: string)
    ensures RawDataFilename("{type}_{id}_{timestamp}", dataType, identifier, timestamp) ==
            Ok(dataType + "_" + Str(identifier) + "_" + timestamp + ".json")
  {
    var vals := RawFields(dataType, Str(identifier), timestamp);
    assert "{" + "type" + "}" + ("_" + ("{" + "id" + "}" + ("_" + ("{" + "timestamp" + "}" + "")))) ==
           "{type}_{id}_{timestamp}";
    assert !IsDigit("timestamp"[0]) && !IsDigit("id"[0]) && !IsDigit("type"[0]);
    FormatThreeFields("type", "id", "timestamp", vals);
  }

  /** A field the call does not pass raises KeyError, which `_save_raw_data` catches: nothing is saved. */
  lemma UnknownFieldRaises(name: string, rest: string, dataType: string, identifier: JSON, timestamp: string)
    requires name != [] && NoBraces(name) && !AllDigits(name) && name != "type" && name != "id" && name != "timestamp"
    ensures RawDataFilename("{" + name + "}" + rest, dataType, identifier, timestamp) == Raise(KeyError)
  {
    FormatMissingField(name, rest, RawFields(dataType, Str(identifier), timestamp));
  }

  // ---------------------------------------------------------------------
  // The object

  class Scraper {
    var config: Dict
    var stats: Stats

    constructor Init(config: Dict)
      ensures this.config == config && stats == NoStats
    {
      this.config := config;
      stats := NoStats;
    }

    /** `AdvancedTTScraper(config)`; the logger and the start time are not modelled. */
    static method New(userConfig: JSON) returns (r: Outcome<Scraper>)
      ensures r.Raise? <==> Loaded(userConfig).Raise?
      ensures r.Raise? ==> r.exc == Loaded(userConfig).exc
      ensures r.Ok? ==> fresh(r.value) && r.value.config == Loaded(userConfig).value && r.value.stats == NoStats
    {
      var cfg := LoadConfig(userConfig);
      if cfg.Raise? {
        return Raise(cfg.exc);
      }
      var s := new Scraper.Init(cfg.value);
      return Ok(s);
    }

    /** `_load_config`: the defaults, with each of the user's sections merged into them in place. */
    static method LoadConfig(config: JSON) returns (r: Outcome<Dict>)
      ensures r == Loaded(config)
    {
      var merged := Defaults;
      if !Truthy(config) {
        return Ok(merged);
      }
      if !config.JObj? {
        return Raise(AttributeError);
      }
      LoadedDict(config.members);
      r := MergeInto(merged, config.members);
    }

    /** The loop of `_load_config`: each item merged into `d` in turn, the first failure escaping. */
    static method MergeInto(d: Dict, items: Dict) returns (r: Outcome<Dict>)
      ensures r == MergeAll(d, items)
    {
      var merged := d;
      for i := 0 to |items|
        invariant MergeAll(d, items[..i]) == Ok(merged)
      {
        var section, settings := items[i].0, items[i].1;
        assert items[..i + 1][..i] == items[..i];
        var current := Lookup(merged, section);
        if current.Some? {
          if !current.value.JObj? {
            MergePrefixRaises(d, items, i + 1);
            return Raise(AttributeError);
          }
          var updated := UpdateSection(current.value.members, settings);
          if updated.Raise? {
            MergePrefixRaises(d, items, i + 1);
            return Raise(updated.exc);
          }
          merged := Set(merged, section, JObj(updated.value));
        } else {
          merged := Set(merged, section, settings);
        }
      }
      assert items[..|items|] == items;
      return Ok(merged);
    }

    /**
     * `extract_video_with_retry` and `extract_user_with_retry`. `outcome(k)`
     * is what attempt k does (the rate-limiting sleep, building the object,
     * `info()`); the lookups before the loop may raise.
     */
    method ExtractWithRetry(kind: Kind, maxRetries: JSON, outcome: nat -> Outcome<JSON>)
      returns (r: Outcome<Option<Report>>)
      modifies this
      ensures config == old(config)
      ensures AttemptCount(config, maxRetries).Raise? ==>
                r == Raise(AttemptCount(config, maxRetries).exc) && stats == old(stats)
      ensures AttemptCount(config, maxRetries).Ok? ==>
                r == Ok(Retried(outcome, AttemptCount(config, maxRetries).value)) &&
                stats == Tally(old(stats), kind, outcome, AttemptCount(config, maxRetries).value)
    {
      var count := Attempts(maxRetries);
      if count.Raise? {
        return Raise(count.exc);
      }
      var report := RunAttempts(kind, count.value, outcome);
      return Ok(report);
    }

    /** The attempt count, after the fallback for a max_retries of None and the retry_delay lookup. */
    method Attempts(maxRetries: JSON) returns (count: Outcome<int>)
      ensures count == AttemptCount(config, maxRetries)
    {
      var n := maxRetries;
      if maxRetries == JNull {
        var configured := Setting(config, "max_retries");
        if configured.Raise? {
          return Raise(configured.exc);
        }
        n := configured.value;
      }
      var retryDelay := Setting(config, "retry_delay");
      if retryDelay.Raise? {
        return Raise(retryDelay.exc);
      }
      count := PlusOne(n);
    }

    /**
     * The loop over `range(count)`: a success is returned at once, a failure
     * is counted and retried until the last attempt, whose error is reported.
     */
    method RunAttempts(kind: Kind, count: int, outcome: nat -> Outcome<JSON>) returns (r: Option<Report>)
      modifies this
      ensures config == old(config)
      ensures r == Retried(outcome, count) && stats == Tally(old(stats), kind, outcome, count)
    {
      var attempts := if count < 0 then 0 else count;
      for attempt := 0 to attempts
        invariant attempts == 0 || attempt < attempts
        invariant forall j :: 0 <= j < attempt ==> outcome(j).Raise?
        invariant stats == old(stats).(errorsEncountered := old(stats).errorsEncountered + attempt)
        invariant config == old(config)
      {
        var o := outcome(attempt);
        if o.Ok? {
          stats := stats.(requestsMade := stats.requestsMade + 1,
                          videosProcessed := stats.videosProcessed + (if kind == Videos then 1 else 0),
                          usersProcessed := stats.usersProcessed + (if kind == Users then 1 else 0));
          SucceedsAt(outcome, count, attempt);
          return Some(Success(o.value, attempt + 1));
        }
        stats := stats.(errorsEncountered := stats.errorsEncountered + 1);
        if attempt == count - 1 {
          AllFail(outcome, count);
          return Some(Failure(o.exc, count));
        }
      }
      return None;
    }
  }
}
