// The network monitor's bookkeeping: the monitored URL patterns, the filter
// over the browser's CDP log, the merge and dedup of captured requests, the
// wait for new requests, and the clearing of the request buffers.  The
// browser is represented by the values it hands back: the JavaScript buffer
// as a list of requests and the driver log as a list of JSON entries.

module Network {
  import opened Json

  const DefaultPatterns: seq<string> := ["/api/comment/list/"]
  const RequestWillBeSent: string := "Network.requestWillBeSent"
  const CdpRecordKeys: seq<string> := ["type", "url", "method", "headers", "timestamp", "requestId", "initiator"]

  /** `any(pattern in url for pattern in patterns)`, evaluated left to right. */
  function AnyMatch(url: JSON, patterns: seq<string>): (r: Outcome<bool>)
    ensures r.Raise? <==> patterns != [] && !(url.JObj? || url.JArr? || url.JStr?)
    ensures r.Raise? ==> r.exc == TypeError
    ensures r.Ok? ==> (r.value <==> exists i :: 0 <= i < |patterns| && Contains(url, patterns[i]) == Ok(true))
    decreases |patterns|
  {
    if patterns == [] then Ok(false)
    else
      match Contains(url, patterns[0])
      case Raise(e) => Raise(e)
      case Ok(true) => Ok(true)
      case Ok(false) =>
        var rest := AnyMatch(url, patterns[1..]);
        assert rest.Ok? ==> (rest.value <==> exists i :: 0 <= i < |patterns| && Contains(url, patterns[i]) == Ok(true)) by {
          if rest.Ok? && rest.value {
            var i :| 0 <= i < |patterns[1..]| && Contains(url, patterns[1..][i]) == Ok(true);
            assert Contains(url, patterns[i + 1]) == Ok(true);
          }
        }
        rest
  }

  /** What the CDP filter does with one log entry. */
  datatype CdpVerdict =
    | Skip           // `continue`: JSONDecodeError, KeyError, or not a matching request
    | Keep(request: JSON)
    | Abort          // any other exception: the whole call returns []

  /** The record built for a kept request; `request` and `params` are dicts. */
  function CdpRecord(url: JSON, request: JSON, params: JSON, timestamp: JSON): (r: JSON)
    requires request.JObj? && params.JObj?
    ensures r.JObj? && Keys(r.members) == CdpRecordKeys && DistinctKeys(r.members)
    ensures Lookup(r.members, "type") == Some(JStr("cdp_request"))
    ensures Lookup(r.members, "url") == Some(url) && Lookup(r.members, "timestamp") == Some(timestamp)
    ensures Lookup(r.members, "method") == Some(LookupOr(request.members, "method", JStr("GET")))
  {
    var m := [("type", JStr("cdp_request")),
              ("url", url),
              ("method", LookupOr(request.members, "method", JStr("GET"))),
              ("headers", LookupOr(request.members, "headers", EmptyObj)),
              ("timestamp", timestamp),
              ("requestId", LookupOr(params.members, "requestId", JStr(""))),
              ("initiator", LookupOr(params.members, "initiator", EmptyObj))];
    RecordKeysDistinct(m);
    LookupAt(m, 0);
    LookupAt(m, 1);
    LookupAt(m, 2);
    LookupAt(m, 4);
    JObj(m)
  }

  lemma RecordKeysDistinct(m: seq<(string, JSON)>)
    requires |m| == |CdpRecordKeys| && forall i :: 0 <= i < |m| ==> m[i].0 == CdpRecordKeys[i]
    ensures Keys(m) == CdpRecordKeys && DistinctKeys(m)
  {
    RecordKeysLiteral();
    forall i, j | 0 <= i < j < |m| ensures m[i].0 != m[j].0 {
      assert m[i].0 == CdpRecordKeys[i] && m[j].0 == CdpRecordKeys[j];
    }
  }

  /** The record's keys differ pairwise: by length, or else by their first letter. */
  lemma RecordKeysLiteral()
    ensures forall i, j :: 0 <= i < j < |CdpRecordKeys| ==> CdpRecordKeys[i] != CdpRecordKeys[j]
  {
    var ks := CdpRecordKeys;
    assert |ks[0]| == 4 && |ks[1]| == 3 && |ks[2]| == 6 && |ks[3]| == 7;
    assert |ks[4]| == 9 && |ks[5]| == 9 && |ks[6]| == 9;
    assert ks[0][0] == 't' && ks[4][0] == 't' && ks[5][0] == 'r' && ks[6][0] == 'i';
  }

  /**
   * One pass of the `get_cdp_requests` loop body.  `loads` is `json.loads`
   * (None: JSONDecodeError); `patterns` is None while monitoring was never
   * enabled, and reading it then raises AttributeError.
   */
  function CdpEntry(log: JSON, patterns: Option<seq<string>>, loads: string -> Option<JSON>): (v: CdpVerdict)
  {
    match Subscript(log, "message")
    case Raise(e) => if e == KeyError then Skip else Abort
    case Ok(text) =>
      if !text.JStr? then Abort
      else
        match loads(text.s)
        case None => Skip
        case Some(message) =>
          match Get(message, "message", EmptyObj)
          case Raise(_) => Abort
          case Ok(logMessage) =>
            match Get(logMessage, "method", JStr(""))
            case Raise(_) => Abort
            case Ok(cdpMethod) =>
              if cdpMethod != JStr(RequestWillBeSent) then Skip
              else
                var params := LookupOr(logMessage.members, "params", EmptyObj);
                match Get(params, "request", EmptyObj)
                case Raise(_) => Abort
                case Ok(request) =>
                  match Get(request, "url", JStr(""))
                  case Raise(_) => Abort
                  case Ok(url) =>
                    if patterns.None? then Abort
                    else
                      match AnyMatch(url, patterns.value)
                      case Raise(_) => Abort
                      case Ok(matched) =>
                        if !matched then Skip
                        else
                          match Subscript(log, "timestamp")
                          case Raise(_) => Skip
                          case Ok(ts) => Keep(CdpRecord(url, request, params, ts))
  }

  /** The verdict function the loop applies to each log entry. */
  function EntryOf(patterns: Option<seq<string>>, loads: string -> Option<JSON>): JSON -> CdpVerdict
  {
    (log: JSON) => CdpEntry(log, patterns, loads)
  }

  /** The loop over a log with verdict function `entry`: the kept records in order, or None once an entry aborts. */
  function ScanWith(logs: seq<JSON>, entry: JSON -> CdpVerdict): (r: Option<seq<JSON>>)
    ensures r.Some? ==> |r.value| <= |logs|
    decreases |logs|
  {
    if logs == [] then Some([])
    else
      match ScanWith(logs[..|logs| - 1], entry)
      case None => None
      case Some(acc) =>
        match entry(logs[|logs| - 1])
        case Abort => None
        case Skip => Some(acc)
        case Keep(x) => Some(acc + [x])
  }

  /** The loop over the driver log. */
  function CdpScan(logs: seq<JSON>, patterns: Option<seq<string>>, loads: string -> Option<JSON>): Option<seq<JSON>>
  {
    ScanWith(logs, EntryOf(patterns, loads))
  }

  /** `get_cdp_requests`' answer: the kept records, or [] when an entry aborted the loop. */
  function CdpRequests(logs: seq<JSON>, patterns: Option<seq<string>>, loads: string -> Option<JSON>): seq<JSON>
  {
    match CdpScan(logs, patterns, loads)
    case None => []
    case Some(xs) => xs
  }

  /** Once a prefix of the log aborts, the whole scan aborts. */
  lemma {:induction false} AbortPersists(logs: seq<JSON>, k: nat, entry: JSON -> CdpVerdict)
    requires k <= |logs| && ScanWith(logs[..k], entry).None?
    ensures ScanWith(logs, entry).None?
    decreases |logs|
  {
    if k < |logs| {
      var init := logs[..|logs| - 1];
      assert init[..k] == logs[..k];
      AbortPersists(init, k, entry);
    } else {
      assert logs[..k] == logs;
    }
  }

  /** The scan aborts exactly when some entry aborts. */
  lemma {:induction false} ScanAbortIff(logs: seq<JSON>, entry: JSON -> CdpVerdict)
    ensures ScanWith(logs, entry).None? <==> exists i :: 0 <= i < |logs| && entry(logs[i]) == Abort
    decreases |logs|
  {
    if logs != [] {
      var init := logs[..|logs| - 1];
      ScanAbortIff(init, entry);
      if exists i :: 0 <= i < |init| && entry(init[i]) == Abort {
        var i :| 0 <= i < |init| && entry(init[i]) == Abort;
        assert logs[i] == init[i];
      }
      if exists i :: 0 <= i < |logs| && entry(logs[i]) == Abort {
        var i :| 0 <= i < |logs| && entry(logs[i]) == Abort;
        if i < |init| { assert init[i] == logs[i]; }
      }
    }
  }

  /** `get_cdp_requests` returns [] because of an abort exactly when some log entry raises an exception it does not catch. */
  lemma CdpAbortIff(logs: seq<JSON>, patterns: Option<seq<string>>, loads: string -> Option<JSON>)
    ensures CdpScan(logs, patterns, loads).None? <==>
            exists i :: 0 <= i < |logs| && CdpEntry(logs[i], patterns, loads) == Abort
  {
    ScanAbortIff(logs, EntryOf(patterns, loads));
    forall i | 0 <= i < |logs|
      ensures EntryOf(patterns, loads)(logs[i]) == CdpEntry(logs[i], patterns, loads)
    {
    }
  }

  /** A kept entry is a `Network.requestWillBeSent` request whose URL matched a monitored pattern. */
  predicate IsCdpRecord(x: JSON, patterns: seq<string>)
  {
    x.JObj? && Keys(x.members) == CdpRecordKeys &&
    Lookup(x.members, "type") == Some(JStr("cdp_request")) &&
    Lookup(x.members, "url").Some? && AnyMatch(Lookup(x.members, "url").value, patterns) == Ok(true)
  }

  lemma KeepShape(log: JSON, patterns: Option<seq<string>>, loads: string -> Option<JSON>)
    requires CdpEntry(log, patterns, loads).Keep?
    ensures patterns.Some? && IsCdpRecord(CdpEntry(log, patterns, loads).request, patterns.value)
  {
  }

  /** Every item is a matching request record (so a non-empty list means patterns were set). */
  predicate AllCdpRecords(xs: seq<JSON>, patterns: Option<seq<string>>)
  {
    forall j :: 0 <= j < |xs| ==> patterns.Some? && IsCdpRecord(xs[j], patterns.value)
  }

  /** Every verdict of `entry` that keeps a record keeps a matching request record. */
  ghost predicate KeepsRecords(entry: JSON -> CdpVerdict, patterns: Option<seq<string>>)
  {
    forall log :: entry(log).Keep? ==> patterns.Some? && IsCdpRecord(entry(log).request, patterns.value)
  }

  lemma {:induction false} ScanMatch(logs: seq<JSON>, entry: JSON -> CdpVerdict, patterns: Option<seq<string>>)
    requires KeepsRecords(entry, patterns) && ScanWith(logs, entry).Some?
    ensures AllCdpRecords(ScanWith(logs, entry).value, patterns)
    decreases |logs|
  {
    if logs != [] {
      var init, last := logs[..|logs| - 1], logs[|logs| - 1];
      ScanMatch(init, entry, patterns);
      var acc := ScanWith(init, entry).value;
      var verdict := entry(last);
      if verdict.Keep? {
        var xs := acc + [verdict.request];
        assert ScanWith(logs, entry).value == xs;
        forall j | 0 <= j < |xs| ensures patterns.Some? && IsCdpRecord(xs[j], patterns.value) {
          if j < |acc| { assert xs[j] == acc[j]; }
        }
      }
    }
  }

  lemma EntryKeepsRecords(patterns: Option<seq<string>>, loads: string -> Option<JSON>)
    ensures KeepsRecords(EntryOf(patterns, loads), patterns)
  {
    forall log | EntryOf(patterns, loads)(log).Keep?
      ensures patterns.Some? && IsCdpRecord(EntryOf(patterns, loads)(log).request, patterns.value)
    {
      KeepShape(log, patterns, loads);
    }
  }

  /** Every record `get_cdp_requests` returns is a matching request record. */
  lemma CdpRecordsMatch(logs: seq<JSON>, patterns: Option<seq<string>>, loads: string -> Option<JSON>)
    ensures AllCdpRecords(CdpRequests(logs, patterns, loads), patterns)
  {
    if CdpScan(logs, patterns, loads).Some? {
      EntryKeepsRecords(patterns, loads);
      ScanMatch(logs, EntryOf(patterns, loads), patterns);
    }
  }

  /** A log entry carrying a well-formed matching request, with a timestamp, is kept. */
  lemma WellFormedKept(log: JSON, patterns: seq<string>, loads: string -> Option<JSON>,
                       text: string, logMessage: seq<(string, JSON)>, u: string, p: nat)
    requires log.JObj? && Lookup(log.members, "message") == Some(JStr(text))
    requires "timestamp" in Keys(log.members)
    requires loads(text) == Some(JObj([("message", JObj(logMessage))]))
    requires Lookup(logMessage, "method") == Some(JStr(RequestWillBeSent))
    requires var params := LookupOr(logMessage, "params", EmptyObj);
             params.JObj? && LookupOr(params.members, "request", EmptyObj).JObj? &&
             Lookup(LookupOr(params.members, "request", EmptyObj).members, "url") == Some(JStr(u))
    requires p < |patterns| && IsSubstring(patterns[p], u)
    ensures CdpEntry(log, Some(patterns), loads).Keep?
  {
    var message := JObj([("message", JObj(logMessage))]);
    assert Subscript(log, "message") == Ok(JStr(text));
    assert Get(message, "message", EmptyObj) == Ok(JObj(logMessage));
    assert Get(JObj(logMessage), "method", JStr("")) == Ok(JStr(RequestWillBeSent));
    var params := LookupOr(logMessage, "params", EmptyObj);
    var request := LookupOr(params.members, "request", EmptyObj);
    assert Get(params, "request", EmptyObj) == Ok(request);
    assert Get(request, "url", JStr("")) == Ok(JStr(u));
    assert Contains(JStr(u), patterns[p]) == Ok(true);
    assert AnyMatch(JStr(u), patterns) == Ok(true);
    assert Subscript(log, "timestamp").Ok?;
  }

  /** An entry for any other CDP method is skipped. */
  lemma OtherMethodSkipped(log: JSON, patterns: Option<seq<string>>, loads: string -> Option<JSON>,
                           text: string, logMessage: seq<(string, JSON)>)
    requires log.JObj? && Lookup(log.members, "message") == Some(JStr(text))
    requires loads(text) == Some(JObj([("message", JObj(logMessage))]))
    requires Lookup(logMessage, "method") != Some(JStr(RequestWillBeSent))
    ensures CdpEntry(log, patterns, loads) == Skip
  {
  }

  type RequestKey = (PyKey, PyKey)

  /**
   * The dedup key `(req.get('finalUrl', req.get('url', '')), req.get('timestamp', 0))`,
   * hashed: AttributeError for a request that is not a dict, TypeError for an
   * unhashable part (the URL part is hashed first).
   */
  function KeyOf(req: JSON): (r: Outcome<RequestKey>)
    ensures !req.JObj? ==> r == Raise(AttributeError)
    ensures req.JObj? ==>
              var url := LookupOr(req.members, "finalUrl", LookupOr(req.members, "url", JStr("")));
              var ts := LookupOr(req.members, "timestamp", JInt(0));
              (r.Ok? <==> HashKey(url).Ok? && HashKey(ts).Ok?) &&
              (r.Ok? ==> r.value == (HashKey(url).value, HashKey(ts).value)) &&
              (r.Raise? ==> r.exc == TypeError)
  {
    if !req.JObj? then Raise(AttributeError)
    else
      var url := LookupOr(req.members, "url", JStr(""));
      var finalUrl := LookupOr(req.members, "finalUrl", url);
      var ts := LookupOr(req.members, "timestamp", JInt(0));
      match HashKey(finalUrl)
      case Raise(e) => Raise(e)
      case Ok(k1) =>
        match HashKey(ts)
        case Raise(e) => Raise(e)
        case Ok(k2) => Ok((k1, k2))
  }

  /**
   * The dedup loop over a list: the keys seen and the items kept, or the
   * exception the key function raised.
   */
  function DedupBy(xs: seq<JSON>, key: JSON -> Outcome<RequestKey>): Outcome<(set<RequestKey>, seq<JSON>)>
    decreases |xs|
  {
    if xs == [] then Ok(({}, []))
    else
      var acc :- DedupBy(xs[..|xs| - 1], key);
      var k :- key(xs[|xs| - 1]);
      if k in acc.0 then Ok(acc) else Ok((acc.0 + {k}, acc.1 + [xs[|xs| - 1]]))
  }

  /** `get_all_requests`' dedup: the requests kept, or the exception raised. */
  function UniqueRequests(reqs: seq<JSON>): Outcome<seq<JSON>>
  {
    match DedupBy(reqs, KeyOf)
    case Raise(e) => Raise(e)
    case Ok(acc) => Ok(acc.1)
  }

  lemma {:induction false} DedupRaisePersists(xs: seq<JSON>, key: JSON -> Outcome<RequestKey>, k: nat)
    requires k <= |xs| && DedupBy(xs[..k], key).Raise?
    ensures DedupBy(xs, key) == DedupBy(xs[..k], key)
    decreases |xs|
  {
    if k < |xs| {
      var init := xs[..|xs| - 1];
      assert init[..k] == xs[..k];
      DedupRaisePersists(init, key, k);
    } else {
      assert xs[..k] == xs;
    }
  }

  /** The dedup succeeds exactly when every item has a key. */
  lemma {:induction false} DedupOkIff(xs: seq<JSON>, key: JSON -> Outcome<RequestKey>)
    ensures DedupBy(xs, key).Ok? <==> forall i :: 0 <= i < |xs| ==> key(xs[i]).Ok?
    decreases |xs|
  {
    if xs != [] {
      var init := xs[..|xs| - 1];
      DedupOkIff(init, key);
      assert forall i :: 0 <= i < |init| ==> init[i] == xs[i];
    }
  }

  /** The keys seen are exactly the keys of the input. */
  ghost predicate SeenAreInputKeys(xs: seq<JSON>, key: JSON -> Outcome<RequestKey>, seen: set<RequestKey>)
  {
    forall k :: k in seen <==> exists i :: 0 <= i < |xs| && key(xs[i]) == Ok(k)
  }

  /** The kept items carry exactly the keys seen. */
  ghost predicate KeptCarrySeen(out: seq<JSON>, key: JSON -> Outcome<RequestKey>, seen: set<RequestKey>)
  {
    (forall k :: k in seen ==> exists j :: 0 <= j < |out| && key(out[j]) == Ok(k)) &&
    (forall j :: 0 <= j < |out| ==> key(out[j]).Ok? && key(out[j]).value in seen)
  }

  /** No two kept items share a key. */
  predicate KeptDistinct(out: seq<JSON>, key: JSON -> Outcome<RequestKey>)
  {
    forall a, b :: 0 <= a < b < |out| ==> key(out[a]) != key(out[b])
  }

  /** `x` is an item of `xs` that no earlier item shares a key with. */
  ghost predicate IsFirstOf(xs: seq<JSON>, x: JSON, key: JSON -> Outcome<RequestKey>)
  {
    exists i :: 0 <= i < |xs| && xs[i] == x && forall i' :: 0 <= i' < i ==> key(xs[i']) != key(x)
  }

  /** Each kept item is the first input item with its key. */
  ghost predicate KeptAreFirsts(xs: seq<JSON>, out: seq<JSON>, key: JSON -> Outcome<RequestKey>)
  {
    forall j :: 0 <= j < |out| ==> IsFirstOf(xs, out[j], key)
  }

  /**
   * The dedup keeps the first item of each key: the keys seen are the input's
   * keys, each is carried by exactly one kept item, and each kept item is the
   * first input item with its key.
   */
  lemma {:induction false} DedupKeepsFirsts(xs: seq<JSON>, key: JSON -> Outcome<RequestKey>)
    requires DedupBy(xs, key).Ok?
    ensures var acc := DedupBy(xs, key).value;
            SeenAreInputKeys(xs, key, acc.0) && KeptCarrySeen(acc.1, key, acc.0) &&
            KeptDistinct(acc.1, key) && KeptAreFirsts(xs, acc.1, key)
    decreases |xs|
  {
    if xs != [] {
      var init, last := xs[..|xs| - 1], xs[|xs| - 1];
      assert xs == init + [last];
      DedupKeepsFirsts(init, key);
      var seen, out := DedupBy(init, key).value.0, DedupBy(init, key).value.1;
      var k := key(last).value;
      SeenStep(init, last, key, seen);
      if k in seen {
        FirstsStep(init, last, key, out);
      } else {
        CarryGrow(out, last, key, seen);
        DistinctGrow(out, last, key, seen);
        FirstsGrow(init, last, key, seen, out);
      }
    }
  }

  lemma SeenStep(init: seq<JSON>, last: JSON, key: JSON -> Outcome<RequestKey>, seen: set<RequestKey>)
    requires SeenAreInputKeys(init, key, seen) && key(last).Ok?
    ensures SeenAreInputKeys(init + [last], key, seen + {key(last).value})
  {
    var xs := init + [last];
    forall k ensures k in seen + {key(last).value} <==> exists i :: 0 <= i < |xs| && key(xs[i]) == Ok(k) {
      if k in seen {
        var i :| 0 <= i < |init| && key(init[i]) == Ok(k);
        assert xs[i] == init[i];
      } else if k == key(last).value {
        assert xs[|init|] == last;
      }
      if exists i :: 0 <= i < |xs| && key(xs[i]) == Ok(k) {
        var i :| 0 <= i < |xs| && key(xs[i]) == Ok(k);
        if i < |init| { assert init[i] == xs[i]; }
      }
    }
  }

  lemma FirstOfExtend(init: seq<JSON>, last: JSON, x: JSON, key: JSON -> Outcome<RequestKey>)
    requires IsFirstOf(init, x, key)
    ensures IsFirstOf(init + [last], x, key)
  {
    var xs := init + [last];
    var i :| 0 <= i < |init| && init[i] == x && forall i' :: 0 <= i' < i ==> key(init[i']) != key(x);
    assert xs[i] == x;
    forall i' | 0 <= i' < i ensures key(xs[i']) != key(x) {
      assert xs[i'] == init[i'];
    }
  }

  lemma FirstsStep(init: seq<JSON>, last: JSON, key: JSON -> Outcome<RequestKey>, out: seq<JSON>)
    requires KeptAreFirsts(init, out, key)
    ensures KeptAreFirsts(init + [last], out, key)
  {
    forall j | 0 <= j < |out| ensures IsFirstOf(init + [last], out[j], key) {
      FirstOfExtend(init, last, out[j], key);
    }
  }

  lemma CarryGrow(out: seq<JSON>, last: JSON, key: JSON -> Outcome<RequestKey>, seen: set<RequestKey>)
    requires KeptCarrySeen(out, key, seen) && key(last).Ok?
    ensures KeptCarrySeen(out + [last], key, seen + {key(last).value})
  {
    var out' := out + [last];
    forall k | k in seen + {key(last).value} ensures exists j :: 0 <= j < |out'| && key(out'[j]) == Ok(k) {
      if k in seen {
        var j :| 0 <= j < |out| && key(out[j]) == Ok(k);
        assert out'[j] == out[j];
      } else {
        assert out'[|out|] == last;
      }
    }
  }

  lemma DistinctGrow(out: seq<JSON>, last: JSON, key: JSON -> Outcome<RequestKey>, seen: set<RequestKey>)
    requires KeptCarrySeen(out, key, seen) && KeptDistinct(out, key)
    requires key(last).Ok? && key(last).value !in seen
    ensures KeptDistinct(out + [last], key)
  {
    var out' := out + [last];
    forall a, b | 0 <= a < b < |out'| ensures key(out'[a]) != key(out'[b]) {
      if b == |out| {
        assert out'[a] == out[a] && out'[b] == last;
      } else {
        assert out'[a] == out[a] && out'[b] == out[b];
      }
    }
  }

  lemma FirstsGrow(init: seq<JSON>, last: JSON, key: JSON -> Outcome<RequestKey>, seen: set<RequestKey>, out: seq<JSON>)
    requires KeptAreFirsts(init, out, key) && SeenAreInputKeys(init, key, seen)
    requires key(last).Ok? && key(last).value !in seen
    ensures KeptAreFirsts(init + [last], out + [last], key)
  {
    var xs, out' := init + [last], out + [last];
    FirstsStep(init, last, key, out);
    assert IsFirstOf(xs, last, key) by {
      assert xs[|init|] == last;
      forall i' | 0 <= i' < |init| ensures key(xs[i']) != key(last) {
        assert xs[i'] == init[i'];
      }
    }
    forall j | 0 <= j < |out'| ensures IsFirstOf(xs, out'[j], key) {
      if j < |out| { assert out'[j] == out[j]; }
    }
  }

  /** Dedup of a list is a prefix of the dedup of any extension: earlier items keep their place. */
  lemma {:induction false} DedupPrefix(a: seq<JSON>, b: seq<JSON>, key: JSON -> Outcome<RequestKey>)
    requires DedupBy(a + b, key).Ok?
    ensures DedupBy(a, key).Ok? && DedupBy(a, key).value.1 <= DedupBy(a + b, key).value.1
    decreases |b|
  {
    if b == [] {
      assert a + b == a;
    } else {
      var b' := b[..|b| - 1];
      assert (a + b)[..|a + b| - 1] == a + b';
      DedupPrefix(a, b', key);
    }
  }

  /** Items whose keys are already pairwise distinct pass through unchanged. */
  lemma {:induction false} DedupDistinct(xs: seq<JSON>, key: JSON -> Outcome<RequestKey>)
    requires forall i :: 0 <= i < |xs| ==> key(xs[i]).Ok?
    requires KeptDistinct(xs, key)
    ensures DedupBy(xs, key).Ok? && DedupBy(xs, key).value.1 == xs
    decreases |xs|
  {
    if xs != [] {
      var init, last := xs[..|xs| - 1], xs[|xs| - 1];
      assert forall i :: 0 <= i < |init| ==> init[i] == xs[i];
      DedupDistinct(init, key);
      DedupSeen(init, key);
      var seen := DedupBy(init, key).value.0;
      assert forall i :: 0 <= i < |init| ==> key(init[i]) != key(last);
      FreshKey(init, last, key, seen);
      assert init + [last] == xs;
    }
  }

  /** A key no item of `init` has is not among the keys seen for `init`. */
  lemma FreshKey(init: seq<JSON>, last: JSON, key: JSON -> Outcome<RequestKey>, seen: set<RequestKey>)
    requires SeenAreInputKeys(init, key, seen) && key(last).Ok?
    requires forall i :: 0 <= i < |init| ==> key(init[i]) != key(last)
    ensures key(last).value !in seen
  {
  }

  /** The keys the dedup has seen are the keys of its input. */
  lemma DedupSeen(xs: seq<JSON>, key: JSON -> Outcome<RequestKey>)
    requires DedupBy(xs, key).Ok?
    ensures SeenAreInputKeys(xs, key, DedupBy(xs, key).value.0)
  {
    DedupKeepsFirsts(xs, key);
  }


  /** The merged list: the JavaScript requests' dedup comes first, unchanged. */
  lemma JsRequestsFirst(js: seq<JSON>, cdp: seq<JSON>)
    requires UniqueRequests(js + cdp).Ok?
    ensures UniqueRequests(js).Ok? && UniqueRequests(js).value <= UniqueRequests(js + cdp).value
  {
    DedupPrefix(js, cdp, KeyOf);
  }

  /**
   * The dedup loop of `get_all_requests`: walk the list once, keep an item
   * whose key was not seen, and let an exception from the key escape.
   */
  method Deduplicate(all: seq<JSON>, key: JSON -> Outcome<RequestKey>) returns (r: Outcome<seq<JSON>>)
    ensures r == match DedupBy(all, key) case Raise(e) => Raise(e) case Ok(acc) => Ok(acc.1)
  {
    var seen: set<RequestKey> := {};
    var unique: seq<JSON> := [];
    for i := 0 to |all|
      invariant DedupBy(all[..i], key) == Ok((seen, unique))
    {
      assert all[..i + 1][..i] == all[..i];
      var k := key(all[i]);
      if k.Raise? {
        DedupRaisePersists(all, key, i + 1);
        return Raise(k.exc);
      }
      if k.value !in seen {
        seen := seen + {k.value};
        unique := unique + [all[i]];
      }
    }
    assert all[..|all|] == all;
    return Ok(unique);
  }

  /** The monitor's request buffers and its pattern list. */
  class NetworkMonitor {
    /** None until `enable_monitoring` sets it. */
    var patterns: Option<seq<string>>
    var capturedRequests: seq<JSON>
    var pendingRequests: map<string, JSON>
    var seenUrls: set<string>

    /** `__init__`: empty buffers, no pattern list yet. */
    constructor ()
      ensures patterns.None? && capturedRequests == [] && pendingRequests == map[] && seenUrls == {}
    {
      patterns := None;
      capturedRequests := [];
      pendingRequests := map[];
      seenUrls := {};
    }

    /** `enable_monitoring`: stores the given patterns, or the comment-list API pattern for None. */
    method EnableMonitoring(newPatterns: Option<seq<string>>)
      modifies this
      ensures patterns == Some(if newPatterns.None? then DefaultPatterns else newPatterns.value)
      ensures capturedRequests == old(capturedRequests) && pendingRequests == old(pendingRequests)
      ensures seenUrls == old(seenUrls)
    {
      patterns := Some(if newPatterns.None? then DefaultPatterns else newPatterns.value);
    }

    /** `get_cdp_requests` over the driver log `logs`. */
    method GetCdpRequests(logs: seq<JSON>, loads: string -> Option<JSON>) returns (r: seq<JSON>)
      ensures r == CdpRequests(logs, patterns, loads)
    {
      var acc: seq<JSON> := [];
      var i := 0;
      while i < |logs|
        invariant 0 <= i <= |logs|
        invariant ScanWith(logs[..i], EntryOf(patterns, loads)) == Some(acc)
      {
        assert logs[..i + 1][..i] == logs[..i];
        var verdict := CdpEntry(logs[i], patterns, loads);
        assert EntryOf(patterns, loads)(logs[..i + 1][i]) == verdict;
        if verdict.Abort? {
          AbortPersists(logs, i + 1, EntryOf(patterns, loads));
          return [];
        }
        if verdict.Keep? {
          acc := acc + [verdict.request];
        }
        i := i + 1;
      }
      assert logs[..|logs|] == logs;
      return acc;
    }

    /**
     * `get_all_requests`: the JavaScript-captured requests `js` followed by
     * the CDP ones, keeping the first request per key.  An exception from
     * the key computation propagates.
     */
    method GetAllRequests(js: seq<JSON>, logs: seq<JSON>, loads: string -> Option<JSON>) returns (r: Outcome<seq<JSON>>)
      ensures r == UniqueRequests(js + CdpRequests(logs, patterns, loads))
    {
      var cdp := GetCdpRequests(logs, loads);
      r := Deduplicate(js + cdp, KeyOf);
    }

    /** `clear_all_requests`: the three buffers are emptied only when the page script call succeeds. */
    method ClearAllRequests(scriptOk: bool)
      modifies this
      ensures scriptOk ==> capturedRequests == [] && pendingRequests == map[] && seenUrls == {}
      ensures !scriptOk ==> capturedRequests == old(capturedRequests) && pendingRequests == old(pendingRequests) &&
                            seenUrls == old(seenUrls)
      ensures patterns == old(patterns)
    {
      if scriptOk {
        capturedRequests := [];
        pendingRequests := map[];
        seenUrls := {};
      }
    }
  }

  /**
   * `wait_for_requests`: `polls` are the buffers read before the timeout ran
   * out.  The answer is the part beyond the initial count of the first poll
   * that grew, or [] when none did.
   */
  method WaitForRequests(initial: seq<JSON>, polls: seq<seq<JSON>>) returns (r: seq<JSON>)
    ensures (forall i :: 0 <= i < |polls| ==> |polls[i]| <= |initial|) ==> r == []
    ensures forall k :: (0 <= k < |polls| && |polls[k]| > |initial| &&
                         (forall i :: 0 <= i < k ==> |polls[i]| <= |initial|)) ==> r == polls[k][|initial|..]
  {
    var initialCount := |initial|;
    var i := 0;
    while i < |polls|
      invariant 0 <= i <= |polls|
      invariant forall j :: 0 <= j < i ==> |polls[j]| <= initialCount
    {
      var current := polls[i];
      if |current| > initialCount {
        return current[initialCount..];
      }
      i := i + 1;
    }
    return [];
  }
}
