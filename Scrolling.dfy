// The scroll loops of safe_comments and fetch_comments_from_network: a
// counter of scrolls that showed no new comments stops the loop, and every
// captured request URL is collected once.

module Scrolling {
  import opened Flatten

  /** `max_same` */
  const MaxSame: nat := 5

  /**
   * What one scroll iteration observes: the number of comment elements on
   * the page, and the request URLs captured during it, in capture order.
   */
  datatype Observation = Observation(count: nat, urls: seq<string>)

  function UrlsOf(o: Observation): seq<string> { o.urls }

  /** How the loop ends: it breaks after a number of scrolls, or the observations run out first. */
  datatype Exit = BreakAfter(scrolls: nat) | RanOut

  /** `same_count` after the iterations `obs`, starting from `last_count = -1`. */
  function SameCount(obs: seq<Observation>): nat
  {
    if obs == [] then 0
    else
      var last: int := if |obs| == 1 then -1 else obs[|obs| - 2].count;
      if obs[|obs| - 1].count == last then SameCount(obs[..|obs| - 1]) + 1 else 0
  }

  /**
   * The loop over `obs` breaks after `k` iterations exactly when the
   * counter first reaches `max_same` there; without a break the
   * observations ran out while it stayed below.
   */
  predicate StopsAt(obs: seq<Observation>, r: Exit)
  {
    match r
    case BreakAfter(k) =>
      1 <= k <= |obs| && SameCount(obs[..k]) >= MaxSame && NoStall(obs, k - 1)
    case RanOut =>
      NoStall(obs, |obs|)
  }

  /** No iteration up to `i` brought the counter to `max_same`. */
  predicate NoStall(obs: seq<Observation>, i: nat)
    requires i <= |obs|
  {
    forall j :: 1 <= j <= i ==> SameCount(obs[..j]) < MaxSame
  }

  lemma NoStallStep(obs: seq<Observation>, i: nat)
    requires i < |obs| && NoStall(obs, i) && SameCount(obs[..i + 1]) < MaxSame
    ensures NoStall(obs, i + 1)
  {
  }

  lemma BreakStep(obs: seq<Observation>, i: nat)
    requires i < |obs| && NoStall(obs, i) && SameCount(obs[..i + 1]) >= MaxSame
    ensures StopsAt(obs, BreakAfter(i + 1))
  {
  }

  /**
   * The counter is the length of the final run of equal counts, less one:
   * the last `SameCount + 1` counts are equal, and the one before them
   * differs.
   */
  lemma {:induction false} SameCountRun(obs: seq<Observation>)
    requires obs != []
    ensures SameCount(obs) < |obs|
    ensures forall i :: |obs| - 1 - SameCount(obs) <= i < |obs| ==> obs[i].count == obs[|obs| - 1].count
    ensures SameCount(obs) + 1 < |obs| ==> obs[|obs| - 2 - SameCount(obs)].count != obs[|obs| - 1].count
  {
    var n := |obs|;
    if n > 1 && obs[n - 1].count == obs[n - 2].count {
      var init := obs[..n - 1];
      SameCountRun(init);
      assert SameCount(obs) == SameCount(init) + 1;
      forall i | n - 1 - SameCount(obs) <= i < n ensures obs[i].count == obs[n - 1].count {
        if i < n - 1 { assert init[i] == obs[i]; }
      }
      if SameCount(obs) + 1 < n {
        assert init[n - 2 - SameCount(obs)] == obs[n - 2 - SameCount(obs)];
      }
    }
  }

  /**
   * The loop stops only after at least `max_same + 1` iterations, and the
   * last `max_same + 1` counts it saw are equal.
   */
  lemma StallNeedsRun(obs: seq<Observation>, k: nat)
    requires StopsAt(obs, BreakAfter(k))
    ensures k >= MaxSame + 1
    ensures forall i :: k - MaxSame - 1 <= i < k ==> obs[i].count == obs[k - 1].count
  {
    SameCountRun(obs[..k]);
    assert SameCount(obs[..k]) == MaxSame by {
      if k > 1 {
        assert obs[..k][..k - 1] == obs[..k - 1];
      }
    }
    forall i | k - MaxSame - 1 <= i < k ensures obs[i].count == obs[k - 1].count {
      assert obs[..k][i] == obs[i];
    }
  }

  /** Conversely, `max_same + 1` equal counts in a row make the counter reach `max_same`. */
  lemma {:induction false} RunGivesStall(obs: seq<Observation>, k: nat)
    requires MaxSame + 1 <= k <= |obs|
    requires forall i :: k - MaxSame - 1 <= i < k ==> obs[i].count == obs[k - 1].count
    ensures SameCount(obs[..k]) >= MaxSame
  {
    RunCounts(obs[..k], MaxSame);
  }

  lemma {:induction false} RunCounts(obs: seq<Observation>, m: nat)
    requires m < |obs|
    requires forall i :: |obs| - 1 - m <= i < |obs| ==> obs[i].count == obs[|obs| - 1].count
    ensures SameCount(obs) >= m
  {
    var n := |obs|;
    if m > 0 {
      var init := obs[..n - 1];
      forall i | |init| - 1 - (m - 1) <= i < |init| ensures init[i].count == init[|init| - 1].count {
        assert init[i] == obs[i] && init[|init| - 1] == obs[n - 2];
      }
      RunCounts(init, m - 1);
    }
  }

  // ---------------------------------------------------------------------
  // Seen URLs

  /** The URLs of `urls` not in `seen` that no earlier URL of `urls` repeats, in order. */
  function NewUrls(seen: set<string>, urls: seq<string>): seq<string>
  {
    if urls == [] then []
    else
      var init, last := urls[..|urls| - 1], urls[|urls| - 1];
      NewUrls(seen, init) + (if last in seen || last in init then [] else [last])
  }

  function Elems(s: seq<string>): set<string> { set u | u in s }

  predicate Distinct(s: seq<string>)
  {
    forall i, j :: 0 <= i < j < |s| ==> s[i] != s[j]
  }

  /** The new URLs are exactly the URLs not yet seen, each once. */
  lemma {:induction false} NewUrlsExact(seen: set<string>, urls: seq<string>)
    ensures forall u :: u in NewUrls(seen, urls) <==> u in urls && u !in seen
    ensures Distinct(NewUrls(seen, urls))
  {
    if urls != [] {
      var init, last := urls[..|urls| - 1], urls[|urls| - 1];
      NewUrlsExact(seen, init);
      assert urls == init + [last];
      var prev := NewUrls(seen, init);
      if !(last in seen || last in init) {
        var out := prev + [last];
        forall i, j | 0 <= i < j < |out| ensures out[i] != out[j] {
          if j == |out| - 1 { assert out[i] == prev[i]; }
        }
      }
    }
  }

  /** Capturing two batches one after the other is capturing them together. */
  lemma {:induction false} NewUrlsAppend(seen: set<string>, a: seq<string>, b: seq<string>)
    ensures NewUrls(seen, a + b) == NewUrls(seen, a) + NewUrls(seen + Elems(a), b)
    decreases |b|
  {
    if b == [] {
      assert a + b == a;
    } else {
      var init, last := b[..|b| - 1], b[|b| - 1];
      assert (a + b)[..|a + b| - 1] == a + init;
      assert (a + b)[|a + b| - 1] == last;
      NewUrlsAppend(seen, a, init);
      assert last in a + init <==> last in a || last in init;
    }
  }

  /**
   * `for url in urls: if url not in seen_request_urls: seen_request_urls.add(url); collected_api_urls.append(url)`
   */
  method CaptureUrls(seen: set<string>, collected: seq<string>, urls: seq<string>)
    returns (seen': set<string>, collected': seq<string>)
    ensures seen' == seen + Elems(urls)
    ensures collected' == collected + NewUrls(seen, urls)
  {
    seen', collected' := seen, collected;
    var i := 0;
    while i < |urls|
      invariant 0 <= i <= |urls|
      invariant seen' == seen + Elems(urls[..i])
      invariant collected' == collected + NewUrls(seen, urls[..i])
    {
      var url := urls[i];
      assert urls[..i + 1][..i] == urls[..i] && urls[..i + 1][i] == url;
      if url !in seen' {
        seen' := seen' + {url};
        collected' := collected' + [url];
      }
      ElemsAppend(urls[..i], [url]);
      assert urls[..i + 1] == urls[..i] + [url];
      i := i + 1;
    }
    assert urls[..i] == urls;
  }

  /** The collection holds each seen URL once: its total and its unique count agree. */
  lemma CaptureKeepsUnique(seen: set<string>, collected: seq<string>, urls: seq<string>)
    requires Distinct(collected) && Elems(collected) == seen
    ensures Distinct(collected + NewUrls(seen, urls))
    ensures Elems(collected + NewUrls(seen, urls)) == seen + Elems(urls)
  {
    NewUrlsExact(seen, urls);
    var added := NewUrls(seen, urls);
    var out := collected + added;
    forall i, j | 0 <= i < j < |out| ensures out[i] != out[j] {
      if j >= |collected| && i < |collected| {
        assert out[i] in seen && out[j] == added[j - |collected|];
      } else if i >= |collected| {
        assert out[i] == added[i - |collected|] && out[j] == added[j - |collected|];
      }
    }
  }

  // ---------------------------------------------------------------------
  // The loops

  /** The scroll loop of `safe_comments()`: the number of scrolls after which it breaks. */
  method ScrollComments(obs: seq<Observation>) returns (scrolls: Exit)
    ensures StopsAt(obs, scrolls)
  {
    var lastCount: int := -1;
    var sameCount: nat := 0;
    var iteration: nat := 0;
    while iteration < |obs|
      invariant 0 <= iteration <= |obs|
      invariant sameCount == SameCount(obs[..iteration])
      invariant lastCount == if iteration == 0 then -1 else obs[iteration - 1].count
      invariant NoStall(obs, iteration)
    {
      var count := obs[iteration].count;
      if count == lastCount {
        sameCount := sameCount + 1;
      } else {
        sameCount := 0;
      }
      lastCount := count;
      SameCountStep(obs, iteration);
      if sameCount >= MaxSame { BreakStep(obs, iteration); } else { NoStallStep(obs, iteration); }
      iteration := iteration + 1;
      if sameCount >= MaxSame {
        return BreakAfter(iteration);
      }
    }
    return RanOut;
  }

  lemma SameCountStep(obs: seq<Observation>, i: nat)
    requires i < |obs|
    ensures SameCount(obs[..i + 1]) ==
            if obs[i].count == (if i == 0 then -1 else obs[i - 1].count) then SameCount(obs[..i]) + 1 else 0
  {
    assert obs[..i + 1][..i] == obs[..i];
  }

  lemma CaptureStep(obs: seq<Observation>, i: nat, collected: seq<string>)
    requires i < |obs|
    ensures Flat(UrlsOf, obs[..i + 1]) == Flat(UrlsOf, obs[..i]) + obs[i].urls
    ensures Elems(Flat(UrlsOf, obs[..i + 1])) == Elems(Flat(UrlsOf, obs[..i])) + Elems(obs[i].urls)
    ensures NewUrls({}, Flat(UrlsOf, obs[..i + 1])) ==
            NewUrls({}, Flat(UrlsOf, obs[..i])) + NewUrls(Elems(Flat(UrlsOf, obs[..i])), obs[i].urls)
  {
    var before := Flat(UrlsOf, obs[..i]);
    assert Flat(UrlsOf, obs[..i + 1]) == before + obs[i].urls by {
      assert obs[..i + 1][..i] == obs[..i];
    }
    ElemsAppend(before, obs[i].urls);
    assert NewUrls({}, before + obs[i].urls) == NewUrls({}, before) + NewUrls(Elems(before), obs[i].urls) by {
      NewUrlsAppend({}, before, obs[i].urls);
      assert {} + Elems(before) == Elems(before);
    }
  }

  lemma ElemsAppend(a: seq<string>, b: seq<string>)
    ensures Elems(a + b) == Elems(a) + Elems(b)
  {
    forall u ensures u in Elems(a + b) <==> u in Elems(a) + Elems(b) {
      assert u in a + b <==> u in a || u in b;
    }
  }

  /**
   * The scroll loop of `fetch_comments_from_network()` with its URL
   * captures, followed by the final captures `finalUrls` once it breaks.
   */
  method ScrollAndCapture(obs: seq<Observation>, finalUrls: seq<string>)
    returns (scrolls: Exit, collected: seq<string>)
    ensures StopsAt(obs, scrolls)
    ensures scrolls.BreakAfter? ==> collected == NewUrls({}, Flat(UrlsOf, obs[..scrolls.scrolls]) + finalUrls)
    ensures scrolls.RanOut? ==> collected == NewUrls({}, Flat(UrlsOf, obs))
  {
    var seen: set<string> := {};
    collected := [];
    var lastCount: int := -1;
    var sameCount: nat := 0;
    var iteration: nat := 0;
    while iteration < |obs|
      invariant 0 <= iteration <= |obs|
      invariant sameCount == SameCount(obs[..iteration])
      invariant lastCount == if iteration == 0 then -1 else obs[iteration - 1].count
      invariant NoStall(obs, iteration)
      invariant seen == Elems(Flat(UrlsOf, obs[..iteration]))
      invariant collected == NewUrls({}, Flat(UrlsOf, obs[..iteration]))
    {
      var count := obs[iteration].count;
      SameCountStep(obs, iteration);
      if count == lastCount {
        sameCount := sameCount + 1;
      } else {
        sameCount := 0;
      }
      lastCount := count;
      CaptureStep(obs, iteration, collected);
      seen, collected := CaptureUrls(seen, collected, obs[iteration].urls);
      if sameCount >= MaxSame { BreakStep(obs, iteration); } else { NoStallStep(obs, iteration); }
      iteration := iteration + 1;
      if sameCount >= MaxSame {
        var all := Flat(UrlsOf, obs[..iteration]);
        seen, collected := CaptureUrls(seen, collected, finalUrls);
        assert collected == NewUrls({}, all + finalUrls) by {
          NewUrlsAppend({}, all, finalUrls);
          assert {} + Elems(all) == Elems(all);
        }
        return BreakAfter(iteration), collected;
      }
    }
    assert obs[..iteration] == obs;
    return RanOut, collected;
  }

  /** Whatever the loop collects holds every captured URL exactly once. */
  lemma CollectedUnique(urls: seq<string>)
    ensures Distinct(NewUrls({}, urls))
    ensures forall u :: u in NewUrls({}, urls) <==> u in urls
  {
    NewUrlsExact({}, urls);
  }
  lemma {:induction false} DistinctCard(s: seq<string>)
    requires Distinct(s)
    ensures |Elems(s)| == |s|
  {
    if s != [] {
      var init, last := s[..|s| - 1], s[|s| - 1];
      assert Distinct(init) by {
        forall i, j | 0 <= i < j < |init| ensures init[i] != init[j] {
          assert init[i] == s[i] && init[j] == s[j];
        }
      }
      DistinctCard(init);
      assert last !in Elems(init) by {
        forall i | 0 <= i < |init| ensures init[i] != last {
          assert init[i] == s[i];
        }
      }
      assert s == init + [last];
      ElemsAppend(init, [last]);
      assert Elems([last]) == {last};
    }
  }

  /**
   * `list(set(collected_api_urls))` loses nothing: the total and the unique
   * count of the collected URLs are equal.
   */
  lemma UniqueCountMatches(urls: seq<string>)
    ensures |Elems(NewUrls({}, urls))| == |NewUrls({}, urls)|
  {
    NewUrlsExact({}, urls);
    DistinctCard(NewUrls({}, urls));
  }
}
