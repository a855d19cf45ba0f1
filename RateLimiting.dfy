// The per-domain sliding-window rate limiter, on an integer clock in seconds.

module RateLimiting {
  import opened Json

  const Minute: int := 60
  const Hour: int := 3600

  const DefaultRequestsPerMinute: int := 30
  const DefaultRequestsPerHour: int := 1000
  const DefaultCooldown: int := 300

  /** The timestamps of `h` strictly newer than `cutoff`, in their order. */
  function Newer(h: seq<int>, cutoff: int): (r: seq<int>)
    ensures |r| <= |h|
    decreases |h|
  {
    if h == [] then [] else (if h[0] > cutoff then [h[0]] else []) + Newer(h[1..], cutoff)
  }

  /** How many timestamps of `h` are strictly newer than `cutoff`. */
  function CountNewer(h: seq<int>, cutoff: int): (n: nat)
    decreases |h|
  {
    if h == [] then 0 else (if h[0] > cutoff then 1 else 0) + CountNewer(h[1..], cutoff)
  }

  /** The decision past the cooldown check, on the pruned history. */
  predicate WithinLimits(pruned: seq<int>, requestsPerMinute: int, requestsPerHour: int, now: int)
  {
    CountNewer(pruned, now - Minute) < requestsPerMinute && |pruned| < requestsPerHour
  }

  /** `get_stats` result; the limits are only reported for a domain with a history. */
  datatype Stats = Stats(requestsLastMinute: nat, requestsLastHour: nat, rateLimited: bool,
                         cooldownRemaining: int, limits: Option<(int, int)>)

  class RateLimiter {
    var requestsPerMinute: int
    var requestsPerHour: int
    var cooldownOnRateLimit: int
    var requestHistory: map<string, seq<int>>
    var rateLimitUntil: map<string, int>

    /** `__init__`: the limits, with empty history and cooldown tables. */
    constructor (requestsPerMinute: int, requestsPerHour: int, cooldownOnRateLimit: int)
      ensures this.requestsPerMinute == requestsPerMinute && this.requestsPerHour == requestsPerHour
      ensures this.cooldownOnRateLimit == cooldownOnRateLimit
      ensures requestHistory == map[] && rateLimitUntil == map[]
    {
      this.requestsPerMinute := requestsPerMinute;
      this.requestsPerHour := requestsPerHour;
      this.cooldownOnRateLimit := cooldownOnRateLimit;
      requestHistory := map[];
      rateLimitUntil := map[];
    }

    /** A domain's history, empty when it has none. */
    function HistoryOf(domain: string): seq<int>
      reads this
    {
      if domain in requestHistory then requestHistory[domain] else []
    }

    predicate InCooldown(domain: string, now: int)
      reads this
    {
      domain in rateLimitUntil && now < rateLimitUntil[domain]
    }

    /**
     * `can_make_request`: False during a cooldown, touching nothing; otherwise
     * the expired cooldown entry is deleted, the domain's history is cut to the
     * last hour, and the answer is whether both windows are under their limits.
     */
    method CanMakeRequest(domain: string, now: int) returns (ok: bool)
      modifies this
      ensures old(InCooldown(domain, now)) ==>
                !ok && requestHistory == old(requestHistory) && rateLimitUntil == old(rateLimitUntil)
      ensures !old(InCooldown(domain, now)) ==>
                rateLimitUntil == old(rateLimitUntil) - {domain} &&
                requestHistory == old(requestHistory)[domain := Newer(old(HistoryOf(domain)), now - Hour)] &&
                (ok <==> WithinLimits(Newer(old(HistoryOf(domain)), now - Hour), requestsPerMinute, requestsPerHour, now))
      ensures requestsPerMinute == old(requestsPerMinute) && requestsPerHour == old(requestsPerHour)
      ensures cooldownOnRateLimit == old(cooldownOnRateLimit)
    {
      if domain in rateLimitUntil {
        if now < rateLimitUntil[domain] {
          return false;
        } else {
          rateLimitUntil := rateLimitUntil - {domain};
        }
      }
      if domain !in requestHistory {
        requestHistory := requestHistory[domain := []];
      }
      var cutoffMinute := now - Minute;
      var cutoffHour := now - Hour;
      requestHistory := requestHistory[domain := Newer(requestHistory[domain], cutoffHour)];
      var recentMinute := CountNewer(requestHistory[domain], cutoffMinute);
      var recentHour := |requestHistory[domain]|;
      if recentMinute >= requestsPerMinute {
        return false;
      }
      if recentHour >= requestsPerHour {
        return false;
      }
      return true;
    }

    /** `record_request`: appends `now` to the domain's history and to nothing else. */
    method RecordRequest(domain: string, now: int)
      modifies this
      ensures requestHistory == old(requestHistory)[domain := old(HistoryOf(domain)) + [now]]
      ensures rateLimitUntil == old(rateLimitUntil)
      ensures requestsPerMinute == old(requestsPerMinute) && requestsPerHour == old(requestsPerHour)
      ensures cooldownOnRateLimit == old(cooldownOnRateLimit)
    {
      if domain !in requestHistory {
        requestHistory := requestHistory[domain := []];
      }
      requestHistory := requestHistory[domain := requestHistory[domain] + [now]];
    }

    /** `record_rate_limit`: the deadline is now + (custom_cooldown or the default); 0 and None mean the default. */
    method RecordRateLimit(domain: string, now: int, customCooldown: Option<int>)
      modifies this
      ensures var cooldown := if customCooldown.Some? && customCooldown.value != 0 then customCooldown.value
                              else cooldownOnRateLimit;
              rateLimitUntil == old(rateLimitUntil)[domain := now + cooldown]
      ensures requestHistory == old(requestHistory)
      ensures requestsPerMinute == old(requestsPerMinute) && requestsPerHour == old(requestsPerHour)
      ensures cooldownOnRateLimit == old(cooldownOnRateLimit)
    {
      var cooldown := if customCooldown.Some? && customCooldown.value != 0 then customCooldown.value
                      else cooldownOnRateLimit;
      rateLimitUntil := rateLimitUntil[domain := now + cooldown];
    }

    /**
     * `get_stats`: zeros and not rate-limited for a domain without history
     * (whatever its cooldown says); otherwise the two window counts over the
     * unpruned history, the cooldown state and the limits.
     */
    function GetStats(domain: string, now: int): (s: Stats)
      reads this
      ensures domain !in requestHistory ==> s == Stats(0, 0, false, 0, None)
      ensures domain in requestHistory ==>
                s.requestsLastMinute == CountNewer(requestHistory[domain], now - Minute) &&
                s.requestsLastHour == CountNewer(requestHistory[domain], now - Hour) &&
                (s.rateLimited <==> InCooldown(domain, now)) &&
                s.cooldownRemaining == (if InCooldown(domain, now) then rateLimitUntil[domain] - now else 0) &&
                s.limits == Some((requestsPerMinute, requestsPerHour))
    {
      if domain !in requestHistory then Stats(0, 0, false, 0, None)
      else
        var h := requestHistory[domain];
        var limited := domain in rateLimitUntil && now < rateLimitUntil[domain];
        Stats(CountNewer(h, now - Minute), CountNewer(h, now - Hour), limited,
              if limited then rateLimitUntil[domain] - now else 0,
              Some((requestsPerMinute, requestsPerHour)))
    }
  }

  // ---------------------------------------------------------------------
  // Properties of the window functions

  /** The hour window keeps exactly the timestamps newer than its cutoff. */
  lemma {:induction false} NewerMembers(h: seq<int>, cutoff: int, x: int)
    ensures x in Newer(h, cutoff) <==> x in h && x > cutoff
    decreases |h|
  {
    if h != [] {
      NewerMembers(h[1..], cutoff, x);
      assert h == [h[0]] + h[1..];
    }
  }

  /** Its length is the count of newer timestamps. */
  lemma {:induction false} NewerLength(h: seq<int>, cutoff: int)
    ensures |Newer(h, cutoff)| == CountNewer(h, cutoff)
    decreases |h|
  {
    if h != [] { NewerLength(h[1..], cutoff); }
  }

  predicate Ascending(h: seq<int>)
  {
    forall i, j :: 0 <= i < j < |h| ==> h[i] <= h[j]
  }

  /** On a history recorded with a non-decreasing clock, the pruned history is a suffix. */
  lemma {:induction false} NewerIsSuffix(h: seq<int>, cutoff: int)
    requires Ascending(h)
    ensures exists k :: 0 <= k <= |h| && Newer(h, cutoff) == h[k..]
    decreases |h|
  {
    if h == [] {
      assert Newer(h, cutoff) == h[0..];
    } else if h[0] > cutoff {
      AllNewer(h, cutoff);
      assert Newer(h, cutoff) == h[0..];
    } else {
      NewerIsSuffix(h[1..], cutoff);
      var k :| 0 <= k <= |h[1..]| && Newer(h[1..], cutoff) == h[1..][k..];
      assert h[1..][k..] == h[k + 1..];
    }
  }

  lemma {:induction false} AllNewer(h: seq<int>, cutoff: int)
    requires Ascending(h) && h != [] && h[0] > cutoff
    ensures Newer(h, cutoff) == h
    decreases |h|
  {
    if |h| > 1 {
      assert h[1] >= h[0];
      AllNewer(h[1..], cutoff);
      assert h == [h[0]] + h[1..];
    }
  }

  /** Pruning to the hour does not change how many requests fall in the last minute. */
  lemma {:induction false} PruneKeepsMinute(h: seq<int>, now: int)
    ensures CountNewer(Newer(h, now - Hour), now - Minute) == CountNewer(h, now - Minute)
    decreases |h|
  {
    if h != [] {
      PruneKeepsMinute(h[1..], now);
      var head := if h[0] > now - Hour then [h[0]] else [];
      CountConcat(head, Newer(h[1..], now - Hour), now - Minute);
    }
  }

  lemma {:induction false} CountConcat(a: seq<int>, b: seq<int>, cutoff: int)
    ensures CountNewer(a + b, cutoff) == CountNewer(a, cutoff) + CountNewer(b, cutoff)
    decreases |a|
  {
    if a == [] {
      assert a + b == b;
    } else {
      assert (a + b)[1..] == a[1..] + b;
      CountConcat(a[1..], b, cutoff);
    }
  }

  /** A request just recorded counts in both windows. */
  lemma RecordedCounts(h: seq<int>, now: int)
    ensures CountNewer(h + [now], now - Minute) == CountNewer(h, now - Minute) + 1
    ensures Newer(h + [now], now - Hour) == Newer(h, now - Hour) + [now]
  {
    CountConcat(h, [now], now - Minute);
    NewerConcat(h, [now], now - Hour);
  }

  lemma {:induction false} NewerConcat(a: seq<int>, b: seq<int>, cutoff: int)
    ensures Newer(a + b, cutoff) == Newer(a, cutoff) + Newer(b, cutoff)
    decreases |a|
  {
    if a == [] {
      assert a + b == b;
    } else {
      assert (a + b)[1..] == a[1..] + b;
      NewerConcat(a[1..], b, cutoff);
    }
  }

  /** Once the last minute holds requests_per_minute requests, the limiter refuses. */
  lemma MinuteLimitRefuses(h: seq<int>, requestsPerMinute: int, requestsPerHour: int, now: int)
    requires CountNewer(h, now - Minute) >= requestsPerMinute
    ensures !WithinLimits(Newer(h, now - Hour), requestsPerMinute, requestsPerHour, now)
  {
    PruneKeepsMinute(h, now);
  }
}
