// The batch video extractor of the examples: one record per URL with
// success and failure counters, and the engagement analytics computed from
// the records.  What extracting one video produced (the Video object's
// attributes, or the exception it raised) is an input of the model.

module BatchExtraction {
  import opened Json
  import opened Flatten

  /** What `Video(url).info()` produced: the attributes read afterwards, or the exception's str() and class name. */
  datatype Extraction =
    | Extracted(videoId: JSON, stats: JSON, createTime: Option<string>, rawData: JSON)
    | Failed(message: string, errorType: string)

  /** The result dict of one URL (its extraction timestamp is left out). */
  datatype Record =
    | Success(url: string, videoId: JSON, stats: JSON, createTime: Option<string>, rawData: JSON)
    | Failure(url: string, error: string, errorType: string)

  /** The record `extract_single_video` builds: stats are kept only when truthy, else None. */
  function RecordOf(url: string, e: Extraction): (r: Record)
    ensures r.url == url
    ensures r.Success? <==> e.Extracted?
    ensures r.Success? ==> r.videoId == e.videoId && r.rawData == e.rawData && r.createTime == e.createTime
    ensures r.Success? ==> (Truthy(e.stats) ==> r.stats == e.stats) && (!Truthy(e.stats) ==> r.stats == JNull)
    ensures r.Failure? ==> r.error == e.message && r.errorType == e.errorType
  {
    match e
    case Extracted(id, stats, created, raw) =>
      Success(url, id, if Truthy(stats) then stats else JNull, created, raw)
    case Failed(msg, kind) => Failure(url, msg, kind)
  }

  /** The records of a batch, one per URL, in input order. */
  function RecordsOf(urls: seq<string>, es: seq<Extraction>): (rs: seq<Record>)
    requires |urls| == |es|
  {
    seq(|urls|, i requires 0 <= i < |urls| => RecordOf(urls[i], es[i]))
  }

  function SuccessOnly(r: Record): seq<Record> { if r.Success? then [r] else [] }
  function FailureOnly(r: Record): seq<Record> { if r.Failure? then [r] else [] }

  /** `[r for r in results if r.get('success', False)]` */
  function Successes(rs: seq<Record>): seq<Record> { Flat(SuccessOnly, rs) }

  /** The failure records, in order: what `errors` collects. */
  function Failures(rs: seq<Record>): seq<Record> { Flat(FailureOnly, rs) }

  /** The successes are exactly the success records of the list, and the failures the failure records. */
  lemma SelectionExact(rs: seq<Record>, r: Record)
    ensures r in Successes(rs) <==> r in rs && r.Success?
    ensures r in Failures(rs) <==> r in rs && r.Failure?
  {
    FlatMember(SuccessOnly, rs, r);
    FlatMember(FailureOnly, rs, r);
    if r in rs {
      var i :| 0 <= i < |rs| && rs[i] == r;
      assert r in SuccessOnly(rs[i]) <==> r.Success?;
    }
  }

  /** Every record is a success or a failure. */
  lemma CountsPartition(rs: seq<Record>)
    ensures |Successes(rs)| + |Failures(rs)| == |rs|
  {
    FlatPartition(SuccessOnly, FailureOnly, rs);
  }

  /** The `extraction_summary` counts and the two lists (success rate, duration and times are left out). */
  datatype Summary = Summary(totalVideos: nat, successfulExtractions: nat, failedExtractions: nat,
                             results: seq<Record>, errors: seq<Record>)

  class BatchVideoExtractor {
    var results: seq<Record>
    var errors: seq<Record>
    var totalProcessed: nat
    var successful: nat
    var failed: nat

    /** Each failure is counted once and kept in `errors`; each batch record is counted in total_processed. */
    predicate Valid()
      reads this
    {
      |errors| == failed && totalProcessed == |results| &&
      forall j :: 0 <= j < |errors| ==> errors[j].Failure?
    }

    constructor()
      ensures Valid()
      ensures results == [] && errors == [] && totalProcessed == 0 && successful == 0 && failed == 0
    {
      results, errors := [], [];
      totalProcessed, successful, failed := 0, 0, 0;
    }

    /** One video: exactly one of the two counters goes up, and only a failure is added to the errors. */
    method ExtractSingleVideo(url: string, e: Extraction) returns (r: Record)
      requires Valid()
      modifies this
      ensures Valid()
      ensures r == RecordOf(url, e)
      ensures e.Extracted? ==> successful == old(successful) + 1 && failed == old(failed) && errors == old(errors)
      ensures e.Failed? ==> failed == old(failed) + 1 && successful == old(successful) && errors == old(errors) + [r]
      ensures results == old(results) && totalProcessed == old(totalProcessed)
    {
      match e
      case Extracted(id, stats, created, raw) =>
        r := Success(url, id, if Truthy(stats) then stats else JNull, created, raw);
        successful := successful + 1;
      case Failed(msg, kind) =>
        r := Failure(url, msg, kind);
        failed := failed + 1;
        errors := errors + [r];
    }

    /** A batch: one record per URL in input order, each counted once. */
    method ExtractBatch(urls: seq<string>, es: seq<Extraction>) returns (s: Summary)
      requires |urls| == |es|
      requires Valid()
      modifies this
      ensures Valid()
      ensures results == old(results) + RecordsOf(urls, es)
      ensures totalProcessed == old(totalProcessed) + |urls|
      ensures successful == old(successful) + |Successes(RecordsOf(urls, es))|
      ensures failed == old(failed) + |Failures(RecordsOf(urls, es))|
      ensures errors == old(errors) + Failures(RecordsOf(urls, es))
      ensures s == Summary(|results|, successful, failed, results, errors)
    {
      ghost var rs := RecordsOf(urls, es);
      var i := 0;
      while i < |urls|
        invariant 0 <= i <= |urls|
        invariant Valid()
        invariant results == old(results) + rs[..i]
        invariant totalProcessed == old(totalProcessed) + i
        invariant successful == old(successful) + |Successes(rs[..i])|
        invariant errors == old(errors) + Failures(rs[..i])
      {
        var r := ExtractSingleVideo(urls[i], es[i]);
        assert r == rs[i];
        FlatStep(SuccessOnly, rs, i);
        FlatStep(FailureOnly, rs, i);
        SliceStep(old(results), rs, i);
        ConcatAssoc(old(errors), Failures(rs[..i]), FailureOnly(r));
        results := results + [r];
        totalProcessed := totalProcessed + 1;
        i := i + 1;
      }
      assert rs[..i] == rs;
      s := Summary(|results|, successful, failed, results, errors);
    }

    /** `get_analytics` over the extractor's records: the error dicts, or the totals, ids and averages. */
    method GetAnalytics() returns (r: Outcome<Analytics>)
      ensures r == AnalyticsOf(results)
    {
      if results == [] {
        return Ok(AnalyticsError(NoData));
      }
      var s := Successes(results);
      if s == [] {
        return Ok(AnalyticsError(NoSuccessful));
      }
      var totals := NoEngagement;
      var ids: seq<JSON> := [];
      var i := 0;
      while i < |s|
        invariant 0 <= i <= |s|
        invariant totals == Sum(s[..i])
        invariant ids == VideoIds(s[..i])
        invariant AllReadable(s[..i])
      {
        var result := s[i];
        SuccessesAreSuccesses(results, i);
        if Truthy(result.stats) && !result.stats.JObj? {
          assert AnalyticsOf(results) == Raise(AttributeError) by {
            NotAllReadable(s, i);
          }
          return Raise(AttributeError);
        }
        AnalyticsStep(s, i, totals, ids);
        ids := ids + (if Truthy(result.videoId) then [result.videoId] else []);
        totals := if Truthy(result.stats) then Plus(totals, Figures(result.stats.members)) else totals;
        i := i + 1;
      }
      assert AnalyticsOf(results) == Ok(Report(|s|, totals, ids, Average(totals, |s|))) by {
        assert s[..i] == s;
      }
      r := Ok(Report(|s|, totals, ids, Average(totals, |s|)));
    }
  }

  lemma SuccessesAreSuccesses(rs: seq<Record>, i: nat)
    requires i < |Successes(rs)|
    ensures Successes(rs)[i].Success?
  {
    SelectionExact(rs, Successes(rs)[i]);
  }

  /** One pass of the analytics loop over a successful record whose stats can be read. */
  lemma AnalyticsStep(s: seq<Record>, i: nat, totals: Engagement, ids: seq<JSON>)
    requires i < |s| && s[i].Success? && !(Truthy(s[i].stats) && !s[i].stats.JObj?)
    requires totals == Sum(s[..i]) && ids == VideoIds(s[..i]) && AllReadable(s[..i])
    ensures Sum(s[..i + 1]) == (if Truthy(s[i].stats) then Plus(totals, Figures(s[i].stats.members)) else totals)
    ensures VideoIds(s[..i + 1]) == ids + (if Truthy(s[i].videoId) then [s[i].videoId] else [])
    ensures AllReadable(s[..i + 1])
  {
    FoldStep(AddGain, NoEngagement, s, i);
    FlatStep(IdOf, s, i);
    AllStep(Readable, s, i);
    PlusZero(totals);
  }

  lemma NotAllReadable(rs: seq<Record>, i: nat)
    requires i < |rs| && rs[i].Success? && Truthy(rs[i].stats) && !rs[i].stats.JObj?
    ensures !AllReadable(rs)
  {
  }

  // ---------------------------------------------------------------------
  // get_analytics

  /** The six engagement figures, in the order of the source's dicts. */
  datatype Engagement = Engagement(likes: nat, shares: nat, comments: nat, views: nat, collects: nat, reposts: nat)

  const NoEngagement := Engagement(0, 0, 0, 0, 0, 0)

  datatype Analytics =
    | AnalyticsError(error: string)
    | Report(totalVideosAnalyzed: nat, engagementStats: Engagement, videoIds: seq<JSON>, averageEngagement: Engagement)

  /** When str(v) is all digits, int(v) succeeds with a non-negative value. */
  lemma DigitsToInt(v: JSON)
    requires AllDigits(Str(v))
    ensures ToInt(v).Ok? && ToInt(v).value >= 0
    ensures v.JInt? ==> ToInt(v).value == v.i
    ensures v.JStr? ==> ToInt(v).value == DecimalValue(v.s) as int
  {
    StrIsDigits(v);
    if v.JStr? {
      ParsePositive(v.s);
    }
  }

  /** The amount a stats value adds to a total: a non-negative integer or a digit string, else nothing. */
  function Counted(v: JSON): nat
  {
    if v.JInt? && v.i >= 0 then v.i
    else if v.JStr? && AllDigits(v.s) then DecimalValue(v.s)
    else 0
  }

  /** Counted is the source's `int(v) if str(v).isdigit() else 0`, and int() never raises there. */
  lemma CountedIsGuardedInt(v: JSON)
    ensures AllDigits(Str(v)) ==> ToInt(v).Ok? && ToInt(v).value == Counted(v)
    ensures !AllDigits(Str(v)) ==> Counted(v) == 0
  {
    StrIsDigits(v);
    if AllDigits(Str(v)) {
      DigitsToInt(v);
    }
  }

  /** The stats keys read by the analytics, in the order of the totals. */
  const StatKeys: seq<string> := ["diggCount", "shareCount", "commentCount", "playCount", "collectCount", "repostCount"]

  /** `stats.get(k, 0)`, counted. */
  function Stat(m: seq<(string, JSON)>, k: string): nat
  {
    Counted(LookupOr(m, k, JInt(0)))
  }

  /** The six counted values of a stats dict, in the order of StatKeys. */
  function Figures(m: seq<(string, JSON)>): Engagement
  {
    Engagement(Stat(m, StatKeys[0]), Stat(m, StatKeys[1]), Stat(m, StatKeys[2]),
               Stat(m, StatKeys[3]), Stat(m, StatKeys[4]), Stat(m, StatKeys[5]))
  }

  function Plus(a: Engagement, b: Engagement): Engagement
  {
    Engagement(a.likes + b.likes, a.shares + b.shares, a.comments + b.comments,
               a.views + b.views, a.collects + b.collects, a.reposts + b.reposts)
  }

  lemma PlusZero(a: Engagement)
    ensures Plus(NoEngagement, a) == a && Plus(a, NoEngagement) == a
  {
  }

  lemma PlusAssoc(a: Engagement, b: Engagement, c: Engagement)
    ensures Plus(Plus(a, b), c) == Plus(a, Plus(b, c))
  {
  }

  /** The stats of a record, as `result.get('stats', {})` reads them. */
  function StatsOf(r: Record): JSON
  {
    if r.Success? then r.stats else EmptyObj
  }

  /** `stats.get(...)` can be called: the stats are falsy (and skipped) or a dict; anything else raises AttributeError. */
  predicate Readable(r: Record)
  {
    !Truthy(StatsOf(r)) || StatsOf(r).JObj?
  }

  predicate AllReadable(rs: seq<Record>) { All(Readable, rs) }

  /** What one record adds to the totals: nothing when its stats are falsy. */
  function Gain(r: Record): Engagement
  {
    var st := StatsOf(r);
    if Truthy(st) && st.JObj? then Figures(st.members) else NoEngagement
  }

  function AddGain(t: Engagement, r: Record): Engagement { Plus(t, Gain(r)) }

  /** The engagement totals over the records. */
  function Sum(rs: seq<Record>): Engagement { Fold(AddGain, NoEngagement, rs) }

  function IdOf(r: Record): seq<JSON>
  {
    if r.Success? && Truthy(r.videoId) then [r.videoId] else []
  }

  /** Each record's truthy video id, in order. */
  function VideoIds(rs: seq<Record>): seq<JSON> { Flat(IdOf, rs) }

  function Div(n: nat, d: nat): (q: nat)
    requires d > 0
    ensures q * d <= n < (q + 1) * d
  {
    n / d
  }

  /** Each figure floor-divided by the number of analysed videos. */
  function Average(t: Engagement, n: nat): Engagement
    requires n > 0
  {
    Engagement(Div(t.likes, n), Div(t.shares, n), Div(t.comments, n),
               Div(t.views, n), Div(t.collects, n), Div(t.reposts, n))
  }

  const NoData := "No data to analyze"
  const NoSuccessful := "No successful extractions to analyze"

  /** The analytics dict of a list of records; a truthy non-dict stats value raises AttributeError. */
  function AnalyticsOf(results: seq<Record>): Outcome<Analytics>
  {
    if results == [] then Ok(AnalyticsError(NoData))
    else
      var s := Successes(results);
      if s == [] then Ok(AnalyticsError(NoSuccessful))
      else if !AllReadable(s) then Raise(AttributeError)
      else Ok(Report(|s|, Sum(s), VideoIds(s), Average(Sum(s), |s|)))
  }

  // ---------------------------------------------------------------------
  // Properties of the analytics

  /**
   * The error dicts come exactly when there are no records or no successful
   * record; otherwise the successful records are analysed, and the analysis
   * raises exactly when one of them has truthy stats that are not a dict.
   */
  lemma AnalyticsCases(results: seq<Record>)
    ensures results == [] ==> AnalyticsOf(results) == Ok(AnalyticsError(NoData))
    ensures results != [] && (forall j :: 0 <= j < |results| ==> results[j].Failure?) ==>
              AnalyticsOf(results) == Ok(AnalyticsError(NoSuccessful))
    ensures (exists j :: 0 <= j < |results| && results[j].Success?) ==>
              (AnalyticsOf(results).Raise? <==> !AllReadable(Successes(results))) &&
              (AnalyticsOf(results).Ok? ==>
                 AnalyticsOf(results).value.Report? && AnalyticsOf(results).value.totalVideosAnalyzed == |Successes(results)|)
  {
    if exists j :: 0 <= j < |results| && results[j].Success? {
      var j :| 0 <= j < |results| && results[j].Success?;
      SelectionExact(results, results[j]);
    } else if results != [] && Successes(results) != [] {
      SelectionExact(results, Successes(results)[0]);
    }
  }

  /** Folding from a starting total t gives t plus the totals from zero. */
  lemma {:induction false} SumFrom(t: Engagement, rs: seq<Record>)
    ensures Fold(AddGain, t, rs) == Plus(t, Sum(rs))
    decreases |rs|
  {
    if rs == [] {
      PlusZero(t);
    } else {
      var p := rs[..|rs| - 1];
      var last := rs[|rs| - 1];
      SumFrom(t, p);
      PlusAssoc(t, Sum(p), Gain(last));
    }
  }

  /** Appending records adds their totals. */
  lemma SumAppend(a: seq<Record>, b: seq<Record>)
    ensures Sum(a + b) == Plus(Sum(a), Sum(b))
  {
    FoldAppend(AddGain, NoEngagement, a, b);
    SumFrom(Sum(a), b);
  }

  /** Neither a positive integer nor a digit string of positive value. */
  predicate NothingToCount(v: JSON)
  {
    !((v.JInt? && v.i > 0) || (v.JStr? && AllDigits(v.s) && DecimalValue(v.s) > 0))
  }

  lemma CountedZero(v: JSON)
    requires NothingToCount(v)
    ensures Counted(v) == 0
  {
  }

  /** A stats dict whose six values count nothing adds nothing. */
  lemma FiguresZero(m: seq<(string, JSON)>)
    requires forall k :: k in StatKeys ==> NothingToCount(LookupOr(m, k, JInt(0)))
    ensures Figures(m) == NoEngagement
  {
    forall i | 0 <= i < 6
      ensures Stat(m, StatKeys[i]) == 0
    {
      assert StatKeys[i] in StatKeys;
      CountedZero(LookupOr(m, StatKeys[i], JInt(0)));
    }
  }

  /** A record whose stats hold no positive digit value leaves every total unchanged. */
  lemma NoDigitsAddNothing(rs: seq<Record>, r: Record)
    requires r.Success? && r.stats.JObj?
    requires forall k :: k in StatKeys ==> NothingToCount(LookupOr(r.stats.members, k, JInt(0)))
    ensures Sum(rs + [r]) == Sum(rs)
  {
    assert Gain(r) == NoEngagement by {
      FiguresZero(r.stats.members);
    }
    FoldLast(AddGain, NoEngagement, rs, r);
    PlusZero(Sum(rs));
  }

  /** Falsy stats, including the None stored for empty stats, add nothing. */
  lemma FalsyStatsAddNothing(rs: seq<Record>, r: Record)
    requires !Truthy(StatsOf(r))
    ensures Sum(rs + [r]) == Sum(rs)
  {
    FoldLast(AddGain, NoEngagement, rs, r);
    PlusZero(Sum(rs));
  }

  /** Each average is the floor of the total over the number of analysed videos. */
  lemma AveragesFloor(results: seq<Record>)
    requires AnalyticsOf(results).Ok? && AnalyticsOf(results).value.Report?
    ensures var a := AnalyticsOf(results).value; var n := a.totalVideosAnalyzed;
            var t, avg := a.engagementStats, a.averageEngagement;
            n > 0 &&
            avg.likes * n <= t.likes < (avg.likes + 1) * n &&
            avg.shares * n <= t.shares < (avg.shares + 1) * n &&
            avg.comments * n <= t.comments < (avg.comments + 1) * n &&
            avg.views * n <= t.views < (avg.views + 1) * n &&
            avg.collects * n <= t.collects < (avg.collects + 1) * n &&
            avg.reposts * n <= t.reposts < (avg.reposts + 1) * n
  {
    var s := Successes(results);
    assert AnalyticsOf(results) == Ok(Report(|s|, Sum(s), VideoIds(s), Average(Sum(s), |s|)));
  }

  /** The ids are those of the successful records whose id is truthy. */
  lemma VideoIdsExact(rs: seq<Record>, v: JSON)
    ensures v in VideoIds(rs) <==> exists j :: 0 <= j < |rs| && rs[j].Success? && Truthy(rs[j].videoId) && rs[j].videoId == v
  {
    FlatMember(IdOf, rs, v);
    if exists j :: 0 <= j < |rs| && v in IdOf(rs[j]) {
      var j :| 0 <= j < |rs| && v in IdOf(rs[j]);
      assert rs[j].videoId == v;
    }
  }
}
