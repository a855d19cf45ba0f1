// The cursor/hasMore generators that page through the item-list APIs.
//
// The API client is abstract: the loop is fed the sequence of responses the
// client returns, in order (None for a request that returned nothing).  A
// generator that would issue more requests than there are responses stops
// with OutOfResponses; that end stands for "the client went on answering".
//
// Two families exist.  Comment replies and the sound and hashtag video lists
// yield every item of each page and let exceptions escape.  The user's
// videos and liked videos cap the number of items, shrink the request size,
// and end quietly on any exception.

module Pagination {
  import opened Json

  /** The paging parameters of one API call. */
  datatype Request = Request(cursor: JSON, count: int)

  /** How a generator ends: it returned, it raised, or the modelled responses ran out. */
  datatype End = Returned | Raised(exc: Exc) | OutOfResponses

  /** What a consumer of the generator sees: the yielded raw items, the calls made, the end. */
  datatype Paging = Paging(items: seq<JSON>, requests: seq<Request>, end: End)

  /** Items and calls made before the rest of the run. */
  function After(items: seq<JSON>, reqs: seq<Request>, rest: Paging): Paging
  {
    Paging(items + rest.items, reqs + rest.requests, rest.end)
  }

  /** `resp.get(key, [])`, walked by a `for` loop. */
  function PageOf(resp: JSON, key: string): (r: Outcome<seq<JSON>>)
    ensures r.Raise? <==> !resp.JObj? || Iter(LookupOr(resp.members, key, JArr([]))).Raise?
    ensures r.Raise? ==> r.exc == AttributeError || r.exc == TypeError
    ensures resp.JObj? && key !in Keys(resp.members) ==> r == Ok([])
    ensures resp.JObj? && Lookup(resp.members, key).Some? && Lookup(resp.members, key).value.JArr? ==>
              r == Ok(Lookup(resp.members, key).value.items)
  {
    var v :- Get(resp, key, JArr([]));
    match Iter(v)
    case Ok(items) => Ok(items)
    case Raise(_) => Raise(TypeError)
  }

  /** The items of one response as the loop sees them; none when the response is missing or unreadable. */
  function ItemsOf(r: Option<JSON>, key: string): seq<JSON>
  {
    if r.Some? && PageOf(r.value, key).Ok? then PageOf(r.value, key).value else []
  }

  /** What a loop reads as the page of a response. */
  type View = Option<JSON> -> seq<JSON>

  /** The view of the whole-page and capped loops: the items under `key`. */
  function ItemsView(key: string): View
  {
    (r: Option<JSON>) => ItemsOf(r, key)
  }

  /** The pages of consecutive responses, concatenated. */
  function Pages(rs: seq<Option<JSON>>, view: View): seq<JSON>
    decreases |rs|
  {
    if rs == [] then [] else view(rs[0]) + Pages(rs[1..], view)
  }

  lemma {:induction false} PagesConcat(a: seq<Option<JSON>>, b: seq<Option<JSON>>, view: View)
    ensures Pages(a + b, view) == Pages(a, view) + Pages(b, view)
    decreases |a|
  {
    if a == [] {
      assert a + b == b;
    } else {
      assert (a + b)[1..] == a[1..] + b;
      PagesConcat(a[1..], b, view);
    }
  }

  /** `not resp.get(key, False)` on a response known to be a dict. */
  predicate NoMore(resp: JSON, key: string)
    requires resp.JObj?
  {
    !Truthy(LookupOr(resp.members, key, JBool(false)))
  }

  // ---------------------------------------------------------------------
  // The loop shared by every generator

  /** What one round of a loop does after its call: end the generator, or go on with a new cursor. */
  datatype Round = Stop(items: seq<JSON>, end: End) | Go(page: seq<JSON>, next: JSON)

  /** The items a round yields. */
  function Yielded(round: Round): seq<JSON>
  {
    match round
    case Stop(items, _) => items
    case Go(page, _) => page
  }

  /** A loop body after its call, from the items found so far, `count`, the cursor sent and the response. */
  type RoundFn = (int, int, JSON, Option<JSON>) -> Round

  /**
   * A generator from a state of its `while found < count` loop: `found`
   * items so far, the cursor of the next call, the responses still to come.
   * `size` gives the count parameter of a call from the number still wanted.
   */
  function Run(round: RoundFn, size: int -> int, found: int, count: int, cursor: JSON, hasClient: bool,
               rs: seq<Option<JSON>>): Paging
    decreases |rs|
  {
    if found >= count || !hasClient then Paging([], [], Returned)
    else if rs == [] then Paging([], [], OutOfResponses)
    else
      var req := Request(cursor, size(count - found));
      var r := round(found, count, cursor, rs[0]);
      if r.Stop? then Paging(r.items, [req], r.end)
      else After(r.page, [req], Run(round, size, found + |r.page|, count, r.next, hasClient, rs[1..]))
  }

  /** Run at a state where the loop makes its call. */
  lemma RunUnfold(round: RoundFn, size: int -> int, found: int, count: int, cursor: JSON, hasClient: bool,
                  rs: seq<Option<JSON>>)
    requires found < count && hasClient && rs != []
    ensures var req := Request(cursor, size(count - found));
            var r := round(found, count, cursor, rs[0]);
            Run(round, size, found, count, cursor, hasClient, rs) ==
              if r.Stop? then Paging(r.items, [req], r.end)
              else After(r.page, [req], Run(round, size, found + |r.page|, count, r.next, hasClient, rs[1..]))
  {
  }

  lemma AfterAssoc(a: seq<JSON>, ra: seq<Request>, b: seq<JSON>, rb: seq<Request>, p: Paging)
    ensures After(a, ra, After(b, rb, p)) == After(a + b, ra + rb, p)
  {
    assert a + (b + p.items) == (a + b) + p.items;
    assert ra + (rb + p.requests) == (ra + rb) + p.requests;
  }

  /**
   * One pass of a loop body: after round `r` of the call made at this state,
   * what was seen plus the rest of the run is still the whole run, or, when
   * `r` stops, is the whole run.
   */
  lemma RunStep(round: RoundFn, size: int -> int, found: int, count: int, cursor: JSON, hasClient: bool,
                rs: seq<Option<JSON>>, items: seq<JSON>, reqs: seq<Request>, target: Paging,
                r: Round, items': seq<JSON>, found': int, reqs': seq<Request>)
    requires found < count && hasClient && rs != []
    requires After(items, reqs, Run(round, size, found, count, cursor, hasClient, rs)) == target
    requires r == round(found, count, cursor, rs[0])
    requires items' == items + Yielded(r) && found' == found + |Yielded(r)|
    requires reqs' == reqs + [Request(cursor, size(count - found))]
    ensures r.Go? ==> After(items', reqs', Run(round, size, found', count, r.next, hasClient, rs[1..])) == target
    ensures r.Stop? ==> Paging(items', reqs', r.end) == target
  {
    RunUnfold(round, size, found, count, cursor, hasClient, rs);
    if r.Go? {
      AfterAssoc(items, reqs, r.page, [Request(cursor, size(count - found))],
                 Run(round, size, found', count, r.next, hasClient, rs[1..]));
    }
  }

  /** The inner `for` loop of the whole-page generators: each item is yielded and counted. */
  method YieldAll(items: seq<JSON>, found: int, page: seq<JSON>) returns (items': seq<JSON>, found': int)
    ensures items' == items + page && found' == found + |page|
  {
    items', found' := items, found;
    var j := 0;
    while j < |page|
      invariant 0 <= j <= |page|
      invariant items' == items + page[..j] && found' == found + j
    {
      items' := items' + [page[j]];
      found' := found' + 1;
      j := j + 1;
    }
    assert page[..j] == page;
  }

  /** The number of items yielded before call `k`, when every earlier round went on with its whole page. */
  function FoundAt(found: int, rs: seq<Option<JSON>>, view: View, k: nat): int
    requires k <= |rs|
  {
    found + |Pages(rs[..k], view)|
  }

  lemma FoundShift(found: int, rs: seq<Option<JSON>>, view: View, k: nat)
    requires 1 <= k <= |rs|
    ensures FoundAt(found, rs, view, k) == FoundAt(found + |view(rs[0])|, rs[1..], view, k - 1)
  {
    var t := rs[..k];
    assert t[0] == rs[0] && t[1..] == rs[1..][..k - 1];
  }

  /** A round that goes on yields the whole page of its response. */
  ghost predicate GoesOnWithPage(round: RoundFn, view: View)
  {
    forall f, c, cur, r :: round(f, c, cur, r).Go? ==> round(f, c, cur, r).page == view(r)
  }

  /**
   * The calls a generator makes: no more than there are responses, each only
   * while fewer than `count` items have been yielded, each sized from the
   * number still wanted, the first with the initial cursor and every later one
   * with the cursor its predecessor's round went on with.
   */
  lemma {:induction false} RunCalls(round: RoundFn, size: int -> int, view: View, found: int, count: int,
                                    cursor: JSON, hasClient: bool, rs: seq<Option<JSON>>)
    requires GoesOnWithPage(round, view)
    ensures var p := Run(round, size, found, count, cursor, hasClient, rs);
            var n := |p.requests|;
            n <= |rs| &&
            (n > 0 ==> p.requests[0].cursor == cursor) &&
            (forall k :: 0 <= k < n ==>
               FoundAt(found, rs, view, k) < count && p.requests[k].count == size(count - FoundAt(found, rs, view, k))) &&
            (forall k :: 0 <= k < n - 1 ==>
               round(FoundAt(found, rs, view, k), count, p.requests[k].cursor, rs[k]).Go? &&
               p.requests[k + 1].cursor == round(FoundAt(found, rs, view, k), count, p.requests[k].cursor, rs[k]).next)
  {
    var p := Run(round, size, found, count, cursor, hasClient, rs);
    RunBound(round, size, found, count, cursor, hasClient, rs);
    forall k | 0 <= k < |p.requests|
      ensures FoundAt(found, rs, view, k) < count && p.requests[k].count == size(count - FoundAt(found, rs, view, k))
    {
      RunCallAt(round, size, view, found, count, cursor, hasClient, rs, k);
      assert CallFacts(round, size, view, found, count, cursor, rs, p, k);
    }
    forall k | 0 <= k < |p.requests| - 1
      ensures round(FoundAt(found, rs, view, k), count, p.requests[k].cursor, rs[k]).Go? &&
              p.requests[k + 1].cursor == round(FoundAt(found, rs, view, k), count, p.requests[k].cursor, rs[k]).next
    {
      RunCallAt(round, size, view, found, count, cursor, hasClient, rs, k);
      assert CallFacts(round, size, view, found, count, cursor, rs, p, k);
    }
    if |p.requests| > 0 {
      RunCallAt(round, size, view, found, count, cursor, hasClient, rs, 0);
      assert CallFacts(round, size, view, found, count, cursor, rs, p, 0);
    }
  }


  /** Call `k` of the paging `p` of a run, and how the round after it links to call `k + 1`. */
  ghost predicate CallFacts(round: RoundFn, size: int -> int, view: View, found: int, count: int,
                            cursor: JSON, rs: seq<Option<JSON>>, p: Paging, k: nat)
  {
    k < |rs| && k < |p.requests| <= |rs| &&
    FoundAt(found, rs, view, k) < count && p.requests[k].count == size(count - FoundAt(found, rs, view, k)) &&
    (k == 0 ==> p.requests[0].cursor == cursor) &&
    (k + 1 < |p.requests| ==>
       round(FoundAt(found, rs, view, k), count, p.requests[k].cursor, rs[k]).Go? &&
       p.requests[k + 1].cursor == round(FoundAt(found, rs, view, k), count, p.requests[k].cursor, rs[k]).next)
  }

  /** A run makes no more calls than there are responses. */
  lemma {:induction false} RunBound(round: RoundFn, size: int -> int, found: int, count: int,
                                    cursor: JSON, hasClient: bool, rs: seq<Option<JSON>>)
    ensures |Run(round, size, found, count, cursor, hasClient, rs).requests| <= |rs|
    decreases |rs|
  {
    if found < count && hasClient && rs != [] {
      RunUnfold(round, size, found, count, cursor, hasClient, rs);
      var r := round(found, count, cursor, rs[0]);
      if r.Go? {
        RunBound(round, size, found + |r.page|, count, r.next, hasClient, rs[1..]);
      }
    }
  }

  /** CallFacts carries over from call `k - 1` of the rest of a run to call `k` of the run. */
  lemma CallFactsShift(round: RoundFn, size: int -> int, view: View, found: int, count: int, cursor: JSON,
                       rs: seq<Option<JSON>>, r: Round, req: Request, rest: Paging, p: Paging, k: nat)
    requires rs != [] && r.Go? && r.page == view(rs[0])
    requires p == After(r.page, [req], rest) && 0 < k
    requires CallFacts(round, size, view, found + |r.page|, count, r.next, rs[1..], rest, k - 1)
    ensures CallFacts(round, size, view, found, count, cursor, rs, p, k)
  {
    FoundShift(found, rs, view, k);
    assert rs[k] == rs[1..][k - 1];
    assert p.requests[k] == rest.requests[k - 1];
    if k + 1 < |p.requests| {
      assert p.requests[k + 1] == rest.requests[k];
    }
  }

  /** Call `k` of a run, and how the round after it links to call `k + 1`. */
  lemma {:induction false} RunCallAt(round: RoundFn, size: int -> int, view: View, found: int, count: int,
                                     cursor: JSON, hasClient: bool, rs: seq<Option<JSON>>, k: nat)
    requires GoesOnWithPage(round, view)
    requires k < |Run(round, size, found, count, cursor, hasClient, rs).requests|
    ensures CallFacts(round, size, view, found, count, cursor, rs, Run(round, size, found, count, cursor, hasClient, rs), k)
    decreases |rs|, 1
  {
    if k == 0 {
      RunCallFirst(round, size, view, found, count, cursor, hasClient, rs);
    } else {
      RunCallLater(round, size, view, found, count, cursor, hasClient, rs, k);
    }
  }

  /** RunCallAt for the first call. */
  lemma RunCallFirst(round: RoundFn, size: int -> int, view: View, found: int, count: int,
                                        cursor: JSON, hasClient: bool, rs: seq<Option<JSON>>)
    requires GoesOnWithPage(round, view)
    requires 0 < |Run(round, size, found, count, cursor, hasClient, rs).requests|
    ensures CallFacts(round, size, view, found, count, cursor, rs, Run(round, size, found, count, cursor, hasClient, rs), 0)
  {
    var p := Run(round, size, found, count, cursor, hasClient, rs);
    RunUnfold(round, size, found, count, cursor, hasClient, rs);
    RunBound(round, size, found, count, cursor, hasClient, rs);
    var r := round(found, count, cursor, rs[0]);
    var req := Request(cursor, size(count - found));
    if r.Go? {
      var rest := Run(round, size, found + |r.page|, count, r.next, hasClient, rs[1..]);
      assert p == After(r.page, [req], rest);
      RunFirstCursor(round, size, found + |r.page|, count, r.next, hasClient, rs[1..]);
      CallFirstShift(round, size, view, found, count, cursor, rs, r, req, rest, p);
    } else {
      assert p == Paging(r.items, [req], r.end);
      assert rs[..0] == [];
    }
  }

  /** A run's first call uses the cursor it starts with. */
  lemma RunFirstCursor(round: RoundFn, size: int -> int, found: int, count: int, cursor: JSON, hasClient: bool,
                       rs: seq<Option<JSON>>)
    ensures var p := Run(round, size, found, count, cursor, hasClient, rs);
            |p.requests| > 0 ==> p.requests[0].cursor == cursor
  {
  }

  /** CallFacts for the first call of a run whose first round `r` went on, from the cursor the rest starts with. */
  lemma CallFirstShift(round: RoundFn, size: int -> int, view: View, found: int, count: int, cursor: JSON,
                       rs: seq<Option<JSON>>, r: Round, req: Request, rest: Paging, p: Paging)
    requires rs != [] && found < count && r == round(found, count, cursor, rs[0]) && r.Go?
    requires req == Request(cursor, size(count - found)) && p == After(r.page, [req], rest) && |p.requests| <= |rs|
    requires |rest.requests| > 0 ==> rest.requests[0].cursor == r.next
    ensures CallFacts(round, size, view, found, count, cursor, rs, p, 0)
  {
    assert rs[..0] == [];
    assert FoundAt(found, rs, view, 0) == found;
    if 1 < |p.requests| {
      assert p.requests[1] == rest.requests[0];
    }
  }

  /** RunCallAt for a later call: the first round went on, and the call is one of the rest's. */
  lemma {:induction false} RunCallLater(round: RoundFn, size: int -> int, view: View, found: int, count: int,
                                        cursor: JSON, hasClient: bool, rs: seq<Option<JSON>>, k: nat)
    requires GoesOnWithPage(round, view)
    requires 0 < k < |Run(round, size, found, count, cursor, hasClient, rs).requests|
    ensures CallFacts(round, size, view, found, count, cursor, rs, Run(round, size, found, count, cursor, hasClient, rs), k)
    decreases |rs|, 0
  {
    var p := Run(round, size, found, count, cursor, hasClient, rs);
    RunUnfold(round, size, found, count, cursor, hasClient, rs);
    var r := round(found, count, cursor, rs[0]);
    assert r.Go?;
    assert r.page == view(rs[0]);
    var req := Request(cursor, size(count - found));
    var rest := Run(round, size, found + |r.page|, count, r.next, hasClient, rs[1..]);
    assert p == After(r.page, [req], rest);
    RunCallAt(round, size, view, found + |r.page|, count, r.next, hasClient, rs[1..], k - 1);
    CallFactsShift(round, size, view, found, count, cursor, rs, r, req, rest, p, k);
  }


  /** The n > 0 half of RunLast's contract for the paging `p`: its last round decides what is yielded last and how it ends. */
  ghost predicate LastFacts(round: RoundFn, view: View, found: int, count: int, rs: seq<Option<JSON>>, p: Paging)
  {
    var n := |p.requests|;
    0 < n <= |rs| &&
    var last := round(FoundAt(found, rs, view, n - 1), count, p.requests[n - 1].cursor, rs[n - 1]);
    p.items == Pages(rs[..n - 1], view) + Yielded(last) &&
    (last.Stop? ==> p.end == last.end) &&
    (last.Go? ==> (p.end == Returned && FoundAt(found, rs, view, n) >= count) ||
                  (p.end == OutOfResponses && n == |rs|))
  }

  /**
   * What the paging `p` of a run yields and how it ends: the whole pages of
   * the rounds that went on, then what its last round yielded.  A last round
   * that stopped decides the end; one that went on ends the loop because
   * `count` was reached or the modelled responses ran out.
   */
  ghost predicate RunLastFacts(round: RoundFn, view: View, found: int, count: int, hasClient: bool,
                               rs: seq<Option<JSON>>, p: Paging)
  {
    var n := |p.requests|;
    n <= |rs| &&
    (n == 0 ==> p.items == [] &&
                (found >= count || !hasClient ==> p.end == Returned) &&
                (found < count && hasClient ==> p.end == OutOfResponses && rs == [])) &&
    (n > 0 ==> LastFacts(round, view, found, count, rs, p))
  }

  /** What a generator yields and how it ends. */
  lemma {:induction false} RunLast(round: RoundFn, size: int -> int, view: View, found: int, count: int,
                                   cursor: JSON, hasClient: bool, rs: seq<Option<JSON>>)
    requires GoesOnWithPage(round, view)
    ensures RunLastFacts(round, view, found, count, hasClient, rs, Run(round, size, found, count, cursor, hasClient, rs))
    decreases |rs|
  {
    var p := Run(round, size, found, count, cursor, hasClient, rs);
    if found < count && hasClient && rs != [] {
      RunUnfold(round, size, found, count, cursor, hasClient, rs);
      var r := round(found, count, cursor, rs[0]);
      var req := Request(cursor, size(count - found));
      if r.Go? {
        assert r.page == view(rs[0]);
        var rest := Run(round, size, found + |r.page|, count, r.next, hasClient, rs[1..]);
        assert p == After(r.page, [req], rest);
        RunLast(round, size, view, found + |r.page|, count, r.next, hasClient, rs[1..]);
        RunLastShift(round, view, found, count, hasClient, rs, r, req, rest, p);
      } else {
        assert p == Paging(r.items, [req], r.end);
        assert rs[..0] == [];
        assert FoundAt(found, rs, view, 0) == found;
      }
    }
  }

  /** RunLastFacts carries over from the rest of a run to the run whose first round `r` went on. */
  lemma RunLastShift(round: RoundFn, view: View, found: int, count: int, hasClient: bool, rs: seq<Option<JSON>>,
                     r: Round, req: Request, rest: Paging, p: Paging)
    requires rs != [] && found < count && hasClient
    requires r == round(found, count, req.cursor, rs[0]) && r.Go? && r.page == view(rs[0])
    requires p == After(r.page, [req], rest)
    requires RunLastFacts(round, view, found + |r.page|, count, hasClient, rs[1..], rest)
    ensures RunLastFacts(round, view, found, count, hasClient, rs, p)
  {
    if |rest.requests| == 0 {
      assert rs[..0] == [];
      assert FoundAt(found, rs, view, 0) == found;
      FoundShift(found, rs, view, 1);
      assert rs[1..][..0] == [];
      assert p.requests[0] == req;
    } else {
      LastFactsShift(round, view, found, count, rs, r.page, req, rest, p);
    }
  }

  /** LastFacts carries over from the rest of a run to the run whose first round yielded `page`. */
  lemma LastFactsShift(round: RoundFn, view: View, found: int, count: int, rs: seq<Option<JSON>>,
                       page: seq<JSON>, req: Request, rest: Paging, p: Paging)
    requires rs != [] && page == view(rs[0])
    requires p == After(page, [req], rest) && |rest.requests| > 0
    requires LastFacts(round, view, found + |page|, count, rs[1..], rest)
    ensures LastFacts(round, view, found, count, rs, p)
  {
    var n := |p.requests|;
    var m := |rest.requests|;
    assert n == m + 1;
    FoundShift(found, rs, view, n - 1);
    FoundShift(found, rs, view, n);
    assert rs[n - 1] == rs[1..][m - 1];
    assert p.requests[n - 1] == rest.requests[m - 1];
    LaterItems(page, view, rs, m);
  }

  /** The pages before the last call, when the first page comes before the rest's. */
  lemma LaterItems(page: seq<JSON>, view: View, rs: seq<Option<JSON>>, m: nat)
    requires 0 < m < |rs| && page == view(rs[0])
    ensures Pages(rs[..m], view) == page + Pages(rs[1..][..m - 1], view)
  {
    assert rs[..m] == [rs[0]] + rs[1..][..m - 1];
    PagesConcat([rs[0]], rs[1..][..m - 1], view);
    assert Pages([rs[0]], view) == view(rs[0]);
  }

  /** The pages of the first `n` responses are those of the first `n - 1` and then the page of response `n - 1`. */
  lemma PagesSnoc(rs: seq<Option<JSON>>, n: nat, view: View)
    requires 0 < n <= |rs|
    ensures Pages(rs[..n], view) == Pages(rs[..n - 1], view) + view(rs[n - 1])
  {
    assert rs[..n] == rs[..n - 1] + [rs[n - 1]];
    PagesConcat(rs[..n - 1], [rs[n - 1]], view);
    assert Pages([rs[n - 1]], view) == view(rs[n - 1]);
  }

  /** Every round, whether it goes on or stops, yields exactly the page of its response. */
  ghost predicate YieldsWholePage(round: RoundFn, view: View)
  {
    forall f, c, cur, r :: Yielded(round(f, c, cur, r)) == view(r)
  }

  /** Every round yields a prefix of its page, cut only where the room left runs out. */
  ghost predicate YieldsCapped(round: RoundFn, view: View)
  {
    forall f, c, cur, r ::
      Yielded(round(f, c, cur, r)) <= view(r) &&
      |Yielded(round(f, c, cur, r))| <= Room(f, c) &&
      (|Yielded(round(f, c, cur, r))| < |view(r)| ==> |Yielded(round(f, c, cur, r))| == Room(f, c))
  }

  /** Every round that stops ends the generator with a return. */
  ghost predicate EndsQuietly(round: RoundFn)
  {
    forall f, c, cur, r :: round(f, c, cur, r).Stop? ==> round(f, c, cur, r).end == Returned
  }

  /** A run whose rounds yield whole pages yields the pages of the responses it read. */
  lemma RunWholeItems(round: RoundFn, size: int -> int, view: View, found: int, count: int,
                      cursor: JSON, hasClient: bool, rs: seq<Option<JSON>>)
    requires GoesOnWithPage(round, view) && YieldsWholePage(round, view)
    ensures var p := Run(round, size, found, count, cursor, hasClient, rs);
            |p.requests| <= |rs| && p.items == Pages(rs[..|p.requests|], view)
  {
    var p := Run(round, size, found, count, cursor, hasClient, rs);
    RunLast(round, size, view, found, count, cursor, hasClient, rs);
    assert RunLastFacts(round, view, found, count, hasClient, rs, p);
    var n := |p.requests|;
    if n == 0 {
      assert rs[..0] == [];
    } else {
      assert LastFacts(round, view, found, count, rs, p);
      PagesSnoc(rs, n, view);
    }
  }

  /** A run from nothing whose rounds yield capped pages yields a prefix of what it read, and never more than `count`. */
  lemma RunCappedItems(round: RoundFn, size: int -> int, view: View, count: int,
                       cursor: JSON, hasClient: bool, rs: seq<Option<JSON>>)
    requires GoesOnWithPage(round, view) && YieldsCapped(round, view)
    ensures var p := Run(round, size, 0, count, cursor, hasClient, rs);
            var n := |p.requests|;
            n <= |rs| &&
            var read := Pages(rs[..n], view);
            p.items <= read && (|p.items| < |read| ==> |p.items| == count) && |p.items| <= Room(0, count)
  {
    var p := Run(round, size, 0, count, cursor, hasClient, rs);
    RunLast(round, size, view, 0, count, cursor, hasClient, rs);
    assert RunLastFacts(round, view, 0, count, hasClient, rs, p);
    var n := |p.requests|;
    if n == 0 {
      assert rs[..0] == [];
    } else {
      RunCallAt(round, size, view, 0, count, cursor, hasClient, rs, n - 1);
      assert CallFacts(round, size, view, 0, count, cursor, rs, p, n - 1);
      assert LastFacts(round, view, 0, count, rs, p);
      var f := FoundAt(0, rs, view, n - 1);
      var y := Yielded(round(f, count, p.requests[n - 1].cursor, rs[n - 1]));
      assert y <= view(rs[n - 1]) && |y| <= Room(f, count) && (|y| < |view(rs[n - 1])| ==> |y| == Room(f, count));
      CappedLast(view, count, rs, n, p.items, y);
    }
  }

  /** The items of a capped run end with what its last round yielded, cut only where the room ran out. */
  lemma CappedLast(view: View, count: int, rs: seq<Option<JSON>>, n: nat, items: seq<JSON>, y: seq<JSON>)
    requires 0 < n <= |rs| && |Pages(rs[..n - 1], view)| < count
    requires items == Pages(rs[..n - 1], view) + y
    requires var f := |Pages(rs[..n - 1], view)|;
             y <= view(rs[n - 1]) && |y| <= Room(f, count) && (|y| < |view(rs[n - 1])| ==> |y| == Room(f, count))
    ensures var read := Pages(rs[..n], view);
            items <= read && (|items| < |read| ==> |items| == count) && |items| <= Room(0, count)
  {
    PagesSnoc(rs, n, view);
  }

  /** A run whose stopping rounds all return never raises. */
  lemma RunQuiet(round: RoundFn, size: int -> int, view: View, found: int, count: int,
                 cursor: JSON, hasClient: bool, rs: seq<Option<JSON>>)
    requires GoesOnWithPage(round, view) && EndsQuietly(round)
    ensures !Run(round, size, found, count, cursor, hasClient, rs).end.Raised?
  {
    var p := Run(round, size, found, count, cursor, hasClient, rs);
    RunLast(round, size, view, found, count, cursor, hasClient, rs);
    assert RunLastFacts(round, view, found, count, hasClient, rs, p);
    if |p.requests| > 0 {
      assert LastFacts(round, view, found, count, rs, p);
    }
  }

  // ---------------------------------------------------------------------
  // Whole pages: comment replies, sound videos, hashtag videos

  /** How the next cursor is read from a response. */
  datatype CursorRule =
    | IntOrZero   // int(resp.get("cursor") or 0)
    | NoneToZero  // resp.get("cursor", 0), with None replaced by 0

  /** The keys, fixed request size and cursor rule of one whole-page generator. */
  datatype PageRules = PageRules(itemsKey: string, moreKey: string, pageSize: int, cursorRule: CursorRule)

  function NextCursor(rule: CursorRule, resp: JSON): (r: Outcome<JSON>)
    requires resp.JObj?
    ensures r.Raise? ==> rule == IntOrZero && (r.exc == TypeError || r.exc == ValueError)
    ensures r.Ok? && rule == IntOrZero ==> r.value.JInt?
    ensures r.Ok? && rule == NoneToZero ==> r.value != JNull
    ensures rule == NoneToZero && "cursor" !in Keys(resp.members) ==> r == Ok(JInt(0))
    ensures rule == IntOrZero && !Truthy(LookupOr(resp.members, "cursor", JNull)) ==> r == Ok(JInt(0))
  {
    match rule
    case IntOrZero =>
      var c :- ToInt(Or(LookupOr(resp.members, "cursor", JNull), JInt(0)));
      Ok(JInt(c))
    case NoneToZero =>
      var c := LookupOr(resp.members, "cursor", JInt(0));
      Ok(if c == JNull then JInt(0) else c)
  }

  /**
   * One round of a whole-page loop: a missing response raises
   * InvalidResponse, the page is yielded in full, a falsy more-flag returns,
   * and otherwise the loop goes on with the cursor the response gives.
   */
  function WholeRound(rules: PageRules, r: Option<JSON>): Round
  {
    match r
    case None => Stop([], Raised(InvalidResponse))
    case Some(resp) =>
      match PageOf(resp, rules.itemsKey)
      case Raise(e) => Stop([], Raised(e))
      case Ok(page) =>
        if NoMore(resp, rules.moreKey) then Stop(page, Returned)
        else
          match NextCursor(rules.cursorRule, resp)
          case Raise(e) => Stop(page, Raised(e))
          case Ok(c) => Go(page, c)
  }

  function WholeFn(rules: PageRules): RoundFn
  {
    (f: int, c: int, cur: JSON, r: Option<JSON>) => WholeRound(rules, r)
  }

  function WholeSize(rules: PageRules): int -> int
  {
    (remaining: int) => rules.pageSize
  }

  /** A whole-page generator called with `count` and `cursor`, fed the responses `rs`. */
  function WholePages(rules: PageRules, count: int, cursor: int, hasClient: bool, rs: seq<Option<JSON>>): Paging
  {
    Run(WholeFn(rules), WholeSize(rules), 0, count, JInt(cursor), hasClient, rs)
  }

  /** The body of the whole-page loop after its call: yield the page, then decide. */
  method FetchWholeRound(rules: PageRules, r: Option<JSON>, items: seq<JSON>, found: int)
    returns (items': seq<JSON>, found': int, round: Round)
    ensures round == WholeRound(rules, r)
    ensures items' == items + Yielded(round) && found' == found + |Yielded(round)|
  {
    items', found' := items, found;
    if r.None? {
      return items', found', Stop([], Raised(InvalidResponse));
    }
    var resp := r.value;
    var page := PageOf(resp, rules.itemsKey);
    if page.Raise? {
      return items', found', Stop([], Raised(page.exc));
    }
    items', found' := YieldAll(items, found, page.value);
    if NoMore(resp, rules.moreKey) {
      return items', found', Stop(page.value, Returned);
    }
    var next := NextCursor(rules.cursorRule, resp);
    if next.Raise? {
      return items', found', Stop(page.value, Raised(next.exc));
    }
    round := Go(page.value, next.value);
  }

  /** The whole-page generator's loop. */
  method FetchWholePages(rules: PageRules, count: int, cursor0: int, hasClient: bool, rs: seq<Option<JSON>>)
    returns (p: Paging)
    ensures p == WholePages(rules, count, cursor0, hasClient, rs)
  {
    var found := 0;
    var cursor := JInt(cursor0);
    var items: seq<JSON> := [];
    var reqs: seq<Request> := [];
    var i := 0;
    ghost var target := WholePages(rules, count, cursor0, hasClient, rs);
    assert rs[0..] == rs;
    while found < count && hasClient
      invariant 0 <= i <= |rs|
      invariant After(items, reqs, Run(WholeFn(rules), WholeSize(rules), found, count, cursor, hasClient, rs[i..])) == target
      decreases |rs| - i
    {
      if i == |rs| {
        assert items + [] == items && reqs + [] == reqs;
        return Paging(items, reqs, OutOfResponses);
      }
      var stop;
      items, found, cursor, reqs, stop := WholeLoopBody(rules, count, hasClient, rs[i..], items, found, cursor, reqs, target);
      if stop.Some? {
        return Paging(items, reqs, stop.value);
      }
      i := i + 1;
    }
    assert items + [] == items && reqs + [] == reqs;
    return Paging(items, reqs, Returned);
  }


  /** One pass of the whole-page loop body: the call, the page, the decision. */
  method WholeLoopBody(rules: PageRules, count: int, hasClient: bool, rs: seq<Option<JSON>>, items: seq<JSON>,
                       found: int, cursor: JSON, reqs: seq<Request>, ghost target: Paging)
    returns (items': seq<JSON>, found': int, cursor': JSON, reqs': seq<Request>, stop: Option<End>)
    requires found < count && hasClient && rs != []
    requires After(items, reqs, Run(WholeFn(rules), WholeSize(rules), found, count, cursor, hasClient, rs)) == target
    ensures stop.None? ==>
              After(items', reqs', Run(WholeFn(rules), WholeSize(rules), found', count, cursor', hasClient, rs[1..])) == target
    ensures stop.Some? ==> Paging(items', reqs', stop.value) == target
  {
    var req := Request(cursor, rules.pageSize);
    assert WholeFn(rules)(found, count, cursor, rs[0]) == WholeRound(rules, rs[0]);
    assert WholeSize(rules)(count - found) == rules.pageSize;
    var round;
    items', found', round := FetchWholeRound(rules, rs[0], items, found);
    reqs' := reqs + [req];
    RunStep(WholeFn(rules), WholeSize(rules), found, count, cursor, hasClient, rs, items, reqs, target, round, items', found', reqs');
    cursor' := cursor;
    if round.Stop? {
      stop := Some(round.end);
    } else {
      stop := None;
      cursor' := round.next;
    }
  }

  // ---------------------------------------------------------------------
  // What a whole-page generator does

  /** A whole-page round yields exactly the page of its response, and goes on only on a dict saying there is more. */
  lemma WholeRoundFacts(rules: PageRules, r: Option<JSON>)
    ensures Yielded(WholeRound(rules, r)) == ItemsOf(r, rules.itemsKey)
    ensures WholeRound(rules, r).Go? <==>
              r.Some? && PageOf(r.value, rules.itemsKey).Ok? && !NoMore(r.value, rules.moreKey) &&
              NextCursor(rules.cursorRule, r.value).Ok?
    ensures WholeRound(rules, r).Go? ==> WholeRound(rules, r).next == NextCursor(rules.cursorRule, r.value).value
    ensures WholeRound(rules, r).Stop? && WholeRound(rules, r).end == Returned ==>
              r.Some? && r.value.JObj? && NoMore(r.value, rules.moreKey)
    ensures WholeRound(rules, r).Stop? && WholeRound(rules, r).end == Raised(InvalidResponse) <==> r.None?
  {
  }

  lemma WholeYields(rules: PageRules)
    ensures GoesOnWithPage(WholeFn(rules), ItemsView(rules.itemsKey))
    ensures YieldsWholePage(WholeFn(rules), ItemsView(rules.itemsKey))
  {
    forall f, c, cur, r
      ensures Yielded(WholeFn(rules)(f, c, cur, r)) == ItemsView(rules.itemsKey)(r)
    {
      WholeRoundFacts(rules, r);
    }
    WholeGoesOn(rules);
  }

  lemma WholeGoesOn(rules: PageRules)
    ensures GoesOnWithPage(WholeFn(rules), ItemsView(rules.itemsKey))
  {
    forall f, c, cur, r | WholeFn(rules)(f, c, cur, r).Go?
      ensures WholeFn(rules)(f, c, cur, r).page == ItemsView(rules.itemsKey)(r)
    {
      WholeRoundFacts(rules, r);
    }
  }

  /**
   * Whole pages: every item of every response read is yielded, in order, so
   * the total can exceed `count` by up to a page.
   */
  lemma WholePagesItems(rules: PageRules, count: int, cursor: int, hasClient: bool, rs: seq<Option<JSON>>)
    ensures var p := WholePages(rules, count, cursor, hasClient, rs);
            |p.requests| <= |rs| && p.items == Pages(rs[..|p.requests|], ItemsView(rules.itemsKey))
  {
    WholeYields(rules);
    RunWholeItems(WholeFn(rules), WholeSize(rules), ItemsView(rules.itemsKey), 0, count, JInt(cursor), hasClient, rs);
  }


  /**
   * The calls of a whole-page generator: each asks for the fixed page size
   * and is made only while fewer than `count` items were yielded; the first
   * uses the initial cursor, and each later one follows a dict response that
   * said there was more and uses the cursor read from it.
   */
  lemma WholePagesCalls(rules: PageRules, count: int, cursor: int, hasClient: bool, rs: seq<Option<JSON>>)
    ensures var p := WholePages(rules, count, cursor, hasClient, rs);
            var n := |p.requests|;
            n <= |rs| &&
            (n > 0 ==> p.requests[0].cursor == JInt(cursor)) &&
            (forall k :: 0 <= k < n ==>
               p.requests[k].count == rules.pageSize && |Pages(rs[..k], ItemsView(rules.itemsKey))| < count) &&
            (forall k :: 0 <= k < n - 1 ==>
               rs[k].Some? && rs[k].value.JObj? && !NoMore(rs[k].value, rules.moreKey) &&
               NextCursor(rules.cursorRule, rs[k].value) == Ok(p.requests[k + 1].cursor))
  {
    var p := WholePages(rules, count, cursor, hasClient, rs);
    RunBound(WholeFn(rules), WholeSize(rules), 0, count, JInt(cursor), hasClient, rs);
    forall k | 0 <= k < |p.requests|
      ensures p.requests[k].count == rules.pageSize && |Pages(rs[..k], ItemsView(rules.itemsKey))| < count
    {
      WholeCallAt(rules, count, cursor, hasClient, rs, k);
    }
    forall k | 0 <= k < |p.requests| - 1
      ensures rs[k].Some? && rs[k].value.JObj? && !NoMore(rs[k].value, rules.moreKey) &&
              NextCursor(rules.cursorRule, rs[k].value) == Ok(p.requests[k + 1].cursor)
    {
      WholeCallAt(rules, count, cursor, hasClient, rs, k);
    }
    if |p.requests| > 0 {
      WholeCallAt(rules, count, cursor, hasClient, rs, 0);
    }
  }

  /** Call `k` of a whole-page generator, and the response that let it make call `k + 1`. */
  lemma WholeCallAt(rules: PageRules, count: int, cursor: int, hasClient: bool, rs: seq<Option<JSON>>, k: nat)
    requires k < |WholePages(rules, count, cursor, hasClient, rs).requests|
    ensures var p := WholePages(rules, count, cursor, hasClient, rs);
            k < |rs| &&
            p.requests[k].count == rules.pageSize && |Pages(rs[..k], ItemsView(rules.itemsKey))| < count &&
            (k == 0 ==> p.requests[0].cursor == JInt(cursor)) &&
            (k + 1 < |p.requests| ==>
               rs[k].Some? && rs[k].value.JObj? && !NoMore(rs[k].value, rules.moreKey) &&
               NextCursor(rules.cursorRule, rs[k].value) == Ok(p.requests[k + 1].cursor))
  {
    var view := ItemsView(rules.itemsKey);
    var p := WholePages(rules, count, cursor, hasClient, rs);
    WholeGoesOn(rules);
    RunCallAt(WholeFn(rules), WholeSize(rules), view, 0, count, JInt(cursor), hasClient, rs, k);
    assert CallFacts(WholeFn(rules), WholeSize(rules), view, 0, count, JInt(cursor), rs, p, k);
    WholeRoundFacts(rules, rs[k]);
    assert WholeFn(rules)(FoundAt(0, rs, view, k), count, p.requests[k].cursor, rs[k]) == WholeRound(rules, rs[k]);
  }


  /**
   * How a whole-page generator ends: InvalidResponse exactly when the last
   * call returned nothing; a return after a call only on a response saying
   * there is no more, or once `count` items were yielded; nothing at all
   * without a client or with a `count` of 0 or less.
   */
  lemma WholePagesEnd(rules: PageRules, count: int, cursor: int, hasClient: bool, rs: seq<Option<JSON>>)
    ensures var p := WholePages(rules, count, cursor, hasClient, rs);
            var n := |p.requests|;
            n <= |rs| &&
            (p.end == Raised(InvalidResponse) <==> n > 0 && rs[n - 1].None?) &&
            (p.end == Returned && n > 0 ==>
               (rs[n - 1].Some? && rs[n - 1].value.JObj? && NoMore(rs[n - 1].value, rules.moreKey)) ||
               |p.items| >= count) &&
            (!hasClient || count <= 0 ==> p == Paging([], [], Returned))
  {
    var view := ItemsView(rules.itemsKey);
    var p := WholePages(rules, count, cursor, hasClient, rs);
    WholeGoesOn(rules);
    RunLast(WholeFn(rules), WholeSize(rules), view, 0, count, JInt(cursor), hasClient, rs);
    assert RunLastFacts(WholeFn(rules), view, 0, count, hasClient, rs, p);
    WholePagesItems(rules, count, cursor, hasClient, rs);
    var n := |p.requests|;
    if n > 0 {
      assert LastFacts(WholeFn(rules), view, 0, count, rs, p);
      var last := WholeFn(rules)(FoundAt(0, rs, view, n - 1), count, p.requests[n - 1].cursor, rs[n - 1]);
      WholeRoundFacts(rules, rs[n - 1]);
      assert last == WholeRound(rules, rs[n - 1]);
      if last.Go? {
        assert rs[n - 1].Some?;
        assert FoundAt(0, rs, view, n) == |p.items|;
      }
    }
  }

  // ---------------------------------------------------------------------
  // Capped pages: a user's videos and liked videos

  const UserItemsKey: string := "itemList"
  const UserMoreKey: string := "hasMore"

  /** The count parameter of each call: at most 35 and no more than still wanted, or always 30. */
  datatype SizeRule = UpToThirtyFive | Thirty

  function RequestSize(rule: SizeRule, remaining: int): int
  {
    if rule == Thirty then 30 else if remaining < 35 then remaining else 35
  }

  function CappedSize(rule: SizeRule): int -> int
  {
    (remaining: int) => RequestSize(rule, remaining)
  }

  /** How many more items the generator may yield. */
  function Room(found: int, count: int): nat
  {
    if found < count then count - found else 0
  }

  /** `cursor + n`: only a number (or a bool) can be added to. */
  function AddLength(cursor: JSON, n: nat): (r: Outcome<JSON>)
    ensures r.Raise? <==> !(cursor.JInt? || cursor.JBool?)
    ensures r.Raise? ==> r.exc == TypeError
    ensures cursor.JInt? ==> r == Ok(JInt(cursor.i + n))
  {
    match cursor
    case JInt(i) => Ok(JInt(i + n))
    case JBool(b) => Ok(JInt((if b then 1 else 0) + n))
    case _ => Raise(TypeError)
  }

  /**
   * `resp.get("cursor", cursor + len(items))`: the default is computed even
   * when the response has a cursor, so a cursor that cannot be added to
   * raises whatever the response says.
   */
  function Advance(resp: JSON, cursor: JSON, n: nat): (r: Outcome<JSON>)
    requires resp.JObj?
    ensures r.Ok? <==> AddLength(cursor, n).Ok?
    ensures r.Ok? && "cursor" in Keys(resp.members) ==> Lookup(resp.members, "cursor") == Some(r.value)
    ensures r.Ok? && "cursor" !in Keys(resp.members) ==> r == AddLength(cursor, n)
  {
    var default :- AddLength(cursor, n);
    Ok(LookupOr(resp.members, "cursor", default))
  }

  /**
   * One round of a capped loop: items are yielded while fewer than `count`
   * were; a missing response, a falsy more-flag and any exception end the
   * generator quietly; otherwise it goes on with the advanced cursor.
   */
  function CappedRound(found: int, count: int, cursor: JSON, r: Option<JSON>): Round
  {
    match r
    case None => Stop([], Returned)
    case Some(resp) =>
      match PageOf(resp, UserItemsKey)
      case Raise(_) => Stop([], Returned)
      case Ok(page) =>
        if |page| > count - found then Stop(page[..Room(found, count)], Returned)
        else if NoMore(resp, UserMoreKey) then Stop(page, Returned)
        else
          match Advance(resp, cursor, |page|)
          case Raise(_) => Stop(page, Returned)
          case Ok(c) => Go(page, c)
  }

  function CappedFn(): RoundFn
  {
    (f: int, c: int, cur: JSON, r: Option<JSON>) => CappedRound(f, c, cur, r)
  }

  /** A capped generator called with `count` and `cursor`, fed the responses `rs`. */
  function CappedPages(rule: SizeRule, count: int, cursor: int, hasClient: bool, rs: seq<Option<JSON>>): Paging
  {
    Run(CappedFn(), CappedSize(rule), 0, count, JInt(cursor), hasClient, rs)
  }

  /** The inner loop of the capped generators: `if found >= count: return` before each yield. */
  method YieldCapped(items: seq<JSON>, found: int, count: int, page: seq<JSON>)
    returns (items': seq<JSON>, found': int, cut: bool)
    requires found < count
    ensures cut <==> |page| > count - found
    ensures items' == items + (if cut then page[..count - found] else page)
    ensures found' == found + (if cut then count - found else |page|)
  {
    items', found' := items, found;
    var j := 0;
    while j < |page|
      invariant 0 <= j <= |page| && j <= count - found
      invariant items' == items + page[..j] && found' == found + j
    {
      if found' >= count {
        return items', found', true;
      }
      items' := items' + [page[j]];
      found' := found' + 1;
      j := j + 1;
    }
    assert page[..j] == page;
    cut := false;
  }

  /** The body of the capped loop after its call. */
  method FetchCappedRound(found: int, count: int, cursor: JSON, r: Option<JSON>, items: seq<JSON>)
    returns (items': seq<JSON>, found': int, round: Round)
    requires found < count
    ensures round == CappedRound(found, count, cursor, r)
    ensures items' == items + Yielded(round) && found' == found + |Yielded(round)|
  {
    items', found' := items, found;
    if r.None? {
      return items', found', Stop([], Returned);
    }
    var resp := r.value;
    var page := PageOf(resp, UserItemsKey);
    if page.Raise? {
      return items', found', Stop([], Returned);
    }
    var cut;
    items', found', cut := YieldCapped(items, found, count, page.value);
    if cut {
      return items', found', Stop(page.value[..Room(found, count)], Returned);
    }
    if NoMore(resp, UserMoreKey) {
      return items', found', Stop(page.value, Returned);
    }
    var next := Advance(resp, cursor, |page.value|);
    if next.Raise? {
      return items', found', Stop(page.value, Returned);
    }
    round := Go(page.value, next.value);
  }

  /** The capped generators' loop. */
  method FetchCappedPages(rule: SizeRule, count: int, cursor0: int, hasClient: bool, rs: seq<Option<JSON>>)
    returns (p: Paging)
    ensures p == CappedPages(rule, count, cursor0, hasClient, rs)
  {
    var found := 0;
    var cursor := JInt(cursor0);
    var items: seq<JSON> := [];
    var reqs: seq<Request> := [];
    var i := 0;
    ghost var target := CappedPages(rule, count, cursor0, hasClient, rs);
    assert rs[0..] == rs;
    while found < count && hasClient
      invariant 0 <= i <= |rs|
      invariant After(items, reqs, Run(CappedFn(), CappedSize(rule), found, count, cursor, hasClient, rs[i..])) == target
      decreases |rs| - i
    {
      if i == |rs| {
        assert items + [] == items && reqs + [] == reqs;
        return Paging(items, reqs, OutOfResponses);
      }
      var stop;
      items, found, cursor, reqs, stop := CappedLoopBody(rule, count, hasClient, rs[i..], items, found, cursor, reqs, target);
      if stop.Some? {
        return Paging(items, reqs, stop.value);
      }
      i := i + 1;
    }
    assert items + [] == items && reqs + [] == reqs;
    return Paging(items, reqs, Returned);
  }


  /** One pass of the capped loop body: the sized call, the capped page, the decision. */
  method CappedLoopBody(rule: SizeRule, count: int, hasClient: bool, rs: seq<Option<JSON>>, items: seq<JSON>,
                        found: int, cursor: JSON, reqs: seq<Request>, ghost target: Paging)
    returns (items': seq<JSON>, found': int, cursor': JSON, reqs': seq<Request>, stop: Option<End>)
    requires found < count && hasClient && rs != []
    requires After(items, reqs, Run(CappedFn(), CappedSize(rule), found, count, cursor, hasClient, rs)) == target
    ensures stop.None? ==>
              After(items', reqs', Run(CappedFn(), CappedSize(rule), found', count, cursor', hasClient, rs[1..])) == target
    ensures stop.Some? ==> Paging(items', reqs', stop.value) == target
  {
    var req := Request(cursor, RequestSize(rule, count - found));
    assert CappedFn()(found, count, cursor, rs[0]) == CappedRound(found, count, cursor, rs[0]);
    assert CappedSize(rule)(count - found) == RequestSize(rule, count - found);
    var round;
    items', found', round := FetchCappedRound(found, count, cursor, rs[0], items);
    reqs' := reqs + [req];
    RunStep(CappedFn(), CappedSize(rule), found, count, cursor, hasClient, rs, items, reqs, target, round, items', found', reqs');
    cursor' := cursor;
    if round.Stop? {
      stop := Some(round.end);
    } else {
      stop := None;
      cursor' := round.next;
    }
  }

  // ---------------------------------------------------------------------
  // What a capped generator does

  lemma CappedRoundFacts(found: int, count: int, cursor: JSON, r: Option<JSON>)
    ensures var round := CappedRound(found, count, cursor, r);
            Yielded(round) <= ItemsOf(r, UserItemsKey) &&
            |Yielded(round)| <= Room(found, count) &&
            (|Yielded(round)| < |ItemsOf(r, UserItemsKey)| ==> |Yielded(round)| == Room(found, count)) &&
            (round.Stop? ==> round.end == Returned) &&
            (round.Go? <==>
               r.Some? && PageOf(r.value, UserItemsKey).Ok? && |ItemsOf(r, UserItemsKey)| <= count - found &&
               !NoMore(r.value, UserMoreKey) && Advance(r.value, cursor, |ItemsOf(r, UserItemsKey)|).Ok?) &&
            (round.Go? ==>
               round.page == ItemsOf(r, UserItemsKey) &&
               Advance(r.value, cursor, |ItemsOf(r, UserItemsKey)|) == Ok(round.next))
  {
  }

  lemma CappedYields()
    ensures GoesOnWithPage(CappedFn(), ItemsView(UserItemsKey))
    ensures YieldsCapped(CappedFn(), ItemsView(UserItemsKey))
    ensures EndsQuietly(CappedFn())
  {
    forall f, c, cur, r
      ensures var y := Yielded(CappedFn()(f, c, cur, r));
              y <= ItemsView(UserItemsKey)(r) && |y| <= Room(f, c) &&
              (|y| < |ItemsView(UserItemsKey)(r)| ==> |y| == Room(f, c))
      ensures CappedFn()(f, c, cur, r).Stop? ==> CappedFn()(f, c, cur, r).end == Returned
    {
      CappedRoundFacts(f, c, cur, r);
    }
    CappedGoesOn();
  }

  lemma CappedGoesOn()
    ensures GoesOnWithPage(CappedFn(), ItemsView(UserItemsKey))
  {
    forall f, c, cur, r | CappedFn()(f, c, cur, r).Go?
      ensures CappedFn()(f, c, cur, r).page == ItemsView(UserItemsKey)(r)
    {
      CappedRoundFacts(f, c, cur, r);
    }
  }

  /**
   * The calls of a capped generator: each made only while fewer than `count`
   * items were yielded and sized from the number still wanted; the first
   * with the initial cursor, each later one after a dict response that said
   * there was more, with the cursor advanced from it.
   */
  lemma CappedPagesCalls(rule: SizeRule, count: int, cursor: int, hasClient: bool, rs: seq<Option<JSON>>)
    ensures var p := CappedPages(rule, count, cursor, hasClient, rs);
            var n := |p.requests|;
            n <= |rs| &&
            (n > 0 ==> p.requests[0].cursor == JInt(cursor)) &&
            (forall k :: 0 <= k < n ==>
               var wanted := count - |Pages(rs[..k], ItemsView(UserItemsKey))|;
               wanted > 0 && p.requests[k].count == RequestSize(rule, wanted) &&
               (rule == UpToThirtyFive ==> 1 <= p.requests[k].count <= 35 && p.requests[k].count <= wanted)) &&
            (forall k :: 0 <= k < n - 1 ==>
               rs[k].Some? && rs[k].value.JObj? && !NoMore(rs[k].value, UserMoreKey) &&
               Advance(rs[k].value, p.requests[k].cursor, |ItemsOf(rs[k], UserItemsKey)|) == Ok(p.requests[k + 1].cursor))
  {
    var p := CappedPages(rule, count, cursor, hasClient, rs);
    RunBound(CappedFn(), CappedSize(rule), 0, count, JInt(cursor), hasClient, rs);
    forall k | 0 <= k < |p.requests|
      ensures var wanted := count - |Pages(rs[..k], ItemsView(UserItemsKey))|;
              wanted > 0 && p.requests[k].count == RequestSize(rule, wanted) &&
              (rule == UpToThirtyFive ==> 1 <= p.requests[k].count <= 35 && p.requests[k].count <= wanted)
    {
      CappedCallAt(rule, count, cursor, hasClient, rs, k);
    }
    forall k | 0 <= k < |p.requests| - 1
      ensures rs[k].Some? && rs[k].value.JObj? && !NoMore(rs[k].value, UserMoreKey) &&
              Advance(rs[k].value, p.requests[k].cursor, |ItemsOf(rs[k], UserItemsKey)|) == Ok(p.requests[k + 1].cursor)
    {
      CappedCallAt(rule, count, cursor, hasClient, rs, k);
    }
    if |p.requests| > 0 {
      CappedCallAt(rule, count, cursor, hasClient, rs, 0);
    }
  }

  /** Call `k` of a capped generator, and the response that let it make call `k + 1`. */
  lemma CappedCallAt(rule: SizeRule, count: int, cursor: int, hasClient: bool, rs: seq<Option<JSON>>, k: nat)
    requires k < |CappedPages(rule, count, cursor, hasClient, rs).requests|
    ensures var p := CappedPages(rule, count, cursor, hasClient, rs);
            k < |rs| &&
            var wanted := count - |Pages(rs[..k], ItemsView(UserItemsKey))|;
            wanted > 0 && p.requests[k].count == RequestSize(rule, wanted) &&
            (rule == UpToThirtyFive ==> 1 <= p.requests[k].count <= 35 && p.requests[k].count <= wanted) &&
            (k == 0 ==> p.requests[0].cursor == JInt(cursor)) &&
            (k + 1 < |p.requests| ==>
               rs[k].Some? && rs[k].value.JObj? && !NoMore(rs[k].value, UserMoreKey) &&
               Advance(rs[k].value, p.requests[k].cursor, |ItemsOf(rs[k], UserItemsKey)|) == Ok(p.requests[k + 1].cursor))
  {
    var view := ItemsView(UserItemsKey);
    var p := CappedPages(rule, count, cursor, hasClient, rs);
    CappedGoesOn();
    RunCallAt(CappedFn(), CappedSize(rule), view, 0, count, JInt(cursor), hasClient, rs, k);
    assert CallFacts(CappedFn(), CappedSize(rule), view, 0, count, JInt(cursor), rs, p, k);
    var f := FoundAt(0, rs, view, k);
    assert p.requests[k].count == CappedSize(rule)(count - f);
    CappedRoundFacts(f, count, p.requests[k].cursor, rs[k]);
    assert CappedFn()(f, count, p.requests[k].cursor, rs[k]) == CappedRound(f, count, p.requests[k].cursor, rs[k]);
  }


  /**
   * What a capped generator yields: a prefix of the pages it read, cut short
   * only where `count` items were reached, so never more than `count`; and
   * it never raises.
   */
  lemma CappedPagesItems(rule: SizeRule, count: int, cursor: int, hasClient: bool, rs: seq<Option<JSON>>)
    ensures var p := CappedPages(rule, count, cursor, hasClient, rs);
            var n := |p.requests|;
            n <= |rs| &&
            var read := Pages(rs[..n], ItemsView(UserItemsKey));
            p.items <= read &&
            (|p.items| < |read| ==> |p.items| == count) &&
            |p.items| <= Room(0, count) &&
            !p.end.Raised?
  {
    var view := ItemsView(UserItemsKey);
    CappedYields();
    RunCappedItems(CappedFn(), CappedSize(rule), view, count, JInt(cursor), hasClient, rs);
    RunQuiet(CappedFn(), CappedSize(rule), view, 0, count, JInt(cursor), hasClient, rs);
  }

}
