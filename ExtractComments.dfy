// analyze_comments and the default file name of save_comments_data in
// examples/extract_comments.py.  The analysis walks the comments once,
// counting replies, recording text lengths, collecting author names and
// keeping the liked comments, then sorts the liked ones by likes and keeps
// five.  Any exception inside the walk makes the whole result an error dict.

module ExtractComments {
  import opened Json
  import opened Sorting
  import opened Flatten
  import Helpers

  /** An entry of top_liked_comments: preview text, likes value and author. */
  datatype Liked = Liked(text: JSON, likes: JSON, author: JSON)

  /**
   * The dict analyze_comments returns: the "No comments to analyze" dict, the
   * analysis, or `{'error': str(e)}` (only the exception's class is kept).
   * recent_comments is always empty and is not kept.
   */
  datatype Analysis =
    | NoComments
    | Report(totalComments: nat, commentsWithReplies: nat, totalReplies: nat,
             topLiked: seq<Liked>, commentLengths: seq<nat>, authors: set<PyKey>,
             uniqueAuthors: nat)
    | Failed(exc: Exc)

  /** What is analysed: a dict's "comments" member (an empty list when missing), any other value as it is. */
  function CommentsOf(data: JSON): (c: JSON)
    ensures data.JObj? && "comments" !in Keys(data.members) ==> c == JArr([])
    ensures data.JObj? && "comments" in Keys(data.members) ==> Lookup(data.members, "comments") == Some(c)
    ensures !data.JObj? ==> c == data
  {
    if data.JObj? then LookupOr(data.members, "comments", JArr([])) else data
  }

  // ---------------------------------------------------------------------
  // What one comment contributes.  Only dict comments are looked at.

  /** `c.get(k, default)` on a dict; the default for anything else. */
  function Member(c: JSON, k: string, default: JSON): JSON
  {
    if c.JObj? then LookupOr(c.members, k, default) else default
  }

  /**
   * The values the loop body reads from one dict comment: replies, text,
   * `get('author_info', {}) or get('user', {})`, the name
   * `author_info.get('username') or author_info.get('uniqueId')`, the shown author
   * `author_info.get('username', 'Unknown') if author_info else 'Unknown'`,
   * and `get('digg_count', 0) or get('likes', 0)`.
   */
  datatype Reads = Reads(replies: JSON, text: JSON, info: JSON, name: JSON, shown: JSON, likes: JSON)

  function ReadsOf(m: seq<(string, JSON)>): (r: Reads)
    ensures Truthy(LookupOr(m, "author_info", EmptyObj)) ==> r.info == LookupOr(m, "author_info", EmptyObj)
    ensures !Truthy(LookupOr(m, "author_info", EmptyObj)) ==> r.info == LookupOr(m, "user", EmptyObj)
    ensures Truthy(LookupOr(m, "digg_count", JInt(0))) ==> r.likes == LookupOr(m, "digg_count", JInt(0))
    ensures !Truthy(LookupOr(m, "digg_count", JInt(0))) ==> r.likes == LookupOr(m, "likes", JInt(0))
    ensures r.info.JObj? && Truthy(Member(r.info, "username", JNull)) ==> r.name == Member(r.info, "username", JNull)
    ensures r.info.JObj? && !Truthy(Member(r.info, "username", JNull)) ==> r.name == Member(r.info, "uniqueId", JNull)
  {
    var info := Or(LookupOr(m, "author_info", EmptyObj), LookupOr(m, "user", EmptyObj));
    Reads(LookupOr(m, "replies", JArr([])), LookupOr(m, "text", JStr("")), info,
          Or(Member(info, "username", JNull), Member(info, "uniqueId", JNull)),
          if Truthy(info) then Member(info, "username", JStr("Unknown")) else JStr("Unknown"),
          Or(LookupOr(m, "digg_count", JInt(0)), LookupOr(m, "likes", JInt(0))))
  }

  /** `text[:100] + '...' if len(text) > 100 else text` */
  function Preview(text: JSON): (r: Outcome<JSON>)
    ensures r.Raise? ==> r.exc == TypeError
  {
    match Len(text)
    case Raise(e) => Raise(e)
    case Ok(n) =>
      if n <= 100 then Ok(text)
      else if text.JStr? then Ok(JStr(text.s[..100] + "..."))
      else Raise(TypeError)
  }

  /** The length of a sized value (0 stands for a len() that raised, which a clean comment never reaches). */
  function Size(v: JSON): nat
  {
    match Len(v)
    case Ok(n) => n
    case Raise(_) => 0
  }

  /**
   * The exception the loop body raises, in the order it meets them: len() of
   * truthy replies, len() of truthy text, `.get` on a truthy author_info that
   * is not a dict, adding an unhashable name to the set, and the preview.
   */
  function ReadsFault(r: Reads): (f: Option<Exc>)
    ensures f.Some? ==> f.value == TypeError || f.value == AttributeError
  {
    if Truthy(r.replies) && Len(r.replies).Raise? then Some(Len(r.replies).exc)
    else if Truthy(r.text) && Len(r.text).Raise? then Some(Len(r.text).exc)
    else if Truthy(r.info) && !r.info.JObj? then Some(AttributeError)
    else if Truthy(r.info) && Truthy(r.name) && HashKey(r.name).Raise? then Some(HashKey(r.name).exc)
    else if Truthy(r.likes) && Preview(r.text).Raise? then Some(Preview(r.text).exc)
    else None
  }

  function RepliedBy(r: Reads): nat { if Truthy(r.replies) then 1 else 0 }

  function RepliesOf(r: Reads): nat { if Truthy(r.replies) then Size(r.replies) else 0 }

  function LengthBy(r: Reads): seq<nat> { if Truthy(r.text) then [Size(r.text)] else [] }

  /** The set entry a comment adds: its truthy, hashable author name. */
  function AuthorBy(r: Reads): seq<PyKey>
  {
    if Truthy(r.info) && Truthy(r.name) && HashKey(r.name).Ok? then [HashKey(r.name).value] else []
  }

  function LikedBy(r: Reads): seq<Liked>
  {
    if Truthy(r.likes) && Preview(r.text).Ok? then [Liked(Preview(r.text).value, r.likes, r.shown)] else []
  }

  // The same, for any item of the walk (a non-dict item contributes nothing).

  function CommentFault(c: JSON): Option<Exc> { if c.JObj? then ReadsFault(ReadsOf(c.members)) else None }

  function Replied(c: JSON): nat { if c.JObj? then RepliedBy(ReadsOf(c.members)) else 0 }

  function ReplyCount(c: JSON): nat { if c.JObj? then RepliesOf(ReadsOf(c.members)) else 0 }

  function LengthOf(c: JSON): seq<nat> { if c.JObj? then LengthBy(ReadsOf(c.members)) else [] }

  function AuthorOf(c: JSON): seq<PyKey> { if c.JObj? then AuthorBy(ReadsOf(c.members)) else [] }

  function LikedOf(c: JSON): seq<Liked> { if c.JObj? then LikedBy(ReadsOf(c.members)) else [] }

  // ---------------------------------------------------------------------
  // The walk over all comments

  /** The exception a walk over `items` raises: the first item's whose `fault` is set. */
  function FirstFault<T>(fault: T -> Option<Exc>, items: seq<T>): Option<Exc>
  {
    if items == [] then None
    else
      var before := FirstFault(fault, items[..|items| - 1]);
      if before.Some? then before else fault(items[|items| - 1])
  }

  /** The exception the walk over the comments raises, if any. */
  function Fault(items: seq<JSON>): Option<Exc> { FirstFault(CommentFault, items) }

  function AddReplied(n: nat, c: JSON): nat { n + Replied(c) }

  function AddReplies(n: nat, c: JSON): nat { n + ReplyCount(c) }

  function CommentsWithReplies(items: seq<JSON>): nat { Fold(AddReplied, 0, items) }

  function TotalReplies(items: seq<JSON>): nat { Fold(AddReplies, 0, items) }

  function Lengths(items: seq<JSON>): seq<nat> { Flat(LengthOf, items) }

  function AuthorKeys(items: seq<JSON>): seq<PyKey> { Flat(AuthorOf, items) }

  function KeySet(ks: seq<PyKey>): set<PyKey> { set k | k in ks }

  function LikedComments(items: seq<JSON>): seq<Liked> { Flat(LikedOf, items) }

  function LikesKey(l: Liked): SortKey { KeyOf(l.likes) }

  /** `s[:5]` */
  function Top<T>(s: seq<T>): (t: seq<T>)
    ensures |t| == if |s| < 5 then |s| else 5
    ensures t <= s
  {
    if |s| <= 5 then s else s[..5]
  }

  /** analyze_comments on the value walked over. */
  function AnalyzeValue(comments: JSON): Analysis
  {
    if !Truthy(comments) then NoComments
    else if Len(comments).Raise? then Failed(Len(comments).exc)
    else
      var items := Iter(comments).value;
      if Fault(items).Some? then Failed(Fault(items).value)
      else
        var sorted := PySort(LikesKey, true, LikedComments(items));
        if sorted.Raise? then Failed(sorted.exc)
        else
          var authors := KeySet(AuthorKeys(items));
          Report(Len(comments).value, CommentsWithReplies(items), TotalReplies(items),
                 Top(sorted.value), Lengths(items), authors, |authors|)
  }

  function Analyze(data: JSON): Analysis { AnalyzeValue(CommentsOf(data)) }

  // ---------------------------------------------------------------------
  // Steps of the walk

  lemma KeySetAppend(a: seq<PyKey>, b: seq<PyKey>)
    ensures KeySet(a + b) == KeySet(a) + KeySet(b)
  {
  }

  /** How every tally of the first i + 1 comments follows from the first i. */
  lemma WalkStep(items: seq<JSON>, i: nat)
    requires i < |items|
    ensures Fault(items[..i + 1]) == if Fault(items[..i]).Some? then Fault(items[..i]) else CommentFault(items[i])
    ensures CommentsWithReplies(items[..i + 1]) == CommentsWithReplies(items[..i]) + Replied(items[i])
    ensures TotalReplies(items[..i + 1]) == TotalReplies(items[..i]) + ReplyCount(items[i])
    ensures Lengths(items[..i + 1]) == Lengths(items[..i]) + LengthOf(items[i])
    ensures KeySet(AuthorKeys(items[..i + 1])) == KeySet(AuthorKeys(items[..i])) + KeySet(AuthorOf(items[i]))
    ensures LikedComments(items[..i + 1]) == LikedComments(items[..i]) + LikedOf(items[i])
  {
    assert items[..i + 1][..i] == items[..i];
    FoldStep(AddReplied, 0, items, i);
    FoldStep(AddReplies, 0, items, i);
    FlatStep(LengthOf, items, i);
    FlatStep(AuthorOf, items, i);
    KeySetAppend(AuthorKeys(items[..i]), AuthorOf(items[i]));
    FlatStep(LikedOf, items, i);
  }

  /** The loop body on a dict comment that raises nothing: what it adds to each counter. */
  method CountComment(r: Reads, withReplies: nat, totalReplies: nat, lengths: seq<nat>,
                      authors: set<PyKey>, liked: seq<Liked>)
    returns (withReplies': nat, totalReplies': nat, lengths': seq<nat>, authors': set<PyKey>, liked': seq<Liked>)
    requires ReadsFault(r).None?
    ensures withReplies' == withReplies + RepliedBy(r)
    ensures totalReplies' == totalReplies + RepliesOf(r)
    ensures lengths' == lengths + LengthBy(r)
    ensures authors' == authors + KeySet(AuthorBy(r))
    ensures liked' == liked + LikedBy(r)
  {
    withReplies', totalReplies', lengths', authors', liked' := withReplies, totalReplies, lengths, authors, liked;
    if Truthy(r.replies) {
      withReplies' := withReplies' + 1;
      totalReplies' := totalReplies' + Len(r.replies).value;
    }
    if Truthy(r.text) {
      lengths' := lengths' + [Len(r.text).value];
    }
    if Truthy(r.info) && Truthy(r.name) {
      authors' := authors' + {HashKey(r.name).value};
    }
    if Truthy(r.likes) {
      liked' := liked' + [Liked(Preview(r.text).value, r.likes, r.shown)];
    }
  }

  /**
   * The loop of analyze_comments over the comments.  The counters a raising
   * comment has already changed are discarded with the analysis dict, so
   * each comment is checked for its exception before it is counted.
   */
  method Walk(items: seq<JSON>)
    returns (fault: Option<Exc>, withReplies: nat, totalReplies: nat, lengths: seq<nat>,
             authors: set<PyKey>, liked: seq<Liked>)
    ensures fault == Fault(items)
    ensures fault.None? ==>
      withReplies == CommentsWithReplies(items) && totalReplies == TotalReplies(items) &&
      lengths == Lengths(items) && authors == KeySet(AuthorKeys(items)) && liked == LikedComments(items)
  {
    withReplies, totalReplies := 0, 0;
    lengths, authors, liked := [], {}, [];
    var i := 0;
    while i < |items|
      invariant i <= |items|
      invariant Fault(items[..i]).None?
      invariant withReplies == CommentsWithReplies(items[..i])
      invariant totalReplies == TotalReplies(items[..i])
      invariant lengths == Lengths(items[..i])
      invariant authors == KeySet(AuthorKeys(items[..i]))
      invariant liked == LikedComments(items[..i])
    {
      var c := items[i];
      fault := CommentFault(c);
      if fault.Some? {
        FirstFaultStops(CommentFault, items, i);
        return;
      }
      WalkStep(items, i);
      if c.JObj? {
        withReplies, totalReplies, lengths, authors, liked :=
          CountComment(ReadsOf(c.members), withReplies, totalReplies, lengths, authors, liked);
      }
      i := i + 1;
    }
    assert items[..i] == items;
    fault := None;
  }

  /** analyze_comments */
  method AnalyzeComments(data: JSON) returns (r: Analysis)
    ensures r == Analyze(data)
  {
    var comments := CommentsOf(data);
    if !Truthy(comments) {
      return NoComments;
    }
    var total := Len(comments);
    if total.Raise? {
      return Failed(total.exc);
    }
    var fault, withReplies, totalReplies, lengths, authors, liked := Walk(Iter(comments).value);
    if fault.Some? {
      return Failed(fault.value);
    }
    var sorted := PySort(LikesKey, true, liked);
    if sorted.Raise? {
      return Failed(sorted.exc);
    }
    r := Report(total.value, withReplies, totalReplies, Top(sorted.value), lengths, authors, |authors|);
  }

  // ---------------------------------------------------------------------
  // What the analysis promises

  /** A walk raises exactly when some item raises, and then it is the first such item's exception. */
  lemma {:induction false} FirstFaultExact<T>(fault: T -> Option<Exc>, items: seq<T>)
    ensures FirstFault(fault, items).None? <==> forall i :: 0 <= i < |items| ==> fault(items[i]).None?
    ensures FirstFault(fault, items).Some? ==>
      exists i :: 0 <= i < |items| && fault(items[i]) == FirstFault(fault, items) &&
        forall j :: 0 <= j < i ==> fault(items[j]).None?
    decreases |items|
  {
    if items != [] {
      var last := |items| - 1;
      var init := items[..last];
      FirstFaultExact(fault, init);
      assert forall i :: 0 <= i < last ==> init[i] == items[i];
      if FirstFault(fault, init).Some? {
        var i :| 0 <= i < last && fault(init[i]) == FirstFault(fault, init) &&
          forall j :: 0 <= j < i ==> fault(init[j]).None?;
        assert fault(items[i]) == FirstFault(fault, items);
      }
    }
  }

  /** The first item that raises decides the walk's exception. */
  lemma FirstFaultStops<T>(fault: T -> Option<Exc>, items: seq<T>, i: nat)
    requires i < |items| && FirstFault(fault, items[..i]).None? && fault(items[i]).Some?
    ensures FirstFault(fault, items) == fault(items[i])
  {
    FirstFaultExact(fault, items[..i]);
    FirstFaultExact(fault, items);
    assert forall j :: 0 <= j < i ==> items[..i][j] == items[j];
    var k :| 0 <= k < |items| && fault(items[k]) == FirstFault(fault, items) &&
      forall j :: 0 <= j < k ==> fault(items[j]).None?;
    assert k == i;
  }

  /** What a report is made of. */
  lemma ReportParts(data: JSON)
    requires Analyze(data).Report?
    ensures Truthy(CommentsOf(data)) && Iter(CommentsOf(data)).Ok?
    ensures var items := Iter(CommentsOf(data)).value;
      var r := Analyze(data);
      Fault(items).None? && PySort(LikesKey, true, LikedComments(items)).Ok? &&
      r.topLiked == Top(PySort(LikesKey, true, LikedComments(items)).value) &&
      r.authors == KeySet(AuthorKeys(items)) && r.uniqueAuthors == |r.authors| &&
      r.totalComments == |items| && r.commentsWithReplies == CommentsWithReplies(items) &&
      r.totalReplies == TotalReplies(items) && r.commentLengths == Lengths(items)
  {
  }

  /**
   * The input handling: a dict without "comments", and any falsy value, has
   * nothing to analyse; a truthy value without a len() fails with TypeError;
   * a non-empty list is analysed item by item with total_comments its length.
   */
  lemma AnalyzeCases(data: JSON)
    ensures Analyze(data).NoComments? <==> !Truthy(CommentsOf(data))
    ensures data.JObj? && "comments" !in Keys(data.members) ==> Analyze(data).NoComments?
    ensures Truthy(CommentsOf(data)) && Len(CommentsOf(data)).Raise? ==> Analyze(data) == Failed(TypeError)
    ensures data.JArr? && |data.items| > 0 ==>
      Analyze(data).Failed? || Analyze(data).totalComments == |data.items|
    ensures Analyze(data).Failed? ==> Analyze(data).exc == TypeError || Analyze(data).exc == AttributeError
  {
    var comments := CommentsOf(data);
    if Truthy(comments) && Len(comments).Ok? {
      var items := Iter(comments).value;
      if Fault(items).Some? {
        FirstFaultExact(CommentFault, items);
      }
    }
  }

  /** analyze_comments fails exactly when the walk raises or the liked comments hold likes Python cannot order. */
  lemma FailureCases(data: JSON)
    requires Truthy(CommentsOf(data)) && Len(CommentsOf(data)).Ok?
    ensures var items := Iter(CommentsOf(data)).value;
      Analyze(data).Failed? <==>
        Fault(items).Some? ||
        (|LikedComments(items)| >= 2 && !Comparable(LikesKey, LikedComments(items)))
  {
  }

  /** Each counted comment has at least one reply, so the counts agree; neither exceeds what there is. */
  lemma {:induction false} ReplyBounds(items: seq<JSON>)
    requires Fault(items).None?
    ensures CommentsWithReplies(items) <= |items|
    ensures CommentsWithReplies(items) <= TotalReplies(items)
    ensures CommentsWithReplies(items) == 0 <==> TotalReplies(items) == 0
    decreases |items|
  {
    if items != [] {
      var last := |items| - 1;
      var init := items[..last];
      FirstFaultExact(CommentFault, items);
      FirstFaultExact(CommentFault, init);
      assert forall i :: 0 <= i < last ==> init[i] == items[i];
      ReplyBounds(init);
      var c := items[last];
      if c.JObj? && Truthy(ReadsOf(c.members).replies) {
        assert Size(ReadsOf(c.members).replies) >= 1;
      }
    }
  }

  /** Every recorded length belongs to a non-empty text, one per comment at most. */
  lemma LengthsPositive(items: seq<JSON>)
    requires Fault(items).None?
    ensures |Lengths(items)| <= |items|
    ensures forall k :: 0 <= k < |Lengths(items)| ==> Lengths(items)[k] > 0
  {
    FirstFaultExact(CommentFault, items);
    FlatAtMost(LengthOf, items);
    forall k | 0 <= k < |Lengths(items)| ensures Lengths(items)[k] > 0 {
      var l := Lengths(items)[k];
      FlatMember(LengthOf, items, l);
      var i :| 0 <= i < |items| && l in LengthOf(items[i]);
      if items[i].JObj? {
        TextLengthPositive(ReadsOf(items[i].members), l);
      }
    }
  }

  lemma TextLengthPositive(r: Reads, l: nat)
    requires ReadsFault(r).None? && l in LengthBy(r)
    ensures l > 0
  {
  }

  /** `l` is the entry a comment with truthy likes makes: its preview, likes and shown author. */
  predicate LikedFrom(r: Reads, l: Liked)
  {
    Truthy(r.likes) && Preview(r.text) == Ok(l.text) && l.likes == r.likes && l.author == r.shown
  }

  /**
   * The liked comments are the comments with truthy likes, one entry each,
   * carrying that comment's likes, author and preview.
   */
  lemma LikedExact(items: seq<JSON>, l: Liked)
    requires Fault(items).None?
    ensures forall i :: 0 <= i < |items| ==>
      (|LikedOf(items[i])| == 1 <==> items[i].JObj? && Truthy(ReadsOf(items[i].members).likes))
    ensures l in LikedComments(items) <==>
      exists i :: 0 <= i < |items| && items[i].JObj? && LikedFrom(ReadsOf(items[i].members), l)
  {
    FirstFaultExact(CommentFault, items);
    FlatMember(LikedOf, items, l);
    forall i | 0 <= i < |items| && items[i].JObj?
      ensures |LikedOf(items[i])| == 1 <==> Truthy(ReadsOf(items[i].members).likes)
      ensures l in LikedOf(items[i]) <==> LikedFrom(ReadsOf(items[i].members), l)
    {
      assert CommentFault(items[i]).None?;
      LikedByExact(ReadsOf(items[i].members), l);
    }
  }

  lemma LikedByExact(r: Reads, l: Liked)
    requires ReadsFault(r).None?
    ensures |LikedBy(r)| == 1 <==> Truthy(r.likes)
    ensures l in LikedBy(r) <==> LikedFrom(r, l)
  {
  }

  /**
   * top_liked_comments: the first five of the liked comments sorted by likes,
   * descending; every liked comment left out has no more likes than any kept.
   */
  lemma TopLiked(data: JSON)
    requires Analyze(data).Report?
    ensures var liked := LikedComments(Iter(CommentsOf(data)).value);
      var top := Analyze(data).topLiked;
      |top| == (if |liked| < 5 then |liked| else 5) &&
      Sorted(LikesKey, true, top) &&
      multiset(top) <= multiset(liked) &&
      (forall y :: y in top ==> Truthy(y.likes)) &&
      (forall x, y :: x in multiset(liked) - multiset(top) && y in top ==> Before(true, LikesKey(y), LikesKey(x)))
  {
    ReportParts(data);
    var items := Iter(CommentsOf(data)).value;
    var liked := LikedComments(items);
    var sorted := PySort(LikesKey, true, liked).value;
    TopOfSorted(LikesKey, sorted, liked);
    forall y | y in Top(sorted) ensures Truthy(y.likes) {
      assert y in multiset(liked);
      FlatMember(LikedOf, items, y);
    }
  }

  /** The first five of a descending sort: none of the others comes before any of them. */
  lemma TopOfSorted<T>(key: T -> SortKey, sorted: seq<T>, all: seq<T>)
    requires Sorted(key, true, sorted) && multiset(sorted) == multiset(all)
    ensures Sorted(key, true, Top(sorted))
    ensures multiset(Top(sorted)) <= multiset(all)
    ensures forall x, y :: x in multiset(all) - multiset(Top(sorted)) && y in Top(sorted) ==>
      Before(true, key(y), key(x))
  {
    var top := Top(sorted);
    var rest := sorted[|top|..];
    assert sorted == top + rest;
    assert multiset(all) - multiset(top) == multiset(rest) by {
      assert multiset(sorted) == multiset(top) + multiset(rest);
    }
    forall x, y | x in multiset(rest) && y in top ensures Before(true, key(y), key(x)) {
      var k :| 0 <= k < |rest| && rest[k] == x;
      var j :| 0 <= j < |top| && top[j] == y;
      assert sorted[j] == y && sorted[|top| + k] == x;
    }
  }

  /** The comment's author_info is truthy and its name truthy, with `k` as the set entry. */
  predicate NamedBy(r: Reads, k: PyKey)
  {
    Truthy(r.info) && Truthy(r.name) && HashKey(r.name) == Ok(k)
  }

  /** An author is counted exactly when some comment names it; unique_authors is how many there are. */
  lemma AuthorsExact(data: JSON, k: PyKey)
    requires Analyze(data).Report?
    ensures var items := Iter(CommentsOf(data)).value;
      k in Analyze(data).authors <==>
        exists i :: 0 <= i < |items| && items[i].JObj? && NamedBy(ReadsOf(items[i].members), k)
    ensures Analyze(data).uniqueAuthors == |Analyze(data).authors|
  {
    ReportParts(data);
    var items := Iter(CommentsOf(data)).value;
    FlatMember(AuthorOf, items, k);
  }

  /** The preview of a string keeps it whole up to 100 characters, else cuts it to 100 and appends "...". */
  lemma PreviewShape(s: string)
    ensures Preview(JStr(s)).Ok? && Preview(JStr(s)).value.JStr?
    ensures var p := Preview(JStr(s)).value.s;
      |p| <= 103 &&
      (|s| <= 100 ==> p == s) &&
      (|s| > 100 ==> |p| == 103 && p[..100] == s[..100] && p[100..] == "...")
  {
  }

  // ---------------------------------------------------------------------
  // save_comments_data

  /** The characters the file name must not hold. */
  const Unsafe: string := "<>:\"/\\|?*"

  /** `s.split('/')[-1]`: the text after the last "/", or all of s. */
  function LastSegment(s: string): (r: string)
    ensures |r| <= |s| && r == s[|s| - |r|..]
    ensures '/' !in r
    ensures |r| < |s| ==> s[|s| - |r| - 1] == '/'
  {
    if s == [] then []
    else if s[|s| - 1] == '/' then []
    else
      var r' := LastSegment(s[..|s| - 1]);
      assert s[|s| - |r'| - 1..] == r' + [s[|s| - 1]];
      r' + [s[|s| - 1]]
  }

  /** `re.sub(r'[<>:"/\\|?*]', '_', s)` */
  function Sanitize(s: string): (r: string)
    ensures |r| == |s|
    ensures forall i :: 0 <= i < |r| ==> r[i] !in Unsafe
    ensures forall i :: 0 <= i < |s| && s[i] !in Unsafe ==> r[i] == s[i]
    ensures forall i :: 0 <= i < |s| && s[i] in Unsafe ==> r[i] == '_'
  {
    seq(|s|, i requires 0 <= i < |s| => if s[i] in Unsafe then '_' else s[i])
  }

  /** The video id part of the default file name. */
  function FileVideoId(url: string): string
  {
    var segment := if '/' in url then LastSegment(url) else "unknown";
    Sanitize(Helpers.FirstPiece(segment, "?"))
  }

  /** `f"comments_{method}_{video_id}_{timestamp}.json"`, with the extraction method `via`; the timestamp is a parameter. */
  function DefaultFilename(via: string, url: string, timestamp: string): string
  {
    "comments_" + via + "_" + FileVideoId(url) + "_" + timestamp + ".json"
  }

  /** A given non-empty file name is used as it is. */
  function ChosenFilename(filename: Option<string>, via: string, url: string, timestamp: string): (f: string)
    ensures filename.Some? && filename.value != "" ==> f == filename.value
    ensures filename.None? ==> f == DefaultFilename(via, url, timestamp)
  {
    if filename.Some? && filename.value != "" then filename.value else DefaultFilename(via, url, timestamp)
  }

  /** A part cut before the first "?" holds no "?". */
  lemma NoQuery(s: string)
    ensures '?' !in Helpers.FirstPiece(s, "?")
    ensures |Helpers.FirstPiece(s, "?")| <= |s|
  {
    var r := Helpers.FirstPiece(s, "?");
    forall p | 0 <= p < |r| ensures r[p] != '?' {
      if r[p] == '?' {
        assert r[p..p + 1] == "?";
        assert OccursAt(r, "?", p);
      }
    }
  }

  /** A string without "?" is kept whole. */
  lemma KeptWithoutQuery(s: string)
    requires '?' !in s
    ensures Helpers.FirstPiece(s, "?") == s
  {
    QueryAt(s, |Helpers.FirstPiece(s, "?")|);
  }

  lemma QueryAt(s: string, p: int)
    ensures OccursAt(s, "?", p) ==> s[p] == '?'
  {
    if OccursAt(s, "?", p) {
      assert s[p..p + 1] == "?";
    }
  }

  /**
   * The id holds none of the unsafe characters; a URL without "/" gives
   * "unknown"; otherwise the id is no longer than the URL's last segment.
   */
  lemma FileVideoIdShape(url: string)
    ensures forall i :: 0 <= i < |FileVideoId(url)| ==> FileVideoId(url)[i] !in Unsafe
    ensures '/' !in url ==> FileVideoId(url) == "unknown"
    ensures '/' in url ==> |FileVideoId(url)| <= |LastSegment(url)|
  {
    if '/' in url {
      NoQuery(LastSegment(url));
    } else {
      UnknownKept();
    }
  }

  lemma UnknownKept()
    ensures Sanitize(Helpers.FirstPiece("unknown", "?")) == "unknown"
  {
    assert Helpers.FirstPiece("unknown", "?") == "unknown" by {
      KeptWithoutQuery("unknown");
    }
    assert Sanitize("unknown") == "unknown" by {
      SanitizeKeeps("unknown");
    }
  }

  /** A "/"-separated last segment without unsafe characters is kept as the id. */
  lemma {:induction false} LastSegmentOf(prefix: string, id: string)
    requires '/' !in id
    ensures LastSegment(prefix + "/" + id) == id
    decreases |id|
  {
    var s := prefix + "/" + id;
    if id == [] {
      assert s[|s| - 1] == '/';
    } else {
      var init := id[..|id| - 1];
      assert s[..|s| - 1] == prefix + "/" + init;
      LastSegmentOf(prefix, init);
      assert init + [id[|id| - 1]] == id;
    }
  }

  /** The file name of a clean video URL carries its last segment as the id. */
  lemma CleanUrlFilename(via: string, prefix: string, id: string, timestamp: string)
    requires forall i :: 0 <= i < |id| ==> id[i] !in Unsafe
    ensures DefaultFilename(via, prefix + "/" + id, timestamp) ==
      "comments_" + via + "_" + id + "_" + timestamp + ".json"
  {
    var url := prefix + "/" + id;
    assert url[|prefix|] == '/';
    assert '/' !in id by {
      assert forall i :: 0 <= i < |id| ==> id[i] != '/';
    }
    LastSegmentOf(prefix, id);
    KeptWithoutQuery(id);
    SanitizeKeeps(id);
  }

  lemma SanitizeKeeps(s: string)
    requires forall i :: 0 <= i < |s| ==> s[i] !in Unsafe
    ensures Sanitize(s) == s
  {
  }

  /** Sanitising twice changes nothing more. */
  lemma SanitizeIdempotent(s: string)
    ensures Sanitize(Sanitize(s)) == Sanitize(s)
  {
  }

  /** The saved total_comments: the length of a list, 0 for anything else. */
  function SavedTotal(comments: JSON): (n: nat)
    ensures comments.JArr? ==> Len(comments) == Ok(n)
    ensures !comments.JArr? ==> n == 0
  {
    if comments.JArr? then |comments.items| else 0
  }
}
