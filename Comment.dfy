// A comment: the fields its data extraction assigns, the pages of replies,
// and the summary and string views with their text previews.

module Comment {
  import opened Json
  import opened Pagination
  import User

  /** `create_time`: the parsed timestamp in seconds, or None when int() rejects the value. */
  datatype CreateTime = At(seconds: int) | Unparsed

  /** `author`: the raw `user` value, or the user object the client builds from it. */
  datatype Author = RawAuthor(data: JSON) | UserAuthor(attrs: User.Attrs)

  /** A comment's attributes; None for one that was never assigned. */
  datatype Fields = Fields(
    id: JSON, text: Option<JSON>, createTime: Option<CreateTime>, author: Option<Author>,
    likeCount: Option<JSON>, replyTotal: Option<JSON>, videoId: Option<JSON>, asDict: Option<JSON>)

  /** The attributes right after `self.id = id`. */
  function Fresh(id: JSON): Fields
  {
    Fields(id, None, None, None, None, None, None, None)
  }

  function Field(m: seq<(string, JSON)>, key: string): JSON { LookupOr(m, key, JNull) }

  /** `data.get("cid") or data.get("id") or self.id` */
  function CommentId(m: seq<(string, JSON)>, id: JSON): JSON
  {
    Or(Or(Field(m, "cid"), Field(m, "id")), id)
  }

  /** `data.get("create_time") or data.get("createTime")` */
  function Timestamp(m: seq<(string, JSON)>): JSON
  {
    Or(Field(m, "create_time"), Field(m, "createTime"))
  }

  /** `int(timestamp)`, with its ValueError and TypeError caught as None. */
  function ParseTime(ts: JSON): (t: CreateTime)
    ensures ToInt(ts).Ok? <==> t.At?
    ensures t.At? ==> t.seconds == ToInt(ts).value
  {
    var i := ToInt(ts);
    if i.Ok? then At(i.value) else Unparsed
  }

  /**
   * The author: with a client, a truthy `user` value is turned into a user
   * object, whose construction may raise; otherwise the raw value is kept.
   */
  function AuthorOf(m: seq<(string, JSON)>, hasParent: bool): (r: Outcome<Author>)
    ensures !hasParent || !Truthy(LookupOr(m, "user", EmptyObj)) ==> r == Ok(RawAuthor(LookupOr(m, "user", EmptyObj)))
    ensures r.Raise? <==> hasParent && Truthy(LookupOr(m, "user", EmptyObj)) &&
                          User.Construct(JNull, JNull, JNull, Some(LookupOr(m, "user", EmptyObj))).Raise?
  {
    var a := LookupOr(m, "user", EmptyObj);
    if Truthy(a) && hasParent then
      var u := User.Construct(JNull, JNull, JNull, Some(a));
      if u.Raise? then Raise(u.exc) else Ok(UserAuthor(u.value))
    else Ok(RawAuthor(a))
  }

  /** The assignments before the author's, on a dict's members. */
  function Assign(f: Fields, m: seq<(string, JSON)>): Fields
  {
    var ts := Timestamp(m);
    f.(id := CommentId(m, f.id), text := Some(Field(m, "text")),
       createTime := if Truthy(ts) then Some(ParseTime(ts)) else f.createTime,
       likeCount := Some(LookupOr(m, "digg_count", JInt(0))),
       replyTotal := Some(LookupOr(m, "reply_comment_total", JInt(0))),
       videoId := Some(Field(m, "aweme_id")))
  }

  /**
   * The data extraction on the stored raw data: nothing for falsy data,
   * AttributeError for anything but a dict, else the assignments in order;
   * `create_time` is assigned only for a truthy timestamp.
   */
  function Extraction(f: Fields, hasParent: bool): Outcome<Fields>
    requires f.asDict.Some?
  {
    var data := f.asDict.value;
    if !Truthy(data) then Ok(f)
    else if !data.JObj? then Raise(AttributeError)
    else
      var author :- AuthorOf(data.members, hasParent);
      Ok(Assign(f, data.members).(author := Some(author)))
  }

  /** `Comment(id, data)`: the id, the extraction when data is given, then TypeError when neither id nor data is truthy. */
  function Construct(id: JSON, data: Option<JSON>, hasParent: bool): Outcome<Fields>
  {
    var f :- if data.Some? then Extraction(Fresh(id).(asDict := data), hasParent) else Ok(Fresh(id));
    if !Truthy(f.id) && !(data.Some? && Truthy(data.value)) then Raise(TypeError) else Ok(f)
  }

  /** Without truthy data (an empty dict counts as none) a comment needs a truthy id, and keeps nothing else. */
  lemma ConstructWithoutData(id: JSON, data: Option<JSON>, hasParent: bool)
    requires data.None? || !Truthy(data.value)
    ensures Construct(id, data, hasParent).Ok? <==> Truthy(id)
    ensures Construct(id, data, hasParent).Raise? ==> Construct(id, data, hasParent).exc == TypeError
    ensures Construct(id, data, hasParent).Ok? ==> Construct(id, data, hasParent).value == Fresh(id).(asDict := data)
  {
  }

  /**
   * A comment built from a non-empty dict never needs an id: it fails only
   * when its author's user object does, and its id is `cid`, else `id`,
   * else the given id, its text the data's `text`, its video the `aweme_id`,
   * and its counts default to 0.
   */
  lemma ConstructFromDict(id: JSON, m: seq<(string, JSON)>, hasParent: bool)
    requires m != []
    ensures var r := Construct(id, Some(JObj(m)), hasParent);
            (r.Raise? <==> AuthorOf(m, hasParent).Raise?) &&
            (r.Ok? ==>
               r.value.id == (if Truthy(Field(m, "cid")) then Field(m, "cid")
                              else if Truthy(Field(m, "id")) then Field(m, "id") else id) &&
               r.value.text == Some(Field(m, "text")) &&
               r.value.videoId == Some(Field(m, "aweme_id")) &&
               r.value.likeCount == Some(LookupOr(m, "digg_count", JInt(0))) &&
               r.value.replyTotal == Some(LookupOr(m, "reply_comment_total", JInt(0))) &&
               r.value.asDict == Some(JObj(m)))
  {
    var f := Fresh(id).(asDict := Some(JObj(m)));
    assert Truthy(JObj(m));
    if AuthorOf(m, hasParent).Ok? {
      assert Extraction(f, hasParent).Ok?;
    }
  }

  /**
   * `create_time` is assigned exactly when the data has a truthy timestamp:
   * to its int() value, or None when int() rejects it. Without one the
   * attribute stays unassigned.
   */
  lemma CreateTimeOnlyWhenTruthy(id: JSON, m: seq<(string, JSON)>, hasParent: bool)
    requires m != [] && Construct(id, Some(JObj(m)), hasParent).Ok?
    ensures var c := Construct(id, Some(JObj(m)), hasParent).value;
            (c.createTime.None? <==> !Truthy(Timestamp(m))) &&
            (c.createTime == Some(Unparsed) <==> Truthy(Timestamp(m)) && ToInt(Timestamp(m)).Raise?) &&
            (Truthy(Timestamp(m)) && ToInt(Timestamp(m)).Ok? ==> c.createTime == Some(At(ToInt(Timestamp(m)).value)))
  {
    assert Truthy(JObj(m));
  }

  /** A digit-string timestamp is read as its decimal value. */
  lemma DigitTimestamp(id: JSON, m: seq<(string, JSON)>, digits: string)
    requires m != [] && Timestamp(m) == JStr(digits) && AllDigits(digits)
    ensures var c := Construct(id, Some(JObj(m)), false);
            c.Ok? && c.value.createTime == Some(At(DecimalValue(digits) as int))
  {
    ParsePositive(digits);
    ConstructFromDict(id, m, false);
    CreateTimeOnlyWhenTruthy(id, m, false);
  }

  // ---------------------------------------------------------------------
  // Previews

  /**
   * `text[:n] + '...' if text and len(text) > n else text`: a long string is
   * cut; a long list, or a dict, cannot be concatenated with a string, and
   * an integer has no length.
   */
  function Preview(text: JSON, n: nat): (r: Outcome<JSON>)
    ensures r.Raise? ==> r.exc == TypeError
    ensures !Truthy(text) ==> r == Ok(text)
    ensures text.JStr? ==> r.Ok? && r.value.JStr?
  {
    if !Truthy(text) then Ok(text)
    else
      var len :- Len(text);
      if len <= n then Ok(text)
      else if text.JStr? then Ok(JStr(text.s[..n] + "..."))
      else Raise(TypeError)
  }

  /** A string preview keeps the first n characters and is at most n + 3 long; a short string is unchanged. */
  lemma PreviewOfString(s: string, n: nat)
    ensures var p := Preview(JStr(s), n).value.s;
            |p| <= n + 3 &&
            (|s| <= n ==> p == s) &&
            (|s| > n ==> |p| == n + 3 && p[..n] == s[..n] && p[n..] == "...")
  {
  }

  /** Previewing a preview changes nothing. */
  lemma PreviewIdempotent(s: string, n: nat)
    ensures Preview(Preview(JStr(s), n).value, n) == Preview(JStr(s), n)
  {
    if |s| > n {
      var p := s[..n] + "...";
      assert |p| > n;
      assert p[..n] == s[..n];
    }
  }

  // ---------------------------------------------------------------------
  // Readers

  /** `get_summary`'s author name: the user object's username, a dict's `uniqueId` or `nickname`, else None. */
  function AuthorName(a: Author): JSON
  {
    match a
    case UserAuthor(attrs) => if attrs.username.Some? then attrs.username.value else JNull
    case RawAuthor(d) =>
      if Truthy(d) && d.JObj? then Or(LookupOr(d.members, "uniqueId", JNull), LookupOr(d.members, "nickname", JNull))
      else JNull
  }

  /** The dict `get_summary()` returns, one field per key; the time is kept as its seconds. */
  datatype CommentSummary = CommentSummary(
    id: JSON, text: JSON, createTime: Option<int>, author: JSON, likeCount: JSON, replyCount: JSON,
    videoId: JSON, hasData: bool)

  /**
   * `get_summary()` as written: `create_time` is read directly, so a comment
   * whose data had no timestamp raises AttributeError, like one that never
   * extracted data.
   */
  function Summary(f: Fields): (r: Outcome<CommentSummary>)
    ensures f.createTime.None? ==> r.Raise?
  {
    if f.author.None? || f.text.None? then Raise(AttributeError)
    else
      var text :- Preview(f.text.value, 100);
      if f.createTime.None? || f.likeCount.None? || f.replyTotal.None? || f.videoId.None? || f.asDict.None? then
        Raise(AttributeError)
      else
        Ok(CommentSummary(f.id, text, if f.createTime.value.At? then Some(f.createTime.value.seconds) else None,
                          AuthorName(f.author.value), f.likeCount.value, f.replyTotal.value, f.videoId.value,
                          Truthy(f.asDict.value)))
  }

  /** A comment built from data without a timestamp has no summary. */
  lemma SummaryNeedsTimestamp()
    ensures var c := Construct(JStr("7"), Some(JObj([("text", JStr("hi"))])), false);
            c.Ok? && Summary(c.value) == Raise(AttributeError)
  {
    var m := [("text", JStr("hi"))];
    assert Timestamp(m) == JNull;
    CreateTimeOnlyWhenTruthy(JStr("7"), m, false);
  }

  /** `get_summary()` as evidently intended: an unassigned `create_time` reads as None. */
  function SummaryCorrected(f: Fields): (r: Outcome<CommentSummary>)
    ensures r.Raise? ==> r.exc == AttributeError || r.exc == TypeError
  {
    if f.author.None? || f.text.None? then Raise(AttributeError)
    else
      var text :- Preview(f.text.value, 100);
      if f.likeCount.None? || f.replyTotal.None? || f.videoId.None? || f.asDict.None? then Raise(AttributeError)
      else
        Ok(CommentSummary(f.id, text,
                          if f.createTime.Some? && f.createTime.value.At? then Some(f.createTime.value.seconds) else None,
                          AuthorName(f.author.value), f.likeCount.value, f.replyTotal.value, f.videoId.value,
                          Truthy(f.asDict.value)))
  }

  /**
   * Every comment built from a non-empty dict whose text is a string has a
   * corrected summary: its text is the 100-character preview, its time is
   * None exactly when no timestamp was parsed, and has_data is true.
   */
  lemma SummaryCorrectedFromDict(id: JSON, m: seq<(string, JSON)>, hasParent: bool)
    requires m != [] && Construct(id, Some(JObj(m)), hasParent).Ok?
    requires Field(m, "text").JStr?
    ensures var c := Construct(id, Some(JObj(m)), hasParent).value;
            var r := SummaryCorrected(c);
            r.Ok? && r.value.text == Preview(Field(m, "text"), 100).value && r.value.hasData &&
            (r.value.createTime.None? <==> !(Truthy(Timestamp(m)) && ToInt(Timestamp(m)).Ok?))
  {
    ConstructFromDict(id, m, hasParent);
    CreateTimeOnlyWhenTruthy(id, m, hasParent);
    var c := Construct(id, Some(JObj(m)), hasParent).value;
    assert Truthy(JObj(m));
    assert c.author.Some?;
  }

  /** `str(comment)`: `Comment(id='…', text='…')` with the 50-character preview. */
  function StrOf(f: Fields): (r: Outcome<string>)
    ensures f.text.None? ==> r == Raise(AttributeError)
    ensures f.text.Some? && f.text.value.JStr? ==>
              r == Ok("Comment(id='" + Str(f.id) + "', text='" + Preview(f.text.value, 50).value.s + "')")
  {
    if f.text.None? then Raise(AttributeError)
    else
      var preview :- Preview(f.text.value, 50);
      Ok("Comment(id='" + Str(f.id) + "', text='" + Str(preview) + "')")
  }

  /** A long text shows as its first 50 characters and an ellipsis. */
  lemma StrCutsLongText(id: JSON, s: string)
    requires |s| > 50
    ensures StrOf(Fresh(id).(text := Some(JStr(s)))) == Ok("Comment(id='" + Str(id) + "', text='" + s[..50] + "...')")
  {
    assert Len(JStr(s)) == Ok(|s|);
    assert Preview(JStr(s), 50) == Ok(JStr(s[..50] + "..."));
    var head := "Comment(id='" + Str(id) + "', text='";
    assert head + (s[..50] + "...") + "')" == head + s[..50] + "...')";
  }

  // ---------------------------------------------------------------------
  // Replies

  /** The replies endpoint: `comments` items, a `has_more` flag, pages of 20, cursor `int(cursor or 0)`. */
  const ReplyRules: PageRules := PageRules("comments", "has_more", 20, IntOrZero)

  /** `replies(count, cursor)` fed the responses `rs`; without a client it yields nothing. */
  method Replies(count: int, cursor: int, hasClient: bool, rs: seq<Option<JSON>>) returns (p: Paging)
    ensures p == WholePages(ReplyRules, count, cursor, hasClient, rs)
  {
    p := FetchWholePages(ReplyRules, count, cursor, hasClient, rs);
  }

  /** A page is yielded whole, so asking for one reply can give two. */
  lemma RepliesExceedCount()
    ensures var rs := [Some(JObj([("comments", JArr([JStr("a"), JStr("b")])), ("has_more", JBool(false))]))];
            WholePages(ReplyRules, 1, 0, true, rs).items == [JStr("a"), JStr("b")]
  {
    var rs := [Some(JObj([("comments", JArr([JStr("a"), JStr("b")])), ("has_more", JBool(false))]))];
    var resp := rs[0].value;
    assert PageOf(resp, "comments") == Ok([JStr("a"), JStr("b")]);
    assert NoMore(resp, "has_more");
    assert WholeRound(ReplyRules, rs[0]) == Stop([JStr("a"), JStr("b")], Returned);
    RunUnfold(WholeFn(ReplyRules), WholeSize(ReplyRules), 0, 1, JInt(0), true, rs);
  }

  // ---------------------------------------------------------------------
  // The object

  class Comment {
    var id: JSON
    var text: Option<JSON>
    var createTime: Option<CreateTime>
    var author: Option<Author>
    var likeCount: Option<JSON>
    var replyTotal: Option<JSON>
    var videoId: Option<JSON>
    var asDict: Option<JSON>

    function Snapshot(): Fields
      reads this
    {
      Fields(id, text, createTime, author, likeCount, replyTotal, videoId, asDict)
    }

    /** `self.id = id` */
    constructor (id: JSON)
      ensures Snapshot() == Fresh(id)
    {
      this.id := id;
      text, createTime, author, likeCount, replyTotal, videoId, asDict := None, None, None, None, None, None, None;
    }

    /** `Comment(id, data)` in full. */
    static method New(id: JSON, data: Option<JSON>, hasParent: bool) returns (r: Outcome<Comment>)
      ensures r.Raise? <==> Construct(id, data, hasParent).Raise?
      ensures r.Raise? ==> r.exc == Construct(id, data, hasParent).exc
      ensures r.Ok? ==> fresh(r.value) && r.value.Snapshot() == Construct(id, data, hasParent).value
    {
      var c := new Comment(id);
      if data.Some? {
        c.asDict := data;
        var raised := c.ExtractFromData(hasParent);
        if raised.Some? {
          return Raise(raised.value);
        }
      }
      if !Truthy(c.id) && !(data.Some? && Truthy(data.value)) {
        return Raise(TypeError);
      }
      return Ok(c);
    }

    /**
     * `__extract_from_data`, one assignment at a time. On an exception the
     * object is abandoned by the constructor, so only the exception is stated.
     */
    method ExtractFromData(hasParent: bool) returns (raised: Option<Exc>)
      requires asDict.Some?
      modifies this
      ensures raised.Some? <==> Extraction(old(Snapshot()), hasParent).Raise?
      ensures raised.Some? ==> raised.value == Extraction(old(Snapshot()), hasParent).exc
      ensures raised.None? ==> Snapshot() == Extraction(old(Snapshot()), hasParent).value
    {
      var data := asDict.value;
      if !Truthy(data) {
        return None;
      }
      if !data.JObj? {
        return Some(AttributeError);
      }
      var m := data.members;
      AssignFields(m);
      raised := AssignAuthor(m, hasParent);
    }

    /** The author, the last assignment, which raises when the user object cannot be built. */
    method AssignAuthor(m: seq<(string, JSON)>, hasParent: bool) returns (raised: Option<Exc>)
      modifies this
      ensures raised.Some? <==> AuthorOf(m, hasParent).Raise?
      ensures raised.Some? ==> raised.value == AuthorOf(m, hasParent).exc
      ensures raised.None? ==> Snapshot() == old(Snapshot()).(author := Some(AuthorOf(m, hasParent).value))
    {
      var authorData := LookupOr(m, "user", EmptyObj);
      if Truthy(authorData) && hasParent {
        var u := User.Construct(JNull, JNull, JNull, Some(authorData));
        if u.Raise? {
          return Some(u.exc);
        }
        author := Some(UserAuthor(u.value));
      } else {
        author := Some(RawAuthor(authorData));
      }
      return None;
    }

    /** The assignments of `__extract_from_data` before the author's. */
    method AssignFields(m: seq<(string, JSON)>)
      modifies this
      ensures Snapshot() == Assign(old(Snapshot()), m)
    {
      ghost var before := Snapshot();
      id := Or(Or(Field(m, "cid"), Field(m, "id")), id);
      text := Some(Field(m, "text"));
      var timestamp := Or(Field(m, "create_time"), Field(m, "createTime"));
      if Truthy(timestamp) {
        createTime := Some(ParseTime(timestamp));
      }
      likeCount := Some(LookupOr(m, "digg_count", JInt(0)));
      replyTotal := Some(LookupOr(m, "reply_comment_total", JInt(0)));
      videoId := Some(Field(m, "aweme_id"));
      assert timestamp == Timestamp(m) && id == CommentId(m, before.id);
    }
  }
}
