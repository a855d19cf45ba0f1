// The comment records read back from the captured API responses: the detail
// record extract_comment_details builds from one raw comment, and the pass of
// read_all_api_responses over every response, which tags each record with
// the response and the position it came from.

module CommentRecords {
  import opened Json

  function Field(m: seq<(string, JSON)>, key: string): JSON { LookupOr(m, key, JNull) }

  // ---------------------------------------------------------------------
  // extract_comment_details

  /**
   * The user fields, added when a comment's `user` value is truthy: each is
   * read from the user dict `u` with its default, and the three avatar URL
   * lists are read when the fields are built.
   */
  datatype UserInfo = UserInfo(u: seq<(string, JSON)>, avatarThumb: JSON, avatarMedium: JSON, avatarLarger: JSON)
  {
    function UserId(): JSON { Field(u, "uid") }
    function SecUid(): JSON { Field(u, "sec_uid") }
    function Username(): JSON { Field(u, "unique_id") }
    function Nickname(): JSON { Field(u, "nickname") }
    function Signature(): JSON { LookupOr(u, "signature", JStr("")) }
    function CreateTime(): JSON { Field(u, "create_time") }
    function VerificationType(): JSON { LookupOr(u, "verification_type", JInt(0)) }
    function CustomVerify(): JSON { LookupOr(u, "custom_verify", JStr("")) }
    function UniqueIdModifyTime(): JSON { Field(u, "unique_id_modify_time") }
    function CommentSetting(): JSON { LookupOr(u, "comment_setting", JInt(0)) }
    function CommerceUserLevel(): JSON { LookupOr(u, "commerce_user_level", JInt(0)) }
    function LiveVerify(): JSON { LookupOr(u, "live_verify", JInt(0)) }
    function AuthorityStatus(): JSON { LookupOr(u, "authority_status", JInt(0)) }
    function Verified(): JSON { LookupOr(u, "verified", JBool(false)) }
    function UserCanceled(): JSON { LookupOr(u, "user_canceled", JBool(false)) }
    function UserBuried(): JSON { LookupOr(u, "user_buried", JBool(false)) }
    function UserRate(): JSON { LookupOr(u, "user_rate", JInt(0)) }
  }

  /**
   * The detail record of the raw comment `raw`: its twelve base fields,
   * each read from `raw` with its default; the user fields when added;
   * `create_time_formatted` when the creation time is truthy (None when
   * int() rejects it, otherwise the seconds it is formatted from); and the
   * optional fields the raw comment has, in their list order.
   */
  datatype Details = Details(
    raw: seq<(string, JSON)>, user: Option<UserInfo>, createTimeFormatted: Option<Option<int>>,
    optional: seq<(string, JSON)>)
  {
    function CommentId(): JSON { Field(raw, "cid") }
    function Text(): JSON { LookupOr(raw, "text", JStr("")) }
    function CreateTime(): JSON { Field(raw, "create_time") }
    function DiggCount(): JSON { LookupOr(raw, "digg_count", JInt(0)) }
    function ReplyTotal(): JSON { LookupOr(raw, "reply_comment_total", JInt(0)) }
    function IsAuthorDigged(): JSON { LookupOr(raw, "is_author_digged", JBool(false)) }
    function UserDigged(): JSON { LookupOr(raw, "user_digged", JInt(0)) }
    function AwemeId(): JSON { Field(raw, "aweme_id") }
    function ReplyId(): JSON { LookupOr(raw, "reply_id", JStr("0")) }
    function ReplyToReplyId(): JSON { LookupOr(raw, "reply_to_reply_id", JStr("0")) }
    function Status(): JSON { LookupOr(raw, "status", JInt(1)) }
    function StickPosition(): JSON { LookupOr(raw, "stick_position", JInt(0)) }
  }

  /** What extract_comment_details returns: the record, or `{'error': str(e), 'raw_data': ...}`. */
  datatype Extracted = Detailed(d: Details) | ExtractError(exc: Exc, raw: JSON)

  /** The raw fields copied when present. */
  const OptionalFields: seq<string> := [
    "label_list", "reply_comment", "no_show", "trans_btn_style", "comment_language", "text_extra",
    "share_info", "reply_comment_status", "comment_struct_v2", "item_id", "reply_style"]

  /** `user_info.get(key, {}).get('url_list', [])` */
  function UrlList(u: seq<(string, JSON)>, key: string): Outcome<JSON>
  {
    Get(LookupOr(u, key, EmptyObj), "url_list", JArr([]))
  }

  /** The user fields, all read before any is added: AttributeError unless the user value and its avatars are dicts. */
  function UserInfoOf(u: JSON): (r: Outcome<UserInfo>)
    ensures r.Raise? ==> r.exc == AttributeError
    ensures r.Ok? <==> u.JObj? && UrlList(u.members, "avatar_thumb").Ok? &&
                       UrlList(u.members, "avatar_medium").Ok? && UrlList(u.members, "avatar_larger").Ok?
    ensures r.Ok? ==> r.value.u == u.members && r.value.avatarThumb == UrlList(u.members, "avatar_thumb").value
  {
    if !u.JObj? then Raise(AttributeError)
    else
      var m := u.members;
      var thumb :- UrlList(m, "avatar_thumb");
      var medium :- UrlList(m, "avatar_medium");
      var larger :- UrlList(m, "avatar_larger");
      Ok(UserInfo(m, thumb, medium, larger))
  }

  /** The user fields of a raw comment: none when its `user` value is falsy. */
  function UserOf(m: seq<(string, JSON)>): (r: Outcome<Option<UserInfo>>)
    ensures r.Ok? && r.value.None? <==> !Truthy(LookupOr(m, "user", EmptyObj))
    ensures r.Raise? ==> r.exc == AttributeError
  {
    var u := LookupOr(m, "user", EmptyObj);
    if !Truthy(u) then Ok(None)
    else
      var info :- UserInfoOf(u);
      Ok(Some(info))
  }

  /** `create_time_formatted`: only for a truthy creation time; None when int() rejects it. */
  function Formatted(createTime: JSON): (r: Option<Option<int>>)
    ensures r.Some? <==> Truthy(createTime)
    ensures r.Some? ==> (r.value.Some? <==> ToInt(createTime).Ok?)
    ensures r.Some? && r.value.Some? ==> r.value.value == ToInt(createTime).value
  {
    if !Truthy(createTime) then None
    else
      var i := ToInt(createTime);
      Some(if i.Ok? then Some(i.value) else None)
  }

  /** The optional field named `name`, as copied when present. */
  function Piece(name: string, m: seq<(string, JSON)>): seq<(string, JSON)>
  {
    if name in Keys(m) then [(name, Field(m, name))] else []
  }

  /** The fields among `names` the raw comment has, in the order of `names`. */
  function Present(names: seq<string>, m: seq<(string, JSON)>): seq<(string, JSON)>
  {
    if names == [] then [] else Present(names[..|names| - 1], m) + Piece(names[|names| - 1], m)
  }

  /** Exactly the listed fields the raw comment has are copied, each with its raw value. */
  lemma {:induction false} PresentCopies(names: seq<string>, m: seq<(string, JSON)>)
    ensures forall p :: p in Present(names, m) ==> p.0 in names && Lookup(m, p.0) == Some(p.1)
    ensures forall k :: k in names && k in Keys(m) ==> k in Keys(Present(names, m))
  {
    if names != [] {
      var init := names[..|names| - 1];
      PresentCopies(init, m);
      assert names == init + [names[|names| - 1]];
      forall k | k in names && k in Keys(m) ensures k in Keys(Present(names, m)) {
        var p := Present(names, m);
        if k in init {
          var i :| 0 <= i < |Present(init, m)| && Present(init, m)[i].0 == k;
          assert p[i] == Present(init, m)[i];
        } else {
          assert k == names[|names| - 1];
          assert p[|p| - 1] == (k, Field(m, k));
        }
      }
    }
  }

  /** `extract_comment_details(comment_data)`: any exception becomes the error record. */
  function ExtractDetails(c: JSON): Extracted
  {
    if !c.JObj? then ExtractError(AttributeError, c)
    else
      var m := c.members;
      var user := UserOf(m);
      if user.Raise? then ExtractError(user.exc, c)
      else Detailed(Details(m, user.value, Formatted(Field(m, "create_time")), Present(OptionalFields, m)))
  }

  /**
   * A dict always gives a record unless its truthy `user` value (or an
   * avatar in it) is not a dict; the user fields are there exactly when
   * `user` is truthy; a non-dict gives the error record.
   */
  lemma DetailsOutcome(c: JSON)
    ensures !c.JObj? ==> ExtractDetails(c) == ExtractError(AttributeError, c)
    ensures c.JObj? ==>
              var u := LookupOr(c.members, "user", EmptyObj);
              (ExtractDetails(c).ExtractError? <==> Truthy(u) && UserInfoOf(u).Raise?) &&
              (ExtractDetails(c).ExtractError? ==> ExtractDetails(c) == ExtractError(AttributeError, c)) &&
              (ExtractDetails(c).Detailed? ==> (ExtractDetails(c).d.user.Some? <==> Truthy(u)))
  {
  }

  /** A dict's record keeps it, and with it every field it has; the formatted time and the copies follow it. */
  lemma DetailsOfDict(m: seq<(string, JSON)>)
    requires ExtractDetails(JObj(m)).Detailed?
    ensures var d := ExtractDetails(JObj(m)).d;
            d.raw == m && d.createTimeFormatted == Formatted(Field(m, "create_time")) &&
            d.optional == Present(OptionalFields, m)
  {
  }

  /** The defaults a raw comment without those keys gets; without `user` there are no user fields. */
  lemma DetailsDefaults(m: seq<(string, JSON)>)
    requires "text" !in Keys(m) && "digg_count" !in Keys(m) && "reply_comment_total" !in Keys(m)
    requires "reply_id" !in Keys(m) && "reply_to_reply_id" !in Keys(m) && "status" !in Keys(m)
    requires "stick_position" !in Keys(m) && "is_author_digged" !in Keys(m) && "user" !in Keys(m)
    ensures ExtractDetails(JObj(m)).Detailed?
    ensures var d := ExtractDetails(JObj(m)).d;
            d.Text() == JStr("") && d.DiggCount() == JInt(0) && d.ReplyTotal() == JInt(0) &&
            d.ReplyId() == JStr("0") && d.ReplyToReplyId() == JStr("0") && d.Status() == JInt(1) &&
            d.StickPosition() == JInt(0) && d.IsAuthorDigged() == JBool(false) && d.user.None?
  {
  }

  /** `extract_comment_details`, with its loop over the optional fields. */
  method ExtractCommentDetails(c: JSON) returns (r: Extracted)
    ensures r == ExtractDetails(c)
  {
    if !c.JObj? {
      return ExtractError(AttributeError, c);
    }
    var m := c.members;
    var user: Option<UserInfo> := None;
    var u := LookupOr(m, "user", EmptyObj);
    if Truthy(u) {
      var info := UserInfoOf(u);
      if info.Raise? {
        return ExtractError(info.exc, c);
      }
      user := Some(info.value);
    }
    var copied := CopyOptional(m);
    r := Detailed(Details(m, user, Formatted(Field(m, "create_time")), copied));
  }

  /** `for field in optional_fields: if field in comment_data: ...` */
  method CopyOptional(m: seq<(string, JSON)>) returns (copied: seq<(string, JSON)>)
    ensures copied == Present(OptionalFields, m)
  {
    copied := [];
    var i := 0;
    while i < |OptionalFields|
      invariant 0 <= i <= |OptionalFields|
      invariant copied == Present(OptionalFields[..i], m)
    {
      var name := OptionalFields[i];
      assert OptionalFields[..i + 1][..i] == OptionalFields[..i];
      if name in Keys(m) {
        copied := copied + [(name, Field(m, name))];
      }
      i := i + 1;
    }
    assert OptionalFields[..i] == OptionalFields;
  }

  // ---------------------------------------------------------------------
  // read_all_api_responses

  /** Where a record came from: the response's index, the item's index in it, and the response's metadata. */
  datatype Source = Source(responseIndex: nat, commentIndex: nat, url: JSON, timestamp: JSON, processingOrder: JSON)

  /** A record, updated with its source fields. */
  datatype Tagged = Tagged(item: Extracted, source: Source)

  /**
   * The comments of a response's `json_data`: under `comments`, else
   * `comment_list`, else `data` when that is a list; None when there are
   * none. `in` on something that is not a container, or subscripting a
   * list or string, raises TypeError.
   */
  function CommentsOf(jd: JSON): (r: Outcome<Option<JSON>>)
    ensures r.Raise? ==> r.exc == TypeError
    ensures jd.JObj? ==>
              r == Ok(if "comments" in Keys(jd.members) then Some(Field(jd.members, "comments"))
                      else if "comment_list" in Keys(jd.members) then Some(Field(jd.members, "comment_list"))
                      else if Field(jd.members, "data").JArr? then Some(Field(jd.members, "data"))
                      else None)
  {
    if !(jd.JObj? || jd.JArr? || jd.JStr?) then Raise(TypeError)
    else if Contains(jd, "comments").value then
      var c :- Subscript(jd, "comments");
      Ok(Some(c))
    else if Contains(jd, "comment_list").value then
      var c :- Subscript(jd, "comment_list");
      Ok(Some(c))
    else if Contains(jd, "data").value then
      var d :- Subscript(jd, "data");
      Ok(if d.JArr? then Some(d) else None)
    else Ok(None)
  }

  /**
   * The items of one response: none without `json_data`; TypeError from
   * `'json_data' in ...` or `response_data['json_data']` on a non-dict, and
   * from the comments when they are not a sized iterable.
   */
  function ResponseItems(resp: JSON): (r: Outcome<seq<JSON>>)
    ensures r.Ok? && r.value != [] ==> resp.JObj? && "json_data" in Keys(resp.members)
    ensures r.Raise? ==> r.exc == TypeError
  {
    var has :- Contains(resp, "json_data");
    if !has then Ok([])
    else if !resp.JObj? then Raise(TypeError)
    else
      var c :- CommentsOf(Field(resp.members, "json_data"));
      if c.None? then Ok([]) else Iter(c.value)
  }

  /** The source fields of the item at `j` of the response at `idx`. */
  function SourceOf(idx: nat, resp: JSON, j: nat): Source
  {
    var m := if resp.JObj? then resp.members else [];
    Source(idx, j, LookupOr(m, "url", JStr("Unknown URL")), LookupOr(m, "timestamp", JInt(0)),
           LookupOr(m, "processing_order", JInt(idx + 1)))
  }

  /** A raw comment and where it was read from. */
  datatype Located = Located(raw: JSON, source: Source)

  /** The items of the response at `idx`, each with its position. */
  function Positions(idx: nat, resp: JSON, items: seq<JSON>): (r: seq<Located>)
    ensures |r| == |items|
    ensures forall j :: 0 <= j < |items| ==> r[j].source.responseIndex == idx && r[j].source.commentIndex == j
  {
    seq(|items|, j requires 0 <= j < |items| => Located(items[j], SourceOf(idx, resp, j)))
  }

  lemma PositionsAt(idx: nat, resp: JSON, items: seq<JSON>)
    ensures forall j :: 0 <= j < |items| ==> Positions(idx, resp, items)[j] == Located(items[j], SourceOf(idx, resp, j))
  {
  }

  /** What each response yields: its items, or the exception reading them raises. */
  function Found(rs: seq<JSON>): (r: seq<Outcome<seq<JSON>>>)
    ensures |r| == |rs|
  {
    seq(|rs|, i requires 0 <= i < |rs| => ResponseItems(rs[i]))
  }

  lemma FoundAt(rs: seq<JSON>, i: nat)
    requires i < |rs|
    ensures Found(rs)[i] == ResponseItems(rs[i])
  {
  }

  /**
   * The pass over the responses `rs`, which yield `found`: the items of
   * each in turn, with their positions; the first exception ends it.
   */
  function Pass(rs: seq<JSON>, found: seq<Outcome<seq<JSON>>>): Outcome<seq<Located>>
    requires |found| == |rs|
  {
    if rs == [] then Ok([])
    else
      var n := |rs| - 1;
      var prev := Pass(rs[..n], found[..n]);
      if prev.Raise? then prev
      else if found[n].Raise? then Raise(found[n].exc)
      else Ok(prev.value + Positions(n, rs[n], found[n].value))
  }

  /** The located items of every response in turn; an exception anywhere ends the pass. */
  function AllItems(rs: seq<JSON>): Outcome<seq<Located>>
  {
    Pass(rs, Found(rs))
  }

  /** The number of items the responses yield. */
  function ItemCount(found: seq<Outcome<seq<JSON>>>): nat
  {
    if found == [] then 0
    else
      var last := found[|found| - 1];
      ItemCount(found[..|found| - 1]) + (if last.Ok? then |last.value| else 0)
  }

  /** `(a.responseIndex, a.commentIndex) < (b.responseIndex, b.commentIndex)` */
  predicate Earlier(a: Source, b: Source)
  {
    a.responseIndex < b.responseIndex || (a.responseIndex == b.responseIndex && a.commentIndex < b.commentIndex)
  }

  /** Every located item is the item its source names. */
  predicate Traced(rs: seq<JSON>, found: seq<Outcome<seq<JSON>>>, out: seq<Located>)
    requires |found| == |rs|
  {
    forall k :: 0 <= k < |out| ==>
      var src := out[k].source;
      src.responseIndex < |rs| && found[src.responseIndex].Ok? &&
      src.commentIndex < |found[src.responseIndex].value| &&
      out[k].raw == found[src.responseIndex].value[src.commentIndex] &&
      out[k].source == SourceOf(src.responseIndex, rs[src.responseIndex], src.commentIndex)
  }

  /** The sources are in order, so no item is read twice. */
  predicate InOrder(ls: seq<Located>)
  {
    forall k1, k2 :: 0 <= k1 < k2 < |ls| ==> Earlier(ls[k1].source, ls[k2].source)
  }

  /** A completed pass is the pass over all but the last response, then the last response's items. */
  lemma LastBlock(rs: seq<JSON>, found: seq<Outcome<seq<JSON>>>)
    requires |found| == |rs| && rs != [] && Pass(rs, found).Ok?
    ensures Pass(rs[..|rs| - 1], found[..|rs| - 1]).Ok? && found[|rs| - 1].Ok?
    ensures Pass(rs, found).value ==
            Pass(rs[..|rs| - 1], found[..|rs| - 1]).value + Positions(|rs| - 1, rs[|rs| - 1], found[|rs| - 1].value)
  {
  }

  /** A completed pass reads as many items as the responses yield. */
  lemma {:induction false} PassCount(rs: seq<JSON>, found: seq<Outcome<seq<JSON>>>)
    requires |found| == |rs| && Pass(rs, found).Ok?
    ensures |Pass(rs, found).value| == ItemCount(found)
  {
    if rs != [] {
      LastBlock(rs, found);
      PassCount(rs[..|rs| - 1], found[..|rs| - 1]);
    }
  }

  /** Every item of a completed pass is the item its source fields name. */
  lemma {:induction false} PassTraced(rs: seq<JSON>, found: seq<Outcome<seq<JSON>>>)
    requires |found| == |rs| && Pass(rs, found).Ok?
    ensures Traced(rs, found, Pass(rs, found).value)
  {
    if rs != [] {
      var n := |rs| - 1;
      LastBlock(rs, found);
      PassTraced(rs[..n], found[..n]);
      PositionsAt(n, rs[n], found[n].value);
      var prev := Pass(rs[..n], found[..n]).value;
      var blk := Positions(n, rs[n], found[n].value);
      var out := prev + blk;
      forall k | 0 <= k < |out|
        ensures var src := out[k].source;
                src.responseIndex < |rs| && found[src.responseIndex].Ok? &&
                src.commentIndex < |found[src.responseIndex].value| &&
                out[k].raw == found[src.responseIndex].value[src.commentIndex] &&
                out[k].source == SourceOf(src.responseIndex, rs[src.responseIndex], src.commentIndex)
      {
        if k < |prev| {
          assert out[k] == prev[k];
          var ri := prev[k].source.responseIndex;
          assert rs[ri] == rs[..n][ri] && found[ri] == found[..n][ri];
        } else {
          assert out[k] == blk[k - |prev|];
        }
      }
    }
  }

  /** Every item of a completed pass comes from one of its responses. */
  lemma {:induction false} PassBounded(rs: seq<JSON>, found: seq<Outcome<seq<JSON>>>)
    requires |found| == |rs| && Pass(rs, found).Ok?
    ensures forall k :: 0 <= k < |Pass(rs, found).value| ==> Pass(rs, found).value[k].source.responseIndex < |rs|
  {
    if rs != [] {
      var n := |rs| - 1;
      LastBlock(rs, found);
      PassBounded(rs[..n], found[..n]);
      var prev := Pass(rs[..n], found[..n]).value;
      var blk := Positions(n, rs[n], found[n].value);
      var out: seq<Located> := prev + blk;
      forall k | 0 <= k < |out| ensures out[k].source.responseIndex < |rs| {
        if k < |prev| {
          assert out[k] == prev[k];
        } else {
          assert out[k] == blk[k - |prev|];
        }
      }
    }
  }

  /** The items of a completed pass are in source order. */
  lemma {:induction false} PassInOrder(rs: seq<JSON>, found: seq<Outcome<seq<JSON>>>)
    requires |found| == |rs| && Pass(rs, found).Ok?
    ensures InOrder(Pass(rs, found).value)
  {
    if rs != [] {
      var n := |rs| - 1;
      LastBlock(rs, found);
      PassInOrder(rs[..n], found[..n]);
      PassBounded(rs[..n], found[..n]);
      var prev := Pass(rs[..n], found[..n]).value;
      var blk := Positions(n, rs[n], found[n].value);
      var out := prev + blk;
      forall k1, k2 | 0 <= k1 < k2 < |out| ensures Earlier(out[k1].source, out[k2].source) {
        if k2 < |prev| {
          assert out[k1] == prev[k1] && out[k2] == prev[k2];
        } else if k1 < |prev| {
          assert out[k1].source.responseIndex < n by {
            assert out[k1] == prev[k1];
          }
          assert out[k2].source.responseIndex == n by {
            assert out[k2] == blk[k2 - |prev|];
          }
        } else {
          assert out[k1] == blk[k1 - |prev|] && out[k2] == blk[k2 - |prev|];
        }
      }
    }
  }

  /** An exception in the responses up to `i` ends the whole pass. */
  lemma {:induction false} RaiseExtends(rs: seq<JSON>, found: seq<Outcome<seq<JSON>>>, i: nat)
    requires |found| == |rs| && i <= |rs| && Pass(rs[..i], found[..i]).Raise?
    ensures Pass(rs, found).Raise?
    decreases |rs| - i
  {
    if i < |rs| {
      assert rs[..i + 1][..i] == rs[..i] && found[..i + 1][..i] == found[..i];
      RaiseExtends(rs, found, i + 1);
    } else {
      assert rs[..i] == rs && found[..i] == found;
    }
  }

  /** The record of a located item: its detail record updated with its source fields. */
  function Finish(ls: seq<Located>): (r: seq<Tagged>)
    ensures |r| == |ls|
    ensures forall k :: 0 <= k < |ls| ==> r[k] == Tagged(ExtractDetails(ls[k].raw), ls[k].source)
  {
    seq(|ls|, k requires 0 <= k < |ls| => Tagged(ExtractDetails(ls[k].raw), ls[k].source))
  }

  lemma FinishAppend(a: seq<Located>, b: seq<Located>)
    ensures Finish(a + b) == Finish(a) + Finish(b)
  {
    assert |Finish(a + b)| == |Finish(a) + Finish(b)|;
    forall k | 0 <= k < |a + b| ensures Finish(a + b)[k] == (Finish(a) + Finish(b))[k] {
      if k < |a| {
        assert (a + b)[k] == a[k];
      } else {
        assert (a + b)[k] == b[k - |a|];
      }
    }
  }

  /**
   * The sample log of the first three records computes
   * `len(comment.get('text', ''))`, and slices and extends a long text,
   * for each that is not an error record: only a string, or a list or dict
   * of at most 100 entries, gets through.
   */
  predicate SampleLogs(t: Tagged)
  {
    t.item.Detailed? ==>
      var text := t.item.d.Text();
      Len(text).Ok? && (Len(text).value <= 100 || text.JStr?)
  }

  /** The sample log gets through the first three records. */
  predicate SampleLogged(all: seq<Tagged>)
  {
    forall k :: 0 <= k < 3 && k < |all| ==> SampleLogs(all[k])
  }

  /** The responses a file holds: TypeError when its JSON is not iterable. */
  function Responses(loaded: JSON): Outcome<seq<JSON>> { Iter(loaded) }

  /** The records of the responses a file holds, before the sample log. */
  function Collected(loaded: Option<JSON>): Outcome<seq<Tagged>>
  {
    if loaded.None? then Raise(JSONDecodeError)
    else
      var rs :- Responses(loaded.value);
      var ls :- AllItems(rs);
      Ok(Finish(ls))
  }

  /**
   * `read_all_api_responses()` as written, on the decoded file (None for a
   * missing or undecodable one): every exception, including one raised by
   * the sample log, gives [].
   */
  function ReadAll(loaded: Option<JSON>): (r: seq<Tagged>)
    ensures Collected(loaded).Raise? ==> r == []
  {
    var c := Collected(loaded);
    if c.Raise? then []
    else if !SampleLogged(c.value) then []
    else c.value
  }

  /** The file of the example below: one response holding one comment whose text is None. */
  function NullTextComment(): JSON { JObj([("cid", JStr("1")), ("text", JNull)]) }
  function NullTextResponse(): JSON { JObj([("json_data", JObj([("comments", JArr([NullTextComment()]))]))]) }

  lemma NullTextItems()
    ensures AllItems([NullTextResponse()]) == Ok([Located(NullTextComment(), SourceOf(0, NullTextResponse(), 0))])
  {
    var c := NullTextComment();
    var jd := JObj([("comments", JArr([c]))]);
    var resp := NullTextResponse();
    assert Contains(resp, "json_data") == Ok(true);
    assert Field(resp.members, "json_data") == jd;
    assert CommentsOf(jd) == Ok(Some(JArr([c])));
    assert ResponseItems(resp) == Ok([c]);
    var found := Found([resp]);
    assert found[0] == Ok([c]);
    assert [resp][..0] == [] && found[..0] == [];
    var blk := Positions(0, resp, [c]);
    PositionsAt(0, resp, [c]);
    assert blk == [Located(c, SourceOf(0, resp, 0))];
    assert [] + blk == blk;
  }

  /** A comment with a None text among the first three wipes out every record of the pass. */
  lemma NullTextLosesAll()
    ensures Collected(Some(JArr([NullTextResponse()]))).Ok?
    ensures |Collected(Some(JArr([NullTextResponse()]))).value| == 1
    ensures ReadAll(Some(JArr([NullTextResponse()]))) == []
  {
    NullTextItems();
    NullTextRecord();
    assert Responses(JArr([NullTextResponse()])) == Ok([NullTextResponse()]);
    var out := Collected(Some(JArr([NullTextResponse()]))).value;
    assert !SampleLogs(out[0]);
  }

  lemma NullTextRecord()
    ensures ExtractDetails(NullTextComment()).Detailed? && ExtractDetails(NullTextComment()).d.Text() == JNull
  {
    var m := NullTextComment().members;
    assert LookupOr(m, "user", EmptyObj) == EmptyObj;
    assert LookupOr(m, "text", JStr("")) == JNull;
  }

  /** `read_all_api_responses()` as intended: the sample log only reports. */
  function ReadAllIntended(loaded: Option<JSON>): (r: seq<Tagged>)
    ensures Collected(loaded).Ok? ==> r == Collected(loaded).value
    ensures Collected(loaded).Raise? ==> r == []
  {
    var c := Collected(loaded);
    if c.Raise? then [] else c.value
  }

  /**
   * The intended pass over a readable file keeps one record per item, in
   * source order, each the detail record of the item its source names.
   */
  lemma ReadAllIntendedExact(loaded: Option<JSON>)
    requires loaded.Some? && Responses(loaded.value).Ok? && AllItems(Responses(loaded.value).value).Ok?
    ensures var rs := Responses(loaded.value).value;
            var ls := AllItems(rs).value;
            var out := ReadAllIntended(loaded);
            |out| == ItemCount(Found(rs)) && Traced(rs, Found(rs), ls) && InOrder(ls) &&
            forall k :: 0 <= k < |out| ==> out[k] == Tagged(ExtractDetails(ls[k].raw), ls[k].source)
  {
    var rs := Responses(loaded.value).value;
    PassCount(rs, Found(rs));
    PassTraced(rs, Found(rs));
    PassInOrder(rs, Found(rs));
  }

  /** The records of one response, with the loop over its comments. */
  method ResponseBlock(idx: nat, resp: JSON) returns (r: Outcome<seq<Tagged>>)
    ensures r.Ok? <==> ResponseItems(resp).Ok?
    ensures r.Ok? ==> r.value == Finish(Positions(idx, resp, ResponseItems(resp).value))
    ensures r.Raise? ==> r.exc == ResponseItems(resp).exc
  {
    var found := ResponseItems(resp);
    if found.Raise? {
      return Raise(found.exc);
    }
    var records := RecordItems(idx, resp, found.value);
    return Ok(records);
  }

  /** The loop over one response's comments. */
  method RecordItems(idx: nat, resp: JSON, items: seq<JSON>) returns (records: seq<Tagged>)
    ensures records == Finish(Positions(idx, resp, items))
  {
    records := [];
    var j := 0;
    while j < |items|
      invariant 0 <= j <= |items|
      invariant |records| == j
      invariant forall t :: 0 <= t < j ==> records[t] == Tagged(ExtractDetails(items[t]), SourceOf(idx, resp, t))
    {
      var detailed := ExtractCommentDetails(items[j]);
      records := records + [Tagged(detailed, SourceOf(idx, resp, j))];
      j := j + 1;
    }
    PositionsAt(idx, resp, items);
  }

  /** The loop over the responses: the records, or the exception that ends it. */
  method CollectResponses(responses: seq<JSON>) returns (r: Outcome<seq<Tagged>>)
    ensures r.Ok? <==> AllItems(responses).Ok?
    ensures r.Ok? ==> r.value == Finish(AllItems(responses).value)
  {
    ghost var found := Found(responses);
    ghost var ls: seq<Located> := [];
    var all: seq<Tagged> := [];
    var i := 0;
    while i < |responses|
      invariant 0 <= i <= |responses|
      invariant Pass(responses[..i], found[..i]) == Ok(ls)
      invariant all == Finish(ls)
    {
      var block := ResponseBlock(i, responses[i]);
      FoundAt(responses, i);
      assert responses[..i + 1][..i] == responses[..i] && found[..i + 1][..i] == found[..i];
      assert responses[..i + 1][i] == responses[i] && found[..i + 1][i] == found[i];
      if block.Raise? {
        RaiseExtends(responses, found, i + 1);
        return Raise(block.exc);
      }
      ghost var blk := Positions(i, responses[i], found[i].value);
      FinishAppend(ls, blk);
      ls := ls + blk;
      all := all + block.value;
      i := i + 1;
    }
    assert responses[..i] == responses && found[..i] == found;
    return Ok(all);
  }

  /** `read_all_api_responses()`: the loop over the responses, then the sample log of the first three records. */
  method ReadAllApiResponses(loaded: Option<JSON>) returns (all: seq<Tagged>)
    ensures all == ReadAll(loaded)
  {
    if loaded.None? {
      return [];
    }
    var iterated := Iter(loaded.value);
    if iterated.Raise? {
      return [];
    }
    var collected := CollectResponses(iterated.value);
    if collected.Raise? {
      return [];
    }
    var logged := LogSample(collected.value);
    all := if logged then collected.value else [];
  }

  /** The sample log: false when it raises on one of the first three records. */
  method LogSample(all: seq<Tagged>) returns (logged: bool)
    ensures logged <==> SampleLogged(all)
  {
    var k := 0;
    while k < 3 && k < |all|
      invariant 0 <= k <= |all|
      invariant forall t :: 0 <= t < k ==> SampleLogs(all[t])
    {
      if !SampleLogs(all[k]) {
        return false;
      }
      k := k + 1;
    }
    return true;
  }
}
