// A TikTok video: the fields its data extraction assigns, the objects it
// builds for its author, sound and hashtags when an API client is attached,
// the constructor's id rule, and the lookup of the video's data in the
// state a video page embeds.

module Video {
  import opened Json
  import opened PageState
  import Helpers
  import User
  import Sound
  import Hashtag

  /** `author`: the raw value, or the user object the client builds from it. */
  datatype AuthorValue = RawAuthor(data: JSON) | UserAuthor(user: User.Attrs)

  /** `sound`: the raw `music` value, or the sound object the client builds from the video's data. */
  datatype SoundValue = RawSound(data: JSON) | SoundObject(sound: Sound.Fields)

  /** `hashtags`: the raw `challenges` value, or one hashtag object per challenge. */
  datatype TagsValue = RawTags(data: JSON) | TagObjects(tags: seq<Hashtag.Fields>)

  /**
   * A video's attributes; None for one that was never assigned. The
   * creation time is kept as the seconds `datetime.fromtimestamp` is given:
   * `Some(None)` is an assigned None.
   */
  datatype Fields = Fields(
    id: JSON, url: Option<string>, createTime: Option<Option<int>>, stats: Option<JSON>,
    author: Option<AuthorValue>, sound: Option<SoundValue>, hashtags: Option<TagsValue>, asDict: Option<JSON>)

  /** The attributes after a data extraction, and the exception that cut it short. */
  datatype Step = Step(f: Fields, raised: Option<Exc>)

  /** The attributes right after `self.id = id` and `self.url = url`. */
  function Fresh(id: JSON, url: Option<string>): Fields
  {
    Fields(id, url, None, None, None, None, None, None)
  }

  function Field(m: seq<(string, JSON)>, key: string): JSON { LookupOr(m, key, JNull) }

  /** `int(timestamp)` unless the timestamp is None; None when int() rejects it. */
  function CreateTime(ts: JSON): (t: Option<int>)
    ensures t.Some? <==> ts != JNull && ToInt(ts).Ok?
    ensures t.Some? ==> t.value == ToInt(ts).value
  {
    if ts == JNull then None
    else
      var i := ToInt(ts);
      if i.Ok? then Some(i.value) else None
  }

  /** A `data=` keyword argument: Python's None is no data at all. */
  function DataArg(v: JSON): Option<JSON>
  {
    if v == JNull then None else Some(v)
  }

  /** `parent.user(username=author)` for a string, `parent.user(data=author)` otherwise. */
  function AuthorObject(author: JSON): Outcome<User.Attrs>
  {
    if author.JStr? then User.Construct(author, JNull, JNull, None)
    else User.Construct(JNull, JNull, JNull, DataArg(author))
  }

  /** `[parent.hashtag(data=h) for h in items]`: the first construction that raises ends the list. */
  function HashtagObjects(items: seq<JSON>): (r: Outcome<seq<Hashtag.Fields>>)
    ensures r.Ok? ==> |r.value| == |items| &&
                      forall i :: 0 <= i < |items| ==> Hashtag.Construct(JNull, JNull, DataArg(items[i])) == Ok(r.value[i])
    ensures r.Raise? <==> exists i :: 0 <= i < |items| && Hashtag.Construct(JNull, JNull, DataArg(items[i])).Raise?
    ensures r.Raise? ==> exists i :: 0 <= i < |items| && Hashtag.Construct(JNull, JNull, DataArg(items[i])) == Raise(r.exc)
  {
    if items == [] then Ok([])
    else
      var h := Hashtag.Construct(JNull, JNull, DataArg(items[0]));
      if h.Raise? then Raise(h.exc)
      else
        var rest := HashtagObjects(items[1..]);
        if rest.Raise? then
          assert forall i :: 1 <= i < |items| ==> items[i] == items[1..][i - 1];
          Raise(rest.exc)
        else
          assert forall i :: 1 <= i < |items| ==> items[i] == items[1..][i - 1];
          Ok([h.value] + rest.value)
  }

  /** The assignments that need no client: id, creation time and stats (`statsV2` when truthy). */
  function Basics(f: Fields, m: seq<(string, JSON)>): Fields
  {
    f.(id := Field(m, "id"), createTime := Some(CreateTime(Field(m, "createTime"))),
       stats := Some(Or(Field(m, "statsV2"), Field(m, "stats"))))
  }

  /** `data.get("challenges", [])` */
  function Challenges(m: seq<(string, JSON)>): JSON { LookupOr(m, "challenges", JArr([])) }

  /**
   * With a client: the author's user object, the sound object built from
   * the whole video dict, then the hashtag objects, each assigned in turn
   * until one raises.
   */
  function Linked(f: Fields, data: JSON): (s: Step)
    requires data.JObj?
    ensures s.f == f.(author := s.f.author, sound := s.f.sound, hashtags := s.f.hashtags)
  {
    var m := data.members;
    var u := AuthorObject(Field(m, "author"));
    if u.Raise? then Step(f, Some(u.exc))
    else
      var f2 := f.(author := Some(UserAuthor(u.value)));
      var snd := Sound.Construct(JNull, Some(data));
      if snd.Raise? then Step(f2, Some(snd.exc))
      else
        var f3 := f2.(sound := Some(SoundObject(snd.value)));
        var items := Iter(Challenges(m));
        if items.Raise? then Step(f3, Some(items.exc))
        else
          var tags := HashtagObjects(items.value);
          if tags.Raise? then Step(f3, Some(tags.exc))
          else Step(f3.(hashtags := Some(TagObjects(tags.value))), None)
  }

  /**
   * `__extract_from_data` on the stored raw data: AttributeError before any
   * assignment unless it is a dict; without a client the author, `music`
   * and `challenges` values are kept raw.
   */
  function Extraction(f: Fields, hasParent: bool): (s: Step)
    requires f.asDict.Some?
    ensures s.f.asDict == f.asDict && s.f.url == f.url
  {
    var data := f.asDict.value;
    if !data.JObj? then Step(f, Some(AttributeError))
    else
      var m := data.members;
      var f1 := Basics(f, m);
      if !hasParent then
        Step(f1.(author := Some(RawAuthor(Field(m, "author"))), sound := Some(RawSound(Field(m, "music"))),
                 hashtags := Some(RawTags(Challenges(m)))), None)
      else Linked(f1, data)
  }

  /**
   * `Video(id, url, data)`: the extraction when data is given, else the id
   * read from the URL (after the HEAD request, whose final URL is
   * `resolved`), then TypeError when the id is None.
   */
  function Construct(id: JSON, url: Option<string>, data: Option<JSON>, resolved: Option<string>, hasParent: bool): Outcome<Fields>
  {
    var f0 := Fresh(id, url);
    var f :-
      if data.Some? then
        var s := Extraction(f0.(asDict := data), hasParent);
        if s.raised.Some? then Raise(s.raised.value) else Ok(s.f)
      else if url.Some? then
        var vid :- Helpers.ExtractVideoId(url.value, resolved);
        Ok(f0.(id := JStr(vid)))
      else Ok(f0);
    if f.id == JNull then Raise(TypeError) else Ok(f)
  }

  /**
   * Given data, a video's id is the data's `id`, whatever id was passed:
   * data without one (or a non-dict) makes the constructor raise, and so
   * does a failing construction of a linked object.
   */
  lemma ConstructFromData(id: JSON, url: Option<string>, m: seq<(string, JSON)>, resolved: Option<string>, hasParent: bool)
    ensures var r := Construct(id, url, Some(JObj(m)), resolved, hasParent);
            var s := Extraction(Fresh(id, url).(asDict := Some(JObj(m))), hasParent);
            (r.Ok? <==> s.raised.None? && Field(m, "id") != JNull) &&
            (r.Ok? ==> r.value == s.f && r.value.id == Field(m, "id")) &&
            (s.raised.None? && Field(m, "id") == JNull ==> r == Raise(TypeError)) &&
            (s.raised.Some? ==> r == Raise(s.raised.value))
  {
    var s := Extraction(Fresh(id, url).(asDict := Some(JObj(m))), hasParent);
    if s.raised.None? {
      assert s.f.id == Field(m, "id");
    }
  }

  /** A non-dict is rejected with AttributeError before anything is assigned. */
  lemma ConstructFromNonDict(id: JSON, url: Option<string>, data: JSON, resolved: Option<string>, hasParent: bool)
    requires !data.JObj?
    ensures Construct(id, url, Some(data), resolved, hasParent) == Raise(AttributeError)
  {
  }

  /** The passed id does not survive data that lacks one. */
  lemma DataWithoutIdRaises(id: JSON)
    ensures Construct(id, None, Some(JObj([("desc", JStr("x"))])), None, false) == Raise(TypeError)
  {
    ConstructFromData(id, None, [("desc", JStr("x"))], None, false);
  }

  /** Without data, a URL gives the id read from it, and a URL that holds none raises TypeError. */
  lemma ConstructFromUrl(id: JSON, url: string, resolved: Option<string>, hasParent: bool)
    ensures var r := Construct(id, Some(url), None, resolved, hasParent);
            var vid := Helpers.ExtractVideoId(url, resolved);
            (r.Ok? <==> vid.Ok?) &&
            (r.Ok? ==> r.value == Fresh(JStr(vid.value), Some(url))) &&
            (r.Raise? ==> r.exc == TypeError)
  {
  }

  /** With neither data nor URL, only a non-None id is accepted. */
  lemma ConstructFromId(id: JSON, resolved: Option<string>, hasParent: bool)
    ensures Construct(id, None, None, resolved, hasParent) == if id == JNull then Raise(TypeError) else Ok(Fresh(id, None))
  {
  }

  /**
   * What every completed extraction assigns from the data: the `id`, the
   * parsed `createTime` (None when absent, None or rejected by int()), and
   * `statsV2` when truthy, else `stats`.
   */
  lemma ExtractionBasics(f: Fields, hasParent: bool)
    requires f.asDict.Some? && f.asDict.value.JObj?
    ensures var s := Extraction(f, hasParent);
            var m := f.asDict.value.members;
            s.f.id == Field(m, "id") &&
            s.f.createTime == Some(CreateTime(Field(m, "createTime"))) &&
            s.f.stats == Some(if Truthy(Field(m, "statsV2")) then Field(m, "statsV2") else Field(m, "stats"))
  {
  }

  /** Without a client nothing can raise, and the linked values are kept raw. */
  lemma ExtractionWithoutClient(f: Fields)
    requires f.asDict.Some? && f.asDict.value.JObj?
    ensures var s := Extraction(f, false);
            var m := f.asDict.value.members;
            s.raised.None? &&
            s.f.author == Some(RawAuthor(Field(m, "author"))) &&
            s.f.sound == Some(RawSound(Field(m, "music"))) &&
            s.f.hashtags == Some(RawTags(LookupOr(m, "challenges", JArr([]))))
  {
  }

  /**
   * With a client, the extraction completes exactly when the author's user
   * object, the sound object and every hashtag object can be built, and
   * then holds them; a string author is taken as a username.
   */
  lemma ExtractionWithClient(f: Fields)
    requires f.asDict.Some? && f.asDict.value.JObj?
    ensures var s := Extraction(f, true);
            var data := f.asDict.value;
            var m := data.members;
            var items := Iter(Challenges(m));
            (s.raised.None? <==> AuthorObject(Field(m, "author")).Ok? && Sound.Construct(JNull, Some(data)).Ok? &&
                                 items.Ok? && HashtagObjects(items.value).Ok?) &&
            (s.raised.None? ==>
               s.f.author == Some(UserAuthor(AuthorObject(Field(m, "author")).value)) &&
               s.f.sound == Some(SoundObject(Sound.Construct(JNull, Some(data)).value)) &&
               s.f.hashtags == Some(TagObjects(HashtagObjects(items.value).value)))
  {
  }

  /** A None among the challenges cannot be made a hashtag: `hashtag(data=None)` has no name, id or data. */
  lemma NullChallengeRaises(items: seq<JSON>, i: nat)
    requires i < |items| && items[i] == JNull
    ensures HashtagObjects(items) .Raise?
  {
    Hashtag.ConstructWithoutData(JNull, JNull, None);
  }

  // ---------------------------------------------------------------------
  // The page

  /**
   * `data["ItemModule"][self.id]` on the decoded SIGI state, with KeyError
   * (and a JSONDecodeError) reported as InvalidResponse; a TypeError or
   * IndexError from subscripting something that is not a dict escapes.
   */
  function SigiVideo(decoded: Option<JSON>, id: JSON): (r: Outcome<JSON>)
    ensures decoded.None? ==> r == Raise(InvalidResponse)
    ensures r.Raise? ==> r.exc != KeyError
    ensures decoded.Some? && id.JStr? ==>
              var items := Subscript(decoded.value, "ItemModule");
              (r.Ok? <==> items.Ok? && items.value.JObj? && id.s in Keys(items.value.members)) &&
              (r.Ok? ==> Lookup(items.value.members, id.s) == Some(r.value))
  {
    if decoded.None? then Raise(InvalidResponse)
    else
      var items := Subscript(decoded.value, "ItemModule");
      if items.Raise? then (if items.exc == KeyError then Raise(InvalidResponse) else Raise(items.exc))
      else
        var item := Index(items.value, id);
        if item.Raise? then (if item.exc == KeyError then Raise(InvalidResponse) else Raise(item.exc))
        else item
  }

  /**
   * The universal data: `__DEFAULT_SCOPE__` → `webapp.video-detail`, whose
   * `statusCode` (0 when absent) must equal 0 and whose
   * `itemInfo.itemStruct` must not be None. A `.get` on a non-dict raises
   * AttributeError, which escapes.
   */
  function UniversalVideo(decoded: Option<JSON>): (r: Outcome<JSON>)
    ensures decoded.None? ==> r == Raise(InvalidResponse)
    ensures r.Ok? ==> r.value != JNull
    ensures r.Raise? ==> r.exc == InvalidResponse || r.exc == AttributeError
  {
    if decoded.None? then Raise(InvalidResponse)
    else
      var scope :- Get(decoded.value, "__DEFAULT_SCOPE__", EmptyObj);
      var detail :- Get(scope, "webapp.video-detail", EmptyObj);
      if !detail.JObj? then Raise(AttributeError)
      else if !EqualsZero(LookupOr(detail.members, "statusCode", JInt(0))) then Raise(InvalidResponse)
      else
        var item :- Get(LookupOr(detail.members, "itemInfo", EmptyObj), "itemStruct", JNull);
        if item == JNull then Raise(InvalidResponse) else Ok(item)
  }

  /**
   * `info()`'s lookup in the page source: the SIGI state when its marker is
   * present, with no fallback once it is; the universal data only when the
   * SIGI marker is absent; InvalidResponse for a missing marker or
   * terminator.
   */
  function PageVideo(page: string, loads: Loads, id: JSON): Outcome<JSON>
  {
    match Locate(page, SigiMarker)
    case Text(t) => SigiVideo(loads(t), id)
    case Unterminated => Raise(InvalidResponse)
    case NoMarker =>
      match Locate(page, UniversalMarker)
      case Text(t) => UniversalVideo(loads(t))
      case _ => Raise(InvalidResponse)
  }

  /**
   * With the SIGI marker present, the video is read from the decoded text
   * between its first occurrence and the next `</script>`: whatever else
   * the page holds.
   */
  lemma SigiText(page: string, loads: Loads, id: JSON, i: nat, t: string)
    requires FirstAt(page, SigiMarker, i)
    requires OccursAt(page, SigiMarker + t + ScriptEnd, i) && EndsFirst(t)
    ensures PageVideo(page, loads, id) == SigiVideo(loads(t), id)
  {
    LocateUnique(page, SigiMarker, i, t);
  }

  /** A SIGI marker without a closing `</script>` is an invalid response, even when universal data follows. */
  lemma SigiUnterminated(page: string, loads: Loads, id: JSON)
    requires Find(page, SigiMarker, 0) != -1
    requires Find(page, ScriptEnd, Find(page, SigiMarker, 0) + |SigiMarker|) == -1
    ensures PageVideo(page, loads, id) == Raise(InvalidResponse)
  {
  }

  /** Without the SIGI marker, the video is the universal data's `itemStruct`, read from the text its marker delimits. */
  lemma UniversalText(page: string, loads: Loads, id: JSON, i: nat, t: string)
    requires Find(page, SigiMarker, 0) == -1
    requires FirstAt(page, UniversalMarker, i)
    requires OccursAt(page, UniversalMarker + t + ScriptEnd, i) && EndsFirst(t)
    ensures PageVideo(page, loads, id) == UniversalVideo(loads(t))
  {
    LocateUnique(page, UniversalMarker, i, t);
  }

  /** A page with neither marker is an invalid response. */
  lemma NoMarkers(page: string, loads: Loads, id: JSON)
    requires Find(page, SigiMarker, 0) == -1 && Find(page, UniversalMarker, 0) == -1
    ensures PageVideo(page, loads, id) == Raise(InvalidResponse)
  {
  }

  /** The universal data is accepted exactly when its status code is 0 (or absent) and its item struct is not None. */
  lemma UniversalAccepted(scope: seq<(string, JSON)>, detail: seq<(string, JSON)>)
    requires Lookup(scope, "webapp.video-detail") == Some(JObj(detail))
    ensures var decoded := JObj([("__DEFAULT_SCOPE__", JObj(scope))]);
            var info := LookupOr(detail, "itemInfo", EmptyObj);
            var r := UniversalVideo(Some(decoded));
            (r.Ok? <==> EqualsZero(LookupOr(detail, "statusCode", JInt(0))) && info.JObj? &&
                        Field(info.members, "itemStruct") != JNull) &&
            (r.Ok? ==> r.value == Field(info.members, "itemStruct"))
  {
    var decoded := JObj([("__DEFAULT_SCOPE__", JObj(scope))]);
    assert Get(decoded, "__DEFAULT_SCOPE__", EmptyObj) == Ok(JObj(scope));
  }

  /** A non-zero status code rejects the data: the string "0" is not 0, and neither is None. */
  lemma StatusCodeMustBeZero()
    ensures var detail := [("statusCode", JStr("0")), ("itemInfo", JObj([("itemStruct", JObj([]))]))];
            UniversalVideo(Some(JObj([("__DEFAULT_SCOPE__", JObj([("webapp.video-detail", JObj(detail))]))]))) ==
            Raise(InvalidResponse)
  {
    var detail := [("statusCode", JStr("0")), ("itemInfo", JObj([("itemStruct", JObj([]))]))];
    UniversalAccepted([("webapp.video-detail", JObj(detail))], detail);
  }

  // ---------------------------------------------------------------------
  // The object

  class Video {
    var id: JSON
    var url: Option<string>
    var createTime: Option<Option<int>>
    var stats: Option<JSON>
    var author: Option<AuthorValue>
    var sound: Option<SoundValue>
    var hashtags: Option<TagsValue>
    var asDict: Option<JSON>

    function Snapshot(): Fields
      reads this
    {
      Fields(id, url, createTime, stats, author, sound, hashtags, asDict)
    }

    /** `self.id = id`; `self.url = url` */
    constructor (id: JSON, url: Option<string>)
      ensures Snapshot() == Fresh(id, url)
    {
      this.id := id;
      this.url := url;
      createTime, stats, author, sound, hashtags, asDict := None, None, None, None, None, None;
    }

    /** `Video(id, url, data)` in full. */
    static method New(id: JSON, url: Option<string>, data: Option<JSON>, resolved: Option<string>, hasParent: bool)
      returns (r: Outcome<Video>)
      ensures r.Raise? <==> Construct(id, url, data, resolved, hasParent).Raise?
      ensures r.Raise? ==> r.exc == Construct(id, url, data, resolved, hasParent).exc
      ensures r.Ok? ==> fresh(r.value) && r.value.Snapshot() == Construct(id, url, data, resolved, hasParent).value
    {
      var v := new Video(id, url);
      if data.Some? {
        v.asDict := data;
        var raised := v.ExtractFromData(hasParent);
        if raised.Some? {
          return Raise(raised.value);
        }
      } else if url.Some? {
        var vid := Helpers.ExtractVideoId(url.value, resolved);
        if vid.Raise? {
          return Raise(vid.exc);
        }
        v.id := JStr(vid.value);
      }
      if v.id == JNull {
        return Raise(TypeError);
      }
      return Ok(v);
    }

    /**
     * `__extract_from_data`, one assignment at a time; an exception leaves
     * the attributes assigned before it.
     */
    method ExtractFromData(hasParent: bool) returns (raised: Option<Exc>)
      requires asDict.Some?
      modifies this
      ensures Step(Snapshot(), raised) == Extraction(old(Snapshot()), hasParent)
    {
      var data := asDict.value;
      if !data.JObj? {
        return Some(AttributeError);
      }
      var m := data.members;
      AssignBasics(m);
      if !hasParent {
        author := Some(RawAuthor(Field(m, "author")));
        sound := Some(RawSound(Field(m, "music")));
        hashtags := Some(RawTags(LookupOr(m, "challenges", JArr([]))));
        return None;
      }
      raised := AssignLinked(data);
    }

    /** The id, creation time and stats, in that order. */
    method AssignBasics(m: seq<(string, JSON)>)
      modifies this
      ensures Snapshot() == Basics(old(Snapshot()), m)
    {
      id := Field(m, "id");
      var timestamp := Field(m, "createTime");
      if timestamp != JNull {
        var seconds := ToInt(timestamp);
        if seconds.Ok? {
          createTime := Some(Some(seconds.value));
        } else {
          createTime := Some(None);
        }
      } else {
        createTime := Some(None);
      }
      assert createTime == Some(CreateTime(timestamp));
      stats := Some(Or(Field(m, "statsV2"), Field(m, "stats")));
    }

    /** The client-built author, sound and hashtags, in that order. */
    method AssignLinked(data: JSON) returns (raised: Option<Exc>)
      requires data.JObj?
      modifies this
      ensures Step(Snapshot(), raised) == Linked(old(Snapshot()), data)
    {
      var m := data.members;
      var u := AuthorObject(Field(m, "author"));
      if u.Raise? {
        return Some(u.exc);
      }
      author := Some(UserAuthor(u.value));
      var snd := Sound.Construct(JNull, Some(data));
      if snd.Raise? {
        return Some(snd.exc);
      }
      sound := Some(SoundObject(snd.value));
      var items := Iter(LookupOr(m, "challenges", JArr([])));
      if items.Raise? {
        return Some(items.exc);
      }
      var tags := HashtagObjects(items.value);
      if tags.Raise? {
        return Some(tags.exc);
      }
      hashtags := Some(TagObjects(tags.value));
      return None;
    }

    /**
     * `info()`: TypeError without a URL or a driver; otherwise the page's
     * video data is looked up, stored as the raw data and extracted, and
     * returned unless the extraction raised.
     */
    method Info(hasDriver: bool, page: string, loads: Loads, hasParent: bool) returns (r: Outcome<JSON>)
      modifies this
      ensures url.None? || !hasDriver ==> r == Raise(TypeError) && Snapshot() == old(Snapshot())
      ensures old(url).Some? && hasDriver ==>
                match PageVideo(page, loads, old(id))
                case Raise(e) => r == Raise(e) && Snapshot() == old(Snapshot())
                case Ok(info) =>
                  var s := Extraction(old(Snapshot()).(asDict := Some(info)), hasParent);
                  Snapshot() == s.f && r == (if s.raised.Some? then Raise(s.raised.value) else Ok(info))
    {
      if url.None? || !hasDriver {
        return Raise(TypeError);
      }
      var found := PageVideo(page, loads, id);
      if found.Raise? {
        return Raise(found.exc);
      }
      asDict := Some(found.value);
      var raised := ExtractFromData(hasParent);
      if raised.Some? {
        return Raise(raised.value);
      }
      return Ok(found.value);
    }
  }
}
