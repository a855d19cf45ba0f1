// A sound: the fields its data extraction assigns (from the `music` sub-dict
// when there is one), the videos that use it, and its summary and string views.

module Sound {
  import opened Json
  import opened Pagination

  /** A sound's attributes; None for one that was never assigned. */
  datatype Fields = Fields(
    id: JSON, title: Option<JSON>, authorName: Option<JSON>, duration: Option<JSON>,
    playUrl: Option<JSON>, videoCount: Option<JSON>, asDict: Option<JSON>)

  /** The attributes right after `self.id = id`. */
  function Fresh(id: JSON): Fields
  {
    Fields(id, None, None, None, None, None, None)
  }

  function Field(m: seq<(string, JSON)>, key: string): JSON { LookupOr(m, key, JNull) }

  /** `data['music'] if 'music' in data else data`, on the stored raw data. */
  function SoundData(data: JSON): (r: Outcome<JSON>)
    ensures data.JObj? ==> r == Ok(if "music" in Keys(data.members) then Field(data.members, "music") else data)
    ensures r.Raise? ==> r.exc == TypeError
  {
    var nested :- Contains(data, "music");
    if nested then Subscript(data, "music") else Ok(data)
  }

  /** The dict the fields of a dict's extraction are read from. */
  function Nested(m: seq<(string, JSON)>): JSON
  {
    if "music" in Keys(m) then Field(m, "music") else JObj(m)
  }

  /**
   * `sound_data.get("playUrl") or sound_data.get("play") or
   * sound_data.get("original", {}).get("playUrl") if isinstance(...) else None`:
   * the conditional governs the whole `or` chain.
   */
  function PlayUrl(m: seq<(string, JSON)>): (r: JSON)
    ensures !Field(m, "original").JObj? ==> r == JNull
    ensures Field(m, "original").JObj? && Truthy(Field(m, "playUrl")) ==> r == Field(m, "playUrl")
    ensures Field(m, "original").JObj? && !Truthy(Field(m, "playUrl")) && Truthy(Field(m, "play")) ==> r == Field(m, "play")
    ensures Field(m, "original").JObj? && !Truthy(Field(m, "playUrl")) && !Truthy(Field(m, "play")) ==>
              r == Field(Field(m, "original").members, "playUrl")
  {
    var original := Field(m, "original");
    if original.JObj? then Or(Or(Field(m, "playUrl"), Field(m, "play")), Field(original.members, "playUrl"))
    else JNull
  }

  /** The assignments on the dict `sound_data`, given the video count it read. */
  function Assign(f: Fields, m: seq<(string, JSON)>, videoCount: JSON): Fields
  {
    f.(id := Or(Field(m, "id"), f.id), title := Some(Field(m, "title")),
       authorName := Some(Field(m, "authorName")), duration := Some(Field(m, "duration")),
       playUrl := Some(PlayUrl(m)), videoCount := Some(videoCount))
  }

  /**
   * The data extraction: nothing for falsy data; otherwise the fields are
   * read from `sound_data`, whose `.get` raises AttributeError unless it is a
   * dict, and `stats.get("videoCount", 0)` does the same for `stats`.
   */
  function Extraction(f: Fields): Outcome<Fields>
    requires f.asDict.Some?
  {
    var data := f.asDict.value;
    if !Truthy(data) then Ok(f)
    else
      var sd :- SoundData(data);
      if !sd.JObj? then Raise(AttributeError)
      else
        var videoCount :- Get(LookupOr(sd.members, "stats", EmptyObj), "videoCount", JInt(0));
        Ok(Assign(f, sd.members, videoCount))
  }

  /** `Sound(id, data)`: the id, the extraction when data is given, then TypeError when neither id nor data is truthy. */
  function Construct(id: JSON, data: Option<JSON>): Outcome<Fields>
  {
    var f :- if data.Some? then Extraction(Fresh(id).(asDict := data)) else Ok(Fresh(id));
    if !Truthy(f.id) && !(data.Some? && Truthy(data.value)) then Raise(TypeError) else Ok(f)
  }

  /** Without truthy data a sound needs a truthy id, and keeps nothing else. */
  lemma ConstructWithoutData(id: JSON, data: Option<JSON>)
    requires data.None? || !Truthy(data.value)
    ensures Construct(id, data).Ok? <==> Truthy(id)
    ensures Construct(id, data).Raise? ==> Construct(id, data).exc == TypeError
    ensures Construct(id, data).Ok? ==> Construct(id, data).value == Fresh(id).(asDict := data)
  {
  }

  /**
   * A sound built from a non-empty dict never needs an id: it fails, with
   * AttributeError, only when the dict its fields come from, or that dict's
   * `stats`, is not a dict; its id is that dict's truthy `id`, else the
   * given one, and its video count is `stats.videoCount`, default 0.
   */
  lemma ConstructFromDict(id: JSON, m: seq<(string, JSON)>)
    requires m != []
    ensures var r := Construct(id, Some(JObj(m)));
            var n := Nested(m);
            (r.Raise? <==> !n.JObj? || !LookupOr(n.members, "stats", EmptyObj).JObj?) &&
            (r.Raise? ==> r.exc == AttributeError) &&
            (r.Ok? ==>
               r.value.id == (if Truthy(Field(n.members, "id")) then Field(n.members, "id") else id) &&
               r.value.title == Some(Field(n.members, "title")) &&
               r.value.authorName == Some(Field(n.members, "authorName")) &&
               r.value.duration == Some(Field(n.members, "duration")) &&
               r.value.playUrl == Some(PlayUrl(n.members)) &&
               r.value.videoCount == Some(LookupOr(LookupOr(n.members, "stats", EmptyObj).members, "videoCount", JInt(0))) &&
               r.value.asDict == Some(JObj(m)))
  {
    assert Truthy(JObj(m));
    assert SoundData(JObj(m)) == Ok(Nested(m));
  }

  /**
   * With a `music` key every field comes from the nested dict: the sound is
   * the one built from that dict alone, but for the raw data it keeps.
   */
  lemma MusicNesting(id: JSON, m: seq<(string, JSON)>, n: seq<(string, JSON)>)
    requires "music" in Keys(m) && Field(m, "music") == JObj(n)
    requires n != [] && "music" !in Keys(n)
    ensures var outer := Construct(id, Some(JObj(m)));
            var inner := Construct(id, Some(JObj(n)));
            outer.Ok? <==> inner.Ok?
    ensures var outer := Construct(id, Some(JObj(m)));
            var inner := Construct(id, Some(JObj(n)));
            outer.Ok? ==> outer.value == inner.value.(asDict := Some(JObj(m)))
  {
    assert m != [];
    ConstructFromDict(id, m);
    ConstructFromDict(id, n);
    assert Nested(m) == JObj(n) == Nested(n);
  }

  /** Without a dict `original`, a present play URL is still dropped. */
  lemma PlayUrlNeedsOriginal(url: string)
    requires url != ""
    ensures var m := [("playUrl", JStr(url))];
            Construct(JNull, Some(JObj(m))).Ok? && Construct(JNull, Some(JObj(m))).value.playUrl == Some(JNull)
  {
    var m := [("playUrl", JStr(url))];
    ConstructFromDict(JNull, m);
    assert Nested(m) == JObj(m);
    assert Field(m, "original") == JNull;
  }

  /** With the `original` dict present, the top-level play URL wins. */
  lemma PlayUrlWithOriginal(url: string, other: string)
    requires url != ""
    ensures var m := [("playUrl", JStr(url)), ("original", JObj([("playUrl", JStr(other))]))];
            Construct(JNull, Some(JObj(m))).Ok? && Construct(JNull, Some(JObj(m))).value.playUrl == Some(JStr(url))
  {
    var m := [("playUrl", JStr(url)), ("original", JObj([("playUrl", JStr(other))]))];
    ConstructFromDict(JNull, m);
    assert m[0].0 != "original" && m[1..] == [("original", JObj([("playUrl", JStr(other))]))];
    assert Lookup(m, "original") == Some(JObj([("playUrl", JStr(other))]));
    assert Nested(m) == JObj(m);
  }

  // ---------------------------------------------------------------------
  // Readers

  /** The dict `get_summary()` returns, one field per key. */
  datatype SoundSummary = SoundSummary(
    id: JSON, title: JSON, authorName: JSON, duration: JSON, videoCount: JSON, playUrl: JSON, hasData: bool)

  /** `get_summary()`: AttributeError for any attribute never assigned. */
  function Summary(f: Fields): (r: Outcome<SoundSummary>)
    ensures r.Ok? <==> f.title.Some? && f.authorName.Some? && f.duration.Some? && f.videoCount.Some? &&
                       f.playUrl.Some? && f.asDict.Some?
    ensures r.Raise? ==> r.exc == AttributeError
  {
    if f.title.None? || f.authorName.None? || f.duration.None? || f.videoCount.None? ||
       f.playUrl.None? || f.asDict.None? then Raise(AttributeError)
    else
      Ok(SoundSummary(f.id, f.title.value, f.authorName.value, f.duration.value, f.videoCount.value,
                      f.playUrl.value, Truthy(f.asDict.value)))
  }

  /** A sound built from an id alone, or from an empty dict, has no summary. */
  lemma SummaryNeedsData(id: JSON, data: Option<JSON>)
    requires data.None? || !Truthy(data.value)
    requires Construct(id, data).Ok?
    ensures Summary(Construct(id, data).value) == Raise(AttributeError)
  {
    ConstructWithoutData(id, data);
  }

  /** A sound built from a non-empty dict has a summary with has_data true and its fields. */
  lemma SummaryOfDict(id: JSON, m: seq<(string, JSON)>)
    requires m != [] && Construct(id, Some(JObj(m))).Ok?
    ensures var c := Construct(id, Some(JObj(m))).value;
            var r := Summary(c);
            r.Ok? && r.value.hasData && r.value.id == c.id &&
            r.value.title == Field(Nested(m).members, "title") &&
            r.value.playUrl == PlayUrl(Nested(m).members)
  {
    ConstructFromDict(id, m);
  }

  /** `getattr(self, name, None)` rendered by an f-string. */
  function AttrStr(v: Option<JSON>): string
  {
    if v.Some? then Str(v.value) else "None"
  }

  /** `str(sound)`: `Sound(id='…', title='…')`; an unassigned title shows as None. */
  function StrOf(f: Fields): string
  {
    "Sound(id='" + Str(f.id) + "', title='" + AttrStr(f.title) + "')"
  }

  /**
   * The string view never raises: a sound built from its id alone shows its
   * title as None, one built from a non-empty dict shows the dict's title.
   */
  lemma StrOfConstructed(id: JSON, data: Option<JSON>)
    requires Construct(id, data).Ok?
    ensures data.None? ==> StrOf(Construct(id, data).value) == "Sound(id='" + Str(id) + "', title='None')"
    ensures data.Some? && data.value.JObj? && data.value.members != [] ==>
              var c := Construct(id, data).value;
              StrOf(c) == "Sound(id='" + Str(c.id) + "', title='" + Str(Field(Nested(data.value.members).members, "title")) + "')"
  {
    if data.None? {
      ConstructWithoutData(id, data);
    } else if data.value.JObj? && data.value.members != [] {
      ConstructFromDict(id, data.value.members);
    }
  }

  // ---------------------------------------------------------------------
  // Videos

  /** The music item-list endpoint: `itemList` items, a `hasMore` flag, pages of 30, a None cursor read as 0. */
  const VideoRules: PageRules := PageRules("itemList", "hasMore", 30, NoneToZero)

  /** `videos(count, cursor)` fed the responses `rs`; without a client it yields nothing. */
  method Videos(count: int, cursor: int, hasClient: bool, rs: seq<Option<JSON>>) returns (p: Paging)
    ensures p == WholePages(VideoRules, count, cursor, hasClient, rs)
  {
    p := FetchWholePages(VideoRules, count, cursor, hasClient, rs);
  }

  /** A None cursor in a response is read as 0 for the next request. */
  lemma NullCursorRestarts()
    ensures var resp := JObj([("itemList", JArr([])), ("hasMore", JBool(true)), ("cursor", JNull)]);
            NextCursor(VideoRules.cursorRule, resp) == Ok(JInt(0))
  {
    var resp := JObj([("itemList", JArr([])), ("hasMore", JBool(true)), ("cursor", JNull)]);
    assert LookupOr(resp.members, "cursor", JInt(0)) == JNull;
  }

  // ---------------------------------------------------------------------
  // The object

  class Sound {
    var id: JSON
    var title: Option<JSON>
    var authorName: Option<JSON>
    var duration: Option<JSON>
    var playUrl: Option<JSON>
    var videoCount: Option<JSON>
    var asDict: Option<JSON>

    function Snapshot(): Fields
      reads this
    {
      Fields(id, title, authorName, duration, playUrl, videoCount, asDict)
    }

    /** `self.id = id` */
    constructor (id: JSON)
      ensures Snapshot() == Fresh(id)
    {
      this.id := id;
      title, authorName, duration, playUrl, videoCount, asDict := None, None, None, None, None, None;
    }

    /** `Sound(id, data)` in full. */
    static method New(id: JSON, data: Option<JSON>) returns (r: Outcome<Sound>)
      ensures r.Raise? <==> Construct(id, data).Raise?
      ensures r.Raise? ==> r.exc == Construct(id, data).exc
      ensures r.Ok? ==> fresh(r.value) && r.value.Snapshot() == Construct(id, data).value
    {
      var s := new Sound(id);
      if data.Some? {
        s.asDict := data;
        var raised := s.ExtractFromData();
        if raised.Some? {
          return Raise(raised.value);
        }
      }
      if !Truthy(s.id) && !(data.Some? && Truthy(data.value)) {
        return Raise(TypeError);
      }
      return Ok(s);
    }

    /**
     * `__extract_from_data`, one assignment at a time. On an exception the
     * object is abandoned by the constructor, so only the exception is stated.
     */
    method ExtractFromData() returns (raised: Option<Exc>)
      requires asDict.Some?
      modifies this
      ensures raised.Some? <==> Extraction(old(Snapshot())).Raise?
      ensures raised.Some? ==> raised.value == Extraction(old(Snapshot())).exc
      ensures raised.None? ==> Snapshot() == Extraction(old(Snapshot())).value
    {
      var data := asDict.value;
      if !Truthy(data) {
        return None;
      }
      var soundData := SoundData(data);
      if soundData.Raise? {
        return Some(soundData.exc);
      }
      var sd := soundData.value;
      if !sd.JObj? {
        return Some(AttributeError);
      }
      var m := sd.members;
      id := Or(Field(m, "id"), id);
      title := Some(Field(m, "title"));
      authorName := Some(Field(m, "authorName"));
      duration := Some(Field(m, "duration"));
      playUrl := Some(PlayUrl(m));
      var stats := LookupOr(m, "stats", EmptyObj);
      if !stats.JObj? {
        return Some(AttributeError);
      }
      videoCount := Some(LookupOr(stats.members, "videoCount", JInt(0)));
      return None;
    }
  }
}
