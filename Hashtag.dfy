// A hashtag (a challenge): the fields its data extraction assigns, the
// videos tagged with it, and its summary and string views.

module Hashtag {
  import opened Json
  import opened Pagination
  import Sound

  /** A hashtag's attributes; None for one that was never assigned. */
  datatype Fields = Fields(
    name: JSON, id: JSON, title: Option<JSON>, description: Option<JSON>,
    videoCount: Option<JSON>, viewCount: Option<JSON>, isCommerce: Option<JSON>, asDict: Option<JSON>)

  /** The attributes right after `self.name = name` and `self.id = id`. */
  function Fresh(name: JSON, id: JSON): Fields
  {
    Fields(name, id, None, None, None, None, None, None)
  }

  function Field(m: seq<(string, JSON)>, key: string): JSON { LookupOr(m, key, JNull) }

  /** The assignments on a dict's members, given the `stats` dict it read. */
  function Assign(f: Fields, m: seq<(string, JSON)>, stats: seq<(string, JSON)>): Fields
  {
    f.(id := Or(Field(m, "id"), f.id),
       name := Or(Or(Field(m, "title"), Field(m, "name")), f.name),
       title := Some(Field(m, "title")),
       description := Some(Or(Field(m, "desc"), Field(m, "description"))),
       videoCount := Some(LookupOr(stats, "videoCount", JInt(0))),
       viewCount := Some(LookupOr(stats, "viewCount", JInt(0))),
       isCommerce := Some(LookupOr(m, "isCommerce", JBool(false))))
  }

  /**
   * The data extraction: nothing for falsy data; `data.get` raises
   * AttributeError for anything but a dict, and `stats.get` for a `stats`
   * value that is not one.
   */
  function Extraction(f: Fields): Outcome<Fields>
    requires f.asDict.Some?
  {
    var data := f.asDict.value;
    if !Truthy(data) then Ok(f)
    else if !data.JObj? then Raise(AttributeError)
    else
      var stats := LookupOr(data.members, "stats", EmptyObj);
      if !stats.JObj? then Raise(AttributeError)
      else Ok(Assign(f, data.members, stats.members))
  }

  /**
   * `Hashtag(name, id, data)`: the name and id, the extraction when data is
   * given, then TypeError unless the name, the id or the data is truthy.
   */
  function Construct(name: JSON, id: JSON, data: Option<JSON>): Outcome<Fields>
  {
    var f :- if data.Some? then Extraction(Fresh(name, id).(asDict := data)) else Ok(Fresh(name, id));
    if !Truthy(f.name) && !Truthy(f.id) && !(data.Some? && Truthy(data.value)) then Raise(TypeError) else Ok(f)
  }

  /** Without truthy data a hashtag needs a truthy name or id, and keeps nothing else. */
  lemma ConstructWithoutData(name: JSON, id: JSON, data: Option<JSON>)
    requires data.None? || !Truthy(data.value)
    ensures Construct(name, id, data).Ok? <==> Truthy(name) || Truthy(id)
    ensures Construct(name, id, data).Raise? ==> Construct(name, id, data).exc == TypeError
    ensures Construct(name, id, data).Ok? ==> Construct(name, id, data).value == Fresh(name, id).(asDict := data)
  {
  }

  /**
   * A hashtag built from a non-empty dict needs neither name nor id: it
   * fails, with AttributeError, only for a `stats` value that is not a dict.
   * Its id is the data's truthy `id`, else the given one; its name the
   * first truthy of `title` and `name`, else the given one; its description
   * `desc`, else `description`; its counts default to 0 and `isCommerce` to
   * False.
   */
  lemma ConstructFromDict(name: JSON, id: JSON, m: seq<(string, JSON)>)
    requires m != []
    ensures var r := Construct(name, id, Some(JObj(m)));
            var stats := LookupOr(m, "stats", EmptyObj);
            (r.Raise? <==> !stats.JObj?) &&
            (r.Raise? ==> r.exc == AttributeError) &&
            (r.Ok? ==>
               r.value.id == (if Truthy(Field(m, "id")) then Field(m, "id") else id) &&
               r.value.name == (if Truthy(Field(m, "title")) then Field(m, "title")
                                else if Truthy(Field(m, "name")) then Field(m, "name") else name) &&
               r.value.title == Some(Field(m, "title")) &&
               r.value.description == Some(if Truthy(Field(m, "desc")) then Field(m, "desc") else Field(m, "description")) &&
               r.value.videoCount == Some(LookupOr(stats.members, "videoCount", JInt(0))) &&
               r.value.viewCount == Some(LookupOr(stats.members, "viewCount", JInt(0))) &&
               r.value.isCommerce == Some(LookupOr(m, "isCommerce", JBool(false))) &&
               r.value.asDict == Some(JObj(m)))
  {
    assert Truthy(JObj(m));
  }

  /** Data without `stats` gives zero counts. */
  lemma CountsDefaultToZero(name: JSON, id: JSON, m: seq<(string, JSON)>)
    requires m != [] && "stats" !in Keys(m)
    ensures var r := Construct(name, id, Some(JObj(m)));
            r.Ok? && r.value.videoCount == Some(JInt(0)) && r.value.viewCount == Some(JInt(0))
  {
    ConstructFromDict(name, id, m);
  }

  /** A truthy data `title` becomes the name, whatever name was given. */
  lemma TitleIsName(name: JSON, title: string)
    requires title != ""
    ensures var r := Construct(name, JNull, Some(JObj([("title", JStr(title))])));
            r.Ok? && r.value.name == JStr(title)
  {
    var m := [("title", JStr(title))];
    ConstructFromDict(name, JNull, m);
    assert Field(m, "title") == JStr(title);
  }

  // ---------------------------------------------------------------------
  // Readers

  /** The dict `get_summary()` returns, one field per key. */
  datatype HashtagSummary = HashtagSummary(
    id: JSON, name: JSON, title: JSON, description: JSON, videoCount: JSON, viewCount: JSON,
    isCommerce: JSON, hasData: bool)

  /** `get_summary()`: AttributeError for any attribute never assigned. */
  function Summary(f: Fields): (r: Outcome<HashtagSummary>)
    ensures r.Ok? <==> f.title.Some? && f.description.Some? && f.videoCount.Some? && f.viewCount.Some? &&
                       f.isCommerce.Some? && f.asDict.Some?
    ensures r.Raise? ==> r.exc == AttributeError
  {
    if f.title.None? || f.description.None? || f.videoCount.None? || f.viewCount.None? ||
       f.isCommerce.None? || f.asDict.None? then Raise(AttributeError)
    else
      Ok(HashtagSummary(f.id, f.name, f.title.value, f.description.value, f.videoCount.value,
                        f.viewCount.value, f.isCommerce.value, Truthy(f.asDict.value)))
  }

  /** A hashtag built from a name or id alone, or from an empty dict, has no summary. */
  lemma SummaryNeedsData(name: JSON, id: JSON, data: Option<JSON>)
    requires data.None? || !Truthy(data.value)
    requires Construct(name, id, data).Ok?
    ensures Summary(Construct(name, id, data).value) == Raise(AttributeError)
  {
    ConstructWithoutData(name, id, data);
  }

  /** A hashtag built from a non-empty dict has a summary with has_data true and its name. */
  lemma SummaryOfDict(name: JSON, id: JSON, m: seq<(string, JSON)>)
    requires m != [] && Construct(name, id, Some(JObj(m))).Ok?
    ensures var c := Construct(name, id, Some(JObj(m))).value;
            var r := Summary(c);
            r.Ok? && r.value.hasData && r.value.name == c.name && r.value.id == c.id &&
            r.value.isCommerce == LookupOr(m, "isCommerce", JBool(false))
  {
    ConstructFromDict(name, id, m);
  }

  /** `str(hashtag)`: `Hashtag(name='…')`. */
  function StrOf(f: Fields): string
  {
    "Hashtag(name='" + Str(f.name) + "')"
  }

  /** The string view shows the name the data's title gave. */
  lemma StrShowsTitle(title: string)
    requires title != ""
    ensures var r := Construct(JNull, JNull, Some(JObj([("title", JStr(title))])));
            r.Ok? && StrOf(r.value) == "Hashtag(name='" + title + "')"
  {
    TitleIsName(JNull, title);
  }

  // ---------------------------------------------------------------------
  // Videos

  /** The challenge item-list endpoint pages exactly as the music one does. */
  const VideoRules: PageRules := Sound.VideoRules

  /** `videos(count, cursor)` fed the responses `rs`; without a client it yields nothing. */
  method Videos(count: int, cursor: int, hasClient: bool, rs: seq<Option<JSON>>) returns (p: Paging)
    ensures p == WholePages(VideoRules, count, cursor, hasClient, rs)
  {
    p := FetchWholePages(VideoRules, count, cursor, hasClient, rs);
  }

  // ---------------------------------------------------------------------
  // The object

  class Hashtag {
    var name: JSON
    var id: JSON
    var title: Option<JSON>
    var description: Option<JSON>
    var videoCount: Option<JSON>
    var viewCount: Option<JSON>
    var isCommerce: Option<JSON>
    var asDict: Option<JSON>

    function Snapshot(): Fields
      reads this
    {
      Fields(name, id, title, description, videoCount, viewCount, isCommerce, asDict)
    }

    /** `self.name = name`; `self.id = id` */
    constructor (name: JSON, id: JSON)
      ensures Snapshot() == Fresh(name, id)
    {
      this.name := name;
      this.id := id;
      title, description, videoCount, viewCount, isCommerce, asDict := None, None, None, None, None, None;
    }

    /** `Hashtag(name, id, data)` in full. */
    static method New(name: JSON, id: JSON, data: Option<JSON>) returns (r: Outcome<Hashtag>)
      ensures r.Raise? <==> Construct(name, id, data).Raise?
      ensures r.Raise? ==> r.exc == Construct(name, id, data).exc
      ensures r.Ok? ==> fresh(r.value) && r.value.Snapshot() == Construct(name, id, data).value
    {
      var h := new Hashtag(name, id);
      if data.Some? {
        h.asDict := data;
        var raised := h.ExtractFromData();
        if raised.Some? {
          return Raise(raised.value);
        }
      }
      if !Truthy(h.name) && !Truthy(h.id) && !(data.Some? && Truthy(data.value)) {
        return Raise(TypeError);
      }
      return Ok(h);
    }

    /**
     * `__extract_from_data`, one assignment at a time. On an exception the
     * object is abandoned by the constructor, so only the exception is stated.
     */
    method ExtractFromData() returns (raised: Option<Exc>)
      requires asDict.Some?
      modifies this
      ensures raised.Some? <==> Extraction(old(Snapshot())).Raise?
      ensures raised.Some? ==> raised.value == Extraction(old(Snapshot())).exc
      ensures raised.None? ==> Snapshot() == Extraction(old(Snapshot())).value
    {
      var data := asDict.value;
      if !Truthy(data) {
        return None;
      }
      if !data.JObj? {
        return Some(AttributeError);
      }
      var m := data.members;
      id := Or(Field(m, "id"), id);
      name := Or(Or(Field(m, "title"), Field(m, "name")), name);
      title := Some(Field(m, "title"));
      description := Some(Or(Field(m, "desc"), Field(m, "description")));
      var stats := LookupOr(m, "stats", EmptyObj);
      if !stats.JObj? {
        return Some(AttributeError);
      }
      videoCount := Some(LookupOr(stats.members, "videoCount", JInt(0)));
      viewCount := Some(LookupOr(stats.members, "viewCount", JInt(0)));
      isCommerce := Some(LookupOr(m, "isCommerce", JBool(false)));
      return None;
    }
  }
}
