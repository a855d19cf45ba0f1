// A TikTok user: the identifiers it is built from, the attributes the data
// extraction assigns line by line, the profile URL, the two places the
// profile page embeds the user's data, and the two video listings.

module User {
  import opened Json
  import opened PageState
  import opened Pagination

  /** A user object's attributes; None for one that was never assigned. */
  datatype Attrs = Attrs(
    id: Option<JSON>, username: Option<JSON>, nickname: Option<JSON>, secUid: Option<JSON>,
    verified: Option<JSON>, signature: Option<JSON>, region: Option<JSON>, language: Option<JSON>,
    followerCount: Option<JSON>, followingCount: Option<JSON>, heartCount: Option<JSON>,
    videoCount: Option<JSON>, friendsCount: Option<JSON>, diggCount: Option<JSON>,
    botType: Option<JSON>, avatarUrl: Option<JSON>, defaultScope: Option<JSON>, asDict: Option<JSON>)

  /** An object none of whose attributes is assigned yet. */
  const Unassigned: Attrs :=
    Attrs(None, None, None, None, None, None, None, None, None, None, None, None, None, None, None, None, None, None)

  /** The identifiers assigned in `before` are still assigned in `after`. */
  predicate KeepsIdentifiers(before: Attrs, after: Attrs)
  {
    (before.id.Some? ==> after.id.Some?) && (before.username.Some? ==> after.username.Some?) &&
    (before.secUid.Some? ==> after.secUid.Some?)
  }

  /** The attributes after a run of lines, and the exception that stopped it, if any. */
  datatype Step = Step(attrs: Attrs, raised: Option<Exc>)

  /** One `self.a = v` line after the run so far: skipped once something raised, else v's exception, else the attributes `next` the assignment leaves. */
  function Then(s: Step, v: Outcome<JSON>, next: Attrs): Step
  {
    if s.raised.Some? then s
    else if v.Raise? then Step(s.attrs, Some(v.exc))
    else Step(next, None)
  }

  // ---------------------------------------------------------------------
  // Data extraction

  /** `self.a`, given the attribute's current value: AttributeError when it was never assigned. */
  function Read(current: Option<JSON>): (r: Outcome<JSON>)
    ensures r.Raise? <==> current.None?
    ensures r.Raise? ==> r.exc == AttributeError
    ensures r.Ok? ==> current == Some(r.value)
  {
    if current.Some? then Ok(current.value) else Raise(AttributeError)
  }

  /** `first or self.a` */
  function OrSelf(first: JSON, current: Option<JSON>): Outcome<JSON>
  {
    if Truthy(first) then Ok(first) else Read(current)
  }

  /** `first or d.get(key, default)` */
  function OrGet(first: JSON, d: JSON, key: string, default: JSON): Outcome<JSON>
  {
    if Truthy(first) then Ok(first) else Get(d, key, default)
  }

  /** The first truthy of the three avatar sizes: a string as it is, a non-empty list's first element, else None. */
  function AvatarOf(m: seq<(string, JSON)>): (r: JSON)
    ensures var a := Or(Or(LookupOr(m, "avatarLarger", JNull), LookupOr(m, "avatarMedium", JNull)),
                        LookupOr(m, "avatarThumb", JNull));
            (a.JStr? ==> r == a) &&
            (a.JArr? && |a.items| > 0 ==> r == a.items[0]) &&
            (!a.JStr? && !(a.JArr? && |a.items| > 0) ==> r == JNull)
  {
    var a := Or(Or(LookupOr(m, "avatarLarger", JNull), LookupOr(m, "avatarMedium", JNull)),
                LookupOr(m, "avatarThumb", JNull));
    if a.JStr? then a else if a.JArr? && a.items != [] then a.items[0] else JNull
  }

  const AppContextKey: string := "webapp.app-context"
  const ScopeKey: string := "__DEFAULT_SCOPE__"

  function AppContext(m: seq<(string, JSON)>): JSON { LookupOr(m, AppContextKey, EmptyObj) }
  function StatsOf(m: seq<(string, JSON)>): JSON { LookupOr(m, "stats", EmptyObj) }
  function Field(m: seq<(string, JSON)>, key: string): JSON { LookupOr(m, key, JNull) }

  /** A count read from the top level, else from `stats` with default 0. */
  function CountValue(m: seq<(string, JSON)>, key: string): Outcome<JSON>
  {
    OrGet(Field(m, key), StatsOf(m), key, JInt(0))
  }

  /**
   * What the right-hand side of each extraction line evaluates to, in source
   * order, with the `default_scope` value when the data has its key. The
   * infallible lines hold a value, the others an outcome.
   */
  datatype Rhs = Rhs(
    id: Outcome<JSON>, username: Outcome<JSON>, nickname: Outcome<JSON>, secUid: Outcome<JSON>,
    verified: JSON, signature: JSON, region: Outcome<JSON>, language: Outcome<JSON>,
    follower: Outcome<JSON>, following: Outcome<JSON>, heart: Outcome<JSON>, video: Outcome<JSON>,
    friends: Outcome<JSON>, digg: Outcome<JSON>, botType: Outcome<JSON>, avatar: JSON,
    statsFollower: Outcome<JSON>, statsFollowing: Outcome<JSON>, statsVideo: Outcome<JSON>,
    statsHeart: Outcome<JSON>, scope: Option<JSON>)

  /** The identifier lines: id, username, nickname, sec_uid. */
  function IdentityLines(s: Step, r: Rhs): Step
  {
    var s1 := Then(s, r.id, s.attrs.(id := Some(Val(r.id))));
    var s2 := Then(s1, r.username, s1.attrs.(username := Some(Val(r.username))));
    var s3 := Then(s2, r.nickname, s2.attrs.(nickname := Some(Val(r.nickname))));
    Then(s3, r.secUid, s3.attrs.(secUid := Some(Val(r.secUid))))
  }

  /** The profile lines: verified, signature, region, language. */
  function ProfileLines(s: Step, r: Rhs): Step
  {
    var s1 := Then(s, Ok(r.verified), s.attrs.(verified := Some(r.verified)));
    var s2 := Then(s1, Ok(r.signature), s1.attrs.(signature := Some(r.signature)));
    var s3 := Then(s2, r.region, s2.attrs.(region := Some(Val(r.region))));
    Then(s3, r.language, s3.attrs.(language := Some(Val(r.language))))
  }

  /** The six count lines, each from the top level or else from `stats`. */
  function CountLines(s: Step, r: Rhs): Step
  {
    var s1 := Then(s, r.follower, s.attrs.(followerCount := Some(Val(r.follower))));
    var s2 := Then(s1, r.following, s1.attrs.(followingCount := Some(Val(r.following))));
    var s3 := Then(s2, r.heart, s2.attrs.(heartCount := Some(Val(r.heart))));
    var s4 := Then(s3, r.video, s3.attrs.(videoCount := Some(Val(r.video))));
    var s5 := Then(s4, r.friends, s4.attrs.(friendsCount := Some(Val(r.friends))));
    Then(s5, r.digg, s5.attrs.(diggCount := Some(Val(r.digg))))
  }

  /** The bot type and avatar lines, the four `stats` re-reads, and `default_scope` when present. */
  function TailLines(s: Step, r: Rhs): Step
  {
    var s1 := Then(s, r.botType, s.attrs.(botType := Some(Val(r.botType))));
    var s2 := Then(s1, Ok(r.avatar), s1.attrs.(avatarUrl := Some(r.avatar)));
    var s3 := Then(s2, r.statsFollower, s2.attrs.(followerCount := Some(Val(r.statsFollower))));
    var s4 := Then(s3, r.statsFollowing, s3.attrs.(followingCount := Some(Val(r.statsFollowing))));
    var s5 := Then(s4, r.statsVideo, s4.attrs.(videoCount := Some(Val(r.statsVideo))));
    var s6 := Then(s5, r.statsHeart, s5.attrs.(heartCount := Some(Val(r.statsHeart))));
    if r.scope.Some? then Then(s6, Ok(r.scope.value), s6.attrs.(defaultScope := r.scope)) else s6
  }

  /** The lines run in order on `attrs`; the first exception stops the run. */
  function Run(attrs: Attrs, r: Rhs): (s: Step)
    ensures KeepsIdentifiers(attrs, s.attrs)
  {
    var s1 := IdentityLines(Step(attrs, None), r);
    var s2 := ProfileLines(s1, r);
    IdentityKeepsIdentifiers(Step(attrs, None), r);
    ProfileKeepsIdentifiers(s1, r);
    CountsKeepsIdentifiers(s2, r);
    TailKeepsIdentifiers(CountLines(s2, r), r);
    TailLines(CountLines(ProfileLines(IdentityLines(Step(attrs, None), r), r), r), r)
  }

  /** No identifier line raises. */
  predicate IdentityOk(r: Rhs) { r.id.Ok? && r.username.Ok? && r.nickname.Ok? && r.secUid.Ok? }

  /** No profile line raises. */
  predicate ProfileOk(r: Rhs) { r.region.Ok? && r.language.Ok? }

  /** No count line raises. */
  predicate CountsOk(r: Rhs)
  {
    r.follower.Ok? && r.following.Ok? && r.heart.Ok? && r.video.Ok? && r.friends.Ok? && r.digg.Ok?
  }

  /** No remaining line raises. */
  predicate TailOk(r: Rhs)
  {
    r.botType.Ok? && r.statsFollower.Ok? && r.statsFollowing.Ok? && r.statsVideo.Ok? && r.statsHeart.Ok?
  }

  /** No line raises. */
  predicate AllOk(r: Rhs)
  {
    IdentityOk(r) && ProfileOk(r) && CountsOk(r) && TailOk(r)
  }

  predicate RaisesOnly(v: Outcome<JSON>, e: Exc) { v.Raise? ==> v.exc == e }

  predicate IdentityOnly(r: Rhs, e: Exc)
  {
    RaisesOnly(r.id, e) && RaisesOnly(r.username, e) && RaisesOnly(r.nickname, e) && RaisesOnly(r.secUid, e)
  }

  predicate ProfileOnly(r: Rhs, e: Exc) { RaisesOnly(r.region, e) && RaisesOnly(r.language, e) }

  predicate CountsOnly(r: Rhs, e: Exc)
  {
    RaisesOnly(r.follower, e) && RaisesOnly(r.following, e) && RaisesOnly(r.heart, e) &&
    RaisesOnly(r.video, e) && RaisesOnly(r.friends, e) && RaisesOnly(r.digg, e)
  }

  predicate TailOnly(r: Rhs, e: Exc)
  {
    RaisesOnly(r.botType, e) && RaisesOnly(r.statsFollower, e) && RaisesOnly(r.statsFollowing, e) &&
    RaisesOnly(r.statsVideo, e) && RaisesOnly(r.statsHeart, e)
  }

  /** Every line that raises raises e. */
  predicate OnlyRaises(r: Rhs, e: Exc)
  {
    IdentityOnly(r, e) && ProfileOnly(r, e) && CountsOnly(r, e) && TailOnly(r, e)
  }

  /** An outcome's value; only used where the outcome is known to be Ok. */
  function Val(v: Outcome<JSON>): JSON { if v.Ok? then v.value else JNull }

  /** The attributes after the identifier lines have assigned their values. */
  function IdentityAssigned(a: Attrs, r: Rhs): Attrs
  {
    a.(id := Some(Val(r.id))).(username := Some(Val(r.username))).(nickname := Some(Val(r.nickname))).(secUid := Some(Val(r.secUid)))
  }

  /** The attributes after the profile lines have assigned their values. */
  function ProfileAssigned(a: Attrs, r: Rhs): Attrs
  {
    a.(verified := Some(r.verified)).(signature := Some(r.signature)).(region := Some(Val(r.region))).(language := Some(Val(r.language)))
  }

  /** The attributes after the count lines have assigned their values. */
  function CountsAssigned(a: Attrs, r: Rhs): Attrs
  {
    a.(followerCount := Some(Val(r.follower))).(followingCount := Some(Val(r.following))).(heartCount := Some(Val(r.heart)))
     .(videoCount := Some(Val(r.video))).(friendsCount := Some(Val(r.friends))).(diggCount := Some(Val(r.digg)))
  }

  /** The attributes after the remaining lines have assigned their values. */
  function TailAssigned(a: Attrs, r: Rhs): Attrs
  {
    var b := a.(botType := Some(Val(r.botType))).(avatarUrl := Some(r.avatar)).(followerCount := Some(Val(r.statsFollower)))
              .(followingCount := Some(Val(r.statsFollowing))).(videoCount := Some(Val(r.statsVideo)))
              .(heartCount := Some(Val(r.statsHeart)));
    if r.scope.Some? then b.(defaultScope := Some(r.scope.value)) else b
  }

  /** The attributes after every line has assigned its value. */
  function Assigned(attrs: Attrs, r: Rhs): Attrs
  {
    TailAssigned(CountsAssigned(ProfileAssigned(IdentityAssigned(attrs, r), r), r), r)
  }

  lemma IdentityKeepsIdentifiers(s: Step, r: Rhs)
    ensures KeepsIdentifiers(s.attrs, IdentityLines(s, r).attrs)
  {
  }

  lemma IdentityStep(s: Step, r: Rhs, e: Exc)
    ensures s.raised.Some? ==> IdentityLines(s, r) == s
    ensures s.raised.None? ==> (IdentityLines(s, r).raised.None? <==> IdentityOk(r))
    ensures s.raised.None? && IdentityOnly(r, e) && !IdentityOk(r) ==> IdentityLines(s, r).raised == Some(e)
    ensures s.raised.None? && IdentityOk(r) ==> IdentityLines(s, r).attrs == IdentityAssigned(s.attrs, r)
  {
  }

  lemma ProfileKeepsIdentifiers(s: Step, r: Rhs)
    ensures KeepsIdentifiers(s.attrs, ProfileLines(s, r).attrs)
  {
  }

  lemma ProfileStep(s: Step, r: Rhs, e: Exc)
    ensures s.raised.Some? ==> ProfileLines(s, r) == s
    ensures s.raised.None? ==> (ProfileLines(s, r).raised.None? <==> ProfileOk(r))
    ensures s.raised.None? && ProfileOnly(r, e) && !ProfileOk(r) ==> ProfileLines(s, r).raised == Some(e)
    ensures s.raised.None? && ProfileOk(r) ==> ProfileLines(s, r).attrs == ProfileAssigned(s.attrs, r)
  {
  }

  lemma CountsKeepsIdentifiers(s: Step, r: Rhs)
    ensures KeepsIdentifiers(s.attrs, CountLines(s, r).attrs)
  {
  }

  lemma CountsStep(s: Step, r: Rhs, e: Exc)
    ensures s.raised.Some? ==> CountLines(s, r) == s
    ensures s.raised.None? ==> (CountLines(s, r).raised.None? <==> CountsOk(r))
    ensures s.raised.None? && CountsOnly(r, e) && !CountsOk(r) ==> CountLines(s, r).raised == Some(e)
    ensures s.raised.None? && CountsOk(r) ==> CountLines(s, r).attrs == CountsAssigned(s.attrs, r)
  {
  }

  lemma TailKeepsIdentifiers(s: Step, r: Rhs)
    ensures KeepsIdentifiers(s.attrs, TailLines(s, r).attrs)
  {
  }

  lemma TailStep(s: Step, r: Rhs, e: Exc)
    ensures s.raised.Some? ==> TailLines(s, r) == s
    ensures s.raised.None? ==> (TailLines(s, r).raised.None? <==> TailOk(r))
    ensures s.raised.None? && TailOnly(r, e) && !TailOk(r) ==> TailLines(s, r).raised == Some(e)
    ensures s.raised.None? && TailOk(r) ==> TailLines(s, r).attrs == TailAssigned(s.attrs, r)
  {
  }

  /** A run stops exactly when some line raises, and with that line's exception. */
  lemma RunRaised(attrs: Attrs, r: Rhs, e: Exc)
    ensures Run(attrs, r).raised.None? <==> AllOk(r)
    ensures OnlyRaises(r, e) && !AllOk(r) ==> Run(attrs, r).raised == Some(e)
  {
    var s1 := IdentityLines(Step(attrs, None), r);
    var s2 := ProfileLines(s1, r);
    var s3 := CountLines(s2, r);
    IdentityStep(Step(attrs, None), r, e);
    ProfileStep(s1, r, e);
    CountsStep(s2, r, e);
    TailStep(s3, r, e);
  }

  /** A run in which no line raises performs every assignment. */
  lemma RunAssigned(attrs: Attrs, r: Rhs)
    requires AllOk(r)
    ensures Run(attrs, r) == Step(Assigned(attrs, r), None)
  {
    var s1 := IdentityLines(Step(attrs, None), r);
    var s2 := ProfileLines(s1, r);
    var s3 := CountLines(s2, r);
    IdentityStep(Step(attrs, None), r, AttributeError);
    ProfileStep(s1, r, AttributeError);
    CountsStep(s2, r, AttributeError);
    TailStep(s3, r, AttributeError);
  }

  /** The identifiers and the nickname of a run without exception are the values their lines computed. */
  lemma RunIdentifiers(attrs: Attrs, r: Rhs)
    requires AllOk(r)
    ensures var a := Run(attrs, r).attrs;
            a.id == Some(r.id.value) && a.username == Some(r.username.value) &&
            a.nickname == Some(r.nickname.value) && a.secUid == Some(r.secUid.value)
  {
    RunAssigned(attrs, r);
  }

  /** So are the other profile attributes. */
  lemma RunProfile(attrs: Attrs, r: Rhs)
    requires AllOk(r)
    ensures var a := Run(attrs, r).attrs;
            a.verified == Some(r.verified) && a.signature == Some(r.signature) &&
            a.region == Some(r.region.value) && a.language == Some(r.language.value) &&
            a.botType == Some(r.botType.value) && a.avatarUrl == Some(r.avatar)
  {
    RunAssigned(attrs, r);
  }

  /**
   * The counts of a run without exception: the stats lines win over the
   * count lines for the four counts they re-read; the other two keep theirs.
   */
  lemma RunCounts(attrs: Attrs, r: Rhs)
    requires AllOk(r)
    ensures var a := Run(attrs, r).attrs;
            a.followerCount == Some(r.statsFollower.value) && a.followingCount == Some(r.statsFollowing.value) &&
            a.heartCount == Some(r.statsHeart.value) && a.videoCount == Some(r.statsVideo.value) &&
            a.friendsCount == Some(r.friends.value) && a.diggCount == Some(r.digg.value)
  {
    RunAssigned(attrs, r);
  }

  /** The stored data is never reassigned, and `default_scope` only when the data has its key. */
  lemma RunKeeps(attrs: Attrs, r: Rhs)
    requires AllOk(r)
    ensures var a := Run(attrs, r).attrs;
            a.asDict == attrs.asDict &&
            a.defaultScope == (if r.scope.Some? then r.scope else attrs.defaultScope)
  {
    RunAssigned(attrs, r);
  }

  /** A run whose third line raises keeps the first two assignments and nothing more. */
  lemma RunStopsAtNickname(attrs: Attrs, r: Rhs)
    requires r.id.Ok? && r.username.Ok? && r.nickname.Raise?
    ensures Run(attrs, r) == Step(attrs.(id := Some(r.id.value)).(username := Some(r.username.value)), Some(r.nickname.exc))
  {
    var s1 := IdentityLines(Step(attrs, None), r);
    assert s1 == Step(attrs.(id := Some(r.id.value)).(username := Some(r.username.value)), Some(r.nickname.exc));
    ProfileStep(s1, r, AttributeError);
    CountsStep(s1, r, AttributeError);
    TailStep(s1, r, AttributeError);
  }

  /**
   * The right-hand sides on a dict's members. The fallbacks `or self.x` read
   * attributes no earlier line assigns, so they read them as they were before
   * the extraction.
   */
  function RightHandSides(m: seq<(string, JSON)>, attrs: Attrs): Rhs
  {
    Rhs(OrSelf(Field(m, "id"), attrs.id),
        OrSelf(Field(m, "uniqueId"), attrs.username),
        OrSelf(Field(m, "nickname"), attrs.nickname),
        OrSelf(Field(m, "secUid"), attrs.secUid),
        LookupOr(m, "verified", JBool(false)),
        Field(m, "signature"),
        OrGet(Field(m, "region"), AppContext(m), "region", JNull),
        OrGet(Field(m, "language"), AppContext(m), "language", JNull),
        CountValue(m, "followerCount"),
        CountValue(m, "followingCount"),
        CountValue(m, "heartCount"),
        CountValue(m, "videoCount"),
        CountValue(m, "friendCount"),
        CountValue(m, "diggCount"),
        OrGet(Field(m, "botType"), AppContext(m), "botType", JStr("unknown")),
        AvatarOf(m),
        Get(StatsOf(m), "followerCount", JInt(0)),
        Get(StatsOf(m), "followingCount", JInt(0)),
        Get(StatsOf(m), "videoCount", JInt(0)),
        Get(StatsOf(m), "heartCount", JInt(0)),
        if ScopeKey in Keys(m) then Some(Field(m, ScopeKey)) else None)
  }

  /** The data extraction: nothing for falsy data, AttributeError for a non-dict, else the run on its members. */
  function Extraction(attrs: Attrs): (s: Step)
    requires attrs.asDict.Some?
    ensures KeepsIdentifiers(attrs, s.attrs)
  {
    var data := attrs.asDict.value;
    if !Truthy(data) then Step(attrs, None)
    else if !data.JObj? then Step(attrs, Some(AttributeError))
    else Run(attrs, RightHandSides(data.members, attrs))
  }

  /**
   * When a dict's extraction raises, independently of the line order: a
   * fallback reads an identifier or a nickname that was never assigned, or a
   * fallback into `webapp.app-context` meets a non-dict, or `stats` is not a
   * dict.
   */
  predicate DictFails(m: seq<(string, JSON)>, attrs: Attrs)
  {
    (!Truthy(Field(m, "id")) && attrs.id.None?) ||
    (!Truthy(Field(m, "uniqueId")) && attrs.username.None?) ||
    (!Truthy(Field(m, "nickname")) && attrs.nickname.None?) ||
    (!Truthy(Field(m, "secUid")) && attrs.secUid.None?) ||
    (!AppContext(m).JObj? &&
     (!Truthy(Field(m, "region")) || !Truthy(Field(m, "language")) || !Truthy(Field(m, "botType")))) ||
    !StatsOf(m).JObj?
  }

  /** Every line of a dict's extraction succeeds exactly outside those cases, and the ones that fail raise AttributeError. */
  lemma RightHandSidesOk(m: seq<(string, JSON)>, attrs: Attrs)
    ensures AllOk(RightHandSides(m, attrs)) <==> !DictFails(m, attrs)
    ensures OnlyRaises(RightHandSides(m, attrs), AttributeError)
  {
    var r := RightHandSides(m, attrs);
    RhsIdentity(m, attrs, r);
    RhsProfile(m, attrs, r);
    RhsCounts(m, attrs, r);
    RhsTail(m, attrs, r);
  }

  lemma RhsIdentity(m: seq<(string, JSON)>, attrs: Attrs, r: Rhs)
    requires r == RightHandSides(m, attrs)
    ensures IdentityOk(r) <==>
              (Truthy(Field(m, "id")) || attrs.id.Some?) && (Truthy(Field(m, "uniqueId")) || attrs.username.Some?) &&
              (Truthy(Field(m, "nickname")) || attrs.nickname.Some?) && (Truthy(Field(m, "secUid")) || attrs.secUid.Some?)
    ensures IdentityOnly(r, AttributeError)
  {
  }

  lemma RhsProfile(m: seq<(string, JSON)>, attrs: Attrs, r: Rhs)
    requires r == RightHandSides(m, attrs)
    ensures ProfileOk(r) <==> AppContext(m).JObj? || (Truthy(Field(m, "region")) && Truthy(Field(m, "language")))
    ensures ProfileOnly(r, AttributeError)
  {
  }

  lemma RhsCounts(m: seq<(string, JSON)>, attrs: Attrs, r: Rhs)
    requires r == RightHandSides(m, attrs)
    ensures StatsOf(m).JObj? ==> CountsOk(r)
    ensures CountsOnly(r, AttributeError)
  {
  }

  lemma RhsTail(m: seq<(string, JSON)>, attrs: Attrs, r: Rhs)
    requires r == RightHandSides(m, attrs)
    ensures TailOk(r) <==> StatsOf(m).JObj? && (AppContext(m).JObj? || Truthy(Field(m, "botType")))
    ensures TailOnly(r, AttributeError)
  {
    assert r.statsHeart.Ok? <==> StatsOf(m).JObj?;
  }

  /** The extraction raises on truthy data that is not a dict, or on a dict that fails. */
  predicate ExtractionFails(data: JSON, attrs: Attrs)
  {
    Truthy(data) && (!data.JObj? || DictFails(data.members, attrs))
  }

  /** The extraction raises exactly in those cases, and always with AttributeError. */
  lemma ExtractionRaises(attrs: Attrs)
    requires attrs.asDict.Some?
    ensures Extraction(attrs).raised.Some? <==> ExtractionFails(attrs.asDict.value, attrs)
    ensures Extraction(attrs).raised.Some? ==> Extraction(attrs).raised == Some(AttributeError)
  {
    var data := attrs.asDict.value;
    if Truthy(data) && data.JObj? {
      RightHandSidesOk(data.members, attrs);
      RunRaised(attrs, RightHandSides(data.members, attrs), AttributeError);
    }
  }

  /**
   * After a successful extraction the four counts the `stats` block re-reads
   * come from `stats` alone (default 0), whatever the top level says; the
   * friend and digg counts keep the top-level-else-stats value.
   */
  lemma StatsOverwrite(attrs: Attrs)
    requires attrs.asDict.Some? && attrs.asDict.value.JObj? && Truthy(attrs.asDict.value)
    requires Extraction(attrs).raised.None?
    ensures var m := attrs.asDict.value.members;
            var a := Extraction(attrs).attrs;
            StatsOf(m).JObj? &&
            var stats := StatsOf(m).members;
            a.followerCount == Some(LookupOr(stats, "followerCount", JInt(0))) &&
            a.followingCount == Some(LookupOr(stats, "followingCount", JInt(0))) &&
            a.videoCount == Some(LookupOr(stats, "videoCount", JInt(0))) &&
            a.heartCount == Some(LookupOr(stats, "heartCount", JInt(0))) &&
            a.friendsCount == Some(Or(Field(m, "friendCount"), LookupOr(stats, "friendCount", JInt(0)))) &&
            a.diggCount == Some(Or(Field(m, "diggCount"), LookupOr(stats, "diggCount", JInt(0))))
  {
    var m := attrs.asDict.value.members;
    var r := RightHandSides(m, attrs);
    RunRaised(attrs, r, AttributeError);
    RunCounts(attrs, r);
  }

  /**
   * After a successful extraction the identifiers and the nickname are the
   * data's value when truthy and the previous attribute otherwise, verified
   * defaults to False, the other profile fields fall back to the app context,
   * the avatar follows its size order, the data stays stored, and
   * default_scope is set exactly when the data has the key (or was set before).
   */
  lemma ExtractionIdentity(attrs: Attrs)
    requires attrs.asDict.Some? && attrs.asDict.value.JObj? && Truthy(attrs.asDict.value)
    requires Extraction(attrs).raised.None?
    ensures var m := attrs.asDict.value.members;
            var a := Extraction(attrs).attrs;
            (Truthy(Field(m, "id")) ==> a.id == Some(Field(m, "id"))) &&
            (!Truthy(Field(m, "id")) ==> attrs.id.Some? && a.id == attrs.id) &&
            (Truthy(Field(m, "uniqueId")) ==> a.username == Some(Field(m, "uniqueId"))) &&
            (!Truthy(Field(m, "uniqueId")) ==> attrs.username.Some? && a.username == attrs.username) &&
            (Truthy(Field(m, "nickname")) ==> a.nickname == Some(Field(m, "nickname"))) &&
            (!Truthy(Field(m, "nickname")) ==> attrs.nickname.Some? && a.nickname == attrs.nickname) &&
            (Truthy(Field(m, "secUid")) ==> a.secUid == Some(Field(m, "secUid"))) &&
            (!Truthy(Field(m, "secUid")) ==> attrs.secUid.Some? && a.secUid == attrs.secUid) &&
            a.verified == Some(LookupOr(m, "verified", JBool(false))) &&
            a.signature == Some(Field(m, "signature")) &&
            a.avatarUrl == Some(AvatarOf(m)) &&
            a.asDict == attrs.asDict &&
            (a.defaultScope.Some? <==> attrs.defaultScope.Some? || ScopeKey in Keys(m))
  {
    var m := attrs.asDict.value.members;
    var r := RightHandSides(m, attrs);
    RunRaised(attrs, r, AttributeError);
    RunIdentifiers(attrs, r);
    RunProfile(attrs, r);
    RunKeeps(attrs, r);
  }

  /** The profile fields missing at the top level come from the app context, with defaults None, None and "unknown". */
  lemma ExtractionAppContext(attrs: Attrs)
    requires attrs.asDict.Some? && attrs.asDict.value.JObj? && Truthy(attrs.asDict.value)
    requires Extraction(attrs).raised.None?
    ensures var m := attrs.asDict.value.members;
            var a := Extraction(attrs).attrs;
            (!Truthy(Field(m, "region")) ==>
               (AppContext(m).JObj? && a.region == Some(LookupOr(AppContext(m).members, "region", JNull)))) &&
            (!Truthy(Field(m, "language")) ==>
               (AppContext(m).JObj? && a.language == Some(LookupOr(AppContext(m).members, "language", JNull)))) &&
            (!Truthy(Field(m, "botType")) ==>
               (AppContext(m).JObj? && a.botType == Some(LookupOr(AppContext(m).members, "botType", JStr("unknown")))))
  {
    var m := attrs.asDict.value.members;
    var r := RightHandSides(m, attrs);
    RunRaised(attrs, r, AttributeError);
    RunProfile(attrs, r);
  }

  // ---------------------------------------------------------------------
  // Construction

  /** The three identifiers the constructor stores before anything else. */
  function Initial(username: JSON, secUid: JSON, userId: JSON): Attrs
  {
    Unassigned.(username := Some(username), secUid := Some(secUid), id := Some(userId))
  }

  predicate Identified(a: Attrs)
  {
    a.username.Some? && a.secUid.Some? && a.id.Some?
  }

  predicate AnyIdentifier(a: Attrs)
    requires Identified(a)
  {
    Truthy(a.username.value) || Truthy(a.secUid.value) || Truthy(a.id.value)
  }

  /**
   * `User(username, sec_uid, user_id, data)`: the identifiers, then the
   * extraction when data is given, then TypeError unless some identifier is
   * truthy.
   */
  function Construct(username: JSON, secUid: JSON, userId: JSON, data: Option<JSON>): (r: Outcome<Attrs>)
    ensures r.Ok? ==> Identified(r.value) && AnyIdentifier(r.value)
  {
    var a0 := Initial(username, secUid, userId);
    var s := if data.Some? then Extraction(a0.(asDict := Some(data.value))) else Step(a0, None);
    if s.raised.Some? then Raise(s.raised.value)
    else if !AnyIdentifier(s.attrs) then Raise(TypeError)
    else Ok(s.attrs)
  }

  /** Without data, construction succeeds exactly when one of the identifiers is truthy. */
  lemma ConstructWithoutData(username: JSON, secUid: JSON, userId: JSON)
    ensures Construct(username, secUid, userId, None).Ok? <==> Truthy(username) || Truthy(secUid) || Truthy(userId)
    ensures Construct(username, secUid, userId, None).Raise? ==> Construct(username, secUid, userId, None).exc == TypeError
    ensures Construct(username, secUid, userId, None).Ok? ==>
              Construct(username, secUid, userId, None).value == Initial(username, secUid, userId)
  {
  }

  /**
   * The nickname attribute is never initialised, so a fresh user built from a
   * dict without a truthy nickname fails with AttributeError, after the id and
   * username lines have run.
   */
  lemma NicknameNeverInitialised(username: JSON, secUid: JSON, userId: JSON, m: seq<(string, JSON)>)
    requires m != [] && !Truthy(Field(m, "nickname"))
    ensures Construct(username, secUid, userId, Some(JObj(m))) == Raise(AttributeError)
    ensures var a := Initial(username, secUid, userId).(asDict := Some(JObj(m)));
            Extraction(a).attrs == a.(id := Some(Or(Field(m, "id"), userId))).(username := Some(Or(Field(m, "uniqueId"), username)))
  {
    var a := Initial(username, secUid, userId).(asDict := Some(JObj(m)));
    var r := RightHandSides(m, a);
    assert r.id == Ok(Or(Field(m, "id"), userId));
    assert r.username == Ok(Or(Field(m, "uniqueId"), username));
    assert r.nickname == Raise(AttributeError);
    RunStopsAtNickname(a, r);
    ExtractionOfDict(a, m);
  }

  /** A non-empty dict's extraction is the run of its lines. */
  lemma ExtractionOfDict(a: Attrs, m: seq<(string, JSON)>)
    requires a.asDict.Some? && a.asDict.value == JObj(m) && m != []
    ensures Extraction(a) == Run(a, RightHandSides(m, a))
  {
  }

  /**
   * A user built from data alone, whose username and nickname are truthy and
   * whose `stats` and app context are dicts, takes both from the data.
   */
  lemma IdentifiersFromData(m: seq<(string, JSON)>)
    requires Truthy(Field(m, "uniqueId")) && Truthy(Field(m, "nickname"))
    requires StatsOf(m).JObj? && AppContext(m).JObj?
    ensures var r := Construct(JNull, JNull, JNull, Some(JObj(m)));
            r.Ok? && r.value.username == Some(Field(m, "uniqueId")) && r.value.nickname == Some(Field(m, "nickname"))
  {
    var a := Initial(JNull, JNull, JNull).(asDict := Some(JObj(m)));
    assert m != [];
    ExtractionRaises(a);
    ExtractionIdentity(a);
  }

  // ---------------------------------------------------------------------
  // Readers

  /** `info()`'s URL: the username, else the sec_uid, else the id; TypeError when none is truthy. */
  function ProfileUrl(a: Attrs): (r: Outcome<string>)
    requires Identified(a)
  {
    if Truthy(a.username.value) then Ok("https://www.tiktok.com/@" + Str(a.username.value))
    else if Truthy(a.secUid.value) then Ok("https://www.tiktok.com/@" + Str(a.secUid.value))
    else if Truthy(a.id.value) then Ok("https://www.tiktok.com/@" + Str(a.id.value))
    else Raise(TypeError)
  }

  /** The URL is chosen by the same identifiers the constructor demands, so a constructed user always has one. */
  lemma ConstructedHasProfileUrl(username: JSON, secUid: JSON, userId: JSON, data: Option<JSON>)
    requires Construct(username, secUid, userId, data).Ok?
    ensures ProfileUrl(Construct(username, secUid, userId, data).value).Ok?
    ensures ProfileUrl(Construct(username, secUid, userId, data).value).value[..23] == "https://www.tiktok.com/"
  {
  }

  /** An identified user lacks a URL exactly when it has no truthy identifier. */
  lemma ProfileUrlNeedsIdentifier(a: Attrs)
    requires Identified(a)
    ensures ProfileUrl(a).Raise? <==> !AnyIdentifier(a)
    ensures Truthy(a.username.value) ==> ProfileUrl(a) == Ok("https://www.tiktok.com/@" + Str(a.username.value))
  {
  }

  /** Every attribute `get_summary` reads is assigned. */
  predicate SummaryReady(a: Attrs)
  {
    a.id.Some? && a.username.Some? && a.nickname.Some? && a.verified.Some? && a.followerCount.Some? &&
    a.followingCount.Some? && a.videoCount.Some? && a.heartCount.Some? && a.signature.Some? &&
    a.avatarUrl.Some? && a.asDict.Some?
  }

  /** The dict `get_summary()` returns, one field per key. */
  datatype UserSummary = UserSummary(
    id: JSON, username: JSON, nickname: JSON, verified: JSON, followerCount: JSON, followingCount: JSON,
    videoCount: JSON, heartCount: JSON, signature: JSON, avatarUrl: JSON, hasData: bool)

  /** `get_summary()`: AttributeError when one of its attributes was never assigned. */
  function Summary(a: Attrs): (r: Outcome<UserSummary>)
    ensures r.Ok? <==> SummaryReady(a)
    ensures r.Raise? ==> r.exc == AttributeError
    ensures r.Ok? ==> a.username == Some(r.value.username) && a.followerCount == Some(r.value.followerCount) &&
                      r.value.hasData == Truthy(a.asDict.value)
  {
    if SummaryReady(a) then
      Ok(UserSummary(a.id.value, a.username.value, a.nickname.value, a.verified.value, a.followerCount.value, a.followingCount.value,
                     a.videoCount.value, a.heartCount.value, a.signature.value, a.avatarUrl.value, Truthy(a.asDict.value)))
    else Raise(AttributeError)
  }

  /** A user built without data, or from falsy data, has no summary. */
  lemma SummaryNeedsExtraction(username: JSON, secUid: JSON, userId: JSON, data: Option<JSON>)
    requires data.None? || !Truthy(data.value)
    requires Construct(username, secUid, userId, data).Ok?
    ensures Summary(Construct(username, secUid, userId, data).value) == Raise(AttributeError)
  {
    var a := Construct(username, secUid, userId, data).value;
    assert a.verified.None?;
  }

  /** A user built from a dict that extracts has a summary, reporting the stats follower count and has_data true. */
  lemma SummaryAfterExtraction(username: JSON, secUid: JSON, userId: JSON, m: seq<(string, JSON)>)
    requires m != []
    requires Construct(username, secUid, userId, Some(JObj(m))).Ok?
    ensures var r := Summary(Construct(username, secUid, userId, Some(JObj(m))).value);
            r.Ok? && r.value.hasData &&
            r.value.followerCount == LookupOr(StatsOf(m).members, "followerCount", JInt(0))
  {
    var a := Initial(username, secUid, userId).(asDict := Some(JObj(m)));
    var e := Extraction(a);
    assert Construct(username, secUid, userId, Some(JObj(m))) == Ok(e.attrs);
    ExtractionIdentity(a);
    StatsOverwrite(a);
  }

  /** `str(user)`: `User(username='…')`. */
  function StrOf(a: Attrs): (s: string)
    requires Identified(a)
    ensures s == "User(username='" + Str(a.username.value) + "')"
  {
    "User(username='" + Str(a.username.value) + "')"
  }

  /** The username printed is the one the data gave. */
  lemma StrShowsUsername()
    ensures StrOf(Construct(JStr("therock"), JNull, JNull, None).value) == "User(username='therock')"
  {
  }

  // ---------------------------------------------------------------------
  // The profile page

  /**
   * `_extract_sigi_state`: None without the marker, without a closing tag or
   * on undecodable text; else the first user of `UserModule.users`, else
   * `UserPage.user`, else None; a JSON null first user is Python's None.
   * A non-dict on the way raises AttributeError.
   */
  function SigiUser(page: string, loads: Loads): (r: Outcome<Option<JSON>>)
    ensures !Locate(page, SigiMarker).Text? ==> r == Ok(None)
    ensures Locate(page, SigiMarker).Text? && loads(Locate(page, SigiMarker).s).None? ==> r == Ok(None)
    ensures r.Raise? ==> r.exc == AttributeError
    ensures r.Ok? && r.value.Some? ==> r.value.value != JNull
  {
    match Locate(page, SigiMarker)
    case Text(text) =>
      (match loads(text)
       case None => Ok(None)
       case Some(data) =>
         if !data.JObj? then Raise(AttributeError)
         else
           var users :- Get(LookupOr(data.members, "UserModule", EmptyObj), "users", JNull);
           if Truthy(users) then
             if !users.JObj? then Raise(AttributeError)
             else if users.members[0].1 == JNull then Ok(None)
             else Ok(Some(users.members[0].1))
           else
             var user :- Get(LookupOr(data.members, "UserPage", EmptyObj), "user", JNull);
             if Truthy(user) then Ok(Some(user)) else Ok(None))
    case _ => Ok(None)
  }

  /** The profile owner is the first-inserted entry of `UserModule.users` when that is a non-empty dict. */
  lemma SigiFirstUser(page: string, loads: Loads, users: seq<(string, JSON)>, rest: seq<(string, JSON)>)
    requires Locate(page, SigiMarker).Text?
    requires loads(Locate(page, SigiMarker).s) == Some(JObj([("UserModule", JObj([("users", JObj(users))]))] + rest))
    requires users != [] && users[0].1 != JNull
    ensures SigiUser(page, loads) == Ok(Some(users[0].1))
  {
  }

  /** A JSON null as the first entry of `UserModule.users` is Python's None: nothing is extracted. */
  lemma SigiNullFirstUser(page: string, loads: Loads, key: string, users: seq<(string, JSON)>, rest: seq<(string, JSON)>)
    requires Locate(page, SigiMarker).Text?
    requires loads(Locate(page, SigiMarker).s) == Some(JObj([("UserModule", JObj([("users", JObj([(key, JNull)] + users))]))] + rest))
    ensures SigiUser(page, loads) == Ok(None)
  {
  }

  /** A key/value pair an update sequence element gives; non-string keys are kept as their str() text. */
  function Pair(e: JSON): (r: Outcome<(string, JSON)>)
    ensures r.Raise? ==> r.exc == TypeError || r.exc == ValueError
  {
    match e
    case JArr(kv) =>
      if |kv| != 2 then Raise(ValueError)
      else if HashKey(kv[0]).Raise? then Raise(TypeError)
      else Ok((Str(kv[0]), kv[1]))
    case JStr(s) => if |s| != 2 then Raise(ValueError) else Ok(([s[0]], JStr([s[1]])))
    case JObj(o) => if |o| != 2 then Raise(ValueError) else Ok((o[0].0, JStr(o[1].0)))
    case _ => Raise(TypeError)
  }

  function Pairs(items: seq<JSON>): (r: Outcome<seq<(string, JSON)>>)
    ensures r.Ok? ==> |r.value| == |items|
    ensures r.Raise? ==> r.exc == TypeError || r.exc == ValueError
    decreases |items|
  {
    if items == [] then Ok([])
    else
      var p :- Pair(items[0]);
      var ps :- Pairs(items[1..]);
      Ok([p] + ps)
  }

  /** `d.update(other)`: a dict's members, or an iterable of pairs; anything else raises. */
  function DictUpdate(m: seq<(string, JSON)>, other: JSON): (r: Outcome<seq<(string, JSON)>>)
    ensures other.JObj? ==> r == Ok(Update(m, other.members))
    ensures other.JNull? || other.JBool? || other.JInt? ==> r == Raise(TypeError)
    ensures other.JStr? ==> r == (if other.s == [] then Ok(m) else Raise(ValueError))
  {
    match other
    case JObj(o) => Ok(Update(m, o))
    case JArr(items) =>
      var ps :- Pairs(items);
      Ok(Update(m, ps))
    case JStr(s) => if s == [] then Ok(m) else Raise(ValueError)
    case _ => Raise(TypeError)
  }

  /** The pieces `_extract_universal_data` merges, read from the decoded state. */
  datatype Universal = Universal(scope: JSON, app: JSON, user: JSON, stats: JSON)

  function UniversalParts(data: JSON): (r: Outcome<Universal>)
    ensures r.Raise? ==> r.exc == AttributeError
  {
    var scope :- Get(data, ScopeKey, EmptyObj);
    if !scope.JObj? then Raise(AttributeError)
    else
      var app := LookupOr(scope.members, AppContextKey, EmptyObj);
      var detail := LookupOr(scope.members, "webapp.user-detail", EmptyObj);
      var info :- Get(detail, "userInfo", EmptyObj);
      if !info.JObj? then Raise(AttributeError)
      else
        var user := LookupOr(info.members, "user", EmptyObj);
        var stats := LookupOr(info.members, "stats", EmptyObj);
        Ok(Universal(scope, app, user, stats))
  }

  /** The merged dict: app-context keys, then user keys over them, then `stats`, then the whole scope. */
  function Merge(u: Universal): Outcome<JSON>
  {
    var m1 :- DictUpdate([], u.app);
    var m2 :- DictUpdate(m1, u.user);
    Ok(JObj(Set(Set(m2, "stats", u.stats), ScopeKey, u.scope)))
  }

  /** `_extract_universal_data`: None without the marker, the closing tag or decodable text; else the merge. */
  function UniversalUser(page: string, loads: Loads): (r: Outcome<Option<JSON>>)
    ensures !Locate(page, UniversalMarker).Text? ==> r == Ok(None)
    ensures Locate(page, UniversalMarker).Text? && loads(Locate(page, UniversalMarker).s).None? ==> r == Ok(None)
  {
    match Locate(page, UniversalMarker)
    case Text(text) =>
      (match loads(text)
       case None => Ok(None)
       case Some(data) =>
         var u :- UniversalParts(data);
         var merged :- Merge(u);
         Ok(Some(merged)))
    case _ => Ok(None)
  }

  /**
   * In the merge a key looks up the scope, else the stats, else the user
   * entry, else the app context (for dict parts with distinct keys).
   */
  lemma MergeOrder(u: Universal, k: string)
    requires u.app.JObj? && u.user.JObj? && DistinctKeys(u.app.members) && DistinctKeys(u.user.members)
    ensures Merge(u).Ok?
    ensures Lookup(Merge(u).value.members, k) ==
            if k == ScopeKey then Some(u.scope)
            else if k == "stats" then Some(u.stats)
            else if k in Keys(u.user.members) then Lookup(u.user.members, k)
            else Lookup(u.app.members, k)
  {
    var m1 := Update([], u.app.members);
    var m2 := Update(m1, u.user.members);
    UpdateLookup([], u.app.members, k);
    UpdateLookup(m1, u.user.members, k);
    SetLookup(m2, "stats", u.stats, k);
    SetLookup(Set(m2, "stats", u.stats), ScopeKey, u.scope, k);
  }

  /** `info()`'s choice: the universal data, else SIGI_STATE, else nothing; exceptions escape. */
  function PageUser(page: string, loads: Loads): (r: Outcome<Option<JSON>>)
    ensures UniversalUser(page, loads).Ok? && UniversalUser(page, loads).value.Some? ==> r == UniversalUser(page, loads)
    ensures UniversalUser(page, loads) == Ok(None) ==> r == SigiUser(page, loads)
    ensures UniversalUser(page, loads).Raise? ==> r == UniversalUser(page, loads)
  {
    var u :- UniversalUser(page, loads);
    if u.Some? then Ok(u) else SigiUser(page, loads)
  }

  /** A page without either marker gives nothing, which `info()` turns into InvalidResponse. */
  lemma NoMarkersNoUser(page: string, loads: Loads)
    requires Find(page, UniversalMarker, 0) == -1 && Find(page, SigiMarker, 0) == -1
    ensures PageUser(page, loads) == Ok(None)
  {
  }

  // ---------------------------------------------------------------------
  // Video listings

  /** `videos`: requests of min(35, count - found), at most count items. */
  method Videos(count: int, cursor: int, hasClient: bool, rs: seq<Option<JSON>>) returns (p: Paging)
    ensures p == CappedPages(UpToThirtyFive, count, cursor, hasClient, rs)
  {
    p := FetchCappedPages(UpToThirtyFive, count, cursor, hasClient, rs);
  }

  /** `liked_videos`: the same loop with a fixed request count of 30. */
  method LikedVideos(count: int, cursor: int, hasClient: bool, rs: seq<Option<JSON>>) returns (p: Paging)
    ensures p == CappedPages(Thirty, count, cursor, hasClient, rs)
  {
    p := FetchCappedPages(Thirty, count, cursor, hasClient, rs);
  }

  /**
   * The listings as written: the request call passes `headers=` and also
   * spreads `**kwargs`, so a caller's `headers` keyword makes the call itself
   * raise TypeError before any request; the loop's handler swallows it.
   */
  function VideosAsWritten(rule: SizeRule, count: int, cursor: int, hasClient: bool, headersInKwargs: bool,
                           rs: seq<Option<JSON>>): Paging
  {
    if headersInKwargs && count > 0 && hasClient then Paging([], [], Returned)
    else CappedPages(rule, count, cursor, hasClient, rs)
  }

  /** With a `headers` keyword the listing yields nothing, where the same response gives a video otherwise. */
  lemma HeadersKeywordDropsVideos()
    ensures var rs := [Some(JObj([("itemList", JArr([JStr("v")])), ("hasMore", JBool(false))]))];
            VideosAsWritten(UpToThirtyFive, 30, 0, true, true, rs).items == [] &&
            CappedPages(UpToThirtyFive, 30, 0, true, rs).items == [JStr("v")]
  {
    var rs := [Some(JObj([("itemList", JArr([JStr("v")])), ("hasMore", JBool(false))]))];
    var resp := rs[0].value;
    assert PageOf(resp, UserItemsKey) == Ok([JStr("v")]);
    assert NoMore(resp, UserMoreKey);
    assert CappedRound(0, 30, JInt(0), rs[0]) == Stop([JStr("v")], Returned);
    RunUnfold(CappedFn(), CappedSize(UpToThirtyFive), 0, 30, JInt(0), true, rs);
  }

  // ---------------------------------------------------------------------
  // The object

  class User {
    var attrs: Attrs

    /** The first lines of `__init__`: the three identifiers. */
    constructor (username: JSON, secUid: JSON, userId: JSON)
      ensures attrs == Initial(username, secUid, userId)
    {
      attrs := Initial(username, secUid, userId);
    }

    /** `__init__` in full: the identifiers, the extraction when data is given, the identifier check. */
    static method New(username: JSON, secUid: JSON, userId: JSON, data: Option<JSON>) returns (r: Outcome<User>)
      ensures r.Raise? <==> Construct(username, secUid, userId, data).Raise?
      ensures r.Raise? ==> r.exc == Construct(username, secUid, userId, data).exc
      ensures r.Ok? ==> fresh(r.value) && r.value.attrs == Construct(username, secUid, userId, data).value
    {
      var u := new User(username, secUid, userId);
      if data.Some? {
        u.attrs := u.attrs.(asDict := Some(data.value));
        var raised := u.ExtractFromData();
        if raised.Some? {
          return Raise(raised.value);
        }
      }
      if !(Truthy(u.attrs.username.value) || Truthy(u.attrs.secUid.value) || Truthy(u.attrs.id.value)) {
        return Raise(TypeError);
      }
      return Ok(u);
    }

    /** `__extract_from_data`, one assignment at a time; an exception leaves the lines before it done. */
    method ExtractFromData() returns (raised: Option<Exc>)
      requires attrs.asDict.Some?
      modifies this
      ensures Step(attrs, raised) == Extraction(old(attrs))
    {
      var data := attrs.asDict.value;
      if !Truthy(data) {
        return None;
      }
      if !data.JObj? {
        return Some(AttributeError);
      }
      var m := data.members;
      ghost var r := RightHandSides(m, attrs);
      raised := ExtractIdentity(m, r);
      if raised.Some? { return; }
      raised := ExtractProfile(m, r);
      if raised.Some? { return; }
      raised := ExtractCounts(m, r);
      if raised.Some? { return; }
      raised := ExtractTail(m, r);
    }

    /** The identifier lines of `__extract_from_data`, one assignment at a time. */
    method ExtractIdentity(m: seq<(string, JSON)>, ghost r: Rhs) returns (raised: Option<Exc>)
      requires r.id == OrSelf(Field(m, "id"), attrs.id) && r.username == OrSelf(Field(m, "uniqueId"), attrs.username)
      requires r.nickname == OrSelf(Field(m, "nickname"), attrs.nickname) && r.secUid == OrSelf(Field(m, "secUid"), attrs.secUid)
      modifies this
      ensures Step(attrs, raised) == IdentityLines(Step(old(attrs), None), r)
    {
      var id := OrSelf(Field(m, "id"), attrs.id);
      if id.Raise? { return Some(id.exc); }
      attrs := attrs.(id := Some(id.value));
      var username := OrSelf(Field(m, "uniqueId"), attrs.username);
      if username.Raise? { return Some(username.exc); }
      attrs := attrs.(username := Some(username.value));
      var nickname := OrSelf(Field(m, "nickname"), attrs.nickname);
      if nickname.Raise? { return Some(nickname.exc); }
      attrs := attrs.(nickname := Some(nickname.value));
      var secUid := OrSelf(Field(m, "secUid"), attrs.secUid);
      if secUid.Raise? { return Some(secUid.exc); }
      attrs := attrs.(secUid := Some(secUid.value));
      return None;
    }

    /** The profile lines of `__extract_from_data`, one assignment at a time. */
    method ExtractProfile(m: seq<(string, JSON)>, ghost r: Rhs) returns (raised: Option<Exc>)
      requires r.verified == LookupOr(m, "verified", JBool(false))
      requires r.signature == Field(m, "signature")
      requires r.region == OrGet(Field(m, "region"), AppContext(m), "region", JNull)
      requires r.language == OrGet(Field(m, "language"), AppContext(m), "language", JNull)
      modifies this
      ensures Step(attrs, raised) == ProfileLines(Step(old(attrs), None), r)
    {
      attrs := attrs.(verified := Some(LookupOr(m, "verified", JBool(false))));
      attrs := attrs.(signature := Some(Field(m, "signature")));
      var region := OrGet(Field(m, "region"), AppContext(m), "region", JNull);
      if region.Raise? { return Some(region.exc); }
      attrs := attrs.(region := Some(region.value));
      var language := OrGet(Field(m, "language"), AppContext(m), "language", JNull);
      if language.Raise? { return Some(language.exc); }
      attrs := attrs.(language := Some(language.value));
      return None;
    }

    /** The count lines of `__extract_from_data`, one assignment at a time. */
    method ExtractCounts(m: seq<(string, JSON)>, ghost r: Rhs) returns (raised: Option<Exc>)
      requires r.follower == CountValue(m, "followerCount")
      requires r.following == CountValue(m, "followingCount")
      requires r.heart == CountValue(m, "heartCount")
      requires r.video == CountValue(m, "videoCount")
      requires r.friends == CountValue(m, "friendCount")
      requires r.digg == CountValue(m, "diggCount")
      modifies this
      ensures Step(attrs, raised) == CountLines(Step(old(attrs), None), r)
    {
      var follower := CountValue(m, "followerCount");
      if follower.Raise? { return Some(follower.exc); }
      attrs := attrs.(followerCount := Some(follower.value));
      var following := CountValue(m, "followingCount");
      if following.Raise? { return Some(following.exc); }
      attrs := attrs.(followingCount := Some(following.value));
      var heart := CountValue(m, "heartCount");
      if heart.Raise? { return Some(heart.exc); }
      attrs := attrs.(heartCount := Some(heart.value));
      var video := CountValue(m, "videoCount");
      if video.Raise? { return Some(video.exc); }
      attrs := attrs.(videoCount := Some(video.value));
      var friends := CountValue(m, "friendCount");
      if friends.Raise? { return Some(friends.exc); }
      attrs := attrs.(friendsCount := Some(friends.value));
      var digg := CountValue(m, "diggCount");
      if digg.Raise? { return Some(digg.exc); }
      attrs := attrs.(diggCount := Some(digg.value));
      return None;
    }

    /** The remaining lines of `__extract_from_data`, one assignment at a time. */
    method ExtractTail(m: seq<(string, JSON)>, ghost r: Rhs) returns (raised: Option<Exc>)
      requires r.botType == OrGet(Field(m, "botType"), AppContext(m), "botType", JStr("unknown"))
      requires r.avatar == AvatarOf(m)
      requires r.statsFollower == Get(StatsOf(m), "followerCount", JInt(0))
      requires r.statsFollowing == Get(StatsOf(m), "followingCount", JInt(0))
      requires r.statsVideo == Get(StatsOf(m), "videoCount", JInt(0))
      requires r.statsHeart == Get(StatsOf(m), "heartCount", JInt(0))
      requires r.scope == (if ScopeKey in Keys(m) then Some(Field(m, ScopeKey)) else None)
      modifies this
      ensures Step(attrs, raised) == TailLines(Step(old(attrs), None), r)
    {
      var botType := OrGet(Field(m, "botType"), AppContext(m), "botType", JStr("unknown"));
      if botType.Raise? { return Some(botType.exc); }
      attrs := attrs.(botType := Some(botType.value));
      attrs := attrs.(avatarUrl := Some(AvatarOf(m)));
      var statsFollower := Get(StatsOf(m), "followerCount", JInt(0));
      if statsFollower.Raise? { return Some(statsFollower.exc); }
      attrs := attrs.(followerCount := Some(statsFollower.value));
      // `stats` is a dict from here on, so the other three reads succeed.
      var statsFollowing := Get(StatsOf(m), "followingCount", JInt(0));
      attrs := attrs.(followingCount := Some(statsFollowing.value));
      var statsVideo := Get(StatsOf(m), "videoCount", JInt(0));
      attrs := attrs.(videoCount := Some(statsVideo.value));
      var statsHeart := Get(StatsOf(m), "heartCount", JInt(0));
      attrs := attrs.(heartCount := Some(statsHeart.value));
      if ScopeKey in Keys(m) {
        attrs := attrs.(defaultScope := Some(Field(m, ScopeKey)));
      }
      return None;
    }

    /**
     * `info()`: TypeError without a driver or an identifier; otherwise the
     * profile URL is visited, the page's user data located, InvalidResponse
     * when there is none, and the data stored and extracted.
     */
    method Info(hasDriver: bool, page: string, loads: Loads) returns (visited: Option<string>, r: Outcome<JSON>)
      requires Identified(attrs)
      modifies this
      ensures !hasDriver || ProfileUrl(old(attrs)).Raise? ==>
                visited.None? && r == Raise(TypeError) && attrs == old(attrs)
      ensures hasDriver && ProfileUrl(old(attrs)).Ok? ==>
                visited == Some(ProfileUrl(old(attrs)).value) &&
                match PageUser(page, loads)
                case Raise(e) => r == Raise(e) && attrs == old(attrs)
                case Ok(None) => r == Raise(InvalidResponse) && attrs == old(attrs)
                case Ok(Some(info)) =>
                  var s := Extraction(old(attrs).(asDict := Some(info)));
                  attrs == s.attrs && r == (if s.raised.Some? then Raise(s.raised.value) else Ok(info))
    {
      if !hasDriver {
        return None, Raise(TypeError);
      }
      var url := ProfileUrl(attrs);
      if url.Raise? {
        return None, Raise(TypeError);
      }
      visited := Some(url.value);
      var found := PageUser(page, loads);
      if found.Raise? {
        return visited, Raise(found.exc);
      }
      if found.value.None? {
        return visited, Raise(InvalidResponse);
      }
      attrs := attrs.(asDict := Some(found.value.value));
      var raised := ExtractFromData();
      if raised.Some? {
        return visited, Raise(raised.value);
      }
      return visited, Ok(found.value.value);
    }
  }
}
