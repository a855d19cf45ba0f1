// URL and identifier validation, the mapping of request failures onto the
// scraper's exception classes, the retry loop and safe_execute.

module ErrorHandling {
  import opened Json

  // ---------------------------------------------------------------------
  // Character classes (ASCII)

  predicate IsAsciiLetter(c: char) { 'a' <= c <= 'z' || 'A' <= c <= 'Z' }

  /** `\w` over ASCII. */
  predicate IsWord(c: char) { IsAsciiLetter(c) || IsDigit(c) || c == '_' }

  /** `[\w.-]`, the user segment of a video URL. */
  predicate IsUserSegmentChar(c: char) { IsWord(c) || c == '.' || c == '-' }

  /** `[\w-]`, a short-link slug. */
  predicate IsSlugChar(c: char) { IsWord(c) || c == '-' }

  /** `[a-zA-Z0-9._-]`, a username. */
  predicate IsUsernameChar(c: char) { IsAsciiLetter(c) || IsDigit(c) || c == '.' || c == '_' || c == '-' }

  predicate HasAt(s: string, i: nat, lit: string)
  {
    i + |lit| <= |s| && s[i..i + |lit|] == lit
  }

  /**
   * `https?://(?:www\.)?tiktok\.com/@` spelt out: the scheme and the optional
   * "www." each begin with a different character, so at most one applies.
   */
  const VideoPrefixes: seq<string> :=
    ["https://www.tiktok.com/@", "https://tiktok.com/@", "http://www.tiktok.com/@", "http://tiktok.com/@"]

  /** `https?://(?:vm|vt)\.tiktok\.com/` spelt out. */
  const ShortLinkPrefixes: seq<string> :=
    ["https://vm.tiktok.com/", "https://vt.tiktok.com/", "http://vm.tiktok.com/", "http://vt.tiktok.com/"]

  /** `https?://(?:www\.)?tiktok\.com/t/` spelt out. */
  const SharePrefixes: seq<string> :=
    ["https://www.tiktok.com/t/", "https://tiktok.com/t/", "http://www.tiktok.com/t/", "http://tiktok.com/t/"]

  /** The end of the longest run of user-segment characters starting at `i`. */
  function RunEnd(s: string, i: nat): (j: nat)
    requires i <= |s|
    ensures i <= j <= |s|
    ensures forall k :: i <= k < j ==> IsUserSegmentChar(s[k])
    ensures j == |s| || !IsUserSegmentChar(s[j])
    decreases |s| - i
  {
    if i < |s| && IsUserSegmentChar(s[i]) then RunEnd(s, i + 1) else i
  }

  /**
   * `[\w.-]+/video/\d` at the start of `t`.  The user segment cannot hold '/',
   * so the regex engine's only way through is the longest run.
   */
  predicate UserThenVideo(t: string)
  {
    var e := RunEnd(t, 0);
    e > 0 && HasAt(t, e, "/video/") && e + 7 < |t| && IsDigit(t[e + 7])
  }

  /** The length of the first of `ps` that `s` starts with. */
  function MatchedPrefix(ps: seq<string>, s: string): (r: Option<nat>)
    ensures r.Some? ==> r.value <= |s| && exists i :: 0 <= i < |ps| && ps[i] <= s && |ps[i]| == r.value
    ensures r.None? ==> forall i :: 0 <= i < |ps| ==> !(ps[i] <= s)
  {
    if ps == [] then None
    else if ps[0] <= s then Some(|ps[0]|)
    else
      var r := MatchedPrefix(ps[1..], s);
      assert r.Some? ==> exists i :: 0 <= i < |ps[1..]| && ps[1..][i] <= s && |ps[1..][i]| == r.value;
      assert r.Some? ==> exists i :: 0 <= i < |ps| && ps[i] <= s && |ps[i]| == r.value by {
        if r.Some? {
          var i :| 0 <= i < |ps[1..]| && ps[1..][i] <= s && |ps[1..][i]| == r.value;
          assert ps[i + 1] == ps[1..][i];
        }
      }
      r
  }

  /** `re.match(r'https?://(?:www\.)?tiktok\.com/@[\w.-]+/video/\d+', s)` */
  predicate MatchesVideoPattern(s: string)
  {
    match MatchedPrefix(VideoPrefixes, s)
    case None => false
    case Some(n) => UserThenVideo(s[n..])
  }

  /** `re.match(r'https?://(?:vm|vt)\.tiktok\.com/[\w-]+', s)` */
  predicate MatchesShortLinkPattern(s: string)
  {
    match MatchedPrefix(ShortLinkPrefixes, s)
    case None => false
    case Some(n) => n < |s| && IsSlugChar(s[n])
  }

  /** `re.match(r'https?://(?:www\.)?tiktok\.com/t/[\w-]+', s)` */
  predicate MatchesSharePattern(s: string)
  {
    match MatchedPrefix(SharePrefixes, s)
    case None => false
    case Some(n) => n < |s| && IsSlugChar(s[n])
  }

  /** `validate_url`: False for a falsy or non-string value, else whether a prefix matches one pattern. */
  function ValidateUrl(url: JSON): (ok: bool)
    ensures ok ==> url.JStr? && |url.s| > 0
  {
    url.JStr? && |url.s| > 0 &&
    (MatchesVideoPattern(url.s) || MatchesShortLinkPattern(url.s) || MatchesSharePattern(url.s))
  }

  /** The declarative reading of `[\w.-]+/video/\d`: a non-empty user segment, "/video/", a digit, then anything. */
  ghost predicate UserVideoShape(t: string)
  {
    exists user, d, rest ::
      |user| > 0 && (forall k :: 0 <= k < |user| ==> IsUserSegmentChar(user[k])) &&
      IsDigit(d) && t == user + "/video/" + [d] + rest
  }

  /** The longest-run matcher accepts exactly the strings of that shape. */
  lemma UserThenVideoIffShape(t: string)
    ensures UserThenVideo(t) <==> UserVideoShape(t)
  {
    if UserThenVideo(t) {
      var e := RunEnd(t, 0);
      assert t[e..e + 7] == "/video/";
      assert t == t[..e] + "/video/" + [t[e + 7]] + t[e + 8..];
      assert forall k :: 0 <= k < |t[..e]| ==> IsUserSegmentChar(t[..e][k]);
    }
    if UserVideoShape(t) {
      var user, d, rest :|
        |user| > 0 && (forall k :: 0 <= k < |user| ==> IsUserSegmentChar(user[k])) &&
        IsDigit(d) && t == user + "/video/" + [d] + rest;
      ShapeMatches(t, user, d, rest);
    }
  }

  lemma ShapeMatches(t: string, user: string, d: char, rest: string)
    requires |user| > 0 && forall k :: 0 <= k < |user| ==> IsUserSegmentChar(user[k])
    requires IsDigit(d) && t == user + "/video/" + [d] + rest
    ensures UserThenVideo(t)
  {
    var e := |user|;
    assert forall k :: 0 <= k < e ==> t[k] == user[k];
    assert t[e..e + 7] == "/video/";
    RunEndIs(t, 0, e);
    assert t[e + 7] == d;
  }

  lemma {:induction false} RunEndIs(s: string, i: nat, j: nat)
    requires i <= j < |s|
    requires forall k :: i <= k < j ==> IsUserSegmentChar(s[k])
    requires !IsUserSegmentChar(s[j])
    ensures RunEnd(s, i) == j
    decreases j - i
  {
    if i < j { RunEndIs(s, i + 1, j); }
  }

  /** A canonical video URL with a user of segment characters and a numeric id is valid. */
  lemma CanonicalUrlValid(user: string, id: string)
    requires |user| > 0 && forall k :: 0 <= k < |user| ==> IsUserSegmentChar(user[k])
    requires AllDigits(id)
    ensures ValidateUrl(JStr("https://www.tiktok.com/@" + user + "/video/" + id))
  {
    var p := "https://www.tiktok.com/@";
    var s := p + user + "/video/" + id;
    assert s[|p|..] == user + "/video/" + [id[0]] + id[1..];
    ShapeMatches(s[|p|..], user, id[0], id[1..]);
    assert p in VideoPrefixes && p <= s;
  }

  /** A photo post's URL is not accepted. */
  const PhotoUrl: string := "https://www.tiktok.com/@a/photo/1"

  /** A photo post's URL is not accepted. */
  lemma RejectsPhotoUrl()
    ensures !ValidateUrl(JStr(PhotoUrl))
  {
    PhotoNotVideo();
    PhotoNotShortLink();
    PhotoNotShare();
  }

  lemma PhotoNotVideo()
    ensures !MatchesVideoPattern(PhotoUrl)
  {
    var s := PhotoUrl;
    assert VideoPrefixes[0] <= s;
    assert MatchedPrefix(VideoPrefixes, s) == Some(24);
    var t := s[24..];
    assert t == "a/photo/1";
    RunEndIs(t, 0, 1);
    assert t[2] == 'p';
  }

  lemma PhotoNotShortLink()
    ensures !MatchesShortLinkPattern(PhotoUrl)
  {
    var s := PhotoUrl;
    assert s[8] == 'w';
    assert ShortLinkPrefixes[0][8] == 'v' && ShortLinkPrefixes[1][8] == 'v';
    assert ShortLinkPrefixes[2][7] == 'v' && ShortLinkPrefixes[3][7] == 'v';
  }

  lemma PhotoNotShare()
    ensures !MatchesSharePattern(PhotoUrl)
  {
    var s := PhotoUrl;
    assert s[8] == 'w' && s[23] == '@' && s[4] == 's';
    assert SharePrefixes[0][23] == 't' && SharePrefixes[1][8] == 't';
    assert SharePrefixes[2][4] == ':' && SharePrefixes[3][4] == ':';
  }

  lemma AcceptsShortLink()
    ensures ValidateUrl(JStr("https://vm.tiktok.com/ZMabc/"))
  {
    var s := "https://vm.tiktok.com/ZMabc/";
    assert ShortLinkPrefixes[0] <= s;
  }

  // ---------------------------------------------------------------------
  // validate_user_identifier

  predicate UsernameBody(t: string)
  {
    |t| > 0 && forall k :: 0 <= k < |t| ==> IsUsernameChar(t[k])
  }

  /**
   * `validate_user_identifier`: False for a falsy or non-string value; a
   * "username" must be username characters, where `$` also lets one final
   * newline through; a "user_id" must be digits; any other type passes.
   */
  function ValidateUserIdentifier(identifier: JSON, identifierType: string): (ok: bool)
    ensures !(identifier.JStr? && |identifier.s| > 0) ==> !ok
    ensures identifier.JStr? && |identifier.s| > 0 && identifierType == "username" ==>
              (ok <==> UsernameBody(identifier.s) ||
                       (identifier.s[|identifier.s| - 1] == '\n' && UsernameBody(identifier.s[..|identifier.s| - 1])))
    ensures identifier.JStr? && |identifier.s| > 0 && identifierType == "user_id" ==> (ok <==> AllDigits(identifier.s))
    ensures identifier.JStr? && |identifier.s| > 0 && identifierType != "username" && identifierType != "user_id" ==> ok
  {
    if !identifier.JStr? || |identifier.s| == 0 then false
    else
      var s := identifier.s;
      if identifierType == "username" then
        UsernameBody(s) || (s[|s| - 1] == '\n' && UsernameBody(s[..|s| - 1]))
      else if identifierType == "user_id" then AllDigits(s)
      else true
  }

  /** The trailing newline is the only character outside the class that gets through. */
  lemma UsernameTrailingNewline()
    ensures ValidateUserIdentifier(JStr("bob\n"), "username")
    ensures !ValidateUserIdentifier(JStr("bob\n\n"), "username")
    ensures !ValidateUserIdentifier(JStr("@bob"), "username")
  {
    assert "bob\n"[..3] == "bob";
    assert !IsUsernameChar("bob\n\n"[3]);
    assert "bob\n\n"[..4] == "bob\n";
    assert !IsUsernameChar("@bob"[0]);
  }

  // ---------------------------------------------------------------------
  // handle_request_error

  /** The request failures `handle_request_error` tells apart. */
  datatype RequestFailure =
    | Timeout
    | ConnectionFailure
    | HttpError(status: Option<int>)
    | OtherFailure

  /** `handle_request_error` always raises; this is the exception it raises. */
  function HandleRequestError(e: RequestFailure): (x: Exc)
    ensures x in {NetworkError, RateLimitError, AuthenticationError}
    ensures x == RateLimitError <==> e == HttpError(Some(429))
    ensures x == AuthenticationError <==> e == HttpError(Some(403))
  {
    match e
    case Timeout => NetworkError
    case ConnectionFailure => NetworkError
    case HttpError(status) =>
      if status == Some(429) then RateLimitError
      else if status == Some(403) then AuthenticationError
      else NetworkError
    case OtherFailure => NetworkError
  }

  // ---------------------------------------------------------------------
  // retry_on_exception and safe_execute

  /**
   * The attempt loop of `retry_on_exception`'s wrapper.  `call(k)` is what the
   * wrapped function does on attempt k.  A success is returned at once, a
   * non-retryable exception is re-raised at once, a retryable one is re-raised
   * on the last of the max_retries + 1 attempts.  With no attempt at all
   * (max_retries < 0) the wrapper returns None.
   */
  method RetryOnException<T>(maxRetries: int, call: nat -> Outcome<T>, retryable: Exc -> bool)
    returns (r: Outcome<Option<T>>, calls: nat)
    ensures maxRetries < 0 ==> r == Ok(None) && calls == 0
    ensures maxRetries >= 0 ==> 1 <= calls <= maxRetries + 1
    ensures forall k :: 0 <= k < calls - 1 ==> call(k).Raise? && retryable(call(k).exc)
    ensures calls > 0 ==> r == (match call(calls - 1)
                                 case Ok(v) => Ok(Some(v))
                                 case Raise(e) => Raise(e))
    ensures calls > 0 && call(calls - 1).Raise? && retryable(call(calls - 1).exc) ==> calls == maxRetries + 1
  {
    r, calls := Ok(None), 0;
    var attempt: nat := 0;
    while attempt < maxRetries + 1
      invariant attempt == calls
      invariant forall k :: 0 <= k < calls ==> call(k).Raise? && retryable(call(k).exc)
      invariant attempt == 0 || attempt <= maxRetries
      invariant r == Ok(None)
      decreases maxRetries + 1 - attempt
    {
      var o := call(attempt);
      calls := calls + 1;
      match o {
        case Ok(v) =>
          return Ok(Some(v)), calls;
        case Raise(e) =>
          if !retryable(e) || attempt == maxRetries {
            return Raise(e), calls;
          }
      }
      attempt := attempt + 1;
    }
  }

  /** `safe_execute`: the function's result, or the default if it raised. */
  function SafeExecute<T>(o: Outcome<T>, default: T): (r: T)
    ensures o.Ok? ==> r == o.value
    ensures o.Raise? ==> r == default
  {
    match o
    case Ok(v) => v
    case Raise(_) => default
  }
}
