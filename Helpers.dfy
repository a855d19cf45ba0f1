// The string part of video-id extraction and the cookie projection handed to
// the browser.

module Helpers {
  import opened Json

  const VideoSep: string := "/video/"

  /** The URL the id is read from: the HEAD request's final URL, or the original when that request failed. */
  function EffectiveUrl(url: string, resolved: Option<string>): (u: string)
    ensures resolved.None? ==> u == url
  {
    if resolved.Some? then resolved.value else url
  }

  /** `s.split(sep)[0]` */
  function FirstPiece(s: string, sep: string): (r: string)
    requires |sep| > 0
    ensures r <= s
    ensures forall p :: 0 <= p ==> !OccursAt(r, sep, p)
    ensures |r| == |s| || OccursAt(s, sep, |r|)
    ensures forall k :: 0 <= k < |r| ==> !OccursAt(s, sep, k)
  {
    var j := Find(s, sep, 0);
    var r := if j == -1 then s else s[..j];
    SliceAvoids(s, sep, 0, if j == -1 then |s| else j);
    assert r == s[0..if j == -1 then |s| else j];
    r
  }

  /** `s.split(sep)[1]`, given that `sep` occurs in `s`. */
  function SecondPiece(s: string, sep: string): (r: string)
    requires |sep| > 0 && Find(s, sep, 0) != -1
    ensures var start := Find(s, sep, 0) + |sep|;
            start + |r| <= |s| && r == s[start..start + |r|] &&
            (start + |r| == |s| || OccursAt(s, sep, start + |r|))
    ensures var start := Find(s, sep, 0) + |sep|;
            forall k :: start <= k < start + |r| ==> !OccursAt(s, sep, k)
    ensures forall p :: 0 <= p ==> !OccursAt(r, sep, p)
  {
    var start := Find(s, sep, 0) + |sep|;
    var j := Find(s, sep, start);
    var r := if j == -1 then s[start..] else s[start..j];
    SliceAvoids(s, sep, start, if j == -1 then |s| else j);
    r
  }

  /** A slice of `s` holds no occurrence of `sep` when no occurrence starts inside it. */
  lemma SliceAvoids(s: string, sep: string, start: nat, end: nat)
    requires |sep| > 0 && start <= end <= |s|
    requires forall i :: start <= i < end ==> !OccursAt(s, sep, i)
    ensures forall p :: 0 <= p ==> !OccursAt(s[start..end], sep, p)
  {
    var r := s[start..end];
    forall p | 0 <= p ensures !OccursAt(r, sep, p) {
      if OccursAt(r, sep, p) {
        var inR, inS := r[p..p + |sep|], s[start + p..start + p + |sep|];
        assert forall q :: 0 <= q < |sep| ==> inR[q] == inS[q];
        assert inS == inR;
        assert OccursAt(s, sep, start + p);
      }
    }
  }

  /** A string with no occurrence of `sub` does not contain it. */
  lemma NotSubstring(s: string, sub: string)
    requires forall p :: 0 <= p ==> !OccursAt(s, sub, p)
    ensures !IsSubstring(sub, s)
  {
  }

  lemma FindFound(s: string, sub: string)
    requires IsSubstring(sub, s)
    ensures Find(s, sub, 0) != -1
  {
  }

  /**
   * `extract_video_id_from_url`, after the HEAD request: for a URL holding
   * both "@" and "/video/", the text after the first "/video/", cut at the
   * next "/video/" or "?"; TypeError for any other URL.
   */
  function ExtractVideoId(url: string, resolved: Option<string>): (r: Outcome<string>)
    ensures var u := EffectiveUrl(url, resolved);
            r.Raise? <==> !(IsSubstring("@", u) && IsSubstring(VideoSep, u))
    ensures r.Raise? ==> r.exc == TypeError
  {
    var u := EffectiveUrl(url, resolved);
    if IsSubstring("@", u) && IsSubstring(VideoSep, u) then
      FindFound(u, VideoSep);
      Ok(FirstPiece(SecondPiece(u, VideoSep), "?"))
    else Raise(TypeError)
  }

  /**
   * The id holds neither "/video/" nor "?"; it is the text right after the
   * first "/video/", and what follows it is the end, a "?" or the next "/video/".
   */
  lemma ExtractedIdShape(url: string, resolved: Option<string>)
    requires ExtractVideoId(url, resolved).Ok?
    ensures var id := ExtractVideoId(url, resolved).value;
            !IsSubstring(VideoSep, id) && !IsSubstring("?", id)
    ensures var id := ExtractVideoId(url, resolved).value;
      var u := EffectiveUrl(url, resolved);
      var start := Find(u, VideoSep, 0) + |VideoSep|;
      start + |id| <= |u| && id == u[start..start + |id|] &&
      (start + |id| == |u| || u[start + |id|] == '?' || OccursAt(u, VideoSep, start + |id|))
    ensures var id := ExtractVideoId(url, resolved).value;
      var u := EffectiveUrl(url, resolved);
      var start := Find(u, VideoSep, 0) + |VideoSep|;
      forall k :: start <= k < start + |id| ==> u[k] != '?' && !OccursAt(u, VideoSep, k)
  {
    var u := EffectiveUrl(url, resolved);
    FindFound(u, VideoSep);
    var seg := SecondPiece(u, VideoSep);
    var id := FirstPiece(seg, "?");
    assert ExtractVideoId(url, resolved).value == id;
    PieceHoldsNoSep(seg, id);
    var start := Find(u, VideoSep, 0) + |VideoSep|;
    PrefixOfSlice(u, start, seg, id);
    if |id| < |seg| {
      QuestionAt(seg, |id|);
    }
    InsideIdFree(u, start, seg, id);
  }

  /** No "?" and no start of a "/video/" lies inside an id cut from the piece after the first "/video/". */
  lemma InsideIdFree(u: string, start: nat, seg: string, id: string)
    requires start + |seg| <= |u| && seg == u[start..start + |seg|] && id <= seg
    requires forall k :: start <= k < start + |seg| ==> !OccursAt(u, VideoSep, k)
    requires forall k :: 0 <= k < |id| ==> !OccursAt(seg, "?", k)
    ensures forall k :: start <= k < start + |id| ==> u[k] != '?' && !OccursAt(u, VideoSep, k)
  {
    forall k | start <= k < start + |id| ensures u[k] != '?' {
      var j := k - start;
      assert u[k] == seg[j];
      assert !OccursAt(seg, "?", j);
      assert seg[j..j + 1] == [seg[j]];
    }
  }

  /** A piece cut from `seg` at its first "?" holds neither "?" nor, when `seg` does not, "/video/". */
  lemma PieceHoldsNoSep(seg: string, id: string)
    requires id == FirstPiece(seg, "?")
    requires forall p :: 0 <= p ==> !OccursAt(seg, VideoSep, p)
    ensures !IsSubstring(VideoSep, id) && !IsSubstring("?", id)
  {
    NotSubstring(id, "?");
    forall p | 0 <= p ensures !OccursAt(id, VideoSep, p) {
      if OccursAt(id, VideoSep, p) {
        assert seg[p..p + |VideoSep|] == id[p..p + |VideoSep|];
        assert OccursAt(seg, VideoSep, p);
      }
    }
    NotSubstring(id, VideoSep);
  }

  /** A prefix of a slice of `u` is the slice of the same start, and the next character is the slice's. */
  lemma PrefixOfSlice(u: string, start: nat, seg: string, id: string)
    requires start + |seg| <= |u| && seg == u[start..start + |seg|] && id <= seg
    ensures start + |id| <= |u| && id == u[start..start + |id|]
    ensures |id| < |seg| ==> u[start + |id|] == seg[|id|]
  {
  }

  lemma QuestionAt(s: string, p: int)
    requires OccursAt(s, "?", p)
    ensures s[p] == '?'
  {
    assert s[p..p + 1] == "?";
  }

  const ProfilePrefix: string := "https://www.tiktok.com/@"

  predicate NoSlash(s: string) { forall i :: 0 <= i < |s| ==> s[i] != '/' }

  lemma PrefixSlashes(p: nat)
    requires p < |ProfilePrefix| && ProfilePrefix[p] == '/'
    ensures p == 6 || p == 7 || p == 22
  {
  }

  /** An occurrence of "/video/" starts with "/v". */
  lemma SepStart(u: string, p: int)
    requires OccursAt(u, VideoSep, p)
    ensures u[p] == '/' && u[p + 1] == 'v'
  {
    assert u[p..p + |VideoSep|][0] == u[p];
    assert u[p..p + |VideoSep|][1] == u[p + 1];
  }

  lemma FirstSepInCanonical(user: string, id: string)
    requires NoSlash(user)
    ensures Find(ProfilePrefix + user + VideoSep + id, VideoSep, 0) == |ProfilePrefix| + |user|
  {
    var u := ProfilePrefix + user + VideoSep + id;
    var at := |ProfilePrefix| + |user|;
    assert OccursAt(u, VideoSep, at) by {
      assert u[at..at + |VideoSep|] == VideoSep;
    }
    forall p | 0 <= p < at ensures !OccursAt(u, VideoSep, p) {
      if OccursAt(u, VideoSep, p) {
        SepStart(u, p);
        if p < |ProfilePrefix| {
          assert u[p] == ProfilePrefix[p];
          PrefixSlashes(p);
        }
      }
    }
  }

  lemma NoSepInId(user: string, id: string)
    requires NoSlash(id)
    ensures var u := ProfilePrefix + user + VideoSep + id;
            forall p :: |ProfilePrefix| + |user| + |VideoSep| <= p ==> !OccursAt(u, VideoSep, p)
  {
    var u := ProfilePrefix + user + VideoSep + id;
    var start := |ProfilePrefix| + |user| + |VideoSep|;
    forall p | start <= p ensures !OccursAt(u, VideoSep, p) {
      if OccursAt(u, VideoSep, p) {
        SepStart(u, p);
      }
    }
  }

  /** The id is read back from a canonical video URL. */
  lemma CanonicalVideoUrl(user: string, id: string)
    requires NoSlash(user) && NoSlash(id) && !IsSubstring("?", id)
    ensures ExtractVideoId(ProfilePrefix + user + VideoSep + id, None) == Ok(id)
  {
    var u := ProfilePrefix + user + VideoSep + id;
    var start := |ProfilePrefix| + |user| + |VideoSep|;
    assert OccursAt(u, "@", 23) by { assert u[23..24] == "@"; }
    assert OccursAt(u, VideoSep, start - |VideoSep|) by {
      assert u[start - |VideoSep|..start] == VideoSep;
    }
    FirstSepInCanonical(user, id);
    NoSepInId(user, id);
    assert u[start..] == id;
    var r := ExtractVideoId(u, None);
    ExtractedIdShape(u, None);
    assert r.value == id[..|r.value|];
  }

  const CookieKeys: seq<string> := ["name", "value", "domain", "path", "expiry", "secure", "httpOnly"]

  /** The default `requests_cookie_to_selenium_cookie` gives a missing key. */
  function CookieDefault(k: string): JSON
  {
    if k == "httpOnly" then JBool(false) else JNull
  }

  /** `requests_cookie_to_selenium_cookie`: the seven browser cookie fields, read with `.get`. */
  function CookieToSelenium(c: JSON): (r: Outcome<JSON>)
    ensures r.Raise? <==> !c.JObj?
    ensures r.Raise? ==> r.exc == AttributeError
    ensures r.Ok? ==> r.value.JObj? && |r.value.members| == |CookieKeys|
  {
    if !c.JObj? then Raise(AttributeError)
    else Ok(JObj(seq(|CookieKeys|, i requires 0 <= i < |CookieKeys| =>
                       (CookieKeys[i], LookupOr(c.members, CookieKeys[i], CookieDefault(CookieKeys[i]))))))
  }

  lemma CookieKeysExact(c: JSON)
    requires c.JObj?
    ensures Keys(CookieToSelenium(c).value.members) == CookieKeys
  {
  }

  lemma CookieKeysDistinct(c: JSON)
    requires c.JObj?
    ensures DistinctKeys(CookieToSelenium(c).value.members)
  {
    var m := CookieToSelenium(c).value.members;
    forall i, j | 0 <= i < j < |m| ensures m[i].0 != m[j].0 {
      assert m[i].0 == CookieKeys[i] && m[j].0 == CookieKeys[j];
    }
  }

  /** The projection has exactly the seven keys; each holds the cookie's value or its default. */
  lemma CookieProjection(c: JSON)
    requires c.JObj?
    ensures var m := CookieToSelenium(c).value.members;
            Keys(m) == CookieKeys &&
            forall i :: 0 <= i < |CookieKeys| ==>
              Lookup(m, CookieKeys[i]) == Some(LookupOr(c.members, CookieKeys[i], CookieDefault(CookieKeys[i])))
  {
    var m := CookieToSelenium(c).value.members;
    CookieKeysExact(c);
    CookieKeysDistinct(c);
    forall i | 0 <= i < |CookieKeys|
      ensures Lookup(m, CookieKeys[i]) == Some(LookupOr(c.members, CookieKeys[i], CookieDefault(CookieKeys[i])))
    {
      LookupAt(m, i);
    }
  }
}
