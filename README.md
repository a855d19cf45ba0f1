# TTScraper, modelled in Dafny

TTScraper is a browser-driven TikTok scraper in Python. Most of it drives
Selenium, nodriver, the Chrome DevTools Protocol (CDP) and HTTP. Around that
plumbing sits deterministic logic that works on decoded JSON. This project
models that logic and proves what it does. Browser observations, HTTP
responses and clock readings are inputs of the model.

Decoded JSON is the datatype `Json.JSON`: null, bool, int, string, list, and
dict as an insertion-ordered list of members. `Truthy` is Python
truthiness, so `or` chains are modelled exactly. A Python exception is a
value of `Json.Outcome` (`Ok` or `Raise` with an `Exc`).

The modules follow the repository:

- `Json`: lookups with defaults, `d[k]`, `in`, `len`, `int()`, `str()` and hashing, all with Python's error cases.
- Record extraction from decoded JSON, with the errors the constructors raise:
  - `Video`, `User`, `Comment`, `Sound`, `Hashtag` (video.py, user.py, comment.py, sound.py, hashtag.py);
  - `Base` (core/base.py).
- `PageState`: the `<script>` state embedded in video and user pages (video.py, user.py).
- `Pagination`: the cursor/`hasMore` generators of comment replies, sound and hashtag videos, and the user's two video listings.
- `CommentRecords`, `CommentTree`, `Sorting` and `Flatten`:
  - the comment records read back from captured API responses, and their organisation into a reply tree;
  - a stable Python sort;
  - generic folds.
- `Scrolling`: the stall counter and the captured-URL dedup of the comment scroll loops (video.py).
- `Helpers`: the video-id extraction and the cookie projection (helpers.py).
- Core helpers:
  - `FileUtils` (core/file_utils.py);
  - `RateLimiting` (core/rate_limiting.py);
  - `ErrorHandling` (core/error_handling.py);
  - `Logging` (core/logging_config.py).
- `Network`: the network monitor's bookkeeping (browser/network.py).
- `Launcher`: the Chrome argument list of `start_browser` (TTScraper.py).
- The example applications:
  - `BatchExtraction` (examples/batch_video_extraction.py);
  - `ExtractComments` (examples/extract_comments.py);
  - `AdvancedConfig` (examples/advanced_config.py).

Code the source writes as a loop, or as state changed in place, is modelled
that way:

- classes with `modifies` clauses, for example `RateLimiting.RateLimiter`, `Network.NetworkMonitor`, `BatchExtraction.BatchVideoExtractor` and `AdvancedConfig.Scraper`;
- methods with loop invariants, proved against a function of their inputs.

Field-by-field data extraction and string computations are modelled as
functions, with lemmas about them.

## Model

| member | source | states |
|---|---|---|
| Helpers.EffectiveUrl | helpers.py:11-17 | the original URL is used unchanged when the HEAD request failed, else the final URL it reached |
| Helpers.FirstPiece | helpers.py:20 | `s.split(sep)[0]`: a prefix of `s` in which no `sep` starts, ending at the end of `s` or at the first `sep` |
| Helpers.SecondPiece | helpers.py:20 | `s.split(sep)[1]`: the text right after the first `sep`, in which no `sep` starts, ending at the end or at the next `sep` |
| Helpers.ExtractVideoId | helpers.py:5-25 | raises TypeError exactly when the effective URL lacks "@" or "/video/" |
| Helpers.ExtractedIdShape | helpers.py:19-20 | an extracted id starts right after the first "/video/", no "?" and no start of a "/video/" lies inside it (so it ends at the first "?" or the next "/video/", overlapping ones included), and it is followed by the end, a "?" or that "/video/" |
| Helpers.PieceHoldsNoSep | helpers.py:20 | cutting at the first "?" leaves neither "?" nor "/video/" in the id |
| Helpers.CanonicalVideoUrl | helpers.py:19-20 | the id is read back from `https://www.tiktok.com/@<user>/video/<id>` |
| Helpers.CookieToSelenium | helpers.py:27-37 | a dict cookie gives a dict with seven entries; a non-dict raises AttributeError (no `.get`) |
| Helpers.CookieKeysExact | helpers.py:29-37 | the projection's keys are exactly name, value, domain, path, expiry, secure, httpOnly |
| Helpers.CookieKeysDistinct | helpers.py:29-37 | the projection's keys are pairwise distinct |
| Helpers.CookieProjection | helpers.py:30-36 | each key holds the cookie's value, or None when absent, except httpOnly, which defaults to False |
| Base.NewBase | core/base.py:43-48 | extraction runs exactly when data is not None; the stored dict is the data when truthy, else an empty dict |
| Base.EmptyDataStillExtracts | core/base.py:44-48 | an explicit `{}` still runs extraction, on the same empty dict as no data |
| Base.ToDictIsCopy | core/base.py:65-67 | writing a key into the copy sets it there and leaves the object's dict as it was |
| Base.ReprOf | core/base.py:55-59 | `Name(id='<id>')`, with the username shown when the id is falsy |
| Base.SafeGet | core/base.py:79-84 | the dict's value when the key is present, the default when it is absent or the data is not a dict |
| Base.SafeInt | core/base.py:87-92 | the default for None and for whatever int() rejects, int(value) otherwise |
| Base.SafeStr | core/base.py:95-100 | the default for None, str(value) otherwise |
| Base.SafeIntDigits | core/base.py:87-92 | an ASCII digit string converts to its decimal value |
| Base.SafeIntOfSafeStr | core/base.py:87-100 | `_safe_int(_safe_str(i))` gives back every integer |
| Base.SafeIntRejectsText | core/base.py:90-92 | "12a" falls back to the default |
| Base.SafeIntUnderscores | core/base.py:90 | int() strips surrounding whitespace and reads a single underscore between digit runs |
| Logging.LoggerName | core/logging_config.py:83-90 | None gives "TTScraper"; a name starting with "TTScraper" is kept; any other gets the prefix "TTScraper."; the result always starts with "TTScraper" |
| Logging.LoggerNameIdempotent | core/logging_config.py:85-88 | normalising an already normalised name changes nothing |
| Logging.LoggerNameInjective | core/logging_config.py:87-88 | two unprefixed names that give the same logger are the same name |
| Logging.ProgressIndicator.constructor | core/logging_config.py:97-100 | `current` starts at 0; total and description are stored |
| Logging.ProgressIndicator.Update | core/logging_config.py:104-106 | `current` grows by `increment`; total and description are unchanged |
| RateLimiting.RateLimiter.constructor | core/rate_limiting.py:19-33 | the limits are stored; history and cooldown tables start empty |
| RateLimiting.RateLimiter.CanMakeRequest | core/rate_limiting.py:36-88 | during a cooldown: False, nothing touched; otherwise the expired cooldown entry is deleted, the domain's history is cut to entries strictly newer than now - 1 hour, in order, and the answer is True iff the minute count is below requests_per_minute and the kept count below requests_per_hour; the limits are unchanged |
| RateLimiting.RateLimiter.RecordRequest | core/rate_limiting.py:90-103 | `now` is appended to that domain's history only; the cooldown table is unchanged |
| RateLimiting.RateLimiter.RecordRateLimit | core/rate_limiting.py:105-115 | the deadline becomes now + (custom_cooldown or the default), so 0 and None both mean the default; the history is unchanged |
| RateLimiting.RateLimiter.GetStats | core/rate_limiting.py:140-177 | zeros and not rate-limited for a domain without history; otherwise the minute and hour counts over the unpruned history, the cooldown state and remaining time, and the limits |
| RateLimiting.NewerMembers | core/rate_limiting.py:67-70 | the pruned history holds exactly the timestamps newer than the cutoff |
| RateLimiting.NewerLength | core/rate_limiting.py:67-77 | the hour count `len(...)` equals the count of newer timestamps |
| RateLimiting.NewerIsSuffix | core/rate_limiting.py:67-70 | on a history recorded with a non-decreasing clock, pruning keeps a suffix |
| RateLimiting.PruneKeepsMinute | core/rate_limiting.py:63-76 | pruning to the hour does not change the minute count |
| RateLimiting.RecordedCounts | core/rate_limiting.py:103 | a request just recorded counts once in both windows |
| RateLimiting.MinuteLimitRefuses | core/rate_limiting.py:80-82 | once the last minute holds requests_per_minute requests the limiter refuses |
| ErrorHandling.RunEnd | core/error_handling.py:204 | the end of the longest run of `[\w.-]` characters from `i`: every character before it is one, the one at it is not |
| ErrorHandling.MatchedPrefix | core/error_handling.py:204-206 | the length of the first alternative the string starts with, or None when it starts with none (`https?://`, `(?:www\.)?`, `(?:vm\|vt)`) |
| ErrorHandling.ValidateUrl | core/error_handling.py:198-210 | True only for a non-empty string; then True exactly when a prefix matches one of the three patterns |
| ErrorHandling.UserThenVideoIffShape | core/error_handling.py:204 | the longest-run matcher accepts exactly a non-empty `[\w.-]` user segment, "/video/", a digit, then anything |
| ErrorHandling.ShapeMatches | core/error_handling.py:204 | a string of that shape is matched |
| ErrorHandling.CanonicalUrlValid | core/error_handling.py:203-210 | `https://www.tiktok.com/@<user>/video/<digits>` is valid |
| ErrorHandling.RejectsPhotoUrl | core/error_handling.py:203-210 | a `/photo/` post URL matches none of the patterns |
| ErrorHandling.AcceptsShortLink | core/error_handling.py:205 | `https://vm.tiktok.com/<slug>/` is valid; trailing text is allowed |
| ErrorHandling.ValidateUserIdentifier | core/error_handling.py:213-226 | False for a falsy or non-string value; a username must be `[a-zA-Z0-9._-]+`, with one trailing newline let through by `$`; a user_id must be ASCII digits; any other type passes |
| ErrorHandling.UsernameTrailingNewline | core/error_handling.py:221 | "bob\n" passes, "bob\n\n" and "@bob" do not |
| ErrorHandling.HandleRequestError | core/error_handling.py:131-146 | always raises: RateLimitError exactly for HTTP 429, AuthenticationError exactly for HTTP 403, NetworkError for every other failure |
| ErrorHandling.RetryOnException | core/error_handling.py:57-91 | at most max_retries + 1 calls; every call but the last raised a retryable error; the result is the last call's value or its exception; a retryable error is re-raised only on the last attempt, a non-retryable one at once; no attempt at all gives None |
| ErrorHandling.SafeExecute | core/error_handling.py:166-195 | the function's result, or default_return when it raised |
| PageState.Locate | video.py:139-144 | NoMarker exactly when the marker is absent; Unterminated exactly when no `</script>` follows its first occurrence; otherwise the text from the end of the marker to the first following `</script>` |
| PageState.LocateText | video.py:139-150 | located text stands right after the marker's first occurrence, is followed by `</script>`, and holds no `</script>` itself |
| PageState.LocateUnique | video.py:139-150 | conversely, text standing between the first marker and the first `</script>` after it is what is located |
| Video.CreateTime | video.py:255-263 | None when the timestamp is None or int() rejects it, else int(timestamp) |
| Video.HashtagObjects | video.py:279-281 | one hashtag object per challenge, in order, built from that item; the list raises exactly when one construction raises, with its exception |
| Video.Linked | video.py:268-281 | with a client, only the author, sound and hashtags are assigned |
| Video.Extraction | video.py:250-285 | the raw data and the URL are never changed by an extraction |
| Video.ConstructFromData | video.py:84-95 | given data, the video's id is the data's `id` whatever id was passed; the constructor succeeds exactly when the extraction completes and the id is not None, else TypeError or the extraction's exception (also line 253) |
| Video.ConstructFromNonDict | video.py:84-86 | data that is not a dict raises AttributeError before anything is assigned (also lines 252-253) |
| Video.DataWithoutIdRaises | video.py:94-95 | an id passed beside data that lacks `id` does not survive: TypeError (also line 253) |
| Video.ConstructFromUrl | video.py:87-95 | without data, the id is the one read from the URL, and a URL holding none raises TypeError |
| Video.ConstructFromId | video.py:79-95 | with neither data nor URL only a non-None id is accepted |
| Video.ExtractionBasics | video.py:253-265 | the id is the data's `id`; create_time is int(createTime), None when absent or rejected; stats is `statsV2` when truthy, else `stats` |
| Video.ExtractionWithoutClient | video.py:282-285 | without a client nothing raises, and author, `music` and `challenges` (default []) are kept raw |
| Video.ExtractionWithClient | video.py:269-281 | with a client the extraction completes exactly when the author's user, the sound and every hashtag can be built, a string author being a username, and then holds those objects |
| Video.NullChallengeRaises | video.py:279-281 | a None among the challenges makes the extraction raise |
| Video.SigiVideo | video.py:149-155 | undecodable text and a KeyError are InvalidResponse; otherwise the result is `ItemModule[id]`, present exactly when ItemModule is a dict holding the id |
| Video.UniversalVideo | video.py:172-188 | undecodable text is InvalidResponse; a result is never None; the only errors are InvalidResponse and AttributeError from `.get` on a non-dict |
| Video.SigiText | video.py:139-155 | with the SIGI marker present, the video comes from the decoded text between its first occurrence and the next `</script>`, whatever else the page holds |
| Video.SigiUnterminated | video.py:140-147 | a SIGI marker with no `</script>` after it is InvalidResponse, with no fallback to universal data |
| Video.UniversalText | video.py:156-188 | without the SIGI marker the video is the universal data's item struct, read from the text its marker delimits |
| Video.NoMarkers | video.py:158-162 | a page with neither marker is InvalidResponse |
| Video.UniversalAccepted | video.py:174-184 | universal data is accepted exactly when `statusCode` is 0 (absent counts as 0) and `itemInfo.itemStruct` is not None, and then the item struct is the result |
| Video.StatusCodeMustBeZero | video.py:176-179 | a status code of the string "0" is not 0 and rejects the data |
| Video.Video.New | video.py:68-95 | the object's attributes are the constructor model's, and it raises exactly when that raises |
| Video.Video.ExtractFromData | video.py:250-285 | assigns attribute by attribute; the new attributes and the exception are those of the extraction model |
| Video.Video.AssignBasics | video.py:253-265 | id, create_time and stats are set as the extraction model says and nothing else changes |
| Video.Video.AssignLinked | video.py:268-281 | author, sound and hashtags are set in turn until one raises, as the extraction model says |
| Video.Video.Info | video.py:97-197 | TypeError without a URL or a driver, nothing changed; otherwise the page lookup's error, nothing changed, or the found data stored and extracted, and returned unless the extraction raised |
| User.Read | user.py:254-257 | reading `self.a` raises AttributeError exactly when the attribute was never assigned |
| User.AvatarOf | user.py:270-276 | the first truthy of avatarLarger, avatarMedium, avatarThumb: a string as it is, a non-empty list's first element, anything else None |
| User.Run | user.py:254-287 | the extraction's lines in order never unassign an identifier |
| User.IdentityStep | user.py:254-257 | the identifier lines stop at the first raising line, and when none raises they assign their values |
| User.ProfileStep | user.py:258-261 | the same for verified, signature, region and language |
| User.CountsStep | user.py:262-267 | the same for the six count lines |
| User.TailStep | user.py:268-287 | the same for botType, the avatar, the four `stats` re-reads and `default_scope` |
| User.RunRaised | user.py:254-287 | the run stops exactly when some line raises, with that line's exception |
| User.RunAssigned | user.py:254-287 | a run in which no line raises performs every assignment |
| User.RunIdentifiers | user.py:254-257 | the identifiers and the nickname end as the values their lines computed |
| User.RunProfile | user.py:258-276 | so do verified, signature, region, language, botType and avatar_url |
| User.RunCounts | user.py:262-283 | the `stats` re-reads win over the count lines for follower, following, heart and video counts; friends and digg counts keep their line's value |
| User.RunKeeps | user.py:251-287 | the stored data is never reassigned; `default_scope` is set only when the data has `__DEFAULT_SCOPE__` |
| User.RunStopsAtNickname | user.py:254-256 | when the nickname line raises, the id and username assignments are done and nothing after them |
| User.Extraction | user.py:246-287 | falsy data changes nothing; the identifiers stay assigned |
| User.RightHandSidesOk | user.py:254-287 | every line of a dict's extraction succeeds exactly when no fallback reads a never-assigned identifier or nickname and no `.get` meets a non-dict app context or `stats`; the failing ones raise AttributeError |
| User.RhsIdentity | user.py:254-257 | an identifier line fails exactly when the data's value is falsy and the attribute was never assigned |
| User.RhsProfile | user.py:260-261 | region and language fail only when falsy at the top level with a non-dict app context |
| User.RhsCounts | user.py:262-267 | a dict `stats` makes every count line succeed |
| User.RhsTail | user.py:268-287 | the remaining lines succeed exactly when `stats` is a dict and botType is truthy or the app context a dict |
| User.ExtractionRaises | user.py:246-287 | the extraction raises exactly for truthy non-dict data or a failing dict, always with AttributeError |
| User.StatsOverwrite | user.py:262-283 | after a successful extraction follower, following, video and heart counts come from `stats` alone (default 0), whatever the top level says; friend and digg counts are the top-level value, else `stats` |
| User.ExtractionIdentity | user.py:254-287 | identifiers and nickname are the data's truthy value, else the earlier attribute; verified defaults to False; signature and avatar_url as read; the stored data unchanged; `default_scope` set exactly when present |
| User.ExtractionAppContext | user.py:260-268 | region, language and botType missing at the top level come from `webapp.app-context`, with defaults None, None and "unknown" |
| User.Construct | user.py:67-90 | a constructed user has a truthy username, sec_uid or id |
| User.ConstructWithoutData | user.py:79-90 | without data, construction succeeds exactly when one identifier is truthy, else TypeError, and stores just the identifiers |
| User.NicknameNeverInitialised | user.py:79-87 | a fresh user built from a non-empty dict without a truthy nickname raises AttributeError, after the id and username lines ran (also line 256) |
| User.ExtractionOfDict | user.py:248-251 | a non-empty dict's extraction is the run of its lines |
| User.IdentifiersFromData | user.py:85-90 | a user built from data alone with truthy uniqueId and nickname and dict `stats` and app context takes both from the data (also lines 254-257) |
| User.ConstructedHasProfileUrl | user.py:89-120 | a constructed user always has a profile URL, on https://www.tiktok.com/ |
| User.ProfileUrlNeedsIdentifier | user.py:113-120 | the URL raises exactly when no identifier is truthy; with a truthy username it is `https://www.tiktok.com/@<username>` |
| User.Summary | user.py:395-409 | AttributeError exactly when an attribute it reads was never assigned; otherwise username and follower_count are the attributes and has_data is the data's truthiness |
| User.SummaryNeedsExtraction | user.py:85-87 | a user built without data or from falsy data has no summary (also lines 248-249, 395-409) |
| User.SummaryAfterExtraction | user.py:262-283 | a user built from a dict that extracts has a summary, with has_data true and the `stats` follower count (also lines 395-409) |
| User.StrOf | user.py:414-415 | `User(username='<username>')` |
| User.StrShowsUsername | user.py:414-415 | the username given is the one printed |
| User.SigiUser | user.py:168-199 | None without the marker, without the closing tag or on undecodable text; a user it returns is never a JSON null (Python's None); the only exception that escapes is AttributeError |
| User.SigiFirstUser | user.py:184-188 | the profile owner is the first-inserted entry of a non-empty `UserModule.users` when that entry is not null |
| User.SigiNullFirstUser | user.py:184-188 | a null first entry of `UserModule.users` is returned as None, so nothing is extracted |
| User.Pair | user.py:233-234 | an update element that is not a two-item pair raises TypeError or ValueError |
| User.Pairs | user.py:233-234 | one pair per element, or TypeError or ValueError |
| User.DictUpdate | user.py:233-234 | a dict updates key by key; None, a bool or an int raise TypeError; a non-empty string raises ValueError and an empty one changes nothing |
| User.UniversalParts | user.py:223-229 | a `.get` on a non-dict part raises AttributeError, and nothing else escapes |
| User.UniversalUser | user.py:201-215 | None without the marker, without the closing tag or on undecodable text |
| User.MergeOrder | user.py:231-240 | in the merge a key finds `__DEFAULT_SCOPE__` the whole scope, `stats` the user stats, else the user entry's value, else the app context's |
| User.PageUser | user.py:137-142 | the universal data when it gives a user; SIGI_STATE only when it gives None; an exception escapes |
| User.NoMarkersNoUser | user.py:137-161 | a page with neither marker gives no user, which `info()` turns into InvalidResponse |
| User.Videos | user.py:289-343 | the listing is the capped paging loop with requests of min(35, count - found); the Pagination lemmas give its item cap, stop conditions and cursor rule |
| User.LikedVideos | user.py:345-393 | the same capped paging loop with a fixed request count of 30 |
| User.HeadersKeywordDropsVideos | user.py:317-340 | with a `headers` keyword the listing yields nothing, where the same response yields a video without it |
| User.User.New | user.py:67-90 | the object's attributes are the constructor model's, and it raises exactly when that raises |
| User.User.ExtractFromData | user.py:246-287 | assigns line by line; the new attributes and the exception are the extraction model's |
| User.User.ExtractIdentity | user.py:254-257 | the identifier lines, as the model of those lines says |
| User.User.ExtractProfile | user.py:258-261 | the profile lines, as the model says |
| User.User.ExtractCounts | user.py:262-267 | the count lines, as the model says |
| User.User.ExtractTail | user.py:268-287 | the remaining lines, as the model says |
| User.User.Info | user.py:92-166 | TypeError without a driver or an identifier, nothing changed; the profile URL is visited; an exception, or InvalidResponse when the page holds no user, leaves the object unchanged; otherwise the data is stored and extracted, and returned unless the extraction raised |
| Pagination.PageOf | comment.py:135 | `resp.get(key, [])` iterated: AttributeError on a non-dict response, TypeError on an item value that cannot be iterated, no items for a missing key, the list's items for a list |
| Pagination.PagesConcat | comment.py:112-144 | the items read from two runs of responses are those of the first followed by those of the second |
| Pagination.YieldAll | comment.py:135-137 | the inner loop yields every item of the page in order and counts each one |
| Pagination.RunBound | user.py:306-343 | a paging generator makes no more calls than there are responses to answer them |
| Pagination.RunCalls | user.py:306-343 | each call is made only while fewer than `count` items were yielded and is sized from the number still wanted; the first uses the initial cursor and each later one the cursor the previous round moved on to |
| Pagination.RunCallAt | user.py:306-343 | the same facts for one chosen call `k` and the round that led to call `k + 1` |
| Pagination.RunLast | user.py:306-343 | a generator yields the pages of the rounds that went on and then what its last round yielded, and ends the way that round decided, or because `count` was reached, or because the responses ran out |
| Pagination.RunWholeItems | comment.py:112-144 | when every round yields its whole page, the generator yields exactly the pages of the responses it read |
| Pagination.RunCappedItems | user.py:327-331 | when every round yields a prefix of its page cut only where the room runs out, the generator yields a prefix of what it read, cut only at `count`, and never more than `count` items |
| Pagination.CappedLast | user.py:327-331 | appending a last round's capped page keeps the items a prefix of what was read, cut only at `count` |
| Pagination.RunQuiet | user.py:324-343 | a generator whose stopping rounds all end with `break` or `return` never raises |
| Pagination.NextCursor | comment.py:142 | the replies loop's `int(resp.get("cursor") or 0)` gives an int or raises TypeError or ValueError, and is 0 for a falsy cursor; the sound and hashtag loops' `resp.get("cursor", 0)` with None read as 0 (sound.py:131-133) never raises and is never None |
| Pagination.FetchWholeRound | comment.py:129-142 | the loop body after a call yields the round's items and counts them, and decides as the whole-page round does |
| Pagination.FetchWholePages | comment.py:112-144 | the whole-page generator's loop computes exactly the paging of the whole-page model for its count, cursor and responses |
| Pagination.WholeLoopBody | comment.py:114-142 | one pass of the loop body keeps what was seen plus the rest of the run equal to the whole run, or completes it when the round stops |
| Pagination.WholeRoundFacts | comment.py:129-142 | a whole-page round yields exactly the items of its response; it goes on only on a dict with readable items, a truthy more-flag and a readable cursor, with that cursor; it returns only on a dict whose more-flag is falsy; it raises InvalidResponse exactly when the response is None |
| Pagination.WholePagesItems | comment.py:112-144 | the replies, sound and hashtag generators yield every item of every response read, in order, and read no more responses than calls made, so they can yield more than `count` |
| Pagination.WholePagesCalls | comment.py:112-144 | every call asks for the fixed page size and is made only while fewer than `count` items were yielded; the first uses the initial cursor; each later one follows a dict response with a truthy more-flag and uses the cursor it gave |
| Pagination.WholeCallAt | comment.py:112-144 | the same facts for one chosen call `k` |
| Pagination.WholePagesEnd | comment.py:129-140 | the generator raises InvalidResponse exactly when its last call returned None; after a call it returns only on a response whose more-flag is falsy or once `count` items were yielded; without a client or with `count <= 0` it makes no call and yields nothing |
| Pagination.AddLength | user.py:336 | `cursor + len(items)` raises TypeError exactly when the cursor is neither a number nor a bool, and adds the length to an int |
| Pagination.Advance | user.py:336 | `resp.get("cursor", cursor + len(items))` fails exactly when the default cannot be computed, even if the response has a cursor; otherwise it is the response's cursor when present and the advanced cursor when not |
| Pagination.YieldCapped | user.py:327-331 | the inner loop yields the page whole when it fits in the room left, and otherwise its first `count - found` items, reporting the cut |
| Pagination.FetchCappedRound | user.py:324-336 | the loop body after a call yields the round's items and counts them, and decides as the capped round does |
| Pagination.FetchCappedPages | user.py:306-343 | the capped generator's loop computes exactly the paging of the capped model for its size rule, count, cursor and responses |
| Pagination.CappedLoopBody | user.py:307-336 | one pass of the loop body keeps what was seen plus the rest of the run equal to the whole run, or completes it when the round stops |
| Pagination.CappedRoundFacts | user.py:324-340 | a capped round yields a prefix of its page, no more than the room left, cut only where the room runs out; every stop is a quiet return; it goes on exactly on a dict with readable items that fit, a truthy `hasMore` and a cursor that can be advanced, with the advanced cursor |
| Pagination.CappedPagesCalls | user.py:306-343 | each call is made only while fewer than `count` items were yielded and asks for `min(35, count - found)` (for liked videos always 30, user.py:362), so between 1 and 35 and no more than still wanted; the first uses the initial cursor; each later one follows a dict response with a truthy `hasMore` and uses its advanced cursor |
| Pagination.CappedCallAt | user.py:306-343 | the same facts for one chosen call `k` |
| Pagination.CappedPagesItems | user.py:306-343 | the videos and liked-videos generators yield a prefix of the pages they read, cut short only where `count` was reached, never more than `count` items, and they never raise |
| Comment.ParseTime | comment.py:74-79 | `int(timestamp)` with ValueError and TypeError caught: a time exactly when the value converts to an int, and then that int |
| Comment.AuthorOf | comment.py:89-93 | without a client, or with a falsy `user` value, the raw value is kept; it raises exactly when a client turns a truthy value into a user object and that construction raises |
| Comment.ConstructWithoutData | comment.py:52-59 | without data, or with falsy data, construction succeeds exactly for a truthy id, raises TypeError otherwise, and assigns nothing but the id and the raw data |
| Comment.ConstructFromDict | comment.py:43-93 | from a non-empty dict, construction needs no id and fails only when the author's user object does; the id is `cid`, else `id`, else the given one; text, video id, like and reply counts come from the dict with their defaults |
| Comment.CreateTimeOnlyWhenTruthy | comment.py:73-79 | `create_time` is assigned exactly when the timestamp is truthy: to the int value, or to None when int() rejects it |
| Comment.DigitTimestamp | comment.py:73-77 | a timestamp given as a digit string is read as its decimal value |
| Comment.Preview | comment.py:157 | a falsy text is kept, a string always gives a string, and anything that cannot be cut and concatenated raises TypeError |
| Comment.PreviewOfString | comment.py:157 | a string preview keeps the first n characters, adds `...` only when the text is longer than n, and is at most n + 3 long |
| Comment.PreviewIdempotent | comment.py:157 | previewing a preview changes nothing |
| Comment.Summary | comment.py:146-164 | `get_summary()` as written raises whenever `create_time` was never assigned |
| Comment.SummaryNeedsTimestamp | comment.py:73-79 | a comment built from data without a timestamp has no summary (AttributeError) |
| Comment.SummaryCorrected | comment.py:146-164 | with an unassigned `create_time` read as None, the summary raises only AttributeError or TypeError |
| Comment.SummaryCorrectedFromDict | comment.py:146-164 | every comment built from a non-empty dict with string text has a corrected summary whose text is the 100-character preview, whose time is None exactly when no timestamp was parsed, and whose has_data is true |
| Comment.StrOf | comment.py:170-172 | `str(comment)` raises AttributeError when no text was assigned, and for string text is `Comment(id='…', text='…')` with the 50-character preview |
| Comment.StrCutsLongText | comment.py:171 | a text longer than 50 characters shows as its first 50 and an ellipsis |
| Comment.Replies | comment.py:95-144 | the replies generator is the whole-page generator with `comments`, `has_more`, pages of 20 and the `int(cursor or 0)` cursor |
| Comment.RepliesExceedCount | comment.py:135-137 | a page is yielded whole, so asking for one reply can give two |
| Comment.Comment.New | comment.py:43-59 | the object is built exactly when the construction model succeeds, with its fields; otherwise the same exception is raised |
| Comment.Comment.ExtractFromData | comment.py:61-93 | the assignments in order leave the fields the extraction model gives, or raise its exception |
| Comment.Comment.AssignAuthor | comment.py:89-93 | the author assignment raises when the author model does, else sets only the author |
| Comment.Comment.AssignFields | comment.py:66-86 | the assignments before the author's leave exactly the fields of the assignment model |
| Sound.SoundData | sound.py:63-66 | the fields come from `data['music']` when the key is present and from the data itself otherwise; a non-dict raises only TypeError |
| Sound.PlayUrl | sound.py:75-79 | the conditional governs the whole `or` chain: without a dict `original` the play URL is None; with one it is `playUrl`, else `play`, else the nested `playUrl` |
| Sound.ConstructWithoutData | sound.py:45-52 | without truthy data construction succeeds exactly for a truthy id, raises TypeError otherwise, and assigns nothing else |
| Sound.ConstructFromDict | sound.py:45-83 | from a non-empty dict, construction raises AttributeError exactly when the dict the fields come from, or its `stats`, is not a dict; otherwise id, title, author, duration, play URL and video count come from that dict |
| Sound.MusicNesting | sound.py:63-66 | with a `music` dict every field is the one the nested dict alone gives; only the raw data differs |
| Sound.PlayUrlNeedsOriginal | sound.py:75-79 | a present top-level play URL is dropped when there is no dict `original` |
| Sound.PlayUrlWithOriginal | sound.py:75-79 | with the `original` dict present, the top-level play URL wins |
| Sound.Summary | sound.py:137-147 | `get_summary()` succeeds exactly when every attribute it reads was assigned, and otherwise raises AttributeError |
| Sound.SummaryNeedsData | sound.py:137-147 | a sound built from its id alone, or from an empty dict, has no summary |
| Sound.SummaryOfDict | sound.py:137-147 | a sound built from a non-empty dict has a summary with has_data true and the extracted id, title and play URL |
| Sound.StrOfConstructed | sound.py:152-153 | `str(sound)` shows the title as None when built from an id alone, and the dict's title when built from a non-empty dict |
| Sound.Videos | sound.py:85-135 | the videos generator is the whole-page generator with `itemList`, `hasMore`, pages of 30 and a None cursor read as 0 |
| Sound.NullCursorRestarts | sound.py:131-133 | a None cursor in a response is read as 0 for the next request |
| Sound.Sound.New | sound.py:36-52 | the object is built exactly when the construction model succeeds, with its fields; otherwise the same exception is raised |
| Sound.Sound.ExtractFromData | sound.py:54-83 | the assignments in order leave the fields the extraction model gives, or raise its exception |
| Hashtag.ConstructWithoutData | hashtag.py:48-56 | without truthy data construction succeeds exactly for a truthy name or id, raises TypeError otherwise, and assigns nothing else |
| Hashtag.ConstructFromDict | hashtag.py:48-77 | from a non-empty dict, construction raises AttributeError exactly for a `stats` value that is not a dict; otherwise the id is the data's truthy `id`, the name its truthy `title`, else `name`, else the given one, and the other fields come from the dict with their defaults |
| Hashtag.CountsDefaultToZero | hashtag.py:72-74 | data without `stats` gives zero video and view counts |
| Hashtag.TitleIsName | hashtag.py:67 | a truthy `title` becomes the name, whatever name was given |
| Hashtag.Summary | hashtag.py:131-142 | `get_summary()` succeeds exactly when every attribute it reads was assigned, and otherwise raises AttributeError |
| Hashtag.SummaryNeedsData | hashtag.py:131-142 | a hashtag built from a name or id alone, or from an empty dict, has no summary |
| Hashtag.SummaryOfDict | hashtag.py:131-142 | a hashtag built from a non-empty dict has a summary with has_data true and its name, id and commerce flag |
| Hashtag.StrShowsTitle | hashtag.py:147-148 | `str(hashtag)` shows the name the data's title gave |
| Hashtag.Videos | hashtag.py:79-129 | the videos generator is the whole-page generator with `itemList`, `hasMore`, pages of 30 and a None cursor read as 0 |
| Hashtag.Hashtag.New | hashtag.py:38-56 | the object is built exactly when the construction model succeeds, with its fields; otherwise the same exception is raised |
| Hashtag.Hashtag.ExtractFromData | hashtag.py:58-77 | the assignments in order leave the fields the extraction model gives, or raise its exception |
| CommentRecords.UserInfoOf | video.py:1309-1332 | the user fields are read only from a dict whose three avatar values are dicts (or missing), and otherwise AttributeError is raised; the record keeps the user dict and its avatar URL lists |
| CommentRecords.UserOf | video.py:1309-1311 | there are no user fields exactly when the comment's `user` value is falsy; a failure is AttributeError |
| CommentRecords.Formatted | video.py:1335-1341 | `create_time_formatted` is added exactly for a truthy creation time, is None exactly when int() rejects it, and otherwise holds the int value |
| CommentRecords.PresentCopies | video.py:1344-1352 | every copied optional field is one of the listed names with the raw value, and every listed name the comment has is copied |
| CommentRecords.DetailsOutcome | video.py:1291-1361 | a non-dict gives the error record; a dict gives the error record exactly when its truthy `user` value (or an avatar in it) is not a dict; the user fields are present exactly when `user` is truthy |
| CommentRecords.DetailsOfDict | video.py:1293-1354 | a dict's record reads every field from it, with the formatted time and the copied optional fields |
| CommentRecords.DetailsDefaults | video.py:1293-1306 | missing keys take their defaults: empty text, zero likes and replies, reply ids `'0'`, status 1, no pin, not liked by the author, and no user fields |
| CommentRecords.ExtractCommentDetails | video.py:1282-1361 | the method, with its loop over the optional fields, gives exactly the record of the detail model |
| CommentRecords.CopyOptional | video.py:1350-1352 | the loop copies exactly the listed fields the comment has, in the listed order |
| CommentRecords.CommentsOf | video.py:1121-1135 | the comments are under `comments`, else `comment_list`, else `data` when that is a list, else there are none; a failure is TypeError |
| CommentRecords.ResponseItems | video.py:1113-1138 | a response yields items only when it is a dict with `json_data`; a failure is TypeError |
| CommentRecords.Positions | video.py:1138-1150 | every item of a response gets its response index and its position in the response |
| CommentRecords.Finish | video.py:1141-1152 | every located item becomes its detail record with its source fields, one for one |
| CommentRecords.PassCount | video.py:1107-1166 | a completed pass yields one record per item of every response |
| CommentRecords.PassTraced | video.py:1138-1150 | every item of a completed pass is the item its response and comment indices name |
| CommentRecords.PassBounded | video.py:1110 | every item of a completed pass comes from one of the responses read |
| CommentRecords.PassInOrder | video.py:1110-1138 | the items of a completed pass are in order of (response index, comment index), so none is read twice |
| CommentRecords.RaiseExtends | video.py:1099-1208 | an exception while reading the first responses ends the whole pass |
| CommentRecords.LastBlock | video.py:1110-1166 | a completed pass is the pass over all responses but the last, followed by the last one's items |
| CommentRecords.ReadAll | video.py:1088-1208 | `read_all_api_responses()` as written returns [] whenever reading the records raises |
| CommentRecords.NullTextLosesAll | video.py:1188-1191 | a comment whose text is None, among the first three, makes the sample log raise, so the records of the whole pass are lost |
| CommentRecords.ReadAllIntended | video.py:1088-1208 | with the sample log only reporting, the records read are returned, or [] when reading them raises |
| CommentRecords.ReadAllIntendedExact | video.py:1106-1197 | the intended pass over a readable file returns one record per item, in source order, each the detail record of the item its indices name |
| CommentRecords.ResponseBlock | video.py:1113-1166 | the records of one response are exactly its located detail records, or the exception reading its items raises |
| CommentRecords.RecordItems | video.py:1138-1166 | the loop over one response's comments gives their located detail records |
| CommentRecords.CollectResponses | video.py:1110-1166 | the loop over the responses succeeds exactly when every response can be read, and then gives the records of all their items |
| CommentRecords.ReadAllApiResponses | video.py:1088-1208 | the method returns exactly the as-written model's result |
| CommentRecords.LogSample | video.py:1186-1195 | the sample log gets through exactly when none of the first three records makes it raise |
| CommentTree.Step | video.py:1226-1248 | one record of the loop keeps the tree well formed: every top-level key names a comment whose id hashes to it |
| CommentTree.Build | video.py:1223-1248 | the loop over the records leaves a well-formed tree, or raises |
| CommentTree.AppendReply | video.py:1243 | appending a reply under one comment adds it to that comment's replies and to no other, and keeps the top-level comments |
| CommentTree.AppendReplyParent | video.py:1242-1243 | a reply appended under the comment its reply id names keeps every reply under its parent |
| CommentTree.AppendTop | video.py:1236-1239 | appending a top-level comment adds its record and no replies |
| CommentTree.StepKeeps | video.py:1226-1248 | one record of the loop appends a top-level comment in order, or places a reply exactly once, under a comment with the id it names or on the orphan list; error records are skipped (which replies are orphaned: CommentTree.StepOrphans) |
| CommentTree.BuildKeeps | video.py:1223-1248 | the loop keeps, in order, exactly the top-level comments; every reply ends up under a comment with the id it names or on the orphan list, each exactly once |
| CommentTree.StepSlots | video.py:1236-1248 | after one more record, a key of `comment_tree` holds a top-level comment exactly when a top-level comment read so far has that id |
| CommentTree.BuildSlots | video.py:1226-1248 | after a successful loop, a key holds a top-level comment exactly when some top-level comment read has that id |
| CommentTree.StepOrphans | video.py:1240-1248 | a record goes onto the orphan list exactly when it is a reply whose id no earlier top-level comment has |
| CommentTree.BuildOrphanList | video.py:1226-1248 | a successful loop's orphan list is, in reading order, exactly the replies read before any comment with the id they name |
| CommentTree.BuildPlaces | video.py:1223-1248 | both directions together: the top-level comments in order, the orphan list exactly the replies read before their parent, every other reply under a comment with the id it names, each reply exactly once |
| CommentTree.BuildOrphans | video.py:1244-1248 | the orphan list exists only once a reply was orphaned, and without a top-level comment whose id is `'orphaned_replies'` nothing replaces it |
| CommentTree.ReplyBeforeParent | video.py:1240-1248 | a reply read before its parent lands on the orphan list, and the parent keeps no replies |
| CommentTree.SortNode | video.py:1255-1256 | sorting one comment's replies keeps its record and the bag of replies and puts them oldest first; a failure is TypeError |
| CommentTree.SortAll | video.py:1254-1256 | the loop sorts every comment's replies as SortNode does, or raises TypeError |
| CommentTree.OrganizeEmpty | video.py:1219-1220 | without records the result is the unorganised empty one |
| CommentTree.SortAllKeeps | video.py:1254-1256 | sorting the reply lists keeps every comment and the bag of all replies |
| CommentTree.OrganizeOrphans | video.py:1264 | without a top-level comment named `'orphaned_replies'`, the result's orphaned replies are exactly the replies read before any comment with the id they name, in reading order |
| CommentTree.NullTextOrganizesNothing | video.py:1217-1220 | through the sample-log defect of the pass, one comment with a None text leaves nothing to organise |
| CommentTree.TotalIsFlat | video.py:1261 | the reply total is the number of replies placed under comments |
| CommentTree.ParentsMatchPermuted | video.py:1251 | sorting the top-level comments keeps every reply under its parent |
| CommentTree.ParentsMatchSorted | video.py:1254-1256 | sorting each reply list keeps every reply under its parent |
| CommentTree.OrganizeResult | video.py:1210-1265 | the organised result holds the top-level comments, newest first, each with its replies oldest first and each reply under a comment with the id it names; with the replies read before any comment they name, they hold every reply exactly once; the totals count the top-level comments, the placed replies and all records |
| CommentTree.GetCommentsWithReplies | video.py:1210-1279 | the method organises exactly the records `read_all_api_responses()` returns |
| CommentTree.OrganizeRecords | video.py:1219-1265 | the loop, the sorts and the result are exactly the organisation model |
| CommentTree.SortReplies | video.py:1254-1256 | the loop over the top-level comments gives exactly SortAll's result |
| Sorting.PySort | video.py:1251 | `list.sort(key, reverse)` raises TypeError exactly when two or more keys cannot be ordered against each other; otherwise the result is sorted (descending when `reverse`), a permutation of the input, and stable: elements with equal keys keep their order |
| Sorting.SortProperties | video.py:1251-1256 | the insertion sort behind PySort gives a sorted permutation that keeps the order of equal keys |
| Sorting.SortSorted | video.py:1251-1256 | the insertion sort's output is sorted and a permutation of its input |
| Sorting.SortMultiset | video.py:1251-1256 | the insertion sort's output is a permutation of its input |
| Sorting.SortStable | video.py:1251-1256 | the insertion sort keeps, for every key, the elements with that key in their input order |
| Sorting.InsertSorted | video.py:1251-1256 | inserting into a sorted list keeps it sorted |
| Sorting.InsertMultiset | video.py:1251-1256 | inserting adds exactly the inserted element |
| Sorting.InsertStable | video.py:1251-1256 | inserting after every element that may precede it puts the element last among those with its key |
| Sorting.KeyLeTotal | video.py:1251 | any two keys of one comparable kind are ordered one way or the other |
| Sorting.KeyLeTrans | video.py:1251 | the order on keys is transitive |
| Sorting.StrLeTotal | video.py:1251 | string keys are compared code point by code point, and any two are ordered one way or the other |
| Sorting.StrLeTrans | video.py:1251 | the string order is transitive |
| Scrolling.SameCountRun | video.py:1431-1436 | `same_count` is the length of the final run of equal comment counts less one: the last `same_count + 1` counts are equal and the one before them differs |
| Scrolling.StallNeedsRun | video.py:1449-1452 | the loop breaks only after at least `max_same + 1` iterations, and the last `max_same + 1` counts it saw are equal |
| Scrolling.RunGivesStall | video.py:1431-1452 | conversely, `max_same + 1` equal counts in a row bring `same_count` to `max_same` |
| Scrolling.RunCounts | video.py:1431-1436 | a final run of `m + 1` equal counts makes `same_count` at least `m` |
| Scrolling.NoStallStep | video.py:1449-1452 | an iteration that leaves `same_count` below `max_same` does not break |
| Scrolling.BreakStep | video.py:1449-1452 | the first iteration that brings `same_count` to `max_same` is where the loop breaks |
| Scrolling.ScrollComments | video.py:1406-1452 | the scroll loop breaks after exactly the first iteration where `same_count` reaches `max_same`, or the observations run out first |
| Scrolling.NewUrlsExact | video.py:719-723 | the captured URLs are exactly the URLs not yet seen, each once |
| Scrolling.NewUrlsAppend | video.py:719-754 | capturing two batches one after the other is capturing them together |
| Scrolling.CaptureUrls | video.py:719-723 | one capture loop adds every URL to the seen set and appends, in order, exactly the new ones |
| Scrolling.CaptureKeepsUnique | video.py:719-723 | when the collected list holds each seen URL once, a capture keeps it so, and the seen set stays the set of collected URLs |
| Scrolling.ScrollAndCapture | video.py:678-868 | the scroll loop of `fetch_comments_from_network()` breaks where the counter first reaches `max_same`, and the collected URLs are the distinct URLs of every capture made, in first-seen order, followed by the final captures |
| Scrolling.CollectedUnique | video.py:719-868 | whatever the loop collects holds every captured URL exactly once |
| Scrolling.DistinctCard | video.py:891-892 | a list without repeats has as many distinct elements as entries |
| Scrolling.UniqueCountMatches | video.py:891-892 | `list(set(collected_api_urls))` loses nothing: the total and unique counts are equal |
| Network.AnyMatch | browser/network.py:227 | `any(pattern in url ...)` raises TypeError exactly when there is a pattern and the URL is not a container; otherwise it is true exactly when some pattern is contained in the URL |
| Network.CdpRecord | browser/network.py:228-236 | the kept record has exactly the seven keys, once each, typed `cdp_request`, with the request's URL, the log timestamp and the request method defaulting to GET |
| Network.RecordKeysDistinct | browser/network.py:228-236 | a record listing the seven keys in order has those keys, pairwise distinct |
| Network.ScanWith | browser/network.py:215-242 | the loop keeps no more records than there are log entries |
| Network.AbortPersists | browser/network.py:211-245 | once an entry raises an exception the loop does not catch, the whole call answers [] |
| Network.ScanAbortIff | browser/network.py:215-245 | the loop aborts exactly when some entry aborts |
| Network.CdpAbortIff | browser/network.py:209-245 | `get_cdp_requests` answers [] because of an abort exactly when some log entry raises an exception other than JSONDecodeError or KeyError |
| Network.KeepShape | browser/network.py:221-237 | a kept entry needs monitoring to have been enabled, and is a `Network.requestWillBeSent` record whose URL matched a pattern |
| Network.CdpRecordsMatch | browser/network.py:209-245 | every record `get_cdp_requests` returns is a matching request record |
| Network.ScanMatch | browser/network.py:215-242 | a loop whose every kept verdict is a matching record returns only matching records |
| Network.EntryKeepsRecords | browser/network.py:216-240 | every entry the loop keeps is a matching request record |
| Network.WellFormedKept | browser/network.py:216-237 | an entry carrying a well-formed `requestWillBeSent` message with a matching URL and a timestamp is kept |
| Network.OtherMethodSkipped | browser/network.py:219-221 | an entry for any other CDP method is skipped |
| Network.KeyOf | browser/network.py:264 | the dedup key is the hashed pair of `finalUrl` (else `url`, else '') and `timestamp` (else 0); a non-dict raises AttributeError and an unhashable part TypeError |
| Network.DedupOkIff | browser/network.py:263-267 | the dedup succeeds exactly when every request has a key |
| Network.DedupRaisePersists | browser/network.py:263-267 | the first failing key decides the exception of the whole dedup |
| Network.DedupKeepsFirsts | browser/network.py:259-269 | the keys seen are the input's keys, each is carried by exactly one kept request, and each kept request is the first input request with its key |
| Network.DedupPrefix | browser/network.py:263-267 | the dedup of a list is a prefix of the dedup of any extension: earlier requests keep their place |
| Network.DedupDistinct | browser/network.py:263-267 | requests whose keys are pairwise distinct pass through unchanged |
| Network.DedupSeen | browser/network.py:260-266 | the keys seen are exactly the keys of the input |
| Network.JsRequestsFirst | browser/network.py:249-269 | the merged answer starts with the dedup of the JavaScript-captured requests, unchanged |
| Network.Deduplicate | browser/network.py:259-269 | the loop keeps exactly the requests the dedup model keeps, or raises its exception |
| Network.NetworkMonitor.EnableMonitoring | browser/network.py:34-44 | the patterns become the given ones, or `['/api/comment/list/']` for None, and the buffers are unchanged |
| Network.NetworkMonitor.GetCdpRequests | browser/network.py:209-245 | the method returns exactly the kept records of the CDP model for the stored patterns |
| Network.NetworkMonitor.GetAllRequests | browser/network.py:247-269 | the answer is the dedup of the JavaScript-captured requests followed by the CDP ones |
| Network.NetworkMonitor.ClearAllRequests | browser/network.py:294-303 | the three buffers are emptied exactly when the page script call succeeds, and the patterns are kept |
| Network.WaitForRequests | browser/network.py:271-292 | the answer is [] when no poll grew beyond the initial count, and otherwise the part beyond the initial count of the first poll that grew |
| FileUtils.ShouldCompressBytes | core/file_utils.py:37-43 | `save_json` compresses exactly when the flag says so, or, without a flag, when compression is on and the UTF-8 byte count exceeds the limit times 2^20 (the division by 2^20 is exact) |
| FileUtils.SaveJsonPath | core/file_utils.py:34-56 | the returned path is `str(Path(filepath))` when not compressing; when compressing, ValueError exactly when the path has no name, and otherwise that printed path with ".gz" added after its suffix |
| FileUtils.NormaliseKeeps | core/file_utils.py:34 | printing a path and reading it again keeps its root and its parts |
| FileUtils.NormaliseIdempotent | core/file_utils.py:34 | `str(Path(str(Path(p))))` equals `str(Path(p))` |
| FileUtils.PlainPathUnchanged | core/file_utils.py:34 | a relative path whose every component is a plain name is printed as given |
| FileUtils.PartsConcat | core/file_utils.py:34 | Path reads components one by one: the parts of `s + "/" + t` are the parts of `s` then those of `t` |
| FileUtils.RedundantSeparatorsIgnored | core/file_utils.py:34-56 | for a relative path, a doubled '/', a trailing '/' and a trailing "/." change nothing `save_json` returns, compressed or not |
| FileUtils.LeadingDotIgnored | core/file_utils.py:34-56 | a leading "./" before a relative path changes nothing `save_json` returns |
| FileUtils.CompressedEndsWithName | core/file_utils.py:46 | the name `with_suffix` extends is a plain component and ends the printed path |
| FileUtils.NamelessRefused | core/file_utils.py:46 | compressing "", "." or "/" raises ValueError, as `with_suffix` refuses an empty name |
| FileUtils.StreamJsonArray | core/file_utils.py:99-147 | the scanner loop yields exactly the items of the scanner model run over the file's text, cutting each candidate at its first '}' |
| FileUtils.ScanSnoc | core/file_utils.py:107 | scanning one more character is one more step of the loop body |
| FileUtils.ScanConcat | core/file_utils.py:107 | scanning two texts one after the other is scanning them together |
| FileUtils.EscapeSkipsNext | core/file_utils.py:110-116 | a backslash, inside or outside a string, makes the next character count for nothing but the buffer |
| FileUtils.QuoteToggles | core/file_utils.py:118-120 | a double quote toggles the in-string flag and nothing else |
| FileUtils.InsideStringIgnored | core/file_utils.py:122-123 | inside a string, braces and every other character but '"' and '\\' leave the depth and the item start alone |
| FileUtils.ScanPlain | core/file_utils.py:107-123 | text with no brace and no backslash only grows the buffer and flips the string flag once per quote |
| FileUtils.OpenAtRest | core/file_utils.py:125-128 | an opening brace read at depth 0 starts a candidate at that brace |
| FileUtils.CloseItem | core/file_utils.py:129-147 | a closing brace that brings the depth back to 0 cuts the candidate at its first '}', hands the cut text to json.loads, keeps its value only when it decodes, and leaves in the buffer what follows the cut |
| FileUtils.CutWithin | core/file_utils.py:133-136 | a candidate ending in a closing brace is cut inside itself, after at least one character |
| FileUtils.FirstCloseAfterPlain | core/file_utils.py:135 | the first '}' of a flat object is its closing brace |
| FileUtils.FirstCloseNested | core/file_utils.py:135 | in an object holding an object, the first '}' is the inner one |
| FileUtils.FlatObject | core/file_utils.py:125-147 | a flat object between items is handed to json.loads exactly as written and the buffer is left empty |
| FileUtils.NestedObjectAsWritten | core/file_utils.py:133-136 | as written, an object holding an object is cut at the inner closing brace: json.loads sees only a prefix and the rest stays in the buffer |
| FileUtils.NestedObjectCorrected | core/file_utils.py:131-133 | taking the whole candidate, the same input hands the whole object to json.loads and leaves the buffer empty |
| FileUtils.Contribution | core/file_utils.py:236-242 | a list result adds its items, a truthy non-list adds itself, and a falsy or raising chunk adds nothing |
| FileUtils.ChunksCover | core/file_utils.py:230-231 | the chunks cover the data, in order |
| FileUtils.ChunksCount | core/file_utils.py:226 | there are ceil(len / chunk_size) chunks, the count the log line reports |
| FileUtils.ChunksSizes | core/file_utils.py:230-231 | every chunk is non-empty and at most chunk_size long, and all but the last are full |
| FileUtils.ChunksFrom | core/file_utils.py:230-231 | the chunks from position i on are the slice `data[i:i + chunk_size]` followed by the chunks after it |
| FileUtils.ResultsFrom | core/file_utils.py:230-242 | the results from position i on are that chunk's contribution followed by the rest's |
| FileUtils.ProcessInChunks | core/file_utils.py:213-245 | a chunk size of 0 raises ZeroDivisionError, a negative one yields nothing, and otherwise the result is the contributions of the chunks, in order |
| FileUtils.ProcessChunks | core/file_utils.py:225-245 | the loop for a positive chunk size gives exactly the contributions of the chunks, in order |
| FileUtils.IdentityProcessor | core/file_utils.py:236-242 | with a processor that returns its chunk, the output equals the input |
| FileUtils.IdentityResults | core/file_utils.py:236-242 | returning each non-empty chunk gives back their concatenation |
| Launcher.Resolve | TTScraper.py:157-162 | `_resolve` returns the stored keyword when it is present and not None, and the fallback otherwise; nothing else is read |
| Launcher.ResolveAfterSet | TTScraper.py:157-162 | after storing a value under a keyword, `_resolve` returns it, or the fallback when it is None |
| Launcher.MergeLookup | TTScraper.py:197 | `{**kwargs, **overrides}` takes each overridden key's value from the overrides and every other key's from the constructor keywords |
| Launcher.WindowSize | TTScraper.py:209 | the window size is the merged value when truthy, else the config's, else (1920, 1080); unpacking raises TypeError for a value that cannot be iterated and ValueError for one without exactly two items |
| Launcher.Headless | TTScraper.py:253-266 | headless is the config's value when the merged one is None; otherwise a truthy merged value itself, and False for a falsy one |
| Launcher.ExtraArguments | TTScraper.py:248 | `merged.get("arguments") or []` gives no extra arguments for a falsy value, and otherwise the list's string items in order |
| Launcher.AssembleArgs | TTScraper.py:206-250 | the method builds exactly the argument list of the model: the base arguments, then the new config arguments, then the new extra arguments |
| Launcher.BuildBaseArgs | TTScraper.py:211-240 | proxy, boolean switches, disabled features, blink features and logging, in that order, each only under its condition |
| Launcher.AppendFlags | TTScraper.py:217-225 | the flag loop appends, in map order, each switch whose keyword is exactly True |
| Launcher.AppendMissing | TTScraper.py:243-250 | the loop appends exactly the arguments the list does not hold yet |
| Launcher.AppendNewProperties | TTScraper.py:243-250 | appending only missing arguments keeps the list as a prefix, adds exactly the arguments not yet listed, each once |
| Launcher.AppendNewDistinct | TTScraper.py:243-250 | a list without repeats gains none from the config and extra phases |
| Launcher.FlagArgsIff | TTScraper.py:223-225 | with distinct switches, a switch is present exactly when its keyword holds True (`is True`, so 1 or "yes" do not count) |
| Launcher.FlagArgsOnly | TTScraper.py:223-225 | every switch added comes from the flag map |
| Launcher.FlagSwitches | TTScraper.py:217-225 | each of the four boolean switches is passed exactly when its keyword is True |
| Launcher.ArgsOrder | TTScraper.py:206-250 | the argument list starts with the base arguments in their order, and with logging on, `--log-level=<n>` is immediately followed by `--enable-logging` at the end of them |
| Launcher.Lower | TTScraper.py:273 | ASCII lower-casing keeps the length and maps each character on its own |
| Launcher.AnyIn | TTScraper.py:273 | `any(m in s ...)` is true exactly when some listed text occurs in the argument |
| Launcher.FilterManaged | TTScraper.py:271-278 | the filter adds every unmanaged argument in order, and leaves the sandbox on exactly when it was on and no argument disables it |
| Launcher.UnmanagedMembers | TTScraper.py:271-278 | an argument is added exactly when it is listed and none of the managed words occurs in it lower-cased |
| Launcher.SandboxSwitchManaged | TTScraper.py:273-277 | an argument that turns the sandbox off is itself managed, so it is never added |
| Launcher.LanguageFeatureWithheld | TTScraper.py:271-273 | `--disable-features=Language` holds "lang" once lower-cased, so it is withheld |
| ExtractComments.CommentsOf | examples/extract_comments.py:161-167 | a dict is analysed through its `comments` member, or an empty list when it has none; any other value is analysed as it is |
| ExtractComments.ReadsOf | examples/extract_comments.py:186-209 | the author info is a truthy `author_info`, else `user`; the likes a truthy `digg_count`, else `likes`; the name a truthy `username`, else `uniqueId` |
| ExtractComments.Preview | examples/extract_comments.py:207 | the liked comment's preview fails only with TypeError |
| ExtractComments.ReadsFault | examples/extract_comments.py:186-210 | the exceptions the loop body can raise are TypeError and AttributeError |
| ExtractComments.Top | examples/extract_comments.py:214 | `[:5]` keeps a prefix of at most five entries |
| ExtractComments.WalkStep | examples/extract_comments.py:182-210 | every tally of the first i + 1 comments is the tally of the first i plus what comment i adds, and the exception is the first one met |
| ExtractComments.CountComment | examples/extract_comments.py:184-210 | the loop body on a comment raising nothing adds 1 to comments_with_replies and the reply count to total_replies when the replies are truthy, the text length when the text is truthy, the truthy author name to the set, and a liked entry when the likes are truthy |
| ExtractComments.Walk | examples/extract_comments.py:182-210 | the loop raises the first exception a comment raises, and otherwise its counters are exactly the folds of CountComment over the comments |
| ExtractComments.AnalyzeComments | examples/extract_comments.py:145-233 | the method returns exactly the analysis model's result |
| ExtractComments.FirstFaultExact | examples/extract_comments.py:182-233 | a walk raises exactly when some comment raises, and then with the first such comment's exception |
| ExtractComments.FirstFaultStops | examples/extract_comments.py:182-233 | the first comment that raises decides the walk's exception |
| ExtractComments.ReportParts | examples/extract_comments.py:172-229 | a report counts every comment, holds the folds of the walk, the first five of the sorted liked comments, and unique_authors equal to the number of authors |
| ExtractComments.AnalyzeCases | examples/extract_comments.py:159-233 | nothing is analysed exactly when the comments are falsy (a dict without `comments` included); a truthy value without len() fails with TypeError; a non-empty list reports its length as total_comments; failures are TypeError or AttributeError |
| ExtractComments.FailureCases | examples/extract_comments.py:182-233 | the analysis fails exactly when the walk raises or two or more liked comments hold likes Python cannot order |
| ExtractComments.ReplyBounds | examples/extract_comments.py:186-189 | comments_with_replies is at most the number of comments and at most total_replies, and is 0 exactly when total_replies is |
| ExtractComments.LengthsPositive | examples/extract_comments.py:192-194 | every recorded length is positive, and there is at most one per comment |
| ExtractComments.TextLengthPositive | examples/extract_comments.py:193-194 | a length is recorded only for a non-empty text |
| ExtractComments.LikedExact | examples/extract_comments.py:204-210 | a comment makes a liked entry exactly when it is a dict with truthy likes, and every entry carries that comment's preview, likes and author |
| ExtractComments.LikedByExact | examples/extract_comments.py:204-210 | one comment makes exactly one liked entry when its likes are truthy, and that entry is its own |
| ExtractComments.TopLiked | examples/extract_comments.py:204-214 | top_liked_comments holds min(5, liked) entries with truthy likes, sorted by likes descending, drawn from the liked comments, and no liked comment left out has more likes than one kept |
| ExtractComments.TopOfSorted | examples/extract_comments.py:213-214 | the first five of a descending sort are sorted, drawn from the input, and none of the others comes before any of them |
| ExtractComments.AuthorsExact | examples/extract_comments.py:197-220 | an author is counted exactly when some comment names it with truthy info and name, and unique_authors is the number of distinct names |
| ExtractComments.PreviewShape | examples/extract_comments.py:207 | the preview of a string keeps it whole up to 100 characters, else cuts it to 100 and appends "..." |
| ExtractComments.LastSegment | examples/extract_comments.py:250 | `split('/')[-1]` is a suffix holding no "/" and, when shorter than the string, preceded by a "/" |
| ExtractComments.Sanitize | examples/extract_comments.py:255 | sanitising keeps the length and every safe character, and replaces each of `<>:"/\|?*` with "_" |
| ExtractComments.ChosenFilename | examples/extract_comments.py:248-257 | a given non-empty name is used as it is; without one the default name is built |
| ExtractComments.NoQuery | examples/extract_comments.py:252 | the part before the first "?" holds no "?" and is no longer than the input |
| ExtractComments.KeptWithoutQuery | examples/extract_comments.py:252 | a segment without "?" is kept whole |
| ExtractComments.FileVideoIdShape | examples/extract_comments.py:250-255 | the id holds none of the unsafe characters; a URL without "/" gives "unknown"; otherwise the id is no longer than the URL's last segment |
| ExtractComments.LastSegmentOf | examples/extract_comments.py:250 | the last segment of `prefix/id`, for an id without "/", is the id |
| ExtractComments.CleanUrlFilename | examples/extract_comments.py:248-257 | the file name of a URL ending in a clean id is `comments_{method}_{id}_{timestamp}.json` |
| ExtractComments.SanitizeKeeps | examples/extract_comments.py:255 | a string without unsafe characters is unchanged |
| ExtractComments.SanitizeIdempotent | examples/extract_comments.py:255 | sanitising twice changes nothing more |
| ExtractComments.SavedTotal | examples/extract_comments.py:266 | the saved total_comments is the length of a list and 0 for anything else |
| BatchExtraction.RecordOf | examples/batch_video_extraction.py:63-105 | a record keeps its URL; it is a success exactly when the video was extracted, and then carries the video id, raw data and creation time, with the stats kept only when truthy (None otherwise); a failure carries the message and exception type name |
| BatchExtraction.SelectionExact | examples/batch_video_extraction.py:205 | a record is among the successes exactly when it is a success record of the list, and among the failures exactly when it is a failure record (the failures are what line 102 appends) |
| BatchExtraction.CountsPartition | examples/batch_video_extraction.py:83-101 | successes and failures together number exactly the records |
| BatchExtraction.BatchVideoExtractor.ExtractSingleVideo | examples/batch_video_extraction.py:52-105 | one video returns its record; a success raises only `successful`, a failure only `failed` and appends the record to `errors`; results and total_processed are unchanged; the counters stay consistent with the errors |
| BatchExtraction.BatchVideoExtractor.ExtractBatch | examples/batch_video_extraction.py:107-146 | the batch appends one record per URL in input order, adds the URL count to total_processed, the successes to `successful`, the failures to `failed` and to `errors`, and returns the summary of the totals, results and errors (also lines 161-179) |
| BatchExtraction.BatchVideoExtractor.GetAnalytics | examples/batch_video_extraction.py:200-259 | the method returns exactly the analytics of the extractor's records |
| BatchExtraction.AnalyticsStep | examples/batch_video_extraction.py:223-245 | one pass of the loop over a successful record with readable stats adds its counted figures to the totals when the stats are truthy, and its truthy id to the id list |
| BatchExtraction.NotAllReadable | examples/batch_video_extraction.py:229-232 | a successful record with truthy stats that are not a dict makes the records unreadable |
| BatchExtraction.DigitsToInt | examples/batch_video_extraction.py:240-245 | when str(v) is all digits, int(v) succeeds with a non-negative value: the integer itself, or the decimal value of the string |
| BatchExtraction.CountedIsGuardedInt | examples/batch_video_extraction.py:240-245 | `int(v) if str(v).isdigit() else 0` never raises, and its value is what the model counts |
| BatchExtraction.PlusZero | examples/batch_video_extraction.py:212-219 | adding the all-zero engagement dict changes nothing, on either side |
| BatchExtraction.PlusAssoc | examples/batch_video_extraction.py:240-245 | adding engagement totals is associative |
| BatchExtraction.Div | examples/batch_video_extraction.py:251-256 | `//` on non-negative numbers is the floor: q * d <= n < (q + 1) * d |
| BatchExtraction.AnalyticsCases | examples/batch_video_extraction.py:202-232 | no records give the "No data to analyze" error; only failures give "No successful extractions to analyze"; otherwise the call raises exactly when a successful record has truthy non-dict stats, and else analyses exactly the successful records |
| BatchExtraction.SumFrom | examples/batch_video_extraction.py:223-245 | the loop started from any total ends at that total plus the totals from zero |
| BatchExtraction.SumAppend | examples/batch_video_extraction.py:223-245 | the totals of two lists of records in a row are the sum of their totals |
| BatchExtraction.CountedZero | examples/batch_video_extraction.py:240-245 | a value that is neither a positive integer nor a digit string of positive value counts 0 |
| BatchExtraction.FiguresZero | examples/batch_video_extraction.py:232-245 | a stats dict whose six values count nothing adds nothing |
| BatchExtraction.NoDigitsAddNothing | examples/batch_video_extraction.py:230-245 | a record whose stats hold no positive digit value leaves every total unchanged |
| BatchExtraction.FalsyStatsAddNothing | examples/batch_video_extraction.py:229-230 | a record with falsy stats, including the None stored for empty stats, leaves every total unchanged (the None is stored at line 78) |
| BatchExtraction.AveragesFloor | examples/batch_video_extraction.py:248-257 | each of the six averages is the floor of its total over the number of analysed videos, which is positive |
| BatchExtraction.VideoIdsExact | examples/batch_video_extraction.py:224-226 | a value is among the video ids exactly when some successful record has it as a truthy id |
| AdvancedConfig.UpdateSection | examples/advanced_config.py:128 | `section.update(settings)` fails exactly when the settings are neither a dict nor an empty string or list, with ValueError for a non-empty string and TypeError otherwise |
| AdvancedConfig.Loaded | examples/advanced_config.py:87-132 | a falsy config loads the defaults; a truthy one that is not a dict raises AttributeError at `.items()` |
| AdvancedConfig.MergePrefixRaises | examples/advanced_config.py:126-130 | once a prefix of the items fails to merge, the whole merge fails with that exception |
| AdvancedConfig.MergeSectionLookup | examples/advanced_config.py:127-130 | merging one item changes only the section it names: that one is updated when known and set when new |
| AdvancedConfig.MergeLookup | examples/advanced_config.py:124-132 | after a successful merge each section is the known one updated with the user's settings, the user's settings for an unknown name, or the default when the user named none |
| AdvancedConfig.MergeOk | examples/advanced_config.py:126-130 | the merge succeeds exactly when every item fits the section its name holds |
| AdvancedConfig.MergeRaises | examples/advanced_config.py:126-130 | when the named sections are dicts or absent, a failing merge fails with TypeError or ValueError |
| AdvancedConfig.DefaultSectionsAreDicts | examples/advanced_config.py:89-122 | every built-in section is a dict |
| AdvancedConfig.KnownSectionMerged | examples/advanced_config.py:126-128 | a known section the user names is a dict holding the user's keys over the default ones, every other default key kept |
| AdvancedConfig.LoadedDict | examples/advanced_config.py:124-132 | a dict config is merged into the defaults, item by item |
| AdvancedConfig.UnknownSectionAdded | examples/advanced_config.py:129-130 | a section name the defaults lack is added with the user's settings as given |
| AdvancedConfig.UnnamedSectionKept | examples/advanced_config.py:89-132 | a section the user does not name stays as built in |
| AdvancedConfig.LoadedIff | examples/advanced_config.py:124-132 | a dict config loads exactly when each item fits its section; otherwise TypeError or ValueError escapes |
| AdvancedConfig.PlusOne | examples/advanced_config.py:234 | `max_retries + 1` raises TypeError exactly when max_retries is neither an int nor a bool, and is one more than an int |
| AdvancedConfig.FirstOk | examples/advanced_config.py:234-276 | the first successful attempt below n, every earlier one failed, or n when none succeeds |
| AdvancedConfig.SucceedsAt | examples/advanced_config.py:234-261 | a success at attempt k after k failures is returned with attempts k + 1, after k counted errors |
| AdvancedConfig.AllFail | examples/advanced_config.py:263-276 | when every attempt fails, the last error is reported with attempts max_retries + 1, after one counted error per attempt |
| AdvancedConfig.ReportBounds | examples/advanced_config.py:234-276 | a report claims between 1 and max_retries + 1 attempts; a success carries its own attempt's data after only failures; a failure comes only when every attempt failed; every attempt but a successful one counts as an error (also lines 285-327) |
| AdvancedConfig.NoAttempt | examples/advanced_config.py:234 | with max_retries below 0 the loop never runs, returns None and changes no statistic |
| AdvancedConfig.MaxRetriesFallback | examples/advanced_config.py:229-234 | a max_retries of None falls back to the configured one; any other value is used as given |
| AdvancedConfig.DefaultScraping | examples/advanced_config.py:101-108 | the built-in scraping section is the scraping defaults |
| AdvancedConfig.DefaultRetrySettings | examples/advanced_config.py:103-104 | the built-in max_retries is 3 and retry_delay 5 |
| AdvancedConfig.DefaultAttempts | examples/advanced_config.py:229-234 | the built-in configuration allows four attempts (also line 103) |
| AdvancedConfig.RawDataFilename | examples/advanced_config.py:341-348 | the file name exists exactly when the pattern formats with the type, the id as `str()` gives it, and the timestamp |
| AdvancedConfig.FormatPlain | examples/advanced_config.py:344-348 | a pattern without braces formats to itself |
| AdvancedConfig.FormatChar | examples/advanced_config.py:344-348 | a character other than a brace is copied in front of the rest |
| AdvancedConfig.FormatField | examples/advanced_config.py:344-348 | a named field is replaced by its value and formatting goes on after its closing brace |
| AdvancedConfig.FormatMissingField | examples/advanced_config.py:344-348 | a field the call does not pass raises KeyError |
| AdvancedConfig.FormatSeparatedField | examples/advanced_config.py:344-348 | an underscore and a field in front of text that formats to `tail` give the underscore, the value and `tail` |
| AdvancedConfig.FormatThreeFields | examples/advanced_config.py:344-348 | three fields joined by underscores format to their values joined by underscores (the built-in pattern is at line 113) |
| AdvancedConfig.DefaultFilename | examples/advanced_config.py:344-348 | the built-in pattern gives `<type>_<id>_<timestamp>.json` for every type, id and timestamp (the built-in pattern is at line 113) |
| AdvancedConfig.UnknownFieldRaises | examples/advanced_config.py:337-348 | a pattern starting with a field the call does not pass raises KeyError, so nothing is saved |
| AdvancedConfig.Scraper.New | examples/advanced_config.py:75-85 | construction fails exactly when loading the config fails, with that exception; otherwise the scraper holds the loaded config and zeroed statistics |
| AdvancedConfig.Scraper.LoadConfig | examples/advanced_config.py:87-132 | the method returns exactly the loaded configuration |
| AdvancedConfig.Scraper.MergeInto | examples/advanced_config.py:126-130 | the loop returns exactly the merge of the items |
| AdvancedConfig.Scraper.ExtractWithRetry | examples/advanced_config.py:227-276 | the config is unchanged; a failing lookup before the loop escapes with the statistics unchanged; otherwise the result is the retry report and the statistics are tallied from the attempts (also lines 278-327) |
| AdvancedConfig.Scraper.Attempts | examples/advanced_config.py:229-234 | the method returns exactly the attempt count, lookup failures included |
| AdvancedConfig.Scraper.RunAttempts | examples/advanced_config.py:234-276 | the loop returns the retry report and tallies one error per failed attempt and a request and an item on success |
| Json.UpdateLookup | examples/advanced_config.py:128 | after `d.update(other)` a key of `other` holds other's value and every other key is untouched |
| Json.SetLookup | examples/advanced_config.py:130 | after `d[k] = v` the key k holds v and every other key is untouched |
| Json.SetKeys | examples/advanced_config.py:130 | `d[k] = v` keeps the key order and appends a new key at the end |
| Json.Get | examples/batch_video_extraction.py:232-237 | `d.get(k, default)` on a dict is the stored value or the default, and on anything else raises AttributeError |
| Json.Subscript | examples/advanced_config.py:230-232 | `d[k]` succeeds exactly on a dict holding k, and otherwise raises KeyError on a dict and TypeError on anything else |
| Json.Len | examples/extract_comments.py:172 | `len(v)` is the size of a string, list or dict, and raises TypeError on anything else |
| Json.Iter | examples/extract_comments.py:182 | iterating over a string, list or dict walks as many items as its len(); anything else raises |
| Json.ToInt | examples/batch_video_extraction.py:240-245 | `int(v)` keeps an int, reads a bool as 0 or 1, parses a string, and raises TypeError on None, a list or a dict |
| Json.IntStrRoundTrip | examples/batch_video_extraction.py:240-245 | `int(str(i)) == i` for every integer |
| Json.StrIsDigits | examples/batch_video_extraction.py:240-245 | `str(v).isdigit()` holds exactly for a non-negative int or a string of digits |
| Json.HashKeyEquality | examples/extract_comments.py:201 | two hashable values make the same set entry exactly when Python considers them equal |
| Json.HashKey | examples/extract_comments.py:201 | hashing raises TypeError exactly on a list or a dict |
| Json.Find | core/file_utils.py:135 | `s.find(sub, start)` is the first occurrence at or after start, or -1 when there is none |
| Json.Slice | examples/extract_comments.py:207 | `s[i:j]` within bounds is the Dafny slice, and never longer than s |

## Left out

- Browser automation is not modelled: Selenium and nodriver calls, CDP commands, DOM lookups, XPaths, the injected JavaScript and browser/driver.py. What they hand back is an input: page source, captured request lists, the driver log, element counts.
- The browser start in `start_browser`, `_enable_cdp` and the handlers the network monitor's constructor installs are not modelled; only the argument list and the monitor's bookkeeping are.
- HTTP is not modelled: tiktok.py (session, `make_request`, `ensure_session`, cookie sync), `Video.bytes`, and the HEAD request of helpers.py, whose final URL is a parameter. An API response is an input, and a client call that raises is not modelled.
- The pagination loops are fed a finite list of responses. A loop that would make another request ends with `OutOfResponses`, which stands for "the client went on answering".
- The item factories the listings call (`parent.video`, `parent.comment`) are the identity: raw item dicts are yielded, and exceptions from building those objects are not modelled.
- Request parameters other than cursor and count are not modelled.
- `json.loads` is an abstract partial function (the `Loads` parameter); `json.dumps` is not modelled.
- File I/O is not modelled: the JSON dumps, reads and glob/remove cleanup in video.py, the debug dumps of user.py, the writes in `save_json`, `load_json` and `FileManager`, and the save functions of the examples. Only the path, file name and compression decisions are modelled.
- Floating point is not modelled: success_rate, progress percentages, average_comment_length, retry backoff and throttling delays. The float settings `request_delay` 2.0 and `retry_delay` 5.0 appear as the integers 2 and 5.
- Clocks are parameters: the datetime timestamps in file names and record dicts, and the rate limiter's clock, in integer seconds. `time.sleep` is not modelled.
- `datetime.fromtimestamp`, its local-time formatting and its OverflowError are not modelled: a parsed timestamp is kept as the integer of seconds.
- Concurrency is not modelled: the `threading.Lock` of the rate limiter and the asyncio of TTScraper.py.
- Logging is not modelled: handler and formatter setup, every logger call, and the logging in the Video constructor's `validate_url`.
- Exception messages are not modelled, except where the model carries `str(e)` as an opaque value (batch records, retry reports).
- Python's `re` is replaced by hand-written matchers over ASCII classes. Likewise `isdigit`, `isspace` and `\w` cover ASCII only, and Unicode digits are not modelled.
- `repr` and `str` of strings inside containers use simplified quoting, with no escaping.
- Sort keys that are lists or dicts are treated as impossible to order. Python would compare two lists element by element.
- Slicing a dict (`text[:100]` on a dict text) is modelled as TypeError, as before Python 3.12; from Python 3.12 it raises KeyError.
- `dict.update` with a non-empty list of pairs is a TypeError in `AdvancedConfig.UpdateSection`. In `User` the pairs are modelled, with a non-string key kept as its `str()` text.
- `str.format` in `AdvancedConfig.Format` handles keyword fields only: a conversion, a format spec or attribute syntax is read as part of the field name.
- `AdvancedConfig` leaves out the logger, start_time, driver initialisation and test, the `_save_raw_data` call inside the retry loops, `os.makedirs` and `os.path.join`, and the video and user objects placed in a success report.
- `BatchExtraction` leaves out the extraction timestamps, success_rate, duration and start/end times, and `_save_progress` and `save_results`.
- `ExtractComments` leaves out the order of the `authors` list, which comes from a set.
- `Scrolling` leaves out the scroll-height counter `same_height_count` of `fetch_comments_from_network`, which only feeds logging. The loop model also ends when the observations run out.
- `CommentRecords` leaves out the error-record branch at video.py:1155-1166. `extract_comment_details` catches every exception itself and returns an error dict, so that branch cannot be reached.
- The partial attribute state a field-by-field extraction leaves when it raises on an object that already exists is not modelled. A raising constructor returns the exception.
- The shallow copy of `to_dict` is a value copy: aliasing of nested values is not modelled.
- User.Run: its own contract states only that the identifiers stay assigned; the lemmas User.RunRaised, User.RunIdentifiers, User.RunProfile, User.RunCounts and User.RunKeeps state what the lines assign and when they raise.
- ErrorHandling.RetryOnException: the retryable exception classes are a parameter (`retryable`). The default list of `RetryConfig` (core/error_handling.py:27-35) and Python's subclass matching by `isinstance` are not modelled, because those classes come from requests, Selenium and the builtins.
- Pagination.WholeRoundFacts: a None response is modelled as raising InvalidResponse. comment.py:130, sound.py:119 and hashtag.py:113 import that exception with a relative `from .video import ...` inside the loop. Under the top-level import layout of tiktok.py:12-16 and video.py:2 that import itself fails with ImportError. The ImportError is not modelled.
- Pagination.WholePagesEnd: the same holds for the generators' end; it states InvalidResponse where the relative import would raise ImportError.
- Pagination.WholeRound and Pagination.FetchWholeRound: the same InvalidResponse-for-ImportError reading applies.
- FileUtils.SaveJsonPath: `Path` is modelled as POSIX `PurePosixPath`; Windows drive letters and backslash separators are not modelled.
- Launcher.FilterManaged: the `--profile-directory=<dir>` argument added after the filter (TTScraper.py:284-288) is not modelled, nor are the other nodriver Config attributes.
- Launcher.Lower: `str.lower` is modelled as ASCII lower-casing. Full Unicode lower-casing can change the length (e.g. 'İ'), so "lower-casing keeps the length" holds only for the ASCII model.

## Findings

| source | as written | input that shows it | evidently intended | confidence | as-written member | corrected member |
|---|---|---|---|---|---|---|
| core/file_utils.py:133-136 | a candidate object is cut at the first `}` after its opening brace | the stream `[{"a": {"b": 1}}]`: json.loads sees `{"a": {"b": 1}`, which it rejects | the candidate ends at the brace that brings the depth back to 0 | not executed | FileUtils.NestedObjectAsWritten | FileUtils.NestedObjectCorrected |
| user.py:317-322, 338-340 | the request passes `headers=` and also spreads `**kwargs`; a caller's `headers` keyword raises TypeError, which the loop's handler swallows | `videos(count=30, headers={...})` with a response holding one video yields nothing | the listing pages as it does without the keyword | not executed | User.HeadersKeywordDropsVideos | User.Videos |
| comment.py:158 | `get_summary` reads `self.create_time`, which the constructor never assigns without a truthy timestamp | `Comment(id="7", data={"text": "hi"})`, then `get_summary()`, raises AttributeError | `create_time` None in the summary | not executed | Comment.SummaryNeedsTimestamp | Comment.SummaryCorrectedFromDict |
| video.py:1191 | the sample log calls `len(comment.get('text', ''))`, which raises TypeError for a comment whose text is None; the outer handler then returns [] | a captured response whose first comment has `"text": null` | the sample log reports and the records read are returned | not executed | CommentRecords.NullTextLosesAll | CommentRecords.ReadAllIntendedExact |
