# TikTok API Extractor: a Dafny model of its request logic

The service exposes `POST /extract_tiktok`. The request body names a video URL.
The service pulls a video ID out of the URL with five fixed regular
expressions and looks the ID up through a client library. It then maps the
loosely typed metadata it gets back to a fixed-shape record and replies with
`{"success": true, "data": record}` or `{"error": message}`, together with a
status code.

This project models that logic in `app.py` as pure functions over values, and
proves what each piece promises:

- `text.dfy` (module `Text`): the character classes of the patterns (`\d`,
  `\w`, `[\w.-]`, `[\w\u4e00-\u9fff]`), greedy runs of one class, literal
  matches at a position, and substring search.
- `json.dfy` (module `Json`): decoded JSON values and the Python operations
  the service applies to them. These are truth testing, `in`, subscripting
  and `.get`. An operation on a value of the wrong kind raises, and the model
  returns that exception as a `Fault`.
  - `Truthy` and `Contains` carry their own contracts.
  - `Lookup` (subscripting), `Get` (`.get(key, default)`) and `Section`
    (`.get(section, {})`) are plain definitions. Their behaviour in the
    service is stated by `Handler.UrlRequiredIff` and `Handler.ServerErrorIff`
    (for `Lookup`), and by `Record.NormaliseFollowsSchema` and
    `Record.NormaliseFails` (for `Get` and `Section`).
- `videoid.dfy` (module `VideoId`): `extract_video_id_from_url`.
  - Each pattern has a hand-written matcher at one position (`MatchAt`) and an
    independent declarative description of what it accepts (`Accepts`).
  - `Search` is a leftmost search, like `re.search`.
  - `Resolve` takes the first rule in the list that matches anywhere.
- `hashtags.dfy` (module `Hashtags`): `extract_hashtags`.
  - The left-to-right scan (`FindAll`, as `re.findall` does it) is proved
    equal to the list of hashtags at every position where one starts.
  - The space-joined result splits back into that list.
- `record.dfy` (module `Record`): the `result["data"]` expression of
  `get_video_data`. It is proved against a table that gives every output
  field's key path and default.
  - `Or` (Python's `a or b`) and `HashtagsOf` (the `extract_hashtags` call
    on a `Value`) are plain definitions.
  - `Record.PlayFallback` states what `Or` gives for `play`.
  - `Record.TitleDescHashtags` and `Record.NormaliseFails` state what
    `HashtagsOf` gives and when it raises.
- `handler.dfy` (module `Handler`): `get_video_data` and `extract_tiktok`.
  - The upstream lookup is an input `Fetch`: a function from a video ID to
    the metadata or the exception.
  - Proved: which requests get 400, 500 or 200, and with which body.
  - Proved: when the lookup can matter at all.

Consequences of the code as written in `app.py` that a reader may not expect:

- An empty metadata dict `{}` maps to the all-defaults record
  (`Record.EmptyRecordDefaults`). Through the handler, though, `{}` is false,
  so it gets 400 "Video not found or private" before any mapping
  (`Handler.NotFoundIff`).
- An exception raised by the client library is caught inside
  `get_video_data`. It gives 400 "Failed to extract video data: ...", not 500.
  Only the checks on the request body itself give 500.
- `play` uses Python's `or`: any false download address falls back to
  `playAddr`, not only `""` (`0`, `null`, `[]` and `{}` fall back too).
- A key path defaults only when a key is absent. A present `author`, `video`,
  `music` or `stats` that is not a dict raises. A true `desc` that is not a
  string also raises. Each of these gives 400 "Failed to extract video data".
- The short link `https://vt.tiktok.com/ZSDGDKF3r/` passes the domain check
  but matches none of the five patterns. It gets 400 "Invalid TikTok URL"
  whatever the lookup would return (`Handler.VtShortLinkExample`).

## Model

| member | source | states |
|---|---|---|
| Json.Contains | app.py:105 | Python `in`: a substring test on a string, a key test on a dict, an element test on a list; raises exactly for null, booleans and numbers |
| Json.Truthy | app.py:105 | Python's truth value: exactly `None`, `False`, `0`, `""`, `[]` and `{}` are false, the truth value that `not data` (app.py:105), `not video_id` (app.py:45), `not video_data` (app.py:52), `not text` (app.py:35) and `or` (app.py:90) test |
| VideoId.ProfileCorrect | app.py:20 | the rule-1 matcher accepts at `i` exactly `/@`, a non-empty handle of `[\w.-]`, `/video/` and the whole digit run after it, with the handle as long as possible |
| VideoId.LazyPathCorrect | app.py:23 | the lazy `.*?/(\d+)` scan finds the first `/` followed by a digit, with no newline before it, and captures that whole digit run |
| VideoId.MatchAtCorrect | app.py:20-24 | for each of the five patterns, the hand matcher at a position returns `id` exactly when the declarative rule accepts `id` there |
| VideoId.FindFrom | app.py:28 | the scan returns the first position at or after `i` where the rule matches, and no earlier position matches |
| VideoId.SearchFindsLeftmost | app.py:28-30 | `re.search(...).group(1)` is `id` exactly when `id` is what the rule accepts at its leftmost matching position |
| VideoId.SearchNoneIffAbsent | app.py:28-29 | a rule's search finds nothing exactly when the rule matches at no position |
| VideoId.LeftmostUnique | app.py:28 | the leftmost match and its capture are unique |
| VideoId.FirstOf | app.py:27-31 | trying rules in order yields nothing exactly when every rule's search yields nothing |
| VideoId.FirstOfPriority | app.py:27-30 | trying rules in order yields `id` exactly when some rule's search yields `id` and every earlier rule's search yields nothing |
| VideoId.ResolvePriority | app.py:19-30 | the ID is the capture at the leftmost match of the first pattern in the list that occurs in the URL; later patterns matter only when all earlier ones are absent |
| VideoId.ResolveNoneIffNoPattern | app.py:27-31 | the resolver returns `None` exactly when none of the five patterns occurs anywhere in the URL |
| VideoId.AcceptedIdShape | app.py:20-24 | an ID accepted by rules 1 to 4 is a non-empty digit run right after `/` with no digit after it; one from rule 5 is a non-empty word run right after `vm.tiktok.com/` with no word character after it |
| VideoId.ResolvedIdShape | app.py:19-31 | every ID the resolver returns has one of those two shapes |
| VideoId.ProfileUrlExample | app.py:20 | `https://www.tiktok.com/@user/video/7123456` resolves to `7123456` |
| VideoId.VmShortLinkExample | app.py:24 | `https://vm.tiktok.com/ZMabc123/` resolves to `ZMabc123` by the fifth pattern |
| VideoId.VtShortLinkUnresolved | app.py:19-31 | `https://vt.tiktok.com/ZSDGDKF3r/` matches none of the five patterns |
| Hashtags.TagAt | app.py:37 | the hashtag at a start is `#` plus one or more word or CJK characters, and runs to the end of that character run |
| Hashtags.StartsInOrder | app.py:38 | the reference list of hashtag starts is strictly increasing |
| Hashtags.StartsComplete | app.py:37-38 | the reference list of hashtag starts contains every position where `#` is followed by a tag character |
| Hashtags.TagsFromStarts | app.py:37-38 | the reference list of hashtags holds, element by element, the hashtag at each listed start |
| Hashtags.ScanFromIsEveryTag | app.py:38 | the non-overlapping left-to-right scan yields exactly the hashtag at every hashtag start, in order: no hashtag starts inside another |
| Hashtags.FindAllSpec | app.py:37-38 | `findall` returns one token per hashtag start, in left-to-right order, duplicates kept, each a well-formed hashtag; the list is empty exactly when no hashtag occurs |
| Hashtags.HashtagSpaceFree | app.py:37 | a hashtag contains no space |
| Hashtags.SplitJoin | app.py:39 | joining a non-empty list of space-free words with single spaces and splitting on spaces gives the words back |
| Hashtags.ExtractHashtagsSpec | app.py:35-39 | the result is `""` exactly when the text has no hashtag (empty text included); otherwise splitting it on spaces gives back the tokens in order |
| Hashtags.FunDescExample | app.py:33-39 | `"fun #cats and #dogs #cats"` gives `"#cats #dogs #cats"`, with order and the duplicate kept |
| Record.NormaliseFails | app.py:56-92 | the mapping succeeds exactly when each of `author`, `video`, `music` and `stats` is absent or a dict and `desc` is false or a string; otherwise the first bad section in evaluation order is reported |
| Record.BuiltRecordFollowsSchema | app.py:59-88 | a record read field by field from usable upstream objects holds in each field the value at that field's key path, or its default |
| Record.DefaultsByKind | app.py:59-87 | every text field defaults to `""` and every numeric field to `0` |
| Record.NormaliseFollowsSchema | app.py:59-88 | on success every copied output field equals the value at its key path, or its default when a key on the path is absent; the default is `""` for text fields and `0` for numeric ones |
| Record.TitleDescHashtags | app.py:60-61 | `title` and `desc` both equal the upstream `desc`, and `hashtags` is `extract_hashtags` of it |
| Record.PlayFallback | app.py:90 | `play` is the download address when that is true, otherwise the play address, and `""` when `video` is absent |
| Record.EmptyRecordDefaults | app.py:59-90 | an empty upstream record maps to every text field `""`, every number `0`, and `hashtags` and `play` both `""` |
| Handler.GetVideoDataProblems | app.py:44-98 | `get_video_data` never reports a missing URL or a server error |
| Handler.FromMetadata | app.py:52-92 | the metadata gives a record exactly when it is a non-empty dict that maps cleanly, and then the record is its mapping; "not found" exactly when it is a false value |
| Handler.OnlyResolvedIdIsFetched | app.py:44-50 | the result depends on the lookup only through the lookup of the ID resolved from the URL |
| Handler.NotFoundIff | app.py:52-53 | "Video not found or private" exactly when the URL resolves and the lookup returns a false value; an empty dict included |
| Handler.GetVideoDataSucceeds | app.py:44-94 | success exactly when the URL resolves, the lookup returns a non-empty dict, and that dict maps cleanly; the record is then its mapping |
| Handler.StatusFollowsBody | app.py:120-127 | the status is 200, 400 or 500; 200 exactly when the body has `success` and `data` and no `error`; 500 exactly for a server error |
| Handler.UrlRequiredIff | app.py:105-106 | 400 "URL is required" exactly when the body is false or lacks `url` |
| Handler.ServerErrorIff | app.py:104-127 | 500 exactly when a check on the body raises: `in` on a null, boolean or number body; subscripting a non-dict body; or `in` on a null, boolean or number `url` |
| Handler.InvalidUrlWithoutFetch | app.py:44-46 | 400 "Invalid TikTok URL" exactly when the `url` lacks `tiktok.com` (the domain check at app.py:111-112) or names it but yields no ID (the check at app.py:44-46); that reply does not depend on the lookup |
| Handler.OffSiteRejected | app.py:111-112 | a dict body whose `url` lacks `tiktok.com` gets 400 "Invalid TikTok URL" |
| Handler.ValidUrlDelegates | app.py:111-121 | a dict body whose `url` contains `tiktok.com` gets the body `get_video_data` returns for that `url` |
| Handler.SuccessIff | app.py:111-123 | 200 exactly when the body is a dict whose `url` contains `tiktok.com` and `get_video_data` succeeds on it; the reply body is then that result |
| Handler.MessagesTellProblemsApart | app.py:104-127 | the five kinds of error message differ from one another |
| Handler.EmptyBodyExample | app.py:105-106 | the body `{}` gets 400 "URL is required" |
| Handler.OtherSiteExample | app.py:111-112 | `{"url": "https://example.com/not-tiktok"}` gets 400 "Invalid TikTok URL" |
| Handler.VtShortLinkExample | app.py:44-46 | `{"url": "https://vt.tiktok.com/ZSDGDKF3r/"}` gets 400 "Invalid TikTok URL" whatever the lookup returns |
| Handler.NotFoundExample | app.py:52-53 | a profile URL whose lookup returns `{}` gets 400 "Video not found or private", with no `success` key |

## Left out

- The TikTokApi client (`api.video(id=...).info()`) is a foreign library that makes network calls. Its outcome is the `Fetch` input: the metadata for an ID, or the exception it raises.
- asyncio event-loop creation and teardown is concurrency plumbing around one blocking call.
- Flask routing, `jsonify` serialisation and logging are framework glue. The reply is modelled as a status code and a body value.
- Two cases of `request.get_json()` are not modelled: a request whose body cannot be decoded, and one whose content type is not JSON. The model starts from the decoded body value.
- The `/health` and `/` endpoints return constant JSON and contain no logic.
- Port and debug configuration come from the environment and are not modelled.
- Handler.Message: the text of `str(e)` belongs to the library or runtime that raised. It is a parameter `explain`, so messages are stated only up to that text.
- Python's full regular-expression engine is not modelled. Only the five ID patterns and the hashtag pattern are, each as a hand-written matcher.
- Text.IsWordChar: `\w` and `\d` are taken as ASCII (letters, digits, `_`; `0`-`9`). Python's Unicode classes are wider. The CJK range U+4E00 to U+9FFF is modelled exactly.
- JSON floating-point numbers are not part of `Value`, and neither is their truth value.
- `test_api.py` is a manual client script that posts over the network and only prints. Its URL appears as an example instead.
- Only the client-library lookup in `app.py` is modelled; no other way of obtaining the metadata is.
