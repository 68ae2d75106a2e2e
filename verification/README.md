# Invidious API client — a Dafny model

This project models the core of `python-invidious-api-client`, a thin Python
client for the Invidious API:

- **The JSON view layer.** Videos, comment pages, comments and
  instance-directory entries each wrap a decoded JSON value. Their accessors
  read fields of that value. Each accessor behaves differently when a key is
  absent:
  - most scalar fields give `None`;
  - `reply_count` defaults to 0;
  - `stats` is `None` only when an `error` is present;
  - `monitor` is `None` when its key is missing;
  - the list accessors raise instead of giving an empty list.
- **Instance selection** (`choose_instance`): a first-match walk over the
  health-sorted directory. It uses a liveness probe, then an onion filter,
  then a country test.
- **Request assembly** in `InvidiousClient`:
  - the slash-stripped instance URL;
  - the merge of the client's additional parameters into every request;
  - the API URL;
  - the resolution of a video argument to its id.
- **Comment pagination** (`yield_all_comments`): follows `continuation`
  cursors from page to page.

The network is replaced by oracles. Module `Http` defines two of them:
- a `Server` answers a `Request` (URL plus query parameters) with a decoded
  JSON body or a fault;
- a `Head` answers a URL with an HTTP status code or a fault.

Python exceptions are a `Fault` inside a `Result`. A Python `None` is either
a `Json.Null` or an `Option.None`: for a field read, `None` covers both
"missing" and "bound to null", as in Python.

Modules, one per file:
- `Wrappers`: `Option` and `Result`.
- `JsonValues`: the JSON value, the Python operations the views use
  (`dict.get` with and without a default, iteration, subscription,
  truthiness, formatting), and the generic field and list reads.
- `Text`: `str.strip('/')` and `str.lower()`.
- `Http`: requests and the two oracles.
- `Videos`, `Comments`, `Instances`: the views of
  `invidious_api_client/models/videos.py`, `comments.py` and `instances.py`.
- `Client`: `InvidiousClient` in `invidious_api_client/client.py`.
- `Selection`: `choose_instance`, as written and as intended.
- `Pagination`: `yield_all_comments`, as written and as intended.

## Where the code and its documentation differ

The model follows the code in each case below.
- **Probe transport failure.** The `choose_instance` docstring
  (invidious_api_client/models/instances.py:392) and the client's
  (invidious_api_client/client.py:32-33) describe the probe as finding an
  accessible instance; neither says what an unreachable one does. In the
  code, the exception from `requests.head` propagates out of
  `choose_instance` instead of skipping the candidate. See
  `Selection.ProbeStep` and `Selection.ScanFindsFirstEligible`.
- **Empty cursor.** Neither the `continuation` accessor
  (invidious_api_client/models/comments.py:15-20) nor `yield_all_comments`
  says what an empty cursor means. The model reads the code literally: it
  only tests `is not None`, so an empty-string cursor is yielded and
  followed. See `Pagination.EmptyCursorContinues`.
- **Country matching.** The docstring's examples of preferred codes are
  upper case (`['NL', 'DE']`, `['US']`, at
  invidious_api_client/models/instances.py:391), which implies a match that
  ignores case. The code lower-cases the region but not the preferred codes,
  so those examples never match. See `Selection.UpperCaseCodeNeverMatches`.
- **Final page.** The documentation promises "all comments". The loop does not
  yield the last page (see Findings).

## Model

| member | source | states |
|---|---|---|
| JsonValues.Lookup | invidious_api_client/models/videos.py:18 | dict lookup: nothing exactly when the key is absent; otherwise the value of an entry with that key, and no earlier entry has it |
| JsonValues.Get | invidious_api_client/models/instances.py:314 | `d.get(key)`: the bound value when the key is present; `None` when it is missing; an `AttributeError` exactly when `d` is not a dict |
| JsonValues.GetOr | invidious_api_client/models/instances.py:176 | `d.get(key, default)`: the default only for a missing key, not for a key bound to null; `AttributeError` exactly on a non-dict |
| JsonValues.Field | invidious_api_client/models/videos.py:18 | a scalar accessor `self.data.get(key)` is absent exactly when the key is missing or null; otherwise it is the bound value; it raises only on a non-dict |
| JsonValues.NestedField | invidious_api_client/models/instances.py:39 | `data.get(outer, {}).get(inner)` is absent when `outer` is missing; otherwise it reads `inner` of the bound value |
| JsonValues.ListField | invidious_api_client/models/videos.py:108 | `[wrap(x) for x in data.get(key)]`: one wrapped view per item, in order; a missing key raises `TypeError` (iterating `None`) rather than giving an empty list |
| JsonValues.Iterate | invidious_api_client/models/instances.py:362 | Python `for x in v`: a list yields its items, a string its one-character strings, a dict its keys, each in order and with the same length; `None`, booleans and numbers raise `TypeError` |
| JsonValues.Index | invidious_api_client/models/instances.py:148 | `v[i]`: the element of a long enough list; `IndexError` past the end; `KeyError` on a dict; `TypeError` on a scalar |
| JsonValues.Truthy | invidious_api_client/models/comments.py:238 | Python truthiness, the test `if self.replies_data`; related to iteration by `JsonValues.TruthyContainer` |
| JsonValues.TruthyContainer | invidious_api_client/models/comments.py:238 | a list, string or dict is true exactly when iterating it yields something |
| JsonValues.Render | invidious_api_client/models/videos.py:45 | f-string formatting: a string as itself, `None` as the text `None`, a boolean as `True` or `False`, an integer in decimal (a minus sign exactly for a negative one, then digits); fails only for lists and dicts |
| Text.StripSlashes | invidious_api_client/client.py:65 | `strip('/')`: the result is the input with some all-slash prefix and all-slash suffix removed; neither end of the result is a slash; an input with no edge slash is unchanged |
| Text.StripIdempotent | invidious_api_client/client.py:65 | stripping twice is the same as stripping once |
| Text.Lower | invidious_api_client/models/instances.py:402 | `lower()` keeps the length and lower-cases each ASCII letter in place |
| Videos.VideoType | invidious_api_client/models/videos.py:18 | `type` is absent exactly when the key is missing or null |
| Videos.Title | invidious_api_client/models/videos.py:27 | `title` is absent exactly when the key is missing or null |
| Videos.VideoId | invidious_api_client/models/videos.py:36 | `video_id` is absent exactly when the key is missing or null |
| Videos.Description | invidious_api_client/models/videos.py:184 | `description` is absent exactly when the key is missing or null |
| Videos.DescriptionHtml | invidious_api_client/models/videos.py:193 | `description_html` is absent exactly when the key is missing or null |
| Videos.Published | invidious_api_client/models/videos.py:202 | `published`: the date as seconds since the epoch; a missing, null or non-numeric value raises `TypeError`, and a non-dict raises `AttributeError` |
| Videos.PublishedText | invidious_api_client/models/videos.py:211 | `published_text` is absent exactly when the key is missing or null |
| Videos.YoutubeUrl | invidious_api_client/models/videos.py:45 | `youtube_url` always starts with the watch prefix; a missing id gives the prefix followed by `None`; a string id always succeeds |
| Videos.YoutubeUrlRoundTrip | invidious_api_client/models/videos.py:45 | for a string id, `youtube_url` is the prefix followed by the id, and the id is read back from the URL after the prefix |
| Videos.VideoThumbnails | invidious_api_client/models/videos.py:108 | `video_thumbnails`: one view per raw element, in order; a missing key raises |
| Videos.Storyboards | invidious_api_client/models/videos.py:174 | `storyboards`: one view per raw element, in order; a missing key raises |
| Videos.ThumbnailsKeepOrder | invidious_api_client/models/videos.py:108 | a raw array of thumbnails gives a list of the same length, and view k wraps raw element k |
| Videos.StoryboardsKeepOrder | invidious_api_client/models/videos.py:174 | a raw array of storyboards gives a list of the same length, and view k wraps raw element k |
| Videos.MissingListsRaise | invidious_api_client/models/videos.py:103-174 | a video without `videoThumbnails` and `storyboards` makes both list accessors raise `TypeError` |
| Videos.ThumbnailQuality | invidious_api_client/models/videos.py:71 | thumbnail `quality` is absent exactly when the key is missing or null |
| Videos.ThumbnailUrl | invidious_api_client/models/videos.py:80 | thumbnail `url` is absent exactly when the key is missing or null |
| Videos.ThumbnailWidth | invidious_api_client/models/videos.py:89 | thumbnail `width` is absent exactly when the key is missing or null |
| Videos.ThumbnailHeight | invidious_api_client/models/videos.py:98 | thumbnail `height` is absent exactly when the key is missing or null |
| Videos.StoryboardUrl | invidious_api_client/models/videos.py:134 | storyboard `url` is absent exactly when the key is missing or null |
| Videos.StoryboardTemplateUrl | invidious_api_client/models/videos.py:143 | storyboard `template_url` is absent exactly when the key is missing or null |
| Videos.StoryboardWidth | invidious_api_client/models/videos.py:152 | storyboard `width` is absent exactly when the key is missing or null |
| Videos.StoryboardHeight | invidious_api_client/models/videos.py:161 | storyboard `height` is absent exactly when the key is missing or null |
| Comments.Continuation | invidious_api_client/models/comments.py:20 | `continuation` is absent exactly when the key is missing or null |
| Comments.CommentCount | invidious_api_client/models/comments.py:29 | `comment_count` is absent exactly when the key is missing or null |
| Comments.PageVideoId | invidious_api_client/models/comments.py:38 | the page's `video_id` is absent exactly when the key is missing or null |
| Comments.CommentList | invidious_api_client/models/comments.py:259 | `comments`: one `Comment` per raw element, in order; a page without the key raises |
| Comments.IterComments | invidious_api_client/models/comments.py:262-268 | iterating a page visits one `Comment` per raw element, in order, exactly the `comments` list |
| Comments.Author | invidious_api_client/models/comments.py:48 | `author` is absent exactly when the key is missing or null |
| Comments.AuthorThumbnails | invidious_api_client/models/comments.py:91 | `author_thumbnails`: one view per raw element, in order; a missing key raises |
| Comments.AuthorId | invidious_api_client/models/comments.py:101 | `author_id` is absent exactly when the key is missing or null |
| Comments.AuthorUrl | invidious_api_client/models/comments.py:110 | `author_url` is absent exactly when the key is missing or null |
| Comments.IsEdited | invidious_api_client/models/comments.py:119 | `is_edited` is absent exactly when the key is missing or null |
| Comments.Content | invidious_api_client/models/comments.py:128 | `content` is absent exactly when the key is missing or null |
| Comments.ContentHtml | invidious_api_client/models/comments.py:137 | `content_html` is absent exactly when the key is missing or null |
| Comments.CommentPublished | invidious_api_client/models/comments.py:146 | `published`: the date as seconds since the epoch; a missing, null or non-numeric value raises `TypeError`, and a non-dict raises `AttributeError` |
| Comments.CommentPublishedText | invidious_api_client/models/comments.py:158 | `published_text` is absent exactly when the key is missing or null |
| Comments.LikeCount | invidious_api_client/models/comments.py:168 | `like_count` is absent exactly when the key is missing or null |
| Comments.CommentId | invidious_api_client/models/comments.py:177 | `comment_id` is absent exactly when the key is missing or null |
| Comments.AuthorIsChannelOwner | invidious_api_client/models/comments.py:186 | `author_is_channel_owner` is absent exactly when the key is missing or null |
| Comments.CreatorHeartOf | invidious_api_client/models/comments.py:220 | `creator_heart` always builds a view: over the bound value, or over null when the key is missing; it fails only on a non-dict comment |
| Comments.AbsentHeartFieldsRaise | invidious_api_client/models/comments.py:201-220 | for a comment without `creatorHeart`, reading the heart's `creator_name` or `creator_thumbnail` raises `AttributeError` |
| Comments.CreatorThumbnail | invidious_api_client/models/comments.py:201 | `creator_thumbnail` is absent exactly when the key is missing or null |
| Comments.CreatorName | invidious_api_client/models/comments.py:210 | `creator_name` is absent exactly when the key is missing or null |
| Comments.RepliesData | invidious_api_client/models/comments.py:229 | `replies_data`: the bound `replies` value, null when missing |
| Comments.ReplyCount | invidious_api_client/models/comments.py:238 | `reply_count` is 0 when `replies` is missing or falsy; otherwise it reads `replyCount` of it; it raises exactly on a non-dict comment or on truthy non-dict replies |
| Comments.ReplyContinuation | invidious_api_client/models/comments.py:249 | `reply_continuation` is absent when `replies` is missing or falsy; otherwise it reads `replyContinuation`; it raises in the same cases as `reply_count` |
| Comments.NoRepliesDefaults | invidious_api_client/models/comments.py:229-249 | a comment whose `replies` is missing, null or empty has 0 replies and no reply cursor, without raising |
| Comments.AuthorThumbnailUrl | invidious_api_client/models/comments.py:63 | author-thumbnail `url` is absent exactly when the key is missing or null |
| Comments.AuthorThumbnailWidth | invidious_api_client/models/comments.py:72 | author-thumbnail `width` is absent exactly when the key is missing or null |
| Comments.AuthorThumbnailHeight | invidious_api_client/models/comments.py:81 | author-thumbnail `height` is absent exactly when the key is missing or null |
| Instances.Attributes | invidious_api_client/models/instances.py:148 | `json` is the second element of a well-formed entry; it succeeds exactly on lists and strings of length at least 2; a dict entry raises `KeyError` |
| Instances.Host | invidious_api_client/models/instances.py:139 | `host` as written raises `KeyError` on every well-formed entry, and fails wherever `json` fails |
| Instances.HostName | invidious_api_client/models/instances.py:139 | `host` as intended: the entry's first element, the host name of a well-formed entry |
| Instances.HostDefect | invidious_api_client/models/instances.py:139-148 | on a concrete directory entry, `host` as written raises while the intended reading gives the host name |
| Instances.Flag | invidious_api_client/models/instances.py:157 | `flag` raises what `json` raises; otherwise it is absent exactly when the attribute is missing or null |
| Instances.Region | invidious_api_client/models/instances.py:166 | `region` raises what `json` raises; otherwise it is absent exactly when the attribute is missing or null |
| Instances.InstanceType | invidious_api_client/models/instances.py:191 | `type` raises what `json` raises; otherwise it is absent exactly when the attribute is missing or null |
| Instances.Uri | invidious_api_client/models/instances.py:200 | `uri` raises what `json` raises; otherwise it is absent exactly when the attribute is missing or null |
| Instances.Stats | invidious_api_client/models/instances.py:176-182 | for any entry whose attributes (`json`) are a dict: `stats` is `None` exactly when the stats object has a non-null `error`; missing stats wrap an empty object; non-dict stats raise; an entry whose `json` fails raises that error, and non-dict attributes raise `AttributeError` |
| Instances.MonitorOf | invidious_api_client/models/instances.py:333-338 | for any entry whose attributes are a dict: `monitor` is `None` exactly when the key is missing or null; otherwise it is a view over the bound value, unchanged; otherwise it raises what `json` raises, or `AttributeError` on non-dict attributes |
| Instances.StatsVersion | invidious_api_client/models/instances.py:30 | stats `version` is absent exactly when the key is missing or null |
| Instances.SoftwareName | invidious_api_client/models/instances.py:39 | `software_name` is absent when `software` is missing; otherwise it reads `name` of it |
| Instances.SoftwareVersion | invidious_api_client/models/instances.py:48 | `software_version` is absent when `software` is missing; otherwise it reads `version` of it |
| Instances.SoftwareBranch | invidious_api_client/models/instances.py:57 | `software_branch` is absent when `software` is missing; otherwise it reads `branch` of it |
| Instances.OpenRegistrations | invidious_api_client/models/instances.py:66 | `open_registrations` is absent exactly when the key is missing or null |
| Instances.Usage | invidious_api_client/models/instances.py:75 | `usage` is the bound object, or an empty object when it is missing; it fails exactly on non-dict stats |
| Instances.TotalUsers | invidious_api_client/models/instances.py:84 | `total_users` reads `users.total` of `usage`, absent when `users` is missing |
| Instances.UsersActiveHalfYear | invidious_api_client/models/instances.py:93 | `users_active_half_year` reads `users.activeHalfyear` of `usage`, absent when `users` is missing |
| Instances.UsersActiveMonth | invidious_api_client/models/instances.py:102 | `users_active_month` reads `users.activeMonth` of `usage`, absent when `users` is missing |
| Instances.MissingStatsGroupsAreAbsent | invidious_api_client/models/instances.py:39-102 | stats without `usage` (or without `users`) and without `software`: every user counter and software field is absent, and none raises |
| Instances.Metadata | invidious_api_client/models/instances.py:111 | `metadata` is the bound object, or an empty object when it is missing; it fails exactly on non-dict stats |
| Instances.UpdatedAt | invidious_api_client/models/instances.py:120 | `updated_at`: `updatedAt` of `metadata` as seconds since the epoch; a missing, null or non-numeric value raises `TypeError`, and a non-dict raises `AttributeError`; a missing `metadata` reads as `{}`, so it raises `TypeError` too |
| Instances.LastChannelRefreshedAt | invidious_api_client/models/instances.py:129 | `last_channel_refreshed_at`: `lastChannelRefreshedAt` of `metadata`, read as `updated_at` reads `updatedAt` |
| Instances.MonitorId | invidious_api_client/models/instances.py:216 | `monitor_id` is absent exactly when the key is missing or null |
| Instances.CreatedAt | invidious_api_client/models/instances.py:225 | monitor `created_at`: the date as seconds since the epoch; a missing, null or non-numeric value raises `TypeError`, and a non-dict raises `AttributeError` |
| Instances.StatusClass | invidious_api_client/models/instances.py:234 | `status_class` is absent exactly when the key is missing or null |
| Instances.MonitorName | invidious_api_client/models/instances.py:243 | monitor `name` is absent exactly when the key is missing or null |
| Instances.MonitorUrl | invidious_api_client/models/instances.py:252 | monitor `url` is absent exactly when the key is missing or null |
| Instances.MonitorType | invidious_api_client/models/instances.py:261 | monitor `type` is absent exactly when the key is missing or null |
| Instances.DailyRatios | invidious_api_client/models/instances.py:305 | `daily_ratios`: one ratio view per `dailyRatios` item, in order; an empty list when the key is missing; a non-iterable value raises the `TypeError` of iterating it |
| Instances.TwoMonthRatio | invidious_api_client/models/instances.py:314 | `two_month_ratio` is a view over `90dRatio`, over null when it is missing |
| Instances.MonthRatio | invidious_api_client/models/instances.py:323 | `month_ratio` is a view over `30dRatio`, over null when it is missing |
| Instances.RatioValue | invidious_api_client/models/instances.py:281-286 | `ratio` is absent exactly when `ratio` is missing or null; otherwise it is the raw value handed to `float` |
| Instances.RatioLabel | invidious_api_client/models/instances.py:295 | `label` is absent exactly when the key is missing or null |
| Instances.InstanceViews | invidious_api_client/models/instances.py:362 | `instances`: one `Instance` per directory element, same length and order; it fails exactly when the directory is not iterable |
| Instances.IterInstances | invidious_api_client/models/instances.py:348-353 | iterating the list visits one view per directory element, in order, the same list as `instances` |
| Client.InstanceUrl | invidious_api_client/client.py:64-65 | the kept URL is the stripped string argument, or the stripped `uri` of an instance; a missing or non-string `uri`, or a `None` argument, raises |
| Client.NewClient | invidious_api_client/client.py:64-74 | the constructor as written: a string argument always raises on `instance.type`; a constructed client keeps the stripped URL, sets the Tor proxies on its session exactly for an onion instance, and keeps the additional parameters |
| Client.NewClientFixed | invidious_api_client/client.py:64-74 | the constructor as intended: a string gives a client with the stripped string and no Tor routing; an instance is handled as written |
| Client.UrlClientDefect | invidious_api_client/client.py:64-71 | on `"https://example.org/"`, the constructor as written raises, and the intended one keeps `"https://example.org"` |
| Client.InstanceUrlStable | invidious_api_client/client.py:65 | the URL a client keeps is a fixed point of stripping |
| Client.MergeParams | invidious_api_client/client.py:88-91 | with non-empty additional parameters, the request keys are the caller's keys plus the additional keys, and an additional value wins on a collision; otherwise the caller's `params` pass unchanged |
| Client.ApiUrl | invidious_api_client/client.py:93 | with `append_to_api`, the URL is the instance URL, then `/api/v1/`, then the URI, piece by piece; otherwise it is the URI verbatim |
| Client.PrepareRequest | invidious_api_client/client.py:88-93 | the request `_get_json` sends: under the API base (instance URL, `/api/v1/`, URI) or the URI verbatim; without additional parameters the caller's pass unchanged; with them every additional key carries its additional value, every caller key is present and keeps its value unless an additional parameter binds it, and no other key appears |
| Client.ResolveVideoId | invidious_api_client/client.py:137 | a string argument is its own id; a video view gives its `video_id` (`None` formatted as `None`) |
| Client.CommentsRequest | invidious_api_client/client.py:137 | `get_comments` requests `instance_url/api/v1/comments/` followed by the resolved id, with the caller's parameters merged with the additional ones; for an id string the URL ends in that string; an id the model cannot format gives the `Unmodelled` fault, where the source sends the request with the object's repr |
| Client.ViewAndIdAgree | invidious_api_client/client.py:137 | a video view and its id string request the same comments URL, `instance_url/api/v1/comments/id` |
| Client.GetComments | invidious_api_client/client.py:93-99 | an id the model cannot format gives the `Unmodelled` fault, where the source sends the request with the object's repr; otherwise the server is asked for `instance_url/api/v1/comments/id` with the merged parameters, and its answer is wrapped as a page or its error propagates |
| Client.GetVideo | invidious_api_client/client.py:122 | the server is asked for `instance_url/api/v1/videos/id` with the merged parameters; its answer is wrapped as a video view, or its error propagates |
| Client.DislikeRequest | invidious_api_client/client.py:184 | the dislike request goes to the foreign endpoint with the id appended, not under the instance, and still with the additional parameters |
| Selection.ProbeUrl | invidious_api_client/models/instances.py:396 | the probe URL is the stripped `uri` followed by the fixed video path; a missing or non-string `uri` raises |
| Selection.ProbeStep | invidious_api_client/models/instances.py:396 | without `only_accessible`, nothing is probed and the candidate passes; with it, the candidate passes exactly when the HEAD answers 200, and a HEAD or URL error propagates |
| Selection.IsOnion | invidious_api_client/models/instances.py:399 | with `no_onions`, a candidate is an onion exactly when its type is `"onion"`; an error reading the type propagates |
| Selection.RegionPreferred | invidious_api_client/models/instances.py:402 | the country test as written: false without a preference or region; otherwise the lower-cased region is among the codes as given |
| Selection.Survives | invidious_api_client/models/instances.py:396-400 | a candidate gets past the probe and the onion filter exactly when it is eligible |
| Selection.Check | invidious_api_client/models/instances.py:396-405 | the loop body's verdict is the survival verdict whenever it does not raise; the country test can only add a raise, never change the verdict |
| Selection.ScanWith | invidious_api_client/models/instances.py:395-405 | first match: every candidate before the stopping one is skipped; a returned candidate is the one the verdict keeps; `None` means every candidate was skipped; a raise is the stopping candidate's error |
| Selection.ScanProbes | invidious_api_client/models/instances.py:395-397 | the walk's HEAD requests are the probes of the examined candidates concatenated in directory order; in particular none without `only_accessible`, and one per examined candidate when every probe answers |
| Selection.Scan | invidious_api_client/models/instances.py:395-405 | the loop of `choose_instance`: every candidate before the stopping one was skipped by the loop body; a returned candidate is the stopping one, which the body keeps; `None` means the body skipped every candidate; a raise is the stopping candidate's error |
| Selection.ScanAgreesOnSuccess | invidious_api_client/models/instances.py:395-405 | two loop bodies that agree wherever the first does not raise give the same walk, if the first walk does not raise |
| Selection.ScanPointwise | invidious_api_client/models/instances.py:395-405 | two loop bodies that agree on every candidate give the same walk |
| Selection.ScanFindsFirstEligible | invidious_api_client/models/instances.py:395-405 | `choose_instance` returns the first eligible candidate in directory order, and `None` only when none is eligible; a raise stops at a candidate whose checks can raise |
| Selection.ProbesPrecedeOnionFilter | invidious_api_client/models/instances.py:396-400 | with `only_accessible`, a walk that does not raise has probed every examined candidate in order, the returned one and the onion instances included; without it, nothing is probed |
| Selection.ProbedOnce | invidious_api_client/models/instances.py:396 | a probing loop body that does not raise has sent exactly one HEAD, to the candidate's probe URL |
| Selection.Directory | invidious_api_client/models/instances.py:366-376 | the directory `choose_instance` walks: the answer to the public directory request sorted by health, one view per element in order; a failing request propagates and a non-iterable body raises `TypeError` |
| Selection.ChooseInstance | invidious_api_client/models/instances.py:395-405 | a failing directory propagates before any probe; otherwise the result is the first eligible candidate in directory order with none eligible before it, `None` only when no candidate is eligible, and a raise only at a candidate whose checks can raise |
| Selection.ChoosePreferenceIgnored | invidious_api_client/models/instances.py:402-405 | `choose_instance` with preferred countries, when it does not raise, returns the same candidate after the same probes as without them |
| Selection.ReadableWalkSucceeds | invidious_api_client/models/instances.py:395-405 | when no check can raise, the walk does not raise, and it returns `None` exactly when no candidate is eligible |
| Selection.PreferenceIgnored | invidious_api_client/models/instances.py:402-405 | a walk with a country preference that does not raise returns the same candidate, after the same probes, as the walk without it |
| Selection.PreferenceIrrelevant | invidious_api_client/models/instances.py:402-405 | when every region is a string or absent, the preference has no observable effect at all |
| Selection.PreferenceScenario | invidious_api_client/models/instances.py:395-405 | the two-entry directory with a US entry then an NL entry, preferring `nl`: the walk as written returns the US entry, whose stats are `None` because of `error` |
| Selection.Survivors | invidious_api_client/models/instances.py:395-400 | the candidates that survive the probe and the onion filter are exactly the eligible ones, in directory order |
| Selection.RegionMatches | invidious_api_client/models/instances.py:402 | the corrected country test: true exactly when the region equals one of the codes ignoring case; it raises only on an unreadable or non-string region |
| Selection.FirstMatchFrom | invidious_api_client/models/instances.py:402-403 | the position of the first candidate in a preferred country, and no position only when there is none |
| Selection.ChoosePreferred | invidious_api_client/models/instances.py:381-405 | corrected selection: `None` exactly when nothing is eligible; otherwise the first eligible candidate in a preferred country when any eligible one is, and the first eligible one otherwise |
| Selection.PreferredIndex | invidious_api_client/models/instances.py:402-405 | the corrected pick among survivors: no earlier survivor is in a preferred country, and the picked one is, unless none is and it is the first |
| Selection.NoPreferenceAgrees | invidious_api_client/models/instances.py:395-405 | without a preference, the corrected selection returns what `choose_instance` as written returns |
| Selection.PreferredScenario | invidious_api_client/models/instances.py:402-403 | on the two-entry directory, the corrected selection returns the NL entry |
| Selection.UpperCaseCodeNeverMatches | invidious_api_client/models/instances.py:402 | for any instance, a preference whose every code holds an upper-case letter never matches as written |
| Selection.UpperCaseScenario | invidious_api_client/models/instances.py:391-402 | the region `NL` with the preference `('NL',)`: the test as written is false, and the corrected test is true |
| Pagination.CursorParams | invidious_api_client/client.py:162 | the first fetch passes no parameters; a later one passes exactly `{'continuation': cursor}` |
| Pagination.FetchPage | invidious_api_client/client.py:162 | one fetch `get_comments(video, params=...)`: the comments request with the cursor's parameters merged with the additional ones; the server's answer as a page, or its error; an id the model cannot format gives the `Unmodelled` fault, where the source sends the request with the object's repr |
| Pagination.PageFetcher | invidious_api_client/client.py:157-162 | the loop's view of a fetch for a given cursor: the fetch classified as raise, last page or page with a cursor; its behaviour is stated by `Pagination.CursorThreading` |
| Pagination.FetchedFrom | invidious_api_client/client.py:157-162 | reference for the loop: fetch k + 1 passes exactly the cursor of the page fetch k returned, and is issued only when that page has one; its properties are stated by `Pagination.IssuedExactlyAfterCursors` and `Pagination.WalkFollowsCursors` |
| Pagination.IssuedExactlyAfterCursors | invidious_api_client/client.py:157-162 | the first fetch is always issued, and fetch k is issued exactly when every earlier fetch returned a page with a cursor |
| Pagination.YieldAllComments | invidious_api_client/client.py:157-162 | `yield_all_comments` as written: at most one page per unit of fuel; an error of the first fetch propagates with nothing yielded; a first page without a cursor ends the walk with nothing yielded |
| Pagination.Classify | invidious_api_client/client.py:157-162 | a fetch either raises, or returns a page with no cursor (the loop ends), or returns a page with a cursor to follow |
| Pagination.WalkFrom | invidious_api_client/client.py:157-162 | at most one page is yielded per unit of fuel, and fuel runs out exactly when that many pages were yielded |
| Pagination.WalkFollowsCursors | invidious_api_client/client.py:157-162 | page k yielded is the page of fetch k, which carries a cursor; an exhausted walk ends on a page without a cursor that is not yielded; a raising walk ends on the fetch that raised |
| Pagination.YieldedExactlyWhenContinuable | invidious_api_client/client.py:157-162 | page k is yielded exactly when fetches 0 through k all returned a page with a cursor |
| Pagination.CursorThreading | invidious_api_client/client.py:157-162 | the first fetch carries no cursor, and fetch k + 1 carries exactly the `continuation` of yielded page k |
| Pagination.CursorInRequest | invidious_api_client/client.py:162 | the fetch with a cursor sends it as `continuation`, unless the client's additional parameters bind `continuation`, in which case theirs wins |
| Pagination.EmptyCursorContinues | invidious_api_client/client.py:159 | an empty-string cursor is not `None`: its page is yielded and fetched again with the empty cursor |
| Pagination.WalkAllFrom | invidious_api_client/client.py:140-142 | the walk as documented: at most one page per unit of fuel, and an exhausted walk yields at least the final page |
| Pagination.YieldAllCommentsFixed | invidious_api_client/client.py:140-142 | `yield_all_comments` yielding every page: an exhausted walk yields at least one page, and a first page without a cursor is yielded before the walk ends |
| Pagination.FixedAddsFinalPage | invidious_api_client/client.py:157-162 | the corrected walk yields the pages of the walk as written, in order, plus the final page (the one returned by the last fetch) when the server stops; otherwise the two agree |
| Pagination.FinalPageHasNoCursor | invidious_api_client/client.py:159 | the page the corrected walk adds has no `continuation` |
| Pagination.TwoPageScenario | invidious_api_client/client.py:157-162 | with a two-page server, the walk as written yields only the first page; the corrected walk yields both |
| Pagination.SinglePageLost | invidious_api_client/client.py:157-162 | a video whose comments fit on one page yields nothing as written, and that page when corrected |

## Left out

- Transport: the HTTP session, TLS, proxies, `raise_for_status` and JSON decoding are folded into the `Server` and `Head` oracles. Each answers with a decoded value or a `RequestFailed` fault.
- Keyword arguments of `_get_json`, `get_video`, `get_comments` and `get_instances` other than `params` are not modelled: they do not reach the modelled logic.
- The `return_class=None` branch of `_get_json` (invidious_api_client/client.py:102) is not modelled: no caller uses it.
- The `RYDData` view returned by `get_dislike_count` is not part of this model; only the request is.
- Loading the package: invidious_api_client/client.py:6 imports `RYDData`, which invidious_api_client/models/__init__.py does not define, and invidious_api_client/__init__.py:3 imports `InvidiousAPIClient`, while client.py defines `InvidiousClient`. As shipped, both imports raise `ImportError`, so the package cannot be imported at all; every modelled behaviour assumes the module loads.
- The `bytes` form of the `instance` argument is not modelled; strings and instance views are.
- The default `instance=choose_instance()` is evaluated once, at import time. The model takes the instance as an explicit argument.
- Memoisation of `choose_instance` by `lru_cache(maxsize=3)` is not modelled. For hashable arguments it only changes how often the network is used, not the result. The model's `seq<string>` preference stands for a hashable tuple: a list argument raises `TypeError` (unhashable type) inside `lru_cache` before the loop runs, which the model does not describe.
- Client.NewClient: keeps only a flag for "the constructor set the local Tor proxies on its session", not the proxy URLs. The default `session_object` is one `Session()` created at definition time and shared by every client built without one, so proxies set for an onion instance stay on that shared session and route later clients through Tor too; the model does not describe this aliasing.
- Instances.RatioValue: returns the raw value that `float` parses, not the float. Floating point is out of scope, and `float` on a non-numeric text is not modelled.
- Instances.UpdatedAt: keeps the date as its seconds since the epoch instead of a local `datetime`. Float timestamps, local time and the `OverflowError`/`OSError` of out-of-range values are not modelled.
- Instances.LastChannelRefreshedAt: the date as epoch seconds, for the same reason.
- Instances.CreatedAt: the date as epoch seconds, for the same reason.
- Videos.Published: the date as epoch seconds, for the same reason.
- Comments.CommentPublished: the date as epoch seconds, for the same reason.
- JsonValues.Lookup: an `Obj` may repeat a key and the lookup takes the first entry, while Python's JSON decoder keeps the last. The two agree on decoded dicts, whose keys are distinct; repeated keys in the raw text are not modelled.
- JsonValues.Render: formatting a list or dict gives the `Unmodelled` fault instead of its Python repr.
- Client.ResolveVideoId: for a video view whose data has no `.get`, Python formats the view object's repr. The model gives the `Unmodelled` fault instead.
- Client.CommentsRequest: for an id the model cannot format (a view whose data has no `.get`, or a list or dict `videoId`), the source sends the request with the object's repr; the model gives the `Unmodelled` fault instead of that request.
- Client.GetComments: the same stand-in; the source sends the request with the repr and returns the server's answer, the model gives `Unmodelled`.
- Pagination.FetchPage: the same stand-in for each fetch of the walk.
- Client.DislikeRequest: the same stand-in; the source appends the repr to the dislike endpoint.
- JSON numbers are integers only; fractional numbers do not occur in the modelled reads.
- Text.Lower: lower-cases ASCII letters only. Python's Unicode case mapping is out of scope.
- Pagination.WalkFrom: the generator is unbounded when the server keeps sending cursors. The model stops after `fuel` fetches and reports `OutOfFuel`; walks longer than the fuel are not described.
- Pagination.WalkAllFrom: bounded by fuel in the same way.
- Consumer-driven suspension of the generator (stopping between yields) is not modelled: a walk is the whole sequence up to its end.

## Findings

| source | as written | input that shows it | evidently intended | confidence | as-written member | corrected member |
|---|---|---|---|---|---|---|
| invidious_api_client/models/instances.py:139 | `host` subscripts the attributes object `self.json` with `0` | the directory entry `["a.example", {"type": "https"}]`: `host` raises `KeyError` | the entry's first element, `self.data[0]` | high, not executed | Instances.HostDefect | Instances.HostName |
| invidious_api_client/client.py:71 | the constructor reads `instance.type` on every argument, including a URL string | `InvidiousClient("https://example.org/")` raises `AttributeError` | read the type only from an instance view | high, not executed | Client.UrlClientDefect | Client.NewClientFixed |
| invidious_api_client/models/instances.py:402-405 | both branches of the country test return the current candidate | directory [US entry, NL entry], preference `("nl",)`, nothing probed: the US entry is returned | prefer a surviving candidate in a preferred country, else the first survivor | high, not executed | Selection.PreferenceScenario | Selection.PreferredScenario |
| invidious_api_client/models/instances.py:402 | only the region is lower-cased, not the preferred codes | preference `("NL",)` and region `"NL"`: no match | compare ignoring case on both sides | medium, not executed | Selection.UpperCaseScenario | Selection.RegionMatches |
| invidious_api_client/client.py:159-160 | the loop tests the cursor before yielding, so the final page (without a cursor) is fetched but never yielded | a two-page server: only the first page is yielded; a one-page video yields nothing | yield every page, the last included | high, not executed | Pagination.TwoPageScenario | Pagination.FixedAddsFinalPage |
