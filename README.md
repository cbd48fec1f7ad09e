# YouTube link collector: the retrieval engine, modelled in Dafny

YouTube-LinkCollector gathers the titles and watch URLs of a channel's videos, or of a global
search, from the YouTube Data API v3. It needs only a Data API key. This project models the
retrieval engine of `services/geminiService.ts` and proves properties of that model:

- **Channel resolution** (`getChannelId`). Only the first run of 24 identifier characters
  (`[A-Za-z0-9_-]`) in the query is looked at. When that run starts with `UC`, it is used as the
  channel id, with no request. Otherwise one channel search is sent, and its first item decides. An
  id glued to a preceding identifier character is therefore not picked up.
- **Strategy choice** (`fetchYouTubeVideos`). The uploads playlist is walked unless an order other
  than `date` or a duration other than `any` is asked for. In that case the channel-scoped search
  is walked instead.
- **The two token-driven paginators** (`internalPlaylistScrape`, `internalSearch`). Each keeps
  requesting pages while fewer records than the cap have been collected and the last page carried
  a truthy continuation token. The search clamps its cap to 5000. The result is cut to the cap.
- **Item normalisation.** Items without a video id are dropped. The other items become a title and
  a canonical watch URL.
- **Error translation** (`handleYouTubeApiError`). Markup is stripped from the API's message, with
  a context message as the fallback. The entry points then rethrow an `Error` with its own message
  and turn anything else into a generic message.
- **The entry-point guards.** An empty key fails before any request. A search for zero or fewer
  results returns nothing before any request.

## How the model is built

- **The remote side is a parameter.**
  - A one-shot call (channel search, channel details) gets a single `Response`.
  - The pages of a walk are a finite sequence of responses, answered in the order the requests
    are sent. A request past its end gets an empty last page with no token.
  - A `Response` is one of three things: a decoded page (`Delivered`), a non-ok response with its
    error body (`NotOk`), or a call that threw (`Rejected`).
  - What JavaScript throws is `Raised`: an `Error` with its message, or a non-`Error` value.
- **Requests are visible.** Every operation returns, beside its result, the requests it sent, so
  that "no request is sent" can be stated.
- **A request is structured.** It is modelled by its endpoint and its ordered list of query
  parameters (`Requests.Request`), not as URL text.
- **Paginators are imperative.** Both are `while` loops that reassign the accumulator and the
  cursor. Each is proved against specification functions:
  - `Pagination.FetchCount` says how many page requests are sent.
  - `Pagination.PlaylistLog` and `Pagination.SearchLog` give the requests themselves.
  - `Pagination.Outcome` gives the result.
  - The lemmas beside them state what the source promises about those functions.
- **The URL builders are imperative too.** `Requests.BuildSearchRequest` appends one parameter at
  a time, as the source's `url +=` chain does. It is proved equal to the declarative
  `Requests.SearchQuery`. `Pagination.BuildPlaylistRequest` does the same for the playlist page
  request.
- **Pure code becomes functions.** The pattern match, the strategy expression, the per-page
  `filter`/`map` and the markup stripping are functions.
- **The regular expression is modelled as the engine runs it.** `ChannelId.RegexSearch` finds the
  leftmost start and tries the optional group before skipping it. It is proved to find the first
  24-character window of identifier characters.

### Behaviour of the code worth knowing

- **A non-ok response whose body is not JSON** (`services/geminiService.ts:36-48`). Parsing it
  throws a `SyntaxError`, which is an `Error`. The catch of `handleYouTubeApiError` rethrows it, so
  the caller sees the parser's message and not the context message. `ApiErrors.ApiErrorMessage`
  models this: `Unparsable(ErrorRaised(e))` yields `e`.
- **An empty query** (`services/geminiService.ts:99-104`, `230-236`). Neither entry point checks the
  query text. An empty channel query is sent to the channel search as it is. An empty search text is
  left out of the search request, because `q` is only appended when truthy
  (`YouTubeService.GlobalSearchCarriesQuery`).
- **The per-page size of the search** (`services/geminiService.ts:181-186`). `internalSearch`
  computes `safeMaxResults` and does not use it. Every page request asks for 50 results, whatever
  remains (`Requests.SearchQueryLookup`).
- **A cap of zero or less on the channel path** (`services/geminiService.ts:104-117`, `134`). The
  channel is still resolved, and on the playlist path its details are still requested. The playlist
  walk then sends no page request and returns nothing (`Pagination.NonPositiveCapFetchesNothing`).

## Model

| member | source | states |
|---|---|---|
| ApiErrors.SkipTag | services/geminiService.ts:40 | consuming the `[^>]*>?` part of a tag never leaves more text than there was |
| ApiErrors.StripTags | services/geminiService.ts:40 | cleaning never makes the message longer |
| ApiErrors.StripTagsLeavesNoTag | services/geminiService.ts:40 | the cleaned message holds no '<' |
| ApiErrors.StripTagsKeepsPlainText | services/geminiService.ts:40 | a message without a '<' is left as it is |
| ApiErrors.StripTagsKeepsOnlyOriginal | services/geminiService.ts:40 | every character of the cleaned message was in the original: cleaning only removes |
| ApiErrors.StripTagsIdempotent | services/geminiService.ts:40 | cleaning a cleaned message changes nothing |
| ApiErrors.StripTagsKeepsPlainPrefix | services/geminiService.ts:40 | text before the first '<' is kept unchanged in front of the cleaned rest |
| ApiErrors.StripTagsRemovesClosedTag | services/geminiService.ts:40 | a closed tag `<...>` is removed together with its contents, and the text after it is cleaned in turn |
| ApiErrors.StripTagsDropsUnclosedTag | services/geminiService.ts:40 | an unclosed '<' removes everything from it to the end |
| ApiErrors.ApiErrorMessage | services/geminiService.ts:35-49 | a body with a truthy `error.message` gives that message with its markup removed; a body without one gives the context message; a parse failure that is an `Error` propagates its own message; any other parse failure gives the context message |
| ApiErrors.ContextOnlyWithoutMessage | services/geminiService.ts:36-48 | whenever the message is not the context message, it came from the body: a truthy parsed message, or an `Error` thrown by parsing |
| ApiErrors.CallError | services/geminiService.ts:142-145 | a non-ok response raises the `Error` whose message `handleYouTubeApiError` derives from its body and the context; a call that threw passes on exactly what it threw |
| ChannelId.UrlPrefixAt | services/geminiService.ts:53 | the optional URL group's alternatives `c/`, `channel/`, `user/` are tried in that order; when one matches at a position, the match is non-empty, fits in the query and ends in '/' |
| ChannelId.RegexSearch | services/geminiService.ts:53-54 | a capture the pattern finds is always a run of 24 identifier characters |
| ChannelId.FirstWindowIsFirst | services/geminiService.ts:53-54 | no run of 24 identifier characters starts before the one found, and none at all when none is found |
| ChannelId.RegexSearchIsFirstWindow | services/geminiService.ts:53-54 | the capture the pattern finds starts at the first position where 24 identifier characters follow, or there is none when no such position exists |
| ChannelId.ShortcutId | services/geminiService.ts:53-57 | the shortcut applies exactly when the first 24-character window of identifier characters starts with "UC", and then yields that window, which has the shape of a channel id |
| ChannelId.EmbeddedIdRecognised | services/geminiService.ts:53-57 | an identifier preceded by text that holds no window of its own and does not end in an identifier character is recognised, whatever follows it |
| ChannelId.BareIdRecognised | services/geminiService.ts:53-57 | a query that starts with a channel identifier resolves to it |
| ChannelId.ChannelUrlRecognised | services/geminiService.ts:53-57 | a `https://www.youtube.com/channel/<id>` URL resolves to its identifier |
| ChannelId.GluedIdNotRecognised | services/geminiService.ts:53-57 | an identifier right after an identifier character is not taken: the first run then starts one character earlier, and no later run is considered |
| VideoItems.WatchUrlRoundTrip | services/geminiService.ts:153 | the video id is recovered from the canonical watch URL built from it |
| VideoItems.WatchUrlInjective | services/geminiService.ts:153 | different video ids give different watch URLs |
| VideoItems.ToVideo | services/geminiService.ts:151-154 | the record keeps the item's title, and its url gives back the item's video id |
| VideoItems.Normalize | services/geminiService.ts:149-154 | a page yields at most as many records as it has items |
| VideoItems.NormalizeYieldsWatchRecords | services/geminiService.ts:151-154 | every record produced has as its url the watch URL of a non-empty video id |
| VideoItems.NormalizeAppend | services/geminiService.ts:149-156 | normalising concatenated pages is concatenating their normalisations |
| VideoItems.NormalizeMembers | services/geminiService.ts:149-154 | a record is in the result if and only if it is the mapping of an item that has a video id |
| VideoItems.NormalizeDropsItemWithoutId | services/geminiService.ts:150 | an item without a video id contributes nothing: removing it leaves the result unchanged |
| Requests.BuildSearchRequest | services/geminiService.ts:186-196 | the URL built by appending each optional parameter in turn is the declarative search request |
| Requests.SearchPrefixLookup | services/geminiService.ts:186-196 | after the k-th optional parameter is considered, exactly the parameters ranked before it can be found, each with its value |
| Requests.SearchQueryLookup | services/geminiService.ts:186-196 | each search parameter is sent if and only if it is present (`q`, `channelId`, `pageToken`: present and not empty), with its value; `maxResults` is always 50 |
| Requests.SearchQueryOrder | services/geminiService.ts:186-196 | the search parameters come in the fixed order part, type, maxResults, key, q, channelId, order, videoDuration, safeSearch, pageToken, each at most once |
| Requests.ChannelSearchRequest | services/geminiService.ts:59 | the channel search goes to the search endpoint with five parameters |
| Requests.ChannelSearchRequestParams | services/geminiService.ts:59 | the channel search sends part=snippet, the query text, type=channel, maxResults=1 and the key, and no channel id or page token |
| Requests.ChannelsRequest | services/geminiService.ts:72 | the channel-details request goes to the channels endpoint with three parameters |
| Requests.ChannelsRequestParams | services/geminiService.ts:72 | the channel-details request sends part=contentDetails, the channel id and the key, and no page token |
| Requests.PlaylistQueryParams | services/geminiService.ts:137-140 | a playlist page request names the playlist and the key, asks for 50 items, and carries the token if and only if it is truthy |
| Pagination.EffectiveCap | services/geminiService.ts:175 | the search cap is the requested count or 5000, whichever is smaller |
| Pagination.Slice0 | services/geminiService.ts:162 | for a non-negative end, `slice(0, end)` is the prefix of length min(end, length) |
| Pagination.BuildPlaylistRequest | services/geminiService.ts:137-140 | the playlist URL built by appending the token when it is truthy is the declarative playlist request |
| Pagination.InternalPlaylistScrape | services/geminiService.ts:129-163 | the loop sends exactly the page requests the fetch count fixes, each with the token of the page before it, and returns the outcome of that many responses |
| Pagination.InternalSearch | services/geminiService.ts:166-222 | the same for the search walk, with the cap clamped to 5000 and every request built by the search URL builder |
| Pagination.FetchCountUnique | services/geminiService.ts:134-160 | the responses and the cap determine the number of page requests |
| Pagination.NonPositiveCapFetchesNothing | services/geminiService.ts:134 | a cap of zero or less sends no page request and returns an empty list |
| Pagination.ResultIsCappedPrefix | services/geminiService.ts:156-162 | a successful walk returns a prefix of everything collected, exactly min(cap, collected) records long |
| Pagination.ShortResultMeansExhausted | services/geminiService.ts:156-162 | fewer records than the cap means the last response was a page without a truthy token and nothing was cut |
| Pagination.FailureEndsWalk | services/geminiService.ts:142-145 | a failed response is always the last one requested, and the walk fails with that response's error, discarding what it had collected |
| Pagination.EarlierResponsesDelivered | services/geminiService.ts:156-159 | every response before the last one was a page with a truthy token |
| Pagination.GatheredNormalizesItems | services/geminiService.ts:149-156 | the records collected are the normalised items of all pages received, in order |
| Pagination.SearchWithinCeiling | services/geminiService.ts:175-221 | the search never returns more than 5000 records, nor more than asked for |
| Pagination.PlaylistRequestsHitPlaylistItems | services/geminiService.ts:137 | every request of a playlist walk goes to the playlist-items endpoint |
| Pagination.SearchRequestsHitSearch | services/geminiService.ts:186 | every request of a search walk goes to the search endpoint |
| Pagination.PlaylistRequestsCarryTokens | services/geminiService.ts:137-140 | every playlist request names the playlist and the key and asks for 50 items; the first carries no token and each later one carries the truthy token of the page before it |
| Pagination.SearchRequestsCarryTokens | services/geminiService.ts:186-196 | every search request carries exactly the search's parameters, in order, and asks for 50 results; the first carries no token and each later one carries the truthy token of the page before it |
| YouTubeService.GetChannelId | services/geminiService.ts:52-69 | no request is sent exactly when the shortcut applies, and then its identifier is returned; otherwise one channel search is sent, and its failure, its empty answer (`Channel "<query>" not found.`) or its first item decides |
| YouTubeService.ChannelQueriesResolveLocally | services/geminiService.ts:53-57 | a bare identifier and a channel URL resolve to the identifier with no request |
| YouTubeService.GetUploadsPlaylistId | services/geminiService.ts:71-82 | one channel-details request is sent; the lookup succeeds if and only if the answer is a non-empty list, and then yields its first item; an empty answer gives "Could not retrieve channel details." |
| Types.WithChannel | services/geminiService.ts:113 | the channel-scoped parameters keep the order, duration and safe-search options and add the channel id, with no query text |
| Types.WithQuery | services/geminiService.ts:236 | the global-search parameters keep the order, duration and safe-search options and add the query text, with no channel id |
| YouTubeService.RequiresSearchApi | services/geminiService.ts:107-109 | the uploads playlist is used if and only if the order is absent or date and the duration is absent or any |
| YouTubeService.SafeSearchIrrelevantToStrategy | services/geminiService.ts:107-109 | the safe-search setting never changes the strategy |
| YouTubeService.Message | services/geminiService.ts:120-126 | an `Error` keeps its message; anything else becomes the generic message |
| YouTubeService.Reported | services/geminiService.ts:237-243 | success passes through unchanged; a failure becomes the message the catch derives from what was raised |
| YouTubeService.FetchYouTubeVideos | services/geminiService.ts:93-127 | an empty key fails with "A YouTube Data API key is required." and no request; otherwise the run resolves the channel, then walks the search or the uploads playlist as the strategy says, and stops at the first failure; it never returns more records than asked for |
| YouTubeService.SearchYouTubeVideos | services/geminiService.ts:224-244 | an empty key fails and a count of zero or less returns an empty list, both with no request; otherwise the run is the search walk for the query text, and it never returns more than min(count, 5000) records |
| YouTubeService.SearchPathSkipsChannelDetails | services/geminiService.ts:111-113 | when the search strategy is chosen, every request goes to the search endpoint and channel details are never requested |
| YouTubeService.ChannelSearchIsScoped | services/geminiService.ts:113 | every channel-scoped search request names the resolved channel and sends no query text |
| YouTubeService.GlobalSearchCarriesQuery | services/geminiService.ts:236 | every global search request carries the query text when it is not empty, and names no channel |
| YouTubeService.PlaylistPathAsksDetailsThenPages | services/geminiService.ts:114-117 | on the playlist path, the request after channel resolution asks for the channel's details, and every later request pages through the uploads playlist |

## Left out

- The HTTP transport is not modelled: `fetch`, JSON decoding and `encodeURIComponent`. Responses
  are parameters; the query text is carried verbatim in its parameter.
- The URL text is not modelled. The fixed base address and the `&name=value` rendering are left
  out, and a request is its endpoint with its ordered parameters.
- The model holds only the fields the engine reads from each response: the items' ids, titles and
  playlist ids, and the continuation token. A missing `items` array on a channel answer reads as
  an empty one.
- Channel answers are modelled as strings. When only the last field of the path is absent
  (`id.channelId` at `services/geminiService.ts:68`, or `relatedPlaylists.uploads` at line 81), the
  source returns `undefined` and goes on with it. The model has no such value.
- Malformed answers that make the source throw a `TypeError` cannot be written as a delivered
  answer, because `Types.Item` always has a title, `Types.Page` always has items, and channel
  answers are strings. These answers are:
  - a channel item without `id` (line 68);
  - a channel-details item without `contentDetails` or `relatedPlaylists` (line 81);
  - a page without `items` (lines 149 and 206);
  - a search item with `id.videoId` but no `snippet` (line 209).

  The `TypeError` ends the call, and the entry points rethrow it (lines 122-123 and 239-240). The
  model covers this only when the answer is supplied as `Rejected(ErrorRaised(m))`, with `m` the
  `TypeError`'s message. As a delivered page, such an answer never fails the walk in the model.
- `console.error` logging in the two entry points is left out, because it has no effect on the
  result.
- A remote that keeps returning a truthy token forever is not modelled, because the pages are a
  finite sequence. A request past the end gets an empty last page, so every walk ends.
- `maxResults` is an integer here. JavaScript's non-integer, `NaN` and infinite numbers are not
  modelled, and neither is `fetchYouTubeVideos`'s default of 1000 (callers pass it explicitly).
- A truthy `error.message` that is not a string (where `replace` would throw) is not modelled;
  messages are strings.
- Concurrency and the asynchronous scheduling of the awaited calls are left out. Each entry point
  is modelled as the sequential run it performs.
- The React interface, the key storage in the browser, the export features and the other
  components are not part of this model.
