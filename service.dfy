/**
 * The public entry points of services/geminiService.ts: `fetchYouTubeVideos`
 * (channel resolution, strategy choice, one of the two paginators) and
 * `searchYouTubeVideos` (global search), with the one-shot lookups
 * `getChannelId` and `getUploadsPlaylistId`. Each returns the requests it
 * sent beside its result, so a path that sends nothing can be told apart.
 */
module YouTubeService {
  import opened Wrappers
  import opened Types
  import opened ApiErrors
  import opened ChannelId
  import opened Requests
  import opened Pagination

  const KeyRequiredMessage := "A YouTube Data API key is required."
  const FetchUnknownMessage := "An unknown error occurred while communicating with the YouTube API."
  const SearchUnknownMessage := "An unknown error occurred while searching on YouTube."
  const ChannelSearchContext := "Failed to search for YouTube channel."
  const ChannelDetailsContext := "Failed to get channel details."
  const NoChannelDetailsMessage := "Could not retrieve channel details."

  function NotFoundMessage(query: string): string {
    "Channel \"" + query + "\" not found."
  }

  /** A result together with the remote requests sent to reach it. */
  datatype Traced<+T> = Traced(result: Result<T, Raised>, requests: seq<Request>)

  /**
   * `getChannelId`. `search` is the remote's answer to the channel search: the
   * channel ids of its items, in order (a missing `items` reads as none).
   */
  function GetChannelId(query: string, apiKey: string, search: Response<seq<string>>): (t: Traced<string>)
    // the first window of 24 identifier characters, when it starts with "UC", is used
    // as it is, with no request
    ensures t.requests == [] <==> ShortcutId(query).Some?
    ensures ShortcutId(query).Some? ==> t.result == Ok(ShortcutId(query).value)
    ensures t.requests == [] ==> t.result.Ok? && IsChannelIdShape(t.result.value)
    // otherwise exactly one channel search, whose first item decides
    ensures t.requests != [] ==> t.requests == [ChannelSearchRequest(query, apiKey)]
    ensures t.requests != [] && search.Delivered? ==>
              t.result == if search.data == [] then Err(ErrorRaised(NotFoundMessage(query))) else Ok(search.data[0])
    ensures t.requests != [] && !search.Delivered? ==> t.result == Err(CallError(search, ChannelSearchContext))
  {
    match ShortcutId(query)
    case Some(id) => Traced(Ok(id), [])
    case None =>
      var requests := [ChannelSearchRequest(query, apiKey)];
      if !search.Delivered? then Traced(Err(CallError(search, ChannelSearchContext)), requests)
      else if |search.data| == 0 then Traced(Err(ErrorRaised(NotFoundMessage(query))), requests)
      else Traced(Ok(search.data[0]), requests)
  }

  /** A channel URL or a bare identifier resolves to that identifier without a request. */
  lemma ChannelQueriesResolveLocally(id: string, rest: string, apiKey: string, search: Response<seq<string>>)
    requires IsChannelIdShape(id)
    ensures GetChannelId(id + rest, apiKey, search) == Traced(Ok(id), [])
    ensures GetChannelId("https://www.youtube.com/channel/" + id + rest, apiKey, search) == Traced(Ok(id), [])
  {
    BareIdRecognised(id, rest);
    ChannelUrlRecognised(id, rest);
  }

  /**
   * `getUploadsPlaylistId`. `details` is the remote's answer to the channel
   * request: the uploads playlist ids of its items, in order.
   */
  function GetUploadsPlaylistId(channelId: string, apiKey: string, details: Response<seq<string>>): (t: Traced<string>)
    ensures t.requests == [ChannelsRequest(channelId, apiKey)]
    ensures t.result.Ok? <==> details.Delivered? && details.data != []
    ensures t.result.Ok? ==> t.result.value == details.data[0]
    ensures details == Delivered([]) ==> t.result == Err(ErrorRaised(NoChannelDetailsMessage))
    ensures !details.Delivered? ==> t.result == Err(CallError(details, ChannelDetailsContext))
  {
    var requests := [ChannelsRequest(channelId, apiKey)];
    if !details.Delivered? then Traced(Err(CallError(details, ChannelDetailsContext)), requests)
    else if |details.data| == 0 then Traced(Err(ErrorRaised(NoChannelDetailsMessage)), requests)
    else Traced(Ok(details.data[0]), requests)
  }

  /**
   * The strategy rule: the channel-scoped search is needed exactly when an
   * order other than date or a duration other than any is asked for; every
   * other combination walks the uploads playlist.
   */
  function RequiresSearchApi(options: SearchOptions): (b: bool)
    ensures !b <==> options.order in {None, Some(Date)} && options.videoDuration in {None, Some(AnyDuration)}
  {
    (options.order.Some? && options.order.value != Date) ||
    (options.videoDuration.Some? && options.videoDuration.value != AnyDuration)
  }

  /** The safe-search setting never changes the strategy. */
  lemma SafeSearchIrrelevantToStrategy(options: SearchOptions, safeSearch: Option<SafeSearch>)
    ensures RequiresSearchApi(options) == RequiresSearchApi(SearchOptions(options.order, options.videoDuration, safeSearch))
  {
  }

  /**
   * The entry points' catch: an `Error` is rethrown with its message, anything
   * else is replaced by the entry point's generic message.
   */
  function Message(e: Raised, unknown: string): (m: string)
    ensures e.ErrorRaised? ==> m == e.message
    ensures e.NonErrorRaised? ==> m == unknown
  {
    if e.ErrorRaised? then e.message else unknown
  }

  /** A result as the caller of an entry point sees it. */
  function Reported<T>(r: Result<T, Raised>, unknown: string): (out: Result<T, string>)
    ensures out.Ok? <==> r.Ok?
    ensures r.Ok? ==> out.value == r.value
    ensures r.Err? ==> out.error == Message(r.error, unknown)
  {
    match r
    case Ok(v) => Ok(v)
    case Err(e) => Err(Message(e, unknown))
  }

  /** What the remote answers when a channel is scraped. */
  datatype ChannelRemote = ChannelRemote(
    channelSearch: Response<seq<string>>,
    channelDetails: Response<seq<string>>,
    pages: seq<Response<Page>>)

  /**
   * The run of `fetchYouTubeVideos` with a key: resolve the channel, then
   * either the channel-scoped search or the uploads-playlist lookup followed by
   * the playlist walk; the first failure ends the run.
   */
  predicate ChannelRun(channelQuery: string, apiKey: string, maxResults: int, options: SearchOptions,
                       remote: ChannelRemote, r: Result<seq<Video>, string>, requests: seq<Request>)
  {
    var lookup := GetChannelId(channelQuery, apiKey, remote.channelSearch);
    if lookup.result.Err? then
      r == Err(Message(lookup.result.error, FetchUnknownMessage)) && requests == lookup.requests
    else if RequiresSearchApi(options) then
      && |lookup.requests| <= |requests|
      && requests[..|lookup.requests|] == lookup.requests
      && var walk := requests[|lookup.requests|..];
      && SearchRequests(apiKey, maxResults, WithChannel(options, lookup.result.value), remote.pages, walk)
      && r == Reported(Outcome(remote.pages, EffectiveCap(maxResults), SearchFailureContext, |walk|), FetchUnknownMessage)
    else
      var uploads := GetUploadsPlaylistId(lookup.result.value, apiKey, remote.channelDetails);
      var head := lookup.requests + uploads.requests;
      if uploads.result.Err? then
        r == Err(Message(uploads.result.error, FetchUnknownMessage)) && requests == head
      else
        && |head| <= |requests|
        && requests[..|head|] == head
        && var walk := requests[|head|..];
        && PlaylistRequests(apiKey, uploads.result.value, maxResults, remote.pages, walk)
        && r == Reported(Outcome(remote.pages, maxResults, PlaylistFailureContext, |walk|), FetchUnknownMessage)
  }

  /**
   * `fetchYouTubeVideos`: an empty key fails before any request; otherwise the
   * channel is resolved and walked by the strategy the options call for.
   */
  method FetchYouTubeVideos(channelQuery: string, apiKey: string, maxResults: int, options: SearchOptions,
                            remote: ChannelRemote)
    returns (r: Result<seq<Video>, string>, requests: seq<Request>)
    ensures apiKey == "" ==> r == Err(KeyRequiredMessage) && requests == []
    ensures apiKey != "" ==> ChannelRun(channelQuery, apiKey, maxResults, options, remote, r, requests)
    ensures r.Ok? ==> |r.value| <= Max(0, maxResults)
  {
    if apiKey == "" {
      return Err(KeyRequiredMessage), [];
    }
    var lookup := GetChannelId(channelQuery, apiKey, remote.channelSearch);
    if lookup.result.Err? {
      return Err(Message(lookup.result.error, FetchUnknownMessage)), lookup.requests;
    }
    var channelId := lookup.result.value;
    if RequiresSearchApi(options) {
      var found, walk := InternalSearch(apiKey, maxResults, WithChannel(options, channelId), remote.pages);
      r, requests := Reported(found, FetchUnknownMessage), lookup.requests + walk;
      assert requests[|lookup.requests|..] == walk;
      if found.Ok? {
        ResultIsCappedPrefix(remote.pages, EffectiveCap(maxResults), SearchFailureContext, |walk|);
      }
    } else {
      var uploads := GetUploadsPlaylistId(channelId, apiKey, remote.channelDetails);
      var head := lookup.requests + uploads.requests;
      if uploads.result.Err? {
        return Err(Message(uploads.result.error, FetchUnknownMessage)), head;
      }
      var found, walk := InternalPlaylistScrape(apiKey, uploads.result.value, maxResults, remote.pages);
      r, requests := Reported(found, FetchUnknownMessage), head + walk;
      assert requests[|head|..] == walk;
      if found.Ok? {
        ResultIsCappedPrefix(remote.pages, maxResults, PlaylistFailureContext, |walk|);
      }
    }
  }

  /**
   * `searchYouTubeVideos`: an empty key fails and a non-positive count returns
   * nothing, both before any request; otherwise the global search is walked.
   */
  method SearchYouTubeVideos(query: string, apiKey: string, maxResults: int, options: SearchOptions,
                             pages: seq<Response<Page>>)
    returns (r: Result<seq<Video>, string>, requests: seq<Request>)
    ensures apiKey == "" ==> r == Err(KeyRequiredMessage) && requests == []
    ensures apiKey != "" && maxResults <= 0 ==> r == Ok([]) && requests == []
    ensures apiKey != "" && maxResults > 0 ==>
              && SearchRequests(apiKey, maxResults, WithQuery(options, query), pages, requests)
              && r == Reported(Outcome(pages, EffectiveCap(maxResults), SearchFailureContext, |requests|), SearchUnknownMessage)
    ensures r.Ok? ==> |r.value| <= Min(Max(0, maxResults), SearchCeiling)
  {
    if apiKey == "" {
      return Err(KeyRequiredMessage), [];
    }
    if maxResults <= 0 {
      return Ok([]), [];
    }
    var found;
    found, requests := InternalSearch(apiKey, maxResults, WithQuery(options, query), pages);
    r := Reported(found, SearchUnknownMessage);
    if found.Ok? {
      SearchWithinCeiling(pages, maxResults, |requests|);
    }
  }

  // ---- what the entry points send ----

  /**
   * When the options call for the search, no request for channel details is
   * ever sent: every request goes to the search endpoint.
   */
  lemma SearchPathSkipsChannelDetails(channelQuery: string, apiKey: string, maxResults: int, options: SearchOptions,
                                      remote: ChannelRemote, r: Result<seq<Video>, string>, requests: seq<Request>)
    requires ChannelRun(channelQuery, apiKey, maxResults, options, remote, r, requests)
    requires RequiresSearchApi(options)
    ensures forall k :: 0 <= k < |requests| ==> requests[k].endpoint == SearchEndpoint
  {
    var lookup := GetChannelId(channelQuery, apiKey, remote.channelSearch);
    if lookup.result.Ok? {
      var head := lookup.requests;
      var walk := requests[|head|..];
      SearchRequestsHitSearch(apiKey, maxResults, WithChannel(options, lookup.result.value), remote.pages, walk);
      assert requests == head + walk;
    }
  }

  /**
   * The channel-scoped search names the resolved channel in every page
   * request and sends no query text.
   */
  lemma ChannelSearchIsScoped(apiKey: string, maxResults: int, options: SearchOptions, channelId: string,
                              pages: seq<Response<Page>>, requests: seq<Request>, k: nat)
    requires SearchRequests(apiKey, maxResults, WithChannel(options, channelId), pages, requests)
    requires k < |requests| && channelId != ""
    ensures Lookup(requests[k].params, ChannelId) == Some(channelId)
    ensures Lookup(requests[k].params, Q) == None
  {
    SearchRequestsCarryTokens(apiKey, maxResults, WithChannel(options, channelId), pages, requests, k);
  }

  /**
   * The global search sends its query text in every page request (an empty
   * query is not sent at all) and no channel.
   */
  lemma GlobalSearchCarriesQuery(apiKey: string, maxResults: int, options: SearchOptions, query: string,
                                 pages: seq<Response<Page>>, requests: seq<Request>, k: nat)
    requires SearchRequests(apiKey, maxResults, WithQuery(options, query), pages, requests)
    requires k < |requests|
    ensures Lookup(requests[k].params, Q) == if query != "" then Some(query) else None
    ensures Lookup(requests[k].params, ChannelId) == None
  {
    SearchRequestsCarryTokens(apiKey, maxResults, WithQuery(options, query), pages, requests, k);
  }

  /**
   * On the playlist path the request right after channel resolution asks for
   * the channel's details, and every later one pages through its uploads.
   */
  lemma PlaylistPathAsksDetailsThenPages(channelQuery: string, apiKey: string, maxResults: int, options: SearchOptions,
                                         remote: ChannelRemote, r: Result<seq<Video>, string>, requests: seq<Request>)
    requires ChannelRun(channelQuery, apiKey, maxResults, options, remote, r, requests)
    requires !RequiresSearchApi(options)
    requires GetChannelId(channelQuery, apiKey, remote.channelSearch).result.Ok?
    ensures var lookup := GetChannelId(channelQuery, apiKey, remote.channelSearch);
      && |lookup.requests| < |requests|
      && requests[|lookup.requests|] == ChannelsRequest(lookup.result.value, apiKey)
      && forall k :: |lookup.requests| < k < |requests| ==> requests[k].endpoint == PlaylistItemsEndpoint
  {
    var lookup := GetChannelId(channelQuery, apiKey, remote.channelSearch);
    var uploads := GetUploadsPlaylistId(lookup.result.value, apiKey, remote.channelDetails);
    var head := lookup.requests + uploads.requests;
    var n := |lookup.requests|;
    assert |head| == n + 1 && head[n] == ChannelsRequest(lookup.result.value, apiKey);
    if uploads.result.Err? {
      assert requests == head;
    } else {
      var walk := requests[|head|..];
      PlaylistRequestsHitPlaylistItems(apiKey, uploads.result.value, remote.pages, walk);
      assert requests == head + walk;
      forall k | n < k < |requests|
        ensures requests[k].endpoint == PlaylistItemsEndpoint
      {
        assert requests[k] == walk[k - |head|];
      }
    }
    assert requests[n] == head[n];
  }
}
