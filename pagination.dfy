/**
 * The two token-driven paginators of services/geminiService.ts,
 * `internalPlaylistScrape` and `internalSearch`. The remote side is the finite
 * sequence of responses it gives to successive page requests; each page
 * request carries the continuation token of the page before it.
 */
module Pagination {
  import opened Wrappers
  import opened Types
  import opened ApiErrors
  import opened Requests
  import opened VideoItems

  const PlaylistFailureContext := "Failed to fetch video playlist."
  const SearchFailureContext := "Failed to search/filter videos."

  /** The safety ceiling on what the filtered search collects. */
  const SearchCeiling := 5000

  /**
   * The response to the k-th page request (from 0). A remote with no further
   * pages answers with an empty page without a continuation token.
   */
  function PageAt(pages: seq<Response<Page>>, k: nat): Response<Page> {
    if k < |pages| then pages[k] else Delivered(Page([], None))
  }

  /** The response is a page whose continuation token is truthy. */
  predicate HasNext(response: Response<Page>) {
    response.Delivered? && Truthy(response.data.nextPageToken)
  }

  /** The records a response contributes: its normalised items, if it is a page. */
  function PageVideos(response: Response<Page>): seq<Video> {
    if response.Delivered? then Normalize(response.data.items) else []
  }

  /** The records of the first n responses, concatenated. */
  function Gathered(pages: seq<Response<Page>>, n: nat): seq<Video> {
    if n == 0 then [] else Gathered(pages, n - 1) + PageVideos(PageAt(pages, n - 1))
  }

  /** The items of the first n responses, concatenated. */
  function GatheredItems(pages: seq<Response<Page>>, n: nat): seq<Item> {
    if n == 0 then []
    else GatheredItems(pages, n - 1) + (if PageAt(pages, n - 1).Delivered? then PageAt(pages, n - 1).data.items else [])
  }

  /** The token the k-th page request carries: the one the page before it returned. */
  function TokenBefore(pages: seq<Response<Page>>, k: nat): Option<string> {
    if k == 0 || !PageAt(pages, k - 1).Delivered? then None
    else PageAt(pages, k - 1).data.nextPageToken
  }

  /**
   * After the response to request k the loop asks for another page: that
   * response was a page with a truthy token and fewer than `cap` records have
   * been collected.
   */
  predicate Continues(pages: seq<Response<Page>>, cap: int, k: nat) {
    HasNext(PageAt(pages, k)) && |Gathered(pages, k + 1)| < cap
  }

  /**
   * The loop `while (allVideos.length < cap)` sends exactly n page requests:
   * the first one exactly when `cap` is positive, each further one exactly
   * when the previous response lets it continue.
   */
  predicate FetchCount(pages: seq<Response<Page>>, cap: int, n: nat) {
    && (n == 0 <==> cap <= 0)
    && (forall k :: 0 <= k < n - 1 ==> Continues(pages, cap, k))
    && (n > 0 ==> !Continues(pages, cap, n - 1))
  }

  /** `xs.slice(0, end)` of JavaScript. */
  function Slice0<T>(xs: seq<T>, end: int): (r: seq<T>)
    ensures end >= 0 ==> r == xs[..Min(end, |xs|)]
  {
    if end < 0 then xs[..Max(0, |xs| + end)]
    else if end <= |xs| then xs[..end]
    else xs
  }

  /**
   * What a paginator returns once it has sent n requests: the error of the last
   * response if it failed, otherwise the records collected, cut to `cap`.
   */
  function Outcome(pages: seq<Response<Page>>, cap: int, context: string, n: nat): Result<seq<Video>, Raised> {
    if n > 0 && !PageAt(pages, n - 1).Delivered? then Err(CallError(PageAt(pages, n - 1), context))
    else Ok(Slice0(Gathered(pages, n), cap))
  }

  /** `Math.min(maxResults, 5000)` */
  function EffectiveCap(maxResults: int): (cap: int)
    ensures cap <= SearchCeiling
    ensures cap <= maxResults
    ensures cap == maxResults || cap == SearchCeiling
  {
    Min(maxResults, SearchCeiling)
  }

  /** The first n page requests of the uploads playlist. */
  function PlaylistLog(apiKey: string, playlistId: string, pages: seq<Response<Page>>, n: nat): seq<Request> {
    if n == 0 then [] else PlaylistLog(apiKey, playlistId, pages, n - 1) + [PlaylistRequest(apiKey, playlistId, TokenBefore(pages, n - 1))]
  }

  /** The first n page requests of the filtered search. */
  function SearchLog(apiKey: string, params: SearchParams, pages: seq<Response<Page>>, n: nat): seq<Request> {
    if n == 0 then [] else SearchLog(apiKey, params, pages, n - 1) + [SearchRequest(apiKey, params, TokenBefore(pages, n - 1))]
  }

  /** The page requests of the uploads playlist, as the playlist paginator sends them. */
  predicate PlaylistRequests(apiKey: string, playlistId: string, cap: int, pages: seq<Response<Page>>, requests: seq<Request>) {
    FetchCount(pages, cap, |requests|) && requests == PlaylistLog(apiKey, playlistId, pages, |requests|)
  }

  /** The page requests of the filtered search, as the search paginator sends them. */
  predicate SearchRequests(apiKey: string, maxResults: int, params: SearchParams, pages: seq<Response<Page>>, requests: seq<Request>) {
    FetchCount(pages, EffectiveCap(maxResults), |requests|) && requests == SearchLog(apiKey, params, pages, |requests|)
  }

  /** One more playlist page request extends the log. */
  lemma PlaylistLogStep(apiKey: string, playlistId: string, pages: seq<Response<Page>>, requests: seq<Request>, request: Request)
    requires requests == PlaylistLog(apiKey, playlistId, pages, |requests|)
    requires request == PlaylistRequest(apiKey, playlistId, TokenBefore(pages, |requests|))
    ensures requests + [request] == PlaylistLog(apiKey, playlistId, pages, |requests| + 1)
  {
  }

  /** One more search page request extends the log. */
  lemma SearchLogStep(apiKey: string, params: SearchParams, pages: seq<Response<Page>>, requests: seq<Request>, request: Request)
    requires requests == SearchLog(apiKey, params, pages, |requests|)
    requires request == SearchRequest(apiKey, params, TokenBefore(pages, |requests|))
    ensures requests + [request] == SearchLog(apiKey, params, pages, |requests| + 1)
  {
  }

  /** After n requests the loop has had every reason to go on so far. */
  predicate Walked(pages: seq<Response<Page>>, cap: int, n: nat) {
    && (n > 0 ==> cap > 0 && HasNext(PageAt(pages, n - 1)))
    && (forall k :: 0 <= k < n - 1 ==> Continues(pages, cap, k))
  }

  /**
   * The response to request n is a page: it adds its records and hands on its
   * token; the walk goes on if that token is truthy and ends otherwise.
   */
  lemma ReceivedPage(pages: seq<Response<Page>>, cap: int, n: nat)
    requires Walked(pages, cap, n) && |Gathered(pages, n)| < cap
    requires PageAt(pages, n).Delivered?
    ensures Gathered(pages, n + 1) == Gathered(pages, n) + Normalize(PageAt(pages, n).data.items)
    ensures TokenBefore(pages, n + 1) == PageAt(pages, n).data.nextPageToken
    ensures Truthy(PageAt(pages, n).data.nextPageToken) ==> n < |pages| && Walked(pages, cap, n + 1)
    ensures !Truthy(PageAt(pages, n).data.nextPageToken) ==> FetchCount(pages, cap, n + 1)
  {
    assert n > 0 ==> Continues(pages, cap, n - 1);
  }

  /** The response to request n failed: the walk ends with its error. */
  lemma FailedPage(pages: seq<Response<Page>>, cap: int, context: string, n: nat)
    requires Walked(pages, cap, n) && |Gathered(pages, n)| < cap
    requires !PageAt(pages, n).Delivered?
    ensures FetchCount(pages, cap, n + 1)
    ensures Outcome(pages, cap, context, n + 1) == Err(CallError(PageAt(pages, n), context))
  {
    assert n > 0 ==> Continues(pages, cap, n - 1);
  }

  /**
   * The walk stopped after n requests, either because the cap was reached or
   * because the last page had no truthy token: it returns what it collected.
   */
  lemma StoppedWalk(pages: seq<Response<Page>>, cap: int, context: string, n: nat, ended: bool)
    requires !ended ==> Walked(pages, cap, n) && |Gathered(pages, n)| >= cap
    requires ended ==> FetchCount(pages, cap, n) && n > 0 && PageAt(pages, n - 1).Delivered?
    ensures FetchCount(pages, cap, n)
    ensures Outcome(pages, cap, context, n) == Ok(Slice0(Gathered(pages, n), cap))
  {
  }

  /** The playlist page request the loop builds, appending the token when it is truthy. */
  method BuildPlaylistRequest(apiKey: string, playlistId: string, pageToken: Option<string>)
    returns (req: Request)
    ensures req == PlaylistRequest(apiKey, playlistId, pageToken)
  {
    var query := [Param(Part, "snippet"), Param(PlaylistId, playlistId), Param(MaxResults, PageSize), Param(Key, apiKey)];
    if Truthy(pageToken) {
      query := query + [Param(PageToken, pageToken.value)];
    }
    req := Request(PlaylistItemsEndpoint, query);
  }

  /**
   * `internalPlaylistScrape`: walks the uploads playlist page by page while
   * fewer than `maxResults` records have been collected and the last page had
   * a truthy continuation token, then cuts the records to `maxResults`.
   */
  method InternalPlaylistScrape(apiKey: string, playlistId: string, maxResults: int, pages: seq<Response<Page>>)
    returns (r: Result<seq<Video>, Raised>, requests: seq<Request>)
    ensures PlaylistRequests(apiKey, playlistId, maxResults, pages, requests)
    ensures r == Outcome(pages, maxResults, PlaylistFailureContext, |requests|)
  {
    var allVideos: seq<Video> := [];
    var nextPageToken: Option<string> := None;
    requests := [];
    ghost var ended := false;
    while |allVideos| < maxResults
      invariant |requests| <= |pages|
      invariant allVideos == Gathered(pages, |requests|)
      invariant nextPageToken == TokenBefore(pages, |requests|)
      invariant Walked(pages, maxResults, |requests|)
      invariant requests == PlaylistLog(apiKey, playlistId, pages, |requests|)
      decreases |pages| - |requests|
    {
      var request := BuildPlaylistRequest(apiKey, playlistId, nextPageToken);
      var sent := |requests|;
      PlaylistLogStep(apiKey, playlistId, pages, requests, request);
      requests := requests + [request];
      var response := PageAt(pages, sent);
      if !response.Delivered? {
        FailedPage(pages, maxResults, PlaylistFailureContext, sent);
        r := Err(CallError(response, PlaylistFailureContext));
        return;
      }
      ReceivedPage(pages, maxResults, sent);
      allVideos := allVideos + Normalize(response.data.items);
      nextPageToken := response.data.nextPageToken;
      if !Truthy(nextPageToken) {
        ended := true;
        break;
      }
    }
    StoppedWalk(pages, maxResults, PlaylistFailureContext, |requests|, ended);
    r := Ok(Slice0(allVideos, maxResults));
  }

  /**
   * `internalSearch`: the same walk over the filtered search, with the cap
   * clamped to 5000. The per-page size it computes is never sent: every
   * request asks for 50 results.
   */
  method InternalSearch(apiKey: string, maxResults: int, params: SearchParams, pages: seq<Response<Page>>)
    returns (r: Result<seq<Video>, Raised>, requests: seq<Request>)
    ensures SearchRequests(apiKey, maxResults, params, pages, requests)
    ensures r == Outcome(pages, EffectiveCap(maxResults), SearchFailureContext, |requests|)
  {
    var effectiveMaxResults := Min(maxResults, SearchCeiling);
    var allVideos: seq<Video> := [];
    var nextPageToken: Option<string> := None;
    var maxPerPage := 50;
    requests := [];
    ghost var ended := false;
    while |allVideos| < effectiveMaxResults
      invariant |requests| <= |pages|
      invariant allVideos == Gathered(pages, |requests|)
      invariant nextPageToken == TokenBefore(pages, |requests|)
      invariant Walked(pages, effectiveMaxResults, |requests|)
      invariant requests == SearchLog(apiKey, params, pages, |requests|)
      decreases |pages| - |requests|
    {
      var remaining := effectiveMaxResults - |allVideos|;
      var resultsToFetch := Min(maxPerPage, remaining);
      var safeMaxResults := Max(1, Min(50, resultsToFetch));
      var request := BuildSearchRequest(apiKey, params, nextPageToken);
      var sent := |requests|;
      SearchLogStep(apiKey, params, pages, requests, request);
      requests := requests + [request];
      var response := PageAt(pages, sent);
      if !response.Delivered? {
        FailedPage(pages, effectiveMaxResults, SearchFailureContext, sent);
        r := Err(CallError(response, SearchFailureContext));
        return;
      }
      ReceivedPage(pages, effectiveMaxResults, sent);
      allVideos := allVideos + Normalize(response.data.items);
      nextPageToken := response.data.nextPageToken;
      if !Truthy(nextPageToken) {
        ended := true;
        break;
      }
    }
    StoppedWalk(pages, effectiveMaxResults, SearchFailureContext, |requests|, ended);
    r := Ok(Slice0(allVideos, effectiveMaxResults));
  }

  // ---- what a walk returns ----

  /** The number of page requests is determined by the responses and the cap. */
  lemma FetchCountUnique(pages: seq<Response<Page>>, cap: int, n: nat, m: nat)
    requires FetchCount(pages, cap, n) && FetchCount(pages, cap, m)
    ensures n == m
  {
  }

  /** A cap of zero or less sends no request and returns no records. */
  lemma NonPositiveCapFetchesNothing(pages: seq<Response<Page>>, cap: int, context: string, n: nat)
    requires cap <= 0 && FetchCount(pages, cap, n)
    ensures n == 0
    ensures Outcome(pages, cap, context, n) == Ok([])
  {
  }

  /**
   * A successful walk returns a prefix of everything it collected, exactly
   * `min(cap, collected)` records long.
   */
  lemma ResultIsCappedPrefix(pages: seq<Response<Page>>, cap: int, context: string, n: nat)
    requires FetchCount(pages, cap, n)
    requires Outcome(pages, cap, context, n).Ok?
    ensures var v := Outcome(pages, cap, context, n).value;
      && v == Gathered(pages, n)[..|v|]
      && |v| == (if cap <= 0 then 0 else Min(cap, |Gathered(pages, n)|))
  {
  }

  /**
   * Fewer records than the cap means the walk ran out of pages: its last
   * response was a page without a truthy token, and nothing was cut.
   */
  lemma ShortResultMeansExhausted(pages: seq<Response<Page>>, cap: int, context: string, n: nat)
    requires FetchCount(pages, cap, n)
    requires Outcome(pages, cap, context, n).Ok?
    requires |Outcome(pages, cap, context, n).value| < cap
    ensures n > 0 && PageAt(pages, n - 1).Delivered? && !Truthy(PageAt(pages, n - 1).data.nextPageToken)
    ensures Outcome(pages, cap, context, n).value == Gathered(pages, n)
  {
    ResultIsCappedPrefix(pages, cap, context, n);
    assert |Gathered(pages, n)| < cap;
  }

  /**
   * A walk only stops at a failed response when it is the last one sent, and
   * then it fails with that response's error: with the cleaned API message,
   * the context message, or what the rejected call raised.
   */
  lemma FailureEndsWalk(pages: seq<Response<Page>>, cap: int, context: string, n: nat, k: nat)
    requires FetchCount(pages, cap, n)
    requires k < n && !PageAt(pages, k).Delivered?
    ensures k == n - 1
    ensures Outcome(pages, cap, context, n) == Err(CallError(PageAt(pages, k), context))
  {
    assert k < n - 1 ==> Continues(pages, cap, k);
  }

  /** Every response before the last one sent was a page. */
  lemma EarlierResponsesDelivered(pages: seq<Response<Page>>, cap: int, n: nat, k: nat)
    requires FetchCount(pages, cap, n)
    requires k < n - 1
    ensures PageAt(pages, k).Delivered? && Truthy(PageAt(pages, k).data.nextPageToken)
  {
    assert Continues(pages, cap, k);
  }

  /** The records collected are the normalised items of every page received, in order. */
  lemma {:induction false} GatheredNormalizesItems(pages: seq<Response<Page>>, n: nat)
    ensures Gathered(pages, n) == Normalize(GatheredItems(pages, n))
  {
    if n > 0 {
      var last := if PageAt(pages, n - 1).Delivered? then PageAt(pages, n - 1).data.items else [];
      GatheredNormalizesItems(pages, n - 1);
      NormalizeAppend(GatheredItems(pages, n - 1), last);
      assert PageVideos(PageAt(pages, n - 1)) == Normalize(last);
    }
  }

  /** The filtered search never returns more than 5000 records, nor more than asked for. */
  lemma SearchWithinCeiling(pages: seq<Response<Page>>, maxResults: int, n: nat)
    requires FetchCount(pages, EffectiveCap(maxResults), n)
    requires Outcome(pages, EffectiveCap(maxResults), SearchFailureContext, n).Ok?
    ensures |Outcome(pages, EffectiveCap(maxResults), SearchFailureContext, n).value| <= SearchCeiling
    ensures maxResults >= 0 ==> |Outcome(pages, EffectiveCap(maxResults), SearchFailureContext, n).value| <= maxResults
  {
    ResultIsCappedPrefix(pages, EffectiveCap(maxResults), SearchFailureContext, n);
  }

  // ---- what each request carries ----

  lemma {:induction false} PlaylistLogAt(apiKey: string, playlistId: string, pages: seq<Response<Page>>, n: nat, k: nat)
    requires k < n
    ensures |PlaylistLog(apiKey, playlistId, pages, n)| == n
    ensures PlaylistLog(apiKey, playlistId, pages, n)[k] == PlaylistRequest(apiKey, playlistId, TokenBefore(pages, k))
  {
    if k < n - 1 {
      PlaylistLogAt(apiKey, playlistId, pages, n - 1, k);
    } else if n > 1 {
      PlaylistLogAt(apiKey, playlistId, pages, n - 1, 0);
    }
  }

  lemma {:induction false} SearchLogAt(apiKey: string, params: SearchParams, pages: seq<Response<Page>>, n: nat, k: nat)
    requires k < n
    ensures |SearchLog(apiKey, params, pages, n)| == n
    ensures SearchLog(apiKey, params, pages, n)[k] == SearchRequest(apiKey, params, TokenBefore(pages, k))
  {
    if k < n - 1 {
      SearchLogAt(apiKey, params, pages, n - 1, k);
    } else if n > 1 {
      SearchLogAt(apiKey, params, pages, n - 1, 0);
    }
  }

  /** Every request of a search walk goes to the search endpoint. */
  lemma SearchRequestsHitSearch(apiKey: string, maxResults: int, params: SearchParams, pages: seq<Response<Page>>,
                                requests: seq<Request>)
    requires requests == SearchLog(apiKey, params, pages, |requests|)
    ensures forall k :: 0 <= k < |requests| ==> requests[k].endpoint == SearchEndpoint
  {
    forall k | 0 <= k < |requests|
      ensures requests[k].endpoint == SearchEndpoint
    {
      SearchLogAt(apiKey, params, pages, |requests|, k);
    }
  }

  /** Every request of a playlist walk goes to the playlist-items endpoint. */
  lemma PlaylistRequestsHitPlaylistItems(apiKey: string, playlistId: string, pages: seq<Response<Page>>,
                                         requests: seq<Request>)
    requires requests == PlaylistLog(apiKey, playlistId, pages, |requests|)
    ensures forall k :: 0 <= k < |requests| ==> requests[k].endpoint == PlaylistItemsEndpoint
  {
    forall k | 0 <= k < |requests|
      ensures requests[k].endpoint == PlaylistItemsEndpoint
    {
      PlaylistLogAt(apiKey, playlistId, pages, |requests|, k);
    }
  }

  /**
   * Every playlist page request names the uploads playlist and the key and asks
   * for 50 items; the first carries no token and each later one carries the
   * truthy token of the page before it.
   */
  lemma PlaylistRequestsCarryTokens(apiKey: string, playlistId: string, cap: int, pages: seq<Response<Page>>,
                                    requests: seq<Request>, k: nat)
    requires PlaylistRequests(apiKey, playlistId, cap, pages, requests)
    requires k < |requests|
    ensures requests[k].endpoint == PlaylistItemsEndpoint
    ensures Lookup(requests[k].params, PlaylistId) == Some(playlistId)
    ensures Lookup(requests[k].params, MaxResults) == Some(PageSize)
    ensures Lookup(requests[k].params, Key) == Some(apiKey)
    ensures k == 0 ==> Lookup(requests[k].params, PageToken) == None
    ensures k > 0 ==> PageAt(pages, k - 1).Delivered? && Truthy(Lookup(requests[k].params, PageToken)) &&
                      Lookup(requests[k].params, PageToken) == PageAt(pages, k - 1).data.nextPageToken
  {
    PlaylistLogAt(apiKey, playlistId, pages, |requests|, k);
    PlaylistQueryParams(apiKey, playlistId, TokenBefore(pages, k));
    if k > 0 {
      EarlierResponsesDelivered(pages, cap, |requests|, k - 1);
    }
  }

  /**
   * Every search page request carries exactly the parameters of the search
   * (each present one once, in their fixed order) and asks for 50 results; the
   * first carries no token and each later one the truthy token of the page
   * before it.
   */
  lemma SearchRequestsCarryTokens(apiKey: string, maxResults: int, params: SearchParams, pages: seq<Response<Page>>,
                                  requests: seq<Request>, k: nat)
    requires SearchRequests(apiKey, maxResults, params, pages, requests)
    requires k < |requests|
    ensures requests[k].endpoint == SearchEndpoint
    ensures InSearchOrder(requests[k].params)
    ensures forall name :: name != PageToken ==> Lookup(requests[k].params, name) == SearchValue(apiKey, params, None, name)
    ensures Lookup(requests[k].params, MaxResults) == Some(PageSize)
    ensures k == 0 ==> Lookup(requests[k].params, PageToken) == None
    ensures k > 0 ==> PageAt(pages, k - 1).Delivered? && Truthy(Lookup(requests[k].params, PageToken)) &&
                      Lookup(requests[k].params, PageToken) == PageAt(pages, k - 1).data.nextPageToken
  {
    var token := TokenBefore(pages, k);
    SearchLogAt(apiKey, params, pages, |requests|, k);
    SearchQueryOrder(apiKey, params, token);
    forall name
      ensures Lookup(requests[k].params, name) == SearchValue(apiKey, params, token, name)
    {
      SearchQueryLookup(apiKey, params, token, name);
    }
    if k > 0 {
      EarlierResponsesDelivered(pages, EffectiveCap(maxResults), |requests|, k - 1);
    }
  }
}
