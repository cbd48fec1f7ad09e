/**
 * The requests services/geminiService.ts sends to the Data API. A request URL
 * `https://www.googleapis.com/youtube/v3/<endpoint>?n1=v1&n2=v2...` is
 * modelled by its endpoint and its ordered list of query parameters.
 */
module Requests {
  import opened Wrappers
  import opened Types

  /** The page size every page request asks for (the literal 50 of the source). */
  const PageSize := "50"

  /** The query parameter names the engine uses. */
  datatype Name =
    | Part | Type | PlaylistId | Id | MaxResults | Key | Q | ChannelId
    | OrderParam | VideoDurationParam | SafeSearchParam | PageToken

  datatype Param = Param(name: Name, value: string)

  datatype Endpoint = SearchEndpoint | ChannelsEndpoint | PlaylistItemsEndpoint

  datatype Request = Request(endpoint: Endpoint, params: seq<Param>)

  /** The parameter `name=value` when the value is truthy, otherwise nothing. */
  function Optional(name: Name, value: Option<string>): seq<Param> {
    if Truthy(value) then [Param(name, value.value)] else []
  }

  function OrderValue(o: Option<Order>): Option<string> {
    if o.Some? then Some(OrderName(o.value)) else None
  }

  function DurationValue(d: Option<VideoDuration>): Option<string> {
    if d.Some? then Some(DurationName(d.value)) else None
  }

  function SafeSearchValue(s: Option<SafeSearch>): Option<string> {
    if s.Some? then Some(SafeSearchName(s.value)) else None
  }

  /** The value of the first parameter called `name`. */
  function Lookup(ps: seq<Param>, name: Name): Option<string> {
    if ps == [] then None
    else if ps[0].name == name then Some(ps[0].value)
    else Lookup(ps[1..], name)
  }

  lemma {:induction false} LookupAppend(a: seq<Param>, b: seq<Param>, name: Name)
    ensures Lookup(a + b, name) == if Lookup(a, name).Some? then Lookup(a, name) else Lookup(b, name)
    decreases |a|
  {
    if a == [] {
      assert a + b == b;
    } else {
      assert (a + b)[0] == a[0] && (a + b)[1..] == a[1..] + b;
      LookupAppend(a[1..], b, name);
    }
  }

  // ---- search (type=video) pages ----

  /** How many optional parameters the filtered search may append. */
  const OptionalFieldCount: nat := 6

  function SearchFixed(apiKey: string): seq<Param> {
    [Param(Part, "snippet"), Param(Type, "video"), Param(MaxResults, PageSize), Param(Key, apiKey)]
  }

  /**
   * The k-th optional parameter of the filtered search (1 <= k <= 6), in the
   * order the source appends them, with the value it would carry.
   */
  function SearchField(params: SearchParams, pageToken: Option<string>, k: nat): (Name, Option<string>)
    requires 1 <= k <= 6
  {
    if k == 1 then (Q, params.q)
    else if k == 2 then (ChannelId, params.channelId)
    else if k == 3 then (OrderParam, OrderValue(params.order))
    else if k == 4 then (VideoDurationParam, DurationValue(params.videoDuration))
    else if k == 5 then (SafeSearchParam, SafeSearchValue(params.safeSearch))
    else (PageToken, pageToken)
  }

  /** The query once the first k optional parameters have been considered. */
  function SearchPrefix(apiKey: string, params: SearchParams, pageToken: Option<string>, k: nat): seq<Param>
    requires k <= 6
  {
    if k == 0 then SearchFixed(apiKey)
    else
      var field := SearchField(params, pageToken, k);
      SearchPrefix(apiKey, params, pageToken, k - 1) + Optional(field.0, field.1)
  }

  /** The parameters of one page request of the filtered search. */
  function SearchQuery(apiKey: string, params: SearchParams, pageToken: Option<string>): seq<Param> {
    SearchPrefix(apiKey, params, pageToken, OptionalFieldCount)
  }

  function SearchRequest(apiKey: string, params: SearchParams, pageToken: Option<string>): Request {
    Request(SearchEndpoint, SearchQuery(apiKey, params, pageToken))
  }

  /**
   * The url of a search page request, built as the source builds it: the fixed
   * template, then one `&name=value` for each truthy optional parameter.
   */
  method BuildSearchRequest(apiKey: string, params: SearchParams, pageToken: Option<string>)
    returns (req: Request)
    ensures req == SearchRequest(apiKey, params, pageToken)
  {
    var query := [Param(Part, "snippet"), Param(Type, "video"), Param(MaxResults, PageSize), Param(Key, apiKey)];
    if Truthy(params.q) {
      query := query + [Param(Q, params.q.value)];
    }
    assert query == SearchPrefix(apiKey, params, pageToken, 1);
    if Truthy(params.channelId) {
      query := query + [Param(ChannelId, params.channelId.value)];
    }
    assert query == SearchPrefix(apiKey, params, pageToken, 2);
    if params.order.Some? {
      query := query + [Param(OrderParam, OrderName(params.order.value))];
    }
    assert query == SearchPrefix(apiKey, params, pageToken, 3);
    if params.videoDuration.Some? {
      query := query + [Param(VideoDurationParam, DurationName(params.videoDuration.value))];
    }
    assert query == SearchPrefix(apiKey, params, pageToken, 4);
    if params.safeSearch.Some? {
      query := query + [Param(SafeSearchParam, SafeSearchName(params.safeSearch.value))];
    }
    assert query == SearchPrefix(apiKey, params, pageToken, 5);
    if Truthy(pageToken) {
      query := query + [Param(PageToken, pageToken.value)];
    }
    assert query == SearchPrefix(apiKey, params, pageToken, 6);
    req := Request(SearchEndpoint, query);
  }

  /** The value the filtered search sends for each parameter name, if any. */
  function SearchValue(apiKey: string, params: SearchParams, pageToken: Option<string>, name: Name): Option<string> {
    match name
    case Part => Some("snippet")
    case Type => Some("video")
    case MaxResults => Some(PageSize)
    case Key => Some(apiKey)
    case Q => if Truthy(params.q) then params.q else None
    case ChannelId => if Truthy(params.channelId) then params.channelId else None
    case OrderParam => OrderValue(params.order)
    case VideoDurationParam => DurationValue(params.videoDuration)
    case SafeSearchParam => SafeSearchValue(params.safeSearch)
    case PageToken => if Truthy(pageToken) then pageToken else None
    case PlaylistId => None
    case Id => None
  }

  lemma LookupCons(p: Param, rest: seq<Param>, name: Name)
    ensures Lookup([p] + rest, name) == if p.name == name then Some(p.value) else Lookup(rest, name)
  {
    assert ([p] + rest)[1..] == rest;
  }

  lemma LookupFixedSearch(apiKey: string, name: Name)
    ensures Lookup(SearchFixed(apiKey), name) ==
      if name in {Part, Type, MaxResults, Key} then SearchValue(apiKey, SearchParams(None, None, None, None, None), None, name)
      else None
  {
    var f := SearchFixed(apiKey);
    var r3 := [f[3]];
    var r2 := [f[2]] + r3;
    var r1 := [f[1]] + r2;
    assert f == [f[0]] + r1;
    assert [f[3]] + [] == r3;
    LookupCons(f[3], [], name);
    LookupCons(f[2], r3, name);
    LookupCons(f[1], r2, name);
    LookupCons(f[0], r1, name);
  }

  lemma LookupOptional(n: Name, value: Option<string>, name: Name)
    ensures Lookup(Optional(n, value), name) == if n == name && Truthy(value) then value else None
  {
  }

  /** The k-th optional parameter is the one ranked 3 + k, sent with its search value. */
  lemma FieldLookup(apiKey: string, params: SearchParams, pageToken: Option<string>, k: nat, name: Name)
    requires 1 <= k <= 6
    ensures var field := SearchField(params, pageToken, k);
      Lookup(Optional(field.0, field.1), name) ==
        if SearchRank(name) == 3 + k then SearchValue(apiKey, params, pageToken, name) else None
  {
    var field := SearchField(params, pageToken, k);
    LookupOptional(field.0, field.1, name);
  }

  /** After k optional parameters, exactly the names ranked below 4 + k can be found. */
  lemma {:induction false} SearchPrefixLookup(apiKey: string, params: SearchParams, pageToken: Option<string>, k: nat, name: Name)
    requires k <= 6
    ensures Lookup(SearchPrefix(apiKey, params, pageToken, k), name) ==
      if SearchRank(name) < 4 + k then SearchValue(apiKey, params, pageToken, name) else None
  {
    if k == 0 {
      LookupFixedSearch(apiKey, name);
    } else {
      var field := SearchField(params, pageToken, k);
      var before := SearchPrefix(apiKey, params, pageToken, k - 1);
      assert SearchPrefix(apiKey, params, pageToken, k) == before + Optional(field.0, field.1);
      SearchPrefixLookup(apiKey, params, pageToken, k - 1, name);
      LookupAppend(before, Optional(field.0, field.1), name);
      FieldLookup(apiKey, params, pageToken, k, name);
    }
  }

  /**
   * Each parameter of a search page request is sent exactly when it is
   * present (for `q`, `channelId` and `pageToken`: present and not empty),
   * with its value; `maxResults` is always 50, whatever remains to be collected.
   */
  lemma SearchQueryLookup(apiKey: string, params: SearchParams, pageToken: Option<string>, name: Name)
    ensures Lookup(SearchQuery(apiKey, params, pageToken), name) == SearchValue(apiKey, params, pageToken, name)
  {
    SearchPrefixLookup(apiKey, params, pageToken, 6, name);
  }

  /**
   * The position of a parameter name in the order the filtered search sends
   * them: part, type, maxResults, key, q, channelId, order, videoDuration,
   * safeSearch, pageToken (the names it never sends come last).
   */
  function SearchRank(n: Name): nat {
    match n
    case Part => 0
    case Type => 1
    case MaxResults => 2
    case Key => 3
    case Q => 4
    case ChannelId => 5
    case OrderParam => 6
    case VideoDurationParam => 7
    case SafeSearchParam => 8
    case PageToken => 9
    case PlaylistId => 10
    case Id => 10
  }

  /** The parameters come in search order, each name at most once. */
  predicate InSearchOrder(ps: seq<Param>) {
    forall i, j :: 0 <= i < j < |ps| ==> SearchRank(ps[i].name) < SearchRank(ps[j].name)
  }

  predicate RanksBelow(ps: seq<Param>, bound: nat) {
    forall i :: 0 <= i < |ps| ==> SearchRank(ps[i].name) < bound
  }

  lemma OrderStep(sent: seq<Param>, name: Name, value: Option<string>)
    requires InSearchOrder(sent) && RanksBelow(sent, SearchRank(name))
    ensures InSearchOrder(sent + Optional(name, value))
    ensures RanksBelow(sent + Optional(name, value), SearchRank(name) + 1)
  {
  }

  /** The k-th optional parameter is ranked 3 + k. */
  lemma FieldRank(params: SearchParams, pageToken: Option<string>, k: nat)
    requires 1 <= k <= 6
    ensures SearchRank(SearchField(params, pageToken, k).0) == 3 + k
  {
  }

  lemma {:induction false} SearchPrefixOrder(apiKey: string, params: SearchParams, pageToken: Option<string>, k: nat)
    requires k <= 6
    ensures InSearchOrder(SearchPrefix(apiKey, params, pageToken, k))
    ensures RanksBelow(SearchPrefix(apiKey, params, pageToken, k), 4 + k)
  {
    if k == 0 {
      var f := SearchFixed(apiKey);
      assert SearchRank(f[0].name) < SearchRank(f[1].name) < SearchRank(f[2].name) < SearchRank(f[3].name);
    } else {
      var field := SearchField(params, pageToken, k);
      var before := SearchPrefix(apiKey, params, pageToken, k - 1);
      assert SearchPrefix(apiKey, params, pageToken, k) == before + Optional(field.0, field.1);
      FieldRank(params, pageToken, k);
      SearchPrefixOrder(apiKey, params, pageToken, k - 1);
      OrderStep(before, field.0, field.1);
    }
  }

  /** The parameters of a search page request come in search order. */
  lemma SearchQueryOrder(apiKey: string, params: SearchParams, pageToken: Option<string>)
    ensures InSearchOrder(SearchQuery(apiKey, params, pageToken))
  {
    SearchPrefixOrder(apiKey, params, pageToken, 6);
  }

  // ---- playlistItems pages ----

  /** The parameters of one page request of the uploads playlist. */
  function PlaylistQuery(apiKey: string, playlistId: string, pageToken: Option<string>): seq<Param> {
    [Param(Part, "snippet"), Param(PlaylistId, playlistId), Param(MaxResults, PageSize), Param(Key, apiKey)]
    + Optional(PageToken, pageToken)
  }

  function PlaylistRequest(apiKey: string, playlistId: string, pageToken: Option<string>): Request {
    Request(PlaylistItemsEndpoint, PlaylistQuery(apiKey, playlistId, pageToken))
  }

  /** Each playlist page request names the playlist, asks for 50 items and carries a truthy token. */
  lemma PlaylistQueryParams(apiKey: string, playlistId: string, pageToken: Option<string>)
    ensures var ps := PlaylistQuery(apiKey, playlistId, pageToken);
      && Lookup(ps, PlaylistId) == Some(playlistId)
      && Lookup(ps, MaxResults) == Some("50")
      && Lookup(ps, Key) == Some(apiKey)
      && Lookup(ps, PageToken) == (if Truthy(pageToken) then pageToken else None)
  {
    var f0, f1, f2, f3 := Param(Part, "snippet"), Param(PlaylistId, playlistId), Param(MaxResults, PageSize), Param(Key, apiKey);
    var o := Optional(PageToken, pageToken);
    assert PlaylistQuery(apiKey, playlistId, pageToken) == [f0] + ([f1] + ([f2] + ([f3] + o)));
    forall name | name in {PlaylistId, MaxResults, Key, PageToken}
      ensures Lookup(PlaylistQuery(apiKey, playlistId, pageToken), name) ==
        if name == PlaylistId then Some(playlistId) else if name == MaxResults then Some(PageSize)
        else if name == Key then Some(apiKey) else if Truthy(pageToken) then pageToken else None
    {
      LookupCons(f3, o, name);
      LookupCons(f2, [f3] + o, name);
      LookupCons(f1, [f2] + ([f3] + o), name);
      LookupCons(f0, [f1] + ([f2] + ([f3] + o)), name);
      LookupOptional(PageToken, pageToken, name);
    }
  }

  // ---- one-shot lookups ----

  /** Lookup in a list of three parameters: the first one of the name wins. */
  lemma LookupThree(ps: seq<Param>)
    requires |ps| == 3
    ensures forall name ::
              Lookup(ps, name) ==
                (if ps[0].name == name then Some(ps[0].value)
                 else if ps[1].name == name then Some(ps[1].value)
                 else if ps[2].name == name then Some(ps[2].value)
                 else None)
  {
    forall name
      ensures Lookup(ps, name) ==
        if ps[0].name == name then Some(ps[0].value)
        else if ps[1].name == name then Some(ps[1].value)
        else if ps[2].name == name then Some(ps[2].value)
        else None
    {
      LookupCons(ps[0], ps[1..], name);
      LookupCons(ps[1], ps[2..], name);
      LookupCons(ps[2], [], name);
      assert ps == [ps[0]] + ps[1..] && ps[1..] == [ps[1]] + ps[2..] && ps[2..] == [ps[2]] + [];
    }
  }

  /** Lookup in a list of five parameters: the first one of the name wins. */
  lemma LookupFive(ps: seq<Param>)
    requires |ps| == 5
    ensures forall name ::
              Lookup(ps, name) ==
                (if ps[0].name == name then Some(ps[0].value)
                 else if ps[1].name == name then Some(ps[1].value)
                 else if ps[2].name == name then Some(ps[2].value)
                 else if ps[3].name == name then Some(ps[3].value)
                 else if ps[4].name == name then Some(ps[4].value)
                 else None)
  {
    LookupThree(ps[2..]);
    forall name
      ensures Lookup(ps, name) ==
        if ps[0].name == name then Some(ps[0].value)
        else if ps[1].name == name then Some(ps[1].value)
        else Lookup(ps[2..], name)
    {
      LookupCons(ps[0], ps[1..], name);
      LookupCons(ps[1], ps[2..], name);
      assert ps == [ps[0]] + ps[1..] && ps[1..] == [ps[1]] + ps[2..];
    }
  }

  /** The channel search (`type=channel`, one result) of the identifier fallback. */
  function ChannelSearchRequest(query: string, apiKey: string): (req: Request)
    ensures req.endpoint == SearchEndpoint && |req.params| == 5
  {
    Request(SearchEndpoint, [Param(Part, "snippet"), Param(Q, query), Param(Type, "channel"),
                             Param(MaxResults, "1"), Param(Key, apiKey)])
  }

  /**
   * The channel search sends the query text and the key and asks for one
   * channel; it names no channel and no page token.
   */
  lemma ChannelSearchRequestParams(query: string, apiKey: string)
    ensures var ps := ChannelSearchRequest(query, apiKey).params;
      && Lookup(ps, Part) == Some("snippet")
      && Lookup(ps, Q) == Some(query)
      && Lookup(ps, Type) == Some("channel")
      && Lookup(ps, MaxResults) == Some("1")
      && Lookup(ps, Key) == Some(apiKey)
      && Lookup(ps, ChannelId) == None && Lookup(ps, PageToken) == None
  {
    LookupFive(ChannelSearchRequest(query, apiKey).params);
  }

  /** The content-details request that yields the uploads playlist. */
  function ChannelsRequest(channelId: string, apiKey: string): (req: Request)
    ensures req.endpoint == ChannelsEndpoint && |req.params| == 3
  {
    Request(ChannelsEndpoint, [Param(Part, "contentDetails"), Param(Id, channelId), Param(Key, apiKey)])
  }

  /** The channel request asks for the content details of the given channel with the key. */
  lemma ChannelsRequestParams(channelId: string, apiKey: string)
    ensures var ps := ChannelsRequest(channelId, apiKey).params;
      && Lookup(ps, Part) == Some("contentDetails")
      && Lookup(ps, Id) == Some(channelId)
      && Lookup(ps, Key) == Some(apiKey)
      && Lookup(ps, PageToken) == None
  {
    LookupThree(ChannelsRequest(channelId, apiKey).params);
  }
}
