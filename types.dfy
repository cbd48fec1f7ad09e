/**
 * The records exchanged between the caller, the retrieval engine and the
 * remote Data API: `Video` and `SearchOptions` of types.ts, the search
 * parameters of services/geminiService.ts, and the response shapes the engine
 * reads, reduced to the fields it looks at.
 */
module Types {
  import opened Wrappers

  /** A collected video: its title and its canonical watch URL. */
  datatype Video = Video(title: string, url: string)

  datatype Order = Date | Rating | Relevance | Title | ViewCount

  datatype VideoDuration = AnyDuration | Long | Medium | Short

  /** `Unfiltered` is the API's value 'none'. */
  datatype SafeSearch = Moderate | Unfiltered | Strict

  /** Every field is optional; absence means the remote default. */
  datatype SearchOptions = SearchOptions(
    order: Option<Order>,
    videoDuration: Option<VideoDuration>,
    safeSearch: Option<SafeSearch>)

  /** `SearchOptions & { channelId?: string, q?: string }`. */
  datatype SearchParams = SearchParams(
    order: Option<Order>,
    videoDuration: Option<VideoDuration>,
    safeSearch: Option<SafeSearch>,
    channelId: Option<string>,
    q: Option<string>)

  /** `{ ...options, channelId }` */
  function WithChannel(options: SearchOptions, channelId: string): (params: SearchParams)
    ensures params.order == options.order && params.videoDuration == options.videoDuration
    ensures params.safeSearch == options.safeSearch
    ensures params.channelId == Some(channelId) && params.q.None?
  {
    SearchParams(options.order, options.videoDuration, options.safeSearch, Some(channelId), None)
  }

  /** `{ ...options, q: query }` */
  function WithQuery(options: SearchOptions, query: string): (params: SearchParams)
    ensures params.order == options.order && params.videoDuration == options.videoDuration
    ensures params.safeSearch == options.safeSearch
    ensures params.q == Some(query) && params.channelId.None?
  {
    SearchParams(options.order, options.videoDuration, options.safeSearch, None, Some(query))
  }

  function OrderName(o: Order): string {
    match o
    case Date => "date"
    case Rating => "rating"
    case Relevance => "relevance"
    case Title => "title"
    case ViewCount => "viewCount"
  }

  function DurationName(d: VideoDuration): string {
    match d
    case AnyDuration => "any"
    case Long => "long"
    case Medium => "medium"
    case Short => "short"
  }

  function SafeSearchName(s: SafeSearch): string {
    match s
    case Moderate => "moderate"
    case Unfiltered => "none"
    case Strict => "strict"
  }

  /** JavaScript truthiness of an optional string: present and not empty. */
  predicate Truthy(s: Option<string>) {
    s.Some? && s.value != ""
  }

  /**
   * What a collaborator throws: an `Error` with its message, or some other
   * value (the `instanceof Error` test of the source fails for it).
   */
  datatype Raised = ErrorRaised(message: string) | NonErrorRaised

  /**
   * The body of a non-ok response as `response.json()` sees it: either parsing
   * throws, or it yields a value whose `error.message` is read (absent when
   * any step of `errorData?.error?.message` is missing).
   */
  datatype ErrorBody = Unparsable(raised: Raised) | Parsed(message: Option<string>)

  /**
   * The outcome of one remote call: an ok response with its decoded data, a
   * non-ok response with its body, or a call that threw (fetch rejected, or the
   * ok body could not be decoded).
   */
  datatype Response<+T> = Delivered(data: T) | NotOk(body: ErrorBody) | Rejected(raised: Raised)

  /**
   * One item of a playlistItems or search page: its title and the video id
   * (`snippet.resourceId.videoId` or `id.videoId`), absent when any step is missing.
   */
  datatype Item = Item(title: string, videoId: Option<string>)

  /** One decoded page: its items and the continuation token. */
  datatype Page = Page(items: seq<Item>, nextPageToken: Option<string>)
}
