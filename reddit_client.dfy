/**
 * The records decoded from the listing endpoint, the media a post derives
 * from them, the error taxonomy with its user-facing descriptions, and the
 * classification `fetchPopularPosts` performs on the outcome of its one
 * request. The request itself, the JSON decoder and Foundation's URL parser
 * are inputs here: `Transport` is what the session delivered (or why it
 * failed), `DecodeOutcome` is what the decoder made of a delivered body, and
 * `parses` says which strings `URL(string:)` accepts.
 */
module RedditClient {
  import opened Wrappers
  import opened Decimal

  // ---------------------------------------------------------------------
  // Records

  datatype RedditPreviewSource = RedditPreviewSource(url: string, width: int, height: int)

  datatype RedditPreviewImage = RedditPreviewImage(
    source: RedditPreviewSource,
    resolutions: seq<RedditPreviewSource>)

  datatype RedditPreview = RedditPreview(images: seq<RedditPreviewImage>)

  datatype RedditVideo = RedditVideo(
    fallbackURL: string,
    height: int,
    width: int,
    duration: int,
    isGif: bool)

  datatype RedditMedia = RedditMedia(redditVideo: Option<RedditVideo>)

  /** One post. `created` is seconds since the epoch, a Swift `TimeInterval`. */
  datatype RedditPost = RedditPost(
    id: string,
    title: string,
    author: string,
    subreddit: string,
    score: int,
    numComments: int,
    created: real,
    url: string,
    permalink: string,
    thumbnail: Option<string>,
    isVideo: bool,
    isSelf: bool,
    selftext: Option<string>,
    preview: Option<RedditPreview>,
    media: Option<RedditMedia>,
    secureMedia: Option<RedditMedia>,
    postHint: Option<string>)

  datatype RedditPostWrapper = RedditPostWrapper(data: RedditPost)

  /** A listing page; the `after`/`before` cursors are decoded and never used. */
  datatype RedditListingData = RedditListingData(
    children: seq<RedditPostWrapper>,
    after: Option<string>,
    before: Option<string>)

  datatype RedditResponse = RedditResponse(data: RedditListingData)

  // ---------------------------------------------------------------------
  // Media derived from a post (computed properties, never stored)

  /** The preview exists and carries at least one image. */
  predicate HasPreviewImage(p: RedditPost) {
    p.preview.Some? && |p.preview.value.images| > 0
  }

  predicate IsImageHint(p: RedditPost) {
    p.postHint == Some("image")
  }

  predicate HasImage(p: RedditPost) {
    if HasPreviewImage(p) then true
    else if IsImageHint(p) then true
    else false
  }

  /** The video of an optional media container, if it has one. */
  function VideoOf(m: Option<RedditMedia>): Option<RedditVideo> {
    if m.Some? then m.value.redditVideo else None
  }

  predicate HasVideo(p: RedditPost) {
    p.isVideo || VideoOf(p.media).Some? || VideoOf(p.secureMedia).Some?
  }

  function ImageURL(p: RedditPost): Option<string> {
    if HasPreviewImage(p) then Some(p.preview.value.images[0].source.url)
    else if IsImageHint(p) then Some(p.url)
    else None
  }

  function VideoURL(p: RedditPost): Option<string> {
    if VideoOf(p.media).Some? then Some(VideoOf(p.media).value.fallbackURL)
    else if VideoOf(p.secureMedia).Some? then Some(VideoOf(p.secureMedia).value.fallbackURL)
    else None
  }

  /** A post reports an image exactly when it has an image URL. */
  lemma HasImageIffImageURL(p: RedditPost)
    ensures HasImage(p) <==> ImageURL(p).Some?
  {
  }

  /** A preview image wins, whatever the content hint says. */
  lemma ImageURLPrefersPreview(p: RedditPost)
    requires p.preview.Some? && |p.preview.value.images| > 0
    ensures ImageURL(p) == Some(p.preview.value.images[0].source.url)
    ensures HasImage(p)
  {
  }

  /** Without preview images the hint decides: the post's own URL, or nothing. */
  lemma ImageURLWithoutPreview(p: RedditPost)
    requires p.preview.None? || |p.preview.value.images| == 0
    ensures p.postHint == Some("image") ==> ImageURL(p) == Some(p.url)
    ensures p.postHint != Some("image") ==> ImageURL(p).None? && !HasImage(p)
  {
  }

  /** `media`'s video wins; `secureMedia`'s is used only when `media` has none. */
  lemma VideoURLPrecedence(p: RedditPost)
    ensures p.media.Some? && p.media.value.redditVideo.Some? ==>
              VideoURL(p) == Some(p.media.value.redditVideo.value.fallbackURL)
    ensures (p.media.None? || p.media.value.redditVideo.None?) &&
            p.secureMedia.Some? && p.secureMedia.value.redditVideo.Some? ==>
              VideoURL(p) == Some(p.secureMedia.value.redditVideo.value.fallbackURL)
    ensures (p.media.None? || p.media.value.redditVideo.None?) &&
            (p.secureMedia.None? || p.secureMedia.value.redditVideo.None?) ==>
              VideoURL(p).None?
  {
  }

  /** A video URL implies a video ... */
  lemma VideoURLImpliesHasVideo(p: RedditPost)
    ensures VideoURL(p).Some? ==> HasVideo(p)
  {
  }

  /** ... but not conversely: the `is_video` flag alone reports a video with no URL. */
  lemma HasVideoWithoutURL(p: RedditPost)
    requires p.isVideo && p.media.None? && p.secureMedia.None?
    ensures HasVideo(p) && VideoURL(p).None?
  {
  }

  // ---------------------------------------------------------------------
  // Errors

  /** What a `DecodingError` contributes: its `localizedDescription`. */
  datatype DecodingFailure = DecodingFailure(description: string)

  /**
   * A Swift `Error` as the catch clauses see it: one of this module's own
   * errors, or an error from Foundation (the session's transport failures),
   * known only by its `localizedDescription`.
   */
  datatype Error =
    | Reddit(reddit: RedditError)
    | Foreign(description: string)

  datatype RedditError =
    | InvalidURL
    | InvalidResponse
    | HttpError(statusCode: int)
    | DecodingError(decoding: DecodingFailure)
    | NetworkError(cause: Error)

  const HttpErrorPrefix: string := "HTTP error: "
  const NetworkErrorPrefix: string := "Network error: "
  const DecodingErrorPrefix: string := "Decoding error: "

  /** `RedditError.errorDescription`; it is never nil. */
  function ErrorDescription(e: RedditError): string
    decreases e
  {
    match e
    case InvalidURL => "Invalid URL"
    case InvalidResponse => "Invalid response"
    case HttpError(s) => HttpErrorPrefix + IntToString(s)
    case DecodingError(d) => DecodingErrorPrefix + d.description
    case NetworkError(cause) => NetworkErrorPrefix + LocalizedDescription(cause)
  }

  /**
   * `error.localizedDescription`: for a `LocalizedError` with a description,
   * that description; for a foreign error, whatever Foundation says.
   */
  function LocalizedDescription(e: Error): string
    decreases e
  {
    match e
    case Reddit(r) => ErrorDescription(r)
    case Foreign(d) => d
  }

  /** The status code can be read back from the description of an HTTP error. */
  lemma HttpErrorDescriptionDecodes(s: int)
    ensures |ErrorDescription(HttpError(s))| > |HttpErrorPrefix|
    ensures ErrorDescription(HttpError(s))[..|HttpErrorPrefix|] == HttpErrorPrefix
    ensures IsIntText(ErrorDescription(HttpError(s))[|HttpErrorPrefix|..])
    ensures ParseInt(ErrorDescription(HttpError(s))[|HttpErrorPrefix|..]) == s
  {
    var d := ErrorDescription(HttpError(s));
    assert d[|HttpErrorPrefix|..] == IntToString(s);
    ParseIntToString(s);
  }

  /** Wrapped errors describe themselves inside the wrapper's prefix. */
  lemma NetworkErrorDescriptionNests(inner: RedditError)
    ensures ErrorDescription(NetworkError(Reddit(inner))) == NetworkErrorPrefix + ErrorDescription(inner)
  {
  }

  /** For example, a 503 wrapped as a network error. */
  lemma NestedHttpErrorDescription()
    ensures ErrorDescription(NetworkError(Reddit(HttpError(503)))) == "Network error: HTTP error: 503"
  {
  }

  // ---------------------------------------------------------------------
  // fetchPopularPosts

  const BaseURL: string := "https://www.reddit.com"
  const PopularPath: string := "/r/popular.json?limit="

  /** The request URL string for `limit` posts; the limit can be read back from its query. */
  function RequestURL(limit: int): (u: string)
    ensures |u| > |BaseURL + PopularPath|
    ensures u[..|BaseURL + PopularPath|] == BaseURL + PopularPath
    ensures IsIntText(u[|BaseURL + PopularPath|..])
    ensures ParseInt(u[|BaseURL + PopularPath|..]) == limit
  {
    var u := BaseURL + PopularPath + IntToString(limit);
    assert u[|BaseURL + PopularPath|..] == IntToString(limit);
    ParseIntToString(limit);
    u
  }

  lemma RequestURLDefaultLimit()
    ensures RequestURL(30) == "https://www.reddit.com/r/popular.json?limit=30"
  {
  }

  /** The response object the session returns: an HTTP response or some other kind. */
  datatype UrlResponse = NonHTTPResponse | HTTPResponse(statusCode: int)

  /** What the decoder makes of the body. */
  datatype DecodeOutcome = Decoded(response: RedditResponse) | DecodeFailed(failure: DecodingFailure)

  /** What the session call produced: it threw, or it delivered a body and a response. */
  datatype Transport =
    | TransportFailed(cause: string)
    | Delivered(response: UrlResponse, body: DecodeOutcome)

  /** What the `do` block throws, split the way the two `catch` clauses test it. */
  datatype Thrown = ThrownDecoding(failure: DecodingFailure) | ThrownOther(error: Error)

  /** `children.map { $0.data }`. */
  function PostsOf(children: seq<RedditPostWrapper>): (posts: seq<RedditPost>)
    ensures |posts| == |children|
    ensures forall i :: 0 <= i < |children| ==> posts[i] == children[i].data
  {
    if children == [] then [] else [children[0].data] + PostsOf(children[1..])
  }

  /** The body of the `do` block. */
  function Attempt(t: Transport): Result<seq<RedditPost>, Thrown> {
    match t
    case TransportFailed(cause) => Failure(ThrownOther(Foreign(cause)))
    case Delivered(NonHTTPResponse, _) => Failure(ThrownOther(Reddit(InvalidResponse)))
    case Delivered(HTTPResponse(status), body) =>
      if status != 200 then Failure(ThrownOther(Reddit(HttpError(status))))
      else match body
        case DecodeFailed(d) => Failure(ThrownDecoding(d))
        case Decoded(r) => Success(PostsOf(r.data.children))
  }

  /** The two `catch` clauses, in order. */
  function Catch(r: Result<seq<RedditPost>, Thrown>): Result<seq<RedditPost>, RedditError> {
    match r
    case Success(posts) => Success(posts)
    case Failure(ThrownDecoding(d)) => Failure(DecodingError(d))
    case Failure(ThrownOther(e)) => Failure(NetworkError(e))
  }

  /**
   * `RedditClient.fetchPopularPosts(limit:)`: build the URL (or throw
   * `invalidURL`), then run the `do` block under its two catch clauses.
   */
  function FetchPopularPosts(limit: int, parses: string -> bool, t: Transport): Result<seq<RedditPost>, RedditError> {
    if !parses(RequestURL(limit)) then Failure(InvalidURL)
    else Catch(Attempt(t))
  }

  /** Only a 200 response whose body decodes succeeds (once the URL is built). */
  lemma FetchSuccessIff(limit: int, parses: string -> bool, t: Transport)
    ensures FetchPopularPosts(limit, parses, t).Success? <==>
              parses(RequestURL(limit)) && t.Delivered? && t.response == HTTPResponse(200) && t.body.Decoded?
  {
  }

  /** On success the result is every child's post, in the children's order. */
  lemma FetchSuccessPosts(limit: int, parses: string -> bool, response: RedditResponse)
    requires parses(RequestURL(limit))
    ensures var r := FetchPopularPosts(limit, parses, Delivered(HTTPResponse(200), Decoded(response)));
            var children := response.data.children;
            r.Success? && |r.value| == |children| &&
            forall i :: 0 <= i < |children| ==> r.value[i] == children[i].data
  {
  }

  /** How each failure is classified once the URL is built. */
  lemma FetchFailureClassification(limit: int, parses: string -> bool, t: Transport)
    requires parses(RequestURL(limit))
    ensures t.TransportFailed? ==>
              FetchPopularPosts(limit, parses, t) == Failure(NetworkError(Foreign(t.cause)))
    ensures t.Delivered? && t.response.NonHTTPResponse? ==>
              FetchPopularPosts(limit, parses, t) == Failure(NetworkError(Reddit(InvalidResponse)))
    ensures t.Delivered? && t.response.HTTPResponse? && t.response.statusCode != 200 ==>
              FetchPopularPosts(limit, parses, t) == Failure(NetworkError(Reddit(HttpError(t.response.statusCode))))
    ensures t.Delivered? && t.response == HTTPResponse(200) && t.body.DecodeFailed? ==>
              FetchPopularPosts(limit, parses, t) == Failure(DecodingError(t.body.failure))
  {
  }

  /** Only `invalidURL` leaves the client unwrapped; `invalidResponse` and `httpError` never do. */
  lemma FetchErrorShape(limit: int, parses: string -> bool, t: Transport)
    ensures FetchPopularPosts(limit, parses, t).Failure? ==>
              var e := FetchPopularPosts(limit, parses, t).error;
              (e == InvalidURL <==> !parses(RequestURL(limit))) &&
              (e.InvalidURL? || e.NetworkError? || e.DecodingError?)
  {
  }

  /** A non-200 status reaches the user as "Network error: HTTP error: <status>". */
  lemma HttpFailureDescription(limit: int, parses: string -> bool, status: int, body: DecodeOutcome)
    requires parses(RequestURL(limit)) && status != 200
    ensures FetchPopularPosts(limit, parses, Delivered(HTTPResponse(status), body)).Failure?
    ensures ErrorDescription(FetchPopularPosts(limit, parses, Delivered(HTTPResponse(status), body)).error) ==
              NetworkErrorPrefix + HttpErrorPrefix + IntToString(status)
  {
    var r := FetchPopularPosts(limit, parses, Delivered(HTTPResponse(status), body));
    assert r == Failure(NetworkError(Reddit(HttpError(status))));
    assert LocalizedDescription(Reddit(HttpError(status))) == HttpErrorPrefix + IntToString(status);
    assert NetworkErrorPrefix + (HttpErrorPrefix + IntToString(status)) ==
           NetworkErrorPrefix + HttpErrorPrefix + IntToString(status);
  }
}
