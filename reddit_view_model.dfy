/**
 * The view model behind the feed: the posts on screen, a loading flag and an
 * optional error message, updated around one awaited call to the client.
 * The call is split in two steps, `BeginFetch` (everything before the
 * `await`) and `CompleteFetch` (everything after it), so that the state a
 * view can observe while the request is in flight is stated too. The client
 * is a parameter: a function from the requested limit to what the client
 * returned or threw.
 */
module RedditViewModel {
  import opened Wrappers
  import opened Decimal
  import opened RedditClient

  /** The limit the view model always asks the client for. */
  const FetchLimit: int := 30

  /** What the client's `fetchPopularPosts(limit:)` returned or threw. */
  type ClientOutcome = Result<seq<RedditPost>, RedditError>

  /** The observable state of the view model. */
  datatype ViewState = ViewState(posts: seq<RedditPost>, isLoading: bool, errorMessage: Option<string>)

  const InitialState: ViewState := ViewState([], false, None)

  /** The state at the `await`: loading, no error, posts as they were. */
  function Begun(s: ViewState): ViewState {
    s.(isLoading := true, errorMessage := None)
  }

  /** The state after the `await` returns or throws. */
  function Completed(s: ViewState, outcome: ClientOutcome): ViewState {
    match outcome
    case Success(posts) => s.(posts := posts, isLoading := false)
    case Failure(e) => s.(errorMessage := Some(ErrorDescription(e)), isLoading := false)
  }

  /** One whole fetch. */
  function Fetched(s: ViewState, outcome: ClientOutcome): ViewState {
    Completed(Begun(s), outcome)
  }

  class ViewModel {
    var posts: seq<RedditPost>
    var isLoading: bool
    var errorMessage: Option<string>

    constructor ()
      ensures State() == InitialState
    {
      posts := [];
      isLoading := false;
      errorMessage := None;
    }

    function State(): ViewState
      reads this
    {
      ViewState(posts, isLoading, errorMessage)
    }

    /** The two assignments before the `await`. */
    method BeginFetch()
      modifies this
      ensures isLoading && errorMessage == None && posts == old(posts)
      ensures State() == Begun(old(State()))
    {
      isLoading := true;
      errorMessage := None;
    }

    /** The `do`/`catch` after the `await`, then clearing the loading flag. */
    method CompleteFetch(outcome: ClientOutcome)
      modifies this
      ensures !isLoading
      ensures outcome.Success? ==> posts == outcome.value && errorMessage == old(errorMessage)
      ensures outcome.Failure? ==> posts == old(posts) && errorMessage == Some(ErrorDescription(outcome.error))
      ensures State() == Completed(old(State()), outcome)
    {
      match outcome {
        case Success(result) =>
          posts := result;
        case Failure(e) =>
          errorMessage := Some(ErrorDescription(e));
      }
      isLoading := false;
    }

    /** `fetchPopularPosts()`: begin, ask the client for 30 posts, complete. */
    method FetchPopularPosts(client: int -> ClientOutcome)
      modifies this
      ensures State() == Fetched(old(State()), client(30))
    {
      BeginFetch();
      var outcome := client(FetchLimit);
      CompleteFetch(outcome);
    }

    /** `refreshPosts()` is the same fetch. */
    method RefreshPosts(client: int -> ClientOutcome)
      modifies this
      ensures State() == Fetched(old(State()), client(30))
    {
      FetchPopularPosts(client);
    }
  }

  /** While the request is in flight the view sees a loading state with the old posts. */
  lemma AwaitPointState(s: ViewState)
    ensures Begun(s).isLoading
    ensures Begun(s).errorMessage == None
    ensures Begun(s).posts == s.posts
  {
  }

  /** Loading ends on both paths. */
  lemma FetchEndsLoading(s: ViewState, outcome: ClientOutcome)
    ensures !Fetched(s, outcome).isLoading
  {
  }

  /** Success replaces the posts wholesale and leaves no error. */
  lemma FetchSuccessReplacesPosts(s: ViewState, posts: seq<RedditPost>)
    ensures Fetched(s, Success(posts)) == ViewState(posts, false, None)
  {
  }

  /** Failure keeps the posts and shows the error's description. */
  lemma FetchFailureKeepsPosts(s: ViewState, e: RedditError)
    ensures Fetched(s, Failure(e)) == ViewState(s.posts, false, Some(ErrorDescription(e)))
  {
  }

  /** After a fetch there is no error message exactly when the client succeeded. */
  lemma FetchErrorIffFailure(s: ViewState, outcome: ClientOutcome)
    ensures Fetched(s, outcome).errorMessage.None? <==> outcome.Success?
  {
  }

  /** A non-200 status leaves the posts alone and shows "Network error: HTTP error: <status>". */
  lemma FetchHttpFailure(s: ViewState, parses: string -> bool, status: int, body: DecodeOutcome)
    requires parses(RequestURL(FetchLimit)) && status != 200
    ensures Fetched(s, FetchPopularPosts(FetchLimit, parses, Delivered(HTTPResponse(status), body))) ==
              ViewState(s.posts, false, Some(NetworkErrorPrefix + HttpErrorPrefix + IntToString(status)))
  {
    var e := NetworkError(Reddit(HttpError(status)));
    FetchFailureClassification(FetchLimit, parses, Delivered(HTTPResponse(status), body));
    FetchFailureKeepsPosts(s, e);
    HttpFailureDescription(FetchLimit, parses, status, body);
  }

  /** A body that does not decode leaves the posts alone and shows the decoder's complaint. */
  lemma FetchDecodeFailure(s: ViewState, parses: string -> bool, failure: DecodingFailure)
    requires parses(RequestURL(FetchLimit))
    ensures Fetched(s, FetchPopularPosts(FetchLimit, parses, Delivered(HTTPResponse(200), DecodeFailed(failure)))) ==
              ViewState(s.posts, false, Some("Decoding error: " + failure.description))
  {
  }
}
