/**
 * The detail pane of the app's main screen: which of the loading indicator,
 * the error panel and the post list it shows for the view model's state
 * (there may be no view model yet), and the two user actions that re-run
 * the fetch.
 */
module ContentView {
  import opened Wrappers
  import opened RedditClient
  import opened RedditViewModel

  datatype Screen = LoadingScreen | ErrorScreen(message: string) | PostsListScreen

  /** The screen for the view model's state, or for no view model. */
  function SelectScreen(vm: Option<ViewState>): Screen {
    match vm
    case None => LoadingScreen
    case Some(s) =>
      if s.isLoading && |s.posts| == 0 then LoadingScreen
      else if s.errorMessage.Some? then ErrorScreen(s.errorMessage.value)
      else PostsListScreen
  }

  lemma NoViewModelShowsLoading()
    ensures SelectScreen(None) == LoadingScreen
  {
  }

  /** A first load shows the indicator even if an error message is set. */
  lemma LoadingWinsOverError(s: ViewState)
    requires s.isLoading && |s.posts| == 0
    ensures SelectScreen(Some(s)) == LoadingScreen
  {
  }

  /** The error panel, with the view model's message, exactly when there is a message and no first load. */
  lemma ErrorScreenIff(s: ViewState)
    ensures SelectScreen(Some(s)).ErrorScreen? <==>
              s.errorMessage.Some? && !(s.isLoading && |s.posts| == 0)
    ensures SelectScreen(Some(s)).ErrorScreen? ==> SelectScreen(Some(s)).message == s.errorMessage.value
  {
  }

  /** The list in every other case. */
  lemma PostsListIff(s: ViewState)
    ensures SelectScreen(Some(s)) == PostsListScreen <==>
              s.errorMessage.None? && !(s.isLoading && |s.posts| == 0)
  {
  }

  /** A refresh over loaded posts keeps the list on screen while the request is in flight. */
  lemma RefreshKeepsList(s: ViewState)
    requires |s.posts| > 0
    ensures SelectScreen(Some(Begun(s))) == PostsListScreen
  {
  }

  /** The first fetch shows the loading indicator while in flight. */
  lemma FirstFetchShowsLoading()
    ensures SelectScreen(Some(Begun(InitialState))) == LoadingScreen
  {
  }

  /** After any fetch: the list on success, the error panel with the description on failure. */
  lemma ScreenAfterFetch(s: ViewState, outcome: ClientOutcome)
    ensures outcome.Success? ==> SelectScreen(Some(Fetched(s, outcome))) == PostsListScreen
    ensures outcome.Failure? ==>
              SelectScreen(Some(Fetched(s, outcome))) == ErrorScreen(ErrorDescription(outcome.error))
  {
  }

  /** The Retry button of the error panel and the list's pull-to-refresh. */
  datatype UserAction = Retry | PullToRefresh

  /** Both actions run the same fetch on the view model. */
  method Perform(vm: ViewModel, action: UserAction, client: int -> ClientOutcome)
    modifies vm
    ensures vm.State() == Fetched(old(vm.State()), client(30))
  {
    match action {
      case Retry =>
        vm.FetchPopularPosts(client);
      case PullToRefresh =>
        vm.RefreshPosts(client);
    }
  }
}
