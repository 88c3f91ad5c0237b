# Artemis feed client, modelled in Dafny

Artemis is a small SwiftUI client for the "popular" listing of Reddit. It
fetches one page of posts from `https://www.reddit.com/r/popular.json?limit=30`,
decodes it into `RedditPost` records and shows them as a feed with images and
videos, a loading indicator, an error panel with a Retry button, and
pull-to-refresh.

This project models the logic of that app:

- `wrappers.dfy`: Swift optionals and throwing calls as `Option` and `Result`.
- `decimal.dfy`: how Swift interpolation renders an `Int` (`"\(statusCode)"`), with a parser that reads it back.
- `reddit_client.dfy`: the records, the four media properties a post derives (`hasImage`, `hasVideo`, `imageURL`, `videoURL`), the `RedditError` taxonomy with `errorDescription`, and `RedditClient.fetchPopularPosts`. The request, the JSON decoder and Foundation's URL parser are inputs. `Transport` says what the session delivered or why it failed. `DecodeOutcome` says what the decoder made of the body. `parses` says which strings `URL(string:)` accepts. The `do` block and its two `catch` clauses are modelled separately (`Attempt`, `Catch`), so the catch order is explicit.
- `reddit_view_model.dfy`: the `RedditViewModel` class with its three fields. `fetchPopularPosts` is split into `BeginFetch` (before the `await`) and `CompleteFetch` (after it). The client is a function from the requested limit to what it returned or threw. The pure functions `Begun`, `Completed` and `Fetched` give the same transitions on a `ViewState` record, and the lemmas are stated over them.
- `reddit_media_view.dfy`: the media choice of `RedditMediaView.body`, the placeholder in the video branch, the `EmptyView` fallback in the image branch, and steps 1-2 of `processImageURL` (`&amp;` to `&`, then `https:` before a leading `//`).
- `content_view.dfy`: which screen `ContentView` shows for the view model's state, and the Retry and pull-to-refresh actions.

The error taxonomy suggests that a non-200 status fails with `httpError`. The code does not do that. `invalidResponse` and `httpError` are thrown inside the `do` block, and the generic `catch` re-wraps everything that is not a `DecodingError` as `networkError`. So a 404 reaches the user as "Network error: HTTP error: 404". The model follows the code. `FetchFailureClassification`, `FetchErrorShape` and `FetchHttpFailure` state this behaviour.

## Model

| member | source | states |
|---|---|---|
| `Decimal.NatToString` | Artemis/RedditClient.swift:204 | The decimal text of a natural is non-empty, all digits, and has no leading zero except for 0 itself |
| `Decimal.IntToString` | Artemis/RedditClient.swift:204 | Interpolating an `Int` gives non-empty text that starts with '-' exactly for negative numbers, followed by digits |
| `Decimal.ParseNatToString` | Artemis/RedditClient.swift:204 | Reading the digits back gives the natural again |
| `Decimal.ParseIntToString` | Artemis/RedditClient.swift:204 | The interpolated text of any `Int` is well-formed and parses back to the same number |
| `Decimal.IntToStringInjective` | Artemis/RedditClient.swift:204 | Different status codes are rendered as different text |
| `RedditClient.HasImageIffImageURL` | Artemis/RedditClient.swift:53-75 | `hasImage` holds exactly when `imageURL` is non-nil |
| `RedditClient.ImageURLPrefersPreview` | Artemis/RedditClient.swift:67-70 | With at least one preview image, `imageURL` is the first image's source URL whatever `post_hint` is, and `hasImage` holds |
| `RedditClient.ImageURLWithoutPreview` | Artemis/RedditClient.swift:71-74 | Without preview images, `imageURL` is the post's `url` when the hint is "image", and otherwise nil with `hasImage` false |
| `RedditClient.VideoURLPrecedence` | Artemis/RedditClient.swift:77-84 | `videoURL` is `media`'s fallback URL when `media` has a video. Only otherwise is it `secureMedia`'s, and it is nil when neither has a video |
| `RedditClient.VideoURLImpliesHasVideo` | Artemis/RedditClient.swift:63-65 | A non-nil `videoURL` implies `hasVideo` |
| `RedditClient.HasVideoWithoutURL` | Artemis/RedditClient.swift:63-65 | The converse fails: `is_video` with no media containers gives `hasVideo` with a nil `videoURL` |
| `RedditClient.HttpErrorDescriptionDecodes` | Artemis/RedditClient.swift:203-204 | `httpError(s)` describes as "HTTP error: " followed by text that parses back to s |
| `RedditClient.NetworkErrorDescriptionNests` | Artemis/RedditClient.swift:207-208 | A `networkError` wrapping a `RedditError` describes as "Network error: " followed by the inner error's description |
| `RedditClient.NestedHttpErrorDescription` | Artemis/RedditClient.swift:197-209 | A 503 wrapped as a network error describes as "Network error: HTTP error: 503" |
| `RedditClient.RequestURL` | Artemis/RedditClient.swift:157 | The request URL is the base URL and popular path, followed by a limit that parses back to the requested limit |
| `RedditClient.RequestURLDefaultLimit` | Artemis/RedditClient.swift:149-157 | For limit 30 the URL is exactly `https://www.reddit.com/r/popular.json?limit=30` |
| `RedditClient.PostsOf` | Artemis/RedditClient.swift:178 | Flattening the children keeps their number and order: post i is `children[i].data` |
| `RedditClient.FetchSuccessIff` | Artemis/RedditClient.swift:156-184 | The fetch succeeds exactly when the URL parses, the response is HTTP with status 200, and the body decodes |
| `RedditClient.FetchSuccessPosts` | Artemis/RedditClient.swift:177-178 | On a decoded 200 response the result has as many posts as the listing has children, post i being `children[i].data` |
| `RedditClient.FetchFailureClassification` | Artemis/RedditClient.swift:166-184 | Once the URL is built, a transport failure gives `networkError(e)`. A non-HTTP response gives `networkError(invalidResponse)`. A status s other than 200 gives `networkError(httpError(s))`. A body that does not decode gives `decodingError` |
| `RedditClient.FetchErrorShape` | Artemis/RedditClient.swift:159-184 | A failure is `invalidURL` exactly when the URL does not parse. Every failure is `invalidURL`, `networkError` or `decodingError`, so `invalidResponse` and `httpError` never escape unwrapped |
| `RedditClient.HttpFailureDescription` | Artemis/RedditClient.swift:173-183 | A non-200 status fails with the description "Network error: HTTP error: " followed by the status |
| `RedditViewModel.ViewModel.constructor` | Artemis/RedditViewModel.swift:14-22 | A new view model has no posts, is not loading and has no error message |
| `RedditViewModel.ViewModel.BeginFetch` | Artemis/RedditViewModel.swift:25-26 | Before the await, `isLoading` is true, `errorMessage` is nil and `posts` is unchanged |
| `RedditViewModel.ViewModel.CompleteFetch` | Artemis/RedditViewModel.swift:28-34 | After the await, success replaces `posts` and failure sets `errorMessage` to the error's description, keeping `posts`. `isLoading` ends false on both paths |
| `RedditViewModel.ViewModel.FetchPopularPosts` | Artemis/RedditViewModel.swift:24-35 | The new state is the begin/complete transition of the old state, applied to what the client answers for limit 30 |
| `RedditViewModel.ViewModel.RefreshPosts` | Artemis/RedditViewModel.swift:37-39 | Refreshing has exactly the effect of fetching |
| `RedditViewModel.AwaitPointState` | Artemis/RedditViewModel.swift:25-29 | At the await point the view model is loading, has no error message and still holds its previous posts |
| `RedditViewModel.FetchEndsLoading` | Artemis/RedditViewModel.swift:34 | After a fetch, `isLoading` is false on both paths |
| `RedditViewModel.FetchSuccessReplacesPosts` | Artemis/RedditViewModel.swift:26-29 | On success, the posts are replaced wholesale by the client's result and no error message is set |
| `RedditViewModel.FetchFailureKeepsPosts` | Artemis/RedditViewModel.swift:28-32 | On failure, the posts are unchanged and the error message is the error's description |
| `RedditViewModel.FetchErrorIffFailure` | Artemis/RedditViewModel.swift:26-32 | After a fetch, the error message is nil exactly when the client succeeded |
| `RedditViewModel.FetchHttpFailure` | Artemis/RedditViewModel.swift:24-35 | With the real client, a non-200 status leaves the posts alone and shows "Network error: HTTP error: " followed by the status |
| `RedditViewModel.FetchDecodeFailure` | Artemis/RedditViewModel.swift:24-35 | With the real client, a body that does not decode leaves the posts alone and shows "Decoding error: " followed by the decoder's description |
| `RedditMediaView.SelectMediaPrecedence` | Artemis/RedditMediaView.swift:16-22 | A card shows a video if `hasVideo`, else an image if `hasImage`, else nothing. Video wins when both hold |
| `RedditMediaView.VideoViewPlaceholder` | Artemis/RedditMediaView.swift:86-100 | A nil `videoURL` gives the "Video not available" placeholder, and a player only ever plays the post's `videoURL` |
| `RedditMediaView.VideoFlagOnlyShowsPlaceholder` | Artemis/RedditMediaView.swift:16-17 | A post flagged `is_video` without media containers takes the video branch and shows the placeholder |
| `RedditMediaView.ImageFallbackUnreachable` | Artemis/RedditMediaView.swift:26-58 | When the image branch is taken, an image URL exists, so the `EmptyView` fallback is never shown |
| `RedditMediaView.ReplaceAmpLength` | Artemis/RedditMediaView.swift:67-69 | Replacing `&amp;` shortens the string by 4 per replaced occurrence |
| `RedditMediaView.CountAmpPositiveIff` | Artemis/RedditMediaView.swift:67 | Some occurrence is replaced exactly when the string contains `&amp;` |
| `RedditMediaView.ReplaceAmpWithoutOccurrence` | Artemis/RedditMediaView.swift:67-69 | A string without `&amp;` passes step 1 unchanged |
| `RedditMediaView.ReplaceAmpSinglePass` | Artemis/RedditMediaView.swift:68 | The replacement is one pass: "&amp;amp;" becomes "&amp;", which still contains `&amp;` |
| `RedditMediaView.ReplaceAmpUndoesEscape` | Artemis/RedditMediaView.swift:67-69 | Step 1 exactly undoes HTML-escaping of ampersands |
| `RedditMediaView.AddHttpsSchemeResult` | Artemis/RedditMediaView.swift:72-74 | A string starting with "//" becomes "https:" followed by it, which starts with "https://". Any other string is unchanged |
| `RedditMediaView.ProcessedImageURL` | Artemis/RedditMediaView.swift:64-74 | Steps 1-2 lengthen the URL by at most 6 characters |
| `RedditMediaView.ProcessImageURL` | Artemis/RedditMediaView.swift:64-74 | The guarded in-place rewrites compute steps 1-2, at most 6 characters longer. A URL with no `&amp;` and no leading "//" comes back unchanged |
| `ContentView.NoViewModelShowsLoading` | Artemis/ContentView.swift:35-37 | With no view model, the loading screen is shown |
| `ContentView.LoadingWinsOverError` | Artemis/ContentView.swift:28-29 | When loading with no posts, the loading screen is shown even if an error message is set |
| `ContentView.ErrorScreenIff` | Artemis/ContentView.swift:28-31 | The error panel is shown exactly when there is an error message and not (loading with no posts). It shows that message |
| `ContentView.PostsListIff` | Artemis/ContentView.swift:28-33 | The post list is shown exactly when there is no error message and not (loading with no posts) |
| `ContentView.RefreshKeepsList` | Artemis/ContentView.swift:28-33 | While a refresh over loaded posts is in flight, the list stays on screen |
| `ContentView.FirstFetchShowsLoading` | Artemis/ContentView.swift:28-29 | While the first fetch is in flight, the loading screen is shown |
| `ContentView.ScreenAfterFetch` | Artemis/ContentView.swift:28-33 | After a fetch, the list is shown on success. On failure the error panel is shown with the error's description |
| `ContentView.Perform` | Artemis/ContentView.swift:85-88 | Retry and pull-to-refresh both apply the same view-model fetch with limit 30 |

## Left out

- Network I/O. `URLSession.data` and the User-Agent header (Artemis/RedditClient.swift:163-164) are effects. What the session delivers or throws is the input `Transport`.
- JSON decoding with `JSONDecoder`/`Codable`. What the decoder makes of the body is the input `DecodeOutcome`. The `localizedDescription` of a `DecodingError` is an uninterpreted string, and so is that of a transport error.
- `URL(string:)` is the parameter `parses`, both when the client builds its request and in the video branch.
- `addingPercentEncoding` and the final `URL(string:)` of `processImageURL` (Artemis/RedditMediaView.swift:76-81) are Foundation calls whose rules are not visible here.
- Swift strings compare by grapheme cluster, but the model compares `char`s. For ASCII URLs the two agree. A combining mark right after `&amp;` or `//` would make Swift's `contains` and `hasPrefix` differ from the model.
- `errorDescription` is `String?` in Swift but never nil, so `ErrorDescription` returns a plain string.
- `RedditListing` is not modelled. It has the same shape as `RedditResponse`, and the decoder never uses it.
- `Int` is unbounded. Status codes and limits are far from 64-bit overflow. `created` (a `TimeInterval`) is a `real` that nothing reads.
- The race between overlapping fetch tasks is not modelled. Each fetch is one sequential begin/complete pair.
- The view model created in `.task` and `.onChange` (Artemis/ContentView.swift:42-57) and the `@State` bookkeeping are not modelled.
- `ContentView.Perform` takes an existing view model. The `viewModel?` optional chaining of Retry, when there is no view model, is not modelled. The error panel only appears when a view model exists.
- `timeAgoString` in RedditPostView.swift depends on the wall clock and on floating-point arithmetic.
- RedditVideoPlayer.swift (AVPlayer playback) is not part of this model.
- SwiftUI layout and styling, and the app shell in ArtemisApp.swift, are not modelled.
