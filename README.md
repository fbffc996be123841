# Fetch pipeline of the demo_project iOS client, in Dafny

The app is a small SwiftUI client. It fetches users and posts from a fixed REST service and shows
them on two screens. This project models the core of that app:

- the error taxonomy (`NetworkError`) and the message each error displays;
- the transport (`NetworkManager.request`): the URL guard, the request built step by step, and the
  classification of the session's answer into a decoded value or a `NetworkError`;
- the typed client (`APIService`): endpoint templates filled with the decimal id;
- the screen controllers (`BaseViewModel`, `HomeViewModel`, `ProfileViewModel`): loading and error
  bookkeeping, the data they own, and the subscriptions they store;
- the dependency registry (`DIContainer`);
- the string helpers `truncate(length:trailing:)` and `isValidEmail`.

Layout, one module per source file:

| file | module | models |
|---|---|---|
| wrappers.dfy | Wrappers | Option / Result |
| decimal.dfy | Decimal | `"\(n)"` for an `Int`, and its inverse |
| api_constants.dfy | APIConstants | base URL, endpoint templates, the GET method name |
| models.dfy | Models | `Post`, and `User` as an opaque record with an `id` |
| network_error.dfy | NetworkErrors | `NetworkError.errorDescription` |
| network_manager.dfy | NetworkManager | `request` and its `tryMap` / `decode` / `mapError` chain |
| api_service.dfy | APIService | `getUsers`, `getUser`, `getPosts`, `getUserPosts` |
| base_view_model.dfy | BaseViewModels | `BaseViewModel` |
| home_view_model.dfy | HomeViewModels | `HomeViewModel` |
| profile_view_model.dfy | ProfileViewModels | `ProfileViewModel` |
| di_container.dfy | DependencyInjection | `DIContainer` |
| string_extensions.dfy | StringExtensions | `truncate`, `isValidEmail` |

How the model is built:

- The foreign calls of `request` are oracles held in `NetworkManager.Environment`. They say whether
  `URL(string:)` accepts the string, what `JSONSerialization` makes of the parameters, what the
  session delivers for a request, and what `JSONDecoder` makes of a body.
- `Request` returns the result together with the request it handed to the session (`None` when
  it fails before any I/O).
- The `tryMap`, `decode` and `mapError` closures are pure functions. `Classify` composes them.
- Each typed-client operation returns a `Call`: the endpoint, method and parameters it hands to
  `request`.
- Swift's subclassing of `BaseViewModel` is modelled by composition: each screen controller holds
  its `base` object.
- The three base transitions are specified on a `ScreenState` value. Each class method ties the
  new state to the old one through those functions.
- Every Combine callback (`receiveValue`, `receiveCompletion`) is an event method applied in one
  step. An event names the stored `Subscription` it is delivered on. Each subscription records
  its `Call` and which load's pair of callbacks (`Sink`) it runs.
- `Load…` methods return the new subscription as a handle, so that events can name it.
- Events may arrive in any order the caller chooses. The overlapping loads of a double tap are one
  such order (`HomeViewModels.DoubleTapLoadUsers`).

Where the code differs from what a reader of such a client might expect, the model follows the
code:

- `Content-Type: application/json` is set on every request, with or without a body.
- Only the `tryMap` closure throws a `NetworkError`, and it throws only `invalidResponse` or
  `serverError`. So `timeout`, `noData` and `noInternetConnection` are never produced.
- A session timeout arrives as a transport error and becomes `networkFailure`, not `timeout`.
- The posts loads (`loadPosts`, `loadUserPosts`) neither call `startLoading` nor, on completion,
  `stopLoading`. Only a failed posts completion lowers the spinner, through `handleError`.

## Model

| member | source | states |
|---|---|---|
| `Decimal.IntToString` | demo_project/Core/Network/APIService.swift:23 | `"\(id)"` is a '-' exactly for negative ids, then a non-empty run of digits with no leading zero (a first '0' only in "0" for id 0) |
| `Decimal.IntRoundTrip` | demo_project/Core/Network/NetworkError.swift:26 | the decimal text of an `Int` reads back as that `Int` |
| `Decimal.IntToStringInjective` | demo_project/Core/Network/APIService.swift:32 | different ints print differently |
| `NetworkErrors.ErrorDescription` | demo_project/Core/Network/NetworkError.swift:13-31 | `errorDescription` is total: every one of the eight cases gives a non-nil, non-empty string |
| `NetworkErrors.DescriptionRoundTrip` | demo_project/Core/Network/NetworkError.swift:13-31 | every message can be parsed back into the error that produced it, for errors that differ in case, code or wrapped description |
| `NetworkErrors.DescriptionInjective` | demo_project/Core/Network/NetworkError.swift:13-31 | errors that differ in case, code or wrapped description display different messages |
| `NetworkErrors.FixedMessagesDistinct` | demo_project/Core/Network/NetworkError.swift:15-30 | the six payload-free cases have six pairwise different messages |
| `NetworkErrors.ServerErrorMessageCarriesCode` | demo_project/Core/Network/NetworkError.swift:25-26 | a server error's message is "Server error with code: " followed by text that reads back as the code |
| `NetworkErrors.ServerErrorMessagesDistinct` | demo_project/Core/Network/NetworkError.swift:25-26 | server errors for two different codes display different messages |
| `NetworkErrors.NetworkFailureMessageWrapsCause` | demo_project/Core/Network/NetworkError.swift:21-22 | a network failure's message is "Network failure: " followed by the wrapped error's description |
| `NetworkManager.BuildRequest` | demo_project/Core/Network/NetworkManager.swift:26-37 | the request has the URL, the given method and exactly the JSON content-type header, with or without parameters; no parameters gives no body; parameters give their serialised bytes; a serialisation failure gives `networkFailure` with its cause |
| `NetworkManager.ValidateResponse` | demo_project/Core/Network/NetworkManager.swift:40-50 | the body passes unchanged exactly for an HTTP response with status 200…299; a non-HTTP response throws `invalidResponse`; any other status throws `serverError` with exactly that status |
| `NetworkManager.DecodeStage` | demo_project/Core/Network/NetworkManager.swift:51 | an upstream failure passes through; a decoder failure becomes a decoding error; a value comes out only when the decoder succeeds, and it is the decoder's value |
| `NetworkManager.MapError` | demo_project/Core/Network/NetworkManager.swift:52-60 | a decoding error becomes `decodingError`; a `NetworkError` passes unchanged; any other error becomes `networkFailure` with that error |
| `NetworkManager.Classify` | demo_project/Core/Network/NetworkManager.swift:39-61 | for each kind of session answer, the outcome: transport error gives `networkFailure`, non-HTTP gives `invalidResponse`, bad status gives `serverError(status)`, a good status gives the decoded value or `decodingError`; a value implies the decoder produced it; every failure is one of those four kinds |
| `NetworkManager.Request` | demo_project/Core/Network/NetworkManager.swift:19-62 | method defaults to GET and parameters to nil; an invalid `baseURL + endpoint` gives `invalidURL` and sends nothing; a serialisation failure gives `networkFailure` and sends nothing; otherwise the request sent carries the URL, method, content type and exactly the serialised parameters as body (none without parameters), and the result is the classification of the session's answer; it never yields `timeout`, `noData` or `noInternetConnection` |
| `APIService.Substitute` | demo_project/Core/Network/APIService.swift:23 | `replacingOccurrences(of:with:)` on a template with one placeholder and no other '{' gives prefix + replacement + suffix |
| `APIService.GetUsers` | demo_project/Core/Network/APIService.swift:18-20 | delegates endpoint "/users" with GET and no parameters |
| `APIService.GetUser` | demo_project/Core/Network/APIService.swift:22-25 | delegates "/users/" + the decimal id (unvalidated, so "-n" for a negative id) with GET and no parameters |
| `APIService.GetPosts` | demo_project/Core/Network/APIService.swift:27-29 | delegates endpoint "/posts" with GET and no parameters |
| `APIService.GetUserPosts` | demo_project/Core/Network/APIService.swift:31-34 | delegates "/users/" + the decimal id + "/posts" with GET and no parameters |
| `APIService.NoPlaceholderLeft` | demo_project/Core/Network/APIService.swift:22-34 | after substitution no endpoint contains '{', so no "{id}" is left |
| `APIService.UserEndpointInjective` | demo_project/Core/Network/APIService.swift:22-25 | distinct ids give distinct user endpoints |
| `APIService.UserPostsEndpointInjective` | demo_project/Core/Network/APIService.swift:31-34 | distinct user ids give distinct user-posts endpoints |
| `APIService.EndpointKindsDistinct` | demo_project/Core/Network/APIService.swift:18-34 | no two of the four operations ever request the same endpoint |
| `BaseViewModels.InitialIsConsistent` | demo_project/Core/Utils/BaseViewModel.swift:5-7 | the initial state is not loading, has no message, shows no error, and satisfies the invariant |
| `BaseViewModels.StartLoadingEffect` | demo_project/Core/Utils/BaseViewModel.swift:23-28 | `startLoading` sets loading, hides the error, keeps the message, and keeps the invariant from any state |
| `BaseViewModels.StartLoadingIdempotent` | demo_project/Core/Utils/BaseViewModel.swift:23-28 | `startLoading` twice is `startLoading` once |
| `BaseViewModels.StopLoadingEffect` | demo_project/Core/Utils/BaseViewModel.swift:30-34 | `stopLoading` clears loading, changes nothing else, and keeps the invariant |
| `BaseViewModels.HandleErrorEffect` | demo_project/Core/Utils/BaseViewModel.swift:11-21 | on a `NetworkError`: loading off, message is its `errorDescription`, error shown, invariant kept |
| `BaseViewModels.HandleErrorShowsMessage` | demo_project/Core/Utils/BaseViewModel.swift:14-19 | after `handleError`, whatever the error, a message is present and the invariant holds |
| `BaseViewModels.RunKeepsConsistent` | demo_project/Core/Utils/BaseViewModel.swift:11-34 | over any sequence of `startLoading` / `stopLoading` / `handleError` calls from a consistent state, `isLoading` and `showError` are never both true and `showError` implies a message; a run ending in `stopLoading` or `handleError` leaves loading off, one ending in `startLoading` hides the error |
| `BaseViewModels.BaseViewModel.constructor` | demo_project/Core/Utils/BaseViewModel.swift:5-9 | initial state, no subscriptions |
| `BaseViewModels.BaseViewModel.HandleError` | demo_project/Core/Utils/BaseViewModel.swift:11-21 | new state is `AfterHandleError` of the old one; the invariant (error shown ⇒ message present; never loading and showing an error) holds; subscriptions kept |
| `BaseViewModels.BaseViewModel.StartLoading` | demo_project/Core/Utils/BaseViewModel.swift:23-28 | new state is `AfterStartLoading` of the old one; invariant holds; subscriptions kept |
| `BaseViewModels.BaseViewModel.StopLoading` | demo_project/Core/Utils/BaseViewModel.swift:30-34 | new state is `AfterStopLoading` of the old one; invariant preserved; subscriptions kept |
| `BaseViewModels.BaseViewModel.Store` | demo_project/Core/Utils/BaseViewModel.swift:9 | `store(in:)` adds the subscription to `cancellables` and changes no other state |
| `HomeViewModels.HomeViewModel.constructor` | demo_project/Features/Home/ViewModel/HomeViewModel.swift:22-27 | construction loads users then posts: empty lists, loading with no error shown, exactly two subscriptions, one to `getUsers` running the users callbacks and one to `getPosts` running the posts callbacks |
| `HomeViewModels.HomeViewModel.LoadUsers` | demo_project/Features/Home/ViewModel/HomeViewModel.swift:29-46 | `startLoading`, then exactly one new subscription, to `getUsers` |
| `HomeViewModels.HomeViewModel.LoadPosts` | demo_project/Features/Home/ViewModel/HomeViewModel.swift:48-62 | exactly one new subscription, to `getPosts`; loading and error state untouched |
| `HomeViewModels.HomeViewModel.ReceiveUsers` | demo_project/Features/Home/ViewModel/HomeViewModel.swift:41-43 | `users` becomes the payload wholesale; posts and the loading/error state untouched |
| `HomeViewModels.HomeViewModel.CompleteUsers` | demo_project/Features/Home/ViewModel/HomeViewModel.swift:35-40 | `stopLoading`, then `handleError` on failure; loading is off afterwards |
| `HomeViewModels.HomeViewModel.ReceivePosts` | demo_project/Features/Home/ViewModel/HomeViewModel.swift:57-59 | `posts` becomes the payload wholesale; users and the loading/error state untouched |
| `HomeViewModels.HomeViewModel.CompletePosts` | demo_project/Features/Home/ViewModel/HomeViewModel.swift:52-56 | no `stopLoading`; `handleError` on failure; success changes nothing |
| `HomeViewModels.HomeViewModel.Refresh` | demo_project/Features/Home/ViewModel/HomeViewModel.swift:64-69 | both lists emptied, then both loads reissued: loading, two new subscriptions |
| `HomeViewModels.InitThenReceiveUsers` | demo_project/Features/Home/ViewModel/HomeViewModel.swift:22-45 | the first load `init` starts can finish: users delivered and completed on `init`'s users subscription are shown, and the spinner is down with no error |
| `HomeViewModels.RefreshThenReceiveUsers` | demo_project/Features/Home/ViewModel/HomeViewModel.swift:64-69 | after a refresh and a users value, `users` equals that payload, not a union with the old users |
| `HomeViewModels.DoubleTapLoadUsers` | demo_project/Features/Home/ViewModel/HomeViewModel.swift:29-40 | two overlapping `loadUsers`, with their completions in either order and with any outcomes, leave loading off |
| `ProfileViewModels.ProfileViewModel.constructor` | demo_project/Features/Profile/ViewModel/ProfileViewModel.swift:21-24 | no load: no user, no posts, initial state, no subscriptions |
| `ProfileViewModels.ProfileViewModel.LoadUser` | demo_project/Features/Profile/ViewModel/ProfileViewModel.swift:26-44 | `startLoading`, then exactly one new subscription, to `getUser(id)` |
| `ProfileViewModels.ProfileViewModel.LoadUserPosts` | demo_project/Features/Profile/ViewModel/ProfileViewModel.swift:46-60 | no `startLoading`; exactly one new subscription, to `getUserPosts(userId)` |
| `ProfileViewModels.ProfileViewModel.ReceiveUser` | demo_project/Features/Profile/ViewModel/ProfileViewModel.swift:38-41 | `user` is set to the value, then a posts load is issued for the received user's `id` |
| `ProfileViewModels.ProfileViewModel.CompleteUser` | demo_project/Features/Profile/ViewModel/ProfileViewModel.swift:32-37 | `stopLoading`, then `handleError` on failure; loading off; user and posts kept |
| `ProfileViewModels.ProfileViewModel.ReceiveUserPosts` | demo_project/Features/Profile/ViewModel/ProfileViewModel.swift:55-57 | `userPosts` becomes the payload wholesale |
| `ProfileViewModels.ProfileViewModel.CompleteUserPosts` | demo_project/Features/Profile/ViewModel/ProfileViewModel.swift:50-54 | `handleError` only on failure; success changes no state |
| `ProfileViewModels.LoadUserThenPosts` | demo_project/Features/Profile/ViewModel/ProfileViewModel.swift:26-44 | loading a user whose value arrives shows that user and then requests the received user's posts, on a stored subscription running the user-posts callbacks |
| `DependencyInjection.DIContainer.constructor` | demo_project/Core/DI/DIContainer.swift:11-13 | the table starts empty |
| `DependencyInjection.DIContainer.Register` | demo_project/Core/DI/DIContainer.swift:15-18 | the factory is stored under the type's name, overwriting an earlier one; every other entry is unchanged |
| `DependencyInjection.DIContainer.Resolve` | demo_project/Core/DI/DIContainer.swift:20-26 | a registered name resolves to its most recently registered factory; an unregistered one is a fatal error with its message; the table is not modified |
| `DependencyInjection.DIContainer.SetupDependencies` | demo_project/Core/DI/DIContainer.swift:30-42 | registers APIServiceProtocol, HomeViewModelProtocol and ProfileViewModelProtocol with their factories, other entries unchanged |
| `DependencyInjection.SetUpContainer` | demo_project/Core/DI/DIContainer.swift:9-42 | on the fresh shared container, setup leaves exactly three names, each resolving to its factory |
| `StringExtensions.Truncate` | demo_project/Core/Extensions/String+Extensions.swift:17-22 | a string that fits is returned unchanged; a longer one becomes its first `length` characters then `trailing` (length `length + |trailing|`); the result always starts with the first min(count, length) characters; the default trailing is "..." |
| `StringExtensions.TruncateIdempotent` | demo_project/Core/Extensions/String+Extensions.swift:17-22 | truncating a truncated string again with the same arguments changes nothing |
| `StringExtensions.IsValidEmailMatchesPattern` | demo_project/Core/Extensions/String+Extensions.swift:4-8 | the recogniser accepts exactly the strings the regular expression matches as a whole: a local run, '@', a host run, '.', 2–64 ASCII letters |
| `StringExtensions.ValidEmailShape` | demo_project/Core/Extensions/String+Extensions.swift:5 | an accepted string contains exactly one '@', and what follows its last '.' is 2–64 ASCII letters |

## Left out

- URLSession, `dataTaskPublisher`, `JSONSerialization`, `JSONDecoder` and `URL(string:)` are foreign library calls. They are oracles in `NetworkManager.Environment`; no HTTP exchange is modelled.
- The session's configured timeout (`APIConstants.timeout`, a floating-point `TimeInterval`) is not modelled. A timed-out request reaches the model as a transport error.
- Combine itself is not modelled: publisher laziness, `receive(on: DispatchQueue.main)`, and at most one value per publisher. Callbacks are event methods applied one at a time, in an order the caller picks.
- `DispatchQueue.main.async` in `startLoading`, `stopLoading` and `handleError` is not modelled. Each update is applied at once, at the call.
- Interleavings of those deferred blocks, and the race between overlapping refreshes, are not modelled.
- `[weak self]`, `deinit` cancellation and controller teardown are not modelled. Subscriptions are only ever added to `cancellables`.
- The `apiService` dependency of the controllers, and its default taken from `DIContainer.shared`, are not modelled. A subscription records the `Call` it was made for.
- The factory closures and the forced casts (`as! T`) in `DIContainer` are dynamic typing. Factories and what they make are opaque tokens.
- The lazy `resolve` inside the controller factories is not modelled.
- `String(describing:)` of a type is taken to be the type's name, which is how the table is keyed.
- `fatalError` in `resolve` is modelled as a `FatalError` result carrying its message, not as a trap.
- `isValidURL` depends on `UIApplication.canOpenURL`, a platform call, and is not modelled.
- A wrapped Swift `Error` (`Cause`) is known only by its `localizedDescription`. Two distinct errors with the same description are one `Cause` here, and their `networkFailure` messages are equal in the source too, so message injectivity is stated over causes, not over Swift error identities.
- `User.swift` is not part of this model. `User` is an integer `id` with an opaque rest.
- StringExtensions.Truncate: counts Dafny `char`s, not Swift grapheme clusters. Swift's `count` and `prefix` work on extended grapheme clusters.
- StringExtensions.IsValidEmailMatchesPattern: the pattern is matched over Dafny `char`s. NSPredicate's ICU matching of non-ASCII text is not modelled.
- The SwiftUI views, the app entry point and `AppLogger` (os.log output) are presentation and I/O.
