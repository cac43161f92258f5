# Movie rental client — a Dafny model of its core

This project models the client-side core of a movie rental web application
(a React + Redux Toolkit front end talking to a REST backend). The model covers:

- the session slice. It hydrates `{tokens, user, isAuthenticated}` from
  `localStorage` at start-up, and its reducers `setCredentials`, `setUser`
  and `logout` write through to the `"tokens"` and `"user"` keys;
- the shared axios instance. Its request interceptor attaches the stored
  access token. Its response interceptor handles a 401 by refreshing the
  access token once (the `_retry` flag) and resending the request, or by
  clearing the session and redirecting to `/login` when the refresh fails;
- the `ui` slice that holds the catalogue's search text, genre and page;
- the route table and the `ProtectedRoute` guard;
- the five RTK Query API slices: each endpoint's URL, method and body, and
  the tags it provides or invalidates. A separate module relates them as the
  complete refetch table of the application;
- the decision logic of three pages:
  - the movie detail page: the rent guard, the rent button, and the
    stock-update form and its validation;
  - the catalogue: query arguments, pagination, the hero banner and the
    per-card stock lookup;
  - the customer's rentals: the active/history partition and the date
    fallback.

State that the source changes in place is modelled with classes.
`BrowserStorage.LocalStorage` is the one `localStorage`. `AuthSlice.AuthStore`
and the gateway's methods write it. `UiSlice.UiStore` is the `ui` slice.
`Gateway.RequestConfig` is the config object that axios passes to the
interceptors. `MovieDetailPage.StockForm` holds the two inputs of the stock
form. Each method is proved against a pure function, and the properties are
lemmas about those functions:

- the reducers are proved against `AuthSlice.Hydrate`;
- the interceptors are proved against the mutually recursive
  `Gateway.Dispatch`/`Gateway.OnResponseError`;
- the `ui` reducers are proved against `UiSlice.Reduce`;
- the stock form is proved against `MovieDetailPage.ValidateUpdate`.

The network is an oracle held in a `Gateway.Network` value. JSON text and
`URLSearchParams` are replaced by an injective key/value codec (`Codec`,
`SessionCodec`), with proved round trips.

RTK Query's invalidation rule is library code. `Tags.Refetches` states it as a
definition, scoped to one `createApi` instance. A mutation refetches a cached
entry of the same slice when one of the mutation's invalidated tags has the
same type as a provided tag, and either carries no id or carries the same id.

## Model

| member | source | states |
|---|---|---|
| Types.ParseRole | src/lib/types.ts:5 | a role text is accepted only if it is the wire name of the role it yields |
| Types.RoleRoundTrip | src/lib/types.ts:5 | every role's wire name parses back to that role |
| BrowserStorage.LocalStorage.GetItem | src/store/slices/authSlice.ts:12-13 | `getItem` yields the stored text exactly when the key is present |
| BrowserStorage.LocalStorage.SetItem | src/store/slices/authSlice.ts:29-30 | `setItem` stores the value under the key and leaves every other key as it was |
| BrowserStorage.LocalStorage.RemoveItem | src/store/slices/authSlice.ts:40-41 | `removeItem` drops the key and leaves every other key as it was |
| BrowserStorage.Stored | src/store/slices/authSlice.ts:12-18 | a stored text passes the truth test exactly when the key is present and the text is not empty |
| SessionCodec.TokensRoundTrip | src/store/slices/authSlice.ts:16 | decoding the stored text of any token pair gives back that pair |
| SessionCodec.UserRoundTrip | src/store/slices/authSlice.ts:17 | decoding the stored text of any user gives back that user, phone and staff flag included |
| AuthSlice.Hydrate | src/store/slices/authSlice.ts:12-19 | `isAuthenticated` holds exactly when the stored `"tokens"` text is not empty, whatever it parses to. `tokens` and `user` are the parsed stored values or null. Start-up fails with an unreadable-tokens error exactly when a non-empty tokens text is malformed. Otherwise it fails with an unreadable-user error exactly when a non-empty user text is malformed, and it succeeds in every other case |
| AuthSlice.ReloadRestoresSession | src/store/slices/authSlice.ts:12-42 | when storage holds what the reducers last wrote, a reload rebuilds exactly the same state |
| AuthSlice.WellFormedStorageHydrates | src/store/slices/authSlice.ts:12-19 | storage that holds only encodings the reducers write always hydrates. The state it gives keeps the invariant and matches storage |
| AuthSlice.NullTokensTextAuthenticates | src/store/slices/authSlice.ts:16-18 | a stored tokens text `null` starts an authenticated session with no tokens. This breaks `isAuthenticated == (tokens != null)` |
| AuthSlice.AuthStore.constructor | src/store/slices/authSlice.ts:12-23 | the initial state is the hydrated state |
| AuthSlice.AuthStore.SetCredentials | src/store/slices/authSlice.ts:25-31 | tokens are set and `isAuthenticated` becomes true. The user is replaced only when one is given. Storage gets `"tokens"`, and `"user"` only with a user. The invariant and storage consistency are kept |
| AuthSlice.AuthStore.SetUser | src/store/slices/authSlice.ts:32-35 | the user is replaced and stored. Tokens and `isAuthenticated` are unchanged, and the invariant and tokens consistency are kept |
| AuthSlice.AuthStore.Logout | src/store/slices/authSlice.ts:36-42 | the state becomes signed out and both keys are removed, so state and storage agree |
| AuthSlice.AuthenticatedWithoutUser | src/store/slices/authSlice.ts:25-30 | `setCredentials` without a user reaches an authenticated session with no user whose storage is consistent |
| BaseQuery.PrepareHeaders | src/store/api/movieApi.ts:9-13 | the bearer header comes from the Redux session's access token when it is non-empty. With no tokens, or an empty access token, the headers are unchanged. No other header is ever touched |
| Gateway.AttachToken | src/lib/axios.ts:11-17 | the request interceptor as a function. With no stored tokens the headers pass unchanged, and it never touches a header other than `Authorization`. Unreadable tokens give `None`, the thrown parse error (`Gateway.AttachFailsOnUnreadableTokens`). `Gateway.AttachEncoded` and `Gateway.InterceptRequest` relate it to storage and to the config object |
| Gateway.AttachFailsOnUnreadableTokens | src/lib/axios.ts:12-15 | the request interceptor fails exactly when a `tokens` entry is stored and does not parse as a token pair |
| Gateway.UnreadableTokensSendNothing | src/lib/axios.ts:11-17 | with unreadable stored tokens a call sends nothing, leaves storage and headers as they were, and rejects with the parse error |
| Gateway.UnreadableTokensClearSession | src/lib/axios.ts:25-45 | after a first 401, unreadable stored tokens make the handler clear both keys, mark the request retried, redirect to `/login`, and reject with the 401 |
| Gateway.Dispatch | src/lib/axios.ts:11-47 | one `api(config)` call: the request interceptor, one send to the network oracle, and on failure the response interceptor. It terminates because a resend always carries `_retry`. Its behaviour is stated by `Gateway.AtMostOneRetry`, `Gateway.NoRefreshWithout401`, `Gateway.RefreshThenResend`, `Gateway.FailedRefreshClearsSession` and `Gateway.RefreshTokenNeverChanges`, and `Gateway.Send` is proved equal to it |
| Gateway.OnResponseError | src/lib/axios.ts:23-46 | the response interceptor's error handler: refresh and resend on a first 401 with readable stored tokens; clear the session and redirect when the refresh fails or the tokens are unreadable; otherwise reject with the original error. `Gateway.FirstErrorCounts`, `Gateway.RefreshStep`, `Gateway.FailedRefreshClearsSession` and `Gateway.UnreadableTokensClearSession` state its branches, and `Gateway.HandleResponseError` is proved equal to it |
| Gateway.AttachEncoded | src/lib/axios.ts:11-17 | when storage holds the encoding of a token pair, the request carries `Bearer <access>` of that pair |
| Gateway.InterceptRequest | src/lib/axios.ts:11-17 | the request interceptor adds the bearer header exactly as the stored tokens dictate. It leaves the headers alone with no stored tokens, fails on unreadable tokens, and never touches `_retry` |
| Gateway.RequestConfig.constructor | src/lib/axios.ts:24-26 | a fresh request has `_retry` unset |
| Gateway.Send | src/lib/axios.ts:11-47 | one `api(config)` call ends in exactly the outcome, storage, headers, `_retry` flag and event trace that `Dispatch` gives for the old state |
| Gateway.HandleResponseError | src/lib/axios.ts:23-46 | the error handler ends exactly as `OnResponseError` gives for the old state |
| Gateway.NoRefreshWithout401 | src/lib/axios.ts:25-45 | these cases settle with the reply as it came, after one send and with storage untouched: a success, a non-401 error, a 401 on a retried request, and a 401 with no stored tokens |
| Gateway.RetriedCallSendsOnce | src/lib/axios.ts:25-26 | a request already retried is sent at most once, never refreshes, and leaves storage unchanged |
| Gateway.AtMostOneRetry | src/lib/axios.ts:25-37 | one logical request is sent at most twice and refreshes at most once |
| Gateway.FirstErrorCounts | src/lib/axios.ts:25-45 | on a first failure, the error handler resends at most once and refreshes at most once |
| Gateway.RefreshedCounts | src/lib/axios.ts:30-37 | after a successful refresh, the handler calls the refresh endpoint exactly once and resends the request at most once |
| Gateway.RefreshThenResend | src/lib/axios.ts:27-37 | after a 401 and a successful refresh, storage holds the new access token beside the old refresh token. The request is resent with the new token, and its reply is the outcome |
| Gateway.RefreshStep | src/lib/axios.ts:30-37 | the refresh branch stores the new tokens and then dispatches the request again, with `_retry` set |
| Gateway.ResendSettles | src/lib/axios.ts:37 | a resent request whose headers already carry the stored token settles with its reply |
| Gateway.ClearSession | src/lib/axios.ts:39-40 | removes exactly the `tokens` and `user` keys and keeps every other stored item |
| Gateway.FailedRefreshClearsSession | src/lib/axios.ts:25-45 | with readable stored tokens, a first 401 followed by a failed refresh removes both keys and rejects with the original 401; the trace is exactly the send, the refresh call with the stored refresh token, then the redirect to `/login` |
| Gateway.RefreshTokenNeverChanges | src/lib/axios.ts:30-35 | whatever happens, the refresh token left in storage is the one that was there before |
| Gateway.RefreshInvisibleToStore | src/lib/axios.ts:32-37 | a refreshed token reaches storage only. The Redux session keeps the old access token, which RTK requests keep sending, and only a reload picks up the new one |
| Gateway.TokensWrittenAside | src/lib/axios.ts:32-35 | when the refresh writes tokens other than the session's to storage, storage no longer matches the session, and a reload reads the new tokens beside the session's user |
| Gateway.FailedRefreshLeavesStoreSignedIn | src/lib/axios.ts:38-41 | a failed refresh clears storage while the Redux session stays authenticated. A reload would start signed out |
| UiSlice.UiStore.constructor | src/store/slices/uiSlice.ts:10-14 | the initial state is no search, no genre, page 1 |
| UiSlice.Reduce | src/store/slices/uiSlice.ts:19-31 | the reducer of the three actions: a change to either filter always leaves the page at 1, and a page change never touches a filter. `UiSlice.ApplyIsLastWriterWins` states its effect over any run of actions, and the `UiStore` methods are proved against it |
| UiSlice.UiStore.SetSearchQuery | src/store/slices/uiSlice.ts:20-23 | the search text is set and the page goes back to 1. The genre is unchanged |
| UiSlice.UiStore.SetSelectedGenre | src/store/slices/uiSlice.ts:24-27 | the genre is set and the page goes back to 1. The search text is unchanged |
| UiSlice.UiStore.SetCurrentPage | src/store/slices/uiSlice.ts:28-30 | only the page changes, to the value given, with no bounds check |
| UiSlice.ApplySnoc | src/store/slices/uiSlice.ts:17-32 | dispatching one more action applies the reducer to the state reached so far |
| UiSlice.ApplyIsLastWriterWins | src/store/slices/uiSlice.ts:20-30 | after any run of actions, the search text and genre are the last ones set. The page is the last one set, or 1 if a filter changed after it |
| UiSlice.FiltersCommute | src/store/slices/uiSlice.ts:20-27 | setting the search text and the genre gives the same state in either order |
| Routes.ResolvePathOf | src/App.tsx:23-59 | each page's path selects that page |
| Routes.OnlyListedPathsResolve | src/App.tsx:23-59 | the catch-all route: a path that does not fall to the not-found page has the same segments as the listed path of the page it selects, so no unlisted path reaches a real page |
| Routes.Resolve | src/App.tsx:23-59 | the route table: the page a path's segments select, the not-found page for anything unlisted. `Routes.ResolvePathOf` and `Routes.OnlyListedPathsResolve` state both directions |
| Routes.Guard | src/App.tsx:27-58 | which pages are wrapped in the guard and with which `allowedRoles`: the rentals page for customers, the vendor page for vendors, the admin page for admins, and the profile page with no roles. Every other page is open |
| Routes.Protect | src/components/ProtectedRoute.tsx:32-41 | the guard component: it renders only for a signed-in visitor, redirects to `/login` exactly when signed out and to `/` only when signed in, and without `allowedRoles` renders exactly for a signed-in visitor |
| Routes.Visit | src/App.tsx:23-59 | a visit shows the page the path selects, or, on a guarded page only, navigates to `/login` or `/` |
| Routes.SignedOutVisitor | src/components/ProtectedRoute.tsx:35 | a signed-out visitor is sent to `/login` from every guarded page, whatever the roles, and sees every open page |
| Routes.RoleRestrictedPage | src/components/ProtectedRoute.tsx:35-40 | a role-restricted page is shown exactly when the visitor is signed in and either has no loaded user or has an allowed role. Any other signed-in visitor is sent to `/` |
| Routes.RolePagesNeedTheirRole | src/App.tsx:27-58 | for the admin, vendor and rentals pages, a signed-in user with a loaded profile is shown the page at its own path exactly when the role matches: admin for `/admin`, vendor for `/vendor`, customer for `/rentals` |
| Routes.ProfileNeedsSessionOnly | src/App.tsx:35-42 | `/profile` is shown exactly to a signed-in visitor, whatever the role |
| Routes.SessionWithoutUserPassesRoleChecks | src/components/ProtectedRoute.tsx:36-40 | a signed-in session whose user has not loaded is shown every page: the guard fails open |
| Codec.SetParamLookup | src/store/api/movieApi.ts:24-25 | after `params.set(key, value)` the key reads back the value and every other key reads as before |
| MovieApi.BuildMoviesParams | src/store/api/movieApi.ts:22-26 | the parameters built one `set` at a time hold the page (1 by default), plus `search` and `genre` exactly when they are non-empty |
| MovieApi.MoviesParams | src/store/api/movieApi.ts:22-26 | the parameters of `getMovies`, set one at a time: the page (1 by default), then `search` and `genre` when non-empty. `MovieApi.MoviesParamsInOrder` states the exact list |
| MovieApi.MoviesParamsInOrder | src/store/api/movieApi.ts:22-26 | the parameter list is exactly the page, then the search text, then the genre, each filter only when non-empty, and nothing else |
| MovieApi.MoviesUrlListsParamsInOrder | src/store/api/movieApi.ts:22-27 | the catalogue URL reads back as exactly that ordered parameter list |
| MovieApi.MoviesParamsRead | src/store/api/movieApi.ts:22-25 | the parameter list reads back the page, and each filter exactly when it is non-empty |
| MovieApi.MoviesUrlCarriesFilters | src/store/api/movieApi.ts:22-27 | the catalogue URL reads back the page as a number, and each filter exactly when it is non-empty |
| MovieApi.RequestsNameTheMovie | src/store/api/movieApi.ts:30-45 | a single-movie query, an update and a delete name the movie's id in the URL. An update sends the patch and a create posts the form to `movies/` |
| MovieApi.TagsDeclared | src/store/api/movieApi.ts:19-44 | every tag the slice provides or invalidates is of a declared type |
| MovieApi.MovieRefetches | src/store/api/movieApi.ts:28-44 | every movie mutation refetches every catalogue page. A cached single movie is refetched exactly when it is updated, so a delete leaves it cached |
| MovieApi.QueryRequest | src/store/api/movieApi.ts:21-33 | the two queries: the catalogue GET with its parameters, and a GET naming one movie. `MovieApi.MoviesUrlCarriesFilters` and `MovieApi.RequestsNameTheMovie` state what the URLs carry |
| MovieApi.MutationRequest | src/store/api/movieApi.ts:34-45 | create posts the form to `movies/`, update PATCHes the patch and delete sends a DELETE, both to the movie's URL. `MovieApi.RequestsNameTheMovie` states it |
| MovieApi.Provides | src/store/api/movieApi.ts:28-32 | the catalogue provides `"Movies"`, a single movie `{Movie, id}`. `MovieApi.MovieRefetches` states what this means for refetching |
| MovieApi.Invalidates | src/store/api/movieApi.ts:36-44 | every mutation invalidates `"Movies"`, and an update also `{Movie, id}`. `MovieApi.MovieRefetches` states what this means for refetching |
| RentalApi.ListTags | src/store/api/rentalApi.ts:23-45 | a list provides one id tag per rental on the page, then the list tag. With no page it provides the list tag alone |
| RentalApi.RentalTags | src/store/api/rentalApi.ts:26-29 | the per-rental tags match the rentals one for one, in order |
| RentalApi.ListUrlsCarryPage | src/store/api/rentalApi.ts:21-56 | the three list URLs are GETs that carry the page, 1 by default |
| RentalApi.MutationsNameTheirTarget | src/store/api/rentalApi.ts:47-54 | renting posts `{movie}` to `rentals/`. Returning posts no body to a URL that names the rental |
| RentalApi.TagsDeclared | src/store/api/rentalApi.ts:19-57 | every tag in use is a `Rental` tag |
| RentalApi.RentalRefetches | src/store/api/rentalApi.ts:23-57 | renting or returning refetches the customer's and the admin's lists, whatever page they hold, and never the vendor's list |
| RentalApi.RentalIdTagsNeverInvalidated | src/store/api/rentalApi.ts:23-54 | no mutation matches a per-rental tag |
| RentalApi.QueryRequest | src/store/api/rentalApi.ts:21-56 | the three list queries: GETs of `rentals/` and `rentals/vendor/` with the page, 1 by default. `RentalApi.ListUrlsCarryPage` states it |
| RentalApi.MutationRequest | src/store/api/rentalApi.ts:47-54 | rent posts `{movie}` to `rentals/`, return posts no body to the rental's `return_movie/` URL. `RentalApi.MutationsNameTheirTarget` states it |
| RentalApi.Provides | src/store/api/rentalApi.ts:23-57 | the customer's and admin's lists provide one id tag per rental and the `LIST` tag, or `LIST` alone without data. The vendor's list provides a bare `"Rental"`. `RentalApi.ListTags` and `RentalApi.RentalRefetches` state it |
| RentalApi.Invalidates | src/store/api/rentalApi.ts:49-53 | both mutations invalidate `{Rental, LIST}` only. `RentalApi.RentalRefetches` and `RentalApi.RentalIdTagsNeverInvalidated` state it |
| InventoryApi.MovieQueryNamesMovie | src/store/api/inventoryApi.ts:26 | the per-movie stock query names the movie in its `movie` parameter |
| InventoryApi.UpdateNamesRecord | src/store/api/inventoryApi.ts:30-35 | the update PATCHes a URL that names the record, with both counts and no id as the body |
| InventoryApi.FirstOrNull | src/store/api/inventoryApi.ts:27 | `transformResponse`: the first record of the page, `null` for an empty page. `InventoryApi.MovieInventoryIsFirstOfPage` states it |
| InventoryApi.MovieInventoryIsFirstOfPage | src/store/api/inventoryApi.ts:27 | for any page, the per-movie result is the first record of the page, a record of it, and null exactly when the page is empty |
| InventoryApi.TagsDeclared | src/store/api/inventoryApi.ts:19-36 | every tag in use is an `Inventory` tag |
| InventoryApi.UpdateRefetchesAllInventory | src/store/api/inventoryApi.ts:21-36 | any stock update refetches the full list and every movie's stock record |
| InventoryApi.FilteredPageShowsThatMovie | src/store/api/inventoryApi.ts:26-27 | when every record of the page is for the requested movie, the record the query yields is that movie's |
| InventoryApi.QueryRequest | src/store/api/inventoryApi.ts:21-26 | the full stock list, and the stock query filtered by `movie`. `InventoryApi.MovieQueryNamesMovie` states the filter |
| InventoryApi.MutationRequest | src/store/api/inventoryApi.ts:30-35 | the update PATCHes `inventory/<id>/` with both counts. `InventoryApi.UpdateNamesRecord` states it |
| InventoryApi.Provides | src/store/api/inventoryApi.ts:23-28 | the list provides `"Inventory"`, a movie's stock `{Inventory, movieId}` |
| InventoryApi.Invalidates | src/store/api/inventoryApi.ts:36 | the update invalidates `"Inventory"`. `InventoryApi.UpdateRefetchesAllInventory` states that this reaches every stock entry |
| AdminApi.UsersUrlCarriesPage | src/store/api/adminApi.ts:23 | the user list URL carries the page, 1 by default |
| AdminApi.MutationsNameUser | src/store/api/adminApi.ts:26-33 | a role change PATCHes the role and a deletion sends a DELETE with no body, both to a URL naming the user |
| AdminApi.TagsDeclared | src/store/api/adminApi.ts:16-32 | every tag in use is of a declared type |
| AdminApi.AdminRefetches | src/store/api/adminApi.ts:18-33 | both mutations refetch every cached user page and never the analytics |
| AdminApi.QueryRequest | src/store/api/adminApi.ts:18-25 | the analytics GET and the paged user list GET. `AdminApi.UsersUrlCarriesPage` states the page |
| AdminApi.MutationRequest | src/store/api/adminApi.ts:26-33 | the role change PATCHes `{role}` and the deletion sends a DELETE, both to the user's URL. `AdminApi.MutationsNameUser` states it |
| AdminApi.Provides | src/store/api/adminApi.ts:20-24 | the analytics provide `"Analytics"` and the user list `"AdminUsers"` |
| AdminApi.Invalidates | src/store/api/adminApi.ts:28-32 | both mutations invalidate `"AdminUsers"`. `AdminApi.AdminRefetches` states it |
| AuthApi.MutationsSendPayload | src/store/api/authApi.ts:20-36 | each mutation sends its payload unchanged with its own method. The profile update goes to the profile URL |
| AuthApi.TagsDeclared | src/store/api/authApi.ts:18-33 | the tags in use are declared, and `"Users"` is never used |
| AuthApi.ProfileRefetches | src/store/api/authApi.ts:20-36 | the cached profile is refetched after a profile update and after no other mutation |
| AuthApi.QueryRequest | src/store/api/authApi.ts:26-29 | the profile GET of `users/me/` |
| AuthApi.MutationRequest | src/store/api/authApi.ts:20-36 | login, register, profile update and password change, each with its URL, method and payload. `AuthApi.MutationsSendPayload` states it |
| AuthApi.Provides | src/store/api/authApi.ts:28 | the profile provides `"Profile"` |
| AuthApi.Invalidates | src/store/api/authApi.ts:32 | only the profile update invalidates, and only `"Profile"`. `AuthApi.ProfileRefetches` states it |
| CacheConsistency.RefetchTable | src/store/store.ts:16-21 | the complete table of which cached entry each mutation refetches. There are no effects across slices |
| Tags.Matches | src/store/api/rentalApi.ts:23-53 | RTK Query's tag rule as the model states it: an invalidated tag reaches provided tags of its type, all of them without an id, and the one with the same id otherwise |
| Tags.Refetches | src/store/store.ts:16-21 | a cached entry is refetched after a mutation of the same `createApi` slice that hits one of its tags. `CacheConsistency.RefetchTable` spells it out for every slice |
| CacheConsistency.RentingLeavesStockCached | src/store/api/rentalApi.ts:47-54 | renting or returning refetches no stock record and no movie |
| CacheConsistency.AdminChangesLeaveProfile | src/store/api/adminApi.ts:26-33 | an admin's role change or deletion never refetches a cached profile |
| MovieDetailPage.FirstTruthy | src/pages/MovieDetailPage.tsx:37 | the message chosen as the first non-empty text, else the fallback, is never empty. It is the fallback or one of the texts |
| MovieDetailPage.Copies | src/pages/MovieDetailPage.tsx:82 | the copies shown: the stock record's available copies, 0 before a record has loaded. `MovieDetailPage.RentButtonUsable` states how it gates the rent button |
| MovieDetailPage.RentAction | src/pages/MovieDetailPage.tsx:31-34 | the first step of the rent handler: go to `/login` when signed out, otherwise rent `Number(id)` of the route. `MovieDetailPage.RentGuard` states it for every movie id |
| MovieDetailPage.RentFeedback | src/pages/MovieDetailPage.tsx:33-38 | the toast after the awaited rent: the success text, or on failure the backend's `error`, else its `detail`, else the fallback. `MovieDetailPage.RentFailureExplained` states it |
| MovieDetailPage.RentButtonShown | src/pages/MovieDetailPage.tsx:123 | the rent button is rendered for a signed-in customer. `MovieDetailPage.RentButtonUsable` and `MovieDetailPage.OneActionPerVisitor` state it |
| MovieDetailPage.RentButtonDisabled | src/pages/MovieDetailPage.tsx:127 | the rent button is disabled with no copy available or a rent in flight. `MovieDetailPage.RentButtonUsable` states it |
| MovieDetailPage.LoginPromptShown | src/pages/MovieDetailPage.tsx:135 | the login prompt is rendered for a signed-out visitor. `MovieDetailPage.OneActionPerVisitor` states it |
| MovieDetailPage.StockPanelShown | src/pages/MovieDetailPage.tsx:145 | the stock panel is rendered for a signed-in vendor. `MovieDetailPage.OneActionPerVisitor` states it |
| MovieDetailPage.UpdateButtonDisabled | src/pages/MovieDetailPage.tsx:190 | the Update button is disabled while an update is in flight or both fields are blank. `MovieDetailPage.UpdateButtonNeedsInput` states it |
| MovieDetailPage.UpdateButtonNeedsInput | src/pages/MovieDetailPage.tsx:186-192 | the Update button is enabled exactly with no update in flight and a field filled in; the blank form it refuses would resend the record's own figures |
| MovieDetailPage.RentButtonUsable | src/pages/MovieDetailPage.tsx:123-127 | the rent button can be pressed exactly by a signed-in customer, with no rent in flight and a stock record with a copy available |
| MovieDetailPage.OneActionPerVisitor | src/pages/MovieDetailPage.tsx:123-145 | for any visitor, the login prompt, the rent button and the stock panel never appear together. An admin, and a signed-in visitor whose user has not loaded, get none of them |
| MovieDetailPage.RentGuard | src/pages/MovieDetailPage.tsx:31-34 | a signed-out visitor goes to `/login` without renting. A signed-in one on `/movies/<n>` rents movie `n` |
| MovieDetailPage.RentFailureExplained | src/pages/MovieDetailPage.tsx:35-37 | a failed rent shows a non-empty message: the backend's `error`, else its `detail`, else the fallback |
| MovieDetailPage.SentUpdatesAreConsistent | src/pages/MovieDetailPage.tsx:41-71 | an update that passes validation is for the record on screen, keeps `0 <= available <= total`, and keeps the current value for a blank field |
| MovieDetailPage.TypedNumbersDecide | src/pages/MovieDetailPage.tsx:44-64 | typed counts are sent as typed exactly when `0 <= available <= total`. Otherwise the right error is shown |
| MovieDetailPage.UnreadableFieldRefused | src/pages/MovieDetailPage.tsx:51-58 | a field that is not a number is refused as invalid |
| MovieDetailPage.ValidateUpdate | src/pages/MovieDetailPage.tsx:44-64 | the checks before an update is sent: blank fields keep the record's figures, anything else is `Number(text)`, and a non-number, a negative count or more available than total copies is refused with its message. `MovieDetailPage.SentUpdatesAreConsistent`, `MovieDetailPage.TypedNumbersDecide` and `MovieDetailPage.UnreadableFieldRefused` state it, and `StockForm.HandleInventoryUpdate` is proved against it |
| MovieDetailPage.BlankFieldsKeepShownFigures | src/pages/MovieDetailPage.tsx:153-163 | with the panel showing total and available copies, a blank field submits the figure the panel shows for it |
| MovieDetailPage.TotalCardShowsAvailable | src/pages/MovieDetailPage.tsx:156 | as written, for a record with 5 copies of which 3 are available, the "Total Copies" card reads 3 while a blank total submits 5 |
| MovieDetailPage.StockForm.constructor | src/pages/MovieDetailPage.tsx:27-28 | both inputs start empty |
| MovieDetailPage.StockForm.SetNewAvailable | src/pages/MovieDetailPage.tsx:184 | the available-copies input takes the typed text, and the other input is unchanged |
| MovieDetailPage.StockForm.SetNewTotal | src/pages/MovieDetailPage.tsx:173 | the total-copies input takes the typed text, and the other input is unchanged |
| MovieDetailPage.StockForm.HandleInventoryUpdate | src/pages/MovieDetailPage.tsx:41-80 | without a record nothing happens. Otherwise an invalid form shows its error and sends nothing, and a valid one sends exactly the validated update. The inputs are cleared only after success, and a failure shows the backend's `detail` or the fallback |
| HomePage.MoviesQuery | src/pages/HomePage.tsx:21-25 | the catalogue query arguments: the current page, and the search text and genre only when non-empty. `HomePage.CatalogueRequestFollowsUi` states it |
| HomePage.CatalogueRequestFollowsUi | src/pages/HomePage.tsx:21-25 | the catalogue request asks for the current page, and names the search text and genre exactly when they are non-empty |
| HomePage.PageCountIsLeastCover | src/pages/HomePage.tsx:35 | the page count is the least number of 10-item pages that holds every result |
| HomePage.TotalPages | src/pages/HomePage.tsx:35 | the page count: 1 before data arrives, else the ten-item page count of the total. `HomePage.PaginationNeedsSecondPage` and `HomePage.PagingStaysInRange` state what it allows |
| HomePage.PaginationNeedsSecondPage | src/pages/HomePage.tsx:128 | pagination appears exactly once a response with more than ten movies has arrived |
| HomePage.PaginationShown | src/pages/HomePage.tsx:128 | pagination is rendered with more than one page. `HomePage.PaginationNeedsSecondPage` states it |
| HomePage.PrevDisabled | src/pages/HomePage.tsx:133 | Prev is disabled on page 1 or while fetching. `HomePage.PagingStaysInRange` states it |
| HomePage.NextDisabled | src/pages/HomePage.tsx:144 | Next is disabled on the last page or beyond, or while fetching. `HomePage.PagingStaysInRange` states it |
| HomePage.PagingStaysInRange | src/pages/HomePage.tsx:130-146 | from a page in range, enabled Prev and Next lead only to pages in range |
| HomePage.FiltersHideHero | src/pages/HomePage.tsx:34-43 | setting a search text, a genre or a page other than 1 hides the banner. Clearing the genre with no search brings back the first result |
| HomePage.Hero | src/pages/HomePage.tsx:34-43 | the banner movie: the first result, only on page 1 with no search text and no genre. `HomePage.FiltersHideHero` states how the `ui` actions hide and restore it |
| HomePage.FindInventory | src/pages/HomePage.tsx:112-114 | the card's stock record is for that movie and comes from the list. There is none exactly when no record is for the movie |
| HomePage.FindInventoryIsFirstMatch | src/pages/HomePage.tsx:112-114 | the record found is the first one for the movie |
| HomePage.CardInventory | src/pages/HomePage.tsx:112-114 | the stock record a card shows, none before the list loads. `HomePage.CardShowsFirstRecordOfMovie` states it |
| HomePage.CardShowsFirstRecordOfMovie | src/pages/HomePage.tsx:112-114 | a card shows a record exactly when the loaded list holds one for that movie, and it is the first such record |
| MyRentalsPage.Partition | src/pages/MyRentalsPage.tsx:27-28 | every rental lands in exactly one list: active holds those not `"RETURNED"` and history the returned ones. Lengths and multisets add up |
| MyRentalsPage.FiltersKeepOrder | src/pages/MyRentalsPage.tsx:27-28 | both lists keep the page's order: filtering a concatenation concatenates the filtered parts |
| MyRentalsPage.RentalsOf | src/pages/MyRentalsPage.tsx:25 | the page's rentals, empty before data arrives. `MyRentalsPage.NoDataNoRentals` states it |
| MyRentalsPage.NoDataNoRentals | src/pages/MyRentalsPage.tsx:25 | with no data both lists are empty |
| MyRentalsPage.Active | src/pages/MyRentalsPage.tsx:27 | the rentals not `"RETURNED"`, in page order. `MyRentalsPage.Partition` and `MyRentalsPage.FiltersKeepOrder` state it against `History` |
| MyRentalsPage.History | src/pages/MyRentalsPage.tsx:28 | the `"RETURNED"` rentals, in page order. `MyRentalsPage.Partition` and `MyRentalsPage.FiltersKeepOrder` state it against `Active` |
| MyRentalsPage.FormatDate | src/pages/MyRentalsPage.tsx:34-41 | a missing or empty date reads as a dash. Anything else shown is the formatted parsed date |

## Left out

- JSON: `JSON.parse`/`JSON.stringify` of the stored session are replaced by an injective key/value encoding, with proved round trips. The text `null` decodes to null. Any other text that is not an encoding counts as malformed, including valid JSON of the wrong shape.
- `URLSearchParams`: percent-encoding is an abstract escape of the few reserved characters, not the WHATWG encoder.
- `Number()`: it is modelled as integer parsing only. There are no fractions, exponents, surrounding whitespace, leading `+` or hexadecimal, and any other text is `NaN`. `daily_rate`, `price` and other floats are not modelled.
- `date-fns` `format` and `new Date(text)`: they are function parameters of `MyRentalsPage.FormatDate`.
- `Math.ceil` on a float: it is integer ceiling division on a non-negative count.
- HTTP, `localStorage`, `window.location`:
  - the network is an oracle;
  - `localStorage` is a map in one shared object;
  - the redirect is a `Redirected("/login")` event.
- Base URLs (`BACKEND_URL`, `API_BASE_URL`): they are not modelled. URLs are the relative paths.
- React Router details: case-insensitive matching and trailing-slash handling are not modelled. Paths are split on `/`, and empty segments are ignored.
- RTK Query's cache engine: subscriptions, deduplication, loading flags and the timing of refetches are not modelled. The invalidation rule is a definition (`Tags.Refetches`).
- The response interceptor's use of an `error.config` that the first interceptor mutated is modelled as one `RequestConfig` object. Concurrent requests and their interleaving are left out.
- `MovieDetailPage.StockForm.HandleInventoryUpdate` and `MovieDetailPage.RentFeedback`: the awaited mutation is a `MutationReply` parameter. A rejection is modelled only as `error`/`detail` texts.
- Toast timing, loading skeletons and every other piece of JSX output are not modelled. So is the `handleReturn` toast of the rentals page.
- `customerApi.ts` is not part of this model: no page uses it. `store.ts` is used only to scope the cache per slice.
- `AdminPage.tsx`, `VendorPage.tsx`, `ProfilePage.tsx`, `RegisterPage.tsx`, `LoginPage.tsx`, `Navbar.tsx` and `MovieCard.tsx` are not part of this model. They hold forms and tables.
- Behaviours described for the system that the code does not implement. The model follows the code, which has:
  - no single-flight refresh: each failing request refreshes on its own;
  - no optimistic rent or return with rollback;
  - no per-record busy exclusion;
  - no inventory invalidation on rent or return.

  A refreshed token is written to storage and not to the Redux session (`Gateway.RefreshInvisibleToStore`).

## Findings

| source | as written | input that shows it | evidently intended | confidence | as-written member | corrected member |
|---|---|---|---|---|---|---|
| src/pages/MovieDetailPage.tsx:156 | the "Total Copies" card of the stock panel shows `inventory.available_copies` | a record with `total_copies` 5 and `available_copies` 3: the card reads 3, yet a blank total field submits 5 | the card shows `inventory.total_copies` | high, not executed | MovieDetailPage.TotalCardShowsAvailable | MovieDetailPage.BlankFieldsKeepShownFigures |
