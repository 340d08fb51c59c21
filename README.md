# Songify session model in Dafny

This project models the client-side session logic of Songify, a small web client for a music
streaming API. The logic lives in two composables:

- `useAuth.js` holds one module-level state record and a copy of the credentials in the browser's
  localStorage. The record has `accessToken`, `refreshToken`, `expiresAt`, `profile`, `loading`,
  `error`, `playlists` and `isRefreshing`. The operations on it are: the startup load, the
  `isAuthenticated` check, the partial-update `saveAuthData`, `clearAuthData`/`logout`, a
  single-flight token refresh, the bearer-token fetch guard `fetchWithAuth`, and the paginated
  playlist fetchers.
- `useSearch.js` holds the search results, a loading flag and an error slot. It updates them from
  `search` and `clearSearch`.

Layout:

- `js_values.dfy` (`JsValues`): nullable values, JavaScript truthiness, `String#trim`,
  `Array#join` and a split used to state what a join keeps.
- `decimal.dfy` (`Decimal`): `Number#toString` for integers and `parseInt(s, 10)`, with the
  round trip between them. The expiry is kept in localStorage as decimal text.
- `http.dfy` (`Http`): the network boundary. A call into `fetch` is replaced by an argument
  `Response<T>` (`Ok(payload)`, `HttpFail(status)` or `Threw(message)`). Every request sent is
  appended to a request log, so "no request was sent" can be stated.
- `credential_store.dfy` (`CredentialStore`): the credentials and the store as values. It defines
  `Load`, `IsAuthenticated`, `Save`, `Clear` and the fetch guard `FetchOutcome`. Its lemmas
  relate them, in particular that memory and store stay in agreement (`InSync`).
- `playlists.dfy` (`Playlists`): playlist pages, the replace-or-append merge and the
  pagination lemmas.
- `auth_session.dfy` (`Auth`): the class `AuthSession`. Its fields are the state record, the
  store (`map<string, string>`) and the request log. Each of its methods changes them in place
  and is specified by the functions above. The current time `now` is a parameter. The refresh
  is split into two methods. `BeginRefresh` covers the synchronous guard and sets
  `isRefreshing`. `CompleteRefresh` covers the settling of the request.
- `search.dfy` (`Search`): the class `SearchState` with `searchResults`, `isLoading` and `error`.

Quirks of the code that are modelled as written:

- `fetchWithAuth` reads the key `access_token`, while `saveAuthData` writes
  `spotify_access_token`. `SessionWritesNeverEnableFetch` shows the consequence: no save or
  clear ever makes the guard pass.
- `saveAuthData` does nothing outside the browser. `clearAuthData` always nulls the in-memory
  fields.
- A null or 0 `expiresAt` never expires.
- The expiry is only rewritten when `expires_in` is truthy.
- `localStorage.setItem` turns a missing access token into the text `"undefined"`. The model's
  `None` stands for a missing field; an explicit `null`, which would be stored as `"null"`, is
  not told apart (see "Left out").

Behaviour of the code that the model keeps:

- `fetchUserPlaylists` first refuses unauthenticated sessions, before any bearer fetch.
- `clearAuthData` leaves the store alone outside the browser.
- `fetchWithAuth` takes its token from a key the session never writes. It does not use the
  access token the session holds.

## Model

| member | source | states |
|---|---|---|
| `JsValues.TrimEmptyIffAllSpace` | composables/useSearch.js:18 | `s.trim() === ''` holds exactly when every character of `s` is white space |
| `JsValues.SplitJoin` | composables/useSearch.js:27 | splitting the comma-joined text of a non-empty list at the commas gives back the list, provided no element contains a comma |
| `Decimal.NatToString` | composables/useAuth.js:65 | `toString` of a non-negative integer is a non-empty run of digits |
| `Decimal.ParseInt` | composables/useAuth.js:41 | `parseInt` gives NaN exactly when no digit follows the leading white space and the optional sign |
| `Decimal.IntToString` | composables/useAuth.js:65 | `toString` of an integer is a non-empty run of digits, preceded by a minus sign exactly when the integer is negative |
| `Decimal.ParseIntRoundTrip` | composables/useAuth.js:39-41 | the expiry text written by `saveAuthData` is read back as the same number at startup |
| `CredentialStore.StatusMessagesIdentifyStatus` | composables/useAuth.js:129 | distinct HTTP statuses give distinct `Token refresh failed: <status>` messages, and distinct `HTTP error! status: <status>` messages (line 171) |
| `CredentialStore.ParseProfile` | composables/useAuth.js:20-27 | stored profile text is taken over exactly when it has braces at both ends (an approximation of `JSON.parse`, see "Left out"), and it is then kept as that very text |
| `CredentialStore.IsAuthenticated` | composables/useAuth.js:47-49 | `isAuthenticated` needs a non-empty access token, a profile and, when a non-zero expiry is set, a current time before it; together these suffice |
| `CredentialStore.AuthenticationOnlyLapses` | composables/useAuth.js:47-49 | an authenticated session was authenticated at every earlier time; expiry can only end authentication |
| `CredentialStore.NoExpiryNeverLapses` | composables/useAuth.js:48 | with a null or 0 expiry the session is authenticated at every time iff it has a non-empty access token and a profile |
| `CredentialStore.AuthenticationSeesOnlyTruthiness` | composables/useAuth.js:48 | the verdict depends only on the truthiness of each credential field |
| `CredentialStore.Norm` | composables/useAuth.js:48 | the credentials up to truthiness: falsy tokens and a zero expiry become null, truthy fields and the profile are kept unchanged, and no empty token remains |
| `CredentialStore.LoadedExpiry` | composables/useAuth.js:39-42 | a loaded expiry is `parseInt` of the stored text, and a non-empty stored text is always parsed |
| `CredentialStore.LoadedProfile` | composables/useAuth.js:20-27 | a loaded profile serialises back to the stored text, and a non-empty stored text is always parsed |
| `CredentialStore.Load` | composables/useAuth.js:19-43 | each loaded field is null or comes from its own key: non-empty tokens, the parsed expiry, the parsed profile; and every non-empty stored value is taken over (tokens as they are, expiry through `parseInt`, profile through the parse) |
| `CredentialStore.LoadReadsOnlySessionKeys` | composables/useAuth.js:19-43 | the startup load depends on the four `spotify_*` keys and no other entry |
| `CredentialStore.ReloadPreservesAuthentication` | composables/useAuth.js:19-49 | when memory and store agree, the credentials rebuilt from the store authenticate exactly when the in-memory ones do |
| `CredentialStore.Save` | composables/useAuth.js:52-75 | outside the browser nothing changes. With token data, the access token is always overwritten in memory and store. The refresh token is written only when non-empty, the expiry only for a non-zero lifetime (as `now + expires_in*1000`), and the profile only when given. Every other field and store entry is unchanged |
| `CredentialStore.SaveKeepsInSync` | composables/useAuth.js:52-75 | a save in the browser keeps memory and store in agreement when the token data carries an access token |
| `CredentialStore.MissingAccessTokenBreaksSync` | composables/useAuth.js:55-56 | token data without `access_token` stores the text `"undefined"`; a reload then authenticates a session that is unauthenticated in memory |
| `CredentialStore.Clear` | composables/useAuth.js:78-91 | every credential is nulled; in the browser exactly the four session keys are removed; no store entry is added or altered |
| `CredentialStore.ClearIdempotent` | composables/useAuth.js:78-91 | clearing twice is the same as clearing once |
| `CredentialStore.ClearKeepsInSync` | composables/useAuth.js:78-91 | after a clear in the browser a reload finds no credentials, so memory and store agree |
| `CredentialStore.RefreshTokenData` | composables/useAuth.js:136-141 | the token data saved after a refresh carries the response's access token and lifetime; its refresh token is the response's or the held one, and it is non-empty whenever either of them is |
| `CredentialStore.RefreshKeepsRefreshToken` | composables/useAuth.js:133-141 | a successful refresh stores the new access token and expiry; it replaces the refresh token only with a non-empty new one and otherwise keeps the held one |
| `CredentialStore.SentBy` | composables/useAuth.js:164-169 | at most one request is sent, exactly when the guard passes, carrying the stored bearer token |
| `CredentialStore.FetchOutcome` | composables/useAuth.js:158-175 | outside the browser the fetch fails before sending with `localStorage is not defined`; in the browser without a stored `access_token` it fails before sending with `No access token found`. Otherwise it succeeds exactly on an ok response and returns its payload; a failed status gives `HTTP error! status: <status>`, and a thrown network error is passed on with its own message |
| `CredentialStore.SessionWritesNeverEnableFetch` | composables/useAuth.js:158-162 | starting without `access_token` in the store, no save (which writes `spotify_access_token`, line 55) or clear adds it; every authenticated fetch then fails and sends nothing |
| `Playlists.Merged` | composables/useAuth.js:189-196 | a reset, or an empty store, replaces the stored page. Otherwise the new items are appended after the old ones, `next` is replaced and the other paging fields are kept |
| `Playlists.MoreParams` | composables/useAuth.js:214-217 | the `limit` and `offset` of the next link, or 50 and 0 when missing or empty |
| `Playlists.AppendsConcatenate` | composables/useAuth.js:189-196 | after any number of appending fetches, the stored items are all pages' items in fetch order, with the last page's `next` |
| `Playlists.ResetThenAppend` | composables/useAuth.js:189-196 | a reset fetch followed by an appending fetch stores both pages' items in order, with the second page's `next` |
| `Auth.HasMore` | composables/useAuth.js:209 | when more pages are reported, a page is stored and its `next` link is present and non-empty |
| `Auth.AuthSession.constructor` | composables/useAuth.js:4-43 | the state starts empty; in the browser it holds `Load(store)`, in agreement with the store |
| `Auth.AuthSession.SaveAuthData` | composables/useAuth.js:52-75 | memory and store become `Save` of their old values; in the browser, when they agreed and any token data given carries an access token, they still agree |
| `Auth.AuthSession.ClearAuthData` | composables/useAuth.js:78-91 | memory and store become `Clear` of their old values and `error` is null; `playlists`, `loading` and `isRefreshing` are untouched |
| `Auth.AuthSession.Logout` | composables/useAuth.js:94-96 | exactly the effect of `ClearAuthData` |
| `Auth.AuthSession.BeginRefresh` | composables/useAuth.js:99-123 | while refreshing, a call returns the pending promise and sends nothing, even without a refresh token. Otherwise a missing refresh token rejects with `No refresh token available` and leaves `isRefreshing` false. Otherwise one refresh request carrying the refresh token is sent and `isRefreshing` becomes true |
| `Auth.AuthSession.CompleteRefresh` | composables/useAuth.js:125-151 | a failed status or a thrown error clears all credentials and rejects. Success saves the new token data, keeping the held refresh token when none came back, and resolves with the new access token. `isRefreshing` is false afterwards in every case |
| `Auth.AuthSession.FetchWithAuth` | composables/useAuth.js:158-175 | the result is `FetchOutcome` and the request log grows by `SentBy` |
| `Auth.AuthSession.FetchUserPlaylists` | composables/useAuth.js:178-205 | `limit`, `offset` and `reset` default to 50, 0 and true. Unauthenticated: rejects with nothing touched and nothing sent. Otherwise the page is fetched, merged into `playlists` on success, and `playlists` is unchanged on failure; `loading` ends false |
| `Auth.AuthSession.FetchMorePlaylists` | composables/useAuth.js:208-225 | null and nothing touched when no page is stored or its `next` is falsy; otherwise an appending fetch with the next link's limit and offset |
| `Auth.ConcurrentRefreshesShareOneRequest` | composables/useAuth.js:99-112 | two refresh calls in a row send one request; the second call waits on the refresh operation the first one started (each `async` call returns its own promise, settling as `refreshPromise` does) |
| `Auth.SucceededRefreshAllowsNewAttempt` | composables/useAuth.js:133-154 | after a successful refresh, with or without a new refresh token in the response, the next call sends a fresh request as a new operation |
| `Auth.FailedRefreshBlocksNewAttempt` | composables/useAuth.js:105-154 | after a failed status or a thrown error, the credentials are cleared and the next call is rejected with `No refresh token available` without sending anything |
| `Search.IsBlankQuery` | composables/useSearch.js:18 | a query is blank exactly when it is null or consists of white space only |
| `Search.TypesParamListsTypes` | composables/useSearch.js:27 | for a non-empty list of types none of which contains a comma, the `type` parameter splits back into the requested types in order |
| `Search.SearchEndpoint` | composables/useSearch.js:27-30 | the search request carries the query, a `type` value that splits back into the requested types when none contains a comma, and a `limit` text that `parseInt` reads back as the given limit |
| `Search.SearchErrorMessage` | composables/useSearch.js:36 | the error text is `Failed to search: ` followed by the error's message, or by `Unknown error` when that message is empty |
| `Search.SearchState.constructor` | composables/useSearch.js:7-9 | results and error start null, loading false |
| `Search.SearchState.Search` | composables/useSearch.js:17-41 | `types` and `limit` default to `['track', 'album']` and 10. A blank query nulls the results, sends nothing and leaves loading and error alone. Otherwise the request with the joined types is passed to the bearer fetch, which sends it only when its guard passes. Success stores and returns the results with error null. Failure keeps the old results, sets the error message and returns null. Loading ends false |
| `Search.SearchState.ClearSearch` | composables/useSearch.js:43-46 | results and error become null, loading is untouched |
| `Search.BlankThenFailingSearch` | composables/useSearch.js:17-41 | a blank search clears the results and a failing search then leaves them cleared with a non-empty error message |

## Left out

- `script.js` is not part of this model: it is a standalone login flow. It redirects to the provider, exchanges the returned code for a token, fetches the profile with it and writes the profile into the page. It shares no state with the composables.
- `composables/useloginusingSpotify.js` is not part of this model: it builds the authorize URL with the `URL` API, draws a random CSRF state with `Math.random` and navigates away.
- `server/api/spotify/token.js` is not part of this model: it is a server handler that forwards one request to the provider. It answers 400 for a missing code and rethrows a failed provider response with that response's status.
- `nuxt.config.ts` is not part of this model: it is static build configuration.
- Vue reactivity (`reactive`, `readonly`, `computed`, `ref`) is left out. Fields are plain fields and `isAuthenticated` is evaluated on demand at a given time. In the source it is a cached `computed` and `Date.now()` is not a reactive dependency: once read as true it stays true past `expiresAt` until the token, profile or expiry changes, so the `fetchUserPlaylists` guard can pass after expiry where `FetchUserPlaylists` rejects. `AuthenticationOnlyLapses` describes the on-demand evaluation, not the cached one.
- `console` logging is left out.
- Real `fetch`, promises and interleaving are left out. Every method runs to completion. The refresh is the one operation split in two, so that other calls can happen between its start and its settling.
- Joined refresh callers are identified by the promise they receive. The value they eventually see is the result of `CompleteRefresh`.
- JSON is not parsed. A profile is its JSON object text, and stored text without the shape of an object counts as absent. The source would keep a truthy non-object value such as `1` or `[]`.
- `CredentialStore.ParseProfile`: approximates `JSON.parse` by a shape test (braces at both ends). It accepts malformed text such as `{abc}`, which `JSON.parse` rejects, leaving the profile null; it refuses an object with surrounding white space, which `JSON.parse` accepts; and it keeps the stored text as it is, where `JSON.stringify` would normalise white space. The session only ever stores `JSON.stringify` output, so only a store changed from outside behaves differently.
- An explicit `null` in a field of the token data is not told apart from a missing field. Saving `access_token: null` would store the text `"null"`, where the model stores `"undefined"`; both are non-empty, so loading and authentication behave the same.
- A NaN expiry (from `parseInt` of junk) is represented as no expiry. `isAuthenticated`, the only reader, treats both the same.
- Numbers are integers. A fractional `expires_in`, floating-point rounding, and the exponent notation `toString` uses from 1e21 on are not modelled.
- `parseInt` and `trim` skip the ASCII white space, no-break space, the byte-order mark and the two Unicode line terminators. The other Unicode space separators are not included.
- `encodeURIComponent` is left out. The search request carries the query text before percent-encoding.
- URL parsing of the `next` link is left out. A link carries the `limit`/`offset` query values parsing would give. A malformed link, where `new URL` throws, is not modelled.
- The object aliasing of `state.playlists = response` is left out. In the source, a later append also changes the page object an earlier call returned.
- A page whose body lacks `items` is left out. The append spread would throw on it.
- After a failed refresh status, reading the error body (`response.text()`) could itself throw. The source would then reject with that error's message instead of `Token refresh failed: <status>`; the credentials end up cleared either way. The model does not include this case.
- `localStorage.setItem` throwing (storage full or disabled) is left out. On the refresh success path such a throw from `saveAuthData` would be caught by the refresh's error handler, which clears all credentials and rejects; `CompleteRefresh` keeps the new tokens instead. Elsewhere the throw would propagate to the caller.
- The request options and extra headers that `fetchWithAuth` merges are left out. Only the bearer header is recorded.
- `Auth.AuthSession.FetchUserPlaylists`: does not state that `loading` is true while the request is pending, because no caller can observe the pending state in a sequential model; only the final `false` is stated.
- `Search.SearchState.Search`: does not state that `isLoading` is true while the request is pending, for the same reason.
