/** The module-level authentication state of useAuth.js and the operations that change it in
    place: startup load, saveAuthData, clearAuthData/logout, the single-flight token refresh,
    the bearer-fetch guard and the playlist fetchers. Each method is specified by the value
    functions of CredentialStore and Playlists. */
module Auth {
  import opened JsValues
  import opened Decimal
  import opened Http
  import opened CredentialStore
  import opened Playlists

  const NotAuthenticatedMessage: string := "User must be authenticated to fetch playlists"

  /** How a call of refreshToken begins. A refresh operation (refreshPromise) is identified by
      the position of its refresh request in the session's request log. Each call of the async
      refreshToken returns a promise of its own; a joined call's promise settles as the
      operation it joined does. */
  datatype RefreshStart =
    | Joined(promise: nat)        // a refresh is in flight: the call waits on that operation
    | Rejected(message: string)   // no refresh token: rejected before anything is sent
    | Started(promise: nat)       // a new refresh request was sent

  /** A page is stored and its `next` link is truthy; the link is then defined for
      fetchMorePlaylists to read. */
  function HasMore(stored: Option<PlaylistPage>): (b: bool)
    ensures b ==> stored.Some? && stored.value.next.Some? && stored.value.next.value.href != ""
  {
    stored.Some? && HasNext(stored.value)
  }

  /** Whether more pages can be fetched depends only on the page fetched last: an appending
      fetch replaces `next` and a resetting fetch replaces the whole page. */
  lemma MoreFollowsFetchedPage(stored: Option<PlaylistPage>, page: PlaylistPage, reset: bool)
    ensures HasMore(Some(Merged(stored, page, reset))) == HasNext(page)
  {
  }

  class AuthSession {
    /** Whether the code runs in the browser (process.client); fixed for the session. */
    const client: bool

    var accessToken: Option<string>
    var refreshToken: Option<string>
    var expiresAt: Option<int>
    var profile: Option<Profile>
    var loading: bool
    var error: Option<string>
    var playlists: Option<PlaylistPage>
    var isRefreshing: bool
    /** The most recent refresh operation (refreshPromise); it is never reset. */
    var refreshPromise: Option<nat>

    /** The browser's localStorage. */
    var store: Store
    /** Every request sent to the network so far, oldest first. */
    var requests: seq<Request>

    function Creds(): Credentials
      reads this`accessToken, this`refreshToken, this`expiresAt, this`profile
    {
      Credentials(accessToken, refreshToken, expiresAt, profile)
    }

    function Snap(): Snapshot
      reads this`accessToken, this`refreshToken, this`expiresAt, this`profile, this`store
    {
      Snapshot(Creds(), store)
    }

    /** The computed isAuthenticated, evaluated at time now. */
    predicate Authenticated(now: int)
      reads this`accessToken, this`refreshToken, this`expiresAt, this`profile
    {
      IsAuthenticated(Creds(), now)
    }

    /** While a refresh is in flight, its promise is the one whose request was sent last by it. */
    ghost predicate Valid()
      reads this`isRefreshing, this`refreshPromise, this`requests
    {
      isRefreshing ==>
        refreshPromise.Some? && refreshPromise.value < |requests|
        && requests[refreshPromise.value].RefreshCall?
    }

    /** Module load: the state starts empty and, in the browser, takes over the stored entries. */
    constructor (client: bool, store: Store)
      ensures this.client == client && this.store == store
      ensures Creds() == (if client then Load(store) else NoCredentials)
      ensures client ==> InSync(Snap())
      ensures !loading && error == None && playlists == None
      ensures !isRefreshing && refreshPromise == None && requests == []
      ensures Valid()
    {
      this.client := client;
      this.store := store;
      accessToken, refreshToken, expiresAt, profile := None, None, None, None;
      loading, error, playlists := false, None, None;
      isRefreshing, refreshPromise, requests := false, None, [];
      if client {
        var storedProfile := Get(store, ProfileKey);
        if TruthyString(storedProfile) {
          profile := ParseProfile(storedProfile.value);
        }
        var storedToken := Get(store, AccessTokenKey);
        if TruthyString(storedToken) {
          accessToken := storedToken;
        }
        var storedRefreshToken := Get(store, RefreshTokenKey);
        if TruthyString(storedRefreshToken) {
          refreshToken := storedRefreshToken;
        }
        var storedExpiry := Get(store, ExpiresKey);
        if TruthyString(storedExpiry) {
          expiresAt := ParseInt(storedExpiry.value);
        }
      }
    }

    /** saveAuthData(tokenData, profile) at time now. */
    method SaveAuthData(now: int, tokenData: Option<TokenData>, profile: Option<Profile>)
      modifies this`accessToken, this`refreshToken, this`expiresAt, this`profile, this`store
      ensures Snap() == Save(old(Snap()), client, tokenData, profile, now)
      ensures client && old(InSync(Snap())) && (tokenData.Some? ==> tokenData.value.accessToken.Some?)
        ==> InSync(Snap())
    {
      ghost var before := Snap();
      if client {
        if tokenData.Some? {
          var td := tokenData.value;
          store := store[AccessTokenKey := JsString(td.accessToken)];
          accessToken := td.accessToken;
          if TruthyString(td.refreshToken) {
            store := store[RefreshTokenKey := td.refreshToken.value];
            refreshToken := td.refreshToken;
          }
          if TruthyNumber(td.expiresIn) {
            var at := now + td.expiresIn.value * 1000;
            store := store[ExpiresKey := IntToString(at)];
            expiresAt := Some(at);
          }
        }
        if profile.Some? {
          store := store[ProfileKey := Stringify(profile.value)];
          this.profile := profile;
        }
        if InSync(before) && (tokenData.Some? ==> tokenData.value.accessToken.Some?) {
          SaveKeepsInSync(before, tokenData, profile, now);
        }
      }
    }

    /** clearAuthData: the credential fields and the error are nulled in any case; in the
        browser the four session keys are removed from the store. */
    method ClearAuthData()
      modifies this`accessToken, this`refreshToken, this`expiresAt, this`profile, this`error, this`store
      ensures Snap() == Clear(old(Snap()), client) && error == None
      ensures client ==> InSync(Snap())
    {
      ghost var before := Snap();
      accessToken := None;
      refreshToken := None;
      expiresAt := None;
      profile := None;
      error := None;
      if client {
        store := store - {AccessTokenKey};
        store := store - {RefreshTokenKey};
        store := store - {ExpiresKey};
        store := store - {ProfileKey};
        assert store == before.store - AuthKeys;
        ClearKeepsInSync(before);
      }
    }

    /** logout: the same as clearAuthData. */
    method Logout()
      modifies this`accessToken, this`refreshToken, this`expiresAt, this`profile, this`error, this`store
      ensures Snap() == Clear(old(Snap()), client) && error == None
      ensures client ==> InSync(Snap())
    {
      ClearAuthData();
    }

    /** The synchronous part of refreshToken(): join the refresh in flight, reject without a
        refresh token, or mark the session refreshing and send the refresh request. */
    method BeginRefresh() returns (start: RefreshStart)
      requires Valid()
      modifies this`isRefreshing, this`refreshPromise, this`requests
      ensures Valid()
      // single flight: a call while refreshing shares the pending promise and sends nothing
      ensures old(isRefreshing) ==>
        start == Joined(old(refreshPromise).value)
        && isRefreshing && refreshPromise == old(refreshPromise) && requests == old(requests)
      ensures !old(isRefreshing) && !TruthyString(refreshToken) ==>
        start == Rejected(NoRefreshTokenMessage)
        && !isRefreshing && refreshPromise == old(refreshPromise) && requests == old(requests)
      ensures !old(isRefreshing) && TruthyString(refreshToken) ==>
        start == Started(|old(requests)|)
        && isRefreshing && refreshPromise == Some(|old(requests)|)
        && requests == old(requests) + [RefreshCall(refreshToken.value)]
    {
      if isRefreshing {
        return Joined(refreshPromise.value);
      }
      if !TruthyString(refreshToken) {
        return Rejected(NoRefreshTokenMessage);
      }
      isRefreshing := true;
      refreshPromise := Some(|requests|);
      requests := requests + [RefreshCall(refreshToken.value)];
      start := Started(refreshPromise.value);
    }

    /** The settling of the refresh in flight, once the network produced `response`: a failed
        status or a thrown error clears all credentials and rejects; success saves the new
        token data, keeping the held refresh token when none came back. Either way the session
        is no longer refreshing. */
    method CompleteRefresh(now: int, response: Response<TokenData>) returns (settled: Result<Option<string>>)
      requires Valid() && isRefreshing
      modifies this`accessToken, this`refreshToken, this`expiresAt, this`profile, this`error, this`store
      modifies this`isRefreshing
      ensures Valid() && !isRefreshing
      ensures response.Ok? ==>
        Snap() == Save(old(Snap()), client, Some(RefreshTokenData(response.payload, old(refreshToken))), None, now)
        && error == old(error) && settled == Success(response.payload.accessToken)
      ensures response.HttpFail? ==>
        Snap() == Clear(old(Snap()), client) && error == None
        && settled == Failure(RefreshFailedMessage(response.status))
      ensures response.Threw? ==>
        Snap() == Clear(old(Snap()), client) && error == None && settled == Failure(response.message)
    {
      match response {
        case HttpFail(status) =>
          ClearAuthData();
          settled := Failure(RefreshFailedMessage(status));
        case Threw(message) =>
          ClearAuthData();
          settled := Failure(message);
        case Ok(tokenData) =>
          SaveAuthData(now, Some(RefreshTokenData(tokenData, refreshToken)), None);
          settled := Success(tokenData.accessToken);
      }
      isRefreshing := false;
    }

    /** fetchWithAuth(url): the guard on the stored "access_token", then the request. */
    method FetchWithAuth<T>(endpoint: Endpoint, response: Response<T>) returns (r: Result<T>)
      modifies this`requests
      ensures r == FetchOutcome(client, store, response)
      ensures requests == old(requests) + SentBy(client, store, endpoint)
    {
      if !client {
        return Failure(NoStorageMessage);
      }
      var token := Get(store, FetchTokenKey);
      if !TruthyString(token) {
        return Failure(NoAccessTokenMessage);
      }
      requests := requests + [ApiCall(endpoint, token.value)];
      match response {
        case Ok(payload) => r := Success(payload);
        case HttpFail(status) => r := Failure(HttpErrorMessage(status));
        case Threw(message) => r := Failure(message);
      }
    }

    /** fetchUserPlaylists(limit, offset, reset): refuses before touching anything when not
        authenticated; otherwise fetches the page and, on success, merges it into the stored
        one. The loading flag is false once the call has settled. */
    method FetchUserPlaylists(now: int, limit: string := DefaultLimit, offset: string := DefaultOffset,
                              reset: bool := true, response: Response<PlaylistPage>)
      returns (r: Result<PlaylistPage>)
      requires Valid()
      modifies this`loading, this`playlists, this`requests
      ensures Valid()
      ensures !Authenticated(now) ==>
        r == Failure(NotAuthenticatedMessage)
        && loading == old(loading) && playlists == old(playlists) && requests == old(requests)
      ensures Authenticated(now) ==>
        r == FetchOutcome(client, store, response)
        && requests == old(requests) + SentBy(client, store, PlaylistsPage(limit, offset))
        && playlists == (if r.Success? then Some(Merged(old(playlists), r.value, reset)) else old(playlists))
        && !loading
    {
      if !Authenticated(now) {
        return Failure(NotAuthenticatedMessage);
      }
      loading := true;
      r := FetchWithAuth(PlaylistsPage(limit, offset), response);
      if r.Success? {
        if playlists.None? || reset {
          playlists := Some(r.value);
        } else {
          var stored := playlists.value;
          playlists := Some(PlaylistPage(stored.items + r.value.items, r.value.next, stored.info));
        }
      }
      loading := false;
    }

    /** fetchMorePlaylists: the "no more data" result (null, here Success(None)) when no page is
        stored or its `next` link is falsy; otherwise fetchUserPlaylists with reset = false and
        the limit and offset of the `next` link (defaults 50 and 0). */
    method FetchMorePlaylists(now: int, response: Response<PlaylistPage>) returns (r: Result<Option<PlaylistPage>>)
      requires Valid()
      modifies this`loading, this`playlists, this`requests
      ensures Valid()
      ensures !HasMore(old(playlists)) ==>
        r == Success(None)
        && loading == old(loading) && playlists == old(playlists) && requests == old(requests)
      ensures HasMore(old(playlists)) && !Authenticated(now) ==>
        r == Failure(NotAuthenticatedMessage)
        && loading == old(loading) && playlists == old(playlists) && requests == old(requests)
      ensures HasMore(old(playlists)) && Authenticated(now) ==>
        var params := MoreParams(old(playlists).value.next.value);
        var outcome := FetchOutcome(client, store, response);
        r == (if outcome.Success? then Success(Some(outcome.value)) else Failure(outcome.message))
        && requests == old(requests) + SentBy(client, store, PlaylistsPage(params.0, params.1))
        && playlists == (if outcome.Success? then Some(Merged(old(playlists), outcome.value, false)) else old(playlists))
        && !loading
    {
      if !HasMore(playlists) {
        return Success(None);
      }
      var params := MoreParams(playlists.value.next.value);
      var page := FetchUserPlaylists(now, params.0, params.1, false, response := response);
      match page {
        case Success(p) => r := Success(Some(p));
        case Failure(message) => r := Failure(message);
      }
    }
  }

  /** Two refreshToken() calls in a row, the second while the first is in flight: exactly one
      refresh request goes out, carrying the held refresh token, and the second call waits on
      the operation the first one started. */
  method ConcurrentRefreshesShareOneRequest(session: AuthSession) returns (first: RefreshStart, second: RefreshStart)
    requires session.Valid() && !session.isRefreshing && TruthyString(session.refreshToken)
    modifies session
    ensures first.Started? && second == Joined(first.promise)
    ensures session.requests == old(session.requests) + [RefreshCall(old(session.refreshToken).value)]
    ensures session.isRefreshing && session.Valid()
  {
    first := session.BeginRefresh();
    second := session.BeginRefresh();
  }

  /** Once a refresh has succeeded, the next refreshToken() call starts a new attempt with its
      own request instead of returning the settled promise, whether or not the response carried
      a new refresh token, since the held one is kept. */
  method SucceededRefreshAllowsNewAttempt(session: AuthSession, now: int, response: Response<TokenData>)
    returns (first: RefreshStart, settled: Result<Option<string>>, next: RefreshStart)
    requires session.Valid() && !session.isRefreshing && TruthyString(session.refreshToken)
    requires response.Ok?
    modifies session
    ensures first.Started? && next.Started? && next.promise == first.promise + 1
    ensures settled == Success(response.payload.accessToken)
    ensures |session.requests| == |old(session.requests)| + 2
  {
    first := session.BeginRefresh();
    settled := session.CompleteRefresh(now, response);
    next := session.BeginRefresh();
  }

  /** A failed refresh clears the credentials, the refresh token among them, so the next
      refreshToken() call is rejected without sending anything. */
  method FailedRefreshBlocksNewAttempt(session: AuthSession, now: int, response: Response<TokenData>)
    returns (first: RefreshStart, settled: Result<Option<string>>, next: RefreshStart)
    requires session.Valid() && !session.isRefreshing && TruthyString(session.refreshToken)
    requires !response.Ok?
    modifies session
    ensures first.Started? && settled.Failure?
    ensures next == Rejected(NoRefreshTokenMessage)
    ensures session.requests == old(session.requests) + [RefreshCall(old(session.refreshToken).value)]
    ensures session.Creds() == NoCredentials
  {
    first := session.BeginRefresh();
    settled := session.CompleteRefresh(now, response);
    next := session.BeginRefresh();
  }
}
