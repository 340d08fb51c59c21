/** The credential record of the session and its durable copy in the browser's string
    key-value store, as plain values: startup load, the authentication predicate, the
    partial-update save, the clear, and the store lookup of the bearer-fetch guard.
    The class in auth_session.dfy performs these steps in place and is specified by them. */
module CredentialStore {
  import opened JsValues
  import opened Decimal
  import opened Http

  /** The durable key-value store (localStorage): string keys to string values. */
  type Store = map<string, string>

  const AccessTokenKey: string := "spotify_access_token"
  const RefreshTokenKey: string := "spotify_refresh_token"
  const ExpiresKey: string := "spotify_token_expires"
  const ProfileKey: string := "spotify_profile"
  /** The four keys the session writes and removes. */
  const AuthKeys: set<string> := {AccessTokenKey, RefreshTokenKey, ExpiresKey, ProfileKey}
  /** The key the bearer-fetch guard reads its token from. The session never writes it. */
  const FetchTokenKey: string := "access_token"

  const NoRefreshTokenMessage: string := "No refresh token available"
  const NoAccessTokenMessage: string := "No access token found"
  /** The ReferenceError raised when localStorage is used outside the browser. */
  const NoStorageMessage: string := "localStorage is not defined"

  function RefreshFailedMessage(status: int): string {
    "Token refresh failed: " + IntToString(status)
  }

  function HttpErrorMessage(status: int): string {
    "HTTP error! status: " + IntToString(status)
  }

  /** The failure messages name the status: different statuses give different messages. */
  lemma StatusMessagesIdentifyStatus(a: int, b: int)
    ensures RefreshFailedMessage(a) == RefreshFailedMessage(b) ==> a == b
    ensures HttpErrorMessage(a) == HttpErrorMessage(b) ==> a == b
  {
    var p, q := "Token refresh failed: ", "HTTP error! status: ";
    if RefreshFailedMessage(a) == RefreshFailedMessage(b) {
      assert IntToString(a) == RefreshFailedMessage(a)[|p|..];
      assert IntToString(b) == RefreshFailedMessage(b)[|p|..];
      IntToStringInjective(a, b);
    }
    if HttpErrorMessage(a) == HttpErrorMessage(b) {
      assert IntToString(a) == HttpErrorMessage(a)[|q|..];
      assert IntToString(b) == HttpErrorMessage(b)[|q|..];
      IntToStringInjective(a, b);
    }
  }

  function Get(store: Store, key: string): (v: Option<string>)
    ensures v.Some? <==> key in store
    ensures v.Some? ==> v.value == store[key]
  {
    if key in store then Some(store[key]) else None
  }

  /** The user profile is an opaque JSON object, represented by its JSON text. The shape test
      only approximates JSON.parse: it asks for braces at both ends and checks nothing in
      between, and it does not skip surrounding white space. The session itself only ever
      stores the text JSON.stringify produced for a profile, which passes the test. */
  predicate IsObjectText(s: string) {
    |s| >= 2 && s[0] == '{' && s[|s| - 1] == '}'
  }

  datatype ProfileJson = ProfileJson(text: string)

  type Profile = p: ProfileJson | IsObjectText(p.text) witness ProfileJson("{}")

  /** JSON.stringify of a profile. */
  function Stringify(p: Profile): string {
    p.text
  }

  /** JSON.parse of stored profile text; malformed text gives None. */
  function ParseProfile(s: string): (r: Option<Profile>)
    ensures r.Some? <==> IsObjectText(s)
    ensures r.Some? ==> Stringify(r.value) == s
  {
    if IsObjectText(s) then Some(ProfileJson(s)) else None
  }

  /** The body of a token response: every field may be missing. */
  datatype TokenData = TokenData(accessToken: Option<string>, refreshToken: Option<string>, expiresIn: Option<int>)

  /** The credential fields of the session state; expiresAt is in epoch milliseconds. */
  datatype Credentials = Credentials(
    accessToken: Option<string>,
    refreshToken: Option<string>,
    expiresAt: Option<int>,
    profile: Option<Profile>)

  const NoCredentials: Credentials := Credentials(None, None, None, None)

  /** The credential fields in memory together with the durable store. */
  datatype Snapshot = Snapshot(creds: Credentials, store: Store)

  /** The session is authenticated when it holds a non-empty access token and a profile and,
      if a (non-zero) expiry is set, the current time is before it. */
  function IsAuthenticated(c: Credentials, now: int): (b: bool)
    // a non-empty access token and a profile are necessary
    ensures b ==> TruthyString(c.accessToken) && c.profile.Some?
    // a set expiry lies in the future
    ensures b && TruthyNumber(c.expiresAt) ==> now < c.expiresAt.value
    // a token and a profile suffice when there is no expiry, or it has not been reached
    ensures (TruthyString(c.accessToken) && c.profile.Some?
             && (TruthyNumber(c.expiresAt) ==> now < c.expiresAt.value)) ==> b
  {
    TruthyString(c.accessToken) && c.profile.Some?
    && (if TruthyNumber(c.expiresAt) then now < c.expiresAt.value else true)
  }

  /** Once a session is authenticated at some time, it was authenticated at every earlier time:
      authentication can only lapse as time passes, never come back. */
  lemma AuthenticationOnlyLapses(c: Credentials, earlier: int, later: int)
    requires earlier <= later && IsAuthenticated(c, later)
    ensures IsAuthenticated(c, earlier)
  {
  }

  /** Without an expiry (null or 0) the verdict does not depend on the time at all. */
  lemma NoExpiryNeverLapses(c: Credentials, t1: int, t2: int)
    requires !TruthyNumber(c.expiresAt)
    ensures IsAuthenticated(c, t1) == IsAuthenticated(c, t2)
    ensures IsAuthenticated(c, t1) <==> TruthyString(c.accessToken) && c.profile.Some?
  {
  }

  /** The credentials with every falsy field replaced by null. */
  function Norm(c: Credentials): (n: Credentials)
    ensures TruthyString(n.accessToken) == TruthyString(c.accessToken)
    ensures TruthyString(n.refreshToken) == TruthyString(c.refreshToken)
    ensures n.expiresAt.Some? ==> n.expiresAt.value != 0
    // truthy fields and the profile are kept
    ensures TruthyString(c.accessToken) ==> n.accessToken == c.accessToken
    ensures TruthyString(c.refreshToken) ==> n.refreshToken == c.refreshToken
    ensures TruthyNumber(c.expiresAt) ==> n.expiresAt == c.expiresAt
    ensures n.profile == c.profile
    // falsy fields become null, so no empty token is left
    ensures !TruthyString(c.accessToken) ==> n.accessToken == None
    ensures !TruthyString(c.refreshToken) ==> n.refreshToken == None
    ensures !TruthyNumber(c.expiresAt) ==> n.expiresAt == None
    ensures n.accessToken.Some? ==> n.accessToken.value != ""
    ensures n.refreshToken.Some? ==> n.refreshToken.value != ""
  {
    Credentials(
      if TruthyString(c.accessToken) then c.accessToken else None,
      if TruthyString(c.refreshToken) then c.refreshToken else None,
      if TruthyNumber(c.expiresAt) then c.expiresAt else None,
      c.profile)
  }

  /** The authentication verdict sees the credentials only through their truthiness. */
  lemma AuthenticationSeesOnlyTruthiness(c: Credentials, now: int)
    ensures IsAuthenticated(Norm(c), now) == IsAuthenticated(c, now)
  {
  }

  /** A stored string taken over at startup: only a non-empty value is used. */
  function LoadedString(stored: Option<string>): (r: Option<string>)
    ensures r.Some? ==> r.value != "" && r == stored
    ensures TruthyString(stored) ==> r.Some?
  {
    if TruthyString(stored) then stored else None
  }

  /** The stored expiry taken over at startup: parseInt of a non-empty value (NaN leaves it unset). */
  function LoadedExpiry(stored: Option<string>): (r: Option<int>)
    ensures r.Some? ==> stored.Some? && ParseInt(stored.value) == r
    ensures TruthyString(stored) ==> r == ParseInt(stored.value)
  {
    if TruthyString(stored) then ParseInt(stored.value) else None
  }

  /** The stored profile taken over at startup: JSON.parse of a non-empty value (malformed text
      leaves it unset). */
  function LoadedProfile(stored: Option<string>): (r: Option<Profile>)
    ensures r.Some? ==> stored.Some? && Stringify(r.value) == stored.value
    ensures TruthyString(stored) ==> r == ParseProfile(stored.value)
  {
    if TruthyString(stored) then ParseProfile(stored.value) else None
  }

  /** The credentials the session starts with in the browser, each field rebuilt from its own key. */
  function Load(store: Store): (c: Credentials)
    ensures c.accessToken.Some? ==> c.accessToken.value != "" && c.accessToken == Get(store, AccessTokenKey)
    ensures c.refreshToken.Some? ==> c.refreshToken.value != "" && c.refreshToken == Get(store, RefreshTokenKey)
    ensures c.expiresAt.Some? ==> ExpiresKey in store && ParseInt(store[ExpiresKey]) == c.expiresAt
    ensures c.profile.Some? ==> ProfileKey in store && Stringify(c.profile.value) == store[ProfileKey]
    // and every non-empty stored value is taken over
    ensures TruthyString(Get(store, AccessTokenKey)) ==> c.accessToken == Get(store, AccessTokenKey)
    ensures TruthyString(Get(store, RefreshTokenKey)) ==> c.refreshToken == Get(store, RefreshTokenKey)
    ensures TruthyString(Get(store, ExpiresKey)) ==> c.expiresAt == ParseInt(store[ExpiresKey])
    ensures TruthyString(Get(store, ProfileKey)) ==> c.profile == ParseProfile(store[ProfileKey])
  {
    Credentials(
      LoadedString(Get(store, AccessTokenKey)),
      LoadedString(Get(store, RefreshTokenKey)),
      LoadedExpiry(Get(store, ExpiresKey)),
      LoadedProfile(Get(store, ProfileKey)))
  }

  /** The startup load looks at the four session keys and nothing else. */
  lemma LoadReadsOnlySessionKeys(a: Store, b: Store)
    requires forall k :: k in AuthKeys ==> Get(a, k) == Get(b, k)
    ensures Load(a) == Load(b)
  {
    assert Get(a, AccessTokenKey) == Get(b, AccessTokenKey);
    assert Get(a, RefreshTokenKey) == Get(b, RefreshTokenKey);
    assert Get(a, ExpiresKey) == Get(b, ExpiresKey);
    assert Get(a, ProfileKey) == Get(b, ProfileKey);
  }

  /** The in-memory credentials and the store agree: reloading the page would rebuild the
      same credentials, up to the truthiness of each field. */
  predicate InSync(s: Snapshot) {
    Norm(Load(s.store)) == Norm(s.creds)
  }

  /** A snapshot in sync authenticates exactly when the one rebuilt from its store does. */
  lemma ReloadPreservesAuthentication(s: Snapshot, now: int)
    requires InSync(s)
    ensures IsAuthenticated(Load(s.store), now) == IsAuthenticated(s.creds, now)
  {
    AuthenticationSeesOnlyTruthiness(Load(s.store), now);
    AuthenticationSeesOnlyTruthiness(s.creds, now);
  }

  /** The token fields written by saveAuthData for a present tokenData. */
  function SaveTokens(s: Snapshot, tokenData: TokenData, now: int): Snapshot {
    var c0 := s.creds.(accessToken := tokenData.accessToken);
    var st0 := s.store[AccessTokenKey := JsString(tokenData.accessToken)];
    var c1 := if TruthyString(tokenData.refreshToken) then c0.(refreshToken := tokenData.refreshToken) else c0;
    var st1 := if TruthyString(tokenData.refreshToken) then st0[RefreshTokenKey := tokenData.refreshToken.value] else st0;
    if TruthyNumber(tokenData.expiresIn) then
      var expiresAt := now + tokenData.expiresIn.value * 1000;
      Snapshot(c1.(expiresAt := Some(expiresAt)), st1[ExpiresKey := IntToString(expiresAt)])
    else Snapshot(c1, st1)
  }

  /** saveAuthData(tokenData, profile) at time now: a partial update of memory and store. */
  function Save(s: Snapshot, client: bool, tokenData: Option<TokenData>, profile: Option<Profile>, now: int): (r: Snapshot)
    // outside the browser nothing changes
    ensures !client ==> r == s
    // the access token is always overwritten when token data is given (String coercion in the store)
    ensures client && tokenData.Some? ==>
      r.creds.accessToken == tokenData.value.accessToken
      && Get(r.store, AccessTokenKey) == Some(JsString(tokenData.value.accessToken))
    ensures !(client && tokenData.Some?) ==>
      r.creds.accessToken == s.creds.accessToken && Get(r.store, AccessTokenKey) == Get(s.store, AccessTokenKey)
    // the refresh token only when a non-empty one is given
    ensures client && tokenData.Some? && TruthyString(tokenData.value.refreshToken) ==>
      r.creds.refreshToken == tokenData.value.refreshToken
      && Get(r.store, RefreshTokenKey) == tokenData.value.refreshToken
    ensures !(client && tokenData.Some? && TruthyString(tokenData.value.refreshToken)) ==>
      r.creds.refreshToken == s.creds.refreshToken && Get(r.store, RefreshTokenKey) == Get(s.store, RefreshTokenKey)
    // the expiry only when a non-zero lifetime (in seconds) is given
    ensures client && tokenData.Some? && TruthyNumber(tokenData.value.expiresIn) ==>
      var expiresAt := now + tokenData.value.expiresIn.value * 1000;
      r.creds.expiresAt == Some(expiresAt) && Get(r.store, ExpiresKey) == Some(IntToString(expiresAt))
    ensures !(client && tokenData.Some? && TruthyNumber(tokenData.value.expiresIn)) ==>
      r.creds.expiresAt == s.creds.expiresAt && Get(r.store, ExpiresKey) == Get(s.store, ExpiresKey)
    // the profile only when one is given
    ensures client && profile.Some? ==>
      r.creds.profile == profile && Get(r.store, ProfileKey) == Some(Stringify(profile.value))
    ensures !(client && profile.Some?) ==>
      r.creds.profile == s.creds.profile && Get(r.store, ProfileKey) == Get(s.store, ProfileKey)
    // every other entry of the store is left alone
    ensures forall k :: k !in AuthKeys ==> Get(r.store, k) == Get(s.store, k)
  {
    if !client then s
    else
      var afterTokens := if tokenData.Some? then SaveTokens(s, tokenData.value, now) else s;
      if profile.Some? then
        Snapshot(afterTokens.creds.(profile := profile), afterTokens.store[ProfileKey := Stringify(profile.value)])
      else afterTokens
  }

  /** clearAuthData on the credentials: every field nulled and, in the browser, exactly the
      four session keys removed from the store. */
  function Clear(s: Snapshot, client: bool): (r: Snapshot)
    ensures r.creds == NoCredentials
    ensures client ==> r.store.Keys == s.store.Keys - AuthKeys
    ensures !client ==> r.store == s.store
    ensures forall k :: k in r.store ==> k in s.store && r.store[k] == s.store[k]
  {
    Snapshot(NoCredentials, if client then s.store - AuthKeys else s.store)
  }

  /** Clearing twice is clearing once. */
  lemma ClearIdempotent(s: Snapshot, client: bool)
    ensures Clear(Clear(s, client), client) == Clear(s, client)
  {
  }

  /** After a clear in the browser, a reload finds no credentials either. */
  lemma ClearKeepsInSync(s: Snapshot)
    ensures Load(Clear(s, true).store) == NoCredentials
    ensures InSync(Clear(s, true))
  {
    var st := Clear(s, true).store;
    assert forall k :: k in AuthKeys ==> Get(st, k) == None;
  }

  /** A save in the browser keeps memory and store in agreement, provided the token data,
      when given, carries an access token. */
  lemma SaveKeepsInSync(s: Snapshot, tokenData: Option<TokenData>, profile: Option<Profile>, now: int)
    requires InSync(s)
    requires tokenData.Some? ==> tokenData.value.accessToken.Some?
    ensures InSync(Save(s, true, tokenData, profile, now))
  {
    var r := Save(s, true, tokenData, profile, now);
    var before, after := Norm(Load(s.store)), Norm(Load(r.store));
    assert before == Norm(s.creds);
    if tokenData.Some? {
      var td := tokenData.value;
      assert after.accessToken == Norm(r.creds).accessToken by {
        assert Get(r.store, AccessTokenKey) == td.accessToken;
      }
      if TruthyNumber(td.expiresIn) {
        var expiresAt := now + td.expiresIn.value * 1000;
        assert after.expiresAt == Norm(r.creds).expiresAt by {
          ParseIntRoundTrip(expiresAt);
          assert Get(r.store, ExpiresKey) == Some(IntToString(expiresAt));
        }
      } else {
        assert after.expiresAt == Norm(r.creds).expiresAt by {
          assert Get(r.store, ExpiresKey) == Get(s.store, ExpiresKey);
        }
      }
    } else {
      assert after.accessToken == Norm(r.creds).accessToken by {
        assert Get(r.store, AccessTokenKey) == Get(s.store, AccessTokenKey);
      }
      assert after.expiresAt == Norm(r.creds).expiresAt by {
        assert Get(r.store, ExpiresKey) == Get(s.store, ExpiresKey);
      }
    }
    assert after.refreshToken == Norm(r.creds).refreshToken by {
      assert LoadedString(Get(r.store, RefreshTokenKey)) == Norm(r.creds).refreshToken;
    }
    assert after.profile == Norm(r.creds).profile;
  }

  /** When token data without an access token is saved, the store receives the text
      "undefined" while memory holds no token: a reload then authenticates a session that
      is not authenticated in memory. */
  lemma MissingAccessTokenBreaksSync(p: Profile, now: int)
    ensures var r := Save(Snapshot(NoCredentials, map[]), true, Some(TokenData(None, None, None)), Some(p), now);
      !InSync(r) && !IsAuthenticated(r.creds, now) && IsAuthenticated(Load(r.store), now)
  {
    var r := Save(Snapshot(NoCredentials, map[]), true, Some(TokenData(None, None, None)), Some(p), now);
    assert Get(r.store, AccessTokenKey) == Some("undefined");
    assert Load(r.store).accessToken == Some("undefined");
  }

  /** The token data saved after a successful refresh: the response's access token and
      lifetime, and its refresh token or else the one currently held. */
  function RefreshTokenData(response: TokenData, current: Option<string>): (r: TokenData)
    ensures r.accessToken == response.accessToken && r.expiresIn == response.expiresIn
    // a held refresh token is never lost: the saved one is non-empty whenever either is
    ensures TruthyString(r.refreshToken) <==> TruthyString(response.refreshToken) || TruthyString(current)
    ensures r.refreshToken == response.refreshToken || r.refreshToken == current
  {
    TokenData(response.accessToken, OrElse(response.refreshToken, current), response.expiresIn)
  }

  /** A successful refresh stores the new access token and expiry, replaces the refresh token
      when the response carries a non-empty one and otherwise keeps the previous one. */
  lemma RefreshKeepsRefreshToken(s: Snapshot, response: TokenData, now: int)
    ensures var r := Save(s, true, Some(RefreshTokenData(response, s.creds.refreshToken)), None, now);
      r.creds.accessToken == response.accessToken
      && r.creds.refreshToken == (if TruthyString(response.refreshToken) then response.refreshToken else s.creds.refreshToken)
      && (TruthyString(s.creds.refreshToken) ==> TruthyString(r.creds.refreshToken))
      && (TruthyNumber(response.expiresIn) ==> r.creds.expiresAt == Some(now + response.expiresIn.value * 1000))
      && r.creds.profile == s.creds.profile
  {
  }

  /** The bearer token fetchWithAuth would send: the non-empty value under "access_token". */
  function BearerToken(client: bool, store: Store): (t: Option<string>)
    ensures t.Some? <==> client && TruthyString(Get(store, FetchTokenKey))
    ensures t.Some? ==> t.value != "" && t.value == store[FetchTokenKey]
  {
    if client && TruthyString(Get(store, FetchTokenKey)) then Get(store, FetchTokenKey) else None
  }

  /** The requests fetchWithAuth sends for an endpoint: one, carrying the bearer token, or none
      when the guard fails. */
  function SentBy(client: bool, store: Store, endpoint: Endpoint): (sent: seq<Request>)
    ensures |sent| <= 1
    ensures |sent| == 1 <==> BearerToken(client, store).Some?
    ensures |sent| == 1 ==> sent[0] == ApiCall(endpoint, BearerToken(client, store).value)
  {
    match BearerToken(client, store)
    case None => []
    case Some(token) => [ApiCall(endpoint, token)]
  }

  /** How fetchWithAuth settles: the guard on the stored token comes first, then the response. */
  function FetchOutcome<T>(client: bool, store: Store, response: Response<T>): (r: Result<T>)
    ensures !client ==> r == Failure(NoStorageMessage)
    ensures client && !TruthyString(Get(store, FetchTokenKey)) ==> r == Failure(NoAccessTokenMessage)
    ensures r.Success? <==> BearerToken(client, store).Some? && response.Ok?
    ensures r.Success? ==> r.value == response.payload
    ensures BearerToken(client, store).Some? && response.HttpFail? ==> r == Failure(HttpErrorMessage(response.status))
    ensures BearerToken(client, store).Some? && response.Threw? ==> r == Failure(response.message)
  {
    if !client then Failure(NoStorageMessage)
    else if !TruthyString(Get(store, FetchTokenKey)) then Failure(NoAccessTokenMessage)
    else match response
      case Ok(payload) => Success(payload)
      case HttpFail(status) => Failure(HttpErrorMessage(status))
      case Threw(message) => Failure(message)
  }

  /** The key mismatch between saveAuthData and fetchWithAuth: starting from a store without
      "access_token", no save or clear ever adds it, so every authenticated fetch fails with
      "No access token found" before any request is sent. */
  lemma SessionWritesNeverEnableFetch<T>(s: Snapshot, client: bool, tokenData: Option<TokenData>,
                                         profile: Option<Profile>, now: int, endpoint: Endpoint, response: Response<T>)
    requires FetchTokenKey !in s.store
    ensures FetchTokenKey !in Save(s, client, tokenData, profile, now).store
    ensures FetchTokenKey !in Clear(s, client).store
    ensures FetchOutcome(client, Save(s, client, tokenData, profile, now).store, response).Failure?
    ensures SentBy(client, Save(s, client, tokenData, profile, now).store, endpoint) == []
  {
    assert FetchTokenKey !in AuthKeys;
    assert Get(Save(s, client, tokenData, profile, now).store, FetchTokenKey) == Get(s.store, FetchTokenKey);
  }
}
