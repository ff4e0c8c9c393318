/**
  The authorization lifecycle of the Spotify client as transitions of its key/value store.
  Each function takes the store before a user action or page event and returns what the page
  does (its outcome) together with the store after it. The random bytes, the SHA-256 digest,
  the replies of `fetch` and the clock `Date.now()` are parameters.
 */
module Session {
  import opened Wrappers
  import opened Text
  import opened Base64Url
  import opened Pkce
  import opened TopAlbums

  /** `localStorage`: `getItem` of an absent key is null. */
  type Store = map<string, string>

  const ClientIdKey := "spotify_client_id"
  const AccessTokenKey := "spotify_access_token"
  const TokenExpiryKey := "spotify_token_expiry"
  const CodeVerifierKey := "spotify_code_verifier"

  const AuthorizeEndpoint := "https://accounts.spotify.com/authorize"
  const TokenEndpoint := "https://accounts.spotify.com/api/token"
  const ProfileEndpoint := "https://api.spotify.com/v1/me"
  const CurrentlyPlayingEndpoint := "https://api.spotify.com/v1/me/player/currently-playing"
  const TopTracksEndpoint := "https://api.spotify.com/v1/me/top/tracks?limit=5&time_range=medium_term"

  const ScopeList := ["user-read-private", "user-read-email", "user-read-currently-playing",
                      "user-read-playback-state", "user-top-read"]
  /** `SCOPES`: the scopes joined by single spaces. */
  const Scopes := Join(ScopeList, " ")

  /** A stored value that `if (!value)` lets through: present and not the empty string. */
  predicate Has(store: Store, key: string) {
    key in store && store[key] != ""
  }

  /** A string parameter that `if (!value)` lets through. */
  predicate Truthy(o: Option<string>) {
    o.Some? && o.value != ""
  }

  /** What a transition returns: its outcome and the store after it. */
  datatype Step<O> = Step(outcome: O, store: Store)

  // ----- saveClientId -----

  datatype SaveOutcome = EmptyClientId | WrongLength | Saved

  /** `saveClientId`: the input is trimmed; an empty or non-32-unit id is refused with an alert
      and the store is left alone; otherwise the trimmed id is stored. */
  function SaveClientId(store: Store, inputValue: string): (s: Step<SaveOutcome>)
    ensures s.outcome == EmptyClientId <==> Trim(inputValue) == ""
    ensures s.outcome == Saved <==> Trim(inputValue) != "" && Utf16Length(Trim(inputValue)) == 32
    ensures s.outcome != Saved ==> s.store == store
    ensures s.outcome == Saved ==> s.store == store[ClientIdKey := Trim(inputValue)]
  {
    var clientId := Trim(inputValue);
    if clientId == "" then Step(EmptyClientId, store)
    else if Utf16Length(clientId) != 32 then Step(WrongLength, store)
    else Step(Saved, store[ClientIdKey := clientId])
  }

  /** A saved client id is 32 UTF-16 units with no surrounding whitespace, it makes the client
      id present for the next steps, and no other key changes. */
  lemma SavedClientIdIsClean(store: Store, inputValue: string)
    requires SaveClientId(store, inputValue).outcome == Saved
    ensures var t := SaveClientId(store, inputValue).store;
            Has(t, ClientIdKey) && Utf16Length(t[ClientIdKey]) == 32 &&
            !IsJsWhitespace(t[ClientIdKey][0]) &&
            !IsJsWhitespace(t[ClientIdKey][|t[ClientIdKey]| - 1]) &&
            t.Keys == store.Keys + {ClientIdKey} &&
            forall k :: k in store && k != ClientIdKey ==> t[k] == store[k]
  {
  }

  // ----- startAuthorizationFlow -----

  /** A query string as its list of (name, value) pairs, in order, already decoded. */
  type Query = seq<(string, string)>

  datatype Url = Url(endpoint: string, params: Query)

  datatype StartOutcome = MissingClientId | Redirect(url: Url)

  /** The parameters `startAuthorizationFlow` appends to the authorize URL, in order. */
  function AuthorizeParams(clientId: string, redirectUri: string, challenge: string): Query {
    [("client_id", clientId), ("response_type", "code"), ("redirect_uri", redirectUri),
     ("scope", Scopes), ("code_challenge", challenge), ("code_challenge_method", "S256")]
  }

  /** `startAuthorizationFlow`: without a client id it alerts and stores nothing; otherwise it
      stores a fresh verifier and redirects to the authorize endpoint with the S256 challenge of
      that verifier. */
  function StartAuthorization(store: Store, randomBytes: seq<byte>, sha256: seq<byte> -> Digest,
                              redirectUri: string): (s: Step<StartOutcome>)
    requires |randomBytes| == 32
    ensures s.outcome.MissingClientId? <==> !Has(store, ClientIdKey)
    ensures s.outcome.MissingClientId? ==> s.store == store
    ensures s.outcome.Redirect? ==>
              s.store == store[CodeVerifierKey := VerifierOf(randomBytes)] &&
              s.outcome.url == Url(AuthorizeEndpoint,
                                   AuthorizeParams(store[ClientIdKey], redirectUri,
                                                   ChallengeOf(VerifierOf(randomBytes), sha256)))
  {
    if !Has(store, ClientIdKey) then Step(MissingClientId, store)
    else
      var codeVerifier := VerifierOf(randomBytes);
      var codeChallenge := ChallengeOf(codeVerifier, sha256);
      Step(Redirect(Url(AuthorizeEndpoint,
                        AuthorizeParams(store[ClientIdKey], redirectUri, codeChallenge))),
           store[CodeVerifierKey := codeVerifier])
  }

  /** The redirect carries exactly the six authorization parameters of RFC 7636 section 4.3,
      none of them the verifier; the stored verifier is valid per section 4.1, and the
      challenge sent is its S256 transform (section 4.2). */
  lemma RedirectCarriesChallengeOnly(store: Store, randomBytes: seq<byte>,
                                     sha256: seq<byte> -> Digest, redirectUri: string)
    requires |randomBytes| == 32 && Has(store, ClientIdKey)
    ensures var s := StartAuthorization(store, randomBytes, sha256, redirectUri);
            var p := s.outcome.url.params;
            s.outcome.Redirect? && s.outcome.url.endpoint == AuthorizeEndpoint &&
            |p| == 6 &&
            p[0] == ("client_id", store[ClientIdKey]) && p[1] == ("response_type", "code") &&
            p[2] == ("redirect_uri", redirectUri) && p[3] == ("scope", Scopes) &&
            p[4].0 == "code_challenge" && p[5] == ("code_challenge_method", "S256") &&
            (forall i :: 0 <= i < |p| ==> p[i].0 != "code_verifier") &&
            IsValidVerifier(s.store[CodeVerifierKey]) &&
            p[4].1 == ChallengeOf(s.store[CodeVerifierKey], sha256)
  {
  }

  // ----- handleAuthorizationCallback and exchangeCodeForToken -----

  /** `URLSearchParams.get`: the value of the first pair with that name, or null. */
  function QueryGet(q: Query, name: string): (r: Option<string>)
    ensures r.None? <==> forall i :: 0 <= i < |q| ==> q[i].0 != name
    ensures r.Some? ==> exists i :: 0 <= i < |q| && q[i] == (name, r.value) &&
                                    forall j :: 0 <= j < i ==> q[j].0 != name
  {
    if q == [] then None
    else if q[0].0 == name then Some(q[0].1)
    else
      var r := QueryGet(q[1..], name);
      assert r.Some? ==> exists i :: 0 <= i < |q| && q[i] == (name, r.value) &&
                                     forall j :: 0 <= j < i ==> q[j].0 != name by {
        if r.Some? {
          var i :| 0 <= i < |q[1..]| && q[1..][i] == (name, r.value) &&
                   forall j :: 0 <= j < i ==> q[1..][j].0 != name;
          assert q[i + 1] == (name, r.value);
          assert forall j :: 0 <= j < i + 1 ==> q[j].0 != name by {
            forall j | 0 <= j < i + 1 ensures q[j].0 != name {
              if j > 0 {
                assert q[j] == q[1..][j - 1];
              }
            }
          }
        }
      }
      r
  }

  /** `get` on a list that starts with the pair `p`. */
  lemma QueryGetCons(p: (string, string), rest: Query, name: string)
    ensures QueryGet([p] + rest, name) == if p.0 == name then Some(p.1) else QueryGet(rest, name)
  {
    assert ([p] + rest)[1..] == rest;
  }

  /** What the authorization server reads from the redirect, for every parameter name: the six
      parameters with the values the page put there, and nothing else (no verifier). */
  lemma AuthorizeParamsRead(clientId: string, redirectUri: string, challenge: string,
                            name: string)
    ensures QueryGet(AuthorizeParams(clientId, redirectUri, challenge), name) ==
              if name == "client_id" then Some(clientId)
              else if name == "response_type" then Some("code")
              else if name == "redirect_uri" then Some(redirectUri)
              else if name == "scope" then Some(Scopes)
              else if name == "code_challenge" then Some(challenge)
              else if name == "code_challenge_method" then Some("S256")
              else None
  {
    var q5: Query := [("code_challenge_method", "S256")];
    var q4 := [("code_challenge", challenge)] + q5;
    var q3 := [("scope", Scopes)] + q4;
    var q2 := [("redirect_uri", redirectUri)] + q3;
    var q1 := [("response_type", "code")] + q2;
    assert AuthorizeParams(clientId, redirectUri, challenge) == [("client_id", clientId)] + q1;
    QueryGetCons(q5[0], [], name);
    assert q5 == [q5[0]] + [];
    QueryGetCons(q4[0], q5, name);
    QueryGetCons(q3[0], q4, name);
    QueryGetCons(q2[0], q3, name);
    QueryGetCons(q1[0], q2, name);
    QueryGetCons(("client_id", clientId), q1, name);
  }

  /** A JSON body as `response.json()` sees it: unparseable (the promise rejects), the literal
      null, or a value. */
  datatype Json<T> = Malformed | Null | Value(value: T)

  /** The settled `fetch`: rejected (network failure) or a response with its status and body. */
  datatype HttpReply<T> = NetworkError | Reply(status: int, body: Json<T>)

  /** `response.ok`. */
  predicate Ok(status: int) {
    200 <= status <= 299
  }

  /** The fields of a token response that the page reads; `expires_in` is a whole number of
      seconds. */
  datatype TokenJson = TokenJson(accessToken: string, tokenType: string, expiresIn: int,
                                 scope: string)

  /** The POST to the token endpoint: its URL and its form body, in order. */
  datatype TokenRequest = TokenRequest(url: string, form: Query)

  datatype ExchangeFailure = TransportFailed | Rejected(status: int) | BadTokenJson

  datatype ExchangeOutcome =
    | MissingVerifier
    | ExchangeFailed(request: TokenRequest, failure: ExchangeFailure)
    | Authenticated(request: TokenRequest, token: TokenJson)

  /** `client_id: clientId` in the form: `URLSearchParams` writes an absent id as "null". */
  function ClientIdParam(store: Store): string {
    if ClientIdKey in store then store[ClientIdKey] else "null"
  }

  /** The form body of the token request (RFC 7636 section 4.5), in order. */
  function TokenForm(code: string, redirectUri: string, clientId: string, verifier: string): Query {
    [("grant_type", "authorization_code"), ("code", code), ("redirect_uri", redirectUri),
     ("client_id", clientId), ("code_verifier", verifier)]
  }

  /** The POST `exchangeCodeForToken` sends, with the stored verifier. */
  function ExchangeRequest(store: Store, code: string, redirectUri: string): TokenRequest
    requires Has(store, CodeVerifierKey)
  {
    TokenRequest(TokenEndpoint,
                 TokenForm(code, redirectUri, ClientIdParam(store), store[CodeVerifierKey]))
  }

  /** What the token endpoint reads from the form, for every parameter name: the grant type,
      the code, the redirect URI, the client id and the verifier, and nothing else (no
      challenge). */
  lemma TokenFormRead(code: string, redirectUri: string, clientId: string, verifier: string,
                      name: string)
    ensures QueryGet(TokenForm(code, redirectUri, clientId, verifier), name) ==
              if name == "grant_type" then Some("authorization_code")
              else if name == "code" then Some(code)
              else if name == "redirect_uri" then Some(redirectUri)
              else if name == "client_id" then Some(clientId)
              else if name == "code_verifier" then Some(verifier)
              else None
  {
    var q4: Query := [("code_verifier", verifier)];
    var q3 := [("client_id", clientId)] + q4;
    var q2 := [("redirect_uri", redirectUri)] + q3;
    var q1 := [("code", code)] + q2;
    assert TokenForm(code, redirectUri, clientId, verifier) ==
           [("grant_type", "authorization_code")] + q1;
    QueryGetCons(q4[0], [], name);
    assert q4 == [q4[0]] + [];
    QueryGetCons(q3[0], q4, name);
    QueryGetCons(q2[0], q3, name);
    QueryGetCons(q1[0], q2, name);
    QueryGetCons(("grant_type", "authorization_code"), q1, name);
  }

  /** The exchange goes to the token endpoint with the stored verifier, the code received, the
      redirect URI and the stored client id ("null" when there is none), and no challenge. */
  lemma ExchangeRequestRead(store: Store, code: string, redirectUri: string)
    requires Has(store, CodeVerifierKey)
    ensures var r := ExchangeRequest(store, code, redirectUri);
            r.url == TokenEndpoint &&
            QueryGet(r.form, "code_verifier") == Some(store[CodeVerifierKey]) &&
            QueryGet(r.form, "code") == Some(code) &&
            QueryGet(r.form, "redirect_uri") == Some(redirectUri) &&
            (ClientIdKey in store ==> QueryGet(r.form, "client_id") == Some(store[ClientIdKey])) &&
            (ClientIdKey !in store ==> QueryGet(r.form, "client_id") == Some("null")) &&
            QueryGet(r.form, "code_challenge") == None
  {
    var clientId, verifier := ClientIdParam(store), store[CodeVerifierKey];
    TokenFormRead(code, redirectUri, clientId, verifier, "code_verifier");
    TokenFormRead(code, redirectUri, clientId, verifier, "code");
    TokenFormRead(code, redirectUri, clientId, verifier, "redirect_uri");
    TokenFormRead(code, redirectUri, clientId, verifier, "client_id");
    TokenFormRead(code, redirectUri, clientId, verifier, "code_challenge");
  }

  /** `(Date.now() + data.expires_in * 1000).toString()`. */
  function ExpiryText(now: int, expiresIn: int): string {
    IntToString(now + expiresIn * 1000)
  }

  /** `exchangeCodeForToken`: without a verifier it alerts and sends nothing. Otherwise it posts
      the form; a failed request, a non-ok status or an unreadable body throws before anything
      is stored; a good reply stores the token and its expiry and removes the verifier. */
  function ExchangeCode(store: Store, code: string, redirectUri: string,
                        tokenEndpoint: TokenRequest -> HttpReply<TokenJson>, now: int)
    : (s: Step<ExchangeOutcome>)
    ensures s.outcome.MissingVerifier? <==> !Has(store, CodeVerifierKey)
    ensures !s.outcome.MissingVerifier? ==>
              s.outcome.request == ExchangeRequest(store, code, redirectUri)
    ensures !s.outcome.Authenticated? ==> s.store == store
    ensures s.outcome.Authenticated? <==>
              Has(store, CodeVerifierKey) &&
              var reply := tokenEndpoint(ExchangeRequest(store, code, redirectUri));
              reply.Reply? && Ok(reply.status) && reply.body.Value?
    ensures s.outcome.Authenticated? ==>
              tokenEndpoint(s.outcome.request).body == Value(s.outcome.token)
    ensures s.outcome.Authenticated? ==>
              s.store.Keys == store.Keys + {AccessTokenKey, TokenExpiryKey} - {CodeVerifierKey} &&
              s.store[AccessTokenKey] == s.outcome.token.accessToken &&
              s.store[TokenExpiryKey] == ExpiryText(now, s.outcome.token.expiresIn) &&
              forall k :: k in store && k !in {AccessTokenKey, TokenExpiryKey, CodeVerifierKey} ==>
                            s.store[k] == store[k]
  {
    if !Has(store, CodeVerifierKey) then Step(MissingVerifier, store)
    else
      var request := ExchangeRequest(store, code, redirectUri);
      match tokenEndpoint(request)
      case NetworkError => Step(ExchangeFailed(request, TransportFailed), store)
      case Reply(status, body) =>
        if !Ok(status) then Step(ExchangeFailed(request, Rejected(status)), store)
        else if !body.Value? then Step(ExchangeFailed(request, BadTokenJson), store)
        else
          var data := body.value;
          var stored := store[AccessTokenKey := data.accessToken]
                              [TokenExpiryKey := ExpiryText(now, data.expiresIn)];
          Step(Authenticated(request, data), stored - {CodeVerifierKey})
  }

  datatype CallbackOutcome =
    | ProviderError(error: string)
    | NoCallback
    | CodeReceived(code: string, exchange: ExchangeOutcome)

  /** `handleAuthorizationCallback` on the query of the page: a non-empty `error` is reported
      and nothing else happens; without a non-empty `code` nothing happens; otherwise the code
      is exchanged. */
  function HandleCallback(store: Store, query: Query, redirectUri: string,
                          tokenEndpoint: TokenRequest -> HttpReply<TokenJson>, now: int)
    : (s: Step<CallbackOutcome>)
    ensures s.outcome.ProviderError? <==> Truthy(QueryGet(query, "error"))
    ensures s.outcome.NoCallback? <==>
              !Truthy(QueryGet(query, "error")) && !Truthy(QueryGet(query, "code"))
    ensures !s.outcome.CodeReceived? ==> s.store == store
    ensures s.outcome.CodeReceived? ==>
              QueryGet(query, "code") == Some(s.outcome.code) &&
              Step(s.outcome.exchange, s.store) ==
                ExchangeCode(store, s.outcome.code, redirectUri, tokenEndpoint, now)
  {
    var authorizationCode := QueryGet(query, "code");
    var error := QueryGet(query, "error");
    if Truthy(error) then Step(ProviderError(error.value), store)
    else if !Truthy(authorizationCode) then Step(NoCallback, store)
    else
      var e := ExchangeCode(store, authorizationCode.value, redirectUri, tokenEndpoint, now);
      Step(CodeReceived(authorizationCode.value, e.outcome), e.store)
  }

  // ----- logout and isAuthenticated -----

  /** `logout`: removes the token, its expiry and the verifier, and nothing else. */
  function Logout(store: Store): (r: Store)
    ensures r.Keys == store.Keys - {AccessTokenKey, TokenExpiryKey, CodeVerifierKey}
    ensures forall k :: k in r ==> r[k] == store[k]
    ensures ClientIdKey in store ==> ClientIdKey in r
  {
    store - {AccessTokenKey, TokenExpiryKey, CodeVerifierKey}
  }

  lemma LogoutIdempotent(store: Store)
    ensures Logout(Logout(store)) == Logout(store)
  {
  }

  /** `isAuthenticated`: false without a token or expiry; when `parseInt` of the expiry is a
      number at or before now it logs out and returns false; otherwise (including an expiry
      text that is NaN, since a comparison with NaN is false) it returns true. */
  function IsAuthenticated(store: Store, now: int): (s: Step<bool>)
    ensures s.outcome ==> Has(store, AccessTokenKey) && Has(store, TokenExpiryKey)
    ensures s.store == (if !s.outcome && Has(store, AccessTokenKey) && Has(store, TokenExpiryKey)
                        then Logout(store) else store)
    ensures Has(store, AccessTokenKey) && Has(store, TokenExpiryKey) ==>
              (s.outcome <==> ParseInt(store[TokenExpiryKey]).None? ||
                              now < ParseInt(store[TokenExpiryKey]).value)
  {
    if !Has(store, AccessTokenKey) || !Has(store, TokenExpiryKey) then Step(false, store)
    else
      var expiry := ParseInt(store[TokenExpiryKey]);
      if expiry.Some? && now >= expiry.value then Step(false, Logout(store))
      else Step(true, store)
  }

  // ----- calls to the Web API -----

  /** A GET on the Web API with `Authorization: Bearer <token>`. */
  datatype ApiRequest = ApiRequest(url: string, authorization: string)

  datatype FetchOutcome<T> =
    | NoToken
    | SessionExpired
    | ApiError(status: int)
    | Failed
    | NothingPlaying
    | NoHistory
    | Loaded(value: T)

  /** The request for `url` with the stored token. */
  function Authorized(store: Store, url: string): ApiRequest
    requires Has(store, AccessTokenKey)
  {
    ApiRequest(url, "Bearer " + store[AccessTokenKey])
  }

  /** The part of `/me` the page shows. */
  datatype Profile = Profile(id: string, displayName: string)

  /** `loadUserProfile`: a 401 logs out; another non-ok status or an unreadable body is an
      error shown to the user; otherwise the profile is loaded. */
  function LoadUserProfile(store: Store, api: ApiRequest -> HttpReply<Profile>)
    : (s: Step<FetchOutcome<Profile>>)
    ensures s.outcome.NoToken? <==> !Has(store, AccessTokenKey)
    ensures s.outcome.SessionExpired? <==>
              Has(store, AccessTokenKey) && api(Authorized(store, ProfileEndpoint)).Reply? &&
              api(Authorized(store, ProfileEndpoint)).status == 401
    ensures s.store == (if s.outcome.SessionExpired? then Logout(store) else store)
    ensures s.outcome.Loaded? ==>
              var reply := api(Authorized(store, ProfileEndpoint));
              reply.Reply? && Ok(reply.status) && reply.body == Value(s.outcome.value)
    ensures Has(store, AccessTokenKey) ==>
              var reply := api(Authorized(store, ProfileEndpoint));
              (reply.Reply? && reply.status != 401 && !Ok(reply.status) ==>
                 s.outcome == ApiError(reply.status)) &&
              (reply.Reply? && Ok(reply.status) && reply.body.Value? ==>
                 s.outcome == Loaded(reply.body.value)) &&
              (s.outcome.Failed? <==>
                 reply.NetworkError? || (Ok(reply.status) && !reply.body.Value?))
    ensures s.outcome.NoToken? || s.outcome.SessionExpired? || s.outcome.ApiError? ||
            s.outcome.Failed? || s.outcome.Loaded?
  {
    if !Has(store, AccessTokenKey) then Step(NoToken, store)
    else
      match api(Authorized(store, ProfileEndpoint))
      case NetworkError => Step(Failed, store)
      case Reply(status, body) =>
        if !Ok(status) then
          if status == 401 then Step(SessionExpired, Logout(store))
          else Step(ApiError(status), store)
        else if body.Value? then Step(Loaded(body.value), store)
        else Step(Failed, store)
  }

  datatype PlayingTrack = PlayingTrack(name: string)

  /** The body of currently-playing; `item` may be null even with 200. */
  datatype Playback = Playback(isPlaying: bool, item: Option<PlayingTrack>)

  /** `fetchCurrentlyPlaying`: 401 logs out, 204 means nothing is playing, another non-ok
      status is an error, a null body or a null item means nothing is playing. */
  function FetchCurrentlyPlaying(store: Store, api: ApiRequest -> HttpReply<Playback>)
    : (s: Step<FetchOutcome<Playback>>)
    ensures s.outcome.NoToken? <==> !Has(store, AccessTokenKey)
    ensures s.outcome.SessionExpired? <==>
              Has(store, AccessTokenKey) &&
              api(Authorized(store, CurrentlyPlayingEndpoint)).Reply? &&
              api(Authorized(store, CurrentlyPlayingEndpoint)).status == 401
    ensures s.store == (if s.outcome.SessionExpired? then Logout(store) else store)
    ensures Has(store, AccessTokenKey) &&
            api(Authorized(store, CurrentlyPlayingEndpoint)).Reply? &&
            api(Authorized(store, CurrentlyPlayingEndpoint)).status == 204 ==>
              s.outcome == NothingPlaying
    ensures s.outcome.Loaded? ==> s.outcome.value.item.Some?
    ensures s.outcome.Loaded? ==>
              var reply := api(Authorized(store, CurrentlyPlayingEndpoint));
              reply.Reply? && Ok(reply.status) && reply.body == Value(s.outcome.value)
    ensures Has(store, AccessTokenKey) ==>
              var reply := api(Authorized(store, CurrentlyPlayingEndpoint));
              (reply.Reply? && reply.status != 401 && reply.status != 204 && !Ok(reply.status) ==>
                 s.outcome == ApiError(reply.status)) &&
              (reply.Reply? && reply.status != 204 && Ok(reply.status) &&
               (reply.body.Null? || (reply.body.Value? && reply.body.value.item.None?)) ==>
                 s.outcome == NothingPlaying) &&
              (reply.Reply? && reply.status != 204 && Ok(reply.status) &&
               reply.body.Value? && reply.body.value.item.Some? ==>
                 s.outcome == Loaded(reply.body.value)) &&
              (s.outcome.Failed? <==>
                 reply.NetworkError? ||
                 (reply.status != 204 && Ok(reply.status) && reply.body.Malformed?))
    ensures s.outcome.NoToken? || s.outcome.SessionExpired? || s.outcome.ApiError? ||
            s.outcome.Failed? || s.outcome.NothingPlaying? || s.outcome.Loaded?
  {
    if !Has(store, AccessTokenKey) then Step(NoToken, store)
    else
      match api(Authorized(store, CurrentlyPlayingEndpoint))
      case NetworkError => Step(Failed, store)
      case Reply(status, body) =>
        if status == 401 then Step(SessionExpired, Logout(store))
        else if status == 204 then Step(NothingPlaying, store)
        else if !Ok(status) then Step(ApiError(status), store)
        else
          match body
          case Malformed => Step(Failed, store)
          case Null => Step(NothingPlaying, store)
          case Value(data) =>
            if data.item.None? then Step(NothingPlaying, store) else Step(Loaded(data), store)
  }

  /** The body of top/tracks; `items` may be absent. */
  datatype TopTracks = TopTracks(items: Option<seq<Track>>)

  /** `fetchTopAlbums`: 401 logs out, another non-ok status is an error, no tracks means no
      history, otherwise the albums of the tracks, each once, in first-occurrence order. */
  function FetchTopAlbums(store: Store, api: ApiRequest -> HttpReply<TopTracks>)
    : (s: Step<FetchOutcome<seq<AlbumCard>>>)
    ensures s.outcome.NoToken? <==> !Has(store, AccessTokenKey)
    ensures s.outcome.SessionExpired? <==>
              Has(store, AccessTokenKey) && api(Authorized(store, TopTracksEndpoint)).Reply? &&
              api(Authorized(store, TopTracksEndpoint)).status == 401
    ensures s.store == (if s.outcome.SessionExpired? then Logout(store) else store)
    ensures s.outcome.Loaded? ==>
              var reply := api(Authorized(store, TopTracksEndpoint));
              reply.Reply? && Ok(reply.status) && reply.body.Value? &&
              reply.body.value.items.Some? && reply.body.value.items.value != [] &&
              s.outcome.value == UniqueAlbums(reply.body.value.items.value)
    ensures Has(store, AccessTokenKey) ==>
              var reply := api(Authorized(store, TopTracksEndpoint));
              (reply.Reply? && reply.status != 401 && !Ok(reply.status) ==>
                 s.outcome == ApiError(reply.status)) &&
              (reply.Reply? && Ok(reply.status) && reply.body.Value? &&
               (reply.body.value.items.None? || reply.body.value.items.value == []) ==>
                 s.outcome == NoHistory) &&
              (reply.Reply? && Ok(reply.status) && reply.body.Value? &&
               reply.body.value.items.Some? && reply.body.value.items.value != [] ==>
                 s.outcome == Loaded(UniqueAlbums(reply.body.value.items.value))) &&
              (s.outcome.Failed? <==>
                 reply.NetworkError? || (Ok(reply.status) && !reply.body.Value?))
    ensures s.outcome.NoToken? || s.outcome.SessionExpired? || s.outcome.ApiError? ||
            s.outcome.Failed? || s.outcome.NoHistory? || s.outcome.Loaded?
  {
    if !Has(store, AccessTokenKey) then Step(NoToken, store)
    else
      match api(Authorized(store, TopTracksEndpoint))
      case NetworkError => Step(Failed, store)
      case Reply(status, body) =>
        if status == 401 then Step(SessionExpired, Logout(store))
        else if !Ok(status) then Step(ApiError(status), store)
        else
          match body
          case Malformed => Step(Failed, store)
          case Null => Step(Failed, store)
          case Value(data) =>
            if data.items.None? || data.items.value == [] then Step(NoHistory, store)
            else Step(Loaded(UniqueAlbums(data.items.value)), store)
  }

  // ----- properties across transitions -----

  /** Expiry round trip: after a successful exchange at time `now0`, the stored expiry text
      parses back to `now0 + 1000 * expires_in`, and the session counts as authenticated
      exactly strictly before that instant. */
  lemma ExpiryRoundTrip(store: Store, code: string, redirectUri: string,
                        tokenEndpoint: TokenRequest -> HttpReply<TokenJson>, now0: int, now: int)
    requires ExchangeCode(store, code, redirectUri, tokenEndpoint, now0).outcome.Authenticated?
    requires ExchangeCode(store, code, redirectUri, tokenEndpoint, now0).outcome.token.accessToken != ""
    ensures var e := ExchangeCode(store, code, redirectUri, tokenEndpoint, now0);
            var expiry := now0 + e.outcome.token.expiresIn * 1000;
            ParseInt(e.store[TokenExpiryKey]) == Some(expiry) &&
            (IsAuthenticated(e.store, now).outcome <==> now < expiry) &&
            (now >= expiry ==> IsAuthenticated(e.store, now).store == Logout(e.store))
  {
    var e := ExchangeCode(store, code, redirectUri, tokenEndpoint, now0);
    ParseIntOfIntToString(now0 + e.outcome.token.expiresIn * 1000);
  }

  /** The verifier is single-use: once a code has been exchanged, a replayed callback finds no
      verifier and sends no request. */
  lemma VerifierSingleUse(store: Store, code: string, redirectUri: string,
                          tokenEndpoint: TokenRequest -> HttpReply<TokenJson>, now: int,
                          replayed: string, later: int)
    requires ExchangeCode(store, code, redirectUri, tokenEndpoint, now).outcome.Authenticated?
    requires replayed != ""
    ensures var s1 := ExchangeCode(store, code, redirectUri, tokenEndpoint, now).store;
            HandleCallback(s1, [("code", replayed)], redirectUri, tokenEndpoint, later) ==
              Step(CodeReceived(replayed, MissingVerifier), s1)
  {
    var s1 := ExchangeCode(store, code, redirectUri, tokenEndpoint, now).store;
    var q := [("code", replayed)];
    assert QueryGet(q, "code") == Some(replayed);
    assert QueryGet(q, "error") == None by {
      assert q[0].0 != "error";
    }
  }

  /** Proof key binding (section 4.6 of RFC 7636): the verifier sent to the token endpoint is
      the one whose S256 challenge went out in the redirect, and the client id and redirect URI
      of the two requests agree. */
  lemma PkceBinding(store: Store, randomBytes: seq<byte>, sha256: seq<byte> -> Digest,
                    redirectUri: string, code: string,
                    tokenEndpoint: TokenRequest -> HttpReply<TokenJson>, now: int)
    requires |randomBytes| == 32 && Has(store, ClientIdKey)
    ensures var start := StartAuthorization(store, randomBytes, sha256, redirectUri);
            var e := ExchangeCode(start.store, code, redirectUri, tokenEndpoint, now);
            var url := start.outcome.url.params;
            var form := e.outcome.request.form;
            start.outcome.Redirect? && !e.outcome.MissingVerifier? &&
            form[4].0 == "code_verifier" && url[4].0 == "code_challenge" &&
            ChallengeOf(form[4].1, sha256) == url[4].1 &&
            form[3] == url[0] && form[2] == url[2]
  {
    RedirectCarriesChallengeOnly(store, randomBytes, sha256, redirectUri);
  }

  /** The store invariant every transition keeps: a token and an expiry are stored together,
      and a stored expiry is a number. */
  predicate Consistent(store: Store) {
    (AccessTokenKey in store <==> TokenExpiryKey in store) &&
    (TokenExpiryKey in store ==> ParseInt(store[TokenExpiryKey]).Some?)
  }

  lemma EmptyStoreConsistent()
    ensures Consistent(map[])
  {
  }

  lemma ExchangeKeepsConsistent(store: Store, code: string, redirectUri: string,
                                tokenEndpoint: TokenRequest -> HttpReply<TokenJson>, now: int)
    requires Consistent(store)
    ensures Consistent(ExchangeCode(store, code, redirectUri, tokenEndpoint, now).store)
  {
    var e := ExchangeCode(store, code, redirectUri, tokenEndpoint, now);
    if e.outcome.Authenticated? {
      ParseIntOfIntToString(now + e.outcome.token.expiresIn * 1000);
    }
  }

  lemma CallbackKeepsConsistent(store: Store, query: Query, redirectUri: string,
                                tokenEndpoint: TokenRequest -> HttpReply<TokenJson>, now: int)
    requires Consistent(store)
    ensures Consistent(HandleCallback(store, query, redirectUri, tokenEndpoint, now).store)
  {
    var s := HandleCallback(store, query, redirectUri, tokenEndpoint, now);
    if s.outcome.CodeReceived? {
      ExchangeKeepsConsistent(store, s.outcome.code, redirectUri, tokenEndpoint, now);
    }
  }

  lemma SetupKeepsConsistent(store: Store, inputValue: string, randomBytes: seq<byte>,
                              sha256: seq<byte> -> Digest, redirectUri: string)
    requires Consistent(store) && |randomBytes| == 32
    ensures Consistent(SaveClientId(store, inputValue).store)
    ensures Consistent(StartAuthorization(store, randomBytes, sha256, redirectUri).store)
  {
  }

  lemma LogoutKeepsConsistent(store: Store, now: int)
    requires Consistent(store)
    ensures Consistent(Logout(store))
    ensures Consistent(IsAuthenticated(store, now).store)
  {
  }

  lemma ApiCallsKeepConsistent(store: Store,
                               profiles: ApiRequest -> HttpReply<Profile>,
                               playing: ApiRequest -> HttpReply<Playback>,
                               tracks: ApiRequest -> HttpReply<TopTracks>)
    requires Consistent(store)
    ensures Consistent(LoadUserProfile(store, profiles).store)
    ensures Consistent(FetchCurrentlyPlaying(store, playing).store)
    ensures Consistent(FetchTopAlbums(store, tracks).store)
  {
    LogoutKeepsConsistent(store, 0);
  }

  /** Under the invariant, `isAuthenticated` holds exactly when a non-empty token is stored
      and the clock is strictly before its expiry. */
  lemma AuthenticatedIffUnexpired(store: Store, now: int)
    requires Consistent(store)
    ensures IsAuthenticated(store, now).outcome <==>
              Has(store, AccessTokenKey) && now < ParseInt(store[TokenExpiryKey]).value
  {
  }

  /** A 401 from any protected endpoint ends the session: afterwards nothing authenticates,
      and the client id survives. */
  lemma UnauthorizedEndsSession(store: Store, now: int,
                                profiles: ApiRequest -> HttpReply<Profile>,
                                playing: ApiRequest -> HttpReply<Playback>,
                                tracks: ApiRequest -> HttpReply<TopTracks>)
    ensures LoadUserProfile(store, profiles).outcome.SessionExpired? ==>
              !IsAuthenticated(LoadUserProfile(store, profiles).store, now).outcome
    ensures FetchCurrentlyPlaying(store, playing).outcome.SessionExpired? ==>
              !IsAuthenticated(FetchCurrentlyPlaying(store, playing).store, now).outcome
    ensures FetchTopAlbums(store, tracks).outcome.SessionExpired? ==>
              !IsAuthenticated(FetchTopAlbums(store, tracks).store, now).outcome
    ensures ClientIdKey in store ==>
              LoadUserProfile(store, profiles).store[ClientIdKey] == store[ClientIdKey] &&
              FetchCurrentlyPlaying(store, playing).store[ClientIdKey] == store[ClientIdKey] &&
              FetchTopAlbums(store, tracks).store[ClientIdKey] == store[ClientIdKey]
  {
  }

  /** The whole login: an id is saved into an empty store, the user is redirected, Spotify calls
      back with a code, the token endpoint answers with a token; the session is then
      authenticated until the expiry and the verifier is gone. */
  lemma LoginScenario(inputValue: string, randomBytes: seq<byte>, sha256: seq<byte> -> Digest,
                      redirectUri: string, code: string,
                      tokenEndpoint: TokenRequest -> HttpReply<TokenJson>, data: TokenJson,
                      now0: int, now: int)
    requires SaveClientId(map[], inputValue).outcome == Saved
    requires |randomBytes| == 32 && code != "" && data.accessToken != ""
    requires var s1 := SaveClientId(map[], inputValue).store;
             var s2 := StartAuthorization(s1, randomBytes, sha256, redirectUri).store;
             tokenEndpoint(ExchangeRequest(s2, code, redirectUri)) == Reply(200, Value(data))
    ensures var s1 := SaveClientId(map[], inputValue).store;
            var start := StartAuthorization(s1, randomBytes, sha256, redirectUri);
            var back := HandleCallback(start.store, [("code", code)], redirectUri,
                                       tokenEndpoint, now0);
            start.outcome.Redirect? &&
            back.outcome == CodeReceived(code, Authenticated(ExchangeRequest(start.store, code,
                                                                             redirectUri), data)) &&
            CodeVerifierKey !in back.store &&
            back.store[ClientIdKey] == Trim(inputValue) &&
            (IsAuthenticated(back.store, now).outcome <==> now < now0 + data.expiresIn * 1000)
  {
    var s1 := SaveClientId(map[], inputValue).store;
    var start := StartAuthorization(s1, randomBytes, sha256, redirectUri);
    SavedClientIdIsClean(map[], inputValue);
    var q := [("code", code)];
    assert QueryGet(q, "code") == Some(code);
    assert QueryGet(q, "error") == None by {
      assert q[0].0 != "error";
    }
    ExpiryRoundTrip(start.store, code, redirectUri, tokenEndpoint, now0, now);
  }
}
