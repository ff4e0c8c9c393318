/**
  The page script itself: an object holding `localStorage` and the query of
  `window.location`, whose handlers read, write and remove keys one at a time as the script
  does. Each handler is proved to produce the outcome and the store of the transition of the
  same name in `Session`, where the lifecycle properties are proved.
 */
module SpotifyAuth {
  import opened Wrappers
  import opened Text
  import opened Base64Url
  import opened Pkce
  import opened TopAlbums
  import opened Session

  class AuthClient {
    /** `localStorage`. */
    var storage: Store
    /** `window.location.search`, as its decoded (name, value) pairs. */
    var search: Query
    /** `REDIRECT_URI`: the origin and path of the page. */
    const redirectUri: string

    constructor (storage0: Store, search0: Query, redirectUri: string)
      ensures storage == storage0 && search == search0 && this.redirectUri == redirectUri
    {
      storage := storage0;
      search := search0;
      this.redirectUri := redirectUri;
    }

    /** `localStorage.getItem`. */
    function GetItem(key: string): (v: Option<string>)
      reads this
      ensures v.Some? <==> key in storage
      ensures v.Some? ==> v.value == storage[key]
    {
      if key in storage then Some(storage[key]) else None
    }

    /** `localStorage.setItem`. */
    method SetItem(key: string, value: string)
      modifies this`storage
      ensures storage == old(storage)[key := value]
    {
      storage := storage[key := value];
    }

    /** `localStorage.removeItem`. */
    method RemoveItem(key: string)
      modifies this`storage
      ensures storage == old(storage) - {key}
    {
      storage := storage - {key};
    }

    /** `saveClientId`, on the value of the input field. */
    method SaveClientId(inputValue: string) returns (outcome: SaveOutcome)
      modifies this`storage
      ensures Step(outcome, storage) == Session.SaveClientId(old(storage), inputValue)
    {
      var clientId := Trim(inputValue);
      if clientId == "" {
        return EmptyClientId;
      }
      if Utf16Length(clientId) != 32 {
        return WrongLength;
      }
      SetItem(ClientIdKey, clientId);
      outcome := Saved;
    }

    /** `startAuthorizationFlow`, with the bytes `crypto.getRandomValues` wrote; the outcome
        is the URL `window.location.href` is set to. */
    method StartAuthorizationFlow(randomBytes: seq<byte>, sha256: seq<byte> -> Digest)
      returns (outcome: StartOutcome)
      requires |randomBytes| == 32
      modifies this`storage
      ensures Step(outcome, storage) ==
                StartAuthorization(old(storage), randomBytes, sha256, redirectUri)
    {
      var clientId := GetItem(ClientIdKey);
      if !Truthy(clientId) {
        return MissingClientId;
      }
      var codeVerifier := GenerateCodeVerifier(randomBytes);
      var codeChallenge := GenerateCodeChallenge(codeVerifier, sha256);
      SetItem(CodeVerifierKey, codeVerifier);
      var searchParams: Query := [];
      searchParams := searchParams + [("client_id", clientId.value)];
      searchParams := searchParams + [("response_type", "code")];
      searchParams := searchParams + [("redirect_uri", redirectUri)];
      searchParams := searchParams + [("scope", Scopes)];
      searchParams := searchParams + [("code_challenge", codeChallenge)];
      searchParams := searchParams + [("code_challenge_method", "S256")];
      assert codeVerifier == VerifierOf(randomBytes);
      assert codeChallenge == ChallengeOf(codeVerifier, sha256);
      assert searchParams == AuthorizeParams(clientId.value, redirectUri, codeChallenge);
      outcome := Redirect(Url(AuthorizeEndpoint, searchParams));
    }

    /** `handleAuthorizationCallback`: with a code, the query is removed from the address
        (`history.replaceState`) before the exchange. */
    method HandleAuthorizationCallback(tokenEndpoint: TokenRequest -> HttpReply<TokenJson>,
                                       now: int)
      returns (outcome: CallbackOutcome)
      modifies this`storage, this`search
      ensures Step(outcome, storage) ==
                HandleCallback(old(storage), old(search), redirectUri, tokenEndpoint, now)
      ensures search == (if outcome.CodeReceived? then [] else old(search))
    {
      var authorizationCode := QueryGet(search, "code");
      var error := QueryGet(search, "error");
      if Truthy(error) {
        return ProviderError(error.value);
      }
      if !Truthy(authorizationCode) {
        return NoCallback;
      }
      search := [];
      var exchange := ExchangeCodeForToken(authorizationCode.value, tokenEndpoint, now);
      outcome := CodeReceived(authorizationCode.value, exchange);
    }

    /** `exchangeCodeForToken`, with the answer of the token endpoint and `Date.now()`. */
    method ExchangeCodeForToken(code: string, tokenEndpoint: TokenRequest -> HttpReply<TokenJson>,
                                now: int)
      returns (outcome: ExchangeOutcome)
      modifies this`storage
      ensures Step(outcome, storage) ==
                ExchangeCode(old(storage), code, redirectUri, tokenEndpoint, now)
    {
      var clientId := GetItem(ClientIdKey);
      var codeVerifier := GetItem(CodeVerifierKey);
      if !Truthy(codeVerifier) {
        return MissingVerifier;
      }
      var body := [("grant_type", "authorization_code"), ("code", code),
                   ("redirect_uri", redirectUri),
                   ("client_id", if clientId.Some? then clientId.value else "null"),
                   ("code_verifier", codeVerifier.value)];
      var request := TokenRequest(TokenEndpoint, body);
      var response := tokenEndpoint(request);
      if response.NetworkError? {
        return ExchangeFailed(request, TransportFailed);
      }
      if !Ok(response.status) {
        return ExchangeFailed(request, Rejected(response.status));
      }
      if !response.body.Value? {
        return ExchangeFailed(request, BadTokenJson);
      }
      var data := response.body.value;
      var expiryTime := now + data.expiresIn * 1000;
      SetItem(AccessTokenKey, data.accessToken);
      SetItem(TokenExpiryKey, IntToString(expiryTime));
      RemoveItem(CodeVerifierKey);
      outcome := Authenticated(request, data);
    }

    /** `isAuthenticated`, at time `now`. */
    method IsAuthenticated(now: int) returns (authenticated: bool)
      modifies this`storage
      ensures Step(authenticated, storage) == Session.IsAuthenticated(old(storage), now)
    {
      var token := GetItem(AccessTokenKey);
      var expiry := GetItem(TokenExpiryKey);
      if !Truthy(token) || !Truthy(expiry) {
        return false;
      }
      var expiresAt := ParseInt(expiry.value);
      if expiresAt.Some? && now >= expiresAt.value {
        Logout();
        return false;
      }
      authenticated := true;
    }

    /** `logout`. */
    method Logout()
      modifies this`storage
      ensures storage == Session.Logout(old(storage))
    {
      RemoveItem(AccessTokenKey);
      RemoveItem(TokenExpiryKey);
      RemoveItem(CodeVerifierKey);
    }

    /** `loadUserProfile`, with the answer of `/me`. */
    method LoadUserProfile(api: ApiRequest -> HttpReply<Profile>)
      returns (outcome: FetchOutcome<Profile>)
      modifies this`storage
      ensures Step(outcome, storage) == Session.LoadUserProfile(old(storage), api)
    {
      var token := GetItem(AccessTokenKey);
      if !Truthy(token) {
        return NoToken;
      }
      var response := api(ApiRequest(ProfileEndpoint, "Bearer " + token.value));
      if response.NetworkError? {
        return Failed;
      }
      if !Ok(response.status) {
        if response.status == 401 {
          Logout();
          return SessionExpired;
        }
        return ApiError(response.status);
      }
      if !response.body.Value? {
        return Failed;
      }
      outcome := Loaded(response.body.value);
    }

    /** `fetchCurrentlyPlaying`, with the answer of currently-playing. */
    method FetchCurrentlyPlaying(api: ApiRequest -> HttpReply<Playback>)
      returns (outcome: FetchOutcome<Playback>)
      modifies this`storage
      ensures Step(outcome, storage) == Session.FetchCurrentlyPlaying(old(storage), api)
    {
      var token := GetItem(AccessTokenKey);
      if !Truthy(token) {
        return NoToken;
      }
      var response := api(ApiRequest(CurrentlyPlayingEndpoint, "Bearer " + token.value));
      if response.NetworkError? {
        return Failed;
      }
      if response.status == 401 {
        Logout();
        return SessionExpired;
      }
      if response.status == 204 {
        return NothingPlaying;
      }
      if !Ok(response.status) {
        return ApiError(response.status);
      }
      if response.body.Malformed? {
        return Failed;
      }
      if response.body.Null? || response.body.value.item.None? {
        return NothingPlaying;
      }
      outcome := Loaded(response.body.value);
    }

    /** `fetchTopAlbums`, with the answer of top/tracks. */
    method FetchTopAlbums(api: ApiRequest -> HttpReply<TopTracks>)
      returns (outcome: FetchOutcome<seq<AlbumCard>>)
      modifies this`storage
      ensures Step(outcome, storage) == Session.FetchTopAlbums(old(storage), api)
    {
      var token := GetItem(AccessTokenKey);
      if !Truthy(token) {
        return NoToken;
      }
      var response := api(ApiRequest(TopTracksEndpoint, "Bearer " + token.value));
      if response.NetworkError? {
        return Failed;
      }
      if response.status == 401 {
        Logout();
        return SessionExpired;
      }
      if !Ok(response.status) {
        return ApiError(response.status);
      }
      if !response.body.Value? {
        return Failed;
      }
      var data := response.body.value;
      if data.items.None? || |data.items.value| == 0 {
        return NoHistory;
      }
      var uniqueAlbums := ExtractUniqueAlbums(data.items.value);
      outcome := Loaded(uniqueAlbums);
    }
  }
}
