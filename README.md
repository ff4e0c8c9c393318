# Formation cartographie et Spotify: a Dafny model of the interactive cores

This project models the logic behind the repository's demo pages. Each page is modelled with
its own state, and properties of every model are proved.

- **The Spotify sign-in client** (`vanilla/09-spotify-auth/script.js`). It is an OAuth 2.0
  Authorization Code client with PKCE (RFC 7636) that keeps its session in `localStorage`.
  The model covers:
  - the PKCE secrets;
  - the base64url encoder;
  - the authorize redirect;
  - the callback and the token exchange;
  - the expiry check;
  - the three protected Web API calls;
  - album de-duplication;
  - logout.
  
  `Session` states each handler as a pure step function from the old store to an outcome and
  the new store. `SpotifyAuth.AuthClient` is a class whose `storage` map is changed through
  `SetItem`/`RemoveItem`, the way the page calls `localStorage`. Each of its handler methods
  is proved to produce exactly the step function's outcome and store. The lemmas in `Session`
  link the steps together:
  - the verifier that goes into the redirect is the one the token request sends;
  - a verifier is used only once;
  - the expiry written is the expiry read back;
  - a session is authenticated exactly when its token is unexpired;
  - every step preserves the rule that the token and its expiry are stored or removed together.
- **The swipeable edge drawer** (`vanilla/01-swipeable-edge-drawer/script.js`): the class
  `SwipeDrawer.Drawer` with the page's five state variables, plus its CSS classes and inline
  transform. It has the open/close, drag and Escape handlers and the 100 px threshold rule.
- **Zoom-dependent layers** (`vanilla/05-zoom-based-display/script.js`): the class
  `ZoomDisplay.ZoomMap`, whose set of layers is recomputed from the zoom level by the three
  threshold rules.
- **The map style switcher** (`vanilla/02-map-style-switcher/script.js`): the class
  `StyleSwitcher.Switcher`. It holds the active style, the tile layers on the map, the style
  label and an array of active flags, one per button.
- **Live location tracking** (`vanilla/03-user-location-tracking/script.js`): the class
  `LocationTracking.Tracker`. It holds the watch id, the marker, the first-fix flag, the two
  buttons and the status box.
- **Bottom navigation** (`react/03-bottom-navigation-router/components/BottomNavigation.jsx`):
  the `isActive` rule and how the three buttons are rendered.

Shared modules:
- `Wrappers`: `Option`.
- `Text`: JavaScript `trim`, the UTF-16 `length`, `Number.prototype.toString` of integers,
  `parseInt`, `startsWith` and `join`.
- `Base64Url`: `btoa` and RFC 4648, sections 4 and 5.
- `Pkce`: verifier and challenge.
- `TopAlbums`: album cards and de-duplication.

Outside inputs:
- The randomness, SHA-256, `Date.now()` and the network are parameters. A fetch is a function
  from the request to the reply.
- `window.location.search` is the `search` field of `AuthClient`, as a list of decoded pairs.
- The states of the buttons and labels when a page loads come from its HTML. They are
  constructor parameters.

Behaviour of the code worth knowing when reading the model:
- `handleAuthorizationCallback` and `exchangeCodeForToken` keep the stored code verifier after
  a provider error and after a failed exchange. Only a successful exchange and `logout`
  remove it.
- The three fetch functions check only that a token is present. Expiry is checked only by
  `isAuthenticated`, and after the fact through a 401 reply.

## Model

| member | source | states |
|---|---|---|
| Text.Trim | vanilla/09-spotify-auth/script.js:130 | `trim` returns the slice between the leading and trailing whitespace: it keeps every non-whitespace character and neither end is whitespace |
| Text.TrimIdempotent | vanilla/09-spotify-auth/script.js:130 | trimming a trimmed client id changes nothing |
| Text.Utf16Length | vanilla/09-spotify-auth/script.js:138 | `clientId.length` counts UTF-16 code units: between one and two per character, exactly one per character inside the Basic Multilingual Plane |
| Text.IntToString | vanilla/09-spotify-auth/script.js:374 | `expiryTime.toString()` is decimal digits with a leading '-' exactly for a negative number |
| Text.ParseInt | vanilla/09-spotify-auth/script.js:410 | `parseInt` without a radix is NaN for a text with no digit at all, and a number (not negative) for a text starting with a decimal digit that is not a "0x" prefix |
| Text.ParseSigned | vanilla/09-spotify-auth/script.js:410 | after the whitespace, a leading '-' can only give a number at most zero, any other start a number at least zero, and a text without digits gives NaN |
| Text.ParseUnsigned | vanilla/09-spotify-auth/script.js:410 | after the sign, a text not starting with a decimal digit is NaN, one starting with a digit (and no "0x") is a number, and every number is at least zero |
| Text.Join | vanilla/09-spotify-auth/script.js:22-28 | `join(sep)` of no items is empty; otherwise its length is the items' lengths plus one separator between each two, it starts with the first item and ends with the last |
| Text.ParseIntOfIntToString | vanilla/09-spotify-auth/script.js:374-410 | `parseInt` of the text `toString` wrote gives back the same integer |
| Base64Url.StdEncode | vanilla/09-spotify-auth/script.js:222 | the `btoa` output is padded to a multiple of four characters, four per started 3-byte group |
| Base64Url.Btoa | vanilla/09-spotify-auth/script.js:222 | `btoa` fails exactly when some character is above U+00FF |
| Base64Url.UrlEncode | vanilla/09-spotify-auth/script.js:214-229 | the unpadded base64url text has ceil(4n/3) characters, all from `[A-Za-z0-9_-]` |
| Base64Url.RemoveAll | vanilla/09-spotify-auth/script.js:228 | `.replace(/=/g, '')` leaves no '=' and never lengthens the text |
| Base64Url.StdToUrl | vanilla/09-spotify-auth/script.js:225-228 | the three global replacements turn the padded base64 of any bytes into their unpadded base64url encoding |
| Base64Url.Base64UrlEncode | vanilla/09-spotify-auth/script.js:214-229 | the binary-string loop, `btoa` and the replacements compute exactly the RFC 4648 section 5 encoding of the buffer |
| Base64Url.UrlEncodeConcat | vanilla/09-spotify-auth/script.js:222 | a prefix of whole 3-byte groups encodes independently of what follows |
| Base64Url.Rfc4648Vectors | vanilla/09-spotify-auth/script.js:214-229 | the RFC 4648 section 10 vectors for "f", "fo" and "foo" encode to "Zg", "Zm8" and "Zm9v" |
| Base64Url.DecodeEncode | vanilla/09-spotify-auth/script.js:214-229 | decoding the encoding gives back every byte sequence |
| Base64Url.UrlEncodeInjective | vanilla/09-spotify-auth/script.js:214-229 | different buffers never get the same encoding |
| Pkce.Utf8Encode | vanilla/09-spotify-auth/script.js:188-189 | `TextEncoder.encode` gives at least one byte per character, and exactly the character codes for an ASCII text |
| Pkce.GenerateCodeVerifier | vanilla/09-spotify-auth/script.js:162-174 | the verifier is the base64url text of the 32 random bytes, 43 characters, all unreserved (RFC 7636 section 4.1) |
| Pkce.GenerateCodeChallenge | vanilla/09-spotify-auth/script.js:186-201 | the challenge is the base64url text of SHA-256 of the verifier's UTF-8 bytes, 43 URL-safe characters |
| Pkce.HashedBytesAreAscii | vanilla/09-spotify-auth/script.js:188-193 | for a generated verifier, the hashed bytes are its 43 ASCII codes, as in SHA256(ASCII(code_verifier)) of RFC 7636 section 4.2 |
| Pkce.DistinctRandomDistinctVerifiers | vanilla/09-spotify-auth/script.js:164-169 | different random bytes give different verifiers |
| TopAlbums.Summarize | vanilla/09-spotify-auth/script.js:601-610 | a card keeps the id, name and link; its image is the second image, else the first, else none; its artist is the first artist, else "Artiste inconnu" |
| TopAlbums.AlbumIdsMembers | vanilla/09-spotify-auth/script.js:593-612 | an id is collected exactly when some track carries an album with that id |
| TopAlbums.UniqueAlbumsIds | vanilla/09-spotify-auth/script.js:593-615 | the cards have pairwise distinct ids, and their ids are exactly the album ids of the tracks |
| TopAlbums.UniqueAlbumsPrefix | vanilla/09-spotify-auth/script.js:595-615 | the cards of a prefix of the tracks are a prefix of the cards of all tracks: first-occurrence order |
| TopAlbums.FirstTrackMakesCard | vanilla/09-spotify-auth/script.js:600-610 | the first track carrying a new album id produces the next card, its summary, and that card keeps its position in the final result |
| TopAlbums.ExtractUniqueAlbums | vanilla/09-spotify-auth/script.js:593-615 | the `Map` loop returns the de-duplicated cards in first-occurrence order, with distinct ids |
| Session.SaveClientId | vanilla/09-spotify-auth/script.js:129-147 | an empty trimmed input and an input whose length is not 32 leave the store unchanged; otherwise the trimmed id is stored under `spotify_client_id` |
| Session.SavedClientIdIsClean | vanilla/09-spotify-auth/script.js:130-143 | a stored client id is 32 UTF-16 units long and has no surrounding whitespace |
| Session.StartAuthorization | vanilla/09-spotify-auth/script.js:244-282 | with no client id nothing changes; otherwise the fresh verifier is stored and the redirect goes to the authorize endpoint with client id, response type "code", redirect URI, the five scopes, the S256 challenge and the method |
| Session.RedirectCarriesChallengeOnly | vanilla/09-spotify-auth/script.js:263-275 | the redirect URL's parameters carry the challenge and never the stored verifier |
| Session.AuthorizeParamsRead | vanilla/09-spotify-auth/script.js:267-275 | reading any name from the authorize parameters gives the client id, "code", the redirect URI, the five scopes, the challenge and "S256" under their names, and nothing (in particular no verifier) under any other name |
| Session.TokenFormRead | vanilla/09-spotify-auth/script.js:340-346 | reading any name from the token form gives "authorization_code", the code, the redirect URI, the client id and the verifier under their names, and nothing (in particular no challenge) under any other name |
| Session.ExchangeRequestRead | vanilla/09-spotify-auth/script.js:327-355 | the exchange is posted to the token endpoint, its form carries the stored verifier, the code and the redirect URI, the stored client id or "null" when none is stored, and no challenge |
| Session.QueryGet | vanilla/09-spotify-auth/script.js:294-296 | `URLSearchParams.get` is missing exactly when no pair has the name, and otherwise returns the first matching pair's value |
| Session.ExchangeCode | vanilla/09-spotify-auth/script.js:327-390 | with no verifier nothing is sent; otherwise the form is posted to the token endpoint; a failed request, a non-2xx status or an unreadable body leaves the store as it was; a 2xx reply with a JSON body stores the token and `now + expires_in*1000` and removes the verifier |
| Session.HandleCallback | vanilla/09-spotify-auth/script.js:292-317 | an `error` parameter stops everything; no `code` does nothing; a code is exchanged and only that path can change the store |
| Session.Logout | vanilla/09-spotify-auth/script.js:770-783 | logout removes exactly the token, expiry and verifier keys and keeps every other entry, the client id included |
| Session.LogoutIdempotent | vanilla/09-spotify-auth/script.js:774-776 | logging out twice is logging out once |
| Session.IsAuthenticated | vanilla/09-spotify-auth/script.js:401-417 | true only with a non-empty token and expiry; with both present it is true exactly when `parseInt` of the expiry is NaN or later than now; a false verdict with both present logs out, and otherwise the store is unchanged |
| Session.AuthenticatedIffUnexpired | vanilla/09-spotify-auth/script.js:401-417 | in a store where token and expiry come together and the expiry is a number, authenticated exactly when a non-empty token is stored and now is before the expiry |
| Session.LoadUserProfile | vanilla/09-spotify-auth/script.js:422-464 | no token means no request; a 401 logs out and nothing else does; any other non-2xx status is an API error with that status; a 2xx JSON profile is returned as it came; the call fails exactly on a network error or a 2xx body that is not a value |
| Session.FetchCurrentlyPlaying | vanilla/09-spotify-auth/script.js:476-534 | no token means no request; a 401 logs out and nothing else does; 204 means nothing is playing; any other non-2xx status is an API error with that status; a 2xx `null` body or one without `item` means nothing is playing; a body with an item is returned as it came; the call fails exactly on a network error or an unreadable 2xx body |
| Session.FetchTopAlbums | vanilla/09-spotify-auth/script.js:546-626 | no token means no request; a 401 logs out and nothing else does; any other non-2xx status is an API error with that status; a 2xx body with no or empty `items` means no history; non-empty `items` give exactly the de-duplicated album cards of the tracks; the call fails exactly on a network error or a 2xx body that is not a value |
| Session.ExpiryRoundTrip | vanilla/09-spotify-auth/script.js:372-374 | after a successful exchange at time `now0` with a non-empty token, the stored expiry text parses back to `now0 + expires_in*1000`; `isAuthenticated` at a later time `now` holds exactly before that instant, and from it on logs out |
| Session.VerifierSingleUse | vanilla/09-spotify-auth/script.js:377 | after a successful exchange, a replayed callback with any code finds no verifier and sends no token request |
| Session.PkceBinding | vanilla/09-spotify-auth/script.js:255-275 | the token request that follows the redirect sends the verifier whose S256 challenge was in the redirect |
| Session.EmptyStoreConsistent | vanilla/09-spotify-auth/script.js:31-36 | an empty store satisfies the token/expiry pairing invariant |
| Session.ExchangeKeepsConsistent | vanilla/09-spotify-auth/script.js:372-377 | the token exchange preserves the pairing of token and expiry |
| Session.CallbackKeepsConsistent | vanilla/09-spotify-auth/script.js:292-317 | handling the callback preserves the pairing of token and expiry |
| Session.SetupKeepsConsistent | vanilla/09-spotify-auth/script.js:129-282 | saving the client id and starting the flow preserve the pairing of token and expiry |
| Session.LogoutKeepsConsistent | vanilla/09-spotify-auth/script.js:401-417 | logging out and the expiry check preserve the pairing of token and expiry |
| Session.ApiCallsKeepConsistent | vanilla/09-spotify-auth/script.js:422-626 | the three protected calls preserve the pairing of token and expiry, including the logout on a 401 |
| Session.UnauthorizedEndsSession | vanilla/09-spotify-auth/script.js:444-447 | a 401 from any protected call leaves no token and no expiry, and keeps the client id |
| Session.LoginScenario | vanilla/09-spotify-auth/script.js:84-104 | from an empty store, save a valid id, start the flow, come back with a code and receive a token: the exchange succeeds with the stored verifier, the client id is the trimmed input, the verifier is gone, and the session is authenticated exactly before the expiry |
| SpotifyAuth.AuthClient.GetItem | vanilla/09-spotify-auth/script.js:245 | `localStorage.getItem` is null exactly for an absent key, and otherwise the stored value |
| SpotifyAuth.AuthClient.SetItem | vanilla/09-spotify-auth/script.js:143 | `localStorage.setItem` overwrites exactly one key |
| SpotifyAuth.AuthClient.RemoveItem | vanilla/09-spotify-auth/script.js:774 | `localStorage.removeItem` removes exactly one key |
| SpotifyAuth.AuthClient.SaveClientId | vanilla/09-spotify-auth/script.js:129-147 | the handler's outcome and new storage are those of `Session.SaveClientId` |
| SpotifyAuth.AuthClient.StartAuthorizationFlow | vanilla/09-spotify-auth/script.js:244-282 | the handler's outcome and new storage are those of `Session.StartAuthorization` |
| SpotifyAuth.AuthClient.HandleAuthorizationCallback | vanilla/09-spotify-auth/script.js:292-317 | the outcome and storage are those of `Session.HandleCallback`, and the query string is cleared exactly when a code was received |
| SpotifyAuth.AuthClient.ExchangeCodeForToken | vanilla/09-spotify-auth/script.js:327-390 | the outcome and new storage are those of `Session.ExchangeCode` |
| SpotifyAuth.AuthClient.IsAuthenticated | vanilla/09-spotify-auth/script.js:401-417 | the verdict and new storage are those of `Session.IsAuthenticated` |
| SpotifyAuth.AuthClient.Logout | vanilla/09-spotify-auth/script.js:770-783 | the new storage is `Session.Logout` of the old |
| SpotifyAuth.AuthClient.LoadUserProfile | vanilla/09-spotify-auth/script.js:422-464 | the outcome and new storage are those of `Session.LoadUserProfile` |
| SpotifyAuth.AuthClient.FetchCurrentlyPlaying | vanilla/09-spotify-auth/script.js:476-534 | the outcome and new storage are those of `Session.FetchCurrentlyPlaying` |
| SpotifyAuth.AuthClient.FetchTopAlbums | vanilla/09-spotify-auth/script.js:546-626 | the outcome and new storage are those of `Session.FetchTopAlbums` |
| SwipeDrawer.DragOffset | vanilla/01-swipeable-edge-drawer/script.js:91-109 | an open drawer follows only downward drags, by `deltaY`; a closed one follows only upward drags, at `drawerHeight + deltaY` |
| SwipeDrawer.OpenAfterDrag | vanilla/01-swipeable-edge-drawer/script.js:127-151 | a drag flips the drawer exactly when it goes more than 100 px down from open or more than 100 px up from closed |
| SwipeDrawer.DragEndRule | vanilla/01-swipeable-edge-drawer/script.js:127-151 | within ±100 px the state stays; beyond -100 px the drawer ends up open; beyond +100 px it ends up closed |
| SwipeDrawer.Drawer.constructor | vanilla/01-swipeable-edge-drawer/script.js:15-19 | the drawer starts closed and not dragging, with zero positions and height |
| SwipeDrawer.Drawer.OpenDrawer | vanilla/01-swipeable-edge-drawer/script.js:25-29 | opening sets the state and adds the `open` and `active` classes |
| SwipeDrawer.Drawer.CloseDrawer | vanilla/01-swipeable-edge-drawer/script.js:35-39 | closing clears the state and removes both classes |
| SwipeDrawer.Drawer.HandleDragStart | vanilla/01-swipeable-edge-drawer/script.js:62-74 | a press records `startY` and the height and starts dragging, and leaves `currentY` as it was |
| SwipeDrawer.Drawer.HandleDragStartFromPress | vanilla/01-swipeable-edge-drawer/script.js:62-74 | the corrected press: it records `startY` and the height, starts dragging, and also sets `currentY` to the press position |
| SwipeDrawer.Drawer.HandleDragMove | vanilla/01-swipeable-edge-drawer/script.js:80-110 | while dragging, the pointer moves `currentY` and the transform by the `DragOffset` rule; otherwise nothing changes |
| SwipeDrawer.Drawer.HandleDragEnd | vanilla/01-swipeable-edge-drawer/script.js:116-157 | releasing a drag sets the open state to `OpenAfterDrag` of `currentY - startY` and drops the `dragging` class; without a drag nothing changes |
| SwipeDrawer.Drawer.HandleKeyDown | vanilla/01-swipeable-edge-drawer/script.js:178-182 | Escape closes an open drawer; every other key keeps the state |
| SwipeDrawer.TapKeepsState | vanilla/01-swipeable-edge-drawer/script.js:62-74 | with the corrected press, a press and release without a move leaves the drawer open or closed as it was, from every state and at every position |
| ZoomDisplay.TierOf | vanilla/05-zoom-based-display/script.js:23-28 | the general view is zoom ≤ 11, the intermediate view 12–14, the detailed view ≥ 15, and zooms strictly between 11 and 12 match no rule |
| ZoomDisplay.Groups | vanilla/05-zoom-based-display/script.js:139-180 | the general markers are always shown; districts from the intermediate view on; points of interest only in the detailed view |
| ZoomDisplay.LayersAfter | vanilla/05-zoom-based-display/script.js:132-181 | a zoom that matches no rule leaves the layers alone; otherwise the overlays become exactly the tier's groups and the tile layer is untouched |
| ZoomDisplay.VisibleMonotone | vanilla/05-zoom-based-display/script.js:139-180 | zooming in never hides a group |
| ZoomDisplay.UpdateIdempotent | vanilla/05-zoom-based-display/script.js:215-217 | applying the update twice at the same zoom is applying it once |
| ZoomDisplay.DescriptionsDistinct | vanilla/05-zoom-based-display/script.js:148-179 | the three descriptions are different from each other |
| ZoomDisplay.ZoomMap.constructor | vanilla/05-zoom-based-display/script.js:6-13 | the map starts at zoom 11 with the tiles and the general markers, described as the general view |
| ZoomDisplay.ZoomMap.AddLayer | vanilla/05-zoom-based-display/script.js:143 | `addLayer` adds one layer |
| ZoomDisplay.ZoomMap.RemoveLayer | vanilla/05-zoom-based-display/script.js:145 | `removeLayer` removes one layer |
| ZoomDisplay.ZoomMap.UpdateZoomUI | vanilla/05-zoom-based-display/script.js:192-205 | the indicator shows the zoom and the description |
| ZoomDisplay.ZoomMap.UpdateLayersBasedOnZoom | vanilla/05-zoom-based-display/script.js:132-181 | the new layers are `LayersAfter` of the old ones; the indicator is updated only when a rule matched |
| ZoomDisplay.ZoomMap.OnZoom | vanilla/05-zoom-based-display/script.js:220-223 | during a zoom only the displayed zoom level changes |
| StyleSwitcher.StyleNamesDistinct | vanilla/02-map-style-switcher/script.js:25-57 | the four styles have four different display names |
| StyleSwitcher.Switcher.constructor | vanilla/02-map-style-switcher/script.js:82-83 | the map starts with the standard style as its only style layer |
| StyleSwitcher.Switcher.UpdateActiveButton | vanilla/02-map-style-switcher/script.js:119-135 | afterwards a button is active exactly when its `data-style` is the new key |
| StyleSwitcher.Switcher.ChangeMapStyle | vanilla/02-map-style-switcher/script.js:90-112 | the active style does nothing; a known new style replaces the old layer with the new one and updates the label and the buttons; an unknown key removes the old layer and then fails; the one-layer invariant holds unless the key is unknown |
| LocationTracking.ErrorKind | vanilla/03-user-location-tracking/script.js:182-200 | the error codes fall into three known kinds and a default |
| LocationTracking.ErrorMessagesDistinct | vanilla/03-user-location-tracking/script.js:182-200 | two codes get the same message exactly when they are of the same kind, and no error message is the "stopped" message |
| LocationTracking.MathRound | vanilla/03-user-location-tracking/script.js:148 | `Math.round` gives the integer within half a unit, rounding halves up |
| LocationTracking.Tracker.constructor | vanilla/03-user-location-tracking/script.js:9-48 | tracking starts with no watch, no marker, the first-fix flag set and the map on Paris at zoom 13 |
| LocationTracking.Tracker.UpdateStatus | vanilla/03-user-location-tracking/script.js:221-241 | exactly one state class remains, the title and message are the given ones, and the icon follows the state |
| LocationTracking.Tracker.StartTracking | vanilla/03-user-location-tracking/script.js:71-102 | without geolocation the status is the "unsupported" error (class, icon, title, message) and nothing else changes; otherwise the status is the waiting "requesting permission" one, the buttons swap and the new watch is registered; the marker and the map never change |
| LocationTracking.Tracker.StopTracking | vanilla/03-user-location-tracking/script.js:109-124 | the watch is cleared, the status says stopped, the buttons swap back and the next fix recentres |
| LocationTracking.Tracker.UpdateMapMarker | vanilla/03-user-location-tracking/script.js:281-304 | the marker is at the position, and at most one marker is ever created |
| LocationTracking.Tracker.SuccessCallback | vanilla/03-user-location-tracking/script.js:137-162 | the status shows tracking (class, icon, title) with the rounded accuracy, the one marker moves to the fix, only the first fix recentres the map at zoom 16, and the watch and buttons stay |
| LocationTracking.Tracker.ErrorCallback | vanilla/03-user-location-tracking/script.js:175-207 | as written, the watch is cleared and the error status is replaced by the waiting "stopped" status, whose message is never the error's message; the marker and the map stay |
| LocationTracking.Tracker.ErrorCallbackStopFirst | vanilla/03-user-location-tracking/script.js:175-207 | with the watch stopped first, the error class, icon, title and the code's message remain visible; the marker and the map stay |
| LocationTracking.Tracker.BeforeUnload | vanilla/03-user-location-tracking/script.js:318-323 | leaving the page clears the active watch |
| LocationTracking.FirstFixCentresOnce | vanilla/03-user-location-tracking/script.js:157-161 | after a start and two fixes, the map stays centred on the first fix, and the one marker is at the second |
| LocationTracking.ErrorStatusLost | vanilla/03-user-location-tracking/script.js:203-206 | as written, after an error the user sees "Suivi arrêté" in the waiting state |
| LocationTracking.ErrorStatusShown | vanilla/03-user-location-tracking/script.js:175-207 | with the corrected order, the user sees the error title, state and message |
| BottomNavigation.Render | react/03-bottom-navigation-router/components/BottomNavigation.jsx:73-111 | one button per item, with its caption; an active button is blue `#1976d2` at weight 600, an inactive one grey `#757575` at weight 400 |
| BottomNavigation.HomeActiveIffExact | react/03-bottom-navigation-router/components/BottomNavigation.jsx:51-53 | Home is active only on exactly "/" |
| BottomNavigation.PrefixRule | react/03-bottom-navigation-router/components/BottomNavigation.jsx:55 | the other items are active exactly when the path starts with theirs, so "/mapping" activates the map item |
| BottomNavigation.AtMostOneActive | react/03-bottom-navigation-router/components/BottomNavigation.jsx:27-56 | no pathname makes two items active |
| BottomNavigation.ClickActivatesOnlyItself | react/03-bottom-navigation-router/components/BottomNavigation.jsx:79 | after clicking an item, that item and no other is active |

## Left out

- The network: `fetch` is a function parameter from request to reply. Its asynchrony, and
  the interleaving of the page's `async` handlers, are not modelled. In particular, `init`
  (`vanilla/09-spotify-auth/script.js:100-103`) does not wait for the callback before it
  checks authentication, and the follow-up loads of `showProfileSection` run concurrently.
- `crypto.getRandomValues`, `crypto.subtle.digest('SHA-256')` and `Date.now()` are
  parameters: 32 random bytes, a function returning a 32-byte digest, and an integer time.
- URL percent-encoding: an authorize URL is its endpoint plus its list of parameters before
  serialisation, and a query string is its list of decoded pairs.
- Session.TokenJson: a 2xx token reply whose JSON lacks `access_token` or `expires_in` is
  not modelled, because the reply body is typed with both fields present. The page would store
  "undefined" and "NaN", and `parseInt` of "NaN" would make the session count as
  authenticated for ever.
- Session.TokenJson: `expires_in` is an integer, not a JavaScript double. `Date.now() +
  expires_in*1000` is exact, and `toString` never uses exponent notation.
- `parseInt` reads digit runs of any length exactly. The model does not round to doubles the
  way large values are rounded.
- TopAlbums.Summarize: a missing `external_urls` throws a TypeError in the source. The model's
  album always carries its link.
- The DOM and console output: `log`, `alert`, `display*`, `showLoginSection`,
  `showProfileSection`, the position info panel (`toFixed`, `toLocaleTimeString`) and the
  Leaflet rendering. Markers, popups and tile URLs are left out, except the layer sets and
  the map centre and zoom.
- Timers: the drawer's delayed transform reset (`setTimeout ... 300`) and the zoom
  indicator's 300 ms animation class.
- SwipeDrawer.Drawer.HandleDragMove: `preventDefault` and the choice between touch and
  mouse coordinates. The model receives the `clientY` of the event.
- The other demo pages: the map-click modal, heatmaps, place search, theme toggle and the
  React swipeable drawer are not part of this model.

## Findings

| source | as written | input that shows it | evidently intended | confidence | as-written member | corrected member |
|---|---|---|---|---|---|---|
| vanilla/03-user-location-tracking/script.js:203-206 | `errorCallback` shows the error status and then calls `stopTracking`, which overwrites it with the waiting state, "Suivi arrêté" and its message | any geolocation error, e.g. code 1 (permission denied) | the user sees the error title and its message after tracking stops | not executed | LocationTracking.ErrorStatusLost | LocationTracking.ErrorStatusShown |
| vanilla/01-swipeable-edge-drawer/script.js:62-74 | `handleDragStart` sets `startY` and not `currentY`, so a press without a move ends with the previous drag's `currentY` | press at 500, move to 300, release (the drawer opens), then press and release at 150 without moving: `deltaY` = 300 - 150 = 150 > 100, and the drawer closes | a tap does not change the drawer's state | not executed | SwipeDrawer.TapAfterDragAsWritten | SwipeDrawer.TapAfterDragFromPress |
