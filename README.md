# IndiChess client session and API gateway

This project models the client-side authentication logic of the IndiChess web
client: the React session store (`AuthProvider` in
`src/contexts/AuthContext.tsx`) and the REST gateway (`src/lib/api.ts`).

- `wrappers.dfy` (`Wrappers`): `Option` and JavaScript truthiness of an optional string.
- `storage.dfy` (`BrowserStorage`): `localStorage` as a `map<string, string>`,
  the keys `token` and `userEmail`, `getItem` and the two `removeItem` calls.
- `jwt.dfy` (`Jwt`): `parseJwt` and `isTokenExpired`. The payload segment is
  `token.split('.')[1]` of a compact JWS (section 7.1 of RFC 7515). `Split` is
  modelled concretely and proved to round-trip with `Join`. The base64url
  alphabet is mapped to the standard one (section 5 of RFC 4648) by two
  `replace` passes. The `exp` claim (section 4.1.4 of RFC 7519) is compared
  with `now` in milliseconds. `atob` followed by `JSON.parse` is a `Decoder`
  parameter: an arbitrary total function from text to an optional payload.
- `session.dfy` (`Session`): the transitions as pure functions over a `State`
  (storage, in-memory token, user, `isLoading`, location). Lemmas relate those
  functions to each other. The class `SessionStore` holds the same state in
  mutable fields. Its methods perform each transition step by step and are
  proved to agree with the functions.
- `api.dfy` (`Api`): each gateway call receives `fetch` as a function from a
  request to a response. Each call is a function from that to a
  `Result` (a value or an `ApiError(status, message)`). `testAuth` also threads
  the storage map through.
- `client.dfy` (`Client`): how the two pieces meet through storage alone.

Inputs that the browser supplies are parameters: `Date.now()` is `now`,
`localStorage` is a map, the query string is a list of decoded pairs, and
`fetch` is a function.

Three behaviours of the code worth knowing:
- `isAuthenticated` is `!!token && !!user`, so an empty token string does not
  count as authenticated even though a token is present.
- `exp` must be truthy, so an `exp` of 0 is expired even for a clock before the epoch.
- The redirect email chain `email || preferred_username || sub` yields `sub`
  unchanged when the first two are falsy, including `""` or `undefined`.
  `undefined` is then stored by `setItem` as the text "undefined"
  (`Session.ClaimlessRedirectReload`).

## Model

| member | source | states |
|---|---|---|
| `Jwt.Split` | src/contexts/AuthContext.tsx:26 | `split('.')` yields at least one piece, exactly one iff there is no separator, and no piece contains a separator |
| `Jwt.JoinSplit` | src/contexts/AuthContext.tsx:26 | joining the pieces of a split with the separator gives back the original token |
| `Jwt.SplitJoin` | src/contexts/AuthContext.tsx:26 | splitting a join of separator-free pieces gives back exactly those pieces |
| `Jwt.PayloadSegment` | src/contexts/AuthContext.tsx:26 | the second segment is undefined exactly when the token has no '.', and it never contains a '.' |
| `Jwt.PayloadSegmentBetweenDots` | src/contexts/AuthContext.tsx:26 | the second segment is the text between the first '.' and the next '.' or the end |
| `Jwt.ReplaceAll` | src/contexts/AuthContext.tsx:27 | a global one-character `replace` keeps the length and changes exactly the occurrences of that character |
| `Jwt.Base64UrlToBase64` | src/contexts/AuthContext.tsx:27 | the substitution preserves length, maps '-' to '+' and '_' to '/', keeps every other character, and leaves no '-' or '_' |
| `Jwt.ParseJwt` | src/contexts/AuthContext.tsx:24-32 | never throws; a token without '.' gives null; a token with '.' gives exactly what the decoder makes of its substituted second segment |
| `Jwt.IsTokenExpired` | src/contexts/AuthContext.tsx:34-38 | a token without '.' is expired; a live token has a decoded payload with `exp` present and `exp*1000 > now` |
| `Jwt.ExpiryFromSegment` | src/contexts/AuthContext.tsx:26-37 | when the decoder maps the substituted text between the first two dots to payload p, the token is live iff p's `exp` is truthy and `exp*1000 > now` |
| `Jwt.ExpTruthy` | src/contexts/AuthContext.tsx:36 | `payload?.exp` is truthy only when the claim is present, and an `exp` of 0 is falsy |
| `Jwt.NotExpiredIff` | src/contexts/AuthContext.tsx:34-38 | a token is live iff its payload decodes, `exp` is present and non-zero, and `exp*1000 > now` |
| `Jwt.NotExpiredIffAfterEpoch` | src/contexts/AuthContext.tsx:36-37 | for `now >= 0`, live iff `exp` is present and `exp*1000 > now` |
| `Jwt.NoDotIsExpired` | src/contexts/AuthContext.tsx:24-36 | a token with no '.' has a null payload and is expired |
| `Jwt.ZeroExpIsExpired` | src/contexts/AuthContext.tsx:36 | `exp` of 0 is falsy, so the token is expired at every time |
| `Jwt.ExpiredAtBoundary` | src/contexts/AuthContext.tsx:37 | `now == exp*1000` is already expired; one millisecond earlier is live for positive `exp` |
| `Jwt.ExpiredStaysExpired` | src/contexts/AuthContext.tsx:37 | once expired, a token stays expired at every later time |
| `BrowserStorage.GetItem` | src/contexts/AuthContext.tsx:61-62 | `getItem` returns the stored value exactly when the key is present, null otherwise |
| `BrowserStorage.RemoveSession` | src/contexts/AuthContext.tsx:53-54 | removing the two keys leaves neither key and every other key as it was |
| `Session.QueryGet` | src/contexts/AuthContext.tsx:75-76 | `URLSearchParams.get` is null iff no pair has the name, else the value of the first such pair |
| `Session.StoredText` | src/contexts/AuthContext.tsx:46-47 | `setItem` stores a string value unchanged and `undefined` as the text "undefined" |
| `Session.Authenticated` | src/contexts/AuthContext.tsx:101 | `isAuthenticated` needs both a token and a user, and an empty token string is never authenticated |
| `Session.InitialState` | src/contexts/AuthContext.tsx:41-43 | before the effects run, the store is unauthenticated and loading |
| `Session.LoginState` | src/contexts/AuthContext.tsx:45-50 | after `login(t, e)` storage maps `token` to t and `userEmail` to e, other keys are kept, token is t, user is `{email: e}`, authenticated iff t is non-empty, loading flag and location untouched |
| `Session.LogoutState` | src/contexts/AuthContext.tsx:52-57 | after `logout()` neither key is stored, other keys are kept, token and user are null, not authenticated, loading flag and location untouched |
| `Session.IdentityEmail` | src/contexts/AuthContext.tsx:85-88 | the email is the first truthy of `email`, `preferred_username`; otherwise `sub` as given; it is truthy iff one of the three is |
| `Session.CanRestore` | src/contexts/AuthContext.tsx:64 | adoption needs both keys stored with non-empty values and a stored token containing '.' |
| `Session.RestoreState` | src/contexts/AuthContext.tsx:60-71 | restoration always ends with loading false and the location unchanged |
| `Session.RedirectState` | src/contexts/AuthContext.tsx:74-94 | the redirect effect leaves loading untouched, keeps the location or moves it to `/dashboard`, and ends unchanged, as `logout()`, or authenticated on the dashboard |
| `Session.MountState` | src/contexts/AuthContext.tsx:59-94 | restoration at its clock reading, then the redirect effect at its own, always ends with loading false |
| `Session.LogoutIdempotent` | src/contexts/AuthContext.tsx:52-57 | `logout(); logout()` equals `logout()` |
| `Session.LogoutUndoesLogin` | src/contexts/AuthContext.tsx:45-57 | `login(t, e); logout()` equals `logout()` |
| `Session.LoginOverridesLogin` | src/contexts/AuthContext.tsx:45-50 | a second login fully replaces the first |
| `Session.RestoreCases` | src/contexts/AuthContext.tsx:60-71 | restoration adopts the stored pair without rewriting storage iff both are truthy and the token is live; otherwise the state equals `logout()`; loading ends false in both |
| `Session.RestoreExpiredClears` | src/contexts/AuthContext.tsx:64-68 | an expired stored token leaves both keys removed and the store unauthenticated |
| `Session.LoginSurvivesReload` | src/contexts/AuthContext.tsx:45-71 | login with a live token and non-empty email, then a reload, restores the same token and user from storage |
| `Session.RedirectWithoutToken` | src/contexts/AuthContext.tsx:75-77 | with no truthy `token` query parameter the redirect effect changes nothing |
| `Session.RedirectRejects` | src/contexts/AuthContext.tsx:79-83 | a null payload or expired redirect token gives exactly `logout()`, location not rewritten |
| `Session.RedirectAdopts` | src/contexts/AuthContext.tsx:85-93 | a live redirect token gives `login(token, derived email)` with location `/dashboard` and no `token` parameter left |
| `Session.ClaimlessRedirectReload` | src/contexts/AuthContext.tsx:85-90 | a live token with no identity claim is still adopted with an undefined email, which comes back as the text "undefined" after a reload |
| `Session.MountSettles` | src/contexts/AuthContext.tsx:59-94 | a redirect token live at the redirect effect's clock reading wins over stored state: the store ends authenticated with that token |
| `Session.SessionStore.constructor` | src/contexts/AuthContext.tsx:41-43 | the provider starts with null token and user and loading true |
| `Session.SessionStore.IsAuthenticated` | src/contexts/AuthContext.tsx:101 | the store's `isAuthenticated` is that of its snapshot, and implies a token and a user are set |
| `Session.SessionStore.Login` | src/contexts/AuthContext.tsx:45-50 | the field updates of `login`, agreeing with `LoginState` |
| `Session.SessionStore.Logout` | src/contexts/AuthContext.tsx:52-57 | the field updates of `logout`, agreeing with `LogoutState` |
| `Session.SessionStore.RestoreFromStorage` | src/contexts/AuthContext.tsx:60-71 | the restore effect on the fields: adopt and keep storage, or clear both; loading false; agrees with `RestoreState` |
| `Session.SessionStore.CaptureRedirect` | src/contexts/AuthContext.tsx:74-94 | the redirect effect on the fields, agreeing with `RedirectState`; loading flag untouched |
| `Session.SessionStore.Mount` | src/contexts/AuthContext.tsx:59-94 | both effects once, restoration first, each at its own clock reading; loading ends false; agrees with `MountState` |
| `Api.IsOk` | src/lib/api.ts:66 | `response.ok` is status 200..299, so 401, 409 and 500 are never ok |
| `Api.AuthHeaders` | src/lib/api.ts:43-50 | headers always hold `Content-Type: application/json` and hold `Authorization: Bearer t` iff storage holds a non-empty token t, nothing else |
| `Api.LoginRequest` | src/lib/api.ts:58-64 | the login call is a POST to `/auth/login` whose only header is `Content-Type: application/json` (no bearer header), and the credentials as body |
| `Api.RegisterRequest` | src/lib/api.ts:84-90 | the register call is a POST to `/auth/register` whose only header is `Content-Type: application/json` (no bearer header), and the registration data as body |
| `Api.TestAuthRequest` | src/lib/api.ts:103-106 | the test call is a GET to `/auth/testing` with no body whose headers are `getAuthHeaders()`: `Content-Type: application/json`, plus `Authorization: Bearer t` iff storage holds a non-empty token t |
| `Api.HelloRequest` | src/lib/api.ts:129-131 | the hello call is a GET to the service root with no headers and no body |
| `Api.Login` | src/lib/api.ts:57-81 | 401 gives `ApiError(401, 'Invalid email or password')`, other non-ok s gives `ApiError(s, 'Login failed')`, ok with empty body gives `ApiError(500, 'Empty token received from server')`, otherwise the body; success iff ok and non-empty |
| `Api.Register` | src/lib/api.ts:83-100 | 409 gives `ApiError(409, 'Email already registered')`, other non-ok s gives `ApiError(s, 'Registration failed')`, ok gives the user record |
| `Api.TestAuthEffect` | src/lib/api.ts:102-120 | 401, checked before ok, removes both keys and gives `ApiError(401, 'Unauthorized')`; other non-ok s gives `ApiError(s, 'Authentication test failed')` with storage unchanged; ok gives the body |
| `Api.TestAuth` | src/lib/api.ts:102-120 | the call sends headers built from storage and agrees with `TestAuthEffect`; storage ends unchanged or with the session removed |
| `Api.GetHello` | src/lib/api.ts:128-138 | non-ok s gives `ApiError(s, 'Request failed')`, ok gives the body |
| `Api.ErrorStatuses` | src/lib/api.ts:66-137 | every error carries the response's non-ok status, except login's empty-token error (500 on an ok response) |
| `Api.OnlyTestAuthCarriesToken` | src/lib/api.ts:57-131 | only the `testAuth` request carries an `Authorization` header, and it does iff storage holds a non-empty token |
| `Client.HeadersFollowSession` | src/lib/api.ts:43-50 | right after logout no bearer header is sent; right after login with a non-empty token the new token is sent |
| `Client.UnauthorizedLeavesMemorySession` | src/lib/api.ts:108-113 | a 401 from `testAuth` clears storage while the in-memory session stays authenticated; a reload then restores nothing |

## Left out

- Network I/O, `API_BASE_URL` and `import.meta.env`: `fetch` is a function parameter and paths are relative to the base address.
- Api.Login, Api.Register, Api.TestAuth, Api.GetHello: `fetch` is a total function, so a rejected `fetch` (a network failure) is not modelled; in the client it rejects with a `TypeError` rather than an `ApiError` and leaves storage unchanged.
- Api.TestAuth: the call is treated as one atomic step. The client reads storage for the headers before awaiting `fetch` and removes the keys after the response arrives. Storage writes made during the await, by other tabs of the origin or by other handlers in the same tab, are not modelled; a login written in the meantime would also be wiped by a 401.
- Session.SessionStore.Login: `localStorage.setItem` is taken never to throw; a quota-exceeded error, which would leave a partial write behind, is not modelled.
- `response.json()`, `response.text()` and `JSON.stringify`: response bodies arrive already read, and request bodies are a datatype. A JSON decode failure in `register` is not modelled.
- `atob` and `JSON.parse` are foreign. They are the `Decoder` parameter, unconstrained, so every property holds for any decoder.
- `Jwt.IsTokenExpired`: `exp` is an `Option<int>`. A fractional, string or NaN `exp`, and double-precision rounding of `exp * 1000`, are not modelled.
- `Session.QueryGet`: parsing and percent-decoding of the raw query string by `URLSearchParams` are not modelled; the query is given as decoded pairs.
- `Session.SessionStore.CaptureRedirect`: `history.replaceState` is modelled as setting the location to path `/dashboard` with no query; the history entry's state object and the URL fragment are not modelled.
- Session.IdentityEmail: claims are modelled as strings or absent. A JSON `null` claim and a non-string claim are not modelled. With `"sub": null` and no truthy `email` or `preferred_username`, the client passes `null` and stores the text "null"; the model only has the absent case, stored as "undefined". A truthy non-string claim would be stored as its `String()` text.
- Session.RestoreState and Session.RedirectState each take a single clock reading; within the redirect effect, `isTokenExpired` reads `Date.now()` once, and the two effects get separate readings through `Session.MountState`.
- React scheduling is not modelled: `useEffect`, `useCallback`, batching of state updates, context plumbing and `useAuth`'s missing-provider error. The two effects run once, restoration first.
- JWT signature verification: the client never performs it.
- `src/pages/Dashboard.tsx`: presentation and navigation, with no session logic beyond display.
- The Java backend (security configuration, controllers, user service, repository and entity): framework wiring and declarative validation with no logic of its own.
