# Admin frontend authentication core, modelled in Dafny

This project models the authentication layer of a Next.js admin frontend. The frontend serves
a multi-tenant document service. The model covers:

- the token service, which keeps the token bundle in the `token` cookie, tests its expiry with a
  60-second margin, and refreshes it;
- the parallel `session` cookie helpers used by the dedicated axios instance;
- the two interceptors installed on the global axios instance by the auth service, with their
  one-time refresh-and-retry on 401, and login, `isAuthenticated` and logout;
- the dedicated axios instance, whose interceptors read the session cookie and never retry;
- the edge middleware (the gate): public routes, the role check, the strict expiry check, header
  rewriting, and the 401 and redirect answers, plus its path matcher;
- the login page's form schema, redirect target and `onSubmit` branching;
- the two authentication proxy routes (login and refresh);
- the documents service's list normalisation and its status and delete paths;
- the documents collection route (GET and POST).

State is modelled as follows:

- The browser cookie jar is a class, `Cookies.CookieJar`, holding a map from cookie names to
  cookies. Each operation that writes a cookie is a method on it.
- Each such method is proved equal to a function on the map (`TokenStore.ReadSlot`,
  `TokenStore.Refresh`, `TokenStore.ValidToken`, `Session.ReadSession`). The lemmas are stated
  about those functions.
- An axios request config is the class `Http.RequestConfig`. The interceptors change its
  headers and its `_retry` flag in place.
- `JSON.stringify`/`JSON.parse` of a token bundle are a small JSON codec, with the round trip
  proved (`Json.DecodeEncode`, `AuthTypes.ParseSerialize`).

Inputs from the outside world are parameters:

- the clock is `now` (milliseconds);
- the backend's answers are `Reply`/`Upstream` values or oracles (`AuthClient.Network`);
- the outcome of a refresh exchange is a `TokenStore.Exchange`;
- the build environment is `Common.Env`: production flag, configured API URL, and whether the
  code runs in a browser.

The code behaves as follows:

- There is no de-duplication of concurrent refreshes. Each 401 calls `refreshToken` on its own.
- The 401 handler does not exempt the login and refresh endpoints.
- A failed refresh rejects the request. It does not redirect to the login page, and the auth
  client does not log out after a second 401.
- The gate never deletes the cookie, whatever it refuses.

## Model

| member | source | states |
|---|---|---|
| Common.ApiUrl | src/lib/axios.ts:5-7 | the base URL is the configured API URL when it is set and non-empty, `http://localhost:8000` otherwise, and never empty |
| Json.DecodeEncode | src/lib/token.ts:30 | decoding the JSON text of any flat member list gives back that list |
| Json.IntToStringRoundTrip | src/lib/auth.ts:11 | the decimal text of a tenant id (`toString()`) parses back to the same integer when followed by a non-digit |
| Json.IntToStringInjective | src/lib/documents.ts:24 | different integers have different decimal texts |
| AuthTypes.RoleNameRoundTrip | src/types/auth.ts:1-5 | each role has its own name, and the name parses back to the role |
| AuthTypes.OnlyAdminPasses | src/types/auth.ts:1-5 | of the three roles only `ADMIN` passes the admin test; `SUPER_ADMIN` does not |
| AuthTypes.ParseSerialize | src/lib/token.ts:30 | parsing the serialised bundle gives back exactly the bundle |
| AuthTypes.FromMembersInverse | src/lib/token.ts:44 | a member list that reads as a bundle is exactly that bundle's twelve members, in order |
| AuthTypes.ParseIff | src/lib/token.ts:44-49 | in the model's reading, a text reads as bundle `d` exactly when it is the JSON text of `d`'s twelve members, in order |
| AuthTypes.MalformedTexts | src/lib/token.ts:44-49 | in the model's reading, a text that is not a flat JSON object, or has other than twelve members (`{}` included), is malformed |
| Http.WithCredentials | src/lib/auth.ts:8-13 | the credential rewrite of a config's headers; its effect is stated by `Http.WithCredentialsEffect` |
| Http.WithCredentialsEffect | src/lib/auth.ts:8-13 | after the credential rewrite, `Authorization` is `Bearer <access_token>`; `X-Tenant-ID` is the id's text exactly when the id is truthy, and is otherwise left as it was; every other header is kept |
| Http.TenantHeaderReadsBack | src/middleware.ts:60-62 | the tenant header carries the decimal text of the non-zero tenant id, which parses back to it |
| Http.ErrorStatus | src/app/api/documents/route.ts:29 | a non-zero upstream status is answered as is; a missing or zero status becomes 500 |
| Cookies.CookieJar.Get | src/lib/token.ts:41 | reading a name finds a value exactly when the jar holds that name, and then its value |
| Cookies.CookieJar.Set | src/lib/token.ts:30-35 | writing one cookie replaces that slot and keeps all others |
| Cookies.CookieJar.Remove | src/lib/token.ts:54 | removing a cookie drops that slot only; a missing cookie is no error |
| TokenStore.Stamp | src/lib/token.ts:19-23 | the stored bundle keeps every field of the received token |
| TokenStore.IsTokenExpired | src/lib/token.ts:57-59 | the access token counts as expired from 60 s before `expires_at`; its properties are stated by `TokenStore.ExpiryMonotone` and `TokenStore.OneHourLifetime` |
| TokenStore.IsRefreshTokenExpired | src/lib/token.ts:61-63 | the refresh token counts as expired from `refresh_token_expires_at`, with no margin; see `TokenStore.ExpiryMonotone` |
| TokenStore.Refresh | src/lib/token.ts:65-85 | the refresh decision on a jar and the exchange's outcome; its cases are stated by `TokenStore.RefreshCases` and `TokenStore.RefreshedBundleIsCurrent` |
| TokenStore.ValidToken | src/lib/token.ts:87-104 | the valid-token decision, dispatching to `Refresh` without re-entry; its cases are stated by `TokenStore.ValidTokenCases` and the two lemmas after it |
| TokenStore.SaveToken | src/lib/token.ts:8-37 | the token cookie now holds the stamped bundle, path `/`, expiring with the refresh token, secure in production, same-site strict; every other cookie is unchanged |
| TokenStore.GetToken | src/lib/token.ts:39-50 | returns the stored bundle; an absent or empty cookie gives null; a malformed one gives null and is removed |
| TokenStore.RemoveToken | src/lib/token.ts:52-55 | the token cookie is gone and nothing else changes |
| TokenStore.RefreshToken | src/lib/token.ts:65-85 | returns what the refresh decision yields, sends the exchange it dictates and leaves the jar as it dictates |
| TokenStore.GetValidToken | src/lib/token.ts:87-104 | returns, sends and leaves exactly what the valid-token decision dictates (the corrected dispatch, without re-entry) |
| TokenStore.StampTimestamps | src/lib/token.ts:19-35 | both timestamps are `now` plus the lifetime in milliseconds; a longer refresh lifetime gives a later refresh expiry; for every build environment the cookie expires with the refresh token, has path `/` and same-site strict, and is secure exactly in production |
| TokenStore.SaveThenRead | src/lib/token.ts:30-44 | `getToken` after `saveToken` returns exactly the saved bundle |
| TokenStore.RemoveThenRead | src/lib/token.ts:52-55 | after `removeToken` the slot reads as absent; removing twice is the same as removing once |
| TokenStore.ReadOnlyDropsMalformed | src/lib/token.ts:39-50 | reading changes the jar exactly when the stored text is malformed, and the slot then reads as absent |
| TokenStore.ExpiryMonotone | src/lib/token.ts:57-63 | once either token counts as expired it stays expired later; strict expiry implies expiry with the margin |
| TokenStore.OneHourLifetime | src/lib/token.ts:5 | a one-hour token issued at T is live at T+3000 s and expired at T+3541 s and at T+3600 s |
| TokenStore.RefreshCases | src/lib/token.ts:65-85 | an exchange is made exactly when a live refresh token is stored, and sends that token; every null result leaves the slot empty; a successful exchange stores and returns the new stamped bundle |
| TokenStore.ValidTokenCases | src/lib/token.ts:87-104 | absent gives null and no write; malformed or a dead refresh token empties the slot; an access token inside the margin is refreshed; a live bundle is returned unchanged |
| TokenStore.ValidTokenSettlesWithOneExchange | src/lib/token.ts:99-101 | an access token inside its margin with a live refresh token leads to exactly one exchange, with the stored refresh token, and settles with the new bundle or with null and an empty slot |
| TokenStore.RefreshedBundleIsCurrent | src/lib/token.ts:78-80 | when a refresh saved a bundle that is live on both counts, the next valid-token call returns that bundle with no exchange and no write |
| TokenStore.ValidTokenWithoutExchangeIsLive | src/lib/token.ts:103 | a bundle returned without an exchange is the stored one, live on both counts, with the jar unchanged |
| Session.ReadSession | src/lib/session.ts:21-34 | what the session cookie holds as a bundle; `Session.GetSession` is proved against it and `Session.CreateThenRead` reads it back |
| Session.CreateSession | src/lib/session.ts:7-19 | the session cookie holds the bundle's JSON, path `/`, expiring with the refresh token, same-site lax; nothing else changes |
| Session.GetSession | src/lib/session.ts:21-34 | returns the stored bundle, or null for an absent, empty or malformed cookie, and writes nothing |
| Session.UpdateSession | src/lib/session.ts:36-38 | has the same effect as `createSession` |
| Session.DeleteSession | src/lib/session.ts:40-46 | the session cookie is gone and nothing else changes |
| Session.IsTokenExpired | src/lib/session.ts:49-51 | the session's strict expiry test, with no margin; related to the token service's by `Session.StrictAndMarginExpiry` |
| Session.IsRefreshTokenExpired | src/lib/session.ts:54-56 | the session's refresh expiry test; equal to the token service's by `Session.StrictAndMarginExpiry` |
| Session.CreateThenRead | src/lib/session.ts:7-34 | `getSession` after `createSession` returns exactly that bundle |
| Session.DeleteThenRead | src/lib/session.ts:40-46 | after `deleteSession` the session reads as absent; deleting is idempotent |
| Session.StoresAreSeparate | src/lib/session.ts:4 | the session and token cookies are different slots; writing or deleting one never changes what the other reads |
| Session.StrictAndMarginExpiry | src/lib/session.ts:49-56 | the session's strict expiry implies the token service's margin expiry; inside the last 60 s only the margin test holds; both refresh tests agree |
| AuthClient.Tokens | src/lib/auth.ts:7 | the token service the interceptors call: its valid-token and refresh calls are exactly `TokenStore.ValidToken` and `TokenStore.Refresh` at the current time |
| AuthClient.Intercepted | src/lib/auth.ts:8-13 | with no token the headers are untouched; with one, `Authorization` is its bearer (the tenant header is stated by `Http.WithCredentialsEffect`) |
| AuthClient.RequestInterceptor | src/lib/auth.ts:6-15 | the jar changes as the token service's valid-token call dictates; the config gains the credentials of the returned bundle, or is untouched when there is none; `_retry` is kept. It uses the corrected getValidToken, without the re-entry of the Findings |
| AuthClient.Pipeline | src/lib/auth.ts:6-35 | a config through request interceptor, transport and response interceptor; its first attempt carries what the request interceptor attached |
| AuthClient.Handle | src/lib/auth.ts:18-35 | the response interceptor on a reply: its first attempt is the headers the reply answered |
| AuthClient.Resend | src/lib/auth.ts:29 | `axios(originalRequest)` on the marked config: exactly one attempt, settled by its own reply, and the config stays marked |
| AuthClient.MarkedConfigIsSentOnce | src/lib/auth.ts:23-29 | a config already marked `_retry` goes through the pipeline as `Resend` does: the 401 handler lets its reply through |
| AuthClient.Send | src/lib/auth.ts:6-35 | one request through the global instance: its result, attempts, refresh exchanges, jar and `_retry` flag are those of `Pipeline` with the source's header rewrite, and the config ends with the headers of its last attempt. It uses the corrected refresh, without the re-entry of the Findings |
| AuthClient.ResponseInterceptor | src/lib/auth.ts:18-35 | the 401 handler, proved against `Handle`: a first 401 marks the config, refreshes and, given a token, re-sends it with the new bearer; anything else settles with the reply |
| AuthClient.PipelineBounds | src/lib/auth.ts:23-33 | a request is sent at most twice (once when already marked) and makes at most three refresh exchanges (one when marked); it settles with the reply to its last attempt; it ends marked exactly when it was already or its first reply was a 401 |
| AuthClient.RetryIff | src/lib/auth.ts:23-30 | a request is sent a second time exactly when it was not marked, its first reply was a 401 and the 401 handler's refresh returned a token |
| AuthClient.SecondAttempt | src/lib/auth.ts:6-30 | a second attempt carries the refreshed bearer over the first attempt's headers, rewritten again by the request interceptor on the jar the refresh left; the jar and the exchange count are those of the three token calls |
| AuthClient.SingleAttemptJar | src/lib/auth.ts:23-33 | a request sent once leaves the jar as the refresh left it after a first 401, and as the request interceptor left it otherwise, with the matching exchange count |
| AuthClient.RetryCarriesRefreshedBundle | src/lib/auth.ts:26-29 | when the refreshed bundle is current, the retry carries exactly its credentials over the first attempt's headers, the jar is the one the refresh left and no further exchange is made |
| AuthClient.LoginResult | src/lib/auth.ts:38-59 | a rejected POST is rethrown; a non-admin answer throws an error with no response; an admin answer is returned with lifetimes 3600 s and 86400 s; whatever is returned is an admin token with those lifetimes |
| AuthClient.LoginRun | src/lib/auth.ts:38-42 | the login POST on a config with no headers, through both interceptors of the global instance with the token service, from the jar as it was |
| AuthClient.Login | src/lib/auth.ts:6-59 | the POST goes through both interceptors with the token service; returns `LoginResult` of how that run settled, and leaves the jar as login's own writes (`LoginCookies`) on the jar the interceptors left |
| AuthClient.LoginCookiesCases | src/lib/auth.ts:46-57 | login's own writes after its POST has settled: a failed login adds none to the jar the interceptors left; a successful one sets the token cookie to the one `saveToken` writes for the returned token and keeps every other cookie |
| AuthClient.WrongPasswordRefusedRefresh | src/lib/auth.ts:23-33 | a wrong password with a live stored bundle: the POST carries that bundle's credentials, its 401 triggers a refresh, and a refused refresh removes the token cookie, so the failed login leaves the jar without it |
| AuthClient.RenewedLoginSteps | src/lib/token.ts:78-104 | for a live stored bundle whose refresh is issued a live bundle: the request interceptor hands out the stored bundle with no exchange, the refresh spends one exchange and saves the new bundle, and the retry is handed that bundle with no exchange |
| AuthClient.RetryWithRenewedBundle | src/lib/auth.ts:6-29 | for any token service behaving so, a first 401 leads to exactly two attempts, the second carrying the refreshed credentials over the first, on the jar the refresh left |
| AuthClient.LoginRetriesWithRenewedBundle | src/lib/auth.ts:23-29 | a wrong password with a live stored bundle whose refresh is issued a live bundle: the login POST is sent twice, first with the stored credentials, then with the new ones, and the jar holds the new bundle |
| AuthClient.WrongPasswordRenewsTheBundle | src/lib/auth.ts:23-29 | when every reply is a 401 and the refresh is issued a live bundle, the login is sent again with the new credentials and fails with 401, and the failed login leaves the new bundle stored in place of the old one |
| AuthClient.DeadRefreshTokenIsDroppedByLogin | src/lib/token.ts:87-97 | a stored bundle with a dead refresh token is removed by the request interceptor before the POST, which carries no credentials; a failed login then leaves no token cookie |
| AuthClient.LoginThenRead | src/lib/auth.ts:50-58 | right after an admin login the slot holds the returned token with its role and tenant slug, expiring in one hour and in one day, and it is live |
| AuthClient.IsAuthenticated | src/lib/auth.ts:65-68 | true exactly for a stored admin bundle whose access token is outside the margin; reading may drop a malformed cookie |
| AuthClient.Logout | src/lib/auth.ts:70-73 | the token slot reads as absent afterwards, whatever it held, nothing else changes, and the browser goes to `/auth/login` |
| AuthClient.InterceptedValidToken | src/lib/token.ts:87-104 | getValidToken as written, with the request interceptor's re-entry on the refresh POST; see `AuthClient.InterceptedValidTokenNeverSettles` |
| AuthClient.InterceptedRefresh | src/lib/token.ts:65-85 | refreshToken as written, whose POST first awaits the request interceptor; see `AuthClient.InterceptedRefreshNeverSettles` |
| AuthClient.InterceptedRefreshNeverSettles | src/lib/token.ts:74-76 | as written, a refresh of an access token inside its margin with a live refresh token never settles, for any depth of nested refresh requests |
| AuthClient.InterceptedValidTokenNeverSettles | src/lib/token.ts:99-101 | as written, getValidToken on such a bundle never settles, for any depth |
| AuthClient.RequestAfterFiftyNineMinutesHangs | src/lib/auth.ts:6-7 | an admin who logged in at T and makes any request at T+3541 s waits forever |
| AuthClient.RefreshSettlesAsWritten | src/lib/token.ts:74-83 | whether refreshToken as written settles when its refresh POSTs are answered with given statuses; see `AuthClient.RefusedRefreshNeverSettles` |
| AuthClient.RefusedRefreshNeverSettles | src/lib/auth.ts:23-26 | as written, a live refresh token whose every refresh POST is answered 401 never settles: each refused POST re-enters the 401 handler, which refreshes again |
| AuthClient.RevokedRefreshTokenHangs | src/app/api/auth/refresh/route.ts:25-30 | a refresh token the backend refuses with 401, forwarded by the refresh route, leaves refreshToken unsettled for any depth |
| ApiClient.RequestHeaders | src/lib/axios.ts:10-19 | the headers the instance's request interceptor leaves; stated by `ApiClient.CreatedSessionAuthorizes` and `ApiClient.UnauthorizedDetachesOnlyTheSession` |
| ApiClient.RequestInterceptor | src/lib/axios.ts:10-19 | the config gains the session's credentials when the session holds a non-empty access token, and is untouched otherwise |
| ApiClient.ResponseInterceptor | src/lib/axios.ts:22-33 | success passes through and every failure is rejected; a 401 deletes the session and, in a browser only, navigates to `/auth/login` |
| ApiClient.Send | src/lib/axios.ts:10-33 | exactly one send, with the session's credentials; the result and the jar are those of the response interceptor |
| ApiClient.CreatedSessionAuthorizes | src/lib/axios.ts:11-16 | a session written with a non-empty access token supplies exactly its credentials, and no session supplies none |
| ApiClient.UnauthorizedDetachesOnlyTheSession | src/lib/axios.ts:25-26 | after a 401 the next request carries no session credentials, while the token cookie is left as it was |
| ApiClient.OtherRepliesKeepTheJar | src/lib/axios.ts:23-31 | any reply other than 401 leaves the jar unchanged |
| Middleware.RedirectToLogin | src/middleware.ts:87-91 | a redirect to `/auth/login` carrying the requested path as `redirect` |
| Middleware.HandleUnauthorized | src/middleware.ts:77-85 | an API path gets the 401 JSON `Non autorisé`; any other path the redirect to the login page |
| Middleware.Gate | src/middleware.ts:12-75 | public paths pass; headers are rewritten only for an API path with a live admin bundle; a 401 answer only on a non-public API path; a redirect only to the login page, for a non-public page |
| Middleware.Matched | src/middleware.ts:93-97 | a matched path starts with `/`; which paths match is stated by `Middleware.AssetsBypassTheGate` and `Middleware.PagesReachTheGate` |
| Middleware.Route | src/middleware.ts:93-97 | an unmatched path goes on untouched; a redirect always goes to the login page with the requested path |
| Middleware.PublicPathsPass | src/middleware.ts:16-19 | a path under a public route passes whatever the cookie holds |
| Middleware.PublicRoutesArePublic | src/middleware.ts:6-10 | the public routes are prefixes, so any extension of them is public; `/dashboard` and `/api/documents` paths are not |
| Middleware.AdmissionIff | src/middleware.ts:12-75 | the gate admits exactly public paths and requests whose cookie parses to an admin bundle strictly before `expires_at` |
| Middleware.AdmittedRequests | src/middleware.ts:55-71 | an admitted API request goes on with the bundle's credentials; an admitted page request goes on unchanged |
| Middleware.RefusedRequests | src/middleware.ts:26-52 | a refused API request gets a 401 JSON answer, which says `Token expiré` exactly for an expired admin bundle; a refused page request is redirected to `/auth/login` with its own path as `redirect` |
| Middleware.RoleBeforeExpiry | src/middleware.ts:36-44 | an expired non-admin bundle on an API path gets `Non autorisé`, not `Token expiré` |
| Middleware.AuthenticatedIsAdmitted | src/middleware.ts:42 | whatever `isAuthenticated` accepts the gate admits; inside the 60 s margin the gate still admits a token the client treats as expired |
| Middleware.AssetsBypassTheGate | src/middleware.ts:93-97 | every path under `/_next/static` or `/_next/image`, and every `/favicon?ico...` for any character `?` (the regex dot is not escaped), bypasses the gate |
| Middleware.PagesReachTheGate | src/middleware.ts:93-97 | `/`, every `/dashboard...` path and every `/api...` path reach the gate |
| LoginPage.RedirectPath | src/app/auth/login/page.tsx:39 | a non-empty `redirect` parameter is the target; otherwise `/dashboard` |
| LoginPage.Validate | src/app/auth/login/page.tsx:28-32 | the form passes exactly when the email is valid, the password has at least 6 characters and the slug is not empty, and each failing field has its own message |
| LoginPage.ErrorMessage | src/app/auth/login/page.tsx:73-79 | 401 shows `Identifiants invalides`, 404 `Tenant introuvable`, anything else `Une erreur est survenue` |
| LoginPage.Submit | src/app/auth/login/page.tsx:50-81 | the field errors are the schema's; a refused form shows no toast and leaves the jar as it was; a valid form shows the effect of the login outcome of the POST's run through the interceptors (`AuthClient.LoginRun`), with the redirect target, and leaves the jar as login's own writes on the jar that run left; the admin-refusal toast never shows; a navigation goes to the redirect target and only after an admin answer |
| LoginPage.OnSubmit | src/app/auth/login/page.tsx:50-81 | the toast and navigation for a login outcome; its cases are stated by `LoginPage.OnSubmitCases` |
| LoginPage.OnSubmitCases | src/app/auth/login/page.tsx:50-81 | navigation happens exactly for an admin token, with the success toast; a failed login shows the message for its status |
| LoginPage.NonAdminSeesGenericMessage | src/app/auth/login/page.tsx:56-60 | the login's non-admin error has no response, so the page shows the generic message; the page's own admin refusal needs a non-admin token, which login never returns |
| LoginPage.GateRedirectRoundTrip | src/app/auth/login/page.tsx:39 | a page the gate turns away is the page an admin login returns to |
| TenantTokenRoute.Post | src/app/api/auth/tenant/token/route.ts:7-38 | a body that is not JSON gives 500 `Erreur serveur` and no call; otherwise one JSON POST of the body to the backend's token URL; its data is answered with 200; an error response keeps its status with `detail` or `Erreur d'authentification`; no response gives 500 |
| TenantTokenRoute.BackendStatusReachesThePage | src/app/api/auth/tenant/token/route.ts:26-31 | a backend 401 reaches the login page as `Identifiants invalides`, a 404 as `Tenant introuvable`, and an unreadable body or unreachable backend as the generic message |
| RefreshRoute.Post | src/app/api/auth/refresh/route.ts:7-37 | as the login proxy, to the backend's refresh URL, with the fallback `Erreur de rafraîchissement du token` |
| RefreshRoute.ResolvesOnlyOnBackendSuccess | src/app/api/auth/refresh/route.ts:21-35 | the proxy's answer is a success exactly when its body was JSON and the backend answered with data, and the refresh token is forwarded unchanged |
| DocumentsRoute.Normalise | src/app/api/documents/route.ts:17-20 | a bare array becomes its items and its length; an object keeps its items (none when absent) and its total (0 when absent) |
| DocumentsRoute.Get | src/app/api/documents/route.ts:4-32 | one GET of the sorted list with the inbound headers; data is answered 200, normalised; any failure gives the upstream status or 500 with the list error |
| DocumentsRoute.Post | src/app/api/documents/route.ts:34-57 | unreadable form data gives 500 and no call; otherwise one POST of the form with the inbound headers and a multipart content type; data is answered 200; any failure gives the upstream status or 500 with the upload error |
| DocumentsRoute.NormaliseIdempotent | src/app/api/documents/route.ts:17-20 | normalising a page the route produced changes nothing |
| DocumentsRoute.UploadHeaders | src/app/api/documents/route.ts:42-45 | the upload always carries the multipart content type, and every other inbound header unchanged |
| DocumentsRoute.ServerSideHeadersAreInbound | src/app/api/documents/route.ts:7-12 | with no cookie jar on the server, the instance adds no credentials, so the backend receives exactly the inbound headers |
| DocumentsService.FormatList | src/lib/documents.ts:36-41 | items are the array or the object's items (none when absent); the total is the numeric total or the array's length, else 0; skip and limit are 0 |
| DocumentsService.ListDocuments | src/lib/documents.ts:29-50 | a resolved GET gives the formatted list; a failure is rethrown unchanged |
| DocumentsService.PathsIdentifyDocuments | src/lib/documents.ts:22-27 | different documents never share a status path or a delete path, and no status path is a delete path |
| DocumentsService.ServiceAgreesWithRoute | src/lib/documents.ts:37-38 | the service and the route normalise any payload to the same items and total |
| DocumentsService.ListThroughTheRoute | src/lib/documents.ts:29-44 | through the route, the service returns the route's items and total, with skip and limit 0 |
| DocumentsService.ListFailureIsRethrown | src/lib/documents.ts:46-49 | a route failure reaches the caller as an error with the route's status |

## Left out

- Logging (`console.log`/`console.error`), toasts as UI, `setTimeout` delays and page rendering are not modelled.
- The 500 ms delay before the login page navigates is not modelled. The navigation is a value of `LoginPage.Effect`.
- Time is one `now` per operation. `saveToken` reads `Date.now()` twice, and the two readings are taken to be equal.
- Token lifetimes are always-present natural numbers. The `parseInt` fallback for non-numeric lifetimes is not modelled, and neither is the `NaN` it can produce for missing lifetimes after a refresh.
- JSON is limited to flat objects of strings, integers and null, in the member order of a token bundle. JSON text that parses to some other value is treated as malformed. Examples are `null`, an array, or an object of another shape. The source would return such a value as a bundle or throw later.
- AuthTypes.ParseIff: holds for the model's reading only. `JSON.parse` accepts `{}`, objects with other members or another member order, `null` and arrays; `getToken` returns any truthy one of them as a bundle and the gate reads its fields from it. The model reads all of them as malformed.
- Json.Escape: writes a backslash before `"` and `\` only. `JSON.stringify` also escapes the control characters U+0000 to U+001F (as `\n`, `\t`, `\u0000` and so on), so for a token holding one the cookie text differs from the model's. The model's round trip is proved for its own escaping.
- Browser behaviour is not modelled: cookie expiry and eviction, the `path` scope, and the `secure` and `sameSite` attributes are only recorded.
- HTTP header names are compared exactly. Case-insensitive header matching is not modelled, including in `new Headers(...)` and `Object.fromEntries(request.headers)`.
- Concurrency between overlapping requests is not modelled. Each request is its own sequential run, so nothing can be said about concurrent refreshes.
- AuthClient.Send: uses the corrected token service (`AuthClient.Tokens`), so its bounds (at most two sends, at most three exchanges) do not hold for the code as written. As written, the refresh POST goes through the same global instance: its request interceptor re-enters getValidToken, and a 401 answer to it re-enters the 401 handler. Both re-entries are modelled only by `AuthClient.InterceptedValidToken`, `AuthClient.InterceptedRefresh` and `AuthClient.RefreshSettlesAsWritten`; see the Findings.
- AuthClient.RequestInterceptor: uses the corrected getValidToken, for the same reason.
- AuthClient.PipelineBounds: like the other pipeline lemmas, it holds for any header rewrite and any token service; `Send` instantiates it with the source's rewrite `Intercepted`.
- AuthClient.RefreshSettlesAsWritten: gives every nested refresh the same bundle and the same exchange outcome, because the cookie is removed only once a catch runs. Which nested call settles first is not modelled.
- Middleware.Gate: reads the cookie as the model's JSON reading does. As written (src/middleware.ts:30-42), any JSON object with `"user_role":"ADMIN"` and a numeric `expires_at` in the future is admitted, for example `{"user_role":"ADMIN","expires_at":4102444800000}`: a page request passes, and an API request goes on with `Authorization: Bearer undefined`. The cookie is neither signed nor set by the server, so the browser's user can write it. `Middleware.AdmissionIff`'s "exactly" holds for the model's reading only.
- Middleware.Gate: does not model the `RangeError` that `toISOString` throws, in a log line, for an `expires_at` more than 8.64e15 ms (about 270,000 years) from 1970 in either direction (src/middleware.ts:33). The source's catch answers such a cookie `Non autorisé` or with the redirect; the model judges it by its role and expiry.
- TokenStore.SaveToken: does not model the same `RangeError` in its log line (src/lib/token.ts:25-28), which would throw before the cookie is written. It needs a lifetime of more than about 270,000 years.
- The tenant id's text is its decimal digits. `Number.prototype.toString` switches to exponent form from 1e21 upwards, and that is not modelled (src/lib/auth.ts:11, src/lib/axios.ts:15, src/middleware.ts:61).
- AuthClient.Login: its POST goes through the interceptors with the corrected token service (`AuthClient.Tokens`). As written, a stored bundle whose access token is inside its 60 s margin makes the login POST itself hang, as in the first Findings row; `/auth/login` is public (src/middleware.ts:16-19), so such a user can reach the form.
- AuthClient.LoginCookiesCases: states only login's own writes after its POST has settled. What the interceptors write before (removing a dead bundle, or saving or removing the token on a 401) is stated by `AuthClient.WrongPasswordRefusedRefresh`, `AuthClient.WrongPasswordRenewsTheBundle` and `AuthClient.DeadRefreshTokenIsDroppedByLogin`.
- `authService.getToken` (src/lib/auth.ts:61-63) only delegates to `TokenStore.GetToken`, so it has no member of its own.
- `documentsService.uploadDocument` (src/lib/documents.ts:4-20) is a plain POST returning the body, so it has no member; only its route is modelled.
- `getDocumentStatus` and `deleteDocument` are modelled by the paths they request. Their replies are only passed through.
- LoginPage.Validate: whether a text is an email address is zod's own test, taken as a parameter. Lengths count characters, not UTF-16 code units.
- Middleware.Matched: the regex dot is taken to match any character. Paths are assumed to hold no line terminators.
- Error bodies whose `detail` is not text, or that have no `data`, are not modelled. Neither are list totals that are not numbers, nor a `skip`/`limit` sent by the backend.
- The base-URL join of axios is string concatenation. A configured URL with a trailing slash is not normalised.
- Session.MAX_AGE is declared and unused, as in the source.

## Findings

| source | as written | input that shows it | evidently intended | confidence | as-written member | corrected member |
|---|---|---|---|---|---|---|
| src/lib/token.ts:74-76 | `refreshToken` posts through the global axios instance. That instance carries the request interceptor of src/lib/auth.ts:6-15, which awaits `getValidToken` before and so calls `refreshToken` again on the unchanged cookie. | An admin logs in at T (lifetimes 3600 s and 86400 s) and any request is made at T+3541 s: the access token is inside its 60 s margin and the refresh token is live. | One exchange per refresh, which settles with the new bundle or with null. | not executed | AuthClient.InterceptedRefreshNeverSettles | TokenStore.ValidTokenSettlesWithOneExchange |
| src/lib/auth.ts:23-30 | The 401 handler skips only a config it has already marked. Each `refreshToken` posts a fresh config through the same instance, and the refresh route forwards the backend's status (src/app/api/auth/refresh/route.ts:25-30). So a refresh POST answered 401 enters the handler, which calls `refreshToken` again before the catch at src/lib/token.ts:81-83 removes the cookie. | A stored bundle with a live refresh token that the backend has revoked, so every refresh POST is answered 401. | One failed refresh, which removes the token and rejects the request. | not executed | AuthClient.RevokedRefreshTokenHangs | TokenStore.RefreshCases |
