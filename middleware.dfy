/** src/middleware.ts: the edge gate in front of every matched path. It reads the raw "token"
    cookie of the request, admits public paths, admits live admin tokens (rewriting the headers
    of API requests), and otherwise answers 401 JSON on /api paths or redirects to the login page. */
module Middleware {
  import opened Common
  import opened AuthTypes
  import opened Cookies
  import opened Http
  import TokenStore

  const PUBLIC_ROUTES: seq<string> := [LOGIN_PATH, "/api/auth/tenant/token", "/api/auth/refresh"]
  const UNAUTHORIZED: string := "Non autorisé"
  const TOKEN_EXPIRED: string := "Token expiré"

  /** What the gate answers. `RedirectTo(path, redirect)` is a redirect to `path` carrying the
      query parameter `redirect`. */
  datatype GateResponse =
    | Next
    | NextWithHeaders(headers: Headers)
    | Json401(error: string)
    | RedirectTo(path: string, redirect: string)

  /** A prefix test, so "/auth/login-help" is public too. */
  predicate IsPublic(pathname: string) {
    exists i :: 0 <= i < |PUBLIC_ROUTES| && StartsWith(pathname, PUBLIC_ROUTES[i])
  }

  predicate IsApi(pathname: string) {
    StartsWith(pathname, "/api")
  }

  function RedirectToLogin(pathname: string): (r: GateResponse)
    ensures r.RedirectTo? && r.path == LOGIN_PATH && r.redirect == pathname
  {
    RedirectTo(LOGIN_PATH, pathname)
  }

  function HandleUnauthorized(pathname: string): (r: GateResponse)
    ensures IsApi(pathname) ==> r == Json401(UNAUTHORIZED)
    ensures !IsApi(pathname) ==> r == RedirectToLogin(pathname)
  {
    if IsApi(pathname) then Json401(UNAUTHORIZED) else RedirectToLogin(pathname)
  }

  /** `request.cookies.get("token")?.value` */
  function TokenCookieValue(cookies: map<string, Cookie>): Option<string> {
    if TokenStore.TOKEN_COOKIE in cookies then Some(cookies[TokenStore.TOKEN_COOKIE].value) else None
  }

  /** The gate for one request; `now` is `Date.now()`. A parse failure is caught and treated as
      unauthorised. */
  function Gate(pathname: string, cookie: Option<string>, headers: Headers, now: int): (r: GateResponse)
    ensures IsPublic(pathname) ==> r == Next
    ensures r.NextWithHeaders? ==> IsApi(pathname) && LiveAdmin(cookie, now)
    ensures r.Json401? ==> IsApi(pathname) && !IsPublic(pathname)
    ensures r.RedirectTo? ==> r == RedirectToLogin(pathname) && !IsApi(pathname) && !IsPublic(pathname)
  {
    if IsPublic(pathname) then Next
    else if cookie.None? || cookie.value == "" then HandleUnauthorized(pathname)
    else match Parse(cookie.value)
      case None => HandleUnauthorized(pathname)
      case Some(d) =>
        if !IsAdmin(d.token.user_role) then HandleUnauthorized(pathname)
        else if now >= d.expires_at then
          (if IsApi(pathname) then Json401(TOKEN_EXPIRED) else RedirectToLogin(pathname))
        else if IsApi(pathname) then NextWithHeaders(WithCredentials(headers, d))
        else Next
  }

  /** `config.matcher`: every path except those right under `/_next/static`, `/_next/image`, or
      starting `/favicon?ico` where `?` is any character (the regex dot is not escaped). */
  predicate Matched(pathname: string)
    ensures Matched(pathname) ==> pathname != "" && pathname[0] == '/'
  {
    StartsWith(pathname, "/") &&
    var rest := pathname[1..];
    !StartsWith(rest, "_next/static") && !StartsWith(rest, "_next/image") &&
    !(|rest| >= 11 && rest[..7] == "favicon" && rest[8..11] == "ico")
  }

  /** What the request sees: unmatched paths never reach the gate. */
  function Route(pathname: string, cookie: Option<string>, headers: Headers, now: int): (r: GateResponse)
    ensures !Matched(pathname) ==> r == Next
    ensures r.RedirectTo? ==> r.path == LOGIN_PATH && r.redirect == pathname
  {
    if Matched(pathname) then Gate(pathname, cookie, headers, now) else Next
  }

  predicate Admitted(r: GateResponse) {
    r.Next? || r.NextWithHeaders?
  }

  /** The stored bundle the gate accepts: parsable, admin, and strictly before `expires_at`. */
  predicate LiveAdmin(cookie: Option<string>, now: int) {
    cookie.Some? && cookie.value != "" && Parse(cookie.value).Some? &&
    IsAdmin(Parse(cookie.value).value.token.user_role) && now < Parse(cookie.value).value.expires_at
  }

  // ---------------------------------------------------------------------------------------------
  // Properties

  /** Public paths pass whatever the cookie holds. */
  lemma PublicPathsPass(pathname: string, cookie: Option<string>, headers: Headers, now: int)
    requires IsPublic(pathname)
    ensures Gate(pathname, cookie, headers, now) == Next
  {
  }

  /** The three public routes and every path under them are public; the dashboard and the
      document API are not, whatever follows them. */
  lemma PublicRoutesArePublic(suffix: string)
    ensures IsPublic("/auth/login" + suffix)
    ensures IsPublic("/api/auth/tenant/token" + suffix)
    ensures IsPublic("/api/auth/refresh" + suffix)
    ensures !IsPublic("/dashboard" + suffix) && !IsPublic("/api/documents" + suffix)
  {
    assert StartsWith("/auth/login" + suffix, PUBLIC_ROUTES[0]);
    assert StartsWith("/api/auth/tenant/token" + suffix, PUBLIC_ROUTES[1]);
    assert StartsWith("/api/auth/refresh" + suffix, PUBLIC_ROUTES[2]);
    var d := "/dashboard" + suffix;
    forall i | 0 <= i < |PUBLIC_ROUTES|
      ensures !StartsWith(d, PUBLIC_ROUTES[i])
    {
      assert d[1] == 'd' && PUBLIC_ROUTES[i][1] == 'a';
      DiffersAt(d, PUBLIC_ROUTES[i], 1);
    }
    var a := "/api/documents" + suffix;
    assert a[2] == 'p' && PUBLIC_ROUTES[0][2] == 'u';
    DiffersAt(a, PUBLIC_ROUTES[0], 2);
    forall i | 1 <= i < |PUBLIC_ROUTES|
      ensures !StartsWith(a, PUBLIC_ROUTES[i])
    {
      assert a[5] == 'd' && PUBLIC_ROUTES[i][5] == 'a';
      DiffersAt(a, PUBLIC_ROUTES[i], 5);
    }
  }

  /** The gate admits exactly public paths and live admin bundles. */
  lemma AdmissionIff(pathname: string, cookie: Option<string>, headers: Headers, now: int)
    ensures Admitted(Gate(pathname, cookie, headers, now)) <==> IsPublic(pathname) || LiveAdmin(cookie, now)
  {
  }

  /** An admitted API request carries the stored credentials; an admitted page request is
      passed unchanged. */
  lemma AdmittedRequests(pathname: string, cookie: Option<string>, headers: Headers, now: int)
    requires !IsPublic(pathname) && LiveAdmin(cookie, now)
    ensures IsApi(pathname) ==> Gate(pathname, cookie, headers, now) == NextWithHeaders(WithCredentials(headers, Parse(cookie.value).value))
    ensures !IsApi(pathname) ==> Gate(pathname, cookie, headers, now) == Next
  {
  }

  /** A refused request: 401 JSON on /api paths ("Token expiré" only for an expired admin
      bundle), otherwise a redirect to the login page that remembers the path. */
  lemma RefusedRequests(pathname: string, cookie: Option<string>, headers: Headers, now: int)
    requires !IsPublic(pathname) && !LiveAdmin(cookie, now)
    ensures IsApi(pathname) ==> Gate(pathname, cookie, headers, now).Json401?
    ensures !IsApi(pathname) ==> Gate(pathname, cookie, headers, now) == RedirectTo(LOGIN_PATH, pathname)
    ensures IsApi(pathname) ==>
              (Gate(pathname, cookie, headers, now) == Json401(TOKEN_EXPIRED) <==>
               cookie.Some? && cookie.value != "" && Parse(cookie.value).Some? &&
               IsAdmin(Parse(cookie.value).value.token.user_role))
  {
  }

  /** The role is checked before the expiry: an expired non-admin bundle on an API path is
      "Non autorisé", not "Token expiré". */
  lemma RoleBeforeExpiry(pathname: string, d: TokenData, headers: Headers, now: int)
    requires !IsPublic(pathname) && IsApi(pathname)
    requires !IsAdmin(d.token.user_role) && now >= d.expires_at
    ensures Gate(pathname, Some(Serialize(d)), headers, now) == Json401(UNAUTHORIZED)
  {
    ParseSerialize(d);
  }

  /** Whenever authService.isAuthenticated holds for a jar, the gate admits a request carrying
      that jar's token cookie; inside the 60 s margin the gate still admits what the client
      already treats as expired. */
  lemma AuthenticatedIsAdmitted(cookies: map<string, Cookie>, pathname: string, headers: Headers, now: int)
    requires TokenStore.ReadSlot(cookies).Stored?
    requires IsAdmin(TokenStore.ReadSlot(cookies).data.token.user_role)
    ensures !TokenStore.IsTokenExpired(TokenStore.ReadSlot(cookies).data, now) ==>
              Admitted(Gate(pathname, TokenCookieValue(cookies), headers, now))
    ensures var d := TokenStore.ReadSlot(cookies).data;
      d.expires_at - 60000 <= now < d.expires_at ==>
        TokenStore.IsTokenExpired(d, now) && Admitted(Gate(pathname, TokenCookieValue(cookies), headers, now))
  {
    assert TokenCookieValue(cookies) == Some(cookies[TokenStore.TOKEN_COOKIE].value);
  }

  /** The matcher, for every continuation `s`: everything under `/_next/static` and
      `/_next/image`, and `/favicon` followed by any one character and `ico`, bypasses the
      gate. */
  lemma AssetsBypassTheGate(s: string, c: char, cookie: Option<string>, headers: Headers, now: int)
    ensures !Matched("/_next/static" + s) && !Matched("/_next/image" + s)
    ensures !Matched("/favicon" + [c] + "ico" + s)
    ensures Route("/_next/static" + s, cookie, headers, now) == Next
    ensures Route("/_next/image" + s, cookie, headers, now) == Next
  {
    assert ("/_next/static" + s)[1..] == "_next/static" + s;
    assert ("/_next/image" + s)[1..] == "_next/image" + s;
    var f := ("/favicon" + [c] + "ico" + s)[1..];
    assert f == "favicon" + [c] + "ico" + s;
    assert f[..7] == "favicon" && f[8..11] == "ico";
  }

  /** The root page, pages such as the dashboard, and everything under `/api`, for every
      continuation `s`, reach the gate. */
  lemma PagesReachTheGate(s: string, cookie: Option<string>, headers: Headers, now: int)
    ensures Matched("/") && Matched("/dashboard" + s) && Matched("/api" + s)
    ensures Route("/dashboard" + s, cookie, headers, now) == Gate("/dashboard" + s, cookie, headers, now)
    ensures Route("/api" + s, cookie, headers, now) == Gate("/api" + s, cookie, headers, now)
  {
    assert "/"[1..] == "";
    FirstLetterMatched("/dashboard" + s, 'd');
    FirstLetterMatched("/api" + s, 'a');
  }

  /** A path whose first segment starts with a letter other than `_` and `f` is matched. */
  lemma FirstLetterMatched(p: string, l: char)
    requires |p| >= 2 && p[0] == '/' && p[1] == l && l != '_' && l != 'f'
    ensures Matched(p)
  {
    var rest := p[1..];
    DiffersAt(rest, "_next/static", 0);
    DiffersAt(rest, "_next/image", 0);
    if |rest| >= 11 { assert rest[..7][0] == l; }
  }
}
