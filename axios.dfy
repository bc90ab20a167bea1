/** src/lib/axios.ts: the dedicated axios instance, whose interceptors read the "session"
    cookie (not the "token" cookie) and never retry. */
module ApiClient {
  import opened Common
  import opened AuthTypes
  import opened Cookies
  import opened Http
  import opened Session
  import TokenStore

  /** The headers the request interceptor leaves on a config: the credentials of the session
      when it holds a non-empty access token, the original headers otherwise. */
  function RequestHeaders(h: Headers, cookies: map<string, Cookie>): Headers {
    var s := ReadSession(cookies);
    if s.Some? && s.value.token.access_token != "" then WithCredentials(h, s.value) else h
  }

  /** The jar after the response interceptor: a 401 deletes the session, nothing else does. */
  function ResponseCookies<B>(cookies: map<string, Cookie>, reply: Reply<B>): map<string, Cookie> {
    if IsStatus(reply, 401) then cookies - {SESSION_COOKIE} else cookies
  }

  method RequestInterceptor(config: RequestConfig, jar: CookieJar)
    modifies config
    ensures config.headers == RequestHeaders(old(config.headers), jar.cookies)
    ensures config.retry == old(config.retry)
  {
    var session := GetSession(jar);
    if session.Some? && session.value.token.access_token != "" {
      config.headers := config.headers[AUTHORIZATION := Bearer(session.value.token.access_token)];
      if TenantIdTruthy(session.value.token.tenant_id) {
        config.headers := config.headers[TENANT_HEADER := Json.IntToString(session.value.token.tenant_id.value)];
      }
    }
  }

  /** The response interceptor: a success passes through; every failure is rejected, and a 401
      first deletes the session and, in a browser, navigates to the login page. */
  method ResponseInterceptor<B>(jar: CookieJar, env: Env, reply: Reply<B>) returns (res: Outcome<B>, navigate: Option<string>)
    modifies jar
    ensures res == Deliver(reply)
    ensures jar.cookies == ResponseCookies(old(jar.cookies), reply)
    ensures navigate == if IsStatus(reply, 401) && env.inBrowser then Some(LOGIN_PATH) else None
  {
    navigate := None;
    if IsStatus(reply, 401) {
      DeleteSession(jar);
      if env.inBrowser {
        navigate := Some(LOGIN_PATH);
      }
    }
    res := Deliver(reply);
  }

  /** A request through the instance: exactly one send, with the session's credentials. */
  method Send<B>(config: RequestConfig, jar: CookieJar, env: Env, respond: Headers -> Reply<B>)
    returns (res: Outcome<B>, sent: Headers, navigate: Option<string>)
    modifies config, jar
    ensures sent == RequestHeaders(old(config.headers), old(jar.cookies))
    ensures res == Deliver(respond(sent))
    ensures jar.cookies == ResponseCookies(old(jar.cookies), respond(sent))
    ensures navigate.Some? <==> IsStatus(respond(sent), 401) && env.inBrowser
  {
    RequestInterceptor(config, jar);
    sent := config.headers;
    res, navigate := ResponseInterceptor(jar, env, respond(sent));
  }

  // ---------------------------------------------------------------------------------------------
  // Properties

  /** A session written by createSession with a non-empty access token supplies exactly its
      credentials; without a session the headers are untouched. */
  lemma CreatedSessionAuthorizes(cookies: map<string, Cookie>, env: Env, d: TokenData, h: Headers)
    ensures d.token.access_token != "" ==>
              RequestHeaders(h, cookies[SESSION_COOKIE := SessionCookie(d, env)]) == WithCredentials(h, d)
    ensures d.token.access_token == "" ==>
              RequestHeaders(h, cookies[SESSION_COOKIE := SessionCookie(d, env)]) == h
    ensures RequestHeaders(h, cookies - {SESSION_COOKIE}) == h
  {
    var written := cookies[SESSION_COOKIE := SessionCookie(d, env)];
    CreateThenRead(cookies, env, d);
    SessionCredentials(h, written, d);
    DeleteThenRead(cookies);
  }

  lemma SessionCredentials(h: Headers, cookies: map<string, Cookie>, d: TokenData)
    requires ReadSession(cookies) == Some(d)
    ensures RequestHeaders(h, cookies) == if d.token.access_token != "" then WithCredentials(h, d) else h
  {
  }

  /** After a 401 the next request through the instance carries no session credentials, while
      the token cookie the gate and authService read is left as it was. */
  lemma UnauthorizedDetachesOnlyTheSession<B>(cookies: map<string, Cookie>, reply: Reply<B>, h: Headers)
    requires IsStatus(reply, 401)
    ensures ReadSession(ResponseCookies(cookies, reply)) == None
    ensures RequestHeaders(h, ResponseCookies(cookies, reply)) == h
    ensures TokenStore.ReadSlot(ResponseCookies(cookies, reply)) == TokenStore.ReadSlot(cookies)
  {
    DeleteThenRead(cookies);
    StoresAreSeparate(cookies, Cookie("", "/", 0, false, Lax));
  }

  /** Any other reply leaves the jar alone. */
  lemma OtherRepliesKeepTheJar<B>(cookies: map<string, Cookie>, reply: Reply<B>)
    requires !IsStatus(reply, 401)
    ensures ResponseCookies(cookies, reply) == cookies
  {
  }
}
