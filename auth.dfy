/** src/lib/auth.ts: the two interceptors installed on the global axios instance, and authService
    (login, isAuthenticated, logout). The transport and the refresh exchange are oracles. */
module AuthClient {
  import opened Common
  import opened AuthTypes
  import opened Cookies
  import opened Http
  import opened TokenStore
  import RefreshRoute

  /** The network as seen from the browser: the reply to attempt `i` of a request sent with the
      given headers, and the outcome of the `k`-th refresh exchange. */
  datatype Network<B> = Network(respond: (nat, Headers) -> Reply<B>, exchange: nat -> Exchange)

  const LOGIN_EXPIRES_IN: nat := 3600
  const LOGIN_REFRESH_EXPIRES_IN: nat := 86400

  /** The two token-service calls the interceptors make, on a jar and the outcome of the
      refresh exchange: getValidToken for the request interceptor, refreshToken for the 401
      handler. */
  datatype Service = Service(valid: (map<string, Cookie>, Exchange) -> Step, refresh: (map<string, Cookie>, Exchange) -> Step)

  /** tokenService at time `now`, whose methods GetValidToken and RefreshToken are proved
      against ValidToken and Refresh. */
  function Tokens(env: Env, now: int): (svc: Service)
    ensures forall c, ex :: svc.valid(c, ex) == ValidToken(c, env, now, ex)
    ensures forall c, ex :: svc.refresh(c, ex) == Refresh(c, env, now, ex)
  {
    Service((c, ex) => ValidToken(c, env, now, ex), (c, ex) => Refresh(c, env, now, ex))
  }

  /** The request interceptor's rewrite of a config's headers with the token step it made
      (Intercepted in the source); the pipeline below holds for any. */
  type Rewrite = (Headers, Step) -> Headers

  /** The exchanges a token step made: one when it sent a refresh token, none otherwise. */
  function Exchanges(s: Step): nat {
    if s.sent.Some? then 1 else 0
  }

  /** The headers the request interceptor leaves after the token step `s`: the bearer and,
      for a truthy tenant id, the tenant header. */
  function Intercepted(h: Headers, s: Step): (r: Headers)
    ensures s.result.None? ==> r == h
    ensures s.result.Some? ==> AUTHORIZATION in r && r[AUTHORIZATION] == Bearer(s.result.value.token.access_token)
  {
    if s.result.Some? then WithCredentials(h, s.result.value) else h
  }

  /** The request interceptor: ask the token service for a valid token (which may refresh)
      and, when there is one, attach the bearer and the tenant header to the config in place. */
  method RequestInterceptor(config: RequestConfig, jar: CookieJar, svc: Service, ex: Exchange)
    returns (step: Step)
    modifies config, jar
    ensures step == svc.valid(old(jar.cookies), ex)
    ensures jar.cookies == step.cookies
    ensures config.headers == Intercepted(old(config.headers), step)
    ensures config.retry == old(config.retry)
  {
    step := svc.valid(jar.cookies, ex);
    jar.cookies := step.cookies;
    if step.result.Some? {
      var token := step.result.value.token;
      config.headers := config.headers[AUTHORIZATION := Bearer(token.access_token)];
      if TenantIdTruthy(token.tenant_id) {
        config.headers := config.headers[TENANT_HEADER := Json.IntToString(token.tenant_id.value)];
      }
    }
  }

  /** How one request through the global instance ends: the settled promise, the headers of
      every attempt sent, the number of refresh exchanges, the jar afterwards and the config's
      `_retry` flag. */
  datatype Run<B> = Run(res: Outcome<B>, attempts: seq<Headers>, exchanges: nat, cookies: map<string, Cookie>, retry: bool)

  /** The first token step of a flow, and the 401 handler's refresh after it. */
  function FirstStep<B>(cookies: map<string, Cookie>, svc: Service, net: Network<B>, used: nat): Step {
    svc.valid(cookies, net.exchange(used))
  }

  function RenewStep<B>(cookies: map<string, Cookie>, svc: Service, net: Network<B>, used: nat): Step {
    var first := FirstStep(cookies, svc, net, used);
    svc.refresh(first.cookies, net.exchange(used + Exchanges(first)))
  }

  /** The pipeline a config goes through: the request interceptor, the transport, then the
      response interceptor. `attempt` and `used` count the requests and exchanges of this
      flow that came before. */
  function Pipeline<B>(headers: Headers, retry: bool, cookies: map<string, Cookie>, svc: Service, attach: Rewrite,
                       net: Network<B>, attempt: nat, used: nat): (run: Run<B>)
    ensures run.attempts != [] && run.attempts[0] == attach(headers, FirstStep(cookies, svc, net, used))
  {
    var first := FirstStep(cookies, svc, net, used);
    var sent := attach(headers, first);
    var after := Handle(net.respond(attempt, sent), sent, retry, first.cookies, svc, attach, net, attempt, used + Exchanges(first));
    after.(exchanges := Exchanges(first) + after.exchanges)
  }

  /** The response interceptor on the reply to headers `sent`: on a first 401 it marks the
      config `_retry`, refreshes and, given a token, re-issues the config with the new bearer
      (`axios(originalRequest)`); anything else settles with the reply. */
  function Handle<B>(reply: Reply<B>, sent: Headers, retry: bool, cookies: map<string, Cookie>, svc: Service, attach: Rewrite,
                     net: Network<B>, attempt: nat, used: nat): (run: Run<B>)
    ensures run.attempts != [] && run.attempts[0] == sent
  {
    if IsSuccess(reply) || !IsStatus(reply, 401) || retry then
      Run(Deliver(reply), [sent], 0, cookies, retry || IsStatus(reply, 401))
    else
      var renewed := svc.refresh(cookies, net.exchange(used));
      if renewed.result.None? then Run(Deliver(reply), [sent], Exchanges(renewed), renewed.cookies, true)
      else
        var again := Resend(sent[AUTHORIZATION := Bearer(renewed.result.value.token.access_token)],
                            renewed.cookies, svc, attach, net, attempt + 1, used + Exchanges(renewed));
        Run(again.res, [sent] + again.attempts, Exchanges(renewed) + again.exchanges, again.cookies, again.retry)
  }

  /** `axios(originalRequest)` on the config the 401 handler has marked: the request
      interceptor, the transport, and a response interceptor that lets the reply through
      because of the mark. MarkedConfigIsSentOnce proves it is Pipeline on a marked config. */
  function Resend<B>(headers: Headers, cookies: map<string, Cookie>, svc: Service, attach: Rewrite,
                     net: Network<B>, attempt: nat, used: nat): (r: Run<B>)
    ensures |r.attempts| == 1 && r.retry && r.res == Deliver(net.respond(attempt, r.attempts[0]))
  {
    var first := FirstStep(cookies, svc, net, used);
    var sent := attach(headers, first);
    Run(Deliver(net.respond(attempt, sent)), [sent], Exchanges(first), first.cookies, true)
  }

  /** A config already marked `_retry` goes through the pipeline once: one attempt, with what
      the request interceptor attached, settling with its reply. */
  lemma MarkedConfigIsSentOnce<B>(headers: Headers, cookies: map<string, Cookie>, svc: Service, attach: Rewrite,
                                  net: Network<B>, attempt: nat, used: nat)
    ensures Pipeline(headers, true, cookies, svc, attach, net, attempt, used) == Resend(headers, cookies, svc, attach, net, attempt, used)
  {
  }

  /** The 401 handler's branch that re-sends: after a first 401 whose refresh returned a
      token, the request settles as the marked config, with the new bearer, settles in the
      pipeline. */
  lemma HandleResends<B>(reply: Reply<B>, sent: Headers, cookies: map<string, Cookie>, svc: Service, attach: Rewrite,
                         net: Network<B>, attempt: nat, used: nat, again: Run<B>)
    requires IsStatus(reply, 401) && svc.refresh(cookies, net.exchange(used)).result.Some?
    requires var renewed := svc.refresh(cookies, net.exchange(used));
      again == Pipeline(sent[AUTHORIZATION := Bearer(renewed.result.value.token.access_token)], true,
                        renewed.cookies, svc, attach, net, attempt + 1, used + Exchanges(renewed))
    ensures var renewed := svc.refresh(cookies, net.exchange(used));
      Handle(reply, sent, false, cookies, svc, attach, net, attempt, used)
      == Run(again.res, [sent] + again.attempts, Exchanges(renewed) + again.exchanges, again.cookies, again.retry)
  {
    var renewed := svc.refresh(cookies, net.exchange(used));
    MarkedConfigIsSentOnce(sent[AUTHORIZATION := Bearer(renewed.result.value.token.access_token)],
                           renewed.cookies, svc, attach, net, attempt + 1, used + Exchanges(renewed));
  }

  /** A first 401 whose refresh returned no token settles with that 401. */
  lemma HandleGivesUp<B>(reply: Reply<B>, sent: Headers, cookies: map<string, Cookie>, svc: Service, attach: Rewrite,
                         net: Network<B>, attempt: nat, used: nat)
    requires IsStatus(reply, 401) && svc.refresh(cookies, net.exchange(used)).result.None?
    ensures var renewed := svc.refresh(cookies, net.exchange(used));
      Handle(reply, sent, false, cookies, svc, attach, net, attempt, used)
      == Run(Deliver(reply), [sent], Exchanges(renewed), renewed.cookies, true)
  {
  }

  /** Any other reply, or any reply to a marked config, settles as it is. */
  lemma HandleSettles<B>(reply: Reply<B>, sent: Headers, retry: bool, cookies: map<string, Cookie>, svc: Service,
                         attach: Rewrite, net: Network<B>, attempt: nat, used: nat)
    requires !IsStatus(reply, 401) || retry
    ensures Handle(reply, sent, retry, cookies, svc, attach, net, attempt, used)
            == Run(Deliver(reply), [sent], 0, cookies, retry || IsStatus(reply, 401))
  {
  }

  /** The pipeline is the request interceptor's step followed by the response interceptor. */
  lemma PipelineHandles<B>(headers: Headers, retry: bool, cookies: map<string, Cookie>, svc: Service, attach: Rewrite,
                           net: Network<B>, attempt: nat, used: nat, after: Run<B>)
    requires var first := FirstStep(cookies, svc, net, used);
      var sent := attach(headers, first);
      after == Handle(net.respond(attempt, sent), sent, retry, first.cookies, svc, attach, net, attempt, used + Exchanges(first))
    ensures Pipeline(headers, retry, cookies, svc, attach, net, attempt, used)
            == after.(exchanges := Exchanges(FirstStep(cookies, svc, net, used)) + after.exchanges)
  {
  }

  /** One request through the global axios instance with the token service `svc` (the
      source's is `Tokens(env, now)`), proved against Pipeline. */
  method Send<B>(config: RequestConfig, jar: CookieJar, svc: Service, net: Network<B>, attempt: nat, used: nat)
    returns (res: Outcome<B>, attempts: seq<Headers>, exchanges: nat)
    modifies config, jar
    decreases if config.retry then 0 else 1, 1
    ensures Run(res, attempts, exchanges, jar.cookies, config.retry)
            == Pipeline(old(config.headers), old(config.retry), old(jar.cookies), svc, Intercepted, net, attempt, used)
    ensures config.headers == attempts[|attempts| - 1]
  {
    var first := RequestInterceptor(config, jar, svc, net.exchange(used));
    var reply := net.respond(attempt, config.headers);
    var more;
    res, attempts, more := ResponseInterceptor(config, jar, svc, net, reply, attempt, used + Exchanges(first));
    exchanges := Exchanges(first) + more;
    PipelineHandles(old(config.headers), old(config.retry), old(jar.cookies), svc, Intercepted, net, attempt, used,
                    Run(res, attempts, more, jar.cookies, config.retry));
  }

  /** The response interceptor, proved against Handle; `config.headers` are the headers the
      reply answered. */
  method ResponseInterceptor<B>(config: RequestConfig, jar: CookieJar, svc: Service, net: Network<B>, reply: Reply<B>,
                                attempt: nat, used: nat)
    returns (res: Outcome<B>, attempts: seq<Headers>, exchanges: nat)
    modifies config, jar
    decreases if config.retry then 0 else 1, 0
    ensures Run(res, attempts, exchanges, jar.cookies, config.retry)
            == Handle(reply, old(config.headers), old(config.retry), old(jar.cookies), svc, Intercepted, net, attempt, used)
    ensures config.headers == attempts[|attempts| - 1]
  {
    attempts := [config.headers];
    if IsStatus(reply, 401) && !config.retry {
      config.retry := true;
      var renewed := svc.refresh(jar.cookies, net.exchange(used));
      jar.cookies := renewed.cookies;
      exchanges := Exchanges(renewed);
      if renewed.result.Some? {
        config.headers := config.headers[AUTHORIZATION := Bearer(renewed.result.value.token.access_token)];
        var again, attempts', exchanges' := Send(config, jar, svc, net, attempt + 1, used + exchanges);
        HandleResends(reply, attempts[0], old(jar.cookies), svc, Intercepted, net, attempt, used,
                      Run(again, attempts', exchanges', jar.cookies, config.retry));
        return again, attempts + attempts', exchanges + exchanges';
      }
      HandleGivesUp(reply, attempts[0], old(jar.cookies), svc, Intercepted, net, attempt, used);
    } else {
      exchanges := 0;
      HandleSettles(reply, attempts[0], old(config.retry), old(jar.cookies), svc, Intercepted, net, attempt, used);
    }
    config.retry := config.retry || IsStatus(reply, 401);
    res := Deliver(reply);
  }

  /** A request is sent at most twice and makes at most three refresh exchanges, because the
      401 handler's refresh is not itself retried; it settles with the reply to its last
      attempt, and ends marked `_retry` exactly when it was already or its first reply was a
      401. */
  lemma PipelineBounds<B>(headers: Headers, retry: bool, cookies: map<string, Cookie>, svc: Service, attach: Rewrite,
                          net: Network<B>, attempt: nat, used: nat)
    ensures var run := Pipeline(headers, retry, cookies, svc, attach, net, attempt, used);
      && 1 <= |run.attempts| <= (if retry then 1 else 2)
      && run.exchanges <= (if retry then 1 else 3)
      && run.res == Deliver(net.respond(attempt + |run.attempts| - 1, run.attempts[|run.attempts| - 1]))
      && run.retry == (retry || IsStatus(net.respond(attempt, run.attempts[0]), 401))
  {
  }

  /** The retry: a request is re-sent exactly when it was not yet marked, its first reply was a
      401, and the 401 handler's refresh produced a token. */
  lemma RetryIff<B>(headers: Headers, retry: bool, cookies: map<string, Cookie>, svc: Service, attach: Rewrite,
                    net: Network<B>, attempt: nat, used: nat)
    ensures var run := Pipeline(headers, retry, cookies, svc, attach, net, attempt, used);
      |run.attempts| == 2 <==>
        !retry && IsStatus(net.respond(attempt, run.attempts[0]), 401) && RenewStep(cookies, svc, net, used).result.Some?
  {
  }

  /** The second attempt carries the new bearer over the first attempt's headers, rewritten
      again by the request interceptor on the jar the refresh left; the jar ends as that
      second token call left it. */
  lemma SecondAttempt<B>(headers: Headers, cookies: map<string, Cookie>, svc: Service, attach: Rewrite,
                         net: Network<B>, attempt: nat, used: nat)
    requires |Pipeline(headers, false, cookies, svc, attach, net, attempt, used).attempts| == 2
    ensures var run := Pipeline(headers, false, cookies, svc, attach, net, attempt, used);
      var first := FirstStep(cookies, svc, net, used);
      var renewed := RenewStep(cookies, svc, net, used);
      var second := FirstStep(renewed.cookies, svc, net, used + Exchanges(first) + Exchanges(renewed));
      && renewed.result.Some?
      && run.attempts[1] == attach(run.attempts[0][AUTHORIZATION := Bearer(renewed.result.value.token.access_token)], second)
      && run.cookies == second.cookies
      && run.exchanges == Exchanges(first) + Exchanges(renewed) + Exchanges(second)
  {
  }

  /** A request sent once leaves the jar as the refresh left it after a first 401, and as the
      request interceptor left it otherwise. */
  lemma SingleAttemptJar<B>(headers: Headers, retry: bool, cookies: map<string, Cookie>, svc: Service, attach: Rewrite,
                            net: Network<B>, attempt: nat, used: nat)
    requires |Pipeline(headers, retry, cookies, svc, attach, net, attempt, used).attempts| == 1
    ensures var run := Pipeline(headers, retry, cookies, svc, attach, net, attempt, used);
      var first := FirstStep(cookies, svc, net, used);
      var renewed := RenewStep(cookies, svc, net, used);
      if !retry && IsStatus(net.respond(attempt, run.attempts[0]), 401) then
        run.cookies == renewed.cookies && run.exchanges == Exchanges(first) + Exchanges(renewed)
      else
        run.cookies == first.cookies && run.exchanges == Exchanges(first)
  {
  }

  /** When the request interceptor finds the refreshed bundle live again, the retry carries
      exactly that bundle's credentials over the first attempt's headers and makes no further
      exchange (TokenStore.RefreshedBundleIsCurrent gives the premise for the token service). */
  lemma RetryCarriesRefreshedBundle<B>(headers: Headers, cookies: map<string, Cookie>, svc: Service,
                                       net: Network<B>, attempt: nat, used: nat)
    requires IsStatus(net.respond(attempt, Intercepted(headers, FirstStep(cookies, svc, net, used))), 401)
    requires RenewStep(cookies, svc, net, used).result.Some?
    requires var renewed := RenewStep(cookies, svc, net, used);
      FirstStep(renewed.cookies, svc, net, used + Exchanges(FirstStep(cookies, svc, net, used)) + Exchanges(renewed))
      == Step(renewed.result, None, renewed.cookies)
    ensures var run := Pipeline(headers, false, cookies, svc, Intercepted, net, attempt, used);
      var renewed := RenewStep(cookies, svc, net, used);
      && |run.attempts| == 2
      && run.attempts[1] == WithCredentials(run.attempts[0], renewed.result.value)
      && run.exchanges == Exchanges(FirstStep(cookies, svc, net, used)) + Exchanges(renewed)
      && run.cookies == renewed.cookies
  {
    SecondAttempt(headers, cookies, svc, Intercepted, net, attempt, used);
    var d := RenewStep(cookies, svc, net, used).result.value;
    WithCredentialsOverridesBearer(Intercepted(headers, FirstStep(cookies, svc, net, used)), Bearer(d.token.access_token), d);
  }

  /** The token login stores: whatever lifetimes the server sent are replaced. */
  function WithLoginLifetimes(t: Token): Token {
    t.(expires_in := LOGIN_EXPIRES_IN, refresh_token_expires_in := LOGIN_REFRESH_EXPIRES_IN)
  }

  /** What `authService.login` settles with, given how its POST to /api/auth/tenant/token
      settled: a rejected POST is rethrown, a non-admin answer throws an error with no
      response, an admin answer is returned with the fixed lifetimes. */
  function LoginResult(posted: Outcome<Token>): (r: Result<Token, HttpError>)
    ensures posted.Rejected? ==> r == Err(posted.error)
    ensures posted.Resolved? && !IsAdmin(posted.body.user_role) ==> r == Err(HttpError(None))
    ensures posted.Resolved? && IsAdmin(posted.body.user_role) ==> r == Ok(WithLoginLifetimes(posted.body))
    ensures r.Ok? ==>
              IsAdmin(r.value.user_role) && r.value.expires_in == 3600 && r.value.refresh_token_expires_in == 86400
  {
    if posted.Rejected? then Err(posted.error)
    else if !IsAdmin(posted.body.user_role) then Err(HttpError(None))
    else Ok(WithLoginLifetimes(posted.body))
  }

  /** The jar after `authService.login`: only a returned token is saved. */
  function LoginCookies(cookies: map<string, Cookie>, env: Env, now: int, posted: Outcome<Token>): map<string, Cookie> {
    var r := LoginResult(posted);
    if r.Ok? then cookies[TOKEN_COOKIE := TokenCookie(Stamp(r.value, now), env)] else cookies
  }

  /** The login POST: a fresh config through the global instance, whose interceptors read and
      may rewrite the stored token with the token service at `now`. */
  function LoginRun(cookies: map<string, Cookie>, env: Env, now: int, net: Network<Token>): Run<Token> {
    Pipeline(map[], false, cookies, Tokens(env, now), Intercepted, net, 0, 0)
  }

  /** `authService.login`, proved against LoginRun, LoginResult and LoginCookies: the POST goes
      through both interceptors, then login's own writes apply to the jar they left. */
  method Login(jar: CookieJar, env: Env, now: int, net: Network<Token>) returns (r: Result<Token, HttpError>)
    modifies jar
    ensures var run := LoginRun(old(jar.cookies), env, now, net);
      r == LoginResult(run.res) && jar.cookies == LoginCookies(run.cookies, env, now, run.res)
  {
    var config := new RequestConfig(map[]);
    var posted, _, _ := Send(config, jar, Tokens(env, now), net, 0, 0);
    if posted.Rejected? {
      return Err(posted.error);
    }
    var token := posted.body;
    if !IsAdmin(token.user_role) {
      return Err(HttpError(None));
    }
    var withExpiry := WithLoginLifetimes(token);
    SaveToken(jar, env, withExpiry, now);
    r := Ok(withExpiry);
  }

  /** A failed login leaves the jar as it was; a successful one changes only the token
      cookie, to the one saveToken writes for the returned token (LoginThenRead reads it
      back). */
  lemma LoginCookiesCases(cookies: map<string, Cookie>, env: Env, now: int, posted: Outcome<Token>)
    ensures LoginResult(posted).Err? ==> LoginCookies(cookies, env, now, posted) == cookies
    ensures LoginResult(posted).Ok? ==>
              var after := LoginCookies(cookies, env, now, posted);
              && TOKEN_COOKIE in after
              && after[TOKEN_COOKIE] == TokenCookie(Stamp(LoginResult(posted).value, now), env)
              && forall k :: k != TOKEN_COOKIE ==> (k in after <==> k in cookies) && (k in cookies ==> after[k] == cookies[k])
  {
  }

  /** A wrong password with a live stored bundle: the POST carries its credentials, the 401
      handler refreshes, and a refused refresh removes the token, so the failed login leaves
      the jar without it. */
  lemma WrongPasswordRefusedRefresh(cookies: map<string, Cookie>, env: Env, now: int, net: Network<Token>)
    requires ReadSlot(cookies).Stored?
    requires !IsTokenExpired(ReadSlot(cookies).data, now) && !IsRefreshTokenExpired(ReadSlot(cookies).data, now)
    requires IsStatus(net.respond(0, WithCredentials(map[], ReadSlot(cookies).data)), 401)
    requires net.exchange(0).Refused?
    ensures var run := LoginRun(cookies, env, now, net);
      && run.attempts == [WithCredentials(map[], ReadSlot(cookies).data)]
      && LoginResult(run.res) == Err(HttpError(Some(401)))
      && LoginCookies(run.cookies, env, now, run.res) == cookies - {TOKEN_COOKIE}
  {
    var svc := Tokens(env, now);
    ValidTokenCases(cookies, env, now, net.exchange(0));
    RefreshCases(cookies, env, now, net.exchange(0));
    RetryIff(map[], false, cookies, svc, Intercepted, net, 0, 0);
    SingleAttemptJar(map[], false, cookies, svc, Intercepted, net, 0, 0);
    PipelineBounds(map[], false, cookies, svc, Intercepted, net, 0, 0);
  }

  /** The retried login of a live stored bundle whose first POST is answered 401 and whose
      refresh is issued a current bundle: two attempts, the second with the new credentials,
      and the jar the refresh left. */
  lemma LoginRetriesWithRenewedBundle(cookies: map<string, Cookie>, env: Env, now: int, net: Network<Token>)
    requires ReadSlot(cookies).Stored?
    requires !IsTokenExpired(ReadSlot(cookies).data, now) && !IsRefreshTokenExpired(ReadSlot(cookies).data, now)
    requires IsStatus(net.respond(0, WithCredentials(map[], ReadSlot(cookies).data)), 401)
    requires net.exchange(0).Issued?
    requires var d := Stamp(net.exchange(0).token, now); !IsTokenExpired(d, now) && !IsRefreshTokenExpired(d, now)
    ensures var run := LoginRun(cookies, env, now, net);
      && |run.attempts| == 2
      && run.attempts[0] == WithCredentials(map[], ReadSlot(cookies).data)
      && run.attempts[1] == WithCredentials(run.attempts[0], Stamp(net.exchange(0).token, now))
      && run.cookies == cookies[TOKEN_COOKIE := TokenCookie(Stamp(net.exchange(0).token, now), env)]
  {
    RenewedLoginSteps(cookies, env, now, net);
    RetryWithRenewedBundle(cookies, Tokens(env, now), net, ReadSlot(cookies).data);
  }

  /** The same retry for any token service that hands out `d` from `cookies` without an
      exchange, refreshes with one exchange, and hands the refreshed bundle to the retry. */
  lemma RetryWithRenewedBundle<B>(cookies: map<string, Cookie>, svc: Service, net: Network<B>, d: TokenData)
    requires FirstStep(cookies, svc, net, 0) == Step(Some(d), None, cookies)
    requires IsStatus(net.respond(0, WithCredentials(map[], d)), 401)
    requires RenewStep(cookies, svc, net, 0).result.Some? && Exchanges(RenewStep(cookies, svc, net, 0)) == 1
    requires var renewed := RenewStep(cookies, svc, net, 0);
      FirstStep(renewed.cookies, svc, net, 1) == Step(renewed.result, None, renewed.cookies)
    ensures var run := Pipeline(map[], false, cookies, svc, Intercepted, net, 0, 0);
      var renewed := RenewStep(cookies, svc, net, 0);
      && |run.attempts| == 2
      && run.attempts[0] == WithCredentials(map[], d)
      && run.attempts[1] == WithCredentials(run.attempts[0], renewed.result.value)
      && run.cookies == renewed.cookies
  {
    RetryCarriesRefreshedBundle(map[], cookies, svc, net, 0, 0);
  }

  /** The token steps of that login: the stored bundle is handed out without an exchange, the
      refresh spends the first exchange, and the retry is handed the refreshed bundle. */
  lemma RenewedLoginSteps(cookies: map<string, Cookie>, env: Env, now: int, net: Network<Token>)
    requires ReadSlot(cookies).Stored?
    requires !IsTokenExpired(ReadSlot(cookies).data, now) && !IsRefreshTokenExpired(ReadSlot(cookies).data, now)
    requires net.exchange(0).Issued?
    requires var d := Stamp(net.exchange(0).token, now); !IsTokenExpired(d, now) && !IsRefreshTokenExpired(d, now)
    ensures var svc := Tokens(env, now);
      var first := FirstStep(cookies, svc, net, 0);
      var renewed := RenewStep(cookies, svc, net, 0);
      && first == Step(Some(ReadSlot(cookies).data), None, cookies)
      && renewed.result == Some(Stamp(net.exchange(0).token, now))
      && Exchanges(renewed) == 1
      && renewed.cookies == cookies[TOKEN_COOKIE := TokenCookie(Stamp(net.exchange(0).token, now), env)]
      && FirstStep(renewed.cookies, svc, net, 1) == Step(renewed.result, None, renewed.cookies)
  {
    var ex := net.exchange(0);
    ValidTokenCases(cookies, env, now, ex);
    RefreshCases(cookies, env, now, ex);
    RefreshedBundleIsCurrent(cookies, env, now, ex, net.exchange(1));
  }

  /** A wrong password with a live stored bundle whose refresh succeeds: the login is sent
      again with the new credentials and fails again, and the failed login leaves the new
      bundle stored in place of the old one. */
  lemma WrongPasswordRenewsTheBundle(cookies: map<string, Cookie>, env: Env, now: int, net: Network<Token>)
    requires ReadSlot(cookies).Stored?
    requires !IsTokenExpired(ReadSlot(cookies).data, now) && !IsRefreshTokenExpired(ReadSlot(cookies).data, now)
    requires forall i, h :: IsStatus(net.respond(i, h), 401)
    requires net.exchange(0).Issued?
    requires var d := Stamp(net.exchange(0).token, now); !IsTokenExpired(d, now) && !IsRefreshTokenExpired(d, now)
    ensures var run := LoginRun(cookies, env, now, net);
      && |run.attempts| == 2
      && run.attempts[1] == WithCredentials(run.attempts[0], Stamp(net.exchange(0).token, now))
      && LoginResult(run.res) == Err(HttpError(Some(401)))
      && LoginCookies(run.cookies, env, now, run.res)
         == cookies[TOKEN_COOKIE := TokenCookie(Stamp(net.exchange(0).token, now), env)]
  {
    LoginRetriesWithRenewedBundle(cookies, env, now, net);
    PipelineBounds(map[], false, cookies, Tokens(env, now), Intercepted, net, 0, 0);
    var run := LoginRun(cookies, env, now, net);
    assert IsStatus(net.respond(1, run.attempts[1]), 401);
    LoginCookiesCases(run.cookies, env, now, run.res);
  }

  /** A stored bundle whose refresh token is dead: the request interceptor removes it before the
      POST is sent, so the POST carries no credentials and a failed login leaves no token. */
  lemma DeadRefreshTokenIsDroppedByLogin(cookies: map<string, Cookie>, env: Env, now: int, net: Network<Token>)
    requires ReadSlot(cookies).Stored? && IsRefreshTokenExpired(ReadSlot(cookies).data, now)
    ensures var run := LoginRun(cookies, env, now, net);
      && run.attempts == [map[]]
      && (LoginResult(run.res).Err? ==> LoginCookies(run.cookies, env, now, run.res) == cookies - {TOKEN_COOKIE})
  {
    var svc := Tokens(env, now);
    var first := ValidToken(cookies, env, now, net.exchange(0));
    ValidTokenCases(cookies, env, now, net.exchange(0));
    RemoveThenRead(cookies);
    RefreshCases(first.cookies, env, now, net.exchange(0));
    RetryIff(map[], false, cookies, svc, Intercepted, net, 0, 0);
    SingleAttemptJar(map[], false, cookies, svc, Intercepted, net, 0, 0);
  }

  /** Right after an admin login the stored bundle is the returned token, stamped with one hour
      and one day, and it is live. */
  lemma LoginThenRead(cookies: map<string, Cookie>, env: Env, t: Token, now: int)
    requires IsAdmin(t.user_role)
    ensures var d := Stamp(WithLoginLifetimes(t), now);
      && ReadSlot(cookies[TOKEN_COOKIE := TokenCookie(d, env)]) == Stored(d)
      && d.token.user_role == t.user_role && d.token.tenant_slug == t.tenant_slug
      && d.expires_at == now + 3600000 && d.refresh_token_expires_at == now + 86400000
      && d.expires_at > now && !IsTokenExpired(d, now)
  {
    SaveThenRead(cookies, env, WithLoginLifetimes(t), now);
  }

  /** `authService.isAuthenticated`: a stored admin bundle whose access token is outside the
      margin. Reading may drop a malformed cookie. */
  method IsAuthenticated(jar: CookieJar, now: int) returns (b: bool)
    modifies jar
    ensures var slot := ReadSlot(old(jar.cookies));
      b <==> slot.Stored? && IsAdmin(slot.data.token.user_role) && !IsTokenExpired(slot.data, now)
    ensures jar.cookies == AfterRead(old(jar.cookies))
  {
    var token := GetToken(jar);
    b := token.Some? && IsAdmin(token.value.token.user_role) && !IsTokenExpired(token.value, now);
  }

  /** `authService.logout`: the token is removed and the browser is sent to the login page. */
  method Logout(jar: CookieJar) returns (location: string)
    modifies jar
    ensures jar.cookies == old(jar.cookies) - {TOKEN_COOKIE}
    ensures ReadSlot(jar.cookies) == Empty
    ensures location == LOGIN_PATH
  {
    RemoveToken(jar);
    location := LOGIN_PATH;
  }

  // ---------------------------------------------------------------------------------------------
  // getValidToken as the source dispatches it. tokenService posts the refresh through the same
  // global axios instance that carries the request interceptor above, so the refresh request
  // first awaits that interceptor, which calls getValidToken again on the unchanged cookie.

  /** Whether a chain of promises has settled within `fuel` nested refresh requests. */
  datatype Settlement<T> = Settled(value: T) | Unsettled

  /** getValidToken and refreshToken with the re-entry written out; once a nested call has
      settled, the refresh ends as `svc.refresh` does (the source's service is Tokens). */
  function InterceptedValidToken(fuel: nat, cookies: map<string, Cookie>, svc: Service, now: int, ex: Exchange)
    : Settlement<Option<TokenData>>
    decreases fuel, 1
  {
    match ReadSlot(cookies)
    case Stored(d) =>
      if IsRefreshTokenExpired(d, now) then Settled(None)
      else if IsTokenExpired(d, now) then InterceptedRefresh(fuel, cookies, svc, now, ex)
      else Settled(Some(d))
    case _ => Settled(None)
  }

  function InterceptedRefresh(fuel: nat, cookies: map<string, Cookie>, svc: Service, now: int, ex: Exchange)
    : Settlement<Option<TokenData>>
    decreases fuel, 0
  {
    match ReadSlot(cookies)
    case Stored(d) =>
      if IsRefreshTokenExpired(d, now) then Settled(None)
      else if fuel == 0 then Unsettled
      else (
        match InterceptedValidToken(fuel - 1, cookies, svc, now, ex)
        case Unsettled => Unsettled
        case Settled(_) => Settled(svc.refresh(cookies, ex).result))
    case _ => Settled(None)
  }

  /** As written, an access token inside its margin with a live refresh token never settles:
      every refresh request waits for a getValidToken that starts another refresh request. */
  lemma {:induction false} InterceptedRefreshNeverSettles(fuel: nat, cookies: map<string, Cookie>, svc: Service, now: int, ex: Exchange)
    requires ReadSlot(cookies).Stored?
    requires IsTokenExpired(ReadSlot(cookies).data, now) && !IsRefreshTokenExpired(ReadSlot(cookies).data, now)
    ensures InterceptedRefresh(fuel, cookies, svc, now, ex) == Unsettled
    decreases fuel
  {
    if fuel > 0 {
      InterceptedRefreshNeverSettles(fuel - 1, cookies, svc, now, ex);
      assert InterceptedValidToken(fuel - 1, cookies, svc, now, ex) == Unsettled;
    }
  }

  /** The same for the request interceptor's getValidToken on that bundle. */
  lemma InterceptedValidTokenNeverSettles(fuel: nat, cookies: map<string, Cookie>, svc: Service, now: int, ex: Exchange)
    requires ReadSlot(cookies).Stored?
    requires IsTokenExpired(ReadSlot(cookies).data, now) && !IsRefreshTokenExpired(ReadSlot(cookies).data, now)
    ensures InterceptedValidToken(fuel, cookies, svc, now, ex) == Unsettled
  {
    InterceptedRefreshNeverSettles(fuel, cookies, svc, now, ex);
  }

  /** The concrete case: a login at time T, then any request 3541 s later (inside the one-minute
      margin of the one-hour token, well before the one-day refresh expiry). */
  lemma RequestAfterFiftyNineMinutesHangs(t: Token, issuedAt: int, env: Env, fuel: nat, ex: Exchange)
    requires IsAdmin(t.user_role)
    ensures var cookies := map[TOKEN_COOKIE := TokenCookie(Stamp(WithLoginLifetimes(t), issuedAt), env)];
      InterceptedValidToken(fuel, cookies, Tokens(env, issuedAt + 3541000), issuedAt + 3541000, ex) == Unsettled
  {
    var cookies := map[TOKEN_COOKIE := TokenCookie(Stamp(WithLoginLifetimes(t), issuedAt), env)];
    LoginThenRead(map[], env, t, issuedAt);
    var d := ReadSlot(cookies).data;
    assert IsTokenExpired(d, issuedAt + 3541000) && !IsRefreshTokenExpired(d, issuedAt + 3541000);
    InterceptedValidTokenNeverSettles(fuel, cookies, Tokens(env, issuedAt + 3541000), issuedAt + 3541000, ex);
  }

  // ---------------------------------------------------------------------------------------------
  // refreshToken as the source dispatches its POST. The 401 handler skips only a config it
  // has already marked, and each refreshToken posts a fresh config, so a refresh answered 401
  // (the refresh route forwards the backend's status) starts a nested refreshToken. The token
  // cookie is removed only once a catch runs, so every nested call finds the same bundle.

  /** Whether refreshToken, as written, settles within `fuel` nested refreshes, when the
      `k`-th refresh POST, in the order they are sent, is answered with status `status(k)`.
      Each POST first waits for the request interceptor (InterceptedValidToken). Any other
      answer settles: a 2xx saves the new bundle, another error takes the catch, and a nested
      call that settles lets the handler re-send or reject the marked POST, which then settles. */
  function RefreshSettlesAsWritten(fuel: nat, cookies: map<string, Cookie>, svc: Service, now: int, ex: Exchange,
                                   status: nat -> int, k: nat): bool
    decreases fuel
  {
    match ReadSlot(cookies)
    case Stored(d) =>
      if IsRefreshTokenExpired(d, now) then true
      else
        InterceptedValidToken(fuel, cookies, svc, now, ex).Settled? &&
        (status(k) != 401 || (fuel > 0 && RefreshSettlesAsWritten(fuel - 1, cookies, svc, now, ex, status, k + 1)))
    case _ => true
  }

  /** As written, a live refresh token that the backend refuses with 401 never settles: each
      refused refresh POST is handed back to the 401 handler, which starts another refresh. */
  lemma {:induction false} RefusedRefreshNeverSettles(fuel: nat, cookies: map<string, Cookie>, svc: Service, now: int,
                                                      ex: Exchange, status: nat -> int, k: nat)
    requires ReadSlot(cookies).Stored? && !IsRefreshTokenExpired(ReadSlot(cookies).data, now)
    requires forall j :: status(j) == 401
    ensures !RefreshSettlesAsWritten(fuel, cookies, svc, now, ex, status, k)
    decreases fuel
  {
    if IsTokenExpired(ReadSlot(cookies).data, now) {
      InterceptedValidTokenNeverSettles(fuel, cookies, svc, now, ex);
    } else if fuel > 0 {
      RefusedRefreshNeverSettles(fuel - 1, cookies, svc, now, ex, status, k + 1);
    }
  }

  /** The concrete case: a bundle whose refresh token the backend has revoked, behind the
      refresh route, which forwards the backend's 401 to the browser. */
  lemma RevokedRefreshTokenHangs(fuel: nat, cookies: map<string, Cookie>, env: Env, now: int, ex: Exchange,
                                 detail: Option<string>)
    requires ReadSlot(cookies).Stored? && !IsRefreshTokenExpired(ReadSlot(cookies).data, now)
    ensures var req := RefreshTokenRequest(ReadSlot(cookies).data.token.refresh_token);
      var status := (j: nat) => RefreshRoute.Post<Token>(env, Some(req), Failed(401, detail)).response.status;
      !RefreshSettlesAsWritten(fuel, cookies, Tokens(env, now), now, ex, status, 0)
  {
    var req := RefreshTokenRequest(ReadSlot(cookies).data.token.refresh_token);
    var status := (j: nat) => RefreshRoute.Post<Token>(env, Some(req), Failed(401, detail)).response.status;
    assert forall j :: status(j) == 401;
    RefusedRefreshNeverSettles(fuel, cookies, Tokens(env, now), now, ex, status, 0);
  }
}
