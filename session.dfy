/** src/lib/session.ts: a second store for the same TokenData, in the "session" cookie, with
    expiry tests that have no margin. Unlike the token service, reading never deletes. */
module Session {
  import opened Common
  import opened AuthTypes
  import opened Cookies
  import TokenStore

  const SESSION_COOKIE: string := "session"

  /** Seven days in seconds. Declared by the source and read by nothing. */
  const MAX_AGE: int := 7 * 24 * 60 * 60

  /** The session cookie: JSON text, path "/", expiring with the refresh token, secure in
      production, same-site lax. */
  function SessionCookie(d: TokenData, env: Env): Cookie {
    Cookie(Serialize(d), "/", d.refresh_token_expires_at, env.production, Lax)
  }

  /** What getSession returns for a jar: null for an absent, empty or malformed cookie. */
  function ReadSession(cookies: map<string, Cookie>): Option<TokenData> {
    if SESSION_COOKIE !in cookies || cookies[SESSION_COOKIE].value == "" then None
    else Parse(cookies[SESSION_COOKIE].value)
  }

  method CreateSession(jar: CookieJar, env: Env, d: TokenData)
    modifies jar
    ensures jar.cookies == old(jar.cookies)[SESSION_COOKIE := SessionCookie(d, env)]
  {
    jar.Set(SESSION_COOKIE, SessionCookie(d, env));
  }

  /** Reads the session and changes nothing, a malformed cookie included. */
  method GetSession(jar: CookieJar) returns (r: Option<TokenData>)
    ensures r == ReadSession(jar.cookies)
  {
    var raw := jar.Get(SESSION_COOKIE);
    if raw.None? || raw.value == "" {
      return None;
    }
    r := Parse(raw.value);
  }

  /** `updateSession` is `createSession`. */
  method UpdateSession(jar: CookieJar, env: Env, d: TokenData)
    modifies jar
    ensures jar.cookies == old(jar.cookies)[SESSION_COOKIE := SessionCookie(d, env)]
  {
    CreateSession(jar, env, d);
  }

  method DeleteSession(jar: CookieJar)
    modifies jar
    ensures jar.cookies == old(jar.cookies) - {SESSION_COOKIE}
  {
    jar.Remove(SESSION_COOKIE);
  }

  predicate IsTokenExpired(d: TokenData, now: int) {
    now >= d.expires_at
  }

  predicate IsRefreshTokenExpired(d: TokenData, now: int) {
    now >= d.refresh_token_expires_at
  }

  // ---------------------------------------------------------------------------------------------
  // Properties

  /** Round trip: getSession after createSession returns the stored TokenData. */
  lemma CreateThenRead(cookies: map<string, Cookie>, env: Env, d: TokenData)
    ensures ReadSession(cookies[SESSION_COOKIE := SessionCookie(d, env)]) == Some(d)
    ensures SessionCookie(d, env).expires == d.refresh_token_expires_at && SessionCookie(d, env).path == "/"
  {
    ParseSerialize(d);
    assert Serialize(d) != "";
  }

  /** After deleteSession the session reads as absent; deleting twice is deleting once. */
  lemma DeleteThenRead(cookies: map<string, Cookie>)
    ensures ReadSession(cookies - {SESSION_COOKIE}) == None
    ensures (cookies - {SESSION_COOKIE}) - {SESSION_COOKIE} == cookies - {SESSION_COOKIE}
  {
  }

  /** The two stores use different cookies: writing or deleting one never changes what the other
      reads. */
  lemma StoresAreSeparate(cookies: map<string, Cookie>, c: Cookie)
    ensures SESSION_COOKIE != TokenStore.TOKEN_COOKIE
    ensures ReadSession(cookies[TokenStore.TOKEN_COOKIE := c]) == ReadSession(cookies)
    ensures ReadSession(cookies - {TokenStore.TOKEN_COOKIE}) == ReadSession(cookies)
    ensures TokenStore.ReadSlot(cookies[SESSION_COOKIE := c]) == TokenStore.ReadSlot(cookies)
    ensures TokenStore.ReadSlot(cookies - {SESSION_COOKIE}) == TokenStore.ReadSlot(cookies)
  {
    assert SESSION_COOKIE != TokenStore.TOKEN_COOKIE by {
      assert SESSION_COOKIE[0] != TokenStore.TOKEN_COOKIE[0];
    }
  }

  /** The session's strict test implies the token service's margin test, never the reverse
      inside the 60 s margin. */
  lemma StrictAndMarginExpiry(d: TokenData, now: int)
    ensures IsTokenExpired(d, now) ==> TokenStore.IsTokenExpired(d, now)
    ensures d.expires_at - 60000 <= now < d.expires_at ==> TokenStore.IsTokenExpired(d, now) && !IsTokenExpired(d, now)
    ensures IsRefreshTokenExpired(d, now) <==> TokenStore.IsRefreshTokenExpired(d, now)
  {
  }
}
