/** `tokenService` of src/lib/token.ts: the token bundle kept in the "token" cookie, its two expiry
    tests, and the refresh decision. The jar's contents are specified by functions on the cookie
    map (ReadSlot, Refresh, ValidToken); the methods that change the jar are proved against them. */
module TokenStore {
  import opened Common
  import opened AuthTypes
  import opened Cookies

  const TOKEN_COOKIE: string := "token"

  /** Seconds before the literal expiry at which the access token already counts as expired. */
  const REFRESH_THRESHOLD: int := 60

  /** saveToken's conversion of relative lifetimes (seconds) into absolute timestamps (ms). */
  function Stamp(t: Token, now: int): (d: TokenData)
    ensures d.token == t
  {
    TokenData(t, now + t.expires_in * 1000, now + t.refresh_token_expires_in * 1000)
  }

  /** The cookie saveToken writes: the JSON text, path "/", deleted by the browser at the refresh
      token's expiry, secure in production, same-site strict. */
  function TokenCookie(d: TokenData, env: Env): Cookie {
    Cookie(Serialize(d), "/", d.refresh_token_expires_at, env.production, Strict)
  }

  /** What getToken finds in the "token" slot. */
  datatype Slot = Empty | Malformed | Stored(data: TokenData)

  function ReadSlot(cookies: map<string, Cookie>): Slot {
    if TOKEN_COOKIE !in cookies || cookies[TOKEN_COOKIE].value == "" then Empty
    else
      match Parse(cookies[TOKEN_COOKIE].value)
      case None => Malformed
      case Some(d) => Stored(d)
  }

  function Current(s: Slot): Option<TokenData> {
    if s.Stored? then Some(s.data) else None
  }

  /** The jar after getToken: a malformed slot is removed, anything else stays. */
  function AfterRead(cookies: map<string, Cookie>): map<string, Cookie> {
    if ReadSlot(cookies).Malformed? then cookies - {TOKEN_COOKIE} else cookies
  }

  predicate IsTokenExpired(d: TokenData, now: int) {
    now >= d.expires_at - REFRESH_THRESHOLD * 1000
  }

  predicate IsRefreshTokenExpired(d: TokenData, now: int) {
    now >= d.refresh_token_expires_at
  }

  /** How the POST to /api/auth/refresh ends: a new bundle, or any failure. */
  datatype Exchange = Issued(token: Token) | Refused

  /** The result of refreshToken / getValidToken, the refresh token sent to the exchange (None
      when no exchange was made), and the jar afterwards. */
  datatype Step = Step(result: Option<TokenData>, sent: Option<string>, cookies: map<string, Cookie>)

  function Refresh(cookies: map<string, Cookie>, env: Env, now: int, ex: Exchange): Step {
    match ReadSlot(cookies)
    case Stored(d) =>
      if IsRefreshTokenExpired(d, now) then Step(None, None, cookies - {TOKEN_COOKIE})
      else (
        match ex
        case Issued(t) =>
          var saved := cookies[TOKEN_COOKIE := TokenCookie(Stamp(t, now), env)];
          Step(Current(ReadSlot(saved)), Some(d.token.refresh_token), saved)
        case Refused => Step(None, Some(d.token.refresh_token), cookies - {TOKEN_COOKIE}))
    case _ => Step(None, None, cookies - {TOKEN_COOKIE})
  }

  function ValidToken(cookies: map<string, Cookie>, env: Env, now: int, ex: Exchange): Step {
    match ReadSlot(cookies)
    case Empty => Step(None, None, cookies)
    case Malformed => Step(None, None, cookies - {TOKEN_COOKIE})
    case Stored(d) =>
      if IsRefreshTokenExpired(d, now) then Step(None, None, cookies - {TOKEN_COOKIE})
      else if IsTokenExpired(d, now) then Refresh(cookies, env, now, ex)
      else Step(Some(d), None, cookies)
  }

  // ---------------------------------------------------------------------------------------------
  // The service's operations on the jar

  method SaveToken(jar: CookieJar, env: Env, t: Token, now: int)
    modifies jar
    ensures jar.cookies == old(jar.cookies)[TOKEN_COOKIE := TokenCookie(Stamp(t, now), env)]
  {
    var data := Stamp(t, now);
    jar.Set(TOKEN_COOKIE, TokenCookie(data, env));
  }

  method GetToken(jar: CookieJar) returns (r: Option<TokenData>)
    modifies jar
    ensures r == Current(ReadSlot(old(jar.cookies)))
    ensures jar.cookies == AfterRead(old(jar.cookies))
  {
    var raw := jar.Get(TOKEN_COOKIE);
    if raw.None? || raw.value == "" {
      return None;
    }
    r := Parse(raw.value);
    if r.None? {
      RemoveToken(jar);
    }
  }

  method RemoveToken(jar: CookieJar)
    modifies jar
    ensures jar.cookies == old(jar.cookies) - {TOKEN_COOKIE}
  {
    jar.Remove(TOKEN_COOKIE);
  }

  method RefreshToken(jar: CookieJar, env: Env, now: int, ex: Exchange) returns (r: Option<TokenData>, sent: Option<string>)
    modifies jar
    ensures Step(r, sent, jar.cookies) == Refresh(old(jar.cookies), env, now, ex)
  {
    ghost var before := jar.cookies;
    var current := GetToken(jar);
    if current.None? || IsRefreshTokenExpired(current.value, now) {
      RemoveToken(jar);
      assert jar.cookies == before - {TOKEN_COOKIE};
      return None, None;
    }
    assert ReadSlot(before) == Stored(current.value) && jar.cookies == before;
    sent := Some(current.value.token.refresh_token);
    match ex
    case Issued(t) =>
      SaveToken(jar, env, t, now);
      SaveThenRead(before, env, t, now);
      r := GetToken(jar);
    case Refused =>
      RemoveToken(jar);
      r := None;
  }

  method GetValidToken(jar: CookieJar, env: Env, now: int, ex: Exchange) returns (r: Option<TokenData>, sent: Option<string>)
    modifies jar
    ensures Step(r, sent, jar.cookies) == ValidToken(old(jar.cookies), env, now, ex)
  {
    var token := GetToken(jar);
    if token.None? {
      return None, None;
    }
    if IsRefreshTokenExpired(token.value, now) {
      RemoveToken(jar);
      return None, None;
    }
    if IsTokenExpired(token.value, now) {
      r, sent := RefreshToken(jar, env, now, ex);
      return;
    }
    return token, None;
  }

  // ---------------------------------------------------------------------------------------------
  // Properties

  /** saveToken keeps every field of the Token and derives both timestamps from `now`; a refresh
      lifetime longer than the access lifetime gives a later refresh expiry. The cookie expires
      with the refresh token, on path "/", same-site strict, secure exactly in production. */
  lemma StampTimestamps(t: Token, now: int, env: Env)
    ensures Stamp(t, now).token == t
    ensures Stamp(t, now).expires_at - now == t.expires_in * 1000
    ensures Stamp(t, now).refresh_token_expires_at - now == t.refresh_token_expires_in * 1000
    ensures t.refresh_token_expires_in > t.expires_in ==>
              Stamp(t, now).refresh_token_expires_at > Stamp(t, now).expires_at
    ensures TokenCookie(Stamp(t, now), env).expires == Stamp(t, now).refresh_token_expires_at
    ensures TokenCookie(Stamp(t, now), env).path == "/" && TokenCookie(Stamp(t, now), env).sameSite == Strict
    ensures TokenCookie(Stamp(t, now), env).secure <==> env.production
  {
  }

  /** Round trip: getToken after saveToken yields exactly the saved TokenData. */
  lemma SaveThenRead(cookies: map<string, Cookie>, env: Env, t: Token, now: int)
    ensures ReadSlot(cookies[TOKEN_COOKIE := TokenCookie(Stamp(t, now), env)]) == Stored(Stamp(t, now))
  {
    var d := Stamp(t, now);
    ParseSerialize(d);
    assert Serialize(d) != "";
  }

  /** After removeToken the slot reads as absent, and removing twice is removing once. */
  lemma RemoveThenRead(cookies: map<string, Cookie>)
    ensures ReadSlot(cookies - {TOKEN_COOKIE}) == Empty
    ensures (cookies - {TOKEN_COOKIE}) - {TOKEN_COOKIE} == cookies - {TOKEN_COOKIE}
  {
  }

  /** getToken changes nothing unless the stored text is malformed, and then only drops it. */
  lemma ReadOnlyDropsMalformed(cookies: map<string, Cookie>)
    ensures ReadSlot(cookies).Malformed? <==> AfterRead(cookies) != cookies
    ensures ReadSlot(AfterRead(cookies)) == (if ReadSlot(cookies).Malformed? then Empty else ReadSlot(cookies))
  {
    if ReadSlot(cookies).Malformed? {
      assert TOKEN_COOKIE in cookies && TOKEN_COOKIE !in AfterRead(cookies);
    }
  }

  /** The margin test is monotone in time and is implied by the strict test `now >= expires_at`. */
  lemma ExpiryMonotone(d: TokenData, now: int, later: int)
    requires now <= later
    ensures IsTokenExpired(d, now) ==> IsTokenExpired(d, later)
    ensures IsRefreshTokenExpired(d, now) ==> IsRefreshTokenExpired(d, later)
    ensures now >= d.expires_at ==> IsTokenExpired(d, now)
  {
  }

  /** A bundle issued at T with a one-hour lifetime is live at T+3000 s, and expired (inside the
      60 s margin) at T+3541 s and at T+3600 s. */
  lemma OneHourLifetime(t: Token, issuedAt: int)
    requires t.expires_in == 3600
    ensures !IsTokenExpired(Stamp(t, issuedAt), issuedAt + 3000 * 1000)
    ensures IsTokenExpired(Stamp(t, issuedAt), issuedAt + 3541 * 1000)
    ensures IsTokenExpired(Stamp(t, issuedAt), issuedAt + 3600 * 1000)
  {
  }

  /** refreshToken: no exchange without a live refresh token, the slot emptied on every failure,
      and on success the new bundle saved and returned as read back. */
  lemma RefreshCases(cookies: map<string, Cookie>, env: Env, now: int, ex: Exchange)
    ensures var s := Refresh(cookies, env, now, ex);
      && (s.sent.None? <==> (!ReadSlot(cookies).Stored? || IsRefreshTokenExpired(ReadSlot(cookies).data, now)))
      && (s.sent.Some? ==> s.sent.value == ReadSlot(cookies).data.token.refresh_token)
      && (s.result.None? ==> s.cookies == cookies - {TOKEN_COOKIE} && ReadSlot(s.cookies) == Empty)
      && (s.sent.Some? && ex.Issued? ==>
            s.result == Some(Stamp(ex.token, now)) &&
            s.cookies == cookies[TOKEN_COOKIE := TokenCookie(Stamp(ex.token, now), env)])
      && (s.result.Some? ==> s.sent.Some? && ex.Issued?)
  {
    if ReadSlot(cookies).Stored? && !IsRefreshTokenExpired(ReadSlot(cookies).data, now) && ex.Issued? {
      SaveThenRead(cookies, env, ex.token, now);
    }
  }

  /** getValidToken: absent gives null with no write; a dead refresh token empties the slot; an
      expired access token is refreshed; a live bundle is returned with no write. */
  lemma ValidTokenCases(cookies: map<string, Cookie>, env: Env, now: int, ex: Exchange)
    ensures ReadSlot(cookies).Empty? ==> ValidToken(cookies, env, now, ex) == Step(None, None, cookies)
    ensures ReadSlot(cookies).Malformed? ==> ValidToken(cookies, env, now, ex) == Step(None, None, cookies - {TOKEN_COOKIE})
    ensures ReadSlot(cookies).Stored? ==>
      var d := ReadSlot(cookies).data;
      && (IsRefreshTokenExpired(d, now) ==> ValidToken(cookies, env, now, ex) == Step(None, None, cookies - {TOKEN_COOKIE}))
      && (!IsRefreshTokenExpired(d, now) && IsTokenExpired(d, now) ==>
            ValidToken(cookies, env, now, ex) == Refresh(cookies, env, now, ex))
      && (!IsRefreshTokenExpired(d, now) && !IsTokenExpired(d, now) ==>
            ValidToken(cookies, env, now, ex) == Step(Some(d), None, cookies))
  {
  }

  /** When the access token needs renewal, getValidToken makes exactly one exchange, with the
      stored refresh token, and settles: with the new bundle, or with null and an empty slot. */
  lemma ValidTokenSettlesWithOneExchange(cookies: map<string, Cookie>, env: Env, now: int, ex: Exchange)
    requires ReadSlot(cookies).Stored?
    requires IsTokenExpired(ReadSlot(cookies).data, now) && !IsRefreshTokenExpired(ReadSlot(cookies).data, now)
    ensures ValidToken(cookies, env, now, ex).sent == Some(ReadSlot(cookies).data.token.refresh_token)
    ensures ex.Issued? ==> ValidToken(cookies, env, now, ex).result == Some(Stamp(ex.token, now))
    ensures ex.Refused? ==> ValidToken(cookies, env, now, ex).result == None &&
                             ReadSlot(ValidToken(cookies, env, now, ex).cookies) == Empty
  {
    RefreshCases(cookies, env, now, ex);
  }

  /** A refresh that exchanged a live refresh token for a bundle that is live on both counts
      leaves it current: the next getValidToken returns it with no exchange and no write. */
  lemma RefreshedBundleIsCurrent(cookies: map<string, Cookie>, env: Env, now: int, ex: Exchange, next: Exchange)
    requires ReadSlot(cookies).Stored? && !IsRefreshTokenExpired(ReadSlot(cookies).data, now) && ex.Issued?
    requires !IsTokenExpired(Stamp(ex.token, now), now) && !IsRefreshTokenExpired(Stamp(ex.token, now), now)
    ensures var s := Refresh(cookies, env, now, ex);
      ValidToken(s.cookies, env, now, next) == Step(s.result, None, s.cookies)
  {
    RefreshCases(cookies, env, now, ex);
    SaveThenRead(cookies, env, ex.token, now);
  }

  /** Whatever getValidToken returns without an exchange is the stored, live bundle. */
  lemma ValidTokenWithoutExchangeIsLive(cookies: map<string, Cookie>, env: Env, now: int, ex: Exchange)
    ensures var s := ValidToken(cookies, env, now, ex);
      s.sent.None? && s.result.Some? ==>
        ReadSlot(cookies) == Stored(s.result.value) && s.cookies == cookies &&
        !IsTokenExpired(s.result.value, now) && !IsRefreshTokenExpired(s.result.value, now)
  {
  }
}
