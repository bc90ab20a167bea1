/** The browser cookie jar as js-cookie exposes it: one value per name, with the attributes each
    write records. Time-based eviction by the browser is not part of this model. */
module Cookies {
  import opened Common

  datatype SameSite = Strict | Lax

  datatype Cookie = Cookie(value: string, path: string, expires: int, secure: bool, sameSite: SameSite)

  class CookieJar {
    var cookies: map<string, Cookie>

    constructor ()
      ensures cookies == map[]
    {
      cookies := map[];
    }

    /** `Cookies.get(name)` */
    function Get(name: string): (v: Option<string>)
      reads this
      ensures v.Some? <==> name in cookies
      ensures v.Some? ==> v.value == cookies[name].value
    {
      if name in cookies then Some(cookies[name].value) else None
    }

    /** `Cookies.set(name, value, attributes)`: one slot is replaced, the others are kept. */
    method Set(name: string, c: Cookie)
      modifies this
      ensures cookies == old(cookies)[name := c]
    {
      cookies := cookies[name := c];
    }

    /** `Cookies.remove(name, { path: "/" })`; a missing cookie is no error. */
    method Remove(name: string)
      modifies this
      ensures cookies == old(cookies) - {name}
    {
      cookies := cookies - {name};
    }
  }
}
