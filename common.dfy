/** Shared vocabulary: optional values, results, prefix tests and the process environment. */
module Common {

  datatype Option<+T> = None | Some(value: T) {
    predicate IsFailure() { None? }
    function PropagateFailure<U>(): Option<U>
      requires None?
    {
      None
    }
    function Extract(): T
      requires Some?
    {
      value
    }
  }

  datatype Result<+T, +E> = Ok(value: T) | Err(error: E)

  /** `s.startsWith(prefix)` */
  predicate StartsWith(s: string, prefix: string) {
    |prefix| <= |s| && s[..|prefix|] == prefix
  }

  /** A string that differs from `prefix` at a position both have does not start with it. */
  lemma DiffersAt(s: string, prefix: string, k: nat)
    requires k < |s| && k < |prefix| && s[k] != prefix[k]
    ensures !StartsWith(s, prefix)
  {
  }

  /** The login page, where the client library, the axios instance and the gate all send
      a user without a usable token. */
  const LOGIN_PATH: string := "/auth/login"

  /** The parts of the process environment the core reads:
      `NODE_ENV === "production"`, `NEXT_PUBLIC_API_URL`, and whether a `window` exists. */
  datatype Env = Env(production: bool, publicApiUrl: Option<string>, inBrowser: bool)

  const DEFAULT_API_URL: string := "http://localhost:8000"

  /** `process.env.NEXT_PUBLIC_API_URL || "http://localhost:8000"`: an unset or empty variable
      falls back to the local backend, so the base URL is never empty. */
  function ApiUrl(env: Env): (url: string)
    ensures url != ""
    ensures url == DEFAULT_API_URL || Some(url) == env.publicApiUrl
    ensures env.publicApiUrl.Some? && env.publicApiUrl.value != "" ==> url == env.publicApiUrl.value
  {
    if env.publicApiUrl.Some? && env.publicApiUrl.value != "" then env.publicApiUrl.value
    else DEFAULT_API_URL
  }
}
