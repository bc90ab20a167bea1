/** HTTP vocabulary shared by the interceptors, the gate and the proxy routes:
    header maps, the credential headers, a mutable axios request config, replies and outcomes. */
module Http {
  import opened Common
  import opened AuthTypes
  import Json

  type Headers = map<string, string>

  const AUTHORIZATION: string := "Authorization"
  const TENANT_HEADER: string := "X-Tenant-ID"
  const CONTENT_TYPE: string := "Content-Type"

  function Bearer(accessToken: string): string {
    "Bearer " + accessToken
  }

  /** The header rewrite done in three places (the auth.ts and axios.ts request interceptors and
      the gate): `Authorization` carries the bearer, and `X-Tenant-ID` is set only for a truthy
      tenant id. */
  function WithCredentials(h: Headers, d: TokenData): Headers {
    var withAuth := h[AUTHORIZATION := Bearer(d.token.access_token)];
    if TenantIdTruthy(d.token.tenant_id) then withAuth[TENANT_HEADER := Json.IntToString(d.token.tenant_id.value)]
    else withAuth
  }

  /** What the rewrite sets, and that every other header is kept. */
  lemma WithCredentialsEffect(h: Headers, d: TokenData)
    ensures AUTHORIZATION in WithCredentials(h, d)
    ensures WithCredentials(h, d)[AUTHORIZATION] == "Bearer " + d.token.access_token
    ensures TenantIdTruthy(d.token.tenant_id) ==>
              WithCredentials(h, d)[TENANT_HEADER] == Json.IntToString(d.token.tenant_id.value)
    ensures !TenantIdTruthy(d.token.tenant_id) ==>
              (TENANT_HEADER in WithCredentials(h, d) <==> TENANT_HEADER in h) &&
              (TENANT_HEADER in h ==> WithCredentials(h, d)[TENANT_HEADER] == h[TENANT_HEADER])
    ensures forall k :: k != AUTHORIZATION && k != TENANT_HEADER ==>
              (k in WithCredentials(h, d) <==> k in h) &&
              (k in h ==> WithCredentials(h, d)[k] == h[k])
  {
  }

  /** The rewrite replaces whatever bearer the headers already carried. */
  lemma WithCredentialsOverridesBearer(h: Headers, bearer: string, d: TokenData)
    ensures WithCredentials(h[AUTHORIZATION := bearer], d) == WithCredentials(h, d)
  {
    assert h[AUTHORIZATION := bearer][AUTHORIZATION := Bearer(d.token.access_token)]
        == h[AUTHORIZATION := Bearer(d.token.access_token)];
  }

  /** A tenant header always carries the decimal text of a non-zero id. */
  lemma TenantHeaderReadsBack(h: Headers, d: TokenData)
    requires TenantIdTruthy(d.token.tenant_id)
    ensures Json.ParseInt(WithCredentials(h, d)[TENANT_HEADER] + "") == Some((d.token.tenant_id.value, ""))
  {
    var text := Json.IntToString(d.token.tenant_id.value);
    assert WithCredentials(h, d)[TENANT_HEADER] + "" == text + "";
    Json.IntToStringRoundTrip(d.token.tenant_id.value, "");
  }

  /** The request config an axios interceptor receives and changes in place; `retry` is the
      `_retry` flag the 401 handler of src/lib/auth.ts puts on it. */
  class RequestConfig {
    var headers: Headers
    var retry: bool

    constructor (headers: Headers)
      ensures this.headers == headers && !retry
    {
      this.headers := headers;
      retry := false;
    }
  }

  /** What the transport yields for one request: a response with a status and a body, or none. */
  datatype Reply<B> = Answered(status: int, body: B) | NoResponse

  /** `error.response?.status`: the status of the failing response, if there was one. */
  datatype HttpError = HttpError(status: Option<int>)

  /** How an axios promise settles. */
  datatype Outcome<B> = Resolved(status: int, body: B) | Rejected(error: HttpError)

  /** axios's default `validateStatus`: only 2xx resolves. */
  predicate IsSuccess<B>(r: Reply<B>) {
    r.Answered? && 200 <= r.status < 300
  }

  predicate IsStatus<B>(r: Reply<B>, status: int) {
    r.Answered? && r.status == status
  }

  function Deliver<B>(r: Reply<B>): (o: Outcome<B>)
    ensures o.Resolved? <==> IsSuccess(r)
    ensures o.Rejected? ==> o.error.status == (if r.Answered? then Some(r.status) else None)
  {
    if IsSuccess(r) then Resolved(r.status, r.body)
    else Rejected(HttpError(if r.Answered? then Some(r.status) else None))
  }

  // ---------------------------------------------------------------------------------------------
  // Proxy routes (Next.js route handlers that forward to the backend)

  /** How the backend call of a route handler ends: a body, an error response carrying a
      `detail` text, or no response at all. */
  datatype Upstream<B> = Returned(data: B) | Failed(status: int, detail: Option<string>) | Unanswered

  datatype RouteBody<B> = Data(data: B) | ErrorBody(error: string)

  /** `NextResponse.json(body, { status })` */
  datatype RouteResponse<B> = RouteResponse(status: int, body: RouteBody<B>)

  /** The backend request a route handler issues. */
  datatype UpstreamRequest<Q> = UpstreamRequest(url: string, body: Q, headers: Headers)

  /** A route handler's run: the backend request it made (if any) and its response. */
  datatype Handled<Q, B> = Handled(call: Option<UpstreamRequest<Q>>, response: RouteResponse<B>)

  const SERVER_ERROR: string := "Erreur serveur"

  /** The POST handler shape of the two authentication proxies: read the JSON body, post it
      unchanged with a JSON content type, answer the backend body as is, map an error response to
      its own status with `detail || fallback`, and anything else to 500. */
  function ProxyPost<Q, B>(url: string, fallback: string, inbound: Option<Q>, upstream: Upstream<B>): Handled<Q, B> {
    match inbound
    case None => Handled(None, RouteResponse(500, ErrorBody(SERVER_ERROR)))
    case Some(body) =>
      var call := Some(UpstreamRequest(url, body, map[CONTENT_TYPE := "application/json"]));
      match upstream
      case Returned(data) => Handled(call, RouteResponse(200, Data(data)))
      case Failed(status, detail) =>
        Handled(call, RouteResponse(status, ErrorBody(if detail.Some? && detail.value != "" then detail.value else fallback)))
      case Unanswered => Handled(call, RouteResponse(500, ErrorBody(SERVER_ERROR)))
  }

  /** `error.response?.status || 500`: a missing or zero status becomes 500. */
  function ErrorStatus<B>(upstream: Upstream<B>): (s: int)
    ensures upstream.Failed? && upstream.status != 0 ==> s == upstream.status
    ensures upstream.Unanswered? || (upstream.Failed? && upstream.status == 0) ==> s == 500
  {
    if upstream.Failed? && upstream.status != 0 then upstream.status else 500
  }
}
