/** src/app/api/auth/tenant/token/route.ts: the login proxy. */
module TenantTokenRoute {
  import opened Common
  import opened AuthTypes
  import opened Http
  import LoginPage

  const PATH: string := "/api/auth/tenant/token"
  const FALLBACK: string := "Erreur d'authentification"

  /** `POST`: the parsed login request (None when the body is not JSON) and how the backend call
      ended. */
  function Post<B>(env: Env, inbound: Option<LoginRequest>, upstream: Upstream<B>): (h: Handled<LoginRequest, B>)
    ensures inbound.None? ==> h == Handled(None, RouteResponse(500, ErrorBody(SERVER_ERROR)))
    ensures inbound.Some? ==>
              h.call == Some(UpstreamRequest(ApiUrl(env) + PATH, inbound.value, map[CONTENT_TYPE := "application/json"]))
    ensures inbound.Some? && upstream.Returned? ==> h.response == RouteResponse(200, Data(upstream.data))
    ensures inbound.Some? && upstream.Failed? ==>
              h.response.status == upstream.status &&
              h.response.body == ErrorBody(if upstream.detail.Some? && upstream.detail.value != "" then upstream.detail.value
                                           else FALLBACK)
    ensures inbound.Some? && upstream.Unanswered? ==> h.response == RouteResponse(500, ErrorBody(SERVER_ERROR))
  {
    ProxyPost(ApiUrl(env) + PATH, FALLBACK, inbound, upstream)
  }

  /** The browser's view of the route's response, as the login page's catch branch reads it.*/
  function Seen<B>(r: RouteResponse<B>): Outcome<RouteBody<B>> {
    Deliver(Answered(r.status, r.body))
  }

  /** End to end: a backend 401 shows "Identifiants invalides", a backend 404 "Tenant
      introuvable", and a body that is not JSON or an unreachable backend the generic message. */
  lemma BackendStatusReachesThePage<B>(env: Env, inbound: Option<LoginRequest>, upstream: Upstream<B>)
    ensures var seen := Seen(Post(env, inbound, upstream).response);
      && (inbound.Some? && upstream.Failed? && upstream.status == 401 ==>
            seen.Rejected? && LoginPage.ErrorMessage(seen.error.status) == LoginPage.BAD_CREDENTIALS)
      && (inbound.Some? && upstream.Failed? && upstream.status == 404 ==>
            seen.Rejected? && LoginPage.ErrorMessage(seen.error.status) == LoginPage.TENANT_NOT_FOUND)
      && (inbound.None? || upstream.Unanswered? ==>
            seen.Rejected? && LoginPage.ErrorMessage(seen.error.status) == LoginPage.GENERIC_ERROR)
      && (inbound.Some? && upstream.Returned? ==> seen == Resolved(200, Data(upstream.data)))
  {
  }
}
