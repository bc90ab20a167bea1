/** src/app/api/auth/refresh/route.ts: the refresh proxy. */
module RefreshRoute {
  import opened Common
  import opened AuthTypes
  import opened Http

  const PATH: string := "/api/auth/refresh"
  const FALLBACK: string := "Erreur de rafraîchissement du token"

  /** `POST`: the parsed refresh request (None when the body is not JSON) and how the backend
      call ended. */
  function Post<B>(env: Env, inbound: Option<RefreshTokenRequest>, upstream: Upstream<B>): (h: Handled<RefreshTokenRequest, B>)
    ensures inbound.None? ==> h == Handled(None, RouteResponse(500, ErrorBody(SERVER_ERROR)))
    ensures inbound.Some? ==>
              h.call == Some(UpstreamRequest(ApiUrl(env) + PATH, inbound.value, map[CONTENT_TYPE := "application/json"]))
    ensures inbound.Some? && upstream.Returned? ==> h.response == RouteResponse(200, Data(upstream.data))
    ensures inbound.Some? && upstream.Failed? ==>
              h.response.status == upstream.status &&
              h.response.body == ErrorBody(if upstream.detail.Some? && upstream.detail.value != "" then upstream.detail.value
                                           else FALLBACK)
    ensures inbound.Some? && upstream.Unanswered? ==> h.response == RouteResponse(500, ErrorBody(SERVER_ERROR))
  {
    ProxyPost(ApiUrl(env) + PATH, FALLBACK, inbound, upstream)
  }

  /** The proxy resolves in the browser exactly when the backend answered with a body: a backend
      error (axios only rejects outside 2xx), a body that is not JSON, or no answer, all reach
      the token service as a rejection, which then removes the token. */
  lemma ResolvesOnlyOnBackendSuccess<B>(env: Env, inbound: Option<RefreshTokenRequest>, upstream: Upstream<B>)
    requires upstream.Failed? ==> !(200 <= upstream.status < 300)
    ensures IsSuccess(Answered(Post(env, inbound, upstream).response.status, ()))
            <==> inbound.Some? && upstream.Returned?
    ensures inbound.Some? ==> Post(env, inbound, upstream).call.value.body.refresh_token == inbound.value.refresh_token
  {
  }
}
