/** src/app/api/documents/route.ts: the server-side proxy for the document collection, which
    calls the backend through the dedicated axios instance. */
module DocumentsRoute {
  import opened Common
  import opened Http
  import opened DocumentTypes
  import ApiClient

  const LIST_PATH: string := "/api/documents/?sort=-created_at"
  const UPLOAD_PATH: string := "/api/documents/"
  const MULTIPART: string := "multipart/form-data"
  const LIST_ERROR: string := "Erreur lors de la récupération des documents"
  const UPLOAD_ERROR: string := "Erreur lors de l'upload du document"

  /** The route's normalisation: a bare array becomes its items and its length; an object keeps
      its items (or none) and its total when non-zero (`total || 0`). */
  function Normalise(p: ListPayload): (page: DocumentPage)
    ensures p.ArrayPayload? ==> page == DocumentPage(p.docs, |p.docs|)
    ensures p.ObjectPayload? ==> page.items == (if p.items.Some? then p.items.value else [])
    ensures p.ObjectPayload? ==> page.total == (if p.total.Some? then p.total.value else 0)
  {
    match p
    case ArrayPayload(docs) => DocumentPage(docs, |docs|)
    case ObjectPayload(items, total) =>
      DocumentPage(if items.Some? then items.value else [], if total.Some? && total.value != 0 then total.value else 0)
  }

  /** `GET`: the inbound headers are forwarded as they are to the sorted list path. */
  function Get(env: Env, inbound: Headers, upstream: Upstream<ListPayload>): (h: Handled<(), DocumentPage>)
    ensures h.call == Some(UpstreamRequest(ApiUrl(env) + LIST_PATH, (), inbound))
    ensures upstream.Returned? ==> h.response == RouteResponse(200, Data(Normalise(upstream.data)))
    ensures !upstream.Returned? ==> h.response == RouteResponse(ErrorStatus(upstream), ErrorBody(LIST_ERROR))
  {
    var call := Some(UpstreamRequest(ApiUrl(env) + LIST_PATH, (), inbound));
    match upstream
    case Returned(data) => Handled(call, RouteResponse(200, Data(Normalise(data))))
    case _ => Handled(call, RouteResponse(ErrorStatus(upstream), ErrorBody(LIST_ERROR)))
  }

  /** `POST`: the uploaded form data (None when it cannot be read), forwarded with the inbound
      headers and a multipart content type over them. */
  function Post<F, B>(env: Env, inbound: Headers, form: Option<F>, upstream: Upstream<B>): (h: Handled<F, B>)
    ensures form.None? ==> h == Handled(None, RouteResponse(500, ErrorBody(UPLOAD_ERROR)))
    ensures form.Some? ==>
              h.call == Some(UpstreamRequest(ApiUrl(env) + UPLOAD_PATH, form.value, inbound[CONTENT_TYPE := MULTIPART]))
    ensures form.Some? && upstream.Returned? ==> h.response == RouteResponse(200, Data(upstream.data))
    ensures form.Some? && !upstream.Returned? ==> h.response == RouteResponse(ErrorStatus(upstream), ErrorBody(UPLOAD_ERROR))
  {
    match form
    case None => Handled(None, RouteResponse(500, ErrorBody(UPLOAD_ERROR)))
    case Some(data) =>
      var call := Some(UpstreamRequest(ApiUrl(env) + UPLOAD_PATH, data, inbound[CONTENT_TYPE := MULTIPART]));
      match upstream
      case Returned(body) => Handled(call, RouteResponse(200, Data(body)))
      case _ => Handled(call, RouteResponse(ErrorStatus(upstream), ErrorBody(UPLOAD_ERROR)))
  }

  // ---------------------------------------------------------------------------------------------
  // Properties

  /** Normalising a page the route produced changes nothing. */
  lemma NormaliseIdempotent(p: ListPayload)
    ensures Normalise(AsPayload(Normalise(p))) == Normalise(p)
  {
  }

  /** The upload headers: the content type is multipart whatever came in, and every other
      inbound header is forwarded. */
  lemma UploadHeaders<F, B>(env: Env, inbound: Headers, form: F, upstream: Upstream<B>)
    ensures Post(env, inbound, Some(form), upstream).call.value.headers[CONTENT_TYPE] == MULTIPART
    ensures forall k :: k in inbound && k != CONTENT_TYPE ==>
              Post(env, inbound, Some(form), upstream).call.value.headers[k] == inbound[k]
  {
  }

  /** On the server there is no cookie jar, so the instance's request interceptor adds no
      credentials: the backend receives exactly the inbound headers. */
  lemma ServerSideHeadersAreInbound(inbound: Headers)
    ensures ApiClient.RequestHeaders(inbound, map[]) == inbound
  {
  }
}
