/** src/lib/documents.ts: the browser-side documents service, which calls the documents routes
    through the global axios instance. */
module DocumentsService {
  import opened Common
  import opened Http
  import opened DocumentTypes
  import Json
  import DocumentsRoute

  const COLLECTION: string := "/api/documents"

  /** The service's normalisation: the items of an array or of an object (none when absent),
      the numeric `total` of an object (0 when absent) or the length of an array. */
  function FormatList(p: ListPayload): (r: DocumentListResponse)
    ensures r.skip == 0 && r.limit == 0
    ensures p.ArrayPayload? ==> r.items == p.docs && r.total == |p.docs|
    ensures p.ObjectPayload? && p.items.None? ==> r.items == []
    ensures p.ObjectPayload? && p.items.Some? ==> r.items == p.items.value
    ensures p.ObjectPayload? && p.total.None? ==> r.total == 0
    ensures p.ObjectPayload? && p.total.Some? ==> r.total == p.total.value
  {
    match p
    case ArrayPayload(docs) => DocumentListResponse(docs, |docs|, 0, 0)
    case ObjectPayload(items, total) =>
      DocumentListResponse(if items.Some? then items.value else [], if total.Some? then total.value else 0, 0, 0)
  }

  /** `listDocuments`, given how its GET of /api/documents settled: a failure is rethrown. */
  function ListDocuments(o: Outcome<ListPayload>): (r: Result<DocumentListResponse, HttpError>)
    ensures o.Resolved? ==> r == Ok(FormatList(o.body))
    ensures o.Rejected? ==> r == Err(o.error)
  {
    match o
    case Resolved(_, body) => Ok(FormatList(body))
    case Rejected(e) => Err(e)
  }

  /** `getDocumentStatus` requests this path. */
  function StatusPath(documentId: int): string {
    COLLECTION + "/" + Json.IntToString(documentId) + "/status"
  }

  /** `deleteDocument` requests this path. */
  function DeletePath(documentId: int): string {
    COLLECTION + "/" + Json.IntToString(documentId)
  }

  // ---------------------------------------------------------------------------------------------
  // Properties

  /** Different documents never share a status or a delete path, and no status path is a delete
      path. */
  lemma PathsIdentifyDocuments(a: int, b: int)
    ensures StatusPath(a) == StatusPath(b) ==> a == b
    ensures DeletePath(a) == DeletePath(b) ==> a == b
    ensures StatusPath(a) != DeletePath(b)
  {
    var prefix := COLLECTION + "/";
    var ta, tb := Json.IntToString(a), Json.IntToString(b);
    assert StatusPath(a) == prefix + ta + "/status" && DeletePath(b) == prefix + tb;
    if StatusPath(a) == StatusPath(b) {
      assert ta == StatusPath(a)[|prefix|..|StatusPath(a)| - 7];
      assert tb == StatusPath(b)[|prefix|..|StatusPath(b)| - 7];
      Json.IntToStringInjective(a, b);
    }
    if DeletePath(a) == DeletePath(b) {
      assert ta == DeletePath(a)[|prefix|..];
      assert tb == DeletePath(b)[|prefix|..];
      Json.IntToStringInjective(a, b);
    }
    Json.IntToStringEndsWithDigit(b);
    assert StatusPath(a)[|StatusPath(a)| - 1] == 's';
    assert DeletePath(b)[|DeletePath(b)| - 1] == tb[|tb| - 1];
  }

  /** The service and the route normalise the same payload to the same items and total. */
  lemma ServiceAgreesWithRoute(p: ListPayload)
    ensures FormatList(p).items == DocumentsRoute.Normalise(p).items
    ensures FormatList(p).total == DocumentsRoute.Normalise(p).total
  {
  }

  /** End to end: once the route has answered a backend payload, the service returns the route's
      items and total unchanged. */
  lemma ListThroughTheRoute(env: Env, inbound: Headers, p: ListPayload)
    ensures var resp := DocumentsRoute.Get(env, inbound, Returned(p)).response;
      resp.status == 200 && resp.body.Data? &&
      ListDocuments(Resolved(200, AsPayload(resp.body.data))) ==
        Ok(DocumentListResponse(DocumentsRoute.Normalise(p).items, DocumentsRoute.Normalise(p).total, 0, 0))
  {
  }

  /** A route failure reaches the caller with the route's status. The error reply's body is a
      placeholder page: ListDocuments reads only the status of a failure. */
  lemma ListFailureIsRethrown(env: Env, inbound: Headers, upstream: Upstream<ListPayload>)
    requires !upstream.Returned?
    requires upstream.Failed? ==> !(200 <= upstream.status < 300)
    ensures var resp := DocumentsRoute.Get(env, inbound, upstream).response;
      ListDocuments(Deliver(Answered(resp.status, AsPayload(DocumentPage([], 0))))) ==
        Err(HttpError(Some(ErrorStatus(upstream))))
  {
  }
}
