/** src/types/documents.ts: the document records the frontend exchanges with the backend, and
    the shapes a document list can arrive in. */
module DocumentTypes {
  import opened Common

  datatype DocumentStatus = PENDING | IN_PROGRESS | COMPLETED | ERROR

  datatype DocumentResponse = DocumentResponse(
    id: int,
    filename: string,
    content_type: Option<string>,
    tenant_id: int,
    file_path: string,
    status: DocumentStatus,
    created_at: string,
    updated_at: string)

  datatype DocumentStatusResponse = DocumentStatusResponse(id: int, status: DocumentStatus, message: Option<string>)

  /** `skip` and `limit` are kept for the type and always 0. */
  datatype DocumentListResponse = DocumentListResponse(items: seq<DocumentResponse>, total: int, skip: int, limit: int)

  /** A list body as it may arrive: a bare array, or an object whose `items` and numeric
      `total` may each be missing. */
  datatype ListPayload =
    | ArrayPayload(docs: seq<DocumentResponse>)
    | ObjectPayload(items: Option<seq<DocumentResponse>>, total: Option<int>)

  /** The body the documents route answers: `{ items, total }`. */
  datatype DocumentPage = DocumentPage(items: seq<DocumentResponse>, total: int)

  /** How a page reads when it arrives as a list body. */
  function AsPayload(p: DocumentPage): ListPayload {
    ObjectPayload(Some(p.items), Some(p.total))
  }
}
