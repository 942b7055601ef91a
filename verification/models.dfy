/** The value types the paginated cursor works with: the per-document result
    wrapper, the page of results, and the list call the cursor issues to fetch
    the next page. */
module Models {
  import opened Wrappers

  /** The failure causes a page or a document wrapper can carry. */
  datatype DataError =
    | NoSuchElement            // iteration asked past the end, or no page left to fetch
    | ServiceFailure(cause: string)  // the list call failed (transport or HTTP error)
    | DecodeFailure(cause: string)   // the payload could not be decoded into documents

  /** One logical result: a retrieved document, or a failure marker that
      travels through the normal value channel instead of being thrown.
      The document's metadata (id, partition, eTag, dates) is part of `T`. */
  datatype DocumentWrapper<T> = Document(value: T) | Failed(error: DataError)

  /** One server round trip's worth of results. `items` is a nullable list:
      a page built from a failure holds no list at all. */
  datatype Page<T> = Page(items: Option<seq<DocumentWrapper<T>>>, error: Option<DataError>)

  /** The page built from a failure: an error and no item list. */
  function ErrorPage<T>(e: DataError): Page<T>
  {
    Page(None, Some(e))
  }

  /** The collaborators the cursor only passes on: the credential and the
      transport to the list call, the document class to the decoding of its
      payload. */
  type TokenResult = string   // the partition credential
  type HttpClient = nat       // identity of the transport instance
  type DocumentType = string  // name of the class the documents decode into

  /** Everything one list call and the decoding of its payload depend on. */
  datatype ListRequest = ListRequest(
    tokenResult: TokenResult,
    continuation: string,
    httpClient: HttpClient,
    documentType: DocumentType)

  /** What one list call completes with: the payload already decoded into a
      page under the request's document type, plus the response headers; or
      the failure it reported. */
  datatype ListResponse<T> =
    | Succeeded(page: Page<T>, headers: map<string, string>)
    | CallFailed(cause: string)

  /** The response header that carries the continuation token for the next page. */
  const ContinuationHeader: string := "x-ms-continuation"

  /** The next continuation token announced by a response: the header's value,
      or null when the header is missing. */
  function ContinuationOf(headers: map<string, string>): Option<string>
  {
    if ContinuationHeader in headers then Some(headers[ContinuationHeader]) else None
  }
}
