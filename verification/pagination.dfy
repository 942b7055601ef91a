/** The paginated document collection and its iterator: a continuation-token
    listing API presented as one forward iteration.

    The Java object is mutable and its `getNextPage` completes a future from
    a network callback; here every operation is a pure step function that
    returns the new state, and the network call followed by the decoding of
    its payload is a parameter `server` that maps a list request to the
    response it completes with. */
module Pagination {
  import opened Wrappers
  import opened Models

  /** The collection's state: the current page, the continuation token for
      the next one (null once the server announced no more), and the
      parameters each list call is issued with. */
  datatype PaginatedDocuments<T> = PaginatedDocuments(
    currentPage: Page<T>,
    continuationToken: Option<string>,
    tokenResult: TokenResult,
    httpClient: HttpClient,
    documentType: DocumentType)

  /** `a` and `b` issue their list calls with the same parameters. */
  predicate SameFetchParameters<T>(a: PaginatedDocuments<T>, b: PaginatedDocuments<T>) {
    && a.tokenResult == b.tokenResult
    && a.httpClient == b.httpClient
    && a.documentType == b.documentType
  }

  /** `a` and `b` are at the same point of the listing. */
  ghost predicate SamePosition<T>(a: PaginatedDocuments<T>, b: PaginatedDocuments<T>) {
    a.currentPage == b.currentPage && a.continuationToken == b.continuationToken
  }

  // ---------------------------------------------------------------------
  // Builder setters and the getter

  function SetTokenResult<T>(d: PaginatedDocuments<T>, tokenResult: TokenResult): (r: PaginatedDocuments<T>)
    ensures r.tokenResult == tokenResult
    ensures SamePosition(d, r)
    ensures r.httpClient == d.httpClient && r.documentType == d.documentType
  {
    d.(tokenResult := tokenResult)
  }

  function SetCurrentPage<T>(d: PaginatedDocuments<T>, currentPage: Page<T>): (r: PaginatedDocuments<T>)
    ensures r.currentPage == currentPage
    ensures r.continuationToken == d.continuationToken
    ensures SameFetchParameters(d, r)
  {
    d.(currentPage := currentPage)
  }

  function GetCurrentPage<T>(d: PaginatedDocuments<T>): Page<T> {
    d.currentPage
  }

  function SetHttpClient<T>(d: PaginatedDocuments<T>, httpClient: HttpClient): (r: PaginatedDocuments<T>)
    ensures r.httpClient == httpClient
    ensures SamePosition(d, r)
    ensures r.tokenResult == d.tokenResult && r.documentType == d.documentType
  {
    d.(httpClient := httpClient)
  }

  function SetContinuationToken<T>(d: PaginatedDocuments<T>, continuationToken: Option<string>): (r: PaginatedDocuments<T>)
    ensures r.continuationToken == continuationToken
    ensures r.currentPage == d.currentPage
    ensures SameFetchParameters(d, r)
  {
    d.(continuationToken := continuationToken)
  }

  function SetDocumentType<T>(d: PaginatedDocuments<T>, documentType: DocumentType): (r: PaginatedDocuments<T>)
    ensures r.documentType == documentType
    ensures SamePosition(d, r)
    ensures r.tokenResult == d.tokenResult && r.httpClient == d.httpClient
  {
    d.(documentType := documentType)
  }

  // ---------------------------------------------------------------------
  // Fetching the next page

  /** More pages exist exactly while a continuation token is held; an empty
      string is still a token. */
  predicate HasNextPage<T>(d: PaginatedDocuments<T>) {
    d.continuationToken.Some?
  }

  /** The page set is the page got back, and setting the token alone decides
      whether another page is announced. */
  lemma SettersRoundTrip<T>(d: PaginatedDocuments<T>, page: Page<T>, token: Option<string>)
    ensures GetCurrentPage(SetCurrentPage(d, page)) == page
    ensures HasNextPage(SetContinuationToken(d, token)) <==> token.Some?
    ensures HasNextPage(SetCurrentPage(d, page)) == HasNextPage(d)
  {
  }

  /** The list call issued for the page that `token` continues to. */
  function RequestFor<T>(d: PaginatedDocuments<T>, token: string): ListRequest {
    ListRequest(d.tokenResult, token, d.httpClient, d.documentType)
  }

  /** What `getNextPage` completes with, the collection's state once it has
      completed, and the list call it issued, if any. */
  datatype Fetched<T> = Fetched(page: Page<T>, docs: PaginatedDocuments<T>, request: Option<ListRequest>)

  /** Fetches the page the continuation token points to. A success replaces
      the current page and takes the next token from the response headers;
      a failure and a missing token both complete with an error page and
      leave the state untouched. */
  function GetNextPage<T>(d: PaginatedDocuments<T>, server: ListRequest -> ListResponse<T>): (r: Fetched<T>)
    ensures r.request.Some? <==> HasNextPage(d)
    ensures r.request.Some? ==> r.request.value == RequestFor(d, d.continuationToken.value)
    ensures SameFetchParameters(d, r.docs)
    ensures !HasNextPage(d) ==> r.page == ErrorPage(NoSuchElement) && r.docs == d
    ensures r.request.Some? && server(r.request.value).CallFailed? ==>
              && r.page == ErrorPage(ServiceFailure(server(r.request.value).cause))
              && r.docs == d
              && HasNextPage(r.docs)
    ensures r.request.Some? && server(r.request.value).Succeeded? ==>
              && r.page == server(r.request.value).page
              && r.docs.currentPage == r.page
              && r.docs.continuationToken == ContinuationOf(server(r.request.value).headers)
  {
    match d.continuationToken
    case None => Fetched(ErrorPage(NoSuchElement), d, None)
    case Some(token) =>
      var request := RequestFor(d, token);
      match server(request)
      case Succeeded(page, headers) =>
        Fetched(page, d.(currentPage := page, continuationToken := ContinuationOf(headers)), Some(request))
      case CallFailed(cause) =>
        Fetched(ErrorPage(ServiceFailure(cause)), d, Some(request))
  }

  // ---------------------------------------------------------------------
  // The iterator

  /** An iterator: the collection it walks (whose current page and token it
      updates) and its own index into the current page's items. */
  datatype Cursor<T> = Cursor(docs: PaginatedDocuments<T>, index: nat)

  /** A fresh iterator starts at the head of the current page. */
  function Iterator<T>(d: PaginatedDocuments<T>): Cursor<T> {
    Cursor(d, 0)
  }

  /** The iterator's index points at an item of a present item list. */
  predicate InPage<T>(c: Cursor<T>) {
    c.docs.currentPage.items.Some? && c.index < |c.docs.currentPage.items.value|
  }

  /** The index never runs past the end of a present item list. */
  predicate IndexInBounds<T>(c: Cursor<T>) {
    c.docs.currentPage.items.Some? ==> c.index <= |c.docs.currentPage.items.value|
  }

  /** `hasNext`: an unread item remains on the current page, or another page
      can be fetched. It only reads the state. */
  predicate HasNext<T>(c: Cursor<T>) {
    InPage(c) || HasNextPage(c.docs)
  }

  /** The runtime exceptions `next` can raise. */
  datatype Exception = NullPointer | IndexOutOfBounds(index: int, size: int)

  /** What a call of `next` does for its caller: return a wrapper, or throw. */
  datatype Outcome<T> = Returned(wrapper: DocumentWrapper<T>) | Thrown(exception: Exception)

  /** One call of `next`: its outcome, the state it leaves behind (also when
      it throws) and the list call it issued, if any. */
  datatype Step<T> = Step(outcome: Outcome<T>, cursor: Cursor<T>, request: Option<ListRequest>)

  /** The read `items.get(index++)`: the index is incremented before the list
      is dereferenced, so it moves on even when the read throws. */
  function ReadAt<T>(d: PaginatedDocuments<T>, index: nat, request: Option<ListRequest>): Step<T> {
    var next := Cursor(d, index + 1);
    match d.currentPage.items
    case None => Step(Thrown(NullPointer), next, request)
    case Some(items) =>
      if index < |items| then Step(Returned(items[index]), next, request)
      else Step(Thrown(IndexOutOfBounds(index, |items|)), next, request)
  }

  /** `next`: past the end it returns a NoSuchElement wrapper instead of
      throwing; on an exhausted page it fetches the next one, stores it as
      the current page and reads from its head; otherwise it reads the item
      at the index. */
  function Next<T>(c: Cursor<T>, server: ListRequest -> ListResponse<T>): (r: Step<T>)
    // exhaustion is a value, and costs nothing
    ensures !HasNext(c) ==> r == Step(Returned(Failed(NoSuchElement)), c, None)
    // an unread item of the current page is returned and the index moves by one
    ensures InPage(c) ==>
              && r.outcome == Returned(c.docs.currentPage.items.value[c.index])
              && r.cursor == Cursor(c.docs, c.index + 1)
              && r.request.None?
    // a list call is issued only at a page boundary, with exactly the held token
    ensures r.request.Some? <==> HasNext(c) && !InPage(c) && c.docs.currentPage.items.Some?
    ensures r.request.Some? ==> r.request.value == RequestFor(c.docs, c.docs.continuationToken.value)
    // a successful, non-empty page replaces the current one and yields its head
    ensures r.request.Some? && server(r.request.value).Succeeded?
              && server(r.request.value).page.items.Some?
              && |server(r.request.value).page.items.value| > 0 ==>
              && r.outcome == Returned(server(r.request.value).page.items.value[0])
              && r.cursor.docs.currentPage == server(r.request.value).page
              && r.cursor.docs.continuationToken == ContinuationOf(server(r.request.value).headers)
              && r.cursor.index == 1
    // the fetch parameters never change, and only a call that hasNext admitted can throw
    ensures SameFetchParameters(c.docs, r.cursor.docs)
    ensures r.outcome.Thrown? ==> HasNext(c)
    // a call that returns keeps the index within the current page
    ensures r.outcome.Returned? && IndexInBounds(c) ==> IndexInBounds(r.cursor)
  {
    if !HasNext(c) then
      Step(Returned(Failed(NoSuchElement)), c, None)
    else
      match c.docs.currentPage.items
      case None => Step(Thrown(NullPointer), c, None)
      case Some(items) =>
        if c.index >= |items| then
          var fetched := GetNextPage(c.docs, server);
          ReadAt(fetched.docs.(currentPage := fetched.page), 0, fetched.request)
        else
          ReadAt(c.docs, c.index, None)
  }

  /** `hasNext` is false exactly when `next` answers with a NoSuchElement
      wrapper, issues no list call and leaves the state as it was. */
  lemma HasNextDecidesExhaustion<T>(c: Cursor<T>, server: ListRequest -> ListResponse<T>)
    ensures !HasNext(c) <==> Next(c, server) == Step(Returned(Failed(NoSuchElement)), c, None)
  {
  }

  /** The message `remove` logs at error level, with an
      UnsupportedOperationException. */
  const RemoveUnsupported: string := "Remove operation is not supported in the iterator."

  datatype Removed<T> = Removed(cursor: Cursor<T>, logged: string)

  /** `remove` only logs that it is unsupported. */
  function Remove<T>(c: Cursor<T>): (r: Removed<T>)
    ensures r.cursor == c
    ensures r.logged == RemoveUnsupported
  {
    Removed(c, RemoveUnsupported)
  }
}
