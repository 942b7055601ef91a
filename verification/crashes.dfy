/** The paths on which `next` throws although `hasNext` promised an element.
    `hasNext` trusts the continuation token alone, and `next` neither skips
    an empty fetched page nor checks whether the fetch failed: it reads the
    head of whatever page it stored. There is no failed state and no retry
    suppression; each lemma states what the state is left as. */
module Crashes {
  import opened Wrappers
  import opened Models
  import opened Pagination

  /** A current page without an item list, while a token is held: `hasNext`
      is true, and `next` dereferences the missing list before it can fetch
      anything, leaving the state as it was. */
  lemma NullItemsWithTokenThrows<T>(c: Cursor<T>, server: ListRequest -> ListResponse<T>)
    requires c.docs.currentPage.items.None? && HasNextPage(c.docs)
    ensures HasNext(c)
    ensures Next(c, server) == Step(Thrown(NullPointer), c, None)
  {
  }

  /** A fetched page that succeeds with an empty item list: `next` stores it
      and its continuation token, then throws reading its head; the index is
      already 1. */
  lemma EmptyFetchedPageThrows<T>(c: Cursor<T>, server: ListRequest -> ListResponse<T>)
    requires c.docs.currentPage.items.Some? && !InPage(c) && HasNextPage(c.docs)
    requires var response := server(RequestFor(c.docs, c.docs.continuationToken.value));
             response.Succeeded? && response.page.items == Some([])
    ensures var response := server(RequestFor(c.docs, c.docs.continuationToken.value));
            var step := Next(c, server);
            && step.outcome == Thrown(IndexOutOfBounds(0, 0))
            && step.request == Some(RequestFor(c.docs, c.docs.continuationToken.value))
            && step.cursor.docs.currentPage == response.page
            && step.cursor.docs.continuationToken == ContinuationOf(response.headers)
            && step.cursor.index == 1
  {
  }

  /** A successful list call whose payload decodes to a page without an item
      list: `next` stores that page and, unlike after a failed call, moves
      the token on to the response's continuation header; it then throws
      reading the head of the missing list, with the index at 1. */
  lemma UndecodedFetchedPageThrows<T>(c: Cursor<T>, server: ListRequest -> ListResponse<T>)
    requires c.docs.currentPage.items.Some? && !InPage(c) && HasNextPage(c.docs)
    requires var response := server(RequestFor(c.docs, c.docs.continuationToken.value));
             response.Succeeded? && response.page.items.None?
    ensures var response := server(RequestFor(c.docs, c.docs.continuationToken.value));
            var step := Next(c, server);
            && step.outcome == Thrown(NullPointer)
            && step.request == Some(RequestFor(c.docs, c.docs.continuationToken.value))
            && step.cursor.docs.currentPage == response.page
            && step.cursor.docs.continuationToken == ContinuationOf(response.headers)
            && step.cursor.index == 1
  {
  }

  /** A failed fetch inside `next`: unlike a direct `getNextPage` call, `next`
      stores the error page as the current page, keeps the token, and throws
      reading the head of the missing item list. `hasNext` stays true, and
      every later `next` throws at once without fetching again. */
  lemma FailedFetchInNextThrows<T>(c: Cursor<T>, server: ListRequest -> ListResponse<T>)
    requires c.docs.currentPage.items.Some? && !InPage(c) && HasNextPage(c.docs)
    requires server(RequestFor(c.docs, c.docs.continuationToken.value)).CallFailed?
    ensures var cause := server(RequestFor(c.docs, c.docs.continuationToken.value)).cause;
            var step := Next(c, server);
            && step.outcome == Thrown(NullPointer)
            && step.cursor.docs == c.docs.(currentPage := ErrorPage(ServiceFailure(cause)))
            && step.cursor.index == 1
            && HasNext(step.cursor)
            && Next(step.cursor, server) == Step(Thrown(NullPointer), step.cursor, None)
  {
  }
}
