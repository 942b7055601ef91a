/** Concrete listings: a two-page query whose second page is fetched with
    the token the first announced, the same query when the second fetch
    fails, and the page being replaced under a running iterator. */
module Scenarios {
  import opened Wrappers
  import opened Models
  import opened Pagination

  const Credential: TokenResult := "partition-credential"
  const Transport: HttpClient := 7
  const Kind: DocumentType := "TestDocument"

  /** The request the second page is listed with. */
  const SecondRequest: ListRequest := ListRequest(Credential, "T1", Transport, Kind)

  /** Page 1 = [A, B], already fetched, announcing token "T1". */
  function FirstPage(): PaginatedDocuments<string> {
    PaginatedDocuments(Page(Some([Document("A"), Document("B")]), None), Some("T1"), Credential, Transport, Kind)
  }

  /** Serves page 2 = [C], without a continuation header, for token "T1". */
  function TwoPageServer(request: ListRequest): ListResponse<string> {
    if request == SecondRequest then Succeeded(Page(Some([Document("C")]), None), map[])
    else CallFailed("unknown continuation token")
  }

  /** Fails every list call. */
  function FailingServer(request: ListRequest): ListResponse<string> {
    CallFailed("connection reset")
  }

  /** A, B and C come out in that order, `hasNext` is true before each of
      the three calls and false after the third, and the only list call is
      the one for token "T1", issued by the third call. */
  lemma TwoPageListing()
    ensures var c0 := Iterator(FirstPage());
            var s1 := Next(c0, TwoPageServer);
            var s2 := Next(s1.cursor, TwoPageServer);
            var s3 := Next(s2.cursor, TwoPageServer);
            && HasNext(c0) && HasNext(s1.cursor) && HasNext(s2.cursor) && !HasNext(s3.cursor)
            && [s1.outcome, s2.outcome, s3.outcome]
               == [Returned(Document("A")), Returned(Document("B")), Returned(Document("C"))]
            && s1.request.None? && s2.request.None? && s3.request == Some(SecondRequest)
            && Next(s3.cursor, TwoPageServer) == Step(Returned(Failed(NoSuchElement)), s3.cursor, None)
  {
  }

  /** `getNextPage` on page 1 when the list call fails: an error page, and
      the state untouched, so another page is still announced. */
  lemma FailedGetNextPage()
    ensures var fetched := GetNextPage(FirstPage(), FailingServer);
            && fetched.page == ErrorPage(ServiceFailure("connection reset"))
            && fetched.docs == FirstPage()
            && HasNextPage(fetched.docs)
            && fetched.request == Some(SecondRequest)
  {
  }

  /** `getNextPage` once the last page is in: no list call, a NoSuchElement
      error page, and the state untouched. */
  lemma GetNextPageAfterLastPage()
    ensures var d := SetContinuationToken(FirstPage(), None);
            var fetched := GetNextPage(d, FailingServer);
            fetched == Fetched(ErrorPage(NoSuchElement), d, None)
  {
  }

  /** The iterator keeps its index when the collection's page is replaced
      between two `next` calls. After A is read from [A, B], setting the page
      to [X, Y, Z] makes the next call return Y: X is skipped. */
  lemma SetCurrentPageKeepsIndex()
    ensures var s1 := Next(Iterator(FirstPage()), FailingServer);
            var replaced := Cursor(SetCurrentPage(s1.cursor.docs,
                                     Page(Some([Document("X"), Document("Y"), Document("Z")]), None)), s1.cursor.index);
            && s1.outcome == Returned(Document("A"))
            && Next(replaced, FailingServer).outcome == Returned(Document("Y"))
  {
  }

  /** The same through `getNextPage`: after A is read, a direct call stores
      page 2 = [C] and drops the token; the iterator's index 1 is already at
      the end of [C], so `hasNext` is false and C is never yielded. */
  lemma GetNextPageBetweenNextCallsSkips()
    ensures var s1 := Next(Iterator(FirstPage()), TwoPageServer);
            var fetched := GetNextPage(s1.cursor.docs, TwoPageServer);
            var after := Cursor(fetched.docs, s1.cursor.index);
            && s1.outcome == Returned(Document("A"))
            && fetched.page.items == Some([Document("C")])
            && !HasNext(after)
            && Next(after, TwoPageServer) == Step(Returned(Failed(NoSuchElement)), after, None)
  {
  }
}
