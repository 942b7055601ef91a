# Paginated document cursor

A Dafny model of `PaginatedDocuments<T>` from the App Center Data SDK for
Android: a collection that presents a Cosmos DB continuation-token listing as
one forward iteration. It holds the current page of `DocumentWrapper<T>`
results, the continuation token for the next page (null once the server
announces no more), the partition credential `TokenResult` and the
`HttpClient` every list call is issued with, and the document class each
response's payload is decoded into.
Its iterator keeps an index into the current page; when that page is used up
and a token is held, `next()` blocks on `getNextPage()`, stores the fetched
page and reads from its head. Exhaustion is returned as a NoSuchElement
wrapper rather than thrown.

The model is functional. The collection is the datatype
`Pagination.PaginatedDocuments<T>`, an iterator is `Pagination.Cursor<T>`
(the collection plus the index), and every operation returns the new state.
The list call and the decoding of its payload form one parameter,
`server: ListRequest -> ListResponse<T>`: a pure function to either the
decoded page with the response headers, or the failure the call reported.
A `ListRequest` holds what the list call is issued with (credential,
continuation token, transport) together with the document class the
payload is then decoded into, because the oracle covers both steps.
`GetNextPage` and `Next` return the request they issued, if any, so "no
fetch" and "fetched with exactly the held token" are stated directly.

Files:
- `wrappers.dfy`: `Option`, standing for a nullable reference.
- `models.dfy`: `DocumentWrapper`, `Page`, the list request and response, and
  the continuation header.
- `pagination.dfy`: the collection's setters and getter, `HasNextPage`,
  `GetNextPage`, and the iterator's `HasNext`, `Next` and `Remove`.
- `iteration.dfy`: runs of `next` calls over a server that serves a chain of
  pages (`Serves`). The abstract view is the list of items still to be
  yielded (`Remaining`). Each call pops its head (`NextPopsFront`), and the
  whole iteration yields the pages' concatenation in order (`InOrderYield`,
  `ForEach`).
- `crashes.dfy`: the paths where `next()` throws although `hasNext()` was
  true.
- `scenarios.dfy`: two concrete listings, page 1 = [A, B] with token "T1"
  followed by page 2 = [C] with no token, once with a working server and once
  with a failing one, plus the page being replaced under a running iterator.

Behaviour the code has and a cleaner design might not, modelled as written:
- No failed state. `getNextPage()` on a failed call completes with an error
  page and leaves the current page and the token alone. `next()` then stores
  that error page itself (`mCurrentPage = getNextPage().get()`) and throws a
  NullPointerException reading its missing item list. With the token still
  held, `hasNext()` stays true and every later `next()` throws the same way
  without fetching.
- A successful call whose payload decodes to a page without an item list is
  stored with the response's token, so the token moves past that page, and
  `next()` then throws a NullPointerException.
- No skipping of empty pages. A fetched page with an empty item list makes
  `next()` throw IndexOutOfBoundsException, after storing the page and its
  token.
- `items.get(mCurrentIndex++)` increments the index before the list is read,
  so the index is 1 after either exception on a fresh page.
- A current page with no item list while a token is held makes `next()`
  throw a NullPointerException at `getItems().size()`, before any fetch.
- A token is "present" when it is non-null. An empty string still announces a
  page.
- Calling `getNextPage()` or `setCurrentPage()` between `next()` calls keeps
  the iterator's old index, so it skips the new page's first items or lands
  past its end.

In short: `next()` returns a NoSuchElement wrapper past the end instead of
throwing as `java.util.Iterator` does; there is no failed state that caches
a failure; empty pages are not skipped; an empty-string token still counts.

## Model

| member | source | states |
|---|---|---|
| Pagination.SetTokenResult | sdk/appcenter-data/src/main/java/com/microsoft/appcenter/data/models/PaginatedDocuments.java:47-50 | sets the credential and changes neither the page, the token nor the other fetch parameters |
| Pagination.SetCurrentPage | sdk/appcenter-data/src/main/java/com/microsoft/appcenter/data/models/PaginatedDocuments.java:67-70 | sets the current page and keeps the token and every fetch parameter |
| Pagination.SetHttpClient | sdk/appcenter-data/src/main/java/com/microsoft/appcenter/data/models/PaginatedDocuments.java:87-90 | sets the transport and changes neither the page, the token nor the other fetch parameters |
| Pagination.SetContinuationToken | sdk/appcenter-data/src/main/java/com/microsoft/appcenter/data/models/PaginatedDocuments.java:98-101 | sets the token and keeps the page and every fetch parameter |
| Pagination.SetDocumentType | sdk/appcenter-data/src/main/java/com/microsoft/appcenter/data/models/PaginatedDocuments.java:109-112 | sets the document class and changes neither the page, the token nor the other fetch parameters |
| Pagination.SettersRoundTrip | sdk/appcenter-data/src/main/java/com/microsoft/appcenter/data/models/PaginatedDocuments.java:57-79 | the page got back is the page set; `hasNextPage` is true exactly when the token set is non-null, and setting the page does not change it |
| Pagination.GetNextPage | sdk/appcenter-data/src/main/java/com/microsoft/appcenter/data/models/PaginatedDocuments.java:119-145 | a list call is issued exactly when `hasNextPage` holds, with exactly the held token; without a token it completes with a NoSuchElement error page and changes nothing; a failed call completes with an error page carrying the cause, leaves the state untouched and another page still announced; a success stores the decoded page and takes the next token from the continuation header (null when missing); the fetch parameters never change |
| Pagination.Next | sdk/appcenter-data/src/main/java/com/microsoft/appcenter/data/models/PaginatedDocuments.java:160-169 | when `hasNext` is false it returns a NoSuchElement wrapper, fetches nothing and changes nothing; an unread item is returned with the index moved by exactly one and page and token kept; a list call is issued only at the end of a present item list while a token is held, with exactly that token; a successful non-empty fetched page becomes the current page with the response's token, and its first item is returned with the index at 1; it throws only when `hasNext` was true; a returning call keeps the index within the page |
| Pagination.HasNextDecidesExhaustion | sdk/appcenter-data/src/main/java/com/microsoft/appcenter/data/models/PaginatedDocuments.java:155-163 | `hasNext` is false exactly when `next` answers NoSuchElement with no fetch and no state change (both directions) |
| Pagination.Remove | sdk/appcenter-data/src/main/java/com/microsoft/appcenter/data/models/PaginatedDocuments.java:171-174 | `remove` leaves page, token and index as they were and only logs the unsupported-operation message |
| Iteration.HasNextIffItemsRemain | sdk/appcenter-data/src/main/java/com/microsoft/appcenter/data/models/PaginatedDocuments.java:155-158 | over a served chain of non-empty pages, `hasNext` holds exactly when items remain to be yielded |
| Iteration.NextPopsFront | sdk/appcenter-data/src/main/java/com/microsoft/appcenter/data/models/PaginatedDocuments.java:161-169 | over a served chain, `next` returns the head of the remaining items and leaves exactly their tail, still over a served chain; it issues no list call while the current page has items, and otherwise one with exactly the held token |
| Iteration.InOrderYield | sdk/appcenter-data/src/main/java/com/microsoft/appcenter/data/models/PaginatedDocuments.java:155-169 | over a served chain, as many `next` calls as items remain return exactly those items in order, the current page's rest then each page, and `hasNext` is false afterwards |
| Iteration.ExhaustedStaysExhausted | sdk/appcenter-data/src/main/java/com/microsoft/appcenter/data/models/PaginatedDocuments.java:162-163 | once `hasNext` is false, any number of `next` calls each return a NoSuchElement wrapper, issue no list call and leave the iterator unchanged |
| Iteration.IterateAll | sdk/appcenter-data/src/main/java/com/microsoft/appcenter/data/models/PaginatedDocuments.java:149-169 | a fresh iterator over the first page yields the first page and then every served page, concatenated in order; every call after that returns NoSuchElement |
| Iteration.ForEach | sdk/appcenter-data/src/main/java/com/microsoft/appcenter/data/models/PaginatedDocuments.java:149-169 | the enhanced `for` loop over the collection collects exactly the first page followed by every served page and stops with `hasNext` false |
| Crashes.NullItemsWithTokenThrows | sdk/appcenter-data/src/main/java/com/microsoft/appcenter/data/models/PaginatedDocuments.java:155-164 | a page without an item list and a held token: `hasNext` is true, `next` throws a NullPointerException, fetches nothing and changes nothing |
| Crashes.EmptyFetchedPageThrows | sdk/appcenter-data/src/main/java/com/microsoft/appcenter/data/models/PaginatedDocuments.java:164-168 | a successful fetched page with no items is stored with its token, and `next` throws IndexOutOfBounds(0, 0) with the index at 1 |
| Crashes.UndecodedFetchedPageThrows | sdk/appcenter-data/src/main/java/com/microsoft/appcenter/data/models/PaginatedDocuments.java:129-168 | a successful call whose decoded page has no item list: `next` stores that page, moves the token on to the response's continuation header (unlike a failed call, which keeps it), and throws a NullPointerException with the index at 1 |
| Crashes.FailedFetchInNextThrows | sdk/appcenter-data/src/main/java/com/microsoft/appcenter/data/models/PaginatedDocuments.java:137-168 | a failed fetch inside `next` stores the error page, keeps the token, throws a NullPointerException with the index at 1; `hasNext` stays true and the next call throws again without fetching |
| Scenarios.TwoPageListing | sdk/appcenter-data/src/main/java/com/microsoft/appcenter/data/models/PaginatedDocuments.java:155-169 | [A, B] with token "T1" then [C] without one yields A, B, C; `hasNext` is true before each call and false after the third; the only fetch is the third call's, with exactly "T1"; a fourth call returns NoSuchElement |
| Scenarios.FailedGetNextPage | sdk/appcenter-data/src/main/java/com/microsoft/appcenter/data/models/PaginatedDocuments.java:136-139 | a failing list call completes `getNextPage` with an error page carrying its cause, leaves the state untouched, and another page stays announced |
| Scenarios.SetCurrentPageKeepsIndex | sdk/appcenter-data/src/main/java/com/microsoft/appcenter/data/models/PaginatedDocuments.java:67-70 | after A is read from [A, B], replacing the page with [X, Y, Z] through the setter makes the next call return Y, because the iterator keeps its index |
| Scenarios.GetNextPageBetweenNextCallsSkips | sdk/appcenter-data/src/main/java/com/microsoft/appcenter/data/models/PaginatedDocuments.java:129-168 | after A is read, a direct `getNextPage` stores [C] and drops the token; the iterator's kept index 1 is past [C]'s end, so `hasNext` is false and C is never yielded |
| Scenarios.GetNextPageAfterLastPage | sdk/appcenter-data/src/main/java/com/microsoft/appcenter/data/models/PaginatedDocuments.java:141-143 | with no token, `getNextPage` issues no call and completes with a NoSuchElement error page |

## Left out

- The list call (`CosmosDb.callCosmosDbListApi` over `HttpClient` with a
  `ServiceCallback`) is network I/O. It is the `server` parameter, which also
  does the payload decoding of `Utils.parseDocuments`. Neither file is part of
  this model. A decoded page is taken as given, including one that carries a
  decoding error.
- `DefaultAppCenterFuture` and the blocking `get()` are modelled as a
  synchronous call. Threads, callback scheduling and the deadlock that
  blocking on the callback's own thread would cause are not modelled.
- The continuation header's name is taken to be `x-ms-continuation`, the
  header Cosmos DB uses. `Constants.java` is not part of this model.
- `Page.java` is not part of this model. Its exception constructor is taken
  to leave the item list null and set only the error. With an empty list
  instead, the call after a failed fetch inside `next()` would fetch again
  rather than throw.
- A collection whose current page was never set (a null `mCurrentPage`) is
  not modelled. `hasNext()` would throw a NullPointerException on it.
- Several iterators over one collection share its current page and token.
  Here one `Cursor` owns its collection value, so interleaving two iterators
  is not modelled.
- The iterator index is a Java `int`, modelled as `nat`. It only grows by
  one past a read below a present list's size, or from 0 to 1 on a fetched
  page, so it stays within `Integer.MAX_VALUE` and wrap-around does not
  arise.
- Pagination.Remove: the log tag and the `UnsupportedOperationException`
  passed to `AppCenterLog.error` are not modelled. Only the message is
  recorded.
- `DocumentWrapper` metadata (id, partition, eTag, last-update date, cache
  flag) is not modelled separately. The cursor passes wrappers through
  untouched, so this metadata is part of the type parameter `T`.
- `TokenResult` and `HttpClient` are opaque values passed through to the
  list call. The document `Class<T>` is passed only to the decoding of the
  response's payload.
- `DocumentDetailActivity.java` is Android UI code: its toasts, list adapters
  and 50-character display truncation are not modelled.
- `EventLog.java` is field accessors plus JSON `read`/`write`/`validate`
  delegated to org.json and unseen base classes. It is not modelled.
