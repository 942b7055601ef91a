/** Whole iterations: what a sequence of `next` calls yields when the server
    hands out a well-formed chain of pages.

    The abstract view of an iterator is the list of items it still has to
    yield: the unread rest of the current page followed by every page the
    server will serve from the held continuation token on. Each `next` call
    pops the head of that list, and `hasNext` is exactly "the list is not
    empty". */
module Iteration {
  import opened Wrappers
  import opened Models
  import opened Pagination

  /** The pages, one after another. */
  function Concat<X>(pages: seq<seq<X>>): seq<X> {
    if pages == [] then [] else pages[0] + Concat(pages[1..])
  }

  /** From `token` on, `server` serves exactly `pages`: each a successful,
      non-empty page whose continuation header holds the token of the next,
      the last one announcing none. No token means no page left. */
  ghost predicate Serves<T>(server: ListRequest -> ListResponse<T>, d: PaginatedDocuments<T>,
                            token: Option<string>, pages: seq<seq<DocumentWrapper<T>>>)
    decreases |pages|
  {
    if pages == [] then token.None?
    else
      && token.Some?
      && (var response := server(RequestFor(d, token.value));
          && response.Succeeded?
          && response.page.items == Some(pages[0])
          && |pages[0]| > 0
          && Serves(server, d, ContinuationOf(response.headers), pages[1..]))
  }

  /** Whether a chain is served depends only on the fetch parameters. */
  lemma {:induction false} ServesDependsOnFetchParameters<T>(
    server: ListRequest -> ListResponse<T>, d: PaginatedDocuments<T>, e: PaginatedDocuments<T>,
    token: Option<string>, pages: seq<seq<DocumentWrapper<T>>>)
    requires SameFetchParameters(d, e)
    requires Serves(server, d, token, pages)
    ensures Serves(server, e, token, pages)
    decreases |pages|
  {
    if pages != [] {
      assert RequestFor(d, token.value) == RequestFor(e, token.value);
      var response := server(RequestFor(d, token.value));
      ServesDependsOnFetchParameters(server, d, e, ContinuationOf(response.headers), pages[1..]);
    }
  }

  /** `c` reads a present item list, within bounds, and the server serves
      `pages` from its continuation token on. */
  ghost predicate Feeds<T>(c: Cursor<T>, server: ListRequest -> ListResponse<T>, pages: seq<seq<DocumentWrapper<T>>>) {
    && c.docs.currentPage.items.Some?
    && IndexInBounds(c)
    && Serves(server, c.docs, c.docs.continuationToken, pages)
  }

  /** The items `c` has still to yield. */
  function Remaining<T>(c: Cursor<T>, pages: seq<seq<DocumentWrapper<T>>>): seq<DocumentWrapper<T>>
    requires c.docs.currentPage.items.Some? && IndexInBounds(c)
  {
    c.docs.currentPage.items.value[c.index..] + Concat(pages)
  }

  /** The pages still to be fetched after one `next` call. */
  function PagesAfterNext<T>(c: Cursor<T>, pages: seq<seq<DocumentWrapper<T>>>): seq<seq<DocumentWrapper<T>>> {
    if InPage(c) || pages == [] then pages else pages[1..]
  }

  /** On a served chain, `hasNext` holds exactly when items remain. */
  lemma HasNextIffItemsRemain<T>(c: Cursor<T>, server: ListRequest -> ListResponse<T>, pages: seq<seq<DocumentWrapper<T>>>)
    requires Feeds(c, server, pages)
    ensures HasNext(c) <==> Remaining(c, pages) != []
  {
  }

  /** On a served chain, `next` returns the head of the remaining items and
      leaves exactly their tail to be yielded, fetching a page (with exactly
      the held token) only when the current one is used up. */
  lemma NextPopsFront<T>(c: Cursor<T>, server: ListRequest -> ListResponse<T>, pages: seq<seq<DocumentWrapper<T>>>)
    requires Feeds(c, server, pages)
    requires Remaining(c, pages) != []
    ensures var step := Next(c, server);
            && step.outcome == Returned(Remaining(c, pages)[0])
            && Feeds(step.cursor, server, PagesAfterNext(c, pages))
            && Remaining(step.cursor, PagesAfterNext(c, pages)) == Remaining(c, pages)[1..]
            && (InPage(c) ==> step.request.None?)
            && (!InPage(c) ==> step.request == Some(RequestFor(c.docs, c.docs.continuationToken.value)))
  {
    var items := c.docs.currentPage.items.value;
    var step := Next(c, server);
    if InPage(c) {
      assert items[c.index..] == [items[c.index]] + items[c.index + 1..];
    } else {
      assert c.index == |items|;
      assert pages != [];
      var response := server(RequestFor(c.docs, c.docs.continuationToken.value));
      assert Concat(pages) == pages[0] + Concat(pages[1..]);
      assert step.cursor.docs.currentPage.items == Some(pages[0]);
      assert pages[0][1..] + Concat(pages[1..]) == Concat(pages)[1..];
      ServesDependsOnFetchParameters(server, c.docs, step.cursor.docs, ContinuationOf(response.headers), pages[1..]);
    }
  }

  /** What a run of `next` calls returned, the list call each issued, and
      where the run left the iterator. */
  datatype Run<T> = Run(outcomes: seq<Outcome<T>>, requests: seq<Option<ListRequest>>, cursor: Cursor<T>)

  /** `n` successive `next` calls, carrying on from the state each leaves. */
  function Take<T>(c: Cursor<T>, server: ListRequest -> ListResponse<T>, n: nat): (r: Run<T>)
    ensures |r.outcomes| == n && |r.requests| == n
    decreases n
  {
    if n == 0 then Run([], [], c)
    else
      var step := Next(c, server);
      var rest := Take(step.cursor, server, n - 1);
      Run([step.outcome] + rest.outcomes, [step.request] + rest.requests, rest.cursor)
  }

  /** The outcomes of returning `items`, one after another. */
  function Returns<T>(items: seq<DocumentWrapper<T>>): (r: seq<Outcome<T>>)
    ensures |r| == |items|
  {
    if items == [] then [] else [Returned(items[0])] + Returns(items[1..])
  }

  /** In-order yield: on a served chain, as many `next` calls as there are
      remaining items return exactly those items, the current page's rest
      first and then each page in the server's order, after which `hasNext`
      is false. */
  lemma {:induction false} InOrderYield<T>(c: Cursor<T>, server: ListRequest -> ListResponse<T>, pages: seq<seq<DocumentWrapper<T>>>)
    requires Feeds(c, server, pages)
    ensures var run := Take(c, server, |Remaining(c, pages)|);
            && run.outcomes == Returns(Remaining(c, pages))
            && !HasNext(run.cursor)
    decreases |Remaining(c, pages)|
  {
    var remaining := Remaining(c, pages);
    if remaining == [] {
      HasNextIffItemsRemain(c, server, pages);
    } else {
      NextPopsFront(c, server, pages);
      var step := Next(c, server);
      InOrderYield(step.cursor, server, PagesAfterNext(c, pages));
    }
  }

  /** Exhaustion is stable: once `hasNext` is false, every further `next`
      returns a NoSuchElement wrapper, fetches nothing and changes nothing. */
  lemma {:induction false} ExhaustedStaysExhausted<T>(c: Cursor<T>, server: ListRequest -> ListResponse<T>, n: nat)
    requires !HasNext(c)
    ensures Take(c, server, n).cursor == c
    ensures forall i :: 0 <= i < n ==> Take(c, server, n).outcomes[i] == Returned(Failed(NoSuchElement))
    ensures forall i :: 0 <= i < n ==> Take(c, server, n).requests[i].None?
    decreases n
  {
    if n > 0 {
      ExhaustedStaysExhausted(c, server, n - 1);
      var rest := Take(c, server, n - 1);
      assert Take(c, server, n).outcomes == [Returned(Failed(NoSuchElement))] + rest.outcomes;
      assert Take(c, server, n).requests == [None] + rest.requests;
    }
  }

  /** A full iteration from a fresh iterator over the first page: every item
      of every page, in order, after which any number of further calls
      return only NoSuchElement wrappers. */
  lemma IterateAll<T>(d: PaginatedDocuments<T>, server: ListRequest -> ListResponse<T>,
                      first: seq<DocumentWrapper<T>>, pages: seq<seq<DocumentWrapper<T>>>, extra: nat)
    requires d.currentPage.items == Some(first)
    requires Serves(server, d, d.continuationToken, pages)
    ensures var run := Take(Iterator(d), server, |first| + |Concat(pages)|);
            && run.outcomes == Returns(first + Concat(pages))
            && !HasNext(run.cursor)
            && forall i :: 0 <= i < extra ==>
                 Take(run.cursor, server, extra).outcomes[i] == Returned(Failed(NoSuchElement))
  {
    InOrderYield(Iterator(d), server, pages);
    assert first[0..] == first;
    var run := Take(Iterator(d), server, |first| + |Concat(pages)|);
    ExhaustedStaysExhausted(run.cursor, server, extra);
  }

  /** The enhanced `for` loop over the collection: ask `hasNext`, call
      `next`, keep the wrapper, until `hasNext` says no. On a served chain it
      collects the first page and then every served page, in order. */
  method ForEach<T>(d: PaginatedDocuments<T>, server: ListRequest -> ListResponse<T>,
                    ghost first: seq<DocumentWrapper<T>>, ghost pages: seq<seq<DocumentWrapper<T>>>)
    returns (collected: seq<DocumentWrapper<T>>, last: Cursor<T>)
    requires d.currentPage.items == Some(first)
    requires Serves(server, d, d.continuationToken, pages)
    ensures collected == first + Concat(pages)
    ensures !HasNext(last)
  {
    var c := Iterator(d);
    ghost var rest := pages;
    collected := [];
    assert first[0..] == first;
    while HasNext(c)
      invariant Feeds(c, server, rest)
      invariant collected + Remaining(c, rest) == first + Concat(pages)
      decreases |Remaining(c, rest)|
    {
      HasNextIffItemsRemain(c, server, rest);
      NextPopsFront(c, server, rest);
      var step := Next(c, server);
      assert Remaining(c, rest) == [Remaining(c, rest)[0]] + Remaining(c, rest)[1..];
      collected := collected + [step.outcome.wrapper];
      rest := PagesAfterNext(c, rest);
      c := step.cursor;
    }
    HasNextIffItemsRemain(c, server, rest);
    last := c;
  }
}
