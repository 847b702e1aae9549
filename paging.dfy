/** The paged pull of `syncInboxFromServer` and `syncSentFromServer`
    (`src/renderer/src/stores/apply.store.ts`): pages are requested from 1
    while the page number is within the server's last reported page count
    and within a cap of 50 pages; the first failed request ends the pull. */
module Paging {
  import opened Wrappers

  const MaxPages := 50

  /** One page of a list response: `data.items` and
      `data.pagination.totalPages`, either of which may be missing. */
  datatype Page<T> = Page(items: Option<seq<T>>, totalPages: Option<int>)

  /** The outcome of a pull: whether any page arrived, the items of every
      page that arrived, and the page numbers requested, in order. */
  datatype Pull<T> = Pull(fetchedAny: bool, items: seq<T>, requested: seq<int>)

  /** The pull from page `page` on, with `totalPages` the last count seen. */
  function PullFrom<T>(server: int -> Reply<Page<T>>, page: int, totalPages: int): Pull<T>
    requires 1 <= page
    decreases MaxPages + 1 - page
  {
    if page > totalPages || page > MaxPages then Pull(false, [], [])
    else
      match server(page)
      case Failed => Pull(false, [], [page])
      case Ok(p) =>
        var rest := PullFrom(server, page + 1, p.totalPages.GetOr(1));
        Pull(true, p.items.GetOr([]) + rest.items, [page] + rest.requested)
  }

  function Then<T>(a: Pull<T>, b: Pull<T>): Pull<T> {
    Pull(a.fetchedAny || b.fetchedAny, a.items + b.items, a.requested + b.requested)
  }

  /** The request loop. */
  method PullAllPages<T>(server: int -> Reply<Page<T>>) returns (pull: Pull<T>)
    ensures pull == PullFrom(server, 1, 1)
  {
    var page := 1;
    var totalPages := 1;
    pull := Pull(false, [], []);
    assert Then(pull, PullFrom(server, 1, 1)) == PullFrom(server, 1, 1);
    while page <= totalPages && page <= MaxPages
      invariant 1 <= page <= MaxPages + 1
      invariant PullFrom(server, 1, 1) == Then(pull, PullFrom(server, page, totalPages))
      decreases MaxPages + 1 - page
    {
      var response := server(page);
      if response.Failed? {
        pull := Then(pull, Pull(false, [], [page]));
        return;
      }
      var rest := PullFrom(server, page + 1, response.value.totalPages.GetOr(1));
      var got := Pull(true, response.value.items.GetOr([]), [page]);
      assert PullFrom(server, page, totalPages) == Then(got, rest);
      ThenAssociative(pull, got, rest);
      pull := Then(pull, got);
      totalPages := response.value.totalPages.GetOr(1);
      page := page + 1;
    }
    assert Then(pull, Pull(false, [], [])) == pull;
  }

  lemma ThenAssociative<T>(a: Pull<T>, b: Pull<T>, c: Pull<T>)
    ensures Then(a, Then(b, c)) == Then(Then(a, b), c)
  {
    assert a.items + (b.items + c.items) == (a.items + b.items) + c.items;
    assert a.requested + (b.requested + c.requested) == (a.requested + b.requested) + c.requested;
  }

  /** The pages requested are `page`, `page + 1`, … without gaps, never
      beyond page 50; every request but the last succeeded. */
  lemma {:induction false} PullRequests<T>(server: int -> Reply<Page<T>>, page: int, totalPages: int)
    requires 1 <= page
    ensures var r := PullFrom(server, page, totalPages).requested;
            && (forall i :: 0 <= i < |r| ==> r[i] == page + i)
            && (forall i :: 0 <= i < |r| ==> r[i] <= MaxPages)
            && (forall i :: 0 <= i < |r| - 1 ==> server(r[i]).Ok?)
    decreases MaxPages + 1 - page
  {
    if page <= totalPages && page <= MaxPages && server(page).Ok? {
      var next := server(page).value.totalPages.GetOr(1);
      PullRequests(server, page + 1, next);
      var rest := PullFrom(server, page + 1, next).requested;
      var r := PullFrom(server, page, totalPages).requested;
      assert var r' := PullFrom(server, page + 1, next).requested;
        forall i :: 0 <= i < |r'| ==> r'[i] == page + 1 + i && r'[i] <= MaxPages;
      assert r == [page] + rest;
      forall i | 1 <= i < |r|
        ensures r[i] == rest[i - 1] && r[i] <= MaxPages
        ensures i < |r| - 1 ==> server(r[i]).Ok?
      {
        assert r[i] == rest[i - 1];
      }
    }
  }

  /** The first page is always requested; something was fetched exactly
      when it arrived, and nothing is collected otherwise. */
  lemma FirstPageDecides<T>(server: int -> Reply<Page<T>>)
    ensures var pull := PullFrom(server, 1, 1);
            && |pull.requested| >= 1 && pull.requested[0] == 1
            && (pull.fetchedAny <==> server(1).Ok?)
            && (!pull.fetchedAny ==> pull.items == [])
  {
  }

  /** A failure after the first page does not undo the pull: when page 1
      arrives announcing at least two pages and page 2 fails, the pull
      counts as fetched and holds exactly page 1's items. */
  lemma LaterFailureKeepsFirstPage<T>(server: int -> Reply<Page<T>>)
    requires server(1).Ok? && server(1).value.totalPages.GetOr(1) >= 2
    requires server(2).Failed?
    ensures PullFrom(server, 1, 1) == Pull(true, server(1).value.items.GetOr([]), [1, 2])
  {
    var p := server(1).value;
    assert PullFrom(server, 2, p.totalPages.GetOr(1)) == Pull(false, [], [2]);
    assert p.items.GetOr([]) + [] == p.items.GetOr([]);
  }

  /** When every page reports the same count `n`, exactly
      `min(max(n, 1), 50)` pages are requested: a server claiming 999 pages
      is asked for 50. */
  lemma {:induction false} PagesRequested<T>(server: int -> Reply<Page<T>>, n: int, page: int, totalPages: int)
    requires 1 <= page
    requires forall p :: 1 <= p <= MaxPages ==> server(p).Ok? && server(p).value.totalPages == Some(n)
    requires page == 1 ==> totalPages == 1
    requires page > 1 ==> totalPages == n
    ensures var last := if n < 1 then 1 else if n > MaxPages then MaxPages else n;
            |PullFrom(server, page, totalPages).requested| == if page > last then 0 else last - page + 1
    decreases MaxPages + 1 - page
  {
    if page <= totalPages && page <= MaxPages {
      PagesRequested(server, n, page + 1, n);
    }
  }

  /** The 999-page server of the inbox and sent tests: 50 requests, pages 1
      to 50. */
  lemma FiftyPagesAtMost<T>(server: int -> Reply<Page<T>>)
    requires forall p :: 1 <= p <= MaxPages ==> server(p) == Ok(Page(Some([]), Some(999)))
    ensures var r := PullFrom(server, 1, 1).requested;
            |r| == MaxPages && r[0] == 1 && r[MaxPages - 1] == MaxPages
  {
    PagesRequested(server, 999, 1, 1);
    PullRequests(server, 1, 1);
  }
}
