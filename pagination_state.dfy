/** The page-advance guard: which page comes next, whether one is in flight,
    and whether the data is exhausted. */
module Pagination {
  import opened Wrappers
  import opened Models

  /** A snapshot of the three fields, used to state properties of call sequences. */
  datatype Pager = Pager(currentPage: int, isLoading: bool, hasMore: bool)

  const Initial: Pager := Pager(0, false, true)

  /** What `startLoadingNextPage` does to a snapshot, and what it returns. */
  function Start(s: Pager): (Pager, Option<int>)
  {
    if s.isLoading || !s.hasMore then (s, None)
    else (s.(isLoading := true), Some(s.currentPage + 1))
  }

  function Complete(s: Pager, page: PaginatedTodos): Pager
  {
    Pager(page.currentPage, false, page.HasMore())
  }

  function Fail(s: Pager): Pager
  {
    s.(isLoading := false)
  }

  class PaginationState {
    var currentPage: int
    var isLoading: bool
    var hasMore: bool

    function Snapshot(): Pager
      reads this
    {
      Pager(currentPage, isLoading, hasMore)
    }

    constructor ()
      ensures currentPage == 0 && !isLoading && hasMore
      ensures Snapshot() == Initial
    {
      currentPage := 0;
      isLoading := false;
      hasMore := true;
    }

    method Reset()
      modifies this
      ensures currentPage == 0 && !isLoading && hasMore
      ensures Snapshot() == Initial
    {
      currentPage := 0;
      isLoading := false;
      hasMore := true;
    }

    /** Claims the next page; refuses while a page is in flight or after the last one. */
    method StartLoadingNextPage() returns (page: Option<int>)
      modifies this
      ensures old(isLoading) || !old(hasMore) ==> page == None && Snapshot() == old(Snapshot())
      ensures !old(isLoading) && old(hasMore) ==>
        page == Some(old(currentPage) + 1) && isLoading
        && currentPage == old(currentPage) && hasMore == old(hasMore)
      ensures (Snapshot(), page) == Start(old(Snapshot()))
    {
      if isLoading || !hasMore {
        return None;
      }
      isLoading := true;
      page := Some(currentPage + 1);
    }

    method CompleteLoading(page: PaginatedTodos)
      modifies this
      ensures currentPage == page.currentPage && hasMore == page.HasMore() && !isLoading
      ensures Snapshot() == Complete(old(Snapshot()), page)
    {
      currentPage := page.currentPage;
      hasMore := page.HasMore();
      isLoading := false;
    }

    /** Ends a failed fetch, keeping the page position so that it can be retried. */
    method CompleteLoadingWithError()
      modifies this
      ensures !isLoading && currentPage == old(currentPage) && hasMore == old(hasMore)
      ensures Snapshot() == Fail(old(Snapshot()))
    {
      isLoading := false;
    }
  }

  /** Without a completion in between, a second start returns no page. */
  lemma AtMostOneInFlight(s: Pager)
    ensures Start(Start(s).0).1 == None
  {
  }

  /** After a failed fetch the same page is claimed again. */
  lemma FailedPageIsRetried(s: Pager)
    requires Start(s).1.Some?
    ensures Start(Fail(Start(s).0)) == Start(s)
  {
  }

  /** Once a completed page says there is nothing more, no page is claimed until a reset. */
  lemma ExhaustedStaysExhausted(s: Pager, page: PaginatedTodos)
    requires !page.HasMore()
    ensures Start(Complete(s, page)).1 == None
  {
  }

  /** After a completed page, the page claimed next is that page's `NextPage`. */
  lemma CompletionAdvancesToNextPage(s: Pager, page: PaginatedTodos)
    ensures Start(Complete(s, page)).1 == page.NextPage()
  {
  }
}
