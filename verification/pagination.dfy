/**
 * The pagination hook: a current page that only moves to a page within
 * `1..totalPages`, and that can be reset to the first page.
 */
module Pagination {
  import opened Js

  /** `DEFAULT_CONFIG.PAGINATION.DEFAULT_PAGE` */
  const DefaultPage: int := 1

  /** `handlePageChange(newPage, totalPages)`: the request is accepted only within range. */
  function PageAfterChange(current: int, newPage: int, totalPages: int): (r: int)
    ensures 1 <= newPage <= totalPages ==> r == newPage
    ensures !(1 <= newPage <= totalPages) ==> r == current
  {
    if newPage >= 1 && newPage <= totalPages then newPage else current
  }

  /** After a change the page is within range if it was before, or if the request was accepted. */
  lemma PageChangeStaysInRange(current: int, newPage: int, totalPages: int)
    requires 1 <= current <= totalPages || 1 <= newPage <= totalPages
    ensures 1 <= PageAfterChange(current, newPage, totalPages) <= totalPages
  {
  }

  /** Repeating the same request has no further effect. */
  lemma PageChangeIdempotent(current: int, newPage: int, totalPages: int)
    ensures PageAfterChange(PageAfterChange(current, newPage, totalPages), newPage, totalPages)
            == PageAfterChange(current, newPage, totalPages)
  {
  }

  /** The state kept by `usePagination`. */
  class PaginationState {
    var currentPage: int

    /** `usePagination(initialPage = DEFAULT_PAGE)`: an omitted argument starts at page 1. */
    constructor (initialPage: Option<int>)
      ensures currentPage == if initialPage.Some? then initialPage.value else DefaultPage
    {
      currentPage := if initialPage.Some? then initialPage.value else DefaultPage;
    }

    method HandlePageChange(newPage: int, totalPages: int)
      modifies this
      ensures currentPage == PageAfterChange(old(currentPage), newPage, totalPages)
    {
      if newPage >= 1 && newPage <= totalPages {
        currentPage := newPage;
      }
    }

    /** `resetPage`: back to the first page whatever the page was. */
    method ResetPage()
      modifies this
      ensures currentPage == DefaultPage
    {
      currentPage := DefaultPage;
    }
  }
}
