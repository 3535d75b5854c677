/** The pagination bar: a window of at most five consecutive page numbers
    around the current page, and the previous/next buttons' disabled flags. */
module Pagination {

  const MaxPagesToShow := 5

  /** What the bar renders: nothing, or the page buttons with the flags of
      "Anterior" (previous) and "Próxima" (next). */
  datatype Controls = Hidden | Nav(pageNumbers: seq<int>, previousDisabled: bool, nextDisabled: bool)

  function Max(a: int, b: int): int {
    if a >= b then a else b
  }

  function Min(a: int, b: int): int {
    if a <= b then a else b
  }

  /** `renderPaginationControls({currentPage, totalPages})`: hidden for at
      most one page; otherwise a run of consecutive pages inside
      `[1, totalPages]`, five of them when there are at least five pages and
      all of them when there are fewer, holding the current page when it is in
      range. The window starts two pages before the current one, pushed
      right to page 1 and left so that it ends at the last page. */
  method RenderPaginationControls(currentPage: int, totalPages: int) returns (c: Controls)
    ensures c.Hidden? <==> totalPages <= 1
    ensures c.Nav? ==>
              var p := c.pageNumbers;
              1 <= |p| <= MaxPagesToShow &&
              (forall k :: 0 <= k < |p| ==> p[k] == p[0] + k) &&
              1 <= p[0] && p[|p| - 1] <= totalPages &&
              (totalPages >= MaxPagesToShow ==> |p| == MaxPagesToShow) &&
              (totalPages < MaxPagesToShow ==> p[0] == 1 && |p| == totalPages) &&
              (1 <= currentPage <= totalPages ==> currentPage in p)
    ensures c.Nav? ==>
              c.pageNumbers[0] == Max(1, Min(currentPage - MaxPagesToShow / 2, totalPages - MaxPagesToShow + 1)) &&
              c.pageNumbers[|c.pageNumbers| - 1] == Min(totalPages, c.pageNumbers[0] + MaxPagesToShow - 1)
    ensures c.Nav? ==> (c.previousDisabled <==> currentPage == 1) && (c.nextDisabled <==> currentPage == totalPages)
  {
    if totalPages <= 1 {
      return Hidden;
    }
    var startPage := Max(1, currentPage - MaxPagesToShow / 2);
    var endPage := Min(totalPages, startPage + MaxPagesToShow - 1);
    if endPage - startPage + 1 < MaxPagesToShow {
      startPage := Max(1, endPage - MaxPagesToShow + 1);
    }
    var pageNumbers: seq<int> := [];
    var i := startPage;
    while i <= endPage
      invariant startPage <= i <= endPage + 1
      invariant |pageNumbers| == i - startPage
      invariant forall k :: 0 <= k < |pageNumbers| ==> pageNumbers[k] == startPage + k
    {
      pageNumbers := pageNumbers + [i];
      i := i + 1;
    }
    assert currentPage in pageNumbers <== startPage <= currentPage <= endPage by {
      if startPage <= currentPage <= endPage {
        assert pageNumbers[currentPage - startPage] == currentPage;
      }
    }
    c := Nav(pageNumbers, currentPage == 1, currentPage == totalPages);
  }
}
