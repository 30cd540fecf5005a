/**
 * The `Pagination` component of the genre page (src/Genre.jsx): a row of at
 * most five consecutive page buttons around the current page, between a
 * Previous and a Next button.
 */
module Pagination {
  import opened Js

  /** How many page buttons the component shows at most (`showPages`). */
  const ShowPages := 5

  /** The consecutive integers `lo, lo + 1, ..., hi` (empty when `hi < lo`). */
  function Interval(lo: int, hi: int): seq<int>
  {
    if lo <= hi then seq(hi - lo + 1, k => lo + k) else []
  }

  /** First page of the window: centred start, moved left when the window hits the last page. */
  function WindowFirst(currentPage: int, totalPages: int): int
  {
    var start := Max(1, currentPage - ShowPages / 2);
    var end := Min(totalPages, start + ShowPages - 1);
    if end - start < ShowPages - 1 then Max(1, end - ShowPages + 1) else start
  }

  /** Last page of the window. */
  function WindowLast(currentPage: int, totalPages: int): int
  {
    Min(totalPages, Max(1, currentPage - ShowPages / 2) + ShowPages - 1)
  }

  /**
   * The page numbers the component shows: pages that exist, each one more than
   * the one before, as many as exist up to five, whatever the current page is.
   */
  function PageWindow(currentPage: int, totalPages: int): (r: seq<int>)
    ensures forall k :: 0 <= k < |r| ==> 1 <= r[k] <= totalPages
    ensures forall k :: 0 < k < |r| ==> r[k] == r[k - 1] + 1
    ensures |r| == Min(ShowPages, Max(0, totalPages))
  {
    Interval(WindowFirst(currentPage, totalPages), WindowLast(currentPage, totalPages))
  }

  /** `getPageNumbers`: computes the window and pushes its pages one by one. */
  method GetPageNumbers(currentPage: int, totalPages: int) returns (pages: seq<int>)
    ensures pages == PageWindow(currentPage, totalPages)
  {
    pages := [];
    var start := Max(1, currentPage - ShowPages / 2);
    var end := Min(totalPages, start + ShowPages - 1);
    if end - start < ShowPages - 1 {
      start := Max(1, end - ShowPages + 1);
    }
    var i := start;
    while i <= end
      invariant start <= i <= Max(start, end + 1)
      invariant |pages| == i - start
      invariant forall k :: 0 <= k < |pages| ==> pages[k] == start + k
    {
      pages := pages + [i];
      i := i + 1;
    }
  }

  /** A page that exists is always among the buttons when it is the current page. */
  lemma WindowHasCurrent(currentPage: int, totalPages: int)
    requires 1 <= currentPage <= totalPages
    ensures currentPage in PageWindow(currentPage, totalPages)
  {
    var r := PageWindow(currentPage, totalPages);
    var first := WindowFirst(currentPage, totalPages);
    assert r[currentPage - first] == currentPage;
  }

  /** Away from both ends the window is the current page with two neighbours on each side. */
  lemma WindowCentred(currentPage: int, totalPages: int)
    requires 3 <= currentPage <= totalPages - 2
    ensures PageWindow(currentPage, totalPages) ==
            [currentPage - 2, currentPage - 1, currentPage, currentPage + 1, currentPage + 2]
  {
  }

  /** Near the last page the window is shifted left so that it ends at the last page. */
  lemma WindowEndsAtLast(currentPage: int, totalPages: int)
    requires 1 <= totalPages && totalPages - 2 <= currentPage
    ensures PageWindow(currentPage, totalPages) != []
    ensures PageWindow(currentPage, totalPages)[|PageWindow(currentPage, totalPages)| - 1] == totalPages
  {
  }

  /** Near the first page the window starts at page 1. */
  lemma WindowStartsAtFirst(currentPage: int, totalPages: int)
    requires 1 <= totalPages && currentPage <= 3
    ensures PageWindow(currentPage, totalPages) != []
    ensures PageWindow(currentPage, totalPages)[0] == 1
  {
  }

  /** Previous is disabled on the first page and before it. */
  predicate PrevDisabled(currentPage: int) { currentPage <= 1 }

  /** Next is disabled on the last page and after it. */
  predicate NextDisabled(currentPage: int, totalPages: int) { currentPage >= totalPages }

  /**
   * Every page the component can request, through an enabled Previous or Next
   * button or a page button, exists when the current page does.
   */
  lemma PagerTargetsExist(currentPage: int, totalPages: int, target: int)
    requires 1 <= currentPage <= totalPages
    requires || (target == currentPage - 1 && !PrevDisabled(currentPage))
             || (target == currentPage + 1 && !NextDisabled(currentPage, totalPages))
             || target in PageWindow(currentPage, totalPages)
    ensures 1 <= target <= totalPages
  {
  }
}
