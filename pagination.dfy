/** The list page's pagination bar: the window of page buttons, when the bar shows, which
    buttons are disabled and where each one goes. */
module Pagination {

  /** Most page buttons shown at once. */
  const MaxPagesDisplay: int := 10

  function Max(a: int, b: int): int { if a >= b then a else b }

  function Min(a: int, b: int): int { if a <= b then a else b }

  /** First button of the window: half a window before the current page, but not before page 1. */
  function StartPage(currentPage: int): int
  {
    Max(1, currentPage - MaxPagesDisplay / 2)
  }

  /** Last button of the window: a full window after the start, but not after the last page. */
  function EndPage(currentPage: int, totalPage: int): int
  {
    Min(totalPage, StartPage(currentPage) + MaxPagesDisplay - 1)
  }

  /** The consecutive integers lo, lo + 1, ..., hi (empty when hi < lo). */
  function Range(lo: int, hi: int): (r: seq<int>)
    decreases hi - lo
    ensures |r| == if lo <= hi then hi - lo + 1 else 0
    ensures forall k :: 0 <= k < |r| ==> r[k] == lo + k
  {
    if lo > hi then [] else [lo] + Range(lo + 1, hi)
  }

  /** The page numbers the bar shows. */
  function PageWindow(currentPage: int, totalPage: int): seq<int>
  {
    Range(StartPage(currentPage), EndPage(currentPage, totalPage))
  }

  /** getPageNumbers: push start, start + 1, ..., end onto an empty list. */
  method GetPageNumbers(currentPage: int, totalPage: int) returns (pageNumbers: seq<int>)
    ensures pageNumbers == PageWindow(currentPage, totalPage)
  {
    pageNumbers := [];
    var startPage := Max(1, currentPage - MaxPagesDisplay / 2);
    var endPage := Min(totalPage, startPage + MaxPagesDisplay - 1);
    var i := startPage;
    while i <= endPage
      invariant startPage <= i
      invariant i <= endPage + 1 || i == startPage
      invariant |pageNumbers| == i - startPage
      invariant forall k :: 0 <= k < |pageNumbers| ==> pageNumbers[k] == startPage + k
    {
      pageNumbers := pageNumbers + [i];
      i := i + 1;
    }
  }

  /** The window is consecutive and increasing, holds at most ten pages, every page in it lies
      in [1, totalPage], and it is empty exactly when totalPage is below its start (so for
      totalPage <= 0). */
  lemma {:induction false} PageWindowBounds(currentPage: int, totalPage: int)
    ensures |PageWindow(currentPage, totalPage)| <= MaxPagesDisplay
    ensures forall k :: 0 <= k < |PageWindow(currentPage, totalPage)| ==>
      1 <= PageWindow(currentPage, totalPage)[k] <= totalPage
    ensures forall j, k :: 0 <= j < k < |PageWindow(currentPage, totalPage)| ==>
      PageWindow(currentPage, totalPage)[j] < PageWindow(currentPage, totalPage)[k]
    ensures PageWindow(currentPage, totalPage) == [] <==> totalPage < StartPage(currentPage)
    ensures totalPage <= 0 ==> PageWindow(currentPage, totalPage) == []
  {
  }

  /** A current page within [1, totalPage] is shown, at position currentPage - start, and no
      other button carries it: exactly one button is marked active. */
  lemma {:induction false} CurrentPageShownOnce(currentPage: int, totalPage: int)
    requires 1 <= currentPage <= totalPage
    ensures currentPage in PageWindow(currentPage, totalPage)
    ensures forall k :: 0 <= k < |PageWindow(currentPage, totalPage)| ==>
      (PageWindow(currentPage, totalPage)[k] == currentPage <==> k == currentPage - StartPage(currentPage))
  {
    var w := PageWindow(currentPage, totalPage);
    var k := currentPage - StartPage(currentPage);
    assert 0 <= k < |w| && w[k] == currentPage;
  }

  /** The window is not shifted back near the end: past page 5 it always starts five pages
      before the current one, even when fewer than ten pages are left to show. */
  lemma NoShiftNearEnd(currentPage: int, totalPage: int)
    requires 5 < currentPage <= totalPage
    ensures PageWindow(currentPage, totalPage)[0] == currentPage - 5
    ensures |PageWindow(currentPage, totalPage)| == Min(10, totalPage - currentPage + 6)
  {
  }

  /** The buttons of the bar. */
  datatype Control = First | Prev | PageButton(page: int) | Next | Last

  /** The bar renders only when there is more than one page. */
  predicate Shown(totalPage: int)
  {
    totalPage > 1
  }

  /** Prev is disabled on page 1, Next and Last on the last page; the others never are. */
  predicate Enabled(c: Control, currentPage: int, totalPage: int)
  {
    match c
    case First => true
    case Prev => currentPage != 1
    case PageButton(_) => true
    case Next => currentPage != totalPage
    case Last => currentPage != totalPage
  }

  /** The page goToPage receives when the button is clicked. */
  function Target(c: Control, currentPage: int, totalPage: int): int
  {
    match c
    case First => 1
    case Prev => currentPage - 1
    case PageButton(page) => page
    case Next => currentPage + 1
    case Last => totalPage
  }

  /** The buttons the bar renders: First, Prev, one per page of the window, Next, Last. */
  predicate Rendered(c: Control, currentPage: int, totalPage: int)
  {
    Shown(totalPage) && (c.PageButton? ==> c.page in PageWindow(currentPage, totalPage))
  }

  /** From a page in [1, totalPage], every rendered and enabled button leads to a page in
      [1, totalPage]; Prev and Next move by exactly one page. */
  lemma NavigationStaysInRange(c: Control, currentPage: int, totalPage: int)
    requires 1 <= currentPage <= totalPage
    requires Rendered(c, currentPage, totalPage) && Enabled(c, currentPage, totalPage)
    ensures 1 <= Target(c, currentPage, totalPage) <= totalPage
    ensures c == Prev ==> Target(c, currentPage, totalPage) == currentPage - 1
    ensures c == Next ==> Target(c, currentPage, totalPage) == currentPage + 1
  {
    if c.PageButton? {
      PageWindowBounds(currentPage, totalPage);
    }
  }

  /** The disabled guards compare with equality only: from a current page outside [1, totalPage]
      Prev or Next stays enabled and leads further out of range. */
  lemma GuardsOnlyCatchTheEdges(totalPage: int)
    requires totalPage > 1
    ensures Enabled(Prev, 0, totalPage) && Target(Prev, 0, totalPage) == -1
    ensures Enabled(Next, totalPage + 1, totalPage) && Target(Next, totalPage + 1, totalPage) == totalPage + 2
  {
  }
}
