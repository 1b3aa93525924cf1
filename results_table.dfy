/** The results table's pagination controls: the window of page-number buttons
    and the first/previous/next/last moves. */
module ResultsTable {

  /** The most page-number buttons shown at once. */
  const PaginationLimit: nat := 5

  function Min(a: int, b: int): int
  {
    if a <= b then a else b
  }

  /** `Array.from({ length: n }, (_, i) => start + i)`: the n consecutive pages
      from `start` on. */
  function Run(start: int, n: nat): seq<int>
  {
    seq(n, i => start + i)
  }

  lemma RunContains(start: int, n: nat, p: int)
    ensures start <= p < start + n ==> p in Run(start, n)
  {
    if start <= p < start + n {
      assert Run(start, n)[p - start] == p;
    }
  }

  /** `pages.filter(page => page > 0 && page <= totalPages)`. */
  function InRange(pages: seq<int>, totalPages: int): (r: seq<int>)
    ensures forall p :: p in r <==> p in pages && 0 < p <= totalPages
  {
    if pages == [] then []
    else (if 0 < pages[0] <= totalPages then [pages[0]] else []) + InRange(pages[1..], totalPages)
  }

  /** The filter keeps a run whose pages all lie in [1, totalPages] whole. */
  lemma {:induction false} InRangeKeepsAll(pages: seq<int>, totalPages: int)
    requires forall i :: 0 <= i < |pages| ==> 0 < pages[i] <= totalPages
    ensures InRange(pages, totalPages) == pages
  {
    if pages != [] {
      InRangeKeepsAll(pages[1..], totalPages);
    }
  }

  /** `getPaginationPages`: all pages when there are few, else the first five,
      the last five, or the five centred on the current page. Whatever the
      inputs, the buttons are consecutive pages that exist, as many as fit,
      and the current page is among them whenever it exists. */
  function PaginationPages(currentPage: int, totalPages: nat): (r: seq<int>)
    ensures |r| == Min(totalPages, PaginationLimit)
    ensures forall i :: 0 <= i < |r| ==> 1 <= r[i] <= totalPages
    ensures forall i :: 0 < i < |r| ==> r[i] == r[i - 1] + 1
    ensures 1 <= currentPage <= totalPages ==> currentPage in r
  {
    if totalPages <= PaginationLimit then
      RunContains(1, totalPages, currentPage);
      Run(1, totalPages)
    else if currentPage <= PaginationLimit - 1 then
      RunContains(1, PaginationLimit, currentPage);
      Run(1, PaginationLimit)
    else if currentPage > totalPages - PaginationLimit then
      RunContains(totalPages - PaginationLimit + 1, PaginationLimit, currentPage);
      Run(totalPages - PaginationLimit + 1, PaginationLimit)
    else
      var centred := [currentPage - 2, currentPage - 1, currentPage, currentPage + 1, currentPage + 2];
      InRangeKeepsAll(centred, totalPages);
      InRange(centred, totalPages)
  }

  /** In the centred case the range filter never drops a page: the window is
      exactly the two pages either side of the current one. */
  lemma CentredWindow(currentPage: int, totalPages: nat)
    requires totalPages > PaginationLimit
    requires PaginationLimit - 1 < currentPage <= totalPages - PaginationLimit
    ensures PaginationPages(currentPage, totalPages) == Run(currentPage - 2, PaginationLimit)
  {
    var centred := [currentPage - 2, currentPage - 1, currentPage, currentPage + 1, currentPage + 2];
    InRangeKeepsAll(centred, totalPages);
    assert centred == Run(currentPage - 2, PaginationLimit);
  }

  /** The four windows: every page when there are at most five (none when
      there are none), the first five near the start, the last five near the
      end, and otherwise the two pages either side of the current one. */
  lemma PaginationWindows(currentPage: int, totalPages: nat)
    ensures totalPages <= PaginationLimit ==>
      PaginationPages(currentPage, totalPages) == Run(1, totalPages)
    ensures totalPages > PaginationLimit && currentPage < PaginationLimit ==>
      PaginationPages(currentPage, totalPages) == Run(1, PaginationLimit)
    ensures totalPages > PaginationLimit && currentPage >= PaginationLimit &&
            currentPage > totalPages - PaginationLimit ==>
      PaginationPages(currentPage, totalPages) == Run(totalPages - PaginationLimit + 1, PaginationLimit)
    ensures totalPages > PaginationLimit && PaginationLimit <= currentPage <= totalPages - PaginationLimit ==>
      PaginationPages(currentPage, totalPages) == Run(currentPage - 2, PaginationLimit)
  {
    if totalPages > PaginationLimit && PaginationLimit <= currentPage <= totalPages - PaginationLimit {
      CentredWindow(currentPage, totalPages);
    }
  }

  lemma PaginationExamples()
    ensures PaginationPages(1, 3) == [1, 2, 3]
    ensures PaginationPages(1, 20) == [1, 2, 3, 4, 5]
    ensures PaginationPages(20, 20) == [16, 17, 18, 19, 20]
    ensures PaginationPages(10, 20) == [8, 9, 10, 11, 12]
  {
    assert PaginationPages(1, 3) == Run(1, 3);
    assert PaginationPages(1, 20) == Run(1, 5);
    assert PaginationPages(20, 20) == Run(16, 5);
    CentredWindow(10, 20);
  }

  /** The four arrow buttons around the page numbers. */
  datatype Move = First | Prev | Next | Last

  /** A button is disabled (`pointer-events-none`) at the bound it moves
      towards: "<<" and "<" on page 1, ">" and ">>" on the last page. */
  predicate MoveEnabled(m: Move, currentPage: int, totalPages: int)
  {
    match m
    case First | Prev => currentPage != 1
    case Next | Last => currentPage != totalPages
  }

  /** The page a button hands to `onPageChange`. An enabled move from an
      existing page lands on an existing page. */
  function MoveTarget(m: Move, currentPage: int, totalPages: int): (r: int)
    ensures MoveEnabled(m, currentPage, totalPages) && 1 <= currentPage <= totalPages ==>
      1 <= r <= totalPages
    ensures m == Prev ==> r < currentPage
    ensures m == Next ==> r > currentPage
  {
    match m
    case First => 1
    case Prev => currentPage - 1
    case Next => currentPage + 1
    case Last => totalPages
  }

  /** From an existing page with "<" enabled, ">" is enabled on the page "<"
      leads to and brings the user back. */
  lemma PrevThenNext(currentPage: int, totalPages: int)
    requires 1 <= currentPage <= totalPages && MoveEnabled(Prev, currentPage, totalPages)
    ensures var p := MoveTarget(Prev, currentPage, totalPages);
      1 <= p <= totalPages && MoveEnabled(Next, p, totalPages) && MoveTarget(Next, p, totalPages) == currentPage
  {
  }

  /** From an existing page with ">" enabled, "<" is enabled on the page ">"
      leads to and brings the user back. */
  lemma NextThenPrev(currentPage: int, totalPages: int)
    requires 1 <= currentPage <= totalPages && MoveEnabled(Next, currentPage, totalPages)
    ensures var p := MoveTarget(Next, currentPage, totalPages);
      1 <= p <= totalPages && MoveEnabled(Prev, p, totalPages) && MoveTarget(Prev, p, totalPages) == currentPage
  {
  }
}
