/** The search page: paging the fetched results ten at a time, and the state
    update applied when a search settles. The HTTP request itself is replaced
    by its outcome, passed in as a value. */
module IndexPage {
  import ResultsTable

  const ItemsPerPage: nat := 10

  // ---------------------------------------------------------------------------
  // Paging

  /** The index `Array.prototype.slice` uses for a bound `k` on a sequence of
      length `len`: a negative bound counts from the end, and both are clamped
      to [0, len]. */
  function SliceIndex(k: int, len: nat): (r: nat)
    ensures r <= len
    ensures 0 <= k ==> r == ResultsTable.Min(k, len)
  {
    if k < 0 then (if len + k < 0 then 0 else len + k)
    else if k > len then len
    else k
  }

  /** `s.slice(start, end)`. */
  function Slice<T>(s: seq<T>, start: int, end: int): seq<T>
  {
    var from, to := SliceIndex(start, |s|), SliceIndex(end, |s|);
    if from < to then s[from..to] else []
  }

  /** `paginatedResults`: the slice shown on `page`. For every page from 1 on
      it holds exactly the items at indices (page-1)*10 up to page*10 that
      exist, so never more than ten. */
  function PageSlice<T>(results: seq<T>, page: int): (r: seq<T>)
    ensures page >= 1 ==>
      var from := ResultsTable.Min((page - 1) * ItemsPerPage, |results|);
      var to := ResultsTable.Min(page * ItemsPerPage, |results|);
      from <= to && r == results[from..to]
    ensures page >= 1 ==> |r| <= ItemsPerPage
  {
    Slice(results, (page - 1) * ItemsPerPage, page * ItemsPerPage)
  }

  /** `Math.ceil(n / ITEMS_PER_PAGE)`, as integer ceiling division: the fewest
      pages of ten that hold n items. */
  function TotalPages(n: nat): (r: nat)
    ensures n <= r * ItemsPerPage
    ensures r > 0 ==> (r - 1) * ItemsPerPage < n
  {
    (n + ItemsPerPage - 1) / ItemsPerPage
  }

  /** Exactly the pages 1..TotalPages hold items; later pages are empty. */
  lemma PageNonEmptyIff<T>(results: seq<T>, page: int)
    requires page >= 1
    ensures PageSlice(results, page) != [] <==> page <= TotalPages(|results|)
  {
    var n, t := |results|, TotalPages(|results|);
    if page <= t {
      assert (page - 1) * ItemsPerPage <= (t - 1) * ItemsPerPage < n;
      assert |PageSlice(results, page)| > 0;
    } else {
      assert t * ItemsPerPage <= (page - 1) * ItemsPerPage;
    }
  }

  /** Twenty-five results: five on page 3, none on page 4. */
  lemma TwentyFiveResults<T>(results: seq<T>)
    requires |results| == 25
    ensures TotalPages(|results|) == 3
    ensures PageSlice(results, 3) == results[20..25]
    ensures PageSlice(results, 4) == []
  {
  }

  /** The slices of pages 1..k, one after the other. */
  function Pages<T>(results: seq<T>, k: nat): seq<T>
  {
    if k == 0 then [] else Pages(results, k - 1) + PageSlice(results, k)
  }

  /** The first k pages together are the first k*10 results. */
  lemma {:induction false} PagesPrefix<T>(results: seq<T>, k: nat)
    ensures Pages(results, k) == results[..ResultsTable.Min(k * ItemsPerPage, |results|)]
  {
    if k > 0 {
      PagesPrefix(results, k - 1);
      var a := ResultsTable.Min((k - 1) * ItemsPerPage, |results|);
      var b := ResultsTable.Min(k * ItemsPerPage, |results|);
      assert results[..a] + results[a..b] == results[..b];
    }
  }

  /** Reading every page in order reproduces the results exactly. */
  lemma AllPagesReproduceResults<T>(results: seq<T>)
    ensures Pages(results, TotalPages(|results|)) == results
  {
    PagesPrefix(results, TotalPages(|results|));
    assert results[..|results|] == results;
  }

  // ---------------------------------------------------------------------------
  // Search outcomes

  /** How the request ended: with a JSON array of results, with a non-ok HTTP
      status, or with an exception (transport failure, unreadable body). */
  datatype FetchOutcome<T> = Fetched(data: seq<T>) | NotOk | Threw

  /** The toast shown when a search settles. */
  datatype Notification = Found(count: nat) | NoResults | FetchFailed

  function Title(n: Notification): string
  {
    match n
    case Found(_) => "Success"
    case NoResults => "No Results"
    case FetchFailed => "Error"
  }

  /** Whether the toast uses the `destructive` variant. */
  predicate Destructive(n: Notification)
  {
    !n.Found?
  }

  /** The toast for an outcome: the count when data came back and is non-empty,
      "No Results" (destructive) when it is empty, and the error toast for both
      kinds of failure. */
  function OutcomeNotification<T>(o: FetchOutcome<T>): (n: Notification)
    ensures n.Found? <==> o.Fetched? && |o.data| > 0
    ensures n.Found? ==> n.count == |o.data|
    ensures n == NoResults <==> o.Fetched? && o.data == []
    ensures n == FetchFailed <==> !o.Fetched?
  {
    match o
    case Fetched(data) => if |data| > 0 then Found(|data|) else NoResults
    case _ => FetchFailed
  }

  /** Only the count toast is non-destructive, so an empty result reads as
      a warning and a failure as an error, both titled apart. */
  lemma NotificationKinds<T>(o: FetchOutcome<T>)
    ensures Destructive(OutcomeNotification(o)) <==> !(o.Fetched? && |o.data| > 0)
    ensures Title(OutcomeNotification(o)) == "Error" <==> !o.Fetched?
    ensures Title(OutcomeNotification(o)) == "No Results" <==> o.Fetched? && o.data == []
  {
  }

  /** The page's state: the last results, the page shown and the spinner flag. */
  class SearchPage<T> {
    var results: seq<T>
    var currentPage: int
    var isLoading: bool

    /** The page shown exists whenever there are results to page through. */
    ghost predicate Valid()
      reads this
    {
      1 <= currentPage &&
      (results != [] ==> currentPage <= TotalPages(|results|))
    }

    constructor ()
      ensures Valid()
      ensures results == [] && currentPage == 1 && !isLoading
    {
      results, currentPage, isLoading := [], 1, false;
    }

    function PaginatedResults(): (r: seq<T>)
      reads this
      requires Valid()
      ensures |r| <= ItemsPerPage
      ensures results != [] ==> r != []
      ensures r == results[ResultsTable.Min((currentPage - 1) * ItemsPerPage, |results|)..ResultsTable.Min(currentPage * ItemsPerPage, |results|)]
    {
      PageNonEmptyIff(results, currentPage);
      PageSlice(results, currentPage)
    }

    /** The table is rendered only when not loading and there are results, so
        it is never handed zero pages, and the page it shows exists. */
    function ShowsTable(): (b: bool)
      reads this
      requires Valid()
      ensures b <==> !isLoading && results != []
      ensures b ==> 1 <= currentPage <= TotalPages(|results|)
    {
      !isLoading && |results| > 0
    }

    /** The start of `handleSubmit`: the spinner turns on, nothing else changes. */
    method StartSearch()
      requires Valid()
      modifies this
      ensures Valid()
      ensures isLoading
      ensures results == old(results) && currentPage == old(currentPage)
    {
      isLoading := true;
    }

    /** The rest of `handleSubmit`, once the request has settled. Data replaces
        the results outright and goes back to page 1; a failure leaves results
        and page alone; the spinner is off on every path. */
    method Settle(o: FetchOutcome<T>) returns (n: Notification)
      requires Valid()
      modifies this
      ensures Valid()
      ensures !isLoading
      ensures n == OutcomeNotification(o)
      ensures o.Fetched? ==> results == o.data && currentPage == 1
      ensures !o.Fetched? ==> results == old(results) && currentPage == old(currentPage)
    {
      match o {
        case Fetched(data) =>
          results := data;
          currentPage := 1;
          if |data| > 0 {
            n := Found(|data|);
          } else {
            n := NoResults;
          }
        case _ =>
          n := FetchFailed;
      }
      isLoading := false;
    }

    /** `handleSubmit` with the request's outcome given. */
    method HandleSubmit(o: FetchOutcome<T>) returns (n: Notification)
      requires Valid()
      modifies this
      ensures Valid()
      ensures !isLoading
      ensures n == OutcomeNotification(o)
      ensures o.Fetched? ==> results == o.data && currentPage == 1
      ensures !o.Fetched? ==> results == old(results) && currentPage == old(currentPage)
    {
      StartSearch();
      n := Settle(o);
    }

    /** `onPageChange` from a page-number button of the table. */
    method GoToPage(page: int)
      requires Valid() && ShowsTable()
      requires page in ResultsTable.PaginationPages(currentPage, TotalPages(|results|))
      modifies this
      ensures Valid()
      ensures currentPage == page
      ensures results == old(results) && isLoading == old(isLoading)
    {
      currentPage := page;
    }

    /** `onPageChange` from an arrow button of the table; a disabled button
        does nothing. */
    method Navigate(m: ResultsTable.Move)
      requires Valid() && ShowsTable()
      modifies this
      ensures Valid()
      ensures var total := TotalPages(|results|);
        currentPage == if ResultsTable.MoveEnabled(m, old(currentPage), total)
                       then ResultsTable.MoveTarget(m, old(currentPage), total)
                       else old(currentPage)
      ensures results == old(results) && isLoading == old(isLoading)
    {
      var total := TotalPages(|results|);
      if ResultsTable.MoveEnabled(m, currentPage, total) {
        currentPage := ResultsTable.MoveTarget(m, currentPage, total);
      }
    }
  }
}
