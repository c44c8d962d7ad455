/** The search page (src/car/Search.jsx): the filter dictionary with its
    cascade, the filtered list sorted by price on request, and fixed pages
    of 20 cars numbered from 1, shown through the 0-based pagination bar. */
module Search {
  import opened Js
  import opened Seqs
  import opened Catalog
  import opened Filters
  import Pagination

  const CarsPerPage: nat := 20

  /** `a` may precede `b`: the comparator `a.price - b.price` (or its
      negation) is not positive. */
  predicate InOrder(a: Car, b: Car, descending: bool) {
    if descending then a.price >= b.price else a.price <= b.price
  }

  ghost predicate SortedBy(s: seq<Car>, descending: bool) {
    forall i, j :: 0 <= i < j < |s| ==> InOrder(s[i], s[j], descending)
  }

  /** Insert `x` before the first car it may precede. */
  function Insert(x: Car, s: seq<Car>, descending: bool): (r: seq<Car>)
    ensures multiset(r) == multiset{x} + multiset(s)
  {
    if s == [] || InOrder(x, s[0], descending) then [x] + s
    else
      assert s == [s[0]] + s[1..];
      [s[0]] + Insert(x, s[1..], descending)
  }

  /** `results.sort(comparator)`: a stable sort by price, each car inserted
      ahead of the later cars with the same price. */
  function SortByPrice(s: seq<Car>, descending: bool): seq<Car> {
    if s == [] then [] else Insert(s[0], SortByPrice(s[1..], descending), descending)
  }

  lemma {:induction false} InsertSorted(x: Car, s: seq<Car>, descending: bool)
    requires SortedBy(s, descending)
    ensures SortedBy(Insert(x, s, descending), descending)
  {
    if s != [] && !InOrder(x, s[0], descending) {
      InsertSorted(x, s[1..], descending);
      forall y | y in s[1..] ensures InOrder(s[0], y, descending) {
        var j :| 0 <= j < |s[1..]| && s[1..][j] == y;
        assert s[j + 1] == y;
      }
      InsertKeepsBound(s[0], x, s[1..], descending);
      ConsSorted(s[0], Insert(x, s[1..], descending), descending);
    }
  }

  /** A car that may precede `x` and every car of `s` may precede every
      car of the insertion. */
  lemma {:induction false} InsertKeepsBound(b: Car, x: Car, s: seq<Car>, descending: bool)
    requires InOrder(b, x, descending)
    requires forall y :: y in s ==> InOrder(b, y, descending)
    ensures forall y :: y in Insert(x, s, descending) ==> InOrder(b, y, descending)
  {
    forall y | y in Insert(x, s, descending) ensures InOrder(b, y, descending) {
      assert y in multiset(Insert(x, s, descending));
      assert y == x || y in multiset(s);
    }
  }

  /** A car that may precede every car of a sorted list heads a sorted list. */
  lemma {:induction false} ConsSorted(b: Car, t: seq<Car>, descending: bool)
    requires SortedBy(t, descending)
    requires forall y :: y in t ==> InOrder(b, y, descending)
    ensures SortedBy([b] + t, descending)
  {
    var r := [b] + t;
    forall i, j | 0 <= i < j < |r| ensures InOrder(r[i], r[j], descending) {
      if i == 0 {
        assert r[j] == t[j - 1];
      } else {
        assert r[i] == t[i - 1] && r[j] == t[j - 1];
      }
    }
  }

  /** Sorting by price yields a list ordered by price that is a permutation
      of its input. */
  lemma {:induction false} SortByPriceSpec(s: seq<Car>, descending: bool)
    ensures SortedBy(SortByPrice(s, descending), descending)
    ensures multiset(SortByPrice(s, descending)) == multiset(s)
  {
    if s != [] {
      SortByPriceSpec(s[1..], descending);
      InsertSorted(s[0], SortByPrice(s[1..], descending), descending);
      assert s == [s[0]] + s[1..];
    }
  }

  /** The ordering step of `filteredCars`. */
  function OrderCars(s: seq<Car>, sortOrder: string): seq<Car> {
    if sortOrder == "price_asc" then SortByPrice(s, false)
    else if sortOrder == "price_desc" then SortByPrice(s, true)
    else s
  }

  /** `filteredCars`: filter with parseInt price bounds, then order. */
  function FilteredCars(cars: seq<Car>, f: FilterState, sortOrder: string): seq<Car> {
    OrderCars(FilterCars(cars, f, ParseInt), sortOrder)
  }

  /** The search result holds exactly the cars the filters keep, as many
      times as they are kept; it is ordered by non-decreasing price for
      "price_asc", non-increasing for "price_desc", and is the filter's
      order for any other sort order. */
  lemma {:induction false} FilteredCarsSpec(cars: seq<Car>, f: FilterState, sortOrder: string)
    ensures multiset(FilteredCars(cars, f, sortOrder)) == multiset(FilterCars(cars, f, ParseInt))
    ensures sortOrder == "price_asc" ==> forall i, j :: 0 <= i < j < |FilteredCars(cars, f, sortOrder)| ==>
      FilteredCars(cars, f, sortOrder)[i].price <= FilteredCars(cars, f, sortOrder)[j].price
    ensures sortOrder == "price_desc" ==> forall i, j :: 0 <= i < j < |FilteredCars(cars, f, sortOrder)| ==>
      FilteredCars(cars, f, sortOrder)[i].price >= FilteredCars(cars, f, sortOrder)[j].price
    ensures sortOrder != "price_asc" && sortOrder != "price_desc" ==>
      FilteredCars(cars, f, sortOrder) == FilterCars(cars, f, ParseInt)
  {
    var kept := FilterCars(cars, f, ParseInt);
    if sortOrder == "price_asc" {
      SortByPriceSpec(kept, false);
    } else if sortOrder == "price_desc" {
      SortByPriceSpec(kept, true);
    }
  }

  /** `Math.ceil(n / carsPerPage)` */
  function TotalPages(n: nat): (pages: nat)
    ensures pages * CarsPerPage >= n
    ensures pages > 0 ==> (pages - 1) * CarsPerPage < n
  {
    (n + CarsPerPage - 1) / CarsPerPage
  }

  /** `paginatedCars`: the slice of page `page`, counted from 1. */
  function PageOf(s: seq<Car>, page: int): (r: seq<Car>)
    ensures |r| <= CarsPerPage
    ensures page >= 1 && (page - 1) * CarsPerPage <= |s| ==>
      r == s[(page - 1) * CarsPerPage..if page * CarsPerPage <= |s| then page * CarsPerPage else |s|]
    ensures page >= 1 && (page - 1) * CarsPerPage > |s| ==> r == []
    ensures page == 0 ==> r == []
  {
    JsSlice(s, (page - 1) * CarsPerPage, (page - 1) * CarsPerPage + CarsPerPage)
  }

  /** Pages 1 to k, concatenated. */
  function PagesUpTo(s: seq<Car>, k: nat): seq<Car> {
    if k == 0 then [] else PagesUpTo(s, k - 1) + PageOf(s, k)
  }

  lemma {:induction false} PagesUpToPrefix(s: seq<Car>, k: nat)
    ensures PagesUpTo(s, k) == s[..if k * CarsPerPage <= |s| then k * CarsPerPage else |s|]
  {
    if k > 0 {
      PagesUpToPrefix(s, k - 1);
    }
  }

  /** Pages 1 to totalPages, concatenated, give back the whole list. */
  lemma {:induction false} PagesPartition(s: seq<Car>)
    ensures PagesUpTo(s, TotalPages(|s|)) == s
  {
    PagesUpToPrefix(s, TotalPages(|s|));
  }

  /** The page numbering disagreement: the page bar is 0-based while the
      page shown is 1-based, and the search page starts on page 1. With two
      pages or more, page 1 lies in the bar's range [0, totalPages), every
      enabled button from a page in that range requests a page in it, and
      the pages in it end before position (totalPages - 1) * 20, which is a
      position of the list. So the cars on the last page are never shown. */
  lemma {:induction false} LastPageNeverShown(s: seq<Car>, currentPage: int, requested: int)
    requires TotalPages(|s|) >= 2
    requires 0 <= currentPage < TotalPages(|s|)
    requires Pagination.Requests(Pagination.Render(currentPage, TotalPages(|s|)), requested)
    ensures 0 <= requested < TotalPages(|s|)
    ensures (TotalPages(|s|) - 1) * CarsPerPage < |s|
    ensures forall k :: 0 <= k < |PageOf(s, requested)| ==>
      PageOf(s, requested)[k] == s[(requested - 1) * CarsPerPage + k] &&
      (requested - 1) * CarsPerPage + k < (TotalPages(|s|) - 1) * CarsPerPage
  {
    var pages := TotalPages(|s|);
    Pagination.RequestsStayInRange(currentPage, pages, requested);
    assert (pages - 1) * CarsPerPage < |s|;
    if requested >= 1 {
      assert requested * CarsPerPage <= (pages - 1) * CarsPerPage;
      assert (requested - 1) * CarsPerPage <= |s|;
      var start := (requested - 1) * CarsPerPage;
      var end := if requested * CarsPerPage <= |s| then requested * CarsPerPage else |s|;
      var page := PageOf(s, requested);
      assert page == s[start..end];
      forall k | 0 <= k < |page|
        ensures page[k] == s[start + k] && start + k < (pages - 1) * CarsPerPage
      {
      }
    }
  }

  /** With a single page, the search page starts on page 1, which the bar
      takes for a page past the end: Next is enabled and leads to an empty page. */
  lemma {:induction false} SinglePageNextIsEnabled(s: seq<Car>)
    requires TotalPages(|s|) == 1
    ensures !Pagination.Render(1, TotalPages(|s|)).next.disabled
    ensures Pagination.Render(1, TotalPages(|s|)).next.target == 2
    ensures PageOf(s, 2) == []
  {
  }

  /** The state of the search page. */
  class SearchPage {
    var filters: FilterState
    var sortOrder: string
    var currentPage: int

    constructor ()
      ensures filters == EmptyFilters() && sortOrder == "" && currentPage == 1
    {
      filters, sortOrder, currentPage := EmptyFilters(), "", 1;
    }

    /** handleFilterChange, followed by the page-reset effect its new
        filter object triggers. */
    method HandleFilterChange(name: string, value: string)
      modifies this
      ensures filters == Cascade(old(filters), name, value)
      ensures sortOrder == old(sortOrder) && currentPage == 1
    {
      filters := Cascade(filters, name, value);
      currentPage := 1;
    }

    /** resetFilters, followed by the page-reset effect. */
    method ResetFilters()
      modifies this
      ensures filters == EmptyFilters() && sortOrder == old(sortOrder) && currentPage == 1
    {
      filters := EmptyFilters();
      currentPage := 1;
    }

    /** setSortOrder from the dropdown: setting the same order changes no
        state, so the page-reset effect runs only for a new order. */
    method SetSortOrder(order: string)
      modifies this
      ensures sortOrder == order && filters == old(filters)
      ensures order != old(sortOrder) ==> currentPage == 1
      ensures order == old(sortOrder) ==> currentPage == old(currentPage)
    {
      if order != sortOrder {
        sortOrder := order;
        currentPage := 1;
      }
    }

    /** `onPageChange` of the pagination bar. */
    method SetCurrentPage(page: int)
      modifies this`currentPage
      ensures currentPage == page
    {
      currentPage := page;
    }

    /** `filteredCars` for the current filters and sort order: only cars
        of the catalog that pass every filter. */
    function Results(cars: seq<Car>): (r: seq<Car>)
      reads this
      ensures forall c :: c in r ==> c in cars && Matches(c, filters, ParseInt)
    {
      FilteredCarsSpec(cars, filters, sortOrder);
      FilterCarsSpec(cars, filters, ParseInt);
      var r := FilteredCars(cars, filters, sortOrder);
      assert forall c :: c in r ==> c in multiset(r);
      r
    }

    /** The cars shown: the current page of the results, at most 20 of
        them, all taken from the results. */
    function Shown(cars: seq<Car>): (r: seq<Car>)
      reads this
      ensures |r| <= CarsPerPage
      ensures currentPage >= 1 ==> forall c :: c in r ==> c in Results(cars)
    {
      PageOf(Results(cars), currentPage)
    }

    /** The bar rendered under the results: as many numbered buttons as the
        results have pages (they match the pages in count only, the bar
        counting from 0), and Last asking for page totalPages - 1, which
        this page, counting from 1, shows as the next-to-last page. */
    function Bar(cars: seq<Car>): (r: Pagination.Bar)
      reads this
      ensures |r.pages| * CarsPerPage >= |Results(cars)|
      ensures r.last.target == TotalPages(|Results(cars)|) - 1
    {
      Pagination.Render(currentPage, TotalPages(|Results(cars)|))
    }
  }
}
