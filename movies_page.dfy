/**
 * The movies browse page: search text, genre, year and sort filters, a view
 * mode, and a pager of at most five consecutive page buttons.
 */
module Browse {
  import opened JsBuiltins
  import opened Types
  import Api

  const ItemsPerPage: int := 20

  /** How many page buttons the pager shows at most. */
  const PagerWidth: int := 5

  /** `Math.ceil((total || 0) / itemsPerPage)`. */
  function TotalPages(total: Option<int>): (pages: int)
    ensures total.None? || total == Some(0) ==> pages == 0
    ensures total.Some? && total.value > 0 ==>
      pages > 0 && (pages - 1) * ItemsPerPage < total.value <= pages * ItemsPerPage
  {
    var pages := CeilDiv(OrDefault(total, 0), ItemsPerPage);
    if total.Some? && total.value > 0 then
      CeilDivZero(total.value, ItemsPerPage);
      pages
    else
      pages
  }

  /** The first button of the pager. */
  function WindowStart(current: int, totalPages: int): int
  {
    Max(1, Min(totalPages - 4, current - 2))
  }

  /** The page buttons: `min(5, totalPages)` consecutive pages from `WindowStart`. */
  function PageWindow(current: int, totalPages: int): (w: seq<int>)
    ensures |w| == Max(0, Min(PagerWidth, totalPages))
    ensures forall i :: 0 <= i < |w| ==> w[i] == WindowStart(current, totalPages) + i
  {
    seq(Max(0, Min(PagerWidth, totalPages)), i => WindowStart(current, totalPages) + i)
  }

  /**
   * For a page that exists, every button names a page that exists, and the
   * current page has a button.
   */
  lemma PageWindowCoversCurrent(current: int, totalPages: int)
    requires 1 <= current <= totalPages
    ensures var w := PageWindow(current, totalPages);
      (forall i :: 0 <= i < |w| ==> 1 <= w[i] <= totalPages) && current in w
  {
    var w := PageWindow(current, totalPages);
    var start := WindowStart(current, totalPages);
    assert w[current - start] == current;
  }

  /** With fewer than five pages the pager shows every page, 1..totalPages. */
  lemma SmallWindowIsEveryPage(current: int, totalPages: int)
    requires 0 <= totalPages < PagerWidth
    ensures PageWindow(current, totalPages) == seq(totalPages, i => i + 1)
  {
  }

  /**
   * The pager: Previous, the page buttons and Next, or None when there is at
   * most one page. When shown, it has at least two page buttons.
   */
  function Pager(current: int, totalPages: int): (r: Option<seq<int>>)
    ensures r.None? <==> totalPages <= 1
    ensures r.Some? ==> r.value == PageWindow(current, totalPages) && 2 <= |r.value| <= PagerWidth
  {
    if totalPages <= 1 then None else Some(PageWindow(current, totalPages))
  }

  function Previous(current: int): int { Max(1, current - 1) }

  function Next(current: int, totalPages: int): int { Min(totalPages, current + 1) }

  /** Previous and Next step by one and stay within 1..totalPages. */
  lemma PreviousNextInRange(current: int, totalPages: int)
    requires 1 <= current <= totalPages
    ensures 1 <= Previous(current) <= current && current <= Next(current, totalPages) <= totalPages
    ensures current > 1 ==> Previous(current) == current - 1
    ensures current < totalPages ==> Next(current, totalPages) == current + 1
  {
  }

  datatype ViewMode = Grid | List

  function Toggled(mode: ViewMode): (r: ViewMode)
    ensures r != mode
  {
    if mode == Grid then List else Grid
  }

  lemma ToggleTwice(mode: ViewMode)
    ensures Toggled(Toggled(mode)) == mode
  {
  }

  /** The filter state of the page. */
  datatype Filters = Filters(search: string, genre: string, year: string, sortBy: string)

  const NoFilters: Filters := Filters("", "all", "all", "newest")

  /** The options the page passes to `fetchMovies` for a filter state and a page. */
  function OptionsFor(filters: Filters, page: int): (o: Api.FetchOptions)
    ensures o.search == filters.search && o.genre == filters.genre && o.year == filters.year && o.sortBy == filters.sortBy
    ensures page != 0 ==> OrDefault(o.page, Api.DefaultPage) == page
    ensures OrDefault(o.limit, Api.DefaultLimit) == ItemsPerPage
  {
    Api.FetchOptions(filters.search, filters.genre, filters.year, filters.sortBy, Some(page), Some(ItemsPerPage))
  }

  /**
   * For one response body, the page number plays no part in what `fetchMovies`
   * returns: any two sorted lists `FetchList` may produce for the same filters
   * at pages `p1` and `p2` are equal, and so are their first 20 records.
   */
  lemma PageKeepsList(records: seq<MediaItem>, filters: Filters, p1: int, p2: int,
                      ratingRank: MediaItem -> int, titleRank: MediaItem -> int,
                      sorted1: seq<MediaItem>, sorted2: seq<MediaItem>)
    requires Api.SortedBy(sorted1, Api.OrderKey(Api.SortOrderOf(filters.sortBy), ratingRank, titleRank))
    requires Api.SortedBy(sorted2, Api.OrderKey(Api.SortOrderOf(filters.sortBy), ratingRank, titleRank))
    requires Api.SameTies(sorted1, Api.Filtered(records, OptionsFor(filters, p1)), Api.OrderKey(Api.SortOrderOf(filters.sortBy), ratingRank, titleRank))
    requires Api.SameTies(sorted2, Api.Filtered(records, OptionsFor(filters, p2)), Api.OrderKey(Api.SortOrderOf(filters.sortBy), ratingRank, titleRank))
    ensures sorted1 == sorted2
    ensures sorted1[..Min(Api.BrowseCap, |sorted1|)] == sorted2[..Min(Api.BrowseCap, |sorted2|)]
  {
    var key := Api.OrderKey(Api.SortOrderOf(filters.sortBy), ratingRank, titleRank);
    assert Api.Filtered(records, OptionsFor(filters, p1)) == Api.Filtered(records, OptionsFor(filters, p2));
    forall k
      ensures KeepIf(sorted1, Api.HasKey(key, k)) == KeepIf(sorted2, Api.HasKey(key, k))
    {
      assert KeepIf(sorted1, Api.HasKey(key, k)) == KeepIf(Api.Filtered(records, OptionsFor(filters, p1)), Api.HasKey(key, k));
    }
    Api.SortedUnique(sorted1, sorted2, key);
  }

  /** After a reset no record is filtered out and the list is sorted newest first. */
  lemma NoFiltersSelectAll(records: seq<MediaItem>, page: int)
    ensures Api.Filtered(records, OptionsFor(NoFilters, page)) == records
    ensures Api.SortOrderOf(OptionsFor(NoFilters, page).sortBy) == Api.Newest
  {
  }

  /** The state of the movies page. */
  class MoviesPage {
    var searchQuery: string
    var selectedGenre: string
    var selectedYear: string
    var sortBy: string
    var currentPage: int
    var viewMode: ViewMode

    /** Everything starts unfiltered on page 1, in grid view. */
    constructor ()
      ensures CurrentFilters() == NoFilters && currentPage == 1 && viewMode == Grid
    {
      searchQuery := "";
      selectedGenre := "all";
      selectedYear := "all";
      sortBy := "newest";
      currentPage := 1;
      viewMode := Grid;
    }

    function CurrentFilters(): Filters
      reads this
    {
      Filters(searchQuery, selectedGenre, selectedYear, sortBy)
    }

    method SetSearchQuery(text: string)
      modifies this
      ensures CurrentFilters() == old(CurrentFilters()).(search := text)
      ensures currentPage == old(currentPage) && viewMode == old(viewMode)
    {
      searchQuery := text;
    }

    /** Submitting the search goes back to page 1 and changes nothing else. */
    method HandleSearch()
      modifies this
      ensures currentPage == 1
      ensures CurrentFilters() == old(CurrentFilters()) && viewMode == old(viewMode)
    {
      currentPage := 1;
    }

    /** `resetFilters`: every filter back to its default, page 1; the view mode stays. */
    method ResetFilters()
      modifies this
      ensures CurrentFilters() == NoFilters && currentPage == 1
      ensures viewMode == old(viewMode)
    {
      searchQuery := "";
      selectedGenre := "all";
      selectedYear := "all";
      sortBy := "newest";
      currentPage := 1;
    }

    /** Choosing a genre changes only the genre; the page is not reset. */
    method SelectGenre(genre: string)
      modifies this
      ensures CurrentFilters() == old(CurrentFilters()).(genre := genre)
      ensures currentPage == old(currentPage) && viewMode == old(viewMode)
    {
      selectedGenre := genre;
    }

    /** Choosing a year changes only the year; the page is not reset. */
    method SelectYear(year: string)
      modifies this
      ensures CurrentFilters() == old(CurrentFilters()).(year := year)
      ensures currentPage == old(currentPage) && viewMode == old(viewMode)
    {
      selectedYear := year;
    }

    /** Choosing a sort order changes only the order; the page is not reset. */
    method SelectSort(order: string)
      modifies this
      ensures CurrentFilters() == old(CurrentFilters()).(sortBy := order)
      ensures currentPage == old(currentPage) && viewMode == old(viewMode)
    {
      sortBy := order;
    }

    /**
     * The view button has no `type` inside the filter form, so a click also
     * submits the form: the view flips and `handleSearch` goes back to page 1.
     */
    method ToggleViewMode()
      modifies this
      ensures viewMode == Toggled(old(viewMode))
      ensures currentPage == 1
      ensures CurrentFilters() == old(CurrentFilters())
    {
      viewMode := Toggled(viewMode);
      HandleSearch();
    }

    /** The Previous button. */
    method GoPrevious()
      modifies this
      ensures currentPage == Previous(old(currentPage))
      ensures CurrentFilters() == old(CurrentFilters()) && viewMode == old(viewMode)
    {
      currentPage := Previous(currentPage);
    }

    /** The Next button, for the page count of the current response. */
    method GoNext(total: Option<int>)
      modifies this
      ensures currentPage == Next(old(currentPage), TotalPages(total))
      ensures CurrentFilters() == old(CurrentFilters()) && viewMode == old(viewMode)
    {
      currentPage := Next(currentPage, TotalPages(total));
    }

    /** A page button. */
    method GoToPage(page: int)
      modifies this
      ensures currentPage == page
      ensures CurrentFilters() == old(CurrentFilters()) && viewMode == old(viewMode)
    {
      currentPage := page;
    }
  }
}
