/**
 * The search page: two result tracks (movies and TV shows) with their own page
 * counters, an ellipsis pager, the "Showing start-end of total" line, the
 * combined "all" list and the query state mirrored into the page URL.
 */
module Search {
  import opened JsBuiltins
  import opened Types
  import opened UrlParams
  import Api

  /** How many pages the pager shows on each side of the current one. */
  const Delta: int := 2

  const DefaultTab: string := "all"
  const DefaultPageSize: int := 20

  // ---------------------------------------------------------------------------
  // getVisiblePages

  /** One pager button: a page number, or an inert "..." */
  datatype PageEntry = Num(n: int) | Dots

  /** The integers lo..hi, ascending; empty when lo > hi. */
  function Span(lo: int, hi: int): (r: seq<int>)
    ensures |r| == if lo <= hi then hi - lo + 1 else 0
    ensures forall i :: 0 <= i < |r| ==> r[i] == lo + i
  {
    if lo > hi then [] else seq(hi - lo + 1, i => lo + i)
  }

  function Nums(ns: seq<int>): (r: seq<PageEntry>)
    ensures |r| == |ns|
    ensures forall i :: 0 <= i < |ns| ==> r[i] == Num(ns[i])
  {
    seq(|ns|, i requires 0 <= i < |ns| => Num(ns[i]))
  }

  /** What `getVisiblePages` returns: page 1, the pages within `Delta` of the current one, the last page. */
  function Window(current: int, totalPages: int): seq<PageEntry>
  {
    Head(current) + Nums(Middle(current, totalPages)) + Tail(current, totalPages)
  }

  function Head(current: int): seq<PageEntry>
  {
    if current - Delta > 2 then [Num(1), Dots] else [Num(1)]
  }

  /** The pages within `Delta` of the current one, leaving out the first and the last. */
  function Middle(current: int, totalPages: int): seq<int>
  {
    Span(Max(2, current - Delta), Min(totalPages - 1, current + Delta))
  }

  function Tail(current: int, totalPages: int): seq<PageEntry>
  {
    if current + Delta < totalPages - 1 then [Dots, Num(totalPages)] else [Num(totalPages)]
  }

  /** `getVisiblePages`: a loop fills `range`, then `rangeWithDots` is built around it. */
  method VisiblePages(current: int, totalPages: int) returns (rangeWithDots: seq<PageEntry>)
    ensures rangeWithDots == Window(current, totalPages)
  {
    var range: seq<int> := [];
    var lo := Max(2, current - Delta);
    var hi := Min(totalPages - 1, current + Delta);
    var i := lo;
    while i <= hi
      invariant lo <= i <= Max(lo, hi + 1)
      invariant range == Span(lo, i - 1)
    {
      range := range + [i];
      i := i + 1;
    }
    if lo <= hi {
      assert i == hi + 1;
    } else {
      assert |range| == 0 == |Span(lo, hi)|;
    }
    assert range == Middle(current, totalPages);
    if current - Delta > 2 {
      rangeWithDots := [Num(1), Dots];
    } else {
      rangeWithDots := [Num(1)];
    }
    rangeWithDots := rangeWithDots + Nums(range);
    if current + Delta < totalPages - 1 {
      rangeWithDots := rangeWithDots + [Dots, Num(totalPages)];
    } else {
      rangeWithDots := rangeWithDots + [Num(totalPages)];
    }
  }

  /** The page numbers among the entries, in order. */
  function Numbers(w: seq<PageEntry>): (r: seq<int>)
    ensures |r| <= |w|
  {
    if |w| == 0 then []
    else if w[0].Num? then [w[0].n] + Numbers(w[1..])
    else Numbers(w[1..])
  }

  lemma {:induction false} NumbersAppend(a: seq<PageEntry>, b: seq<PageEntry>)
    ensures Numbers(a + b) == Numbers(a) + Numbers(b)
  {
    if |a| > 0 {
      assert (a + b)[1..] == a[1..] + b;
      NumbersAppend(a[1..], b);
    } else {
      assert a + b == b;
    }
  }

  lemma {:induction false} NumbersOfNums(ns: seq<int>)
    ensures Numbers(Nums(ns)) == ns
  {
    if |ns| > 0 {
      assert Nums(ns)[1..] == Nums(ns[1..]);
      NumbersOfNums(ns[1..]);
    }
  }

  /**
   * The shape of the pager for a real page range: it starts at page 1 and ends
   * at the last page, the numbers in between are exactly those within `Delta`
   * of the current page (but never 1 or the last page), and there are at most
   * nine buttons.
   */
  lemma WindowNumbers(current: int, totalPages: int)
    requires 2 <= totalPages && 1 <= current <= totalPages
    ensures var w := Window(current, totalPages);
      && 2 <= |w| <= 9
      && w[0] == Num(1) && w[|w| - 1] == Num(totalPages)
      && Numbers(w) == [1] + Span(Max(2, current - Delta), Min(totalPages - 1, current + Delta)) + [totalPages]
  {
    var head, mid, tail := Head(current), Middle(current, totalPages), Tail(current, totalPages);
    NumbersAppend(head + Nums(mid), tail);
    NumbersAppend(head, Nums(mid));
    NumbersOfNums(mid);
    assert Numbers(head) == [1];
    assert Numbers(tail) == [totalPages];
  }

  /** The page numbers strictly increase from left to right. */
  lemma WindowIncreasing(current: int, totalPages: int)
    requires 2 <= totalPages && 1 <= current <= totalPages
    ensures var w := Window(current, totalPages);
      forall i, j :: 0 <= i < j < |w| && w[i].Num? && w[j].Num? ==> w[i].n < w[j].n
  {
  }

  /**
   * "..." follows page 1 exactly when the current page is more than `Delta`
   * past page 3, and precedes the last page exactly when it is more than
   * `Delta` before the last page but one.
   */
  lemma WindowEllipses(current: int, totalPages: int)
    requires 2 <= totalPages && 1 <= current <= totalPages
    ensures var w := Window(current, totalPages);
      && (w[1] == Dots <==> current - Delta > 2)
      && (w[|w| - 2] == Dots <==> current + Delta < totalPages - 1)
  {
  }

  /**
   * Neighbouring page numbers with no "..." between them are consecutive,
   * and each "..." stands for at least one hidden page.
   */
  lemma WindowGaps(current: int, totalPages: int)
    requires 2 <= totalPages && 1 <= current <= totalPages
    ensures var w := Window(current, totalPages);
      && (forall i :: 0 <= i < |w| - 1 && w[i].Num? && w[i + 1].Num? ==> w[i + 1].n == w[i].n + 1)
      && (forall i :: 0 < i < |w| - 1 && w[i] == Dots ==> w[i - 1].Num? && w[i + 1].Num? && w[i - 1].n + 1 < w[i + 1].n)
  {
  }

  /** The current page always has a button. */
  lemma WindowShowsCurrent(current: int, totalPages: int)
    requires 2 <= totalPages && 1 <= current <= totalPages
    ensures Num(current) in Window(current, totalPages)
  {
    var head, mid, tail := Head(current), Nums(Middle(current, totalPages)), Tail(current, totalPages);
    var w := head + mid + tail;
    if 1 < current < totalPages {
      var k := current - Max(2, current - Delta);
      assert w[|head| + k] == mid[k] == Num(current);
    } else if current == totalPages {
      assert w[|w| - 1] == Num(current);
    }
  }

  /** Every page number on the pager lies within 1..totalPages. */
  lemma WindowInRange(current: int, totalPages: int)
    requires 1 <= totalPages
    ensures var w := Window(current, totalPages);
      forall i :: 0 <= i < |w| && w[i].Num? ==> 1 <= w[i].n <= totalPages
  {
    var head, mid, tail := Head(current), Nums(Middle(current, totalPages)), Tail(current, totalPages);
    var w := head + mid + tail;
    forall i | 0 <= i < |w| && w[i].Num?
      ensures 1 <= w[i].n <= totalPages
    {
      if |head| <= i < |head| + |mid| {
        assert w[i] == mid[i - |head|];
      } else if |head| + |mid| <= i {
        assert w[i] == tail[i - |head| - |mid|];
      }
    }
  }

  lemma WindowExamples()
    ensures Window(5, 10) == [Num(1), Dots, Num(3), Num(4), Num(5), Num(6), Num(7), Dots, Num(10)]
    ensures Window(1, 5) == [Num(1), Num(2), Num(3), Dots, Num(5)]
    ensures Window(1, 2) == [Num(1), Num(2)]
  {
  }

  // ---------------------------------------------------------------------------
  // renderPagination

  /** The pager, or None (`null`) when there is at most one page. */
  function Pager(current: int, totalPages: int): (r: Option<seq<PageEntry>>)
    ensures r.None? <==> totalPages <= 1
    ensures r.Some? ==> r.value == Window(current, totalPages)
  {
    if totalPages <= 1 then None else Some(Window(current, totalPages))
  }

  function Previous(current: int): int { Max(1, current - 1) }

  function Next(current: int, totalPages: int): int { Min(totalPages, current + 1) }

  /** Clicking a button: a number moves to that page, "..." does nothing. */
  function AfterClick(current: int, entry: PageEntry): int
  {
    if entry.Num? then entry.n else current
  }

  /** Previous and Next move by one page and never leave 1..totalPages. */
  lemma PreviousNextInRange(current: int, totalPages: int)
    requires 1 <= current <= totalPages
    ensures 1 <= Previous(current) <= totalPages && 1 <= Next(current, totalPages) <= totalPages
    ensures current > 1 ==> Previous(current) == current - 1
    ensures current < totalPages ==> Next(current, totalPages) == current + 1
  {
  }

  /** Whatever is clicked in a shown pager, the page stays within 1..totalPages; "..." changes nothing. */
  lemma ClickInRange(current: int, totalPages: int, entry: PageEntry)
    requires 1 <= current <= totalPages
    requires entry in Window(current, totalPages)
    ensures 1 <= AfterClick(current, entry) <= totalPages
    ensures entry == Dots ==> AfterClick(current, entry) == current
  {
    if entry.Num? {
      var w := Window(current, totalPages);
      WindowInRange(current, totalPages);
      var i :| 0 <= i < |w| && w[i] == entry;
    }
  }

  // ---------------------------------------------------------------------------
  // Totals, the combined list and the results line

  /** `results?.total || 0`: no response, no total or a zero total all count as 0. */
  function TrackTotal(results: Option<Api.PaginatedResponse>): (total: int)
    ensures results.None? ==> total == 0
    ensures results.Some? && results.value.total.Some? && results.value.total.value != 0 ==> total == results.value.total.value
    ensures results.Some? && (results.value.total.None? || results.value.total == Some(0)) ==> total == 0
  {
    if results.Some? then OrDefault(results.value.total, 0) else 0
  }

  /** `Math.ceil(total / pageSize)`. */
  function TrackTotalPages(total: int, pageSize: int): int
    requires pageSize != 0
  {
    CeilDiv(total, pageSize)
  }

  /** The page count covers the results exactly: the last page is not empty and nothing is past it. */
  lemma TotalPagesCover(total: int, pageSize: int)
    requires total >= 0 && pageSize > 0
    ensures var pages := TrackTotalPages(total, pageSize);
      && pages >= 0
      && (pages == 0 <==> total == 0)
      && (pages - 1) * pageSize < total <= pages * pageSize
  {
    CeilDivZero(total, pageSize);
  }

  /** The count on the "All" tab. */
  function AllTotal(movieResults: Option<Api.PaginatedResponse>, tvResults: Option<Api.PaginatedResponse>): (total: int)
    ensures total == TrackTotal(movieResults) + TrackTotal(tvResults)
    ensures movieResults.None? && tvResults.None? ==> total == 0
  {
    TrackTotal(movieResults) + TrackTotal(tvResults)
  }

  /** A result element tagged with the track it came from. */
  datatype Tagged = Tagged(item: Element, kind: Kind)

  /** `results?.items || []`. */
  function ItemsOf(results: Option<Api.PaginatedResponse>): seq<Element>
  {
    if results.Some? then results.value.items else []
  }

  function Tag(items: seq<Element>, kind: Kind): (r: seq<Tagged>)
    ensures |r| == |items|
    ensures forall i :: 0 <= i < |items| ==> r[i] == Tagged(items[i], kind)
  {
    seq(|items|, i requires 0 <= i < |items| => Tagged(items[i], kind))
  }

  /** `allResults`: the movie results tagged "movie", then the TV results tagged "tv". */
  function AllResults(movieResults: Option<Api.PaginatedResponse>, tvResults: Option<Api.PaginatedResponse>): (r: seq<Tagged>)
    ensures |r| == |ItemsOf(movieResults)| + |ItemsOf(tvResults)|
    ensures forall i :: 0 <= i < |ItemsOf(movieResults)| ==> r[i] == Tagged(ItemsOf(movieResults)[i], MovieKind)
    ensures forall j :: 0 <= j < |ItemsOf(tvResults)| ==>
      r[|ItemsOf(movieResults)| + j] == Tagged(ItemsOf(tvResults)[j], TvKind)
  {
    Tag(ItemsOf(movieResults), MovieKind) + Tag(ItemsOf(tvResults), TvKind)
  }

  /** Every movie comes before every show in the combined list. */
  lemma AllResultsMoviesFirst(movieResults: Option<Api.PaginatedResponse>, tvResults: Option<Api.PaginatedResponse>)
    ensures var r := AllResults(movieResults, tvResults);
      forall i, j :: 0 <= i < j < |r| && r[i].kind == TvKind ==> r[j].kind == TvKind
  {
  }

  /** The "Showing start-end of total" line, or None (`null`) when there are no results. */
  function ResultsRange(current: int, total: int, pageSize: int): (r: Option<(int, int)>)
    ensures r.None? <==> total == 0
  {
    if total == 0 then None
    else Some(((current - 1) * pageSize + 1, Min(current * pageSize, total)))
  }

  lemma MulMono(a: int, b: int, k: int)
    requires a <= b && k >= 0
    ensures a * k <= b * k
  {
  }

  /**
   * For a page that exists, the line names a non-empty run of results that
   * lies within 1..total and fits on one page.
   */
  lemma ResultsRangeBounds(current: int, total: int, pageSize: int)
    requires total > 0 && pageSize > 0
    requires 1 <= current <= TrackTotalPages(total, pageSize)
    ensures ResultsRange(current, total, pageSize).Some?
    ensures var (start, end) := ResultsRange(current, total, pageSize).value;
      1 <= start <= end <= total && end - start + 1 <= pageSize
  {
    var pages := TrackTotalPages(total, pageSize);
    MulMono(current - 1, pages - 1, pageSize);
    MulMono(0, current - 1, pageSize);
    assert current * pageSize == (current - 1) * pageSize + pageSize;
  }

  /** The "All" tab always reports page 1: the first `pageSize` results. */
  lemma AllTabRange(total: int, pageSize: int)
    requires total > 0 && pageSize > 0
    ensures ResultsRange(1, total, pageSize) == Some((1, Min(pageSize, total)))
  {
  }

  // ---------------------------------------------------------------------------
  // The URL state

  /** The part of the page state mirrored into the URL. */
  datatype SearchState = SearchState(query: string, tab: string, moviePage: int, tvPage: int, pageSize: int)

  /** One conditional `params.set`. */
  function SetIf(params: Params, on: bool, name: string, value: string): Params
  {
    if on then Set(params, name, value) else params
  }

  /** The query parameters the URL effect builds: only the values that differ from their defaults. */
  function Serialize(st: SearchState): Params
  {
    var p1 := SetIf([], st.query != "", "q", st.query);
    var p2 := SetIf(p1, st.tab != DefaultTab, "tab", st.tab);
    var p3 := SetIf(p2, st.moviePage != 1, "moviePage", IntToString(st.moviePage));
    var p4 := SetIf(p3, st.tvPage != 1, "tvPage", IntToString(st.tvPage));
    SetIf(p4, st.pageSize != DefaultPageSize, "pageSize", IntToString(st.pageSize))
  }

  /** `params.get(name) || fallback`: a missing or empty value gives the fallback. */
  function GetOr(params: Params, name: string, fallback: string): (v: string)
    ensures fallback != "" ==> v != ""
  {
    match Get(params, name)
    case Some(v) => if v == "" then fallback else v
    case None => fallback
  }

  /** The initial state read from the URL; None when a number does not parse (NaN). */
  function Parse(params: Params): Option<SearchState>
  {
    var query := GetOr(params, "q", "");
    var tab := GetOr(params, "tab", DefaultTab);
    match (ParseInt(GetOr(params, "moviePage", "1")), ParseInt(GetOr(params, "tvPage", "1")), ParseInt(GetOr(params, "pageSize", "20")))
    case (Some(moviePage), Some(tvPage), Some(pageSize)) => Some(SearchState(query, tab, moviePage, tvPage, pageSize))
    case _ => None
  }

  lemma GetSetIf(params: Params, on: bool, name: string, value: string, other: string)
    ensures Get(SetIf(params, on, name, value), other) ==
      if on && other == name then Some(value) else Get(params, other)
  {
    if on {
      if other == name {
      } else {
        SetKeepsOthers(params, name, value, other);
      }
    }
  }

  lemma GetSerializedAt(st: SearchState, name: string)
    ensures Get(Serialize(st), name) ==
      if name == "pageSize" && st.pageSize != DefaultPageSize then Some(IntToString(st.pageSize))
      else if name == "tvPage" && st.tvPage != 1 then Some(IntToString(st.tvPage))
      else if name == "moviePage" && st.moviePage != 1 then Some(IntToString(st.moviePage))
      else if name == "tab" && st.tab != DefaultTab then Some(st.tab)
      else if name == "q" && st.query != "" then Some(st.query)
      else None
  {
    var p1 := SetIf([], st.query != "", "q", st.query);
    var p2 := SetIf(p1, st.tab != DefaultTab, "tab", st.tab);
    var p3 := SetIf(p2, st.moviePage != 1, "moviePage", IntToString(st.moviePage));
    var p4 := SetIf(p3, st.tvPage != 1, "tvPage", IntToString(st.tvPage));
    GetSetIf([], st.query != "", "q", st.query, name);
    GetSetIf(p1, st.tab != DefaultTab, "tab", st.tab, name);
    GetSetIf(p2, st.moviePage != 1, "moviePage", IntToString(st.moviePage), name);
    GetSetIf(p3, st.tvPage != 1, "tvPage", IntToString(st.tvPage), name);
    GetSetIf(p4, st.pageSize != DefaultPageSize, "pageSize", IntToString(st.pageSize), name);
  }

  /** The URL holds exactly the values that differ from their defaults, each under its own name. */
  lemma GetSerialized(st: SearchState)
    ensures Get(Serialize(st), "q") == if st.query != "" then Some(st.query) else None
    ensures Get(Serialize(st), "tab") == if st.tab != DefaultTab then Some(st.tab) else None
    ensures Get(Serialize(st), "moviePage") == if st.moviePage != 1 then Some(IntToString(st.moviePage)) else None
    ensures Get(Serialize(st), "tvPage") == if st.tvPage != 1 then Some(IntToString(st.tvPage)) else None
    ensures Get(Serialize(st), "pageSize") == if st.pageSize != DefaultPageSize then Some(IntToString(st.pageSize)) else None
  {
    GetSerializedAt(st, "q");
    GetSerializedAt(st, "tab");
    GetSerializedAt(st, "moviePage");
    GetSerializedAt(st, "tvPage");
    GetSerializedAt(st, "pageSize");
  }

  lemma ReadsBack(v: int, fallback: string)
    requires fallback == IntToString(1) || fallback == IntToString(DefaultPageSize)
    ensures ParseInt(IntToString(v)) == Some(v)
    ensures ParseInt(fallback) == if fallback == IntToString(1) then Some(1) else Some(DefaultPageSize)
  {
    ParseIntToString(v);
    ParseIntToString(1);
    ParseIntToString(DefaultPageSize);
  }

  /**
   * Reading back the URL written for a state gives that state. The tab must
   * not be empty: an empty tab is written out but reads back as "all".
   */
  lemma ParseSerialize(st: SearchState)
    requires st.tab != ""
    ensures Parse(Serialize(st)) == Some(st)
  {
    GetSerialized(st);
    ParseWhere(Serialize(st), st);
  }

  /** Any parameter list that answers `get` as the written URL does reads back as the state. */
  lemma ParseWhere(p: Params, st: SearchState)
    requires st.tab != ""
    requires Get(p, "q") == if st.query != "" then Some(st.query) else None
    requires Get(p, "tab") == if st.tab != DefaultTab then Some(st.tab) else None
    requires Get(p, "moviePage") == if st.moviePage != 1 then Some(IntToString(st.moviePage)) else None
    requires Get(p, "tvPage") == if st.tvPage != 1 then Some(IntToString(st.tvPage)) else None
    requires Get(p, "pageSize") == if st.pageSize != DefaultPageSize then Some(IntToString(st.pageSize)) else None
    ensures Parse(p) == Some(st)
  {
    assert IntToString(1) == "1";
    assert IntToString(DefaultPageSize) == "20";
    ReadsText(p, "q", "", st.query);
    ReadsText(p, "tab", DefaultTab, st.tab);
    ReadsNumber(p, "moviePage", 1, st.moviePage);
    ReadsNumber(p, "tvPage", 1, st.tvPage);
    ReadsNumber(p, "pageSize", DefaultPageSize, st.pageSize);
  }

  /** A text written only when it differs from its default reads back, through the fallback otherwise. */
  lemma ReadsText(p: Params, name: string, default: string, v: string)
    requires v != "" || default == ""
    requires Get(p, name) == if v != default then Some(v) else None
    ensures GetOr(p, name, default) == v
  {
  }

  /** A number written only when it differs from its default reads back, through the fallback otherwise. */
  lemma ReadsNumber(p: Params, name: string, default: int, v: int)
    requires default == 1 || default == DefaultPageSize
    requires Get(p, name) == if v != default then Some(IntToString(v)) else None
    ensures ParseInt(GetOr(p, name, IntToString(default))) == Some(v)
  {
    assert IntToString(1) == "1";
    assert IntToString(DefaultPageSize) == "20";
    ReadsBack(v, IntToString(default));
    ParseIntToString(default);
  }

  /** A state read from any URL is written back and read again unchanged. */
  lemma ParseSerializeParse(params: Params)
    requires Parse(params).Some?
    ensures Parse(Serialize(Parse(params).value)) == Parse(params)
  {
    ParseSerialize(Parse(params).value);
  }

  // ---------------------------------------------------------------------------
  // The page state

  /** The state the search page keeps; the query is the settled (debounced) text. */
  class SearchPage {
    var query: string
    var activeTab: string
    var moviePage: int
    var tvPage: int
    var pageSize: int

    /** The state is first read from the URL. */
    constructor (params: Params)
      requires Parse(params).Some?
      ensures State() == Parse(params).value
    {
      var initial := Parse(params).value;
      query := initial.query;
      activeTab := initial.tab;
      moviePage := initial.moviePage;
      tvPage := initial.tvPage;
      pageSize := initial.pageSize;
    }

    function State(): SearchState
      reads this
    {
      SearchState(query, activeTab, moviePage, tvPage, pageSize)
    }

    /** The query parameters the URL effect writes for the current state. */
    function Url(): Params
      reads this
    {
      Serialize(State())
    }

    method SetQuery(text: string)
      modifies this
      ensures State() == old(State()).(query := text)
    {
      query := text;
    }

    /** Submitting the search form sends both tracks back to their first page. */
    method HandleSearch()
      modifies this
      ensures State() == old(State()).(moviePage := 1, tvPage := 1)
      ensures Get(Url(), "moviePage") == None && Get(Url(), "tvPage") == None
    {
      moviePage := 1;
      tvPage := 1;
      GetSerialized(State());
    }

    /** Switching tabs changes nothing but the tab. */
    method HandleTabChange(tab: string)
      modifies this
      ensures State() == old(State()).(tab := tab)
    {
      activeTab := tab;
    }

    /** Choosing a page size (the select offers "20", "40" and "60") resets both tracks. */
    method HandlePageSizeChange(newPageSize: string)
      requires ParseInt(newPageSize).Some?
      modifies this
      ensures State() == old(State()).(pageSize := ParseInt(newPageSize).value, moviePage := 1, tvPage := 1)
    {
      pageSize := ParseInt(newPageSize).value;
      moviePage := 1;
      tvPage := 1;
    }

    /** The movie pager's `onPageChange`. */
    method SetMoviePage(page: int)
      modifies this
      ensures State() == old(State()).(moviePage := page)
    {
      moviePage := page;
    }

    /** The TV pager's `onPageChange`. */
    method SetTvPage(page: int)
      modifies this
      ensures State() == old(State()).(tvPage := page)
    {
      tvPage := page;
    }
  }
}
