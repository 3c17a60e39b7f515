/**
 * The client-side data layer: decoding of the search responses, the streaming
 * URL builder, the filter and sort pipeline of the browse lists, and the
 * genre list. Every `fetch` is replaced by the response body it would yield.
 */
module Api {
  import opened JsBuiltins
  import opened Types
  import TmdbRoutes

  const DefaultPage: int := 1
  const DefaultLimit: int := 20
  /** `fetchMovies` and `fetchTVShows` cut their result to this many records, whatever the limit option says. */
  const BrowseCap: int := 20

  // ---------------------------------------------------------------------------
  // searchMovies / searchTV

  datatype SearchOptions = SearchOptions(page: Option<int>, limit: Option<int>)

  /**
   * A decoded search page. `total` is None when the body did not end with a
   * number; `totalPages` is None when JavaScript would compute NaN.
   */
  datatype PaginatedResponse = PaginatedResponse(
    items: seq<Element>,
    total: Option<int>,
    page: int,
    limit: int,
    totalPages: Option<int>)

  /** The number in the last slot of the body, if that slot holds a number. */
  function TrailingTotal(last: Option<Element>): (total: Option<int>)
    ensures total.Some? <==> last.Some? && last.value.Number?
  {
    if last.Some? && last.value.Number? then Some(last.value.n) else None
  }

  /** What `searchMovies` and `searchTV` make of a response body. */
  function DecodeSearch(body: seq<Element>, opts: SearchOptions): (r: PaginatedResponse)
    ensures r.total.Some? <==> |body| > 0 && body[|body| - 1].Number?
    ensures r.total.Some? ==> r.total.value == body[|body| - 1].n
    ensures r.limit == OrDefault(opts.limit, DefaultLimit) && r.page == OrDefault(opts.page, DefaultPage)
    ensures r.page != 0 && r.limit != 0
    ensures |body| > 0 ==> r.items <= body[..|body| - 1]
    ensures |body| == 0 ==> r.items == []
    ensures r.limit > 0 ==> |r.items| == Min(r.limit, Max(0, |body| - 1))
    ensures r.totalPages.Some? <==> r.total.Some?
    ensures r.total.Some? && r.limit > 0 ==>
      (r.totalPages.value - 1) * r.limit < r.total.value <= r.totalPages.value * r.limit
  {
    var rest := if |body| == 0 then [] else body[..|body| - 1];
    var total := TrailingTotal(if |body| == 0 then None else Some(body[|body| - 1]));
    var limit := OrDefault(opts.limit, DefaultLimit);
    PaginatedResponse(
      SliceTo(rest, limit),
      total,
      OrDefault(opts.page, DefaultPage),
      limit,
      if total.Some? then Some(CeilDiv(total.value, limit)) else None)
  }

  /**
   * `searchMovies` / `searchTV` after the fetch: read the last element as the
   * total, pop it off, and keep the first `limit` of what remains.
   */
  method SearchResults(body: seq<Element>, opts: SearchOptions) returns (r: PaginatedResponse)
    ensures r == DecodeSearch(body, opts)
  {
    var data := new JsArray(body);
    var total := TrailingTotal(data.Last());
    var popped := data.Pop();
    var page := OrDefault(opts.page, DefaultPage);
    var limit := OrDefault(opts.limit, DefaultLimit);
    var items := SliceTo(data.elems, limit);
    var totalPages := if total.Some? then Some(CeilDiv(total.value, limit)) else None;
    r := PaginatedResponse(items, total, page, limit, totalPages);
  }

  /**
   * The server's encoding and the client's decoding fit together: decoding a
   * list or search body gives back the route's total and its first `limit`
   * records.
   */
  lemma DecodeEncoded(records: seq<MediaItem>, totalResults: int, opts: SearchOptions)
    ensures var r := DecodeSearch(TmdbRoutes.WithTotal(records, totalResults), opts);
      var limit := OrDefault(opts.limit, DefaultLimit);
      && r.total == Some(totalResults)
      && r.items == TmdbRoutes.WithoutTotal(records)[..SliceLength(|records|, limit)]
      && r.totalPages == Some(CeilDiv(totalResults, limit))
  {
    var body := TmdbRoutes.WithTotal(records, totalResults);
    assert body[..|body| - 1] == TmdbRoutes.WithoutTotal(records);
  }

  /** The same round trip for the movie search route, stated on the provider's results. */
  lemma SearchMoviesRoundTrip(results: seq<TmdbRoutes.UpstreamMovie>, totalResults: int, imageBase: string, opts: SearchOptions)
    ensures var r := DecodeSearch(TmdbRoutes.SearchMoviesBody(results, totalResults, imageBase), opts);
      var limit := OrDefault(opts.limit, DefaultLimit);
      && r.total == Some(totalResults)
      && (limit > 0 ==> |r.items| == Min(limit, |results|))
      && (limit < 0 ==> |r.items| == Max(0, |results| + limit))
      && forall i :: 0 <= i < |r.items| ==>
           r.items[i] == Record(TmdbRoutes.SearchMovieRecord(results[i], imageBase))
  {
    var records := Map(results, m => TmdbRoutes.SearchMovieRecord(m, imageBase));
    DecodeEncoded(records, totalResults, opts);
  }

  // ---------------------------------------------------------------------------
  // getStreamingUrl

  datatype Language = En | Fr

  const EnglishUrl: string := "https://vidsrc.to/embed"
  const FrenchUrl: string := "https://frembed.top/api"

  /** `${x}` for an optional number: "undefined" when it is absent. */
  function Interpolate(x: Option<int>): string
  {
    if x.Some? then IntToString(x.value) else "undefined"
  }

  /** The embed URL of a movie or of one episode of a show; an absent language means English. */
  function StreamingUrl(id: string, kind: Kind, season: Option<int>, episode: Option<int>, language: Option<Language>): (url: string)
    ensures language == Some(Fr) ==> FrenchUrl <= url && !(EnglishUrl <= url)
    ensures language != Some(Fr) ==> EnglishUrl <= url && !(FrenchUrl <= url)
  {
    var base := if language == Some(Fr) then FrenchUrl else EnglishUrl;
    var url := base + UrlPath(id, kind, Interpolate(season), Interpolate(episode), language);
    assert url[..|base|] == base && url[8] == base[8];
    url
  }

  /** What follows the provider's base URL. */
  function UrlPath(id: string, kind: Kind, season: string, episode: string, language: Option<Language>): string
  {
    if language == Some(Fr) then
      if kind == MovieKind then "/film.php?id=" + id
      else "/serie.php?id=" + id + "&sa=" + season + "&epi=" + episode
    else
      if kind == MovieKind then "/movie/" + id
      else "/tv/" + id + "/" + season + "/" + episode
  }

  /** A movie URL does not depend on the season or episode passed. */
  lemma MovieUrlIgnoresEpisode(id: string, s1: Option<int>, e1: Option<int>, s2: Option<int>, e2: Option<int>, language: Option<Language>)
    ensures StreamingUrl(id, MovieKind, s1, e1, language) == StreamingUrl(id, MovieKind, s2, e2, language)
  {
  }

  lemma InterpolateInjective(a: Option<int>, b: Option<int>)
    requires Interpolate(a) == Interpolate(b)
    ensures a == b
  {
    if a.Some? && b.Some? {
      IntToStringInjective(a.value, b.value);
    }
  }

  lemma InterpolateHasNoSeparator(x: Option<int>, c: char)
    requires c == '/' || c == '&'
    ensures c !in Interpolate(x)
  {
    if x.Some? {
      IntToStringHasNoSeparator(x.value, c);
    }
  }

  /** In `a + [c] + b` with no `c` in `a`, the first `c` sits right after `a`. */
  lemma SeparatorPosition(a: string, b: string, c: char)
    requires c !in a
    ensures (a + [c] + b)[|a|] == c
    ensures forall i :: 0 <= i < |a| ==> (a + [c] + b)[i] != c
  {
    assert forall i :: 0 <= i < |a| ==> (a + [c] + b)[i] == a[i];
  }

  /** Two strings joined at the first occurrence of a separator can be split back apart. */
  lemma SplitAtSeparator(a1: string, b1: string, a2: string, b2: string, c: char)
    requires c !in a1 && c !in a2
    requires a1 + [c] + b1 == a2 + [c] + b2
    ensures a1 == a2 && b1 == b2
  {
    var s := a1 + [c] + b1;
    SeparatorPosition(a1, b1, c);
    SeparatorPosition(a2, b2, c);
    assert |a1| == |a2|;
    assert a1 == s[..|a1|] == a2;
    assert b1 == s[|a1| + 1..] == b2;
  }

  lemma CancelPrefix(p: string, x: string, y: string)
    requires p + x == p + y
    ensures x == y
  {
    assert x == (p + x)[|p|..];
  }

  /** An episode path splits back into its season and episode text. */
  lemma EpisodePathSplits(id: string, S1: string, E1: string, S2: string, E2: string, language: Option<Language>)
    requires '/' !in S1 && '/' !in S2 && '&' !in S1 && '&' !in S2
    requires UrlPath(id, TvKind, S1, E1, language) == UrlPath(id, TvKind, S2, E2, language)
    ensures S1 == S2 && E1 == E2
  {
    if language == Some(Fr) {
      var p := "/serie.php?id=" + id + "&sa=";
      assert UrlPath(id, TvKind, S1, E1, language) == p + (S1 + ['&'] + ("epi=" + E1));
      assert UrlPath(id, TvKind, S2, E2, language) == p + (S2 + ['&'] + ("epi=" + E2));
      CancelPrefix(p, S1 + ['&'] + ("epi=" + E1), S2 + ['&'] + ("epi=" + E2));
      SplitAtSeparator(S1, "epi=" + E1, S2, "epi=" + E2, '&');
      CancelPrefix("epi=", E1, E2);
    } else {
      var p := "/tv/" + id + "/";
      assert UrlPath(id, TvKind, S1, E1, language) == p + (S1 + ['/'] + E1);
      assert UrlPath(id, TvKind, S2, E2, language) == p + (S2 + ['/'] + E2);
      CancelPrefix(p, S1 + ['/'] + E1, S2 + ['/'] + E2);
      SplitAtSeparator(S1, E1, S2, E2, '/');
    }
  }

  /** An episode URL names its season and episode unambiguously: different episodes get different URLs. */
  lemma EpisodeUrlDeterminesEpisode(id: string, s1: Option<int>, e1: Option<int>, s2: Option<int>, e2: Option<int>, language: Option<Language>)
    requires StreamingUrl(id, TvKind, s1, e1, language) == StreamingUrl(id, TvKind, s2, e2, language)
    ensures s1 == s2 && e1 == e2
  {
    var base := if language == Some(Fr) then FrenchUrl else EnglishUrl;
    CancelPrefix(base, UrlPath(id, TvKind, Interpolate(s1), Interpolate(e1), language),
      UrlPath(id, TvKind, Interpolate(s2), Interpolate(e2), language));
    InterpolateHasNoSeparator(s1, '/');
    InterpolateHasNoSeparator(s2, '/');
    InterpolateHasNoSeparator(s1, '&');
    InterpolateHasNoSeparator(s2, '&');
    EpisodePathSplits(id, Interpolate(s1), Interpolate(e1), Interpolate(s2), Interpolate(e2), language);
    InterpolateInjective(s1, s2);
    InterpolateInjective(e1, e2);
  }

  /** A French path names its id: the id ends at the first '&'. */
  lemma FrenchPathId(id1: string, id2: string, kind: Kind, S1: string, E1: string, S2: string, E2: string)
    requires '&' !in id1 && '&' !in id2
    requires UrlPath(id1, kind, S1, E1, Some(Fr)) == UrlPath(id2, kind, S2, E2, Some(Fr))
    ensures id1 == id2
  {
    if kind == MovieKind {
      CancelPrefix("/film.php?id=", id1, id2);
    } else {
      var p := "/serie.php?id=";
      var r1, r2 := "sa=" + S1 + "&epi=" + E1, "sa=" + S2 + "&epi=" + E2;
      assert UrlPath(id1, kind, S1, E1, Some(Fr)) == p + (id1 + ['&'] + r1);
      assert UrlPath(id2, kind, S2, E2, Some(Fr)) == p + (id2 + ['&'] + r2);
      CancelPrefix(p, id1 + ['&'] + r1, id2 + ['&'] + r2);
      SplitAtSeparator(id1, r1, id2, r2, '&');
    }
  }

  lemma EnglishEpisodePath(id: string, S: string, E: string)
    ensures "/tv/" + id + "/" + S + "/" + E == "/tv/" + (id + ['/'] + (S + "/" + E))
  {
    assert "/tv/" + id + "/" + S + "/" + E == "/tv/" + id + "/" + (S + "/" + E);
  }

  /** An English path names its id: the id ends at the first '/' after the kind. */
  lemma EnglishPathId(id1: string, id2: string, kind: Kind, S1: string, E1: string, S2: string, E2: string, language: Option<Language>)
    requires language != Some(Fr)
    requires '/' !in id1 && '/' !in id2
    requires UrlPath(id1, kind, S1, E1, language) == UrlPath(id2, kind, S2, E2, language)
    ensures id1 == id2
  {
    if kind == MovieKind {
      CancelPrefix("/movie/", id1, id2);
    } else {
      EnglishEpisodePath(id1, S1, E1);
      EnglishEpisodePath(id2, S2, E2);
      CancelPrefix("/tv/", id1 + ['/'] + (S1 + "/" + E1), id2 + ['/'] + (S2 + "/" + E2));
      SplitAtSeparator(id1, S1 + "/" + E1, id2, S2 + "/" + E2, '/');
    }
  }

  /**
   * A streaming URL names its request: for ids without '/' or '&', equal URLs
   * of the same kind and language have the same id, and for a show the same
   * season and episode.
   */
  lemma StreamingUrlDeterminesRequest(id1: string, id2: string, kind: Kind, s1: Option<int>, e1: Option<int>, s2: Option<int>, e2: Option<int>, language: Option<Language>)
    requires '/' !in id1 && '/' !in id2 && '&' !in id1 && '&' !in id2
    requires StreamingUrl(id1, kind, s1, e1, language) == StreamingUrl(id2, kind, s2, e2, language)
    ensures id1 == id2
    ensures kind == TvKind ==> s1 == s2 && e1 == e2
  {
    var base := if language == Some(Fr) then FrenchUrl else EnglishUrl;
    var S1, E1, S2, E2 := Interpolate(s1), Interpolate(e1), Interpolate(s2), Interpolate(e2);
    CancelPrefix(base, UrlPath(id1, kind, S1, E1, language), UrlPath(id2, kind, S2, E2, language));
    if language == Some(Fr) {
      FrenchPathId(id1, id2, kind, S1, E1, S2, E2);
    } else {
      EnglishPathId(id1, id2, kind, S1, E1, S2, E2, language);
    }
    if kind == TvKind {
      EpisodeUrlDeterminesEpisode(id1, s1, e1, s2, e2, language);
    }
  }

  // ---------------------------------------------------------------------------
  // fetchMovies / fetchTVShows: filters, sort and cut

  /** The options of `fetchMovies` and `fetchTVShows`; an empty string stands for an absent option. */
  datatype FetchOptions = FetchOptions(search: string, genre: string, year: string, sortBy: string, page: Option<int>, limit: Option<int>)

  datatype SortOrder = Oldest | Newest | ByRating | ByTitle

  /** The `switch` on `sortBy`: "newest" and every unknown key sort newest first. */
  function SortOrderOf(sortBy: string): (order: SortOrder)
    ensures order == Oldest <==> sortBy == "oldest"
    ensures order == Newest <==> sortBy !in {"oldest", "rating", "title"}
    ensures order == ByRating <==> sortBy == "rating"
    ensures order == ByTitle <==> sortBy == "title"
  {
    if sortBy == "oldest" then Oldest
    else if sortBy == "rating" then ByRating
    else if sortBy == "title" then ByTitle
    else Newest
  }

  predicate MatchesSearch(m: MediaItem, search: string)
  {
    Includes(LowerString(m.title), LowerString(search))
  }

  predicate MatchesGenre(m: MediaItem, genre: string)
  {
    exists i | 0 <= i < |m.genres| :: LowerString(m.genres[i]) == LowerString(genre)
  }

  predicate MatchesYear(m: MediaItem, year: string)
  {
    m.year == year
  }

  predicate UsesFilter(value: string)
  {
    value != "" && value != "all"
  }

  /** A record passes all three filters the options switch on. */
  predicate Selected(m: MediaItem, opts: FetchOptions)
  {
    && (opts.search != "" ==> MatchesSearch(m, opts.search))
    && (UsesFilter(opts.genre) ==> MatchesGenre(m, opts.genre))
    && (UsesFilter(opts.year) ==> MatchesYear(m, opts.year))
  }

  function BySearch(search: string): MediaItem -> bool { m => MatchesSearch(m, search) }
  function ByGenre(genre: string): MediaItem -> bool { m => MatchesGenre(m, genre) }
  function ByYear(year: string): MediaItem -> bool { m => MatchesYear(m, year) }

  /** The filter steps, applied one after the other as the source does. */
  function Filtered(records: seq<MediaItem>, opts: FetchOptions): seq<MediaItem>
  {
    var afterSearch := Step(records, opts.search != "", BySearch(opts.search));
    var afterGenre := Step(afterSearch, UsesFilter(opts.genre), ByGenre(opts.genre));
    Step(afterGenre, UsesFilter(opts.year), ByYear(opts.year))
  }

  /** One filter step: applied when switched on, skipped otherwise. */
  function Step(s: seq<MediaItem>, on: bool, p: MediaItem -> bool): seq<MediaItem>
  {
    if on then KeepIf(s, p) else s
  }

  /** `p` when `cond` holds, no restriction otherwise. */
  function When(cond: bool, p: MediaItem -> bool): MediaItem -> bool { m => cond ==> p(m) }

  function Both(p: MediaItem -> bool, q: MediaItem -> bool): MediaItem -> bool { m => p(m) && q(m) }

  function SelectedBy(opts: FetchOptions): MediaItem -> bool { m => Selected(m, opts) }

  lemma {:induction false} StepWhen(s: seq<MediaItem>, on: bool, p: MediaItem -> bool)
    ensures Step(s, on, p) == KeepIf(s, When(on, p))
  {
    if |s| > 0 {
      StepWhen(s[1..], on, p);
      assert When(on, p)(s[0]) == (on ==> p(s[0]));
      if !on {
        assert s == [s[0]] + s[1..];
      }
    }
  }

  lemma {:induction false} KeepIfTwice(s: seq<MediaItem>, p: MediaItem -> bool, q: MediaItem -> bool)
    ensures KeepIf(KeepIf(s, p), q) == KeepIf(s, Both(p, q))
  {
    if |s| > 0 {
      KeepIfTwice(s[1..], p, q);
    }
  }

  lemma {:induction false} KeepIfSame(s: seq<MediaItem>, p: MediaItem -> bool, q: MediaItem -> bool)
    requires forall m :: p(m) == q(m)
    ensures KeepIf(s, p) == KeepIf(s, q)
  {
    if |s| > 0 {
      KeepIfSame(s[1..], p, q);
    }
  }

  /** Three filter steps in a row keep what passes all three. */
  lemma ThreeSteps(s: seq<MediaItem>, on1: bool, p1: MediaItem -> bool, on2: bool, p2: MediaItem -> bool, on3: bool, p3: MediaItem -> bool)
    ensures Step(Step(Step(s, on1, p1), on2, p2), on3, p3) == KeepIf(s, Both(Both(When(on1, p1), When(on2, p2)), When(on3, p3)))
  {
    var a := Step(s, on1, p1);
    StepWhen(s, on1, p1);
    var b := Step(a, on2, p2);
    StepWhen(a, on2, p2);
    KeepIfTwice(s, When(on1, p1), When(on2, p2));
    StepWhen(b, on3, p3);
    KeepIfTwice(s, Both(When(on1, p1), When(on2, p2)), When(on3, p3));
  }

  /**
   * The three filter steps keep exactly the records that pass every switched-on
   * filter, in their original order, and add nothing.
   */
  lemma FilteredSelects(records: seq<MediaItem>, opts: FetchOptions)
    ensures Filtered(records, opts) == KeepIf(records, SelectedBy(opts))
  {
    var ps := When(opts.search != "", BySearch(opts.search));
    var pg := When(UsesFilter(opts.genre), ByGenre(opts.genre));
    var py := When(UsesFilter(opts.year), ByYear(opts.year));
    ThreeSteps(records, opts.search != "", BySearch(opts.search), UsesFilter(opts.genre), ByGenre(opts.genre),
      UsesFilter(opts.year), ByYear(opts.year));
    forall m ensures Both(Both(ps, pg), py)(m) == SelectedBy(opts)(m) {
      assert ps(m) == (opts.search != "" ==> MatchesSearch(m, opts.search));
      assert pg(m) == (UsesFilter(opts.genre) ==> MatchesGenre(m, opts.genre));
      assert py(m) == (UsesFilter(opts.year) ==> MatchesYear(m, opts.year));
    }
    KeepIfSame(records, Both(Both(ps, pg), py), SelectedBy(opts));
  }

  /** `Number.parseInt(year)`; a year that does not start with a number counts as 0. */
  function YearKey(m: MediaItem): int
  {
    match ParseInt(m.year)
    case Some(y) => y
    case None => 0
  }

  /** The sort key of the year comparators: the year, negated for newest first. */
  function YearOrder(descending: bool): MediaItem -> int
  {
    m => if descending then -YearKey(m) else YearKey(m)
  }

  /** A key that reverses `rank`: the comparator `b - a` sorts highest first. */
  function Reversed(rank: MediaItem -> int): MediaItem -> int
  {
    m => -rank(m)
  }

  /**
   * The key each branch of the `switch` sorts by. `ratingRank` stands for the
   * order of `parseFloat(rating)` and `titleRank` for the order of
   * `localeCompare` on titles: both are supplied by the caller.
   */
  function OrderKey(order: SortOrder, ratingRank: MediaItem -> int, titleRank: MediaItem -> int): MediaItem -> int
  {
    match order
    case Oldest => YearOrder(false)
    case Newest => YearOrder(true)
    case ByRating => Reversed(ratingRank)
    case ByTitle => titleRank
  }

  /** Ascending by `key`. */
  predicate SortedBy(s: seq<MediaItem>, key: MediaItem -> int)
  {
    forall i, j :: 0 <= i < j < |s| ==> key(s[i]) <= key(s[j])
  }

  function HasKey(key: MediaItem -> int, k: int): MediaItem -> bool
  {
    m => key(m) == k
  }

  /** The records of each key appear in `s` in the same order as in `t`: what a stable sort keeps. */
  ghost predicate SameTies(s: seq<MediaItem>, t: seq<MediaItem>, key: MediaItem -> int)
  {
    forall k :: KeepIf(s, HasKey(key, k)) == KeepIf(t, HasKey(key, k))
  }

  /**
   * While the record at `j` sinks towards the front: the first `hi + 1` slots
   * are in order apart from slot `j`, and slot `j` sorts no later than every
   * slot after it.
   */
  predicate Sinking(s: seq<MediaItem>, hi: int, j: int, key: MediaItem -> int)
  {
    0 <= j <= hi < |s|
    && (forall k, l :: 0 <= k < l <= hi && k != j && l != j ==> key(s[k]) <= key(s[l]))
    && (forall l :: j < l <= hi ==> key(s[j]) <= key(s[l]))
  }

  lemma SinkingStart(s: seq<MediaItem>, hi: int, key: MediaItem -> int)
    requires 0 <= hi < |s| && SortedBy(s[..hi], key)
    ensures Sinking(s, hi, hi, key)
  {
    forall k, l | 0 <= k < l <= hi && k != hi && l != hi
      ensures key(s[k]) <= key(s[l])
    {
      assert s[k] == s[..hi][k] && s[l] == s[..hi][l];
    }
  }

  /** Swapping the sinking record with a later-sorting predecessor keeps the shape. */
  lemma SinkingSwap(s: seq<MediaItem>, hi: int, j: int, key: MediaItem -> int)
    requires Sinking(s, hi, j, key) && j > 0
    requires key(s[j - 1]) > key(s[j])
    ensures Sinking(s[j - 1 := s[j]][j := s[j - 1]], hi, j - 1, key)
    ensures multiset(s[j - 1 := s[j]][j := s[j - 1]]) == multiset(s)
  {
    var t := s[j - 1 := s[j]][j := s[j - 1]];
    assert forall k :: 0 <= k < |s| && k != j - 1 && k != j ==> t[k] == s[k];
  }

  /** Swapping two neighbours with different keys leaves the order within every key as it was. */
  lemma SwapKeepsTies(s: seq<MediaItem>, j: int, key: MediaItem -> int)
    requires 0 < j < |s| && key(s[j - 1]) != key(s[j])
    ensures SameTies(s[j - 1 := s[j]][j := s[j - 1]], s, key)
  {
    var t := s[j - 1 := s[j]][j := s[j - 1]];
    var front, x, y, back := s[..j - 1], s[j - 1], s[j], s[j + 1..];
    assert s == front + ([x] + ([y] + back));
    assert t == front + ([y] + ([x] + back));
    forall k
      ensures KeepIf(t, HasKey(key, k)) == KeepIf(s, HasKey(key, k))
    {
      var p := HasKey(key, k);
      KeepIfAppend(front, [x] + ([y] + back), p);
      KeepIfAppend(front, [y] + ([x] + back), p);
      KeepIfAppend([x], [y] + back, p);
      KeepIfAppend([y], [x] + back, p);
      KeepIfAppend([y], back, p);
      KeepIfAppend([x], back, p);
    }
  }

  lemma SameTiesTrans(s: seq<MediaItem>, t: seq<MediaItem>, u: seq<MediaItem>, key: MediaItem -> int)
    requires SameTies(s, t, key) && SameTies(t, u, key)
    ensures SameTies(s, u, key)
  {
  }

  lemma SinkingDone(s: seq<MediaItem>, hi: int, j: int, key: MediaItem -> int)
    requires Sinking(s, hi, j, key)
    requires j == 0 || key(s[j - 1]) <= key(s[j])
    ensures SortedBy(s[..hi + 1], key)
  {
    forall k, l | 0 <= k < l <= hi
      ensures key(s[k]) <= key(s[l])
    {
      if l == j && k < j - 1 {
        assert key(s[k]) <= key(s[j - 1]);
      }
    }
  }

  /** A record of `s` is, through the records of its key, also a record of `t`. */
  lemma TiedMember(s: seq<MediaItem>, t: seq<MediaItem>, key: MediaItem -> int, i: int) returns (j: int)
    requires SameTies(s, t, key) && 0 <= i < |s|
    ensures 0 <= j < |t| && t[j] == s[i]
  {
    var k := key(s[i]);
    assert KeepIf(s, HasKey(key, k)) == KeepIf(t, HasKey(key, k));
    assert s[i] in KeepIf(s, HasKey(key, k));
    j :| 0 <= j < |t| && t[j] == s[i];
  }

  /** Equal ties with the same first record leave equal ties behind it. */
  lemma {:induction false} TailTies(s: seq<MediaItem>, t: seq<MediaItem>, key: MediaItem -> int)
    requires SameTies(s, t, key) && |s| > 0 && |t| > 0 && s[0] == t[0]
    ensures SameTies(s[1..], t[1..], key)
  {
    forall k
      ensures KeepIf(s[1..], HasKey(key, k)) == KeepIf(t[1..], HasKey(key, k))
    {
      var p := HasKey(key, k);
      assert KeepIf(s, p) == KeepIf(t, p);
      if p(s[0]) {
        assert KeepIf(s, p) == [s[0]] + KeepIf(s[1..], p);
        assert KeepIf(t, p) == [t[0]] + KeepIf(t[1..], p);
        assert KeepIf(s[1..], p) == KeepIf(s, p)[1..];
      } else {
        assert KeepIf(s, p) == KeepIf(s[1..], p);
        assert KeepIf(t, p) == KeepIf(t[1..], p);
      }
    }
  }

  /** Two sorted lists with equal ties start with the same record. */
  lemma SameFirst(s: seq<MediaItem>, t: seq<MediaItem>, key: MediaItem -> int)
    requires SortedBy(s, key) && SortedBy(t, key) && SameTies(s, t, key) && |s| > 0 && |t| > 0
    ensures s[0] == t[0]
  {
    var j := TiedMember(s, t, key, 0);
    var i := TiedMember(t, s, key, 0);
    assert key(s[0]) == key(t[0]);
    var p := HasKey(key, key(s[0]));
    assert KeepIf(s, p) == KeepIf(t, p);
    assert KeepIf(s, p)[0] == s[0] && KeepIf(t, p)[0] == t[0];
  }

  /**
   * A stable sort has one possible outcome: two lists ordered by the same key,
   * whose records of each key come in the same order, are equal.
   */
  lemma {:induction false} SortedUnique(s: seq<MediaItem>, t: seq<MediaItem>, key: MediaItem -> int)
    requires SortedBy(s, key) && SortedBy(t, key) && SameTies(s, t, key)
    ensures s == t
    decreases |s|
  {
    EmptyTies(s, t, key);
    if |s| > 0 {
      SameFirst(s, t, key);
      TailTies(s, t, key);
      SortedTail(s, key);
      SortedTail(t, key);
      SortedUnique(s[1..], t[1..], key);
      assert s == [s[0]] + s[1..];
      assert t == [t[0]] + t[1..];
    }
  }

  /** Lists with equal ties are both empty or both non-empty. */
  lemma EmptyTies(s: seq<MediaItem>, t: seq<MediaItem>, key: MediaItem -> int)
    requires SameTies(s, t, key)
    ensures |s| == 0 <==> |t| == 0
  {
    if |s| > 0 {
      var j := TiedMember(s, t, key, 0);
    }
    if |t| > 0 {
      var i := TiedMember(t, s, key, 0);
    }
  }

  lemma SortedTail(s: seq<MediaItem>, key: MediaItem -> int)
    requires SortedBy(s, key) && |s| > 0
    ensures SortedBy(s[1..], key)
  {
    forall i, j | 0 <= i < j < |s| - 1
      ensures key(s[1..][i]) <= key(s[1..][j])
    {
      assert s[1..][i] == s[i + 1] && s[1..][j] == s[j + 1];
    }
  }


  /**
   * `Array.prototype.sort` in place with a comparator that subtracts keys:
   * ordered, a permutation, and stable (records with equal keys keep their
   * order).
   */
  method SortBy(a: array<MediaItem>, key: MediaItem -> int)
    modifies a
    ensures SortedBy(a[..], key)
    ensures multiset(a[..]) == multiset(old(a[..]))
    ensures SameTies(a[..], old(a[..]), key)
  {
    ghost var original := a[..];
    var i := 0;
    while i < a.Length
      invariant 0 <= i <= a.Length
      invariant SortedBy(a[..i], key)
      invariant multiset(a[..]) == multiset(original)
      invariant SameTies(a[..], original, key)
    {
      ghost var before := a[..];
      InsertAt(a, i, key);
      SameTiesTrans(a[..], before, original, key);
      i := i + 1;
    }
    assert a[..a.Length] == a[..];
  }

  /** One pass of the insertion sort: `a[i]` sinks into the sorted `a[..i]`. */
  method InsertAt(a: array<MediaItem>, i: int, key: MediaItem -> int)
    requires 0 <= i < a.Length && SortedBy(a[..i], key)
    modifies a
    ensures SortedBy(a[..i + 1], key)
    ensures multiset(a[..]) == multiset(old(a[..]))
    ensures SameTies(a[..], old(a[..]), key)
  {
    ghost var original := a[..];
    SinkingStart(a[..], i, key);
    var j := i;
    while j > 0 && key(a[j - 1]) > key(a[j])
      invariant Sinking(a[..], i, j, key)
      invariant multiset(a[..]) == multiset(original)
      invariant SameTies(a[..], original, key)
    {
      ghost var before := a[..];
      SinkingSwap(before, i, j, key);
      SwapKeepsTies(before, j, key);
      a[j - 1], a[j] := a[j], a[j - 1];
      assert a[..] == before[j - 1 := before[j]][j := before[j - 1]];
      SameTiesTrans(a[..], before, original, key);
      j := j - 1;
    }
    SinkingDone(a[..], i, j, key);
  }


  /** The filter steps of `fetchMovies` / `fetchTVShows`, reassigning the list. */
  method ApplyFilters(records: seq<MediaItem>, opts: FetchOptions) returns (filtered: seq<MediaItem>)
    ensures filtered == Filtered(records, opts)
  {
    filtered := records;
    if opts.search != "" {
      filtered := KeepIf(filtered, BySearch(opts.search));
    }
    if UsesFilter(opts.genre) {
      filtered := KeepIf(filtered, ByGenre(opts.genre));
    }
    if UsesFilter(opts.year) {
      filtered := KeepIf(filtered, ByYear(opts.year));
    }
  }

  /** The first page of a browse list: at most 20 records, whatever the limit asked for. */
  datatype BrowsePage = BrowsePage(items: seq<MediaItem>, page: int, limit: int)

  /**
   * `fetchMovies` / `fetchTVShows` after the fetch: filter, sort in place by
   * the chosen order, cut to 20. `sorted` is the whole list after the sort.
   */
  method FetchList(records: seq<MediaItem>, opts: FetchOptions, ratingRank: MediaItem -> int, titleRank: MediaItem -> int)
    returns (r: BrowsePage, ghost sorted: seq<MediaItem>)
    ensures multiset(sorted) == multiset(Filtered(records, opts))
    ensures SortedBy(sorted, OrderKey(SortOrderOf(opts.sortBy), ratingRank, titleRank))
    ensures SameTies(sorted, Filtered(records, opts), OrderKey(SortOrderOf(opts.sortBy), ratingRank, titleRank))
    ensures r.items == sorted[..Min(BrowseCap, |sorted|)]
    ensures |r.items| <= BrowseCap
    ensures r.page == OrDefault(opts.page, DefaultPage) && r.limit == OrDefault(opts.limit, DefaultLimit)
  {
    var filtered := ApplyFilters(records, opts);
    var a := new MediaItem[|filtered|](i requires 0 <= i < |filtered| => filtered[i]);
    assert a[..] == filtered;
    match SortOrderOf(opts.sortBy) {
      case Oldest => SortBy(a, YearOrder(false));
      case ByRating => SortBy(a, Reversed(ratingRank));
      case ByTitle => SortBy(a, titleRank);
      case Newest => SortBy(a, YearOrder(true));
    }
    sorted := a[..];
    var page := OrDefault(opts.page, DefaultPage);
    var limit := OrDefault(opts.limit, DefaultLimit);
    r := BrowsePage(a[..Min(BrowseCap, a.Length)], page, limit);
  }

  /**
   * The cut keeps the records that sort first: every record left out sorts
   * no earlier than every record returned.
   */
  lemma FirstPageSortsFirst(sorted: seq<MediaItem>, key: MediaItem -> int)
    requires SortedBy(sorted, key)
    ensures var k := Min(BrowseCap, |sorted|);
      forall i, j :: 0 <= i < k && 0 <= j < |sorted| - k ==> key(sorted[..k][i]) <= key(sorted[k..][j])
  {
    var k := Min(BrowseCap, |sorted|);
    forall i, j | 0 <= i < k && 0 <= j < |sorted| - k
      ensures key(sorted[..k][i]) <= key(sorted[k..][j])
    {
      assert sorted[..k][i] == sorted[i] && sorted[k..][j] == sorted[k + j];
    }
  }

  // ---------------------------------------------------------------------------
  // getGenres

  /**
   * The default order of `Array.prototype.sort` on strings: character by
   * character, a prefix first. Characters here are Unicode scalar values, so
   * this is the UTF-16 code-unit order only below U+10000.
   */
  predicate StrLess(a: string, b: string)
  {
    if |a| == 0 then |b| > 0
    else if |b| == 0 then false
    else if a[0] != b[0] then a[0] < b[0]
    else StrLess(a[1..], b[1..])
  }

  lemma {:induction false} StrLessIrreflexive(a: string)
    ensures !StrLess(a, a)
  {
    if |a| > 0 {
      StrLessIrreflexive(a[1..]);
    }
  }

  lemma {:induction false} StrLessTransitive(a: string, b: string, c: string)
    requires StrLess(a, b) && StrLess(b, c)
    ensures StrLess(a, c)
  {
    if |a| > 0 && |b| > 0 && |c| > 0 && a[0] == b[0] && b[0] == c[0] {
      StrLessTransitive(a[1..], b[1..], c[1..]);
    }
  }

  lemma {:induction false} StrLessTotal(a: string, b: string)
    requires a != b
    ensures StrLess(a, b) || StrLess(b, a)
  {
    if |a| > 0 && |b| > 0 && a[0] == b[0] {
      assert a == [a[0]] + a[1..] && b == [b[0]] + b[1..];
      StrLessTotal(a[1..], b[1..]);
    }
  }

  /** Sorted ascending with no string twice. */
  predicate StrictlySorted(s: seq<string>)
  {
    forall i, j :: 0 <= i < j < |s| ==> StrLess(s[i], s[j])
  }

  /** The elements of a sequence, as a set. */
  function Elements(s: seq<string>): set<string>
  {
    set x | x in s
  }

  /** Places `x` in a strictly sorted list that does not hold it yet. */
  function Insert(s: seq<string>, x: string): (r: seq<string>)
    requires StrictlySorted(s) && x !in s
    ensures StrictlySorted(r)
    ensures Elements(r) == Elements(s) + {x}
    ensures |r| == |s| + 1
  {
    if |s| == 0 then [x]
    else if StrLess(x, s[0]) then
      assert forall j :: 0 < j < |s| ==> StrLess(x, s[j]) by {
        forall j | 0 < j < |s| ensures StrLess(x, s[j]) {
          StrLessTransitive(x, s[0], s[j]);
        }
      }
      var r := [x] + s;
      assert Elements(r) == Elements(s) + {x} by {
        assert forall i :: 0 < i < |r| ==> r[i] == s[i - 1];
        assert forall i :: 0 <= i < |s| ==> s[i] == r[i + 1];
      }
      r
    else
      StrLessTotal(x, s[0]);
      var tail := Insert(s[1..], x);
      var r := [s[0]] + tail;
      assert Elements(s) == {s[0]} + Elements(s[1..]) by {
        assert forall i :: 0 < i < |s| ==> s[i] == s[1..][i - 1];
      }
      assert Elements(r) == {s[0]} + Elements(tail) by {
        assert forall i :: 0 < i < |r| ==> r[i] == tail[i - 1];
      }
      assert forall i :: 0 <= i < |tail| ==> StrLess(s[0], tail[i]) by {
        forall i | 0 <= i < |tail| ensures StrLess(s[0], tail[i]) {
          assert tail[i] in Elements(tail);
          if tail[i] != x {
            var k :| 0 <= k < |s[1..]| && s[1..][k] == tail[i];
            assert s[1..][k] == s[k + 1];
          }
        }
      }
      r
  }

  /** `Array.from(set).sort()`: the set's strings in ascending order. */
  method SortedList(all: set<string>) returns (r: seq<string>)
    ensures StrictlySorted(r) && Elements(r) == all
  {
    r := [];
    var rest := all;
    while rest != {}
      invariant StrictlySorted(r)
      invariant Elements(r) + rest == all && Elements(r) !! rest
      decreases |rest|
    {
      var x :| x in rest;
      assert x !in Elements(r);
      r := Insert(r, x);
      rest := rest - {x};
    }
  }

  /** The genres of a list of records. */
  function GenresOf(items: seq<MediaItem>): set<string>
  {
    set i, j | 0 <= i < |items| && 0 <= j < |items[i].genres| :: items[i].genres[j]
  }

  /** `items.forEach(item => item.genres.forEach(genre => allGenres.add(genre)))`. */
  method AddGenres(acc: set<string>, items: seq<MediaItem>) returns (all: set<string>)
    ensures all == acc + GenresOf(items)
  {
    all := acc;
    var i := 0;
    while i < |items|
      invariant 0 <= i <= |items|
      invariant all == acc + GenresOf(items[..i])
    {
      var genres := items[i].genres;
      var j := 0;
      while j < |genres|
        invariant 0 <= j <= |genres|
        invariant all == acc + GenresOf(items[..i]) + Elements(genres[..j])
      {
        all := all + {genres[j]};
        j := j + 1;
        assert Elements(genres[..j]) == Elements(genres[..j - 1]) + {genres[j - 1]} by {
          assert forall k :: 0 <= k < j - 1 ==> genres[..j][k] == genres[..j - 1][k];
        }
      }
      assert genres[..j] == genres;
      assert GenresOf(items[..i + 1]) == GenresOf(items[..i]) + Elements(genres) by {
        var pre := items[..i + 1];
        assert forall k :: 0 <= k < i ==> pre[k] == items[..i][k];
        assert pre[i].genres == genres;
      }
      i := i + 1;
    }
    assert items[..i] == items;
  }

  function MovieItem(m: Movie): MediaItem { m.item }

  function ShowItem(s: TVShow): MediaItem { s.item }

  /**
   * `getGenres` over the given movie and show lists: every genre that occurs,
   * once each, in ascending order.
   */
  method GetGenres(movies: seq<Movie>, shows: seq<TVShow>) returns (genres: seq<string>)
    ensures StrictlySorted(genres)
    ensures forall g :: g in genres <==> g in GenresOf(Map(movies, MovieItem)) || g in GenresOf(Map(shows, ShowItem))
  {
    var all := AddGenres({}, Map(movies, MovieItem));
    all := AddGenres(all, Map(shows, ShowItem));
    genres := SortedList(all);
    assert all == GenresOf(Map(movies, MovieItem)) + GenresOf(Map(shows, ShowItem));
    assert forall g :: g in genres <==> g in Elements(genres);
  }
}
