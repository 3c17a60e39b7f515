/**
 * The server routes that turn metadata-provider responses into the records the
 * client reads. Every provider response is an input value here; the network
 * calls, Express routing and the error responses are not modelled.
 */
module TmdbRoutes {
  import opened JsBuiltins
  import opened Types

  /** One entry of the provider's `results` for movies. */
  datatype UpstreamMovie = UpstreamMovie(
    id: string,
    title: string,
    originalTitle: string,
    posterPath: string,
    releaseDate: string,
    voteAverage: string,
    overview: string)

  /** One entry of the provider's `results` for TV shows. */
  datatype UpstreamShow = UpstreamShow(
    id: string,
    name: string,
    posterPath: string,
    firstAirDate: string,
    voteAverage: string,
    overview: string)

  /** The provider's TV show details. */
  datatype UpstreamTvDetail = UpstreamTvDetail(show: UpstreamShow, numberOfSeasons: int)

  /** One entry of a season's `episodes`; `runtime` is absent (None) when the provider has none. */
  datatype UpstreamEpisode = UpstreamEpisode(seasonNumber: int, episodeNumber: int, name: string, runtime: Option<int>)

  /** The `episodes` field of a season response: absent, something other than an array, or an array. */
  datatype SeasonEpisodes = Absent | NotAnArray | Episodes(list: seq<UpstreamEpisode>)

  const ListGenres: seq<string> := ["Action", "Crime", "Drama"]
  const DetailTvGenres: seq<string> := ["Crime", "Drama", "Thriller"]
  const DetailMovieDuration: string := "2h 32m"
  const TrendingTvSeasons: int := 5
  const TrendingTvEpisodes: seq<Episode> :=
    [Episode(1, 1, "Pilot", "58m"), Episode(1, 2, "Cat's in the Bag...", "48m")]

  // ---------------------------------------------------------------------------
  // Record mapping

  /** A movie record titled from `title` (trending, upcoming and list routes). */
  function MovieRecord(m: UpstreamMovie, imageBase: string): MediaItem
  {
    MediaItem(m.id, m.title, m.releaseDate, ListGenres, m.voteAverage, imageBase + m.posterPath, m.overview)
  }

  /** A movie record titled from `original_title` (search route). */
  function SearchMovieRecord(m: UpstreamMovie, imageBase: string): MediaItem
  {
    MediaItem(m.id, m.originalTitle, m.releaseDate, ListGenres, m.voteAverage, imageBase + m.posterPath, m.overview)
  }

  /** A TV show record titled from `name` (trending, list and search routes). */
  function ShowRecord(s: UpstreamShow, imageBase: string): MediaItem
  {
    MediaItem(s.id, s.name, s.firstAirDate, ListGenres, s.voteAverage, imageBase + s.posterPath, s.overview)
  }

  /** The records as JSON array elements, followed by the pushed total: the list and search response body. */
  function WithTotal(records: seq<MediaItem>, totalResults: int): (body: seq<Element>)
    ensures |body| == |records| + 1
    ensures body[|records|] == Number(totalResults)
    ensures forall i :: 0 <= i < |records| ==> body[i] == Record(records[i])
  {
    seq(|records|, i requires 0 <= i < |records| => Record(records[i])) + [Number(totalResults)]
  }

  /**
   * What the list and search handlers send: the mapped records, with
   * `total_results` pushed onto the same array.
   */
  method RespondWithTotal(records: seq<MediaItem>, totalResults: int) returns (body: seq<Element>)
    ensures body == WithTotal(records, totalResults)
  {
    var response := new JsArray(WithoutTotal(records));
    response.Push(Number(totalResults));
    body := response.elems;
  }

  /** The records as JSON array elements with nothing appended: the trending and upcoming response body. */
  function WithoutTotal(records: seq<MediaItem>): (body: seq<Element>)
    ensures |body| == |records|
    ensures forall i :: 0 <= i < |records| ==> body[i] == Record(records[i])
  {
    seq(|records|, i requires 0 <= i < |records| => Record(records[i]))
  }

  // ---------------------------------------------------------------------------
  // Route bodies

  /** `/trending-movies` and `/upcoming-movies`: the mapped results, no total. */
  function TrendingMoviesBody(results: seq<UpstreamMovie>, imageBase: string): (body: seq<Element>)
    ensures |body| == |results|
    ensures forall i :: 0 <= i < |body| ==> body[i].Record? && body[i].item.title == results[i].title
    ensures forall i :: 0 <= i < |body| ==> body[i].item.poster == imageBase + results[i].posterPath
  {
    WithoutTotal(Map(results, m => MovieRecord(m, imageBase)))
  }

  /** `/trending-tv`: TV show records with a fixed season count and episode list. */
  function TrendingTvBody(results: seq<UpstreamShow>, imageBase: string): (body: seq<TVShow>)
    ensures |body| == |results|
    ensures forall i :: 0 <= i < |body| ==> body[i].item == ShowRecord(results[i], imageBase)
    ensures forall i :: 0 <= i < |body| ==> body[i].item.title == results[i].name
  {
    seq(|results|, i requires 0 <= i < |results| =>
      TVShow(ShowRecord(results[i], imageBase), TrendingTvSeasons, Some(TrendingTvEpisodes)))
  }

  /** `/movie/:id`: one movie titled from `original_title`. */
  function MovieDetailBody(data: UpstreamMovie, imageBase: string): (movie: Movie)
    ensures movie.item.title == data.originalTitle && movie.item.id == data.id
    ensures movie.item.poster == imageBase + data.posterPath
  {
    Movie(SearchMovieRecord(data, imageBase), DetailMovieDuration)
  }

  /** `/movies-list/:page`: mapped movie results followed by `total_results`. */
  function MoviesListBody(results: seq<UpstreamMovie>, totalResults: int, imageBase: string): (body: seq<Element>)
    ensures |body| == |results| + 1 && body[|results|] == Number(totalResults)
    ensures forall i :: 0 <= i < |results| ==> body[i] == Record(MovieRecord(results[i], imageBase))
  {
    WithTotal(Map(results, m => MovieRecord(m, imageBase)), totalResults)
  }

  /** `/search-movies/:query/:page`: mapped movie results titled from `original_title`, then `total_results`. */
  function SearchMoviesBody(results: seq<UpstreamMovie>, totalResults: int, imageBase: string): (body: seq<Element>)
    ensures |body| == |results| + 1 && body[|results|] == Number(totalResults)
    ensures forall i :: 0 <= i < |results| ==> body[i] == Record(SearchMovieRecord(results[i], imageBase))
  {
    WithTotal(Map(results, m => SearchMovieRecord(m, imageBase)), totalResults)
  }

  /** `/tv-list/:page` and `/search-tv/:query/:page`: mapped TV results, then `total_results`. */
  function ShowsListBody(results: seq<UpstreamShow>, totalResults: int, imageBase: string): (body: seq<Element>)
    ensures |body| == |results| + 1 && body[|results|] == Number(totalResults)
    ensures forall i :: 0 <= i < |results| ==> body[i] == Record(ShowRecord(results[i], imageBase))
  {
    WithTotal(Map(results, s => ShowRecord(s, imageBase)), totalResults)
  }

  /** A list or search body holds exactly one number, and it is the last element. */
  lemma {:induction false} OneTrailingTotal(records: seq<MediaItem>, totalResults: int)
    ensures forall i :: 0 <= i < |WithTotal(records, totalResults)| ==>
      (WithTotal(records, totalResults)[i].Number? <==> i == |records|)
    ensures multiset(WithTotal(records, totalResults))[Number(totalResults)] == 1
  {
    var body := WithTotal(records, totalResults);
    var prefix := body[..|records|];
    assert body == prefix + [Number(totalResults)];
    assert Number(totalResults) !in prefix by {
      forall i | 0 <= i < |prefix| ensures prefix[i] != Number(totalResults) {
        assert prefix[i] == Record(records[i]);
      }
    }
    assert multiset(prefix)[Number(totalResults)] == 0;
  }

  // ---------------------------------------------------------------------------
  // `/tv/:id`: the episodes of every season, flattened

  /** `runtime + "m"` when the runtime is truthy, "N/A" otherwise. */
  function Duration(runtime: Option<int>): (d: string)
    ensures runtime.Some? && runtime.value != 0 ==> ParseInt(d) == runtime
    ensures runtime == None || runtime == Some(0) ==> d == "N/A" && ParseInt(d) == None
  {
    if runtime.Some? && runtime.value != 0 then
      ParseIntToStringThen(runtime.value, "m");
      IntToString(runtime.value) + "m"
    else
      "N/A"
  }

  /** A runtime is written in minutes: the number, then "m". */
  lemma DurationInMinutes(runtime: int)
    requires runtime != 0
    ensures var d := Duration(Some(runtime));
      |d| > 1 && d[..|d| - 1] == IntToString(runtime) && d[|d| - 1] == 'm'
  {
  }

  function EpisodeRecord(e: UpstreamEpisode): Episode
  {
    Episode(e.seasonNumber, e.episodeNumber, e.name, Duration(e.runtime))
  }

  /** The episodes one season contributes: none unless `episodes` is an array. */
  function SeasonRecords(field: SeasonEpisodes): (r: seq<Episode>)
    ensures field.Episodes? ==> |r| == |field.list|
    ensures field.Episodes? ==> forall j :: 0 <= j < |r| ==> r[j] == EpisodeRecord(field.list[j])
    ensures !field.Episodes? ==> r == []
  {
    match field
    case Episodes(list) => seq(|list|, j requires 0 <= j < |list| => EpisodeRecord(list[j]))
    case _ => []
  }

  /** The episodes of seasons 1 to `n`, season after season (none when `n < 1`). */
  function Flattened(fetchSeason: int -> SeasonEpisodes, n: int): seq<Episode>
    decreases n
  {
    if n < 1 then [] else Flattened(fetchSeason, n - 1) + SeasonRecords(fetchSeason(n))
  }

  /**
   * The loop of `/tv/:id`: for each season number from 1 to `number_of_seasons`,
   * push every episode of that season's response.
   */
  method FlattenSeasons(numberOfSeasons: int, fetchSeason: int -> SeasonEpisodes) returns (episodes: seq<Episode>)
    ensures episodes == Flattened(fetchSeason, numberOfSeasons)
  {
    episodes := [];
    var seasonNum := 1;
    while seasonNum <= numberOfSeasons
      invariant 1 <= seasonNum <= Max(1, numberOfSeasons + 1)
      invariant episodes == Flattened(fetchSeason, seasonNum - 1)
    {
      var seasonData := fetchSeason(seasonNum);
      if seasonData.Episodes? {
        var list := seasonData.list;
        var j := 0;
        while j < |list|
          invariant 0 <= j <= |list|
          invariant episodes == Flattened(fetchSeason, seasonNum - 1) + SeasonRecords(seasonData)[..j]
        {
          episodes := episodes + [EpisodeRecord(list[j])];
          j := j + 1;
          assert SeasonRecords(seasonData)[..j] == SeasonRecords(seasonData)[..j - 1] + [EpisodeRecord(list[j - 1])];
        }
        assert SeasonRecords(seasonData)[..j] == SeasonRecords(seasonData);
      }
      seasonNum := seasonNum + 1;
    }
  }

  /** `/tv/:id`: the show's details with every season's episodes. */
  method TvDetailBody(data: UpstreamTvDetail, fetchSeason: int -> SeasonEpisodes, imageBase: string)
    returns (show: TVShow)
    ensures show.item.title == data.show.name && show.item.genres == DetailTvGenres
    ensures show.seasons == data.numberOfSeasons
    ensures show.episodes == Some(Flattened(fetchSeason, data.numberOfSeasons))
  {
    var episodes := FlattenSeasons(data.numberOfSeasons, fetchSeason);
    var s := data.show;
    var item := MediaItem(s.id, s.name, s.firstAirDate, DetailTvGenres, s.voteAverage, imageBase + s.posterPath, s.overview);
    show := TVShow(item, data.numberOfSeasons, Some(episodes));
  }

  /** Seasons are taken in order: the episodes of the first `k` seasons come first. */
  lemma {:induction false} FlattenedInSeasonOrder(fetchSeason: int -> SeasonEpisodes, k: int, n: int)
    requires k <= n
    ensures Flattened(fetchSeason, k) <= Flattened(fetchSeason, n)
    decreases n - k
  {
    if k < n {
      FlattenedInSeasonOrder(fetchSeason, k, n - 1);
      if n >= 1 {
        assert Flattened(fetchSeason, n - 1) <= Flattened(fetchSeason, n);
      }
    }
  }

  /** An episode is listed exactly when some season from 1 to `n` contributes it. */
  lemma {:induction false} FlattenedMembers(fetchSeason: int -> SeasonEpisodes, n: int, e: Episode)
    ensures e in Flattened(fetchSeason, n) <==>
      exists k :: 1 <= k <= n && e in SeasonRecords(fetchSeason(k))
  {
    if n >= 1 {
      FlattenedMembers(fetchSeason, n - 1, e);
      var last := SeasonRecords(fetchSeason(n));
      assert Flattened(fetchSeason, n) == Flattened(fetchSeason, n - 1) + last;
      if e in Flattened(fetchSeason, n) {
        if e !in last {
          assert e in Flattened(fetchSeason, n - 1);
        }
      } else {
        forall k | 1 <= k <= n ensures e !in SeasonRecords(fetchSeason(k)) {
          if k == n {
            assert e !in last;
          }
        }
      }
    }
  }
}
