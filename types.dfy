/**
 * The catalog records exchanged between the server routes and the client.
 * Years and ratings stay strings, as the client types declare them.
 */
module Types {
  import opened JsBuiltins

  /** The fields every movie and TV show record carries. */
  datatype MediaItem = MediaItem(
    id: string,
    title: string,
    year: string,
    genres: seq<string>,
    rating: string,
    poster: string,
    description: string)

  datatype Movie = Movie(item: MediaItem, duration: string)

  datatype Episode = Episode(season: int, episode: int, title: string, duration: string)

  /** A TV show; `episodes` is absent in list responses. */
  datatype TVShow = TVShow(item: MediaItem, seasons: int, episodes: Option<seq<Episode>>)

  /** The `"movie" | "tv"` media type. */
  datatype Kind = MovieKind | TvKind

  /**
   * One element of a JSON array sent by a list or search route: a record, or
   * the bare number the route appends as the total result count.
   */
  datatype Element = Record(item: MediaItem) | Number(n: int)
}
