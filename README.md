# stream-flix in Dafny

This project models the core of stream-flix, a film and TV streaming front end:

- **Express routes.** The routes in `routes/tmdbApi.js` turn the movie database's responses into media records. The list and search routes push the result count onto the end of the JSON array. The `/tv/:id` route fetches every season and flattens the episodes in season order.
- **Client data layer.** `lib/api.ts` covers four things:
  - It decodes the search responses. It pops the trailing total off the array in place and keeps the first `limit` records.
  - It builds the English or French embed URL for a movie or an episode.
  - It filters and sorts the browse lists. The filters are search text, genre and year. The sort is in place and stable, by year, rating or title.
  - It collects the sorted genre list.
- **Search page.** `components/search-page.tsx` has a pager with page 1, the pages within two of the current one, the last page and "..." gaps. It also holds the totals, the combined "All" list, the "Showing x-y of n" line and the page state mirrored into the URL.
- **Movies page.** `components/movies-page.tsx` keeps the filter state, the view mode and a five-button page window.
- **TV show page.** `components/tv-detail-page.tsx` handles:
  - the season, episode and language selection;
  - the language taken from the URL or the stored preference;
  - the episode list of the selected season;
  - the player URL.

The files are:

- `js_builtins.dfy` (module `JsBuiltins`). The JavaScript built-ins the code relies on, written out:
  - `Number.parseInt` and `toString` on integers;
  - `Math.ceil` of a quotient;
  - `Array.filter`, `slice`, `pop` and `push`;
  - ASCII `toLowerCase` and `includes`.
- `url_params.dfy` (module `UrlParams`). `URLSearchParams` as an ordered list of name/value pairs.
- `types.dfy` (module `Types`). The records: media item, movie, episode, TV show. Also an element of a JSON response array, which is a record or a number.
- `tmdb_routes.dfy` (module `TmdbRoutes`). The route handlers.
- `api.dfy` (module `Api`). The client data layer.
- `search_page.dfy`, `movies_page.dfy` and `tv_detail_page.dfy` (modules `Search`, `Browse` and `TvDetail`). The three pages. Each page's `useState` fields are the fields of a class, and each handler is a method that updates them.

Each `fetch` is replaced by the body it would return: a parameter, or a function from season number to season response. A JavaScript `NaN` or `undefined` becomes `None`.

## Model

| member | source | states |
|---|---|---|
| JsBuiltins.OrDefault | lib/api.ts:90-91 | `x \|\| d` on a number keeps any non-zero value and falls back to d for 0 and undefined |
| JsBuiltins.ParseInt | components/search-page.tsx:24-26 | `Number.parseInt` reads a number only from a non-empty string; `ParseIntToString` states what it reads |
| JsBuiltins.IntToString | components/search-page.tsx:34-36 | `toString` on an integer writes a non-empty string that starts with a digit or a minus sign; `ParseIntToString` states that it reads back |
| JsBuiltins.ParseIntToString | components/search-page.tsx:24-26 | `parseInt` reads back any number written by `toString`, so page numbers survive the URL |
| JsBuiltins.CeilDiv | components/search-page.tsx:85-86 | `Math.ceil(a / b)` for a non-zero divisor is the integer q with (q - 1) * b < a <= q * b, for either sign of b |
| JsBuiltins.CeilDivZero | components/search-page.tsx:85-86 | for a non-negative count and a positive divisor, `Math.ceil(a / b)` is non-negative and zero exactly when the count is |
| JsBuiltins.KeepIf | lib/api.ts:155-170 | `filter` keeps exactly the elements that pass, in order, and adds nothing |
| JsBuiltins.Map | routes/tmdbApi.js:12-20 | `map` gives one result per element, each the callback applied to the element at the same index |
| JsBuiltins.SliceTo | lib/api.ts:92 | `slice(0, end)` is a prefix whose length follows JavaScript's rules for a negative or oversized end |
| JsBuiltins.JsArray.Last | lib/api.ts:88 | `data[data.length - 1]` is the last element, or undefined for an empty array |
| JsBuiltins.JsArray.Pop | lib/api.ts:89 | `pop` returns the last element and removes it in place; an empty array is left unchanged |
| JsBuiltins.JsArray.Push | routes/tmdbApi.js:149 | `push` appends one element in place, and that element becomes the last one |
| UrlParams.Get | components/search-page.tsx:22-26 | `get` finds a value exactly when some pair has that name |
| UrlParams.GetFirst | components/search-page.tsx:22-26 | the value `get` finds is that of the first pair with the name |
| UrlParams.Set | components/tv-detail-page.tsx:47-48 | after `set(name, v)`, `get(name)` returns `v` |
| UrlParams.SetKeepsOthers | components/tv-detail-page.tsx:47-48 | `set` on one name leaves every other name's value as it was |
| TmdbRoutes.WithTotal | routes/tmdbApi.js:149 | a list body is the records followed by one trailing number, `total_results` |
| TmdbRoutes.RespondWithTotal | routes/tmdbApi.js:136-150 | pushing `total_results` onto the mapped array gives exactly that list body |
| TmdbRoutes.WithoutTotal | routes/tmdbApi.js:21 | the trending and upcoming bodies are the records alone |
| TmdbRoutes.OneTrailingTotal | routes/tmdbApi.js:149 | a list body holds exactly one number, and it is in the last slot |
| TmdbRoutes.TrendingMoviesBody | routes/tmdbApi.js:7-25 | one record per result, titled from `title`, with the poster URL prefixed by the image base |
| TmdbRoutes.TrendingTvBody | routes/tmdbApi.js:29-51 | one show per result, titled from `name` |
| TmdbRoutes.MovieDetailBody | routes/tmdbApi.js:78-88 | the detail record keeps the id, is titled from `original_title` and gets the prefixed poster |
| TmdbRoutes.MoviesListBody | routes/tmdbApi.js:136-150 | the popular-movies results titled from `title`, then `total_results` |
| TmdbRoutes.SearchMoviesBody | routes/tmdbApi.js:177-191 | the movie search results titled from `original_title`, then `total_results` |
| TmdbRoutes.ShowsListBody | routes/tmdbApi.js:157-171 | the TV list and TV search results titled from `name`, then `total_results` |
| TmdbRoutes.Duration | routes/tmdbApi.js:112 | a non-zero runtime becomes a string that reads back as that runtime; an absent or zero runtime becomes "N/A" |
| TmdbRoutes.DurationInMinutes | routes/tmdbApi.js:112 | a non-zero runtime is written as its decimal text followed by "m" |
| TmdbRoutes.SeasonRecords | routes/tmdbApi.js:106-115 | a season contributes one episode per upstream episode, in order, and none when `episodes` is not an array |
| TmdbRoutes.FlattenSeasons | routes/tmdbApi.js:102-116 | the loop's accumulated list is the episodes of seasons 1 to `number_of_seasons`, season after season |
| TmdbRoutes.TvDetailBody | routes/tmdbApi.js:95-129 | the show keeps the name and season count and carries every season's episodes |
| TmdbRoutes.FlattenedInSeasonOrder | routes/tmdbApi.js:103 | the episodes of the first k seasons are a prefix of the whole list |
| TmdbRoutes.FlattenedMembers | routes/tmdbApi.js:102-116 | an episode is in `Flattened`, the list of seasons 1 to `number_of_seasons`, if and only if some season in that range contributes it |
| Api.TrailingTotal | lib/api.ts:88 | the total exists exactly when the last slot holds a number |
| Api.DecodeSearch | lib/api.ts:88-95 | total is the trailing number, if any. Page is `options.page \|\| 1` and limit is `options.limit \|\| 20`. Items are the body before that slot cut by `slice(0, limit)`, so of length `min(limit, n - 1)` for a positive limit. The page count exists exactly when the total does, and covers it |
| Api.SearchResults | lib/api.ts:81-96 | reading the total, popping it in place and slicing gives the decoded response |
| Api.DecodeEncoded | lib/api.ts:88-93 | decoding a route's list body gives back the route's total, its records cut by `slice(0, options.limit \|\| 20)`, and `ceil(total / limit)` pages |
| Api.SearchMoviesRoundTrip | lib/api.ts:81-96 | with limit = `options.limit \|\| 20`, a decoded movie search page holds `min(limit, n)` results (`max(0, n + limit)` for a negative limit) titled from `original_title`, in route order, with the route's total |
| Api.StreamingUrl | lib/api.ts:116-140 | a French request gets the French provider's URL; any other request gets the English provider's URL |
| Api.MovieUrlIgnoresEpisode | lib/api.ts:128-135 | a movie URL does not depend on the season or episode passed |
| Api.StreamingUrlDeterminesRequest | lib/api.ts:116-140 | for ids without '/' or '&', two URLs of the same kind and language are equal only for the same id, and for a show only for the same season and episode |
| Api.EpisodeUrlDeterminesEpisode | lib/api.ts:131-137 | two episode URLs for the same show and language are equal only when season and episode are equal |
| Api.SortOrderOf | lib/api.ts:173-187 | "oldest" alone sorts ascending, "rating" alone by rating and "title" alone by title; "newest" and every unknown key sort newest first |
| Api.FilteredSelects | lib/api.ts:155-170 | `Filtered`, the three filters applied in turn, keeps exactly the records that pass every active filter, in order |
| Api.ApplyFilters | lib/api.ts:155-170 | the reassignments of the filtered list give that filtered list |
| Api.SwapKeepsTies | lib/api.ts:172-187 | swapping two neighbours with different sort keys keeps the relative order of every group of equal keys |
| Api.SortBy | lib/api.ts:172-187 | the in-place sort leaves the array ordered by the comparator's key, a permutation of what it held, and stable: records with equal keys keep their relative order |
| Api.InsertAt | lib/api.ts:172-187 | one insertion pass extends the sorted prefix by one record, in place, keeping the contents and the order of equal keys |
| Api.SortedUnique | lib/api.ts:172-187 | a stable sort has one outcome: two lists ordered by the same key, with the records of each key in the same order, are equal |
| Api.FetchList | lib/api.ts:151-195 | the records kept are a permutation of the filtered ones, sorted stably by the branch's key: year ascending for "oldest", year descending for "newest" and any other value, rating descending for "rating", title ascending for "title". At most the first 20 are returned, with page `options.page \|\| 1` and limit `options.limit \|\| 20` |
| Api.FirstPageSortsFirst | lib/api.ts:192 | no record past the first 20 sorts before a record on the page |
| Api.StrLessTotal | lib/api.ts:248 | the default sort order is a strict total order on strings |
| Api.StrLessTransitive | lib/api.ts:248 | the default sort order is transitive |
| Api.Insert | lib/api.ts:248 | inserting a new string into a sorted list keeps it sorted and adds exactly that string |
| Api.SortedList | lib/api.ts:248 | `Array.from(set).sort()` lists every member of the set once, in order |
| Api.AddGenres | lib/api.ts:245-246 | the nested `forEach` adds every genre of every record to the set and nothing else |
| Api.GetGenres | lib/api.ts:243-249 | the genre list is sorted without duplicates and holds exactly the genres of the movies and the shows |
| Search.Span | components/search-page.tsx:102-104 | the loop's range is lo..hi ascending, and empty when lo > hi |
| Search.VisiblePages | components/search-page.tsx:97-121 | the loop and the pushes build exactly the pager window, `Window` |
| Search.NumbersAppend | components/search-page.tsx:106-118 | reading page numbers off the entries commutes with concatenation |
| Search.WindowNumbers | components/search-page.tsx:97-121 | `Window`, the pager, starts at page 1 and ends at the last page. The numbers in between are exactly the pages within two of the current one. It has at most nine buttons |
| Search.WindowIncreasing | components/search-page.tsx:97-121 | page numbers strictly increase from left to right |
| Search.WindowEllipses | components/search-page.tsx:106-118 | "..." follows page 1 if and only if current - 2 > 2. It precedes the last page if and only if current + 2 < last - 1 |
| Search.WindowGaps | components/search-page.tsx:106-118 | adjacent numbers are consecutive, and every "..." hides at least one page |
| Search.WindowShowsCurrent | components/search-page.tsx:97-121 | the current page always has a button |
| Search.WindowInRange | components/search-page.tsx:97-121 | every page number shown is within 1..totalPages |
| Search.WindowExamples | components/search-page.tsx:97-121 | on page 5 of 10 the pager shows 1 … 3 4 5 6 7 … 10; on page 1 of 5, 1 2 3 … 5; on page 1 of 2, 1 2 |
| Search.Pager | components/search-page.tsx:94-95 | no pager if and only if there is at most one page |
| Search.PreviousNextInRange | components/search-page.tsx:128-153 | Previous and Next move by one page and never leave 1..totalPages |
| Search.ClickInRange | components/search-page.tsx:141 | clicking any shown button lands on a page within range; "..." changes nothing |
| Search.TrackTotal | components/search-page.tsx:81-82 | a missing response, a missing total and a zero total all count as 0; any other total is kept |
| Search.TotalPagesCover | components/search-page.tsx:85-86 | the page count is zero only without results, and its last page is non-empty |
| Search.AllTotal | components/search-page.tsx:83 | the "All" count is the movie total plus the TV total, and 0 before any response |
| Search.AllResults | components/search-page.tsx:88-92 | the combined list is every movie result tagged "movie", then every TV result tagged "tv", in order |
| Search.AllResultsMoviesFirst | components/search-page.tsx:88-92 | no movie comes after a show in the combined list |
| Search.ResultsRange | components/search-page.tsx:163-167 | the results line is hidden if and only if the total is 0 |
| Search.ResultsRangeBounds | components/search-page.tsx:163-167 | on an existing page the line names a non-empty run within 1..total that fits on one page |
| Search.AllTabRange | components/search-page.tsx:249 | the "All" tab always reports results 1 to min(pageSize, total) |
| Search.GetOr | components/search-page.tsx:22-26 | `get(name) \|\| fallback` is never empty when the fallback is not |
| Search.GetSetIf | components/search-page.tsx:33-37 | a conditional `set` changes only its own name, and only when its condition holds |
| Search.GetSerialized | components/search-page.tsx:31-37 | `Serialize`, the URL the effect writes, carries each value exactly when it differs from its default |
| Search.ParseWhere | components/search-page.tsx:22-26 | `Parse` reads a state back from any parameter list that carries each value exactly when it differs from its default |
| Search.ReadsBack | components/search-page.tsx:24-26 | the fallbacks "1" and "20" parse to 1 and 20, and every written number parses back |
| Search.ParseSerialize | components/search-page.tsx:22-37 | `Parse`, reading the state from the URL, gives back the same state from the URL `Serialize` writes |
| Search.ParseSerializeParse | components/search-page.tsx:22-37 | a state read from a URL survives another write and read unchanged |
| Search.SearchPage.constructor | components/search-page.tsx:22-26 | the page starts in the state `Parse` reads from the URL parameters |
| Search.SearchPage.SetQuery | components/search-page.tsx:209 | typing changes only the query |
| Search.SearchPage.HandleSearch | components/search-page.tsx:63-68 | submitting resets both pages to 1, which drops both page parameters from the URL; nothing else changes |
| Search.SearchPage.HandleTabChange | components/search-page.tsx:70-72 | a tab click changes only the tab |
| Search.SearchPage.HandlePageSizeChange | components/search-page.tsx:74-78 | a new page size is parsed and both pages go back to 1 |
| Search.SearchPage.SetMoviePage | components/search-page.tsx:284 | the movie pager changes only the movie page |
| Search.SearchPage.SetTvPage | components/search-page.tsx:309 | the TV pager changes only the TV page |
| Browse.TotalPages | components/movies-page.tsx:50 | no total or a zero total gives 0 pages; a positive total gives the least page count that covers it |
| Browse.PageWindow | components/movies-page.tsx:228-229 | the pager shows `min(5, totalPages)` consecutive page numbers |
| Browse.Pager | components/movies-page.tsx:216-229 | no pager if and only if there is at most one page; a shown pager has between two and five page buttons |
| Browse.PageWindowCoversCurrent | components/movies-page.tsx:228-229 | for an existing page, every button names an existing page and the current page has a button |
| Browse.SmallWindowIsEveryPage | components/movies-page.tsx:228-229 | with fewer than five pages the pager shows every page |
| Browse.PreviousNextInRange | components/movies-page.tsx:221-247 | Previous and Next move by one page and stay within 1..totalPages |
| Browse.Toggled | components/movies-page.tsx:153 | the view toggle always changes the mode |
| Browse.ToggleTwice | components/movies-page.tsx:153 | toggling twice restores the mode |
| Browse.OptionsFor | components/movies-page.tsx:33-41 | the request carries the page's four filters; `fetchMovies` reads back the current page (when non-zero) and a limit of 20 |
| Browse.PageKeepsList | lib/api.ts:190-192 | for one response body and one filter state, every sorted list `fetchMovies` may produce at one page equals the one at any other page, and so do the first 20 records returned: `slice(0, 20)` ignores the page |
| Browse.NoFiltersSelectAll | components/movies-page.tsx:57-63 | after a reset no record is filtered out and the order is newest first |
| Browse.MoviesPage.constructor | components/movies-page.tsx:19-24 | the page starts unfiltered, newest first, on page 1, in grid view |
| Browse.MoviesPage.SetSearchQuery | components/movies-page.tsx:96 | typing changes only the search text |
| Browse.MoviesPage.HandleSearch | components/movies-page.tsx:52-55 | submitting goes back to page 1 and changes nothing else |
| Browse.MoviesPage.ResetFilters | components/movies-page.tsx:57-63 | every filter returns to its default and the page to 1; the view mode stays |
| Browse.MoviesPage.SelectGenre | components/movies-page.tsx:105 | choosing a genre changes only the genre, not the page |
| Browse.MoviesPage.SelectYear | components/movies-page.tsx:119 | choosing a year changes only the year, not the page |
| Browse.MoviesPage.SelectSort | components/movies-page.tsx:133 | choosing an order changes only the order, not the page |
| Browse.MoviesPage.ToggleViewMode | components/movies-page.tsx:150-156 | the button switches between grid and list; being a button without a `type` inside the filter form, it also submits the form, so `handleSearch` returns to page 1; the filters stay |
| Browse.MoviesPage.GoPrevious | components/movies-page.tsx:221 | Previous moves to `max(1, page - 1)` |
| Browse.MoviesPage.GoNext | components/movies-page.tsx:246 | Next moves to `min(totalPages, page + 1)` for the response's page count |
| Browse.MoviesPage.GoToPage | components/movies-page.tsx:235 | a page button moves to that page |
| TvDetail.LanguageOf | components/tv-detail-page.tsx:29-35 | a stored or URL value is a language if and only if it is "en" or "fr" |
| TvDetail.LanguageOfCode | components/tv-detail-page.tsx:44-48 | a code written by a language change reads back as that language |
| TvDetail.InitialLanguagePrecedence | components/tv-detail-page.tsx:28-37 | in `InitialLanguage`, a valid URL `lang` wins. Otherwise a valid stored preference wins. Otherwise the selection stays |
| TvDetail.ChangeThenInit | components/tv-detail-page.tsx:28-50 | after a language change, re-running the initialising effect keeps the chosen language |
| TvDetail.EpisodesForSeason | components/tv-detail-page.tsx:69 | the listed episodes are exactly those of the selected season, in order, and none when the show has no episode list |
| TvDetail.EpisodesOfFlattened | components/tv-detail-page.tsx:69 | on a show from the `/tv/:id` route, and provided the provider numbers each season's episodes with that season (`SeasonsNumbered`), season s lists exactly that season's upstream episodes, and none outside 1..seasons |
| TvDetail.SeasonButtons | components/tv-detail-page.tsx:157-167 | the buttons are seasons 1..seasons |
| TvDetail.TvDetailPage.constructor | components/tv-detail-page.tsx:20-23 | the page starts closed, on season 1, episode 1, in English |
| TvDetail.TvDetailPage.InitLanguage | components/tv-detail-page.tsx:28-37 | the effect sets the language by URL, then stored preference, and changes nothing else |
| TvDetail.TvDetailPage.HandleLanguageChange | components/tv-detail-page.tsx:40-50 | a language is selected, stored and set as `lang` in the URL, keeping the other parameters; an empty value changes nothing |
| TvDetail.TvDetailPage.SelectSeason | components/tv-detail-page.tsx:161-164 | a season button selects that season from its first episode |
| TvDetail.TvDetailPage.SelectEpisode | components/tv-detail-page.tsx:183 | an episode button changes only the episode |
| TvDetail.TvDetailPage.Play | components/tv-detail-page.tsx:57-59 | play opens the player and keeps the selection |
| TvDetail.TvDetailPage.Close | components/tv-detail-page.tsx:77 | close hides the player and keeps the selection |
| TvDetail.TvDetailPage.PlayerUrl | components/tv-detail-page.tsx:72-74 | the player has an address exactly while it is open, on the French provider for French and the English provider for English |
| TvDetail.PlayerUrlIdentifiesEpisode | components/tv-detail-page.tsx:75 | for one show and language, the player URL is equal for two selections only when they name the same episode |

## Left out

- Network and servers: `fetch`, Express routing, `res.json`, the error responses (status 500) and the API key. Each fetch becomes its response body as a parameter.
- React rendering and the loading and error views; `useQuery` caching, concurrency and stale responses.
- The search debounce timer: the query is taken as already settled.
- `router.replace` and `localStorage`: they are a URL parameter list and a stored value held as fields.
- Percent-encoding of `URLSearchParams` (the application/x-www-form-urlencoded serializer of the WHATWG URL Standard, section 5.2).
- The mock data literals (lib/api.ts:4-48) are not modelled. Api.GetGenres takes the movies and shows as parameters instead.
- The year options (2024 back to 1995) in the movies page menu.
- `fetchMovies`/`fetchTVShows` read `total` from the last element after filtering and sorting. That value is ill-typed: a number or a record. It is not modelled; the filters and the sort work on records only. In the source, the trailing number also reaches the search and genre filter callbacks (lib/api.ts:155-170), where `.title` or `.genres` of a number is undefined and the call throws; the model returns the filtered list instead.
- Api.FetchList: for "rating" and "title" the sort key is a parameter (`ratingRank`, `titleRank`) standing for the `parseFloat` and `localeCompare` order. Floats, NaN and locale rules are not modelled, so the key is any integer ranking the caller supplies.
- Numeric ids and ratings: the routes copy TMDB's numeric `id` and `vote_average` into the records; the model holds both as their decimal text, and the floating-point rating is not modelled as a number.
- Api.YearKey: a year that does not start with digits sorts as 0. JavaScript's comparator returns NaN there, which leaves the order implementation-defined.
- JsBuiltins.ParseInt: no leading whitespace, no hexadecimal prefix, and decimal only. An unparsable string is None (NaN).
- JsBuiltins.LowerString: ASCII letters only; Unicode case mapping is not modelled.
- Search.Parse: a page number in the URL that is not a number makes the whole parse None. The page would hold NaN there instead.
- Search.TrackTotalPages: requires a non-zero page size. With page size 0, JavaScript computes Infinity or NaN.
- Search.SearchPage.HandlePageSizeChange: requires the new size to parse. The select only offers numbers.
- Api.DecodeSearch: when the last element of a body is not a number, the total is None. JavaScript would keep the record there as the total.
- JsBuiltins.ParseIntToString, Search.ParseSerialize and Search.ParseSerializeParse: JavaScript numbers are IEEE doubles, and the model uses unbounded integers. A page number of 1e21 or more prints as "1e+21" and parses back as 1, and a digit string above 2^53 is rounded. These round trips hold only for integers below 2^53 in magnitude.
- Api.StrLess: Dafny characters are Unicode scalar values, while JavaScript compares UTF-16 code units. The two orders differ when a character above U+FFFF is compared with one in U+E000..U+FFFF.
- Search.SearchPage.constructor: requires every page number in the URL to parse. JavaScript would start with NaN there.
- Browse.MoviesPage.ToggleViewMode: the return to page 1 follows the HTML rule that a button without a `type` inside a form submits it. components/ui/button.tsx is not part of this model; the model takes it to pass its props through without setting a default `type`. The Reset button is in the same form, and ResetFilters already ends on page 1.
- Browse.PageKeepsList: `fetchMovies` requests the upstream page named by `options.page` (lib/api.ts:152). The fetch is a parameter of the model, so the lemma is about one response body; the page only chooses which body arrives.
