/**
 * The TV show page: which season, episode and audio language are selected,
 * whether the player is open, the remembered language preference and the
 * `lang` parameter of the page URL.
 */
module TvDetail {
  import opened JsBuiltins
  import opened Types
  import opened UrlParams
  import opened Api
  import TmdbRoutes

  /** The URL parameter that carries the language. */
  const LangParam: string := "lang"

  function Code(language: Language): string
  {
    if language == En then "en" else "fr"
  }

  /** A stored or URL value read as a language: only "en" and "fr" are accepted. */
  function LanguageOf(value: Option<string>): (r: Option<Language>)
    ensures r == Some(En) <==> value == Some("en")
    ensures r == Some(Fr) <==> value == Some("fr")
  {
    if value == Some("en") then Some(En)
    else if value == Some("fr") then Some(Fr)
    else None
  }

  lemma LanguageOfCode(language: Language)
    ensures LanguageOf(Some(Code(language))) == Some(language)
  {
  }

  /**
   * The language after the initialising effect: the URL's `lang` when it names
   * a language, otherwise the stored preference when it names one, otherwise
   * the current selection.
   */
  function InitialLanguage(urlLang: Option<string>, stored: Option<string>, current: Language): Language
  {
    match LanguageOf(urlLang)
    case Some(l) => l
    case None =>
      match LanguageOf(stored)
      case Some(l) => l
      case None => current
  }

  /** The URL wins over the stored preference, which wins over the current selection. */
  lemma InitialLanguagePrecedence(urlLang: Option<string>, stored: Option<string>, current: Language)
    ensures urlLang == Some("en") || urlLang == Some("fr") ==>
      Some(InitialLanguage(urlLang, stored, current)) == LanguageOf(urlLang)
    ensures !(urlLang == Some("en") || urlLang == Some("fr")) && (stored == Some("en") || stored == Some("fr")) ==>
      Some(InitialLanguage(urlLang, stored, current)) == LanguageOf(stored)
    ensures !(urlLang == Some("en") || urlLang == Some("fr")) && !(stored == Some("en") || stored == Some("fr")) ==>
      InitialLanguage(urlLang, stored, current) == current
  {
  }

  /**
   * After a language change, running the initialising effect again (it reruns
   * when the URL changes) keeps the chosen language, whatever the URL held before.
   */
  lemma ChangeThenInit(params: Params, language: Language, current: Language)
    ensures InitialLanguage(Get(Set(params, LangParam, Code(language)), LangParam), Some(Code(language)), current) == language
  {
    LanguageOfCode(language);
  }

  function InSeason(season: int): Episode -> bool
  {
    (e: Episode) => e.season == season
  }

  /** `tvShow.episodes?.filter(e => e.season === season) || []`. */
  function EpisodesForSeason(episodes: Option<seq<Episode>>, season: int): (r: seq<Episode>)
    ensures episodes.None? ==> r == []
    ensures forall i :: 0 <= i < |r| ==> r[i].season == season
    ensures episodes.Some? ==> forall i :: 0 <= i < |episodes.value| && episodes.value[i].season == season ==>
      episodes.value[i] in r
    ensures episodes.Some? ==> multiset(r) <= multiset(episodes.value)
  {
    match episodes
    case None => []
    case Some(list) => KeepIf(list, InSeason(season))
  }

  /** Every upstream episode of season k carries season number k. */
  predicate SeasonsNumbered(fetchSeason: int -> TmdbRoutes.SeasonEpisodes, n: int)
  {
    forall k, i :: 1 <= k <= n && fetchSeason(k).Episodes? && 0 <= i < |fetchSeason(k).list| ==>
      fetchSeason(k).list[i].seasonNumber == k
  }

  /** Filtering one season's records keeps all of them for that season and none for another. */
  lemma LastSeasonFilter(fetchSeason: int -> TmdbRoutes.SeasonEpisodes, n: int, season: int)
    requires n >= 1 && SeasonsNumbered(fetchSeason, n)
    ensures KeepIf(TmdbRoutes.SeasonRecords(fetchSeason(n)), InSeason(season)) ==
      if season == n then TmdbRoutes.SeasonRecords(fetchSeason(n)) else []
  {
    var last := TmdbRoutes.SeasonRecords(fetchSeason(n));
    forall i | 0 <= i < |last|
      ensures last[i].season == n
    {
      assert last[i] == TmdbRoutes.EpisodeRecord(fetchSeason(n).list[i]);
    }
    KeepIfAllOrNone(last, InSeason(season));
  }

  /**
   * On a show built by the `/tv/:id` route, the episodes listed for season s
   * are exactly that season's upstream episodes in upstream order, and none
   * for a season outside 1..number_of_seasons.
   */
  lemma {:induction false} EpisodesOfFlattened(fetchSeason: int -> TmdbRoutes.SeasonEpisodes, n: int, season: int)
    requires SeasonsNumbered(fetchSeason, n)
    ensures EpisodesForSeason(Some(TmdbRoutes.Flattened(fetchSeason, n)), season) ==
      if 1 <= season <= n then TmdbRoutes.SeasonRecords(fetchSeason(season)) else []
  {
    if n >= 1 {
      var earlier := TmdbRoutes.Flattened(fetchSeason, n - 1);
      var last := TmdbRoutes.SeasonRecords(fetchSeason(n));
      assert TmdbRoutes.Flattened(fetchSeason, n) == earlier + last;
      assert SeasonsNumbered(fetchSeason, n - 1);
      EpisodesOfFlattened(fetchSeason, n - 1, season);
      KeepIfAppend(earlier, last, InSeason(season));
      LastSeasonFilter(fetchSeason, n, season);
      if season == n {
        assert KeepIf(earlier, InSeason(season)) + last == last;
      } else if 1 <= season < n {
        assert KeepIf(earlier, InSeason(season)) + [] == KeepIf(earlier, InSeason(season));
      }
    }
  }

  /** The season buttons: 1..seasons (none for a count below 1). */
  function SeasonButtons(seasons: int): (r: seq<int>)
    ensures |r| == Max(0, seasons)
    ensures forall i :: 0 <= i < |r| ==> r[i] == i + 1
  {
    seq(Max(0, seasons), i => i + 1)
  }

  /** The state of the page for one show. */
  class TvDetailPage {
    const id: string
    var isPlaying: bool
    var selectedSeason: int
    var selectedEpisode: int
    var selectedLanguage: Language
    /** The `preferred-language` entry of the browser's storage. */
    var storedLanguage: Option<string>
    /** The query parameters of the page URL. */
    var urlParams: Params

    /** Not playing, season 1, episode 1, English. */
    constructor (id: string, urlParams: Params, storedLanguage: Option<string>)
      ensures this.id == id && this.urlParams == urlParams && this.storedLanguage == storedLanguage
      ensures !isPlaying && selectedSeason == 1 && selectedEpisode == 1 && selectedLanguage == En
    {
      this.id := id;
      isPlaying := false;
      selectedSeason := 1;
      selectedEpisode := 1;
      selectedLanguage := En;
      this.storedLanguage := storedLanguage;
      this.urlParams := urlParams;
    }

    /** The effect that initialises the language from the URL or the stored preference. */
    method InitLanguage()
      modifies this
      ensures selectedLanguage == InitialLanguage(Get(urlParams, LangParam), storedLanguage, old(selectedLanguage))
      ensures isPlaying == old(isPlaying) && selectedSeason == old(selectedSeason) && selectedEpisode == old(selectedEpisode)
      ensures storedLanguage == old(storedLanguage) && urlParams == old(urlParams)
    {
      var urlLang := Get(urlParams, LangParam);
      if urlLang == Some("en") || urlLang == Some("fr") {
        selectedLanguage := LanguageOf(urlLang).value;
      } else if storedLanguage == Some("en") || storedLanguage == Some("fr") {
        selectedLanguage := LanguageOf(storedLanguage).value;
      }
    }

    /**
     * The language toggle; None is the empty value the toggle sends when the
     * active item is clicked again, and changes nothing.
     */
    method HandleLanguageChange(language: Option<Language>)
      modifies this
      ensures language.None? ==>
        selectedLanguage == old(selectedLanguage) && storedLanguage == old(storedLanguage) && urlParams == old(urlParams)
      ensures language.Some? ==>
        && selectedLanguage == language.value
        && storedLanguage == Some(Code(language.value))
        && urlParams == Set(old(urlParams), LangParam, Code(language.value))
      ensures language.Some? ==> Get(urlParams, LangParam) == Some(Code(language.value))
      ensures forall name :: name != LangParam ==> Get(urlParams, name) == Get(old(urlParams), name)
      ensures isPlaying == old(isPlaying) && selectedSeason == old(selectedSeason) && selectedEpisode == old(selectedEpisode)
    {
      if language.None? {
        return;
      }
      var code := Code(language.value);
      selectedLanguage := language.value;
      storedLanguage := Some(code);
      var before := urlParams;
      urlParams := Set(urlParams, LangParam, code);
      forall name | name != LangParam
        ensures Get(urlParams, name) == Get(before, name)
      {
        SetKeepsOthers(before, LangParam, code, name);
      }
    }

    /** A season button: that season, from its first episode. */
    method SelectSeason(season: int)
      modifies this
      ensures selectedSeason == season && selectedEpisode == 1
      ensures isPlaying == old(isPlaying) && selectedLanguage == old(selectedLanguage)
      ensures storedLanguage == old(storedLanguage) && urlParams == old(urlParams)
    {
      selectedSeason := season;
      selectedEpisode := 1;
    }

    /** An episode button changes only the episode. */
    method SelectEpisode(episode: int)
      modifies this
      ensures selectedEpisode == episode
      ensures isPlaying == old(isPlaying) && selectedSeason == old(selectedSeason) && selectedLanguage == old(selectedLanguage)
      ensures storedLanguage == old(storedLanguage) && urlParams == old(urlParams)
    {
      selectedEpisode := episode;
    }

    method Play()
      modifies this
      ensures isPlaying
      ensures selectedSeason == old(selectedSeason) && selectedEpisode == old(selectedEpisode)
      ensures selectedLanguage == old(selectedLanguage) && storedLanguage == old(storedLanguage) && urlParams == old(urlParams)
    {
      isPlaying := true;
    }

    /** The player's close button. */
    method Close()
      modifies this
      ensures !isPlaying
      ensures selectedSeason == old(selectedSeason) && selectedEpisode == old(selectedEpisode)
      ensures selectedLanguage == old(selectedLanguage) && storedLanguage == old(storedLanguage) && urlParams == old(urlParams)
    {
      isPlaying := false;
    }

    /** The address the player loads, or None while the player is closed. */
    function PlayerUrl(): (r: Option<string>)
      reads this
      ensures r.Some? <==> isPlaying
      ensures r.Some? && selectedLanguage == Fr ==> FrenchUrl <= r.value
      ensures r.Some? && selectedLanguage == En ==> EnglishUrl <= r.value
    {
      if isPlaying then Some(StreamingUrl(id, TvKind, Some(selectedSeason), Some(selectedEpisode), Some(selectedLanguage)))
      else None
    }
  }

  /** Two selections on the same show and language play the same address only when they name the same episode. */
  lemma PlayerUrlIdentifiesEpisode(id: string, s1: int, e1: int, s2: int, e2: int, language: Language)
    requires StreamingUrl(id, TvKind, Some(s1), Some(e1), Some(language)) == StreamingUrl(id, TvKind, Some(s2), Some(e2), Some(language))
    ensures s1 == s2 && e1 == e2
  {
    EpisodeUrlDeterminesEpisode(id, Some(s1), Some(e1), Some(s2), Some(e2), Some(language));
  }
}
