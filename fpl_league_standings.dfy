/**
 * `fpl_league_standings.py`: one page of a classic league's standings,
 * fetched through the JSON cache and shaped into the league, one row per
 * standings result, and the paging information.
 */
module FplLeagueStandings {
  import opened Wrappers
  import opened PyJson
  import opened Http
  import opened Filtering
  import opened FplUtils
  import opened CacheKeys

  /** One `standings` row: the eight fields read from a `results` item, each None when absent. */
  datatype Row = Row(
    rank: Json,
    entry: Json,
    playerName: Json,
    entryName: Json,
    total: Json,
    eventTotal: Json,
    lastRank: Json,
    movement: Json)

  function RowOf(r: Dict): Row {
    Row(Get(r, "rank", JNull), Get(r, "entry", JNull), Get(r, "player_name", JNull), Get(r, "entry_name", JNull),
        Get(r, "total", JNull), Get(r, "event_total", JNull), Get(r, "last_rank", JNull), Get(r, "movement", JNull))
  }

  /** The `page` dict of the result. */
  datatype PageInfo = PageInfo(page: Json, results: nat, hasNext: Json, hasPrevious: Json)

  /** The dict `get_standings` returns. */
  datatype Standings = Standings(league: Json, rows: seq<Row>, pageInfo: PageInfo)

  /** `standings_section.get('results', [])` for a dict section, `[]` otherwise. */
  function Results(section: Json): Json {
    if section.JObj? then Get(section.fields, "results", JArr([])) else JArr([])
  }

  /** `page_info`: read from a dict section, otherwise the requested page and no paging flags. */
  function PageInfoOf(section: Json, page: int, results: nat): (r: PageInfo)
    ensures r.results == results
    ensures !section.JObj? ==> r.page == JInt(page) && r.hasNext == JNull && r.hasPrevious == JNull
    ensures section.JObj? && "page" !in section.fields ==> r.page == JNull
  {
    if section.JObj? then
      PageInfo(Get(section.fields, "page", JNull), results,
               Get(section.fields, "has_next", JNull), Get(section.fields, "has_previous", JNull))
    else PageInfo(JInt(page), results, JNull, JNull)
  }

  /** What `get_standings` returns for the payload `data`; None when the row loop raises. */
  function Shape(data: Json, page: int): (r: Option<Standings>)
    ensures !data.JObj? ==> r == Some(Standings(JObj(map[]), [], PageInfoOf(JNull, page, 0)))
    ensures r.None? <==> data.JObj? && IterDicts(Results(Get(data.fields, "standings", JObj(map[])))).None?
    ensures r.Some? ==> r.value.pageInfo.results == |r.value.rows|
    ensures r.Some? && data.JObj? ==>
      && r.value.league == Get(data.fields, "league", JObj(map[]))
      && r.value.pageInfo == PageInfoOf(Get(data.fields, "standings", JObj(map[])), page, |r.value.rows|)
    ensures r.Some? && data.JObj? ==>
      var rs := IterDicts(Results(Get(data.fields, "standings", JObj(map[])))).value;
      |r.value.rows| == |rs| && forall k :: 0 <= k < |rs| ==> r.value.rows[k] == RowOf(rs[k])
  {
    if !data.JObj? then Some(Standings(JObj(map[]), [], PageInfoOf(JNull, page, 0)))
    else
      var section := Get(data.fields, "standings", JObj(map[]));
      match IterDicts(Results(section))
      case None => None
      case Some(rs) =>
        Some(Standings(Get(data.fields, "league", JObj(map[])), Each(rs, RowOf), PageInfoOf(section, page, |rs|)))
  }

  /** What `get_standings` returns or raises, given what the fetch produced. */
  function StandingsOutcome(fetched: Result<Json, FetchError>, page: int): Result<Standings, CallError> {
    match fetched
    case Failure(e) => Failure(FetchFailed(e))
    case Success(data) =>
      match Shape(data, page)
      case None => Failure(Raised)
      case Some(s) => Success(s)
  }

  /**
   * Paging is reported faithfully: when the payload carries a dict
   * `standings` section, `page_info.page` is the section's own page (None if
   * it has none), whatever page was requested; otherwise it is the requested
   * page.
   */
  lemma PageReported(data: Json, page: int)
    requires Shape(data, page).Some?
    ensures var section := if data.JObj? then Get(data.fields, "standings", JObj(map[])) else JNull;
      Shape(data, page).value.pageInfo.page ==
        if section.JObj? then Get(section.fields, "page", JNull) else JInt(page)
  {
  }

  class FplLeagueStandings {
    const utils: FplUtils

    constructor (utils: FplUtils)
      ensures this.utils == utils
    {
      this.utils := utils;
    }

    /** `get_standings`: fetch the page under its own key, then append one row per result. */
    method GetStandings(leagueId: int, page: int, forceRefresh: bool, w: World)
      returns (r: Result<Standings, CallError>)
      modifies utils
      ensures var e := LeagueStandings(leagueId, page);
        && r == StandingsOutcome(
             FetchOutcome(old(utils.files), utils.cacheDir, utils.cacheExpiryDays, Url(e), CacheKey(e), forceRefresh, w), page)
        && utils.files == DiskAfter(old(utils.files), utils.cacheDir, utils.cacheExpiryDays, Url(e), CacheKey(e), forceRefresh, w)
    {
      var e := LeagueStandings(leagueId, page);
      var fetched := utils.FetchUrlCached(Url(e), CacheKey(e), forceRefresh, w);
      if fetched.Failure? {
        return Failure(FetchFailed(fetched.error));
      }
      var data := fetched.value;
      if !data.JObj? {
        return Success(Standings(JObj(map[]), [], PageInfo(JInt(page), 0, JNull, JNull)));
      }
      var league := Get(data.fields, "league", JObj(map[]));
      var section := Get(data.fields, "standings", JObj(map[]));
      var results := IterDicts(Results(section));
      if results.None? {
        return Failure(Raised);
      }
      var rows := AppendEach(results.value, RowOf);
      r := Success(Standings(league, rows, PageInfoOf(section, page, |results.value|)));
    }
  }
}
