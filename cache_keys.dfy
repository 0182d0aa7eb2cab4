/**
 * The API endpoints the `fpl` scripts read, with the URL each one requests
 * and the cache key it is stored under. All of them share one cache
 * directory, so two different endpoints must never share a key: each key
 * spells out the ids and page or gameweek it depends on, and a rendered int
 * is always followed by text that cannot continue it.
 */
module CacheKeys {
  import opened Wrappers
  import opened PyJson
  import opened FplUtils

  const ApiBase := "https://fantasy.premierleague.com/api/"

  datatype Endpoint =
    | Bootstrap
    | LeagueStandings(leagueId: int, page: int)
    | LiveEvent(gameweek: int)
    | Fixtures(event: Option<int>)
    | EntryDetails(entryId: int)
    | EntryHistory(entryId: int)
    | EntryTransfers(entryId: int)
    | EntryPicks(entryId: int, gameweek: int)

  /** The `cache_key` argument each script passes to `fetch_url_cached`. */
  function CacheKey(e: Endpoint): string {
    match e
    case Bootstrap => "bootstrap_static"
    case LeagueStandings(l, p) => "league_" + IntToString(l) + "_standings_p" + IntToString(p)
    case LiveEvent(gw) => "live_event_" + IntToString(gw)
    case Fixtures(gw) => if gw.Some? then "fixtures_event_" + IntToString(gw.value) else "fixtures"
    case EntryDetails(id) => "entry_" + IntToString(id) + "_details"
    case EntryHistory(id) => "entry_" + IntToString(id) + "_history"
    case EntryTransfers(id) => "entry_" + IntToString(id) + "_transfers"
    case EntryPicks(id, gw) => "entry_" + IntToString(id) + "_picks_gw" + IntToString(gw)
  }

  /** The URL each script requests. */
  function Url(e: Endpoint): string {
    match e
    case Bootstrap => ApiBase + "bootstrap-static/"
    case LeagueStandings(l, p) =>
      ApiBase + "leagues-classic/" + IntToString(l) + "/standings/?page_standings=" + IntToString(p)
    case LiveEvent(gw) => ApiBase + "event/" + IntToString(gw) + "/live/"
    case Fixtures(gw) => if gw.Some? then ApiBase + "fixtures/?event=" + IntToString(gw.value) else ApiBase + "fixtures/"
    case EntryDetails(id) => ApiBase + "entry/" + IntToString(id) + "/"
    case EntryHistory(id) => ApiBase + "entry/" + IntToString(id) + "/history/"
    case EntryTransfers(id) => ApiBase + "entry/" + IntToString(id) + "/transfers/"
    case EntryPicks(id, gw) => ApiBase + "entry/" + IntToString(id) + "/event/" + IntToString(gw) + "/picks/"
  }

  lemma PrefixCancel(p: string, a: string, b: string)
    requires p + a == p + b
    ensures a == b
  {
    assert a == (p + a)[|p|..];
  }

  /** The part of an entry key after the entry id. */
  function EntryKeyTail(e: Endpoint): string
    requires e.EntryDetails? || e.EntryHistory? || e.EntryTransfers? || e.EntryPicks?
  {
    match e
    case EntryDetails(_) => "_details"
    case EntryHistory(_) => "_history"
    case EntryTransfers(_) => "_transfers"
    case EntryPicks(_, gw) => "_picks_gw" + IntToString(gw)
  }

  /** The first two characters of a key tell the script it belongs to. */
  function KeyHead(e: Endpoint): string {
    match e
    case Bootstrap => "bo"
    case LeagueStandings(_, _) => "le"
    case LiveEvent(_) => "li"
    case Fixtures(_) => "fi"
    case _ => "en"
  }

  lemma KeyStartsWithHead(e: Endpoint)
    ensures |CacheKey(e)| >= 2 && CacheKey(e)[..2] == KeyHead(e)
  {
  }

  /** Two entry endpoints with the same key tail are the same resource of the same gameweek. */
  lemma EntryKeyTailInjective(e1: Endpoint, e2: Endpoint)
    requires e1.EntryDetails? || e1.EntryHistory? || e1.EntryTransfers? || e1.EntryPicks?
    requires e2.EntryDetails? || e2.EntryHistory? || e2.EntryTransfers? || e2.EntryPicks?
    requires e1.entryId == e2.entryId
    requires EntryKeyTail(e1) == EntryKeyTail(e2)
    ensures e1 == e2
  {
    var t := EntryKeyTail(e1);
    assert t[1] == EntryKeyTail(e2)[1];
    if e1.EntryPicks? {
      assert e2.EntryPicks?;
      PrefixCancel("_picks_gw", IntToString(e1.gameweek), IntToString(e2.gameweek));
      IntToStringInjective(e1.gameweek, e2.gameweek);
    }
  }

  lemma StandingsKeyInjective(e1: Endpoint, e2: Endpoint)
    requires e1.LeagueStandings? && e2.LeagueStandings? && CacheKey(e1) == CacheKey(e2)
    ensures e1 == e2
  {
    var x1, x2 := "_standings_p" + IntToString(e1.page), "_standings_p" + IntToString(e2.page);
    assert CacheKey(e1) == "league_" + (IntToString(e1.leagueId) + x1);
    assert CacheKey(e2) == "league_" + (IntToString(e2.leagueId) + x2);
    PrefixCancel("league_", IntToString(e1.leagueId) + x1, IntToString(e2.leagueId) + x2);
    IntToStringSplit(e1.leagueId, e2.leagueId, x1, x2);
    PrefixCancel("_standings_p", IntToString(e1.page), IntToString(e2.page));
    IntToStringInjective(e1.page, e2.page);
  }

  lemma FixturesKeyInjective(e1: Endpoint, e2: Endpoint)
    requires e1.Fixtures? && e2.Fixtures? && CacheKey(e1) == CacheKey(e2)
    ensures e1 == e2
  {
    if e1.event.Some? && e2.event.Some? {
      PrefixCancel("fixtures_event_", IntToString(e1.event.value), IntToString(e2.event.value));
      IntToStringInjective(e1.event.value, e2.event.value);
    }
  }

  lemma EntryKeyShape(e: Endpoint)
    requires e.EntryDetails? || e.EntryHistory? || e.EntryTransfers? || e.EntryPicks?
    ensures CacheKey(e) == "entry_" + (IntToString(e.entryId) + EntryKeyTail(e))
    ensures EntryKeyTail(e)[0] == '_'
  {
  }

  lemma EntryKeyInjective(e1: Endpoint, e2: Endpoint)
    requires e1.EntryDetails? || e1.EntryHistory? || e1.EntryTransfers? || e1.EntryPicks?
    requires e2.EntryDetails? || e2.EntryHistory? || e2.EntryTransfers? || e2.EntryPicks?
    requires CacheKey(e1) == CacheKey(e2)
    ensures e1 == e2
  {
    var t1, t2 := EntryKeyTail(e1), EntryKeyTail(e2);
    EntryKeyShape(e1);
    EntryKeyShape(e2);
    PrefixCancel("entry_", IntToString(e1.entryId) + t1, IntToString(e2.entryId) + t2);
    IntToStringSplit(e1.entryId, e2.entryId, t1, t2);
    EntryKeyTailInjective(e1, e2);
  }

  /**
   * Distinct endpoints have distinct cache keys: no script ever reads another
   * endpoint's (or another id's, page's or gameweek's) cache file.
   */
  lemma CacheKeyInjective(e1: Endpoint, e2: Endpoint)
    requires CacheKey(e1) == CacheKey(e2)
    ensures e1 == e2
  {
    KeyStartsWithHead(e1);
    KeyStartsWithHead(e2);
    assert KeyHead(e1) == KeyHead(e2);
    if e1.LeagueStandings? {
      StandingsKeyInjective(e1, e2);
    } else if e1.LiveEvent? {
      PrefixCancel("live_event_", IntToString(e1.gameweek), IntToString(e2.gameweek));
      IntToStringInjective(e1.gameweek, e2.gameweek);
    } else if e1.Fixtures? {
      FixturesKeyInjective(e1, e2);
    } else if !e1.Bootstrap? {
      EntryKeyInjective(e1, e2);
    }
  }

  /** The part of an entry URL after the entry id. */
  function EntryUrlTail(e: Endpoint): string
    requires e.EntryDetails? || e.EntryHistory? || e.EntryTransfers? || e.EntryPicks?
  {
    match e
    case EntryDetails(_) => "/"
    case EntryHistory(_) => "/history/"
    case EntryTransfers(_) => "/transfers/"
    case EntryPicks(_, gw) => "/event/" + IntToString(gw) + "/picks/"
  }

  lemma EntryUrlShape(e: Endpoint)
    requires e.EntryDetails? || e.EntryHistory? || e.EntryTransfers? || e.EntryPicks?
    ensures Url(e) == ApiBase + "entry/" + (IntToString(e.entryId) + EntryUrlTail(e))
    ensures EntryUrlTail(e)[0] == '/'
  {
  }

  lemma EntryUrlTailInjective(e1: Endpoint, e2: Endpoint)
    requires e1.EntryDetails? || e1.EntryHistory? || e1.EntryTransfers? || e1.EntryPicks?
    requires e2.EntryDetails? || e2.EntryHistory? || e2.EntryTransfers? || e2.EntryPicks?
    requires e1.entryId == e2.entryId
    requires EntryUrlTail(e1) == EntryUrlTail(e2)
    ensures e1 == e2
  {
    var t := EntryUrlTail(e1);
    if |t| > 1 {
      assert t[1] == EntryUrlTail(e2)[1];
    }
    if e1.EntryPicks? {
      assert e2.EntryPicks?;
      assert t == "/event/" + (IntToString(e1.gameweek) + "/picks/");
      assert EntryUrlTail(e2) == "/event/" + (IntToString(e2.gameweek) + "/picks/");
      PrefixCancel("/event/", IntToString(e1.gameweek) + "/picks/", IntToString(e2.gameweek) + "/picks/");
      IntToStringSplit(e1.gameweek, e2.gameweek, "/picks/", "/picks/");
    }
  }

  /** The two characters after the API base tell the endpoint family. */
  function UrlHead(e: Endpoint): string {
    match e
    case Bootstrap => "bo"
    case LeagueStandings(_, _) => "le"
    case LiveEvent(_) => "ev"
    case Fixtures(_) => "fi"
    case _ => "en"
  }

  lemma UrlStartsWithHead(e: Endpoint)
    ensures |Url(e)| >= |ApiBase| + 2 && Url(e)[|ApiBase|..|ApiBase| + 2] == UrlHead(e)
  {
  }

  /** Two ints each followed by the same non-digit separator, under a common prefix. */
  lemma IdsAfterPrefix(p: string, a: int, b: int, x: string, y: string)
    requires p + (IntToString(a) + x) == p + (IntToString(b) + y)
    requires x != [] && !IsDigit(x[0]) && y != [] && !IsDigit(y[0])
    ensures a == b && x == y
  {
    PrefixCancel(p, IntToString(a) + x, IntToString(b) + y);
    IntToStringSplit(a, b, x, y);
  }

  lemma StandingsUrlShape(e: Endpoint)
    requires e.LeagueStandings?
    ensures Url(e) == ApiBase + "leagues-classic/" +
      (IntToString(e.leagueId) + ("/standings/?page_standings=" + IntToString(e.page)))
  {
  }

  lemma StandingsUrlInjective(e1: Endpoint, e2: Endpoint)
    requires e1.LeagueStandings? && e2.LeagueStandings? && Url(e1) == Url(e2)
    ensures e1 == e2
  {
    StandingsUrlShape(e1);
    StandingsUrlShape(e2);
    IdsAfterPrefix(ApiBase + "leagues-classic/", e1.leagueId, e2.leagueId,
      "/standings/?page_standings=" + IntToString(e1.page), "/standings/?page_standings=" + IntToString(e2.page));
    PrefixCancel("/standings/?page_standings=", IntToString(e1.page), IntToString(e2.page));
    IntToStringInjective(e1.page, e2.page);
  }

  lemma LiveUrlInjective(e1: Endpoint, e2: Endpoint)
    requires e1.LiveEvent? && e2.LiveEvent? && Url(e1) == Url(e2)
    ensures e1 == e2
  {
    var p := ApiBase + "event/";
    assert Url(e1) == p + (IntToString(e1.gameweek) + "/live/");
    assert Url(e2) == p + (IntToString(e2.gameweek) + "/live/");
    IdsAfterPrefix(p, e1.gameweek, e2.gameweek, "/live/", "/live/");
  }

  lemma FixturesUrlInjective(e1: Endpoint, e2: Endpoint)
    requires e1.Fixtures? && e2.Fixtures? && Url(e1) == Url(e2)
    ensures e1 == e2
  {
    if e1.event.Some? && e2.event.Some? {
      PrefixCancel(ApiBase + "fixtures/?event=", IntToString(e1.event.value), IntToString(e2.event.value));
      IntToStringInjective(e1.event.value, e2.event.value);
    }
  }

  lemma EntryUrlInjective(e1: Endpoint, e2: Endpoint)
    requires e1.EntryDetails? || e1.EntryHistory? || e1.EntryTransfers? || e1.EntryPicks?
    requires e2.EntryDetails? || e2.EntryHistory? || e2.EntryTransfers? || e2.EntryPicks?
    requires Url(e1) == Url(e2)
    ensures e1 == e2
  {
    EntryUrlShape(e1);
    EntryUrlShape(e2);
    IdsAfterPrefix(ApiBase + "entry/", e1.entryId, e2.entryId, EntryUrlTail(e1), EntryUrlTail(e2));
    EntryUrlTailInjective(e1, e2);
  }

  /** Distinct endpoints request distinct URLs: the URL embeds every id, page and gameweek of the key. */
  lemma UrlInjective(e1: Endpoint, e2: Endpoint)
    requires Url(e1) == Url(e2)
    ensures e1 == e2
  {
    UrlStartsWithHead(e1);
    UrlStartsWithHead(e2);
    assert UrlHead(e1) == UrlHead(e2);
    if e1.LeagueStandings? {
      StandingsUrlInjective(e1, e2);
    } else if e1.LiveEvent? {
      LiveUrlInjective(e1, e2);
    } else if e1.Fixtures? {
      FixturesUrlInjective(e1, e2);
    } else if !e1.Bootstrap? {
      EntryUrlInjective(e1, e2);
    }
  }

  /** Distinct endpoints never share a cache file, whatever the cache directory. */
  lemma CacheFilesDistinct(dir: string, e1: Endpoint, e2: Endpoint)
    requires e1 != e2
    ensures CachePath(dir, CacheKey(e1)) != CachePath(dir, CacheKey(e2))
  {
    if CachePath(dir, CacheKey(e1)) == CachePath(dir, CacheKey(e2)) {
      CachePathInjective(dir, CacheKey(e1), CacheKey(e2));
      CacheKeyInjective(e1, e2);
    }
  }
}
