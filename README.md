# FPL command-line tools: a verified model

The repository holds small command-line scripts that read Fantasy Premier
League data. The `fpl` scripts read the official JSON API: the bootstrap
document (players, teams, positions, gameweeks), league standings, live
gameweek points, fixtures, and one entry's details, history, transfers and
picks. The `livefpl` scripts scrape the LiveFPL price-change page. Every
script goes through a cache on disk. The JSON cache expires after a number of
calendar days and the HTML cache after a number of hours. Each script then
shapes the payload into a smaller JSON document, filtering it along the way,
and prints it inside a `{status, message, data}` envelope.

This Dafny project models that core:

- `wrappers.dfy`: `Option` and `Result`.
- `py_json.dfy`: decoded JSON values as Python sees them. It covers `dict.get`, iterating a value and calling `.get` on each item, `/ 10.0`, hash-equality of dict keys (`1 == 1.0 == True`), `str()` of scalars, `str.strip`, `str.lower`, and f-string rendering of ints with its read-back lemmas.
- `http.dfy`: one GET, as a transport failure urllib wraps in `URLError`, an exception it does not wrap, or a response with a status code, reason phrase and body. It also holds the four tagged fetch errors and the error an accessor re-raises.
- `envelope.dfy`: `format_json_output`.
- `filtering.dfy`: the order-preserving filter (`continue` loops and comprehensions with a condition). It also holds the append-one-per-item loop, plus the same loop when an item can raise.
- `fpl_utils.dfy`: `FPLUtils.fetch_url_cached` as a class over a disk map. The clock, the remote and the write outcome are a `World` parameter.
- `cache_keys.dfy`: every endpoint of the `fpl` scripts, with its URL and cache key, and the proof that no two endpoints share either.
- `fpl_data.dfy`: `normalize_str`, the memoised `_load_data`, the team and position maps, `get_players`, `get_teams`, `get_gameweeks` and the team-name resolution of `main`.
- `fpl_league_standings.dfy`, `fpl_live_gameweek.dfy`, `fpl_fixture_data.dfy`, `fpl_entry_data.dfy`: the endpoint classes. Each is shaped by a pure function and a method that fetches and runs the source's loops.
- `stats_tracker.dfy`: `StatsTracker`, the per-URL request counters.
- `livefpl_utils.dfy`: `LiveFPLUtils.fetch_prices_cached`.
- `price_parser.dfy`: `_parse_prices_html`. It has a primary `<div … data-id>` scan, a fallback scan over 300-character windows, tolerant `float()` coercion and first-wins deduplication by id.
- `livefpl_prices.dfy`: the `main` of `livefpl_prices.py`. It covers the id filter, the OR-filter over `pct_now`/`pct_tonight` and the truncation to `MAX_PLAYERS`.

A Python exception inside a shaping step is modelled as one failure value,
`Raised`. An exception from the fetch keeps its tagged `FetchError`.

## Model

| member | source | states |
|---|---|---|
| Envelope.FormatJsonOutput | fpl/scripts/fpl_utils.py:80-86 | "status" is always present. "message" is present iff a non-empty message was given. "data" is present iff data is not None, even when empty. No other key appears. `livefpl_utils.py:170-176` is the same function. |
| PyJson.Strip | fpl/scripts/fpl_data.py:72 | The stripped name is a slice `s[i..j]` of the input, where everything before `i` and from `j` on is Python whitespace. Neither end of the result is whitespace. A string with no surrounding whitespace comes back unchanged. |
| PyJson.IntToStringRoundTrip | fpl/scripts/fpl_entry_data.py:21 | The f-string rendering of an int is an optional minus followed by digits, and it parses back to the same int. |
| PyJson.IntToStringSplit | fpl/scripts/fpl_league_standings.py:14 | When a rendered int is followed by text that does not start with a digit, the int and the text are both determined by the whole string. |
| PyJson.IntToStringInjective | fpl/scripts/fpl_live_gameweek.py:21 | Two different ints never render to the same text. |
| Filtering.KeepSpec | fpl/scripts/fpl_live_gameweek.py:33-43 | A `continue` filter keeps exactly the items that pass, each once, in their original order. Output k is input idx[k], with idx strictly increasing, and an index is in idx iff its item passes. |
| Filtering.KeepSound | fpl/scripts/fpl_data.py:65-109 | An item is in the filtered list iff it is in the input and passes the test. |
| Filtering.KeepAll | fpl/scripts/fpl_live_gameweek.py:37 | When every item passes, the filter returns its input unchanged. |
| Filtering.KeepNone | livefpl/scripts/livefpl_prices.py:36-71 | When no item passes, the filter returns the empty list. |
| Filtering.Each | fpl/scripts/fpl_fixture_data.py:23-37 | A comprehension or append loop yields one output per input, in order; output k is the shaping of input k. |
| Filtering.Traverse | fpl/scripts/fpl_entry_data.py:95-104 | A loop whose body can raise fails iff the body fails on some item. Otherwise it yields one output per input, in order. |
| Filtering.AppendEach | fpl/scripts/fpl_league_standings.py:35-46 | The `for … append` loop builds exactly `Each` of its input. |
| Filtering.AppendEachOrRaise | fpl/scripts/fpl_entry_data.py:95-105 | The `for … append` loop that stops at the first raising item produces exactly `Traverse` of its input. |
| FplUtils.CachePathInjective | fpl/scripts/fpl_utils.py:32 | The file `cache_dir/fpl_cache_{key}.json` determines the key: distinct keys give distinct paths. |
| FplUtils.FplUtils.constructor | fpl/scripts/fpl_utils.py:12-13 | The cache directory and the expiry in days are stored as given, over the disk as it is. |
| FplUtils.FplUtils.FetchUrlCached | fpl/scripts/fpl_utils.py:32-66 | The result and the new disk are exactly `FetchOutcome` and `DiskAfter` of the old disk: serve the fresh cache, otherwise fetch, write and return, or raise a tagged error. A status outside 200-299 reports the bare reason phrase, as urllib's own `HTTPError` carries it; another non-200 2xx status reports "HTTP Error {code}: {phrase}". |
| FplUtils.ForceRefreshBypassesCache | fpl/scripts/fpl_utils.py:35 | Under `force_refresh` the result is the remote outcome, whatever the cache holds. |
| FplUtils.CorruptCacheIsAMiss | fpl/scripts/fpl_utils.py:39-45 | An unreadable or corrupt cache file is never raised. The call falls through to the fetch, which rewrites the file on success. |
| FplUtils.DefaultExpiryMeansSameDay | fpl/scripts/fpl_utils.py:35-38 | With the default expiry of 1 day, only a file modified on today's date is fresh. |
| FplUtils.DayGranularityBoundary | fpl/scripts/fpl_utils.py:36-38 | Freshness is by calendar date. A file written one second before midnight is stale one second later, and a file written at midnight is fresh all day. |
| FplUtils.ErrorClassification | fpl/scripts/fpl_utils.py:48-66 | A transport failure or a non-200 response gives "Network Error", whose reason is the status phrase for a status outside 200-299; the `HTTPError` clause is never reached, so "API Error" never occurs. Undecodable JSON gives "Data Parsing Error". An exception urllib does not wrap, a body that is not UTF-8, or a failed cache write gives "An unexpected error occurred". Success happens iff the response is 200 with a JSON document that was written. Every error names the key and the URL. |
| FplUtils.NetworkErrorMessage | fpl/scripts/fpl_utils.py:59-60 | A network failure's message starts "Network Error fetching {key} from {url}". |
| FplUtils.FetchedDocumentIsServedSameDay | fpl/scripts/fpl_utils.py:35-58 | A document fetched and written today is served unchanged from the cache by any later call on the same day, and that call leaves the disk as it is. |
| CacheKeys.StandingsKeyInjective | fpl/scripts/fpl_league_standings.py:14 | `league_{id}_standings_p{page}` determines both the league id and the page. |
| CacheKeys.StandingsUrlInjective | fpl/scripts/fpl_league_standings.py:7-13 | The standings URL determines both the league id and the page. |
| CacheKeys.LiveUrlInjective | fpl/scripts/fpl_live_gameweek.py:20 | The live URL determines the gameweek. |
| CacheKeys.FixturesKeyInjective | fpl/scripts/fpl_fixture_data.py:12 | `fixtures_event_{gw}` and `fixtures` determine the gameweek filter, or its absence. |
| CacheKeys.FixturesUrlInjective | fpl/scripts/fpl_fixture_data.py:13-15 | The fixtures URL determines the gameweek filter, or its absence. |
| CacheKeys.EntryKeyInjective | fpl/scripts/fpl_entry_data.py:21-113 | The four entry keys `entry_{id}_details/_history/_transfers/_picks_gw{gw}` determine the resource, the entry id and the picks gameweek. |
| CacheKeys.EntryUrlInjective | fpl/scripts/fpl_entry_data.py:19-111 | The four entry URLs determine the resource, the entry id and the picks gameweek. |
| CacheKeys.CacheKeyInjective | fpl/scripts/fpl_utils.py:23 | The cache key is a unique identifier: equal keys mean the same endpoint with the same ids, page and gameweek, across all the `fpl` scripts. |
| CacheKeys.UrlInjective | fpl/scripts/fpl_data.py:17 | No two different endpoints of the `fpl` scripts request the same URL. |
| CacheKeys.CacheFilesDistinct | fpl/scripts/fpl_utils.py:32 | Two different endpoints never share a cache file in the shared cache directory. |
| FplData.NormalizeStr | fpl/scripts/fpl_data.py:7-13 | None normalises to `''`. A string normalises to its lower-case form, of the same length. |
| FplData.KeyedMapDefined | fpl/scripts/fpl_data.py:40 | The `{team.get('id'): team.get('name')}` comprehension raises iff some id is unhashable. |
| FplData.KeyedMapKeys | fpl/scripts/fpl_data.py:40 | The map's keys are exactly the ids of the items, up to Python key equality. |
| FplData.KeyedMapLastWins | fpl/scripts/fpl_data.py:44 | For a repeated id, the last item's value wins. |
| FplData.AliasesStopAtRaise | fpl/scripts/fpl_data.py:45-49 | Once the alias loop raises, later element types change nothing. |
| FplData.AliasesFindEveryType | fpl/scripts/fpl_data.py:45-49 | When the alias loop completes, the lower-cased `singular_name` and `plural_name_short` of every element type that has them are keys of the position map, and earlier keys are kept. |
| FplData.AliasesOfValue | fpl/scripts/fpl_data.py:46-49 | One turn of the loop that does not raise sets each key it writes to the type's `id`. Every other key keeps its presence and its value. |
| FplData.AliasValue | fpl/scripts/fpl_data.py:45-49 | When the loop completes, an element type's lower-cased `singular_name` or `plural_name_short` maps to that type's `id`, unless a later element type writes the same key. |
| FplData.AliasesKeepNonStringKeys | fpl/scripts/fpl_data.py:44-49 | An id → `singular_name_short` entry under a key that is not a string survives the alias loop unchanged, whether or not the loop raises. |
| FplData.LoadIsMemoised | fpl/scripts/fpl_data.py:25-36 | After a successful load of a non-empty document, a later call without `force_refresh` does not fetch again. After a failure, `_data` is `{"error": msg}` and the error is re-raised. |
| FplData.PlayerInfoDefaults | fpl/scripts/fpl_data.py:67-91 | An unknown team gives 'Unknown Team' and an unknown element type gives 'Unknown'. A missing `now_cost` gives cost None, and otherwise the cost is `now_cost / 10`. Building the record raises iff `now_cost` is neither None nor a number, or a map key is unhashable. |
| FplData.SelectPlayersSpec | fpl/scripts/fpl_data.py:65-109 | `get_players` returns, in original order and once each, exactly the records that pass every supplied filter. |
| FplData.PriceBoundExcludesMissingCost | fpl/scripts/fpl_data.py:103-106 | When any price bound is given, a player with no `now_cost` is excluded. |
| FplData.UnknownPositionExcludesAll | fpl/scripts/fpl_data.py:99-102 | A position filter whose lower-cased value is not in the position map excludes every player. |
| FplData.GetTeams | fpl/scripts/fpl_data.py:51-59 | There is one summary per team, in order, with exactly the keys id, name, short_name and strength. |
| FplData.TopElementPoints | fpl/scripts/fpl_data.py:124 | A falsy `top_element_info` gives None points. A truthy one that is not a dict raises. |
| FplData.GetGameweeks | fpl/scripts/fpl_data.py:111-125 | There is one summary per event, in order. The comprehension raises iff some event's `top_element_info` is truthy and not a dict. |
| FplData.ConflictWarning | fpl/scripts/fpl_data.py:171 | The conflict message is a warning: it starts with "Warning: ". |
| FplData.SingleTeamMatch | fpl/scripts/fpl_data.py:169-175 | A single matching team sets the filter to its id. If that id is None, no team filter applies, as with `team_id=None` at line 95. A `--team-id` naming another team wins instead, with a warning. |
| FplData.TeamMatchFailures | fpl/scripts/fpl_data.py:176-185 | Several matches are an error. No match is an error unless a non-zero `--team-id` was given. |
| FplData.FplData.constructor | fpl/scripts/fpl_data.py:19-23 | The object starts unloaded, with empty team and position maps. |
| FplData.FplData.LoadData | fpl/scripts/fpl_data.py:25-36 | Without `force_refresh` and with data loaded, the call returns the memoised data and changes nothing. Otherwise it fetches the bootstrap document under its own key, builds both maps, and stores the document or the error document. The result and the new state are `LoadResult` and `AfterFetch`. |
| FplData.FplData.BuildTeamMap | fpl/scripts/fpl_data.py:38-40 | The team map is rebuilt iff the data holds 'teams'. The new map, or the raise, is `TeamMapStep`. |
| FplData.FplData.BuildPositionMap | fpl/scripts/fpl_data.py:42-49 | The id-to-short-name map is followed by the alias loop. The new map, or the raise, is `PositionMapStep`. |
| FplData.FplData.GetPlayers | fpl/scripts/fpl_data.py:61-109 | The filtering loop returns exactly `SelectPlayers`, which is characterised by `SelectPlayersSpec`. |
| FplLeagueStandings.PageInfoOf | fpl/scripts/fpl_league_standings.py:48-53 | `results` counts the rows. A non-dict section gives the requested page and None flags. A dict section without 'page' gives page None. |
| FplLeagueStandings.Shape | fpl/scripts/fpl_league_standings.py:27-55 | A non-dict payload gives an empty league and standings, page info {requested page, 0, None, None}. Otherwise there is one row per `results` item, in order, `league` is passed through, and `page_info.results == len(rows)`. It raises iff the results cannot be iterated as dicts. |
| FplLeagueStandings.PageReported | fpl/scripts/fpl_league_standings.py:49 | `page_info.page` is the section's own page when the section is a dict, and the requested page otherwise. |
| FplLeagueStandings.FplLeagueStandings.constructor | fpl/scripts/fpl_league_standings.py:9-10 | The shared utility is stored. |
| FplLeagueStandings.FplLeagueStandings.GetStandings | fpl/scripts/fpl_league_standings.py:12-55 | The page is fetched under `league_{id}_standings_p{page}` and the standings URL. The result is `Shape` of what the fetch returned, or the fetch's error. |
| FplLiveGameweek.ElementOf | fpl/scripts/fpl_live_gameweek.py:39-43 | A missing `stats` defaults to `{}` and a missing `explain` to `[]`. |
| FplLiveGameweek.EventOf | fpl/scripts/fpl_live_gameweek.py:47-50 | A missing `stats` defaults to `{}`. |
| FplLiveGameweek.Shape | fpl/scripts/fpl_live_gameweek.py:24-56 | The returned gameweek is always the requested one. A non-dict payload gives empty elements and events. Events are never filtered: one per input, in order. It raises iff a list cannot be iterated as dicts. |
| FplLiveGameweek.ElementsSelected | fpl/scripts/fpl_live_gameweek.py:33-43 | An element is kept, in original order and once, iff its id is in `player_ids`. With no id list every element is kept. |
| FplLiveGameweek.FplLiveGameweek.constructor | fpl/scripts/fpl_live_gameweek.py:7-8 | The shared utility is stored. |
| FplLiveGameweek.FplLiveGameweek.GetLiveGameweek | fpl/scripts/fpl_live_gameweek.py:10-56 | The gameweek is fetched under `live_event_{gw}`, and the result is `Shape` of the payload, or the fetch's error. |
| FplLiveGameweek.FormatElements | fpl/scripts/fpl_live_gameweek.py:33-43 | The `continue` loop formats exactly the wanted elements, in order. |
| FplFixtureData.Score | fpl/scripts/fpl_fixture_data.py:36 | The score is a string iff both team scores are non-None. It then starts with the home score and a dash. |
| FplFixtureData.ScoreReadsBack | fpl/scripts/fpl_fixture_data.py:36 | The score text of two int scores determines both scores. |
| FplFixtureData.ScoreTextReadsBack | fpl/scripts/fpl_fixture_data.py:36 | `"{h}-{a}"` of two ints determines h and a. |
| FplFixtureData.FixtureOf | fpl/scripts/fpl_fixture_data.py:24-36 | The record carries both team scores as read, and the score derived from exactly those two values. |
| FplFixtureData.Shape | fpl/scripts/fpl_fixture_data.py:19-37 | A non-list payload gives no fixtures. A list gives one record per fixture, in order, and raises iff some item is not a dict. |
| FplFixtureData.FixturesKeyAndUrl | fpl/scripts/fpl_fixture_data.py:12-15 | The key is `fixtures_event_{gw}` when a gameweek is given and `fixtures` otherwise. The URL gains `?event={gw}` only when a gameweek is given. |
| FplFixtureData.Request | fpl/scripts/fpl_fixture_data.py:56-62 | `--fixtures` takes precedence over `--gameweek`. With neither, nothing is requested. |
| FplFixtureData.FixturesOutput | fpl/scripts/fpl_fixture_data.py:63-67 | The envelope of a request that was made: the fixtures under "fixtures", or status error with "Failed to fetch fixtures: {e}" and `{}` data. |
| FplFixtureData.FplFixtureData.constructor | fpl/scripts/fpl_fixture_data.py:8-9 | The shared utility is stored. |
| FplFixtureData.FplFixtureData.GetFixtures | fpl/scripts/fpl_fixture_data.py:11-37 | The fixtures are fetched under the gameweek's own key and URL, and the result is `Shape` of the payload, or the fetch's error. |
| FplFixtureData.FixturesMain | fpl/scripts/fpl_fixture_data.py:51-67 | With neither flag, the status is info, with `{}` data and the hint message, and nothing is fetched. Otherwise the envelope is that of the fetch that `Request` chooses, and the cache disk is `DiskAfter` of that fetch. |
| FplEntryData.DetailsOf | fpl/scripts/fpl_entry_data.py:23-41 | Missing leagues give empty `classic` and `h2h` lists. Each league list has one row per input item, in order. It raises iff the payload or its leagues is not a dict, or a league list cannot be iterated as dicts. |
| FplEntryData.HistoryRowOf | fpl/scripts/fpl_entry_data.py:52-63 | The row raises iff `value` or `bank` is not a number, such as None hitting `/ 10.0`. Otherwise team value and bank are the raw values divided by 10. |
| FplEntryData.HistoryOf | fpl/scripts/fpl_entry_data.py:50-85 | The current, past and chips lists each have one output per input item, in order. It raises iff the payload is not a dict, a list cannot be iterated, or some current row raises. |
| FplEntryData.TransferOf | fpl/scripts/fpl_entry_data.py:97-104 | The transfer raises iff a cost is not a number. Otherwise both costs are the raw values divided by 10. |
| FplEntryData.TransfersOf | fpl/scripts/fpl_entry_data.py:95-105 | The payload itself is the list. It raises iff the payload is not iterable as dicts or some item's cost is not a number. Otherwise transfer k is `TransferOf` item k, for every k. |
| FplEntryData.PicksOf | fpl/scripts/fpl_entry_data.py:116-145 | It raises iff the payload is not a dict, a list is not iterable as dicts, or `entry_history` is not a dict. Otherwise pick k is `PickOf` item k and auto-sub k is `AutoSubOf` item k, for every k. The gameweek is the argument, the chip is `active_chip`, and the three summary fields are read from `entry_history` (default `{}`). |
| FplEntryData.FailureMessage | fpl/scripts/fpl_entry_data.py:42-43 | Every failure is re-raised as a message starting with the accessor's text and the entry id. When the fetch failed, the message ends with the fetch error's own message. |
| FplEntryData.MessageNamesEntry | fpl/scripts/fpl_entry_data.py:147-148 | The message of a failure names the entry, and for picks the gameweek. Equal messages from the same accessor mean the same entry id, and for picks the same gameweek. |
| FplEntryData.FplEntryData.constructor | fpl/scripts/fpl_entry_data.py:9-16 | The entry id and utility are stored. No raw payload is held and the per-gameweek picks store is empty. |
| FplEntryData.FplEntryData.GetEntryDetails | fpl/scripts/fpl_entry_data.py:18-43 | The details are fetched under `entry_{id}_details`. The raw field is set only when the fetch returns. The result is `DetailsOf` of the payload, or the re-raised error. |
| FplEntryData.FplEntryData.GetHistory | fpl/scripts/fpl_entry_data.py:45-88 | The history is fetched under `entry_{id}_history`. The raw field is set only when the fetch returns. The result is `HistoryOf` of the payload, or the re-raised error. |
| FplEntryData.FplEntryData.GetTransfers | fpl/scripts/fpl_entry_data.py:90-108 | The transfers are fetched under `entry_{id}_transfers`. The raw field is set only when the fetch returns. The result is `TransfersOf` of the payload, or the re-raised error. |
| FplEntryData.FplEntryData.GetPicks | fpl/scripts/fpl_entry_data.py:110-148 | The picks are fetched under `entry_{id}_picks_gw{gw}`. The payload is stored under its own gameweek, and the other gameweeks' entries are untouched. The result is `PicksOf` of the payload, or the re-raised error naming the gameweek. |
| FplEntryData.ShapeHistory | fpl/scripts/fpl_entry_data.py:50-85 | The three append loops produce exactly `HistoryOf`. |
| FplEntryData.ShapePicks | fpl/scripts/fpl_entry_data.py:114-145 | The two append loops and the summary read produce exactly `PicksOf`. |
| StatsTracker.Loaded | livefpl/scripts/livefpl_utils.py:15-21 | A missing or unparsable stats file loads as an empty map and never raises. |
| StatsTracker.BumpedCounts | livefpl/scripts/livefpl_utils.py:30-40 | An increment raises that URL's chosen counter by exactly 1; an unseen URL starts from zero. Every other URL and counter is unchanged. |
| StatsTracker.ReplayCounts | livefpl/scripts/livefpl_utils.py:30-40 | From an empty file, each URL's counters equal the number of increment calls made for it. |
| StatsTracker.StatsTracker.constructor | livefpl/scripts/livefpl_utils.py:10-13 | The tracker holds what its file loads to. |
| StatsTracker.StatsTracker.Save | livefpl/scripts/livefpl_utils.py:23-28 | A failed save is swallowed and leaves the file as it was. A successful save stores the current counters. |
| StatsTracker.StatsTracker.IncrementRequest | livefpl/scripts/livefpl_utils.py:30-34 | `requests` of the URL is bumped, and the file is rewritten when it can be. |
| StatsTracker.StatsTracker.IncrementApiFetch | livefpl/scripts/livefpl_utils.py:36-40 | `api_fetches` of the URL is bumped, and the file is rewritten when it can be. |
| StatsTracker.StatsTracker.Increment | livefpl/scripts/livefpl_utils.py:30-40 | The shared body of both increments. |
| LiveFplUtils.HtmlCachePathInjective | livefpl/scripts/livefpl_utils.py:123 | The file `cache_dir/fpl_cache_{key}.html` determines the key. |
| LiveFplUtils.LiveFplUtils.constructor | livefpl/scripts/livefpl_utils.py:51-56 | The directory and the expiry in hours are stored, and a fresh tracker is loaded from its file. |
| LiveFplUtils.LiveFplUtils.FetchPricesCached | livefpl/scripts/livefpl_utils.py:121-167 | The result, the new disk and the new counters are exactly `PricesOutcome`, `HtmlDiskAfter` and `StatsAfter`. A status outside 200-299 reports the bare reason phrase; another non-200 2xx status reports "HTTP Error {code}". An exception urllib does not wrap is an unexpected error. The cached page is parsed as text mode reads it back. |
| LiveFplUtils.CallCounts | livefpl/scripts/livefpl_utils.py:124-159 | Every call adds 1 to `requests`. Only a successful remote read adds 1 to `api_fetches`. Nothing else changes. |
| LiveFplUtils.PricesErrorClassification | livefpl/scripts/livefpl_utils.py:142-167 | The call fails iff the cache does not serve and the remote did not answer 200. An unreachable remote or a non-200 status gives "Network Error", with the bare reason phrase for a status outside 200-299. An exception urllib does not wrap gives "An unexpected error occurred". Every failure names the key and the URL. |
| LiveFplUtils.CacheWriteFailureIgnored | livefpl/scripts/livefpl_utils.py:149-154 | A failed cache write does not change the result or the counters, and leaves the disk as it was. |
| LiveFplUtils.ReadTextHasNoCr | livefpl/scripts/livefpl_utils.py:135-136 | The page read back in text mode holds no carriage return. |
| LiveFplUtils.ReadTextIdentity | livefpl/scripts/livefpl_utils.py:135-136 | A page reads back exactly as written iff it holds no carriage return. |
| LiveFplUtils.FetchedPageIsServedWithinExpiry | livefpl/scripts/livefpl_utils.py:129-154 | A page fetched and written is served from the cache, with no remote read, by any call within the expiry hours. The records are those of the page as read back. For a page without a carriage return they are the records the fetch returned. |
| PriceParser.AttrValueAt | livefpl/scripts/livefpl_utils.py:71 | An attribute value is non-empty and contains no quote, `>` or whitespace. |
| PriceParser.FindAttrLeftmost | livefpl/scripts/livefpl_utils.py:71 | `re.search` returns the leftmost attribute match, and finds none only when there is none. |
| PriceParser.CaseSensitiveAttr | livefpl/scripts/livefpl_utils.py:77 | The `data-now`/`data-tonight` searches are case-sensitive: text without the exact lower-case name yields nothing. |
| PriceParser.LastIdInIsLast | livefpl/scripts/livefpl_utils.py:66 | The greedy `[^>]*` makes the tag's id the last `data-id` inside the tag. |
| PriceParser.DivTagAt | livefpl/scripts/livefpl_utils.py:66 | A tag match starts where it was sought, at `<div`, and ends at the first `>`. |
| PriceParser.DivMatches | livefpl/scripts/livefpl_utils.py:66 | `finditer` yields tag matches in order and without overlap. |
| PriceParser.FallbackMatches | livefpl/scripts/livefpl_utils.py:88 | The fallback matches start at case-sensitive `data-id` occurrences, strictly in order. |
| PriceParser.ParseFloatOfInt | livefpl/scripts/livefpl_utils.py:74 | `float()` of an integer's text is that integer. |
| PriceParser.ParseUnsignedAlphabet | livefpl/scripts/livefpl_utils.py:73-76 | An unsigned value that coerces is non-empty and holds only digits and the point. |
| PriceParser.ParseFloatAlphabet | livefpl/scripts/livefpl_utils.py:73-76 | A value that coerces is an optional leading sign followed by digits and the point. Any other character makes it coerce to None. |
| PriceParser.ParseFloatSign | livefpl/scripts/livefpl_utils.py:73-76 | A leading '-' negates the value, a leading '+' leaves it unchanged, and two signs never coerce. |
| PriceParser.DedupFirstWins | livefpl/scripts/livefpl_utils.py:109-118 | Deduplication keeps the same set of ids. Each id keeps its first-seen record, in first-seen order. |
| PriceParser.DedupUniqueIds | livefpl/scripts/livefpl_utils.py:109-118 | The output never has two records with the same id. |
| PriceParser.ScanPrimary | livefpl/scripts/livefpl_utils.py:66-83 | The primary loop builds exactly `PrimaryRecords`. |
| PriceParser.ScanFallback | livefpl/scripts/livefpl_utils.py:86-107 | The fallback loop builds exactly `FallbackRecords`, one record per `data-id`, read from its 300-character window. |
| PriceParser.DedupById | livefpl/scripts/livefpl_utils.py:110-118 | The dictionary loop builds exactly `Dedup`. |
| PriceParser.ParsePricesHtml | livefpl/scripts/livefpl_utils.py:58-119 | The players are the deduplicated primary records, or the fallback records when the primary scan found none. |
| LiveFplPrices.FilterByThresholds | livefpl/scripts/livefpl_prices.py:36-71 | The `keep` loop returns exactly the players that meet some applied condition, in order. |
| LiveFplPrices.KeepsCases | livefpl/scripts/livefpl_prices.py:42-67 | A player is kept iff some applied `metric >= gt` or `metric <= lt` holds. The metric is `pct_now` under `--filter-now`, `pct_tonight` under `--filter-tonight`, and both under neither flag. |
| LiveFplPrices.MissingMetricsNeverKept | livefpl/scripts/livefpl_prices.py:44-66 | A None metric never meets a threshold. |
| LiveFplPrices.FlagWithoutThresholdKeepsNothing | livefpl/scripts/livefpl_prices.py:40-55 | A metric flag with no threshold keeps no players. |
| LiveFplPrices.SelectedMembers | livefpl/scripts/livefpl_prices.py:29-71 | The selection is the players whose id is requested, when ids are given, and that pass the thresholds, when filters are given. It never grows. |
| LiveFplPrices.Cap | livefpl/scripts/livefpl_prices.py:73-85 | `player_count` is the count before truncation. The list is cut to the first `MAX_PLAYERS`, with a limit message, only when the count exceeds it. |
| LiveFplPrices.CappedJsonFields | livefpl/scripts/livefpl_prices.py:75-85 | The document carries `player_count`, the capped players, and `limit_hit` only when the limit was hit. |
| LiveFplPrices.PricesMain | livefpl/scripts/livefpl_prices.py:19-88 | With no ids and no filter flag or threshold, it returns the info message without fetching or counting. Otherwise it returns the envelope of the fetched, filtered and capped players, or the error. The HTML disk, the counters and the stats file are then those `FetchPricesCached` states. |
| LiveFplPrices.Report | livefpl/scripts/livefpl_prices.py:26-88 | After the fetch, the envelope is the error, or the id filter, the threshold filter and the cap applied in that order (`PricesOutput`). |

## Left out

- The network, the disk and the clock are parameters (`World`, `LiveWorld`, the disk map and `now` in seconds), not effects. The local-time versus UTC mix in the HTML cache age is not modelled: ages are differences of one clock. A calendar day is `now / 86400`, without time zones.
- Directory resolution and `os.makedirs` in both utility constructors are left out. The cache directory is a string parameter.
- A partial cache write (a crash in the middle of `json.dump`) is not modelled: a write either completes or fails before touching the file.
- Transport failures carry their reason as an opaque string. An exception urllib does not wrap in `URLError`, from `getresponse()` or `response.read()`, carries its text as an opaque string. Redirects are followed before the remote's outcome is taken.
- The HTML cache is written and read on a POSIX system: the write does not translate `\n`, and the read turns `\r\n` and a lone `\r` into `\n`. The JSON cache goes through `json.dump`, which escapes both.
- Floating point: numbers are `real`, so `now_cost / 10.0`, `value / 10.0` and price thresholds are exact. `float()` accepts an optional sign, digits and an optional fraction. Exponents, `inf`, `nan`, underscores, surrounding whitespace and non-ASCII decimal digits (Python's `float("٥")` is 5.0) are not accepted.
- PriceParser: the regex engine is replaced by a scanner that is exact for ASCII text. `\d` outside ASCII and case folding outside ASCII under `IGNORECASE` are not modelled. `\s` uses Python's full whitespace table.
- FplData.NormalizeStr: NFKD decomposition and the stripping of combining marks are not modelled. A string is only lower-cased, and `str.lower` is ASCII-only.
- PyJson: `str()` renders ints, booleans, None and strings exactly. Floats, lists and dicts render as a placeholder, so messages that embed them are modelled only up to that text.
- Python key equality covers `1 == 1.0 == True` for scalar keys only. Unhashable keys (lists, dicts) make the comprehension fail, as in Python.
- The text of an exception raised while shaping a payload (a `.get` on a non-dict, `/ 10.0` on None) is the placeholder `<exception text>`. Which failure happened is kept, and so is the message it is wrapped in.
- The exact list in the "Multiple teams found" message of `fpl_data.py` `main` is not rendered. The model records the ambiguous ids instead.
- `fetched_at` (a UTC timestamp) is left out of the parser output.
- `MAX_PLAYERS` is a parameter: the import at `livefpl/scripts/livefpl_prices.py:2` names a constant that `livefpl_utils.py` does not define, so the script as written fails at import.
- argparse, `print`, and the indentation and layout of `json.dumps` are not modelled. Envelopes are maps.
- The `main` functions of `fpl_entry_data.py`, `fpl_league_standings.py` and `fpl_live_gameweek.py` are argument plumbing around the modelled accessors and are not modelled. This includes `if args.picks:`, which treats gameweek 0 as "not requested". The `main` of `fpl_data.py` is modelled only for its team-name resolution; its output assembly is not.
- Concurrency: the shared cache and stats files are used by one process at a time. Lost updates between processes are not modelled.
