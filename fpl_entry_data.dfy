/**
 * `fpl_entry_data.py`: one FPL entry (team) and the four resources read
 * about it: its details, its history, its transfers and its picks for a
 * gameweek. Each accessor fetches through the JSON cache under its own key,
 * keeps the raw payload on the object, and shapes it; any failure is
 * re-raised with a message naming the entry (and the gameweek, for picks).
 */
module FplEntryData {
  import opened Wrappers
  import opened PyJson
  import opened Http
  import opened Filtering
  import opened FplUtils
  import opened CacheKeys

  // ---- details ----

  /** One classic or head-to-head league of the entry. */
  datatype LeagueRow = LeagueRow(id: Json, name: Json, entryRank: Json, entryLastRank: Json)

  function LeagueRowOf(l: Dict): LeagueRow {
    LeagueRow(Get(l, "id", JNull), Get(l, "name", JNull), Get(l, "entry_rank", JNull), Get(l, "entry_last_rank", JNull))
  }

  /** The dict `get_entry_details` returns. */
  datatype Details = Details(
    id: Json,
    teamName: Json,
    managerFirstName: Json,
    managerLastName: Json,
    playerRegionName: Json,
    overallPoints: Json,
    overallRank: Json,
    eventPoints: Json,
    eventRank: Json,
    currentGameweek: Json,
    classic: seq<LeagueRow>,
    h2h: seq<LeagueRow>,
    yearsActive: Json)

  /** `raw.get('leagues', {}).get(kind, [])`, iterated as dicts. */
  function LeagueItems(leagues: Json, kind: string): Option<seq<Dict>>
    requires leagues.JObj?
  {
    IterDicts(Get(leagues.fields, kind, JArr([])))
  }

  /** The shaping of `get_entry_details`; None when it raises. */
  function DetailsOf(raw: Json): (r: Option<Details>)
    ensures r.Some? ==> raw.JObj?
    ensures raw.JObj? && "leagues" !in raw.fields ==> r.Some? && r.value.classic == [] && r.value.h2h == []
    ensures raw.JObj? ==>
      var leagues := Get(raw.fields, "leagues", JObj(map[]));
      r.Some? <==> leagues.JObj? && LeagueItems(leagues, "classic").Some? && LeagueItems(leagues, "h2h").Some?
    ensures r.Some? ==>
      var leagues := Get(raw.fields, "leagues", JObj(map[]));
      var cs, hs := LeagueItems(leagues, "classic").value, LeagueItems(leagues, "h2h").value;
      && |r.value.classic| == |cs| && (forall k :: 0 <= k < |cs| ==> r.value.classic[k] == LeagueRowOf(cs[k]))
      && |r.value.h2h| == |hs| && (forall k :: 0 <= k < |hs| ==> r.value.h2h[k] == LeagueRowOf(hs[k]))
  {
    if !raw.JObj? then None
    else
      var d := raw.fields;
      var leagues := Get(d, "leagues", JObj(map[]));
      if !leagues.JObj? then None
      else
        var classic, h2h := LeagueItems(leagues, "classic"), LeagueItems(leagues, "h2h");
        if classic.None? || h2h.None? then None
        else
          Some(Details(
            Get(d, "id", JNull), Get(d, "name", JNull), Get(d, "player_first_name", JNull),
            Get(d, "player_last_name", JNull), Get(d, "player_region_name", JNull),
            Get(d, "summary_overall_points", JNull), Get(d, "summary_overall_rank", JNull),
            Get(d, "summary_event_points", JNull), Get(d, "summary_event_rank", JNull),
            Get(d, "current_event", JNull), Each(classic.value, LeagueRowOf), Each(h2h.value, LeagueRowOf),
            Get(d, "years_active", JNull)))
  }

  // ---- history ----

  /** One gameweek of the current season; the team value and the bank are in millions. */
  datatype HistoryRow = HistoryRow(
    gameweek: Json,
    points: Json,
    totalPoints: Json,
    overallRank: Json,
    gameweekRank: Json,
    transfersMade: Json,
    transfersCost: Json,
    pointsOnBench: Json,
    teamValue: real,
    bank: real)

  /** One row of the current-season loop; None when `value / 10.0` or `bank / 10.0` raises. */
  function HistoryRowOf(g: Dict): (r: Option<HistoryRow>)
    ensures r.None? <==> AsNumber(Get(g, "value", JNull)).None? || AsNumber(Get(g, "bank", JNull)).None?
    ensures r.Some? ==>
      && r.value.teamValue * 10.0 == AsNumber(Get(g, "value", JNull)).value
      && r.value.bank * 10.0 == AsNumber(Get(g, "bank", JNull)).value
  {
    match (Div10(Get(g, "value", JNull)), Div10(Get(g, "bank", JNull)))
    case (Some(v), Some(b)) =>
      Some(HistoryRow(
        Get(g, "event", JNull), Get(g, "points", JNull), Get(g, "total_points", JNull), Get(g, "overall_rank", JNull),
        Get(g, "rank", JNull), Get(g, "event_transfers", JNull), Get(g, "event_transfers_cost", JNull),
        Get(g, "points_on_bench", JNull), v, b))
    case _ => None
  }

  datatype PastSeason = PastSeason(seasonName: Json, totalPoints: Json, overallRank: Json)

  function PastSeasonOf(s: Dict): PastSeason {
    PastSeason(Get(s, "season_name", JNull), Get(s, "total_points", JNull), Get(s, "rank", JNull))
  }

  datatype ChipPlay = ChipPlay(name: Json, gameweek: Json, timePlayed: Json)

  function ChipPlayOf(c: Dict): ChipPlay {
    ChipPlay(Get(c, "name", JNull), Get(c, "event", JNull), Get(c, "time", JNull))
  }

  /** The dict `get_history` returns. */
  datatype History = History(current: seq<HistoryRow>, past: seq<PastSeason>, chips: seq<ChipPlay>)

  /** The items of one history list, `raw.get(key, [])`. */
  function HistoryItems(raw: Json, key: string): Option<seq<Dict>>
    requires raw.JObj?
  {
    IterDicts(Get(raw.fields, key, JArr([])))
  }

  /** The shaping of `get_history`: three loops, one output per input item each; None when it raises. */
  function HistoryOf(raw: Json): (r: Option<History>)
    ensures r.Some? <==>
      && raw.JObj?
      && HistoryItems(raw, "current").Some? && HistoryItems(raw, "past").Some? && HistoryItems(raw, "chips").Some?
      && forall k :: 0 <= k < |HistoryItems(raw, "current").value| ==>
           HistoryRowOf(HistoryItems(raw, "current").value[k]).Some?
    ensures r.Some? ==>
      var cur, past, chips := HistoryItems(raw, "current").value, HistoryItems(raw, "past").value, HistoryItems(raw, "chips").value;
      && |r.value.current| == |cur| && (forall k :: 0 <= k < |cur| ==> Some(r.value.current[k]) == HistoryRowOf(cur[k]))
      && |r.value.past| == |past| && (forall k :: 0 <= k < |past| ==> r.value.past[k] == PastSeasonOf(past[k]))
      && |r.value.chips| == |chips| && (forall k :: 0 <= k < |chips| ==> r.value.chips[k] == ChipPlayOf(chips[k]))
  {
    if !raw.JObj? then None
    else
      var cur, past, chips := HistoryItems(raw, "current"), HistoryItems(raw, "past"), HistoryItems(raw, "chips");
      if cur.None? || past.None? || chips.None? then None
      else
        var rows := Traverse(cur.value, HistoryRowOf);
        if rows.None? then None
        else Some(History(rows.value, Each(past.value, PastSeasonOf), Each(chips.value, ChipPlayOf)))
  }

  // ---- transfers ----

  /** One transfer; the costs are in millions. */
  datatype Transfer = Transfer(
    gameweek: Json,
    time: Json,
    elementInId: Json,
    elementInCost: real,
    elementOutId: Json,
    elementOutCost: real)

  /** One row of the transfer loop; None when a cost is not a number. */
  function TransferOf(t: Dict): (r: Option<Transfer>)
    ensures r.None? <==>
      AsNumber(Get(t, "element_in_cost", JNull)).None? || AsNumber(Get(t, "element_out_cost", JNull)).None?
    ensures r.Some? ==>
      && r.value.elementInCost * 10.0 == AsNumber(Get(t, "element_in_cost", JNull)).value
      && r.value.elementOutCost * 10.0 == AsNumber(Get(t, "element_out_cost", JNull)).value
  {
    match (Div10(Get(t, "element_in_cost", JNull)), Div10(Get(t, "element_out_cost", JNull)))
    case (Some(cin), Some(cout)) =>
      Some(Transfer(Get(t, "event", JNull), Get(t, "time", JNull), Get(t, "element_in", JNull), cin,
                    Get(t, "element_out", JNull), cout))
    case _ => None
  }

  /** The shaping of `get_transfers`: the payload itself is the list iterated. */
  function TransfersOf(raw: Json): (r: Option<seq<Transfer>>)
    ensures r.Some? <==>
      IterDicts(raw).Some? && forall k :: 0 <= k < |IterDicts(raw).value| ==> TransferOf(IterDicts(raw).value[k]).Some?
    ensures r.Some? ==>
      var ts := IterDicts(raw).value;
      |r.value| == |ts| && forall k :: 0 <= k < |ts| ==> Some(r.value[k]) == TransferOf(ts[k])
  {
    match IterDicts(raw)
    case None => None
    case Some(ts) => Traverse(ts, TransferOf)
  }

  // ---- picks ----

  datatype Pick = Pick(elementId: Json, position: Json, multiplier: Json, isCaptain: Json, isViceCaptain: Json, elementType: Json)

  function PickOf(p: Dict): Pick {
    Pick(Get(p, "element", JNull), Get(p, "position", JNull), Get(p, "multiplier", JNull),
         Get(p, "is_captain", JNull), Get(p, "is_vice_captain", JNull), Get(p, "element_type", JNull))
  }

  datatype AutoSub = AutoSub(elementInId: Json, elementOutId: Json, gameweek: Json)

  function AutoSubOf(s: Dict): AutoSub {
    AutoSub(Get(s, "element_in", JNull), Get(s, "element_out", JNull), Get(s, "event", JNull))
  }

  /** The dict `get_picks` returns. */
  datatype Picks = Picks(
    gameweek: int,
    activeChip: Json,
    eventPoints: Json,
    totalPoints: Json,
    overallRank: Json,
    picks: seq<Pick>,
    autoSubs: seq<AutoSub>)

  /** The shaping of `get_picks` for `gameweek`; None when it raises. */
  function PicksOf(raw: Json, gameweek: int): (r: Option<Picks>)
    ensures r.Some? <==>
      && raw.JObj? && HistoryItems(raw, "picks").Some? && HistoryItems(raw, "automatic_subs").Some?
      && Get(raw.fields, "entry_history", JObj(map[])).JObj?
    ensures r.Some? ==>
      var ps, subs := HistoryItems(raw, "picks").value, HistoryItems(raw, "automatic_subs").value;
      && |r.value.picks| == |ps| && (forall k :: 0 <= k < |ps| ==> r.value.picks[k] == PickOf(ps[k]))
      && |r.value.autoSubs| == |subs| && (forall k :: 0 <= k < |subs| ==> r.value.autoSubs[k] == AutoSubOf(subs[k]))
    ensures r.Some? ==>
      var summary := Get(raw.fields, "entry_history", JObj(map[])).fields;
      && r.value.gameweek == gameweek
      && r.value.activeChip == Get(raw.fields, "active_chip", JNull)
      && r.value.eventPoints == Get(summary, "points", JNull)
      && r.value.totalPoints == Get(summary, "total_points", JNull)
      && r.value.overallRank == Get(summary, "overall_rank", JNull)
  {
    if !raw.JObj? then None
    else
      var summary := Get(raw.fields, "entry_history", JObj(map[]));
      match (HistoryItems(raw, "picks"), HistoryItems(raw, "automatic_subs"))
      case (Some(ps), Some(subs)) =>
        if !summary.JObj? then None
        else
          Some(Picks(gameweek, Get(raw.fields, "active_chip", JNull),
            Get(summary.fields, "points", JNull), Get(summary.fields, "total_points", JNull),
            Get(summary.fields, "overall_rank", JNull), Each(ps, PickOf), Each(subs, AutoSubOf)))
      case _ => None
  }

  // ---- failures ----

  /** Which accessor failed. */
  datatype Part = DetailsPart | HistoryPart | TransfersPart | PicksPart(gameweek: int)

  /** The exception an accessor re-raises: which accessor, for which entry, and what it caught. */
  datatype EntryError = EntryError(part: Part, entryId: int, cause: CallError) {
    /** `str(e)` of the re-raised exception. */
    function Message(): string {
      MessageHead(part, entryId) + ": " + cause.Text()
    }
  }

  /** The message up to the caught exception's text. */
  function MessageHead(part: Part, entryId: int): string {
    match part
    case DetailsPart => "Failed to get entry details for ID " + IntToString(entryId)
    case HistoryPart => "Failed to get history for entry ID " + IntToString(entryId)
    case TransfersPart => "Failed to get transfers for entry ID " + IntToString(entryId)
    case PicksPart(gw) => "Failed to get picks for entry ID " + IntToString(entryId) + ", Gameweek " + IntToString(gw)
  }

  /** The text before the entry id. */
  function MessageLead(part: Part): string {
    match part
    case DetailsPart => "Failed to get entry details for ID "
    case HistoryPart => "Failed to get history for entry ID "
    case TransfersPart => "Failed to get transfers for entry ID "
    case PicksPart(_) => "Failed to get picks for entry ID "
  }

  /** The text after the entry id. */
  function MessageTail(e: EntryError): (t: string)
    ensures t != [] && !IsDigit(t[0])
  {
    match e.part
    case PicksPart(gw) => ", Gameweek " + IntToString(gw) + ": " + e.cause.Text()
    case _ => ": " + e.cause.Text()
  }

  lemma MessageShape(e: EntryError)
    ensures e.Message() == MessageLead(e.part) + (IntToString(e.entryId) + MessageTail(e))
  {
  }

  /**
   * The message names the entry: two failures of the same accessor with the
   * same message concern the same entry id (and, for picks, the same
   * gameweek), whatever exceptions they caught.
   */
  lemma MessageNamesEntry(e1: EntryError, e2: EntryError)
    requires MessageLead(e1.part) == MessageLead(e2.part)
    requires e1.Message() == e2.Message()
    ensures e1.entryId == e2.entryId
    ensures e1.part.PicksPart? && e2.part.PicksPart? ==> e1.part.gameweek == e2.part.gameweek
  {
    MessageShape(e1);
    MessageShape(e2);
    var s1, s2 := IntToString(e1.entryId), IntToString(e2.entryId);
    var t1, t2 := MessageTail(e1), MessageTail(e2);
    PrefixCancel(MessageLead(e1.part), s1 + t1, s2 + t2);
    IntToStringSplit(e1.entryId, e2.entryId, t1, t2);
    if e1.part.PicksPart? && e2.part.PicksPart? {
      PicksTailNamesGameweek(e1, e2);
    }
  }

  /** After the entry id, a picks message names the gameweek the same way. */
  lemma PicksTailNamesGameweek(e1: EntryError, e2: EntryError)
    requires e1.part.PicksPart? && e2.part.PicksPart?
    requires MessageTail(e1) == MessageTail(e2)
    ensures e1.part.gameweek == e2.part.gameweek
  {
    GameweekTailCancel(e1.part.gameweek, e2.part.gameweek, e1.cause.Text(), e2.cause.Text());
  }

  lemma GameweekTailCancel(g1: int, g2: int, c1: string, c2: string)
    requires ", Gameweek " + IntToString(g1) + ": " + c1 == ", Gameweek " + IntToString(g2) + ": " + c2
    ensures g1 == g2
  {
    var s1, s2 := IntToString(g1), IntToString(g2);
    var x1, x2 := ": " + c1, ": " + c2;
    assert ", Gameweek " + s1 + ": " + c1 == ", Gameweek " + (s1 + x1);
    assert ", Gameweek " + s2 + ": " + c2 == ", Gameweek " + (s2 + x2);
    PrefixCancel(", Gameweek ", s1 + x1, s2 + x2);
    IntToStringSplit(g1, g2, x1, x2);
  }

  /** What an accessor returns or raises, given what the fetch produced and how the payload shapes. */
  function Outcome<T>(part: Part, entryId: int, fetched: Result<Json, FetchError>, shaped: Option<T>): Result<T, EntryError> {
    if fetched.Failure? then Failure(EntryError(part, entryId, FetchFailed(fetched.error)))
    else if shaped.None? then Failure(EntryError(part, entryId, Raised))
    else Success(shaped.value)
  }

  /**
   * Every failure of an accessor is re-raised under this entry: the message
   * starts with the accessor's lead and the entry id and, when the fetch
   * failed, ends with the fetch error's own message.
   */
  lemma FailureMessage<T>(part: Part, entryId: int, fetched: Result<Json, FetchError>, shaped: Option<T>)
    requires Outcome(part, entryId, fetched, shaped).Failure?
    ensures var e := Outcome(part, entryId, fetched, shaped).error;
      && e.part == part && e.entryId == entryId
      && MessageLead(part) + IntToString(entryId) <= e.Message()
      && (fetched.Failure? ==> e.Message() == MessageHead(part, entryId) + ": " + fetched.error.Message())
  {
    var e := Outcome(part, entryId, fetched, shaped).error;
    MessageShape(e);
  }

  /** The payload shaped by `shape`, when the fetch produced one. */
  function ShapedDetails(fetched: Result<Json, FetchError>): Option<Details> {
    if fetched.Success? then DetailsOf(fetched.value) else None
  }

  function ShapedHistory(fetched: Result<Json, FetchError>): Option<History> {
    if fetched.Success? then HistoryOf(fetched.value) else None
  }

  function ShapedTransfers(fetched: Result<Json, FetchError>): Option<seq<Transfer>> {
    if fetched.Success? then TransfersOf(fetched.value) else None
  }

  function ShapedPicks(fetched: Result<Json, FetchError>, gameweek: int): Option<Picks> {
    if fetched.Success? then PicksOf(fetched.value, gameweek) else None
  }

  /** A raw field after `self._raw_x = fetch(...)`: assigned only when the fetch returned. */
  function Stored(old_: Json, fetched: Result<Json, FetchError>): Json {
    if fetched.Success? then fetched.value else old_
  }

  class FplEntryData {
    const entryId: int
    const utils: FplUtils
    /** The raw payloads of the last successful fetches; `JNull` is the initial None. */
    var rawDetails: Json
    var rawHistory: Json
    var rawTransfers: Json
    /** `_raw_picks_data`: the raw picks payload of each gameweek fetched so far. */
    var rawPicks: map<int, Json>

    constructor (entryId: int, utils: FplUtils)
      ensures this.entryId == entryId && this.utils == utils
      ensures rawDetails == JNull && rawHistory == JNull && rawTransfers == JNull && rawPicks == map[]
    {
      this.entryId := entryId;
      this.utils := utils;
      rawDetails := JNull;
      rawHistory := JNull;
      rawTransfers := JNull;
      rawPicks := map[];
    }

    /** The fetch of one endpoint of this entry, as `fetch_url_cached` sees the disk now. */
    function Fetched(e: Endpoint, forceRefresh: bool, w: World): Result<Json, FetchError>
      reads utils
    {
      FetchOutcome(utils.files, utils.cacheDir, utils.cacheExpiryDays, Url(e), CacheKey(e), forceRefresh, w)
    }

    method GetEntryDetails(forceRefresh: bool, w: World) returns (r: Result<Details, EntryError>)
      modifies this`rawDetails, utils
      ensures var e := EntryDetails(entryId);
        var fetched := old(Fetched(e, forceRefresh, w));
        && r == Outcome(DetailsPart, entryId, fetched, ShapedDetails(fetched))
        && rawDetails == Stored(old(rawDetails), fetched)
        && utils.files == DiskAfter(old(utils.files), utils.cacheDir, utils.cacheExpiryDays, Url(e), CacheKey(e), forceRefresh, w)
    {
      var e := EntryDetails(entryId);
      var fetched := utils.FetchUrlCached(Url(e), CacheKey(e), forceRefresh, w);
      if fetched.Failure? {
        return Failure(EntryError(DetailsPart, entryId, FetchFailed(fetched.error)));
      }
      rawDetails := fetched.value;
      var details := DetailsOf(rawDetails);
      if details.None? {
        return Failure(EntryError(DetailsPart, entryId, Raised));
      }
      r := Success(details.value);
    }

    method GetHistory(forceRefresh: bool, w: World) returns (r: Result<History, EntryError>)
      modifies this`rawHistory, utils
      ensures var e := EntryHistory(entryId);
        var fetched := old(Fetched(e, forceRefresh, w));
        && r == Outcome(HistoryPart, entryId, fetched, ShapedHistory(fetched))
        && rawHistory == Stored(old(rawHistory), fetched)
        && utils.files == DiskAfter(old(utils.files), utils.cacheDir, utils.cacheExpiryDays, Url(e), CacheKey(e), forceRefresh, w)
    {
      var e := EntryHistory(entryId);
      var fetched := utils.FetchUrlCached(Url(e), CacheKey(e), forceRefresh, w);
      if fetched.Failure? {
        return Failure(EntryError(HistoryPart, entryId, FetchFailed(fetched.error)));
      }
      rawHistory := fetched.value;
      var history := ShapeHistory(rawHistory);
      if history.None? {
        return Failure(EntryError(HistoryPart, entryId, Raised));
      }
      r := Success(history.value);
    }

    method GetTransfers(forceRefresh: bool, w: World) returns (r: Result<seq<Transfer>, EntryError>)
      modifies this`rawTransfers, utils
      ensures var e := EntryTransfers(entryId);
        var fetched := old(Fetched(e, forceRefresh, w));
        && r == Outcome(TransfersPart, entryId, fetched, ShapedTransfers(fetched))
        && rawTransfers == Stored(old(rawTransfers), fetched)
        && utils.files == DiskAfter(old(utils.files), utils.cacheDir, utils.cacheExpiryDays, Url(e), CacheKey(e), forceRefresh, w)
    {
      var e := EntryTransfers(entryId);
      var fetched := utils.FetchUrlCached(Url(e), CacheKey(e), forceRefresh, w);
      if fetched.Failure? {
        return Failure(EntryError(TransfersPart, entryId, FetchFailed(fetched.error)));
      }
      rawTransfers := fetched.value;
      var items := IterDicts(rawTransfers);
      if items.None? {
        return Failure(EntryError(TransfersPart, entryId, Raised));
      }
      var transfers := AppendEachOrRaise(items.value, TransferOf);
      if transfers.None? {
        return Failure(EntryError(TransfersPart, entryId, Raised));
      }
      r := Success(transfers.value);
    }

    /** `get_picks`: the payload is stored under its own gameweek; other gameweeks keep theirs. */
    method GetPicks(gameweek: int, forceRefresh: bool, w: World) returns (r: Result<Picks, EntryError>)
      modifies this`rawPicks, utils
      ensures var e := EntryPicks(entryId, gameweek);
        var fetched := old(Fetched(e, forceRefresh, w));
        && r == Outcome(PicksPart(gameweek), entryId, fetched, ShapedPicks(fetched, gameweek))
        && rawPicks == (if fetched.Success? then old(rawPicks)[gameweek := fetched.value] else old(rawPicks))
        && utils.files == DiskAfter(old(utils.files), utils.cacheDir, utils.cacheExpiryDays, Url(e), CacheKey(e), forceRefresh, w)
    {
      var e := EntryPicks(entryId, gameweek);
      var fetched := utils.FetchUrlCached(Url(e), CacheKey(e), forceRefresh, w);
      if fetched.Failure? {
        return Failure(EntryError(PicksPart(gameweek), entryId, FetchFailed(fetched.error)));
      }
      rawPicks := rawPicks[gameweek := fetched.value];
      var picks := ShapePicks(rawPicks[gameweek], gameweek);
      if picks.None? {
        return Failure(EntryError(PicksPart(gameweek), entryId, Raised));
      }
      r := Success(picks.value);
    }
  }

  /** The three loops of `get_history`. */
  method ShapeHistory(raw: Json) returns (r: Option<History>)
    ensures r == HistoryOf(raw)
  {
    if !raw.JObj? {
      return None;
    }
    var cur := HistoryItems(raw, "current");
    if cur.None? {
      return None;
    }
    var rows := AppendEachOrRaise(cur.value, HistoryRowOf);
    if rows.None? {
      return None;
    }
    var past := HistoryItems(raw, "past");
    if past.None? {
      return None;
    }
    var seasons := AppendEach(past.value, PastSeasonOf);
    var chips := HistoryItems(raw, "chips");
    if chips.None? {
      return None;
    }
    var played := AppendEach(chips.value, ChipPlayOf);
    r := Some(History(rows.value, seasons, played));
  }

  /** The two loops of `get_picks` and the summary read from `entry_history`. */
  method ShapePicks(raw: Json, gameweek: int) returns (r: Option<Picks>)
    ensures r == PicksOf(raw, gameweek)
  {
    if !raw.JObj? {
      return None;
    }
    var ps := HistoryItems(raw, "picks");
    if ps.None? {
      return None;
    }
    var picks := AppendEach(ps.value, PickOf);
    var subs := HistoryItems(raw, "automatic_subs");
    if subs.None? {
      return None;
    }
    var autoSubs := AppendEach(subs.value, AutoSubOf);
    var summary := Get(raw.fields, "entry_history", JObj(map[]));
    if !summary.JObj? {
      return None;
    }
    r := Some(Picks(gameweek, Get(raw.fields, "active_chip", JNull),
      Get(summary.fields, "points", JNull), Get(summary.fields, "total_points", JNull),
      Get(summary.fields, "overall_rank", JNull), picks, autoSubs));
  }
}
