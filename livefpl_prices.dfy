/**
 * `livefpl_prices.py` `main`: select price records by id, then by an OR of
 * threshold conditions over `pct_now` / `pct_tonight`, then cap the list at
 * `MAX_PLAYERS` and wrap the result in the output envelope.
 */
module LiveFplPrices {
  import opened Wrappers
  import opened PyJson
  import opened Http
  import opened Envelope
  import opened Filtering
  import opened PriceParser
  import opened LiveFplUtils

  const PricesUrl := "https://www.livefpl.net/prices"
  const PricesCacheKey := "prices"

  const NoRequestMessage :=
    "No specific data requested. Use --player-ids or filters: --filter-now/--filter-tonight with --filter-gt/--filter-lt."

  /** The parsed command line. */
  datatype Args = Args(
    forceRefresh: bool,
    playerIds: seq<int>,
    filterGt: Option<real>,
    filterLt: Option<real>,
    filterNow: bool,
    filterTonight: bool)

  /** `filter_flags`: a metric flag or a threshold was given. */
  predicate FilterFlags(a: Args) {
    a.filterNow || a.filterTonight || a.filterGt.Some? || a.filterLt.Some?
  }

  /** Something was asked for: player ids or a filter. */
  predicate Requested(a: Args) {
    |a.playerIds| > 0 || FilterFlags(a)
  }

  /** `p.get('id') in ids_set`. */
  function IdTest(ids: seq<int>): PriceRecord -> bool {
    (p: PriceRecord) => p.id in ids
  }

  /** A metric meets a threshold: both are present and `metric >= gt`, or `metric <= lt`. */
  predicate AtLeast(metric: Option<real>, gt: Option<real>) {
    gt.Some? && metric.Some? && metric.value >= gt.value
  }

  predicate AtMost(metric: Option<real>, lt: Option<real>) {
    lt.Some? && metric.Some? && metric.value <= lt.value
  }

  /**
   * The metrics the thresholds apply to: those whose flag is given, or both
   * when neither flag is.
   */
  function AppliedMetrics(a: Args, p: PriceRecord): seq<Option<real>> {
    if !a.filterNow && !a.filterTonight then [p.pctNow, p.pctTonight]
    else (if a.filterNow then [p.pctNow] else []) + (if a.filterTonight then [p.pctTonight] else [])
  }

  /** `metric >= filter_gt` or `metric <= filter_lt`, for the thresholds given. */
  predicate Meets(a: Args, metric: Option<real>) {
    AtLeast(metric, a.filterGt) || AtMost(metric, a.filterLt)
  }

  /** A player is kept iff some applied metric meets some given threshold. */
  predicate Keeps(a: Args, p: PriceRecord) {
    exists k :: 0 <= k < |AppliedMetrics(a, p)| && Meets(a, AppliedMetrics(a, p)[k])
  }

  function ThresholdTest(a: Args): PriceRecord -> bool {
    (p: PriceRecord) => Keeps(a, p)
  }

  /**
   * The `for p in players` loop with its `keep` flag: each applied condition
   * can only switch `keep` on.
   */
  method FilterByThresholds(players: seq<PriceRecord>, a: Args) returns (out: seq<PriceRecord>)
    ensures out == Keep(players, ThresholdTest(a))
  {
    out := [];
    var i := 0;
    while i < |players|
      invariant 0 <= i <= |players|
      invariant out == Keep(players[..i], ThresholdTest(a))
    {
      var p := players[i];
      var pn, pt := p.pctNow, p.pctTonight;
      var keep := false;
      if a.filterNow {
        if AtLeast(pn, a.filterGt) { keep := true; }
        if AtMost(pn, a.filterLt) { keep := true; }
      }
      if a.filterTonight {
        if AtLeast(pt, a.filterGt) { keep := true; }
        if AtMost(pt, a.filterLt) { keep := true; }
      }
      if !a.filterNow && !a.filterTonight {
        if a.filterGt.Some? {
          if AtLeast(pn, a.filterGt) { keep := true; }
          if AtLeast(pt, a.filterGt) { keep := true; }
        }
        if a.filterLt.Some? {
          if AtMost(pn, a.filterLt) { keep := true; }
          if AtMost(pt, a.filterLt) { keep := true; }
        }
      }
      KeepsCases(a, p);
      assert players[..i + 1] == players[..i] + [p];
      if keep {
        out := out + [p];
      }
      i := i + 1;
    }
    assert players[..i] == players;
  }

  /** `Keeps` spelled out per combination of metric flags. */
  lemma KeepsCases(a: Args, p: PriceRecord)
    ensures Keeps(a, p) <==>
      if !a.filterNow && !a.filterTonight then
        AtLeast(p.pctNow, a.filterGt) || AtMost(p.pctNow, a.filterLt) ||
        AtLeast(p.pctTonight, a.filterGt) || AtMost(p.pctTonight, a.filterLt)
      else
        (a.filterNow && (AtLeast(p.pctNow, a.filterGt) || AtMost(p.pctNow, a.filterLt))) ||
        (a.filterTonight && (AtLeast(p.pctTonight, a.filterGt) || AtMost(p.pctTonight, a.filterLt)))
  {
    var ms := AppliedMetrics(a, p);
    if a.filterNow != a.filterTonight {
      assert |ms| == 1;
      assert Keeps(a, p) <==> Meets(a, ms[0]);
    } else {
      assert ms == [p.pctNow, p.pctTonight];
      assert Keeps(a, p) ==> Meets(a, p.pctNow) || Meets(a, p.pctTonight);
      if Meets(a, p.pctNow) {
        assert Meets(a, ms[0]);
      } else if Meets(a, p.pctTonight) {
        assert Meets(a, ms[1]);
      }
    }
  }

  /** A player with neither percentage is never kept by a threshold. */
  lemma MissingMetricsNeverKept(a: Args, p: PriceRecord)
    requires p.pctNow.None? && p.pctTonight.None?
    ensures !Keeps(a, p)
  {
    KeepsCases(a, p);
  }

  /** A metric flag given with no threshold keeps no player at all. */
  lemma FlagWithoutThresholdKeepsNothing(players: seq<PriceRecord>, a: Args)
    requires a.filterGt.None? && a.filterLt.None?
    ensures Keep(players, ThresholdTest(a)) == []
  {
    forall p | p in players
      ensures !ThresholdTest(a)(p)
    {
      KeepsCases(a, p);
    }
    KeepNone(players, ThresholdTest(a));
  }

  /** The players selected before the cap: by id first, then by thresholds. */
  function Selected(players: seq<PriceRecord>, a: Args): seq<PriceRecord> {
    var byId := if |a.playerIds| > 0 then Keep(players, IdTest(a.playerIds)) else players;
    if FilterFlags(a) then Keep(byId, ThresholdTest(a)) else byId
  }

  /**
   * Selection never reorders or duplicates: a record is selected iff it was
   * parsed, its id was asked for (when ids are given) and it passes the
   * thresholds (when a filter is given).
   */
  lemma SelectedMembers(players: seq<PriceRecord>, a: Args)
    ensures forall p :: p in Selected(players, a) <==>
      && p in players
      && (|a.playerIds| > 0 ==> p.id in a.playerIds)
      && (FilterFlags(a) ==> Keeps(a, p))
    ensures |Selected(players, a)| <= |players|
  {
    var byId := if |a.playerIds| > 0 then Keep(players, IdTest(a.playerIds)) else players;
    if |a.playerIds| > 0 {
      KeepSound(players, IdTest(a.playerIds));
    }
    if FilterFlags(a) {
      KeepSound(byId, ThresholdTest(a));
    }
  }

  /** The `data` dict after the cap (`fetched_at` aside). */
  datatype Capped = Capped(players: seq<PriceRecord>, limitMessage: Option<string>, playerCount: nat)

  function LimitMessage(count: nat, maxPlayers: nat): string {
    "Returned " + IntToString(count) + " players which exceeds the limit of " + IntToString(maxPlayers) +
    ". Please narrow the results using --player-ids or the --filter-* options to reduce the number of players returned."
  }

  /** The cap: the count is taken before the cap; the limit fields appear only when it is exceeded. */
  function Cap(players: seq<PriceRecord>, maxPlayers: nat): (c: Capped)
    ensures c.playerCount == |players|
    ensures |c.players| <= maxPlayers && c.players <= players
    ensures c.limitMessage.Some? <==> |players| > maxPlayers
    ensures |players| <= maxPlayers ==> c.players == players
  {
    if |players| > maxPlayers then
      Capped(players[..maxPlayers], Some(LimitMessage(|players|, maxPlayers)), |players|)
    else Capped(players, None, |players|)
  }

  function RecordJson(p: PriceRecord): Json {
    JObj(map[
      "id" := JInt(p.id),
      "pct_now" := if p.pctNow.Some? then JFloat(p.pctNow.value) else JNull,
      "pct_tonight" := if p.pctTonight.Some? then JFloat(p.pctTonight.value) else JNull])
  }

  function CappedJson(c: Capped): Json {
    var players := JArr(seq(|c.players|, k requires 0 <= k < |c.players| => RecordJson(c.players[k])));
    var base := map["players" := players, "player_count" := JInt(c.playerCount)];
    JObj(if c.limitMessage.Some? then base["limit_hit" := JBool(true)]["limit_message" := JStr(c.limitMessage.value)] else base)
  }

  /** The envelope printed for a requested selection, given the fetch's outcome. */
  function PricesOutput(a: Args, maxPlayers: nat, fetched: Result<seq<PriceRecord>, FetchError>): Dict {
    match fetched
    case Failure(e) => FormatJsonOutput("error", None, Some(e.Message()))
    case Success(players) => FormatJsonOutput("success", Some(CappedJson(Cap(Selected(players, a), maxPlayers))), None)
  }

  /**
   * The `data` dict: `player_count` is the count before the cap, `limit_hit`
   * is present exactly when a limit message was set, one JSON record per
   * capped player.
   */
  lemma CappedJsonFields(c: Capped)
    ensures var d := CappedJson(c);
      && d.JObj? && d.fields["player_count"] == JInt(c.playerCount)
      && ("limit_hit" in d.fields <==> c.limitMessage.Some?)
      && d.fields["players"].JArr? && |d.fields["players"].items| == |c.players|
  {
  }

  /** `main`: nothing is fetched unless something was requested. */
  method PricesMain(a: Args, maxPlayers: nat, utils: LiveFplUtils, w: LiveWorld) returns (out: Dict)
    modifies utils, utils.stats
    ensures !Requested(a) ==> out == FormatJsonOutput("info", None, Some(NoRequestMessage))
    ensures !Requested(a) ==> unchanged(utils, utils.stats)
    ensures Requested(a) ==>
      out == PricesOutput(a, maxPlayers,
        PricesOutcome(old(utils.files), utils.cacheDir, utils.cacheExpiryHours, PricesUrl, PricesCacheKey, a.forceRefresh, w))
    ensures Requested(a) ==>
      && utils.files == HtmlDiskAfter(old(utils.files), utils.cacheDir, utils.cacheExpiryHours, PricesCacheKey, a.forceRefresh, w)
      && var fetched := RemoteRead(old(utils.files), utils.cacheDir, utils.cacheExpiryHours, PricesCacheKey, a.forceRefresh, w);
         && utils.stats.data == StatsAfter(old(utils.stats.data), PricesUrl, fetched)
         && utils.stats.file == if w.statsWritable && StatsSaved(old(utils.stats.data), PricesUrl, fetched)
                                then ST.Stored(utils.stats.data) else old(utils.stats.file)
  {
    if !Requested(a) {
      return FormatJsonOutput("info", None, Some(NoRequestMessage));
    }
    var fetched := utils.FetchPricesCached(PricesUrl, PricesCacheKey, a.forceRefresh, w);
    out := Report(a, maxPlayers, fetched);
  }

  /** The part of `main` after the fetch: the error envelope, or filter, cap and the success envelope. */
  method Report(a: Args, maxPlayers: nat, fetched: Result<seq<PriceRecord>, FetchError>) returns (out: Dict)
    ensures out == PricesOutput(a, maxPlayers, fetched)
  {
    match fetched {
      case Failure(e) =>
        out := FormatJsonOutput("error", None, Some(e.Message()));
      case Success(parsed) =>
        var players := parsed;
        if |a.playerIds| > 0 {
          players := Keep(players, IdTest(a.playerIds));
        }
        if FilterFlags(a) {
          players := FilterByThresholds(players, a);
        }
        assert players == Selected(parsed, a);
        var capped := Cap(players, maxPlayers);
        out := FormatJsonOutput("success", Some(CappedJson(capped)), None);
    }
  }
}
