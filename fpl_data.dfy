/**
 * `fpl_data.py`: the bootstrap document loaded once per `FPLData`, the team
 * and position lookup maps built from it, the player query with its
 * conjunction of filters, and the resolution of `--team` to a team id.
 *
 * `_data` is a `Json` where Python's None is `JNull`. The lookup maps are
 * keyed by `Canon` of the Python key, so `1`, `1.0` and `True` share a slot.
 */
module FplData {
  import opened Wrappers
  import opened PyJson
  import opened Http
  import opened Filtering
  import opened FplUtils
  import opened CacheKeys

  /**
   * `normalize_str`: '' for None, otherwise the lower-cased `str(s)`. NFKD
   * decomposition and the removal of combining marks change no ASCII text
   * and are not modelled.
   */
  function NormalizeStr(j: Json): (r: string)
    ensures j == JNull ==> r == ""
    ensures j.JStr? ==> r == Lower(j.s)
    ensures |r| == |Str(j)| || j == JNull
  {
    if j == JNull then "" else Lower(Str(j))
  }

  /**
   * `{item.get(key): item.get(value) for item in items}`; None when a key is
   * unhashable. A later item overwrites an earlier one with the same key.
   */
  function KeyedMap(items: seq<Dict>, key: string, value: string): Option<map<Json, Json>>
    decreases |items|
  {
    if items == [] then Some(map[])
    else
      match KeyedMap(items[..|items| - 1], key, value)
      case None => None
      case Some(m) =>
        var last := items[|items| - 1];
        var k := Get(last, key, JNull);
        if Hashable(k) then Some(m[Canon(k) := Get(last, value, JNull)]) else None
  }

  /** The comprehension raises exactly when some item's key is unhashable. */
  lemma {:induction false} KeyedMapDefined(items: seq<Dict>, key: string, value: string)
    ensures KeyedMap(items, key, value).Some? <==>
      forall i :: 0 <= i < |items| ==> Hashable(Get(items[i], key, JNull))
    decreases |items|
  {
    if items != [] {
      var init := items[..|items| - 1];
      KeyedMapDefined(init, key, value);
      assert forall i :: 0 <= i < |init| ==> init[i] == items[i];
    }
  }

  /** The keys of the built map are exactly the (canonical) keys of the items. */
  lemma {:induction false} KeyedMapKeys(items: seq<Dict>, key: string, value: string)
    requires KeyedMap(items, key, value).Some?
    ensures forall k :: k in KeyedMap(items, key, value).value <==>
      exists i :: 0 <= i < |items| && Canon(Get(items[i], key, JNull)) == k
    decreases |items|
  {
    if items != [] {
      var init := items[..|items| - 1];
      KeyedMapKeys(init, key, value);
      assert forall i :: 0 <= i < |init| ==> init[i] == items[i];
      assert Canon(Get(items[|items| - 1], key, JNull)) in KeyedMap(items, key, value).value;
    }
  }

  /** A key holds the value of the last item carrying it. */
  lemma {:induction false} KeyedMapLastWins(items: seq<Dict>, key: string, value: string, i: nat)
    requires KeyedMap(items, key, value).Some?
    requires i < |items|
    requires forall j :: i < j < |items| ==> Canon(Get(items[j], key, JNull)) != Canon(Get(items[i], key, JNull))
    ensures Canon(Get(items[i], key, JNull)) in KeyedMap(items, key, value).value
    ensures KeyedMap(items, key, value).value[Canon(Get(items[i], key, JNull))] == Get(items[i], value, JNull)
    decreases |items|
  {
    if i < |items| - 1 {
      var init := items[..|items| - 1];
      assert init[i] == items[i];
      assert forall j :: i < j < |init| ==> init[j] == items[j];
      KeyedMapLastWins(init, key, value, i);
    }
  }

  /** A map update and whether the statement that made it raised. */
  datatype Step = Step(m: map<Json, Json>, raised: bool)

  /**
   * `if et.get(field): position_map[et[field].lower()] = et['id']`: raises
   * when the value is truthy but not a string, or `et` has no 'id'.
   */
  function AddAlias(m: map<Json, Json>, et: Dict, field: string): Step {
    var name := Get(et, field, JNull);
    if !Truthy(name) then Step(m, false)
    else if !name.JStr? || "id" !in et then Step(m, true)
    else Step(m[JStr(Lower(name.s)) := et["id"]], false)
  }

  /** One turn of the alias loop: the singular name, then the short plural name. */
  function AliasesOf(m: map<Json, Json>, et: Dict): Step {
    var s := AddAlias(m, et, "singular_name");
    if s.raised then s else AddAlias(s.m, et, "plural_name_short")
  }

  /** The alias loop over `ets`, stopping with the map as it stands at the first raise. */
  function Aliases(m: map<Json, Json>, ets: seq<Dict>): Step
    decreases |ets|
  {
    if ets == [] then Step(m, false)
    else
      var s := Aliases(m, ets[..|ets| - 1]);
      if s.raised then s else AliasesOf(s.m, ets[|ets| - 1])
  }

  /** `self._data and key in self._data`; None when `in` raises. */
  function HasSection(data: Json, key: string): Option<bool> {
    if !Truthy(data) then Some(false) else PyContains(data, key)
  }

  /** `self._data.get(key, [])` iterated as dicts; None when either step raises. */
  function Section(data: Json, key: string): Option<seq<Dict>> {
    if data.JObj? then IterDicts(Get(data.fields, key, JArr([]))) else None
  }

  /** `_build_team_map`: the map after the call, and whether it raised. */
  function TeamMapStep(data: Json, m: map<Json, Json>): Step {
    match HasSection(data, "teams")
    case None => Step(m, true)
    case Some(false) => Step(m, false)
    case Some(true) =>
      match Section(data, "teams")
      case None => Step(m, true)
      case Some(teams) =>
        match KeyedMap(teams, "id", "name")
        case None => Step(m, true)
        case Some(t) => Step(t, false)
  }

  /**
   * `_build_position_map`: id -> short name from the comprehension, then the
   * lower-cased long and plural names -> id from the loop. A raise inside the
   * loop leaves the aliases added so far.
   */
  function PositionMapStep(data: Json, m: map<Json, Json>): Step {
    match HasSection(data, "element_types")
    case None => Step(m, true)
    case Some(false) => Step(m, false)
    case Some(true) =>
      match Section(data, "element_types")
      case None => Step(m, true)
      case Some(ets) =>
        match KeyedMap(ets, "id", "singular_name_short")
        case None => Step(m, true)
        case Some(base) => Aliases(base, ets)
  }

  /** Once the alias loop has raised, the later element types change nothing. */
  lemma {:induction false} AliasesStopAtRaise(m: map<Json, Json>, ets: seq<Dict>, i: nat)
    requires i <= |ets| && Aliases(m, ets[..i]).raised
    ensures Aliases(m, ets) == Aliases(m, ets[..i])
    decreases |ets|
  {
    if i < |ets| {
      var init := ets[..|ets| - 1];
      assert init[..i] == ets[..i];
      AliasesStopAtRaise(m, init, i);
    } else {
      assert ets[..i] == ets;
    }
  }

  /** Each element type is found by its id, its lower-cased name and its lower-cased plural short name. */
  lemma {:induction false} AliasesFindEveryType(base: map<Json, Json>, ets: seq<Dict>)
    requires !Aliases(base, ets).raised
    ensures forall k :: k in base ==> k in Aliases(base, ets).m
    ensures forall i :: 0 <= i < |ets| && Truthy(Get(ets[i], "singular_name", JNull)) ==>
      "id" in ets[i] && ets[i]["singular_name"].JStr? && JStr(Lower(ets[i]["singular_name"].s)) in Aliases(base, ets).m
    ensures forall i :: 0 <= i < |ets| && Truthy(Get(ets[i], "plural_name_short", JNull)) ==>
      "id" in ets[i] && ets[i]["plural_name_short"].JStr? && JStr(Lower(ets[i]["plural_name_short"].s)) in Aliases(base, ets).m
    decreases |ets|
  {
    if ets != [] {
      var init := ets[..|ets| - 1];
      AliasesFindEveryType(base, init);
      assert forall i :: 0 <= i < |init| ==> init[i] == ets[i];
    }
  }

  /** The key `field` of `et` adds in the alias loop, if it adds one. */
  function AliasKey(et: Dict, field: string): Option<Json> {
    var name := Get(et, field, JNull);
    if Truthy(name) && name.JStr? then Some(JStr(Lower(name.s))) else None
  }

  /** `et` writes `key` in its turn of the alias loop. */
  predicate WritesAlias(et: Dict, key: Json) {
    AliasKey(et, "singular_name") == Some(key) || AliasKey(et, "plural_name_short") == Some(key)
  }

  /** One turn that does not raise sets the keys it writes to the type's id and leaves every other key alone. */
  lemma AliasesOfValue(m: map<Json, Json>, et: Dict, key: Json)
    requires !AliasesOf(m, et).raised
    ensures WritesAlias(et, key) ==> "id" in et && key in AliasesOf(m, et).m && AliasesOf(m, et).m[key] == et["id"]
    ensures !WritesAlias(et, key) ==>
      (key in AliasesOf(m, et).m <==> key in m) && (key in m ==> AliasesOf(m, et).m[key] == m[key])
  {
  }

  /**
   * The lower-cased `singular_name` or `plural_name_short` of an element type
   * maps to that type's id, unless a later element type writes the same key.
   */
  lemma {:induction false} AliasValue(base: map<Json, Json>, ets: seq<Dict>, i: nat, key: Json)
    requires !Aliases(base, ets).raised
    requires i < |ets| && WritesAlias(ets[i], key)
    requires forall j :: i < j < |ets| ==> !WritesAlias(ets[j], key)
    ensures "id" in ets[i] && key in Aliases(base, ets).m && Aliases(base, ets).m[key] == ets[i]["id"]
    decreases |ets|
  {
    var init := ets[..|ets| - 1];
    var last := ets[|ets| - 1];
    var s := Aliases(base, init);
    assert !s.raised;
    AliasesOfValue(s.m, last, key);
    if i < |ets| - 1 {
      assert init[i] == ets[i];
      assert forall j :: i < j < |init| ==> init[j] == ets[j];
      AliasValue(base, init, i, key);
    }
  }

  /** The id -> short name entries under keys that are not strings are never overwritten by an alias. */
  lemma {:induction false} AliasesKeepNonStringKeys(base: map<Json, Json>, ets: seq<Dict>, key: Json)
    requires key in base && !key.JStr?
    ensures key in Aliases(base, ets).m && Aliases(base, ets).m[key] == base[key]
    decreases |ets|
  {
    if ets != [] {
      AliasesKeepNonStringKeys(base, ets[..|ets| - 1], key);
    }
  }

  /** `{"error": str(e)}`. */
  function ErrorDoc(f: CallError): Json {
    JObj(map["error" := JStr(f.Text())])
  }

  /** The object state `_load_data` leaves behind. */
  datatype Loaded = Loaded(data: Json, teamNameMap: map<Json, Json>, positionMap: map<Json, Json>)

  /** The state after a fetch that produced `fetched`, from the maps `tm` and `pm`. */
  function AfterFetch(fetched: Result<Json, FetchError>, tm: map<Json, Json>, pm: map<Json, Json>): Loaded {
    match fetched
    case Failure(e) => Loaded(ErrorDoc(FetchFailed(e)), tm, pm)
    case Success(doc) =>
      var t := TeamMapStep(doc, tm);
      if t.raised then Loaded(ErrorDoc(Raised), tm, pm)
      else
        var p := PositionMapStep(doc, pm);
        Loaded(if p.raised then ErrorDoc(Raised) else doc, t.m, p.m)
  }

  /** What `_load_data` returns or raises after a fetch that produced `fetched`. */
  function LoadResult(fetched: Result<Json, FetchError>, tm: map<Json, Json>, pm: map<Json, Json>): Result<Json, CallError> {
    match fetched
    case Failure(e) => Failure(FetchFailed(e))
    case Success(doc) =>
      if TeamMapStep(doc, tm).raised || PositionMapStep(doc, pm).raised then Failure(Raised)
      else Success(doc)
  }

  /** A load is needed when nothing is memoised yet, or a refresh is forced. */
  predicate LoadNeeded(data: Json, forceRefresh: bool) {
    data == JNull || forceRefresh
  }

  /**
   * Memoisation: after a load that succeeded with a document other than
   * `null`, the next unforced call returns that document and fetches
   * nothing; after a failed load, the next unforced call returns the error
   * document instead of retrying.
   */
  lemma LoadIsMemoised(fetched: Result<Json, FetchError>, tm: map<Json, Json>, pm: map<Json, Json>)
    ensures var after := AfterFetch(fetched, tm, pm);
      var r := LoadResult(fetched, tm, pm);
      && (r.Success? ==> after.data == fetched.value && r.value == fetched.value)
      && (r.Success? && fetched.value != JNull ==> !LoadNeeded(after.data, false))
      && (r.Failure? ==> after.data == ErrorDoc(r.error) && !LoadNeeded(after.data, false))
  {
  }

  /** The query filters of `get_players`; an absent or empty name or position is no filter. */
  datatype PlayerFilters = PlayerFilters(
    name: Option<string>,
    playerIds: Option<seq<int>>,
    teamId: Option<Json>,
    position: Option<string>,
    minPrice: Option<real>,
    maxPrice: Option<real>)

  /** `player_cost`: None for a missing cost, otherwise `now_cost / 10.0`; Failure when the division raises. */
  function PlayerCost(p: Dict): Result<Option<real>, ()> {
    var nowCost := Get(p, "now_cost", JNull);
    if nowCost == JNull then Success(None)
    else
      match Div10(nowCost)
      case Some(x) => Success(Some(x))
      case None => Failure(())
  }

  /** The `player_info` dict, one field per key. */
  datatype PlayerDetails = PlayerDetails(
    id: Json,
    firstName: Json,
    secondName: Json,
    fullName: string,
    teamId: Json,
    teamName: Json,
    totalPoints: Json,
    pointsThisGameweek: Json,
    elementType: Json,
    position: Json,
    nowCost: Option<real>,
    status: Json,
    selectedByPercent: Json)

  /** `player_info`; None when building it raises. */
  function PlayerInfo(p: Dict, tm: map<Json, Json>, pm: map<Json, Json>): Option<PlayerDetails> {
    var cost := PlayerCost(p);
    var first := Get(p, "first_name", JStr(""));
    var second := Get(p, "second_name", JStr(""));
    var teamId := Get(p, "team", JNull);
    var elementType := Get(p, "element_type", JNull);
    var teamName := Lookup(tm, teamId, JStr("Unknown Team"));
    var position := Lookup(pm, elementType, JStr("Unknown"));
    if cost.Failure? || teamName.None? || position.None? then None
    else Some(PlayerDetails(
      Get(p, "id", JNull), first, second, Strip(Str(first) + " " + Str(second)),
      teamId, teamName.value, Get(p, "total_points", JNull), Get(p, "event_points", JNull),
      elementType, position.value, cost.value, Get(p, "status", JNull), Get(p, "selected_by_percent", JNull)))
  }

  /**
   * Building a record raises exactly when the cost is neither missing nor a
   * number, or the team or element type is unhashable; an unknown team
   * reads 'Unknown Team', an unknown element type 'Unknown', and the cost
   * is `now_cost` in tenths.
   */
  lemma PlayerInfoDefaults(p: Dict, tm: map<Json, Json>, pm: map<Json, Json>)
    ensures PlayerInfo(p, tm, pm).Some? <==>
      && (Get(p, "now_cost", JNull) == JNull || AsNumber(Get(p, "now_cost", JNull)).Some?)
      && Hashable(Get(p, "team", JNull)) && Hashable(Get(p, "element_type", JNull))
    ensures PlayerInfo(p, tm, pm).Some? ==>
      var info := PlayerInfo(p, tm, pm).value;
      && (Canon(Get(p, "team", JNull)) !in tm ==> info.teamName == JStr("Unknown Team"))
      && (Canon(Get(p, "element_type", JNull)) !in pm ==> info.position == JStr("Unknown"))
      && (info.nowCost.None? <==> Get(p, "now_cost", JNull) == JNull)
      && (info.nowCost.Some? ==> info.nowCost.value == AsNumber(Get(p, "now_cost", JNull)).value / 10.0)
  {
  }

  /** `position_map.get(position.lower())`. */
  function PositionTarget(pm: map<Json, Json>, position: string): Json {
    if JStr(Lower(position)) in pm then pm[JStr(Lower(position))] else JNull
  }

  /** The `continue` tests of `get_players`: a record is kept iff it passes every filter supplied. */
  predicate Passes(f: PlayerFilters, pm: map<Json, Json>, info: PlayerDetails) {
    && (f.name.Some? && f.name.value != "" ==>
          IsSubstring(NormalizeStr(JStr(f.name.value)), NormalizeStr(JStr(info.fullName))))
    && (f.playerIds.Some? ==> InInts(info.id, f.playerIds.value))
    && (f.teamId.Some? ==> PyEq(f.teamId.value, info.teamId))
    && (f.position.Some? && f.position.value != "" ==>
          PositionTarget(pm, f.position.value) != JNull && PyEq(PositionTarget(pm, f.position.value), info.elementType))
    && (f.minPrice.Some? ==> info.nowCost.Some? && info.nowCost.value >= f.minPrice.value)
    && (f.maxPrice.Some? ==> info.nowCost.Some? && info.nowCost.value <= f.maxPrice.value)
  }

  function PassTest(f: PlayerFilters, pm: map<Json, Json>): PlayerDetails -> bool {
    (info: PlayerDetails) => Passes(f, pm, info)
  }

  function InfoOf(tm: map<Json, Json>, pm: map<Json, Json>): Dict -> Option<PlayerDetails> {
    (p: Dict) => PlayerInfo(p, tm, pm)
  }

  /** What `get_players` returns: the passing records in element order; None when it raises. */
  function SelectPlayers(data: Json, f: PlayerFilters, tm: map<Json, Json>, pm: map<Json, Json>): Option<seq<PlayerDetails>> {
    match Section(data, "elements")
    case None => None
    case Some(elements) =>
      match Traverse(elements, InfoOf(tm, pm))
      case None => None
      case Some(infos) => Some(Keep(infos, PassTest(f, pm)))
  }

  /**
   * `get_players` returns an in-order selection of the player records:
   * every returned record passes every supplied filter, every record that
   * passes them all is returned, and the records keep their element order.
   */
  lemma SelectPlayersSpec(data: Json, f: PlayerFilters, tm: map<Json, Json>, pm: map<Json, Json>)
    requires SelectPlayers(data, f, tm, pm).Some?
    ensures var infos := Traverse(Section(data, "elements").value, InfoOf(tm, pm)).value;
      var r := SelectPlayers(data, f, tm, pm).value;
      var idx := KeptIndices(infos, PassTest(f, pm));
      && (forall info :: info in r <==> info in infos && Passes(f, pm, info))
      && |r| == |idx|
      && (forall k, l :: 0 <= k < l < |idx| ==> idx[k] < idx[l])
      && (forall k :: 0 <= k < |idx| ==> idx[k] < |infos| && r[k] == infos[idx[k]])
  {
    var infos := Traverse(Section(data, "elements").value, InfoOf(tm, pm)).value;
    KeepSound(infos, PassTest(f, pm));
    KeepSpec(infos, PassTest(f, pm));
  }

  /** A price bound excludes every player without a cost. */
  lemma PriceBoundExcludesMissingCost(f: PlayerFilters, pm: map<Json, Json>, info: PlayerDetails)
    requires f.minPrice.Some? || f.maxPrice.Some?
    requires info.nowCost.None?
    ensures !Passes(f, pm, info)
  {
  }

  /** A position filter naming no known position excludes every player. */
  lemma UnknownPositionExcludesAll(data: Json, f: PlayerFilters, tm: map<Json, Json>, pm: map<Json, Json>)
    requires f.position.Some? && f.position.value != ""
    requires JStr(Lower(f.position.value)) !in pm
    requires SelectPlayers(data, f, tm, pm).Some?
    ensures SelectPlayers(data, f, tm, pm).value == []
  {
    var infos := Traverse(Section(data, "elements").value, InfoOf(tm, pm)).value;
    KeepNone(infos, PassTest(f, pm));
  }

  /** `get_teams`: one summary per team, in order; None when it raises. */
  function GetTeams(data: Json): (r: Option<seq<Dict>>)
    ensures r.Some? ==> Section(data, "teams").Some? && |r.value| == |Section(data, "teams").value|
    ensures r.Some? ==> forall k :: 0 <= k < |r.value| ==>
      r.value[k].Keys == {"id", "name", "short_name", "strength"} &&
      r.value[k]["id"] == Get(Section(data, "teams").value[k], "id", JNull) &&
      r.value[k]["name"] == Get(Section(data, "teams").value[k], "name", JNull)
  {
    match Section(data, "teams")
    case None => None
    case Some(teams) =>
      Some(seq(|teams|, k requires 0 <= k < |teams| => map[
        "id" := Get(teams[k], "id", JNull),
        "name" := Get(teams[k], "name", JNull),
        "short_name" := Get(teams[k], "short_name", JNull),
        "strength" := Get(teams[k], "strength", JNull)]))
  }

  /** `(event.get('top_element_info') or {}).get('points')`; None when it raises. */
  function TopElementPoints(e: Dict): (r: Option<Json>)
    ensures !Truthy(Get(e, "top_element_info", JNull)) ==> r == Some(JNull)
    ensures r.None? <==> Truthy(Get(e, "top_element_info", JNull)) && !Get(e, "top_element_info", JNull).JObj?
  {
    var info := Get(e, "top_element_info", JNull);
    if !Truthy(info) then Some(JNull)
    else if info.JObj? then Some(Get(info.fields, "points", JNull))
    else None
  }

  function GameweekSummary(e: Dict, points: Json): Dict {
    map[
      "id" := Get(e, "id", JNull),
      "name" := Get(e, "name", JNull),
      "deadline_time" := Get(e, "deadline_time", JNull),
      "average_score" := Get(e, "average_entry_score", JNull),
      "finished" := Get(e, "finished", JNull),
      "is_current" := Get(e, "is_current", JNull),
      "is_next" := Get(e, "is_next", JNull),
      "most_selected_player_id" := Get(e, "most_selected", JNull),
      "top_element_id" := Get(e, "top_element", JNull),
      "top_element_points" := points]
  }

  /** `get_gameweeks`: one summary per event, in order; None when it raises. */
  function GetGameweeks(data: Json): (r: Option<seq<Dict>>)
    ensures r.Some? ==> Section(data, "events").Some? && |r.value| == |Section(data, "events").value|
    ensures r.Some? ==> forall k :: 0 <= k < |r.value| ==>
      var e := Section(data, "events").value[k];
      TopElementPoints(e).Some? && r.value[k] == GameweekSummary(e, TopElementPoints(e).value)
    ensures Section(data, "events").Some? ==>
      (r.Some? <==> forall k :: 0 <= k < |Section(data, "events").value| ==>
                      TopElementPoints(Section(data, "events").value[k]).Some?)
  {
    match Section(data, "events")
    case None => None
    case Some(events) =>
      if forall k :: 0 <= k < |events| ==> TopElementPoints(events[k]).Some? then
        Some(seq(|events|, k requires 0 <= k < |events| => GameweekSummary(events[k], TopElementPoints(events[k]).value)))
      else None
  }

  /** The outcome of `--team` / `--team-id` handling in `main`. */
  datatype TeamResolution =
    | Resolved(filterTeamId: Option<Json>, info: Option<string>)
    | Ambiguous(ids: seq<Json>)
    | NoTeamFound

  /** `found_teams`: the ids of the teams whose name or short name contains the normalised search text. */
  function FoundTeams(teams: seq<Dict>, search: string): seq<Json> {
    var hits := Keep(teams, (t: Dict) => IsSubstring(search, NormalizeStr(Get(t, "name", JNull))) ||
                                          IsSubstring(search, NormalizeStr(Get(t, "short_name", JNull))));
    seq(|hits|, k requires 0 <= k < |hits| => Get(hits[k], "id", JNull))
  }

  /** The warning printed when `--team` and `--team-id` name different teams. */
  function ConflictWarning(team: string, found: Json, teamId: int): (r: string)
    ensures "Warning: " <= r
  {
    var tail := "Both --team '" + team + "' (ID " + Str(found) +
      ") and --team-id '" + IntToString(teamId) + "' were provided and conflict. Using --team-id: " +
      IntToString(teamId) + ".";
    assert ("Warning: " + tail)[..|"Warning: "|] == "Warning: ";
    "Warning: " + tail
  }

  /**
   * Team-name resolution: a single match sets the team filter unless a
   * conflicting `--team-id` was given, which wins with a warning; several
   * matches are an error; no match is an error unless a non-zero
   * `--team-id` was given.
   */
  /** `filter_team_id` as `get_players` reads it: a team id of None applies no team filter. */
  function TeamFilter(id: Json): Option<Json> {
    if id == JNull then None else Some(id)
  }

  function ResolveTeam(team: Option<string>, teamId: Option<int>, teams: seq<Dict>): TeamResolution {
    var given := if teamId.Some? then Some(JInt(teamId.value)) else None;
    if team.Some? && team.value != "" then
      var found := FoundTeams(teams, NormalizeStr(JStr(team.value)));
      if |found| == 1 then
        if teamId.Some? && !PyEq(JInt(teamId.value), found[0]) then
          Resolved(given, Some(ConflictWarning(team.value, found[0], teamId.value)))
        else
          Resolved(TeamFilter(found[0]), Some("Filtering by team name: '" + team.value + "' (Resolved to ID: " + Str(found[0]) + ")"))
      else if |found| > 1 then Ambiguous(found)
      else if teamId.None? || teamId.value == 0 then NoTeamFound
      else Resolved(given, None)
    else if teamId.Some? then Resolved(given, Some("Filtering by team ID: " + IntToString(teamId.value)))
    else Resolved(None, None)
  }

  /**
   * A single match sets the team filter to that team, unless a `--team-id`
   * naming another team was given: then `--team-id` wins and the message is a
   * warning.
   */
  lemma SingleTeamMatch(team: string, teamId: Option<int>, teams: seq<Dict>)
    requires team != ""
    requires |FoundTeams(teams, NormalizeStr(JStr(team)))| == 1
    ensures var found := FoundTeams(teams, NormalizeStr(JStr(team)))[0];
      var r := ResolveTeam(Some(team), teamId, teams);
      && r.Resolved? && r.info.Some?
      && (teamId.None? && found != JNull ==> r.filterTeamId == Some(found))
      && (teamId.None? && found == JNull ==> r.filterTeamId.None?)
      && (teamId.Some? ==> r.filterTeamId.Some? && PyEq(r.filterTeamId.value, JInt(teamId.value)))
      && (teamId.Some? && !PyEq(JInt(teamId.value), found) ==> "Warning: " <= r.info.value)
  {
  }

  /** Several matches are an error; no match is an error unless a non-zero `--team-id` was given. */
  lemma TeamMatchFailures(team: string, teamId: Option<int>, teams: seq<Dict>)
    requires team != ""
    ensures var n := |FoundTeams(teams, NormalizeStr(JStr(team)))|;
      var r := ResolveTeam(Some(team), teamId, teams);
      && (r.Ambiguous? <==> n > 1)
      && (r.NoTeamFound? <==> n == 0 && (teamId.None? || teamId.value == 0))
  {
  }

  class FplData {
    const utils: FplUtils
    /** `_data`; `JNull` is Python's None. */
    var data: Json
    var teamNameMap: map<Json, Json>
    var positionMap: map<Json, Json>

    constructor (utils: FplUtils)
      ensures this.utils == utils && data == JNull
      ensures teamNameMap == map[] && positionMap == map[]
    {
      this.utils := utils;
      data := JNull;
      teamNameMap := map[];
      positionMap := map[];
    }

    /** `_load_data`: fetch only when needed; on failure store `{"error": str(e)}` and re-raise. */
    method LoadData(forceRefresh: bool, w: World) returns (r: Result<Json, CallError>)
      modifies this, utils
      ensures !LoadNeeded(old(data), forceRefresh) ==>
        r == Success(old(data)) && unchanged(this) && unchanged(utils)
      ensures LoadNeeded(old(data), forceRefresh) ==>
        var fetched := FetchOutcome(old(utils.files), utils.cacheDir, utils.cacheExpiryDays, Url(Bootstrap), CacheKey(Bootstrap), forceRefresh, w);
        var after := AfterFetch(fetched, old(teamNameMap), old(positionMap));
        && utils.files == DiskAfter(old(utils.files), utils.cacheDir, utils.cacheExpiryDays, Url(Bootstrap), CacheKey(Bootstrap), forceRefresh, w)
        && Loaded(data, teamNameMap, positionMap) == after
        && r == LoadResult(fetched, old(teamNameMap), old(positionMap))
    {
      if !LoadNeeded(data, forceRefresh) {
        return Success(data);
      }
      var fetched := utils.FetchUrlCached(Url(Bootstrap), CacheKey(Bootstrap), forceRefresh, w);
      if fetched.Failure? {
        data := ErrorDoc(FetchFailed(fetched.error));
        return Failure(FetchFailed(fetched.error));
      }
      data := fetched.value;
      var raised := BuildTeamMap();
      if !raised {
        raised := BuildPositionMap();
      }
      if raised {
        data := ErrorDoc(Raised);
        return Failure(Raised);
      }
      r := Success(data);
    }

    /** `_build_team_map`: the comprehension is assigned whole or not at all. */
    method BuildTeamMap() returns (raised: bool)
      modifies this`teamNameMap
      ensures Step(teamNameMap, raised) == TeamMapStep(data, old(teamNameMap))
    {
      var step := TeamMapStep(data, teamNameMap);
      teamNameMap := step.m;
      raised := step.raised;
    }

    /** `_build_position_map`: the comprehension, then the alias loop, which may stop part-way. */
    method BuildPositionMap() returns (raised: bool)
      modifies this`positionMap
      ensures Step(positionMap, raised) == PositionMapStep(data, old(positionMap))
    {
      var has := HasSection(data, "element_types");
      if has.None? {
        return true;
      }
      if !has.value {
        return false;
      }
      var section := Section(data, "element_types");
      if section.None? {
        return true;
      }
      var ets := section.value;
      var base := KeyedMap(ets, "id", "singular_name_short");
      if base.None? {
        return true;
      }
      positionMap := base.value;
      var i := 0;
      while i < |ets|
        invariant 0 <= i <= |ets|
        invariant Aliases(base.value, ets[..i]) == Step(positionMap, false)
      {
        var et := ets[i];
        assert ets[..i + 1][..i] == ets[..i];
        var name := Get(et, "singular_name", JNull);
        if Truthy(name) {
          if !name.JStr? || "id" !in et {
            assert Aliases(base.value, ets[..i + 1]) == Step(positionMap, true);
            AliasesStopAtRaise(base.value, ets, i + 1);
            return true;
          }
          positionMap := positionMap[JStr(Lower(name.s)) := et["id"]];
        }
        var plural := Get(et, "plural_name_short", JNull);
        if Truthy(plural) {
          if !plural.JStr? || "id" !in et {
            assert Aliases(base.value, ets[..i + 1]) == Step(positionMap, true);
            AliasesStopAtRaise(base.value, ets, i + 1);
            return true;
          }
          positionMap := positionMap[JStr(Lower(plural.s)) := et["id"]];
        }
        i := i + 1;
      }
      assert ets[..i] == ets;
      raised := false;
    }

    /** `get_players`: one record per element, appended when it passes every filter. */
    method GetPlayers(f: PlayerFilters) returns (r: Option<seq<PlayerDetails>>)
      ensures r == SelectPlayers(data, f, teamNameMap, positionMap)
    {
      var section := Section(data, "elements");
      if section.None? {
        return None;
      }
      var elements := section.value;
      var details: seq<PlayerDetails> := [];
      var i := 0;
      while i < |elements|
        invariant 0 <= i <= |elements|
        invariant Traverse(elements[..i], InfoOf(teamNameMap, positionMap)).Some?
        invariant details == Keep(Traverse(elements[..i], InfoOf(teamNameMap, positionMap)).value, PassTest(f, positionMap))
      {
        assert elements[..i + 1][..i] == elements[..i];
        var info := PlayerInfo(elements[i], teamNameMap, positionMap);
        if info.None? {
          assert InfoOf(teamNameMap, positionMap)(elements[i]).None?;
          return None;
        }
        var infos := Traverse(elements[..i], InfoOf(teamNameMap, positionMap)).value;
        assert Traverse(elements[..i + 1], InfoOf(teamNameMap, positionMap)).value == infos + [info.value];
        assert (infos + [info.value])[..|infos|] == infos;
        if Passes(f, positionMap, info.value) {
          details := details + [info.value];
        }
        i := i + 1;
      }
      assert elements[..i] == elements;
      r := Some(details);
    }
  }
}
