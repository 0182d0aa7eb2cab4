/**
 * `fpl_live_gameweek.py`: the live points of one gameweek, fetched through
 * the JSON cache, with the elements optionally narrowed to a list of player
 * ids and the events passed through.
 */
module FplLiveGameweek {
  import opened Wrappers
  import opened PyJson
  import opened Http
  import opened Filtering
  import opened FplUtils
  import opened CacheKeys

  /** One formatted element: its id, its `stats` (default `{}`) and its `explain` (default `[]`). */
  datatype LiveElement = LiveElement(id: Json, stats: Json, explain: Json)

  /** One formatted event: its id and its `stats` (default `{}`). */
  datatype LiveEventRow = LiveEventRow(id: Json, stats: Json)

  /** The dict `get_live_gameweek` returns. */
  datatype LiveGameweek = LiveGameweek(gameweek: int, elements: seq<LiveElement>, events: seq<LiveEventRow>)

  function ElementOf(e: Dict): (r: LiveElement)
    ensures r.id == Get(e, "id", JNull)
    ensures "stats" !in e ==> r.stats == JObj(map[])
    ensures "explain" !in e ==> r.explain == JArr([])
  {
    LiveElement(Get(e, "id", JNull), Get(e, "stats", JObj(map[])), Get(e, "explain", JArr([])))
  }

  function EventOf(ev: Dict): (r: LiveEventRow)
    ensures r.id == Get(ev, "id", JNull)
    ensures "stats" !in ev ==> r.stats == JObj(map[])
  {
    LiveEventRow(Get(ev, "id", JNull), Get(ev, "stats", JObj(map[])))
  }

  /** The element is not skipped: no id list was given, or its id is in the list. */
  function Wanted(playerIds: Option<seq<int>>): Dict -> bool {
    (e: Dict) => playerIds.None? || InInts(Get(e, "id", JNull), playerIds.value)
  }

  /** The `elements` and `events` of a dict payload, as the two loops see them. */
  function Elements(data: Json): Option<seq<Dict>>
    requires data.JObj?
  {
    IterDicts(Get(data.fields, "elements", JArr([])))
  }

  function Events(data: Json): Option<seq<Dict>>
    requires data.JObj?
  {
    IterDicts(Get(data.fields, "events", JArr([])))
  }

  /** What `get_live_gameweek` returns for the payload `data`; None when a loop raises. */
  function Shape(data: Json, gameweek: int, playerIds: Option<seq<int>>): (r: Option<LiveGameweek>)
    ensures r.Some? ==> r.value.gameweek == gameweek
    ensures !data.JObj? ==> r == Some(LiveGameweek(gameweek, [], []))
    ensures data.JObj? ==> (r.Some? <==> Elements(data).Some? && Events(data).Some?)
    ensures r.Some? && data.JObj? ==>
      && |r.value.events| == |Events(data).value|
      && (forall k :: 0 <= k < |Events(data).value| ==> r.value.events[k] == EventOf(Events(data).value[k]))
  {
    if !data.JObj? then Some(LiveGameweek(gameweek, [], []))
    else
      match (Elements(data), Events(data))
      case (Some(els), Some(evs)) => Some(LiveGameweek(gameweek, Each(Keep(els, Wanted(playerIds)), ElementOf), Each(evs, EventOf)))
      case _ => None
  }

  /**
   * The element filter: the formatted elements are, in their original order
   * and once each, exactly the elements whose id is in `player_ids`; with no
   * id list every element is kept.
   */
  lemma ElementsSelected(data: Json, gameweek: int, playerIds: Option<seq<int>>)
    requires data.JObj? && Shape(data, gameweek, playerIds).Some?
    ensures var els, out := Elements(data).value, Shape(data, gameweek, playerIds).value.elements;
      var idx := KeptIndices(els, Wanted(playerIds));
      && |out| == |idx|
      && (forall k :: 0 <= k < |idx| ==> idx[k] < |els| && out[k] == ElementOf(els[idx[k]]))
      && (forall k, l :: 0 <= k < l < |idx| ==> idx[k] < idx[l])
      && (forall i :: 0 <= i < |els| ==>
            (i in idx <==> playerIds.None? || InInts(Get(els[i], "id", JNull), playerIds.value)))
    ensures playerIds.None? ==>
      var els, out := Elements(data).value, Shape(data, gameweek, playerIds).value.elements;
      |out| == |els| && forall k :: 0 <= k < |els| ==> out[k] == ElementOf(els[k])
  {
    var els := Elements(data).value;
    KeepSpec(els, Wanted(playerIds));
    if playerIds.None? {
      KeepAll(els, Wanted(playerIds));
    }
  }

  /** What `get_live_gameweek` returns or raises, given what the fetch produced. */
  function LiveOutcome(fetched: Result<Json, FetchError>, gameweek: int, playerIds: Option<seq<int>>)
    : Result<LiveGameweek, CallError>
  {
    match fetched
    case Failure(e) => Failure(FetchFailed(e))
    case Success(data) =>
      match Shape(data, gameweek, playerIds)
      case None => Failure(Raised)
      case Some(g) => Success(g)
  }

  class FplLiveGameweek {
    const utils: FplUtils

    constructor (utils: FplUtils)
      ensures this.utils == utils
    {
      this.utils := utils;
    }

    /** `get_live_gameweek`: the element loop skips unwanted ids with `continue`; the event loop keeps all. */
    method GetLiveGameweek(gameweek: int, playerIds: Option<seq<int>>, forceRefresh: bool, w: World)
      returns (r: Result<LiveGameweek, CallError>)
      modifies utils
      ensures var e := LiveEvent(gameweek);
        && r == LiveOutcome(
             FetchOutcome(old(utils.files), utils.cacheDir, utils.cacheExpiryDays, Url(e), CacheKey(e), forceRefresh, w),
             gameweek, playerIds)
        && utils.files == DiskAfter(old(utils.files), utils.cacheDir, utils.cacheExpiryDays, Url(e), CacheKey(e), forceRefresh, w)
    {
      var e := LiveEvent(gameweek);
      var fetched := utils.FetchUrlCached(Url(e), CacheKey(e), forceRefresh, w);
      if fetched.Failure? {
        return Failure(FetchFailed(fetched.error));
      }
      var data := fetched.value;
      if !data.JObj? {
        return Success(LiveGameweek(gameweek, [], []));
      }
      var elements := Elements(data);
      if elements.None? {
        return Failure(Raised);
      }
      var formattedElements := FormatElements(elements.value, playerIds);
      var events := Events(data);
      if events.None? {
        return Failure(Raised);
      }
      var formattedEvents := AppendEach(events.value, EventOf);
      r := Success(LiveGameweek(gameweek, formattedElements, formattedEvents));
    }
  }

  /** The element loop: elements whose id is not wanted are skipped with `continue`. */
  method FormatElements(els: seq<Dict>, playerIds: Option<seq<int>>) returns (formatted: seq<LiveElement>)
    ensures formatted == Each(Keep(els, Wanted(playerIds)), ElementOf)
  {
    formatted := [];
    for i := 0 to |els|
      invariant formatted == Each(Keep(els[..i], Wanted(playerIds)), ElementOf)
    {
      assert els[..i + 1][..i] == els[..i];
      var kept := Keep(els[..i], Wanted(playerIds));
      var eid := Get(els[i], "id", JNull);
      if playerIds.Some? && !InInts(eid, playerIds.value) {
        continue;
      }
      assert Keep(els[..i + 1], Wanted(playerIds)) == kept + [els[i]];
      assert (kept + [els[i]])[..|kept|] == kept;
      formatted := formatted + [ElementOf(els[i])];
    }
    assert els[..|els|] == els;
  }
}
