/**
 * `fpl_fixture_data.py`: all fixtures, or those of one gameweek, fetched
 * through the JSON cache and shaped into one record per fixture with a
 * "home-away" score once both scores are known.
 */
module FplFixtureData {
  import opened Wrappers
  import opened PyJson
  import opened Http
  import opened Filtering
  import opened Envelope
  import opened FplUtils
  import opened CacheKeys

  const NoRequestMessage := "No specific data requested. Use --fixtures or --gameweek <n>."

  /** One shaped fixture: twelve fields read from the payload and the derived score. */
  datatype Fixture = Fixture(
    id: Json,
    event: Json,
    teamH: Json,
    teamA: Json,
    teamHDifficulty: Json,
    teamADifficulty: Json,
    minutes: Json,
    started: Json,
    finished: Json,
    kickoffTime: Json,
    teamHScore: Json,
    teamAScore: Json,
    score: Json)

  /** `f"{h}-{a}"` when both scores are present, None otherwise. */
  function Score(h: Json, a: Json): (r: Json)
    ensures r != JNull <==> h != JNull && a != JNull
    ensures r != JNull ==> r.JStr? && Str(h) + "-" <= r.s
  {
    if h != JNull && a != JNull then JStr(Str(h) + "-" + Str(a)) else JNull
  }

  /** An integer score reads back: the score text of two ints determines both of them. */
  lemma ScoreReadsBack(h1: int, a1: int, h2: int, a2: int)
    requires Score(JInt(h1), JInt(a1)) == Score(JInt(h2), JInt(a2))
    ensures h1 == h2 && a1 == a2
  {
    assert Str(JInt(h1)) == IntToString(h1) && Str(JInt(a1)) == IntToString(a1);
    assert Str(JInt(h2)) == IntToString(h2) && Str(JInt(a2)) == IntToString(a2);
    ScoreTextReadsBack(h1, a1, h2, a2);
  }

  lemma ScoreTextReadsBack(h1: int, a1: int, h2: int, a2: int)
    requires IntToString(h1) + "-" + IntToString(a1) == IntToString(h2) + "-" + IntToString(a2)
    ensures h1 == h2 && a1 == a2
  {
    var s1, s2, t1, t2 := IntToString(h1), IntToString(h2), IntToString(a1), IntToString(a2);
    var x1, x2 := "-" + t1, "-" + t2;
    assert s1 + "-" + t1 == s1 + x1;
    assert s2 + "-" + t2 == s2 + x2;
    IntToStringSplit(h1, h2, x1, x2);
    assert IntToString(a1) == x1[1..] && IntToString(a2) == x2[1..];
    IntToStringInjective(a1, a2);
  }

  function FixtureOf(f: Dict): (r: Fixture)
    ensures r.teamHScore == Get(f, "team_h_score", JNull) && r.teamAScore == Get(f, "team_a_score", JNull)
    ensures r.score == Score(r.teamHScore, r.teamAScore)
  {
    var h, a := Get(f, "team_h_score", JNull), Get(f, "team_a_score", JNull);
    Fixture(Get(f, "id", JNull), Get(f, "event", JNull), Get(f, "team_h", JNull), Get(f, "team_a", JNull),
            Get(f, "team_h_difficulty", JNull), Get(f, "team_a_difficulty", JNull), Get(f, "minutes", JNull),
            Get(f, "started", JNull), Get(f, "finished", JNull), Get(f, "kickoff_time", JNull), h, a, Score(h, a))
  }

  /**
   * What `get_fixtures` returns for the payload `data`: one record per
   * fixture of a list payload, in order, nothing for any other payload;
   * None when the comprehension raises.
   */
  function Shape(data: Json): (r: Option<seq<Fixture>>)
    ensures !data.JArr? ==> r == Some([])
    ensures data.JArr? ==> (r.Some? <==> forall k :: 0 <= k < |data.items| ==> data.items[k].JObj?)
    ensures data.JArr? && r.Some? ==>
      |r.value| == |data.items| && forall k :: 0 <= k < |data.items| ==> r.value[k] == FixtureOf(data.items[k].fields)
  {
    var fixtures := if data.JArr? then IterDicts(data) else Some([]);
    match fixtures
    case None => None
    case Some(fs) => Some(Each(fs, FixtureOf))
  }

  /** What `get_fixtures` returns or raises, given what the fetch produced. */
  function FixturesOutcome(fetched: Result<Json, FetchError>): Result<seq<Fixture>, CallError> {
    match fetched
    case Failure(e) => Failure(FetchFailed(e))
    case Success(data) =>
      match Shape(data)
      case None => Failure(Raised)
      case Some(fs) => Success(fs)
  }

  /** The gameweek filter only narrows the request: the key and the URL name the gameweek when one is given. */
  lemma FixturesKeyAndUrl(gameweek: Option<int>)
    ensures gameweek.None? ==> CacheKey(Fixtures(gameweek)) == "fixtures" && Url(Fixtures(gameweek)) == ApiBase + "fixtures/"
    ensures gameweek.Some? ==>
      && CacheKey(Fixtures(gameweek)) == "fixtures_event_" + IntToString(gameweek.value)
      && Url(Fixtures(gameweek)) == ApiBase + "fixtures/" + "?event=" + IntToString(gameweek.value)
  {
    if gameweek.Some? {
      assert ApiBase + "fixtures/?event=" == ApiBase + "fixtures/" + "?event=";
    }
  }

  /** Which fixtures `main` asks for: all under `--fixtures`, else the `--gameweek` ones, else none. */
  function Request(allFixtures: bool, gameweek: Option<int>): (r: Option<Option<int>>)
    ensures allFixtures ==> r == Some(None)
    ensures !allFixtures && gameweek.Some? ==> r == Some(gameweek)
    ensures r.None? <==> !allFixtures && gameweek.None?
  {
    if allFixtures then Some(None)
    else if gameweek.Some? then Some(gameweek)
    else None
  }

  function FixtureJson(f: Fixture): Json {
    JObj(map[
      "id" := f.id, "event" := f.event, "team_h" := f.teamH, "team_a" := f.teamA,
      "team_h_difficulty" := f.teamHDifficulty, "team_a_difficulty" := f.teamADifficulty,
      "minutes" := f.minutes, "started" := f.started, "finished" := f.finished,
      "kickoff_time" := f.kickoffTime, "team_h_score" := f.teamHScore, "team_a_score" := f.teamAScore,
      "score" := f.score])
  }

  /**
   * The envelope `main` prints for a request that was made: the fixtures
   * under "fixtures", or the error with an empty data dict (`output_data`
   * stays `{}`).
   */
  function FixturesOutput(r: Result<seq<Fixture>, CallError>): Dict {
    match r
    case Failure(e) => FormatJsonOutput("error", Some(JObj(map[])), Some("Failed to fetch fixtures: " + e.Text()))
    case Success(fs) =>
      var items := seq(|fs|, k requires 0 <= k < |fs| => FixtureJson(fs[k]));
      FormatJsonOutput("success", Some(JObj(map["fixtures" := JArr(items)])), None)
  }

  class FplFixtureData {
    const utils: FplUtils

    constructor (utils: FplUtils)
      ensures this.utils == utils
    {
      this.utils := utils;
    }

    /** `get_fixtures`: fetch under the gameweek's own key, then shape. */
    method GetFixtures(gameweek: Option<int>, forceRefresh: bool, w: World) returns (r: Result<seq<Fixture>, CallError>)
      modifies utils
      ensures var e := Fixtures(gameweek);
        && r == FixturesOutcome(
             FetchOutcome(old(utils.files), utils.cacheDir, utils.cacheExpiryDays, Url(e), CacheKey(e), forceRefresh, w))
        && utils.files == DiskAfter(old(utils.files), utils.cacheDir, utils.cacheExpiryDays, Url(e), CacheKey(e), forceRefresh, w)
    {
      var e := Fixtures(gameweek);
      var fetched := utils.FetchUrlCached(Url(e), CacheKey(e), forceRefresh, w);
      r := FixturesOutcome(fetched);
    }
  }

  /** `main`: `--fixtures` wins over `--gameweek`; with neither, nothing is fetched and the status is "info". */
  method FixturesMain(allFixtures: bool, gameweek: Option<int>, forceRefresh: bool, fetcher: FplFixtureData, w: World)
    returns (out: Dict)
    modifies fetcher.utils
    ensures Request(allFixtures, gameweek).None? ==>
      out == FormatJsonOutput("info", Some(JObj(map[])), Some(NoRequestMessage)) && unchanged(fetcher.utils)
    ensures Request(allFixtures, gameweek).Some? ==>
      var u := fetcher.utils;
      var e := Fixtures(Request(allFixtures, gameweek).value);
      && out == FixturesOutput(FixturesOutcome(
           FetchOutcome(old(u.files), u.cacheDir, u.cacheExpiryDays, Url(e), CacheKey(e), forceRefresh, w)))
      && u.files == DiskAfter(old(u.files), u.cacheDir, u.cacheExpiryDays, Url(e), CacheKey(e), forceRefresh, w)
  {
    if allFixtures {
      var r := fetcher.GetFixtures(None, forceRefresh, w);
      out := FixturesOutput(r);
    } else if gameweek.Some? {
      var r := fetcher.GetFixtures(gameweek, forceRefresh, w);
      out := FixturesOutput(r);
    } else {
      out := FormatJsonOutput("info", Some(JObj(map[])), Some(NoRequestMessage));
    }
  }
}
