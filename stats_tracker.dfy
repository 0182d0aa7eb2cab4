/**
 * `StatsTracker`: per-URL `requests` / `api_fetches` counters held in the
 * dict `_data` (whatever `json.load` produced from the stats file), updated
 * in place and rewritten to the stats file after each increment.
 */
module StatsTracker {
  import opened Wrappers
  import opened PyJson

  /** The stats file on disk as `_load` finds it. */
  datatype StatsFile =
    | Absent
    | Unparsable          // unreadable, or not valid JSON
    | Stored(doc: Json)

  /** `_load`: the parsed document, or `{}` when the file is missing or unparsable. */
  function Loaded(f: StatsFile): (d: Json)
    ensures f.Stored? ==> d == f.doc
    ensures !f.Stored? ==> d == JObj(map[])
  {
    match f
    case Stored(doc) => doc
    case _ => JObj(map[])
  }

  /** `entry.get(field, 0) + 1`; None when Python raises TypeError. */
  function Incremented(c: Json): Option<Json> {
    match c
    case JInt(i) => Some(JInt(i + 1))
    case JFloat(r) => Some(JFloat(r + 1.0))
    case JBool(b) => Some(JInt(if b then 2 else 1))
    case _ => None
  }

  /**
   * `_data` after `increment_request` (field "requests") or
   * `increment_api_fetch` (field "api_fetches"); None when the method raises
   * (`_data` or the URL's entry is not a dict, or the counter is not a number),
   * in which case nothing changes.
   */
  function Bumped(data: Json, url: string, field: string): Option<Json> {
    if !data.JObj? then None
    else
      var m := data.fields;
      var entry := if url in m then m[url] else JObj(map["requests" := JInt(0), "api_fetches" := JInt(0)]);
      if !entry.JObj? then None
      else
        match Incremented(Get(entry.fields, field, JInt(0)))
        case Some(c) => Some(JObj(m[url := JObj(entry.fields[field := c])]))
        case None => None
  }

  /** A stats document of the shape the tracker writes: URL -> {counter name -> int}. */
  ghost predicate WellFormed(data: Json) {
    && data.JObj?
    && forall url | url in data.fields ::
         && data.fields[url].JObj?
         && forall f | f in data.fields[url].fields :: data.fields[url].fields[f].JInt?
  }

  /** The count the tracker reports for `url` and `field` in a well-formed document; 0 when absent. */
  function Count(data: Json, url: string, field: string): int
    requires WellFormed(data)
  {
    var m := data.fields;
    if url in m && field in m[url].fields then m[url].fields[field].i else 0
  }

  /**
   * On a well-formed document an increment never raises, keeps the document
   * well-formed, raises exactly the one counter by 1 (an unseen URL starting
   * from 0), and leaves the URL's other counter and every other URL unchanged.
   */
  lemma BumpedCounts(data: Json, url: string, field: string)
    requires WellFormed(data)
    ensures Bumped(data, url, field).Some?
    ensures WellFormed(Bumped(data, url, field).value)
    ensures Count(Bumped(data, url, field).value, url, field) == Count(data, url, field) + 1
    ensures forall u, f | u != url || f != field ::
      Count(Bumped(data, url, field).value, u, f) == Count(data, u, f)
  {
    var m := data.fields;
    var e := if url in m then m[url].fields else map["requests" := JInt(0), "api_fetches" := JInt(0)];
    assert Get(e, field, JInt(0)).JInt?;
    var d' := Bumped(data, url, field).value;
    assert d'.fields == m[url := JObj(e[field := JInt(Get(e, field, JInt(0)).i + 1)])];
  }

  /** One recorded event: a façade call, or a call that actually reached the remote. */
  datatype Event = Request(url: string) | ApiFetch(url: string)

  /** The stats document after a sequence of increments (stopping at the first one that raises). */
  function Replay(data: Json, events: seq<Event>): Json
    decreases |events|
  {
    if events == [] then data
    else
      var e := events[|events| - 1];
      var before := Replay(data, events[..|events| - 1]);
      match e
      case Request(u) => (match Bumped(before, u, "requests") case Some(d) => d case None => before)
      case ApiFetch(u) => (match Bumped(before, u, "api_fetches") case Some(d) => d case None => before)
  }

  /** How many events in `events` are `e`. */
  function Occurrences(events: seq<Event>, e: Event): nat
    decreases |events|
  {
    if events == [] then 0
    else Occurrences(events[..|events| - 1], e) + (if events[|events| - 1] == e then 1 else 0)
  }

  /**
   * Stats monotonicity: starting from a missing or unparsable stats file,
   * after `n` calls for a URL of which `k` reached the remote the URL's record
   * reads `requests == n`, `api_fetches == k`.
   */
  lemma {:induction false} ReplayCounts(events: seq<Event>)
    ensures WellFormed(Replay(JObj(map[]), events))
    ensures forall u ::
      && Count(Replay(JObj(map[]), events), u, "requests") == Occurrences(events, Request(u))
      && Count(Replay(JObj(map[]), events), u, "api_fetches") == Occurrences(events, ApiFetch(u))
    decreases |events|
  {
    if events != [] {
      var init := events[..|events| - 1];
      ReplayCounts(init);
      var before := Replay(JObj(map[]), init);
      match events[|events| - 1]
      case Request(url) => BumpedCounts(before, url, "requests");
      case ApiFetch(url) => BumpedCounts(before, url, "api_fetches");
    }
  }

  class StatsTracker {
    /** `_data`. */
    var data: Json
    /** The stats file. */
    var file: StatsFile

    /** `StatsTracker(cache_dir)`: loads the stats file once. */
    constructor (file: StatsFile)
      ensures this.file == file
      ensures data == Loaded(file)
    {
      this.file := file;
      data := Loaded(file);
    }

    /** `_save`: rewrites the whole file; a failed write (`saveOk` false) is swallowed. */
    method Save(saveOk: bool)
      modifies this`file
      ensures file == if saveOk then Stored(data) else old(file)
    {
      if saveOk {
        file := Stored(data);
      }
    }

    /**
     * `increment_request(url)`; `raised` reports the exception Python would
     * raise on a malformed `_data`, in which case nothing changes.
     */
    method IncrementRequest(url: string, saveOk: bool) returns (raised: bool)
      modifies this
      ensures raised <==> Bumped(old(data), url, "requests").None?
      ensures data == if raised then old(data) else Bumped(old(data), url, "requests").value
      ensures file == if raised || !saveOk then old(file) else Stored(data)
    {
      raised := Increment(url, "requests", saveOk);
    }

    /** `increment_api_fetch(url)`, with the same contract for "api_fetches". */
    method IncrementApiFetch(url: string, saveOk: bool) returns (raised: bool)
      modifies this
      ensures raised <==> Bumped(old(data), url, "api_fetches").None?
      ensures data == if raised then old(data) else Bumped(old(data), url, "api_fetches").value
      ensures file == if raised || !saveOk then old(file) else Stored(data)
    {
      raised := Increment(url, "api_fetches", saveOk);
    }

    /** The body both increment methods share: read the entry, bump one field, store it, save. */
    method Increment(url: string, field: string, saveOk: bool) returns (raised: bool)
      modifies this
      ensures raised <==> Bumped(old(data), url, field).None?
      ensures data == if raised then old(data) else Bumped(old(data), url, field).value
      ensures file == if raised || !saveOk then old(file) else Stored(data)
    {
      if !data.JObj? {
        return true;
      }
      var m := data.fields;
      var entry := if url in m then m[url] else JObj(map["requests" := JInt(0), "api_fetches" := JInt(0)]);
      if !entry.JObj? {
        return true;
      }
      var next := Incremented(Get(entry.fields, field, JInt(0)));
      if next.None? {
        return true;
      }
      data := JObj(m[url := JObj(entry.fields[field := next.value])]);
      raised := false;
      Save(saveOk);
    }
  }
}
