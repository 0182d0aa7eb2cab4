/**
 * `LiveFPLUtils.fetch_prices_cached`: count the request, serve the prices
 * page from the HTML cache when the cache file is younger than
 * `cache_expiry_hours`, otherwise fetch it, write it through (a failed write
 * is ignored), count the remote read, and parse the page.
 */
module LiveFplUtils {
  import opened Wrappers
  import opened PyJson
  import opened Http
  import opened FplUtils
  import opened PriceParser
  import ST = StatsTracker

  /** An HTML cache file: its text (None when it cannot be read) and its mtime in seconds. */
  datatype HtmlFile = HtmlFile(content: Option<string>, mtime: int)

  /**
   * What one call depends on outside the process: the clock, the remote (its
   * body already decoded, undecodable bytes dropped), and whether the cache
   * file and the stats file can be written.
   */
  datatype LiveWorld = LiveWorld(now: int, remote: Remote<string>, cacheWritable: bool, statsWritable: bool)

  const SecondsPerHour := 3600

  /** `cache_dir/fpl_cache_{cache_key}.html`. */
  function HtmlCachePath(dir: string, key: string): string {
    JoinPrefix(dir) + "fpl_cache_" + key + ".html"
  }

  lemma HtmlCachePathInjective(dir: string, key1: string, key2: string)
    requires HtmlCachePath(dir, key1) == HtmlCachePath(dir, key2)
    ensures key1 == key2
  {
    AffixCancel(JoinPrefix(dir) + "fpl_cache_", key1, key2, ".html");
  }

  /** `age_seconds < cache_expiry_hours * 3600`. */
  predicate FreshByHours(mtime: int, now: int, expiryHours: int) {
    now - mtime < expiryHours * SecondsPerHour
  }

  /** The cached page is parsed and returned: no forced refresh, the file exists, is fresh and reads. */
  predicate HtmlCacheServes(files: map<string, HtmlFile>, path: string, force: bool, now: int, expiryHours: int) {
    && !force
    && path in files
    && FreshByHours(files[path].mtime, now, expiryHours)
    && files[path].content.Some?
  }

  /** The remote was read: the cache did not serve and the response was a 200. */
  predicate RemoteRead(files: map<string, HtmlFile>, dir: string, expiryHours: int,
                       key: string, force: bool, w: LiveWorld)
  {
    && !HtmlCacheServes(files, HtmlCachePath(dir, key), force, w.now, expiryHours)
    && w.remote.Responded?
    && w.remote.code == 200
  }

  /**
   * What `f.read()` of a text-mode file returns for the text `s` on disk:
   * universal newlines turn every `\r\n` and every lone `\r` into `\n`.
   */
  function ReadText(s: string): string
    decreases |s|
  {
    if s == [] then []
    else if s[0] == '\r' then "\n" + ReadText(if |s| > 1 && s[1] == '\n' then s[2..] else s[1..])
    else [s[0]] + ReadText(s[1..])
  }

  /** The parsed records `fetch_prices_cached` returns, or the error it raises. */
  function PricesOutcome(files: map<string, HtmlFile>, dir: string, expiryHours: int,
                         url: string, key: string, force: bool, w: LiveWorld): Result<seq<PriceRecord>, FetchError>
  {
    var path := HtmlCachePath(dir, key);
    if HtmlCacheServes(files, path, force, w.now, expiryHours) then
      Success(Dedup(Candidates(ReadText(files[path].content.value))))
    else
      match w.remote
      case Unreachable(reason) => Failure(NetworkError(key, url, reason))
      case Broken(detail) => Failure(UnexpectedError(key, url, detail))
      case Responded(code, phrase, html) =>
        if !(200 <= code < 300) then Failure(NetworkError(key, url, phrase))
        else if code != 200 then Failure(NetworkError(key, url, "HTTP Error " + IntToString(code)))
        else Success(Dedup(Candidates(html)))
  }

  /** The cache directory after the call: a remote read is written through when the file is writable. */
  function HtmlDiskAfter(files: map<string, HtmlFile>, dir: string, expiryHours: int,
                         key: string, force: bool, w: LiveWorld): map<string, HtmlFile>
  {
    if RemoteRead(files, dir, expiryHours, key, force, w) && w.cacheWritable then
      files[HtmlCachePath(dir, key) := HtmlFile(Some(w.remote.body), w.now)]
    else files
  }

  /** The stats document after one increment whose exception is swallowed. */
  function BumpOrKeep(data: Json, url: string, field: string): Json {
    match ST.Bumped(data, url, field)
    case Some(d) => d
    case None => data
  }

  /** `_data` after the call: the request is always counted, the api fetch only after a remote read. */
  function StatsAfter(data: Json, url: string, fetched: bool): Json {
    var counted := BumpOrKeep(data, url, "requests");
    if fetched then BumpOrKeep(counted, url, "api_fetches") else counted
  }

  /** Whether some increment of the call reached `_save`. */
  predicate StatsSaved(data: Json, url: string, fetched: bool) {
    || ST.Bumped(data, url, "requests").Some?
    || (fetched && ST.Bumped(BumpOrKeep(data, url, "requests"), url, "api_fetches").Some?)
  }

  class LiveFplUtils {
    const cacheDir: string
    const cacheExpiryHours: int
    /** The cache directory's HTML files, by path. */
    var files: map<string, HtmlFile>
    const stats: ST.StatsTracker

    /** `LiveFPLUtils(cache_dir, cache_expiry_hours)` over an existing directory and stats file. */
    constructor (cacheDir: string, cacheExpiryHours: int, disk: map<string, HtmlFile>, statsFile: ST.StatsFile)
      ensures this.cacheDir == cacheDir && this.cacheExpiryHours == cacheExpiryHours
      ensures files == disk
      ensures fresh(stats) && stats.file == statsFile && stats.data == ST.Loaded(statsFile)
    {
      this.cacheDir := cacheDir;
      this.cacheExpiryHours := cacheExpiryHours;
      files := disk;
      stats := new ST.StatsTracker(statsFile);
    }

    method FetchPricesCached(url: string, cacheKey: string, forceRefresh: bool, w: LiveWorld)
      returns (r: Result<seq<PriceRecord>, FetchError>)
      modifies this, stats
      ensures r == PricesOutcome(old(files), cacheDir, cacheExpiryHours, url, cacheKey, forceRefresh, w)
      ensures files == HtmlDiskAfter(old(files), cacheDir, cacheExpiryHours, cacheKey, forceRefresh, w)
      ensures var fetched := RemoteRead(old(files), cacheDir, cacheExpiryHours, cacheKey, forceRefresh, w);
        && stats.data == StatsAfter(old(stats.data), url, fetched)
        && stats.file == if w.statsWritable && StatsSaved(old(stats.data), url, fetched)
                         then ST.Stored(stats.data) else old(stats.file)
    {
      var path := HtmlCachePath(cacheDir, cacheKey);
      var _ := stats.IncrementRequest(url, w.statsWritable);
      if !forceRefresh && path in files {
        var file := files[path];
        if w.now - file.mtime < cacheExpiryHours * SecondsPerHour {
          if file.content.Some? {
            var players := ParsePricesHtml(ReadText(file.content.value));
            return Success(players);
          }
          // An unreadable cache file falls through to the fetch.
        }
      }
      match w.remote {
        case Unreachable(reason) =>
          r := Failure(NetworkError(cacheKey, url, reason));
        case Broken(detail) =>
          r := Failure(UnexpectedError(cacheKey, url, detail));
        case Responded(code, phrase, html) =>
          if !(200 <= code < 300) {
            // urlopen raises HTTPError, caught by the URLError clause.
            r := Failure(NetworkError(cacheKey, url, phrase));
          } else if code != 200 {
            // The HTTPError raised here is caught by the URLError clause too.
            r := Failure(NetworkError(cacheKey, url, "HTTP Error " + IntToString(code)));
          } else {
            if w.cacheWritable {
              files := files[path := HtmlFile(Some(html), w.now)];
            }
            var _ := stats.IncrementApiFetch(url, w.statsWritable);
            var players := ParsePricesHtml(html);
            r := Success(players);
          }
      }
    }
  }

  /**
   * On a well-formed stats document every call raises the URL's `requests`
   * by exactly 1, raises its `api_fetches` by 1 exactly when the remote was
   * read, and touches no other counter.
   */
  lemma CallCounts(data: Json, url: string, fetched: bool)
    requires ST.WellFormed(data)
    ensures ST.WellFormed(StatsAfter(data, url, fetched))
    ensures ST.Count(StatsAfter(data, url, fetched), url, "requests") == ST.Count(data, url, "requests") + 1
    ensures ST.Count(StatsAfter(data, url, fetched), url, "api_fetches") ==
      ST.Count(data, url, "api_fetches") + (if fetched then 1 else 0)
    ensures forall u, f | u != url || (f != "requests" && f != "api_fetches") ::
      ST.Count(StatsAfter(data, url, fetched), u, f) == ST.Count(data, u, f)
  {
    ST.BumpedCounts(data, url, "requests");
    var counted := BumpOrKeep(data, url, "requests");
    if fetched {
      ST.BumpedCounts(counted, url, "api_fetches");
    }
  }

  /**
   * Failures: the call fails only when the cache did not serve and the remote
   * did not answer with a 200. An unreachable remote or another status gives
   * "Network Error fetching {cache_key} from {url}" (with the bare reason
   * phrase for a status outside 200-299); an exception urllib does not wrap
   * gives "An unexpected error occurred during {cache_key} fetch from {url}".
   */
  lemma PricesErrorClassification(files: map<string, HtmlFile>, dir: string, expiryHours: int,
                                  url: string, key: string, force: bool, w: LiveWorld)
    ensures var r := PricesOutcome(files, dir, expiryHours, url, key, force, w);
      var missed := !HtmlCacheServes(files, HtmlCachePath(dir, key), force, w.now, expiryHours);
      && (r.Failure? <==> missed && !(w.remote.Responded? && w.remote.code == 200))
      && (r.Failure? && r.error.NetworkError? <==>
            missed && (w.remote.Unreachable? || (w.remote.Responded? && w.remote.code != 200)))
      && (r.Failure? && r.error.UnexpectedError? <==> missed && w.remote.Broken?)
      && (missed && w.remote.Rejected() ==> r == Failure(NetworkError(key, url, w.remote.phrase)))
      && (r.Failure? ==> r.error.key == key && r.error.url == url)
      && (r.Failure? && r.error.NetworkError? ==> "Network Error fetching " + key + " from " + url <= r.error.Message())
      && (r.Failure? && r.error.UnexpectedError? ==>
            "An unexpected error occurred during " + key + " fetch from " + url <= r.error.Message())
  {
  }

  /**
   * A cache file that cannot be written changes nothing but the disk: the
   * result and the stats are those of a writable cache.
   */
  lemma CacheWriteFailureIgnored(files: map<string, HtmlFile>, dir: string, expiryHours: int,
                                 url: string, key: string, force: bool, w: LiveWorld)
    ensures var w' := w.(cacheWritable := false);
      && PricesOutcome(files, dir, expiryHours, url, key, force, w') ==
         PricesOutcome(files, dir, expiryHours, url, key, force, w.(cacheWritable := true))
      && HtmlDiskAfter(files, dir, expiryHours, key, force, w') == files
      && RemoteRead(files, dir, expiryHours, key, force, w') ==
         RemoteRead(files, dir, expiryHours, key, force, w.(cacheWritable := true))
  {
  }

  /** The text read back never holds a carriage return. */
  lemma {:induction false} ReadTextHasNoCr(s: string)
    ensures '\r' !in ReadText(s)
    decreases |s|
  {
    if s != [] {
      if s[0] == '\r' {
        ReadTextHasNoCr(if |s| > 1 && s[1] == '\n' then s[2..] else s[1..]);
      } else {
        ReadTextHasNoCr(s[1..]);
      }
    }
  }

  /** A cache file reads back as written exactly when the text has no carriage return. */
  lemma {:induction false} ReadTextIdentity(s: string)
    ensures ReadText(s) == s <==> '\r' !in s
    decreases |s|
  {
    ReadTextHasNoCr(s);
    if s != [] && '\r' !in s {
      assert '\r' !in s[1..];
      ReadTextIdentity(s[1..]);
      assert s == [s[0]] + s[1..];
    }
  }

  /**
   * Write-through round trip: after a remote read into a writable cache, a
   * later call within the expiry window and without a forced refresh does not
   * read the remote, leaves the disk alone and parses the page as read back in
   * text mode; for a page without a carriage return these are the same
   * records the fetch returned.
   */
  lemma {:induction false} FetchedPageIsServedWithinExpiry(
    files: map<string, HtmlFile>, dir: string, expiryHours: int,
    url: string, key: string, force: bool, w: LiveWorld, w2: LiveWorld)
    requires RemoteRead(files, dir, expiryHours, key, force, w) && w.cacheWritable
    requires w.now <= w2.now < w.now + expiryHours * SecondsPerHour
    ensures var files2 := HtmlDiskAfter(files, dir, expiryHours, key, force, w);
      && PricesOutcome(files2, dir, expiryHours, url, key, false, w2) == Success(Dedup(Candidates(ReadText(w.remote.body))))
      && ('\r' !in w.remote.body ==>
            PricesOutcome(files2, dir, expiryHours, url, key, false, w2) ==
            PricesOutcome(files, dir, expiryHours, url, key, force, w))
      && !RemoteRead(files2, dir, expiryHours, key, false, w2)
      && HtmlDiskAfter(files2, dir, expiryHours, key, false, w2) == files2
  {
    var path := HtmlCachePath(dir, key);
    var files2 := HtmlDiskAfter(files, dir, expiryHours, key, force, w);
    assert files2[path] == HtmlFile(Some(w.remote.body), w.now);
    assert HtmlCacheServes(files2, path, false, w2.now, expiryHours);
    ReadTextIdentity(w.remote.body);
  }
}
