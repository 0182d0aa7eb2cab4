/**
 * `FPLUtils.fetch_url_cached`: serve a JSON document from the cache
 * directory when the cache file was modified fewer than `cache_expiry_days`
 * calendar days ago, otherwise fetch it, write it through to the cache and
 * return it.
 *
 * The disk is the map `files` from path to file, the clock is `World.now`
 * (seconds, local time) and the remote is `World.remote`.
 */
module FplUtils {
  import opened Wrappers
  import opened PyJson
  import opened Http

  /** A JSON cache file: its decoded content (None when it cannot be read or decoded) and its mtime in seconds. */
  datatype JsonFile = JsonFile(content: Option<Json>, mtime: int)

  /** What the body of a 200 response turns into under `json.loads(body.decode('utf-8'))`. */
  datatype JsonBody =
    | NotUtf8(detail: string)
    | NotJson(detail: string)
    | Doc(doc: Json)

  /**
   * Everything outside the process that one call depends on: the clock, the
   * remote, and whether opening the cache file for writing fails (with the
   * error's text).
   */
  datatype World = World(now: int, remote: Remote<JsonBody>, writeError: Option<string>)

  const SecondsPerDay := 86400

  /** `os.path.join(dir, name)` for a relative `name`. */
  function JoinPrefix(dir: string): string {
    if dir == [] || dir[|dir| - 1] == '/' then dir else dir + "/"
  }

  /** `cache_dir/fpl_cache_{cache_key}.json`. */
  function CachePath(dir: string, key: string): string {
    JoinPrefix(dir) + "fpl_cache_" + key + ".json"
  }

  /** Distinct cache keys never share a cache file. */
  lemma CachePathInjective(dir: string, key1: string, key2: string)
    requires CachePath(dir, key1) == CachePath(dir, key2)
    ensures key1 == key2
  {
    AffixCancel(JoinPrefix(dir) + "fpl_cache_", key1, key2, ".json");
  }

  /** The calendar day of a timestamp, as `date.fromtimestamp` computes it. */
  function Day(t: int): int {
    t / SecondsPerDay
  }

  /** `(date.today() - file_mod_date).days < cache_expiry_days`. */
  predicate FreshByDays(mtime: int, now: int, expiryDays: int) {
    Day(now) - Day(mtime) < expiryDays
  }

  /** The cache file is used: no forced refresh, it exists, it is fresh and it decodes. */
  predicate CacheServes(files: map<string, JsonFile>, path: string, force: bool, now: int, expiryDays: int) {
    && !force
    && path in files
    && FreshByDays(files[path].mtime, now, expiryDays)
    && files[path].content.Some?
  }

  /**
   * The fetch path (lines 48-66). `HTTPError` is a subclass of `URLError`, so a
   * non-200 status is caught by the first clause: for a status outside
   * 200-299 `urlopen` raises it with the reason phrase as its reason, for
   * another 2xx status line 51 raises it with the text it builds. An
   * exception urllib does not wrap, and a failed cache write (inside the
   * `try`), are caught by the catch-all.
   */
  function RemoteOutcome(url: string, key: string, w: World): Result<Json, FetchError> {
    match w.remote
    case Unreachable(reason) => Failure(NetworkError(key, url, reason))
    case Broken(detail) => Failure(UnexpectedError(key, url, detail))
    case Responded(code, phrase, body) =>
      if !(200 <= code < 300) then Failure(NetworkError(key, url, phrase))
      else if code != 200 then
        Failure(NetworkError(key, url, "HTTP Error " + IntToString(code) + ": " + phrase))
      else
        match body
        case NotUtf8(detail) => Failure(UnexpectedError(key, url, detail))
        case NotJson(detail) => Failure(ParsingError(key, url, detail))
        case Doc(doc) =>
          match w.writeError
          case Some(e) => Failure(UnexpectedError(key, url, e))
          case None => Success(doc)
  }

  /** The value `fetch_url_cached` returns or the error it raises. */
  function FetchOutcome(files: map<string, JsonFile>, dir: string, expiryDays: int,
                        url: string, key: string, force: bool, w: World): Result<Json, FetchError>
  {
    var path := CachePath(dir, key);
    if CacheServes(files, path, force, w.now, expiryDays) then Success(files[path].content.value)
    else RemoteOutcome(url, key, w)
  }

  /** The disk after the call: only a successful fetch rewrites the cache file, stamped `now`. */
  function DiskAfter(files: map<string, JsonFile>, dir: string, expiryDays: int,
                     url: string, key: string, force: bool, w: World): map<string, JsonFile>
  {
    var path := CachePath(dir, key);
    if !CacheServes(files, path, force, w.now, expiryDays) && RemoteOutcome(url, key, w).Success? then
      files[path := JsonFile(Some(RemoteOutcome(url, key, w).value), w.now)]
    else files
  }

  class FplUtils {
    const cacheDir: string
    const cacheExpiryDays: int
    /** The cache directory's files, by path. */
    var files: map<string, JsonFile>

    /** `FPLUtils(cache_dir, cache_expiry_days)` over an existing directory. */
    constructor (cacheDir: string, cacheExpiryDays: int, disk: map<string, JsonFile>)
      ensures this.cacheDir == cacheDir && this.cacheExpiryDays == cacheExpiryDays
      ensures files == disk
    {
      this.cacheDir := cacheDir;
      this.cacheExpiryDays := cacheExpiryDays;
      files := disk;
    }

    method FetchUrlCached(url: string, cacheKey: string, forceRefresh: bool, w: World)
      returns (r: Result<Json, FetchError>)
      modifies this
      ensures r == FetchOutcome(old(files), cacheDir, cacheExpiryDays, url, cacheKey, forceRefresh, w)
      ensures files == DiskAfter(old(files), cacheDir, cacheExpiryDays, url, cacheKey, forceRefresh, w)
    {
      var path := CachePath(cacheDir, cacheKey);
      if !forceRefresh && path in files {
        var file := files[path];
        if Day(w.now) - Day(file.mtime) < cacheExpiryDays {
          if file.content.Some? {
            return Success(file.content.value);
          }
          // A corrupt or unreadable cache file falls through to the fetch.
        }
      }
      match w.remote {
        case Unreachable(reason) =>
          r := Failure(NetworkError(cacheKey, url, reason));
        case Broken(detail) =>
          r := Failure(UnexpectedError(cacheKey, url, detail));
        case Responded(code, phrase, body) =>
          if !(200 <= code < 300) {
            // urlopen raises HTTPError, caught by the URLError clause.
            r := Failure(NetworkError(cacheKey, url, phrase));
          } else if code != 200 {
            // The HTTPError raised here is caught by the URLError clause too.
            r := Failure(NetworkError(cacheKey, url, "HTTP Error " + IntToString(code) + ": " + phrase));
          } else {
            match body {
              case NotUtf8(detail) =>
                r := Failure(UnexpectedError(cacheKey, url, detail));
              case NotJson(detail) =>
                r := Failure(ParsingError(cacheKey, url, detail));
              case Doc(doc) =>
                if w.writeError.Some? {
                  r := Failure(UnexpectedError(cacheKey, url, w.writeError.value));
                } else {
                  files := files[path := JsonFile(Some(doc), w.now)];
                  r := Success(doc);
                }
            }
          }
      }
    }
  }

  /** A forced refresh never reads the cache: the remote alone decides the outcome. */
  lemma ForceRefreshBypassesCache(files: map<string, JsonFile>, dir: string, expiryDays: int,
                                  url: string, key: string, w: World)
    ensures FetchOutcome(files, dir, expiryDays, url, key, true, w) == RemoteOutcome(url, key, w)
  {
  }

  /**
   * The result is the cached document exactly when the cache serves, and the
   * remote's outcome otherwise; a corrupt or unreadable cache file is a miss,
   * never an error.
   */
  lemma CorruptCacheIsAMiss(files: map<string, JsonFile>, dir: string, expiryDays: int,
                            url: string, key: string, force: bool, w: World)
    requires CachePath(dir, key) in files && files[CachePath(dir, key)].content.None?
    ensures FetchOutcome(files, dir, expiryDays, url, key, force, w) == RemoteOutcome(url, key, w)
    ensures DiskAfter(files, dir, expiryDays, url, key, force, w) ==
      if RemoteOutcome(url, key, w).Success? then
        files[CachePath(dir, key) := JsonFile(Some(RemoteOutcome(url, key, w).value), w.now)]
      else files
  {
  }

  /**
   * With the default expiry of one day, a cache file is fresh exactly when its
   * modification date is today (or later): the age counts calendar days, not
   * elapsed time.
   */
  lemma DefaultExpiryMeansSameDay(mtime: int, now: int)
    ensures FreshByDays(mtime, now, 1) <==> Day(mtime) >= Day(now)
  {
  }

  /** A file written one second before midnight is stale one second after it. */
  lemma DayGranularityBoundary(d: int)
    ensures !FreshByDays(d * SecondsPerDay - 1, d * SecondsPerDay, 1)
    ensures FreshByDays(d * SecondsPerDay, d * SecondsPerDay + SecondsPerDay - 1, 1)
  {
    assert Day(d * SecondsPerDay - 1) == d - 1;
    assert Day(d * SecondsPerDay) == d;
    assert Day(d * SecondsPerDay + SecondsPerDay - 1) == d;
  }

  /**
   * Error classification: transport failures and every non-200 status give
   * "Network Error" (with the bare reason phrase for a status outside
   * 200-299), an undecodable body "Data Parsing Error", an exception urllib
   * does not wrap, a non-UTF-8 body or a failed cache write "An unexpected
   * error occurred". The "API Error" clause is unreachable.
   */
  lemma ErrorClassification(url: string, key: string, w: World)
    ensures var r := RemoteOutcome(url, key, w);
      && (r.Failure? && r.error.NetworkError? <==> w.remote.Unreachable? || (w.remote.Responded? && w.remote.code != 200))
      && (w.remote.Rejected() ==> r == Failure(NetworkError(key, url, w.remote.phrase)))
      && (r.Failure? && r.error.ParsingError? <==> w.remote.Responded? && w.remote.code == 200 && w.remote.body.NotJson?)
      && (r.Failure? && r.error.UnexpectedError? <==>
            || w.remote.Broken?
            || (w.remote.Responded? && w.remote.code == 200 &&
                (w.remote.body.NotUtf8? || (w.remote.body.Doc? && w.writeError.Some?))))
      && (r.Success? <==> w.remote.Responded? && w.remote.code == 200 && w.remote.body.Doc? && w.writeError.None?)
      && !(r.Failure? && r.error.ApiError?)
      && (r.Failure? ==> r.error.key == key && r.error.url == url)
  {
  }

  /** Every network failure's message starts with "Network Error fetching {cache_key} from {url}". */
  lemma NetworkErrorMessage(url: string, key: string, w: World)
    requires w.remote.Unreachable? || (w.remote.Responded? && w.remote.code != 200)
    ensures var m := RemoteOutcome(url, key, w).error.Message();
      "Network Error fetching " + key + " from " + url <= m
  {
  }

  /**
   * Write-through round trip: after a fetch that succeeded, a call on the same
   * calendar day without a forced refresh returns the same document, whatever
   * the remote would now do, and leaves the disk alone.
   */
  lemma {:induction false} FetchedDocumentIsServedSameDay(
    files: map<string, JsonFile>, dir: string, expiryDays: int,
    url: string, key: string, force: bool, w: World, w2: World)
    requires expiryDays >= 1
    requires FetchOutcome(files, dir, expiryDays, url, key, force, w).Success?
    requires !CacheServes(files, CachePath(dir, key), force, w.now, expiryDays)
    requires Day(w2.now) == Day(w.now)
    ensures var files2 := DiskAfter(files, dir, expiryDays, url, key, force, w);
      && FetchOutcome(files2, dir, expiryDays, url, key, false, w2) == FetchOutcome(files, dir, expiryDays, url, key, force, w)
      && DiskAfter(files2, dir, expiryDays, url, key, false, w2) == files2
  {
    var path := CachePath(dir, key);
    var files2 := DiskAfter(files, dir, expiryDays, url, key, force, w);
    assert files2[path] == JsonFile(Some(RemoteOutcome(url, key, w).value), w.now);
    assert CacheServes(files2, path, false, w2.now, expiryDays);
  }
}
