/**
 * The remote side of one `urllib.request.urlopen(url)` call, and the tagged
 * failures both cache utilities raise when the fetch path fails.
 */
module Http {
  import opened PyJson

  /**
   * What one GET produced, after urllib has followed any redirects: a
   * transport failure that urllib wraps in `URLError` (with its reason), an
   * exception it does not wrap (the connection dropped while `getresponse()`
   * or `read()` ran, with its text), or a response with its status code,
   * reason phrase and body.
   */
  datatype Remote<B> =
    | Unreachable(reason: string)
    | Broken(detail: string)
    | Responded(code: nat, phrase: string, body: B)
  {
    /** `urlopen` itself raises `HTTPError` for a status outside 200-299. */
    predicate Rejected() {
      Responded? && !(200 <= code < 300)
    }
  }

  /**
   * The four messages the `except` clauses can raise; every one names the
   * cache key and the URL.
   */
  datatype FetchError =
    | NetworkError(key: string, url: string, reason: string)
    | ApiError(key: string, url: string, code: nat, reason: string)
    | ParsingError(key: string, url: string, detail: string)
    | UnexpectedError(key: string, url: string, detail: string)
  {
    /** `str(e)` of the raised exception. */
    function Message(): string {
      match this
      case NetworkError(k, u, r) => "Network Error fetching " + k + " from " + u + ": " + r
      case ApiError(k, u, c, r) =>
        "API Error fetching " + k + " from " + u + ": Status " + IntToString(c) + ", Reason " + r
      case ParsingError(k, u, d) =>
        "Data Parsing Error fetching " + k + " from " + u + ": Failed to decode JSON. Error: " + d
      case UnexpectedError(k, u, d) => "An unexpected error occurred during " + k + " fetch from " + u + ": " + d
    }
  }

  /**
   * What a data accessor that calls `fetch_url_cached` raises: the fetch's
   * own error, or an exception of the code that shapes the payload (a
   * `.get` on a non-dict, a `/ 10.0` on None, ...), whose text is not
   * modelled.
   */
  datatype CallError = FetchFailed(error: FetchError) | Raised {
    /** `str(e)`. */
    function Text(): string {
      match this
      case FetchFailed(e) => e.Message()
      case Raised => "<exception text>"
    }
  }
}
