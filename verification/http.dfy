/**
 * The part of the Fetch Standard the worker observes: requests reduced to the fields
 * it reads, responses as immutable snapshots, and the outcome of one network attempt.
 */
module Http {
  import opened Options
  import opened Strings

  /**
   * An intercepted request. `verb` is the HTTP method, `url` its identity in the cache store; `hostname` is
   * the host part of `url` and `accept` the value of its `Accept` header, if any.
   */
  datatype Request = Request(verb: string, url: string, hostname: string, accept: Option<string>)

  /** A response snapshot: status line, content type and body. */
  datatype Response = Response(status: int, statusText: string, contentType: string, body: string)

  /** What one `fetch` gives: the server's answer, whatever its status, or a network error. */
  datatype NetworkOutcome = Answered(response: Response) | Failed

  /** The "ok status" of the Fetch Standard: a status in the range 200 to 299. */
  predicate IsOk(status: int)
  {
    200 <= status <= 299
  }

  /** The request declares, through its Accept header, that it takes an HTML document. */
  function AcceptsHtml(req: Request): (accepts: bool)
    ensures accepts <==> req.accept.Some? && Occurs(req.accept.value, "text/html")
  {
    req.accept.Some? && Includes(req.accept.value, "text/html")
  }

  /**
   * Resolves a path relative to the worker's own directory URL `base` (which ends in
   * "/"): "./x" and "x" both name `base` followed by "x".
   */
  function ResolveRelative(base: string, path: string): (url: string)
    ensures StartsWith(url, base)
    ensures !StartsWith(path, "./") ==> url == base + path
    ensures StartsWith(path, "./") ==> url == base + path[2..]
  {
    if StartsWith(path, "./") then base + path[2..] else base + path
  }

  /** A leading "./" does not change the URL a relative path names. */
  lemma DotSlashNamesSameUrl(base: string, path: string)
    requires !StartsWith(path, "./")
    ensures ResolveRelative(base, "./" + path) == ResolveRelative(base, path)
  {
    assert ("./" + path)[2..] == path;
  }
}
