/**
 * The fetch handler and the network-first strategy (sw.js, lines 78-141), as decision
 * functions over an explicit network outcome and cache storage.
 */
module Router {
  import opened Options
  import opened Strings
  import opened Http
  import opened CacheStorage
  import opened Config

  /** Whether the fetch handler claims a request or lets the browser handle it. */
  datatype Decision = PassThrough | Intercept

  /**
   * A request is intercepted iff it is a `GET` and its hostname contains neither
   * Apps Script host name. The host test is a substring test, so a hostname that
   * merely embeds one of the names is passed through as well.
   */
  function Classify(req: Request): (d: Decision)
    ensures d == Intercept <==>
      req.verb == "GET" && !Occurs(req.hostname, SCRIPT_HOST) && !Occurs(req.hostname, SCRIPT_CONTENT_HOST)
  {
    if Includes(req.hostname, SCRIPT_HOST) || Includes(req.hostname, SCRIPT_CONTENT_HOST) then
      PassThrough
    else if req.verb != "GET" then
      PassThrough
    else
      Intercept
  }

  /** Any hostname that embeds the Apps Script host is passed through, not only the host itself. */
  lemma EmbeddedScriptHostPassesThrough(req: Request, before: string, after: string)
    requires req.hostname == before + SCRIPT_HOST + after
    ensures Classify(req) == PassThrough
  {
    assert req.hostname[|before|..|before| + |SCRIPT_HOST|] == SCRIPT_HOST;
    assert OccursAt(req.hostname, SCRIPT_HOST, |before|);
  }

  /** The rung of the fallback ladder that produced the response. */
  datatype Source = Network | Cache | OfflinePage | Unavailable

  /** What `networkFirst` gives back: the response, the storage after it, and its source. */
  datatype Routed = Routed(response: Response, storage: Storage, source: Source)

  /** The synthesized response of the last rung: 503, plain text. */
  const SERVICE_UNAVAILABLE: Response :=
    Response(503, "Service Unavailable", "text/plain; charset=utf-8", "오프라인 상태입니다.")

  /** The URL of the offline fallback document for a worker whose directory is `scope`. */
  function OfflineUrl(scope: string): string
  {
    ResolveRelative(scope, OFFLINE_URL)
  }

  /**
   * `networkFirst(request)` given the network's `outcome` and the cache storage `st`:
   *  1. the network answered: its response is returned whatever its status, and stored
   *     in `CACHE_NAME` under the request URL iff the status is ok;
   *  2. the network failed and some cache holds the URL: that entry is returned;
   *  3. otherwise, if the Accept header contains "text/html" and some cache holds the
   *     offline document: the offline document is returned;
   *  4. otherwise: the synthesized 503 response.
   * Only rung 1 writes to the storage.
   */
  function NetworkFirst(req: Request, outcome: NetworkOutcome, st: Storage, scope: string): (r: Routed)
    ensures r.source == Network <==> outcome.Answered?
    ensures outcome.Answered? ==> r.response == outcome.response
    ensures outcome.Answered? && IsOk(outcome.response.status) ==>
      && Lookup(r.storage, CACHE_NAME, req.url) == Some(outcome.response)
      && (forall n, u :: (n != CACHE_NAME || u != req.url) ==> Lookup(r.storage, n, u) == Lookup(st, n, u))
      && (Valid(st) ==> Valid(r.storage))
    ensures !(outcome.Answered? && IsOk(outcome.response.status)) ==> r.storage == st
    ensures r.source == Cache <==> outcome.Failed? && Match(st, req.url).Some?
    ensures r.source == Cache ==> Some(r.response) == Match(st, req.url)
    ensures r.source == OfflinePage <==>
      && outcome.Failed?
      && Match(st, req.url).None?
      && req.accept.Some? && Occurs(req.accept.value, "text/html")
      && Match(st, OfflineUrl(scope)).Some?
    ensures r.source == OfflinePage ==> Some(r.response) == Match(st, OfflineUrl(scope))
    ensures r.source == Unavailable ==> r.response == SERVICE_UNAVAILABLE
  {
    match outcome
    case Answered(response) =>
      if IsOk(response.status) then
        Routed(response, Put(st, CACHE_NAME, req.url, response), Network)
      else
        Routed(response, st, Network)
    case Failed =>
      match Match(st, req.url)
      case Some(cached) => Routed(cached, st, Cache)
      case None =>
        if AcceptsHtml(req) && Match(st, OfflineUrl(scope)).Some? then
          Routed(Match(st, OfflineUrl(scope)).value, st, OfflinePage)
        else
          Routed(SERVICE_UNAVAILABLE, st, Unavailable)
  }

  /** A request that is neither answered by the network nor cached and does not accept HTML gets the 503. */
  lemma NonHtmlMissIsUnavailable(req: Request, st: Storage, scope: string)
    requires Match(st, req.url).None?
    requires req.accept.None? || !Occurs(req.accept.value, "text/html")
    ensures NetworkFirst(req, Failed, st, scope).response == SERVICE_UNAVAILABLE
  {
  }

  /** The third rung of the ladder, on its own: a failed, uncached HTML request gets the cached offline document. */
  lemma OfflineRung(req: Request, st: Storage, scope: string, document: Response)
    requires Match(st, req.url).None?
    requires req.accept.Some? && Occurs(req.accept.value, "text/html")
    requires Match(st, OfflineUrl(scope)) == Some(document)
    ensures NetworkFirst(req, Failed, st, scope) == Routed(document, st, OfflinePage)
  {
    assert AcceptsHtml(req);
  }

  /** What the fetch handler does with one event. */
  datatype Handled = NotClaimed | Responded(routed: Routed)

  /**
   * The fetch handler: an excluded request is not claimed and leaves the storage
   * untouched; every other request is answered by `networkFirst`.
   */
  function OnFetch(req: Request, outcome: NetworkOutcome, st: Storage, scope: string): (h: Handled)
    ensures h.NotClaimed? <==>
      req.verb != "GET" || Occurs(req.hostname, SCRIPT_HOST) || Occurs(req.hostname, SCRIPT_CONTENT_HOST)
    ensures h.Responded? ==> h.routed == NetworkFirst(req, outcome, st, scope)
  {
    if Classify(req) == PassThrough then NotClaimed else Responded(NetworkFirst(req, outcome, st, scope))
  }
}
