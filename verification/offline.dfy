/**
 * What install, activate and the network-first strategy guarantee together when the
 * network is gone: the assets fetched at install time keep being served, and a page
 * navigation that misses the cache falls back to the offline document.
 */
module Offline {
  import opened Options
  import opened Strings
  import opened Http
  import opened CacheStorage
  import opened Config
  import opened Lifecycle
  import opened Router

  /** The offline document is one of the pre-cached assets, under the same URL. */
  lemma OfflineDocumentIsPrecached(scope: string)
    ensures "./offline.html" in STATIC_ASSETS && !StartsWith("./offline.html", "http")
    ensures ResolveRelative(scope, "./offline.html") == OfflineUrl(scope)
  {
    assert STATIC_ASSETS[3] == "./offline.html";
    assert "./offline.html"[0] == '.';
    DotSlashNamesSameUrl(scope, OFFLINE_URL);
    assert "./" + OFFLINE_URL == "./offline.html";
  }

  /** The storage a successful install followed by activation leaves behind. */
  function InstalledAndActivated(st: Storage, scope: string, fetch: string -> NetworkOutcome): Storage
  {
    Activate(Install(st, scope, fetch).storage).storage
  }

  /** After a successful install and activation, `caches.match` finds every pre-cached asset. */
  lemma ServedAfterInstall(st: Storage, scope: string, fetch: string -> NetworkOutcome, asset: string)
    requires Valid(st)
    requires AssetsAnswerOk(scope, fetch)
    requires asset in STATIC_ASSETS && !StartsWith(asset, "http")
    ensures Match(InstalledAndActivated(st, scope, fetch), ResolveRelative(scope, asset)) == Some(fetch(ResolveRelative(scope, asset)).response)
  {
    var installed := Install(st, scope, fetch);
    var url := ResolveRelative(scope, asset);
    assert Lookup(installed.storage, CACHE_NAME, url) == Some(fetch(url).response);
    assert Valid(installed.storage);
    ActivatedMatchIsCurrent(installed.storage, url);
  }

  /**
   * After a successful install and activation, a pre-cached asset requested while the
   * network is down is answered with the response fetched for it at install time.
   */
  lemma PrecachedAssetServedOffline(st: Storage, scope: string, fetch: string -> NetworkOutcome,
                                    asset: string, req: Request)
    requires Valid(st)
    requires AssetsAnswerOk(scope, fetch)
    requires asset in STATIC_ASSETS && !StartsWith(asset, "http")
    requires req.url == ResolveRelative(scope, asset)
    ensures fetch(req.url) == Answered(NetworkFirst(req, Failed, InstalledAndActivated(st, scope, fetch), scope).response)
  {
    ServedAfterInstall(st, scope, fetch, asset);
    var active := InstalledAndActivated(st, scope, fetch);
    assert AnsweredOk(fetch(req.url));
    var routed := NetworkFirst(req, Failed, active, scope);
    assert routed.source == Cache;
    assert Some(routed.response) == Match(active, req.url);
  }

  /**
   * After a successful install and activation, an HTML request that the network and
   * the cache both fail is answered with the offline document fetched at install time.
   */
  lemma OfflineDocumentServedToPages(st: Storage, scope: string, fetch: string -> NetworkOutcome, req: Request)
    requires Valid(st)
    requires AssetsAnswerOk(scope, fetch)
    requires Match(InstalledAndActivated(st, scope, fetch), req.url).None?
    requires req.accept.Some? && Occurs(req.accept.value, "text/html")
    ensures var routed := NetworkFirst(req, Failed, InstalledAndActivated(st, scope, fetch), scope);
      routed.source == OfflinePage && fetch(OfflineUrl(scope)) == Answered(routed.response)
  {
    var offline := OfflineUrl(scope);
    OfflineDocumentIsPrecached(scope);
    ServedAfterInstall(st, scope, fetch, "./offline.html");
    var active := InstalledAndActivated(st, scope, fetch);
    assert AnsweredOk(fetch(offline));
    OfflineRung(req, active, scope, fetch(offline).response);
  }
}
