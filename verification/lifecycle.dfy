/**
 * The install and activate handlers (sw.js, lines 28-72): pre-caching the static
 * asset manifest into the current version's cache, and deleting every other cache.
 */
module Lifecycle {
  import opened Options
  import opened Strings
  import opened Http
  import opened CacheStorage
  import opened Config
  import Seqs

  /** An asset is fetched at install time unless it is an absolute `http…` URL. */
  predicate IsPrecached(asset: string)
  {
    !StartsWith(asset, "http")
  }

  /** The manifest entries `cache.addAll` receives, in manifest order. */
  function PrecacheList(assets: seq<string>): (list: seq<string>)
    ensures forall a :: a in list <==> a in assets && !StartsWith(a, "http")
    ensures |list| <= |assets|
  {
    Seqs.Filter(assets, IsPrecached)
  }

  /** The configured manifest holds only relative paths, so all seven are pre-cached. */
  lemma PrecacheListKeepsConfiguredAssets()
    ensures PrecacheList(STATIC_ASSETS) == STATIC_ASSETS
    ensures |PrecacheList(STATIC_ASSETS)| == 7
  {
    forall i | 0 <= i < |STATIC_ASSETS|
      ensures IsPrecached(STATIC_ASSETS[i])
    {
      DotSlashIsNotHttp(STATIC_ASSETS[i]);
    }
  }

  /** A path starting with "./" is relative: it does not start with "http". */
  lemma DotSlashIsNotHttp(path: string)
    requires |path| >= 2 && path[0] == '.'
    ensures IsPrecached(path)
  {
    assert !StartsWith(path, "http") by {
      if |path| >= 4 {
        assert path[..4][0] == '.';
      }
    }
  }

  /** The URLs the manifest paths name, relative to the worker's directory `scope`. */
  function AssetUrls(scope: string, paths: seq<string>): (urls: seq<string>)
    ensures |urls| == |paths|
    ensures forall i :: 0 <= i < |paths| ==> urls[i] == ResolveRelative(scope, paths[i])
  {
    if paths == [] then [] else [ResolveRelative(scope, paths[0])] + AssetUrls(scope, paths[1..])
  }

  /** The URLs are exactly those the paths resolve to. */
  lemma AssetUrlsCover(scope: string, paths: seq<string>)
    ensures forall a :: a in paths ==> ResolveRelative(scope, a) in AssetUrls(scope, paths)
    ensures forall u :: u in AssetUrls(scope, paths) ==> exists a :: a in paths && u == ResolveRelative(scope, a)
  {
    var urls := AssetUrls(scope, paths);
    forall a | a in paths
      ensures ResolveRelative(scope, a) in urls
    {
      var i :| 0 <= i < |paths| && paths[i] == a;
      assert urls[i] == ResolveRelative(scope, a);
    }
    forall u | u in urls
      ensures exists a :: a in paths && u == ResolveRelative(scope, a)
    {
      var i :| 0 <= i < |urls| && urls[i] == u;
      assert paths[i] in paths;
    }
  }

  /** The URLs `cache.addAll` fetches at install time: exactly the pre-cached manifest entries, resolved. */
  function PrecacheUrls(scope: string): (urls: seq<string>)
    ensures forall a :: a in STATIC_ASSETS && !StartsWith(a, "http") ==> ResolveRelative(scope, a) in urls
    ensures forall u :: u in urls ==> exists a :: a in STATIC_ASSETS && !StartsWith(a, "http") && u == ResolveRelative(scope, a)
  {
    AssetUrlsCover(scope, PrecacheList(STATIC_ASSETS));
    AssetUrls(scope, PrecacheList(STATIC_ASSETS))
  }

  /** A fetch that `cache.addAll` accepts: the server answered with an ok status. */
  predicate AnsweredOk(outcome: NetworkOutcome)
  {
    outcome.Answered? && IsOk(outcome.response.status)
  }

  /**
   * The entries `cache.addAll` writes once every fetch succeeded: each URL gets the
   * response fetched for it; nothing else changes.
   */
  function PutAll(st: Storage, name: string, urls: seq<string>, fetch: string -> NetworkOutcome): (r: Storage)
    requires forall u :: u in urls ==> fetch(u).Answered?
    ensures forall u :: u in urls ==> Lookup(r, name, u) == Some(fetch(u).response)
    ensures forall n, u :: (n != name || u !in urls) ==> Lookup(r, n, u) == Lookup(st, n, u)
    ensures name in Names(st) ==> Names(r) == Names(st)
    ensures Valid(st) ==> Valid(r)
    decreases |urls|
  {
    if urls == [] then st
    else
      var last := urls[|urls| - 1];
      var before := PutAll(st, name, urls[..|urls| - 1], fetch);
      assert forall u :: u in urls <==> u in urls[..|urls| - 1] || u == last;
      Put(before, name, last, fetch(last).response)
  }

  /** The network answers every pre-cached manifest entry with an ok status. */
  predicate AssetsAnswerOk(scope: string, fetch: string -> NetworkOutcome)
  {
    forall a :: a in STATIC_ASSETS && !StartsWith(a, "http") ==> AnsweredOk(fetch(ResolveRelative(scope, a)))
  }

  /** The result of the install handler; the handler itself never fails. */
  datatype Installed = Installed(storage: Storage, skippedWaiting: bool)

  /**
   * The install handler for a worker whose directory URL is `scope`, with `fetch`
   * giving the network's outcome per URL. The cache `CACHE_NAME` is opened (created if
   * absent) first. `cache.addAll` is all-or-nothing: if every asset is answered with an
   * ok status, each is stored under its URL and `skipWaiting` is called; otherwise the
   * rejection is caught and logged, nothing is stored and `skipWaiting` is not called.
   */
  function Install(st: Storage, scope: string, fetch: string -> NetworkOutcome): (r: Installed)
    ensures CACHE_NAME in Names(r.storage)
    ensures Valid(st) ==> Valid(r.storage)
    ensures r.skippedWaiting <==> AssetsAnswerOk(scope, fetch)
    ensures r.skippedWaiting ==>
      forall a :: a in STATIC_ASSETS && !StartsWith(a, "http") ==>
        Lookup(r.storage, CACHE_NAME, ResolveRelative(scope, a)) == Some(fetch(ResolveRelative(scope, a)).response)
    ensures forall u ::
      (forall a :: a in STATIC_ASSETS && !StartsWith(a, "http") ==> u != ResolveRelative(scope, a)) ==>
        Lookup(r.storage, CACHE_NAME, u) == Lookup(st, CACHE_NAME, u)
    ensures !r.skippedWaiting ==> forall n, u :: Lookup(r.storage, n, u) == Lookup(st, n, u)
    ensures forall n, u :: n != CACHE_NAME ==> Lookup(r.storage, n, u) == Lookup(st, n, u)
    ensures Names(r.storage) == Names(Open(st, CACHE_NAME))
  {
    var cache := Open(st, CACHE_NAME);
    var urls := PrecacheUrls(scope);
    assert CACHE_NAME in Names(cache);
    if forall u :: u in urls ==> AnsweredOk(fetch(u)) then
      var filled := PutAll(cache, CACHE_NAME, urls, fetch);
      assert Names(filled) == Names(cache);
      Installed(filled, true)
    else
      Installed(cache, false)
  }

  /** A cache name the activate handler deletes: any name but the current version's. */
  predicate IsStale(name: string)
  {
    name != CACHE_NAME
  }

  /** Deletes the named caches one after the other. */
  function DeleteAll(st: Storage, names: seq<string>): (r: Storage)
    decreases |names|
    ensures forall n :: n in Names(r) <==> n in Names(st) && n !in names
    ensures forall n, u :: n !in names ==> Lookup(r, n, u) == Lookup(st, n, u)
    ensures Valid(st) ==> Valid(r)
  {
    if names == [] then st
    else
      var r := DeleteAll(Delete(st, names[0]), names[1..]);
      assert forall n :: n in names <==> n == names[0] || n in names[1..];
      r
  }

  /** The result of the activate handler: the storage left and the names it deleted. */
  datatype Activated = Activated(storage: Storage, deleted: seq<string>)

  /**
   * The activate handler: lists the cache names and deletes every one that differs
   * from `CACHE_NAME`. Exactly the stale names are deleted; afterwards no cache but the
   * current one exists, and the current cache's entries are untouched.
   */
  function Activate(st: Storage): (r: Activated)
    ensures forall n :: n in r.deleted <==> n in Names(st) && n != CACHE_NAME
    ensures forall n :: n in Names(r.storage) ==> n == CACHE_NAME
    ensures CACHE_NAME in Names(r.storage) <==> CACHE_NAME in Names(st)
    ensures forall u :: Lookup(r.storage, CACHE_NAME, u) == Lookup(st, CACHE_NAME, u)
    ensures Valid(st) ==> Valid(r.storage)
  {
    var stale := Seqs.Filter(Names(st), IsStale);
    Activated(DeleteAll(st, stale), stale)
  }

  /** Activating twice deletes nothing the second time and changes nothing. */
  lemma ActivateIdempotent(st: Storage)
    ensures Activate(Activate(st).storage).deleted == []
    ensures Activate(Activate(st).storage).storage == Activate(st).storage
  {
    var once := Activate(st).storage;
    assert forall i :: 0 <= i < |Names(once)| ==> !IsStale(Names(once)[i]) by {
      assert forall i :: 0 <= i < |Names(once)| ==> Names(once)[i] in Names(once);
    }
    assert Seqs.Filter(Names(once), IsStale) == [];
  }

  /**
   * Once activated, `caches.match` consults the current version's cache only: a stale
   * cache can no longer answer a request.
   */
  lemma ActivatedMatchIsCurrent(st: Storage, url: string)
    requires Valid(st)
    ensures Match(Activate(st).storage, url) == Lookup(st, CACHE_NAME, url)
  {
    MatchInSoleCache(Activate(st).storage, CACHE_NAME, url);
  }
}
