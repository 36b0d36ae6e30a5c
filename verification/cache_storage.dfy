/**
 * The host's Cache Storage as the worker uses it: an ordered collection of named
 * caches, each a map from request URL to response snapshot. The order is creation
 * order; it decides which cache answers `caches.match` when several hold the URL.
 */
module CacheStorage {
  import opened Options
  import opened Http

  /** One named cache: request URL to stored response. */
  datatype NamedCache = NamedCache(name: string, entries: map<string, Response>)

  /** Every cache known to the worker's origin, oldest first. */
  datatype Storage = Empty | Cons(oldest: NamedCache, newer: Storage)

  /** `caches.keys()`: the cache names in creation order; every cache holding an entry is listed. */
  function Names(st: Storage): (names: seq<string>)
    ensures forall name, url :: Lookup(st, name, url).Some? ==> name in names
  {
    match st
    case Empty => []
    case Cons(c, rest) => [c.name] + Names(rest)
  }

  /** The host keeps cache names unique. */
  predicate Valid(st: Storage)
  {
    match st
    case Empty => true
    case Cons(c, rest) => c.name !in Names(rest) && Valid(rest)
  }

  /** What one cache holds for `url`. */
  function Entry(c: NamedCache, url: string): Option<Response>
  {
    if url in c.entries then Some(c.entries[url]) else None
  }

  /** What the cache called `name` holds for `url`; `None` if no such cache or entry. */
  function Lookup(st: Storage, name: string, url: string): Option<Response>
  {
    match st
    case Empty => None
    case Cons(c, rest) => if c.name == name then Entry(c, url) else Lookup(rest, name, url)
  }

  /**
   * The `i`-th cache listed by `caches.keys()` gives `r` for `url`, and no cache listed
   * before it holds `url`.
   */
  ghost predicate FirstHolder(st: Storage, url: string, i: int, r: Option<Response>)
  {
    && 0 <= i < |Names(st)|
    && Lookup(st, Names(st)[i], url) == r
    && forall j :: 0 <= j < i ==> Lookup(st, Names(st)[j], url).None?
  }

  /** A cache that misses `url`, put in front, moves the first holder one place back. */
  lemma FirstHolderBehindMiss(c: NamedCache, rest: Storage, url: string, i: int, r: Option<Response>)
    requires Valid(Cons(c, rest))
    requires url !in c.entries
    requires FirstHolder(rest, url, i, r)
    ensures FirstHolder(Cons(c, rest), url, i + 1, r)
  {
    var st := Cons(c, rest);
    assert Names(st)[i + 1] == Names(rest)[i] && Names(rest)[i] in Names(rest);
    forall j | 0 <= j < i + 1
      ensures Lookup(st, Names(st)[j], url).None?
    {
      if j > 0 {
        assert Names(st)[j] == Names(rest)[j - 1] && Names(rest)[j - 1] in Names(rest);
      }
    }
  }

  /**
   * `caches.match(url)`: the entry of the oldest cache that holds `url`. It is a miss
   * exactly when no named cache holds `url` (given unique names), and a hit is the entry
   * held by the cache listed first, in `caches.keys()` order, among those holding `url`.
   */
  function Match(st: Storage, url: string): (r: Option<Response>)
    ensures r.None? ==> forall name :: Lookup(st, name, url).None?
    ensures Valid(st) && (forall name :: Lookup(st, name, url).None?) ==> r.None?
    ensures Valid(st) && r.Some? ==> exists name :: name in Names(st) && Lookup(st, name, url) == r
    ensures Valid(st) && r.Some? ==> exists i :: FirstHolder(st, url, i, r)
  {
    match st
    case Empty => None
    case Cons(c, rest) =>
      if url in c.entries then
        assert Lookup(st, c.name, url) == Some(c.entries[url]);
        assert FirstHolder(st, url, 0, Some(c.entries[url]));
        Some(c.entries[url])
      else
        var r := Match(rest, url);
        assert Valid(st) ==> forall name :: name in Names(rest) ==> Lookup(st, name, url) == Lookup(rest, name, url);
        assert Valid(st) && r.Some? ==> exists i :: FirstHolder(st, url, i, r) by {
          if Valid(st) && r.Some? {
            var k :| FirstHolder(rest, url, k, r);
            FirstHolderBehindMiss(c, rest, url, k, r);
          }
        }
        r
  }

  /** When one cache name is all there is, matching across caches is looking in that cache. */
  lemma MatchInSoleCache(st: Storage, name: string, url: string)
    requires Valid(st)
    requires forall n :: n in Names(st) ==> n == name
    ensures Match(st, url) == Lookup(st, name, url)
  {
    match st
    case Empty =>
    case Cons(c, rest) =>
      if rest.Cons? {
        assert rest.oldest.name in Names(rest);
        assert rest.oldest.name in Names(st);
      }
  }

  /** `caches.open(name)`: the storage with a cache called `name`, new and empty if absent. */
  function Open(st: Storage, name: string): (r: Storage)
    ensures name in Names(r)
    ensures Names(r) == if name in Names(st) then Names(st) else Names(st) + [name]
    ensures forall n, url :: Lookup(r, n, url) == Lookup(st, n, url)
    ensures forall url :: Match(r, url) == Match(st, url)
    ensures Valid(st) ==> Valid(r)
  {
    if name in Names(st) then st else OpenNew(st, name)
  }

  /** Appending a new empty cache changes no lookup and no match. */
  function OpenNew(st: Storage, name: string): (r: Storage)
    requires name !in Names(st)
    ensures Names(r) == Names(st) + [name]
    ensures forall n, url :: Lookup(r, n, url) == Lookup(st, n, url)
    ensures forall url :: Match(r, url) == Match(st, url)
    ensures Valid(st) ==> Valid(r)
  {
    match st
    case Empty => Cons(NamedCache(name, map[]), Empty)
    case Cons(c, rest) => Cons(c, OpenNew(rest, name))
  }

  /**
   * `caches.open(name)` followed by `cache.put(url, response)`: the entry for `url` in
   * cache `name` becomes `response`, replacing any earlier one (last write wins); no
   * other entry of any cache changes, and a missing cache is created last.
   */
  function Put(st: Storage, name: string, url: string, response: Response): (r: Storage)
    ensures Lookup(r, name, url) == Some(response)
    ensures forall n, u :: n != name || u != url ==> Lookup(r, n, u) == Lookup(st, n, u)
    ensures Names(r) == if name in Names(st) then Names(st) else Names(st) + [name]
    ensures Valid(st) ==> Valid(r)
  {
    match st
    case Empty => Cons(NamedCache(name, map[url := response]), Empty)
    case Cons(c, rest) =>
      if c.name == name then Cons(NamedCache(name, c.entries[url := response]), rest)
      else Cons(c, Put(rest, name, url, response))
  }

  /**
   * `caches.delete(name)`: the cache called `name` disappears with all its entries;
   * every other cache is kept, in order.
   */
  function Delete(st: Storage, name: string): (r: Storage)
    ensures forall n :: n in Names(r) <==> n in Names(st) && n != name
    ensures forall url :: Lookup(r, name, url).None?
    ensures forall n, url :: n != name ==> Lookup(r, n, url) == Lookup(st, n, url)
    ensures Valid(st) ==> Valid(r)
    ensures name !in Names(st) ==> r == st
  {
    match st
    case Empty => Empty
    case Cons(c, rest) =>
      var r := Delete(rest, name);
      if c.name == name then r else Cons(c, r)
  }
}
