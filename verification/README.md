# Service worker of the YIU attendance system, in Dafny

This project models the service worker `sw.js` of the Yongin University attendance
web application: the decisions it takes for every lifecycle, fetch, push and
notification-click event, written as pure functions over explicit inputs.

- **Cache Storage** (`CacheStorage`): the origin's caches as an ordered list of
  named caches (creation order), each a map from request URL to a response snapshot.
  `caches.match` answers from the oldest cache holding the URL, so the order matters
  until stale caches are gone. `Valid` states the host's guarantee that names are unique;
  every operation keeps it.
- **Lifecycle** (`Lifecycle`): `Install` opens the cache `yiu-attendance-v1`, pre-caches
  the manifest entries that do not start with `http` all-or-nothing, and sets the
  `skipWaiting` flag only on success; `Activate` deletes every cache whose name differs
  from the current one.
- **Request router** (`Router`): `Classify` decides whether the fetch handler claims a
  request; `NetworkFirst` is the fallback ladder network → cache → offline page → 503.
- **Notification bridge** (`Notifications`): push-payload defaulting and the choice
  between focusing an open window and opening a new one.
- **Offline guarantees** (`Offline`): what install, activation and the router give
  together once the network is gone.

The network, the cache storage, the window clients and the `openWindow` capability are
parameters: a `NetworkOutcome` (`Answered(response)` or `Failed`), a `Storage`, a
`seq<Client>` and a flag. Install fetches through a function from URL to
`NetworkOutcome`. Relative asset paths are resolved against a `scope` parameter, the
worker's directory URL. Console output is left out.

Three behaviours of `sw.js` are easy to misread; the model keeps each as written.

- Install never fails. The `.catch` at lines 42-44 swallows a rejected `addAll`, so
  the install event always completes. The cache exists with its entries unchanged,
  and `skipWaiting` is not called. `Install` therefore returns no error.
- `networkFirst` checks that the offline document is cached (line 129). When it is
  missing, the handler falls through to the 503 response. `NetworkFirst` models that
  check.
- A push payload that is not JSON makes `event.data.json()` throw (line 149), so the
  handler ends with an exception and shows nothing. `OnPush` reports this case as
  `Threw`.

## Model

| member | source | states |
|---|---|---|
| Strings.Includes | sw.js:83-84 | `includes` is a substring test: true exactly when `sub` occurs at some index of `s`, defined independently as `Occurs` |
| Seqs.Filter | sw.js:59-60 | `filter` keeps exactly the elements satisfying the predicate, each as many times as it occurs in the input and no other element; it is no longer than its input, returns its input unchanged when everything is kept and nothing when nothing is |
| Seqs.FilterConcat | sw.js:59-60 | filtering a concatenation is the concatenation of the filtered parts, so `filter` keeps the input's order |
| CacheStorage.Names | sw.js:56 | `caches.keys()` lists every cache that holds an entry |
| CacheStorage.Match | sw.js:120 | `caches.match` misses iff no named cache holds the URL; a hit is the entry of the first cache, in `caches.keys()` order, that holds the URL, and no cache listed before it holds the URL |
| CacheStorage.MatchInSoleCache | sw.js:120 | when one cache name is all there is, `caches.match` equals a lookup in that cache |
| CacheStorage.Open | sw.js:32 | `caches.open` makes the name present, appending it last if new, and changes no lookup and no match |
| CacheStorage.Put | sw.js:111-112 | after `put`, the cache holds the new response for the URL; every other entry of every cache is unchanged; a missing cache is created last |
| CacheStorage.Delete | sw.js:63 | `caches.delete(name)` removes exactly that name and its entries and leaves every other cache's entries as they were |
| Http.AcceptsHtml | sw.js:127 | a request accepts HTML iff it has an Accept header and "text/html" occurs in it |
| Http.ResolveRelative | sw.js:36 | a relative asset path resolves to a URL under the worker's directory; a leading "./" is dropped |
| Http.DotSlashNamesSameUrl | sw.js:11-18 | a leading "./" does not change the URL a relative path names, so "offline.html" and "./offline.html" are one cache entry |
| Lifecycle.PrecacheList | sw.js:36 | the install filter keeps exactly the manifest entries that do not start with "http" |
| Lifecycle.PrecacheListKeepsConfiguredAssets | sw.js:14-22 | for the configured manifest, the filter keeps all seven relative paths, in order |
| Lifecycle.PrecacheUrls | sw.js:36 | the URLs `addAll` fetches are exactly the resolved manifest entries that do not start with "http" |
| Lifecycle.PutAll | sw.js:36 | a successful `addAll` stores each URL's fetched response in the named cache and changes nothing else |
| Lifecycle.Install | sw.js:28-46 | install always opens the current cache; `skipWaiting` runs iff every pre-cached asset is answered with an ok status; then each asset's response is stored under its URL; otherwise no entry of any cache changes; in every case the entries of other URLs and other caches are unchanged and the cache names are those `caches.open` left |
| Lifecycle.DeleteAll | sw.js:58-65 | deleting a list of names removes exactly those names and keeps the entries of every other cache |
| Lifecycle.Activate | sw.js:55-66 | activation deletes exactly the names other than `yiu-attendance-v1`; afterwards only that name can remain, and its entries are untouched |
| Lifecycle.ActivateIdempotent | sw.js:56-66 | a second activation deletes nothing and leaves the storage as the first one left it |
| Lifecycle.ActivatedMatchIsCurrent | sw.js:56-66 | after activation, `caches.match` answers from the current version's cache only |
| Router.Classify | sw.js:83-91 | a request is intercepted iff its method is `GET` and its hostname contains neither Apps Script host name |
| Router.EmbeddedScriptHostPassesThrough | sw.js:83-86 | any hostname that embeds `script.google.com` is passed through, not only that exact host |
| Router.NetworkFirst | sw.js:104-141 | an answer is returned whatever its status and cached iff ok; on failure the request's cached entry, else the offline page iff Accept contains text/html and it is cached, else the 503 text/plain response; only an ok answer changes the storage |
| Router.OfflineRung | sw.js:126-131 | a failed, uncached request whose Accept header contains text/html gets the cached offline document and leaves the storage as it was |
| Router.NonHtmlMissIsUnavailable | sw.js:126-139 | a failed, uncached request that does not accept HTML gets the 503 response |
| Router.OnFetch | sw.js:78-96 | the handler leaves a request unclaimed iff it is not `GET` or its hostname contains an Apps Script host; otherwise it answers with `networkFirst` |
| Notifications.OnPush | sw.js:146-166 | no data: nothing; data that is not JSON: the handler throws; otherwise a notification whose title, body and URL are the payload's or, when absent or empty, the defaults |
| Notifications.ClickTarget | sw.js:174 | the click target is the notification's URL when present and non-empty, otherwise "./"; it is never empty |
| Notifications.PushedUrlIsClickTarget | sw.js:155-174 | clicking a pushed notification targets the URL the push carried, or "./" when it carried none |
| Notifications.FocusOrOpen | sw.js:177-189 | the first client showing the target is focused; a window is opened at the target iff none shows it and `openWindow` exists; otherwise nothing happens |
| Notifications.OnNotificationClick | sw.js:171-191 | the click handler as written: the same choice made with the unresolved click target |
| Notifications.DefaultTargetOpensNewWindow | sw.js:174-188 | as written, a notification without a URL opens a new window at "./" whenever no client URL contains "./" |
| Notifications.ResolveTarget | sw.js:174 | the resolved target keeps absolute `http` URLs and maps "./" to the worker's directory |
| Notifications.OnNotificationClickResolved | sw.js:174-188 | the click handler comparing client URLs with the resolved target |
| Notifications.DefaultTargetFocusesOpenPage | sw.js:174-188 | with a resolved target, a notification without a URL focuses the first focusable client whose URL contains the directory, no later than the first page under it |
| Offline.OfflineDocumentIsPrecached | sw.js:11-18 | the offline document is a manifest entry kept by the install filter, stored under the URL the fallback looks up |
| Offline.ServedAfterInstall | sw.js:120-124 | after a successful install and activation, `caches.match` finds every pre-cached asset's install-time response |
| Offline.PrecachedAssetServedOffline | sw.js:116-124 | after install and activation, a pre-cached asset requested offline is answered with its install-time response |
| Offline.OfflineDocumentServedToPages | sw.js:126-131 | after install and activation, an HTML request missed by the network and the cache gets the offline document fetched at install time |

## Findings

| source | as written | input that shows it | evidently intended | confidence | as-written member | corrected member |
|---|---|---|---|---|---|---|
| sw.js:174-188 | the click target defaults to "./" and is compared by substring with absolute client URLs | a notification without `url`, one open focusable window at `https://host/app/index.html`, `openWindow` supported: a new window is opened at "./" | focus the open application window, by comparing against the target resolved against the worker's location | not executed; high that normalized page URLs do not contain "./" | Notifications.DefaultTargetOpensNewWindow | Notifications.DefaultTargetFocusesOpenPage |

`OnNotificationClick` keeps the code's behaviour. `OnNotificationClickResolved` is the
corrected handler; it resolves the target with `ResolveTarget` before comparing.

## Left out

- Console logging, `event.waitUntil` and promise timing. The un-awaited `cache.put` is modelled as completed before the next event. Races between concurrent fetches writing the same URL are left out.
- The real `fetch`, `caches`, `clients` and `registration` APIs are not modelled. They are replaced by the network outcome, the `Storage` value, the client list and the `openWindow` flag.
- Failures of `caches.open`, `cache.put` and `caches.delete` are left out. This includes the 206 and `Vary: *` rejections of the Cache API and quota errors. It also covers `Promise.all` rejection semantics during activation.
- `addAll`'s duplicate-request check is left out; the configured manifest has no duplicates.
- URL parsing is left out. `hostname`, `url` and the `Accept` value are given strings. `ResolveRelative` only drops a leading "./"; it does not handle "../", query strings or fragments.
- Request identity is the URL alone. The Cache API's matching by method and `Vary` headers is left out.
- `clients.claim()`, `self.skipWaiting()` and `notification.close()` have no modelled effect. `skipWaiting` is reported as a flag.
- Notification display options (icon, badge, vibration pattern) are static configuration and are left out.
- Push payload fields are modelled as absent or a string. JavaScript truthiness of numbers, booleans, null and objects, and their string conversion, are left out. A payload that parses to JSON `null` or a non-object is not distinguished from other payloads.
- Strings are sequences of Unicode code points rather than UTF-16 code units. Substring tests agree on well-formed text.
- Notifications.ResolveTarget: treats a target as absolute iff it starts with "http", as the install filter does, rather than applying full URL resolution.
- CacheStorage.Delete: states which names remain, not their order.
- Lifecycle.DeleteAll: states which names remain, not their order.
