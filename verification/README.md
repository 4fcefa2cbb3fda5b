# Tahfidz Tracker service worker: cache policy model

This project models the service worker `sw.js` of the Tahfidz Tracker web
app. It covers the decisions the worker makes around the browser's cache
storage:

- **Fetch routing.** The handler decides which requests it intercepts:
  only GET, never the Supabase backend, and never a URL that mentions "api"
  unless it also mentions the worker's own origin. It then decides what it
  answers with: the cached entry, the network response, the cached
  `./index.html` for an offline navigation, or an error. Finally it decides
  what it writes into the current cache generation `tahfidz-tracker-v1.0.0`:
  - on a hit, a background refresh of HTML documents;
  - on a miss, a copy of an ok response, but only for the same origin or
    the four allow-listed CDN hosts.
- **Lifecycle.**
  - Install opens the current cache and adds the app-shell manifest with
    `addAll`, which is all or nothing.
  - Activate deletes every cache generation except the current one.
- **Messages** from the app's pages:
  - `GET_VERSION` is answered with the cache name;
  - `CACHE_URLS` adds a list of URLs to the current cache;
  - `SKIP_WAITING` is recognised;
  - anything else is ignored.
- **Notification clicks.** The "explore" action focuses the first open
  window of the app. When none is open, the code as written does nothing,
  although it evidently means to open the app's root (see "## Findings").

The host APIs become an explicit model:

- **`CacheStorage`.** The `caches` global is the class
  `CacheStore.CacheStorage`, updated in place by its methods. Its value is
  the `Store` datatype: cache names in creation order plus a map from each
  name to its entries.
- **The network.** What the network answers is an input: one `NetOutcome`
  per fetch.
- **URLs.** Resolution of relative URLs is an input function
  (`Config.Scope.resolve`). So are the origin and host name that
  `new URL(...)` would give (fields of `Http.Request`).
- **The rules the Cache API applies on writes:**
  - `put` refuses a 206 response;
  - `addAll` fails as a whole when a fetch fails, a response is not ok or
    is 206, or a URL is listed twice;
  - `caches.open` creates a missing cache, listed last.

Each event handler that touches the caches is a module-level method taking
the `CacheStorage` object, which it updates through that class's methods.
Each such handler is proved equal to a function on `Store`
(`FetchRouting.OnFetch`, `Lifecycle.Installed`, `Lifecycle.Pruned`,
`Messaging.OnMessage`), and the lemmas state the worker's promises about
those functions. The notification-click handler touches no cache. It is a
method over the list of open windows.

Where the code and the worker's own description disagree, the model
follows the code. The install handler's comment says installation should
not fail when some resources cannot be cached. In fact the code calls
`addAll`, which adds nothing at all when a single resource fails. The
failure handler then only reopens the cache. Installation therefore leaves
the current cache as the open left it: empty when it was just created, and
with its earlier entries when it already existed. Nothing from the manifest
is added (`CacheStore.AddAllAllOrNothing`, `Lifecycle.Install`).

On a cache hit, the background refresh of an HTML document writes to the
current cache. Lookups, however, search the caches in creation order. So
while an older generation, listed first, still holds the URL, its stale
entry stays the answer (`FetchRouting.StaleOlderGenerationStillServed`).
Activation removes such generations.

## Model

| member | source | states |
|---|---|---|
| Text.ContainsIff | sw.js:61-66 | `Contains(s, t)`, the model of `String.includes`, holds exactly when `t` occurs in `s` at some position |
| CacheStore.LookupInFirst | sw.js:71 | a lookup misses exactly when no cache holds the URL; a hit returns the entry of the first cache, in creation order, that holds it |
| CacheStore.LookupOpened | sw.js:105 | opening a cache, existing or new, never changes what any lookup finds |
| CacheStore.LookupWritten | sw.js:116 | a put changes the lookup of no other URL, and a URL that no cache held is then found with the response put (unless it is a 206) |
| CacheStore.BatchSucceeds | sw.js:22 | `addAll` succeeds exactly when every fetch gave a storable response and no URL repeats, and then adds exactly the listed URLs |
| CacheStore.BatchEntries | sw.js:22 | a successful `addAll` stores each listed URL with the response fetched for it |
| CacheStore.AddAllFrame | sw.js:19-29 | open-then-addAll always leaves the cache in place and every other cache unchanged; the store stays well formed and holds only storable responses |
| CacheStore.AddAllAllOrNothing | sw.js:19-29 | open-then-addAll, when every fetch is storable and no URL repeats, finds every URL with its own response and keeps the cache's older entries; on any failure the store is exactly the one after the open |
| CacheStore.StoredOkKept | sw.js:83 | open, an ok put and a successful addAll keep the invariant that every stored response is ok and not 206 |
| CacheStore.WfKept | sw.js:82 | open, put, addAll and delete keep the store well formed: every name is listed once and the listed names are exactly the existing caches |
| CacheStore.CacheStorage.Match | sw.js:71 | the loop over the caches returns the first entry for the URL in creation order, as `Lookup` defines it |
| CacheStore.CacheStorage.Open | sw.js:82 | an existing cache is kept as it is; a missing one is created empty and listed last |
| CacheStore.CacheStorage.Put | sw.js:116 | the entry for the URL in the named cache is replaced, unless the response is a 206, which is refused |
| CacheStore.CacheStorage.Delete | sw.js:44 | the named cache and its name are removed and nothing else; the result tells whether it existed |
| CacheStore.CacheStorage.AddAll | sw.js:22 | the loop over the URLs adds every entry or, when any outcome fails, none; the result tells which happened |
| FetchRouting.HandleFetch | sw.js:54-136 | the reply and the new store are those of `OnFetch` applied to the store before the event |
| FetchRouting.PassThroughIffFiltered | sw.js:55-68 | the handler declines exactly the requests the three filters reject, leaving the store unchanged; a non-GET request and a "supabase.co" URL are always declined |
| FetchRouting.FontsApiHostNeverIntercepted | sw.js:66-68 | a fonts.googleapis.com request whose URL does not mention the worker's origin is always declined and never stored |
| FetchRouting.FontsApiHostStoredWhenUrlNamesOrigin | sw.js:111-116 | a GET fonts.googleapis.com request whose URL mentions the origin and not "supabase.co" is intercepted and, on a miss with a storable response, stored: the allow-list entry is reachable only that way |
| FetchRouting.HitServesCached | sw.js:74-90 | on a hit the cached entry is the reply. The store changes only when the request accepts text/html and the refresh is ok; the refresh then puts its response into the current cache with no allow-list check, and no other URL's lookup changes |
| FetchRouting.StaleOlderGenerationStillServed | sw.js:71-90 | while an older generation listed before the current cache holds the URL, a lookup of it returns that older entry before and after any fetch, including an HTML refresh |
| FetchRouting.MissNotOkPassedOn | sw.js:97-99 | on a miss a response that is not ok is the reply and the store is unchanged |
| FetchRouting.MissOkServedAndStored | sw.js:101-121 | on a miss an ok response is the reply. It is found afterwards exactly when the request is same-origin or from an allow-listed host (and not 206). No other URL's lookup and no other cache changes |
| FetchRouting.MissOfflineFallback | sw.js:123-133 | on a miss with a network error a navigation gets the cached index page, or `undefined` when it is not cached; any other request gets the error; the store is unchanged |
| FetchRouting.FetchKeepsStore | sw.js:54-136 | any fetch keeps the store well formed, writes only ok non-206 responses and changes no cache other than the current one |
| Lifecycle.Install | sw.js:16-33 | the store becomes `Installed`: the current cache is opened and receives the whole manifest when `addAll` succeeds; `populated` says whether it did |
| Lifecycle.Activate | sw.js:36-51 | the store becomes `Pruned` with the current cache name: only the current generation is left |
| Lifecycle.DeleteAllBut | sw.js:39-47 | the loop over the cache names deletes each name other than the kept one, which leaves exactly `Pruned` |
| Lifecycle.DeleteIfOld | sw.js:41-46 | the per-name callback deletes the cache when its name differs from the kept one and leaves it otherwise, which advances the loop's invariant by one name |
| Lifecycle.ActivateKeepsOnlyCurrent | sw.js:39-47 | after pruning, the set of names is the old set intersected with the kept name. The kept cache's entries are unchanged and a lookup searches it alone. Stored responses stay storable, and pruning twice equals pruning once |
| Messaging.Dispatch | sw.js:219-236 | GET_VERSION gives a version reply carrying the cache name, SKIP_WAITING and CACHE_URLS their own commands (the latter with the message's URL list), and a missing message, a missing type or any other type is ignored, each as an if-and-only-if |
| Messaging.HandleMessage | sw.js:216-237 | the reply and the new store are those of `OnMessage` applied to the store before the message |
| Messaging.MessageEffects | sw.js:219-236 | the reply is the cache name for GET_VERSION, whatever the store, and absent otherwise. Only CACHE_URLS changes the store, and then only the current cache. The store stays well formed with only storable responses |
| Messaging.FocusOrOpen | sw.js:199-210 | the callback focuses the first listed window whose URL contains the origin and that can be focused. With no such window, it opens "./" exactly when the value it calls `clients` has an `openWindow` member, and otherwise does nothing |
| Messaging.NotificationClick | sw.js:193-213 | for "explore" the first matching window is focused. With no matching window nothing happens, because the shadowed `clients` is the window list, which has no `openWindow`. Any other action has no effect |
| Messaging.NotificationClickIntended | sw.js:193-213 | the handler as evidently intended: as above, but with no matching window "./" is opened whenever the host can open windows |
| Messaging.ShadowedOpenWindowDiffers | sw.js:199-209 | on every "explore" click with no matching window, the handler as written does nothing where the intended one opens "./" |

## Left out

- Promise timing and concurrency. Each background write (the hit path's refresh and the miss path's copy) is taken to finish before the next event, and concurrent events do not interleave.
- `Response.clone()` stream semantics. Responses are immutable values, so a clone is the same response.
- URL parsing and resolution. `new URL(...)` is replaced by the request's `origin` and `hostname` fields, and relative URLs are resolved by the input `Scope.resolve`.
- The network. Each fetch's outcome (a response of any status, or an error) is an input.
- `no-cache` request options. These only affect how the network is asked, which the model leaves out.
- Cache matching by URL only. `Vary`, method and query options of the real Cache API matching are not modelled.
- Failures of `caches.open` and storage quota errors. These are not modelled.
- Push notifications (`sw.js:159-190`), the sync and periodicsync broadcasts (`sw.js:139-156`, `sw.js:240-254`), and all console logging. These are host side effects without cache decisions.
- `skipWaiting` and `clients.claim` (`sw.js:32`, `sw.js:50`). The SKIP_WAITING message is dispatched to its own command, which has no effect on the store.
- `event.notification.close()` (`sw.js:194`). It does not affect the model.
- HandleMessage: does not model the error thrown when a GET_VERSION message arrives without a reply port. The reply is returned as if the port existed.
- NotificationClick, NotificationClickIntended: the browser's `'focus' in client` test is the `focusable` field of a window. The promises of `focus()` and `openWindow()` are not modelled.
- FontsApiHostNeverIntercepted: assumes the host name occurs in the URL text, which URL parsing guarantees but the model does not derive. It also needs the URL not to mention the origin; `FontsApiHostStoredWhenUrlNamesOrigin` shows why.

## Findings

| source | as written | input that shows it | evidently intended | confidence | as-written member | corrected member |
|---|---|---|---|---|---|---|
| sw.js:199-209 | the `.then` callback names its parameter `clients`, hiding the global `clients`. `clients.openWindow` then reads the window list, which has no such member, so no window is ever opened | action "explore" with no open window whose URL contains the origin, on a host that supports `openWindow` | open the app's root `./` when no window of the app is open | high, not executed | Messaging.NotificationClick | Messaging.NotificationClickIntended |
