# Miruro response cache and dispatcher, modelled in Dafny

This project models the client-side data layer of the Miruro anime front end.

- **Session-storage cache** (`createOptimizedSessionStorageCache`).
  - A JavaScript `Map` of `{ value, timestamp }` items plus a `Set` of the same keys, whose iteration order serves as the recency order.
  - `get` expires entries lazily after `maxAge` and moves a fresh hit to the end of the `Set`.
  - `set` evicts the first key of the `Set` once the `Map` has reached `maxSize`. It then writes every entry, in the `Map`'s order, to a named `sessionStorage` slot.
  - A new instance is seeded from that slot.
- **Dispatcher** (`fetchFromProxy`).
  - It answers from the cache when the cached value is truthy.
  - Otherwise it runs one of eight named providers, classifies the `{ data, error }` envelope, then stores and returns `data`, or throws a message normalised by `handleError`.
- **Helpers** `ensureUrlEndsWithSlash`, `generateCacheKey`, and the key and routing logic of `fetchList`.
- **Provider layer** of `src/hooks/Anime.ts`: argument guards, defaults and envelope shapes. The scraping library behind it is an arbitrary function.

Files:

| file | module | contents |
|---|---|---|
| `wrappers.dfy` | `Wrappers` | `Option`, `Result` |
| `js_values.dfy` | `JsValues` | JavaScript values: truthiness, `String(v)`, `includes`, `join`, destructuring defaults |
| `js_collections.dfy` | `JsCollections` | insertion-ordered `Set` and `Map`; entry lists and rebuilding a `Map` from them |
| `session_cache.dfy` | `Cache` | the cache as value-level functions (`Load`, `Lookup`, `Store`, `SnapshotOf`) and as the class `SessionStorageCache`, proved to agree with them |
| `cache_properties.dfy` | `CacheProperties` | what `get`, `set` and reloading guarantee |
| `anime.dfy` | `Anime` | the eight providers |
| `use_api.dfy` | `UseApi` | helpers, `handleError`, classification, `Dispatch` and the method `FetchFromProxy`, `fetchList` |

Modelling choices:

- **Time.** `Date.now()` is a parameter:
  - `now` for a cache lookup;
  - `doneAt` for the entry stored after the provider answered.
- **The scraping library** is a parameter `lib: LibCall -> LibOutcome`. A call either resolves to a value or throws, so every property holds for any library behaviour. `JSON.parse` inside `advancedSearch` is likewise a parameter `parse`.
- **Call traces.** Each provider returns the library calls it made, so "no call is made" is a stated property.
- **Storage.** `sessionStorage` is the class `SessionStorage`, a map from slot name to slot content:
  - missing;
  - empty text;
  - a snapshot, i.e. a list of `(key, item)` pairs;
  - malformed text.
- **Caller's parameters.** `Trending` and `AnimeRecentEpisodes` write defaults into the caller's parameter object, which is the class `JsObject`.

## Model

| member | source | states |
|---|---|---|
| `JsCollections.SetAdd` | src/hooks/useApi.ts:77 | `Set.add`: the result holds exactly the old keys plus the new one. A present key keeps its position and a new key goes last. No repetition is introduced. |
| `JsCollections.SetDelete` | src/hooks/useApi.ts:76 | `Set.delete`: exactly the given key is removed. On a repetition-free set the size drops by one when the key was present. An absent key leaves the set unchanged. |
| `JsCollections.SetDeleteAt` | src/hooks/useApi.ts:76 | On a repetition-free set, deleting the key at position `i` leaves `s[..i] + s[i+1..]`: the other keys keep their order. |
| `JsCollections.MapSet` | src/hooks/useApi.ts:94 | `Map.set`: the entry is overwritten. A present key keeps its place in the iteration order and a new key is appended. Well-formedness is kept. |
| `JsCollections.MapDelete` | src/hooks/useApi.ts:80 | `Map.delete`: the key leaves both the entries and the order. |
| `JsCollections.SizeIsEntryCount` | src/hooks/useApi.ts:86 | `cache.size` is the number of entries of a well-formed map. |
| `JsCollections.Entries` | src/hooks/useApi.ts:67 | `Array.from(cache.entries())` lists every entry once, in insertion order. |
| `JsCollections.FromEntries` | src/hooks/useApi.ts:55-57 | `new Map(entries)` always builds a well-formed map, even from an entry list with repeated keys. |
| `JsCollections.FromEntriesHasListed` | src/hooks/useApi.ts:56 | For any entry list, every listed key is a key of the new `Map`. |
| `JsCollections.FromEntriesOnlyListed` | src/hooks/useApi.ts:56 | For any entry list, every key of the new `Map` is listed. |
| `JsCollections.FromEntriesLastWins` | src/hooks/useApi.ts:56 | For any entry list, a key repeated in it holds the value of its last occurrence. |
| `JsCollections.FromEntriesOfEntries` | src/hooks/useApi.ts:55-67 | Rebuilding a map from its own entry list gives back the same map, iteration order included. |
| `Cache.ReadSlot` | src/hooks/useApi.ts:56 | A slot that was never written reads as missing. |
| `Cache.Load` | src/hooks/useApi.ts:55-58 | Construction fails exactly on a malformed slot. Otherwise the two collections hold the same keys, and the initial recency order is the slot's entry order. A missing or empty slot gives an empty cache. |
| `Cache.IsExpired` | src/hooks/useApi.ts:60-62 | An item aged exactly `maxAge` is still fresh. With a non-negative `maxAge`, an item read no later than it was stored is fresh. |
| `Cache.Lookup` | src/hooks/useApi.ts:72-84 | A stored, unexpired item is returned with the `Map` unchanged. A missing or expired key reads as undefined. Only an expired `key` leaves the `Map`, and every other entry stays in its place in the `Map`'s order. |
| `Cache.Evict` | src/hooks/useApi.ts:86-92 | Below capacity, or when the first key is empty or absent, nothing changes. Otherwise the first key of the `Set` leaves both the `Map` and the `Set`, and the other keys keep their order in both. `keys` and `cache` keep listing the same keys. |
| `Cache.Store` | src/hooks/useApi.ts:85-96 | `key` holds the new value stamped with the store time and is in the `Set`. Every other remaining entry is unchanged. The only entry that can disappear is the first key, and only in a full cache. |
| `Cache.Oldest` | src/hooks/useApi.ts:87 | The eviction candidate is the first key of the `Set`, or undefined for an empty `Set`. |
| `Cache.SnapshotOf` | src/hooks/useApi.ts:64-69 | The written snapshot has one entry per cached key. |
| `Cache.SessionStorageCache.constructor` | src/hooks/useApi.ts:55-58 | A new instance holds what `Load` reads from its slot, and its two collections agree. |
| `Cache.SessionStorageCache.Create` | src/hooks/useApi.ts:50-58 | Fails exactly when the slot is malformed. Otherwise it gives a fresh, consistent instance seeded from the slot. |
| `Cache.SessionStorageCache.Get` | src/hooks/useApi.ts:72-84 | The returned value and the new collections are those of `Lookup`, the two collections stay in agreement, and storage is unchanged. |
| `Cache.SessionStorageCache.Set` | src/hooks/useApi.ts:85-96 | The new collections are those of `Store`, the two collections stay in agreement, and exactly the instance's slot is overwritten with the snapshot of the new state. |
| `Cache.SessionStorageCache.UpdateSessionStorage` | src/hooks/useApi.ts:64-69 | Only the instance's own slot changes, and it receives the full entry list. |
| `CacheProperties.MoveToEnd` | src/hooks/useApi.ts:76-77 | Deleting and re-adding a key moves it to the most-recent end. |
| `CacheProperties.LookupKeepsSynced` | src/hooks/useApi.ts:72-84 | After `get`, `keys` and `cache` still list the same keys, each once. |
| `CacheProperties.StoreKeepsSynced` | src/hooks/useApi.ts:85-94 | After `set`, `keys` and `cache` still list the same keys, each once. |
| `CacheProperties.LookupMissing` | src/hooks/useApi.ts:73-83 | `get` of a missing key returns undefined and changes nothing. |
| `CacheProperties.LookupExpiry` | src/hooks/useApi.ts:60-83 | `get` removes the key from both collections exactly when it is older than `maxAge`. An expired entry returns undefined and is removed from the `Set` and from the `Map`'s order as by `delete`. |
| `CacheProperties.LookupAtMaxAge` | src/hooks/useApi.ts:60-62 | An entry aged exactly `maxAge` is still a hit. |
| `CacheProperties.LookupHit` | src/hooks/useApi.ts:75-78 | A fresh hit returns the stored value, leaves `cache` unchanged and moves the key to the end of `keys`. |
| `CacheProperties.StoreWithRoom` | src/hooks/useApi.ts:85-94 | Below capacity, `set` only writes the new item and evicts nothing. |
| `CacheProperties.StoreKeepsPosition` | src/hooks/useApi.ts:93-94 | Setting a key that is still present after eviction keeps its position in both `keys` and the map order, with the new value and timestamp. |
| `CacheProperties.StoreOverwriteWithRoom` | src/hooks/useApi.ts:93-94 | Overwriting a present key below capacity changes neither order nor size. |
| `CacheProperties.StoreNewKeyLast` | src/hooks/useApi.ts:93-94 | A key that is not in the cache after eviction, the usual store after a miss, goes to the end of `keys` and to the end of the `Map`'s order, which is the order the snapshot is written in. |
| `CacheProperties.StoreEvictsFirst` | src/hooks/useApi.ts:86-92 | On a full cache the first key is evicted, even when it is the key being set. That key is then re-added at the end. |
| `CacheProperties.StoreOnFullShrinks` | src/hooks/useApi.ts:86-94 | Setting a present key that is not the first one in a full cache still evicts, so the size drops by one. |
| `CacheProperties.StoreThenLookup` | src/hooks/useApi.ts:72-94 | A `get` within `maxAge` of a `set` returns the value set. |
| `CacheProperties.StoreBounded` | src/hooks/useApi.ts:85-94 | With no empty-string key, `set` keeps the size within `max(maxSize, 1)`. |
| `CacheProperties.LookupBounded` | src/hooks/useApi.ts:72-84 | `get` never grows the cache and never introduces the empty key. |
| `CacheProperties.ReloadSnapshot` | src/hooks/useApi.ts:55-69 | Reloading a written snapshot gives the same map in the same order. The reloaded `keys` follow the map order. |
| `CacheProperties.ReloadAnswersAlike` | src/hooks/useApi.ts:55-84 | A reloaded instance answers every `get` like the instance that wrote the slot. |
| `CacheProperties.ExpiredStaysExpiredAfterReload` | src/hooks/useApi.ts:55-69 | Timestamps persist, so an entry expired before a reload is expired and removed at any later time after it. |
| `CacheProperties.RecencyLostOnReload` | src/hooks/useApi.ts:64-94 | The recency refreshed by `get` is not persisted. The same `set` evicts a different key before and after a reload. |
| `CacheProperties.ScenarioEviction` | src/hooks/useApi.ts:85-94 | With capacity 2, setting k1, k2 and k3 evicts k1 and keeps k2 and k3. |
| `CacheProperties.ScenarioExpiry` | src/hooks/useApi.ts:60-84 | With `maxAge` 1000, an entry stored at 0 is a hit at 1000 and gone at 1001. |
| `Anime.Settle` | src/hooks/Anime.ts:86-89 | An awaited call outside any `try` makes one library call. A resolving call gives `{ data: <its value> }`, and a throwing one rejects the promise. |
| `Anime.RequireId` | src/hooks/Anime.ts:83-85 | The id guard. The library is called exactly when `id` is truthy, and "Anime ID is required" is returned exactly when it is not. |
| `Anime.AnimeData` | src/hooks/Anime.ts:82-90 | A falsy `id` gives "Anime ID is required" with no call. Otherwise exactly one `fetchAnilistInfoById(id)` is made, and the promise rejects exactly when it throws; when it resolves the result is `{ data: <its value> }`. |
| `Anime.AnimeInfo` | src/hooks/Anime.ts:93-99 | Same guard. Otherwise exactly one `fetchAnimeInfo(id, false, false)` is made, and the promise rejects exactly when it throws; when it resolves the result is `{ data: <its value> }`. |
| `Anime.AnimeServers` | src/hooks/Anime.ts:139-147 | Same guard. Otherwise exactly one `fetchEpisodeServers(id)` is made, and the promise rejects exactly when it throws; when it resolves the result is `{ data: <its value> }`. |
| `Anime.AnimeEpisodes` | src/hooks/Anime.ts:118-136 | Never rejects. A falsy `id` gives "Anime ID is required" with no call. `dub` defaults to `false` when falsy, and "Anime not found" is returned exactly when the library throws. A resolving call gives `{ data: <its value> }`. |
| `Anime.AnimeWatch` | src/hooks/Anime.ts:150-169 | Never rejects. A falsy `episodeId` gives "Episode ID is required" with no call. Otherwise the contact-developer message is returned exactly when the library throws, and a resolving call gives `{ data: <its value> }`. |
| `Anime.PagingDefaults` | src/hooks/Anime.ts:103-108 | A falsy `page` becomes 1 and a falsy `perPage` becomes 16. Truthy values and every other property are kept, and the result has exactly the caller's keys plus `page` and `perPage`. |
| `Anime.TrendingEnvelope` | src/hooks/Anime.ts:102-115 | The one library call uses the defaulted paging. It settles as `Settle` says: `{ data: <its value> }` when it resolves, a rejection when it throws. |
| `Anime.Trending` | src/hooks/Anime.ts:102-115 | The caller's object receives the paging defaults, and the result is `TrendingEnvelope` of the original parameters. |
| `Anime.RecentEpisodesEnvelope` | src/hooks/Anime.ts:172-189 | The one library call is for provider "gogoanime" with the defaulted paging. It settles as `Settle` says: `{ data: <its value> }` when it resolves, a rejection when it throws. |
| `Anime.AnimeRecentEpisodes` | src/hooks/Anime.ts:172-189 | The caller's object receives the paging defaults, and the result is `RecentEpisodesEnvelope` of the original parameters. |
| `Anime.IsSeason` | src/hooks/Anime.ts:53 | A season is valid exactly when it is one of the strings WINTER, SPRING, SUMMER or FALL, compared exactly. Every valid season is truthy. |
| `Anime.SeasonError` | src/hooks/Anime.ts:54-56 | The message is the season converted to a string, followed by " is not a valid season". |
| `Anime.ParseGenres` | src/hooks/Anime.ts:36-45 | Falsy genres pass through. Truthy genres are replaced by `JSON.parse(String(genres))`. The step fails exactly when that parse throws or does not yield an array, which has no `forEach`. The per-genre check never produces an error. |
| `Anime.ParseSort` | src/hooks/Anime.ts:48-50 | Falsy sort passes through unparsed. Truthy sort is replaced by `JSON.parse(String(sort))`, and the step fails exactly when that parse throws. |
| `Anime.AdvancedSearch` | src/hooks/Anime.ts:7-79 | Never rejects and makes at most one call. The season error is its only error envelope and comes without a call. An invalid truthy season is always reported once parsing succeeded. A parse failure gives undefined with no call. The search uses the defaults query "", page 1, perPage 16 and a valid or absent season, and it gives undefined exactly when the library throws. A request whose genres and sort parse and whose season is valid or absent is searched with the parsed sort and genres and the other fields as given, and resolves to `{ data: <library result> }`. |
| `UseApi.EnsureUrlEndsWithSlash` | src/hooks/useApi.ts:15-17 | The result ends with '/'. Such a URL is unchanged, and any other gets one '/' appended. |
| `UseApi.EnsureUrlEndsWithSlashIdempotent` | src/hooks/useApi.ts:15-17 | Applying it twice is applying it once. |
| `UseApi.HandleError` | src/hooks/useApi.ts:24-35 | A message mentioning the CORS header becomes "A CORS error occurred". Another non-empty message is prefixed with "An error occurred: ". A missing message gives "An error occurred". |
| `UseApi.HandleErrorWithoutA` | src/hooks/useApi.ts:27-30 | A message without the letter 'A' cannot mention the CORS header and is only prefixed. |
| `UseApi.GenerateCacheKey` | src/hooks/useApi.ts:39-41 | The arguments are joined in order with '-'. No arguments give the empty key. |
| `UseApi.GenerateCacheKeySnoc` | src/hooks/useApi.ts:39-41 | One more argument appends '-' and that argument. |
| `UseApi.GenerateCacheKeyCollides` | src/hooks/useApi.ts:39-41 | The key is not injective: `["a-b"]` and `["a", "b"]` share a key. |
| `UseApi.Provide` | src/hooks/useApi.ts:151-176 | Every provider result is well shaped, meaning no envelope carries both `data` and `error`. At most one library call is made. An unknown name gives an undefined response with no call. Each of the eight names runs its own provider: `AdvancedSearch`, `animedata`, `animeinfo`, `animetrending`, `animeepisodes`, `animeservers`, `animewatch` and `animerecentepisodes`. |
| `UseApi.ParamsAfter` | src/hooks/useApi.ts:151-176 | Only `animetrending` and `animerecentepisodes` change the caller's parameters, and they apply `PagingDefaults` to them. |
| `UseApi.Classify` | src/hooks/useApi.ts:181-186 | The response is accepted exactly when it is an envelope with truthy `data` and falsy `error`. A rejection, an undefined response or falsy `data` gives "Server error: Unknown server error". Both fields present gives the error's text. |
| `UseApi.Dispatch` | src/hooks/useApi.ts:137-195 | Only truthy values are returned, and the two collections stay in agreement. A truthy cached value is returned with no call, no write and parameters untouched. On a miss the provider's data is stored at `doneAt` and returned exactly when `Classify` accepts it. Otherwise it throws and the cache stays as the lookup left it. |
| `UseApi.RunProvider` | src/hooks/useApi.ts:151-176 | The provider run on the caller's object gives `Provide`'s result, and leaves the object as `ParamsAfter` says. |
| `UseApi.FetchFromProxy` | src/hooks/useApi.ts:137-195 | The result, library calls, new cache state and caller's parameters are those of `Dispatch`, and the two collections stay in agreement. The slot is rewritten exactly when a value was stored. |
| `UseApi.UnknownServerErrorMessage` | src/hooks/useApi.ts:181-193 | The message thrown for an unusable response is "An error occurred: Server error: Unknown server error". |
| `UseApi.DispatchThrowsUnknownServerError` | src/hooks/useApi.ts:181-193 | Every throw of `fetchFromProxy` carries exactly that message, because no provider builds an envelope with both fields. |
| `UseApi.ErrorEnvelopeLosesMessage` | src/hooks/useApi.ts:181-183 | An `{ error }` envelope is classified as an unknown server error whatever its message. |
| `UseApi.BothPresentSurfacesError` | src/hooks/useApi.ts:184-185 | An envelope with both truthy `data` and an error text throws that text, prefixed or replaced by the CORS message. |
| `UseApi.DispatchUnknownFunction` | src/hooks/useApi.ts:151-183 | On a miss, an unknown provider name makes no call, stores nothing and throws the unknown-server-error message. |
| `UseApi.MissingIdThrowsUnknownServerError` | src/hooks/useApi.ts:155-183 | On a miss, `animedata` without an id makes no call, stores nothing and throws the generic message, not "Anime ID is required". |
| `UseApi.FalsyCachedValueRefetches` | src/hooks/useApi.ts:144-147 | A fresh but falsy cached value is a miss, so the provider is called again. |
| `UseApi.DispatchBounded` | src/hooks/useApi.ts:144-190 | With a non-empty key and no empty key cached, a dispatch keeps the size within `max(maxSize, 1)`. |
| `UseApi.DispatchThenHit` | src/hooks/useApi.ts:144-190 | After a call that stored a value, the next call with that key within `maxAge` of the store returns the same value with no call and no write. |
| `UseApi.DispatchHitAfterReload` | src/hooks/useApi.ts:144-190 | The same holds for a new instance seeded from the slot the first call wrote: the same value, no library call and no storage write. |
| `UseApi.ListKey` | src/hooks/useApi.ts:262-266 | The list key is `<type>Anime-<page>-<perPage>`. |
| `UseApi.SearchParams` | src/hooks/useApi.ts:270-335 | The search-backed kinds pass:<br>- the paging as numbers;<br>- type ANIME;<br>- sort SCORE_DESC for TopRated and POPULARITY_DESC otherwise;<br>- for TopAiring and Upcoming only, the current season, the year as text and status RELEASING or NOT_YET_RELEASED.<br>- no other property, so `query`, `genres` and the rest keep `advancedSearch`'s defaults. |
| `UseApi.ListPlan` | src/hooks/useApi.ts:258-341 | A plan exists exactly for the five list kinds, so the final `else` is unreachable. Each plan has the slot named after the kind and the list key. Trending goes to `animetrending` with only the paging; the others go to `AdvancedSearch` with `SearchParams`. |
| `UseApi.ListKeysDistinct` | src/hooks/useApi.ts:262-266 | For non-negative paging, two list requests share a key only when kind, page and perPage all agree. |
| `UseApi.CreateCache` | src/hooks/useApi.ts:107-113 | Gives a cache with capacity 20 and a maximum age of 24 hours in milliseconds, or fails exactly on a malformed slot. |
| `UseApi.FetchPlanned` | src/hooks/useApi.ts:267-335 | A malformed slot propagates as a failure with no call and no write. Otherwise the result and the slot update are those of `Dispatch` on the loaded state. |
| `UseApi.FetchList` | src/hooks/useApi.ts:255-343 | An unlisted kind resolves to undefined and touches nothing. A listed kind behaves as `FetchPlanned` on its plan. |
| `UseApi.ListDispatchBounded` | src/hooks/useApi.ts:258-335 | A list cache that starts within 20 entries stays within them. |

## Left out

- **Network calls.** `fetchSkipTimes` and the other exported `fetch*` wrappers (`fetchAdvancedSearch`, `fetchAnimeData`, `fetchAnimeInfo`, `fetchAnimeEpisodes` and the rest) are left out. They build a key and call `fetchFromProxy`, which is modelled, or they perform network I/O through axios.
- **Query strings.** `URLSearchParams` encoding in `fetchAdvancedSearch` is left out: it is library code, and its key string is opaque here.
- **Module-level caches.** The caches created when the module loads (`src/hooks/useApi.ts:128-133`) are not separate members. Each is a `SessionStorageCache` from `CreateCache`.
- **The scraping library and its result types.** `@consumet/extensions` is represented only by the `lib` parameter and opaque `Obj` values.
- **Serialisation.** JSON text and parsing are not modelled. A slot is either an entry list or "malformed", and `JSON.parse` in `advancedSearch` is the `parse` parameter. Snapshots whose keys are not strings are not represented. The round trip through `JSON.stringify` and `JSON.parse` is taken to return every stored value unchanged, which `ReloadAnswersAlike` and `DispatchHitAfterReload` rely on. In the code it does not always: `undefined` inside an array comes back as `null`, and a reloaded object is a new object.
- **Numbers.** Floating point, `NaN` and the number-to-string conversion of non-integers are left out: numbers are integers.
- **Failed storage writes.** A `sessionStorage.setItem` that throws, for example on a full quota, is not modelled.
- **Concurrency and logging.**
  - `async`/`await` is sequentialised: each call runs to completion, and callers do not interleave on one cache instance.
  - `console.log`/`console.error` are left out.
- **External values.** `getCurrentSeason()` and `year` come from `src/index`, which is not part of this model; they are parameters of `ListPlan` and `FetchList`.
- **Clock.** `Date.now()` becomes the `now` and `doneAt` parameters.
- `UseApi.ListPlan`: the default values of `page` (1) and `perPage` (16) are not modelled, because every caller (src/hooks/useApi.ts:346-355) passes both.
- `UseApi.ListKeysDistinct`: proved for non-negative `page` and `perPage` only.
- `UseApi.HandleError`: models the message computation only. Logging and the rethrow of a wrapping `Error` object are left out.

Behaviours of the code that the model keeps, with the member that states each:

- `set` on a present key in a full cache still evicts the first key of the `Set` (`StoreOnFullShrinks`).
- `set` on a present key leaves it where it is in the recency order, because `Set.add` does not move a present element (`StoreKeepsPosition`).
- A slot whose text does not parse makes construction throw at line 56, so `Create` and `Load` fail and `FetchPlanned` returns `SlotUnreadable` (`Cache.Load`, `UseApi.FetchPlanned`).
- A provider's `{ error }` envelope without `data` becomes "Unknown server error", because `!response?.data` is checked first (`ErrorEnvelopeLosesMessage`, `DispatchThrowsUnknownServerError`).
- The recency order lives in memory only. The snapshot is written in `Map` order, so a reload forgets which keys were read last (`RecencyLostOnReload`).
- The size bound holds only while no key is the empty string and the slot loaded within bounds, since a falsy oldest key disables eviction (`StoreBounded`).
