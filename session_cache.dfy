/**
 * The session-storage-backed response cache of `createOptimizedSessionStorageCache`
 * (src/hooks/useApi.ts:50-98).
 *
 * An instance holds a JavaScript `Map` from key to item (`cache`) and a
 * JavaScript `Set` of the same keys (`keys`) whose iteration order serves as
 * the recency order. Entries expire lazily on `get` once they are older than
 * `maxAge`; `set` evicts the first key of `keys` when the Map has reached
 * `maxSize` and then writes every entry, in the Map's own order, to a named
 * `sessionStorage` slot, from which a new instance is seeded.
 *
 * The functions `Load`, `Lookup` and `Store` describe one construction, one
 * `get` and one `set` on values; the class carries out the same steps on its
 * fields and is proved to agree with them.
 */
module Cache {
  import opened Wrappers
  import opened JsValues
  import opened JsCollections

  /** `interface CacheItem`: a stored value and the time it was stored at. */
  datatype CacheItem = CacheItem(value: Value, timestamp: int)

  type Entry = (string, CacheItem)

  /** What one `sessionStorage` slot holds, as line 56 reads it. */
  datatype SlotContent =
    | Missing                        // getItem returns null
    | EmptyText                      // the empty string, which `|| '[]'` also replaces
    | Snapshot(entries: seq<Entry>)  // the JSON text of an entry list
    | Malformed                      // text that JSON.parse or the Map constructor rejects

  /** The browser's `sessionStorage`, one content per slot name. */
  class SessionStorage {
    var slots: map<string, SlotContent>

    constructor (slots: map<string, SlotContent>)
      ensures this.slots == slots
    {
      this.slots := slots;
    }
  }

  /** `sessionStorage.getItem(name)`. */
  function ReadSlot(slots: map<string, SlotContent>, name: string): (c: SlotContent)
    ensures name !in slots ==> c.Missing?
  {
    if name in slots then slots[name] else Missing
  }

  /** The two collections of one instance: the `cache` Map and the `keys` Set. */
  datatype CacheState = CacheState(cache: OrderedMap<CacheItem>, keys: seq<string>)

  /** `keys` lists exactly the keys of `cache`, each once. */
  ghost predicate Synced(st: CacheState)
  {
    WellFormed(st.cache) && Distinct(st.keys) && forall k :: k in st.keys <==> k in st.cache.items
  }

  function EmptyState(): (st: CacheState)
    ensures Synced(st) && st.cache.items == map[] && st.keys == []
  {
    CacheState(EmptyMap(), [])
  }

  /**
   * Construction (lines 55-58): `new Map(JSON.parse(getItem(slot) || '[]'))`
   * and `new Set(cache.keys())`. None when JSON.parse or the Map constructor
   * throws, which line 56 does not catch.
   */
  function Load(content: SlotContent): (r: Option<CacheState>)
    ensures r.None? <==> content.Malformed?
    ensures r.Some? ==> Synced(r.value) && r.value.keys == r.value.cache.order
    ensures content.Missing? || content.EmptyText? ==> r == Some(EmptyState())
  {
    match content
    case Missing => Some(EmptyState())
    case EmptyText => Some(EmptyState())
    case Snapshot(es) =>
      var m := FromEntries(es);
      Some(CacheState(m, m.order))
    case Malformed => None
  }

  /** `isItemExpired` (lines 60-62). */
  predicate IsExpired(item: CacheItem, now: int, maxAge: int)
    // an item is still fresh when exactly `maxAge` has passed
    ensures now - item.timestamp == maxAge ==> !IsExpired(item, now, maxAge)
    // with a non-negative `maxAge`, an item read no later than it was stored is fresh
    ensures maxAge >= 0 && now <= item.timestamp ==> !IsExpired(item, now, maxAge)
  {
    now - item.timestamp > maxAge
  }

  /** The state after a `get` and the value it returns. */
  datatype Access = Access(state: CacheState, value: Value)

  /**
   * `get(key)` at time `now` (lines 72-84): a fresh hit moves the key to the
   * end of `keys` and returns the stored value; an expired entry is deleted
   * from both collections; both misses return undefined.
   */
  function Lookup(st: CacheState, key: string, now: int, maxAge: int): (a: Access)
    // a stored, unexpired item is returned; anything else reads as undefined
    ensures key in st.cache.items && !IsExpired(st.cache.items[key], now, maxAge) ==>
      a.value == st.cache.items[key].value && a.state.cache == st.cache
    ensures key !in st.cache.items || IsExpired(st.cache.items[key], now, maxAge) ==> a.value == Undefined
    // only an expired `key` leaves the Map; every other entry stays as it was
    ensures a.state.cache.items == if key in st.cache.items && IsExpired(st.cache.items[key], now, maxAge)
                                   then st.cache.items - {key} else st.cache.items
    ensures a.state.cache.order == if key in st.cache.items && IsExpired(st.cache.items[key], now, maxAge)
                                   then SetDelete(st.cache.order, key) else st.cache.order
  {
    if key in st.cache.items then
      var item := st.cache.items[key];
      if !IsExpired(item, now, maxAge) then
        Access(CacheState(st.cache, SetAdd(SetDelete(st.keys, key), key)), item.value)
      else
        Access(CacheState(MapDelete(st.cache, key), SetDelete(st.keys, key)), Undefined)
    else
      Access(st, Undefined)
  }

  /** `keys.values().next().value`: the first key, or undefined when there is none. */
  function Oldest(keys: seq<string>): (v: Value)
    ensures |keys| > 0 ==> v == Str(keys[0])
    ensures |keys| == 0 ==> v == Undefined
  {
    if |keys| > 0 then Str(keys[0]) else Undefined
  }

  /** Lines 86-92: when the Map has reached `maxSize`, delete the first key if it is truthy. */
  function Evict(st: CacheState, maxSize: int): (e: CacheState)
    // below capacity, or when the first key is "" (falsy), nothing is evicted
    ensures Size(st.cache) < maxSize || |st.keys| == 0 || st.keys[0] == "" ==> e == st
    // otherwise the first key of `keys` leaves both collections
    ensures Size(st.cache) >= maxSize && |st.keys| > 0 && st.keys[0] != "" ==>
      e.cache.items == st.cache.items - {st.keys[0]} && e.keys == SetDelete(st.keys, st.keys[0])
      && e.cache.order == SetDelete(st.cache.order, st.keys[0])
    ensures Synced(st) ==> Synced(e)
  {
    if Size(st.cache) >= maxSize && Truthy(Oldest(st.keys)) then
      var oldest := st.keys[0];
      CacheState(MapDelete(st.cache, oldest), SetDelete(st.keys, oldest))
    else
      st
  }

  /** `set(key, value)` at time `now` (lines 85-96), apart from the storage write. */
  function Store(st: CacheState, key: string, value: Value, now: int, maxSize: int): (r: CacheState)
    // `key` now holds the value stamped with `now`, and is in `keys`
    ensures key in r.cache.items && r.cache.items[key] == CacheItem(value, now) && key in r.keys
    // every other entry is the one `st` held, unless it was the evicted one
    ensures forall k :: k != key && k in r.cache.items ==> k in st.cache.items && r.cache.items[k] == st.cache.items[k]
    ensures forall k :: k != key && k in st.cache.items && k !in r.cache.items ==>
      Size(st.cache) >= maxSize && |st.keys| > 0 && k == st.keys[0]
  {
    var evicted := Evict(st, maxSize);
    CacheState(MapSet(evicted.cache, key, CacheItem(value, now)), SetAdd(evicted.keys, key))
  }

  /** What `updateSessionStorage` (lines 64-69) writes: every entry, in the Map's order. */
  function SnapshotOf(st: CacheState): (c: SlotContent)
    requires WellFormed(st.cache)
    ensures c.Snapshot? && |c.entries| == Size(st.cache)
  {
    Snapshot(Entries(st.cache))
  }

  /** The object returned by `createOptimizedSessionStorageCache`. */
  class SessionStorageCache {
    const maxSize: int
    const maxAge: int
    const storageKey: string   // the slot name, `cacheKey` in the source
    const storage: SessionStorage
    var cache: OrderedMap<CacheItem>
    var keys: seq<string>

    ghost predicate Valid()
      reads this
    {
      Synced(CacheState(cache, keys))
    }

    function State(): CacheState
      reads this
    {
      CacheState(cache, keys)
    }

    /** Lines 55-58, for a slot that parses. */
    constructor (maxSize: int, maxAge: int, storageKey: string, storage: SessionStorage)
      requires !ReadSlot(storage.slots, storageKey).Malformed?
      ensures Valid()
      ensures Load(ReadSlot(storage.slots, storageKey)) == Some(State())
      ensures this.maxSize == maxSize && this.maxAge == maxAge
      ensures this.storageKey == storageKey && this.storage == storage
    {
      this.maxSize := maxSize;
      this.maxAge := maxAge;
      this.storageKey := storageKey;
      this.storage := storage;
      var content := ReadSlot(storage.slots, storageKey);
      var loaded: OrderedMap<CacheItem> := if content.Snapshot? then FromEntries(content.entries) else EmptyMap();
      cache := loaded;
      keys := loaded.order;
    }

    /**
     * `createOptimizedSessionStorageCache(maxSize, maxAge, cacheKey)`: None
     * when the slot does not parse, where the source throws.
     */
    static method Create(maxSize: int, maxAge: int, storageKey: string, storage: SessionStorage)
      returns (r: Option<SessionStorageCache>)
      ensures r.None? <==> ReadSlot(storage.slots, storageKey).Malformed?
      ensures r.Some? ==> fresh(r.value) && r.value.Valid()
      ensures r.Some? ==> Load(ReadSlot(storage.slots, storageKey)) == Some(r.value.State())
      ensures r.Some? ==> r.value.maxSize == maxSize && r.value.maxAge == maxAge
      ensures r.Some? ==> r.value.storageKey == storageKey && r.value.storage == storage
    {
      if ReadSlot(storage.slots, storageKey).Malformed? {
        return None;
      }
      var c := new SessionStorageCache(maxSize, maxAge, storageKey, storage);
      return Some(c);
    }

    /** `get(key)` (lines 72-84). It changes the two collections only and writes nothing to storage. */
    method Get(key: string, now: int) returns (v: Value)
      requires Valid()
      modifies this
      ensures Valid()
      ensures Access(State(), v) == Lookup(old(State()), key, now, maxAge)
      ensures unchanged(storage)
    {
      if key in cache.items {
        var item := cache.items[key];
        if !IsExpired(item, now, maxAge) {
          keys := SetDelete(keys, key);
          keys := SetAdd(keys, key);
          return item.value;
        }
        cache := MapDelete(cache, key);
        keys := SetDelete(keys, key);
      }
      return Undefined;
    }

    /** `set(key, value)` (lines 85-96): evict, insert, then write the whole Map to the slot. */
    method Set(key: string, value: Value, now: int)
      requires Valid()
      modifies this, storage
      ensures Valid()
      ensures State() == Store(old(State()), key, value, now, maxSize)
      ensures storage.slots == old(storage.slots)[storageKey := SnapshotOf(State())]
    {
      if Size(cache) >= maxSize {
        var oldestKey := Oldest(keys);
        if Truthy(oldestKey) {
          cache := MapDelete(cache, oldestKey.s);
          keys := SetDelete(keys, oldestKey.s);
        }
      }
      keys := SetAdd(keys, key);
      cache := MapSet(cache, key, CacheItem(value, now));
      UpdateSessionStorage();
    }

    /** `updateSessionStorage` (lines 64-69). */
    method UpdateSessionStorage()
      requires WellFormed(cache)
      modifies storage
      ensures storage.slots == old(storage.slots)[storageKey := SnapshotOf(State())]
    {
      storage.slots := storage.slots[storageKey := Snapshot(Entries(cache))];
    }
  }
}
