/**
 * What `get`, `set` and reloading from the storage slot guarantee, stated on
 * the value-level description in module Cache (src/hooks/useApi.ts:50-98).
 */
module CacheProperties {
  import opened Wrappers
  import opened JsValues
  import opened JsCollections
  import opened Cache

  /** The size every instance stays within, given keys that are never the empty string. */
  function Bound(maxSize: int): (b: nat)
    ensures b >= 1 && b >= maxSize
  {
    if maxSize < 1 then 1 else maxSize
  }

  /** Moving a present key to the end of a repetition-free sequence. */
  lemma {:induction false} MoveToEnd(keys: seq<string>, key: string)
    requires Distinct(keys)
    ensures SetAdd(SetDelete(keys, key), key) == SetDelete(keys, key) + [key]
  {
    assert key !in SetDelete(keys, key);
  }

  // ---------------------------------------------------------------------
  // The two collections stay in step.

  /** A `get` keeps `keys` and `cache` listing the same keys. */
  lemma LookupKeepsSynced(st: CacheState, key: string, now: int, maxAge: int)
    requires Synced(st)
    ensures Synced(Lookup(st, key, now, maxAge).state)
  {
  }

  /** A `set` keeps `keys` and `cache` listing the same keys. */
  lemma StoreKeepsSynced(st: CacheState, key: string, value: Value, now: int, maxSize: int)
    requires Synced(st)
    ensures Synced(Store(st, key, value, now, maxSize))
  {
  }

  // ---------------------------------------------------------------------
  // Expiry and recency in get.

  /** A key that is not in the Map: undefined, and nothing changes. */
  lemma LookupMissing(st: CacheState, key: string, now: int, maxAge: int)
    requires key !in st.cache.items
    ensures Lookup(st, key, now, maxAge) == Access(st, Undefined)
  {
  }

  /**
   * A present key is removed from both collections, and undefined returned,
   * exactly when it is older than `maxAge`; every other entry stays.
   */
  lemma LookupExpiry(st: CacheState, key: string, now: int, maxAge: int)
    requires Synced(st) && key in st.cache.items
    ensures var r := Lookup(st, key, now, maxAge);
      (key !in r.state.cache.items && key !in r.state.keys) <==> now - st.cache.items[key].timestamp > maxAge
    ensures var r := Lookup(st, key, now, maxAge);
      now - st.cache.items[key].timestamp > maxAge ==>
        r.value == Undefined && r.state.cache.items == st.cache.items - {key}
        && r.state.keys == SetDelete(st.keys, key)
        && r.state.cache.order == SetDelete(st.cache.order, key)
  {
  }

  /**
   * A key that is not in the cache after eviction (the usual store after a
   * miss) is appended at the most recent end of `keys` and at the end of the
   * Map's order, which is the order the snapshot is written in.
   */
  lemma StoreNewKeyLast(st: CacheState, key: string, value: Value, now: int, maxSize: int)
    requires Synced(st) && key !in Evict(st, maxSize).cache.items
    ensures var r := Store(st, key, value, now, maxSize);
      r.keys == Evict(st, maxSize).keys + [key] && r.cache.order == Evict(st, maxSize).cache.order + [key]
  {
    assert Synced(Evict(st, maxSize));
  }

  /** An entry aged exactly `maxAge` is still a hit. */
  lemma LookupAtMaxAge(st: CacheState, key: string, now: int, maxAge: int)
    requires key in st.cache.items && now - st.cache.items[key].timestamp == maxAge
    ensures Lookup(st, key, now, maxAge).value == st.cache.items[key].value
    ensures key in Lookup(st, key, now, maxAge).state.cache.items
  {
  }

  /**
   * A fresh hit returns the stored value, leaves the Map (order included)
   * untouched and moves the key to the most recent end of `keys`.
   */
  lemma LookupHit(st: CacheState, key: string, now: int, maxAge: int)
    requires Synced(st) && key in st.cache.items
    requires !IsExpired(st.cache.items[key], now, maxAge)
    ensures var r := Lookup(st, key, now, maxAge);
      r.value == st.cache.items[key].value
      && r.state.cache == st.cache
      && r.state.keys == SetDelete(st.keys, key) + [key]
  {
    MoveToEnd(st.keys, key);
  }

  // ---------------------------------------------------------------------
  // Eviction, overwriting and the size bound in set.

  /** With room left, nothing is evicted and only `key`'s entry changes. */
  lemma StoreWithRoom(st: CacheState, key: string, value: Value, now: int, maxSize: int)
    requires Size(st.cache) < maxSize
    ensures Store(st, key, value, now, maxSize).cache.items == st.cache.items[key := CacheItem(value, now)]
  {
  }

  /**
   * Overwriting a present key that survives eviction keeps its position in
   * both collections (`Set.add` and `Map.set` of a present key do not move it).
   */
  lemma StoreKeepsPosition(st: CacheState, key: string, value: Value, now: int, maxSize: int)
    requires Synced(st) && key in Evict(st, maxSize).cache.items
    ensures var r := Store(st, key, value, now, maxSize);
      r.keys == Evict(st, maxSize).keys && r.cache.order == Evict(st, maxSize).cache.order
      && r.cache.items[key] == CacheItem(value, now)
  {
    StoreKeepsSynced(st, key, value, now, maxSize);
    assert Synced(Evict(st, maxSize));
  }

  /** In particular, with room left an overwrite changes neither order nor size. */
  lemma StoreOverwriteWithRoom(st: CacheState, key: string, value: Value, now: int, maxSize: int)
    requires Synced(st) && key in st.cache.items && Size(st.cache) < maxSize
    ensures var r := Store(st, key, value, now, maxSize);
      r.keys == st.keys && r.cache.order == st.cache.order && Size(r.cache) == Size(st.cache)
  {
    StoreKeepsPosition(st, key, value, now, maxSize);
  }

  /**
   * When the Map is full and the first key of `keys` is not "", that key is
   * evicted, even if `key` itself is already present. If it is `key`, the key
   * is re-inserted at the most recent end.
   */
  lemma StoreEvictsFirst(st: CacheState, key: string, value: Value, now: int, maxSize: int)
    requires Synced(st) && Size(st.cache) >= maxSize && |st.keys| > 0 && st.keys[0] != ""
    ensures var r := Store(st, key, value, now, maxSize);
      st.keys[0] != key ==> st.keys[0] !in r.cache.items && st.keys[0] !in r.keys
    ensures var r := Store(st, key, value, now, maxSize);
      st.keys[0] == key ==> r.keys == st.keys[1..] + [key]
  {
    var oldest := st.keys[0];
    var e := Evict(st, maxSize);
    assert e == CacheState(MapDelete(st.cache, oldest), SetDelete(st.keys, oldest));
    SetDeleteFirst(st.keys);
    assert e.keys == st.keys[1..];
    if oldest == key {
      assert key !in e.keys;
    }
  }

  /** A full Map loses an entry when an already present key other than the oldest is set. */
  lemma StoreOnFullShrinks(st: CacheState, key: string, value: Value, now: int, maxSize: int)
    requires Synced(st) && Size(st.cache) >= maxSize && |st.keys| > 0 && st.keys[0] != ""
    requires key in st.cache.items && key != st.keys[0]
    ensures Size(Store(st, key, value, now, maxSize).cache) == Size(st.cache) - 1
  {
    var oldest := st.keys[0];
    assert oldest in st.cache.order;
    var e := Evict(st, maxSize);
    assert Size(e.cache) == Size(st.cache) - 1;
    assert key in e.cache.items;
  }

  /** After `set(key, value)`, a `get(key)` within `maxAge` of it returns `value`. */
  lemma StoreThenLookup(st: CacheState, key: string, value: Value, now: int, later: int,
                        maxSize: int, maxAge: int)
    requires later - now <= maxAge
    ensures Lookup(Store(st, key, value, now, maxSize), key, later, maxAge).value == value
  {
  }

  /**
   * Sizes stay within `max(maxSize, 1)`, provided they start there and the
   * empty string is never a key (it would never be evicted, see line 88).
   */
  lemma StoreBounded(st: CacheState, key: string, value: Value, now: int, maxSize: int)
    requires Synced(st) && Size(st.cache) <= Bound(maxSize) && "" !in st.keys && key != ""
    ensures var r := Store(st, key, value, now, maxSize);
      Size(r.cache) <= Bound(maxSize) && "" !in r.keys
  {
    var e := Evict(st, maxSize);
    assert Synced(e);
    if Size(st.cache) >= maxSize && Size(st.cache) > 0 {
      assert st.cache.order[0] in st.keys;
      assert st.keys[0] in st.cache.order;
      assert Size(e.cache) == Size(st.cache) - 1;
    }
    assert Size(e.cache) < maxSize || Size(e.cache) == 0 || Size(e.cache) < Size(st.cache);
  }

  /** A `get` never makes the cache bigger, so it keeps the bound too. */
  lemma LookupBounded(st: CacheState, key: string, now: int, maxAge: int)
    requires Synced(st)
    ensures Size(Lookup(st, key, now, maxAge).state.cache) <= Size(st.cache)
    ensures "" !in st.keys ==> "" !in Lookup(st, key, now, maxAge).state.keys
  {
  }

  // ---------------------------------------------------------------------
  // Persistence.

  /**
   * Reloading what `set` wrote gives back the same Map, in the same order;
   * the new `keys` follow the Map's order, not the old recency order.
   */
  lemma ReloadSnapshot(st: CacheState)
    requires Synced(st)
    ensures Load(SnapshotOf(st)) == Some(CacheState(st.cache, st.cache.order))
  {
    FromEntriesOfEntries(st.cache);
  }

  /** A reloaded instance answers every `get` with the same value as the instance that wrote the slot. */
  lemma ReloadAnswersAlike(st: CacheState, key: string, now: int, maxAge: int)
    requires Synced(st)
    ensures Load(SnapshotOf(st)).Some?
    ensures Lookup(Load(SnapshotOf(st)).value, key, now, maxAge).value == Lookup(st, key, now, maxAge).value
  {
    ReloadSnapshot(st);
  }

  /**
   * Timestamps are persisted, so an entry expired at `now` in the writing
   * instance is expired, and removed, at any later time in a reloaded one.
   */
  lemma ExpiredStaysExpiredAfterReload(st: CacheState, key: string, now: int, later: int, maxAge: int)
    requires Synced(st) && key in st.cache.items && IsExpired(st.cache.items[key], now, maxAge)
    requires now <= later
    ensures Load(SnapshotOf(st)).Some?
    ensures var r := Lookup(Load(SnapshotOf(st)).value, key, later, maxAge);
      r.value == Undefined && key !in r.state.cache.items
  {
    ReloadSnapshot(st);
  }

  /**
   * The recency refreshed by a `get` is not persisted: after `a` then `b`
   * are set and `a` is read, `a` is the newest key in memory, but a reloaded
   * instance has `a` first again and a full `set` evicts it there.
   */
  lemma RecencyLostOnReload(ia: CacheItem, ib: CacheItem, v: Value, now: int, maxAge: int)
    requires !IsExpired(ia, now, maxAge)
    ensures var before := CacheState(OrderedMap(["a", "b"], map["a" := ia, "b" := ib]), ["a", "b"]);
      var read := Lookup(before, "a", now, maxAge).state;
      read.keys == ["b", "a"] && Load(SnapshotOf(read)) == Some(before)
      && "b" !in Store(read, "c", v, now, 2).cache.items
      && "a" !in Store(before, "c", v, now, 2).cache.items
  {
    var m := OrderedMap(["a", "b"], map["a" := ia, "b" := ib]);
    ReadMovesA(m, now, maxAge);
    ReloadRestoresOrder(m);
    FullStoreEvictsFirst(m, ["a", "b"], v, now);
    FullStoreEvictsFirst(m, ["b", "a"], v, now);
  }

  /** With both "a" and "b" cached at capacity 2, setting "c" evicts whichever key comes first. */
  lemma FullStoreEvictsFirst(m: OrderedMap<CacheItem>, keys: seq<string>, v: Value, now: int)
    requires m.order == ["a", "b"] && m.items.Keys == {"a", "b"}
    requires keys == ["a", "b"] || keys == ["b", "a"]
    ensures keys[0] !in Store(CacheState(m, keys), "c", v, now, 2).cache.items
  {
    assert Synced(CacheState(m, keys));
    StoreEvictsFirst(CacheState(m, keys), "c", v, now, 2);
  }

  lemma ReadMovesA(m: OrderedMap<CacheItem>, now: int, maxAge: int)
    requires m == OrderedMap(["a", "b"], m.items) && "a" in m.items
    requires !IsExpired(m.items["a"], now, maxAge)
    ensures Lookup(CacheState(m, ["a", "b"]), "a", now, maxAge).state == CacheState(m, ["b", "a"])
  {
    assert SetDelete(["a", "b"], "a") == ["b"] by { SetDeleteFirst(["a", "b"]); }
  }

  lemma ReloadRestoresOrder(m: OrderedMap<CacheItem>)
    requires m == OrderedMap(["a", "b"], m.items) && m.items.Keys == {"a", "b"}
    ensures Load(SnapshotOf(CacheState(m, ["b", "a"]))) == Some(CacheState(m, ["a", "b"]))
  {
    assert Synced(CacheState(m, ["b", "a"]));
    ReloadSnapshot(CacheState(m, ["b", "a"]));
  }

  // ---------------------------------------------------------------------
  // Worked scenarios.

  /** Capacity 2: setting k1, k2, k3 evicts k1 and keeps the other two. */
  lemma ScenarioEviction(a: Value, b: Value, c: Value)
    ensures var st := Store(Store(Store(EmptyState(), "k1", a, 0, 2), "k2", b, 0, 2), "k3", c, 0, 2);
      Lookup(st, "k1", 0, 1000).value == Undefined
      && Lookup(st, "k2", 0, 1000).value == b
      && Lookup(st, "k3", 0, 1000).value == c
  {
    OneStore(a);
    SecondStore(a, b);
    ThirdStoreEvictsFirst(a, b, c);
  }

  lemma OneStore(a: Value)
    ensures Store(EmptyState(), "k1", a, 0, 2)
         == CacheState(OrderedMap(["k1"], map["k1" := CacheItem(a, 0)]), ["k1"])
  {
  }

  lemma SecondStore(a: Value, b: Value)
    ensures Store(CacheState(OrderedMap(["k1"], map["k1" := CacheItem(a, 0)]), ["k1"]), "k2", b, 0, 2)
         == CacheState(OrderedMap(["k1", "k2"], map["k1" := CacheItem(a, 0), "k2" := CacheItem(b, 0)]), ["k1", "k2"])
  {
  }

  lemma ThirdStoreEvictsFirst(a: Value, b: Value, c: Value)
    ensures var s2 := CacheState(OrderedMap(["k1", "k2"], map["k1" := CacheItem(a, 0), "k2" := CacheItem(b, 0)]),
                                 ["k1", "k2"]);
      Store(s2, "k3", c, 0, 2).cache.items == map["k2" := CacheItem(b, 0), "k3" := CacheItem(c, 0)]
  {
    var s2 := CacheState(OrderedMap(["k1", "k2"], map["k1" := CacheItem(a, 0), "k2" := CacheItem(b, 0)]),
                         ["k1", "k2"]);
    SetDeleteFirst(s2.keys);
    assert Evict(s2, 2).cache.items == map["k2" := CacheItem(b, 0)];
  }

  /** Stored at 0 with `maxAge` 1000: still there at 1000, gone at 1001. */
  lemma ScenarioExpiry(a: Value)
    ensures Lookup(Store(EmptyState(), "k1", a, 0, 20), "k1", 1000, 1000).value == a
    ensures Lookup(Store(EmptyState(), "k1", a, 0, 20), "k1", 1001, 1000).value == Undefined
  {
  }
}
