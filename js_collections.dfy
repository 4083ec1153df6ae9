/**
 * JavaScript's `Set<string>` and `Map<string, V>` as values. Both iterate in
 * insertion order: `add`/`set` of a present key leaves it where it is, and
 * `delete` removes it so that a later insertion goes to the end. A Set is a
 * sequence without repetitions; a Map is such a sequence of keys (its order)
 * together with a map from key to value.
 */
module JsCollections {

  predicate Distinct<T(==)>(s: seq<T>)
  {
    forall i, j :: 0 <= i < j < |s| ==> s[i] != s[j]
  }

  /** `Set.prototype.add`: a new element goes to the end, a present one does not move. */
  function SetAdd(s: seq<string>, x: string): (r: seq<string>)
    ensures forall y :: y in r <==> y in s || y == x
    ensures Distinct(s) ==> Distinct(r)
    ensures |s| <= |r| && r[..|s|] == s
    ensures |r| == if x in s then |s| else |s| + 1
  {
    if x in s then s else s + [x]
  }

  /** `Set.prototype.delete`: the other elements keep their relative order. */
  function SetDelete(s: seq<string>, x: string): (r: seq<string>)
    ensures forall y :: y in r <==> y in s && y != x
    ensures Distinct(s) ==> Distinct(r)
    ensures Distinct(s) && x in s ==> |r| == |s| - 1
    ensures x !in s ==> r == s
  {
    if s == [] then []
    else if s[0] == x then SetDelete(s[1..], x)
    else
      var rest := SetDelete(s[1..], x);
      if Distinct(s) then DistinctCons(s[0], rest); [s[0]] + rest else [s[0]] + rest
  }

  /** On a repetition-free set, deleting the element at position `i` keeps the others in their order. */
  lemma {:induction false} SetDeleteAt(s: seq<string>, x: string, i: nat)
    requires Distinct(s) && i < |s| && s[i] == x
    ensures SetDelete(s, x) == s[..i] + s[i + 1..]
  {
    if i == 0 {
      assert x !in s[1..];
    } else {
      var t := s[1..];
      assert Distinct(t);
      assert s[0] != x;
      SetDeleteAt(t, x, i - 1);
      assert SetDelete(s, x) == [s[0]] + SetDelete(t, x);
      assert s[..i] == [s[0]] + t[..i - 1];
      assert s[i + 1..] == t[i..];
    }
  }

  lemma DistinctCons(a: string, rest: seq<string>)
    requires a !in rest && Distinct(rest)
    ensures Distinct([a] + rest)
  {
    forall i, j | 0 <= i < j < |[a] + rest| ensures ([a] + rest)[i] != ([a] + rest)[j] {
      if i > 0 { assert ([a] + rest)[i] == rest[i - 1]; }
      assert ([a] + rest)[j] == rest[j - 1];
    }
  }

  /** Deleting the first element of a repetition-free sequence drops the head. */
  lemma SetDeleteFirst(s: seq<string>)
    requires Distinct(s) && |s| > 0
    ensures SetDelete(s, s[0]) == s[1..]
  {
    assert s[0] !in s[1..];
  }

  /** A sequence without repetitions has as many distinct elements as it has positions. */
  lemma {:induction false} DistinctCardinality<T>(s: seq<T>)
    requires Distinct(s)
    ensures |set x | x in s| == |s|
  {
    if s != [] {
      DistinctCardinality(s[1..]);
      assert (set x | x in s) == (set x | x in s[1..]) + {s[0]};
      assert s[0] !in s[1..];
    }
  }

  /** A JavaScript `Map<string, V>`: its keys in insertion order, and its entries. */
  datatype OrderedMap<V> = OrderedMap(order: seq<string>, items: map<string, V>)

  /** The order lists every key exactly once. */
  ghost predicate WellFormed<V>(m: OrderedMap<V>)
  {
    Distinct(m.order) && forall k :: k in m.order <==> k in m.items
  }

  function EmptyMap<V>(): (m: OrderedMap<V>)
    ensures WellFormed(m) && m.items == map[]
  {
    OrderedMap([], map[])
  }

  /** `Map.prototype.size`. */
  function Size<V>(m: OrderedMap<V>): nat
  {
    |m.order|
  }

  /** In a well-formed map the size is the number of entries. */
  lemma SizeIsEntryCount<V>(m: OrderedMap<V>)
    requires WellFormed(m)
    ensures Size(m) == |m.items|
  {
    DistinctCardinality(m.order);
    assert m.items.Keys == set x | x in m.order;
  }

  /** `Map.prototype.set`: a new key goes to the end, a present key keeps its place and gets the new value. */
  function MapSet<V>(m: OrderedMap<V>, k: string, v: V): (r: OrderedMap<V>)
    ensures WellFormed(m) ==> WellFormed(r)
    ensures r.items == m.items[k := v]
    ensures k in m.items && WellFormed(m) ==> r.order == m.order
    ensures k !in m.items && WellFormed(m) ==> r.order == m.order + [k]
  {
    OrderedMap(SetAdd(m.order, k), m.items[k := v])
  }

  /** `Map.prototype.delete`. */
  function MapDelete<V>(m: OrderedMap<V>, k: string): (r: OrderedMap<V>)
    ensures WellFormed(m) ==> WellFormed(r)
    ensures r.items == m.items - {k}
    ensures r.order == SetDelete(m.order, k)
  {
    OrderedMap(SetDelete(m.order, k), m.items - {k})
  }

  /** `Array.from(m.entries())`: the (key, value) pairs in insertion order. */
  function Entries<V>(m: OrderedMap<V>): (es: seq<(string, V)>)
    requires WellFormed(m)
    ensures |es| == |m.order|
    ensures forall i :: 0 <= i < |es| ==> es[i] == (m.order[i], m.items[m.order[i]])
  {
    seq(|m.order|, i requires 0 <= i < |m.order| => (m.order[i], m.items[m.order[i]]))
  }

  /**
   * `new Map(entries)`: the pairs are set one after the other, so for a
   * repeated key the last value wins and the first position is kept.
   */
  function FromEntries<V>(es: seq<(string, V)>): (m: OrderedMap<V>)
    ensures WellFormed(m)
  {
    if es == [] then EmptyMap()
    else
      var m0 := FromEntries(es[..|es| - 1]);
      MapSet(m0, es[|es| - 1].0, es[|es| - 1].1)
  }

  /** For any entry list, every key listed is a key of `new Map(es)`. */
  lemma {:induction false} FromEntriesHasListed<V>(es: seq<(string, V)>, i: nat)
    requires i < |es|
    ensures es[i].0 in FromEntries(es).items
  {
    if i < |es| - 1 {
      FromEntriesHasListed(es[..|es| - 1], i);
    }
  }

  /** For any entry list, every key of `new Map(es)` is listed in `es`. */
  lemma {:induction false} FromEntriesOnlyListed<V>(es: seq<(string, V)>, k: string)
    requires k in FromEntries(es).items
    ensures exists i :: 0 <= i < |es| && es[i].0 == k
  {
    if k != es[|es| - 1].0 {
      var init := es[..|es| - 1];
      FromEntriesOnlyListed(init, k);
      var i :| 0 <= i < |init| && init[i].0 == k;
      assert es[i].0 == k;
    }
  }

  /** For any entry list, each key of `new Map(es)` holds the value of its last occurrence. */
  lemma {:induction false} FromEntriesLastWins<V>(es: seq<(string, V)>, i: nat)
    requires i < |es| && forall j :: i < j < |es| ==> es[j].0 != es[i].0
    ensures es[i].0 in FromEntries(es).items && FromEntries(es).items[es[i].0] == es[i].1
  {
    if i < |es| - 1 {
      var init := es[..|es| - 1];
      FromEntriesLastWins(init, i);
      assert es[|es| - 1].0 != es[i].0;
    }
  }

  /** The map made of the first `n` keys of `m`. */
  function Prefix<V>(m: OrderedMap<V>, n: nat): OrderedMap<V>
    requires WellFormed(m) && n <= |m.order|
  {
    OrderedMap(m.order[..n], map k | k in m.order[..n] :: m.items[k])
  }

  lemma PrefixStep<V>(m: OrderedMap<V>, n: nat)
    requires WellFormed(m) && 0 < n <= |m.order|
    ensures MapSet(Prefix(m, n - 1), m.order[n - 1], m.items[m.order[n - 1]]) == Prefix(m, n)
  {
    var p, k := Prefix(m, n - 1), m.order[n - 1];
    assert k !in p.order by {
      forall i | 0 <= i < n - 1 ensures m.order[i] != k { }
    }
    assert p.order + [k] == m.order[..n];
    assert p.items[k := m.items[k]] == Prefix(m, n).items;
  }

  lemma EntriesStep<V>(m: OrderedMap<V>, n: nat)
    requires WellFormed(m) && 0 < n <= |m.order|
    ensures FromEntries(Entries(m)[..n])
         == MapSet(FromEntries(Entries(m)[..n - 1]), m.order[n - 1], m.items[m.order[n - 1]])
  {
    var es := Entries(m)[..n];
    assert es[..n - 1] == Entries(m)[..n - 1];
  }

  lemma PrefixEmpty<V>(m: OrderedMap<V>)
    requires WellFormed(m)
    ensures FromEntries(Entries(m)[..0]) == Prefix(m, 0)
  {
    assert Entries(m)[..0] == [];
    assert Prefix(m, 0).items == map[];
  }

  lemma {:induction false} FromEntriesPrefix<V>(m: OrderedMap<V>, n: nat)
    requires WellFormed(m) && n <= |m.order|
    ensures FromEntries(Entries(m)[..n]) == Prefix(m, n)
  {
    if n == 0 {
      PrefixEmpty(m);
    } else {
      EntriesStep(m, n);
      FromEntriesPrefix(m, n - 1);
      PrefixStep(m, n);
    }
  }

  /** Reloading a map from its own entry list gives back the same map, order included. */
  lemma FromEntriesOfEntries<V>(m: OrderedMap<V>)
    requires WellFormed(m)
    ensures FromEntries(Entries(m)) == m
  {
    FromEntriesPrefix(m, |m.order|);
    assert Entries(m)[..|m.order|] == Entries(m);
    PrefixFull(m);
  }

  /** The prefix of all keys is the whole map. */
  lemma PrefixFull<V>(m: OrderedMap<V>)
    requires WellFormed(m)
    ensures Prefix(m, |m.order|) == m
  {
    var p := Prefix(m, |m.order|);
    assert m.order[..|m.order|] == m.order;
    assert p.items.Keys == m.items.Keys;
    assert forall k | k in p.items :: p.items[k] == m.items[k];
  }
}
