/**
 The in-process TTL cache. Each method is proved to do what CacheModel.Do says; `now` is what the clock reads during
 the call.
 */
module HotCache {
  import opened Prelude
  import opened CacheModel

  datatype Entry<V> = Entry(value: V, expiresAt: int)

  const DEFAULT_MAX_ENTRIES := 1024

  function Max(a: int, b: int): int { if a < b then b else a }

  // ---------------------------------------------------------------- filtering entry by entry

  lemma {:induction false} WithoutAbsent<V(!new)>(a: seq<Item<V>>, key: string)
    requires forall x | x in a :: x.key != key
    ensures Without(a, key) == a
  {
    if a != [] {
      WithoutAbsent(a[1..], key);
    }
  }

  /** Deleting the key of one entry leaves what is before and behind it. */
  lemma {:induction false} WithoutMiddle<V(!new)>(a: seq<Item<V>>, x: Item<V>, b: seq<Item<V>>)
    requires forall y | y in a || y in b :: y.key != x.key
    ensures Without(a + [x] + b, x.key) == a + b
  {
    if a == [] {
      assert [] + [x] + b == [x] + b;
      WithoutAbsent(b, x.key);
    } else {
      WithoutMiddle(a[1..], x, b);
      assert (a + [x] + b)[1..] == a[1..] + [x] + b;
    }
  }

  /** In a list without repeated keys an entry shares its key with nothing before or behind it. */
  lemma {:induction false} KeyIsAlone<V(!new)>(a: seq<Item<V>>, x: Item<V>, b: seq<Item<V>>)
    requires Distinct(a + [x] + b)
    ensures forall y | y in a || y in b :: y.key != x.key
  {
    var all := a + [x] + b;
    assert forall i | 0 <= i < |a| :: all[i] == a[i];
    assert forall i | 0 <= i < |b| :: all[|a| + 1 + i] == b[i];
    assert all[|a|] == x;
  }

  lemma {:induction false} WithoutAt<V(!new)>(items: seq<Item<V>>, i: nat)
    requires Distinct(items) && i < |items|
    ensures Without(items, items[i].key) == items[..i] + items[i + 1..]
    ensures Distinct(items[..i] + items[i + 1..])
  {
    assert items == items[..i] + [items[i]] + items[i + 1..];
    KeyIsAlone(items[..i], items[i], items[i + 1..]);
    WithoutMiddle(items[..i], items[i], items[i + 1..]);
  }

  lemma {:induction false} WithoutHasNone<V(!new)>(items: seq<Item<V>>, key: string)
    ensures Find(Without(items, key), key).None?
  {
  }

  /** Deleting the key of the next entry to look at. */
  lemma {:induction false} DeleteNext<V(!new)>(kept: seq<Item<V>>, x: Item<V>, rest: seq<Item<V>>)
    requires Distinct(kept + [x] + rest)
    ensures Without(kept + [x] + rest, x.key) == kept + rest && Find(kept + [x] + rest, x.key) == Some(x)
  {
    KeyIsAlone(kept, x, rest);
    WithoutMiddle(kept, x, rest);
    assert (kept + [x] + rest)[|kept|] == x;
    DistinctFind(kept + [x] + rest, x.key, x);
  }

  lemma {:induction false} LiveAppend<V(!new)>(a: seq<Item<V>>, x: Item<V>, now: int)
    ensures Live(a + [x], now) == Live(a, now) + if x.expiresAt > now then [x] else []
  {
    if a != [] {
      LiveAppend(a[1..], x, now);
      assert (a + [x])[1..] == a[1..] + [x];
    }
  }

  lemma {:induction false} UncoveredAppend<V(!new)>(a: seq<Item<V>>, x: Item<V>, pattern: string)
    ensures Uncovered(a + [x], pattern) == Uncovered(a, pattern) + if Covers(pattern, x.key) then [] else [x]
  {
    if a != [] {
      UncoveredAppend(a[1..], x, pattern);
      assert (a + [x])[1..] == a[1..] + [x];
    }
  }

  /** A pattern without a trailing asterisk covers one key. */
  lemma {:induction false} UncoveredIsWithout<V(!new)>(items: seq<Item<V>>, key: string)
    requires !(key != "" && key[|key| - 1] == '*')
    ensures Uncovered(items, key) == Without(items, key)
  {
    if items != [] {
      UncoveredIsWithout(items[1..], key);
    }
  }

  lemma {:induction false} StarCoversAll<V(!new)>(items: seq<Item<V>>)
    ensures Uncovered(items, "*") == []
  {
    if items != [] {
      StarCoversAll(items[1..]);
      assert "*"[..0] == "";
    }
  }

  /** One turn of the sweep loop: what is before `i` is filtered, what is from `i` on is untouched. */
  lemma {:induction false} SweepTurn<V(!new)>(before: seq<Item<V>>, i: nat, now: int, items: seq<Item<V>>)
    requires i < |before| && items == Live(before[..i], now) + before[i..] && Distinct(items)
    ensures Find(items, before[i].key) == Some(before[i])
    ensures Live(before[..i + 1], now) + before[i + 1..] ==
            if before[i].expiresAt > now then items else Without(items, before[i].key)
  {
    var kept := Live(before[..i], now);
    assert before[..i + 1] == before[..i] + [before[i]];
    LiveAppend(before[..i], before[i], now);
    assert items == kept + [before[i]] + before[i + 1..];
    DeleteNext(kept, before[i], before[i + 1..]);
  }

  /** One turn of the loop that deletes a family. */
  lemma {:induction false} FamilyTurn<V(!new)>(before: seq<Item<V>>, i: nat, pattern: string, items: seq<Item<V>>)
    requires i < |before| && items == Uncovered(before[..i], pattern) + before[i..] && Distinct(items)
    ensures Find(items, before[i].key) == Some(before[i])
    ensures Uncovered(before[..i + 1], pattern) + before[i + 1..] ==
            if Covers(pattern, before[i].key) then Without(items, before[i].key) else items
  {
    var kept := Uncovered(before[..i], pattern);
    assert before[..i + 1] == before[..i] + [before[i]];
    UncoveredAppend(before[..i], before[i], pattern);
    assert items == kept + [before[i]] + before[i + 1..];
    DeleteNext(kept, before[i], before[i + 1..]);
  }

  // ---------------------------------------------------------------- the map

  function ItemFor<V(!new)>(key: string, e: Entry<V>): Item<V> { Item(key, e.value, e.expiresAt) }

  ghost predicate Agrees<V(!new)>(order: seq<string>, entries: map<string, Entry<V>>, items: seq<Item<V>>) {
    && |order| == |items| && Distinct(items)
    && (forall i | 0 <= i < |order| :: order[i] in entries && items[i] == ItemFor(order[i], entries[order[i]]))
    && (forall k | k in entries :: k in order)
  }

  lemma {:induction false} AgreesWithout<V(!new)>(
      order: seq<string>, entries: map<string, Entry<V>>, items: seq<Item<V>>, i: nat)
    requires Agrees(order, entries, items) && i < |order|
    ensures Agrees(order[..i] + order[i + 1..], entries - {order[i]}, items[..i] + items[i + 1..])
  {
    var order', items', entries' := order[..i] + order[i + 1..], items[..i] + items[i + 1..], entries - {order[i]};
    WithoutAt(items, i);
    forall j | 0 <= j < |order'| ensures order'[j] in entries' && items'[j] == ItemFor(order'[j], entries'[order'[j]]) {
      var was := if j < i then j else j + 1;
      assert order'[j] == order[was] && items'[j] == items[was] && items[was].key != items[i].key;
    }
    forall k | k in entries' ensures k in order' {
      var was :| 0 <= was < |order| && order[was] == k;
      assert order'[if was < i then was else was - 1] == k;
    }
  }

  /** A JavaScript Map: the order in which the keys were inserted and what they map to. `items` says both at once. */
  class InsertionMap<V(!new)> {
    var order: seq<string>
    var entries: map<string, Entry<V>>
    ghost var items: seq<Item<V>>

    ghost predicate Valid()
      reads this
    {
      Agrees(order, entries, items)
    }

    constructor ()
      ensures Valid() && items == []
    {
      order, entries, items := [], map[], [];
    }

    /** The entry of the key, if there is one. */
    method Lookup(key: string) returns (entry: Option<Entry<V>>)
      requires Valid()
      ensures Find(items, key) == if entry.Some? then Some(ItemFor(key, entry.value)) else None
    {
      if key in entries {
        ghost var i :| 0 <= i < |order| && order[i] == key;
        DistinctFind(items, key, items[i]);
        return Some(entries[key]);
      }
      return None;
    }

    method Delete(key: string) returns (found: bool)
      requires Valid()
      modifies this
      ensures Valid()
      ensures found == Find(old(items), key).Some?
      ensures items == Without(old(items), key) && |items| == |old(items)| - if found then 1 else 0
    {
      found := key in entries;
      if found {
        var i :| 0 <= i < |order| && order[i] == key;
        assert items[i].key == key;
        DistinctFind(items, key, items[i]);
        WithoutAt(items, i);
        AgreesWithout(order, entries, items, i);
        hide Agrees;
        order, entries := order[..i] + order[i + 1..], entries - {key};
        items := items[..i] + items[i + 1..];
      } else {
        WithoutAbsent(items, key);
      }
    }

    /** A set of a key that is not there yet. */
    method Append(key: string, entry: Entry<V>)
      requires Valid() && Find(items, key).None?
      modifies this
      ensures Valid() && items == old(items) + [ItemFor(key, entry)]
    {
      order, entries, items := order + [key], entries[key := entry], items + [ItemFor(key, entry)];
    }

    lemma ValidIsDistinct()
      requires Valid()
      ensures Distinct(items)
    {
    }

    /** Map.size. */
    method Size() returns (n: nat)
      requires Valid()
      ensures n == |items|
    {
      return |order|;
    }

    /** A copy of the keys. */
    method Keys() returns (keys: seq<string>)
      requires Valid()
      ensures |keys| == |items| && forall i | 0 <= i < |keys| :: keys[i] == items[i].key
    {
      return order;
    }

    method Clear()
      modifies this
      ensures Valid() && items == []
    {
      order, entries, items := [], map[], [];
    }
  }

  // ---------------------------------------------------------------- the cache

  class HotCache<V(!new)> {
    const ttlMs: int
    const maxEntries: int
    const entries: InsertionMap<V>
    var size: nat
    var hits: nat
    var misses: nat
    var sets: nat
    var invalidations: nat
    var evictions: nat
    var sweeps: nat
    ghost var gets: nat
    ghost var overwritten: nat
    ghost var expired: nat

    ghost predicate Valid()
      reads this, entries
    {
      ttlMs >= 1 && maxEntries >= 1 && entries.Valid() && size == |entries.items| <= maxEntries
    }

    ghost function Cfg(): (cfg: Config)
      requires ttlMs >= 1 && maxEntries >= 1
      ensures cfg.Valid()
    {
      Config(ttlMs, maxEntries)
    }

    ghost function Model(): (c: Cache<V>)
      reads this, entries
    {
      Cache(entries.items, hits, misses, sets, invalidations, evictions, sweeps, gets, overwritten, expired)
    }

    constructor (ttlMs: int, maxEntries: Option<int>)
      ensures Valid() && Model() == Empty() && fresh(entries)
      ensures this.ttlMs == Max(1, ttlMs)
      ensures this.maxEntries == Max(1, if maxEntries.Some? then maxEntries.value else DEFAULT_MAX_ENTRIES)
    {
      this.ttlMs := Max(1, ttlMs);
      this.maxEntries := Max(1, if maxEntries.Some? then maxEntries.value else DEFAULT_MAX_ENTRIES);
      entries := new InsertionMap();
      size, hits, misses, sets, invalidations, evictions, sweeps := 0, 0, 0, 0, 0, 0, 0;
      gets, overwritten, expired := 0, 0, 0;
    }

    method Get(key: string, now: int) returns (value: Option<V>)
      requires Valid()
      modifies this, entries
      ensures Valid()
      ensures value == Lookup(old(Model()), now, key)
      ensures Model() == Do(Cfg(), old(Model()), now, Event.Get(key))
    {
      hide entries.Valid;
      gets := gets + 1;
      var entry := entries.Lookup(key);
      if entry.None? {
        misses := misses + 1;
        return None;
      }
      if entry.value.expiresAt <= now {
        var _ := entries.Delete(key);
        size := entries.Size();
        misses, expired := misses + 1, expired + 1;
        return None;
      }
      hits := hits + 1;
      return Some(entry.value.value);
    }

    method EvictOldest()
      requires entries.Valid() && |entries.items| > 0
      modifies this`evictions, entries
      ensures entries.Valid() && evictions == old(evictions) + 1
      ensures entries.items == old(entries.items)[1..]
    {
      entries.ValidIsDistinct();
      hide entries.Valid, Distinct;
      WithoutAt(entries.items, 0);
      assert entries.items[..0] + entries.items[0 + 1..] == entries.items[1..];
      var keys := entries.Keys();
      var _ := entries.Delete(keys[0]);
      evictions := evictions + 1;
    }

    /** The loop of set that evicts while there are too many entries. */
    method Trim()
      requires entries.Valid() && maxEntries >= 1
      modifies this`evictions, entries
      ensures entries.Valid()
      ensures entries.items == Newest(old(entries.items), maxEntries)
      ensures evictions == old(evictions) + |old(entries.items)| - |entries.items|
    {
      hide entries.Valid;
      ghost var all := entries.items;
      var n := entries.Size();
      while n > maxEntries
        invariant entries.Valid() && n == |entries.items| <= |all|
        invariant entries.items == all[|all| - n..]
        invariant n >= maxEntries || n == |all|
        invariant evictions == old(evictions) + |all| - n
      {
        EvictOldest();
        n := entries.Size();
      }
    }

    method Set(key: string, value: V, now: int)
      requires Valid()
      modifies this, entries
      ensures Valid()
      ensures Model() == Do(Cfg(), old(Model()), now, Event.Set(key, value))
    {
      hide entries.Valid, Find, Without, Newest;
      WithoutHasNone(entries.items, key);
      var found := entries.Delete(key);
      overwritten := overwritten + if found then 1 else 0;
      entries.Append(key, Entry(value, now + ttlMs));
      sets := sets + 1;
      Trim();
      size := entries.Size();
    }

    method Invalidate(pattern: string) returns (removed: nat)
      requires Valid()
      modifies this, entries
      ensures Valid()
      ensures removed == |old(Model()).items| - |Model().items|
      ensures forall now :: Model() == Do(Cfg(), old(Model()), now, Event.Invalidate(pattern))
    {
      hide entries.Valid;
      removed := 0;
      if pattern == "*" {
        StarCoversAll(entries.items);
        removed := entries.Size();
        entries.Clear();
      } else if pattern != "" && pattern[|pattern| - 1] == '*' {
        removed := DeleteFamily(pattern);
      } else {
        UncoveredIsWithout(entries.items, pattern);
        var found := entries.Delete(pattern);
        removed := if found then 1 else 0;
      }
      if removed > 0 {
        invalidations := invalidations + removed;
        size := entries.Size();
      }
    }

    /** The loop over a copy of the keys that deletes those with the prefix. */
    method DeleteFamily(pattern: string) returns (removed: nat)
      requires entries.Valid() && pattern != "" && pattern[|pattern| - 1] == '*'
      modifies entries
      ensures entries.Valid()
      ensures entries.items == Uncovered(old(entries.items), pattern)
      ensures removed == |old(entries.items)| - |entries.items|
    {
      hide entries.Valid, Distinct;
      var prefix := pattern[..|pattern| - 1];
      var keys := entries.Keys();
      ghost var before := entries.items;
      removed := 0;
      for i := 0 to |keys|
        invariant entries.Valid() && |before| == |keys|
        invariant entries.items == Uncovered(before[..i], pattern) + before[i..]
        invariant removed == |keys| - |entries.items|
      {
        entries.ValidIsDistinct();
        FamilyTurn(before, i, pattern, entries.items);
        if prefix <= keys[i] {
          var _ := entries.Delete(keys[i]);
          removed := removed + 1;
        }
      }
      assert before[..|keys|] == before;
    }

    method Clear()
      requires Valid()
      modifies this, entries
      ensures Valid()
      ensures forall now :: Model() == Do(Cfg(), old(Model()), now, Event.Clear)
    {
      var n := entries.Size();
      invalidations := invalidations + n;
      entries.Clear();
      size := 0;
    }

    /**
     The loop over the entries that deletes the expired ones. The source deletes while it iterates, which a Map allows:
     the entries still to come are visited all the same.
     */
    method DeleteExpired(cutoff: int) returns (removed: nat)
      requires entries.Valid()
      modifies entries
      ensures entries.Valid()
      ensures entries.items == Live(old(entries.items), cutoff)
      ensures removed == |old(entries.items)| - |entries.items|
    {
      hide entries.Valid, Distinct;
      var keys := entries.Keys();
      ghost var before := entries.items;
      removed := 0;
      for i := 0 to |keys|
        invariant entries.Valid() && |before| == |keys|
        invariant entries.items == Live(before[..i], cutoff) + before[i..]
        invariant removed == |keys| - |entries.items|
      {
        entries.ValidIsDistinct();
        SweepTurn(before, i, cutoff, entries.items);
        var entry := entries.Lookup(keys[i]);
        if entry.Some? && entry.value.expiresAt <= cutoff {
          var _ := entries.Delete(keys[i]);
          removed := removed + 1;
        }
      }
      assert before[..|keys|] == before;
    }

    method Sweep(now: int) returns (removed: nat)
      requires Valid()
      modifies this, entries
      ensures Valid()
      ensures removed == |old(Model()).items| - |Model().items|
      ensures Model() == Do(Cfg(), old(Model()), now, Event.Sweep)
    {
      hide entries.Valid;
      removed := DeleteExpired(now);
      expired := expired + removed;
      if removed > 0 {
        size := entries.Size();
      }
      sweeps := sweeps + 1;
    }

    /** The reported size is the number of entries. */
    method Stats()
      returns (size: nat, hits: nat, misses: nat, sets: nat, invalidations: nat, evictions: nat, sweeps: nat)
      requires Valid()
      ensures size == |Model().items| == this.size
      ensures (hits, misses, sets, invalidations, evictions, sweeps) ==
              (Model().hits, Model().misses, Model().sets, Model().invalidations, Model().evictions, Model().sweeps)
    {
      size := entries.Size();
      return size, this.hits, this.misses, this.sets, this.invalidations, this.evictions, this.sweeps;
    }
  }
}
