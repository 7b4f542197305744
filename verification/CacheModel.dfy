/**
 What the hot cache is, as a value: its entries in insertion order and its counters. The class HotCache is proved
 against `Do`; this module proves what `Do` means over whole histories of calls.
 */
module CacheModel {
  import opened Prelude

  datatype Item<V> = Item(key: string, value: V, expiresAt: int)

  /** ttlMs and maxEntries after their clamping to at least 1. */
  datatype Config = Config(ttl: int, max: nat) {
    predicate Valid() { ttl >= 1 && max >= 1 }
  }

  /** `gets`, `overwritten` and `expired` count what the cache itself does not. */
  datatype Cache<V> = Cache(items: seq<Item<V>>, hits: nat, misses: nat, sets: nat, invalidations: nat, evictions: nat,
                            sweeps: nat, gets: nat, overwritten: nat, expired: nat)

  datatype Event<V> = Get(key: string) | Set(key: string, value: V) | Invalidate(pattern: string) | Clear | Sweep

  /** A call and what the clock read during it. */
  datatype Call<V> = Call(now: int, event: Event<V>)

  function Empty<V(!new)>(): Cache<V> { Cache([], 0, 0, 0, 0, 0, 0, 0, 0, 0) }

  // ---------------------------------------------------------------- the operations

  function Without<V(!new)>(items: seq<Item<V>>, key: string): (r: seq<Item<V>>)
    ensures forall x {:trigger x in r} :: x in r <==> x in items && x.key != key
  {
    if items == [] then [] else (if items[0].key == key then [] else [items[0]]) + Without(items[1..], key)
  }

  function Find<V(!new)>(items: seq<Item<V>>, key: string): (r: Option<Item<V>>)
    ensures r.Some? ==> r.value in items && r.value.key == key
    ensures r.None? ==> forall x | x in items :: x.key != key
  {
    if items == [] then None else if items[0].key == key then Some(items[0]) else Find(items[1..], key)
  }

  function Live<V(!new)>(items: seq<Item<V>>, now: int): (r: seq<Item<V>>)
    ensures forall x {:trigger x in r} :: x in r <==> x in items && x.expiresAt > now
    ensures |r| <= |items|
  {
    if items == [] then [] else (if items[0].expiresAt > now then [items[0]] else []) + Live(items[1..], now)
  }

  /** "*" covers every key, "prefix*" every key that starts with the prefix, anything else only itself. */
  predicate Covers(pattern: string, key: string) {
    if pattern != "" && pattern[|pattern| - 1] == '*' then pattern[..|pattern| - 1] <= key else pattern == key
  }

  function Uncovered<V(!new)>(items: seq<Item<V>>, pattern: string): (r: seq<Item<V>>)
    ensures forall x {:trigger x in r} :: x in r <==> x in items && !Covers(pattern, x.key)
    ensures |r| <= |items|
  {
    if items == [] then []
    else (if Covers(pattern, items[0].key) then [] else [items[0]]) + Uncovered(items[1..], pattern)
  }

  /** Evict from the head until at most `max` entries are left. */
  function Newest<V(!new)>(items: seq<Item<V>>, max: nat): (r: seq<Item<V>>)
    ensures |r| <= max
  {
    if |items| <= max then items else items[|items| - max..]
  }

  function Do<V(!new)>(cfg: Config, c: Cache<V>, now: int, e: Event<V>): Cache<V> {
    match e
    case Get(key) =>
      var found := Find(c.items, key);
      if found.None? then c.(gets := c.gets + 1, misses := c.misses + 1)
      else if found.value.expiresAt <= now then
        c.(gets := c.gets + 1, misses := c.misses + 1, expired := c.expired + 1, items := Without(c.items, key))
      else c.(gets := c.gets + 1, hits := c.hits + 1)
    case Set(key, value) =>
      var items := Without(c.items, key) + [Item(key, value, now + cfg.ttl)];
      c.(items := Newest(items, cfg.max), sets := c.sets + 1,
         overwritten := c.overwritten + if Find(c.items, key).Some? then 1 else 0,
         evictions := c.evictions + |items| - |Newest(items, cfg.max)|)
    case Invalidate(pattern) =>
      var items := Uncovered(c.items, pattern);
      c.(items := items, invalidations := c.invalidations + |c.items| - |items|)
    case Clear => c.(items := [], invalidations := c.invalidations + |c.items|)
    case Sweep =>
      var items := Live(c.items, now);
      c.(items := items, sweeps := c.sweeps + 1, expired := c.expired + |c.items| - |items|)
  }

  /** What a get returns. */
  function Lookup<V(!new)>(c: Cache<V>, now: int, key: string): Option<V> {
    var found := Find(c.items, key);
    if found.Some? && found.value.expiresAt > now then Some(found.value.value) else None
  }

  // ---------------------------------------------------------------- reading through a cache

  /** What the clock reads when a cache is asked, whenever its timer sweeps it before the answer is in, and when it is filled. */
  datatype Times = Times(now: int, sweeps: seq<int>, later: int)

  function Swept<V(!new)>(cfg: Config, c: Cache<V>, sweeps: seq<int>): Cache<V>
    decreases |sweeps|
  {
    if sweeps == [] then c else Swept(cfg, Do(cfg, c, sweeps[0], Sweep), sweeps[1..])
  }

  /** Ask the cache; on a miss take what the tables say and fill the cache with it. */
  function Through<V(!new)>(cfg: Config, c: Cache<V>, at: Times, key: string, read: V): (Cache<V>, V) {
    var asked := Do(cfg, c, at.now, Get(key));
    match Lookup(c, at.now, key)
    case Some(v) => (asked, v)
    case None => (Do(cfg, Swept(cfg, asked, at.sweeps), at.later, Set(key, read)), read)
  }

  // ---------------------------------------------------------------- histories

  function Run<V(!new)>(cfg: Config, history: seq<Call<V>>): Cache<V> {
    if history == [] then Empty()
    else
      var last := history[|history| - 1];
      Do(cfg, Run(cfg, history[..|history| - 1]), last.now, last.event)
  }

  // ---------------------------------------------------------------- what the history says

  ghost predicate ClockAscends<V(!new)>(history: seq<Call<V>>) {
    forall i, j | 0 <= i < j < |history| :: history[i].now <= history[j].now
  }

  /** The position of the last set of the key, or -1. */
  function Born<V(!new)>(history: seq<Call<V>>, key: string): (i: int)
    ensures -1 <= i < |history|
    ensures i >= 0 ==> history[i].event.Set? && history[i].event.key == key
    ensures forall j | i < j < |history| :: !(history[j].event.Set? && history[j].event.key == key)
  {
    if history == [] then -1
    else
      var n := |history| - 1;
      if history[n].event.Set? && history[n].event.key == key then n else Born(history[..n], key)
  }

  predicate Wipes<V(!new)>(e: Event<V>, key: string) { e.Clear? || (e.Invalidate? && Covers(e.pattern, key)) }

  /** The key has been invalidated since it was last set. */
  function Wiped<V(!new)>(history: seq<Call<V>>, key: string): (w: bool)
    ensures w <==> exists j :: Born(history, key) < j < |history| && Wipes(history[j].event, key)
  {
    if history == [] then false
    else
      var n := |history| - 1;
      var e := history[n].event;
      if e.Set? && e.key == key then false else
      var before := Wiped(history[..n], key);
      assert before ==> exists j :: Born(history[..n], key) < j < n && Wipes(history[j].event, key) by {
        if before {
          var j :| Born(history[..n], key) < j < n && Wipes(history[..n][j].event, key);
          assert Wipes(history[j].event, key);
        }
      }
      assert forall j | Born(history, key) < j < n :: history[j] == history[..n][j];
      Wipes(e, key) || before
  }

  /** The other keys set since the key was last set. */
  function Since<V(!new)>(history: seq<Call<V>>, key: string): (s: set<string>)
    ensures forall k :: k in s <==> k != key && Born(history, k) > Born(history, key)
  {
    if history == [] then {}
    else
      var n := |history| - 1;
      var e := history[n].event;
      if e.Set? && e.key == key then {}
      else if e.Set? then Since(history[..n], key) + {e.key}
      else Since(history[..n], key)
  }

  // ---------------------------------------------------------------- the invariant

  ghost predicate Distinct<V(!new)>(items: seq<Item<V>>) {
    forall p, q | 0 <= p < q < |items| :: items[p].key != items[q].key
  }

  ghost function Keys<V(!new)>(items: seq<Item<V>>): set<string> { set x | x in items :: x.key }

  /** The item is the last set of its key, with its expiry, and has not been invalidated since. */
  ghost predicate Faithful<V(!new)>(cfg: Config, history: seq<Call<V>>, x: Item<V>) {
    var b := Born(history, x.key);
    b >= 0 && x.value == history[b].event.value && x.expiresAt == history[b].now + cfg.ttl && !Wiped(history, x.key)
  }

  ghost predicate InOrder<V(!new)>(history: seq<Call<V>>, items: seq<Item<V>>) {
    forall p, q | 0 <= p < q < |items| :: Born(history, items[p].key) < Born(history, items[q].key)
  }

  /** A key missing from the cache was never set, invalidated, pushed out by `max` other keys, or has expired. */
  ghost predicate Excused<V(!new)>(cfg: Config, history: seq<Call<V>>, key: string) {
    var b := Born(history, key);
    b < 0 || Wiped(history, key) || |Since(history, key)| >= cfg.max ||
    history[b].now + cfg.ttl <= history[|history| - 1].now
  }

  ghost predicate Inv<V(!new)>(cfg: Config, history: seq<Call<V>>, items: seq<Item<V>>) {
    && |items| <= cfg.max
    && Distinct(items)
    && InOrder(history, items)
    && (forall x {:trigger Faithful(cfg, history, x)} | x in items :: Faithful(cfg, history, x))
    && (forall k: string {:trigger Excused(cfg, history, k)} :: k !in Keys(items) ==> Excused(cfg, history, k))
  }

  // ---------------------------------------------------------------- filters keep the order

  /** One list is the other with some entries left out. */
  ghost predicate Sublist<V(!new)>(xs: seq<Item<V>>, ys: seq<Item<V>>)
    decreases |ys|
  {
    if xs == [] then true
    else if ys == [] then false
    else if xs[0] == ys[0] then Sublist(xs[1..], ys[1..]) || Sublist(xs, ys[1..])
    else Sublist(xs, ys[1..])
  }

  lemma {:induction false} SublistOrdered<V(!new)>(history: seq<Call<V>>, xs: seq<Item<V>>, ys: seq<Item<V>>)
    requires Sublist(xs, ys) && Distinct(ys) && InOrder(history, ys)
    ensures Distinct(xs) && InOrder(history, xs) && (forall x | x in xs :: x in ys) && |xs| <= |ys|
    decreases |ys|
  {
    if xs != [] {
      if xs[0] == ys[0] && Sublist(xs[1..], ys[1..]) {
        SublistOrdered(history, xs[1..], ys[1..]);
        assert xs == [xs[0]] + xs[1..] && ys == [ys[0]] + ys[1..];
        forall p, q | 0 <= p < q < |xs|
          ensures xs[p].key != xs[q].key && Born(history, xs[p].key) < Born(history, xs[q].key)
        {
          assert xs[q] == xs[1..][q - 1];
          assert xs[q] in ys[1..];
          if p > 0 {
            assert xs[p] == xs[1..][p - 1];
          } else {
            var r :| 0 <= r < |ys[1..]| && ys[1..][r] == xs[q];
            assert ys[r + 1] == xs[q];
          }
        }
      } else {
        SublistOrdered(history, xs, ys[1..]);
      }
    }
  }

  lemma {:induction false} WithoutIsSublist<V(!new)>(items: seq<Item<V>>, key: string)
    ensures Sublist(Without(items, key), items)
  {
    if items != [] {
      WithoutIsSublist(items[1..], key);
      assert items[0].key != key ==> Without(items, key)[1..] == Without(items[1..], key);
      assert items[0].key == key ==> Without(items, key) == Without(items[1..], key);
    }
  }

  lemma {:induction false} LiveIsSublist<V(!new)>(items: seq<Item<V>>, now: int)
    ensures Sublist(Live(items, now), items)
  {
    if items != [] {
      LiveIsSublist(items[1..], now);
      assert items[0].expiresAt > now ==> Live(items, now)[1..] == Live(items[1..], now);
      assert items[0].expiresAt <= now ==> Live(items, now) == Live(items[1..], now);
    }
  }

  lemma {:induction false} UncoveredIsSublist<V(!new)>(items: seq<Item<V>>, pattern: string)
    ensures Sublist(Uncovered(items, pattern), items)
  {
    if items != [] {
      UncoveredIsSublist(items[1..], pattern);
      assert !Covers(pattern, items[0].key) ==> Uncovered(items, pattern)[1..] == Uncovered(items[1..], pattern);
      assert Covers(pattern, items[0].key) ==> Uncovered(items, pattern) == Uncovered(items[1..], pattern);
    }
  }

  // ---------------------------------------------------------------- every call keeps the invariant

  /** What one more call does to what the history says about a key. */
  lemma {:induction false} HistoryStep<V(!new)>(h: seq<Call<V>>, call: Call<V>, key: string)
    ensures var e := call.event;
            var h' := h + [call];
            if e.Set? && e.key == key then
              Born(h', key) == |h| && !Wiped(h', key) && Since(h', key) == {}
            else
              Born(h', key) == Born(h, key) && Wiped(h', key) == (Wipes(e, key) || Wiped(h, key)) &&
              Since(h', key) == Since(h, key) + if e.Set? then {e.key} else {}
  {
    assert (h + [call])[..|h|] == h;
  }

  /** A call that does not set the key and does not wipe it leaves a faithful item faithful. */
  lemma {:induction false} FaithfulStays<V(!new)>(cfg: Config, h: seq<Call<V>>, call: Call<V>, x: Item<V>)
    requires Faithful(cfg, h, x) && !(call.event.Set? && call.event.key == x.key) && !Wipes(call.event, x.key)
    ensures Faithful(cfg, h + [call], x)
  {
    HistoryStep(h, call, x.key);
  }

  lemma {:induction false} ExcusedStays<V(!new)>(cfg: Config, h: seq<Call<V>>, call: Call<V>, key: string)
    requires Excused(cfg, h, key) && !(call.event.Set? && call.event.key == key)
    requires h != [] ==> h[|h| - 1].now <= call.now
    ensures Excused(cfg, h + [call], key)
  {
    HistoryStep(h, call, key);
    assert Born(h, key) >= 0 ==> (h + [call])[Born(h, key)] == h[Born(h, key)];
    if call.event.Set? {
      SubsetSize(Since(h, key), Since(h + [call], key));
    }
  }

  lemma {:induction false} SubsetSize(a: set<string>, b: set<string>)
    requires a <= b
    ensures |a| <= |b|
  {
    if a != b {
      var x :| x in b && x !in a;
      SubsetSize(a, b - {x});
    }
  }

  lemma {:induction false} OrderStays<V(!new)>(h: seq<Call<V>>, call: Call<V>, items: seq<Item<V>>)
    requires InOrder(h, items) && forall x | x in items :: !(call.event.Set? && call.event.key == x.key)
    ensures InOrder(h + [call], items)
  {
    forall p | 0 <= p < |items| ensures Born(h + [call], items[p].key) == Born(h, items[p].key) {
      HistoryStep(h, call, items[p].key);
    }
  }

  /** Dropping entries is fine if each dropped key has an excuse. */
  lemma {:induction false} DropKeepsInv<V(!new)>(
      cfg: Config, h: seq<Call<V>>, call: Call<V>, items: seq<Item<V>>, kept: seq<Item<V>>)
    requires Inv(cfg, h, items) && Sublist(kept, items) && !call.event.Set?
    requires h != [] ==> h[|h| - 1].now <= call.now
    requires forall x | x in kept :: !Wipes(call.event, x.key)
    requires forall x | x in items && x !in kept :: Wipes(call.event, x.key) || x.expiresAt <= call.now
    ensures Inv(cfg, h + [call], kept)
  {
    var h' := h + [call];
    SublistOrdered(h, kept, items);
    OrderStays(h, call, kept);
    forall x | x in kept ensures Faithful(cfg, h', x) {
      assert Faithful(cfg, h, x);
      FaithfulStays(cfg, h, call, x);
    }
    forall k: string | k !in Keys(kept) ensures Excused(cfg, h', k) {
      DroppedIsExcused(cfg, h, call, items, kept, k);
    }
  }

  lemma {:induction false} DroppedIsExcused<V(!new)>(
      cfg: Config, h: seq<Call<V>>, call: Call<V>, items: seq<Item<V>>, kept: seq<Item<V>>, k: string)
    requires Inv(cfg, h, items) && !call.event.Set? && k !in Keys(kept)
    requires h != [] ==> h[|h| - 1].now <= call.now
    requires forall x | x in items && x !in kept :: Wipes(call.event, x.key) || x.expiresAt <= call.now
    ensures Excused(cfg, h + [call], k)
  {
    if k in Keys(items) {
      var x :| x in items && x.key == k;
      assert Faithful(cfg, h, x) && x !in kept;
      HistoryStep(h, call, k);
    } else {
      assert Excused(cfg, h, k);
      ExcusedStays(cfg, h, call, k);
    }
  }

  lemma {:induction false} DistinctFind<V(!new)>(items: seq<Item<V>>, key: string, x: Item<V>)
    requires Distinct(items) && x in items && x.key == key
    ensures Find(items, key) == Some(x)
  {
    assert Find(items, key).Some?;
  }

  lemma {:induction false} GetKeepsInv<V(!new)>(cfg: Config, h: seq<Call<V>>, c: Cache<V>, now: int, key: string)
    requires Inv(cfg, h, c.items) && (h != [] ==> h[|h| - 1].now <= now)
    ensures Inv(cfg, h + [Call(now, Get(key))], Do(cfg, c, now, Get(key)).items)
  {
    var kept := Do(cfg, c, now, Event<V>.Get(key)).items;
    WithoutIsSublist(c.items, key);
    SublistSelf(c.items);
    forall x | x in c.items && x !in kept ensures x.expiresAt <= now {
      DistinctFind(c.items, key, x);
    }
    DropKeepsInv(cfg, h, Call(now, Get(key)), c.items, kept);
  }

  lemma {:induction false} SublistSelf<V(!new)>(items: seq<Item<V>>)
    ensures Sublist(items, items)
  {
    if items != [] {
      SublistSelf(items[1..]);
    }
  }

  lemma {:induction false} SublistDrop<V(!new)>(items: seq<Item<V>>, n: nat)
    requires n <= |items|
    ensures Sublist(items[n..], items)
  {
    if n == 0 {
      SublistSelf(items);
      assert items[0..] == items;
    } else {
      SublistDrop(items[1..], n - 1);
      assert items[1..][n - 1..] == items[n..];
    }
  }

  lemma {:induction false} RestKeepsInv<V(!new)>(cfg: Config, h: seq<Call<V>>, c: Cache<V>, now: int, e: Event<V>)
    requires Inv(cfg, h, c.items) && (h != [] ==> h[|h| - 1].now <= now) && (e.Invalidate? || e.Clear? || e.Sweep?)
    ensures Inv(cfg, h + [Call(now, e)], Do(cfg, c, now, e).items)
  {
    match e
    case Invalidate(pattern) =>
      UncoveredIsSublist(c.items, pattern);
      DropKeepsInv(cfg, h, Call(now, e), c.items, Uncovered(c.items, pattern));
    case Clear => DropKeepsInv(cfg, h, Call(now, e), c.items, []);
    case Sweep =>
      LiveIsSublist(c.items, now);
      DropKeepsInv(cfg, h, Call(now, e), c.items, Live(c.items, now));
  }

  /** The entries after the re-insertion at the tail, before any eviction. */
  function Refreshed<V(!new)>(cfg: Config, items: seq<Item<V>>, now: int, key: string, value: V): seq<Item<V>> {
    Without(items, key) + [Item(key, value, now + cfg.ttl)]
  }

  lemma {:induction false} AppendNewest<V(!new)>(h: seq<Call<V>>, items: seq<Item<V>>, x: Item<V>)
    requires Distinct(items) && InOrder(h, items)
    requires forall y | y in items :: y.key != x.key && Born(h, y.key) < Born(h, x.key)
    ensures Distinct(items + [x]) && InOrder(h, items + [x])
  {
    forall p | 0 <= p < |items| ensures items[p] in items {
    }
  }

  lemma {:induction false} RestIsOlder<V(!new)>(cfg: Config, h: seq<Call<V>>, items: seq<Item<V>>, key: string)
    requires Inv(cfg, h, items)
    ensures var rest := Without(items, key);
            && Distinct(rest) && InOrder(h, rest) && |rest| <= |items|
            && forall x | x in rest :: x.key != key && Born(h, x.key) < |h|
  {
    hide Faithful, Excused, Distinct, InOrder;
    WithoutIsSublist(items, key);
    SublistOrdered(h, Without(items, key), items);
  }

  lemma {:induction false} SetOrdered<V(!new)>(
      cfg: Config, h: seq<Call<V>>, items: seq<Item<V>>, now: int, key: string, value: V)
    requires Inv(cfg, h, items)
    ensures var h' := h + [Call(now, Set(key, value))];
            var all := Refreshed(cfg, items, now, key, value);
            Distinct(all) && InOrder(h', all) && |all| <= |items| + 1
  {
    hide Inv, Without, Distinct, InOrder;
    var call := Call(now, Set(key, value));
    var h' := h + [call];
    var rest := Without(items, key);
    RestIsOlder(cfg, h, items, key);
    OrderStays(h, call, rest);
    HistoryStep(h, call, key);
    forall x | x in rest ensures x.key != key && Born(h', x.key) < |h| {
      HistoryStep(h, call, x.key);
    }
    AppendNewest(h', rest, Item(key, value, now + cfg.ttl));
  }

  lemma {:induction false} SetFaithful<V(!new)>(
      cfg: Config, h: seq<Call<V>>, items: seq<Item<V>>, now: int, key: string, value: V, x: Item<V>)
    requires Inv(cfg, h, items) && x in Refreshed(cfg, items, now, key, value)
    ensures Faithful(cfg, h + [Call(now, Set(key, value))], x)
  {
    var call := Call(now, Set(key, value));
    HistoryStep(h, call, key);
    if x in Without(items, key) {
      assert Faithful(cfg, h, x);
      FaithfulStays(cfg, h, call, x);
    }
  }

  lemma {:induction false} KeysOfDistinct<V(!new)>(items: seq<Item<V>>)
    requires Distinct(items)
    ensures |Keys(items)| == |items|
  {
    if items == [] {
      assert Keys(items) == {};
    } else {
      KeysOfDistinct(items[1..]);
      assert items == [items[0]] + items[1..];
      assert Keys(items) == {items[0].key} + Keys(items[1..]);
      assert items[0].key !in Keys(items[1..]);
    }
  }

  /** Everything behind an entry was set after it, so an evicted entry had `max` other keys set after it. */
  lemma {:induction false} EvictedIsExcused<V(!new)>(cfg: Config, h: seq<Call<V>>, all: seq<Item<V>>, k: string)
    requires cfg.Valid() && |all| == cfg.max + 1 && Distinct(all) && InOrder(h, all)
    requires k == all[0].key
    ensures Excused(cfg, h, k)
  {
    var rest := all[1..];
    KeysOfDistinct(rest);
    forall x | x in rest ensures x.key in Since(h, k) {
      var p :| 0 <= p < |rest| && rest[p] == x;
      assert all[p + 1] == x;
    }
    SubsetSize(Keys(rest), Since(h, k));
  }

  lemma {:induction false} EvictedIsHead<V(!new)>(items: seq<Item<V>>, max: nat, p: nat)
    requires |items| <= max + 1 && p < |items| && items[p] !in Newest(items, max)
    ensures |items| == max + 1 && p == 0
  {
    var kept := Newest(items, max);
    forall q | |items| - |kept| <= q < |items| ensures items[q] in kept {
      assert items[q] == kept[q - (|items| - |kept|)];
    }
  }

  lemma {:induction false} SetExcuses<V(!new)>(
      cfg: Config, h: seq<Call<V>>, items: seq<Item<V>>, now: int, key: string, value: V, k: string)
    requires cfg.Valid() && Inv(cfg, h, items) && (h != [] ==> h[|h| - 1].now <= now)
    requires k !in Keys(Newest(Refreshed(cfg, items, now, key, value), cfg.max))
    ensures Excused(cfg, h + [Call(now, Set(key, value))], k)
  {
    var call := Call(now, Set(key, value));
    var all := Refreshed(cfg, items, now, key, value);
    SetOrdered(cfg, h, items, now, key, value);
    var kept := Newest(all, cfg.max);
    assert kept[|kept| - 1] == all[|all| - 1];
    if k in Keys(all) {
      var x :| x in all && x.key == k;
      var p :| 0 <= p < |all| && all[p] == x;
      EvictedIsHead(all, cfg.max, p);
      EvictedIsExcused(cfg, h + [call], all, k);
    } else {
      assert forall x | x in items && x.key != key :: x in all;
      assert Excused(cfg, h, k);
      ExcusedStays(cfg, h, call, k);
    }
  }

  lemma {:induction false} SetKeepsInv<V(!new)>(
      cfg: Config, h: seq<Call<V>>, c: Cache<V>, now: int, key: string, value: V)
    requires cfg.Valid() && Inv(cfg, h, c.items) && (h != [] ==> h[|h| - 1].now <= now)
    ensures Inv(cfg, h + [Call(now, Set(key, value))], Do(cfg, c, now, Set(key, value)).items)
  {
    var h' := h + [Call(now, Set(key, value))];
    var all := Refreshed(cfg, c.items, now, key, value);
    var kept := Newest(all, cfg.max);
    SetOrdered(cfg, h, c.items, now, key, value);
    SublistDrop(all, |all| - |kept|);
    assert kept == all[|all| - |kept|..];
    SublistOrdered(h', kept, all);
    forall x | x in kept ensures Faithful(cfg, h', x) {
      SetFaithful(cfg, h, c.items, now, key, value, x);
    }
    forall k: string | k !in Keys(kept) ensures Excused(cfg, h', k) {
      SetExcuses(cfg, h, c.items, now, key, value, k);
    }
  }

  lemma {:induction false} RunInv<V(!new)>(cfg: Config, history: seq<Call<V>>)
    requires cfg.Valid() && ClockAscends(history)
    ensures Inv(cfg, history, Run(cfg, history).items)
  {
    if history != [] {
      var h, last := history[..|history| - 1], history[|history| - 1];
      RunInv(cfg, h);
      assert history == h + [last];
      match last.event {
        case Get(key) => GetKeepsInv(cfg, h, Run(cfg, h), last.now, key);
        case Set(key, value) => SetKeepsInv(cfg, h, Run(cfg, h), last.now, key, value);
        case _ => RestKeepsInv(cfg, h, Run(cfg, h), last.now, last.event);
      }
    }
  }

  // ---------------------------------------------------------------- what the cache promises

  /**
   A hit returns the value of the last set of the key, less than one TTL old and not invalidated since.
   */
  lemma {:induction false} HitIsLastSet<V(!new)>(cfg: Config, history: seq<Call<V>>, now: int, key: string)
    requires cfg.Valid() && ClockAscends(history) && Lookup(Run(cfg, history), now, key).Some?
    ensures var b := Born(history, key);
            b >= 0 && !Wiped(history, key) && now < history[b].now + cfg.ttl &&
            Lookup(Run(cfg, history), now, key) == Some(history[b].event.value)
  {
    RunInv(cfg, history);
    assert Faithful(cfg, history, Find(Run(cfg, history).items, key).value);
  }

  /**
   The other direction: a key that was set less than one TTL ago and not invalidated since can miss only if at
   least maxEntries distinct other keys were set after it.
   */
  lemma {:induction false} LiveMissMeansPushedOut<V(!new)>(cfg: Config, history: seq<Call<V>>, now: int, key: string)
    requires cfg.Valid() && ClockAscends(history) && (history != [] ==> history[|history| - 1].now <= now)
    requires var b := Born(history, key); b >= 0 && !Wiped(history, key) && now < history[b].now + cfg.ttl
    requires Lookup(Run(cfg, history), now, key).None?
    ensures |Since(history, key)| >= cfg.max
  {
    RunInv(cfg, history);
    var items := Run(cfg, history).items;
    assert forall x | x in items :: Faithful(cfg, history, x);
    assert Find(items, key).None?;
    assert Excused(cfg, history, key);
  }

  /** Expiry times never decrease along the insertion order, and there are never more than maxEntries entries. */
  lemma {:induction false} ExpiriesAscend<V(!new)>(cfg: Config, history: seq<Call<V>>, p: nat, q: nat)
    requires cfg.Valid() && ClockAscends(history) && p < q < |Run(cfg, history).items|
    ensures |Run(cfg, history).items| <= cfg.max
    ensures Run(cfg, history).items[p].expiresAt <= Run(cfg, history).items[q].expiresAt
    ensures Run(cfg, history).items[p].key != Run(cfg, history).items[q].key
  {
    RunInv(cfg, history);
    var items := Run(cfg, history).items;
    assert Faithful(cfg, history, items[p]) && Faithful(cfg, history, items[q]);
  }

  lemma {:induction false} InvBounds<V(!new)>(cfg: Config, h: seq<Call<V>>, items: seq<Item<V>>)
    requires Inv(cfg, h, items)
    ensures |items| <= cfg.max
  {
  }

  lemma {:induction false} HeadIsEvicted<V(!new)>(cfg: Config, items: seq<Item<V>>, all: seq<Item<V>>, x: Item<V>)
    requires |items| <= cfg.max && |all| <= |items| + 1 && x in all && x !in Newest(all, cfg.max)
    ensures x == all[0]
  {
    var p :| 0 <= p < |all| && all[p] == x;
    EvictedIsHead(all, cfg.max, p);
  }

  lemma {:induction false} EvictedIsOldest<V(!new)>(
      cfg: Config, history: seq<Call<V>>, now: int, key: string, value: V, x: Item<V>, y: Item<V>)
    requires cfg.Valid() && ClockAscends(history) && (history != [] ==> history[|history| - 1].now <= now)
    requires var all := Refreshed(cfg, Run(cfg, history).items, now, key, value);
             x in all && y in all && x !in Newest(all, cfg.max)
    ensures x.expiresAt <= y.expiresAt
  {
    hide Inv, Run, Distinct, Refreshed, Newest, Wiped;
    var h' := history + [Call(now, Set(key, value))];
    var items := Run(cfg, history).items;
    var all := Refreshed(cfg, items, now, key, value);
    RunInv(cfg, history);
    SetOrdered(cfg, history, items, now, key, value);
    SetFaithful(cfg, history, items, now, key, value, x);
    SetFaithful(cfg, history, items, now, key, value, y);
    assert ClockAscends(h');
    var q :| 0 <= q < |all| && all[q] == y;
    InvBounds(cfg, history, items);
    HeadIsEvicted(cfg, items, all, x);
    assert q > 0 ==> Born(h', all[0].key) < Born(h', all[q].key);
  }

  /** A set evicts a live entry only when every entry is live, and never the key it has just set. */
  lemma {:induction false} EvictsLiveOnlyIfAllLive<V(!new)>(
      cfg: Config, history: seq<Call<V>>, now: int, key: string, value: V)
    requires cfg.Valid() && ClockAscends(history) && (history != [] ==> history[|history| - 1].now <= now)
    ensures var before, after := Run(cfg, history).items, Do(cfg, Run(cfg, history), now, Set(key, value)).items;
            && Item(key, value, now + cfg.ttl) in after
            && forall x, y | x in before && x.key != key && x !in after && x.expiresAt > now && y in before && y.key != key ::
                 y.expiresAt > now
  {
    var items := Run(cfg, history).items;
    var all := Refreshed(cfg, items, now, key, value);
    var after := Newest(all, cfg.max);
    assert after[|after| - 1] == Item(key, value, now + cfg.ttl);
    forall x, y | x in items && x.key != key && x !in after && x.expiresAt > now && y in items && y.key != key
      ensures y.expiresAt > now
    {
      assert x in Without(items, key) && y in Without(items, key);
      EvictedIsOldest(cfg, history, now, key, value, x, y);
    }
  }

  /** Every set is accounted for, hits and misses are all the gets. */
  lemma {:induction false} CountersBalance<V(!new)>(cfg: Config, history: seq<Call<V>>)
    requires cfg.Valid() && ClockAscends(history)
    ensures var c := Run(cfg, history);
            && c.hits + c.misses == c.gets
            && c.sets == |c.items| + c.overwritten + c.expired + c.evictions + c.invalidations
  {
    if history != [] {
      var h, last := history[..|history| - 1], history[|history| - 1];
      CountersBalance(cfg, h);
      RunInv(cfg, h);
      if last.event.Get? || last.event.Set? {
        WithoutCount(Run(cfg, h).items, last.event.key);
      }
    }
  }

  // ---------------------------------------------------------------- what the counters count

  datatype Counted = Hits | Misses | Sets | Evictions | Invalidations | Sweeps | Expiries | Overwrites

  /** What one call adds. */
  function Adds<V(!new)>(cfg: Config, c: Cache<V>, call: Call<V>, what: Counted): int {
    var e := call.event;
    var lost := |c.items| - |Do(cfg, c, call.now, e).items|;
    match what
    case Hits => if e.Get? && Lookup(c, call.now, e.key).Some? then 1 else 0
    case Misses => if e.Get? && Lookup(c, call.now, e.key).None? then 1 else 0
    case Sets => if e.Set? then 1 else 0
    case Overwrites => if e.Set? && Find(c.items, e.key).Some? then 1 else 0
    case Evictions => if e.Set? then lost + (if Find(c.items, e.key).Some? then 0 else 1) else 0
    case Invalidations => if e.Invalidate? || e.Clear? then lost else 0
    case Sweeps => if e.Sweep? then 1 else 0
    case Expiries => if e.Get? || e.Sweep? then lost else 0
  }

  /** How often that has happened in the history. */
  function Tally<V(!new)>(cfg: Config, history: seq<Call<V>>, what: Counted): int {
    if history == [] then 0
    else
      var n := |history| - 1;
      Tally(cfg, history[..n], what) + Adds(cfg, Run(cfg, history[..n]), history[n], what)
  }

  /**
   Each counter counts what it is named for: gets that were answered and those that were not, sets, sweeps, entries that
   a set pushed out, that an invalidation or a clear removed, and that were found expired by a get or a sweep.
   */
  lemma {:induction false} CountersCount<V(!new)>(cfg: Config, history: seq<Call<V>>)
    requires cfg.Valid() && ClockAscends(history)
    ensures var c := Run(cfg, history);
            && c.hits == Tally(cfg, history, Hits) && c.misses == Tally(cfg, history, Misses)
            && c.sets == Tally(cfg, history, Sets) && c.sweeps == Tally(cfg, history, Sweeps)
            && c.evictions == Tally(cfg, history, Evictions) && c.invalidations == Tally(cfg, history, Invalidations)
            && c.expired == Tally(cfg, history, Expiries) && c.overwritten == Tally(cfg, history, Overwrites)
  {
    if history != [] {
      var h, last := history[..|history| - 1], history[|history| - 1];
      CountersCount(cfg, h);
      RunInv(cfg, h);
      CallAdds(cfg, Run(cfg, h), last);
      hide Do, Adds, Inv;
    }
  }

  lemma {:induction false} CallAdds<V(!new)>(cfg: Config, c: Cache<V>, call: Call<V>)
    requires Distinct(c.items)
    ensures var d := Do(cfg, c, call.now, call.event);
            && d.hits == c.hits + Adds(cfg, c, call, Hits) && d.misses == c.misses + Adds(cfg, c, call, Misses)
            && d.sets == c.sets + Adds(cfg, c, call, Sets) && d.sweeps == c.sweeps + Adds(cfg, c, call, Sweeps)
            && d.evictions == c.evictions + Adds(cfg, c, call, Evictions)
            && d.invalidations == c.invalidations + Adds(cfg, c, call, Invalidations)
            && d.expired == c.expired + Adds(cfg, c, call, Expiries)
            && d.overwritten == c.overwritten + Adds(cfg, c, call, Overwrites)
  {
    hide Distinct, Find, Without, Live, Uncovered, Newest;
    if call.event.Get? || call.event.Set? {
      WithoutCount(c.items, call.event.key);
    }
  }

  lemma {:induction false} WithoutCount<V(!new)>(items: seq<Item<V>>, key: string)
    requires Distinct(items)
    ensures |Without(items, key)| == |items| - if Find(items, key).Some? then 1 else 0
  {
    if items != [] {
      WithoutCount(items[1..], key);
      assert forall p | 0 <= p < |items[1..]| :: items[1..][p] == items[p + 1];
      assert items[0].key == key ==> Find(items[1..], key).None?;
    }
  }

  /** Invalidating a key always removes it, even a key that itself ends in an asterisk. */
  lemma {:induction false} InvalidateRemovesKey<V(!new)>(cfg: Config, c: Cache<V>, now: int, key: string)
    ensures Find(Do(cfg, c, now, Invalidate(key)).items, key).None?
  {
    assert Covers(key, key);
  }
}
