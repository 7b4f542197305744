/** A cache is coherent when every entry, expired or not, holds what a read of the tables would now give for its key. */
module Coherence {
  import opened Prelude
  import opened CacheModel

  ghost predicate Coherent<V(!new)>(items: seq<Item<V>>, truth: string -> V) {
    forall x | x in items :: x.value == truth(x.key)
  }

  /** A hit on a coherent cache is what the tables say. */
  lemma {:induction false} HitIsTruth<V(!new)>(cfg: Config, c: Cache<V>, now: int, key: string, truth: string -> V)
    requires Coherent(c.items, truth)
    ensures Coherent(Do(cfg, c, now, Event.Get(key)).items, truth)
    ensures Lookup(c, now, key).Some? ==> Lookup(c, now, key) == Some(truth(key))
  {
  }

  lemma {:induction false} FillKeepsCoherent<V(!new)>(
      cfg: Config, c: Cache<V>, now: int, key: string, truth: string -> V)
    requires Coherent(c.items, truth)
    ensures Coherent(Do(cfg, c, now, Set(key, truth(key))).items, truth)
  {
    var items := Without(c.items, key) + [Item(key, truth(key), now + cfg.ttl)];
    assert forall x | x in Newest(items, cfg.max) :: x in items;
  }

  /** After a write that concerns one key, invalidating that key restores coherence. */
  lemma {:induction false} InvalidateRestores<V(!new)>(
      cfg: Config, c: Cache<V>, now: int, key: string, truth: string -> V, truth': string -> V)
    requires Coherent(c.items, truth) && forall k: string | k != key :: truth'(k) == truth(k)
    ensures Coherent(Do(cfg, c, now, Invalidate(key)).items, truth')
  {
    var items := Uncovered(c.items, key);
    forall x | x in items ensures x.value == truth'(x.key) {
      assert Covers(key, key);
    }
  }

  lemma {:induction false} SweepKeepsCoherent<V(!new)>(cfg: Config, c: Cache<V>, now: int, truth: string -> V)
    requires Coherent(c.items, truth)
    ensures Coherent(Do(cfg, c, now, Sweep).items, truth)
  {
  }

  lemma {:induction false} SweptKeepsCoherent<V(!new)>(cfg: Config, c: Cache<V>, sweeps: seq<int>, truth: string -> V)
    requires Coherent(c.items, truth)
    ensures Coherent(Swept(cfg, c, sweeps).items, truth)
    decreases |sweeps|
  {
    if sweeps != [] {
      SweepKeepsCoherent(cfg, c, sweeps[0], truth);
      SweptKeepsCoherent(cfg, Do(cfg, c, sweeps[0], Sweep), sweeps[1..], truth);
    }
  }

  /** A read through a coherent cache is what the tables say and leaves it coherent, whenever the timer sweeps it. */
  lemma {:induction false} ThroughIsTruth<V(!new)>(cfg: Config, c: Cache<V>, at: Times, key: string, truth: string -> V)
    requires Coherent(c.items, truth)
    ensures Through(cfg, c, at, key, truth(key)).1 == truth(key)
    ensures Coherent(Through(cfg, c, at, key, truth(key)).0.items, truth)
  {
    var asked := Do(cfg, c, at.now, Get(key));
    HitIsTruth(cfg, c, at.now, key, truth);
    SweptKeepsCoherent(cfg, asked, at.sweeps, truth);
    FillKeepsCoherent(cfg, Swept(cfg, asked, at.sweeps), at.later, key, truth);
  }
}
