/**
 Cached readers whose calls overlap. A call asks the cache, and on a miss reads the table and fills the cache, each in
 a step of its own; a writer changes the table in one step and invalidates in another. Between the steps of one call
 any number of steps of other calls may happen.
 */
module Staleness {
  import opened Prelude
  import opened CacheModel

  datatype Act<V> =
    | Ask(id: nat, key: string)      // cache.get
    | Select(id: nat, key: string)   // the SELECT of a call that missed
    | Store(id: nat, key: string)    // cache.set with what the SELECT returned; the call answers it
    | Abort(id: nat)                 // the SELECT throws
    | Write(key: string, value: V)   // a writer's statement
    | Wipe(pattern: string)          // cache.invalidate
    | WipeAll
    | SweepUp

  datatype Step<V> = Step(now: int, act: Act<V>)

  /** A cached value, with the steps at which it was read and stored. */
  datatype Tagged<V> = Tagged(value: V, readAt: nat, storedAt: nat)

  datatype Phase<V> = Missed | Holding(value: V, readAt: nat)

  datatype Caller<V> = Caller(key: string, phase: Phase<V>)

  datatype State<V> = State(cache: Cache<Tagged<V>>, callers: map<nat, Caller<V>>)

  /** What the table holds for the key after the history. */
  function TableAt<V(!new)>(init: string -> V, h: seq<Step<V>>, key: string): V {
    if h == [] then init(key)
    else
      var a := h[|h| - 1].act;
      if a.Write? && a.key == key then a.value else TableAt(init, h[..|h| - 1], key)
  }

  predicate Enabled<V(!new)>(s: State<V>, a: Act<V>) {
    match a
    case Ask(id, _) => id !in s.callers
    case Select(id, key) => id in s.callers && s.callers[id] == Caller(key, Missed)
    case Store(id, key) => id in s.callers && s.callers[id].key == key && s.callers[id].phase.Holding?
    case Abort(id) => id in s.callers && s.callers[id].phase.Missed?
    case _ => true
  }

  function Next<V(!new)>(cfg: Config, init: string -> V, h: seq<Step<V>>, s: State<V>, step: Step<V>): State<V> {
    var now := step.now;
    match step.act
    case Ask(id, key) =>
      var asked := Do(cfg, s.cache, now, Get(key));
      if Lookup(s.cache, now, key).Some? then s.(cache := asked)
      else State(asked, s.callers[id := Caller(key, Missed)])
    case Select(id, key) => s.(callers := s.callers[id := Caller(key, Holding(TableAt(init, h, key), |h|))])
    case Store(id, key) =>
      if !Enabled(s, step.act) then s
      else
        var held := s.callers[id].phase;
        State(Do(cfg, s.cache, now, Set(key, Tagged(held.value, held.readAt, |h|))), s.callers - {id})
    case Abort(id) => s.(callers := s.callers - {id})
    case Write(_, _) => s
    case Wipe(pattern) => s.(cache := Do(cfg, s.cache, now, Invalidate(pattern)))
    case WipeAll => s.(cache := Do(cfg, s.cache, now, Clear))
    case SweepUp => s.(cache := Do(cfg, s.cache, now, Sweep))
  }

  function Run<V(!new)>(cfg: Config, init: string -> V, h: seq<Step<V>>): State<V> {
    if h == [] then State(Empty(), map[])
    else
      var before := h[..|h| - 1];
      Next(cfg, init, before, Run(cfg, init, before), h[|h| - 1])
  }

  ghost predicate IsRun<V(!new)>(cfg: Config, init: string -> V, h: seq<Step<V>>) {
    h != [] ==> IsRun(cfg, init, h[..|h| - 1]) && Enabled(Run(cfg, init, h[..|h| - 1]), h[|h| - 1].act)
  }

  // ---------------------------------------------------------------- where values come from

  predicate Covering<V(!new)>(a: Act<V>, key: string) { a.WipeAll? || (a.Wipe? && Covers(a.pattern, key)) }

  /** The value is what the table held when call `id` read the key at step `readAt`. */
  ghost predicate ReadAt<V(!new)>(init: string -> V, h: seq<Step<V>>, id: nat, key: string, value: V, readAt: nat) {
    readAt < |h| && h[readAt].act == Select(id, key) && TableAt(init, h[..readAt], key) == value
  }

  ghost predicate StoredFrom<V(!new)>(init: string -> V, h: seq<Step<V>>, key: string, t: Tagged<V>) {
    && t.readAt < t.storedAt < |h|
    && h[t.storedAt].act.Store? && h[t.storedAt].act.key == key
    && ReadAt(init, h, h[t.storedAt].act.id, key, t.value, t.readAt)
  }

  ghost predicate Unwiped<V(!new)>(h: seq<Step<V>>, from: nat, key: string) {
    forall q: nat | from < q < |h| :: !Covering(h[q].act, key)
  }

  ghost predicate Sourced<V(!new)>(cfg: Config, init: string -> V, h: seq<Step<V>>, x: Item<Tagged<V>>) {
    && StoredFrom(init, h, x.key, x.value)
    && x.expiresAt == h[x.value.storedAt].now + cfg.ttl
    && Unwiped(h, x.value.storedAt, x.key)
  }

  ghost predicate CallerSourced<V(!new)>(init: string -> V, h: seq<Step<V>>, id: nat, c: Caller<V>) {
    c.phase.Holding? ==> ReadAt(init, h, id, c.key, c.phase.value, c.phase.readAt)
  }

  ghost predicate Inv<V(!new)>(cfg: Config, init: string -> V, h: seq<Step<V>>, s: State<V>) {
    (forall x {:trigger Sourced(cfg, init, h, x)} | x in s.cache.items :: Sourced(cfg, init, h, x)) &&
    (forall id {:trigger CallerSourced(init, h, id, s.callers[id])} | id in s.callers ::
       CallerSourced(init, h, id, s.callers[id]))
  }

  lemma {:induction false} ReadStays<V(!new)>(
      init: string -> V, h: seq<Step<V>>, step: Step<V>, id: nat, key: string, value: V, readAt: nat)
    requires ReadAt(init, h, id, key, value, readAt)
    ensures ReadAt(init, h + [step], id, key, value, readAt)
  {
    assert (h + [step])[..readAt] == h[..readAt];
  }

  lemma {:induction false} SourcedStays<V(!new)>(
      cfg: Config, init: string -> V, h: seq<Step<V>>, step: Step<V>, x: Item<Tagged<V>>)
    requires Sourced(cfg, init, h, x) && !Covering(step.act, x.key)
    ensures Sourced(cfg, init, h + [step], x)
  {
    ReadStays(init, h, step, h[x.value.storedAt].act.id, x.key, x.value.value, x.value.readAt);
  }

  /** What a step leaves in the cache was there before, or is what a Store has just put there. */
  lemma {:induction false} ItemsAfter<V(!new)>(
      cfg: Config, init: string -> V, h: seq<Step<V>>, s: State<V>, step: Step<V>, x: Item<Tagged<V>>)
    requires Enabled(s, step.act) && x in Next(cfg, init, h, s, step).cache.items
    ensures (x in s.cache.items && !Covering(step.act, x.key)) ||
            (step.act.Store? &&
             var held := s.callers[step.act.id].phase;
             x == Item(step.act.key, Tagged(held.value, held.readAt, |h|), step.now + cfg.ttl))
  {
    if step.act.Store? {
      var held := s.callers[step.act.id].phase;
      var all := Without(s.cache.items, step.act.key) + [Item(step.act.key, Tagged(held.value, held.readAt, |h|), step.now + cfg.ttl)];
      assert x in Newest(all, cfg.max) && x in all;
    }
  }

  lemma {:induction false} CallersAfter<V(!new)>(
      cfg: Config, init: string -> V, h: seq<Step<V>>, s: State<V>, step: Step<V>, id: nat)
    requires Enabled(s, step.act) && id in Next(cfg, init, h, s, step).callers
    ensures var c := Next(cfg, init, h, s, step).callers[id];
            || (id in s.callers && c == s.callers[id])
            || c.phase.Missed?
            || (step.act == Select(id, c.key) && c.phase == Holding(TableAt(init, h, c.key), |h|))
  {
  }

  lemma {:induction false} NextKeepsInv<V(!new)>(
      cfg: Config, init: string -> V, h: seq<Step<V>>, s: State<V>, step: Step<V>)
    requires Inv(cfg, init, h, s) && Enabled(s, step.act)
    ensures Inv(cfg, init, h + [step], Next(cfg, init, h, s, step))
  {
    hide Next;
    var h' := h + [step];
    var s' := Next(cfg, init, h, s, step);
    forall x | x in s'.cache.items ensures Sourced(cfg, init, h', x) {
      ItemsAfter(cfg, init, h, s, step, x);
      if x in s.cache.items && !Covering(step.act, x.key) {
        SourcedStays(cfg, init, h, step, x);
      } else {
        var c := s.callers[step.act.id];
        assert CallerSourced(init, h, step.act.id, c);
        ReadStays(init, h, step, step.act.id, c.key, c.phase.value, c.phase.readAt);
      }
    }
    forall id | id in s'.callers ensures CallerSourced(init, h', id, s'.callers[id]) {
      CallersAfter(cfg, init, h, s, step, id);
      if id in s.callers && s'.callers[id] == s.callers[id] && s.callers[id].phase.Holding? {
        assert CallerSourced(init, h, id, s.callers[id]);
        ReadStays(init, h, step, id, s.callers[id].key, s.callers[id].phase.value, s.callers[id].phase.readAt);
      }
      assert h'[..|h|] == h;
    }
  }

  lemma {:induction false} RunInv<V(!new)>(cfg: Config, init: string -> V, h: seq<Step<V>>)
    requires IsRun(cfg, init, h)
    ensures Inv(cfg, init, h, Run(cfg, init, h))
  {
    if h != [] {
      var before := h[..|h| - 1];
      RunInv(cfg, init, before);
      NextKeepsInv(cfg, init, before, Run(cfg, init, before), h[|h| - 1]);
      assert h == before + [h[|h| - 1]];
    }
  }

  // ---------------------------------------------------------------- the results

  /** What a step answers to its caller, if it answers. */
  function Answer<V(!new)>(cfg: Config, init: string -> V, h: seq<Step<V>>, step: Step<V>): Option<V> {
    var s := Run(cfg, init, h);
    match step.act
    case Ask(_, key) =>
      var hit := Lookup(s.cache, step.now, key);
      if hit.Some? then Some(hit.value.value) else None
    case Store(id, key) => if Enabled(s, step.act) then Some(s.callers[id].phase.value) else None
    case _ => None
  }

  /**
   Whatever the overlap, an answer was read from the table by a call that stored it in the cache less than one TTL
   ago, and nothing has invalidated the key since it was stored.
   */
  lemma {:induction false} AnswersAreLessThanOneTtlOld<V(!new)>(
      cfg: Config, init: string -> V, h: seq<Step<V>>, step: Step<V>)
    returns (t: Tagged<V>)
    requires cfg.Valid() && IsRun(cfg, init, h + [step]) && Answer(cfg, init, h, step).Some?
    ensures Answer(cfg, init, h, step) == Some(t.value)
    ensures StoredFrom(init, h + [step], step.act.key, t) && Unwiped(h + [step], t.storedAt, step.act.key)
    ensures step.now < (h + [step])[t.storedAt].now + cfg.ttl
  {
    var s := Run(cfg, init, h);
    assert (h + [step])[..|h|] == h;
    RunInv(cfg, init, h);
    if step.act.Ask? {
      var x := Find(s.cache.items, step.act.key).value;
      assert Sourced(cfg, init, h, x);
      SourcedStays(cfg, init, h, step, x);
      t := x.value;
    } else {
      var c := s.callers[step.act.id];
      assert CallerSourced(init, h, step.act.id, c);
      ReadStays(init, h, step, step.act.id, c.key, c.phase.value, c.phase.readAt);
      t := Tagged(c.phase.value, c.phase.readAt, |h|);
    }
  }

  lemma {:induction false} TableUnchanged<V(!new)>(init: string -> V, h: seq<Step<V>>, from: nat, key: string)
    requires from <= |h| && forall p | from <= p < |h| :: !(h[p].act.Write? && h[p].act.key == key)
    ensures TableAt(init, h, key) == TableAt(init, h[..from], key)
  {
    if |h| == from {
      assert h[..from] == h;
    } else {
      TableUnchanged(init, h[..|h| - 1], from, key);
      assert h[..|h| - 1][..from] == h[..from];
    }
  }

  ghost predicate WritesKey<V(!new)>(h: seq<Step<V>>, p: nat, key: string) {
    p < |h| && h[p].act.Write? && h[p].act.key == key
  }

  /** Every writer of the key has invalidated it after writing. */
  ghost predicate WritersDone<V(!new)>(h: seq<Step<V>>, key: string) {
    forall p: nat {:trigger WritesKey(h, p, key)} | WritesKey(h, p, key) :: exists q: nat :: p < q < |h| && Covering(h[q].act, key)
  }

  /** A finished writer wrote before the entry that outlived its invalidation was stored. */
  lemma {:induction false} WroteBeforeStore<V(!new)>(
      cfg: Config, init: string -> V, h: seq<Step<V>>, x: Item<Tagged<V>>, p: nat)
    requires Sourced(cfg, init, h, x) && WritersDone(h, x.key) && WritesKey(h, p, x.key)
    ensures p < x.value.storedAt && p != x.value.readAt
  {
    var q :| p < q < |h| && Covering(h[q].act, x.key);
    assert q <= x.value.storedAt;
  }

  /**
   Once every writer of the key has invalidated it, a hit is what the table holds now exactly if the table held the
   same when the call that filled the cache selected the value and when it set it.
   */
  lemma {:induction false} HitIsCurrentExactly<V(!new)>(
      cfg: Config, init: string -> V, h: seq<Step<V>>, now: int, key: string)
    requires IsRun(cfg, init, h) && WritersDone(h, key)
    requires Lookup(Run(cfg, init, h).cache, now, key).Some?
    ensures var t := Lookup(Run(cfg, init, h).cache, now, key).value;
            && t.readAt < t.storedAt < |h|
            && (t.value == TableAt(init, h, key) <==>
                  TableAt(init, h[..t.readAt], key) == TableAt(init, h[..t.storedAt], key))
  {
    RunInv(cfg, init, h);
    var x := Find(Run(cfg, init, h).cache.items, key).value;
    assert Sourced(cfg, init, h, x);
    forall p | x.value.storedAt <= p < |h| ensures !(h[p].act.Write? && h[p].act.key == key) {
      if WritesKey(h, p, key) {
        WroteBeforeStore(cfg, init, h, x, p);
      }
    }
    TableUnchanged(init, h, x.value.storedAt, key);
  }

  /** So it is current unless a write fell between the SELECT and the set. */
  lemma {:induction false} HitIsCurrentUnlessSplit<V(!new)>(
      cfg: Config, init: string -> V, h: seq<Step<V>>, now: int, key: string)
    requires IsRun(cfg, init, h) && WritersDone(h, key)
    requires Lookup(Run(cfg, init, h).cache, now, key).Some?
    ensures var t := Lookup(Run(cfg, init, h).cache, now, key).value;
            (forall p: nat | t.readAt < p < t.storedAt :: !WritesKey(h, p, key)) ==> t.value == TableAt(init, h, key)
  {
    HitIsCurrentExactly(cfg, init, h, now, key);
    RunInv(cfg, init, h);
    var x := Find(Run(cfg, init, h).cache.items, key).value;
    assert Sourced(cfg, init, h, x);
    var t := x.value;
    if forall p: nat | t.readAt < p < t.storedAt :: !WritesKey(h, p, key) {
      var filled := h[..t.storedAt];
      forall p | t.readAt <= p < |filled| ensures !(filled[p].act.Write? && filled[p].act.key == key) {
        assert p > t.readAt ==> !WritesKey(h, p, key);
      }
      TableUnchanged(init, filled, t.readAt, key);
      assert filled[..t.readAt] == h[..t.readAt];
    }
  }

  // ---------------------------------------------------------------- stale answers that do occur

  lemma {:induction false} RunAppend<V(!new)>(cfg: Config, init: string -> V, h: seq<Step<V>>, step: Step<V>)
    requires IsRun(cfg, init, h) && Enabled(Run(cfg, init, h), step.act)
    ensures IsRun(cfg, init, h + [step]) && Run(cfg, init, h + [step]) == Next(cfg, init, h, Run(cfg, init, h), step)
    ensures forall key :: TableAt(init, h + [step], key) ==
                          if step.act.Write? && step.act.key == key then step.act.value else TableAt(init, h, key)
  {
    assert (h + [step])[..|h|] == h;
  }

  /** A whole uninterrupted call that misses: it stores what the table holds. */
  lemma {:induction false} ReadThrough<V(!new)>(
      cfg: Config, init: string -> V, h: seq<Step<V>>, key: string) returns (h': seq<Step<V>>)
    requires cfg.Valid() && IsRun(cfg, init, h)
    requires Run(cfg, init, h).cache.items == [] && Run(cfg, init, h).callers == map[]
    ensures h' == h + [Step(0, Ask(1, key)), Step(0, Select(1, key)), Step(0, Store(1, key))]
    ensures IsRun(cfg, init, h') && TableAt(init, h', key) == TableAt(init, h, key)
    ensures Run(cfg, init, h').cache.items == [Item(key, Tagged(TableAt(init, h, key), |h| + 1, |h| + 2), cfg.ttl)]
  {
    var a, b, c := Step(0, Act<V>.Ask(1, key)), Step(0, Act<V>.Select(1, key)), Step(0, Act<V>.Store(1, key));
    RunAppend(cfg, init, h, a);
    RunAppend(cfg, init, h + [a], b);
    RunAppend(cfg, init, h + [a] + [b], c);
    h' := h + [a] + [b] + [c];
  }

  /** A reader whose SELECT and set are split by a writer leaves the old value behind for a whole TTL. */
  lemma {:induction false} SplitReadIsStale<V(!new)>(cfg: Config, init: string -> V, key: string, value: V, now: int)
    returns (h: seq<Step<V>>)
    requires cfg.Valid() && 0 <= now < cfg.ttl && init(key) != value
    ensures IsRun(cfg, init, h) && WritersDone(h, key) && TableAt(init, h, key) == value
    ensures (forall step | step in h :: step.now == 0) && Answer(cfg, init, h, Step(now, Ask(2, key))) == Some(init(key))
  {
    hide IsRun, Run, TableAt;
    var a, b, c := Step(0, Act<V>.Ask(1, key)), Step(0, Act<V>.Select(1, key)), Step(0, Act<V>.Write(key, value));
    var d, e := Step(0, Act<V>.Wipe(key)), Step(0, Act<V>.Store(1, key));
    var h0: seq<Step<V>> := [];
    NothingYet(cfg, init, key);
    RunAppend(cfg, init, h0, a);
    RunAppend(cfg, init, h0 + [a], b);
    RunAppend(cfg, init, h0 + [a] + [b], c);
    RunAppend(cfg, init, h0 + [a] + [b] + [c], d);
    RunAppend(cfg, init, h0 + [a] + [b] + [c] + [d], e);
    h := h0 + [a] + [b] + [c] + [d] + [e];
    assert h == [a, b, c, d, e];
    assert Run(cfg, init, h).cache.items == [Item(key, Tagged(init(key), 1, 4), cfg.ttl)];
    forall p: nat | WritesKey(h, p, key) ensures exists q: nat :: p < q < |h| && Covering(h[q].act, key) {
      assert Covers(key, key) && Covering(h[3].act, key);
    }
  }

  lemma {:induction false} NothingYet<V(!new)>(cfg: Config, init: string -> V, key: string)
    ensures IsRun(cfg, init, []) && Run(cfg, init, []) == State(Empty(), map[]) && TableAt(init, [], key) == init(key)
  {
  }

  /**
   A write that is not followed by an invalidation, such as the linking of the consultation to changed contract terms,
   is not seen by a reader that filled the cache just before it.
   */
  lemma {:induction false} UnannouncedWriteIsStale<V(!new)>(
      cfg: Config, init: string -> V, key: string, changed: V, linked: V, now: int)
    returns (h: seq<Step<V>>)
    requires cfg.Valid() && 0 <= now < cfg.ttl && linked != changed
    ensures h == [Step(0, Write(key, changed)), Step(0, Wipe(key)), Step(0, Ask(1, key)), Step(0, Select(1, key)),
                  Step(0, Store(1, key)), Step(0, Write(key, linked))]
    ensures IsRun(cfg, init, h) && TableAt(init, h, key) == linked
    ensures Answer(cfg, init, h, Step(now, Ask(2, key))) == Some(changed)
  {
    hide IsRun, Run, TableAt;
    var a, b, c := Step(0, Act<V>.Write(key, changed)), Step(0, Act<V>.Wipe(key)), Step(0, Act<V>.Write(key, linked));
    var h0: seq<Step<V>> := [];
    NothingYet(cfg, init, key);
    RunAppend(cfg, init, h0, a);
    RunAppend(cfg, init, h0 + [a], b);
    var h1 := ReadThrough(cfg, init, h0 + [a] + [b], key);
    RunAppend(cfg, init, h1, c);
    h := h1 + [c];
  }
}
