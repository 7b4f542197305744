/**
 The economics policy readers and writers: fare floors and take rates behind two caches. The class keeps the tables
 and the caches and serves one request at a time; it is proved to do what `Serve` says. EconomicsRuns proves that
 serving through the caches and reading the tables directly cannot be told apart.

 A request comes with what the clock reads when the cache is asked (`now`) and when it is filled (`later`), and with
 the sweeps that the timer of the cache makes in between. The methods of the class are calls without such sweeps.
 */
module Economics {
  import opened Prelude
  import opened CacheModel
  import opened FareFloor
  import HC = HotCache

  const CACHE_TTL_MS := 60000
  const DEFAULT_MULTIPLIER := 1.0
  const MAX_RATE_BPS := 5000

  datatype Basis = Gross | NetOfTolls | NetOfCosts

  /** The active row of fare_floor_policies of a market: a unique index allows only one. */
  datatype FloorRow = FloorRow(index: StoredIndex, multiplier: real, createdBy: nat)

  datatype Policy = Policy(row: FloorRow, floorMinor: int)

  datatype TakeRate = TakeRate(market: string, bps: int, basis: Basis, from: int, consultation: string, version: int,
                               createdBy: nat)

  datatype Override = Override(market: string, operator: nat, justification: string, fareMinor: int, floorMinor: int)

  datatype Tables = Tables(floors: map<string, FloorRow>, rates: seq<TakeRate>, overrides: seq<Override>)

  datatype Request =
    | GetFloor(market: string)
    | GetRate(market: string)
    | UpdateIndex(market: string, actor: nat, index: CostIndex)
    | PublishRate(market: string, actor: nat, bps: int, basis: Basis, from: int, consultation: string, eligible: bool)
    | CheckFare(market: string, fareMinor: int)
    | RecordOverride(market: string, actor: nat, fareMinor: int, justification: string)
    | Flush(which: Option<string>)

  datatype Reply =
    | Floor(policy: Option<Policy>)
    | Rate(rate: Option<TakeRate>)
    | Updated(written: Policy)
    | Published(newest: TakeRate)
    | Checked(allowed: bool, floorMinor: Option<int>)
    | Overridden(against: int)
    | NotEligible | Rejected | NotFound | Flushed

  // ---------------------------------------------------------------- the tables

  function ReadFloor(t: Tables, market: string): Option<Policy> {
    if market in t.floors then
      var row := t.floors[market];
      Some(Policy(row, ServedFloor(row.index, row.multiplier)))
    else None
  }

  /** ORDER BY version DESC LIMIT 1. */
  function LatestRate(rates: seq<TakeRate>, market: string): (r: Option<TakeRate>)
    ensures r.Some? ==> r.value in rates && r.value.market == market
    ensures r.Some? ==> forall x | x in rates && x.market == market :: x.version <= r.value.version
    ensures r.None? ==> forall x | x in rates :: x.market != market
  {
    if rates == [] then None
    else
      var last, rest := rates[|rates| - 1], LatestRate(rates[..|rates| - 1], market);
      if last.market == market && (rest.None? || rest.value.version < last.version) then Some(last) else rest
  }

  function NextVersion(rates: seq<TakeRate>, market: string): int {
    (if LatestRate(rates, market).Some? then LatestRate(rates, market).value.version else 0) + 1
  }

  function WithIndex(t: Tables, market: string, actor: nat, index: CostIndex): Tables {
    t.(floors := t.floors[market := if market in t.floors then t.floors[market].(index := Written(index))
                                    else FloorRow(Written(index), DEFAULT_MULTIPLIER, actor)])
  }

  function NewRate(t: Tables, r: Request): TakeRate
    requires r.PublishRate?
  {
    TakeRate(r.market, r.bps, r.basis, r.from, r.consultation, NextVersion(t.rates, r.market), r.actor)
  }

  function CheckReply(policy: Option<Policy>, fareMinor: int): Reply {
    if policy.None? then Checked(true, None)
    else Checked(fareMinor >= policy.value.floorMinor, Some(policy.value.floorMinor))
  }

  /** The platform without caches: every read goes to the tables. */
  function Direct(t: Tables, r: Request): (Tables, Reply) {
    match r
    case GetFloor(market) => (t, Floor(ReadFloor(t, market)))
    case GetRate(market) => (t, Rate(LatestRate(t.rates, market)))
    case UpdateIndex(market, actor, index) =>
      var t' := WithIndex(t, market, actor, index);
      (t', Updated(Policy(t'.floors[market], FloorMinor(index, t'.floors[market].multiplier))))
    case PublishRate(_, _, bps, _, _, _, eligible) =>
      if !eligible then (t, NotEligible)
      else if bps < 0 || bps > MAX_RATE_BPS then (t, Rejected)
      else (t.(rates := t.rates + [NewRate(t, r)]), Published(NewRate(t, r)))
    case CheckFare(market, fareMinor) => (t, CheckReply(ReadFloor(t, market), fareMinor))
    case RecordOverride(market, actor, fareMinor, justification) =>
      var policy := ReadFloor(t, market);
      if policy.None? then (t, NotFound)
      else
        var floor := policy.value.floorMinor;
        (t.(overrides := t.overrides + [Override(market, actor, justification, fareMinor, floor)]), Overridden(floor))
    case Flush(_) => (t, Flushed)
  }

  // ---------------------------------------------------------------- the caches

  datatype State = State(tables: Tables, floors: Cache<Option<Policy>>, rates: Cache<Option<TakeRate>>)

  const CONFIG := Config(CACHE_TTL_MS, HC.DEFAULT_MAX_ENTRIES)

  function FloorKey(market: string): string { "floor:" + market }

  function RateKey(market: string): string { "take:" + market }

  function ServeFloor(s: State, at: Times, market: string): (State, Option<Policy>) {
    var (c, v) := Through(CONFIG, s.floors, at, FloorKey(market), ReadFloor(s.tables, market));
    (s.(floors := c), v)
  }

  function ServeRate(s: State, at: Times, market: string): (State, Option<TakeRate>) {
    var (c, v) := Through(CONFIG, s.rates, at, RateKey(market), LatestRate(s.tables.rates, market));
    (s.(rates := c), v)
  }

  /** invalidateEconomicsPolicyCache. */
  function Invalidated(s: State, market: Option<string>): State {
    match market
    case None =>
      s.(floors := Do(CONFIG, s.floors, 0, Clear), rates := Do(CONFIG, s.rates, 0, Clear))
    case Some(m) =>
      s.(floors := Do(CONFIG, s.floors, 0, Invalidate(FloorKey(m))),
         rates := Do(CONFIG, s.rates, 0, Invalidate(RateKey(m))))
  }

  /** The platform as it is: reads go through the caches, committed writes invalidate them. */
  function Serve(s: State, at: Times, r: Request): (State, Reply) {
    match r
    case GetFloor(market) =>
      var (s', policy) := ServeFloor(s, at, market);
      (s', Floor(policy))
    case GetRate(market) =>
      var (s', rate) := ServeRate(s, at, market);
      (s', Rate(rate))
    case UpdateIndex(market, _, _) =>
      var (t, reply) := Direct(s.tables, r);
      (Invalidated(s.(tables := t), Some(market)), reply)
    case PublishRate(market, _, _, _, _, _, _) =>
      var (t, reply) := Direct(s.tables, r);
      (if reply.Published? then Invalidated(s.(tables := t), Some(market)) else s, reply)
    case CheckFare(market, fareMinor) =>
      var (s', policy) := ServeFloor(s, at, market);
      (s', CheckReply(policy, fareMinor))
    case RecordOverride(market, actor, fareMinor, justification) =>
      var (s', policy) := ServeFloor(s, at, market);
      if policy.None? then (s', NotFound)
      else
        var floor := policy.value.floorMinor;
        var row := Override(market, actor, justification, fareMinor, floor);
        (Invalidated(s'.(tables := s'.tables.(overrides := s'.tables.overrides + [row])), Some(market)), Overridden(floor))
    case Flush(market) => (Invalidated(s, market), Flushed)
  }

  // ---------------------------------------------------------------- the class

  class EconomicsPolicy {
    var tables: Tables
    const floors: HC.HotCache<Option<Policy>>
    const rates: HC.HotCache<Option<TakeRate>>

    ghost predicate Valid()
      reads this, floors, floors.entries, rates, rates.entries
    {
      (floors as object) != rates && (floors.entries as object) != rates.entries && floors.Valid() && rates.Valid() &&
      floors.ttlMs == rates.ttlMs == CACHE_TTL_MS && floors.maxEntries == rates.maxEntries == HC.DEFAULT_MAX_ENTRIES
    }

    ghost function View(): State
      reads this, floors, floors.entries, rates, rates.entries
    {
      State(tables, floors.Model(), rates.Model())
    }

    constructor (tables: Tables)
      ensures Valid() && View() == State(tables, CacheModel.Empty(), CacheModel.Empty())
    {
      this.tables := tables;
      this.floors := new HC.HotCache(CACHE_TTL_MS, None);
      this.rates := new HC.HotCache(CACHE_TTL_MS, None);
    }

    method GetFareFloorPolicy(market: string, now: int, later: int) returns (policy: Option<Policy>)
      requires Valid()
      modifies floors, floors.entries
      ensures Valid()
      ensures (View(), policy) == ServeFloor(old(View()), Times(now, [], later), market)
    {
      hide Do, Lookup, floors.Valid, floors.Model, FloorMinor;
      var cached := floors.Get(FloorKey(market), now);
      if cached.Some? {
        return cached.value;
      }
      if market !in tables.floors {
        policy := None;
      } else {
        var row := tables.floors[market];
        var index := Parse(row.index);
        policy := Some(Policy(row, if index.Some? then FloorMinor(index.value, row.multiplier) else 0));
      }
      floors.Set(FloorKey(market), policy, later);
    }

    method GetLatestTakeRate(market: string, now: int, later: int) returns (rate: Option<TakeRate>)
      requires Valid()
      modifies rates, rates.entries
      ensures Valid()
      ensures (View(), rate) == ServeRate(old(View()), Times(now, [], later), market)
    {
      hide Do, Lookup, rates.Valid, rates.Model, LatestRate;
      var cached := rates.Get(RateKey(market), now);
      if cached.Some? {
        return cached.value;
      }
      rate := LatestRate(tables.rates, market);
      rates.Set(RateKey(market), rate, later);
    }

    method InvalidateCache(market: Option<string>)
      requires Valid()
      modifies floors, floors.entries, rates, rates.entries
      ensures Valid()
      ensures View() == Invalidated(old(View()), market)
    {
      hide Do, floors.Valid, floors.Model;
      assert floors.Cfg() == rates.Cfg() == CONFIG;
      ghost var f, r := floors.Model(), rates.Model();
      if market.None? {
        floors.Clear();
        assert rates.Model() == r;
        rates.Clear();
        assert floors.Model() == Do(CONFIG, f, 0, Event.Clear);
        assert rates.Model() == Do(CONFIG, r, 0, Event.Clear);
        return;
      }
      var _ := floors.Invalidate(FloorKey(market.value));
      assert rates.Model() == r;
      var _ := rates.Invalidate(RateKey(market.value));
      assert floors.Model() == Do(CONFIG, f, 0, Event.Invalidate(FloorKey(market.value)));
      assert rates.Model() == Do(CONFIG, r, 0, Event.Invalidate(RateKey(market.value)));
    }

    method UpdateCostIndex(market: string, actor: nat, index: CostIndex) returns (reply: Reply)
      requires Valid()
      modifies this, floors, floors.entries, rates, rates.entries
      ensures Valid()
      ensures forall at: Times :: (View(), reply) == Serve(old(View()), at, UpdateIndex(market, actor, index))
    {
      hide Do, floors.Valid, floors.Model, FloorMinor, Invalidated;
      var row: FloorRow;
      if market in tables.floors {
        row := tables.floors[market].(index := Written(index));
      } else {
        row := FloorRow(Written(index), DEFAULT_MULTIPLIER, actor);
      }
      tables := tables.(floors := tables.floors[market := row]);
      InvalidateCache(Some(market));
      reply := Updated(Policy(row, FloorMinor(index, row.multiplier)));
    }

    method PublishTakeRate(
        market: string, actor: nat, bps: int, basis: Basis, from: int, consultation: string, eligible: bool)
      returns (reply: Reply)
      requires Valid()
      modifies this, floors, floors.entries, rates, rates.entries
      ensures Valid()
      ensures forall at: Times ::
                (View(), reply) == Serve(old(View()), at, PublishRate(market, actor, bps, basis, from, consultation, eligible))
    {
      hide Do, floors.Valid, floors.Model, Invalidated, LatestRate;
      if !eligible {
        return NotEligible;
      }
      var next := NextVersion(tables.rates, market);
      if bps < 0 || bps > MAX_RATE_BPS {
        return Rejected;
      }
      var row := TakeRate(market, bps, basis, from, consultation, next, actor);
      tables := tables.(rates := tables.rates + [row]);
      InvalidateCache(Some(market));
      reply := Published(row);
    }

    method CheckFareAgainstFloor(market: string, fareMinor: int, now: int, later: int) returns (reply: Reply)
      requires Valid()
      modifies floors, floors.entries
      ensures Valid()
      ensures (View(), reply) == Serve(old(View()), Times(now, [], later), CheckFare(market, fareMinor))
    {
      hide ServeFloor;
      var policy := GetFareFloorPolicy(market, now, later);
      if policy.None? {
        return Checked(true, None);
      }
      reply := Checked(fareMinor >= policy.value.floorMinor, Some(policy.value.floorMinor));
    }

    method RecordFloorOverride(market: string, actor: nat, fareMinor: int, justification: string, now: int, later: int)
      returns (reply: Reply)
      requires Valid()
      modifies this, floors, floors.entries, rates, rates.entries
      ensures Valid()
      ensures (View(), reply) == Serve(old(View()), Times(now, [], later), RecordOverride(market, actor, fareMinor, justification))
    {
      hide ServeFloor, Invalidated, floors.Valid, floors.Model;
      var policy := GetFareFloorPolicy(market, now, later);
      if policy.None? {
        return NotFound;
      }
      var row := Override(market, actor, justification, fareMinor, policy.value.floorMinor);
      tables := tables.(overrides := tables.overrides + [row]);
      InvalidateCache(Some(market));
      reply := Overridden(policy.value.floorMinor);
    }
  }
}
