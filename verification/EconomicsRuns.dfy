/** Whole runs of requests that do not overlap: the caches cannot be noticed, and what is served is what was written last. */
module EconomicsRuns {
  import opened Prelude
  import opened CacheModel
  import opened FareFloor
  import opened Economics
  import Runs
  import Co = Coherence

  /** A request, or a sweep by the timer of one of the two caches. */
  datatype Visit = Ask(at: Times, request: Request) | SweepFloors(now: int) | SweepRates(now: int)

  function ServeVisit(s: State, v: Visit): (State, seq<Reply>) {
    match v
    case Ask(at, request) =>
      var (after, reply) := Serve(s, at, request);
      (after, [reply])
    case SweepFloors(now) => (s.(floors := Do(CONFIG, s.floors, now, Sweep)), [])
    case SweepRates(now) => (s.(rates := Do(CONFIG, s.rates, now, Sweep)), [])
  }

  function DirectVisit(t: Tables, v: Visit): (Tables, seq<Reply>) {
    match v
    case Ask(_, request) =>
      var (after, reply) := Direct(t, request);
      (after, [reply])
    case _ => (t, [])
  }

  function RunCached(s: State, visits: seq<Visit>): (State, seq<Reply>) { Runs.Run(ServeVisit, s, visits) }

  function RunDirect(t: Tables, visits: seq<Visit>): (Tables, seq<Reply>) { Runs.Run(DirectVisit, t, visits) }

  // ---------------------------------------------------------------- coherence

  function FloorTruth(t: Tables): string -> Option<Policy> {
    (key: string) => if FloorKey("") <= key then ReadFloor(t, key[|FloorKey("")|..]) else None
  }

  function RateTruth(t: Tables): string -> Option<TakeRate> {
    (key: string) => if RateKey("") <= key then LatestRate(t.rates, key[|RateKey("")|..]) else None
  }

  ghost predicate Fits(s: State) {
    Co.Coherent(s.floors.items, FloorTruth(s.tables)) && Co.Coherent(s.rates.items, RateTruth(s.tables))
  }

  /** The truths of two tables differ at most at the keys of one market. */
  ghost predicate OnlyAt(t: Tables, t': Tables, market: string) {
    (forall k: string | k != FloorKey(market) :: FloorTruth(t')(k) == FloorTruth(t)(k)) &&
    (forall k: string | k != RateKey(market) :: RateTruth(t')(k) == RateTruth(t)(k))
  }

  lemma KeyTruths(t: Tables, market: string)
    ensures FloorTruth(t)(FloorKey(market)) == ReadFloor(t, market)
    ensures RateTruth(t)(RateKey(market)) == LatestRate(t.rates, market)
  {
    assert FloorKey(market)[|FloorKey("")|..] == market;
    assert RateKey(market)[|RateKey("")|..] == market;
  }

  lemma OtherMarketsKept(t: Tables, t': Tables, market: string)
    requires forall m: string | m != market ::
               ReadFloor(t', m) == ReadFloor(t, m) && LatestRate(t'.rates, m) == LatestRate(t.rates, m)
    ensures OnlyAt(t, t', market)
  {
    forall k: string | k != FloorKey(market) ensures FloorTruth(t')(k) == FloorTruth(t)(k) {
      if FloorKey("") <= k {
        assert k == FloorKey(k[|FloorKey("")|..]);
      }
    }
    forall k: string | k != RateKey(market) ensures RateTruth(t')(k) == RateTruth(t)(k) {
      if RateKey("") <= k {
        assert k == RateKey(k[|RateKey("")|..]);
      }
    }
  }

  /** A write that concerns one market, followed by the invalidation of that market. */
  lemma WriteAndInvalidate(s: State, t: Tables, market: string)
    requires Fits(s) && OnlyAt(s.tables, t, market)
    ensures Fits(Invalidated(s.(tables := t), Some(market)))
  {
    Co.InvalidateRestores(CONFIG, s.floors, 0, FloorKey(market), FloorTruth(s.tables), FloorTruth(t));
    Co.InvalidateRestores(CONFIG, s.rates, 0, RateKey(market), RateTruth(s.tables), RateTruth(t));
  }

  lemma FloorIsRead(s: State, at: Times, market: string)
    requires Fits(s)
    ensures var (s', policy) := ServeFloor(s, at, market);
            Fits(s') && s'.tables == s.tables && policy == ReadFloor(s.tables, market)
  {
    KeyTruths(s.tables, market);
    Co.ThroughIsTruth(CONFIG, s.floors, at, FloorKey(market), FloorTruth(s.tables));
  }

  lemma RateIsRead(s: State, at: Times, market: string)
    requires Fits(s)
    ensures var (s', rate) := ServeRate(s, at, market);
            Fits(s') && s'.tables == s.tables && rate == LatestRate(s.tables.rates, market)
  {
    KeyTruths(s.tables, market);
    Co.ThroughIsTruth(CONFIG, s.rates, at, RateKey(market), RateTruth(s.tables));
  }

  lemma ServeIsDirect(s: State, at: Times, r: Request)
    requires Fits(s)
    ensures var (s', reply) := Serve(s, at, r);
            Fits(s') && (s'.tables, reply) == Direct(s.tables, r)
  {
    hide Fits, ServeFloor, ServeRate, Invalidated, OnlyAt;
    match r
    case GetFloor(market) => FloorIsRead(s, at, market);
    case GetRate(market) => RateIsRead(s, at, market);
    case CheckFare(market, _) => FloorIsRead(s, at, market);
    case UpdateIndex(market, _, _) => WriteServes(s, at, r);
    case PublishRate(market, _, _, _, _, _, _) => WriteServes(s, at, r);
    case RecordOverride(market, actor, fareMinor, justification) =>
      FloorIsRead(s, at, market);
      var (s', policy) := ServeFloor(s, at, market);
      if policy.Some? {
        var t := Direct(s.tables, r).0;
        OtherMarketsKept(s'.tables, t, market);
        WriteAndInvalidate(s', t, market);
        TablesKept(s'.(tables := t), Some(market));
      }
    case Flush(which) =>
      FlushFits(s, which);
      TablesKept(s, which);
  }

  lemma TablesKept(s: State, market: Option<string>)
    ensures Invalidated(s, market).tables == s.tables
  {
  }

  lemma FlushFits(s: State, market: Option<string>)
    requires Fits(s)
    ensures Fits(Invalidated(s, market))
  {
    if market.Some? {
      WriteAndInvalidate(s, s.tables, market.value);
      assert s.(tables := s.tables) == s;
    }
  }

  lemma WriteServes(s: State, at: Times, r: Request)
    requires Fits(s) && (r.UpdateIndex? || r.PublishRate?)
    ensures var (s', reply) := Serve(s, at, r);
            Fits(s') && (s'.tables, reply) == Direct(s.tables, r)
  {
    var t := Direct(s.tables, r).0;
    if r.UpdateIndex? || Direct(s.tables, r).1.Published? {
      OtherMarketsKept(s.tables, t, r.market);
      WriteAndInvalidate(s, t, r.market);
    }
  }

  lemma VisitIsDirect(s: State, v: Visit)
    requires Fits(s)
    ensures Fits(ServeVisit(s, v).0)
    ensures (ServeVisit(s, v).0.tables, ServeVisit(s, v).1) == DirectVisit(s.tables, v)
  {
    hide Serve, Direct;
    match v
    case Ask(at, request) => ServeIsDirect(s, at, request);
    case SweepFloors(now) => Co.SweepKeepsCoherent(CONFIG, s.floors, now, FloorTruth(s.tables));
    case SweepRates(now) => Co.SweepKeepsCoherent(CONFIG, s.rates, now, RateTruth(s.tables));
  }

  /**
   Any run of requests, with the timers sweeping both caches between and during them, gets through the caches the
   replies and the tables it would get without them.
   */
  lemma CachesCannotBeNoticed(t: Tables, visits: seq<Visit>)
    ensures var (s, replies) := RunCached(State(t, CacheModel.Empty(), CacheModel.Empty()), visits);
            Fits(s) && (s.tables, replies) == RunDirect(t, visits)
  {
    hide ServeVisit, DirectVisit;
    forall s, v | Fits(s)
      ensures Fits(ServeVisit(s, v).0) && (ServeVisit(s, v).0.tables, ServeVisit(s, v).1) == DirectVisit(s.tables, v)
    {
      VisitIsDirect(s, v);
    }
    Runs.RunsAgree(ServeVisit, DirectVisit, Fits, (s: State) => s.tables, State(t, CacheModel.Empty(), CacheModel.Empty()), visits);
  }

  // ---------------------------------------------------------------- what the last write was

  /** The cost index written last for the market, if any was. */
  function LastIndex(visits: seq<Visit>, market: string): Option<CostIndex> {
    if visits == [] then None
    else
      var v := visits[|visits| - 1];
      if v.Ask? && v.request.UpdateIndex? && v.request.market == market then Some(v.request.index)
      else LastIndex(visits[..|visits| - 1], market)
  }

  predicate Publishes(v: Visit, market: string) {
    v.Ask? && v.request.PublishRate? && v.request.market == market && v.request.eligible && 0 <= v.request.bps <= MAX_RATE_BPS
  }

  /** The request that published last for the market, if any did. */
  function LastPublished(visits: seq<Visit>, market: string): (r: Option<Request>)
    ensures r.Some? ==> r.value.PublishRate? && r.value.market == market && r.value.eligible
  {
    if visits == [] then None
    else
      var v := visits[|visits| - 1];
      if Publishes(v, market) then Some(v.request) else LastPublished(visits[..|visits| - 1], market)
  }

  function PublishCount(visits: seq<Visit>, market: string): nat {
    if visits == [] then 0
    else PublishCount(visits[..|visits| - 1], market) + if Publishes(visits[|visits| - 1], market) then 1 else 0
  }

  function MultiplierOf(t: Tables, market: string): real {
    if market in t.floors then t.floors[market].multiplier else DEFAULT_MULTIPLIER
  }

  /** At the end of a run a floor read gives the floor of the cost index written last, with the market's multiplier. */
  lemma {:induction false} FloorOfLastIndex(t: Tables, visits: seq<Visit>, market: string)
    ensures var now, last := RunDirect(t, visits).0, LastIndex(visits, market);
            && MultiplierOf(now, market) == MultiplierOf(t, market)
            && (last.None? ==> ReadFloor(now, market) == ReadFloor(t, market))
            && (last.Some? ==> ReadFloor(now, market).Some? &&
                               ReadFloor(now, market).value.floorMinor == FloorMinor(last.value, MultiplierOf(t, market)))
  {
    hide FloorMinor, LatestRate, ServedFloor, Written;
    if visits != [] {
      FloorOfLastIndex(t, visits[..|visits| - 1], market);
      var v := visits[|visits| - 1];
      if v.Ask? && v.request.UpdateIndex? && v.request.market == market {
        ServedIsWritten(v.request.index, MultiplierOf(t, market));
      }
    }
  }

  /**
   After a run a fare is allowed exactly if it covers the cost of the index written last, and an override logs, beside
   who undercuts the floor and why, that same floor: the least fare that is allowed.
   */
  lemma FareIsHeldToLastIndex(t: Tables, visits: seq<Visit>, market: string, fare: int, actor: nat, why: string)
    requires LastIndex(visits, market).Some?
    ensures var now, index, m := RunDirect(t, visits).0, LastIndex(visits, market).value, MultiplierOf(t, market);
            var checked := Direct(now, CheckFare(market, fare)).1;
            var (after, logged) := Direct(now, RecordOverride(market, actor, fare, why));
            && checked.Checked? && logged.Overridden? && checked.floorMinor == Some(logged.against)
            && (checked.allowed <==> fare as real + TOLERANCE >= Raw(index, m))
            && (checked.allowed <==> fare >= logged.against)
            && Direct(now, CheckFare(market, logged.against)).1.allowed
            && !Direct(now, CheckFare(market, logged.against - 1)).1.allowed
            && after == now.(overrides := now.overrides + [Override(market, actor, why, fare, logged.against)])
  {
    FloorOfLastIndex(t, visits, market);
    FloorIsLeastCoveringFare(LastIndex(visits, market).value, MultiplierOf(t, market), fare);
  }

  /** At the end of a run a rate read gives the version published last, and versions count the publications. */
  lemma {:induction false} RateOfLastPublication(t: Tables, visits: seq<Visit>, market: string)
    ensures var rate, last := LatestRate(RunDirect(t, visits).0.rates, market), LastPublished(visits, market);
            && (last.None? ==> rate == LatestRate(t.rates, market))
            && (last.Some? ==> rate.Some? && rate.value.bps == last.value.bps && rate.value.basis == last.value.basis &&
                               rate.value.from == last.value.from && rate.value.consultation == last.value.consultation &&
                               rate.value.createdBy == last.value.actor)
            && NextVersion(RunDirect(t, visits).0.rates, market) == NextVersion(t.rates, market) + PublishCount(visits, market)
  {
    if visits != [] {
      RateOfLastPublication(t, visits[..|visits| - 1], market);
      RateAfter(RunDirect(t, visits[..|visits| - 1]).0, visits[|visits| - 1], market);
    }
  }

  lemma RateAfter(t: Tables, v: Visit, market: string)
    ensures var after := DirectVisit(t, v).0;
            LatestRate(after.rates, market) ==
              if Publishes(v, market) then Some(NewRate(t, v.request)) else LatestRate(t.rates, market)
  {
    var after := DirectVisit(t, v).0;
    if after != t && v.request.PublishRate? {
      assert after.rates[..|after.rates| - 1] == t.rates;
    }
  }

  ghost predicate VersionsUnique(rates: seq<TakeRate>) {
    forall i, j | 0 <= i < j < |rates| :: rates[i].market == rates[j].market ==> rates[i].version != rates[j].version
  }

  /** Requests that do not overlap never run into the unique index on market and version. */
  lemma {:induction false} VersionsStayUnique(t: Tables, visits: seq<Visit>)
    requires VersionsUnique(t.rates)
    ensures VersionsUnique(RunDirect(t, visits).0.rates)
  {
    if visits != [] {
      VersionsStayUnique(t, visits[..|visits| - 1]);
      var before := RunDirect(t, visits[..|visits| - 1]).0;
      var v := visits[|visits| - 1];
      if v.Ask? && v.request.PublishRate? {
        var r := v.request;
        assert forall x | x in before.rates && x.market == r.market :: x.version < NextVersion(before.rates, r.market);
      }
    }
  }

  /** What a writer is told is what the next reader gets, and the first to write a market's floor stays its creator. */
  lemma WritersReadTheirWrites(t: Tables, r: Request)
    ensures var (after, reply) := Direct(t, r);
            && (reply.Updated? ==> r.UpdateIndex? && ReadFloor(after, r.market) == Some(reply.written) &&
                                   reply.written.row.createdBy ==
                                     if r.market in t.floors then t.floors[r.market].createdBy else r.actor)
            && (reply.Published? ==> r.PublishRate? && LatestRate(after.rates, r.market) == Some(reply.newest))
            && (reply.NotEligible? || reply.Rejected? || reply.NotFound? ==> after == t)
  {
    if r.UpdateIndex? {
      ServedIsWritten(r.index, MultiplierOf(t, r.market));
    } else if r.PublishRate? && Direct(t, r).1.Published? {
      assert Direct(t, r).0.rates[..|t.rates|] == t.rates;
    }
  }
}
