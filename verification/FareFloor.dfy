/**
 The cost-indexed fare floor. Amounts are reals here: the source computes in floating point, and its rounding error
 is what the tolerance of a billionth is for.
 */
module FareFloor {
  import opened Prelude

  const INDEX_BASE_BP := 10000.0
  const TOLERANCE := 0.000000001

  /** The numbers of a cost index as a caller gives them: finite, but of either sign. */
  datatype CostIndex = CostIndex(fuel: real, cpi: real, maintenance: real)

  /** The stored JSON: not an object, or three fields that may not read as finite numbers. */
  datatype StoredIndex = Malformed | Fields(fuel: Option<real>, cpi: Option<real>, maintenance: Option<real>)

  function Parse(raw: StoredIndex): Option<CostIndex> {
    match raw
    case Malformed => None
    case Fields(fuel, cpi, maintenance) =>
      if fuel.None? || fuel.value < 0.0 then None
      else Some(CostIndex(fuel.value, if cpi.Some? then cpi.value else INDEX_BASE_BP,
                          if maintenance.Some? then maintenance.value else INDEX_BASE_BP))
  }

  function AtLeastZero(x: real): real { if x < 0.0 then 0.0 else x }

  function Indexed(c: CostIndex): real {
    AtLeastZero(c.fuel) * AtLeastZero(c.cpi) * AtLeastZero(c.maintenance) / (INDEX_BASE_BP * INDEX_BASE_BP)
  }

  function Raw(c: CostIndex, multiplier: real): real { Indexed(c) * multiplier }

  function Ceil(x: real): int { -((-x).Floor) }

  /** computeFareFloorMinor. */
  function FloorMinor(c: CostIndex, multiplier: real): int { Ceil(Raw(c, multiplier) - TOLERANCE) }

  /** The floor a reader serves for a stored row. */
  function ServedFloor(raw: StoredIndex, multiplier: real): int {
    match Parse(raw)
    case None => 0
    case Some(c) => FloorMinor(c, multiplier)
  }

  /** What updateCostIndex stores. */
  function Written(c: CostIndex): StoredIndex { Fields(Some(c.fuel), Some(c.cpi), Some(c.maintenance)) }

  // ---------------------------------------------------------------- what the indexed cost is

  /** At the base indices the cost is that of the fuel. */
  lemma BaseIndicesChangeNothing(fuel: real, multiplier: real)
    requires fuel >= 0.0
    ensures Raw(CostIndex(fuel, INDEX_BASE_BP, INDEX_BASE_BP), multiplier) == fuel * multiplier
  {
    assert fuel * INDEX_BASE_BP * INDEX_BASE_BP / (INDEX_BASE_BP * INDEX_BASE_BP) == fuel;
  }

  /** The cost is proportional to each of the three numbers and to the multiplier. */
  lemma RawIsProportional(c: CostIndex, multiplier: real, k: real)
    requires k >= 0.0
    ensures Raw(c.(fuel := k * c.fuel), multiplier) == k * Raw(c, multiplier)
    ensures Raw(c.(cpi := k * c.cpi), multiplier) == k * Raw(c, multiplier)
    ensures Raw(c.(maintenance := k * c.maintenance), multiplier) == k * Raw(c, multiplier)
    ensures Raw(c, k * multiplier) == k * Raw(c, multiplier)
  {
    ClampScales(c.fuel, k);
    ClampScales(c.cpi, k);
    ClampScales(c.maintenance, k);
    var a, b, d, n := AtLeastZero(c.fuel), AtLeastZero(c.cpi), AtLeastZero(c.maintenance), INDEX_BASE_BP * INDEX_BASE_BP;
    assert (k * a) * b * d == k * (a * b * d) && a * (k * b) * d == k * (a * b * d) && a * b * (k * d) == k * (a * b * d);
  }

  lemma ClampScales(x: real, k: real)
    requires k >= 0.0
    ensures AtLeastZero(k * x) == k * AtLeastZero(x)
  {
  }

  /** A negative number counts as zero. */
  lemma NegativeIsFree(c: CostIndex, multiplier: real)
    requires c.fuel < 0.0 || c.cpi < 0.0 || c.maintenance < 0.0
    ensures Raw(c, multiplier) == 0.0
  {
  }

  // The laws of the indexed cost, for any way of computing it.

  ghost predicate FuelAtBase(cost: (CostIndex, real) -> real, fuel: real, m: real) {
    fuel >= 0.0 ==> cost(CostIndex(fuel, INDEX_BASE_BP, INDEX_BASE_BP), m) == fuel * m
  }

  ghost predicate Proportional(cost: (CostIndex, real) -> real, c: CostIndex, k: real, m: real) {
    k >= 0.0 ==>
      cost(c.(cpi := k * c.cpi), m) == k * cost(c, m) && cost(c.(maintenance := k * c.maintenance), m) == k * cost(c, m)
  }

  ghost predicate FreeIfNegative(cost: (CostIndex, real) -> real, c: CostIndex, m: real) {
    c.fuel < 0.0 || c.cpi < 0.0 || c.maintenance < 0.0 ==> cost(c, m) == 0.0
  }

  ghost predicate IsIndexedCost(cost: (CostIndex, real) -> real) {
    && (forall fuel, m {:trigger FuelAtBase(cost, fuel, m)} :: FuelAtBase(cost, fuel, m))
    && (forall c, k, m {:trigger Proportional(cost, c, k, m)} :: Proportional(cost, c, k, m))
    && (forall c, m {:trigger FreeIfNegative(cost, c, m)} :: FreeIfNegative(cost, c, m))
  }

  /** The raw floor obeys these laws, and nothing else does. */
  lemma LawsFixRaw(cost: (CostIndex, real) -> real)
    ensures IsIndexedCost(cost) <==> forall c, m :: cost(c, m) == Raw(c, m)
  {
    hide IsIndexedCost, Raw;
    if IsIndexedCost(cost) {
      forall c, m ensures cost(c, m) == Raw(c, m) {
        CostIsRaw(cost, c, m);
      }
    } else if forall c, m :: cost(c, m) == Raw(c, m) {
      RawObeys(cost);
    }
  }

  lemma CostIsRaw(cost: (CostIndex, real) -> real, c: CostIndex, m: real)
    requires IsIndexedCost(cost)
    ensures cost(c, m) == Raw(c, m)
  {
    hide Raw;
    if c.fuel >= 0.0 && c.cpi >= 0.0 && c.maintenance >= 0.0 {
      var i, j := c.cpi / INDEX_BASE_BP, c.maintenance / INDEX_BASE_BP;
      var base := CostIndex(c.fuel, INDEX_BASE_BP, INDEX_BASE_BP);
      var half := base.(cpi := i * base.cpi);
      assert half.(maintenance := j * half.maintenance) == c;
      assert FuelAtBase(cost, c.fuel, m) && Proportional(cost, base, i, m) && Proportional(cost, half, j, m);
      BaseIndicesChangeNothing(c.fuel, m);
      RawIsProportional(base, m, i);
      RawIsProportional(half, m, j);
    } else {
      assert FreeIfNegative(cost, c, m);
      NegativeIsFree(c, m);
    }
  }

  lemma RawObeys(cost: (CostIndex, real) -> real)
    requires forall c, m :: cost(c, m) == Raw(c, m)
    ensures IsIndexedCost(cost)
  {
    hide Raw;
    forall fuel, m ensures FuelAtBase(cost, fuel, m) {
      if fuel >= 0.0 {
        BaseIndicesChangeNothing(fuel, m);
      }
    }
    forall c, k, m ensures Proportional(cost, c, k, m) {
      if k >= 0.0 {
        RawIsProportional(c, m, k);
      }
    }
    forall c, m ensures FreeIfNegative(cost, c, m) {
      if c.fuel < 0.0 || c.cpi < 0.0 || c.maintenance < 0.0 {
        NegativeIsFree(c, m);
      }
    }
  }

  // ---------------------------------------------------------------- the floor

  /** A whole fare is at or above the floor exactly when it covers the indexed cost up to the tolerance. */
  lemma FloorIsLeastCoveringFare(c: CostIndex, multiplier: real, fare: int)
    ensures fare >= FloorMinor(c, multiplier) <==> fare as real + TOLERANCE >= Raw(c, multiplier)
  {
    var x := Raw(c, multiplier) - TOLERANCE;
    var n := (-x).Floor;
    assert n as real <= -x < n as real + 1.0;
    if fare < -n {
      assert fare as real <= (-n - 1) as real;
    } else {
      assert fare as real >= (-n) as real;
    }
  }

  /** A cost that is a whole number is its own floor, whatever the sign of the rounding error below the tolerance. */
  lemma WholeCostIsNotRoundedUp(c: CostIndex, multiplier: real, cost: int, error: real)
    requires Raw(c, multiplier) == cost as real + error && -1.0 + TOLERANCE < error <= TOLERANCE
    ensures FloorMinor(c, multiplier) == cost
  {
    FloorIsLeastCoveringFare(c, multiplier, cost);
    FloorIsLeastCoveringFare(c, multiplier, cost - 1);
  }

  /** The floor that updateCostIndex returns is the one the readers serve afterwards, for a negative fuel price too. */
  lemma ServedIsWritten(c: CostIndex, multiplier: real)
    ensures ServedFloor(Written(c), multiplier) == FloorMinor(c, multiplier)
  {
    if c.fuel < 0.0 {
      assert Raw(c, multiplier) == 0.0 * multiplier;
      assert Ceil(0.0 - TOLERANCE) == 0;
    }
  }

  /** A stored index without one of the two indices is served as if that one stood at its base. */
  lemma MissingIndexIsBase(fuel: real, index: Option<real>, multiplier: real, fare: int)
    requires fuel >= 0.0
    ensures ServedFloor(Fields(Some(fuel), None, index), multiplier) ==
            ServedFloor(Fields(Some(fuel), Some(INDEX_BASE_BP), index), multiplier)
    ensures ServedFloor(Fields(Some(fuel), index, None), multiplier) ==
            ServedFloor(Fields(Some(fuel), index, Some(INDEX_BASE_BP)), multiplier)
    ensures fare >= ServedFloor(Fields(Some(fuel), None, None), multiplier) <==> fare as real + TOLERANCE >= fuel * multiplier
  {
    BaseIndicesChangeNothing(fuel, multiplier);
    FloorIsLeastCoveringFare(CostIndex(fuel, INDEX_BASE_BP, INDEX_BASE_BP), multiplier, fare);
  }

  lemma ProductRises(a: real, b: real, a': real, b': real)
    requires 0.0 <= a <= a' && 0.0 <= b <= b'
    ensures 0.0 <= a * b <= a' * b'
  {
    assert a * b <= a * b' && a * b' <= a' * b';
  }

  /** Dearer fuel, higher indices or a higher multiplier never lower the floor, and it is never negative. */
  lemma FloorRises(c: CostIndex, d: CostIndex, m: real, n: real)
    requires c.fuel <= d.fuel && c.cpi <= d.cpi && c.maintenance <= d.maintenance && 0.0 <= m <= n
    ensures 0 <= FloorMinor(c, m) <= FloorMinor(d, n)
  {
    ProductRises(AtLeastZero(c.fuel), AtLeastZero(c.cpi), AtLeastZero(d.fuel), AtLeastZero(d.cpi));
    ProductRises(AtLeastZero(c.fuel) * AtLeastZero(c.cpi), AtLeastZero(c.maintenance),
                 AtLeastZero(d.fuel) * AtLeastZero(d.cpi), AtLeastZero(d.maintenance));
    ProductRises(Indexed(c), m, Indexed(d), n);
    FloorIsLeastCoveringFare(c, m, -1);
    FloorIsLeastCoveringFare(c, m, FloorMinor(d, n));
    FloorIsLeastCoveringFare(d, n, FloorMinor(d, n));
  }
}
