/** The equilibrium solver: it fills the demand and supply arrays, clamps
    their negative entries in place, and picks the sample where the two
    curves are closest, first occurrence winning a tie. */
module Solver {
  import opened Market

  /** The one failure of the solver: both slopes are divided by the flexibility. */
  datatype SolveError = ZeroMarketFlexibility

  datatype Result<T> = Ok(value: T) | Err(error: SolveError)

  /** The curves and the equilibrium point of one evaluation. */
  datatype Solution = Solution(
    prices: seq<real>,
    demand: seq<real>,
    supply: seq<real>,
    index: nat,
    price: real,
    quantity: real)

  // ---------------------------------------------------------------------------
  // Clamping, in place.
  // ---------------------------------------------------------------------------

  /** Sets every negative entry of a to zero and leaves the others alone. */
  method ClampNegatives(a: array<real>)
    modifies a
    ensures forall i :: 0 <= i < a.Length ==> a[i] == Clamp(old(a[i]))
    ensures forall i :: 0 <= i < a.Length ==> a[i] >= 0.0
    ensures forall i :: 0 <= i < a.Length && old(a[i]) >= 0.0 ==> a[i] == old(a[i])
  {
    for i := 0 to a.Length
      invariant forall j :: 0 <= j < i ==> a[j] == Clamp(old(a[j]))
      invariant forall j :: i <= j < a.Length ==> a[j] == old(a[j])
    {
      if a[i] < 0.0 {
        a[i] := 0.0;
      }
    }
  }

  // ---------------------------------------------------------------------------
  // The nearest-intersection search.
  // ---------------------------------------------------------------------------

  function Abs(x: real): (r: real)
    ensures r >= 0.0 && (r == x || r == -x)
  {
    if x < 0.0 then -x else x
  }

  /** The element-wise absolute difference of two curves. */
  function Gaps(demand: seq<real>, supply: seq<real>): (g: seq<real>)
    requires |demand| == |supply|
    ensures |g| == |demand|
  {
    seq(|demand|, i requires 0 <= i < |demand| => Abs(demand[i] - supply[i]))
  }

  /** k is the position of the first smallest element of a. */
  predicate IsFirstMin(a: seq<real>, k: int) {
    && 0 <= k < |a|
    && (forall j :: 0 <= j < |a| ==> a[k] <= a[j])
    && (forall j :: 0 <= j < k ==> a[k] < a[j])
  }

  /** There is at most one first minimum. */
  lemma FirstMinUnique(a: seq<real>, k1: int, k2: int)
    requires IsFirstMin(a, k1) && IsFirstMin(a, k2)
    ensures k1 == k2
  {
    // Each is at most the other, so neither lies strictly before the other.
    assert a[k1] == a[k2];
  }

  /** The index of the first smallest element: a scan that moves the running
      best index only on a strictly smaller element. */
  method ArgMin(a: seq<real>) returns (k: nat)
    requires |a| > 0
    ensures IsFirstMin(a, k)
  {
    k := 0;
    for i := 1 to |a|
      invariant k < i
      invariant forall j :: 0 <= j < i ==> a[k] <= a[j]
      invariant forall j :: 0 <= j < k ==> a[k] < a[j]
    {
      if a[i] < a[k] {
        k := i;
      }
    }
  }

  // ---------------------------------------------------------------------------
  // The whole evaluation.
  // ---------------------------------------------------------------------------

  /** s is what one evaluation with parameters m produces: the price domain,
      both clamped curves, the first sample where they are closest, the price
      of that sample and the SUPPLY quantity at it. */
  predicate IsSolution(m: MarketParameters, s: Solution) {
    && m.marketFlexibility != 0.0
    && s.prices == PriceGrid()
    && s.demand == DemandCurve(m)
    && s.supply == SupplyCurve(m)
    && IsFirstMin(Gaps(s.demand, s.supply), s.index)
    && s.price == PriceAt(s.index)
    && s.quantity == s.supply[s.index]
  }

  /** Evaluates the market: fails exactly when the flexibility is zero, and
      otherwise returns the curves and their nearest sampled intersection. */
  method Solve(m: MarketParameters) returns (r: Result<Solution>)
    ensures r.Err? <==> m.marketFlexibility == 0.0
    ensures r.Ok? ==> IsSolution(m, r.value)
    ensures r.Ok? ==> PRICE_MIN <= r.value.price <= PRICE_MAX && r.value.quantity >= 0.0
    ensures r.Ok? ==> r.value.index < GRID_SIZE && r.value.price == r.value.prices[r.value.index]
  {
    if m.marketFlexibility == 0.0 {
      return Err(ZeroMarketFlexibility);
    }
    var demand := new real[GRID_SIZE](i requires 0 <= i < GRID_SIZE => UnclampedDemand(m, PriceAt(i)));
    ClampNegatives(demand);
    var supply := new real[GRID_SIZE](i requires 0 <= i < GRID_SIZE => UnclampedSupply(m, PriceAt(i)));
    ClampNegatives(supply);
    assert demand[..] == DemandCurve(m);
    assert supply[..] == SupplyCurve(m);
    var k := ArgMin(Gaps(demand[..], supply[..]));
    r := Ok(Solution(PriceGrid(), demand[..], supply[..], k, PriceAt(k), supply[k]));
  }

  /** Two evaluations with the same parameters give the same result. */
  lemma SolutionIsDetermined(m: MarketParameters, s1: Solution, s2: Solution)
    requires IsSolution(m, s1) && IsSolution(m, s2)
    ensures s1 == s2
  {
    FirstMinUnique(Gaps(s1.demand, s1.supply), s1.index, s2.index);
  }

  /** The gap between the two default curves at sample j, against its value
      92/499 at sample 96: never smaller, and larger at every earlier sample. */
  lemma DefaultGapAt(j: int)
    requires 0 <= j < GRID_SIZE
    ensures var m := DefaultParameters();
      && (j == 96 ==> Abs(DemandAt(m, j) - SupplyAt(m, j)) == 92.0 / 499.0)
      && Abs(DemandAt(m, j) - SupplyAt(m, j)) >= 92.0 / 499.0
      && (j < 96 ==> Abs(DemandAt(m, j) - SupplyAt(m, j)) > 92.0 / 499.0)
  {
  }

  /** With the slider defaults (demand 100 - 2P, supply 20 + 2P, analytic
      intersection at P = 20, Q = 60) the solver picks sample 96, whose price
      is 10003/499 (about 20.05) and whose supply is 29986/499 (about 60.09). */
  lemma DefaultScenario(s: Solution)
    requires IsSolution(DefaultParameters(), s)
    ensures s.index == 96
    ensures s.price == 10003.0 / 499.0
    ensures s.quantity == 29986.0 / 499.0
  {
    var m := DefaultParameters();
    var g := Gaps(s.demand, s.supply);
    forall j | 0 <= j < GRID_SIZE
      ensures g[j] >= g[96]
      ensures j < 96 ==> g[j] > g[96]
    {
      DefaultGapAt(j);
      DefaultGapAt(96);
    }
    FirstMinUnique(g, s.index, 96);
    assert PriceAt(96) == 10003.0 / 499.0;
    assert SupplyAt(m, 96) == 20.0 + 2.0 * PriceAt(96);
  }
}
