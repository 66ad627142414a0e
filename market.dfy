/** The linear market of the equilibrium solver: its nine parameters, the
    sampled price domain, and the demand and supply curves evaluated on it.
    Everything here is a value; the curves are functions of the sample index,
    as the vectorised expressions of the solver are functions of the price. */
module Market {

  /** Number of samples in the price domain. */
  const GRID_SIZE: nat := 500
  /** The closed price interval that the samples cover. */
  const PRICE_MIN: real := 1.0
  const PRICE_MAX: real := 100.0
  /** Demand grows by this much per unit the substitute's price exceeds its reference. */
  const SENSITIVITY: real := 1.5
  /** Reference price of the substitute good: at this price it does not shift demand. */
  const BASE_SUBSTITUTE_PRICE: real := 50.0
  /** The externality enters supply divided by this factor. */
  const EXTERNALITY_DIVISOR: real := 10.0

  /** The nine inputs of one evaluation. */
  datatype MarketParameters = MarketParameters(
    demandIntercept: real,
    demandSlope: real,
    supplyIntercept: real,
    supplySlope: real,
    tax: real,
    subsidy: real,
    externality: real,
    substitutePrice: real,
    marketFlexibility: real)

  /** The slider defaults of the page: the parameters of the first evaluation. */
  function DefaultParameters(): (m: MarketParameters)
    ensures m.marketFlexibility != 0.0
    ensures m.substitutePrice == BASE_SUBSTITUTE_PRICE
  {
    MarketParameters(100.0, 2.0, 20.0, 2.0, 0.0, 0.0, 0.0, 50.0, 1.0)
  }

  // ---------------------------------------------------------------------------
  // The price domain: 500 evenly spaced samples from 1 to 100 inclusive.
  // ---------------------------------------------------------------------------

  /** Distance between neighbouring samples. */
  function GridStep(): (d: real)
    ensures d > 0.0
    ensures d * (GRID_SIZE - 1) as real == PRICE_MAX - PRICE_MIN
  {
    (PRICE_MAX - PRICE_MIN) / (GRID_SIZE - 1) as real
  }

  /** The i-th sample of the price domain. */
  function PriceAt(i: int): (p: real)
    requires 0 <= i < GRID_SIZE
    ensures PRICE_MIN <= p <= PRICE_MAX
    ensures i == 0 ==> p == PRICE_MIN
    ensures i == GRID_SIZE - 1 ==> p == PRICE_MAX
  {
    PRICE_MIN + i as real * GridStep()
  }

  /** The samples are strictly increasing, so an index identifies its price. */
  lemma PriceAtStrictlyIncreasing(i: int, j: int)
    requires 0 <= i < j < GRID_SIZE
    ensures PriceAt(i) < PriceAt(j)
    ensures PriceAt(j) - PriceAt(i) == (j - i) as real * GridStep()
  {
  }

  /** The whole price domain, as the solver holds it. */
  function PriceGrid(): (g: seq<real>)
    ensures |g| == GRID_SIZE
    ensures g[0] == PRICE_MIN && g[GRID_SIZE - 1] == PRICE_MAX
    ensures forall i :: 0 < i < GRID_SIZE ==> g[i] - g[i - 1] == GridStep()
  {
    seq(GRID_SIZE, i requires 0 <= i < GRID_SIZE => PriceAt(i))
  }

  // ---------------------------------------------------------------------------
  // The two curves.
  // ---------------------------------------------------------------------------

  /** A slope divided by the market flexibility; undefined for zero flexibility. */
  function AdjustedSlope(slope: real, flexibility: real): (s: real)
    requires flexibility != 0.0
    ensures s * flexibility == slope
  {
    slope / flexibility
  }

  /** Demand at price p before negative quantities are removed. */
  function UnclampedDemand(m: MarketParameters, p: real): real
    requires m.marketFlexibility != 0.0
  {
    m.demandIntercept - AdjustedSlope(m.demandSlope, m.marketFlexibility) * p
      + SENSITIVITY * (m.substitutePrice - BASE_SUBSTITUTE_PRICE)
  }

  /** Supply at price p before negative quantities are removed. */
  function UnclampedSupply(m: MarketParameters, p: real): real
    requires m.marketFlexibility != 0.0
  {
    m.supplyIntercept + AdjustedSlope(m.supplySlope, m.marketFlexibility) * p
      + m.externality / EXTERNALITY_DIVISOR - m.tax + m.subsidy
  }

  /** A quantity with negative values replaced by zero: max(0, x). */
  function Clamp(x: real): (r: real)
    ensures r >= 0.0 && r >= x
    ensures r == x || r == 0.0
    ensures x >= 0.0 ==> r == x
  {
    if x < 0.0 then 0.0 else x
  }

  /** Demand at the i-th sample: max(0, unclamped demand). */
  function DemandAt(m: MarketParameters, i: int): (q: real)
    requires m.marketFlexibility != 0.0
    requires 0 <= i < GRID_SIZE
    ensures q >= 0.0 && q >= UnclampedDemand(m, PriceAt(i))
    ensures q == UnclampedDemand(m, PriceAt(i)) || q == 0.0
  {
    Clamp(UnclampedDemand(m, PriceAt(i)))
  }

  /** Supply at the i-th sample: max(0, unclamped supply). */
  function SupplyAt(m: MarketParameters, i: int): (q: real)
    requires m.marketFlexibility != 0.0
    requires 0 <= i < GRID_SIZE
    ensures q >= 0.0 && q >= UnclampedSupply(m, PriceAt(i))
    ensures q == UnclampedSupply(m, PriceAt(i)) || q == 0.0
  {
    Clamp(UnclampedSupply(m, PriceAt(i)))
  }

  /** The sampled demand curve. */
  function DemandCurve(m: MarketParameters): (c: seq<real>)
    requires m.marketFlexibility != 0.0
    ensures |c| == GRID_SIZE
    ensures forall i :: 0 <= i < GRID_SIZE ==> c[i] >= 0.0
  {
    seq(GRID_SIZE, i requires 0 <= i < GRID_SIZE => DemandAt(m, i))
  }

  /** The sampled supply curve. */
  function SupplyCurve(m: MarketParameters): (c: seq<real>)
    requires m.marketFlexibility != 0.0
    ensures |c| == GRID_SIZE
    ensures forall i :: 0 <= i < GRID_SIZE ==> c[i] >= 0.0
  {
    seq(GRID_SIZE, i requires 0 <= i < GRID_SIZE => SupplyAt(m, i))
  }

  /** With positive flexibility, a steeper demand slope never raises demand
      at any sampled price (the slope term is subtracted and prices are positive). */
  lemma DemandFallsAsSlopeRises(m: MarketParameters, steeper: real, i: int)
    requires m.marketFlexibility > 0.0
    requires steeper >= m.demandSlope
    requires 0 <= i < GRID_SIZE
    ensures DemandAt(m.(demandSlope := steeper), i) <= DemandAt(m, i)
  {
    var f, p := m.marketFlexibility, PriceAt(i);
    var flat, steep := AdjustedSlope(m.demandSlope, f), AdjustedSlope(steeper, f);
    assert steep >= flat by {
      assert (steep - flat) * f == steeper - m.demandSlope;
    }
    assert steep * p >= flat * p by {
      assert steep * p - flat * p == (steep - flat) * p;
    }
    assert UnclampedDemand(m.(demandSlope := steeper), p) <= UnclampedDemand(m, p);
  }

  /** With positive flexibility, a steeper supply slope never lowers supply
      at any sampled price. */
  lemma SupplyRisesWithSlope(m: MarketParameters, steeper: real, i: int)
    requires m.marketFlexibility > 0.0
    requires steeper >= m.supplySlope
    requires 0 <= i < GRID_SIZE
    ensures SupplyAt(m.(supplySlope := steeper), i) >= SupplyAt(m, i)
  {
    var f, p := m.marketFlexibility, PriceAt(i);
    var flat, steep := AdjustedSlope(m.supplySlope, f), AdjustedSlope(steeper, f);
    assert steep >= flat by {
      assert (steep - flat) * f == steeper - m.supplySlope;
    }
    assert steep * p >= flat * p by {
      assert steep * p - flat * p == (steep - flat) * p;
    }
    assert UnclampedSupply(m.(supplySlope := steeper), p) >= UnclampedSupply(m, p);
  }
}
