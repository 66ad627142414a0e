# Supply/demand equilibrium solver

A Dafny model of the equilibrium calculation of the interactive
microeconomic simulation (the function `plot_supply_demand` of `app.py`, up
to the point where it starts drawing). Given nine market parameters, the
solver does the following:

- it samples the price domain [1, 100] at 500 evenly spaced points;
- it divides both slopes by the market flexibility;
- it evaluates a linear demand curve on the samples, shifted by
  1.5 × (substitute price − 50);
- it evaluates a linear supply curve on the samples, shifted by
  externality / 10 − tax + subsidy;
- it sets the negative entries of both arrays to zero in place;
- it takes the first sample where |demand − supply| is smallest.

It reports that sample's price and the **supply** quantity at that sample as
the equilibrium.

Arithmetic is exact (`real`). The model has two modules:

- `market.dfy`, module `Market`: the pure part. It holds the named constants
  (`GRID_SIZE`, `PRICE_MIN`, `PRICE_MAX`, `SENSITIVITY`, `BASE_SUBSTITUTE_PRICE`,
  `EXTERNALITY_DIVISOR`), the `MarketParameters` record, the price grid as a
  function of the index, and the curve formulas with their clamped values at
  each sample.
- `solver.dfy`, module `Solver`: the imperative part. `ClampNegatives` is the
  masked in-place assignment, written as a loop over an `array<real>`.
  `ArgMin` is numpy's `argmin`, written as a scan that keeps the first
  minimum. `Solve` builds the two arrays, clamps them, runs the search and
  returns the curves and the equilibrium point.

A zero market flexibility makes the slope division raise an exception in the
original. `Solve` models this as the error result `Err(ZeroMarketFlexibility)`,
returned exactly when the flexibility is zero. The pure formula functions
require a non-zero flexibility.

Where the comments and the code differ, the model follows the code. The
comment on the supply line says the externality is added as it is, but the
code adds `externality / 10`, and so does the model.

## Model

| member | source | states |
|---|---|---|
| `Market.DefaultParameters` | app.py:53-75 | the slider defaults have non-zero flexibility and a substitute price at its reference of 50 |
| `Market.GridStep` | app.py:11 | the grid step is positive, and 499 steps span exactly the interval from 1 to 100 |
| `Market.PriceAt` | app.py:11 | every sample lies in [1, 100]; the first sample is 1 and the last (index 499) is 100 |
| `Market.PriceAtStrictlyIncreasing` | app.py:11 | samples strictly increase with the index, and samples i < j lie (j − i) steps apart |
| `Market.PriceGrid` | app.py:11 | the grid has exactly 500 entries, starts at 1, ends at 100, and neighbours differ by the step 99/499 |
| `Market.AdjustedSlope` | app.py:14-15 | defined only for non-zero flexibility; the adjusted slope times the flexibility gives back the original slope |
| `Market.Clamp` | app.py:21-25 | the clamped quantity is max(0, x): non-negative, at least x, equal to x or 0, and equal to x when x ≥ 0 |
| `Market.DemandAt` | app.py:17-21 | demand at a sample is max(0, intercept − (slope/flex)·price + 1.5·(substitute − 50)), so it is never negative |
| `Market.SupplyAt` | app.py:23-25 | supply at a sample is max(0, intercept + (slope/flex)·price + externality/10 − tax + subsidy), so it is never negative |
| `Market.DemandCurve` | app.py:20-21 | the demand curve has 500 entries, all ≥ 0 |
| `Market.SupplyCurve` | app.py:24-25 | the supply curve has 500 entries, all ≥ 0 |
| `Market.DemandFallsAsSlopeRises` | app.py:14-21 | with positive flexibility, raising the demand slope never raises clamped demand at any sample |
| `Market.SupplyRisesWithSlope` | app.py:15-25 | with positive flexibility, raising the supply slope never lowers clamped supply at any sample |
| `Solver.ClampNegatives` | app.py:21-25 | after the in-place pass, each entry is the clamp of its old value: all are ≥ 0, and entries that were ≥ 0 are unchanged |
| `Solver.FirstMinUnique` | app.py:28 | a sequence has at most one first-occurrence minimum index |
| `Solver.ArgMin` | app.py:28 | the returned index is in range; its element is ≤ every element and < every element before it (numpy's first-occurrence tie-break) |
| `Solver.Solve` | app.py:10-30 | fails exactly when the flexibility is 0. Otherwise it returns the 500-point grid, both clamped curves, the first index minimising the absolute difference of demand and supply, the grid price at that index (in [1, 100]) and the supply value there (≥ 0) |
| `Solver.SolutionIsDetermined` | app.py:10-30 | two results for the same parameters are identical: the curves and the equilibrium are determined by the inputs |
| `Solver.DefaultGapAt` | app.py:17-28 | for the slider defaults, the absolute gap between demand and supply at every sample is at least its value 92/499 at sample 96, and strictly larger at every earlier sample |
| `Solver.DefaultScenario` | app.py:10-30 | for the slider defaults (analytic intersection P = 20, Q = 60), the equilibrium is sample 96, with price 10003/499 ≈ 20.05 and supply quantity 29986/499 ≈ 60.09 |

## Left out

- Plotting (app.py:33-44): the figure, the curves, the equilibrium marker, the reference lines and the labels. These are calls into matplotlib and Streamlit that compute nothing the solver returns.
- The Streamlit page (app.py:47-96): the title, the sidebar sliders, the instructions and the top-level call. The slider defaults appear only as `Market.DefaultParameters`. The slider ranges are not preconditions of the model.
- IEEE-754 arithmetic: `np.linspace` and the float formulas are modelled over exact reals. No claim of bit-level agreement with numpy is made, and NaN and infinity inputs are not modelled.
- Solver.ArgMin: requires a non-empty sequence. numpy's `argmin` raises on an empty array, and the solver always passes 500 entries.
- Solver.Solve: the original raises an exception when the flexibility is zero; the model returns an error value instead. The model does not distinguish how that exception propagates to the page.
