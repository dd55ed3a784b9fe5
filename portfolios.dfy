/** investment_simulator/portfolios.py: the grid-based growth simulation. A grid of
    `steps + 1` rows (steps) by `simulations` columns (paths) is filled in place: row 0
    with the initial investment, every later row with the row before it times that
    step's random multipliers. Each row is then reduced to its mean and population
    standard deviation, and the contribution for a step is added to that step's mean.

    The multipliers, `exp(normal(drift - risk**2 / 2, risk))` drawn for the whole grid,
    are the input `multipliers`; the square root is the input `sqrt`. */
module Portfolios {
  import opened Wrappers
  import Statistics
  import PortfolioSimulation
  import Contributions

  /** `PortfolioResults`. */
  datatype PortfolioResults = PortfolioResults(
    portfolioReturn: real,
    portfolioRisk: real,
    simulationMean: seq<real>,
    simulationStd: seq<real>)

  /** Every row of `m` has `cols` entries. */
  predicate Shaped(m: seq<seq<real>>, cols: nat)
  {
    forall k :: 0 <= k < |m| ==> |m[k]| == cols
  }

  /** `get_graph_vectors(grid)`: one mean and one population standard deviation per row. */
  function GetGraphVectors(rows: seq<seq<real>>, sqrt: real -> real): (r: (seq<real>, seq<real>))
    requires forall k :: 0 <= k < |rows| ==> |rows[k]| > 0
    ensures |r.0| == |rows| && |r.1| == |rows|
    ensures forall k :: 0 <= k < |rows| ==> r.0[k] * (|rows[k]| as real) == Statistics.Sum(rows[k])
    ensures forall k :: 0 <= k < |rows| ==> r.1[k] == sqrt(Statistics.Variance(rows[k]))
  {
    (seq(|rows|, k requires 0 <= k < |rows| => Statistics.Mean(rows[k])),
     seq(|rows|, k requires 0 <= k < |rows| => sqrt(Statistics.Variance(rows[k]))))
  }

  /** A row of identical values has that value as its mean and a zero variance. */
  lemma GraphVectorsOfConstantRow(rows: seq<seq<real>>, sqrt: real -> real, k: nat, c: real)
    requires forall i :: 0 <= i < |rows| ==> |rows[i]| > 0
    requires k < |rows|
    requires forall j :: 0 <= j < |rows[k]| ==> rows[k][j] == c
    ensures GetGraphVectors(rows, sqrt).0[k] == c
    ensures GetGraphVectors(rows, sqrt).1[k] == sqrt(0.0)
  {
    Statistics.ConstantRow(rows[k], c);
  }

  /** The value of path `j` at step `k`: the initial investment times the multipliers of
      steps 1 to `k`. */
  function PathValue(initial: real, multipliers: seq<seq<real>>, cols: nat, k: nat, j: nat): real
    requires Shaped(multipliers, cols)
    requires k < |multipliers| && j < cols
  {
    if k == 0 then initial else PathValue(initial, multipliers, cols, k - 1, j) * multipliers[k][j]
  }

  /** Row `k` of the filled grid. */
  function GridRow(initial: real, multipliers: seq<seq<real>>, cols: nat, k: nat): (row: seq<real>)
    requires Shaped(multipliers, cols)
    requires k < |multipliers|
    ensures |row| == cols
  {
    seq(cols, j requires 0 <= j < cols => PathValue(initial, multipliers, cols, k, j))
  }

  /** The contribution the second loop of `growth_simulation` adds to the mean of step `k`:
      the schedule's amount for `1 <= k <= steps - 1`, nothing at step 0 or the last step. */
  function ContributionAt(contribution: nat -> real, steps: nat, k: nat): real
  {
    if 1 <= k < steps then contribution(k) else 0.0
  }

  /** The result `growth_simulation` returns for a given set of multipliers. */
  function Expected(p: PortfolioSimulation.Parameters, initial: real, multipliers: seq<seq<real>>, steps: nat,
                    simulations: nat, contribution: nat -> real, sqrt: real -> real): (r: PortfolioResults)
    requires simulations > 0
    requires |multipliers| == steps + 1 && Shaped(multipliers, simulations)
    ensures |r.simulationMean| == |r.simulationStd| == steps + 1
  {
    PortfolioResults(
      p.growth - 1.0,
      sqrt(p.variance),
      seq(steps + 1, k requires 0 <= k <= steps =>
        Statistics.Mean(GridRow(initial, multipliers, simulations, k)) + ContributionAt(contribution, steps, k)),
      seq(steps + 1, k requires 0 <= k <= steps =>
        sqrt(Statistics.Variance(GridRow(initial, multipliers, simulations, k)))))
  }

  /** The first loop of `growth_simulation`: a fresh `(steps + 1) x simulations` grid whose
      row 0 is the initial investment and whose row `k` is row `k - 1` times multiplier
      row `k`. */
  method FillGrid(initial: real, multipliers: seq<seq<real>>, steps: nat, simulations: nat) returns (grid: array2<real>)
    requires |multipliers| == steps + 1 && Shaped(multipliers, simulations)
    ensures fresh(grid)
    ensures grid.Length0 == steps + 1 && grid.Length1 == simulations
    ensures forall k, q :: 0 <= k <= steps && 0 <= q < simulations ==> grid[k, q] == PathValue(initial, multipliers, simulations, k, q)
  {
    grid := new real[steps + 1, simulations];
    for j := 0 to simulations
      invariant forall q :: 0 <= q < j ==> grid[0, q] == initial
    {
      grid[0, j] := initial;
    }
    for step := 1 to steps + 1
      invariant forall k, q :: 0 <= k < step && 0 <= q < simulations ==> grid[k, q] == PathValue(initial, multipliers, simulations, k, q)
    {
      FillRow(grid, initial, multipliers, step);
    }
  }

  /** `simulation[step] = simulation[step - 1] * random_walk[step]`. */
  method FillRow(grid: array2<real>, initial: real, multipliers: seq<seq<real>>, step: nat)
    requires |multipliers| == grid.Length0 && Shaped(multipliers, grid.Length1)
    requires 1 <= step < grid.Length0
    requires forall k, q :: 0 <= k < step && 0 <= q < grid.Length1 ==> grid[k, q] == PathValue(initial, multipliers, grid.Length1, k, q)
    modifies grid
    ensures forall k, q :: 0 <= k <= step && 0 <= q < grid.Length1 ==> grid[k, q] == PathValue(initial, multipliers, grid.Length1, k, q)
    ensures forall k, q :: step < k < grid.Length0 && 0 <= q < grid.Length1 ==> grid[k, q] == old(grid[k, q])
  {
    for j := 0 to grid.Length1
      invariant forall k, q :: 0 <= k < step && 0 <= q < grid.Length1 ==> grid[k, q] == PathValue(initial, multipliers, grid.Length1, k, q)
      invariant forall q :: 0 <= q < j ==> grid[step, q] == PathValue(initial, multipliers, grid.Length1, step, q)
      invariant forall k, q :: step < k < grid.Length0 && 0 <= q < grid.Length1 ==> grid[k, q] == old(grid[k, q])
    {
      grid[step, j] := grid[step - 1, j] * multipliers[step][j];
    }
  }

  /** The second loop of `growth_simulation`: the schedule's amount added to the mean of
      every step from 1 to `steps - 1`, in place in the list of means. */
  method AddContributions(means: seq<real>, contribution: nat -> real, steps: nat) returns (r: seq<real>)
    requires |means| == steps + 1
    ensures |r| == steps + 1
    ensures forall k :: 0 <= k <= steps ==> r[k] == means[k] + ContributionAt(contribution, steps, k)
  {
    r := means;
    var step := 1;
    while step < steps
      invariant 1 <= step <= if steps == 0 then 1 else steps
      invariant |r| == steps + 1
      invariant forall k :: 0 <= k <= steps ==> r[k] == means[k] + (if k < step then ContributionAt(contribution, steps, k) else 0.0)
    {
      r := r[step := r[step] + contribution(step)];
      step := step + 1;
    }
  }

  /** `growth_simulation(weights, returns, covariance, steps, initial, fee, simulations,
      contribution)` with the grid's multipliers given. */
  method GrowthSimulation(weights: seq<real>, annualReturns: seq<real>, covariance: seq<seq<real>>, steps: nat,
                          initial: real, fee: real, simulations: nat, contribution: nat -> real,
                          multipliers: seq<seq<real>>, sqrt: real -> real)
    returns (r: Option<PortfolioResults>)
    requires simulations > 0
    requires |multipliers| == steps + 1 && Shaped(multipliers, simulations)
    ensures r.Some? <==> PortfolioSimulation.SimulationParameters(weights, annualReturns, covariance, fee).Some?
    ensures r.Some? ==> r.value == Expected(PortfolioSimulation.SimulationParameters(weights, annualReturns, covariance, fee).value,
                                            initial, multipliers, steps, simulations, contribution, sqrt)
  {
    var params := PortfolioSimulation.SimulationParameters(weights, annualReturns, covariance, fee);
    if params.None? {
      return None;
    }
    var grid := FillGrid(initial, multipliers, steps, simulations);
    var rows := seq(steps + 1, k requires 0 <= k <= steps reads grid =>
      seq(simulations, q requires 0 <= q < simulations reads grid => grid[k, q]));
    assert rows == GridRows(initial, multipliers, simulations) by {
      forall k | 0 <= k <= steps
        ensures rows[k] == GridRow(initial, multipliers, simulations, k)
      {
      }
    }
    var vectors := GetGraphVectors(rows, sqrt);
    var mean := AddContributions(vectors.0, contribution, steps);
    r := Some(PortfolioResults(params.value.growth - 1.0, sqrt(params.value.variance), mean, vectors.1));
    ExpectedFromGrid(params.value, initial, multipliers, steps, simulations, contribution, sqrt, mean);
  }

  /** All rows of the simulation grid. */
  function GridRows(initial: real, multipliers: seq<seq<real>>, cols: nat): (rows: seq<seq<real>>)
    requires Shaped(multipliers, cols)
    ensures |rows| == |multipliers|
    ensures forall k :: 0 <= k < |rows| ==> rows[k] == GridRow(initial, multipliers, cols, k)
  {
    seq(|multipliers|, k requires 0 <= k < |multipliers| => GridRow(initial, multipliers, cols, k))
  }

  /** The statistics of the grid, with the contributions added to the means, are the
      specified result. */
  lemma ExpectedFromGrid(p: PortfolioSimulation.Parameters, initial: real, multipliers: seq<seq<real>>, steps: nat,
                         simulations: nat, contribution: nat -> real, sqrt: real -> real, mean: seq<real>)
    requires simulations > 0
    requires |multipliers| == steps + 1 && Shaped(multipliers, simulations)
    requires |mean| == steps + 1
    requires forall k :: 0 <= k <= steps ==>
      mean[k] == GetGraphVectors(GridRows(initial, multipliers, simulations), sqrt).0[k] + ContributionAt(contribution, steps, k)
    ensures Expected(p, initial, multipliers, steps, simulations, contribution, sqrt)
            == PortfolioResults(p.growth - 1.0, sqrt(p.variance), mean, GetGraphVectors(GridRows(initial, multipliers, simulations), sqrt).1)
  {
    var e := Expected(p, initial, multipliers, steps, simulations, contribution, sqrt);
    var v := GetGraphVectors(GridRows(initial, multipliers, simulations), sqrt);
    assert mean == e.simulationMean;
    assert v.1 == e.simulationStd;
  }

  /** Step 0 of every path is the initial investment, so the first mean is the initial
      investment and the first deviation is that of a constant row. */
  lemma FirstStep(p: PortfolioSimulation.Parameters, initial: real, multipliers: seq<seq<real>>, steps: nat,
                  simulations: nat, contribution: nat -> real, sqrt: real -> real)
    requires simulations > 0
    requires |multipliers| == steps + 1 && Shaped(multipliers, simulations)
    ensures Expected(p, initial, multipliers, steps, simulations, contribution, sqrt).simulationMean[0] == initial
    ensures Expected(p, initial, multipliers, steps, simulations, contribution, sqrt).simulationStd[0] == sqrt(0.0)
  {
    Statistics.ConstantRow(GridRow(initial, multipliers, simulations, 0), initial);
  }

  /** Row `k` of the grid is row `k - 1` times multiplier row `k`, entry by entry. */
  lemma GridRecurrence(initial: real, multipliers: seq<seq<real>>, cols: nat, k: nat, j: nat)
    requires Shaped(multipliers, cols)
    requires 1 <= k < |multipliers| && j < cols
    ensures GridRow(initial, multipliers, cols, k)[j] == GridRow(initial, multipliers, cols, k - 1)[j] * multipliers[k][j]
  {
  }

  /** Multiplier row 0 is drawn but never used. */
  lemma {:induction false} FirstMultipliersUnused(initial: real, m1: seq<seq<real>>, m2: seq<seq<real>>, cols: nat, k: nat, j: nat)
    requires Shaped(m1, cols) && Shaped(m2, cols) && |m1| == |m2|
    requires forall i :: 1 <= i < |m1| ==> m1[i] == m2[i]
    requires k < |m1| && j < cols
    ensures PathValue(initial, m1, cols, k, j) == PathValue(initial, m2, cols, k, j)
  {
    if k > 0 {
      FirstMultipliersUnused(initial, m1, m2, cols, k - 1, j);
    }
  }

  /** With a positive initial investment and positive multipliers (values of `exp`),
      every value on the grid is positive, and so is every mean before contributions. */
  lemma {:induction false} GridPositive(initial: real, multipliers: seq<seq<real>>, cols: nat, k: nat, j: nat)
    requires Shaped(multipliers, cols)
    requires k < |multipliers| && j < cols
    requires initial > 0.0
    requires forall i, q :: 0 <= i < |multipliers| && 0 <= q < cols ==> multipliers[i][q] > 0.0
    ensures PathValue(initial, multipliers, cols, k, j) > 0.0
  {
    if k > 0 {
      GridPositive(initial, multipliers, cols, k - 1, j);
      assert multipliers[k][j] > 0.0;
    }
  }

  lemma MeansPositive(initial: real, multipliers: seq<seq<real>>, cols: nat, k: nat)
    requires Shaped(multipliers, cols) && cols > 0
    requires k < |multipliers|
    requires initial > 0.0
    requires forall i, q :: 0 <= i < |multipliers| && 0 <= q < cols ==> multipliers[i][q] > 0.0
    ensures Statistics.Mean(GridRow(initial, multipliers, cols, k)) > 0.0
  {
    forall q | 0 <= q < cols
      ensures GridRow(initial, multipliers, cols, k)[q] > 0.0
    {
      GridPositive(initial, multipliers, cols, k, q);
    }
    Statistics.MeanPositive(GridRow(initial, multipliers, cols, k));
  }

  /** Adding a step's contribution to its mean is the same as adding it once to every
      path at that step without compounding it into later steps: the mean moves by the
      contribution and the deviation is unchanged. */
  lemma ContributionIsLumpPerPath(row: seq<real>, c: real, sqrt: real -> real)
    requires |row| > 0
    ensures Statistics.Mean(row) + c == Statistics.Mean(Statistics.Shift(row, c))
    ensures sqrt(Statistics.Variance(row)) == sqrt(Statistics.Variance(Statistics.Shift(row, c)))
  {
    Statistics.ShiftRow(row, c);
  }

  /** With the default schedule `continuous_contributions(0.0, 0.0)` the means are the
      plain row means. */
  lemma DefaultScheduleAddsNothing(p: PortfolioSimulation.Parameters, initial: real, multipliers: seq<seq<real>>,
                                   steps: nat, simulations: nat, sqrt: real -> real, k: nat)
    requires simulations > 0
    requires |multipliers| == steps + 1 && Shaped(multipliers, simulations)
    requires k <= steps
    ensures Expected(p, initial, multipliers, steps, simulations, Contributions.ContinuousContributions(0.0, 0.0), sqrt).simulationMean[k]
            == Statistics.Mean(GridRow(initial, multipliers, simulations, k))
  {
    Contributions.NoContributionsByDefault(k);
  }
}
