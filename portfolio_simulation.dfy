/** investment_simulator/portfolio_simulation.py: the closed-form simulation parameters
    shared by every simulation, the recursive per-path random walk and the Monte Carlo
    driver that runs one walk per path.

    The random factor of each step, `exp(normal(drift - risk**2 / 2, risk))`, is an input
    (`multiplier`, `draws`); the logarithm is not evaluated: the parameters hold its
    argument, and `exp(log(g)) - 1` is `g - 1`. The square root is the input `sqrt`. */
module PortfolioSimulation {
  import opened Wrappers
  import opened Numerics
  import Utils
  import Statistics

  /** `(log(growth), sqrt(variance))` as the pair of pre-transform quantities: `growth` is
      `1 + w·r - fee`, `variance` is `w·C·w`. */
  datatype Parameters = Parameters(growth: real, variance: real)

  /** `simulation_parameters(weights, annualReturns, covariance, fee)`. */
  function SimulationParameters(weights: seq<real>, annualReturns: seq<real>, covariance: seq<seq<real>>, fee: real): (p: Option<Parameters>)
    ensures p.Some? <==> |weights| == |annualReturns| && Utils.SquareFor(covariance, |weights|)
    ensures p.Some? ==> p.value.growth == 1.0 + Utils.DotSum(weights, annualReturns) - fee
    ensures p.Some? ==> Some(p.value.variance) == Utils.QuadraticForm(weights, covariance)
  {
    var r :- Utils.SimulationReturn(weights, annualReturns);
    var q :- Utils.QuadraticForm(weights, covariance);
    Some(Parameters(1.0 + r - fee, q))
  }

  /** A larger fee gives a strictly smaller argument of the logarithm and leaves the
      variance alone. */
  lemma FeeLowersGrowth(weights: seq<real>, annualReturns: seq<real>, covariance: seq<seq<real>>, fee1: real, fee2: real)
    requires fee1 < fee2
    requires SimulationParameters(weights, annualReturns, covariance, fee1).Some?
    ensures SimulationParameters(weights, annualReturns, covariance, fee2).Some?
    ensures SimulationParameters(weights, annualReturns, covariance, fee2).value.growth
            < SimulationParameters(weights, annualReturns, covariance, fee1).value.growth
    ensures SimulationParameters(weights, annualReturns, covariance, fee2).value.variance
            == SimulationParameters(weights, annualReturns, covariance, fee1).value.variance
  {
  }

  /** Half in each of two assets returning 10% with unit, uncorrelated variances and no
      fee: the logarithm is taken of 1.1 and the root of 0.5. */
  lemma ParametersExample()
    ensures SimulationParameters([0.5, 0.5], [0.1, 0.1], [[1.0, 0.0], [0.0, 1.0]], 0.0) == Some(Parameters(1.1, 0.5))
  {
    Utils.IdentityCovarianceExample();
    var w := [0.5, 0.5];
    assert Utils.DotSum(w, [0.1, 0.1]) == 0.1 by {
      assert w[..1] == [0.5] && [0.1, 0.1][..1] == [0.1];
    }
  }

  /** The contribution added at `step`: `contributions * (1 + growth) ** step`. */
  function Grown(contributions: real, growth: real, step: nat): real
  {
    contributions * Pow(1.0 + growth, step)
  }

  /** `random_walk(path, ..., period, step, contributions, growth)`: appends one value per
      step. Before the last step a value is the previous one times the step's multiplier
      plus the contribution grown to the step; at the last step (`step >= period`) the
      multiplied value is appended alone and the walk ends. */
  function RandomWalk(path: seq<real>, multiplier: nat -> real, period: int, step: nat,
                      contributions: real, growth: real): (r: seq<real>)
    requires |path| > 0
    ensures |r| == |path| + (if step >= period then 1 else period - step + 1)
    ensures r[..|path|] == path
    decreases period - step
  {
    var next := path[|path| - 1] * multiplier(step);
    if step >= period then path + [next]
    else
      var r := RandomWalk(path + [next + Grown(contributions, growth, step)], multiplier, period, step + 1, contributions, growth);
      assert r[..|path|] == r[..|path| + 1][..|path|];
      r
  }

  /** One unfolding of the walk before its last step. */
  lemma WalkStep(path: seq<real>, multiplier: nat -> real, period: int, step: nat, contributions: real, growth: real)
    requires |path| > 0 && step < period
    ensures RandomWalk(path, multiplier, period, step, contributions, growth)
            == RandomWalk(path + [path[|path| - 1] * multiplier(step) + Grown(contributions, growth, step)],
                          multiplier, period, step + 1, contributions, growth)
  {
  }

  /** At its last step the walk appends the multiplied value alone. */
  lemma WalkLast(path: seq<real>, multiplier: nat -> real, period: int, step: nat, contributions: real, growth: real)
    requires |path| > 0 && step >= period
    ensures RandomWalk(path, multiplier, period, step, contributions, growth) == path + [path[|path| - 1] * multiplier(step)]
  {
  }

  /** The walk keeps every value of the path it starts from. */
  lemma WalkKeeps(path: seq<real>, multiplier: nat -> real, period: int, step: nat, contributions: real, growth: real, i: nat)
    requires i < |path|
    ensures RandomWalk(path, multiplier, period, step, contributions, growth)[i] == path[i]
  {
    var r := RandomWalk(path, multiplier, period, step, contributions, growth);
    assert r[..|path|][i] == r[i];
  }

  /** The value a walk appends at a step before its last. */
  lemma WalkAppendsGrown(path: seq<real>, multiplier: nat -> real, period: int, step: nat,
                         contributions: real, growth: real)
    requires |path| == step > 0
    requires step < period
    ensures var r := RandomWalk(path, multiplier, period, step, contributions, growth);
      r[step] == r[step - 1] * multiplier(step) + Grown(contributions, growth, step)
  {
    var path' := path + [path[|path| - 1] * multiplier(step) + Grown(contributions, growth, step)];
    WalkStep(path, multiplier, period, step, contributions, growth);
    WalkKeeps(path', multiplier, period, step + 1, contributions, growth, step);
    WalkKeeps(path', multiplier, period, step + 1, contributions, growth, step - 1);
  }

  /** The value a walk appends at its last step. */
  lemma WalkAppendsLast(path: seq<real>, multiplier: nat -> real, period: int, step: nat,
                        contributions: real, growth: real)
    requires |path| == step > 0
    requires step >= period
    ensures var r := RandomWalk(path, multiplier, period, step, contributions, growth);
      r[step] == r[step - 1] * multiplier(step)
  {
    WalkLast(path, multiplier, period, step, contributions, growth);
    var next := path[|path| - 1] * multiplier(step);
    assert (path + [next])[step] == next && (path + [next])[step - 1] == path[|path| - 1];
  }

  /** Every value a walk appends follows from the one before it: multiplied by that step's
      factor, plus the grown contribution except at the final step `period`. */
  lemma {:induction false} RandomWalkValues(path: seq<real>, multiplier: nat -> real, period: int, step: nat,
                                            contributions: real, growth: real, k: nat)
    requires |path| == step > 0
    requires step <= period
    requires step <= k <= period
    ensures var r := RandomWalk(path, multiplier, period, step, contributions, growth);
      |r| == period + 1 &&
      r[k] == r[k - 1] * multiplier(k) + (if k < period then Grown(contributions, growth, k) else 0.0)
    decreases period - step
  {
    if k == step && step < period {
      WalkAppendsGrown(path, multiplier, period, step, contributions, growth);
    } else if k == step {
      WalkAppendsLast(path, multiplier, period, step, contributions, growth);
    } else {
      WalkStep(path, multiplier, period, step, contributions, growth);
      RandomWalkValues(path + [path[|path| - 1] * multiplier(step) + Grown(contributions, growth, step)],
                       multiplier, period, step + 1, contributions, growth, k);
    }
  }

  /** The walk of `monte_carlo_sim`, started from one value at step 1, has one value per
      step from 0 to `max(period, 1)` and keeps its starting value. */
  lemma WalkFromStart(initial: real, multiplier: nat -> real, period: int, contributions: real)
    ensures var r := RandomWalk([initial], multiplier, period, 1, contributions, 0.0);
      |r| == (if period <= 1 then 2 else period + 1) && r[0] == initial
  {
    var r := RandomWalk([initial], multiplier, period, 1, contributions, 0.0);
    assert r[..1] == [initial];
  }

  /** `monte_carlo_sim` passes no contribution growth, so every contribution before the
      final step is the constant `adds`. */
  lemma ConstantContributions(initial: real, multiplier: nat -> real, period: int, contributions: real, k: nat)
    requires 1 <= k < period
    ensures var r := RandomWalk([initial], multiplier, period, 1, contributions, 0.0);
      r[k] == r[k - 1] * multiplier(k) + contributions
  {
    RandomWalkValues([initial], multiplier, period, 1, contributions, 0.0, k);
    PowOfOne(k);
  }

  /** The length of every walk of `monte_carlo_sim`. */
  function WalkLength(steps: int): nat
  {
    if steps <= 1 then 2 else steps + 1
  }

  /** `SimulationResults` of the Monte Carlo driver. */
  datatype SimulationResults = SimulationResults(
    portfolioReturn: real,
    portfolioRisk: real,
    simulationMean: seq<real>,
    simulationStd: seq<real>,
    xMax: int,
    yMax: real)

  /** The simulated values transposed to one row per step, one column per path. */
  function StepRows(initial: real, draws: (nat, nat) -> real, steps: int, adds: real, simulations: nat): (rows: seq<seq<real>>)
    ensures |rows| == WalkLength(steps)
    ensures forall k :: 0 <= k < |rows| ==> |rows[k]| == simulations
    ensures forall k, p :: 0 <= k < |rows| && 0 <= p < simulations ==>
      rows[k][p] == RandomWalk([initial], (j: nat) => draws(p, j), steps, 1, adds, 0.0)[k]
  {
    var walks := seq(simulations, p requires 0 <= p < simulations =>
      RandomWalk([initial], (k: nat) => draws(p, k), steps, 1, adds, 0.0));
    seq(WalkLength(steps), k requires 0 <= k < WalkLength(steps) =>
      seq(simulations, p requires 0 <= p < simulations => walks[p][k]))
  }

  /** Each path that `monte_carlo_sim` reduces adds the constant contribution at every step
      before the last, on top of that path's own multiplier. */
  lemma StepRowsAddContributions(initial: real, draws: (nat, nat) -> real, steps: int, adds: real,
                                 simulations: nat, k: nat, p: nat)
    requires 1 <= k < steps && p < simulations
    ensures var rows := StepRows(initial, draws, steps, adds, simulations);
      rows[k][p] == rows[k - 1][p] * draws(p, k) + adds
  {
    ConstantContributions(initial, (j: nat) => draws(p, j), steps, adds, k);
  }

  /** `monte_carlo_sim(weights, annualReturns, covariance, steps, initial, fee, adds, simulations)`:
      one walk per path from the initial investment, reduced per step to the mean and the
      population standard deviation. numpy refuses `apply_along_axis` over zero paths. */
  function MonteCarloSim(weights: seq<real>, annualReturns: seq<real>, covariance: seq<seq<real>>, steps: int,
                         initial: real, fee: real, adds: real, simulations: nat,
                         draws: (nat, nat) -> real, sqrt: real -> real): (r: Option<SimulationResults>)
    ensures r.Some? <==> SimulationParameters(weights, annualReturns, covariance, fee).Some? && simulations > 0
    ensures r.Some? ==> |r.value.simulationMean| == |r.value.simulationStd| == WalkLength(steps)
    ensures r.Some? ==> r.value.xMax == steps
    ensures r.Some? ==> r.value.yMax == Statistics.Largest(r.value.simulationMean) + Statistics.Largest(r.value.simulationStd)
    ensures r.Some? ==> r.value.portfolioReturn == SimulationParameters(weights, annualReturns, covariance, fee).value.growth - 1.0
    ensures r.Some? ==> r.value.portfolioRisk == sqrt(SimulationParameters(weights, annualReturns, covariance, fee).value.variance)
    ensures r.Some? ==> r.value.simulationMean[0] == initial && r.value.simulationStd[0] == sqrt(0.0)
    ensures r.Some? ==> forall k :: 0 <= k < WalkLength(steps) ==>
      r.value.simulationMean[k] == Statistics.Mean(StepRows(initial, draws, steps, adds, simulations)[k]) &&
      r.value.simulationStd[k] == sqrt(Statistics.Variance(StepRows(initial, draws, steps, adds, simulations)[k]))
  {
    var p :- SimulationParameters(weights, annualReturns, covariance, fee);
    if simulations == 0 then None
    else
      var rows := StepRows(initial, draws, steps, adds, simulations);
      var mean := seq(|rows|, k requires 0 <= k < |rows| => Statistics.Mean(rows[k]));
      var std := seq(|rows|, k requires 0 <= k < |rows| => sqrt(Statistics.Variance(rows[k])));
      assert forall q :: 0 <= q < simulations ==> rows[0][q] == initial by {
        forall q | 0 <= q < simulations
          ensures rows[0][q] == initial
        {
          WalkFromStart(initial, (k: nat) => draws(q, k), steps, adds);
        }
      }
      Statistics.ConstantRow(rows[0], initial);
      Some(SimulationResults(p.growth - 1.0, sqrt(p.variance), mean, std, steps,
                             Statistics.Largest(mean) + Statistics.Largest(std)))
  }
}
