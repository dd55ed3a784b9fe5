/** investment_simulator/allocations.py: random-search allocation. Every candidate weight
    vector is scored by its Sharpe ratio, and the best candidate is chosen with Python's
    `max`, whose ordering is `AllocationResults.__lt__`.

    The candidates, drawn from a Dirichlet distribution, are the input `portfolios`; the
    square root is the input `sqrt`. */
module Allocations {
  import opened Wrappers
  import Utils
  import Statistics
  import PortfolioSimulation

  /** `AllocationResults`. */
  datatype AllocationResults = AllocationResults(sharpeRatio: real, annualReturn: real, risk: real, weights: seq<real>)

  /** `a < b`: decided by the Sharpe ratios alone. */
  predicate Less(a: AllocationResults, b: AllocationResults)
  {
    a.sharpeRatio < b.sharpeRatio
  }

  /** `__lt__` is a strict order on the Sharpe ratio: irreflexive, transitive, and blind to
      every other field. */
  lemma LessIsStrictOrder(a: AllocationResults, b: AllocationResults, c: AllocationResults)
    ensures !Less(a, a)
    ensures Less(a, b) && Less(b, c) ==> Less(a, c)
    ensures Less(a, b) <==> Less(a.(annualReturn := 0.0, risk := 0.0, weights := []), b)
  {
  }

  /** The fixed risk-free rate of `sharpe_calc`. */
  const RiskFreeRate: real := 0.01

  /** `sharpe_calc(rtrn, risk) = (rtrn - 0.01) / risk`, undefined for a zero risk. */
  function SharpeCalc(rtrn: real, risk: real): (r: Option<real>)
    ensures r.Some? <==> risk != 0.0
    ensures r.Some? ==> r.value * risk == rtrn - RiskFreeRate
  {
    if risk == 0.0 then None else Some((rtrn - RiskFreeRate) / risk)
  }

  /** `simulate_allocation(returns, covariance)(weights)`: the record for one candidate. */
  function SimulateAllocation(annualReturns: seq<real>, covariance: seq<seq<real>>, sqrt: real -> real,
                              weights: seq<real>): (r: Option<AllocationResults>)
    ensures r.Some? <==> PortfolioSimulation.SimulationParameters(weights, annualReturns, covariance, 0.0).Some?
                         && sqrt(PortfolioSimulation.SimulationParameters(weights, annualReturns, covariance, 0.0).value.variance) != 0.0
    ensures r.Some? ==> r.value.weights == weights
    ensures r.Some? ==> r.value.annualReturn == Utils.DotSum(weights, annualReturns)
    ensures r.Some? ==> r.value.risk == sqrt(Utils.QuadraticForm(weights, covariance).value)
    ensures r.Some? ==> Some(r.value.sharpeRatio) == SharpeCalc(r.value.annualReturn, r.value.risk)
  {
    var p :- PortfolioSimulation.SimulationParameters(weights, annualReturns, covariance, 0.0);
    var rtrn := p.growth - 1.0;
    var risk := sqrt(p.variance);
    var sharpe :- SharpeCalc(rtrn, risk);
    Some(AllocationResults(sharpe, rtrn, risk, weights))
  }

  /** The index Python's `max` settles on: it starts from the first candidate and moves
      only to a candidate that is strictly greater, so it is the first candidate with the
      largest Sharpe ratio. */
  function FirstMaxIndex(cs: seq<AllocationResults>): (i: nat)
    requires |cs| > 0
    ensures i < |cs|
    ensures forall j :: 0 <= j < |cs| ==> cs[j].sharpeRatio <= cs[i].sharpeRatio
    ensures forall j :: 0 <= j < i ==> cs[j].sharpeRatio < cs[i].sharpeRatio
  {
    if |cs| == 1 then 0
    else
      var i := FirstMaxIndex(cs[..|cs| - 1]);
      assert forall j :: 0 <= j < |cs| - 1 ==> cs[..|cs| - 1][j] == cs[j];
      if Less(cs[i], cs[|cs| - 1]) then |cs| - 1 else i
  }

  /** `map(f, xs)` where `f` may raise: every result, or `None` as soon as one call fails. */
  function MapAll<T, U>(f: T -> Option<U>, xs: seq<T>): (r: Option<seq<U>>)
    ensures r.Some? <==> forall i :: 0 <= i < |xs| ==> f(xs[i]).Some?
    ensures r.Some? ==> |r.value| == |xs|
    ensures r.Some? ==> forall i :: 0 <= i < |xs| ==> Some(r.value[i]) == f(xs[i])
  {
    if |xs| == 0 then Some([])
    else
      var n := |xs|;
      assert forall i :: 0 <= i < n - 1 ==> xs[..n - 1][i] == xs[i];
      var init :- MapAll(f, xs[..n - 1]);
      var last :- f(xs[n - 1]);
      Some(init + [last])
  }

  /** The scoring function `simulate_allocation(returns, covariance)`. */
  function Scorer(annualReturns: seq<real>, covariance: seq<seq<real>>, sqrt: real -> real): seq<real> -> Option<AllocationResults>
  {
    w => SimulateAllocation(annualReturns, covariance, sqrt, w)
  }

  /** `allocations_simulation(returns, covariance)` over the given candidate weights: the
      first record with the largest Sharpe ratio, `None` when a candidate raises or when
      there are no candidates (`max` of an empty sequence). */
  function AllocationsSimulation(annualReturns: seq<real>, covariance: seq<seq<real>>, sqrt: real -> real,
                                 portfolios: seq<seq<real>>): (r: Option<AllocationResults>)
    ensures r.Some? <==> (|portfolios| > 0 &&
      forall i :: 0 <= i < |portfolios| ==> SimulateAllocation(annualReturns, covariance, sqrt, portfolios[i]).Some?)
    ensures r.Some? ==> exists i :: 0 <= i < |portfolios| && SimulateAllocation(annualReturns, covariance, sqrt, portfolios[i]) == r
                                   && (forall j :: 0 <= j < i ==>
                                         SimulateAllocation(annualReturns, covariance, sqrt, portfolios[j]).value.sharpeRatio < r.value.sharpeRatio)
    ensures r.Some? ==> forall i :: 0 <= i < |portfolios| ==>
      SimulateAllocation(annualReturns, covariance, sqrt, portfolios[i]).value.sharpeRatio <= r.value.sharpeRatio
  {
    var score := Scorer(annualReturns, covariance, sqrt);
    var cs :- MapAll(score, portfolios);
    if |cs| == 0 then None
    else
      var i := FirstMaxIndex(cs);
      assert score(portfolios[i]) == Some(cs[i]);
      assert forall j :: 0 <= j < |portfolios| ==> score(portfolios[j]) == Some(cs[j]);
      Some(cs[i])
  }

  /** If every candidate's weights add up to 1, so do the chosen weights; if in addition
      every asset returns `k`, the chosen annual return is `k`. */
  lemma ChosenWeightsAddUpToOne(annualReturns: seq<real>, covariance: seq<seq<real>>, sqrt: real -> real,
                                portfolios: seq<seq<real>>, k: real)
    requires forall i :: 0 <= i < |portfolios| ==> Statistics.Sum(portfolios[i]) == 1.0
    ensures var r := AllocationsSimulation(annualReturns, covariance, sqrt, portfolios);
      r.Some? ==> Statistics.Sum(r.value.weights) == 1.0
    ensures var r := AllocationsSimulation(annualReturns, covariance, sqrt, portfolios);
      r.Some? && (forall i :: 0 <= i < |annualReturns| ==> annualReturns[i] == k) ==> r.value.annualReturn == k
  {
    var r := AllocationsSimulation(annualReturns, covariance, sqrt, portfolios);
    if r.Some? {
      var i :| 0 <= i < |portfolios| && SimulateAllocation(annualReturns, covariance, sqrt, portfolios[i]) == r;
      if forall j :: 0 <= j < |annualReturns| ==> annualReturns[j] == k {
        Utils.DotWithConstant(portfolios[i], annualReturns, k);
      }
    }
  }
}
