/** investment_lambda/domain/simulation.py: shaping a request's holdings into the
    simulator's vectors and a simulation result into graph points. */
module LambdaSimulation {
  import opened Wrappers
  import Utils
  import Statistics
  import Portfolios

  /** One holding of a request: its return `r`, its `weighting` and its `fee`. */
  datatype Holding = Holding(r: real, weighting: real, fee: real)

  /** `get_asset_allocations(holdings)`: the returns and the weightings in holding order,
      and the fee as the weighted sum of the holdings' fees. */
  function GetAssetAllocations(holdings: seq<Holding>): (r: (seq<real>, seq<real>, real))
    ensures |r.0| == |holdings| && |r.1| == |holdings|
    ensures forall i :: 0 <= i < |holdings| ==> r.0[i] == holdings[i].r && r.1[i] == holdings[i].weighting
    ensures r.2 == Utils.DotSum(r.1, seq(|holdings|, i requires 0 <= i < |holdings| => holdings[i].fee))
  {
    var rs := seq(|holdings|, i requires 0 <= i < |holdings| => holdings[i].r);
    var weightings := seq(|holdings|, i requires 0 <= i < |holdings| => holdings[i].weighting);
    var fees := seq(|holdings|, i requires 0 <= i < |holdings| => holdings[i].fee);
    (rs, weightings, Utils.DotSum(weightings, fees))
  }

  /** When every holding charges the same fee and the weightings add up to 1, the fee is
      that common fee. */
  lemma UniformFee(holdings: seq<Holding>, f: real)
    requires forall i :: 0 <= i < |holdings| ==> holdings[i].fee == f
    requires Statistics.Sum(GetAssetAllocations(holdings).1) == 1.0
    ensures GetAssetAllocations(holdings).2 == f
  {
    var a := GetAssetAllocations(holdings);
    Utils.DotWithConstant(a.1, seq(|holdings|, i requires 0 <= i < |holdings| => holdings[i].fee), f);
  }

  /** One point of the graph. */
  datatype GraphPoint = GraphPoint(x: nat, y: real, u1: real, l1: real, std: real)

  datatype Graph = Graph(graphPoints: seq<GraphPoint>, yMax: int, xMax: real)

  /** The points over `zip(mean, std)`: as many as the shorter list. */
  function GraphPoints(mean: seq<real>, std: seq<real>): (ps: seq<GraphPoint>)
    ensures |ps| == if |mean| <= |std| then |mean| else |std|
    ensures forall i :: 0 <= i < |ps| ==>
      ps[i].x == i && ps[i].y == mean[i] && ps[i].std == std[i]
      && ps[i].u1 == ps[i].y + ps[i].std && ps[i].l1 == ps[i].y - ps[i].std
  {
    var n := if |mean| <= |std| then |mean| else |std|;
    seq(n, i requires 0 <= i < n => GraphPoint(i, mean[i], mean[i] + std[i], mean[i] - std[i], std[i]))
  }

  /** `graph_results(result)` as written: `y_max` holds the last index of the means and
      `x_max` the largest mean plus the largest deviation. `max` of an empty list raises. */
  function GraphResults(result: Portfolios.PortfolioResults): (g: Option<Graph>)
    ensures g.Some? <==> |result.simulationMean| > 0 && |result.simulationStd| > 0
    ensures g.Some? ==> g.value.graphPoints == GraphPoints(result.simulationMean, result.simulationStd)
    ensures g.Some? ==> g.value.yMax == |result.simulationMean| - 1
    ensures g.Some? ==> g.value.xMax == Statistics.Largest(result.simulationMean) + Statistics.Largest(result.simulationStd)
  {
    if |result.simulationMean| == 0 || |result.simulationStd| == 0 then None
    else
      Some(Graph(GraphPoints(result.simulationMean, result.simulationStd),
                 |result.simulationMean| - 1,
                 Statistics.Largest(result.simulationMean) + Statistics.Largest(result.simulationStd)))
  }

  /** Every band is twice the deviation wide and centred on the mean. */
  lemma BandWidth(mean: seq<real>, std: seq<real>, i: nat)
    requires i < |GraphPoints(mean, std)|
    ensures GraphPoints(mean, std)[i].u1 - GraphPoints(mean, std)[i].l1 == 2.0 * std[i]
    ensures GraphPoints(mean, std)[i].u1 + GraphPoints(mean, std)[i].l1 == 2.0 * mean[i]
  {
  }

  /** For the results of `growth_simulation`, means and deviations have the same length,
      so there is one point per step and the last `x` is `y_max`. */
  lemma OnePointPerStep(result: Portfolios.PortfolioResults)
    requires |result.simulationMean| == |result.simulationStd| > 0
    ensures GraphResults(result).Some?
    ensures |GraphResults(result).value.graphPoints| == |result.simulationMean|
    ensures GraphResults(result).value.graphPoints[|result.simulationMean| - 1].x == GraphResults(result).value.yMax
  {
  }

  /** With the labels as written, `y_max` does not bound the plotted values: two steps
      growing from 100 to 110 with deviation 5 give `y_max == 1` under an upper band of 115. */
  lemma YMaxDoesNotBoundPoints()
    ensures var g := GraphResults(Portfolios.PortfolioResults(0.1, 0.05, [100.0, 110.0], [0.0, 5.0]));
            g.Some? && g.value.yMax == 1 && g.value.graphPoints[1].u1 == 115.0
            && g.value.graphPoints[1].u1 > g.value.yMax as real
  {
  }

  /** The graph with its axis maxima labelled as `monte_carlo_sim` labels them. */
  datatype LabelledGraph = LabelledGraph(graphPoints: seq<GraphPoint>, xMax: int, yMax: real)

  /** `graph_results` with `x_max` the last step index and `y_max` the largest mean plus
      the largest deviation: every point then lies inside both axes. */
  function GraphResultsLabelled(result: Portfolios.PortfolioResults): (g: Option<LabelledGraph>)
    ensures g.Some? <==> |result.simulationMean| > 0 && |result.simulationStd| > 0
    ensures g.Some? ==> g.value.graphPoints == GraphPoints(result.simulationMean, result.simulationStd)
    ensures g.Some? ==> g.value.xMax == |result.simulationMean| - 1
    ensures g.Some? ==> forall i :: 0 <= i < |g.value.graphPoints| ==>
      g.value.graphPoints[i].x <= g.value.xMax && g.value.graphPoints[i].u1 <= g.value.yMax
  {
    if |result.simulationMean| == 0 || |result.simulationStd| == 0 then None
    else
      var mean, std := result.simulationMean, result.simulationStd;
      var ps := GraphPoints(mean, std);
      var top := Statistics.Largest(mean) + Statistics.Largest(std);
      assert forall i :: 0 <= i < |ps| ==> ps[i].u1 <= top by {
        forall i | 0 <= i < |ps| ensures ps[i].u1 <= top {
          assert mean[i] in mean && std[i] in std;
        }
      }
      Some(LabelledGraph(ps, |mean| - 1, top))
  }
}
