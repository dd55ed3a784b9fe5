/** investment_simulator/utils.py: the portfolio's expected return as the dot product
    of weights and asset returns, vector-by-matrix multiplication as numpy's `matmul`
    performs it, and the portfolio's variance as the quadratic form w·C·w, whose square
    root is the risk. A length mismatch, which numpy reports with a ValueError, is `None`. */
module Utils {
  import opened Wrappers
  import Statistics

  /** Index-aligned dot product, summed left to right. */
  function DotSum(a: seq<real>, b: seq<real>): real
    requires |a| == |b|
  {
    if |a| == 0 then 0.0 else DotSum(a[..|a| - 1], b[..|b| - 1]) + a[|a| - 1] * b[|b| - 1]
  }

  /** `simulation_return`: `weights.dot(asset_returns)`. */
  function SimulationReturn(weights: seq<real>, assetReturns: seq<real>): (r: Option<real>)
    ensures r.Some? <==> |weights| == |assetReturns|
    ensures r.Some? ==> r.value == DotSum(weights, assetReturns)
  {
    if |weights| != |assetReturns| then None else Some(DotSum(weights, assetReturns))
  }

  /** A matrix as numpy builds it from nested lists: at least one row, all rows as long
      as the first. */
  predicate IsMatrix(m: seq<seq<real>>)
  {
    |m| > 0 && forall i :: 0 <= i < |m| ==> |m[i]| == |m[0]|
  }

  /** Column `j` of a matrix. */
  function Column(m: seq<seq<real>>, j: nat): (c: seq<real>)
    requires forall i :: 0 <= i < |m| ==> j < |m[i]|
    ensures |c| == |m|
  {
    seq(|m|, i requires 0 <= i < |m| => m[i][j])
  }

  function Scale(k: real, v: seq<real>): (r: seq<real>)
    ensures |r| == |v|
  {
    seq(|v|, j requires 0 <= j < |v| => k * v[j])
  }

  function AddVectors(u: seq<real>, v: seq<real>): (r: seq<real>)
    requires |u| == |v|
    ensures |r| == |u|
  {
    seq(|u|, j requires 0 <= j < |u| => u[j] + v[j])
  }

  /** `a @ m` computed the way matmul defines it for a vector on the left: the
      combination of the rows of `m` weighted by the entries of `a`. */
  function RowCombination(a: seq<real>, m: seq<seq<real>>, cols: nat): (r: seq<real>)
    requires |a| == |m|
    requires forall i :: 0 <= i < |m| ==> |m[i]| == cols
    ensures |r| == cols
  {
    if |a| == 0 then seq(cols, j => 0.0)
    else
      var n := |a|;
      AddVectors(RowCombination(a[..n - 1], m[..n - 1], cols), Scale(a[n - 1], m[n - 1]))
  }

  /** Each entry of the row combination is the dot product of `a` with one column. */
  lemma {:induction false} RowCombinationIsColumnDots(a: seq<real>, m: seq<seq<real>>, cols: nat, j: nat)
    requires |a| == |m|
    requires forall i :: 0 <= i < |m| ==> |m[i]| == cols
    requires j < cols
    ensures RowCombination(a, m, cols)[j] == DotSum(a, Column(m, j))
  {
    if |a| > 0 {
      var n := |a|;
      assert Column(m[..n - 1], j) == Column(m, j)[..n - 1];
      RowCombinationIsColumnDots(a[..n - 1], m[..n - 1], cols, j);
    }
  }

  /** `matMult(a, m)` for a vector `a` and a matrix `m`: one entry per column of `m`,
      entry `j` being the sum over `i` of `a[i] * m[i][j]`. numpy refuses a vector
      whose length differs from the row count. */
  function MatMult(a: seq<real>, m: seq<seq<real>>): (r: Option<seq<real>>)
    ensures r.Some? <==> IsMatrix(m) && |a| == |m|
    ensures r.Some? ==> |r.value| == |m[0]|
    ensures r.Some? ==> forall j :: 0 <= j < |m[0]| ==> r.value[j] == DotSum(a, Column(m, j))
  {
    if !IsMatrix(m) || |a| != |m| then None
    else
      var r := RowCombination(a, m, |m[0]|);
      assert forall j :: 0 <= j < |m[0]| ==> r[j] == DotSum(a, Column(m, j)) by {
        forall j | 0 <= j < |m[0]| {
          RowCombinationIsColumnDots(a, m, |m[0]|, j);
        }
      }
      Some(r)
  }

  /** `[[x] for x in weights]`: the weights as a column matrix. */
  function ColumnMatrix(w: seq<real>): (m: seq<seq<real>>)
    ensures |m| == |w|
    ensures forall i :: 0 <= i < |m| ==> m[i] == [w[i]]
  {
    seq(|w|, i requires 0 <= i < |w| => [w[i]])
  }

  /** The covariance matrix is square and index-aligned with the weights. */
  predicate SquareFor(c: seq<seq<real>>, n: nat)
  {
    n > 0 && |c| == n && forall i :: 0 <= i < n ==> |c[i]| == n
  }

  /** `matMult(matMult(weights, covariance), [[x] for x in weights])[0]`, the argument of
      the square root in `simulation_risk`: the quadratic form w·C·w. It exists exactly
      when the covariance is square and matches the weights. */
  function QuadraticForm(w: seq<real>, c: seq<seq<real>>): (r: Option<real>)
    ensures r.Some? <==> SquareFor(c, |w|)
    ensures r.Some? ==> r.value == DotSum(seq(|w|, j requires 0 <= j < |w| => DotSum(w, Column(c, j))), w)
  {
    var v :- MatMult(w, c);
    var u :- MatMult(v, ColumnMatrix(w));
    assert Column(ColumnMatrix(w), 0) == w;
    assert v == seq(|w|, j requires 0 <= j < |w| => DotSum(w, Column(c, j)));
    Some(u[0])
  }

  /** `simulation_risk`: the square root (given as `sqrt`) of the quadratic form. */
  function SimulationRisk(w: seq<real>, c: seq<seq<real>>, sqrt: real -> real): (r: Option<real>)
    ensures r.Some? <==> SquareFor(c, |w|)
    ensures r.Some? ==> r.value == sqrt(QuadraticForm(w, c).value)
  {
    var q :- QuadraticForm(w, c);
    Some(sqrt(q))
  }

  /** When every asset has the same return `k`, the dot product is `k` times the total
      weight; with weights that add up to 1 the portfolio return is `k` itself. */
  lemma {:induction false} DotWithConstant(w: seq<real>, r: seq<real>, k: real)
    requires |w| == |r|
    requires forall i :: 0 <= i < |r| ==> r[i] == k
    ensures DotSum(w, r) == k * Statistics.Sum(w)
  {
    if |w| > 0 {
      var n := |w|;
      DotWithConstant(w[..n - 1], r[..n - 1], k);
    }
  }

  lemma EqualReturnsGiveThatReturn(w: seq<real>, r: seq<real>, k: real)
    requires |w| == |r|
    requires forall i :: 0 <= i < |r| ==> r[i] == k
    requires Statistics.Sum(w) == 1.0
    ensures SimulationReturn(w, r) == Some(k)
  {
    DotWithConstant(w, r, k);
  }

  /** Equal weights on two uncorrelated unit-variance assets: w·C·w = 0.5, so the risk is
      the square root of 0.5. */
  lemma IdentityCovarianceExample()
    ensures QuadraticForm([0.5, 0.5], [[1.0, 0.0], [0.0, 1.0]]) == Some(0.5)
  {
    var w := [0.5, 0.5];
    var c := [[1.0, 0.0], [0.0, 1.0]];
    assert Column(c, 0) == [1.0, 0.0];
    assert Column(c, 1) == [0.0, 1.0];
    assert DotSum(w, [1.0, 0.0]) == 0.5 by {
      assert w[..1] == [0.5] && [1.0, 0.0][..1] == [1.0];
    }
    assert DotSum(w, [0.0, 1.0]) == 0.5 by {
      assert w[..1] == [0.5] && [0.0, 1.0][..1] == [0.0];
    }
    var v := seq(2, j requires 0 <= j < 2 => DotSum(w, Column(c, j)));
    assert v == [0.5, 0.5];
    assert DotSum(v, w) == 0.5 by {
      assert v[..1] == [0.5] && w[..1] == [0.5];
    }
  }
}
