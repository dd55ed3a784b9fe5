/** The reductions numpy performs along the last axis of the simulation grid: the sum,
    the mean, the population variance (the square of `np.std` with its default
    `ddof=0`, and of the explicit root-mean-square deviation in portfolios.py), and
    the largest element as Python's `max` returns it. */
module Statistics {

  /** Left-to-right sum, starting from 0. */
  function Sum(xs: seq<real>): real
  {
    if |xs| == 0 then 0.0 else Sum(xs[..|xs| - 1]) + xs[|xs| - 1]
  }

  /** Arithmetic mean of a non-empty row. */
  function Mean(xs: seq<real>): (m: real)
    requires |xs| > 0
    ensures m * (|xs| as real) == Sum(xs)
  {
    Sum(xs) / (|xs| as real)
  }

  /** Squared deviations of every element from `m`. */
  function SquaredDeviations(xs: seq<real>, m: real): (ds: seq<real>)
    ensures |ds| == |xs|
  {
    seq(|xs|, i requires 0 <= i < |xs| => (xs[i] - m) * (xs[i] - m))
  }

  /** Population variance: the mean of the squared deviations from the mean. */
  function Variance(xs: seq<real>): (v: real)
    requires |xs| > 0
    ensures v >= 0.0
  {
    var ds := SquaredDeviations(xs, Mean(xs));
    SumNonNegative(ds);
    Mean(ds)
  }

  /** Every element shifted by the same amount `c`. */
  function Shift(xs: seq<real>, c: real): (ys: seq<real>)
    ensures |ys| == |xs|
  {
    seq(|xs|, i requires 0 <= i < |xs| => xs[i] + c)
  }

  /** Python's `max` over a non-empty list of floats. */
  function Largest(xs: seq<real>): (m: real)
    requires |xs| > 0
    ensures m in xs
    ensures forall i :: 0 <= i < |xs| ==> xs[i] <= m
  {
    if |xs| == 1 then xs[0]
    else
      var rest := Largest(xs[..|xs| - 1]);
      assert forall i :: 0 <= i < |xs| - 1 ==> xs[..|xs| - 1][i] == xs[i];
      if xs[|xs| - 1] > rest then xs[|xs| - 1] else rest
  }

  lemma {:induction false} SumNonNegative(xs: seq<real>)
    requires forall i :: 0 <= i < |xs| ==> xs[i] >= 0.0
    ensures Sum(xs) >= 0.0
  {
    if |xs| > 0 {
      SumNonNegative(xs[..|xs| - 1]);
    }
  }

  lemma {:induction false} SumPositive(xs: seq<real>)
    requires |xs| > 0
    requires forall i :: 0 <= i < |xs| ==> xs[i] > 0.0
    ensures Sum(xs) > 0.0
  {
    if |xs| > 1 {
      SumPositive(xs[..|xs| - 1]);
    }
  }

  lemma {:induction false} SumOfConstant(xs: seq<real>, c: real)
    requires forall i :: 0 <= i < |xs| ==> xs[i] == c
    ensures Sum(xs) == (|xs| as real) * c
  {
    if |xs| > 0 {
      SumOfConstant(xs[..|xs| - 1], c);
    }
  }

  lemma {:induction false} SumOfShift(xs: seq<real>, c: real)
    ensures Sum(Shift(xs, c)) == Sum(xs) + (|xs| as real) * c
  {
    if |xs| > 0 {
      var n := |xs|;
      assert Shift(xs, c)[..n - 1] == Shift(xs[..n - 1], c);
      SumOfShift(xs[..n - 1], c);
    }
  }

  /** A row whose every path has the same value has that value as its mean and no spread. */
  lemma ConstantRow(xs: seq<real>, c: real)
    requires |xs| > 0
    requires forall i :: 0 <= i < |xs| ==> xs[i] == c
    ensures Mean(xs) == c
    ensures Variance(xs) == 0.0
  {
    SumOfConstant(xs, c);
    var ds := SquaredDeviations(xs, Mean(xs));
    SumOfConstant(ds, 0.0);
  }

  /** Adding the same amount to every path moves the mean by that amount and leaves the
      variance where it was. */
  lemma ShiftRow(xs: seq<real>, c: real)
    requires |xs| > 0
    ensures Mean(Shift(xs, c)) == Mean(xs) + c
    ensures Variance(Shift(xs, c)) == Variance(xs)
  {
    ShiftMean(xs, c);
    ShiftDeviations(xs, c);
  }

  /** Adding `c` to every element adds `c` to the mean. */
  lemma ShiftMean(xs: seq<real>, c: real)
    requires |xs| > 0
    ensures Mean(Shift(xs, c)) == Mean(xs) + c
  {
    SumOfShift(xs, c);
    var n := |xs| as real;
    var s := Sum(xs);
    assert Mean(Shift(xs, c)) == (s + n * c) / n;
    assert (s + n * c) / n == s / n + (n * c) / n;
    assert (n * c) / n == c;
  }

  /** Deviations from the shifted mean are unchanged by the shift. */
  lemma ShiftDeviations(xs: seq<real>, c: real)
    requires |xs| > 0
    ensures SquaredDeviations(Shift(xs, c), Mean(Shift(xs, c))) == SquaredDeviations(xs, Mean(xs))
  {
    ShiftMean(xs, c);
    var m := Mean(xs);
    var ys := Shift(xs, c);
    forall i | 0 <= i < |xs|
      ensures SquaredDeviations(ys, m + c)[i] == SquaredDeviations(xs, m)[i]
    {
      assert ys[i] - (m + c) == xs[i] - m;
    }
  }

  /** The mean of a row of positive values is positive. */
  lemma MeanPositive(xs: seq<real>)
    requires |xs| > 0
    requires forall i :: 0 <= i < |xs| ==> xs[i] > 0.0
    ensures Mean(xs) > 0.0
  {
    SumPositive(xs);
  }
}
