/** investment_simulator/tax.py: progressive income tax over a list of brackets.
    Each bracket is a mutable record with a lower limit `min`, an upper limit `max`
    (possibly `float("inf")`), a marginal `rate` and, once `accumulated_brackets` has
    written it, the tax owed on the whole bracket, `sum`. Every evaluation of the tax
    first rewrites `sum` on every bracket in place and then adds up the bracket terms. */
module Tax {
  import opened Wrappers
  import Numerics

  /** A bracket's upper limit. */
  datatype Limit = Finite(value: real) | Infinite

  /** A floating-point value: a finite number or one of the non-finite values that
      arithmetic on `float("inf")` produces. */
  datatype Number = Num(value: real) | PosInf | NegInf | NaN

  /** `income <= bracket["max"]`. */
  predicate AtMost(income: real, limit: Limit)
  {
    limit.Infinite? || income <= limit.value
  }

  /** IEEE-754 addition. */
  function Add(a: Number, b: Number): (r: Number)
    ensures a.Num? && b.Num? ==> r == Num(a.value + b.value)
    ensures a.NaN? || b.NaN? ==> r.NaN?
  {
    match (a, b)
    case (Num(x), Num(y)) => Num(x + y)
    case (NaN, _) => NaN
    case (_, NaN) => NaN
    case (PosInf, NegInf) => NaN
    case (NegInf, PosInf) => NaN
    case (PosInf, _) => PosInf
    case (_, PosInf) => PosInf
    case (NegInf, _) => NegInf
    case (_, NegInf) => NegInf
  }

  /** `(bracket["max"] - bracket["min"]) * bracket["rate"]`: finite for a finite limit;
      for the unbounded top bracket `inf` times the rate, which is `inf` for a positive
      rate, `-inf` for a negative one and `nan` for a zero rate. */
  function CeilingTax(min: real, max: Limit, rate: real): (r: Number)
    ensures max.Finite? <==> r.Num?
    ensures max.Finite? ==> r.value == (max.value - min) * rate
  {
    match max
    case Finite(m) => Num((m - min) * rate)
    case Infinite => if rate > 0.0 then PosInf else if rate < 0.0 then NegInf else NaN
  }

  /** The value of one bracket dictionary; `sum` is `None` while the key is absent. */
  datatype Bracket = Bracket(min: real, max: Limit, rate: real, sum: Option<Number>)

  /** `accumulated_brackets`: the bracket with `sum` set to its ceiling tax; `min`, `max`
      and `rate` are left as they were. */
  function Accumulated(b: Bracket): (r: Bracket)
    ensures r.min == b.min && r.max == b.max && r.rate == b.rate
    ensures r.sum == Some(CeilingTax(b.min, b.max, b.rate))
  {
    b.(sum := Some(CeilingTax(b.min, b.max, b.rate)))
  }

  /** A bracket whose `sum` is the one `accumulated_brackets` writes. */
  predicate IsAccumulated(b: Bracket)
  {
    b.sum == Some(CeilingTax(b.min, b.max, b.rate))
  }

  function AccumulateAll(bs: seq<Bracket>): (r: seq<Bracket>)
    ensures |r| == |bs|
    ensures forall k :: 0 <= k < |bs| ==> r[k] == Accumulated(bs[k])
  {
    seq(|bs|, k requires 0 <= k < |bs| => Accumulated(bs[k]))
  }

  /** `cumulative_tax(income)(bracket)`: the floored partial tax when the income does not
      pass the bracket's upper limit, the bracket's stored `sum` otherwise (the key must
      be present then). */
  function Term(income: real, b: Bracket): (r: Number)
    requires AtMost(income, b.max) || b.sum.Some?
    ensures AtMost(income, b.max) ==> r == Num(Numerics.Max((income - b.min) * b.rate, 0.0))
    ensures !AtMost(income, b.max) ==> r == b.sum.value
  {
    if AtMost(income, b.max) then Num(Numerics.Max((income - b.min) * b.rate, 0.0)) else b.sum.value
  }

  /** `reduce(o.add, map(cumulative_tax(income), brackets), 0)`: the terms summed left to
      right starting from 0. */
  function TaxDue(income: real, bs: seq<Bracket>): Number
    requires forall k :: 0 <= k < |bs| ==> IsAccumulated(bs[k])
  {
    if |bs| == 0 then Num(0.0)
    else
      assert IsAccumulated(bs[|bs| - 1]);
      Add(TaxDue(income, bs[..|bs| - 1]), Term(income, bs[|bs| - 1]))
  }

  /** The real tax on one bracket with limits `min`, `max` and rate `rate`, once its
      `sum` has been written. */
  function BracketTax(income: real, min: real, max: Limit, rate: real): real
  {
    if AtMost(income, max) then Numerics.Max((income - min) * rate, 0.0) else (max.value - min) * rate
  }

  /** The real total of the bracket taxes, summed left to right from 0. */
  function TaxAmount(income: real, bs: seq<Bracket>): real
  {
    if |bs| == 0 then 0.0
    else
      var b := bs[|bs| - 1];
      TaxAmount(income, bs[..|bs| - 1]) + BracketTax(income, b.min, b.max, b.rate)
  }

  /** A bracket as the schedules use it: a non-negative rate and a lower limit that does
      not exceed the upper one. */
  predicate WellFormed(b: Bracket)
  {
    b.rate >= 0.0 && (b.max.Finite? ==> b.min <= b.max.value)
  }

  /** Once accumulated, a bracket's term is always a finite number, even for the
      unbounded top bracket. */
  lemma TermOfAccumulated(income: real, b: Bracket)
    requires IsAccumulated(b)
    ensures Term(income, b) == Num(BracketTax(income, b.min, b.max, b.rate))
  {
  }

  /** The unbounded top bracket always takes the partial branch: its `sum` (inf, -inf or
      nan) is never read. */
  lemma TopBracketIgnoresSum(income: real, b: Bracket, s: Option<Number>)
    requires b.max.Infinite?
    ensures Term(income, b) == Term(income, b.(sum := s))
    ensures Term(income, b) == Num(Numerics.Max((income - b.min) * b.rate, 0.0))
  {
  }

  /** Each term of a well-formed bracket lies between 0 and the tax on the full bracket. */
  lemma BracketTaxBounds(income: real, b: Bracket)
    requires WellFormed(b)
    ensures 0.0 <= BracketTax(income, b.min, b.max, b.rate)
    ensures b.max.Finite? ==> BracketTax(income, b.min, b.max, b.rate) <= (b.max.value - b.min) * b.rate
  {
    if b.max.Finite? {
      assert (b.max.value - b.min) * b.rate >= 0.0;
      if AtMost(income, b.max) {
        assert (b.max.value - income) * b.rate >= 0.0;
        assert (income - b.min) * b.rate <= (b.max.value - b.min) * b.rate;
      }
    }
  }

  /** A term never decreases as the income grows. */
  lemma BracketTaxMonotone(i1: real, i2: real, b: Bracket)
    requires WellFormed(b)
    requires i1 <= i2
    ensures BracketTax(i1, b.min, b.max, b.rate) <= BracketTax(i2, b.min, b.max, b.rate)
  {
    assert (i2 - i1) * b.rate >= 0.0;
    assert (i1 - b.min) * b.rate <= (i2 - b.min) * b.rate;
    if b.max.Finite? && AtMost(i1, b.max) && !AtMost(i2, b.max) {
      assert (b.max.value - i1) * b.rate >= 0.0;
      assert (i1 - b.min) * b.rate <= (b.max.value - b.min) * b.rate;
      assert (b.max.value - b.min) * b.rate >= 0.0;
    } else if b.max.Finite? && !AtMost(i1, b.max) {
      assert !AtMost(i2, b.max);
      assert BracketTax(i1, b.min, b.max, b.rate) == BracketTax(i2, b.min, b.max, b.rate);
    }
  }

  /** At the upper limit of a finite bracket the partial tax equals the stored `sum`, so
      the two branches of a term meet there. */
  lemma BracketTaxContinuousAtLimit(b: Bracket)
    requires WellFormed(b)
    requires b.max.Finite?
    ensures Numerics.Max((b.max.value - b.min) * b.rate, 0.0) == CeilingTax(b.min, b.max, b.rate).value
    ensures BracketTax(b.max.value, b.min, b.max, b.rate) == CeilingTax(b.min, b.max, b.rate).value
  {
    assert (b.max.value - b.min) * b.rate >= 0.0;
  }

  /** The total over every accumulated bracket is a finite number, never negative when
      every bracket is well formed, and it never decreases as the income grows. */
  lemma {:induction false} TaxDueIsFinite(income: real, bs: seq<Bracket>)
    requires forall k :: 0 <= k < |bs| ==> IsAccumulated(bs[k])
    ensures TaxDue(income, bs) == Num(TaxAmount(income, bs))
    ensures (forall k :: 0 <= k < |bs| ==> WellFormed(bs[k])) ==> TaxAmount(income, bs) >= 0.0
  {
    if |bs| > 0 {
      var n := |bs|;
      TaxDueIsFinite(income, bs[..n - 1]);
      TermOfAccumulated(income, bs[n - 1]);
      if forall k :: 0 <= k < n ==> WellFormed(bs[k]) {
        assert WellFormed(bs[n - 1]);
        BracketTaxBounds(income, bs[n - 1]);
      }
    }
  }

  lemma {:induction false} TaxDueMonotone(i1: real, i2: real, bs: seq<Bracket>)
    requires forall k :: 0 <= k < |bs| ==> IsAccumulated(bs[k]) && WellFormed(bs[k])
    requires i1 <= i2
    ensures TaxDue(i1, bs).Num? && TaxDue(i2, bs).Num?
    ensures TaxDue(i1, bs).value <= TaxDue(i2, bs).value
  {
    TaxDueIsFinite(i1, bs);
    TaxDueIsFinite(i2, bs);
    if |bs| > 0 {
      var n := |bs|;
      TaxDueMonotone(i1, i2, bs[..n - 1]);
      TermOfAccumulated(i1, bs[n - 1]);
      TermOfAccumulated(i2, bs[n - 1]);
      BracketTaxMonotone(i1, i2, bs[n - 1]);
    }
  }

  /** The tax depends only on the brackets' limits and rates: whatever `sum` values an
      earlier evaluation left behind, re-accumulating gives the same result, and
      accumulating twice is the same as accumulating once. */
  lemma TaxIndependentOfEarlierSums(income: real, bs: seq<Bracket>, cs: seq<Bracket>)
    requires |bs| == |cs|
    requires forall k :: 0 <= k < |bs| ==> bs[k].min == cs[k].min && bs[k].max == cs[k].max && bs[k].rate == cs[k].rate
    ensures AccumulateAll(bs) == AccumulateAll(cs)
    ensures AccumulateAll(AccumulateAll(bs)) == AccumulateAll(bs)
    ensures TaxDue(income, AccumulateAll(bs)) == TaxDue(income, AccumulateAll(cs))
  {
  }

  /** The New Zealand brackets from 1 April 2021 (`nz_tax_brackets`), before any `sum` is
      written. */
  function NzTaxBrackets(): (bs: seq<Bracket>)
    ensures |bs| == 5
  {
    [ Bracket(0.0, Finite(14000.0), 0.105, None),
      Bracket(14000.0, Finite(48000.0), 0.175, None),
      Bracket(48000.0, Finite(70000.0), 0.30, None),
      Bracket(70000.0, Finite(180000.0), 0.33, None),
      Bracket(180000.0, Infinite, 0.39, None) ]
  }

  /** The real total reads only limits and rates. */
  lemma {:induction false} TaxAmountIgnoresSums(income: real, bs: seq<Bracket>)
    ensures TaxAmount(income, AccumulateAll(bs)) == TaxAmount(income, bs)
  {
    if |bs| > 0 {
      var n := |bs|;
      assert AccumulateAll(bs)[..n - 1] == AccumulateAll(bs[..n - 1]);
      TaxAmountIgnoresSums(income, bs[..n - 1]);
    }
  }

  /** The New Zealand brackets once `accumulated_brackets` has written every `sum`. */
  lemma NzAccumulated()
    ensures AccumulateAll(NzTaxBrackets()) ==
      [ Bracket(0.0, Finite(14000.0), 0.105, Some(Num(1470.0))),
        Bracket(14000.0, Finite(48000.0), 0.175, Some(Num(5950.0))),
        Bracket(48000.0, Finite(70000.0), 0.30, Some(Num(6600.0))),
        Bracket(70000.0, Finite(180000.0), 0.33, Some(Num(36300.0))),
        Bracket(180000.0, Infinite, 0.39, Some(PosInf)) ]
  {
  }

  /** The real total over a five-bracket schedule, unfolded. */
  lemma TaxAmountOfFive(income: real, bs: seq<Bracket>)
    requires |bs| == 5
    ensures TaxAmount(income, bs) ==
      BracketTax(income, bs[0].min, bs[0].max, bs[0].rate) + BracketTax(income, bs[1].min, bs[1].max, bs[1].rate)
      + BracketTax(income, bs[2].min, bs[2].max, bs[2].rate) + BracketTax(income, bs[3].min, bs[3].max, bs[3].rate)
      + BracketTax(income, bs[4].min, bs[4].max, bs[4].rate)
  {
    assert bs[..4][..3][..2][..1][..0] == [];
    assert bs[..4][..3][..2][..1] == bs[..1];
    assert bs[..4][..3][..2] == bs[..2];
    assert bs[..4][..3] == bs[..3];
    assert TaxAmount(income, bs[..1]) == BracketTax(income, bs[0].min, bs[0].max, bs[0].rate);
    assert TaxAmount(income, bs[..2]) == TaxAmount(income, bs[..1]) + BracketTax(income, bs[1].min, bs[1].max, bs[1].rate);
    assert TaxAmount(income, bs[..3]) == TaxAmount(income, bs[..2]) + BracketTax(income, bs[2].min, bs[2].max, bs[2].rate);
    assert TaxAmount(income, bs[..4]) == TaxAmount(income, bs[..3]) + BracketTax(income, bs[3].min, bs[3].max, bs[3].rate);
  }

  /** The reference values pinned for the New Zealand schedule: no tax on no income,
      6895 on 45000 and 23920 on 100000. */
  lemma NzTaxExamples()
    ensures TaxDue(0.0, AccumulateAll(NzTaxBrackets())) == Num(0.0)
    ensures TaxDue(45000.0, AccumulateAll(NzTaxBrackets())) == Num(6895.0)
    ensures TaxDue(100000.0, AccumulateAll(NzTaxBrackets())) == Num(23920.0)
  {
    var bs := AccumulateAll(NzTaxBrackets());
    TaxAmountIgnoresSums(0.0, NzTaxBrackets());
    TaxAmountIgnoresSums(45000.0, NzTaxBrackets());
    TaxAmountIgnoresSums(100000.0, NzTaxBrackets());
    TaxDueIsFinite(0.0, bs);
    TaxDueIsFinite(45000.0, bs);
    TaxDueIsFinite(100000.0, bs);
    NzTaxAmounts();
  }

  lemma NzTaxAmounts()
    ensures TaxAmount(0.0, NzTaxBrackets()) == 0.0
    ensures TaxAmount(45000.0, NzTaxBrackets()) == 6895.0
    ensures TaxAmount(100000.0, NzTaxBrackets()) == 23920.0
  {
    var bs := NzTaxBrackets();
    TaxAmountOfFive(0.0, bs);
    TaxAmountOfFive(45000.0, bs);
    TaxAmountOfFive(100000.0, bs);
    assert BracketTax(45000.0, 0.0, Finite(14000.0), 0.105) == 1470.0;
    assert BracketTax(45000.0, 14000.0, Finite(48000.0), 0.175) == 5425.0;
    assert BracketTax(100000.0, 14000.0, Finite(48000.0), 0.175) == 5950.0;
    assert BracketTax(100000.0, 48000.0, Finite(70000.0), 0.30) == 6600.0;
  }

  /** One bracket dictionary, updated in place. */
  class TaxBracket {
    var min: real
    var max: Limit
    var rate: real
    var sum: Option<Number>

    function View(): Bracket
      reads this
    {
      Bracket(min, max, rate, sum)
    }

    constructor (min: real, max: Limit, rate: real)
      ensures View() == Bracket(min, max, rate, None)
    {
      this.min := min;
      this.max := max;
      this.rate := rate;
      this.sum := None;
    }

    /** `accumulated_brackets(bracket)`: writes `sum` and leaves the rest. */
    method Accumulate()
      modifies this
      ensures View() == Accumulated(old(View()))
    {
      sum := Some(CeilingTax(min, max, rate));
    }
  }

  function Views(bs: seq<TaxBracket>): (r: seq<Bracket>)
    reads set b | b in bs
    ensures |r| == |bs|
    ensures forall k :: 0 <= k < |bs| ==> r[k] == bs[k].View()
  {
    seq(|bs|, k requires 0 <= k < |bs| reads set b | b in bs => bs[k].View())
  }

  /** `income_tax(brackets)(income)`: accumulates every bracket of the caller's list in
      place (a bracket that occurs twice in the list is simply accumulated twice), then
      adds up the terms. */
  method IncomeTax(brackets: seq<TaxBracket>, income: real) returns (tax: Number)
    modifies set b | b in brackets
    ensures forall k :: 0 <= k < |brackets| ==> brackets[k].View() == Accumulated(old(brackets[k].View()))
    ensures tax == TaxDue(income, AccumulateAll(old(Views(brackets))))
  {
    for i := 0 to |brackets|
      invariant forall k :: 0 <= k < i ==> brackets[k].View() == Accumulated(old(brackets[k].View()))
      invariant forall k :: i <= k < |brackets| ==>
        brackets[k].View() == old(brackets[k].View()) || brackets[k].View() == Accumulated(old(brackets[k].View()))
    {
      brackets[i].Accumulate();
    }
    var current := Views(brackets);
    assert current == AccumulateAll(old(Views(brackets)));
    tax := TaxDue(income, current);
  }
}
