/** investment_simulator/contributions.py: contribution schedules as builders. Each
    builder fixes its parameters and returns a function from the step (a year count) to
    the amount contributed at that step. */
module Contributions {
  import opened Numerics

  /** `annual_growth(step, rate) = (1 + rate) ** step`. */
  function AnnualGrowth(step: nat, rate: real): (g: real)
    ensures step == 0 ==> g == 1.0
  {
    Pow(1.0 + rate, step)
  }

  /** A rate of at least −100% never makes the compounding multiple negative. */
  lemma AnnualGrowthNonNegative(step: nat, rate: real)
    requires rate >= -1.0
    ensures AnnualGrowth(step, rate) >= 0.0
  {
    PowNonNegative(1.0 + rate, step);
  }

  lemma AnnualGrowthStep(step: nat, rate: real)
    ensures AnnualGrowth(step + 1, rate) == AnnualGrowth(step, rate) * (1.0 + rate)
  {
  }

  /** `continuous_contributions(initial, growth)`: the initial contribution at step 0,
      growing by the factor `1 + growth` from each step to the next. */
  function ContinuousContributions(initial: real, growth: real): (f: nat -> real)
    ensures f(0) == initial
    ensures forall step: nat :: f(step + 1) == f(step) * (1.0 + growth)
  {
    assert forall step: nat :: initial * AnnualGrowth(step + 1, growth) == initial * AnnualGrowth(step, growth) * (1.0 + growth) by {
      forall step: nat {
        AnnualGrowthStep(step, growth);
      }
    }
    (step: nat) => initial * AnnualGrowth(step, growth)
  }

  /** The default schedule of `growth_simulation`, `continuous_contributions(0.0, 0.0)`,
      contributes nothing at any step. */
  lemma NoContributionsByDefault(step: nat)
    ensures ContinuousContributions(0.0, 0.0)(step) == 0.0
  {
  }

  /** 100 growing at 10% a step is 110 after one step. */
  lemma ContinuousExample()
    ensures ContinuousContributions(100.0, 0.1)(1) == 110.0
  {
    assert AnnualGrowth(1, 0.1) == 1.1;
  }

  /** A schedule with growth `g` equals `initial * (1 + g) ** step`. */
  lemma {:induction false} ContinuousClosedForm(initial: real, growth: real, step: nat)
    ensures ContinuousContributions(initial, growth)(step) == initial * Pow(1.0 + growth, step)
  {
    var f := ContinuousContributions(initial, growth);
    if step > 0 {
      ContinuousClosedForm(initial, growth, step - 1);
      assert f(step) == f(step - 1) * (1.0 + growth);
      assert initial * Pow(1.0 + growth, step) == initial * Pow(1.0 + growth, step - 1) * (1.0 + growth);
    }
  }

  /** `percentage_income_contributions(income, rate, growth, tax)`: a share `rate` of the
      income grown to the step, net of the tax charged on that grown income. */
  function PercentageIncomeContributions(income: real, rate: real, growth: real, tax: real -> real): nat -> real
  {
    (step: nat) => (income * AnnualGrowth(step, growth) - tax(income * AnnualGrowth(step, growth))) * rate
  }

  /** The default tax function of `percentage_income_contributions`. */
  function NoTax(): (t: real -> real)
    ensures forall x :: t(x) == 0.0
  {
    x => 0.0
  }

  /** Without tax the contribution is `rate` times the grown income; 10% of 10000 with no
      income growth is 1000 at step 1. */
  lemma PercentageWithoutTax(income: real, rate: real, growth: real, step: nat)
    ensures PercentageIncomeContributions(income, rate, growth, NoTax())(step) == ContinuousContributions(income * rate, growth)(step)
  {
    assert income * AnnualGrowth(step, growth) * rate == income * rate * AnnualGrowth(step, growth);
  }

  lemma PercentageExample()
    ensures PercentageIncomeContributions(10000.0, 0.1, 0.0, NoTax())(1) == 1000.0
  {
    assert AnnualGrowth(1, 0.0) == 1.0;
  }

  /** When the tax never exceeds the income and is never negative, the contribution lies
      between 0 and the pre-tax share of the grown income. */
  lemma PercentageBounds(income: real, rate: real, growth: real, tax: real -> real, step: nat)
    requires income >= 0.0 && rate >= 0.0 && growth >= -1.0
    requires forall x :: x >= 0.0 ==> 0.0 <= tax(x) <= x
    ensures 0.0 <= PercentageIncomeContributions(income, rate, growth, tax)(step)
    ensures PercentageIncomeContributions(income, rate, growth, tax)(step) <= income * AnnualGrowth(step, growth) * rate
  {
    var grown := income * AnnualGrowth(step, growth);
    AnnualGrowthNonNegative(step, growth);
    assert grown >= 0.0;
    var t := tax(grown);
    assert 0.0 <= grown - t <= grown;
    assert (grown - t) * rate <= grown * rate;
  }

  /** The government top-up of `kiwi_saver_contributions`: the fixed government amount,
      capped at half of the member's own contribution for the step. */
  function GovernmentTopUp(income: real, contributionRate: real, growth: real, gov: real, step: nat): (t: real)
    ensures t <= gov
    ensures t <= income * AnnualGrowth(step, growth) * contributionRate * 0.5
    ensures t == gov || t == income * AnnualGrowth(step, growth) * contributionRate * 0.5
  {
    Min(gov, income * AnnualGrowth(step, growth) * contributionRate * 0.5)
  }

  /** The standard government contribution, 521.43 a year. */
  const GovernmentContribution: real := 521.43

  /** `kiwi_saver_contributions(income, rate, employer, growth, gov)`: the member's and the
      employer's share of the grown gross income plus the capped government top-up. */
  function KiwiSaverContributions(income: real, contributionRate: real, employerRate: real, growth: real, gov: real): nat -> real
  {
    (step: nat) => income * (contributionRate + employerRate) * AnnualGrowth(step, growth)
            + GovernmentTopUp(income, contributionRate, growth, gov, step)
  }

  /** The KiwiSaver total is at least the member's and employer's share, and at most that
      share plus the fixed government amount. */
  lemma KiwiSaverBounds(income: real, contributionRate: real, employerRate: real, growth: real, gov: real, step: nat)
    requires gov >= 0.0
    requires income * AnnualGrowth(step, growth) * contributionRate >= 0.0
    ensures KiwiSaverContributions(income, contributionRate, employerRate, growth, gov)(step)
            >= income * (contributionRate + employerRate) * AnnualGrowth(step, growth)
    ensures KiwiSaverContributions(income, contributionRate, employerRate, growth, gov)(step)
            <= income * (contributionRate + employerRate) * AnnualGrowth(step, growth) + gov
  {
    var t := GovernmentTopUp(income, contributionRate, growth, gov, step);
    assert t >= 0.0;
  }

  /** With the standard government amount, a 50000 income at 3% (matched by the employer)
      pays 3000 plus the full 521.43 at step 0, while a 20000 income at 3% pays 1200 plus
      only the capped 300, half of the member's 600. */
  lemma KiwiSaverDefaultExamples()
    ensures KiwiSaverContributions(50000.0, 0.03, 0.03, 0.0, GovernmentContribution)(0) == 3521.43
    ensures KiwiSaverContributions(20000.0, 0.03, 0.03, 0.0, GovernmentContribution)(0) == 1500.0
  {
    assert AnnualGrowth(0, 0.0) == 1.0;
    assert GovernmentTopUp(50000.0, 0.03, 0.0, GovernmentContribution, 0) == 521.43;
    assert GovernmentTopUp(20000.0, 0.03, 0.0, GovernmentContribution, 0) == 300.0;
  }
}
