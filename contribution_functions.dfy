/** investment_simulator/contribution_functions.py: the older contribution API. Here
    `continuous_contributions` takes the step first and returns the amount itself, the
    default schedule is a partial application of it, income schedules apply a flat
    effective tax rate, and the KiwiSaver schedule adds the government amount uncapped. */
module ContributionFunctions {
  import opened Numerics
  import Contributions

  /** `annual_growth(step, rate) = (1 + rate) ** step`. */
  function AnnualGrowth(step: nat, rate: real): real
  {
    Pow(1.0 + rate, step)
  }

  /** 10% growth over one step multiplies by 1.1. */
  lemma AnnualGrowthExample()
    ensures AnnualGrowth(1, 0.1) == 1.1
  {
  }

  /** `continuous_contributions(step, initial, growth)`: a number, not a builder. */
  function ContinuousContributions(step: nat, initial: real, growth: real): real
  {
    initial * AnnualGrowth(step, growth)
  }

  /** The amount agrees with the builder of contributions.py applied to the same step. */
  lemma ContinuousAgreesWithBuilder(step: nat, initial: real, growth: real)
    ensures ContinuousContributions(step, initial, growth) == Contributions.ContinuousContributions(initial, growth)(step)
  {
  }

  /** Called in the builder shape `continuous_contributions(100, 0.1)`, this signature
      reads 100 as the step and 0.1 as the initial amount, so the result is the number 0.1
      rather than a schedule that pays 110 at step 1; the step-first call pays 110. */
  lemma BuilderShapeCallGivesNumber()
    ensures ContinuousContributions(100, 0.1, 0.0) == 0.1
    ensures ContinuousContributions(1, 100.0, 0.1) == 110.0
  {
    PowOfOne(100);
    assert AnnualGrowth(1, 0.1) == 1.1;
  }

  /** `default_contributions()`: `continuous_contributions` with a zero initial amount and
      zero growth, so nothing at every step. */
  function DefaultContributions(): (f: nat -> real)
    ensures forall step: nat :: f(step) == 0.0
  {
    (step: nat) => ContinuousContributions(step, 0.0, 0.0)
  }

  /** `percentage_income_contributions(income, rate, growth, tax_rate)`. */
  function PercentageIncomeContributions(income: real, rate: real, growth: real, effectiveTaxRate: real): nat -> real
  {
    (step: nat) => income * (1.0 - effectiveTaxRate) * rate * AnnualGrowth(step, growth)
  }

  /** A flat effective tax rate is the newer builder with the tax function `x => t * x`. */
  lemma PercentageIsFlatTax(income: real, rate: real, growth: real, t: real, step: nat)
    ensures PercentageIncomeContributions(income, rate, growth, t)(step)
            == Contributions.PercentageIncomeContributions(income, rate, growth, x => t * x)(step)
  {
    var g := AnnualGrowth(step, growth);
    assert income * (1.0 - t) * rate * g == (income * g - t * (income * g)) * rate;
  }

  /** 10% of an untaxed 10000 with no growth is 1000 at step 1. */
  lemma PercentageExample()
    ensures PercentageIncomeContributions(10000.0, 0.1, 0.0, 0.0)(1) == 1000.0
  {
    assert AnnualGrowth(1, 0.0) == 1.0;
  }

  /** `kiwi_saver_contributions(income, rate, employer, growth, tax_rate, gov)`. */
  function KiwiSaverContributions(income: real, contributionRate: real, employerRate: real, growth: real,
                                  effectiveTaxRate: real, gov: real): nat -> real
  {
    (step: nat) => income * (1.0 - effectiveTaxRate) * (contributionRate + employerRate) * AnnualGrowth(step, growth) + gov
  }

  /** Without tax, this variant pays the whole government amount every step, so it is the
      capped variant of contributions.py plus what the cap withholds. */
  lemma KiwiSaverUncapped(income: real, contributionRate: real, employerRate: real, growth: real, gov: real, step: nat)
    ensures KiwiSaverContributions(income, contributionRate, employerRate, growth, 0.0, gov)(step)
            == Contributions.KiwiSaverContributions(income, contributionRate, employerRate, growth, gov)(step)
               + (gov - Contributions.GovernmentTopUp(income, contributionRate, growth, gov, step))
    ensures KiwiSaverContributions(income, contributionRate, employerRate, growth, 0.0, gov)(step)
            >= Contributions.KiwiSaverContributions(income, contributionRate, employerRate, growth, gov)(step)
  {
    var g := AnnualGrowth(step, growth);
    assert income * (1.0 - 0.0) * (contributionRate + employerRate) * g == income * (contributionRate + employerRate) * g;
  }

  lemma ProductNonNegative(a: real, b: real, c: real, d: real)
    requires a >= 0.0 && b >= 0.0 && c >= 0.0 && d >= 0.0
    ensures a * b * c * d >= 0.0
  {
    assert a * b >= 0.0;
    assert a * b * c >= 0.0;
  }

  /** With non-negative amounts and rates, a tax rate of at most 1 and growth no lower
      than -100%, every schedule is non-negative at every step. */
  lemma SchedulesNonNegative(income: real, initial: real, contributionRate: real, employerRate: real,
                             growth: real, effectiveTaxRate: real, gov: real, step: nat)
    requires income >= 0.0 && initial >= 0.0 && contributionRate >= 0.0 && employerRate >= 0.0 && gov >= 0.0
    requires growth >= -1.0 && effectiveTaxRate <= 1.0
    ensures ContinuousContributions(step, initial, growth) >= 0.0
    ensures DefaultContributions()(step) >= 0.0
    ensures PercentageIncomeContributions(income, contributionRate, growth, effectiveTaxRate)(step) >= 0.0
    ensures KiwiSaverContributions(income, contributionRate, employerRate, growth, effectiveTaxRate, gov)(step) >= 0.0
  {
    PowNonNegative(1.0 + growth, step);
    var g := AnnualGrowth(step, growth);
    assert initial * g >= 0.0;
    ProductNonNegative(income, 1.0 - effectiveTaxRate, contributionRate, g);
    ProductNonNegative(income, 1.0 - effectiveTaxRate, contributionRate + employerRate, g);
  }
}
