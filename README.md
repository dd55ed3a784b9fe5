# investment-simulator, modelled in Dafny

This project models the exact-arithmetic core of the investment simulator. It covers:

- **New Zealand income tax.** Tax brackets are accumulated in place, then the per-bracket tax is folded over the brackets.
- **Contribution schedules.** These are builders that map a step (a year count) to an amount. Both the newer builder API and the older step-first API are modelled.
- **Portfolio statistics.** The return `w·r`, the variance `wᵀCw` and the matrix products, with numpy's dimension errors as `None`.
- **The two Monte Carlo simulations.** The recursive random walk of `monte_carlo_sim`, and the in-place grid of `growth_simulation` with its contribution adjustment of the means.
- **The Sharpe-ratio search over candidate allocations.**
- **Request shaping and graph points** for the web handler.

Modelling conventions:

- Money and rates are `real`.
- Everything random is a parameter:
  - the matrix of growth multipliers that `exp(normal(...))` draws;
  - the per-path multipliers of the recursive walk;
  - the Dirichlet candidate portfolios.
- The square root is a parameter `sqrt: real -> real` wherever a standard deviation or a risk is reported.
- The logarithm is never taken. The model carries the growth factor `g = 1 + w·r − fee` instead of `log g`. In the source, `log g` is the drift of the normal draws, which are injected here, and is read back as the reported return `exp(log g) − 1 = g − 1`.

Modules:

| module | file |
|---|---|
| `Tax` | `investment_simulator/tax.py` |
| `Contributions` | `investment_simulator/contributions.py` |
| `ContributionFunctions` | `investment_simulator/contribution_functions.py` |
| `Utils` | `investment_simulator/utils.py` |
| `PortfolioSimulation` | `investment_simulator/portfolio_simulation.py` |
| `Portfolios` | `investment_simulator/portfolios.py` |
| `Allocations` | `investment_simulator/allocations.py` |
| `LambdaSimulation` | `investment_lambda/domain/simulation.py` |

Helper modules: `Statistics` (sum, mean, population variance, maximum), `Numerics` (`**`, `max`, `min`) and `Wrappers` (`Option`).

Tax is modelled in two layers. Bracket records are values (`Tax.Bracket`), and the mutable dictionaries are a class (`Tax.TaxBracket`). `Tax.IncomeTax` updates every bracket in place, as `map(accumulated_brackets, ...)` does. It is correct even when the same dictionary appears twice in the list. The `sum` of the unbounded top bracket is `(inf − min) · rate`, which is `inf`. It is modelled with an IEEE-style `Number` (`Num | PosInf | NegInf | NaN`), and the model proves that this value is never read.

## Model

| member | source | states |
|---|---|---|
| Tax.CeilingTax | investment_simulator/tax.py:30 | the cumulative tax of a bracket is a finite number exactly when its `max` is finite, and then equals `(max − min) · rate` |
| Tax.Add | investment_simulator/tax.py:43-47 | adding finite amounts is real addition; NaN absorbs (the `o.add` of the fold) |
| Tax.Accumulated | investment_simulator/tax.py:23-31 | `min`, `max`, `rate` are kept and `sum` becomes the bracket's cumulative tax |
| Tax.AccumulateAll | investment_simulator/tax.py:42 | every bracket of the list is accumulated, order and length kept |
| Tax.Term | investment_simulator/tax.py:13-18 | at or below `max`, the term is `max((income − min) · rate, 0)`; above `max` it is the bracket's `sum` |
| Tax.TaxDue | investment_simulator/tax.py:41-47 | the left fold of `Add` over the bracket terms in list order, starting at `Num(0.0)`; its value is given by Tax.TaxDueIsFinite |
| Tax.BracketTax | investment_simulator/tax.py:13-18 | the term of an accumulated bracket as a real: the clamped partial tax at or below `max`, the cumulative tax above it; bounded by Tax.BracketTaxBounds |
| Tax.TaxAmount | investment_simulator/tax.py:43-47 | the real left-to-right sum of the bracket taxes from 0, which the float fold equals by Tax.TaxDueIsFinite |
| Tax.TermOfAccumulated | investment_simulator/tax.py:13-18 | on an accumulated bracket the term is always the finite clamped bracket tax |
| Tax.TopBracketIgnoresSum | investment_simulator/tax.py:13-18 | for the unbounded bracket the `sum` field (inf) is never read, whatever it holds |
| Tax.BracketTaxBounds | investment_simulator/tax.py:13-18 | with `min ≤ max` and `rate ≥ 0`, a bracket's tax lies between 0 and its cumulative tax |
| Tax.BracketTaxMonotone | investment_simulator/tax.py:13-18 | a bracket's tax never decreases as income rises |
| Tax.BracketTaxContinuousAtLimit | investment_simulator/tax.py:13-31 | at income exactly `max`, the in-bracket formula and the accumulated `sum` agree, so the tax has no jump |
| Tax.TaxDueIsFinite | investment_simulator/tax.py:41-47 | the fold over accumulated brackets is never inf or NaN; it equals the real sum of the bracket taxes, non-negative for well-formed brackets |
| Tax.TaxDueMonotone | investment_simulator/tax.py:41-47 | income tax never decreases as income rises |
| Tax.TaxIndependentOfEarlierSums | investment_simulator/tax.py:23-42 | accumulating overwrites any earlier `sum`; accumulating twice is the same as once, so the tax does not depend on what the dictionaries held before |
| Tax.NzTaxBrackets | investment_simulator/tax.py:52-82 | five brackets with the 2021 limits 14000/48000/70000/180000/inf and rates 10.5%/17.5%/30%/33%/39% |
| Tax.TaxAmountIgnoresSums | investment_simulator/tax.py:41-47 | the real tax amount is the same before and after accumulation |
| Tax.NzAccumulated | investment_simulator/tax.py:52-82 | the accumulated 2021 brackets carry sums 1470, 5950, 6600, 36300 and inf |
| Tax.TaxAmountOfFive | investment_simulator/tax.py:43-47 | a five-bracket fold is the sum of its five bracket taxes |
| Tax.NzTaxAmounts | investment_simulator/tax.py:52-82 | the bracket taxes add up to 0, 6895 and 23920 for incomes 0, 45000 and 100000 |
| Tax.NzTaxExamples | tests/test_simulator/tax/test_tax.py:4-16 | `income_tax(nz_tax_brackets())` gives 0, 6895 and 23920 for incomes 0, 45000 and 100000 |
| Tax.TaxBracket.constructor | investment_simulator/tax.py:57-61 | a fresh bracket dictionary holds `min`, `max`, `rate` and no `sum` |
| Tax.TaxBracket.Accumulate | investment_simulator/tax.py:23-31 | updates the dictionary in place to its accumulated value |
| Tax.Views | investment_simulator/tax.py:42 | the value of each dictionary of the list, in order |
| Tax.IncomeTax | investment_simulator/tax.py:34-49 | every dictionary ends accumulated (also when aliased), and the result is the fold of the bracket terms over the accumulated brackets |
| Contributions.AnnualGrowth | investment_simulator/contributions.py:4-11 | `(1 + rate) ** step`, which is 1 at step 0; grows by Contributions.AnnualGrowthStep |
| Contributions.AnnualGrowthNonNegative | investment_simulator/contributions.py:4-11 | the compounding multiple is non-negative when the rate is at least −100% |
| Contributions.AnnualGrowthStep | investment_simulator/contributions.py:11 | one more period multiplies the compounding multiple by `1 + rate` |
| Contributions.ContinuousContributions | investment_simulator/contributions.py:14-27 | the schedule pays `initial` at step 0 and grows by `1 + growth` each step |
| Contributions.ContinuousClosedForm | investment_simulator/contributions.py:24-25 | the schedule built step by step is `initial · (1 + growth) ** step` |
| Contributions.NoContributionsByDefault | investment_simulator/portfolios.py:46 | the default schedule `continuous_contributions(0.0, 0.0)` pays nothing at any step |
| Contributions.ContinuousExample | tests/contributions/test_contributions.py:9-11 | 100 growing at 10% pays 110 at step 1 |
| Contributions.NoTax | investment_simulator/contributions.py:34 | the default tax function is zero everywhere |
| Contributions.PercentageWithoutTax | investment_simulator/contributions.py:30-51 | without tax, a percentage-of-income schedule is the continuous schedule of `income · rate` |
| Contributions.PercentageExample | investment_simulator/contributions.py:47-49 | 10% of an untaxed 10000 pays 1000 at step 1 |
| Contributions.PercentageBounds | investment_simulator/contributions.py:47-49 | with a tax between 0 and the income, the contribution lies between 0 and `rate` times the compounded pre-tax income |
| Contributions.PercentageIncomeContributions | investment_simulator/contributions.py:30-51 | the schedule pays `(I − tax(I)) · rate` with `I = income · (1 + growth) ** step`; bounded by Contributions.PercentageBounds |
| Contributions.KiwiSaverContributions | investment_simulator/contributions.py:54-81 | the schedule pays `income · (c + e) · (1 + g) ** step` plus the capped government top-up; bounded by Contributions.KiwiSaverBounds |
| Contributions.GovernmentTopUp | investment_simulator/contributions.py:76-79 | the government amount is the smaller of its cap and half the member's own contribution, and is one of the two |
| Contributions.KiwiSaverBounds | investment_simulator/contributions.py:54-81 | a KiwiSaver contribution is at least the member and employer share, and at most that share plus the full government amount |
| Contributions.KiwiSaverDefaultExamples | investment_simulator/contributions.py:54-81 | with the default government amount 521.43, a 50000 income at 3% + 3% pays 3521.43 at step 0 (top-up uncapped), a 20000 income pays 1500 (top-up capped at 300) |
| ContributionFunctions.AnnualGrowth | investment_simulator/contribution_functions.py:6-7 | `(1 + rate) ** step`, as in contributions.py |
| ContributionFunctions.ContinuousContributions | investment_simulator/contribution_functions.py:10-13 | the number `initial · (1 + growth) ** step`, not a builder; related to the builder by ContributionFunctions.ContinuousAgreesWithBuilder |
| ContributionFunctions.PercentageIncomeContributions | investment_simulator/contribution_functions.py:22-36 | the schedule `income · (1 − t) · rate · (1 + g) ** step` for a flat effective tax rate `t`; related by ContributionFunctions.PercentageIsFlatTax |
| ContributionFunctions.KiwiSaverContributions | investment_simulator/contribution_functions.py:39-56 | the schedule `income · (1 − t) · (c + e) · (1 + g) ** step + gov`, with the government amount uncapped; related by ContributionFunctions.KiwiSaverUncapped |
| ContributionFunctions.AnnualGrowthExample | tests/contributions/test_contributions.py:4-6 | `annual_growth(1, 0.1)` is 1.1 |
| ContributionFunctions.ContinuousAgreesWithBuilder | investment_simulator/contribution_functions.py:10-13 | the step-first amount equals the newer builder applied to the same step |
| ContributionFunctions.BuilderShapeCallGivesNumber | tests/contributions/test_contributions.py:9-11 | with this signature, `continuous_contributions(100, 0.1)` is the number 0.1 and not a schedule; the step-first call for step 1 gives 110 |
| ContributionFunctions.DefaultContributions | investment_simulator/contribution_functions.py:16-19 | the partial application with zero amount and growth pays nothing at every step |
| ContributionFunctions.PercentageIsFlatTax | investment_simulator/contribution_functions.py:22-36 | a flat effective tax rate `t` is the newer builder with tax function `x ↦ t·x` |
| ContributionFunctions.PercentageExample | tests/contributions/test_contributions.py:14-16 | 10% of an untaxed 10000 is 1000 at step 1 |
| ContributionFunctions.KiwiSaverUncapped | investment_simulator/contribution_functions.py:39-56 | at an effective tax rate of 0, this variant adds the whole government amount each step, so it is the capped builder plus what the cap withholds, and never less |
| ContributionFunctions.SchedulesNonNegative | investment_simulator/contribution_functions.py:6-56 | with non-negative inputs, tax rate ≤ 1 and growth ≥ −100%, every schedule is non-negative |
| Utils.DotSum | investment_simulator/utils.py:23 | the index-aligned sum `Σ aᵢ · bᵢ` of equal-length vectors, accumulated left to right |
| Utils.SimulationReturn | investment_simulator/utils.py:7-23 | the dot product of weights and returns; a length mismatch (numpy `ValueError`) is `None` |
| Utils.Column | investment_simulator/utils.py:43 | the column of a matrix has one entry per row |
| Utils.RowCombination | investment_simulator/utils.py:49-67 | vector × matrix as a sum of scaled rows has one entry per column |
| Utils.RowCombinationIsColumnDots | investment_simulator/utils.py:49-67 | entry `j` of the row combination is the dot product of the vector with column `j` |
| Utils.MatMult | investment_simulator/utils.py:49-67 | `matmul(a, m)` is defined exactly when `m` is rectangular with `|a|` rows, and entry `j` is `a · column j` |
| Utils.ColumnMatrix | investment_simulator/utils.py:43 | `[[x] for x in weights]` is the one-column matrix of the weights |
| Utils.QuadraticForm | investment_simulator/utils.py:42-46 | `matmul(matmul(w, C), wᵀ)[0]` is defined exactly when `C` is `|w| × |w|`, and equals `Σⱼ (w · Cⱼ) wⱼ` |
| Utils.SimulationRisk | investment_simulator/utils.py:26-46 | the risk is the square root of the quadratic form, with the same error cases |
| Utils.DotWithConstant | investment_simulator/utils.py:23 | a dot product with a constant vector `k` is `k` times the sum of the weights |
| Utils.EqualReturnsGiveThatReturn | investment_simulator/utils.py:7-23 | weights adding to 1 over equal returns `k` give return `k` |
| Utils.IdentityCovarianceExample | investment_simulator/utils.py:26-46 | weights (0.5, 0.5) under the identity covariance have variance 0.5 |
| PortfolioSimulation.SimulationParameters | investment_simulator/portfolio_simulation.py:59-67 | defined exactly when the lengths agree and the covariance is square; growth is `1 + w·r − fee` (the argument of `log`) and the variance is `wᵀCw` |
| PortfolioSimulation.FeeLowersGrowth | investment_simulator/portfolio_simulation.py:65 | a higher fee gives a strictly lower growth and the same variance |
| PortfolioSimulation.ParametersExample | tests/simulation/test_simulation.py:7-16 | the test fixture gives growth 1.1 (`log` 0.0953…) and variance 0.5 (risk 0.7071…) |
| PortfolioSimulation.Grown | investment_simulator/portfolio_simulation.py:117 | the contribution added at a step: `contributions · (1 + contribution_growth) ** step` |
| PortfolioSimulation.RandomWalk | investment_simulator/portfolio_simulation.py:105-118 | the walk keeps the path it was given and appends `period − step + 1` values (one if `step ≥ period`) |
| PortfolioSimulation.WalkStep | investment_simulator/portfolio_simulation.py:116-118 | before the last step, the walk is the walk of the path extended by the multiplied value plus the grown contribution, one step later |
| PortfolioSimulation.WalkLast | investment_simulator/portfolio_simulation.py:114-115 | at or after the last step, the walk appends the multiplied value alone and stops |
| PortfolioSimulation.WalkKeeps | investment_simulator/portfolio_simulation.py:115-117 | `append` never changes a value already in the path |
| PortfolioSimulation.WalkAppendsGrown | investment_simulator/portfolio_simulation.py:117 | the value appended before the last step is the previous value times the multiple plus `contributions · (1 + g) ** step` |
| PortfolioSimulation.WalkAppendsLast | investment_simulator/portfolio_simulation.py:115 | the value appended at the last step is the previous value times the multiple, with no contribution |
| PortfolioSimulation.RandomWalkValues | investment_simulator/portfolio_simulation.py:114-118 | each appended value is the previous one times the drawn multiple, plus `contributions · (1 + g) ** k` for the steps before `period` |
| PortfolioSimulation.WalkFromStart | investment_simulator/portfolio_simulation.py:81-87 | a walk started from `[initial]` at step 1 begins with `initial` and has the step count's length |
| PortfolioSimulation.ConstantContributions | investment_simulator/portfolio_simulation.py:117 | with no contribution growth, every step before `period` adds exactly `contributions` |
| PortfolioSimulation.StepRows | investment_simulator/portfolio_simulation.py:81-88 | the transposed walks have one row per step and one column per simulation; entry `[k][p]` is value `k` of path `p`'s `random_walk` from `[initial]` at step 1 with contribution growth 0 |
| PortfolioSimulation.StepRowsAddContributions | investment_simulator/portfolio_simulation.py:81-88 | in the rows `monte_carlo_sim` reduces, each step before the last is the previous value of that path times its multiplier plus the constant `adds` |
| PortfolioSimulation.MonteCarloSim | investment_simulator/portfolio_simulation.py:70-94 | means and deviations have one entry per step, start at `initial` with zero spread; mean `k` and deviation `k` are the mean and `sqrt` of the population variance of row `k` of PortfolioSimulation.StepRows; `x_max` is `steps`, `y_max` is max mean + max deviation; the return is `growth − 1` and the risk `sqrt(variance)`; dimension errors and zero simulations are `None` |
| Portfolios.GetGraphVectors | investment_simulator/portfolios.py:27-35 | per step, the mean times the number of simulations is the row's sum, and the deviation is the square root of the population variance |
| Portfolios.GraphVectorsOfConstantRow | investment_simulator/portfolios.py:33-34 | a step where every simulation has the same value `c` has mean `c` and deviation `sqrt(0)` |
| Portfolios.PathValue | investment_simulator/portfolios.py:69-80 | the grid value of path `j` at step `k`: `initial` at step 0, else the previous step's value times multiplier `[k][j]`; characterised by Portfolios.GridRecurrence |
| Portfolios.ContributionAt | investment_simulator/portfolios.py:83-84 | the amount added to the mean of step `k`: `contribution_function(k)` for `1 ≤ k < steps`, else 0 |
| Portfolios.GridRow | investment_simulator/portfolios.py:79-80 | one row of the simulation grid has one value per simulation |
| Portfolios.Expected | investment_simulator/portfolios.py:82-91 | the specified result has `steps + 1` means and deviations |
| Portfolios.FillGrid | investment_simulator/portfolios.py:69-80 | a fresh `(steps + 1) × simulations` grid whose row 0 is `initial` and whose row `k` is row `k − 1` times the multipliers of step `k` |
| Portfolios.FillRow | investment_simulator/portfolios.py:79-80 | fills row `step` from row `step − 1`, keeping the earlier rows |
| Portfolios.AddContributions | investment_simulator/portfolios.py:83-84 | adds `contribution_function(step)` to the means of steps `1 … steps − 1` only; step 0 and the last step are unchanged |
| Portfolios.GrowthSimulation | investment_simulator/portfolios.py:38-91 | defined exactly when the simulation parameters are; the result is the specified statistics of the grid, with contributions added to the means and the return and risk as `growth − 1` and `sqrt(variance)` |
| Portfolios.GridRows | investment_simulator/portfolios.py:69-80 | one row per step, each the grid row of that step |
| Portfolios.ExpectedFromGrid | investment_simulator/portfolios.py:82-91 | the grid's statistics, with contributions added to the means, are the specified result |
| Portfolios.FirstStep | investment_simulator/portfolios.py:70 | the first mean is the initial investment and its deviation is `sqrt(0)` |
| Portfolios.GridRecurrence | investment_simulator/portfolios.py:79-80 | each grid value is the previous step's value times that step's multiplier |
| Portfolios.FirstMultipliersUnused | investment_simulator/portfolios.py:72-80 | the draws for row 0 never affect the grid |
| Portfolios.GridPositive | investment_simulator/portfolios.py:70-80 | with positive draws (values of `exp`) and a positive start, every grid value is positive |
| Portfolios.MeansPositive | investment_simulator/portfolios.py:70-82 | under the same conditions, every step's mean is positive |
| Portfolios.ContributionIsLumpPerPath | investment_simulator/portfolios.py:82-84 | adding a contribution to the mean equals adding it to every path; the deviation is unchanged |
| Portfolios.DefaultScheduleAddsNothing | investment_simulator/portfolios.py:83-84 | with the default contribution schedule, the means are the raw per-step means |
| Allocations.Less | investment_simulator/allocations.py:16-17 | `a < b` exactly when `a`'s Sharpe ratio is below `b`'s; its order properties are Allocations.LessIsStrictOrder |
| Allocations.LessIsStrictOrder | investment_simulator/allocations.py:16-17 | `__lt__` is irreflexive and transitive and compares only the Sharpe ratio |
| Allocations.SharpeCalc | investment_simulator/allocations.py:20-27 | `(rtrn − 0.01) / risk`: defined exactly when the risk is non-zero, and then the ratio times the risk is the excess return |
| Allocations.SimulateAllocation | investment_simulator/allocations.py:30-54 | keeps the weights; the annual return is `w·r` (no fee); the risk is `sqrt(wᵀCw)`; the Sharpe ratio is that of the return and the risk |
| Allocations.FirstMaxIndex | investment_simulator/allocations.py:71 | Python `max`: the first candidate whose Sharpe ratio is at least every other one's |
| Allocations.MapAll | investment_simulator/allocations.py:71 | `map` succeeds exactly when every element succeeds, and keeps order and length |
| Allocations.AllocationsSimulation | investment_simulator/allocations.py:57-71 | defined exactly when there is a candidate and every candidate has a defined result; the chosen result is some candidate's, it has the largest Sharpe ratio, and it is the first such |
| Allocations.ChosenWeightsAddUpToOne | tests/test_simulator/simulation/test_allocations.py:11-18 | when the candidates' weights add up to 1, so do the chosen weights; with equal asset returns `k` the chosen annual return is `k` |
| LambdaSimulation.GetAssetAllocations | investment_lambda/domain/simulation.py:32-36 | returns and weightings in holding order; the fee is the weighting-weighted sum of the fees |
| LambdaSimulation.UniformFee | investment_lambda/domain/simulation.py:36 | with one common fee and weightings adding to 1, the fee is that common fee |
| LambdaSimulation.GraphPoints | investment_lambda/domain/simulation.py:41-52 | one point per `zip` pair, as many as the shorter list; `x` is the index, `y` the mean, `u1`/`l1` mean ± deviation |
| LambdaSimulation.BandWidth | investment_lambda/domain/simulation.py:45-46 | each band is twice the deviation wide and centred on the mean |
| LambdaSimulation.GraphResults | investment_lambda/domain/simulation.py:39-55 | as written: `y_max` is the last index, `x_max` is max mean + max deviation; empty lists (where `max` raises) give `None` |
| LambdaSimulation.OnePointPerStep | investment_lambda/domain/simulation.py:49-53 | for equal-length means and deviations, there is a point per step and the last point's `x` is `y_max` |
| LambdaSimulation.YMaxDoesNotBoundPoints | investment_lambda/domain/simulation.py:53-54 | a two-step result whose `y_max` is 1 while a point's upper band is 115 |
| LambdaSimulation.GraphResultsLabelled | investment_lambda/domain/simulation.py:39-55 | with the labels as `monte_carlo_sim` uses them, every point's `x` is at most `x_max` and every upper band at most `y_max` |
| Statistics.Mean | investment_simulator/portfolios.py:33 | the mean times the count is the sum |
| Statistics.Variance | investment_simulator/portfolios.py:34 | the population variance is non-negative |
| Statistics.Largest | investment_simulator/portfolio_simulation.py:94 | Python `max` of a non-empty list is an element and is at least every element |
| Statistics.ShiftRow | investment_simulator/portfolios.py:33-34 | shifting every value by `c` shifts the mean by `c` and keeps the variance |
| Statistics.ConstantRow | investment_simulator/portfolios.py:33-34 | a constant row has that constant as mean and zero variance |
| Statistics.ShiftMean | investment_simulator/portfolios.py:33 | adding `c` to every value adds `c` to the mean |
| Statistics.ShiftDeviations | investment_simulator/portfolios.py:34 | the deviations from the shifted mean are the deviations from the original mean |
| Statistics.MeanPositive | investment_simulator/portfolios.py:33 | the mean of positive values is positive |

## Left out

- Randomness: the `normal` and `dirichlet` draws are parameters (the multiplier matrix, the per-path multiples, the candidate list). Their distribution is not modelled.
- `exp`, `log` and `sqrt` have no exact model. The square root is a parameter, and the model keeps `1 + w·r − fee` in place of its logarithm (`log g` is otherwise the drift of the injected draws, and the reported return `exp(log g) − 1` is `g − 1`).
- Floating point: every amount is an exact real. The float32 grid of `growth_simulation`, float64 rounding and the `round` in the tests are not modelled.
- `numpy.ma` masking is not modelled: inputs are treated as unmasked.
- `utils.stochastic_compounding` and `portfolio_simulation.investment_multiple` are `investment · exp(normal(...))`. They appear only as the injected multiples they produce.
- The `ndarray(list)` calls in `portfolio_simulation.simulation_return`, `simulation_risk` and `matMult` treat a list as a shape, not as data. The model gives these functions the meaning of their `utils.py` counterparts, which call `array`.
- `portfolios.py` and `allocations.py` import `simulation_parameters` from `utils.py`, and `allocations.py` also imports `ArrayLike` and `ArrayLike2D` from there (`portfolios.py` defines its own), but `utils.py` defines none of them. The model uses the `portfolio_simulation.py` definition.
- `portfolio_simulation.py` imports a `SimulationResults` that the value objects file (which names its class `PortfolioResults`) does not define. The model defines the six-field record itself.
- Matrices with zero rows, and numpy broadcasting of mismatched shapes, are treated as dimension errors (`None`).
- The model assumes the caller passes correctly shaped data. The handler, S3 access, the questionnaire, the repositories and the rest of `investment_lambda` are not part of this model. Neither is `InvestmentResults`, the other type `graph_results` accepts.
- Portfolios.GrowthSimulation: requires `simulations > 0`. With no simulations, numpy's mean of an empty axis is NaN with a warning, which has no exact-real counterpart.
- Portfolios.GrowthSimulation: the multipliers are a parameter, so the model does not capture that they were drawn with the row-0 draws discarded. Portfolios.FirstMultipliersUnused proves they do not matter.
- PortfolioSimulation.MonteCarloSim: `steps` values below 1 follow the recursion's single-append branch. Negative `steps` are kept as Python allows them.
- Allocations.SharpeCalc: a zero risk is `None`, where numpy would return inf or NaN with a warning.
- Allocations.AllocationsSimulation: a candidate with zero risk makes the whole search `None`, where numpy would compare with NaN or inf.
- PortfolioSimulation.SimulationParameters: states the growth factor, not its logarithm. The portfolio return `exp(log g) − 1` is stated as `g − 1`.
- PortfolioSimulation.MonteCarloSim: when `g = 1 + w·r − fee ≤ 0`, `numpy.ma.log` returns a masked value and the reported return and the draws' drift are masked; the model reports the real number `g − 1`.
- Portfolios.GrowthSimulation: the same masked case for `g ≤ 0` is not modelled; the model reports `g − 1`.
- Allocations.SimulateAllocation: the same masked case for `g ≤ 0` is not modelled; the model reports `g − 1` and its Sharpe ratio.
- Portfolios.GrowthSimulation: `steps` is a `nat`, so the error `np.empty` raises for a negative `steps` is not modelled.
- PortfolioSimulation.RandomWalk: the recursion is unbounded here, so Python's `RecursionError` once `steps` approaches the interpreter's recursion limit is not modelled.

## Findings

| source | as written | input that shows it | evidently intended | confidence | as-written member | corrected member |
|---|---|---|---|---|---|---|
| investment_lambda/domain/simulation.py:53-54 | `y_max` is the number of steps and `x_max` is the largest mean plus the largest deviation | means [100, 110], deviations [0, 5]: `y_max` = 1 under an upper band of 115 | `x_max` = last step, `y_max` = max mean + max deviation, as `monte_carlo_sim` labels them (portfolio_simulation.py:93-94) | medium, not executed | LambdaSimulation.YMaxDoesNotBoundPoints | LambdaSimulation.GraphResultsLabelled |
| tests/contributions/test_contributions.py:9-11 with investment_simulator/contribution_functions.py:10-13 | the test calls `continuous_contributions(100, 0.1)(1)` against the step-first signature, which returns the float 0.1 and then calls it | `continuous_contributions(100, 0.1)` = 0.1 | the builder of contributions.py, which pays 110 at step 1 | medium, not executed | ContributionFunctions.BuilderShapeCallGivesNumber | Contributions.ContinuousExample |
