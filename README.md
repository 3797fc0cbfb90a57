# Pension and ISA contribution dashboards, modelled in Dafny

The repository holds two single-page financial-planning dashboards. Each one
takes a salary, a one-off income, pension and ISA (tax-free savings)
assumptions and three contribution options, and works out the tax, National
Insurance and take-home cash of each option. Each then recommends one option.

- `dashboard2.py` builds income tax and National Insurance (10% between the
  thresholds) in an accumulator. It evaluates each option in a loop: the
  taxable income is clamped at zero, the ISA contribution is capped at the
  cash left, and the pension and ISA pots are projected to retirement along
  with a monthly income. A second loop scores each option on min-max
  normalised cash and income, and `idxmax` picks the recommended row.
- `pension_dashboard.py` computes the same income tax in closed form, with
  National Insurance at 12%. Its `calculate_scenario` charges tax on the top
  slice of the total income. It recommends the option with the most cash.

Layout:

- `Arith.dfy`: `min`/`max`, the power `(1+r)^n` as a recursive `Pow`, and the
  geometric sum behind the annuity term, with their lemmas.
- `Schedules.dfy`: the UK tax and National Insurance schedules, in two
  forms. One has a closed branch per band. The other, the reference form, is
  "each band's rate on the income inside that band". Lemmas prove the two
  forms equal, monotone and of bounded slope.
- `Dashboard.dfy` models `dashboard2.py` and is imperative where the source
  is:
  - `compute_tax` and `compute_ni` are accumulator methods;
  - the scenario loop, the scoring loop and `idxmax` are `while` loops;
  - each method is proved against a specification function (`Scenario`,
    `Score`, `IncomeTax`, `NationalInsurance`).
- `PensionDashboard.dfy` models `pension_dashboard.py`. It is pure
  functions, with the module-level sidebar values passed in as parameters.

Money and rates are `real`, so the arithmetic is exact. Whole years are
`nat`.

Behaviour of the scripts that the model keeps as written:

- `dashboard2.py:153` caps the ISA contribution at the cash left after
  pension contributions, tax and National Insurance.
- Each file hard-codes its middle National Insurance rate: 10% in
  `dashboard2.py` and 12% in `pension_dashboard.py`.
  `Schedules.NationalInsurance` takes the rate as a parameter, so one lemma
  covers both.
- `pension_dashboard.py` never clamps the taxable income at zero. A
  contribution larger than the income gives a negative taxable income and
  negative cash (`PensionDashboard.CashSign`).
- In one-off mode, `pension_dashboard.py` charges
  `calculate_tax(total) - calculate_tax(salary + contribution)`: the tax on
  the top `one_off - contribution` of the total income, the slice above
  salary + contribution. When the contribution exceeds the one-off income
  it is never positive: it lies between 45% of the (negative) taxable
  income and 0, and it is 0 when salary + contribution is at most 12,570
  (`PensionDashboard.ScenarioTaxable`, `PensionDashboard.ScenarioTaxPaid`).
- A negative disposable cash is not clamped before the ISA cap. When the
  pension contributions exceed the income, the cap "uses" a negative ISA
  contribution (`Dashboard.OverCommitted`).

## Model

| member | source | states |
|---|---|---|
| Dashboard.ComputeTax | dashboard2.py:9-35 | The accumulator's result is the banded income tax. It is 0 at or below 12,570 (the early return) and 20% of the excess up to 50,270. |
| Dashboard.ComputeNi | dashboard2.py:37-58 | The accumulator's result is National Insurance at 10% between the thresholds and 2% above. It is 0 at or below 12,570, and otherwise 10% of `min(income, 50270) - 12570` plus 2% of any excess over 50,270. |
| Schedules.IncomeTaxIsBanded | dashboard2.py:23-33 | The closed-form tax equals each band's rate (20/40/45%) applied to the income inside that band. |
| Schedules.NationalInsuranceIsBanded | dashboard2.py:50-56 | For any middle rate, the closed-form National Insurance equals that rate on the income between 12,570 and 50,270 plus 2% on the income above. |
| Schedules.IncomeTaxIncrement | dashboard2.py:19-35 | Income tax is non-negative and non-decreasing, and rises by at most 45p per pound. So it has no jump at a band edge. |
| Schedules.NationalInsuranceIncrement | dashboard2.py:46-58 | National Insurance is non-negative and non-decreasing, and rises by at most the larger of its two rates per pound. |
| Schedules.DeductionsAtMost | dashboard2.py:146-148 | Tax plus National Insurance is at most (45% + the larger NI rate) of the income above the allowance. |
| Dashboard.IncomeTaxBandValues | dashboard2.py:27-33 | The tax is 7,540 at 50,270 and 37,488 at 125,140, and the higher and additional bands add 40% and 45% of the excess over their lower edge. |
| Dashboard.SidebarCash | dashboard2.py:109-117 | Specification of the sidebar figure: the chosen income less the annual pension, tax and NI on the clamped taxable income. Its properties are stated by Dashboard.SidebarIsBaseScenario. |
| Dashboard.Scenario | dashboard2.py:139-186 | Specification of one result row. Dashboard.EvaluateOption is proved to compute it, and ScenarioDeductions, IsaCap, DisposableWhenAffordable, OverCommitted, ScenarioPots and MorePensionLessCash state its properties. |
| Dashboard.AnnuityValue | dashboard2.py:159-162 | The annual-contribution term with its zero-rate branch. Dashboard.AnnuityIsGeometricSum ties both branches to the geometric sum. |
| Dashboard.FuturePensionPot | dashboard2.py:158-164 | The projected pension pot. Dashboard.PensionPotProjection states its decomposition and its r = 0 and n = 0 values. |
| Dashboard.FutureIsaPot | dashboard2.py:167 | The capped ISA contribution compounded. Dashboard.ScenarioPots and Dashboard.DisposableWhenAffordable state its value and sign. |
| Dashboard.MonthlyIncome | dashboard2.py:172-175 | Post-tax monthly income from the two pots. Dashboard.MonthlyIncomeRates reduces it to 3.4% and 4% a year. |
| Dashboard.EvaluateOption | dashboard2.py:139-186 | The loop body for one option produces exactly the `Scenario` row: total contribution, clamped taxable income, tax, NI, capped ISA, cash, both pots and monthly income. |
| Dashboard.EvaluateScenarios | dashboard2.py:136-186 | The loop appends one row per option, in order, and row i is the scenario of option i. |
| Dashboard.ScenarioDeductions | dashboard2.py:143-148 | The taxable income is `max(income - contributions, 0)`: it is one of the two values and never negative. Tax and NI are non-negative and take at most 55% of it. Both are zero when the income after contributions is within 12,570. |
| Dashboard.IsaCap | dashboard2.py:151-155 | The ISA used is at most both the cash before the ISA and the contribution asked for, and it is one of the two. Cash available is the difference and never negative. It equals the disposable cash less the full ISA contribution exactly when the contribution fits. |
| Dashboard.DisposableWhenAffordable | dashboard2.py:146-167 | When contributions do not exceed the income, the cash before the ISA is at least 45% of what remains. A non-negative ISA request is then used non-negatively, and the ISA pot is non-negative. |
| Dashboard.OverCommitted | dashboard2.py:146-155 | When contributions exceed the income, tax and NI are 0 and the cash before the ISA is the negative shortfall. An ISA request at least that large is "used" at the negative amount, and cash available is 0. |
| Dashboard.DisposableFalls | dashboard2.py:146-151 | The cash before the ISA never rises when contributions rise. |
| Dashboard.MorePensionLessCash | dashboard2.py:143-164 | With the same ISA request, a larger extra pension gives a pot at least as large (for growth of at least -100%) and no more cash. |
| Arith.GeometricSumClosedForm | dashboard2.py:160 | (x - 1) times the sum of x^0 .. x^(n-1) is x^n - 1, which is the annuity factor's identity. |
| Arith.GeometricSumOfOne | dashboard2.py:162 | With growth factor 1 the sum of n contributions is n, which is the zero-rate branch. |
| Dashboard.AnnuityIsGeometricSum | dashboard2.py:159-162 | Both branches of the annual-contribution term equal the annual contribution times the geometric sum of the growth factor. |
| Dashboard.PensionPotProjection | dashboard2.py:158-164 | The pension pot is the current pot plus the extra contribution compounded, plus the compounded stream of annual contributions. At r = 0 it is current + annual·n + extra. At n = 0 it is current + extra. |
| Dashboard.ScenarioPots | dashboard2.py:157-167 | The row's pension pot is the projection of the current pot, the annual contribution and the extra contribution (PensionPotProjection decomposes it into compounded parts). Its ISA pot compounds only the capped ISA contribution, and equals it at n = 0. |
| Dashboard.MonthlyIncomeRates | dashboard2.py:172-175 | The monthly income is 3.4% a year of the pension pot plus 4% of the ISA pot, over 12. It is non-negative for non-negative pots. |
| Dashboard.SidebarIsBaseScenario | dashboard2.py:109-117 | The sidebar cash is an option with no extra pension and no ISA, taxed on the same clamped income. Its cash available is the sidebar figure floored at 0. |
| Dashboard.SeqMin | dashboard2.py:205-206 | Column minimum: no larger than any entry, and one of them. |
| Dashboard.SeqMax | dashboard2.py:205-206 | Column maximum: no smaller than any entry, and one of them. |
| Dashboard.Normalise | dashboard2.py:211-219 | Min-max normalisation with 1 on a tie. Dashboard.NormaliseInUnit states its range and end values. |
| Dashboard.Score | dashboard2.py:211-222 | The equal-weight score of a row. Dashboard.ComputeScores is proved to compute it, and Dashboard.ScoreInUnit states its range. |
| Dashboard.IsRecommended | dashboard2.py:226 | The first-maximum rule of idxmax on the scores. Dashboard.Recommend is proved to meet it, and Dashboard.TieRecommendsFirst applies it to ties. |
| Dashboard.NormaliseInUnit | dashboard2.py:211-219 | A normalised value lies in [0, 1]. It is 1 when the column ties or at the maximum, and 0 at the minimum of a non-tied column. |
| Dashboard.ScoreInUnit | dashboard2.py:208-223 | Every score lies in [0, 1]. A row that is best on both metrics scores 1. |
| Dashboard.TieRecommendsFirst | dashboard2.py:211-226 | When all options tie on cash and on income, the recommended row is the first. |
| Dashboard.ComputeScores | dashboard2.py:208-225 | The scoring loop yields one score per row, and score i is the equal-weight normalised score of row i. |
| Dashboard.IdxMax | dashboard2.py:226 | idxmax returns a position holding the largest score, and every earlier score is strictly smaller (the first maximum). |
| Dashboard.Recommend | dashboard2.py:203-227 | There is no recommendation exactly when there are no rows. Otherwise the row chosen has the maximal score and is the first to reach it. |
| Dashboard.RecommendedIsUnique | dashboard2.py:226 | At most one row meets the first-maximum rule. |
| Dashboard.EvaluateAndRecommend | dashboard2.py:136-227 | The rows are each option's scenario, in order. The label is absent exactly when there are no options. Otherwise it is the "Option" name of the row that meets the first-maximum rule on the scores. |
| PensionDashboard.CalculateTax | pension_dashboard.py:42-50 | calculate_tax, one closed-form branch per band. PensionDashboard.CalculateTaxIsIncomeTax and CalculateTaxBandValues state its properties. |
| PensionDashboard.CalculateNi | pension_dashboard.py:52-58 | calculate_ni at 12% and 2%. PensionDashboard.CalculateNiValues, NiAgainstDashboard and CalculateNiIncrement state its properties. |
| PensionDashboard.CalculateScenario | pension_dashboard.py:61-83 | calculate_scenario with the sidebar values as parameters. ScenarioTaxable, ScenarioTaxPaid, ScenarioNi, CashSign and MoreContributionLessCash state its properties. |
| PensionDashboard.CalculateTaxIsIncomeTax | pension_dashboard.py:42-50 | calculate_tax equals the closed-form and banded income tax, and so equals dashboard2.py's compute_tax for every income. |
| PensionDashboard.CalculateTaxBandValues | pension_dashboard.py:42-50 | calculate_tax is 0 up to 12,570 (negative income included) and 20% of the excess in the basic band. It is 7,540 at 50,270 and 37,488 at 125,140. |
| PensionDashboard.CalculateNiValues | pension_dashboard.py:52-58 | calculate_ni is the banded NI at 12%: 0 up to 12,570, 12% of the excess up to 50,270, and 4,524 + 2% of the excess above. |
| PensionDashboard.NiAgainstDashboard | pension_dashboard.py:52-58 | calculate_ni exceeds dashboard2.py's compute_ni by exactly 2% of the income inside the middle band. |
| PensionDashboard.CalculateNiIncrement | pension_dashboard.py:52-58 | calculate_ni is non-negative and monotone, with slope at most 0.12. |
| PensionDashboard.ScenarioTaxable | pension_dashboard.py:61-71 | The taxable income is (salary + one-off) − contribution in total mode and one-off − contribution in one-off mode, with no clamp. The tax paid is the tax on total income less the tax on the contribution (total mode) or on salary + contribution (one-off mode). |
| PensionDashboard.ScenarioTaxPaid | pension_dashboard.py:70-71 | The tax paid lies between 0 and 45% of a non-negative taxable income, and between 45% of a negative one and 0. In total mode with no contribution it is the ordinary tax on the total income. In one-off mode it is 0 when the contribution exceeds the one-off income and salary + contribution is at most 12,570. |
| PensionDashboard.ScenarioNi | pension_dashboard.py:72 | NI is never negative, is 0 when the taxable income is within 12,570, and is at most 12% of a non-negative taxable income. |
| PensionDashboard.CashSign | pension_dashboard.py:74-75 | The cash available is taxable − tax − NI, and it is non-negative if and only if the taxable income is. |
| PensionDashboard.MoreContributionLessCash | pension_dashboard.py:61-75 | A strictly larger pension contribution gives strictly less cash, in either mode. |
| PensionDashboard.CashFallsWithContribution | pension_dashboard.py:61-75 | For every pair of contributions, the larger one gives strictly less cash. |
| PensionDashboard.Scenarios | pension_dashboard.py:87-89 | The scenario list holds each option's scenario in order, and an option with a larger contribution always shows strictly less cash than one with a smaller contribution. |
| PensionDashboard.BestOption | pension_dashboard.py:99-100 | `max(..., key=cash)` picks a scenario with the most cash, and every earlier one has strictly less. No earlier scenario equals it, so `.index` finds the same position. |
| PensionDashboard.RecommendsSmallestContribution | pension_dashboard.py:87-100 | The option recommended on cash always has the smallest pension contribution, and is the first option with that contribution. |

## Left out

- The Streamlit widgets, page layout, DataFrame display formatting, the stacked bar chart and all matplotlib code are not modelled. The sidebar values become parameters (`Dashboard.Inputs`, and the arguments of `PensionDashboard.CalculateScenario`).
- Floating point is modelled as exact `real` arithmetic. Rounding in the displayed figures (`:,.0f`, `:,.2f`) is not modelled.
- Dashboard.Inputs: years to retirement is a `nat`. The source's `number_input` would also accept a negative number of years, which the model excludes.
- pension_dashboard.py's `years = retirement_age - 40` and its growth rates, current pot and annual contribution are read but never used by the calculation, so they are not modelled.
- pension_dashboard.py's ISA contribution inputs are never used by the calculation, so they are not modelled.
- Dashboard.Recommend returns the position of the recommended row. Reading its "Option" label (`df.loc[best_idx, "Option"]`) is the row's `option` field. With no options, `pd.DataFrame([])` has no columns and `dashboard2.py:203` raises a `KeyError`. The model returns `None` for that case.
- PensionDashboard.BestOption requires a non-empty list. The source always passes three scenarios, and Python's `max` on an empty list raises.
- The recommendation message's string formatting (`f"Option {...}"`) is not modelled. Its content is the position `BestOption` returns.
