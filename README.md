# Gambling tax calculator — verified model

This project models the calculation core of a small gambling-tax calculator
(`app.py`, lines 6-60). The calculator takes a tax year and either the
bettor's winnings and losses, or a profit figure and an ROI ratio. It then:

- turns profit and ROI into winnings and losses, using losses = profit / ROI
  and winnings = profit + losses;
- picks the deduction rule for the year. From 2026 only 90% of losses can be
  deducted; before 2026 all losses can, up to the winnings;
- computes taxable income, floored at zero;
- computes phantom income: taxable income that remains although losses meet
  or exceed winnings;
- computes the tax owed from a fixed schedule of seven marginal brackets,
  10% up to 37%.

Amounts are exact `real`s. Python's `round(x, 2)` is `Cents.RoundCents`: it
rounds to the nearest cent, and a tie goes to the even cent. Rejected inputs
are the `Failure` case of a `Result` and carry one of three errors. Each error
has the source's message.

Modules:
- `Results`: the `Option` and `Result` types.
- `Cents`: cents and rounding.
- `Brackets`: `calculate_tax_with_brackets`. Its loop with an early exit is
  the method `AccumulateBrackets`, which takes the bracket list as a
  parameter; `CalculateTaxWithBrackets` runs it on the fixed schedule. The
  loop is proved against the recursive `BracketSum`, which is in turn proved
  equal to a closed-form reference table.
- `GamblingTax`: `derive_winnings_losses` and `calculate_gambling_tax`, as
  functions returning `Result`. The engine uses `Brackets.TaxWithBrackets`,
  the function the loop method is proved equal to, because a function cannot
  call a method.

The tax on 100000 of taxable income is exactly 17400.00
(`Brackets.TaxWithBracketsExamples`, `GamblingTax.ScenarioNoLosses`).

## Model

| member | source | states |
|---|---|---|
| `Brackets.AccumulateBrackets` | app.py:16-22 | the loop with its early `break` returns the sum, in order, of each exceeded bracket's taxed amount `min(income, upper) - lower` times its rate, up to the first bracket whose lower bound is not below the income |
| `Brackets.CalculateTaxWithBrackets` | app.py:6-23 | the tax over the fixed seven-bracket schedule, rounded to cents; the properties of this value are the `Brackets` lemmas below |
| `Brackets.Schedule` | app.py:7-15 | the seven brackets are contiguous from 0, each ending where the next begins; only the top one is unbounded; rates are non-negative and never decrease, from 10% to 37% |
| `Brackets.BracketSum` | app.py:16-22 | the running total of the loop: each bracket whose lower bound the income exceeds adds `(min(income, upper) - lower) * rate`, and the sum stops at the first bracket it does not exceed |
| `Brackets.TaxWithBrackets` | app.py:6-23 | the tax the engine uses, rounded to cents: whole cents, never negative, and 0 for income of 0 or less |
| `Brackets.LastRateBounds` | app.py:7-15 | in a well-formed schedule the first rate is at most the last |
| `Brackets.BracketSumNonNegative` | app.py:16-22 | the accumulated tax is never negative, and it is zero when income does not exceed the first lower bound |
| `Brackets.TaxedTotalCoversIncome` | app.py:17-22 | the amounts `min(income, upper) - lower` over the visited brackets add up exactly to the income above the first lower bound |
| `Brackets.BracketSumBetweenRates` | app.py:17-22 | the tax lies between the lowest rate and the highest rate times the total taxed amount |
| `Brackets.BracketSumMonotone` | app.py:17-22 | more taxable income never gives less tax |
| `Brackets.ScheduleMatchesTable` | app.py:7-22 | the bracket loop equals a closed-form marginal table: each full lower bracket's tax plus the current rate on the excess, proved for every income |
| `Brackets.TaxContinuous` | app.py:7-22 | no jump at a bracket boundary: between incomes x <= y the tax grows by at most 37% of y - x, and for x >= 0 by at least 10% of it |
| `Brackets.TaxBetweenLowestAndHighestRate` | app.py:7-22 | no tax on income of 0 or less; for non-negative income the taxed amounts sum to the income and the tax is between 10% and 37% of it |
| `Brackets.TaxWithBracketsMonotone` | app.py:16-23 | the rounded tax is non-negative and non-decreasing in taxable income |
| `Brackets.TaxWithBracketsExamples` | app.py:6-23 | tax on 0 is 0, on 11000 is 1100, on 100000 is 17400, on 1000000 is 174238.25 plus 37% of the excess over 578125 |
| `Cents.RoundCents` | app.py:23 | the result is a whole number of cents within half a cent of the input |
| `Cents.RoundCentsMonotone` | app.py:53-58 | rounding keeps the order of two amounts |
| `Cents.RoundCentsNonNegative` | app.py:30-32 | anything from half a cent below zero upward rounds to a non-negative amount, so the -1e-6 tolerance cannot produce a negative result |
| `Cents.RoundCentsOfCents` | app.py:53-58 | a whole-cent amount is unchanged by rounding |
| `GamblingTax.DeriveWinningsLosses` | app.py:25-32 | fails with the zero-ROI error exactly when ROI is 0; a success gives non-negative whole-cent winnings and losses whose difference is within a cent of the profit |
| `GamblingTax.DeriveSolvesProfitAndRoi` | app.py:28-31 | before rounding, the result is the unique pair with winnings - losses == profit and losses * roi == profit; it is rejected exactly when either is below -1e-6 |
| `GamblingTax.DerivedLossesMatchRoi` | app.py:28-32 | the rounded losses times ROI is the profit, to within half a cent times the ROI's magnitude |
| `GamblingTax.DeriveRoundTrip` | app.py:25-32 | whole-cent winnings W >= 0 and losses L > 0 with W != L come back unchanged from profit W - L and ROI (W - L) / L |
| `GamblingTax.DeriveZeroProfit` | app.py:26-32 | zero profit with any non-zero ROI gives zero winnings and zero losses |
| `GamblingTax.DeriveAcceptsGenuineOutcomes` | app.py:28-31 | a gain with positive ROI, or a loss with ROI in [-100%, 0), is never rejected |
| `GamblingTax.ResolveAmounts` | app.py:35-39 | an explicit winnings/losses pair is used as given; without one, a profit/ROI pair gives exactly what derivation gives; the missing-inputs error occurs exactly when neither complete pair is supplied |
| `GamblingTax.Assess` | app.py:41-50 | the year picks the rule; the deduction never exceeds winnings; taxable income is never negative; phantom income is 0 or all of taxable income |
| `GamblingTax.CalculateGamblingTax` | app.py:34-60 | missing-inputs error exactly when neither pair is complete; an explicit pair never fails; otherwise it fails exactly when derivation fails, with the same error; the rule follows the year |
| `GamblingTax.EngineByClosedForm` | app.py:41-58 | every amount of a successful result from the resolved winnings w and losses l, with cap l before 2026 and 0.9 * l from 2026: deduction min(w, cap), taxable income max(w - cap, 0), phantom income that amount when l >= w and 0 otherwise, and tax the marginal table on the unrounded taxable income, each rounded to cents |
| `GamblingTax.ExplicitPairTakesPrecedence` | app.py:35-39 | with winnings and losses given, profit and ROI do not affect the result |
| `GamblingTax.DeductionBounded` | app.py:41-48 | the deduction is at most the winnings, at most the losses before 2026 and at most 90% of losses from 2026, and equals one of those caps; taxable income is exactly winnings less the deduction and never negative |
| `GamblingTax.TaxableIncomeByRule` | app.py:41-48 | taxable income is max(winnings - losses, 0) before 2026 and max(winnings - 0.9 * losses, 0) from 2026 |
| `GamblingTax.PhantomIncomeCases` | app.py:45-50 | phantom income is 0 or all of taxable income; it is non-zero exactly when losses >= winnings and taxable income is positive; before 2026 such a bettor has no taxable income, phantom income or tax; from 2026 it is at most a tenth of losses |
| `GamblingTax.RuleChangeNeverLowersTax` | app.py:41-49 | for the same winnings and non-negative losses, the 2026 rule gives at least the taxable income and tax of the earlier rule |
| `GamblingTax.ResultInvariants` | app.py:41-60 | the rounded result keeps the deduction bounds, non-negative taxable income and tax, all-or-nothing phantom income only with losses >= winnings, and all six amounts in whole cents |
| `GamblingTax.ScenarioLossBeforeRuleChange` | app.py:34-60 | 2025, winnings 200000, losses 210000: deduction 200000, no taxable income, no tax |
| `GamblingTax.ScenarioLossAfterRuleChange` | app.py:34-60 | 2026, the same bettor: deduction 189000, taxable and phantom income 11000, tax 1100 |
| `GamblingTax.ScenarioNoLosses` | app.py:34-60 | 2026, winnings 100000 and no losses: taxable income 100000, no phantom income, tax 17400 |
| `GamblingTax.ScenarioProfitAndRoi` | app.py:34-60 | 2026, profit -5000 at ROI -5%: winnings 95000, losses 100000, taxable and phantom income 5000, tax 500 |

## Left out

- The Flask route `index` (app.py:62-344) is not modelled. It covers HTML rendering, form parsing, the `float`/`int` conversions, and dividing the entered ROI percentage by 100. The core receives the ROI as a ratio.
- The second computation of `max_deductible` in the route (app.py:235) is display code and is not modelled. The engine's own deduction is the one modelled.
- Server start-up (app.py:346-348) is not modelled.
- The near-duplicate entry points under `Beautiful Bill Calculator/` are not part of this model.
- IEEE binary floating point is not modelled. Amounts are exact reals. `round(x, 2)` rounds the exact value with ties to even, while Python rounds the binary value; for example Python gives 2.67 for `round(2.675, 2)` where the model gives 2.68.
- `float('inf')`, the top bracket's upper bound, is the `Unbounded` limit.
- The source does not check the sign of explicitly given winnings and losses, and neither does the model. Lemmas that need non-negative amounts say so in their hypotheses.
- GamblingTax.ResultInvariants: states the 90%-of-losses bound only on the unrounded assessment (`DeductionBounded`), because rounding 0.9 × losses separately from the deduction can move it by a cent.
- GamblingTax.DeriveRoundTrip: excludes winnings equal to losses, because their ROI is 0 and the source rejects it.
