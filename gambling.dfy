/** `derive_winnings_losses` and `calculate_gambling_tax` (app.py:25-60):
    recovering winnings and losses from profit and ROI, the year-dependent
    deduction rule, taxable and phantom income, and the tax owed. */
module GamblingTax {
  import opened Results
  import opened Cents
  import opened Brackets

  /** The three ways a query is rejected, each with the source's message. */
  datatype TaxError = RoiIsZero | InvalidProfitRoi | MissingInputs {
    function Message(): string {
      match this
      case RoiIsZero => "ROI cannot be zero."
      case InvalidProfitRoi => "Invalid combination of profit and ROI."
      case MissingInputs => "Provide either (winnings & losses) or (profit & ROI)."
    }
  }

  /** The deduction rule in force for a tax year. */
  datatype Rule = PostRuleChange | PreRuleChange {
    function Label(): string {
      match this
      case PostRuleChange => "Post-2026 (90% deduction limit)"
      case PreRuleChange => "Pre-2026 (full deduction)"
    }
  }

  /** From this year on only 90% of losses are deductible. */
  const RuleChangeYear: int := 2026
  const DeductibleShare: real := 0.90

  /** Floating-point slack allowed below zero for derived amounts. */
  const Tolerance: real := 0.000001

  datatype Amounts = Amounts(winnings: real, losses: real)

  datatype TaxResult = TaxResult(
    winnings: real,
    losses: real,
    maxDeductible: real,
    taxableIncome: real,
    phantomIncome: real,
    taxOwed: real,
    rule: Rule)

  function Min(a: real, b: real): real { if b < a then b else a }
  function Max(a: real, b: real): real { if b > a then b else a }

  /** Winnings and losses from a profit and an ROI ratio (profit over losses),
      rounded to cents; fails on a zero ROI or a negative result. */
  function DeriveWinningsLosses(profit: real, roi: real): (r: Result<Amounts, TaxError>)
    ensures r == Failure(RoiIsZero) <==> roi == 0.0
    ensures r.Success? ==> r.value.winnings >= 0.0 && r.value.losses >= 0.0
    ensures r.Success? ==> IsCents(r.value.winnings) && IsCents(r.value.losses)
    ensures r.Success? ==> profit - 0.01 <= r.value.winnings - r.value.losses <= profit + 0.01
  {
    if roi == 0.0 then Failure(RoiIsZero)
    else
      var losses := profit / roi;
      var winnings := profit + losses;
      if winnings < -Tolerance || losses < -Tolerance then Failure(InvalidProfitRoi)
      else
        RoundCentsNonNegative(winnings);
        RoundCentsNonNegative(losses);
        Success(Amounts(RoundCents(winnings), RoundCents(losses)))
  }

  /** Before rounding, derivation returns the one pair whose difference is the
      profit and whose losses times ROI is the profit. */
  lemma DeriveSolvesProfitAndRoi(profit: real, roi: real, w: real, l: real)
    requires roi != 0.0
    requires w - l == profit && l * roi == profit
    ensures DeriveWinningsLosses(profit, roi) ==
      if w < -Tolerance || l < -Tolerance then Failure(InvalidProfitRoi)
      else Success(Amounts(RoundCents(w), RoundCents(l)))
  {
    assert profit / roi == l;
  }

  /** The derived losses times ROI is the profit, up to half a cent of losses. */
  lemma DerivedLossesMatchRoi(profit: real, roi: real)
    requires DeriveWinningsLosses(profit, roi).Success?
    ensures var l := DeriveWinningsLosses(profit, roi).value.losses;
      (if roi > 0.0 then roi else -roi) * -0.005 <= l * roi - profit <= (if roi > 0.0 then roi else -roi) * 0.005
  {
    var exact := profit / roi;
    var l := DeriveWinningsLosses(profit, roi).value.losses;
    assert l == RoundCents(exact);
    RoundingErrorTimesRoi(exact, l, roi, profit);
  }

  lemma RoundingErrorTimesRoi(exact: real, l: real, roi: real, profit: real)
    requires roi != 0.0 && exact == profit / roi
    requires exact - 0.005 <= l <= exact + 0.005
    ensures (if roi > 0.0 then roi else -roi) * -0.005 <= l * roi - profit <= (if roi > 0.0 then roi else -roi) * 0.005
  {
    var d := l - exact;
    assert exact * roi == profit;
    assert l * roi - profit == d * roi;
    if roi > 0.0 {
      MulBounds(d, roi);
    } else {
      MulBounds(d, -roi);
    }
  }

  lemma MulBounds(d: real, k: real)
    requires -0.005 <= d <= 0.005 && k > 0.0
    ensures -0.005 * k <= d * k <= 0.005 * k
  {
  }

  /** Starting from whole-cent winnings and losses (losses positive, a
      non-zero profit), their profit and ROI derive the same pair back. */
  lemma DeriveRoundTrip(w: real, l: real)
    requires IsCents(w) && IsCents(l)
    requires w >= 0.0 && l > 0.0 && w != l
    ensures DeriveWinningsLosses(w - l, (w - l) / l) == Success(Amounts(w, l))
  {
    var roi := (w - l) / l;
    assert roi != 0.0;
    assert l * roi == w - l;
    DeriveSolvesProfitAndRoi(w - l, roi, w, l);
    RoundCentsOfCents(w);
    RoundCentsOfCents(l);
  }

  /** A zero profit with any non-zero ROI means nothing was won or lost. */
  lemma DeriveZeroProfit(roi: real)
    requires roi != 0.0
    ensures DeriveWinningsLosses(0.0, roi) == Success(Amounts(0.0, 0.0))
  {
    DeriveSolvesProfitAndRoi(0.0, roi, 0.0, 0.0);
    RoundCentsOfCents(0.0);
  }

  /** Every real gambling outcome is accepted: a gain with a positive ROI, or
      a loss with an ROI between -100% and 0. */
  lemma DeriveAcceptsGenuineOutcomes(profit: real, roi: real)
    requires (profit > 0.0 && roi > 0.0) || (profit < 0.0 && -1.0 <= roi < 0.0)
    ensures DeriveWinningsLosses(profit, roi).Success?
  {
    var l := profit / roi;
    assert l * roi == profit;
    assert l > 0.0;
    if profit < 0.0 {
      // winnings = l * (roi + 1) with l > 0 and roi + 1 >= 0
      assert profit + l == l * (roi + 1.0);
      MulNonNegative(l, roi + 1.0);
    }
  }

  lemma MulNonNegative(a: real, b: real)
    requires a >= 0.0 && b >= 0.0
    ensures a * b >= 0.0
  {
  }

  /** The winnings and losses a query is assessed on: an explicit pair wins,
      otherwise profit and ROI are converted, otherwise the query is rejected. */
  function ResolveAmounts(winnings: Option<real>, losses: Option<real>,
                          profit: Option<real>, roi: Option<real>): (r: Result<Amounts, TaxError>)
    ensures winnings.Some? && losses.Some? ==> r == Success(Amounts(winnings.value, losses.value))
    ensures !(winnings.Some? && losses.Some?) && profit.Some? && roi.Some? ==>
      r == DeriveWinningsLosses(profit.value, roi.value)
    ensures r == Failure(MissingInputs) <==>
      !(winnings.Some? && losses.Some?) && !(profit.Some? && roi.Some?)
  {
    if winnings.Some? && losses.Some? then Success(Amounts(winnings.value, losses.value))
    else if profit.Some? && roi.Some? then DeriveWinningsLosses(profit.value, roi.value)
    else Failure(MissingInputs)
  }

  /** The exact (unrounded) deduction, taxable income and phantom income. */
  datatype Assessment = Assessment(maxDeductible: real, taxableIncome: real, phantomIncome: real, rule: Rule)

  /** The deduction rule for the year applied to winnings and losses: the
      deduction never exceeds the winnings, taxable income is never negative,
      and phantom income is either none or all of the taxable income. */
  function Assess(year: int, winnings: real, losses: real): (a: Assessment)
    ensures a.rule == (if year >= RuleChangeYear then PostRuleChange else PreRuleChange)
    ensures a.maxDeductible <= winnings
    ensures a.taxableIncome >= 0.0
    ensures a.phantomIncome == 0.0 || a.phantomIncome == a.taxableIncome
  {
    var (maxDeductible, rule) :=
      if year >= RuleChangeYear then (Min(winnings, losses * DeductibleShare), PostRuleChange)
      else (Min(winnings, losses), PreRuleChange);
    var taxableIncome := Max(winnings - maxDeductible, 0.0);
    var phantomIncome := if losses >= winnings && taxableIncome > 0.0 then taxableIncome else 0.0;
    Assessment(maxDeductible, taxableIncome, phantomIncome, rule)
  }

  /** The whole calculation for one query, every amount rounded to cents. */
  function CalculateGamblingTax(year: int, winnings: Option<real>, losses: Option<real>,
                                profit: Option<real>, roi: Option<real>): (r: Result<TaxResult, TaxError>)
    ensures r == Failure(MissingInputs) <==>
      !(winnings.Some? && losses.Some?) && !(profit.Some? && roi.Some?)
    ensures winnings.Some? && losses.Some? ==> r.Success?
    ensures (winnings.None? || losses.None?) && profit.Some? && roi.Some? ==>
      var derived := DeriveWinningsLosses(profit.value, roi.value);
      r.Failure? == derived.Failure? && (derived.Failure? ==> r.error == derived.error)
    ensures r.Success? ==> r.value.rule == (if year >= RuleChangeYear then PostRuleChange else PreRuleChange)
  {
    var amounts :- ResolveAmounts(winnings, losses, profit, roi);
    var a := Assess(year, amounts.winnings, amounts.losses);
    Success(TaxResult(
      RoundCents(amounts.winnings),
      RoundCents(amounts.losses),
      RoundCents(a.maxDeductible),
      RoundCents(a.taxableIncome),
      RoundCents(a.phantomIncome),
      TaxWithBrackets(a.taxableIncome),
      a.rule))
  }

  /** The deduction never exceeds winnings, nor the losses (before the rule
      change) or 90% of them (from 2026); taxable income is winnings less the
      deduction, never negative. */
  lemma DeductionBounded(year: int, winnings: real, losses: real)
    ensures var a := Assess(year, winnings, losses);
      && a.maxDeductible <= winnings
      && (year < RuleChangeYear ==> a.maxDeductible <= losses)
      && (year >= RuleChangeYear ==> a.maxDeductible <= DeductibleShare * losses)
      && (winnings >= 0.0 && losses >= 0.0 ==> a.maxDeductible >= 0.0)
      && a.taxableIncome >= 0.0
      && a.taxableIncome == winnings - a.maxDeductible
      && (a.maxDeductible == winnings
          || a.maxDeductible == (if year >= RuleChangeYear then DeductibleShare * losses else losses))
  {
  }

  /** Before 2026 taxable income is the net gain; from 2026 it is winnings
      less 90% of losses; both floored at zero. */
  lemma TaxableIncomeByRule(year: int, winnings: real, losses: real)
    ensures year < RuleChangeYear ==> Assess(year, winnings, losses).taxableIncome == Max(winnings - losses, 0.0)
    ensures year >= RuleChangeYear ==> Assess(year, winnings, losses).taxableIncome == Max(winnings - DeductibleShare * losses, 0.0)
  {
  }

  /** Phantom income is all of the taxable income or none of it, and only
      arises when losses meet or exceed winnings: never before 2026, and from
      2026 at most the non-deductible tenth of losses. */
  lemma PhantomIncomeCases(year: int, winnings: real, losses: real)
    ensures var a := Assess(year, winnings, losses);
      && (a.phantomIncome == 0.0 || a.phantomIncome == a.taxableIncome)
      && (a.phantomIncome != 0.0 <==> losses >= winnings && a.taxableIncome > 0.0)
      && (year < RuleChangeYear && losses >= winnings ==>
            a.taxableIncome == 0.0 && a.phantomIncome == 0.0 && TaxWithBrackets(a.taxableIncome) == 0.0)
      && (year >= RuleChangeYear && losses >= winnings ==> a.phantomIncome == Max(winnings - DeductibleShare * losses, 0.0))
      && (year >= RuleChangeYear && losses >= winnings && winnings >= 0.0 ==> a.phantomIncome <= (1.0 - DeductibleShare) * losses)
  {
    TaxWithBracketsExamples();
  }

  /** For the same non-negative losses, the 2026 rule never lowers taxable
      income or tax. */
  lemma RuleChangeNeverLowersTax(before: int, after: int, winnings: real, losses: real)
    requires before < RuleChangeYear <= after
    requires losses >= 0.0
    ensures Assess(before, winnings, losses).taxableIncome <= Assess(after, winnings, losses).taxableIncome
    ensures TaxWithBrackets(Assess(before, winnings, losses).taxableIncome)
            <= TaxWithBrackets(Assess(after, winnings, losses).taxableIncome)
  {
    TaxableIncomeByRule(before, winnings, losses);
    TaxableIncomeByRule(after, winnings, losses);
    TaxWithBracketsMonotone(Assess(before, winnings, losses).taxableIncome,
                            Assess(after, winnings, losses).taxableIncome);
  }

  /** The rounded result keeps the engine's invariants: the deduction bounds,
      non-negative taxable income and tax, phantom income all-or-nothing and
      only with losses at least winnings, and whole-cent amounts. */
  lemma ResultInvariants(year: int, winnings: Option<real>, losses: Option<real>,
                         profit: Option<real>, roi: Option<real>)
    requires CalculateGamblingTax(year, winnings, losses, profit, roi).Success?
    ensures var t := CalculateGamblingTax(year, winnings, losses, profit, roi).value;
      && t.maxDeductible <= t.winnings
      && (year < RuleChangeYear ==> t.maxDeductible <= t.losses)
      && t.taxableIncome >= 0.0
      && (t.phantomIncome == 0.0 || t.phantomIncome == t.taxableIncome)
      && (t.phantomIncome != 0.0 ==> t.losses >= t.winnings)
      && t.taxOwed >= 0.0
      && IsCents(t.taxOwed) && IsCents(t.taxableIncome) && IsCents(t.maxDeductible)
      && IsCents(t.winnings) && IsCents(t.losses) && IsCents(t.phantomIncome)
  {
    var amounts := ResolveAmounts(winnings, losses, profit, roi).value;
    var w, l := amounts.winnings, amounts.losses;
    var a := Assess(year, w, l);
    DeductionBounded(year, w, l);
    PhantomIncomeCases(year, w, l);
    RoundCentsMonotone(a.maxDeductible, w);
    if year < RuleChangeYear {
      RoundCentsMonotone(a.maxDeductible, l);
    }
    RoundCentsMonotone(0.0, a.taxableIncome);
    RoundCentsOfCents(0.0);
    if a.phantomIncome != 0.0 {
      RoundCentsMonotone(w, l);
    }
    TaxWithBracketsMonotone(a.taxableIncome, a.taxableIncome);
  }

  /** Every amount of a successful result, in terms of the resolved winnings
      and losses: the deduction is the smaller of winnings and the year's cap
      on losses, taxable income is winnings less that cap floored at zero,
      phantom income is all of it exactly when losses meet or exceed winnings,
      and the tax is the marginal table applied to the unrounded taxable income. */
  lemma EngineByClosedForm(year: int, winnings: Option<real>, losses: Option<real>,
                           profit: Option<real>, roi: Option<real>)
    requires CalculateGamblingTax(year, winnings, losses, profit, roi).Success?
    ensures var t := CalculateGamblingTax(year, winnings, losses, profit, roi).value;
      var am := ResolveAmounts(winnings, losses, profit, roi).value;
      var cap := if year >= RuleChangeYear then DeductibleShare * am.losses else am.losses;
      var ti := Max(am.winnings - cap, 0.0);
      && t.winnings == RoundCents(am.winnings)
      && t.losses == RoundCents(am.losses)
      && t.maxDeductible == RoundCents(Min(am.winnings, cap))
      && t.taxableIncome == RoundCents(ti)
      && t.phantomIncome == RoundCents(if am.losses >= am.winnings then ti else 0.0)
      && t.taxOwed == RoundCents(MarginalTable(ti))
  {
    var am := ResolveAmounts(winnings, losses, profit, roi).value;
    TaxableIncomeByRule(year, am.winnings, am.losses);
    ScheduleMatchesTable(Assess(year, am.winnings, am.losses).taxableIncome);
  }

  /** With an explicit winnings/losses pair, profit and ROI play no part. */
  lemma ExplicitPairTakesPrecedence(year: int, winnings: real, losses: real,
                                    profit1: Option<real>, roi1: Option<real>,
                                    profit2: Option<real>, roi2: Option<real>)
    ensures CalculateGamblingTax(year, Some(winnings), Some(losses), profit1, roi1)
         == CalculateGamblingTax(year, Some(winnings), Some(losses), profit2, roi2)
  {
  }

  /** A 2025 bettor who lost overall owes nothing. */
  lemma ScenarioLossBeforeRuleChange()
    ensures CalculateGamblingTax(2025, Some(200000.0), Some(210000.0), None, None)
         == Success(TaxResult(200000.0, 210000.0, 200000.0, 0.0, 0.0, 0.0, PreRuleChange))
  {
    RoundCentsOfCents(200000.0);
    RoundCentsOfCents(210000.0);
    RoundCentsOfCents(0.0);
    TaxWithBracketsExamples();
  }

  /** The same bettor in 2026 is taxed on 11000 of phantom income. */
  lemma ScenarioLossAfterRuleChange()
    ensures CalculateGamblingTax(2026, Some(200000.0), Some(210000.0), None, None)
         == Success(TaxResult(200000.0, 210000.0, 189000.0, 11000.0, 11000.0, 1100.0, PostRuleChange))
  {
    RoundCentsOfCents(200000.0);
    RoundCentsOfCents(210000.0);
    RoundCentsOfCents(189000.0);
    RoundCentsOfCents(11000.0);
    TaxWithBracketsExamples();
  }

  /** Pure winnings in 2026: no deduction, no phantom income. */
  lemma ScenarioNoLosses()
    ensures CalculateGamblingTax(2026, Some(100000.0), Some(0.0), None, None)
         == Success(TaxResult(100000.0, 0.0, 0.0, 100000.0, 0.0, 17400.0, PostRuleChange))
  {
    RoundCentsOfCents(100000.0);
    RoundCentsOfCents(0.0);
    TaxWithBracketsExamples();
  }

  /** A 5000 loss at -5% ROI means 95000 won against 100000 lost. */
  lemma ScenarioProfitAndRoi()
    ensures CalculateGamblingTax(2026, None, None, Some(-5000.0), Some(-0.05))
         == Success(TaxResult(95000.0, 100000.0, 90000.0, 5000.0, 5000.0, 500.0, PostRuleChange))
  {
    DeriveSolvesProfitAndRoi(-5000.0, -0.05, 95000.0, 100000.0);
    RoundCentsOfCents(95000.0);
    RoundCentsOfCents(100000.0);
    RoundCentsOfCents(90000.0);
    RoundCentsOfCents(5000.0);
    RoundCentsOfCents(500.0);
    ScheduleMatchesTable(5000.0);
  }
}
