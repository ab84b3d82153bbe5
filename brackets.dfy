/** The marginal-bracket tax of `calculate_tax_with_brackets` (app.py:6-23). */
module Brackets {
  import opened Cents

  /** A bracket's upper bound; the top bracket has none. */
  datatype Limit = UpTo(cap: real) | Unbounded

  datatype Bracket = Bracket(lower: real, upper: Limit, rate: real)

  /** The fixed schedule of seven contiguous brackets, starting at zero,
      from 10% up to 37%. */
  function Schedule(): (s: seq<Bracket>)
    ensures WellFormed(s)
    ensures s[0].lower == 0.0 && s[0].rate == 0.10 && Last(s).rate == 0.37
  {
    var s := [ Bracket(0.0, UpTo(11000.0), 0.10),
               Bracket(11000.0, UpTo(44725.0), 0.12),
               Bracket(44725.0, UpTo(95375.0), 0.22),
               Bracket(95375.0, UpTo(182100.0), 0.24),
               Bracket(182100.0, UpTo(231250.0), 0.32),
               Bracket(231250.0, UpTo(578125.0), 0.35),
               Bracket(578125.0, Unbounded, 0.37) ];
    assert WellFormed(s[6..]);
    assert WellFormed(s[5..]);
    assert WellFormed(s[4..]);
    assert WellFormed(s[3..]);
    assert WellFormed(s[2..]);
    assert WellFormed(s[1..]);
    s
  }

  /** `min(income, upper)`. */
  function Clip(income: real, upper: Limit): real {
    match upper
    case UpTo(cap) => if income < cap then income else cap
    case Unbounded => income
  }

  /** The part of `income` a bracket taxes, once income exceeds its lower bound. */
  function TaxedAmount(income: real, b: Bracket): real {
    Clip(income, b.upper) - b.lower
  }

  /** The tax accumulated over `bs` in order, up to the first bracket whose
      lower bound is not below `income`. */
  function BracketSum(income: real, bs: seq<Bracket>): real {
    if bs == [] || income <= bs[0].lower then 0.0
    else TaxedAmount(income, bs[0]) * bs[0].rate + BracketSum(income, bs[1..])
  }

  /** The income taxed over the same brackets, without the rates. */
  function TaxedTotal(income: real, bs: seq<Bracket>): real {
    if bs == [] || income <= bs[0].lower then 0.0
    else TaxedAmount(income, bs[0]) + TaxedTotal(income, bs[1..])
  }

  /** A schedule of contiguous brackets: each ends where the next begins, only
      the last is unbounded, and rates are non-negative and never decrease. */
  ghost predicate WellFormed(bs: seq<Bracket>)
    decreases |bs|
  {
    && |bs| > 0
    && bs[0].rate >= 0.0
    && if |bs| == 1 then bs[0].upper == Unbounded
       else
         && bs[0].upper == UpTo(bs[1].lower)
         && bs[0].lower < bs[1].lower
         && bs[0].rate <= bs[1].rate
         && WellFormed(bs[1..])
  }

  function Last(bs: seq<Bracket>): Bracket
    requires |bs| > 0
  {
    bs[|bs| - 1]
  }

  /** The tax computed by `calculate_tax_with_brackets`, rounded to cents:
      whole cents, never negative, and nothing on income of zero or less. */
  function TaxWithBrackets(taxableIncome: real): (r: real)
    ensures IsCents(r) && r >= 0.0
    ensures taxableIncome <= 0.0 ==> r == 0.0
  {
    var exact := BracketSum(taxableIncome, Schedule());
    BracketSumNonNegative(taxableIncome, Schedule());
    RoundCentsNonNegative(exact);
    RoundCentsOfCents(0.0);
    RoundCents(exact)
  }

  /** The source's loop over a bracket list: a running total, left at the
      first bracket whose lower bound the income does not exceed. */
  method AccumulateBrackets(taxableIncome: real, brackets: seq<Bracket>) returns (total: real)
    ensures total == BracketSum(taxableIncome, brackets)
  {
    total := 0.0;
    var i := 0;
    while i < |brackets|
      invariant 0 <= i <= |brackets|
      invariant total + BracketSum(taxableIncome, brackets[i..]) == BracketSum(taxableIncome, brackets)
    {
      var b := brackets[i];
      BracketSumStep(taxableIncome, brackets, i);
      if taxableIncome > b.lower {
        var taxedAmount := Clip(taxableIncome, b.upper) - b.lower;
        total := total + taxedAmount * b.rate;
      } else {
        break;
      }
      i := i + 1;
    }
    assert brackets[0..] == brackets;
  }

  /** `calculate_tax_with_brackets`: the loop over the fixed schedule, rounded to cents. */
  method CalculateTaxWithBrackets(taxableIncome: real) returns (tax: real)
    ensures tax == TaxWithBrackets(taxableIncome)
  {
    var total := AccumulateBrackets(taxableIncome, Schedule());
    tax := RoundCents(total);
  }

  /** One iteration of the loop: the bracket at `i` either adds its share or ends the sum. */
  lemma BracketSumStep(income: real, bs: seq<Bracket>, i: nat)
    requires i < |bs|
    ensures income <= bs[i].lower ==> BracketSum(income, bs[i..]) == 0.0
    ensures income > bs[i].lower ==>
      BracketSum(income, bs[i..]) == (Clip(income, bs[i].upper) - bs[i].lower) * bs[i].rate + BracketSum(income, bs[i + 1..])
  {
    assert bs[i..][1..] == bs[i + 1..];
  }

  lemma MulMonotone(a: real, b: real, r: real)
    requires a <= b && r >= 0.0
    ensures a * r <= b * r
  {
  }

  /** No tax is due below the first bracket, and tax is never negative. */
  lemma {:induction false} BracketSumNonNegative(income: real, bs: seq<Bracket>)
    requires WellFormed(bs)
    ensures BracketSum(income, bs) >= 0.0
    ensures income <= bs[0].lower ==> BracketSum(income, bs) == 0.0
    decreases |bs|
  {
    if income > bs[0].lower {
      MulMonotone(0.0, TaxedAmount(income, bs[0]), bs[0].rate);
      if |bs| > 1 {
        BracketSumNonNegative(income, bs[1..]);
      }
    }
  }

  /** The amounts taxed by the visited brackets add up to exactly the income
      above the first lower bound. */
  lemma {:induction false} TaxedTotalCoversIncome(income: real, bs: seq<Bracket>)
    requires WellFormed(bs)
    ensures TaxedTotal(income, bs) == if income > bs[0].lower then income - bs[0].lower else 0.0
    decreases |bs|
  {
    if income > bs[0].lower && |bs| > 1 {
      TaxedTotalCoversIncome(income, bs[1..]);
    }
  }

  /** The tax lies between the first (lowest) and last (highest) rate applied
      to the whole taxed amount. */
  lemma {:induction false} BracketSumBetweenRates(income: real, bs: seq<Bracket>)
    requires WellFormed(bs)
    ensures bs[0].rate * TaxedTotal(income, bs) <= BracketSum(income, bs)
    ensures BracketSum(income, bs) <= Last(bs).rate * TaxedTotal(income, bs)
    decreases |bs|
  {
    if income > bs[0].lower {
      var a := TaxedAmount(income, bs[0]);
      var r := bs[0].rate;
      if |bs| > 1 {
        var rest := bs[1..];
        BracketSumBetweenRates(income, rest);
        TaxedTotalCoversIncome(income, rest);
        LastRateBounds(bs);
        var t := TaxedTotal(income, rest);
        assert a >= 0.0 && t >= 0.0;
        assert Last(rest) == Last(bs);
        BetweenRatesStep(a, r, rest[0].rate, Last(bs).rate, t, BracketSum(income, rest));
      }
    }
  }

  lemma BetweenRatesStep(a: real, r: real, r1: real, rl: real, t: real, s: real)
    requires a >= 0.0 && t >= 0.0 && r <= r1 && r <= rl
    requires r1 * t <= s <= rl * t
    ensures r * (a + t) <= a * r + s <= rl * (a + t)
  {
    MulMonotone(r, r1, t);
    MulMonotone(r, rl, a);
    var p, q := r * t, r1 * t;
    assert p <= q;
    var u, v := a * r, rl * a;
    assert u <= v;
  }

  /** In a well-formed schedule the first rate is at most the last. */
  lemma {:induction false} LastRateBounds(bs: seq<Bracket>)
    requires WellFormed(bs)
    ensures bs[0].rate <= Last(bs).rate
    decreases |bs|
  {
    if |bs| > 1 {
      LastRateBounds(bs[1..]);
    }
  }

  /** More taxable income never means less tax. */
  lemma {:induction false} BracketSumMonotone(x: real, y: real, bs: seq<Bracket>)
    requires WellFormed(bs)
    requires x <= y
    ensures BracketSum(x, bs) <= BracketSum(y, bs)
    decreases |bs|
  {
    if x <= bs[0].lower {
      BracketSumNonNegative(x, bs);
      BracketSumNonNegative(y, bs);
    } else {
      var r := bs[0].rate;
      var ax, ay := TaxedAmount(x, bs[0]), TaxedAmount(y, bs[0]);
      var sx, sy := BracketSum(x, bs[1..]), BracketSum(y, bs[1..]);
      if |bs| > 1 {
        BracketSumMonotone(x, y, bs[1..]);
      }
      AddTermMonotone(ax, ay, r, sx, sy);
    }
  }

  lemma AddTermMonotone(ax: real, ay: real, r: real, sx: real, sy: real)
    requires ax <= ay && r >= 0.0 && sx <= sy
    ensures ax * r + sx <= ay * r + sy
  {
    MulMonotone(ax, ay, r);
    var px, py := ax * r, ay * r;
    assert px <= py;
  }

  /** Reference definition of the schedule's tax: each bracket's full tax
      below the bracket holding `x`, plus that bracket's rate on the excess. */
  function MarginalTable(x: real): real {
    if x <= 0.0 then 0.0
    else if x <= 11000.0 then 0.10 * x
    else if x <= 44725.0 then 1100.0 + 0.12 * (x - 11000.0)
    else if x <= 95375.0 then 5147.0 + 0.22 * (x - 44725.0)
    else if x <= 182100.0 then 16290.0 + 0.24 * (x - 95375.0)
    else if x <= 231250.0 then 37104.0 + 0.32 * (x - 182100.0)
    else if x <= 578125.0 then 52832.0 + 0.35 * (x - 231250.0)
    else 174238.25 + 0.37 * (x - 578125.0)
  }

  /** The loop over the schedule computes exactly the marginal table. */
  lemma ScheduleMatchesTable(x: real)
    ensures BracketSum(x, Schedule()) == MarginalTable(x)
  {
    var s := Schedule();
    assert s[7..] == [];
    BracketSumStep(x, s, 6);
    BracketSumStep(x, s, 5);
    BracketSumStep(x, s, 4);
    BracketSumStep(x, s, 3);
    BracketSumStep(x, s, 2);
    BracketSumStep(x, s, 1);
    BracketSumStep(x, s, 0);
    assert s[0..] == s;
  }

  /** No income, no tax; the tax on a non-negative income is at least 10% and
      at most 37% of it, and the amounts taxed add up to the income. */
  lemma TaxBetweenLowestAndHighestRate(x: real)
    ensures x <= 0.0 ==> BracketSum(x, Schedule()) == 0.0
    ensures x >= 0.0 ==> TaxedTotal(x, Schedule()) == x
    ensures x >= 0.0 ==> 0.10 * x <= BracketSum(x, Schedule()) <= 0.37 * x
  {
    BracketSumNonNegative(x, Schedule());
    TaxedTotalCoversIncome(x, Schedule());
    BracketSumBetweenRates(x, Schedule());
  }

  /** The rounded tax never decreases as taxable income grows, and is never negative. */
  lemma TaxWithBracketsMonotone(x: real, y: real)
    requires x <= y
    ensures TaxWithBrackets(x) <= TaxWithBrackets(y)
    ensures TaxWithBrackets(x) >= 0.0
  {
    BracketSumMonotone(x, y, Schedule());
    RoundCentsMonotone(BracketSum(x, Schedule()), BracketSum(y, Schedule()));
  }

  /** Worked values: no tax on nothing, 10% of the first bracket, and the top
      rate on income beyond 578125. */
  lemma TaxWithBracketsExamples()
    ensures TaxWithBrackets(0.0) == 0.0
    ensures TaxWithBrackets(11000.0) == 1100.0
    ensures TaxWithBrackets(100000.0) == 17400.0
    ensures TaxWithBrackets(1000000.0) == 174238.25 + 0.37 * (1000000.0 - 578125.0)
  {
    ScheduleMatchesTable(0.0);
    ScheduleMatchesTable(11000.0);
    ScheduleMatchesTable(100000.0);
    ScheduleMatchesTable(1000000.0);
    RoundCentsOfCents(0.0);
    RoundCentsOfCents(1100.0);
    RoundCentsOfCents(17400.0);
    RoundCentsOfCents(330332.0);
  }

  /** No jump at any bracket boundary: between two incomes the tax grows by at
      most the top rate, and for non-negative incomes by at least the lowest
      rate, times the difference. */
  lemma TaxContinuous(x: real, y: real)
    requires x <= y
    ensures BracketSum(y, Schedule()) - BracketSum(x, Schedule()) <= 0.37 * (y - x)
    ensures x >= 0.0 ==> BracketSum(y, Schedule()) - BracketSum(x, Schedule()) >= 0.10 * (y - x)
  {
    ScheduleMatchesTable(x);
    ScheduleMatchesTable(y);
  }
}
