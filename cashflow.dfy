/** Stage 4 of the ROI engine: the 24-month cash-flow simulation, which records the
    cumulative cash flow month by month and locates the break-even month and the
    payback period. */
module Cashflow {
  import opened Numeric
  import opened Types

  /** Number of months simulated. */
  const Horizon: nat := 24

  /** One month's share of the annual gross savings. */
  function MonthlySavings(grossSavingsAnnual: real): (s: real)
    ensures 12.0 * s == grossSavingsAnnual
  {
    grossSavingsAnnual / 12.0
  }

  /** Reference definition of the unrounded cumulative cash flow after month m: the
      implementation cost is paid up front and one month's savings accrue per month. */
  function Cumulative(implementationCost: real, monthly: real, m: nat): real {
    -implementationCost + m as real * monthly
  }

  /** Each month adds one month's savings to the running total. */
  lemma CumulativeStep(implementationCost: real, monthly: real, m: nat)
    ensures Cumulative(implementationCost, monthly, m + 1)
            == Cumulative(implementationCost, monthly, m) + monthly
    ensures Cumulative(implementationCost, monthly, 0) == -implementationCost
  {
  }

  /** The recorded series for months 1..n: entry i is month i + 1, with its cumulative
      cash flow and the monthly savings each rounded to cents. */
  function Series(implementationCost: real, monthly: real, n: nat): (s: seq<MonthlyDataPoint>)
    ensures |s| == n
    ensures forall i :: 0 <= i < n ==>
      && s[i].month == i + 1
      && s[i].cumulativeCashflow == RoundToCents(Cumulative(implementationCost, monthly, i + 1))
      && s[i].savings == RoundToCents(monthly)
  {
    if n == 0 then []
    else
      Series(implementationCost, monthly, n - 1)
      + [MonthlyDataPoint(n, RoundToCents(Cumulative(implementationCost, monthly, n)), RoundToCents(monthly))]
  }

  /** The break-even month among months 1..n: the first month whose cumulative cash flow
      is non-negative, or 0 when there is none. */
  function BreakevenWithin(implementationCost: real, monthly: real, n: nat): (b: nat)
    ensures b <= n
    ensures b == 0 <==> forall k: nat :: 1 <= k <= n ==> Cumulative(implementationCost, monthly, k) < 0.0
    ensures b != 0 ==>
      && Cumulative(implementationCost, monthly, b) >= 0.0
      && forall k: nat :: 1 <= k < b ==> Cumulative(implementationCost, monthly, k) < 0.0
  {
    if n == 0 then 0
    else
      var earlier := BreakevenWithin(implementationCost, monthly, n - 1);
      if earlier == 0 && Cumulative(implementationCost, monthly, n) >= 0.0 then n else earlier
  }

  /** Once a break-even month is found it stays the break-even month of every longer
      horizon. */
  lemma BreakevenSetOnce(implementationCost: real, monthly: real, n: nat, n': nat)
    requires n <= n'
    requires BreakevenWithin(implementationCost, monthly, n) != 0
    ensures BreakevenWithin(implementationCost, monthly, n') == BreakevenWithin(implementationCost, monthly, n)
  {
    var b := BreakevenWithin(implementationCost, monthly, n);
    var b' := BreakevenWithin(implementationCost, monthly, n');
    assert Cumulative(implementationCost, monthly, b) >= 0.0;
    if b' != 0 {
      assert Cumulative(implementationCost, monthly, b') >= 0.0;
    }
  }

  /** The payback period interpolated within break-even month m:
      (m - 1) + |cumulative before month m| / monthly savings. */
  function InterpolatedPayback(implementationCost: real, monthly: real, m: nat): (p: Ratio)
    ensures p.Defined? <==> monthly != 0.0
    ensures p.Defined? ==>
      (p.value - (m as real - 1.0)) * monthly == Abs(Cumulative(implementationCost, monthly, m) - monthly)
  {
    var prevCumulative := Cumulative(implementationCost, monthly, m) - monthly;
    Divide(Abs(prevCumulative), monthly).Plus(m as real - 1.0)
  }

  /** The payback period: interpolated within the break-even month when there is one,
      otherwise implementation cost over monthly savings. */
  function PaybackPeriod(implementationCost: real, monthly: real): (p: Ratio)
    ensures p.Defined? <==> monthly != 0.0
    ensures var b := BreakevenWithin(implementationCost, monthly, Horizon);
      && (b == 0 && p.Defined? ==> p.value * monthly == implementationCost)
      && (b != 0 && p.Defined? ==>
            p.value == b as real - 1.0 + Abs(Cumulative(implementationCost, monthly, b) - monthly) / monthly)
  {
    var b := BreakevenWithin(implementationCost, monthly, Horizon);
    if b == 0 then Divide(implementationCost, monthly)
    else InterpolatedPayback(implementationCost, monthly, b)
  }

  /** Consecutive recorded cumulative cash flows differ from the recorded monthly savings
      by at most three half-cents: each of the three figures is rounded on its own. */
  lemma SeriesStepWithinRounding(implementationCost: real, monthly: real, n: nat, i: nat)
    requires 1 <= i < n
    ensures var s := Series(implementationCost, monthly, n);
      -0.015 <= s[i].cumulativeCashflow - s[i - 1].cumulativeCashflow - s[i].savings <= 0.015
  {
    CumulativeStep(implementationCost, monthly, i);
  }

  /** The recorded series need not add up: with no implementation cost and savings of
      0.004 a month, both months record savings of 0.00 while the cumulative cash flow
      goes from 0.00 to 0.01. */
  lemma SeriesStepCanMissSavings()
    ensures var s := Series(0.0, 0.004, 2);
      && s[0].savings == 0.0 && s[1].savings == 0.0
      && s[0].cumulativeCashflow == 0.0 && s[1].cumulativeCashflow == 0.01
      && s[1].cumulativeCashflow != s[0].cumulativeCashflow + s[1].savings
  {
    assert (0.004 * 100.0 + 0.5).Floor == 0;
    assert (0.008 * 100.0 + 0.5).Floor == 1;
    assert Cumulative(0.0, 0.004, 1) == 0.004;
    assert Cumulative(0.0, 0.004, 2) == 0.008;
  }

  /** The simulation loop. Its outputs are the series, the break-even month and the
      payback period defined above. */
  method SimulateCashflow(grossSavingsAnnual: real, implementationCost: real)
    returns (monthlyData: seq<MonthlyDataPoint>, breakevenMonth: nat, paybackPeriodMonths: Ratio)
    ensures monthlyData == Series(implementationCost, MonthlySavings(grossSavingsAnnual), Horizon)
    ensures breakevenMonth == BreakevenWithin(implementationCost, MonthlySavings(grossSavingsAnnual), Horizon)
    ensures paybackPeriodMonths == PaybackPeriod(implementationCost, MonthlySavings(grossSavingsAnnual))
  {
    var monthlyGrossSavings := grossSavingsAnnual / 12.0;
    paybackPeriodMonths := Defined(0.0);
    var cumulative := -implementationCost;
    breakevenMonth := 0;
    monthlyData := [];
    for m := 1 to Horizon + 1
      invariant cumulative == Cumulative(implementationCost, monthlyGrossSavings, m - 1)
      invariant monthlyData == Series(implementationCost, monthlyGrossSavings, m - 1)
      invariant breakevenMonth == BreakevenWithin(implementationCost, monthlyGrossSavings, m - 1)
      invariant breakevenMonth != 0 ==>
        paybackPeriodMonths == InterpolatedPayback(implementationCost, monthlyGrossSavings, breakevenMonth)
    {
      cumulative := cumulative + monthlyGrossSavings;
      CumulativeStep(implementationCost, monthlyGrossSavings, m - 1);
      if cumulative >= 0.0 && breakevenMonth == 0 {
        breakevenMonth := m;
        var prevCumulative := cumulative - monthlyGrossSavings;
        paybackPeriodMonths := Divide(Abs(prevCumulative), monthlyGrossSavings).Plus(m as real - 1.0);
      }
      monthlyData := monthlyData + [MonthlyDataPoint(m, RoundToCents(cumulative), RoundToCents(monthlyGrossSavings))];
    }
    if breakevenMonth == 0 {
      paybackPeriodMonths := Divide(implementationCost, monthlyGrossSavings);
    }
  }

  /** Before a break-even month m the cumulative cash flow is not positive: at month 0 it
      is minus the implementation cost, later it is still negative. */
  lemma NotPositiveBeforeBreakeven(implementationCost: real, monthly: real)
    requires implementationCost >= 0.0
    requires BreakevenWithin(implementationCost, monthly, Horizon) != 0
    ensures var b := BreakevenWithin(implementationCost, monthly, Horizon);
      Cumulative(implementationCost, monthly, b - 1) <= 0.0 <= Cumulative(implementationCost, monthly, b)
  {
    var b := BreakevenWithin(implementationCost, monthly, Horizon);
    assert b > 1 ==> Cumulative(implementationCost, monthly, b - 1) < 0.0;
  }

  /** Interpolating within a month m that starts at or below zero and ends at or above it
      gives implementation cost over monthly savings, which lies within month m. */
  lemma InterpolationIsCostOverSavings(implementationCost: real, monthly: real, m: nat)
    requires monthly > 0.0 && m >= 1
    requires Cumulative(implementationCost, monthly, m - 1) <= 0.0 <= Cumulative(implementationCost, monthly, m)
    ensures InterpolatedPayback(implementationCost, monthly, m) == Defined(implementationCost / monthly)
    ensures m as real - 1.0 <= implementationCost / monthly <= m as real
  {
    var k := m as real - 1.0;
    assert (m - 1) as real == k;
    CumulativeStep(implementationCost, monthly, m - 1);
    var prev := Cumulative(implementationCost, monthly, m) - monthly;
    assert prev == -implementationCost + k * monthly <= 0.0;
    assert Abs(prev) == implementationCost - k * monthly;
    DivideShift(implementationCost, k, monthly);
    assert m as real * monthly == k * monthly + monthly;
    DivideBetween(implementationCost, monthly, k, m as real);
  }

  /** With a non-negative implementation cost and positive monthly savings, both ways of
      computing the payback period give implementation cost over monthly savings; with
      negative savings there is no break-even month and the fallback gives that quotient,
      a payback period that is not positive (negative when the implementation cost is). */
  lemma PaybackIsCostOverSavings(implementationCost: real, monthly: real)
    requires implementationCost >= 0.0 && monthly != 0.0
    ensures PaybackPeriod(implementationCost, monthly) == Defined(implementationCost / monthly)
  {
    var b := BreakevenWithin(implementationCost, monthly, Horizon);
    if monthly < 0.0 {
      NoBreakevenWithoutSavings(implementationCost, monthly, Horizon);
    } else if b != 0 {
      NotPositiveBeforeBreakeven(implementationCost, monthly);
      InterpolationIsCostOverSavings(implementationCost, monthly, b);
    }
  }

  /** A break-even payback lies within the break-even month. */
  lemma PaybackWithinBreakevenMonth(implementationCost: real, monthly: real)
    requires implementationCost >= 0.0 && monthly > 0.0
    requires BreakevenWithin(implementationCost, monthly, Horizon) != 0
    ensures var b := BreakevenWithin(implementationCost, monthly, Horizon);
      && PaybackPeriod(implementationCost, monthly).Defined?
      && b as real - 1.0 <= PaybackPeriod(implementationCost, monthly).value <= b as real
  {
    var b := BreakevenWithin(implementationCost, monthly, Horizon);
    NotPositiveBeforeBreakeven(implementationCost, monthly);
    InterpolationIsCostOverSavings(implementationCost, monthly, b);
  }

  /** Without break-even inside the horizon, positive savings take longer than the horizon
      to pay back. */
  lemma PaybackBeyondHorizon(implementationCost: real, monthly: real)
    requires monthly > 0.0
    requires BreakevenWithin(implementationCost, monthly, Horizon) == 0
    ensures PaybackPeriod(implementationCost, monthly).Defined?
    ensures PaybackPeriod(implementationCost, monthly).value > Horizon as real
  {
    assert Cumulative(implementationCost, monthly, Horizon) < 0.0;
    DivideAbove(implementationCost, monthly, Horizon as real);
  }

  /** A non-negative implementation cost is never recovered without positive savings,
      unless cost and savings are both zero. */
  lemma NoBreakevenWithoutSavings(implementationCost: real, monthly: real, n: nat)
    requires implementationCost >= 0.0 && monthly <= 0.0
    requires implementationCost > 0.0 || monthly < 0.0
    ensures BreakevenWithin(implementationCost, monthly, n) == 0
  {
    forall k: nat | 1 <= k <= n
      ensures Cumulative(implementationCost, monthly, k) < 0.0
    {
      assert k as real * monthly <= 0.0;
      assert monthly < 0.0 ==> k as real * monthly < 0.0;
    }
  }

  /** Without its hypothesis on the implementation cost that fails: with monthly savings of
      1, implementation costs of -10 and -5 both break even in month 1, and the larger cost
      pays back sooner. */
  lemma PaybackNotMonotoneForNegativeCost()
    ensures BreakevenWithin(-10.0, 1.0, Horizon) == 1 && BreakevenWithin(-5.0, 1.0, Horizon) == 1
    ensures PaybackPeriod(-10.0, 1.0) == Defined(10.0)
    ensures PaybackPeriod(-5.0, 1.0) == Defined(5.0)
  {
    assert Cumulative(-10.0, 1.0, 1) >= 0.0;
    assert Cumulative(-5.0, 1.0, 1) >= 0.0;
  }

  /** A larger implementation cost never pays back sooner. */
  lemma PaybackMonotone(implementationCost: real, implementationCost': real, monthly: real)
    requires 0.0 <= implementationCost <= implementationCost' && monthly > 0.0
    ensures PaybackPeriod(implementationCost, monthly).Defined?
    ensures PaybackPeriod(implementationCost', monthly).Defined?
    ensures PaybackPeriod(implementationCost, monthly).value <= PaybackPeriod(implementationCost', monthly).value
  {
    PaybackIsCostOverSavings(implementationCost, monthly);
    PaybackIsCostOverSavings(implementationCost', monthly);
    DivideMonotone(implementationCost, implementationCost', monthly);
  }
}
