/** The whole ROI engine: the results record calculateROI returns, the method that
    builds it stage by stage, and the properties the engine promises of it. */
module Calculations {
  import opened Numeric
  import opened Types
  import opened CostModel
  import opened Cashflow

  /** The results for the given inputs: the five stages composed. The one-time investment
      is exactly the implementation cost, the recurring cost never includes it, and the
      annualized future cost spreads it over five years. Year-1 and year-3 net savings
      subtract it once from one and three years of gross savings. The series has one
      entry per month of the horizon, numbered from 1. */
  function Results(inputs: ProcessInputs, costs: AutomationCosts): (r: CalculationResults)
    ensures r.totalOneTimeInvestment == costs.implementationCost
    ensures r.futureAnnualRecurringCost
            == FutureStateOf(inputs, costs).humanCost + costs.annualLicenseCost + costs.annualMaintenanceCost
    ensures r.futureAnnualCost == r.futureAnnualRecurringCost + costs.implementationCost / 5.0
    ensures r.netSavingsYear1 == r.currentAnnualCost - r.futureAnnualRecurringCost - costs.implementationCost
    ensures r.netSavingsYear3
            == 3.0 * (r.currentAnnualCost - r.futureAnnualRecurringCost) - costs.implementationCost
    ensures |r.monthlyData| == Horizon
    ensures forall i :: 0 <= i < Horizon ==> r.monthlyData[i].month == i + 1
  {
    var current := CurrentStateOf(inputs);
    var future := FutureStateOf(inputs, costs);
    var savings := SavingsOf(current.annualCost, future.annualTotalCost, costs.implementationCost);
    var monthly := MonthlySavings(savings.grossSavingsAnnual);
    var kpis := EngineKpis(inputs, costs);
    CalculationResults(
      currentAnnualCost := current.annualCost,
      futureAnnualCost := future.annualTotalCost + (costs.implementationCost / 5.0),
      futureAnnualRecurringCost := future.annualTotalCost,
      totalOneTimeInvestment := costs.implementationCost,
      netSavingsYear1 := savings.netSavingsYear1,
      netSavingsYear3 := savings.netSavingsYear3,
      roiYear1 := savings.roiYear1,
      paybackPeriodMonths := PaybackPeriod(costs.implementationCost, monthly),
      hoursSavedAnnually := kpis.hoursSavedAnnually,
      breakevenMonth := BreakevenWithin(costs.implementationCost, monthly, Horizon),
      fteCapacityGained := kpis.fteCapacityGained,
      efficiencyGainPercent := kpis.efficiencyGainPercent,
      costPerTransactionCurrent := kpis.costPerTransactionCurrent,
      costPerTransactionFuture := kpis.costPerTransactionFuture,
      errorCostAvoided := kpis.errorCostAvoided,
      processSuccessRate := kpis.processSuccessRate,
      monthlyData := Series(costs.implementationCost, monthly, Horizon))
  }

  /** calculateROI: the straight-line stages, then the cash-flow loop. */
  method CalculateRoi(inputs: ProcessInputs, costs: AutomationCosts) returns (r: CalculationResults)
    ensures r == Results(inputs, costs)
  {
    var current := CurrentStateOf(inputs);
    var future := FutureStateOf(inputs, costs);
    var savings := SavingsOf(current.annualCost, future.annualTotalCost, costs.implementationCost);
    var monthlyData, breakevenMonth, paybackPeriodMonths :=
      SimulateCashflow(savings.grossSavingsAnnual, costs.implementationCost);
    var kpis := EngineKpis(inputs, costs);
    r := CalculationResults(
      currentAnnualCost := current.annualCost,
      futureAnnualCost := future.annualTotalCost + (costs.implementationCost / 5.0),
      futureAnnualRecurringCost := future.annualTotalCost,
      totalOneTimeInvestment := costs.implementationCost,
      netSavingsYear1 := savings.netSavingsYear1,
      netSavingsYear3 := savings.netSavingsYear3,
      roiYear1 := savings.roiYear1,
      paybackPeriodMonths := paybackPeriodMonths,
      hoursSavedAnnually := kpis.hoursSavedAnnually,
      breakevenMonth := breakevenMonth,
      fteCapacityGained := kpis.fteCapacityGained,
      efficiencyGainPercent := kpis.efficiencyGainPercent,
      costPerTransactionCurrent := kpis.costPerTransactionCurrent,
      costPerTransactionFuture := kpis.costPerTransactionFuture,
      errorCostAvoided := kpis.errorCostAvoided,
      processSuccessRate := kpis.processSuccessRate,
      monthlyData := monthlyData);
  }

  /** Where each figure of the results comes from, stage by stage. */
  lemma ResultsFromStages(inputs: ProcessInputs, costs: AutomationCosts)
    ensures var r, current, future := Results(inputs, costs), CurrentStateOf(inputs), FutureStateOf(inputs, costs);
      var savings := SavingsOf(current.annualCost, future.annualTotalCost, costs.implementationCost);
      var kpis := EngineKpis(inputs, costs);
      var monthly := MonthlySavings(savings.grossSavingsAnnual);
      && r.currentAnnualCost == current.annualCost
      && r.futureAnnualRecurringCost == future.annualTotalCost
      && r.netSavingsYear1 == savings.netSavingsYear1
      && r.netSavingsYear3 == savings.netSavingsYear3
      && r.roiYear1 == savings.roiYear1
      && r.paybackPeriodMonths == PaybackPeriod(costs.implementationCost, monthly)
      && r.breakevenMonth == BreakevenWithin(costs.implementationCost, monthly, Horizon)
      && r.hoursSavedAnnually == kpis.hoursSavedAnnually
      && r.fteCapacityGained == kpis.fteCapacityGained
      && r.efficiencyGainPercent == kpis.efficiencyGainPercent
      && r.costPerTransactionCurrent == kpis.costPerTransactionCurrent
      && r.costPerTransactionFuture == kpis.costPerTransactionFuture
      && r.errorCostAvoided == kpis.errorCostAvoided
      && r.processSuccessRate == kpis.processSuccessRate
      && r.monthlyData == Series(costs.implementationCost, monthly, Horizon)
  {
  }

  /** The same inputs with another implementation cost. */
  function WithImplementationCost(costs: AutomationCosts, implementationCost: real): AutomationCosts {
    costs.(implementationCost := implementationCost)
  }

  /** The future cost model does not depend on the implementation cost. */
  lemma FutureStateIgnoresImplementation(inputs: ProcessInputs, costs: AutomationCosts, implementationCost: real)
    ensures FutureStateOf(inputs, WithImplementationCost(costs, implementationCost)) == FutureStateOf(inputs, costs)
  {
    var costs' := WithImplementationCost(costs, implementationCost);
    assert costs'.estimatedAutomationPercentage == costs.estimatedAutomationPercentage;
    assert costs'.annualLicenseCost == costs.annualLicenseCost;
    assert costs'.annualMaintenanceCost == costs.annualMaintenanceCost;
  }

  /** Nor do the KPIs. */
  lemma KpisIgnoreImplementation(
    inputs: ProcessInputs, costs: AutomationCosts, implementationCost: real, current: CurrentState, future: FutureState)
    ensures KpisOf(inputs, WithImplementationCost(costs, implementationCost), current, future)
            == KpisOf(inputs, costs, current, future)
  {
    assert WithImplementationCost(costs, implementationCost).estimatedAutomationPercentage
        == costs.estimatedAutomationPercentage;
  }

  /** The implementation cost affects neither today's cost, nor the recurring future cost,
      nor any hour or unit-cost figure. */
  lemma RecurringCostExcludesImplementation(inputs: ProcessInputs, costs: AutomationCosts, implementationCost: real)
    ensures var r, r' := Results(inputs, costs), Results(inputs, WithImplementationCost(costs, implementationCost));
      && r'.currentAnnualCost == r.currentAnnualCost
      && r'.futureAnnualRecurringCost == r.futureAnnualRecurringCost
      && r'.hoursSavedAnnually == r.hoursSavedAnnually
      && r'.efficiencyGainPercent == r.efficiencyGainPercent
      && r'.costPerTransactionFuture == r.costPerTransactionFuture
  {
    var costs' := WithImplementationCost(costs, implementationCost);
    ResultsFromStages(inputs, costs);
    ResultsFromStages(inputs, costs');
    FutureStateIgnoresImplementation(inputs, costs, implementationCost);
    KpisIgnoreImplementation(inputs, costs, implementationCost, CurrentStateOf(inputs), FutureStateOf(inputs, costs));
  }

  /** A larger implementation cost, everything else fixed, lowers year-1 and year-3 net
      savings by exactly the difference. */
  lemma NetSavingsMonotone(inputs: ProcessInputs, costs: AutomationCosts, implementationCost: real)
    requires costs.implementationCost <= implementationCost
    ensures var r, r' := Results(inputs, costs), Results(inputs, WithImplementationCost(costs, implementationCost));
      && r'.netSavingsYear1 == r.netSavingsYear1 - (implementationCost - costs.implementationCost)
      && r'.netSavingsYear3 == r.netSavingsYear3 - (implementationCost - costs.implementationCost)
      && r'.netSavingsYear1 <= r.netSavingsYear1
      && r'.netSavingsYear3 <= r.netSavingsYear3
  {
    RecurringCostExcludesImplementation(inputs, costs, implementationCost);
  }

  /** With a non-negative implementation cost and positive gross savings, the payback
      period, whether interpolated or not, is 12 times the implementation cost over the
      annual gross savings. */
  lemma PaybackClosedForm(inputs: ProcessInputs, costs: AutomationCosts)
    requires costs.implementationCost >= 0.0
    requires Results(inputs, costs).currentAnnualCost > Results(inputs, costs).futureAnnualRecurringCost
    ensures var r := Results(inputs, costs);
      r.paybackPeriodMonths
      == Defined(costs.implementationCost / ((r.currentAnnualCost - r.futureAnnualRecurringCost) / 12.0))
  {
    var r := Results(inputs, costs);
    PaybackIsCostOverSavings(
      costs.implementationCost, MonthlySavings(r.currentAnnualCost - r.futureAnnualRecurringCost));
  }

  /** A larger implementation cost, everything else fixed, never pays back sooner, and a
      break-even payback lies within its break-even month. */
  lemma PaybackMonotoneInImplementation(inputs: ProcessInputs, costs: AutomationCosts, implementationCost: real)
    requires 0.0 <= costs.implementationCost <= implementationCost
    requires Results(inputs, costs).currentAnnualCost > Results(inputs, costs).futureAnnualRecurringCost
    ensures var r, r' := Results(inputs, costs), Results(inputs, WithImplementationCost(costs, implementationCost));
      && r.paybackPeriodMonths.Defined? && r'.paybackPeriodMonths.Defined?
      && r.paybackPeriodMonths.value <= r'.paybackPeriodMonths.value
      && (r.breakevenMonth != 0 ==>
            r.breakevenMonth as real - 1.0 <= r.paybackPeriodMonths.value <= r.breakevenMonth as real)
  {
    var costs' := WithImplementationCost(costs, implementationCost);
    var r, r' := Results(inputs, costs), Results(inputs, costs');
    ResultsFromStages(inputs, costs);
    ResultsFromStages(inputs, costs');
    RecurringCostExcludesImplementation(inputs, costs, implementationCost);
    var monthly := MonthlySavings(r.currentAnnualCost - r.futureAnnualRecurringCost);
    assert r.paybackPeriodMonths == PaybackPeriod(costs.implementationCost, monthly);
    assert r'.paybackPeriodMonths == PaybackPeriod(implementationCost, monthly);
    PaybackMonotone(costs.implementationCost, implementationCost, monthly);
    if r.breakevenMonth != 0 {
      PaybackWithinBreakevenMonth(costs.implementationCost, monthly);
    }
  }

  /** The defaults the application starts with. */
  const DefaultInputs: ProcessInputs := ProcessInputs("", 5000.0, 5.0, 5.0, 25.0, 10.0)
  const DefaultCosts: AutomationCosts := AutomationCosts(15000.0, 5000.0, 2000.0, 90.0)

  /** The cost models of the defaults: 60000 transactions a year take 5000 hours of
      handling and 500 hours of rework; automating 90% leaves 500 and 50. */
  lemma DefaultCostModels()
    ensures CurrentStateOf(DefaultInputs).totalHoursAnnually == 5500.0
    ensures CurrentStateOf(DefaultInputs).annualCost == 137500.0
    ensures CurrentStateOf(DefaultInputs).errorCostAnnual == 12500.0
    ensures FutureStateOf(DefaultInputs, DefaultCosts).totalHumanHours == 550.0
    ensures FutureStateOf(DefaultInputs, DefaultCosts).annualTotalCost == 20750.0
  {
  }

  /** The KPIs of the defaults. */
  lemma DefaultKpis()
    ensures EngineKpis(DefaultInputs, DefaultCosts).hoursSavedAnnually == 4950.0
    ensures EngineKpis(DefaultInputs, DefaultCosts).fteCapacityGained == 4950.0 / 2000.0
    ensures EngineKpis(DefaultInputs, DefaultCosts).efficiencyGainPercent == 90.0
    ensures EngineKpis(DefaultInputs, DefaultCosts).errorCostAvoided == 11250.0
    ensures EngineKpis(DefaultInputs, DefaultCosts).processSuccessRate == 85.5
  {
    DefaultCostModels();
    EngineKpisAreAutomationShare(DefaultInputs, DefaultCosts);
  }

  /** The cash flow of the defaults: month 1 is still negative, month 2 is not, and the
      payback period is 15000 over 116750 / 12. */
  lemma DefaultCashflow()
    ensures BreakevenWithin(15000.0, MonthlySavings(116750.0), Horizon) == 2
    ensures PaybackPeriod(15000.0, MonthlySavings(116750.0)) == Defined(720.0 / 467.0)
  {
    var monthly := MonthlySavings(116750.0);
    assert Cumulative(15000.0, monthly, 1) < 0.0;
    assert Cumulative(15000.0, monthly, 2) >= 0.0;
    PaybackIsCostOverSavings(15000.0, monthly);
  }

  /** The figures the defaults produce. */
  lemma DefaultScenario()
    ensures var r := Results(DefaultInputs, DefaultCosts);
      && r.currentAnnualCost == 137500.0
      && r.futureAnnualRecurringCost == 20750.0
      && r.futureAnnualCost == 23750.0
      && r.netSavingsYear1 == 101750.0
      && r.netSavingsYear3 == 335250.0
      && r.roiYear1 == Defined(3700.0 / 13.0)
      && r.hoursSavedAnnually == 4950.0
      && r.fteCapacityGained == 4950.0 / 2000.0
      && r.efficiencyGainPercent == 90.0
      && r.errorCostAvoided == 11250.0
      && r.processSuccessRate == 85.5
      && r.breakevenMonth == 2
      && r.paybackPeriodMonths == Defined(720.0 / 467.0)
  {
    DefaultCostModels();
    DefaultKpis();
    DefaultCashflow();
    ResultsFromStages(DefaultInputs, DefaultCosts);
  }
}
