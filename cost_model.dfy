/** The straight-line stages of the ROI engine: the current-state and future-state cost
    models, the savings and ROI figures, and the derived KPIs. */
module CostModel {
  import opened Numeric
  import opened Types

  /** Productive hours of one full-time employee per year (40 hours a week, 50 weeks). */
  const HoursPerFte: real := 2000.0

  /** Process inputs in the ranges the input form is meant to supply. The engine itself
      does not require them. */
  predicate InputsInRange(inputs: ProcessInputs) {
    && inputs.volumePerMonth >= 0.0
    && inputs.timePerTransactionMinutes >= 0.0
    && 0.0 <= inputs.errorRatePercent <= 100.0
    && inputs.fteHourlyCost >= 0.0
    && inputs.reworkTimeMinutes >= 0.0
  }

  /** Automation costs in the ranges the input form is meant to supply. */
  predicate CostsInRange(costs: AutomationCosts) {
    && costs.implementationCost >= 0.0
    && costs.annualLicenseCost >= 0.0
    && costs.annualMaintenanceCost >= 0.0
    && 0.0 <= costs.estimatedAutomationPercentage <= 100.0
  }

  function AnnualVolume(inputs: ProcessInputs): real {
    inputs.volumePerMonth * 12.0
  }

  /** Reference definition: the handling hours of one manual transaction. */
  function HandlingHoursPerTransaction(inputs: ProcessInputs): real {
    inputs.timePerTransactionMinutes / 60.0
  }

  /** Reference definition: the expected rework hours of one manual transaction, its
      chance of an error times the rework time. */
  function ReworkHoursPerTransaction(inputs: ProcessInputs): real {
    (inputs.errorRatePercent / 100.0) * inputs.reworkTimeMinutes / 60.0
  }

  /** Reference definition: the human hours one manual transaction costs on average,
      its handling time plus its expected share of rework. */
  function HoursPerTransaction(inputs: ProcessInputs): real {
    HandlingHoursPerTransaction(inputs) + ReworkHoursPerTransaction(inputs)
  }

  /** The fraction of the volume left to people after automation. */
  function ManualShare(costs: AutomationCosts): real {
    1.0 - costs.estimatedAutomationPercentage / 100.0
  }

  /** A product of two non-negative factors is non-negative. */
  lemma NonNegativeProduct(x: real, y: real)
    ensures x >= 0.0 && y >= 0.0 ==> x * y >= 0.0
  {
  }

  /** `part / whole * 100`, or zero when the whole is not positive. */
  function PercentOf(part: real, whole: real): (e: real)
    ensures whole > 0.0 ==> e * whole == 100.0 * part
    ensures whole <= 0.0 ==> e == 0.0
  {
    if whole > 0.0 then (part / whole) * 100.0 else 0.0
  }

  /** An annual cost spread over the annual volume, or zero without volume. */
  function PerTransaction(cost: real, annualVolume: real): (c: real)
    ensures annualVolume > 0.0 ==> c * annualVolume == cost
    ensures annualVolume <= 0.0 ==> c == 0.0
  {
    if annualVolume > 0.0 then cost / annualVolume else 0.0
  }

  /** The success rate: the error-free share of the automated percentage. */
  function SuccessRate(errorRatePercent: real, automationPercentage: real): (r: real)
    ensures 0.0 <= errorRatePercent <= 100.0 && automationPercentage >= 0.0 ==>
      0.0 <= r <= automationPercentage
  {
    NonNegativeProduct(1.0 - (errorRatePercent / 100.0), automationPercentage);
    NonNegativeProduct(errorRatePercent / 100.0, automationPercentage);
    (1.0 - (errorRatePercent / 100.0)) * automationPercentage
  }

  /** Stage 1: the process as it runs today. */
  datatype CurrentState = CurrentState(
    annualVolume: real,
    baseHours: real,
    errorTransactions: real,
    reworkHours: real,
    totalHoursAnnually: real,
    annualCost: real,
    errorCostAnnual: real)

  /** Today's handling and rework hours are the annual volume times the hours per
      transaction of each; today's cost is all of today's hours at the hourly rate and the
      error cost is the rework part of it, which with in-range inputs lies between zero
      and that cost. No volume means no hours and no cost. */
  function CurrentStateOf(inputs: ProcessInputs): (c: CurrentState)
    ensures c.annualVolume == AnnualVolume(inputs)
    ensures c.baseHours == c.annualVolume * HandlingHoursPerTransaction(inputs)
    ensures c.reworkHours == c.annualVolume * ReworkHoursPerTransaction(inputs)
    ensures c.totalHoursAnnually == c.annualVolume * HoursPerTransaction(inputs)
    ensures c.annualCost == c.totalHoursAnnually * inputs.fteHourlyCost
    ensures c.annualCost == c.baseHours * inputs.fteHourlyCost + c.errorCostAnnual
    ensures c.errorCostAnnual == c.reworkHours * inputs.fteHourlyCost
    ensures inputs.volumePerMonth == 0.0 ==>
      c.totalHoursAnnually == 0.0 && c.annualCost == 0.0 && c.errorCostAnnual == 0.0
    ensures InputsInRange(inputs) ==> 0.0 <= c.errorCostAnnual <= c.annualCost
  {
    var annualVolume := AnnualVolume(inputs);
    var baseHours := (annualVolume * inputs.timePerTransactionMinutes) / 60.0;
    var errorTransactions := annualVolume * (inputs.errorRatePercent / 100.0);
    var reworkHours := (errorTransactions * inputs.reworkTimeMinutes) / 60.0;
    var totalHoursAnnually := baseHours + reworkHours;
    NonNegativeProduct(annualVolume, inputs.timePerTransactionMinutes);
    NonNegativeProduct(annualVolume, inputs.errorRatePercent / 100.0);
    NonNegativeProduct(errorTransactions, inputs.reworkTimeMinutes);
    NonNegativeProduct(baseHours, inputs.fteHourlyCost);
    NonNegativeProduct(reworkHours, inputs.fteHourlyCost);
    CurrentState(
      annualVolume, baseHours, errorTransactions, reworkHours, totalHoursAnnually,
      totalHoursAnnually * inputs.fteHourlyCost,
      reworkHours * inputs.fteHourlyCost)
  }

  /** Stage 2: the process once automated. */
  datatype FutureState = FutureState(
    automatedVolume: real,
    manualVolume: real,
    manualHours: real,
    errorTransactions: real,
    reworkHours: real,
    totalHumanHours: real,
    humanCost: real,
    annualTotalCost: real)

  /** The volume splits into an automated and a manual share; only the manual share keeps
      its handling time and rework, so future hours (and future rework) are today's scaled
      by the manual share. The recurring cost is the human cost plus license and
      maintenance and never the implementation cost. */
  function FutureStateOf(inputs: ProcessInputs, costs: AutomationCosts): (f: FutureState)
    ensures f.automatedVolume == AnnualVolume(inputs) * (costs.estimatedAutomationPercentage / 100.0)
    ensures f.manualVolume == ManualShare(costs) * AnnualVolume(inputs)
    ensures f.automatedVolume + f.manualVolume == AnnualVolume(inputs)
    ensures f.totalHumanHours == f.manualVolume * HoursPerTransaction(inputs)
    ensures f.totalHumanHours == ManualShare(costs) * CurrentStateOf(inputs).totalHoursAnnually
    ensures f.reworkHours == ManualShare(costs) * CurrentStateOf(inputs).reworkHours
    ensures f.humanCost == f.totalHumanHours * inputs.fteHourlyCost
    ensures f.annualTotalCost == f.humanCost + costs.annualLicenseCost + costs.annualMaintenanceCost
    ensures costs.estimatedAutomationPercentage == 100.0 ==>
      f.totalHumanHours == 0.0
      && f.annualTotalCost == costs.annualLicenseCost + costs.annualMaintenanceCost
    ensures costs.estimatedAutomationPercentage == 0.0 ==>
      f.totalHumanHours == CurrentStateOf(inputs).totalHoursAnnually
      && f.annualTotalCost
         == CurrentStateOf(inputs).annualCost + costs.annualLicenseCost + costs.annualMaintenanceCost
    ensures inputs.volumePerMonth == 0.0 ==>
      f.totalHumanHours == 0.0
      && f.annualTotalCost == costs.annualLicenseCost + costs.annualMaintenanceCost
  {
    var annualVolume := AnnualVolume(inputs);
    var automatedVolume := annualVolume * (costs.estimatedAutomationPercentage / 100.0);
    var manualVolume := annualVolume - automatedVolume;
    var manualHours := (manualVolume * inputs.timePerTransactionMinutes) / 60.0;
    var errorTransactions := manualVolume * (inputs.errorRatePercent / 100.0);
    var reworkHours := (errorTransactions * inputs.reworkTimeMinutes) / 60.0;
    var totalHumanHours := manualHours + reworkHours;
    var humanCost := totalHumanHours * inputs.fteHourlyCost;
    FutureState(
      automatedVolume, manualVolume, manualHours, errorTransactions, reworkHours,
      totalHumanHours, humanCost,
      humanCost + costs.annualLicenseCost + costs.annualMaintenanceCost)
  }

  /** Stage 3: savings and return on investment. */
  datatype Savings = Savings(
    grossSavingsAnnual: real,
    netSavingsYear1: real,
    totalInvestmentYear1: real,
    roiYear1: Ratio,
    netSavingsYear3: real)

  /** Year-1 ROI is year-1 net savings as a percentage of the year-1 outlay
      (implementation plus recurring cost), undefined exactly when that outlay is zero;
      with a positive outlay it is positive exactly when year-1 net savings are. Each
      further year adds the gross savings once more. */
  function SavingsOf(currentAnnualCost: real, futureAnnualTotalCost: real, implementationCost: real)
    : (s: Savings)
    ensures s.grossSavingsAnnual == currentAnnualCost - futureAnnualTotalCost
    ensures s.netSavingsYear1 == s.grossSavingsAnnual - implementationCost
    ensures s.netSavingsYear3 == s.netSavingsYear1 + 2.0 * s.grossSavingsAnnual
    ensures s.totalInvestmentYear1 == implementationCost + futureAnnualTotalCost
    ensures s.roiYear1.Defined? <==> implementationCost + futureAnnualTotalCost != 0.0
    ensures s.roiYear1.Defined? ==>
      s.roiYear1.value * s.totalInvestmentYear1 == 100.0 * s.netSavingsYear1
    ensures s.totalInvestmentYear1 > 0.0 ==>
      (s.roiYear1.value > 0.0 <==> s.netSavingsYear1 > 0.0)
  {
    var grossSavingsAnnual := currentAnnualCost - futureAnnualTotalCost;
    var netSavingsYear1 := grossSavingsAnnual - implementationCost;
    var totalInvestmentYear1 := implementationCost + futureAnnualTotalCost;
    var roiYear1 := Divide(currentAnnualCost - totalInvestmentYear1, totalInvestmentYear1).Times(100.0);
    Savings(
      grossSavingsAnnual, netSavingsYear1, totalInvestmentYear1, roiYear1,
      (grossSavingsAnnual * 3.0) - implementationCost)
  }

  /** Stage 5: the derived KPIs. */
  datatype Kpis = Kpis(
    hoursSavedAnnually: real,
    fteCapacityGained: real,
    efficiencyGainPercent: real,
    costPerTransactionCurrent: real,
    costPerTransactionFuture: real,
    errorCostAvoided: real,
    processSuccessRate: real)

  /** KPIs from today's and the future cost model. The efficiency gain is the percentage
      of today's hours that is saved, or zero when today's hours are not positive; unit
      costs spread the annual costs over the annual volume, or are zero without volume.
      With in-range inputs the success rate lies between zero and the automation
      percentage. */
  function KpisOf(inputs: ProcessInputs, costs: AutomationCosts, current: CurrentState, future: FutureState)
    : (k: Kpis)
    ensures k.hoursSavedAnnually + future.totalHumanHours == current.totalHoursAnnually
    ensures k.fteCapacityGained * HoursPerFte == k.hoursSavedAnnually
    ensures current.totalHoursAnnually > 0.0 ==>
      k.efficiencyGainPercent * current.totalHoursAnnually == 100.0 * k.hoursSavedAnnually
    ensures current.totalHoursAnnually <= 0.0 ==> k.efficiencyGainPercent == 0.0
    ensures current.annualVolume > 0.0 ==>
      k.costPerTransactionCurrent * current.annualVolume == current.annualCost
      && k.costPerTransactionFuture * current.annualVolume == future.annualTotalCost
    ensures current.annualVolume <= 0.0 ==>
      k.costPerTransactionCurrent == 0.0 && k.costPerTransactionFuture == 0.0
    ensures k.errorCostAvoided + future.reworkHours * inputs.fteHourlyCost == current.errorCostAnnual
    ensures InputsInRange(inputs) && CostsInRange(costs) ==>
      0.0 <= k.processSuccessRate <= costs.estimatedAutomationPercentage
  {
    var hoursSavedAnnually := current.totalHoursAnnually - future.totalHumanHours;
    Kpis(
      hoursSavedAnnually,
      hoursSavedAnnually / HoursPerFte,
      PercentOf(current.totalHoursAnnually - future.totalHumanHours, current.totalHoursAnnually),
      PerTransaction(current.annualCost, current.annualVolume),
      PerTransaction(future.annualTotalCost, current.annualVolume),
      current.errorCostAnnual - (future.reworkHours * inputs.fteHourlyCost),
      SuccessRate(inputs.errorRatePercent, costs.estimatedAutomationPercentage))
  }

  /** What is left of x once all but a share s of it is removed is s of x. */
  lemma RemainingShare(x: real, left: real, s: real)
    requires left == (1.0 - s) * x
    ensures x - left == s * x
  {
  }

  /** A percentage e of t equal to s of t, for positive t, is 100 s. */
  lemma PercentageOfShare(e: real, t: real, h: real, s: real)
    requires t > 0.0 && e * t == 100.0 * h && h == s * t
    ensures e == 100.0 * s
  {
    assert (e - 100.0 * s) * t == 0.0;
  }

  /** Given a future cost model that keeps the manual share of today's hours and rework,
      automation saves exactly its share of today's hours and of today's error cost, so
      the efficiency gain equals the automation percentage whenever today's hours are
      positive. */
  lemma AutomatedShareSaved(inputs: ProcessInputs, costs: AutomationCosts, current: CurrentState, future: FutureState)
    requires future.totalHumanHours == ManualShare(costs) * current.totalHoursAnnually
    requires future.reworkHours == ManualShare(costs) * current.reworkHours
    requires current.errorCostAnnual == current.reworkHours * inputs.fteHourlyCost
    ensures var k, s := KpisOf(inputs, costs, current, future), costs.estimatedAutomationPercentage / 100.0;
      && k.hoursSavedAnnually == s * current.totalHoursAnnually
      && k.errorCostAvoided == s * current.errorCostAnnual
      && (current.totalHoursAnnually > 0.0 ==> k.efficiencyGainPercent == costs.estimatedAutomationPercentage)
  {
    var k, s := KpisOf(inputs, costs, current, future), costs.estimatedAutomationPercentage / 100.0;
    RemainingShare(current.totalHoursAnnually, future.totalHumanHours, s);
    var c := inputs.fteHourlyCost;
    assert future.reworkHours * c == (1.0 - s) * (current.reworkHours * c);
    RemainingShare(current.errorCostAnnual, future.reworkHours * c, s);
    if current.totalHoursAnnually > 0.0 {
      PercentageOfShare(k.efficiencyGainPercent, current.totalHoursAnnually, k.hoursSavedAnnually, s);
    }
  }

  /** The KPIs the engine computes from the two cost models. */
  function EngineKpis(inputs: ProcessInputs, costs: AutomationCosts): Kpis {
    KpisOf(inputs, costs, CurrentStateOf(inputs), FutureStateOf(inputs, costs))
  }

  /** The engine's KPIs: automation saves its share of today's hours and error cost, and
      the efficiency gain is the automation percentage whenever today's hours are
      positive. */
  lemma EngineKpisAreAutomationShare(inputs: ProcessInputs, costs: AutomationCosts)
    ensures var k, s := EngineKpis(inputs, costs), costs.estimatedAutomationPercentage / 100.0;
      && k.hoursSavedAnnually == s * CurrentStateOf(inputs).totalHoursAnnually
      && k.fteCapacityGained * HoursPerFte == s * CurrentStateOf(inputs).totalHoursAnnually
      && k.errorCostAvoided == s * CurrentStateOf(inputs).errorCostAnnual
      && (CurrentStateOf(inputs).totalHoursAnnually > 0.0 ==>
            k.efficiencyGainPercent == costs.estimatedAutomationPercentage)
  {
    AutomatedShareSaved(inputs, costs, CurrentStateOf(inputs), FutureStateOf(inputs, costs));
  }

  /** Full automation saves all of today's hours and error cost. */
  lemma FullAutomationKpis(inputs: ProcessInputs, costs: AutomationCosts)
    requires costs.estimatedAutomationPercentage == 100.0
    ensures EngineKpis(inputs, costs).hoursSavedAnnually == CurrentStateOf(inputs).totalHoursAnnually
    ensures EngineKpis(inputs, costs).errorCostAvoided == CurrentStateOf(inputs).errorCostAnnual
  {
    EngineKpisAreAutomationShare(inputs, costs);
  }

  /** No automation saves nothing. */
  lemma NoAutomationKpis(inputs: ProcessInputs, costs: AutomationCosts)
    requires costs.estimatedAutomationPercentage == 0.0
    ensures EngineKpis(inputs, costs).hoursSavedAnnually == 0.0
    ensures EngineKpis(inputs, costs).fteCapacityGained == 0.0
    ensures EngineKpis(inputs, costs).efficiencyGainPercent == 0.0
    ensures EngineKpis(inputs, costs).errorCostAvoided == 0.0
  {
    EngineKpisAreAutomationShare(inputs, costs);
  }

  /** Without volume every KPI but the success rate is zero: the zero-guards fire. */
  lemma ZeroVolumeKpis(inputs: ProcessInputs, costs: AutomationCosts)
    requires inputs.volumePerMonth == 0.0
    ensures EngineKpis(inputs, costs).hoursSavedAnnually == 0.0
    ensures EngineKpis(inputs, costs).fteCapacityGained == 0.0
    ensures EngineKpis(inputs, costs).efficiencyGainPercent == 0.0
    ensures EngineKpis(inputs, costs).costPerTransactionCurrent == 0.0
    ensures EngineKpis(inputs, costs).costPerTransactionFuture == 0.0
    ensures EngineKpis(inputs, costs).errorCostAvoided == 0.0
  {
    EngineKpisAreAutomationShare(inputs, costs);
  }
}
