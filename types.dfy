/** The records the ROI engine consumes and produces. Every amount is a real number;
    the engine validates nothing, so negative or out-of-range values are allowed. */
module Types {
  import opened Numeric

  /** The manual process as it runs today. */
  datatype ProcessInputs = ProcessInputs(
    processName: string,              // a label only; no figure depends on it
    volumePerMonth: real,             // transactions per month
    timePerTransactionMinutes: real,
    errorRatePercent: real,           // share of transactions that need rework, 0..100
    fteHourlyCost: real,              // labour cost per hour
    reworkTimeMinutes: real)          // minutes spent on one reworked transaction

  /** What automating the process costs and how much of it is automated. */
  datatype AutomationCosts = AutomationCosts(
    implementationCost: real,             // one-time
    annualLicenseCost: real,              // recurring
    annualMaintenanceCost: real,          // recurring
    estimatedAutomationPercentage: real)  // share of the volume automated, 0..100

  /** One month of the simulated cash flow, both amounts rounded to cents. */
  datatype MonthlyDataPoint = MonthlyDataPoint(month: nat, cumulativeCashflow: real, savings: real)

  /** Everything the engine reports. The two quotients the engine leaves unguarded,
      `roiYear1` and `paybackPeriodMonths`, are `Ratio`s. */
  datatype CalculationResults = CalculationResults(
    currentAnnualCost: real,
    futureAnnualCost: real,
    futureAnnualRecurringCost: real,
    totalOneTimeInvestment: real,
    netSavingsYear1: real,
    netSavingsYear3: real,
    roiYear1: Ratio,
    paybackPeriodMonths: Ratio,
    hoursSavedAnnually: real,
    breakevenMonth: nat,
    fteCapacityGained: real,
    efficiencyGainPercent: real,
    costPerTransactionCurrent: real,
    costPerTransactionFuture: real,
    errorCostAvoided: real,
    processSuccessRate: real,
    monthlyData: seq<MonthlyDataPoint>)
}
