# ROI calculator engine: a Dafny model

This project models `calculateROI`, the engine of an automation ROI calculator. It takes
a description of a manual process (monthly volume, handling time, error rate, hourly
labour cost, rework time) and the costs of automating it (implementation, license,
maintenance, automated share). It returns today's and the future annual cost, net
savings for year 1 and year 3, year-1 ROI, a 24-month cumulative cash-flow series with
its break-even month and payback period, and a set of KPIs.

The engine runs in five stages. Each stage is a module or part of one:

- `Numeric` holds quotients that may be undefined (`Ratio`) and the two-decimal
  rounding applied to the recorded series.
- `Types` holds the input and result records.
- `CostModel` holds the current-state and future-state cost models, savings and ROI,
  and the KPIs. These are pure functions, as in the source.
- `Cashflow` holds the 24-month loop. It is a method with loop invariants, proved equal
  to the specification functions `Series`, `BreakevenWithin` and `PaybackPeriod`.
- `Calculations` holds the complete results record (`Results`), the method that builds
  it (`CalculateRoi`), and the properties relating whole results.

All amounts are `real`. The engine has three unguarded divisions: the ROI divides by the
year-1 outlay, and both payback formulas divide by the monthly savings. (The efficiency
gain and the unit costs also divide, but only after checking the divisor.) Here those
results are a `Ratio`, which is `DivisionByZero` exactly when the divisor is zero. No
precondition excludes that case. The engine validates nothing, so no operation has a
precondition on its inputs. `InputsInRange` and `CostsInRange` appear only as
hypotheses of the properties that need them.

Facts the proofs establish about the engine:

- Future hours and future rework are today's hours and rework scaled by the manual share
  `1 - p/100`. So the hours saved and the error cost avoided are exactly the automated
  share of today's figures. The efficiency gain equals the automation percentage
  whenever today's hours are positive.
- With a non-negative implementation cost and positive savings, both payback formulas
  give the same value: implementation cost over monthly savings. The interpolated one
  applies within the break-even month; the fallback one applies when there is no
  break-even month.
- The application's default inputs (App.tsx:27-41) give these figures:
  - current annual cost 137500 and recurring future cost 20750;
  - year-1 net savings 101750, year-3 net savings 335250 and ROI 3700/13 %;
  - break-even in month 2, with a payback period of 720/467 months.

## Model

| member | source | states |
|---|---|---|
| Numeric.Divide | utils/calculations.ts:41 | the quotient is undefined exactly when the divisor is zero; a defined quotient times the divisor is the numerator |
| Numeric.RoundToCents | utils/calculations.ts:65-66 | `parseFloat(x.toFixed(2))` lies within half a cent of x; below 10^21 in magnitude it is a whole number of cents, and a tie at exactly half a cent goes to the larger magnitude; from 10^21 on it is x itself |
| Numeric.RoundToCentsIdempotent | utils/calculations.ts:65-66 | rounding an already rounded value changes nothing |
| CostModel.CurrentStateOf | utils/calculations.ts:6-15 | handling hours and rework hours are each the annual volume (12 × monthly volume) times their hours per transaction (handling minutes / 60; error share × rework minutes / 60), so total hours are the volume times the hours per transaction; today's cost is the total hours at the hourly rate, the error cost is the rework hours at the hourly rate, and today's cost is handling cost plus error cost; no volume gives no hours and no cost; with in-range inputs the error cost lies between 0 and today's cost |
| CostModel.FutureStateOf | utils/calculations.ts:19-31 | the automated volume is the automation percentage of the annual volume and the manual volume is the manual share of it, the two adding up to the annual volume; future hours and rework are today's scaled by the manual share; the recurring cost is human cost plus license plus maintenance; at 100 % automation or with no volume there are no human hours and the cost is license plus maintenance; at 0 % the hours are today's |
| CostModel.SavingsOf | utils/calculations.ts:34-44 | gross, year-1 net and year-3 net savings (year 3 adds two more years of gross savings); ROI is defined exactly when the outlay is nonzero, and ROI times the outlay is 100 times the year-1 net savings; with a positive outlay ROI is positive exactly when net savings are |
| CostModel.PercentOf | utils/calculations.ts:81-83 | the efficiency percentage times today's hours is 100 times the part saved when today's hours are positive, and it is 0 otherwise |
| CostModel.PerTransaction | utils/calculations.ts:85-86 | a unit cost times the annual volume is the annual cost when there is volume, and it is 0 otherwise |
| CostModel.SuccessRate | utils/calculations.ts:89 | with an error rate in 0..100 and a non-negative automation percentage, the success rate lies between 0 and that percentage |
| CostModel.KpisOf | utils/calculations.ts:75-109 | hours saved plus future hours are today's hours; FTE capacity times 2000 is the hours saved; both zero-guards; error cost avoided plus the future rework cost is today's error cost; the bound on the success rate |
| CostModel.AutomatedShareSaved | utils/calculations.ts:75-108 | when future hours and rework keep the manual share, the hours saved and the error cost avoided are the automated share of today's, and the efficiency gain is the automation percentage |
| CostModel.EngineKpisAreAutomationShare | utils/calculations.ts:75-108 | the engine's KPIs: hours saved, FTE capacity times 2000, and error cost avoided are the automated share of today's figures; the efficiency gain is the automation percentage when today's hours are positive |
| CostModel.EngineKpis | utils/calculations.ts:75-108 | the KPIs of the engine, computed from the two cost models of the same inputs (no contract of its own; `EngineKpisAreAutomationShare` and the boundary lemmas below state what they are) |
| CostModel.FullAutomationKpis | utils/calculations.ts:75-108 | at 100 % automation all of today's hours and error cost are saved |
| CostModel.NoAutomationKpis | utils/calculations.ts:75-108 | at 0 % automation the hours saved, FTE capacity, efficiency gain and error cost avoided are 0 |
| CostModel.ZeroVolumeKpis | utils/calculations.ts:75-86 | with no volume the hours saved, FTE capacity, efficiency gain, both unit costs and the error cost avoided are 0 |
| Cashflow.Cumulative | utils/calculations.ts:49-55 | reference closed form of the running total after month m: minus the implementation cost plus m months of savings (no contract of its own; `CumulativeStep` and the loop invariant of `SimulateCashflow` tie the running total to it) |
| Cashflow.MonthlySavings | utils/calculations.ts:47 | twelve months of savings are the annual gross savings |
| Cashflow.CumulativeStep | utils/calculations.ts:49-55 | the cumulative cash flow starts at minus the implementation cost and grows by one month's savings per month |
| Cashflow.Series | utils/calculations.ts:63-67 | the series for n months has n entries; entry i is month i + 1, its cumulative cash flow is the unrounded `-impl + (i+1) * monthly` rounded to cents, and its savings are the monthly savings rounded to cents |
| Cashflow.BreakevenWithin | utils/calculations.ts:57-58 | the break-even month is 0 exactly when no month in 1..n reaches a non-negative cumulative cash flow; otherwise it is the least such month |
| Cashflow.SeriesStepWithinRounding | utils/calculations.ts:63-67 | consecutive recorded cumulative cash flows differ from the recorded monthly savings by at most 0.015, since each figure is rounded separately |
| Cashflow.SeriesStepCanMissSavings | utils/calculations.ts:63-67 | the recorded series need not add up: with no implementation cost and savings of 0.004 per month, both months record savings of 0.00 while the cumulative cash flow goes from 0.00 to 0.01 |
| Cashflow.InterpolatedPayback | utils/calculations.ts:59-60 | the interpolated payback in month m is undefined exactly when monthly savings are zero; otherwise its excess over m - 1, times the monthly savings, is the absolute cumulative cash flow one month earlier |
| Cashflow.PaybackPeriod | utils/calculations.ts:57-73 | the payback period is undefined exactly when monthly savings are zero; without break-even it times the monthly savings is the implementation cost; with break-even month b it is b - 1 plus the absolute cumulative cash flow before month b over the monthly savings |
| Cashflow.BreakevenSetOnce | utils/calculations.ts:57-58 | once found, the break-even month stays the same over any longer horizon |
| Cashflow.SimulateCashflow | utils/calculations.ts:47-73 | the loop returns the 24-entry series, the break-even month and the payback period (interpolated at break-even, cost over savings otherwise) |
| Cashflow.NotPositiveBeforeBreakeven | utils/calculations.ts:57-60 | with a non-negative implementation cost, the cumulative cash flow is at most 0 before the break-even month and at least 0 in it |
| Cashflow.InterpolationIsCostOverSavings | utils/calculations.ts:59-60 | interpolating in a month that crosses zero gives implementation cost over monthly savings, which lies within that month |
| Cashflow.PaybackIsCostOverSavings | utils/calculations.ts:57-73 | with a non-negative implementation cost and nonzero monthly savings, the payback period is implementation cost over monthly savings: with positive savings on both branches, with negative savings through the fallback, since there is then no break-even month, which gives a payback period that is not positive (negative when the implementation cost is positive) |
| Cashflow.PaybackWithinBreakevenMonth | utils/calculations.ts:59-60 | with a non-negative implementation cost, positive savings and break-even month m, the payback period is defined and lies in [m - 1, m] |
| Cashflow.PaybackBeyondHorizon | utils/calculations.ts:71-73 | without break-even and with positive savings, the fallback payback period exceeds 24 months |
| Cashflow.NoBreakevenWithoutSavings | utils/calculations.ts:54-58 | a non-negative implementation cost is never recovered without positive monthly savings, unless cost and savings are both zero |
| Cashflow.PaybackMonotone | utils/calculations.ts:57-73 | with a non-negative implementation cost and positive monthly savings, a larger implementation cost never gives a shorter payback period |
| Cashflow.PaybackNotMonotoneForNegativeCost | utils/calculations.ts:57-60 | with monthly savings of 1, implementation costs of -10 and -5 both break even in month 1 with payback periods of 10 and 5 months, so monotonicity needs a non-negative implementation cost |
| Calculations.Results | utils/calculations.ts:91-110 | the one-time investment is the implementation cost; the recurring cost is human cost plus license plus maintenance; the annualized future cost adds a fifth of the implementation cost; year-1 and year-3 net savings subtract the implementation cost once; the series has 24 entries numbered 1..24 |
| Calculations.ResultsFromStages | utils/calculations.ts:91-110 | each field of the results record is the matching figure of its stage: the two cost models, savings and ROI, the cash-flow simulation of the monthly gross savings, and the KPIs; the recorded series is the rounded series of the implementation cost and the monthly gross savings over the 24-month horizon |
| Calculations.CalculateRoi | utils/calculations.ts:4-111 | the engine's imperative computation, cash-flow loop included, produces exactly the results record |
| Calculations.FutureStateIgnoresImplementation | utils/calculations.ts:19-31 | the future cost model does not depend on the implementation cost |
| Calculations.KpisIgnoreImplementation | utils/calculations.ts:75-89 | the KPIs do not depend on the implementation cost |
| Calculations.RecurringCostExcludesImplementation | utils/calculations.ts:93-95 | changing the implementation cost leaves today's cost, the recurring future cost, the hours saved, the efficiency gain and the future unit cost unchanged |
| Calculations.NetSavingsMonotone | utils/calculations.ts:37-44 | raising the implementation cost lowers year-1 and year-3 net savings by exactly the increase |
| Calculations.PaybackClosedForm | utils/calculations.ts:47-73 | with a non-negative implementation cost and positive gross savings, the payback period is the implementation cost over a twelfth of the gross savings |
| Calculations.PaybackMonotoneInImplementation | utils/calculations.ts:47-73 | with a non-negative implementation cost and positive gross savings, a larger implementation cost never pays back sooner, and a break-even payback lies in its break-even month |
| Calculations.DefaultCostModels | utils/calculations.ts:6-31 | for the application's defaults: 5500 hours today costing 137500, with error cost 12500; after automation, 550 hours and a recurring cost of 20750 |
| Calculations.DefaultKpis | utils/calculations.ts:75-89 | for the defaults: 4950 hours saved, 4950/2000 FTEs, 90 % efficiency, 11250 error cost avoided and 85.5 % success rate |
| Calculations.DefaultCashflow | utils/calculations.ts:47-73 | for the defaults' savings, break-even is month 2 and the payback period is 720/467 months |
| Calculations.DefaultScenario | utils/calculations.ts:4-111 | the complete results of the defaults, including future annual cost 23750, year-3 net savings 335250 and ROI 3700/13 % |

## Left out

- Floating point: every amount is a real number. Rounding error, NaN and Infinity do not
  occur. A zero divisor yields `DivisionByZero` in place of JavaScript's `Infinity` or `NaN`.
  So `0/0` and `x/0` are not told apart, and a `DivisionByZero` payback is not followed
  through later arithmetic.
- Numeric.RoundToCents: this models `toFixed(2)` on the exact real value, not on the
  binary double. Inputs whose decimal expansion sits on a half-cent tie may round the
  other way in JavaScript. Magnitudes of 10^21 and above are returned unchanged, which
  matches `parseFloat` of the exponent form `toFixed` prints for them.
- Cashflow.SimulateCashflow: the running total is computed by repeated addition,
  `cumulative - monthlyGrossSavings` is exact, and the loop is proved equal to the closed
  form `-impl + m * monthly`. In doubles these agree only up to rounding.
- Cashflow.Series: entries hold the monthly savings rounded to cents, not
  `grossSavingsAnnual / 12` exactly, as the recorded series does. `Numeric.RoundToCents`
  bounds the difference by half a cent. For the same reason the recorded series does not
  satisfy `cumulativeCashflow[m] = cumulativeCashflow[m-1] + savings[m]`: that recurrence
  holds only of the unrounded running total (`Cashflow.CumulativeStep`). The recorded
  figures satisfy it within 0.015 (`Cashflow.SeriesStepWithinRounding`), and
  `Cashflow.SeriesStepCanMissSavings` gives an input where it fails.
- Cashflow.PaybackMonotone and Calculations.PaybackMonotoneInImplementation assume a
  non-negative implementation cost. The engine accepts a negative one, and then
  monotonicity fails: with monthly savings of 1, implementation costs of -10 and -5 both
  break even in month 1, with payback periods of 10 and 5 months
  (`Cashflow.PaybackNotMonotoneForNegativeCost`).
- `processName` is carried in `ProcessInputs` but no figure depends on it, as in the
  engine.
- The user interface in App.tsx (React state, memoisation, the password gate) is not part
  of this model. Only its default inputs (App.tsx:27-41) are used, in the default
  scenario.
- The input form's coercion of empty fields to 0 (components/InputForm.tsx) is not part
  of this model. The engine takes any real numbers.
- Charts, KPI cards and the proposal text (components/) are presentation only and are
  not modelled.
- services/geminiService.ts is a network call to an external text-generation service;
  it is not modelled.
