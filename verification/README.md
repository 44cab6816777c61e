# Task duration calculator: calculation engine

This project is a Dafny model of the calculation engine of a task-duration
calculator. Given a recurring task, the engine works out how much time the
task takes in total and what that time costs. The task is described by how
often it happens (per day, week, month or year), how long one occurrence
takes (in seconds, minutes, hours or days) and a horizon of 1 to 5 years.
The engine is a pure, synchronous pipeline:

1. It normalises the duration to minutes (`ConvertToMinutes`).
2. It turns the frequency into occurrences per year (`CalculateOccurrencesPerYear`).
3. It projects over the horizon and derives a cost from an annual salary
   (`TotalMinutes`, `SalaryCost`, `CalculateTotalTime`).
4. It picks the most legible display unit by ascending thresholds (`FormatTime`).

The model keeps the service's mixed calendar conventions exactly as written:
- Durations and the display thresholds use 24-hour days, 30-day months and 365-day years.
- Occurrences use 250 working days and 50 working weeks a year.
- The cost uses 2000 working hours a year.

Files:
- `calculator_types.dfy` (module `CalculatorTypes`): the enumerations, the
  horizon, the display units with their order, and the parameter and result
  records. Each input enumeration (frequency type and duration type) has an extra unknown case, because the form's
  reset handler stores the empty tag in both enum fields. That empty tag
  reaches the `default` branch of each `switch`.
- `calendar.dfy` (module `Calendar`): reference tables built from named
  calendar constants. They give minutes per duration unit, periods per year,
  minutes per display unit, the range of totals each unit covers, and the
  inverse of the duration table.
- `calculation_service.dfy` (module `CalculationService`): the engine. It
  keeps the source's branches and literals. Each function's contract ties
  it to the reference tables.
- `calculation_properties.dfy` (module `CalculationProperties`): lemmas
  relating several calls. It also holds a table-driven unit scan that is
  proved to agree with the chain of comparisons.

Numbers are exact `real`s. JavaScript's doubles are not modelled.

## Model

| member | source | states |
|---|---|---|
| CalculationService.ConvertToMinutes | src/services/calculationService.ts:37-50 | the minutes equal the duration times the minutes in one unit of its type (1/60, 1, 60, 24·60); an unknown type leaves the duration unchanged |
| CalculationService.CalculateOccurrencesPerYear | src/services/calculationService.ts:52-64 | occurrences equal the frequency times the periods of its type in a working year (250 days, 250/5 weeks, 12 months, 1 year); an unknown type gives 0 |
| CalculationService.SalaryCost | src/services/calculationService.ts:17-22 | the cost times the minutes in a working year (250·8 hours of 60 minutes) equals total minutes times salary |
| CalculationService.FormatTime | src/services/calculationService.ts:67-92 | the unit is the one and only unit whose range holds the total (below 60 for minutes, with no lower bound; otherwise at least one whole unit, and less than one whole next unit except for years); the unrounded value handed to `toFixed`, times the unit's minutes, is the total; precision is 0 decimals for minutes and 1 otherwise |
| CalculationService.TotalMinutes | src/services/calculationService.ts:7-15 | the total is duration times minutes-per-unit, times frequency times periods-per-year, times years |
| CalculationService.CalculateTotalTime | src/services/calculationService.ts:4-35 | the result's totalTime is the projected total; totalCost times 120000 equals total times salary; the unit and the unrounded value handed to `toFixed` satisfy the display rule |
| Calendar.MinutesToDuration | src/services/calculationService.ts:37-50 | inverse of the duration table: the duration read back, times the unit's minutes, gives the minutes |
| Calendar.MinutesPerDisplayUnitIncreasing | src/services/calculationService.ts:67-92 | a larger display unit is worth strictly more minutes, so the thresholds ascend |
| CalculationProperties.ConvertToMinutesRoundTrip | src/services/calculationService.ts:37-50 | converting to minutes and reading back in the same unit gives the duration back, in both directions |
| CalculationProperties.ConvertToMinutesMonotone | src/services/calculationService.ts:37-50 | a longer duration in the same unit never gives fewer minutes |
| CalculationProperties.TotalMinutesNonNegative | src/services/calculationService.ts:8-15 | non-negative frequency and duration give a non-negative total |
| CalculationProperties.UnknownFrequencyGivesZero | src/services/calculationService.ts:52-64 | an unknown frequency type gives a total of 0, a cost of 0 and a display of 0 minutes, for any duration, horizon and salary |
| CalculationProperties.ZeroInputGivesZero | src/services/calculationService.ts:8-34 | a zero frequency or a zero duration gives a total of 0, a cost of 0 and a display of 0 minutes with 0 decimals, for any types, horizon and salary |
| CalculationProperties.DoublingFrequencyDoublesTotal | src/services/calculationService.ts:11-15 | doubling the frequency doubles the total |
| CalculationProperties.DoublingDurationDoublesTotal | src/services/calculationService.ts:8-15 | doubling the duration doubles the total |
| CalculationProperties.DoublingHorizonDoublesTotal | src/services/calculationService.ts:14-15 | doubling the horizon doubles the total |
| CalculationProperties.TotalMinutesMonotone | src/services/calculationService.ts:8-15 | with non-negative inputs, a larger frequency, duration or horizon never gives a smaller total |
| CalculationProperties.CostFormula | src/services/calculationService.ts:19-34 | the result's cost is total × salary / 120000 and its totalTime is the projected total |
| CalculationProperties.ZeroSalaryCostsNothing | src/services/calculationService.ts:19-22 | a zero salary gives a zero cost for any total |
| CalculationProperties.CostLinearInSalary | src/services/calculationService.ts:19-22 | the cost is additive and homogeneous in the salary |
| CalculationProperties.CostLinearInMinutes | src/services/calculationService.ts:19-22 | the cost is additive and homogeneous in the total minutes |
| CalculationProperties.CostMonotone | src/services/calculationService.ts:19-22 | with non-negative minutes and salary the cost is non-negative, and it never falls when the minutes or the salary grow |
| CalculationProperties.WorkingYearCostsSalary | src/services/calculationService.ts:18-22 | 2000 hours of minutes cost exactly the annual salary |
| CalculationProperties.FormatTimeThresholds | src/services/calculationService.ts:67-92 | each unit is chosen exactly on its interval between the bounds 60, 1440, 10080, 43200 and 525600; at or above 525600 is years |
| CalculationProperties.FormatTimeMonotone | src/services/calculationService.ts:67-92 | a larger total is never shown in a smaller unit |
| CalculationProperties.NoUnitSkipped | src/services/calculationService.ts:67-92 | as the total grows from m1 to m2, every unit between the two chosen units is chosen for some total in between |
| CalculationProperties.DisplayedValueRanges | src/services/calculationService.ts:68-91 | the unrounded value handed to `toFixed` lies in the unit's range (after rounding the printed string can reach the bound, e.g. 59.7 minutes prints as `60`): minutes < 60, hours [1,24), days [1,7), weeks [1,30/7), months [1,365/30), years ≥ 1; 0 decimals for minutes, 1 otherwise |
| CalculationProperties.ScanUnit | src/services/calculationService.ts:67-92 | walking up the ascending units while the total reaches the next one picks the same unit as the chain of comparisons |
| CalculationProperties.DefaultScenario | src/components/TaskDurationCalculator.tsx:10-14 | the caller's defaults (once a day, 15 minutes, 5 years) give 18750 minutes, shown as 18750/10080 weeks |
| CalculationProperties.SalaryScenario | src/services/calculationService.ts:19-22 | an annual salary of 30000 makes 18750 minutes cost 4687.50 |

## Left out

- Currency formatting (`toLocaleString` with the es-ES locale and EUR, src/services/calculationService.ts:26): this is locale library behaviour. The cost is kept as a number only.
- `toFixed` rounding and IEEE-754 double arithmetic: the model keeps the unrounded value and the number of decimals (0 or 1). It does not keep the printed string.
- `parseInt(timeHorizon)` (src/services/calculationService.ts:14): the horizon is modelled as an integer from 1 to 5, the values of the `TimeHorizon` tags, instead of as string parsing.
- DoublingHorizonDoublesTotal: only horizons of 1 or 2 years can be doubled within the 1 to 5 range, so the lemma requires that.
- The salary parameter name: the service reads `salary`, but the parameter record declares `hourlyRate` (src/types/calculator.ts:20) and the caller passes `hourlyRate`. At run time the salary is therefore undefined and the cost is NaN. The model gives the service's formula an explicit salary and does not model undefined or NaN propagation.
- The React components (form, result display, page, calculator state, reset and recalculation on input change): these are presentation and state wiring, not calculation. This includes input fallbacks such as `parseInt(...) || 1` and the label and icon text.
- Error reporting: the service has no error path. Negative numbers pass through the arithmetic, an unknown duration type leaves the number unchanged (src/services/calculationService.ts:47-48) and an unknown frequency type gives 0 (src/services/calculationService.ts:62-63). The model has no error result either.
