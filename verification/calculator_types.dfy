/** Value types of the task-duration calculator: the enumerations a caller
    picks from, the parameters of one calculation and the result it returns.

    Each input enumeration (frequency type and duration type) carries an
    extra unknown case for the empty tag the form's reset handler stores,
    which sends the service's `switch` statements to their `default`
    branches.
 */
module CalculatorTypes {

  /** How often the task happens: so many times per day, week, month or year. */
  datatype FrequencyType = Day | Week | Month | Year | UnknownFrequency

  /** The unit the duration of one occurrence is entered in. */
  datatype DurationType = Seconds | Minutes | Hours | Days | UnknownDuration

  /** The projection horizon in years: one of the tags '1' to '5', already
      parsed to its integer value. */
  type TimeHorizon = y: int | 1 <= y <= 5 witness 1

  /** The unit a total is displayed in, from smallest to largest. */
  datatype TimeUnit = MinutesUnit | HoursUnit | DaysUnit | WeeksUnit | MonthsUnit | YearsUnit

  /** Position of a display unit in the ascending order of units. */
  function Rank(u: TimeUnit): (r: nat)
    ensures r <= 5
    ensures r == 0 <==> u == MinutesUnit
    ensures r == 5 <==> u == YearsUnit
  {
    match u
    case MinutesUnit => 0
    case HoursUnit => 1
    case DaysUnit => 2
    case WeeksUnit => 3
    case MonthsUnit => 4
    case YearsUnit => 5
  }

  /** The next larger display unit. */
  function Next(u: TimeUnit): (v: TimeUnit)
    requires u != YearsUnit
    ensures Rank(v) == Rank(u) + 1
  {
    match u
    case MinutesUnit => HoursUnit
    case HoursUnit => DaysUnit
    case DaysUnit => WeeksUnit
    case WeeksUnit => MonthsUnit
    case MonthsUnit => YearsUnit
  }

  /** A number together with the count of decimals it is printed with; the
      value is the unrounded number handed to `toFixed`. */
  datatype Fixed = Fixed(value: real, digits: nat)

  /** What `formatTime` returns: the total in the chosen unit and the unit. */
  datatype TimeDisplay = TimeDisplay(formattedTotal: Fixed, unit: TimeUnit)

  /** The inputs of one calculation. `salary` is an annual salary. */
  datatype CalculationParams = CalculationParams(
    frequency: real,
    frequencyType: FrequencyType,
    duration: real,
    durationType: DurationType,
    timeHorizon: TimeHorizon,
    salary: real
  )

  /** The outputs of one calculation; the currency string is not modelled. */
  datatype CalculationResult = CalculationResult(
    totalTime: real,
    totalCost: real,
    formattedTotal: Fixed,
    unit: TimeUnit
  )
}
