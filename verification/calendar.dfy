/** Reference tables for the calculator, derived from named calendar
    constants rather than from the literals the service multiplies by.

    The service mixes two conventions, and so do these tables:
    - durations and display units use calendar days of 24 hours, 30-day
      months and 365-day years;
    - occurrences per year use 250 working days and 5-day working weeks;
    - the cost uses 2000 working hours a year (250 days of 8 hours).
 */
module Calendar {
  import opened CalculatorTypes

  const SecondsPerMinute: real := 60.0
  const MinutesPerHour: real := 60.0
  const HoursPerDay: real := 24.0
  const DaysPerWeek: real := 7.0
  const DaysPerMonth: real := 30.0
  const DaysPerYear: real := 365.0

  const WorkingDaysPerYear: real := 250.0
  const WorkingDaysPerWeek: real := 5.0
  const WorkingHoursPerDay: real := 8.0
  const MonthsPerYear: real := 12.0

  /** Working hours in a year, the divisor that turns a salary into an hourly rate. */
  const WorkingHoursPerYear: real := WorkingDaysPerYear * WorkingHoursPerDay

  /** Minutes in one unit of a duration type; an unknown type is read as minutes. */
  function MinutesPerDurationUnit(t: DurationType): (k: real)
    ensures k > 0.0
  {
    match t
    case Seconds => 1.0 / SecondsPerMinute
    case Minutes => 1.0
    case Hours => MinutesPerHour
    case Days => HoursPerDay * MinutesPerHour
    case UnknownDuration => 1.0
  }

  /** How many periods of a frequency type fit in a (working) year; an unknown
      type has none. */
  function PeriodsPerYear(t: FrequencyType): (k: real)
    ensures k >= 0.0
    ensures k == 0.0 <==> t == UnknownFrequency
  {
    match t
    case Day => WorkingDaysPerYear
    case Week => WorkingDaysPerYear / WorkingDaysPerWeek
    case Month => MonthsPerYear
    case Year => 1.0
    case UnknownFrequency => 0.0
  }

  /** Minutes in one display unit, on the 24-hour-day calendar. */
  function MinutesPerDisplayUnit(u: TimeUnit): (k: real)
    ensures k >= 1.0
  {
    match u
    case MinutesUnit => 1.0
    case HoursUnit => MinutesPerHour
    case DaysUnit => HoursPerDay * MinutesPerHour
    case WeeksUnit => DaysPerWeek * HoursPerDay * MinutesPerHour
    case MonthsUnit => DaysPerMonth * HoursPerDay * MinutesPerHour
    case YearsUnit => DaysPerYear * HoursPerDay * MinutesPerHour
  }

  /** A larger display unit is worth more minutes. */
  lemma MinutesPerDisplayUnitIncreasing(u: TimeUnit, v: TimeUnit)
    requires Rank(u) < Rank(v)
    ensures MinutesPerDisplayUnit(u) < MinutesPerDisplayUnit(v)
  {
  }

  /** The range of totals, in minutes, shown in unit `u`: at least one whole
      `u` (no lower bound for minutes) and less than one whole next unit (no
      upper bound for years). */
  predicate InDisplayRange(m: real, u: TimeUnit) {
    && (u == MinutesUnit || MinutesPerDisplayUnit(u) <= m)
    && (u == YearsUnit || m < MinutesPerDisplayUnit(Next(u)))
  }

  /** Inverse of the duration table: a number of minutes read back in unit `t`. */
  function MinutesToDuration(m: real, t: DurationType): (d: real)
    ensures d * MinutesPerDurationUnit(t) == m
  {
    m / MinutesPerDurationUnit(t)
  }
}
