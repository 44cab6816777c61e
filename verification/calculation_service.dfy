/** The calculation engine: turns a recurring task into total minutes over a
    horizon of years, a cost derived from an annual salary, and a display of
    the total in its most legible unit. Each function keeps the branches and
    literals of the service it models.
 */
module CalculationService {
  import opened CalculatorTypes
  import opened Calendar

  /** Normalises a duration to minutes. An unrecognised duration type leaves
      the number unchanged. */
  function ConvertToMinutes(duration: real, durationType: DurationType): (minutes: real)
    ensures minutes == duration * MinutesPerDurationUnit(durationType)
    ensures durationType == UnknownDuration ==> minutes == duration
  {
    match durationType
    case Seconds => duration / 60.0
    case Minutes => duration
    case Hours => duration * 60.0
    case Days => duration * 24.0 * 60.0
    case UnknownDuration => duration
  }

  /** Occurrences of the task in one year, on the working-year calendar. An
      unrecognised frequency type yields no occurrences. */
  function CalculateOccurrencesPerYear(frequency: real, frequencyType: FrequencyType): (occurrences: real)
    ensures occurrences == frequency * PeriodsPerYear(frequencyType)
    ensures frequencyType == UnknownFrequency ==> occurrences == 0.0
  {
    match frequencyType
    case Day => frequency * 250.0
    case Week => frequency * 50.0
    case Month => frequency * 12.0
    case Year => frequency
    case UnknownFrequency => 0.0
  }

  /** Cost of `totalMinutes` of work paid from an annual salary: the salary
      is spread over 2000 working hours, then over the minutes of an hour. */
  function SalaryCost(totalMinutes: real, salary: real): (cost: real)
    ensures cost * (WorkingHoursPerYear * MinutesPerHour) == totalMinutes * salary
  {
    var hourlyRate := salary / 2000.0;
    var minuteRate := hourlyRate / 60.0;
    totalMinutes * minuteRate
  }

  /** Chooses the display unit by ascending strict upper bounds and divides
      the total by that unit's size; minutes are shown with no decimals and
      every other unit with one. */
  function FormatTime(totalMinutes: real): (r: TimeDisplay)
    ensures InDisplayRange(totalMinutes, r.unit)
    ensures forall u :: InDisplayRange(totalMinutes, u) ==> u == r.unit
    ensures r.formattedTotal.value * MinutesPerDisplayUnit(r.unit) == totalMinutes
    ensures r.formattedTotal.digits == (if r.unit == MinutesUnit then 0 else 1)
  {
    if totalMinutes < 60.0 then
      TimeDisplay(Fixed(totalMinutes, 0), MinutesUnit)
    else if totalMinutes < 24.0 * 60.0 then
      var hours := totalMinutes / 60.0;
      TimeDisplay(Fixed(hours, 1), HoursUnit)
    else if totalMinutes < 7.0 * 24.0 * 60.0 then
      var days := totalMinutes / (24.0 * 60.0);
      TimeDisplay(Fixed(days, 1), DaysUnit)
    else if totalMinutes < 30.0 * 24.0 * 60.0 then
      var weeks := totalMinutes / (7.0 * 24.0 * 60.0);
      TimeDisplay(Fixed(weeks, 1), WeeksUnit)
    else if totalMinutes < 365.0 * 24.0 * 60.0 then
      var months := totalMinutes / (30.0 * 24.0 * 60.0);
      TimeDisplay(Fixed(months, 1), MonthsUnit)
    else
      var years := totalMinutes / (365.0 * 24.0 * 60.0);
      TimeDisplay(Fixed(years, 1), YearsUnit)
  }

  /** Total minutes over the horizon: minutes per occurrence, times
      occurrences per year, times years. */
  function TotalMinutes(p: CalculationParams): (total: real)
    ensures total == p.duration * MinutesPerDurationUnit(p.durationType)
                     * (p.frequency * PeriodsPerYear(p.frequencyType))
                     * (p.timeHorizon as real)
  {
    var durationInMinutes := ConvertToMinutes(p.duration, p.durationType);
    var occurrencesPerYear := CalculateOccurrencesPerYear(p.frequency, p.frequencyType);
    var years := p.timeHorizon;
    durationInMinutes * occurrencesPerYear * (years as real)
  }

  /** The whole pipeline: total time, its cost and its display. */
  function CalculateTotalTime(p: CalculationParams): (r: CalculationResult)
    ensures r.totalTime == TotalMinutes(p)
    ensures r.totalCost * 120000.0 == r.totalTime * p.salary
    ensures InDisplayRange(r.totalTime, r.unit)
    ensures r.formattedTotal.value * MinutesPerDisplayUnit(r.unit) == r.totalTime
    ensures r.formattedTotal.digits == (if r.unit == MinutesUnit then 0 else 1)
  {
    var totalMinutes := TotalMinutes(p);
    var cost := SalaryCost(totalMinutes, p.salary);
    var display := FormatTime(totalMinutes);
    CalculationResult(totalMinutes, cost, display.formattedTotal, display.unit)
  }
}
