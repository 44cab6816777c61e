/** Properties of the calculation engine: the unit tables and their inverse,
    linearity and monotonicity of the projection and the cost, and the unit
    choice of the display (exclusive, monotone, never skipping a unit).
 */
module CalculationProperties {
  import opened CalculatorTypes
  import opened Calendar
  import opened CalculationService

  // ---------------------------------------------------------------------
  // Duration normalisation

  /** Reading the minutes back in the original unit recovers the duration,
      and converting a number of minutes read in any unit gives them back. */
  lemma ConvertToMinutesRoundTrip(d: real, m: real, t: DurationType)
    ensures MinutesToDuration(ConvertToMinutes(d, t), t) == d
    ensures ConvertToMinutes(MinutesToDuration(m, t), t) == m
  {
    var k := MinutesPerDurationUnit(t);
    assert ConvertToMinutes(d, t) == d * k;
    assert (d * k) / k == d;
  }

  /** A longer duration, in the same unit, is never fewer minutes. */
  lemma ConvertToMinutesMonotone(d1: real, d2: real, t: DurationType)
    requires d1 <= d2
    ensures ConvertToMinutes(d1, t) <= ConvertToMinutes(d2, t)
  {
    var k := MinutesPerDurationUnit(t);
    assert d2 * k - d1 * k == (d2 - d1) * k;
  }

  // ---------------------------------------------------------------------
  // Projection over the horizon

  /** With non-negative frequency and duration the total is non-negative. */
  lemma TotalMinutesNonNegative(p: CalculationParams)
    requires p.frequency >= 0.0 && p.duration >= 0.0
    ensures CalculateTotalTime(p).totalTime >= 0.0
  {
    var a := ConvertToMinutes(p.duration, p.durationType);
    var b := CalculateOccurrencesPerYear(p.frequency, p.frequencyType);
    assert a >= 0.0 && b >= 0.0;
    assert a * b >= 0.0;
  }

  /** An unrecognised frequency type gives a zero total, a zero cost and a
      display of 0 minutes, whatever the duration, horizon and salary. */
  lemma UnknownFrequencyGivesZero(p: CalculationParams)
    requires p.frequencyType == UnknownFrequency
    ensures CalculateTotalTime(p).totalTime == 0.0
    ensures CalculateTotalTime(p).totalCost == 0.0
    ensures CalculateTotalTime(p).unit == MinutesUnit
    ensures CalculateTotalTime(p).formattedTotal == Fixed(0.0, 0)
  {
  }

  /** A zero frequency or a zero duration gives a zero total, a zero cost and
      a display of 0 minutes, whatever the types, horizon and salary. The
      form's reset stores both zeros, so this case is reachable. */
  lemma ZeroInputGivesZero(p: CalculationParams)
    requires p.frequency == 0.0 || p.duration == 0.0
    ensures CalculateTotalTime(p).totalTime == 0.0
    ensures CalculateTotalTime(p).totalCost == 0.0
    ensures CalculateTotalTime(p).unit == MinutesUnit
    ensures CalculateTotalTime(p).formattedTotal == Fixed(0.0, 0)
  {
  }

  /** Doubling the frequency doubles the total. */
  lemma DoublingFrequencyDoublesTotal(p: CalculationParams)
    ensures TotalMinutes(p.(frequency := 2.0 * p.frequency)) == 2.0 * TotalMinutes(p)
  {
    var a := ConvertToMinutes(p.duration, p.durationType);
    var y := p.timeHorizon as real;
    assert CalculateOccurrencesPerYear(2.0 * p.frequency, p.frequencyType)
        == 2.0 * CalculateOccurrencesPerYear(p.frequency, p.frequencyType);
    var b := CalculateOccurrencesPerYear(p.frequency, p.frequencyType);
    assert a * (2.0 * b) * y == 2.0 * (a * b * y);
  }

  /** Doubling the duration doubles the total. */
  lemma DoublingDurationDoublesTotal(p: CalculationParams)
    ensures TotalMinutes(p.(duration := 2.0 * p.duration)) == 2.0 * TotalMinutes(p)
  {
    var b := CalculateOccurrencesPerYear(p.frequency, p.frequencyType);
    var y := p.timeHorizon as real;
    assert ConvertToMinutes(2.0 * p.duration, p.durationType)
        == 2.0 * ConvertToMinutes(p.duration, p.durationType);
    var a := ConvertToMinutes(p.duration, p.durationType);
    assert (2.0 * a) * b * y == 2.0 * (a * b * y);
  }

  /** Doubling the horizon doubles the total (the horizon type admits a
      doubled value only up to 2 years). */
  lemma DoublingHorizonDoublesTotal(p: CalculationParams)
    requires p.timeHorizon <= 2
    ensures TotalMinutes(p.(timeHorizon := 2 * p.timeHorizon)) == 2.0 * TotalMinutes(p)
  {
    var a := ConvertToMinutes(p.duration, p.durationType);
    var b := CalculateOccurrencesPerYear(p.frequency, p.frequencyType);
    var y := p.timeHorizon as real;
    assert (2 * p.timeHorizon) as real == 2.0 * y;
    assert a * b * (2.0 * y) == 2.0 * (a * b * y);
  }

  /** The total never decreases when frequency, duration or horizon grows,
      all else equal, for non-negative frequency and duration. */
  lemma TotalMinutesMonotone(p: CalculationParams, q: CalculationParams)
    requires 0.0 <= p.frequency <= q.frequency
    requires 0.0 <= p.duration <= q.duration
    requires p.timeHorizon <= q.timeHorizon
    requires p.frequencyType == q.frequencyType && p.durationType == q.durationType
    ensures TotalMinutes(p) <= TotalMinutes(q)
  {
    var a1 := ConvertToMinutes(p.duration, p.durationType);
    var a2 := ConvertToMinutes(q.duration, q.durationType);
    var b1 := CalculateOccurrencesPerYear(p.frequency, p.frequencyType);
    var b2 := CalculateOccurrencesPerYear(q.frequency, q.frequencyType);
    var y1 := p.timeHorizon as real;
    var y2 := q.timeHorizon as real;
    ConvertToMinutesMonotone(p.duration, q.duration, p.durationType);
    ScaleMonotone(p.frequency, q.frequency, PeriodsPerYear(p.frequencyType));
    ProductMonotone(a1, a2, b1, b2);
    ProductMonotone(a1 * b1, a2 * b2, y1, y2);
  }

  /** Products of non-negative factors grow with each factor. */
  lemma ProductMonotone(x1: real, x2: real, y1: real, y2: real)
    requires 0.0 <= x1 <= x2 && 0.0 <= y1 <= y2
    ensures 0.0 <= x1 * y1 <= x2 * y2
  {
    ScaleMonotone(x1, x2, y1);
    ScaleMonotone(y1, y2, x2);
    ScaleMonotone(0.0, x1, y1);
  }

  /** Multiplying by a non-negative factor keeps the order. */
  lemma ScaleMonotone(x: real, y: real, c: real)
    requires x <= y && 0.0 <= c
    ensures x * c <= y * c && c * x <= c * y
  {
    var d := y - x;
    assert y * c - x * c == d * c;
  }

  // ---------------------------------------------------------------------
  // Cost

  /** The cost is the total times the salary over 120000 (2000 hours of 60
      minutes), and the result carries exactly that cost and total. */
  lemma CostFormula(p: CalculationParams)
    ensures CalculateTotalTime(p).totalCost == TotalMinutes(p) * p.salary / 120000.0
    ensures CalculateTotalTime(p).totalTime == TotalMinutes(p)
  {
  }

  /** A zero salary costs nothing, whatever the time. */
  lemma ZeroSalaryCostsNothing(totalMinutes: real)
    ensures SalaryCost(totalMinutes, 0.0) == 0.0
  {
  }

  /** The cost is linear in the salary: additive and homogeneous. */
  lemma CostLinearInSalary(m: real, s1: real, s2: real, c: real)
    ensures SalaryCost(m, s1 + s2) == SalaryCost(m, s1) + SalaryCost(m, s2)
    ensures SalaryCost(m, c * s1) == c * SalaryCost(m, s1)
  {
    assert m * (s1 + s2) == m * s1 + m * s2;
    assert m * (c * s1) == c * (m * s1);
  }

  /** The cost is linear in the total minutes: additive and homogeneous. */
  lemma CostLinearInMinutes(m1: real, m2: real, s: real, c: real)
    ensures SalaryCost(m1 + m2, s) == SalaryCost(m1, s) + SalaryCost(m2, s)
    ensures SalaryCost(c * m1, s) == c * SalaryCost(m1, s)
  {
    assert (m1 + m2) * s == m1 * s + m2 * s;
    assert (c * m1) * s == c * (m1 * s);
  }

  /** With non-negative minutes and salary the cost is non-negative and
      grows with both. */
  lemma CostMonotone(m1: real, m2: real, s1: real, s2: real)
    requires 0.0 <= m1 <= m2 && 0.0 <= s1 <= s2
    ensures 0.0 <= SalaryCost(m1, s1) <= SalaryCost(m2, s2)
  {
    ProductMonotone(m1, m2, s1, s2);
  }

  /** A full working year of minutes costs exactly the annual salary. */
  lemma WorkingYearCostsSalary(s: real)
    ensures SalaryCost(WorkingHoursPerYear * MinutesPerHour, s) == s
  {
  }

  // ---------------------------------------------------------------------
  // Display unit

  /** The chosen unit is decided by the upper bounds 60, 1440, 10080, 43200
      and 525600 minutes: each unit exactly on its interval. */
  lemma FormatTimeThresholds(m: real)
    ensures FormatTime(m).unit == MinutesUnit <==> m < 60.0
    ensures FormatTime(m).unit == HoursUnit <==> 60.0 <= m < 1440.0
    ensures FormatTime(m).unit == DaysUnit <==> 1440.0 <= m < 10080.0
    ensures FormatTime(m).unit == WeeksUnit <==> 10080.0 <= m < 43200.0
    ensures FormatTime(m).unit == MonthsUnit <==> 43200.0 <= m < 525600.0
    ensures FormatTime(m).unit == YearsUnit <==> 525600.0 <= m
  {
  }

  /** A larger total is never shown in a smaller unit. */
  lemma FormatTimeMonotone(m1: real, m2: real)
    requires m1 <= m2
    ensures Rank(FormatTime(m1).unit) <= Rank(FormatTime(m2).unit)
  {
  }

  /** As the total grows from m1 to m2, every unit between the two chosen
      units is chosen for some total in between: no unit is skipped. */
  lemma NoUnitSkipped(m1: real, m2: real, v: TimeUnit)
    requires m1 <= m2
    requires Rank(FormatTime(m1).unit) <= Rank(v) <= Rank(FormatTime(m2).unit)
    ensures exists m :: m1 <= m <= m2 && FormatTime(m).unit == v
  {
    if v == FormatTime(m1).unit {
      assert FormatTime(m1).unit == v;
    } else {
      var w := MinutesPerDisplayUnit(v);
      assert v != MinutesUnit;
      assert InDisplayRange(w, v);
      assert FormatTime(w).unit == v;
      assert m1 < w by {
        var u1 := FormatTime(m1).unit;
        assert u1 != YearsUnit;
        assert Rank(Next(u1)) <= Rank(v);
        if Rank(Next(u1)) < Rank(v) {
          MinutesPerDisplayUnitIncreasing(Next(u1), v);
        }
      }
      assert w <= m2 by {
        var u2 := FormatTime(m2).unit;
        if Rank(v) < Rank(u2) {
          MinutesPerDisplayUnitIncreasing(v, u2);
        }
      }
    }
  }

  /** The unrounded value shown lies in the range its unit promises, and the
      precision is 0 decimals for minutes and 1 for every other unit. */
  lemma DisplayedValueRanges(m: real)
    ensures var d := FormatTime(m); var x := d.formattedTotal.value;
      match d.unit
      case MinutesUnit => x == m && x < 60.0 && d.formattedTotal.digits == 0
      case HoursUnit => 1.0 <= x < 24.0 && d.formattedTotal.digits == 1
      case DaysUnit => 1.0 <= x < 7.0 && d.formattedTotal.digits == 1
      case WeeksUnit => 1.0 <= x < 30.0 / 7.0 && d.formattedTotal.digits == 1
      case MonthsUnit => 1.0 <= x < 365.0 / 30.0 && d.formattedTotal.digits == 1
      case YearsUnit => 1.0 <= x && d.formattedTotal.digits == 1
  {
  }

  /** Table-driven unit choice: walk up the ascending units while the total
      reaches the next one. It agrees with the chain of comparisons. */
  method ScanUnit(m: real) returns (u: TimeUnit)
    ensures InDisplayRange(m, u)
    ensures u == FormatTime(m).unit
  {
    var units := [MinutesUnit, HoursUnit, DaysUnit, WeeksUnit, MonthsUnit, YearsUnit];
    var i := 0;
    while i < 5 && MinutesPerDisplayUnit(units[i + 1]) <= m
      invariant 0 <= i <= 5
      invariant forall j :: 0 <= j < 6 ==> Rank(units[j]) == j
      invariant i > 0 ==> MinutesPerDisplayUnit(units[i]) <= m
      decreases 5 - i
    {
      i := i + 1;
    }
    u := units[i];
    assert u != YearsUnit ==> Next(u) == units[i + 1];
  }

  // ---------------------------------------------------------------------
  // Scenarios

  /** The caller's defaults: once a day, 15 minutes, a 5-year horizon. The
      salary of 0 is a placeholder: the caller has no salary default (it
      passes an hourly rate under another name), so the scenarios below
      replace it with the salary they quantify over or fix. */
  const Defaults := CalculationParams(1.0, Day, 15.0, Minutes, 5, 0.0)

  /** With the defaults the total is 18750 minutes, shown as weeks. */
  lemma DefaultScenario(salary: real)
    ensures CalculateTotalTime(Defaults.(salary := salary)).totalTime == 18750.0
    ensures CalculateTotalTime(Defaults.(salary := salary)).unit == WeeksUnit
    ensures CalculateTotalTime(Defaults.(salary := salary)).formattedTotal == Fixed(18750.0 / 10080.0, 1)
  {
  }

  /** An annual salary of 30000 makes the default 18750 minutes cost 4687.50. */
  lemma SalaryScenario()
    ensures CalculateTotalTime(Defaults.(salary := 30000.0)).totalCost == 4687.5
  {
  }
}
