/**
 * The date-difference page: the absolute distance between two instants in
 * milliseconds, broken down with the page's fixed units (a year of 365.25
 * days, a month of 30.4375 days), and the sentence it shows.
 *
 * The two dates reach the handler as the millisecond timestamps `Date`
 * gives them; the parsing of the date text and the clock are not modelled.
 */
module DateCalc {
  import opened JsMath
  import opened Parsing

  /** `1000 · 3600 · 24 · 365.25` ms. */
  const YearMs: nat := 31557600000
  /** `1000 · 3600 · 24 · 30.4375` ms. */
  const MonthMs: nat := 2629800000
  const DayMs: nat := 86400000
  const HourMs: nat := 3600000
  const MinuteMs: nat := 60000
  const SecondMs: nat := 1000

  datatype Breakdown = Breakdown(years: nat, months: nat, days: nat, hours: nat, minutes: nat, seconds: nat)

  /** `Math.abs(end.getTime() - start.getTime())`: the same whichever date comes first. */
  function TimeDiff(startMs: int, endMs: int): (t: nat)
    ensures t == endMs - startMs || t == startMs - endMs
    ensures t == 0 <==> startMs == endMs
  {
    Abs(endMs - startMs)
  }

  /**
   * The breakdown of a non-negative difference. Each field is the floor of a
   * remainder over its unit, so every field but the years stays below the
   * next unit up: at most 11 months, 30 days, 23 hours, 59 minutes and 59
   * seconds.
   */
  function DateDifference(timeDiff: nat): (b: Breakdown)
    ensures b.months < 12 && b.days <= 30
    ensures b.hours < 24 && b.minutes < 60 && b.seconds < 60
  {
    Breakdown(
      timeDiff / YearMs,
      (timeDiff % YearMs) / MonthMs,
      (timeDiff % MonthMs) / DayMs,
      (timeDiff % DayMs) / HourMs,
      (timeDiff % HourMs) / MinuteMs,
      (timeDiff % MinuteMs) / SecondMs)
  }

  /** The sentence the page shows. */
  function DifferenceText(b: Breakdown): string
  {
    "Difference: " + IntToString(b.years) + " years, " + IntToString(b.months) + " months, "
    + IntToString(b.days) + " days, " + IntToString(b.hours) + " hours, "
    + IntToString(b.minutes) + " minutes, and " + IntToString(b.seconds) + " seconds."
  }

  /**
   * The year unit is exactly twelve month units, so the remainder after
   * whole months is the same whether taken of the whole difference or of
   * the part left after whole years.
   */
  lemma MonthRemainder(t: nat)
    ensures YearMs == 12 * MonthMs
    ensures (t % YearMs) % MonthMs == t % MonthMs
  {
    var y := t / YearMs;
    var r := t % YearMs;
    var mo := r / MonthMs;
    var r2 := r % MonthMs;
    assert t == MonthMs * (12 * y + mo) + r2;
    DivModUnique(t, MonthMs, 12 * y + mo, r2);
  }

  /**
   * Years, months and days account for the difference to within one day:
   * the days, months and years shown never add up to more than the
   * difference, and they miss less than a day of it.
   */
  lemma DateDifferenceAddsUp(t: nat)
    ensures var b := DateDifference(t);
            var shown := YearMs * b.years + MonthMs * b.months + DayMs * b.days;
            shown <= t < shown + DayMs
  {
    var b := DateDifference(t);
    MonthRemainder(t);
    assert t == YearMs * b.years + t % YearMs;
    assert t % YearMs == MonthMs * b.months + t % MonthMs;
    assert t % MonthMs == DayMs * b.days + (t % MonthMs) % DayMs;
  }

  /**
   * Hours, minutes and seconds are read off the time of day of the
   * difference, to within one second.
   */
  lemma TimeOfDayAddsUp(t: nat)
    ensures var b := DateDifference(t);
            var shown := HourMs * b.hours + MinuteMs * b.minutes + SecondMs * b.seconds;
            shown <= t % DayMs < shown + SecondMs
  {
    var b := DateDifference(t);
    var d := t % DayMs;
    var hq, hr := t / HourMs, t % HourMs;
    assert t == DayMs * (t / DayMs) + d;
    assert d == HourMs * (d / HourMs) + d % HourMs;
    assert t == HourMs * (24 * (t / DayMs) + d / HourMs) + d % HourMs;
    DivModUnique(t, HourMs, 24 * (t / DayMs) + d / HourMs, d % HourMs);
    var mr := t % MinuteMs;
    assert hr == MinuteMs * (hr / MinuteMs) + hr % MinuteMs;
    assert t == MinuteMs * (60 * hq + hr / MinuteMs) + hr % MinuteMs;
    DivModUnique(t, MinuteMs, 60 * hq + hr / MinuteMs, hr % MinuteMs);
    assert d == HourMs * b.hours + MinuteMs * b.minutes + mr;
    assert mr == SecondMs * b.seconds + mr % SecondMs;
  }

  /**
   * Two dates from the page's date inputs are whole days apart, and then no
   * hours, minutes or seconds are shown.
   */
  lemma WholeDaysShowNoTime(t: nat)
    requires t % DayMs == 0
    ensures DateDifference(t).hours == 0 && DateDifference(t).minutes == 0 && DateDifference(t).seconds == 0
  {
    TimeOfDayAddsUp(t);
  }

  /** Swapping the two dates does not change the sentence. */
  lemma SwappedDatesAgree(startMs: int, endMs: int)
    ensures DifferenceText(DateDifference(TimeDiff(startMs, endMs)))
         == DifferenceText(DateDifference(TimeDiff(endMs, startMs)))
  {
  }

  class DatePage {
    var startDate: string
    var endDate: string
    var result: string

    constructor ()
      ensures startDate == "" && endDate == "" && result == ""
    {
      startDate, endDate, result := "", "", "";
    }

    /** The two date inputs: the start field or the end field takes the new text. */
    method HandleDateChange(value: string, isStart: bool)
      modifies this`startDate, this`endDate
      ensures isStart ==> startDate == value && endDate == old(endDate)
      ensures !isStart ==> endDate == value && startDate == old(startDate)
    {
      if isStart {
        startDate := value;
      } else {
        endDate := value;
      }
    }

    /**
     * The Calculate button. `startMs` and `endMs` are the timestamps of the
     * two dates. A missing date raises an alert and changes nothing;
     * otherwise the sentence for the absolute difference is shown.
     */
    method CalculateDateDifference(startMs: int, endMs: int)
      modifies this`result
      ensures (startDate == "" || endDate == "") ==> result == old(result)
      ensures startDate != "" && endDate != "" ==>
                result == DifferenceText(DateDifference(TimeDiff(startMs, endMs)))
    {
      if startDate == "" || endDate == "" {
        return;
      }
      var timeDiff := TimeDiff(startMs, endMs);
      result := DifferenceText(DateDifference(timeDiff));
    }

    /** The Clear button: both dates and the sentence back to empty. */
    method ClearFields()
      modifies this
      ensures startDate == "" && endDate == "" && result == ""
    {
      startDate, endDate, result := "", "", "";
    }
  }
}
