/**
 * The age page: the worker body that breaks the milliseconds since the date
 * of birth into whole seconds, minutes, hours, days, weeks, years and
 * months, and the page state that reruns it when the date changes.
 *
 * The difference `now − dob` arrives as a number of milliseconds: the
 * parsing of the date and the clock are not modelled. The worker's answer
 * is taken as arriving before the next handler runs.
 */
module AgeCalc {
  import opened Options
  import opened JsMath

  datatype AgeDetails = AgeDetails(
    years: int, months: int, weeks: int, days: int, hours: int, minutes: int, seconds: int)

  const Zero: AgeDetails := AgeDetails(0, 0, 0, 0, 0, 0, 0)

  /**
   * The worker body: each unit is the floor of the previous one over its
   * size; the years are the days over 365.25, and the months are twelve
   * times the years, so only whole years show up in them.
   */
  function AgeBreakdown(diffMs: int): (a: AgeDetails)
    ensures a.months == 12 * a.years
  {
    var seconds := FloorDiv(diffMs, 1000);
    var minutes := FloorDiv(seconds, 60);
    var hours := FloorDiv(minutes, 60);
    var days := FloorDiv(hours, 24);
    var weeks := FloorDiv(days, 7);
    var years := Floor(days as real / 365.25);
    var months := Floor(years as real * 12.0);
    AgeDetails(years, months, weeks, days, hours, minutes, seconds)
  }

  /** Flooring twice is flooring once by the product of the divisors. */
  lemma FloorDivTwice(a: int, b: int, c: int)
    requires b > 0 && c > 0
    ensures FloorDiv(FloorDiv(a, b), c) == FloorDiv(a, b * c)
  {
    var q1, r1 := a / b, a % b;
    var q2, r2 := q1 / c, q1 % c;
    Regroup(b, c, q1, q2, r2);
    ScaledRemainderBelow(b, c, r2, r1);
    DivModUnique(a, b * c, q2, b * r2 + r1);
  }

  lemma Regroup(b: int, c: int, q1: int, q2: int, r2: int)
    requires q1 == c * q2 + r2
    ensures b * q1 == (b * c) * q2 + b * r2
  {
  }

  lemma ScaledRemainderBelow(b: int, c: int, r2: int, r1: int)
    requires b > 0 && 0 <= r2 < c && 0 <= r1 < b
    ensures 0 <= b * r2 + r1 < b * c
  {
    assert b * r2 <= b * (c - 1);
  }

  /**
   * The chained floors are single floors of the milliseconds: minutes by
   * 60,000, hours by 3,600,000 and days by 86,400,000.
   */
  lemma ChainedFloors(diffMs: int)
    ensures AgeBreakdown(diffMs).minutes == FloorDiv(diffMs, 60000)
    ensures AgeBreakdown(diffMs).hours == FloorDiv(diffMs, 3600000)
    ensures AgeBreakdown(diffMs).days == FloorDiv(diffMs, 86400000)
  {
    FloorDivTwice(diffMs, 1000, 60);
    FloorDivTwice(diffMs, 60000, 60);
    FloorDivTwice(diffMs, 3600000, 24);
  }

  /** `⌊days / 365.25⌋` is the integer quotient of four times the days by 1461. */
  lemma YearsFromDays(diffMs: int)
    ensures AgeBreakdown(diffMs).years == FloorDiv(4 * AgeBreakdown(diffMs).days, 1461)
  {
    var days := AgeBreakdown(diffMs).days;
    var q := FloorDiv(4 * days, 1461);
    assert days as real / 365.25 == (4 * days) as real / 1461.0;
    QuotientBounds(4 * days, 1461, q);
  }

  lemma QuotientBounds(a: int, b: int, q: int)
    requires b > 0 && b * q <= a < b * q + b
    ensures Floor(a as real / b as real) == q
  {
    var br := b as real;
    assert (b * q) as real == q as real * br;
    assert (b * q + b) as real == (q as real + 1.0) * br;
    RealQuotientBounds(a as real, br, q as real);
    var n := Floor(a as real / br);
    assert n as real <= a as real / br < n as real + 1.0;
  }

  lemma RealQuotientBounds(a: real, b: real, lo: real)
    requires b > 0.0 && lo * b <= a < (lo + 1.0) * b
    ensures lo <= a / b < lo + 1.0
  {
    var x := a / b;
    assert a == x * b;
    if x < lo {
      ScaleUp(x, lo, b);
      assert false;
    }
    if x >= lo + 1.0 {
      ScaleUp(lo + 1.0, x, b);
      assert false;
    }
  }

  lemma ScaleUp(u: real, v: real, k: real)
    requires k > 0.0
    ensures u < v ==> u * k < v * k
    ensures u <= v ==> u * k <= v * k
  {
  }

  /**
   * A date of birth in the past gives fields that are all non-negative and
   * shrink from the seconds down to the years.
   */
  lemma PastBirthOrdered(diffMs: int)
    requires diffMs >= 0
    ensures var a := AgeBreakdown(diffMs);
            && 0 <= a.years <= a.weeks <= a.days <= a.hours <= a.minutes <= a.seconds
            && 0 <= a.months
  {
    var a := AgeBreakdown(diffMs);
    assert 0 <= a.years by {
      assert a.days as real / 365.25 >= 0.0;
    }
    assert a.years <= a.weeks by {
      assert a.years as real <= a.days as real / 365.25;
      assert 7 * a.weeks + 7 > a.days;
    }
  }

  /**
   * A date of birth in the future gives a negative difference, and since
   * `Math.floor` rounds toward −∞ every field is negative.
   */
  lemma FutureBirthNonPositive(diffMs: int)
    requires diffMs < 0
    ensures var a := AgeBreakdown(diffMs);
            && a.seconds < 0 && a.minutes < 0 && a.hours < 0 && a.days < 0 && a.weeks < 0
            && a.years < 0 && a.months < 0
  {
    var a := AgeBreakdown(diffMs);
    assert a.days as real / 365.25 < 0.0;
  }

  class AgePage {
    var dob: Option<string>
    var ageDetails: AgeDetails

    /** No date of birth yet, and every field zero. */
    constructor ()
      ensures dob == None && ageDetails == Zero
    {
      dob, ageDetails := None, Zero;
    }

    /**
     * The date input. The effect runs when `dob` changes, and computes only
     * for a non-empty date; `diffMs` is `now − dob` in milliseconds.
     */
    method OnDobChange(value: string, diffMs: int)
      modifies this
      ensures dob == Some(value)
      ensures old(dob) != Some(value) && value != "" ==> ageDetails == AgeBreakdown(diffMs)
      ensures old(dob) == Some(value) || value == "" ==> ageDetails == old(ageDetails)
    {
      var changed := dob != Some(value);
      dob := Some(value);
      if changed && value != "" {
        ageDetails := AgeBreakdown(diffMs);
      }
    }
  }
}
