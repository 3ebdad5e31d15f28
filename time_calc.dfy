/**
 * The time calculator: clock texts `H:M:S` read with `split(":")` and
 * `parseInt`, the difference between two times of day, and adding or
 * subtracting a duration to a start time with the page's own carry and
 * borrow rules.
 */
module TimeCalc {
  import opened Options
  import opened JsMath
  import opened Parsing

  /** Hours, minutes and seconds as the page reads them: any whole numbers. */
  datatype Hms = Hms(h: int, m: int, s: int)

  const InvalidFormat: string := "Invalid time format. Please use HH:MM:SS."
  const InvalidStartFormat: string := "Invalid start time format. Please use HH:MM:SS."
  const EndBeforeStart: string := "End time cannot be earlier than start time."

  const SecondsPerDay: int := 86400

  function Seconds(t: Hms): int
  {
    t.h * 3600 + t.m * 60 + t.s
  }

  predicate NonNegative(t: Hms)
  {
    t.h >= 0 && t.m >= 0 && t.s >= 0
  }

  /** A time of day as a clock shows it: `0 ≤ h < 24`, `0 ≤ m, s < 60`. */
  predicate OnClock(t: Hms)
  {
    0 <= t.h < 24 && 0 <= t.m < 60 && 0 <= t.s < 60
  }

  /** `parseInt(parts[i])`; a missing part is `undefined`, which reads as `NaN`. */
  function PartAt(parts: seq<string>, i: nat): (v: Option<int>)
    ensures i >= |parts| ==> v == None
  {
    if i < |parts| then ParseInt(parts[i]) else None
  }

  /**
   * `text.split(":").map(parseInt)` destructured into three numbers; `None`
   * when any of the three is `NaN`. Parts after the third are ignored.
   */
  function ParseTime(text: string): Option<Hms>
  {
    var parts := Split(text, ':');
    var hours := PartAt(parts, 0);
    var minutes := PartAt(parts, 1);
    var seconds := PartAt(parts, 2);
    if hours.Some? && minutes.Some? && seconds.Some? then
      Some(Hms(hours.value, minutes.value, seconds.value))
    else
      None
  }

  /** The `${h}:${m}:${s}` text the add and subtract handlers show. */
  function FormatClock(t: Hms): string
  {
    IntToString(t.h) + ":" + IntToString(t.m) + ":" + IntToString(t.s)
  }

  /** Every time the page shows can be typed back in as the start time and reads the same. */
  lemma ParseFormatClock(t: Hms)
    ensures ParseTime(FormatClock(t)) == Some(t)
  {
    var a, b, c := IntToString(t.h), IntToString(t.m), IntToString(t.s);
    IntToStringHasNoColon(t.h);
    IntToStringHasNoColon(t.m);
    IntToStringHasNoColon(t.s);
    SplitThreeParts(a, b, c);
    ParseIntOfIntToString(t.h, []);
    ParseIntOfIntToString(t.m, []);
    ParseIntOfIntToString(t.s, []);
    assert a + [] == a && b + [] == b && c + [] == c;
    ParseTimeOfParts(FormatClock(t), a, b, c);
  }

  lemma IntToStringHasNoColon(i: int)
    ensures ':' !in IntToString(i)
  {
    IntToStringChars(i);
    assert !IsDigit(':', 10);
  }

  lemma SplitThreeParts(a: string, b: string, c: string)
    requires ':' !in a && ':' !in b && ':' !in c
    ensures Split(a + ":" + b + ":" + c, ':') == [a, b, c]
  {
    assert a + ":" + b + ":" + c == a + [':'] + (b + [':'] + c);
    SplitPrefix(a, ':', b + [':'] + c);
    SplitPrefix(b, ':', c);
    SplitSeparatorFree(c, ':');
  }

  lemma ParseTimeOfParts(text: string, a: string, b: string, c: string)
    requires Split(text, ':') == [a, b, c]
    requires ParseInt(a).Some? && ParseInt(b).Some? && ParseInt(c).Some?
    ensures ParseTime(text) == Some(Hms(ParseInt(a).value, ParseInt(b).value, ParseInt(c).value))
  {
  }

  /** An empty field is not a time. */
  lemma EmptyIsNotATime()
    ensures ParseTime("") == None
  {
    assert Split("", ':') == [""];
    assert TrimStart("") == "";
    assert DigitPrefix("", 10) == "";
  }

  // ---------------------------------------------------------------------------
  // Difference

  /**
   * `Math.floor(d / 3600)`, `Math.floor((d % 3600) / 60)` and `d % 60`: a
   * non-negative number of seconds as hours, minutes under 60 and seconds
   * under 60 that add back up to it.
   */
  function DurationParts(diff: nat): (p: Hms)
    ensures Seconds(p) == diff
    ensures p.h >= 0 && 0 <= p.m < 60 && 0 <= p.s < 60
  {
    Hms(FloorDiv(diff, 3600), FloorDiv(Rem(diff, 3600), 60), Rem(diff, 60))
  }

  /** The difference text: `${hours} hours, ${minutes} minutes, ${seconds} seconds`. */
  function DurationText(p: Hms): string
  {
    IntToString(p.h) + " hours, " + IntToString(p.m) + " minutes, " + IntToString(p.s) + " seconds"
  }

  // ---------------------------------------------------------------------------
  // Adding a duration

  /**
   * The add handler's arithmetic: seconds carry into minutes and minutes into
   * hours with `Math.floor(x / 60)`, then each field is cut with JavaScript's
   * `%` (60, 60 and 24).
   */
  function ClockSum(current: Hms, added: Hms): Hms
  {
    var s0 := current.s + added.s;
    var m0 := current.m + added.m + FloorDiv(s0, 60);
    var h0 := current.h + added.h + FloorDiv(m0, 60);
    Hms(Rem(h0, 24), Rem(m0, 60), Rem(s0, 60))
  }

  /**
   * For non-negative fields the sum is the clock reading of the summed
   * seconds, wrapped around midnight.
   */
  lemma ClockSumWraps(current: Hms, added: Hms)
    requires NonNegative(current) && NonNegative(added)
    ensures OnClock(ClockSum(current, added))
    ensures Seconds(ClockSum(current, added)) == (Seconds(current) + Seconds(added)) % SecondsPerDay
  {
    var s0 := current.s + added.s;
    var m0 := current.m + added.m + FloorDiv(s0, 60);
    var h0 := current.h + added.h + FloorDiv(m0, 60);
    WrapAroundMidnight(current, added, s0, m0, h0);
  }

  lemma WrapAroundMidnight(current: Hms, added: Hms, s0: int, m0: int, h0: int)
    requires NonNegative(current) && NonNegative(added)
    requires s0 == current.s + added.s
    requires m0 == current.m + added.m + s0 / 60
    requires h0 == current.h + added.h + m0 / 60
    ensures (Seconds(current) + Seconds(added)) % SecondsPerDay == 3600 * (h0 % 24) + 60 * (m0 % 60) + s0 % 60
  {
    var total := Seconds(current) + Seconds(added);
    var qs, rs := s0 / 60, s0 % 60;
    var qm, rm := m0 / 60, m0 % 60;
    var qh, rh := h0 / 24, h0 % 24;
    assert s0 == 60 * qs + rs && m0 == 60 * qm + rm && h0 == 24 * qh + rh;
    var rest := 3600 * rh + 60 * rm + rs;
    assert total == SecondsPerDay * qh + rest;
    DivModUnique(total, SecondsPerDay, qh, rest);
  }

  // ---------------------------------------------------------------------------
  // Subtracting a duration

  /**
   * The subtract handler's arithmetic: subtract field by field, then borrow
   * once from the minutes when the seconds are negative, once from the hours
   * when the minutes are negative, and add 24 once when the hours are
   * negative.
   */
  function ClockDifference(current: Hms, subtracted: Hms): Hms
  {
    var s0 := current.s - subtracted.s;
    var m0 := current.m - subtracted.m;
    var h0 := current.h - subtracted.h;
    var s1 := if s0 < 0 then s0 + 60 else s0;
    var m1 := if s0 < 0 then m0 - 1 else m0;
    var m2 := if m1 < 0 then m1 + 60 else m1;
    var h1 := if m1 < 0 then h0 - 1 else h0;
    var h2 := if h1 < 0 then h1 + 24 else h1;
    Hms(h2, m2, s1)
  }

  /** For two clock readings the result is the clock reading of the difference. */
  lemma ClockDifferenceWraps(current: Hms, subtracted: Hms)
    requires OnClock(current) && OnClock(subtracted)
    ensures OnClock(ClockDifference(current, subtracted))
    ensures Seconds(ClockDifference(current, subtracted)) == (Seconds(current) - Seconds(subtracted)) % SecondsPerDay
  {
  }

  /**
   * One borrow per field is all the handler does: a duration whose seconds
   * exceed the start's by more than a minute leaves negative seconds.
   */
  lemma SubtractBorrowsOnce()
    ensures ClockDifference(Hms(0, 0, 0), Hms(0, 0, 90)) == Hms(23, 59, -30)
  {
  }

  lemma SecondsDetermineClock(a: Hms, b: Hms)
    requires OnClock(a) && OnClock(b) && Seconds(a) == Seconds(b)
    ensures a == b
  {
    var x := Seconds(a);
    DivModUnique(x, 60, a.h * 60 + a.m, a.s);
    DivModUnique(x, 60, b.h * 60 + b.m, b.s);
    DivModUnique(x / 60, 60, a.h, a.m);
    DivModUnique(x / 60, 60, b.h, b.m);
  }

  /** On clock readings, subtracting what was just added gives the start time back. */
  lemma SubtractUndoesAdd(current: Hms, added: Hms)
    requires OnClock(current) && OnClock(added)
    ensures ClockDifference(ClockSum(current, added), added) == current
  {
    var sum := ClockSum(current, added);
    var back := ClockDifference(sum, added);
    ClockSumWraps(current, added);
    ClockDifferenceWraps(sum, added);
    var x := Seconds(current);
    var y := Seconds(added);
    assert Seconds(sum) == (x + y) % SecondsPerDay;
    assert Seconds(back) == ((x + y) % SecondsPerDay - y) % SecondsPerDay;
    assert (x + y) % SecondsPerDay - y == x - SecondsPerDay * ((x + y) / SecondsPerDay);
    assert 0 <= x < SecondsPerDay;
    ModuloShift(x, (x + y) / SecondsPerDay);
    SecondsDetermineClock(back, current);
  }

  lemma ModuloShift(x: int, k: int)
    requires 0 <= x < SecondsPerDay
    ensures (x - SecondsPerDay * k) % SecondsPerDay == x
  {
  }

  // ---------------------------------------------------------------------------
  // The page

  /**
   * What the difference handler leaves on the page for the two read times:
   * the format error, the order error, or the difference in hours, minutes
   * and seconds.
   */
  predicate DifferenceShown(st: Option<Hms>, et: Option<Hms>, result: Option<string>, error: Option<string>)
  {
    if st.None? || et.None? then
      error == Some(InvalidFormat) && result == None
    else if Seconds(et.value) < Seconds(st.value) then
      error == Some(EndBeforeStart) && result == None
    else
      error == None && result == Some(DurationText(DurationParts(Seconds(et.value) - Seconds(st.value))))
  }

  /**
   * What the add handler leaves on the page for a read duration and start
   * time: the duration's error first, then the start time's, else the sum.
   */
  predicate SumShown(added: Option<Hms>, current: Option<Hms>, result: Option<string>, error: Option<string>)
  {
    if added.None? then
      error == Some(InvalidFormat) && result == None
    else if current.None? then
      error == Some(InvalidStartFormat) && result == None
    else
      error == None && result == Some(FormatClock(ClockSum(current.value, added.value)))
  }

  /** The subtract handler's counterpart of `SumShown`. */
  predicate SubtractionShown(subtracted: Option<Hms>, current: Option<Hms>, result: Option<string>, error: Option<string>)
  {
    if subtracted.None? then
      error == Some(InvalidFormat) && result == None
    else if current.None? then
      error == Some(InvalidStartFormat) && result == None
    else
      error == None && result == Some(FormatClock(ClockDifference(current.value, subtracted.value)))
  }

  class TimePage {
    var startTime: string
    var endTime: string
    var addedTime: string
    var subtractedTime: string
    var result: Option<string>
    var error: Option<string>

    /** All four fields empty; no result and no error. */
    constructor ()
      ensures startTime == "" && endTime == "" && addedTime == "" && subtractedTime == ""
      ensures result == None && error == None
    {
      startTime, endTime, addedTime, subtractedTime := "", "", "", "";
      result, error := None, None;
    }

    /**
     * The Calculate Difference button: both times must read as three numbers
     * and the end must not be earlier than the start; then the difference in
     * hours, minutes and seconds is shown. Exactly one of result and error is
     * set afterwards.
     */
    method CalculateTimeDifference()
      modifies this`result, this`error
      ensures DifferenceShown(ParseTime(startTime), ParseTime(endTime), result, error)
    {
      ReportDifference(ParseTime(startTime), ParseTime(endTime));
    }

    /** The difference handler once both fields have been read. */
    method ReportDifference(st: Option<Hms>, et: Option<Hms>)
      modifies this`result, this`error
      ensures DifferenceShown(st, et, result, error)
    {
      if st.None? || et.None? {
        error, result := Some(InvalidFormat), None;
        return;
      }
      var startTimeInSeconds := Seconds(st.value);
      var endTimeInSeconds := Seconds(et.value);
      var timeDiffInSeconds := endTimeInSeconds - startTimeInSeconds;
      if timeDiffInSeconds < 0 {
        error, result := Some(EndBeforeStart), None;
        return;
      }
      var hours := FloorDiv(timeDiffInSeconds, 3600);
      var minutes := FloorDiv(Rem(timeDiffInSeconds, 3600), 60);
      var seconds := Rem(timeDiffInSeconds, 60);
      result := Some(IntToString(hours) + " hours, " + IntToString(minutes) + " minutes, "
                     + IntToString(seconds) + " seconds");
      error := None;
    }

    /**
     * The Add Time button: the duration is checked first, then the start
     * time, each with its own message; then the carried and wrapped clock
     * reading is shown.
     */
    method AddTime()
      modifies this`result, this`error
      ensures SumShown(ParseTime(addedTime), ParseTime(startTime), result, error)
    {
      var added := ParseTime(addedTime);
      var current := ParseTime(startTime);
      ReportSum(added, current);
    }

    /** The add handler once both fields have been read. */
    method ReportSum(added: Option<Hms>, current: Option<Hms>)
      modifies this`result, this`error
      ensures SumShown(added, current, result, error)
    {
      if added.None? {
        error, result := Some(InvalidFormat), None;
        return;
      }
      if current.None? {
        error, result := Some(InvalidStartFormat), None;
        return;
      }
      var newSeconds := current.value.s + added.value.s;
      var newMinutes := current.value.m + added.value.m + FloorDiv(newSeconds, 60);
      var newHours := current.value.h + added.value.h + FloorDiv(newMinutes, 60);
      newSeconds := Rem(newSeconds, 60);
      newMinutes := Rem(newMinutes, 60);
      newHours := Rem(newHours, 24);
      result := Some(FormatClock(Hms(newHours, newMinutes, newSeconds)));
      error := None;
    }

    /**
     * The Subtract Time button: the same checks as adding, then the
     * borrowed clock reading is shown.
     */
    method SubtractTime()
      modifies this`result, this`error
      ensures SubtractionShown(ParseTime(subtractedTime), ParseTime(startTime), result, error)
    {
      var subtracted := ParseTime(subtractedTime);
      var current := ParseTime(startTime);
      ReportSubtraction(subtracted, current);
    }

    /** The subtract handler once both fields have been read. */
    method ReportSubtraction(subtracted: Option<Hms>, current: Option<Hms>)
      modifies this`result, this`error
      ensures SubtractionShown(subtracted, current, result, error)
    {
      if subtracted.None? {
        error, result := Some(InvalidFormat), None;
        return;
      }
      if current.None? {
        error, result := Some(InvalidStartFormat), None;
        return;
      }
      var newSeconds := current.value.s - subtracted.value.s;
      var newMinutes := current.value.m - subtracted.value.m;
      var newHours := current.value.h - subtracted.value.h;
      if newSeconds < 0 {
        newSeconds := newSeconds + 60;
        newMinutes := newMinutes - 1;
      }
      if newMinutes < 0 {
        newMinutes := newMinutes + 60;
        newHours := newHours - 1;
      }
      if newHours < 0 {
        newHours := newHours + 24;
      }
      result := Some(FormatClock(Hms(newHours, newMinutes, newSeconds)));
      error := None;
    }
  }
}
