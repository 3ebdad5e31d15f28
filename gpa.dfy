/**
 * The GPA page: the course list, the credit-weighted average over the grade
 * table of the chosen scale, the conversions between a GPA and a
 * percentile, and the history of calculations.
 *
 * A JavaScript number that may be NaN is an `Option<real>`, `None` standing
 * for NaN.
 */
module Gpa {
  import opened Options
  import opened Parsing
  import opened FixedPoint
  import History

  /** The three grade scales the picker offers. */
  type Scale = s: int | s == 4 || s == 8 || s == 10 witness 4

  /** The grades the grade picker offers, best first. */
  const Grades: seq<string> := ["A+", "A", "B+", "B", "C+", "C", "D", "F"]

  const NotSupported: string := "Not supported for 8-point scale"

  /**
   * The grade table of a scale. Every offered grade has points between 0 and
   * the scale, A+ is worth the whole scale, and only F is worth nothing; any
   * other grade text has no entry.
   */
  function GradePoints(scale: Scale, grade: string): (p: Option<real>)
    ensures p.Some? <==> grade in Grades
    ensures p.Some? ==> 0.0 <= p.value <= scale as real
    ensures p == Some(0.0) <==> grade == "F"
    ensures grade == "A+" ==> p == Some(scale as real)
  {
    var table: seq<real> :=
      if scale == 4 then [4.0, 3.7, 3.3, 3.0, 2.3, 2.0, 1.0, 0.0]
      else if scale == 8 then [8.0, 7.0, 6.0, 5.0, 4.0, 3.0, 2.0, 0.0]
      else [10.0, 9.0, 8.0, 7.0, 6.0, 5.0, 4.0, 0.0];
    if grade == "A+" then Some(table[0])
    else if grade == "A" then Some(table[1])
    else if grade == "B+" then Some(table[2])
    else if grade == "B" then Some(table[3])
    else if grade == "C+" then Some(table[4])
    else if grade == "C" then Some(table[5])
    else if grade == "D" then Some(table[6])
    else if grade == "F" then Some(table[7])
    else None
  }

  datatype Course = Course(name: string, grade: string, credits: string)

  datatype CourseField = Name | Grade | Credits

  /** A new row: no name, grade A, three credits. */
  const NewCourse: Course := Course("", "A", "3")

  /** What the loop reads off a course: its grade's points and its credits as a number. */
  datatype Reading = Reading(points: Option<real>, credits: Option<real>)

  function ReadCourse(scale: Scale, c: Course): Reading
  {
    Reading(GradePoints(scale, c.grade), ParseFloat(c.credits))
  }

  /** The readings of the courses, in list order. */
  function Readings(scale: Scale, courses: seq<Course>): (rs: seq<Reading>)
    ensures |rs| == |courses|
  {
    seq(|courses|, k requires 0 <= k < |courses| => ReadCourse(scale, courses[k]))
  }

  lemma ReadingAt(scale: Scale, courses: seq<Course>, k: nat)
    requires k < |courses|
    ensures Readings(scale, courses)[k] == ReadCourse(scale, courses[k])
  {
  }

  /**
   * Which courses the average leaves out. `SkipFalsy` is the page's rule
   * `!gradePoints || isNaN(credits)`, which also leaves out every F because
   * its 0 points are falsy; `SkipUnknown` leaves out only a grade with no
   * table entry or credits that do not read as a number.
   */
  datatype SkipRule = SkipFalsy | SkipUnknown

  predicate Skipped(rule: SkipRule, r: Reading)
  {
    || r.points.None?
    || r.credits.None?
    || (rule == SkipFalsy && r.points.value == 0.0)
  }

  datatype Totals = Totals(credits: real, points: real)

  /**
   * What one course does to the totals: a skipped course leaves them as
   * they were, a counted one adds its credits, and its points weighted by
   * its credits.
   */
  function Step(rule: SkipRule, t: Totals, r: Reading): Totals
  {
    if Skipped(rule, r) then t
    else Totals(t.credits + r.credits.value, t.points + r.points.value * r.credits.value)
  }

  /** The running totals after the given readings, in list order. */
  function Tally(rule: SkipRule, rs: seq<Reading>): Totals
  {
    if rs == [] then Totals(0.0, 0.0)
    else Step(rule, Tally(rule, rs[..|rs| - 1]), rs[|rs| - 1])
  }

  /** The totals after the first `i + 1` readings are one step on from those after `i`. */
  lemma TallyStep(rule: SkipRule, rs: seq<Reading>, i: nat)
    requires i < |rs|
    ensures Tally(rule, rs[..i + 1]) == Step(rule, Tally(rule, rs[..i]), rs[i])
  {
    assert rs[..i + 1][..i] == rs[..i];
  }

  /**
   * The loop body of the Calculate GPA button as the page has it: a course
   * is passed over when its grade points are falsy (no table entry, or the
   * 0 of an F) or its credits are not a number; any other course adds its
   * credits and its weighted points.
   */
  method CountCourseAsWritten(reading: Reading, totalCredits: real, totalPoints: real)
      returns (newCredits: real, newPoints: real)
    ensures Totals(newCredits, newPoints) == Step(SkipFalsy, Totals(totalCredits, totalPoints), reading)
  {
    newCredits, newPoints := totalCredits, totalPoints;
    if reading.points.None? || reading.points.value == 0.0 || reading.credits.None? {
      return;
    }
    newCredits := totalCredits + reading.credits.value;
    newPoints := totalPoints + reading.points.value * reading.credits.value;
  }

  /**
   * The loop body with the intended rule: a course whose grade has no table
   * entry or whose credits are not a number is passed over; any other
   * course, an F included, adds its credits and its weighted points.
   */
  method CountCourse(reading: Reading, totalCredits: real, totalPoints: real)
      returns (newCredits: real, newPoints: real)
    ensures Totals(newCredits, newPoints) == Step(SkipUnknown, Totals(totalCredits, totalPoints), reading)
  {
    newCredits, newPoints := totalCredits, totalPoints;
    if reading.points.None? || reading.credits.None? {
      return;
    }
    newCredits := totalCredits + reading.credits.value;
    newPoints := totalPoints + reading.points.value * reading.credits.value;
  }

  /** An F of three credits on the 4-point scale reads as no points and three credits. */
  lemma ThreeCreditF()
    ensures ReadCourse(4, Course("", "F", "3")) == Reading(Some(0.0), Some(3.0))
    ensures ReadCourse(4, Course("", "A+", "3")) == Reading(Some(4.0), Some(3.0))
  {
    assert NatToString(3) == "3";
    ParseFloatOfNat(3);
  }

  /**
   * With the intended rule an F counts: it adds its credits and no points,
   * so it pulls the average down.
   */
  lemma FailingGradeCounts(rs: seq<Reading>, credits: real)
    ensures Tally(SkipUnknown, rs + [Reading(Some(0.0), Some(credits))])
         == Totals(Tally(SkipUnknown, rs).credits + credits, Tally(SkipUnknown, rs).points)
  {
    assert (rs + [Reading(Some(0.0), Some(credits))])[..|rs|] == rs;
  }

  /**
   * The page's rule drops an F entirely: an A+ and an F of three credits
   * each average to 4.0 on the 4-point scale, where 2.0 is meant.
   */
  lemma FailingGradeIgnored()
    ensures var rs := Readings(4, [Course("", "A+", "3"), Course("", "F", "3")]);
            && Tally(SkipFalsy, rs) == Totals(3.0, 12.0)
            && Tally(SkipUnknown, rs) == Totals(6.0, 12.0)
  {
    ThreeCreditF();
    var rs := Readings(4, [Course("", "A+", "3"), Course("", "F", "3")]);
    assert rs == [Reading(Some(4.0), Some(3.0)), Reading(Some(0.0), Some(3.0))];
    assert rs[..1] == [Reading(Some(4.0), Some(3.0))];
    assert rs[..1][..0] == [];
  }

  /** Every counted course has a positive number of credits. */
  predicate PositiveCredits(rule: SkipRule, rs: seq<Reading>)
  {
    forall k :: 0 <= k < |rs| && !Skipped(rule, rs[k]) ==> rs[k].credits.value > 0.0
  }

  /** Every grade's points lie between nothing and the scale. */
  predicate PointsWithin(scale: real, rs: seq<Reading>)
  {
    forall k :: 0 <= k < |rs| && rs[k].points.Some? ==> 0.0 <= rs[k].points.value <= scale
  }

  /** Totals whose points lie between nothing and the scale times the credits. */
  predicate TotalsWithin(scale: real, t: Totals)
  {
    0.0 <= t.credits && 0.0 <= t.points <= scale * t.credits
  }

  /**
   * With positive credits the points stay between nothing and the scale
   * times the credits, so the average lies within the scale.
   */
  lemma {:induction false} TallyWithinScale(rule: SkipRule, scale: real, rs: seq<Reading>)
    requires PositiveCredits(rule, rs) && PointsWithin(scale, rs)
    ensures TotalsWithin(scale, Tally(rule, rs))
  {
    if rs != [] {
      var init := rs[..|rs| - 1];
      assert PositiveCredits(rule, init) && PointsWithin(scale, init) by {
        forall k | 0 <= k < |init|
          ensures init[k] == rs[k]
        {
        }
      }
      TallyWithinScale(rule, scale, init);
      var t := Tally(rule, init);
      var r := rs[|rs| - 1];
      if Skipped(rule, r) {
        assert Tally(rule, rs) == t;
      } else {
        var points, credits := r.points.value, r.credits.value;
        assert Tally(rule, rs) == Totals(t.credits + credits, t.points + points * credits);
        AddWeighted(t.points, t.credits, points, credits, scale);
      }
    }
  }

  lemma AddWeighted(totalPoints: real, totalCredits: real, points: real, credits: real, scale: real)
    requires 0.0 <= totalCredits && 0.0 <= totalPoints <= scale * totalCredits
    requires 0.0 <= points <= scale && credits > 0.0
    ensures 0.0 <= totalCredits + credits
    ensures 0.0 <= totalPoints + points * credits <= scale * (totalCredits + credits)
  {
    assert 0.0 <= points * credits <= scale * credits;
    assert scale * (totalCredits + credits) == scale * totalCredits + scale * credits;
  }

  /** The readings of a course list take their points from the grade table of the scale. */
  lemma ReadingsWithinScale(scale: Scale, courses: seq<Course>)
    ensures PointsWithin(scale as real, Readings(scale, courses))
  {
    var rs := Readings(scale, courses);
    forall k | 0 <= k < |rs| && rs[k].points.Some?
      ensures 0.0 <= rs[k].points.value <= scale as real
    {
      ReadingAt(scale, courses, k);
    }
  }

  /** The GPA: the weighted points over the credits. */
  function Average(t: Totals): real
    requires t.credits != 0.0
  {
    t.points / t.credits
  }

  /** The average the page shows lies between 0 and the scale. */
  lemma GpaWithinScale(rule: SkipRule, scale: Scale, courses: seq<Course>)
    requires PositiveCredits(rule, Readings(scale, courses))
    requires Tally(rule, Readings(scale, courses)).credits != 0.0
    ensures 0.0 <= Average(Tally(rule, Readings(scale, courses))) <= scale as real
  {
    ReadingsWithinScale(scale, courses);
    TallyWithinScale(rule, scale as real, Readings(scale, courses));
    AverageBelow(Tally(rule, Readings(scale, courses)), scale as real);
  }

  lemma AverageBelow(t: Totals, scale: real)
    requires 0.0 < t.credits && TotalsWithin(scale, t)
    ensures 0.0 <= Average(t) <= scale
  {
    var g := t.points / t.credits;
    assert t.points == g * t.credits;
    if g > scale {
      assert (g - scale) * t.credits > 0.0;
    }
  }

  // ---------------------------------------------------------------------------
  // Percentiles

  /** `gpa / scale · 100` on the 4- and 10-point scales; nothing on the 8-point scale. */
  function PercentileValue(scale: Scale, gpa: real): (p: Option<real>)
    ensures scale == 8 <==> p.None?
    ensures p.Some? ==> p.value * scale as real == gpa * 100.0
  {
    if scale == 4 then Some(gpa / 4.0 * 100.0)
    else if scale == 10 then Some(gpa / 10.0 * 100.0)
    else None
  }

  /**
   * `percentile / 100 · scale` on the 4- and 10-point scales; on the 8-point
   * scale the answer is 0 whatever the input, even NaN.
   */
  function PercentileToGpa(scale: Scale, percentile: Option<real>): (g: Option<real>)
    ensures scale == 8 ==> g == Some(0.0)
    ensures scale != 8 ==> (g.Some? <==> percentile.Some?)
    ensures scale != 8 && g.Some? ==> g.value * 100.0 == percentile.value * scale as real
  {
    if scale == 4 then
      (match percentile case None => None case Some(p) => Some(p / 100.0 * 4.0))
    else if scale == 10 then
      (match percentile case None => None case Some(p) => Some(p / 100.0 * 10.0))
    else Some(0.0)
  }

  /** On the 4- and 10-point scales the two conversions undo each other, both ways round. */
  lemma PercentileRoundTrip(scale: Scale, gpa: real, percentile: real)
    requires scale != 8
    ensures PercentileToGpa(scale, PercentileValue(scale, gpa)) == Some(gpa)
    ensures PercentileValue(scale, PercentileToGpa(scale, Some(percentile)).value) == Some(percentile)
  {
  }

  /**
   * `gpaToPercentile`: the percentile with two decimals and a percent sign,
   * "NaN%" for a NaN GPA, and the refusal on the 8-point scale.
   */
  function GpaToPercentile(scale: Scale, gpa: Option<real>): (s: string)
    ensures scale == 8 ==> s == NotSupported
    ensures scale != 8 && gpa.None? ==> s == "NaN%"
    ensures scale != 8 && gpa.Some? ==> s == ToFixed(PercentileValue(scale, gpa.value).value, 2) + "%"
  {
    if scale == 8 then NotSupported
    else
      var p := match gpa case None => None case Some(g) => PercentileValue(scale, g);
      NumberToFixed(p, 2) + "%"
  }

  /** The GPA line: "Your GPA is: " and the GPA with two decimals. */
  function GpaText(fixed: string): string
  {
    "Your GPA is: " + fixed
  }

  /** A line the page writes into `gpa`: the label and then a number text without spaces. */
  predicate IsGpaLine(line: string)
  {
    |line| >= 13 && line[..13] == "Your GPA is: " && ' ' !in line[13..]
  }

  /** The GPA line splits on spaces into the three label words and the number. */
  lemma GpaTextWords(fixed: string)
    requires ' ' !in fixed
    ensures Split(GpaText(fixed), ' ') == ["Your", "GPA", "is:", fixed]
  {
    var third := "is: " + fixed;
    var second := "GPA " + third;
    assert third == "is:" + [' '] + fixed;
    assert second == "GPA" + [' '] + third;
    assert GpaText(fixed) == "Your" + [' '] + second;
    SplitSeparatorFree(fixed, ' ');
    SplitPrefix("is:", ' ', fixed);
    SplitPrefix("GPA", ' ', third);
    SplitPrefix("Your", ' ', second);
  }

  /** `parseFloat(gpa.split(" ")[2])`, as the percentile button reads the GPA line. */
  function ReadGpaAsWritten(gpaLine: string): Option<real>
  {
    var words := Split(gpaLine, ' ');
    if |words| > 2 then ParseFloat(words[2]) else None
  }

  /** `parseFloat(gpa.split(" ")[3])`: the word that holds the number. */
  function ReadGpa(gpaLine: string): Option<real>
  {
    var words := Split(gpaLine, ' ');
    if |words| > 3 then ParseFloat(words[3]) else None
  }

  /**
   * The percentile button reads the word "is:", which is not a number, so
   * after any GPA it shows "NaN%" on the 4- and 10-point scales.
   */
  lemma PercentileReadsLabel(scale: Scale, fixed: string)
    requires ' ' !in fixed
    ensures ReadGpaAsWritten(GpaText(fixed)) == None
    ensures scale != 8 ==> GpaToPercentile(scale, ReadGpaAsWritten(GpaText(fixed))) == "NaN%"
  {
    GpaTextWords(fixed);
    assert ParseUnsignedFloat("is:") == None by {
      assert DigitPrefix("is:", 10) == [];
      assert FractionDigits("is:") == [];
    }
    assert SplitSign(TrimStart("is:")) == (false, "is:");
  }

  /** Reading the fourth word gives back the GPA shown, to its two decimals. */
  lemma PercentileReadsGpa(gpa: real)
    ensures ReadGpa(GpaText(ToFixed(gpa, 2))) == Some(FixedValue(gpa, 2))
  {
    GpaTextWords(ToFixed(gpa, 2));
    ParseFloatOfToFixed(gpa, 2);
  }

  /** After any line the page writes into `gpa`, the percentile button shows "NaN%". */
  lemma PercentileOfGpaLine(scale: Scale, line: string)
    requires IsGpaLine(line) && scale != 8
    ensures "Your Percentile is: " + GpaToPercentile(scale, ReadGpaAsWritten(line)) == "Your Percentile is: NaN%"
  {
    assert line == GpaText(line[13..]);
    PercentileReadsLabel(scale, line[13..]);
  }

  /** One saved calculation: the credits counted and the GPA with two decimals. */
  datatype GpaEntry = GpaEntry(totalCredits: real, gpa: string)

  /** `percentage || "0"`: an empty or missing conversion input reads as "0". */
  function OrZero(text: Option<string>): (s: string)
    ensures s != ""
  {
    if text.None? || text.value == "" then "0" else text.value
  }

  class GpaPage {
    var courses: seq<Course>
    var gpa: Option<string>
    var history: seq<GpaEntry>
    var scale: Scale
    var percentile: Option<string>
    var percentage: Option<string>

    /** No courses, no GPA and no history, on the 4-point scale. */
    constructor ()
      ensures courses == [] && gpa == None && history == [] && scale == 4
      ensures percentile == None && percentage == None
    {
      courses, gpa, history, scale := [], None, [], 4;
      percentile, percentage := None, None;
    }

    /** The Add Course button appends a new row and keeps the others. */
    method AddCourse()
      modifies this`courses
      ensures courses == old(courses) + [NewCourse]
      ensures courses[..|courses| - 1] == old(courses)
    {
      courses := courses + [NewCourse];
    }

    /** Editing a field of a row: only that field of that row changes. */
    method HandleCourseChange(index: nat, field: CourseField, value: string)
      requires index < |courses|
      modifies this`courses
      ensures |courses| == |old(courses)|
      ensures forall k :: 0 <= k < |courses| && k != index ==> courses[k] == old(courses)[k]
      ensures field == Name ==> courses[index] == old(courses)[index].(name := value)
      ensures field == Grade ==> courses[index] == old(courses)[index].(grade := value)
      ensures field == Credits ==> courses[index] == old(courses)[index].(credits := value)
    {
      var course := courses[index];
      var updated := match field
        case Name => course.(name := value)
        case Grade => course.(grade := value)
        case Credits => course.(credits := value);
      courses := courses[index := updated];
    }

    method SetScale(s: Scale)
      modifies this`scale
      ensures scale == s
    {
      scale := s;
    }

    method SetPercentage(value: string)
      modifies this`percentage
      ensures percentage == Some(value)
    {
      percentage := Some(value);
    }

    /**
     * The Calculate GPA button as the page has it, which passes over every
     * F (see `FailingGradeIgnored`).
     */
    method CalculateGpa()
      modifies this`gpa, this`history
      ensures var t := Tally(SkipFalsy, Readings(scale, courses));
              t.credits == 0.0 ==> gpa == old(gpa) && history == old(history)
      ensures var t := Tally(SkipFalsy, Readings(scale, courses));
              t.credits != 0.0 ==>
                && gpa == Some(GpaText(ToFixed(Average(t), 2)))
                && history == [GpaEntry(t.credits, ToFixed(Average(t), 2))] + old(history)
    {
      CalculateGpaUnder(SkipFalsy);
    }

    /** The Calculate GPA button with the intended rule, which counts an F. */
    method CalculateGpaIntended()
      modifies this`gpa, this`history
      ensures var t := Tally(SkipUnknown, Readings(scale, courses));
              t.credits == 0.0 ==> gpa == old(gpa) && history == old(history)
      ensures var t := Tally(SkipUnknown, Readings(scale, courses));
              t.credits != 0.0 ==>
                && gpa == Some(GpaText(ToFixed(Average(t), 2)))
                && history == [GpaEntry(t.credits, ToFixed(Average(t), 2))] + old(history)
    {
      CalculateGpaUnder(SkipUnknown);
    }

    /**
     * The Calculate GPA button under a skip rule. With no credits counted it
     * raises an alert and changes nothing; otherwise it shows the average
     * with two decimals and puts one entry in front of the history.
     */
    method CalculateGpaUnder(rule: SkipRule)
      modifies this`gpa, this`history
      ensures var t := Tally(rule, Readings(scale, courses));
              t.credits == 0.0 ==> gpa == old(gpa) && history == old(history)
      ensures var t := Tally(rule, Readings(scale, courses));
              t.credits != 0.0 ==>
                && gpa == Some(GpaText(ToFixed(Average(t), 2)))
                && history == [GpaEntry(t.credits, ToFixed(Average(t), 2))] + old(history)
    {
      var totalCredits, totalPoints := SumCourses(rule);
      if totalCredits == 0.0 {
        return;
      }
      var calculatedGpa := totalPoints / totalCredits;
      gpa := Some(GpaText(ToFixed(calculatedGpa, 2)));
      history := [GpaEntry(totalCredits, ToFixed(calculatedGpa, 2))] + history;
    }

    /** The loop of the Calculate GPA button: it totals the courses in list order. */
    method SumCourses(rule: SkipRule) returns (totalCredits: real, totalPoints: real)
      ensures Totals(totalCredits, totalPoints) == Tally(rule, Readings(scale, courses))
    {
      ghost var readings := Readings(scale, courses);
      totalCredits, totalPoints := 0.0, 0.0;
      var i := 0;
      while i < |courses|
        invariant 0 <= i <= |courses|
        invariant Tally(rule, readings[..i]) == Totals(totalCredits, totalPoints)
      {
        var reading := ReadCourse(scale, courses[i]);
        ReadingAt(scale, courses, i);
        TallyStep(rule, readings, i);
        if rule == SkipFalsy {
          totalCredits, totalPoints := CountCourseAsWritten(reading, totalCredits, totalPoints);
        } else {
          totalCredits, totalPoints := CountCourse(reading, totalCredits, totalPoints);
        }
        i := i + 1;
      }
      assert readings[..i] == readings;
    }

    /**
     * The Calculate Percentile button as the page has it: it reads the third
     * word of the GPA line, which is the label "is:", so after any GPA line
     * it shows "NaN%" on the 4- and 10-point scales. With no GPA shown it
     * does nothing.
     */
    method CalculatePercentile()
      modifies this`percentile
      ensures gpa.None? || gpa.value == "" ==> percentile == old(percentile)
      ensures gpa.Some? && gpa.value != "" ==>
                percentile == Some("Your Percentile is: " + GpaToPercentile(scale, ReadGpaAsWritten(gpa.value)))
      ensures gpa.Some? && IsGpaLine(gpa.value) && scale != 8 ==>
                percentile == Some("Your Percentile is: NaN%")
    {
      if gpa.Some? && gpa.value != "" {
        var gpaValue := ReadGpaAsWritten(gpa.value);
        if IsGpaLine(gpa.value) && scale != 8 {
          PercentileOfGpaLine(scale, gpa.value);
        }
        percentile := Some("Your Percentile is: " + GpaToPercentile(scale, gpaValue));
      }
    }

    /**
     * The Calculate Percentile button with the intended read of the fourth
     * word, the number; with no GPA shown it does nothing.
     */
    method CalculatePercentileIntended()
      modifies this`percentile
      ensures gpa.None? || gpa.value == "" ==> percentile == old(percentile)
      ensures gpa.Some? && gpa.value != "" ==>
                percentile == Some("Your Percentile is: " + GpaToPercentile(scale, ReadGpa(gpa.value)))
    {
      if gpa.Some? && gpa.value != "" {
        var gpaValue := ReadGpa(gpa.value);
        percentile := Some("Your Percentile is: " + GpaToPercentile(scale, gpaValue));
      }
    }

    /** The Convert GPA to Percentile button, on the conversion input. */
    method ConvertGpaToPercentile()
      modifies this`percentile
      ensures percentile == Some(GpaToPercentile(scale, ParseFloat(OrZero(percentage))))
    {
      percentile := Some(GpaToPercentile(scale, ParseFloat(OrZero(percentage))));
    }

    /** The Convert Percentile to GPA button, on the conversion input. */
    method ConvertPercentileToGpa()
      modifies this`gpa
      ensures gpa == Some(GpaText(NumberToFixed(PercentileToGpa(scale, ParseFloat(OrZero(percentage))), 2)))
    {
      gpa := Some(GpaText(NumberToFixed(PercentileToGpa(scale, ParseFloat(OrZero(percentage))), 2)));
    }

    /** The delete button of history entry `index`: that entry goes, the rest keep their order. */
    method DeleteHistoryEntry(index: nat)
      modifies this`history
      ensures history == History.RemoveAt(old(history), index)
    {
      history := History.RemoveAt(history, index);
    }

    method ClearHistory()
      modifies this`history
      ensures history == []
    {
      history := [];
    }
  }
}
