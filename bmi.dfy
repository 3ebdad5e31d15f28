/**
 * The BMI page: body-mass index in metric or imperial units, the BMI-method
 * body-fat estimate, the four weight categories, and the unit switch that
 * converts the entered height and weight. Values a text field turns into
 * NaN are `None`, and NaN flows through the formulas as JavaScript does.
 */
module Bmi {
  import opened Options
  import opened JsMath
  import opened Parsing
  import opened FixedPoint

  datatype Unit = Metric | Imperial
  datatype Gender = Male | Female

  datatype BmiCategory = BmiCategory(name: string, range: string, color: string)

  /** The categories from thinnest to heaviest. */
  const BmiCategories: seq<BmiCategory> := [
    BmiCategory("Underweight", "< 18.5", "bg-blue-500"),
    BmiCategory("Normal weight", "18.5 - 24.9", "bg-green-500"),
    BmiCategory("Overweight", "25 - 29.9", "bg-yellow-500"),
    BmiCategory("Obese", "\U{2265} 30", "bg-red-500")
  ]

  /**
   * The BMI before rounding: `weight / (height/100)²` in centimetres and
   * kilograms, `weight / height² · 703` in inches and pounds. A zero height
   * (an infinite BMI) is not modelled.
   */
  function RawBmi(unit: Unit, height: real, weight: real): (b: real)
    requires height != 0.0
    ensures unit == Metric ==> b * ((height / 100.0) * (height / 100.0)) == weight
    ensures unit == Imperial ==> b * (height * height) == weight * 703.0
  {
    match unit
    case Metric => weight / ((height / 100.0) * (height / 100.0))
    case Imperial => (weight / (height * height)) * 703.0
  }

  /** At a fixed height, a heavier person has a larger BMI, in either unit. */
  lemma BmiGrowsWithWeight(unit: Unit, height: real, w1: real, w2: real)
    requires height != 0.0 && w1 < w2
    ensures RawBmi(unit, height, w1) < RawBmi(unit, height, w2)
  {
    var sq := if unit == Metric then (height / 100.0) * (height / 100.0) else height * height;
    var k := if unit == Metric then 1.0 else 703.0;
    assert sq > 0.0;
    assert RawBmi(unit, height, w1) * sq == w1 * k;
    assert RawBmi(unit, height, w2) * sq == w2 * k;
    ProductOrder(RawBmi(unit, height, w1), RawBmi(unit, height, w2), sq);
  }

  lemma ProductOrder(a: real, b: real, c: real)
    requires c > 0.0 && a * c < b * c
    ensures a < b
  {
  }

  /** The BMI of the entered values, NaN when either is NaN. */
  function BmiOf(unit: Unit, height: Option<real>, weight: Option<real>): (b: Option<real>)
    requires height.Some? ==> height.value != 0.0
    ensures b.Some? <==> height.Some? && weight.Some?
    ensures b.Some? ==> b.value == RawBmi(unit, height.value, weight.value)
  {
    if height.None? || weight.None? then None
    else Some(RawBmi(unit, height.value, weight.value))
  }

  function GenderTerm(gender: Gender): real
  {
    if gender == Male then 1.0 else 0.0
  }

  /** The BMI-method body-fat percentage `1.20·bmi + 0.23·age − 10.8·[male] − 5.4`. */
  function BodyFat(bmi: real, age: int, gender: Gender): real
  {
    (1.20 * bmi) + (0.23 * age as real) - (10.8 * GenderTerm(gender)) - 5.4
  }

  /** For the same BMI and age, the estimate for a man is exactly 10.8 below a woman's. */
  lemma MaleBelowFemale(bmi: real, age: int)
    ensures BodyFat(bmi, age, Female) - BodyFat(bmi, age, Male) == 10.8
  {
  }

  /** Each extra BMI point adds 1.2 to the estimate, each year of age 0.23. */
  lemma BodyFatSlopes(bmi: real, age: int, gender: Gender)
    ensures BodyFat(bmi + 1.0, age, gender) - BodyFat(bmi, age, gender) == 1.2
    ensures BodyFat(bmi, age + 1, gender) - BodyFat(bmi, age, gender) == 0.23
  {
  }

  /**
   * `parseFloat(x.toFixed(1))`: the number rounded to one decimal, and NaN
   * kept as NaN (toFixed writes it "NaN", which parseFloat reads back as NaN).
   */
  function OneDecimal(x: Option<real>): (r: Option<real>)
    ensures r.Some? <==> x.Some?
    ensures r.Some? ==> r.value == FixedValue(x.value, 1)
    ensures r.Some? ==> -0.05 <= r.value - x.value <= 0.05
  {
    match x
    case Some(v) =>
      RoundedToTenth(v);
      ParseFloat(NumberToFixed(x, 1))
    case None =>
      NaNText();
      ParseFloat(NumberToFixed(x, 1))
  }

  /** `toFixed(1)` read back is the number rounded to the nearest tenth. */
  lemma RoundedToTenth(v: real)
    ensures ParseFloat(ToFixed(v, 1)) == Some(FixedValue(v, 1))
    ensures -0.05 <= FixedValue(v, 1) - v <= 0.05
  {
    ParseFloatOfToFixed(v, 1);
    NearTenth(v);
  }

  lemma NearTenth(v: real)
    ensures -0.05 <= FixedValue(v, 1) - v <= 0.05
  {
    FixedValueIsNear(v, 1);
    assert Pow10(1) == 10;
  }

  lemma NaNText()
    ensures ParseFloat("NaN") == None
  {
    assert TrimStart("NaN") == "NaN";
    assert SplitSign("NaN") == (false, "NaN");
    assert DigitPrefix("NaN", 10) == [];
  }

  /**
   * `getBMICategory`: the index of the category for a BMI. NaN fails every
   * comparison and lands in the last one.
   */
  function CategoryIndex(bmi: Option<real>): (i: nat)
    ensures i < |BmiCategories|
    ensures i == 0 <==> bmi.Some? && bmi.value < 18.5
    ensures i == 1 <==> bmi.Some? && 18.5 <= bmi.value < 25.0
    ensures i == 2 <==> bmi.Some? && 25.0 <= bmi.value < 30.0
    ensures i == 3 <==> bmi.None? || 30.0 <= bmi.value
  {
    if bmi.Some? && bmi.value < 18.5 then 0
    else if bmi.Some? && bmi.value < 25.0 then 1
    else if bmi.Some? && bmi.value < 30.0 then 2
    else 3
  }

  function GetBmiCategory(bmi: Option<real>): (c: BmiCategory)
    ensures c in BmiCategories
  {
    BmiCategories[CategoryIndex(bmi)]
  }

  /** A larger BMI never gets an earlier category. */
  lemma CategoryMonotone(b1: real, b2: real)
    requires b1 <= b2
    ensures CategoryIndex(Some(b1)) <= CategoryIndex(Some(b2))
  {
  }

  /** Each category is reached by some BMI, so the four ranges are all in use. */
  lemma EveryCategoryReached()
    ensures CategoryIndex(Some(18.0)) == 0 && CategoryIndex(Some(20.0)) == 1
    ensures CategoryIndex(Some(27.0)) == 2 && CategoryIndex(Some(35.0)) == 3
  {
  }

  /** `Math.round` on a number that may be NaN. */
  function RoundNumber(x: Option<real>): (r: Option<real>)
    ensures r.Some? <==> x.Some?
    ensures r.Some? ==> x.value - 0.5 < r.value <= x.value + 0.5
    ensures r.Some? ==> r.value == r.value.Floor as real
  {
    if x.Some? then Some(Round(x.value) as real) else None
  }

  /** Lengths switch between centimetres and inches at 2.54, rounded to whole units. */
  function ConvertHeight(height: Option<real>, to: Unit): (h: Option<real>)
    ensures h.Some? <==> height.Some?
    ensures h.Some? && to == Metric ==> height.value * 2.54 - 0.5 < h.value <= height.value * 2.54 + 0.5
    ensures h.Some? && to == Imperial ==> height.value / 2.54 - 0.5 < h.value <= height.value / 2.54 + 0.5
    ensures h.Some? ==> h.value == h.value.Floor as real
  {
    match to
    case Metric => RoundNumber(if height.Some? then Some(height.value * 2.54) else None)
    case Imperial => RoundNumber(if height.Some? then Some(height.value / 2.54) else None)
  }

  /** Weights switch between kilograms and pounds at 2.205, rounded to whole units. */
  function ConvertWeight(weight: Option<real>, to: Unit): (w: Option<real>)
    ensures w.Some? <==> weight.Some?
    ensures w.Some? && to == Metric ==> weight.value / 2.205 - 0.5 < w.value <= weight.value / 2.205 + 0.5
    ensures w.Some? && to == Imperial ==> weight.value * 2.205 - 0.5 < w.value <= weight.value * 2.205 + 0.5
    ensures w.Some? ==> w.value == w.value.Floor as real
  {
    match to
    case Metric => RoundNumber(if weight.Some? then Some(weight.value / 2.205) else None)
    case Imperial => RoundNumber(if weight.Some? then Some(weight.value * 2.205) else None)
  }

  /**
   * Switching to imperial and back leaves a height within 1.77 cm of where
   * it was: each rounding is off by at most half a unit.
   */
  lemma HeightRoundTrip(h: real)
    ensures ConvertHeight(ConvertHeight(Some(h), Imperial), Metric).Some?
    ensures -1.77 <= ConvertHeight(ConvertHeight(Some(h), Imperial), Metric).value - h <= 1.77
  {
    var inches := ConvertHeight(Some(h), Imperial).value;
    assert h / 2.54 - 0.5 < inches <= h / 2.54 + 0.5;
    var back := ConvertHeight(Some(inches), Metric).value;
    assert inches * 2.54 - 0.5 < back <= inches * 2.54 + 0.5;
    ScaleBand(inches, h / 2.54, 2.54);
    assert (h / 2.54) * 2.54 == h;
  }

  /**
   * Switching to imperial and back leaves a weight less than a kilogram
   * from where it was.
   */
  lemma WeightRoundTrip(w: real)
    ensures ConvertWeight(ConvertWeight(Some(w), Imperial), Metric).Some?
    ensures -1.0 < ConvertWeight(ConvertWeight(Some(w), Imperial), Metric).value - w < 1.0
  {
    var pounds := ConvertWeight(Some(w), Imperial).value;
    assert w * 2.205 - 0.5 < pounds <= w * 2.205 + 0.5;
    var back := ConvertWeight(Some(pounds), Metric).value;
    assert pounds / 2.205 - 0.5 < back <= pounds / 2.205 + 0.5;
    ScaleBand(pounds, w * 2.205, 1.0 / 2.205);
    assert (w * 2.205) * (1.0 / 2.205) == w;
    assert pounds * (1.0 / 2.205) == pounds / 2.205;
  }

  /** Scaling two numbers at most half apart keeps them at most half the factor apart. */
  lemma ScaleBand(a: real, b: real, k: real)
    requires k > 0.0 && b - 0.5 < a <= b + 0.5
    ensures b * k - 0.5 * k < a * k <= b * k + 0.5 * k
  {
    assert (a - b) * k <= 0.5 * k;
    assert (a - b) * k > -0.5 * k;
  }

  class BmiPage {
    var unit: Unit
    var gender: Gender
    /** The age slider runs from 2 to 120. */
    var age: int
    var height: Option<real>
    var weight: Option<real>
    var bmi: Option<real>
    var bodyFat: Option<real>

    /** The page opens in metric, male, aged 30, 170 cm and 70 kg, with BMI and body fat 0. */
    constructor ()
      ensures unit == Metric && gender == Male && age == 30
      ensures height == Some(170.0) && weight == Some(70.0)
      ensures bmi == Some(0.0) && bodyFat == Some(0.0)
    {
      unit, gender, age := Metric, Male, 30;
      height, weight := Some(170.0), Some(70.0);
      bmi, bodyFat := Some(0.0), Some(0.0);
    }

    /** The height field: its text through `parseFloat`. */
    method SetHeight(text: string)
      modifies this`height
      ensures height == ParseFloat(text)
    {
      height := ParseFloat(text);
    }

    /** The weight field: its text through `parseFloat`. */
    method SetWeight(text: string)
      modifies this`weight
      ensures weight == ParseFloat(text)
    {
      weight := ParseFloat(text);
    }

    method SetAge(a: int)
      requires 2 <= a <= 120
      modifies this`age
      ensures age == a
    {
      age := a;
    }

    method SetGender(g: Gender)
      modifies this`gender
      ensures gender == g
    {
      gender := g;
    }

    /**
     * `calculateBMI`, run whenever an input changes: the BMI shown to one
     * decimal, and the body fat computed from the unrounded BMI, also to
     * one decimal.
     */
    method CalculateBmi()
      requires height.Some? ==> height.value != 0.0
      modifies this`bmi, this`bodyFat
      ensures bmi == OneDecimal(BmiOf(unit, height, weight))
      ensures bodyFat.Some? <==> height.Some? && weight.Some?
      ensures bodyFat.Some? ==>
        bodyFat.value == FixedValue(BodyFat(RawBmi(unit, height.value, weight.value), age, gender), 1)
    {
      var calculatedBmi := BmiOf(unit, height, weight);
      bmi := OneDecimal(calculatedBmi);
      var bodyFatPercentage := if calculatedBmi.Some? then Some(BodyFat(calculatedBmi.value, age, gender)) else None;
      bodyFat := OneDecimal(bodyFatPercentage);
    }

    /** The category the page shows, taken from the rounded BMI. */
    function Category(): (c: BmiCategory)
      reads this
      ensures c in BmiCategories
    {
      GetBmiCategory(bmi)
    }

    /**
     * `handleUnitChange`: choosing the current unit changes nothing;
     * choosing the other converts height and weight, each rounded.
     */
    method HandleUnitChange(newUnit: Unit)
      modifies this`unit, this`height, this`weight
      ensures unit == newUnit
      ensures newUnit == old(unit) ==> height == old(height) && weight == old(weight)
      ensures newUnit != old(unit) ==>
        height == ConvertHeight(old(height), newUnit) && weight == ConvertWeight(old(weight), newUnit)
    {
      if newUnit != unit {
        unit := newUnit;
        height := ConvertHeight(height, newUnit);
        weight := ConvertWeight(weight, newUnit);
      }
    }
  }
}
