/**
 * The compound-interest page: `A = P·(1 + r/n)^(n·t)` from four text
 * fields, the interest `A − P`, and an unbounded newest-first history.
 * A NaN field is `None`. Only whole, non-negative period counts `n·t` are
 * modelled, since `Math.pow` with a fractional exponent is outside exact
 * real arithmetic.
 */
module CompoundInterest {
  import opened Options
  import opened JsMath
  import opened Parsing
  import opened FixedPoint

  /** The parsed form fields: principal, yearly rate as a fraction, years, compounds per year. */
  datatype Inputs = Inputs(p: real, r: real, t: real, n: real)

  /**
   * The fields through `parseFloat`, the rate divided by 100; `None` when
   * any of them is NaN, which the page answers with an alert.
   */
  function ReadInputs(principal: string, rate: string, time: string, compounds: string): (x: Option<Inputs>)
    ensures x.Some? <==>
      ParseFloat(principal).Some? && ParseFloat(rate).Some? && ParseFloat(time).Some? && ParseFloat(compounds).Some?
    ensures x.Some? ==>
      && x.value.p == ParseFloat(principal).value
      && x.value.r * 100.0 == ParseFloat(rate).value
      && x.value.t == ParseFloat(time).value
      && x.value.n == ParseFloat(compounds).value
  {
    var P, r, t, n := ParseFloat(principal), ParseFloat(rate), ParseFloat(time), ParseFloat(compounds);
    if P.None? || r.None? || t.None? || n.None? then None
    else Some(Inputs(P.value, r.value / 100.0, t.value, n.value))
  }

  /**
   * What the model of the formula needs beyond the page's NaN guard: a
   * whole, non-negative period count `n·t`.
   */
  predicate Compoundable(x: Inputs)
  {
    IsWholeCount(Exponent(x))
  }

  /** The exponent `n·t` of the formula. */
  function Exponent(x: Inputs): real
  {
    x.n * x.t
  }

  predicate IsWholeCount(v: real)
  {
    v >= 0.0 && v.Floor as real == v
  }

  /** The exponent as a whole number of compounding periods. */
  function Periods(x: Inputs): (k: nat)
    requires Compoundable(x)
    ensures k as real == x.n * x.t
  {
    WholeCount(Exponent(x))
  }

  function WholeCount(v: real): (k: nat)
    requires IsWholeCount(v)
    ensures k as real == v
  {
    v.Floor
  }

  /** `p` grown for `k` periods at `g` per period. */
  function AmountAfter(p: real, g: real, k: nat): real
  {
    p * Pow(1.0 + g, k)
  }

  /**
   * `A = P·(1 + r/n)^(n·t)`. With no compounds `r/n` is infinite or NaN, but
   * the exponent `n·t` is 0 and `Math.pow` of anything to the power 0 is 1,
   * so the amount is the principal.
   */
  function Amount(x: Inputs): real
    requires Compoundable(x)
  {
    if x.n == 0.0 then x.p else AmountAfter(x.p, x.r / x.n, Periods(x))
  }

  /** `CI = A − P`: the interest is what the amount adds to the principal. */
  function Interest(x: Inputs): (ci: real)
    requires Compoundable(x)
    ensures x.p + ci == Amount(x)
  {
    Amount(x) - x.p
  }

  /**
   * With no periods (no time, or no compounds) the amount is the principal
   * and there is no interest.
   */
  lemma NoPeriodsNoInterest(x: Inputs)
    requires IsWholeCount(x.n * x.t) && x.n * x.t == 0.0
    ensures Amount(x) == x.p && Interest(x) == 0.0
  {
    assert Periods(x) == 0;
  }

  /**
   * Zero compounds a year pass the page's guard and show the principal as
   * the total, with no interest, whatever the time.
   */
  lemma NoCompoundsNoInterest(x: Inputs)
    requires x.n == 0.0
    ensures Compoundable(x)
    ensures Amount(x) == x.p && Interest(x) == 0.0
  {
    assert Exponent(x) == 0.0;
  }

  /** Growing for `k1` periods and then `k2` more is growing for `k1 + k2`. */
  lemma AmountAfterSplits(p: real, g: real, k1: nat, k2: nat)
    ensures AmountAfter(AmountAfter(p, g, k1), g, k2) == AmountAfter(p, g, k1 + k2)
  {
    PowAdd(1.0 + g, k1, k2);
    assert p * (Pow(1.0 + g, k1) * Pow(1.0 + g, k2)) == (p * Pow(1.0 + g, k1)) * Pow(1.0 + g, k2);
  }

  /** A positive principal at a positive rate earns positive interest in any positive time. */
  lemma PositiveRateEarns(x: Inputs)
    requires Compoundable(x) && x.p > 0.0 && x.r > 0.0 && x.n > 0.0 && x.n * x.t > 0.0
    ensures Interest(x) > 0.0
  {
    assert x.r / x.n > 0.0;
    PowAboveOne(1.0 + x.r / x.n, Periods(x));
    var q := Pow(1.0 + x.r / x.n, Periods(x));
    assert Interest(x) == x.p * q - x.p;
    PositiveProduct(x.p, q - 1.0);
    assert x.p * q - x.p == x.p * (q - 1.0);
  }

  lemma PositiveProduct(a: real, b: real)
    requires a > 0.0 && b > 0.0
    ensures a * b > 0.0
  {
  }

  /** The result line: `Compound Interest: <CI>, Total Amount: <A>`, both to two decimals. */
  function ResultText(x: Inputs): (s: string)
    requires Compoundable(x)
  {
    "Compound Interest: " + ToFixed(Interest(x), 2) + ", Total Amount: " + ToFixed(Amount(x), 2)
  }

  /**
   * One history line's contents: the parsed principal, the rate, time and
   * compounds as typed, and the interest and amount to two decimals. The
   * text template around them, which writes the principal with
   * `Number.prototype.toString`, is not rendered here.
   */
  datatype CompoundEntry = CompoundEntry(
    principal: real, rate: string, time: string, compounds: string, interest: string, total: string)

  class CompoundInterestPage {
    var principal: string
    var rate: string
    var time: string
    var compounds: string
    var result: Option<string>
    var history: seq<CompoundEntry>

    /** The form opens empty, compounding once a year, with no result and no history. */
    constructor ()
      ensures principal == "" && rate == "" && time == "" && compounds == "1"
      ensures result == None && history == []
    {
      principal, rate, time, compounds := "", "", "", "1";
      result, history := None, [];
    }

    method SetFields(p: string, r: string, t: string, n: string)
      modifies this`principal, this`rate, this`time, this`compounds
      ensures principal == p && rate == r && time == t && compounds == n
    {
      principal, rate, time, compounds := p, r, t, n;
    }

    /**
     * `calculateCompoundInterest`: `valid` is false when a field is NaN
     * (the alert), and then nothing changes; otherwise the result line is
     * shown and one entry goes in front of the history.
     */
    method CalculateCompoundInterest() returns (valid: bool)
      requires ReadInputs(principal, rate, time, compounds).Some? ==>
        Compoundable(ReadInputs(principal, rate, time, compounds).value)
      modifies this`result, this`history
      ensures valid <==> ReadInputs(principal, rate, time, compounds).Some?
      ensures !valid ==> result == old(result) && history == old(history)
      ensures valid ==>
        var x := ReadInputs(principal, rate, time, compounds).value;
        && result == Some(ResultText(x))
        && history == [CompoundEntry(x.p, rate, time, compounds, ToFixed(Interest(x), 2), ToFixed(Amount(x), 2))] + old(history)
    {
      var inputs := ReadInputs(principal, rate, time, compounds);
      if inputs.None? {
        return false;
      }
      ShowCalculation(inputs.value);
      return true;
    }

    /** The successful branch: the result line, and its entry first in the history. */
    method ShowCalculation(x: Inputs)
      requires Compoundable(x)
      modifies this`result, this`history
      ensures result == Some(ResultText(x))
      ensures history == [CompoundEntry(x.p, rate, time, compounds, ToFixed(Interest(x), 2), ToFixed(Amount(x), 2))] + old(history)
    {
      var A := Amount(x);
      var CI := Interest(x);
      result := Some(ResultText(x));
      AddToHistory(CompoundEntry(x.p, rate, time, compounds, ToFixed(CI, 2), ToFixed(A, 2)));
    }

    /** `addToHistory`: the new entry first, with no cap. */
    method AddToHistory(entry: CompoundEntry)
      modifies this`history
      ensures history == [entry] + old(history)
      ensures |history| == |old(history)| + 1 && history[1..] == old(history)
    {
      history := [entry] + history;
    }

    method ClearHistory()
      modifies this`history
      ensures history == []
    {
      history := [];
    }
  }
}
