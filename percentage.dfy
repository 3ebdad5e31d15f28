/**
 * The percentage page: "p% of n" and "n is what percent of total", each
 * from two text fields, with a result line and an unbounded newest-first
 * history. A NaN field is `None`.
 */
module Percentage {
  import opened Options
  import opened Parsing

  /** `num·perc/100`: the given percentage of a number. */
  function PercentOf(num: real, perc: real): (v: real)
    ensures v * 100.0 == num * perc
  {
    (num * perc) / 100.0
  }

  /** `num/total·100`: the percentage a number is of a non-zero total. */
  function PercentOfTotal(num: real, total: real): (p: real)
    requires total != 0.0
    ensures p * total == num * 100.0
  {
    (num / total) * 100.0
  }

  /** Asking what percent `p%` of a total is gives back `p`. */
  lemma PercentOfTotalInvertsPercentOf(total: real, p: real)
    requires total != 0.0
    ensures PercentOfTotal(PercentOf(total, p), total) == p
  {
    var v := PercentOf(total, p);
    var q := PercentOfTotal(v, total);
    assert q * total == v * 100.0 == total * p;
    Cancel(q, p, total);
  }

  /** Taking the computed percentage of the total gives back the number. */
  lemma PercentOfInvertsPercentOfTotal(num: real, total: real)
    requires total != 0.0
    ensures PercentOf(total, PercentOfTotal(num, total)) == num
  {
    var p := PercentOfTotal(num, total);
    var v := PercentOf(total, p);
    assert v * 100.0 == total * p == num * 100.0;
  }

  lemma Cancel(a: real, b: real, c: real)
    requires c != 0.0 && a * c == c * b
    ensures a == b
  {
    assert (a - b) * c == 0.0;
  }

  /**
   * The values a result line shows: `${perc}% of ${num} = ${value}` or
   * `${num} is ${value}% of ${perc}`. Writing the numbers out with
   * `Number.prototype.toString` is not modelled.
   */
  datatype Calculation =
    | PercentOfLine(perc: real, num: real, value: real)
    | PercentOfTotalLine(num: real, value: real, perc: real)

  /** The two fields through `parseFloat`; `None` when either is NaN. */
  function ReadFields(number: string, percentage: string): (x: Option<(real, real)>)
    ensures x.Some? <==> ParseFloat(number).Some? && ParseFloat(percentage).Some?
    ensures x.Some? ==> x.value.0 == ParseFloat(number).value && x.value.1 == ParseFloat(percentage).value
  {
    var num, perc := ParseFloat(number), ParseFloat(percentage);
    if num.None? || perc.None? then None else Some((num.value, perc.value))
  }

  /** `calculatePercentage` on the read fields: `None` (the alert) when either is NaN. */
  function CalculatePercentageOf(x: Option<(real, real)>): (c: Option<Calculation>)
    ensures c.Some? <==> x.Some?
    ensures c.Some? ==> c.value.PercentOfLine? && c.value.num == x.value.0 && c.value.perc == x.value.1
    ensures c.Some? ==> c.value.value * 100.0 == x.value.0 * x.value.1
  {
    if x.None? then None
    else Some(PercentOfLine(x.value.1, x.value.0, PercentOf(x.value.0, x.value.1)))
  }

  /**
   * `calculatePercentageOfTotal` on the read fields: `None` (the alert)
   * when either is NaN or the total is 0.
   */
  function CalculatePercentageOfTotal(x: Option<(real, real)>): (c: Option<Calculation>)
    ensures c.Some? <==> x.Some? && x.value.1 != 0.0
    ensures c.Some? ==> c.value.PercentOfTotalLine? && c.value.num == x.value.0 && c.value.perc == x.value.1
    ensures c.Some? ==> c.value.value * x.value.1 == x.value.0 * 100.0
  {
    if x.None? || x.value.1 == 0.0 then None
    else Some(PercentOfTotalLine(x.value.0, PercentOfTotal(x.value.0, x.value.1), x.value.1))
  }

  /** Only the percentage-of-total button refuses a zero second field. */
  lemma ZeroPercentageOnlyRefusedByTotal(number: string)
    requires ParseFloat(number).Some?
    ensures CalculatePercentageOf(ReadFields(number, "0")).Some?
    ensures CalculatePercentageOf(ReadFields(number, "0")).value.value == 0.0
    ensures CalculatePercentageOfTotal(ReadFields(number, "0")).None?
  {
    ParseFloatOfNat(0);
    assert NatToString(0) == "0";
  }

  class PercentagePage {
    var number: string
    var percentage: string
    var result: Option<Calculation>
    var history: seq<Calculation>

    constructor ()
      ensures number == "" && percentage == "" && result == None && history == []
    {
      number, percentage, result, history := "", "", None, [];
    }

    method SetFields(n: string, p: string)
      modifies this`number, this`percentage
      ensures number == n && percentage == p
    {
      number, percentage := n, p;
    }

    /** A computed line becomes the result and goes first in the history; a refused one changes nothing. */
    method Record(c: Option<Calculation>)
      modifies this`result, this`history
      ensures c.None? ==> result == old(result) && history == old(history)
      ensures c.Some? ==> result == c && history == [c.value] + old(history)
    {
      if c.Some? {
        result := c;
        AddToHistory(c.value);
      }
    }

    /** The "Calculate percentage" button. */
    method CalculatePercentage()
      modifies this`result, this`history
      ensures var c := CalculatePercentageOf(ReadFields(number, percentage));
        && (c.None? ==> result == old(result) && history == old(history))
        && (c.Some? ==> result == c && history == [c.value] + old(history))
    {
      Record(CalculatePercentageOf(ReadFields(number, percentage)));
    }

    /** The "Calculate percentage of total" button. */
    method CalculatePercentageOfTotalButton()
      modifies this`result, this`history
      ensures var c := CalculatePercentageOfTotal(ReadFields(number, percentage));
        && (c.None? ==> result == old(result) && history == old(history))
        && (c.Some? ==> result == c && history == [c.value] + old(history))
    {
      Record(CalculatePercentageOfTotal(ReadFields(number, percentage)));
    }

    /** `addToHistory`: the new line first, with no cap. */
    method AddToHistory(c: Calculation)
      modifies this`history
      ensures history == [c] + old(history)
    {
      history := [c] + history;
    }

    method ClearHistory()
      modifies this`history
      ensures history == []
    {
      history := [];
    }
  }
}
