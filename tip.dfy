/**
 * The tip page: the tip as a percentage of the bill and the total with the
 * tip, from two text fields. A NaN field is `None`; it raises an alert and
 * leaves the previous amounts on show.
 */
module Tip {
  import opened Options
  import Percentage

  /**
   * `bill·tipPercent/100`: a hundred tips are the bill times the percentage,
   * and a percentage from 0 to 100 of a non-negative bill tips no more than
   * the bill.
   */
  function TipOf(bill: real, tipPercent: real): (tip: real)
    ensures tip * 100.0 == bill * tipPercent
    ensures bill >= 0.0 && 0.0 <= tipPercent <= 100.0 ==> 0.0 <= tip <= bill
  {
    (bill * tipPercent) / 100.0
  }

  /** `bill + tip`: the bill scaled by `1 + p/100`, and the tip is what it adds. */
  function TotalOf(bill: real, tipPercent: real): (total: real)
    ensures total == bill * (1.0 + tipPercent / 100.0)
    ensures total - bill == TipOf(bill, tipPercent)
  {
    bill + TipOf(bill, tipPercent)
  }

  /** No tip percentage, no tip: the total is the bill. */
  lemma ZeroPercentNoTip(bill: real)
    ensures TipOf(bill, 0.0) == 0.0 && TotalOf(bill, 0.0) == bill
  {
  }

  /** The tip for a non-zero bill gives back the percentage it was computed from. */
  lemma TipGivesBackPercent(bill: real, tipPercent: real)
    requires bill != 0.0
    ensures Percentage.PercentOfTotal(TipOf(bill, tipPercent), bill) == tipPercent
  {
    Percentage.PercentOfTotalInvertsPercentOf(bill, tipPercent);
  }

  class TipPage {
    var billAmount: string
    var tipPercentage: string
    var tipAmount: Option<real>
    var totalAmount: Option<real>

    /** The amounts are shown only together: both set or both unset. */
    predicate Valid()
      reads this
    {
      tipAmount.Some? <==> totalAmount.Some?
    }

    constructor ()
      ensures billAmount == "" && tipPercentage == "" && tipAmount == None && totalAmount == None
      ensures Valid()
    {
      billAmount, tipPercentage, tipAmount, totalAmount := "", "", None, None;
    }

    method SetFields(bill: string, percent: string)
      modifies this`billAmount, this`tipPercentage
      ensures billAmount == bill && tipPercentage == percent
    {
      billAmount, tipPercentage := bill, percent;
    }

    /**
     * `calculateTip`: with both fields numbers, the tip and the total are
     * set together; otherwise (`valid` false, the alert) nothing changes.
     */
    method CalculateTip() returns (valid: bool)
      requires Valid()
      modifies this`tipAmount, this`totalAmount
      ensures Valid()
      ensures valid <==> Percentage.ReadFields(billAmount, tipPercentage).Some?
      ensures !valid ==> tipAmount == old(tipAmount) && totalAmount == old(totalAmount)
      ensures valid ==>
        var (bill, tipPercent) := Percentage.ReadFields(billAmount, tipPercentage).value;
        tipAmount == Some(TipOf(bill, tipPercent)) && totalAmount == Some(TotalOf(bill, tipPercent))
    {
      var fields := Percentage.ReadFields(billAmount, tipPercentage);
      if fields.None? {
        return false;
      }
      var (bill, tipPercent) := fields.value;
      tipAmount := Some(TipOf(bill, tipPercent));
      totalAmount := Some(TotalOf(bill, tipPercent));
      return true;
    }
  }
}
