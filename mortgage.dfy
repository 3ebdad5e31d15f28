/**
 * The mortgage page: the annuity payment in its `P·r·q / (q − 1)` form plus
 * monthly escrow (property tax and insurance), a newest-first history of at
 * most ten calculations, and the currency picker.
 */
module Mortgage {
  import opened JsMath
  import opened Amortization
  import History

  datatype Currency = Currency(code: string, symbol: string, name: string)

  /** The currencies the picker offers; the first, the US dollar, is the fallback. */
  const Currencies: seq<Currency> := [
    Currency("USD", "$", "US Dollar"),
    Currency("EUR", "\U{20AC}", "Euro"),
    Currency("GBP", "\U{00A3}", "British Pound"),
    Currency("JPY", "\U{00A5}", "Japanese Yen"),
    Currency("CAD", "C$", "Canadian Dollar"),
    Currency("AUD", "A$", "Australian Dollar"),
    Currency("CHF", "CHF", "Swiss Franc"),
    Currency("CNY", "\U{00A5}", "Chinese Yuan"),
    Currency("INR", "\U{20B9}", "Indian Rupee"),
    Currency("MXN", "$", "Mexican Peso")
  ]

  const HistoryCap: nat := 10

  /** The index of the first currency in `cs` with the given code, if any. */
  function FirstWithCode(cs: seq<Currency>, code: string): (i: nat)
    ensures i <= |cs|
    ensures i < |cs| ==> cs[i].code == code
    ensures forall k :: 0 <= k < i ==> cs[k].code != code
  {
    if cs == [] || cs[0].code == code then 0 else 1 + FirstWithCode(cs[1..], code)
  }

  /**
   * `currencies.find(c => c.code === code) || currencies[0]`: the first
   * currency with that code, or the US dollar when there is none.
   */
  function FindCurrency(code: string): (c: Currency)
    ensures c in Currencies
    ensures (exists k :: 0 <= k < |Currencies| && Currencies[k].code == code) ==> c.code == code
    ensures (forall k :: 0 <= k < |Currencies| ==> Currencies[k].code != code) ==> c == Currencies[0]
  {
    var i := FirstWithCode(Currencies, code);
    if i < |Currencies| then Currencies[i] else Currencies[0]
  }

  /**
   * The base payment `P·r·(1+r)^n / ((1+r)^n − 1)`. The page does not guard a
   * zero rate (which makes it 0/0), so a positive rate and term are required.
   */
  function MortgagePayment(principal: real, rate: real, n: nat): (p: real)
    requires rate > 0.0 && n >= 1
    ensures p == AnnuityPayment(principal, rate, n)
    ensures principal > 0.0 ==> p > principal * rate
  {
    PaymentFormsAgree(principal, rate, n);
    assert principal * rate * Pow(1.0 + rate, n) / (Pow(1.0 + rate, n) - 1.0) == AnnuityPayment(principal, rate, n);
    principal * rate * Pow(1.0 + rate, n) / (Pow(1.0 + rate, n) - 1.0)
  }

  /** The mortgage page's payment form and the auto-loan worker's agree exactly. */
  lemma PaymentFormsAgree(principal: real, rate: real, n: nat)
    requires rate > 0.0 && n >= 1
    ensures Pow(1.0 + rate, n) > 1.0
    ensures principal * rate * Pow(1.0 + rate, n) / (Pow(1.0 + rate, n) - 1.0)
         == AnnuityPayment(principal, rate, n)
  {
    AnnuityOverCommonDenominator(principal, rate, n);
    var q := Pow(1.0 + rate, n);
    QuotientOfProduct(principal * rate * q, AnnuityPayment(principal, rate, n), q - 1.0);
  }

  lemma QuotientOfProduct(x: real, p: real, d: real)
    requires d != 0.0 && x == p * d
    ensures x / d == p
  {
  }

  /**
   * The payment the page shows: base payment plus a twelfth of the yearly
   * property tax and insurance. It exceeds the annuity payment by exactly the
   * monthly escrow, so with no tax and no insurance it is the annuity payment.
   */
  function TotalMonthlyPayment(loanAmount: real, interestRate: real, loanTerm: nat,
                               propertyTax: real, insurance: real): (t: real)
    requires interestRate > 0.0 && loanTerm >= 1
    ensures t - AnnuityPayment(loanAmount, MonthlyRate(interestRate), TermMonths(loanTerm))
         == (propertyTax + insurance) / 12.0
  {
    var monthlyRate := MonthlyRate(interestRate);
    var numberOfPayments := TermMonths(loanTerm);
    MortgagePayment(loanAmount, monthlyRate, numberOfPayments) + (propertyTax + insurance) / 12.0
  }

  /** One saved calculation: the inputs, the currency and the payment shown. */
  datatype MortgageEntry = MortgageEntry(
    loanAmount: real, interestRate: real, loanTerm: int,
    propertyTax: real, insurance: real, monthlyPayment: real, currency: Currency)

  class MortgagePage {
    var loanAmount: real
    var interestRate: real
    var loanTerm: int
    var propertyTax: real
    var insurance: real
    var monthlyPayment: real
    var history: seq<MortgageEntry>
    var currency: Currency

    /** The form opens on a 200,000 loan at 3.5% over 30 years, in US dollars. */
    constructor ()
      ensures loanAmount == 200000.0 && interestRate == 3.5 && loanTerm == 30
      ensures propertyTax == 0.0 && insurance == 0.0 && monthlyPayment == 0.0
      ensures history == [] && currency == Currencies[0]
    {
      loanAmount, interestRate, loanTerm := 200000.0, 3.5, 30;
      propertyTax, insurance, monthlyPayment := 0.0, 0.0, 0.0;
      history, currency := [], Currencies[0];
    }

    /**
     * The Calculate button: show the total monthly payment and put a record
     * of this calculation in front of the history, keeping at most ten.
     */
    method CalculateMortgage()
      requires interestRate > 0.0 && loanTerm >= 1
      modifies this`monthlyPayment, this`history
      ensures monthlyPayment == TotalMonthlyPayment(loanAmount, interestRate, loanTerm, propertyTax, insurance)
      ensures history == History.PrependCapped(
        MortgageEntry(loanAmount, interestRate, loanTerm, propertyTax, insurance, monthlyPayment, currency),
        old(history), HistoryCap)
      ensures |history| <= HistoryCap
      ensures history[0].monthlyPayment == monthlyPayment && history[0].currency == currency
      ensures history[1..] == old(history)[..|history| - 1]
    {
      var totalMonthlyPayment := TotalMonthlyPayment(loanAmount, interestRate, loanTerm, propertyTax, insurance);
      monthlyPayment := totalMonthlyPayment;
      history := History.PrependCapped(
        MortgageEntry(loanAmount, interestRate, loanTerm, propertyTax, insurance, totalMonthlyPayment, currency),
        history, HistoryCap);
    }

    /** The currency picker: an unknown code falls back to the US dollar. */
    method SelectCurrency(code: string)
      modifies this`currency
      ensures currency == FindCurrency(code)
      ensures currency in Currencies
    {
      currency := FindCurrency(code);
    }
  }
}
