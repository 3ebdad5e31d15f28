/**
 * The auto-loan page: the worker body that turns the form's numbers into a
 * payment, totals and an amortization schedule, and the page's handlers.
 *
 * The worker runs in the background and posts its answer back; here the
 * answer is taken as arriving before the next handler runs, so
 * `CalculateLoan` ends with the worker's results stored and `loading` off.
 */
module AutoLoan {
  import opened Options
  import opened JsMath
  import opened Parsing
  import opened FixedPoint
  import opened Amortization

  const InvalidInputMessage: string := "Please enter valid values for all fields."

  /**
   * The amount actually amortized: `(loanAmount − downPayment − tradeInValue)`
   * scaled by `1 + salesTax/100`. Nothing keeps it positive: its sign is the
   * sign of the net amount (for any tax above −100%).
   */
  function FinancedAmount(loanAmount: real, downPayment: real, tradeInValue: real, salesTax: real): (l: real)
    ensures salesTax == 0.0 ==> l == loanAmount - downPayment - tradeInValue
    ensures salesTax > -100.0 ==> (l > 0.0 <==> loanAmount > downPayment + tradeInValue)
    ensures salesTax > -100.0 ==> (l == 0.0 <==> loanAmount == downPayment + tradeInValue)
  {
    ProductSign(loanAmount - downPayment - tradeInValue, 1.0 + salesTax / 100.0);
    (loanAmount - downPayment - tradeInValue) * (1.0 + salesTax / 100.0)
  }

  lemma ProductSign(a: real, b: real)
    ensures b > 0.0 ==> (a * b > 0.0 <==> a > 0.0) && (a * b == 0.0 <==> a == 0.0)
  {
    if b > 0.0 {
      if a > 0.0 {
        assert a * b > 0.0;
      } else if a < 0.0 {
        assert (-a) * b > 0.0;
      }
    }
  }

  /** The worker's numbers before it renders them: payment, totals and the exact schedule. */
  datatype LoanQuote = LoanQuote(monthlyPayment: real, totalPaid: real, totalInterest: real, schedule: seq<Row>)

  /** One schedule row as posted: the month and the four amounts as `toFixed(2)` texts. */
  datatype PostedRow = PostedRow(month: nat, principal: string, interest: string, totalPayment: string, balance: string)

  /** The message the worker posts: every amount as a `toFixed(2)` text. */
  datatype LoanMessage = LoanMessage(
    monthlyPayment: string, totalLoanAmount: string, totalInterestPaid: string, schedule: seq<PostedRow>)

  /**
   * The worker's arithmetic for these inputs: the annuity payment on the
   * financed amount, the total paid over the term, the interest within it,
   * and the month-by-month schedule. The worker only runs after the page's
   * guard, so the rate and the term are positive.
   */
  function Quote(loanAmount: real, interestRate: real, loanTerm: nat,
                 downPayment: real, tradeInValue: real, salesTax: real): LoanQuote
    requires interestRate > 0.0 && loanTerm >= 1
  {
    var amount := FinancedAmount(loanAmount, downPayment, tradeInValue, salesTax);
    var rate := MonthlyRate(interestRate);
    var n := TermMonths(loanTerm);
    var payment := AnnuityPayment(amount, rate, n);
    LoanQuote(payment, payment * n as real, payment * n as real - amount, Schedule(amount, rate, payment, n))
  }

  /**
   * The quote settles the loan: one row per month, the principal column
   * repays the financed amount, the last balance is zero, and the total paid
   * is the amount plus the interest.
   */
  lemma QuoteSettlesLoan(loanAmount: real, interestRate: real, loanTerm: nat,
                         downPayment: real, tradeInValue: real, salesTax: real)
    requires interestRate > 0.0 && loanTerm >= 1
    ensures var q := Quote(loanAmount, interestRate, loanTerm, downPayment, tradeInValue, salesTax);
            var amount := FinancedAmount(loanAmount, downPayment, tradeInValue, salesTax);
            && |q.schedule| == TermMonths(loanTerm)
            && TotalPrincipal(q.schedule) == amount
            && q.schedule[|q.schedule| - 1].balance == 0.0
            && q.totalPaid == amount + q.totalInterest
  {
    var amount := FinancedAmount(loanAmount, downPayment, tradeInValue, salesTax);
    var rate := MonthlyRate(interestRate);
    var n := TermMonths(loanTerm);
    AnnuityRepaysAmount(amount, rate, n);
    FinalBalanceIsZero(amount, rate, n);
  }

  function PostRow(row: Row): PostedRow
  {
    PostedRow(row.month, ToFixed(row.principal, 2), ToFixed(row.interest, 2),
              ToFixed(row.totalPayment, 2), ToFixed(row.balance, 2))
  }

  /** The quote as the worker posts it. */
  function Message(q: LoanQuote): (m: LoanMessage)
    ensures |m.schedule| == |q.schedule|
    ensures forall i :: 0 <= i < |q.schedule| ==> m.schedule[i] == PostRow(q.schedule[i])
  {
    LoanMessage(ToFixed(q.monthlyPayment, 2), ToFixed(q.totalPaid, 2), ToFixed(q.totalInterest, 2),
                seq(|q.schedule|, i requires 0 <= i < |q.schedule| => PostRow(q.schedule[i])))
  }

  /** A `toFixed(2)` text reads back as its number to within half a cent. */
  lemma Cents(x: real)
    ensures ParseFloat(ToFixed(x, 2)).Some?
    ensures -0.005 <= ParseFloat(ToFixed(x, 2)).value - x <= 0.005
  {
    ParseFloatOfToFixed(x, 2);
    RoundedToCents(x);
  }

  lemma RoundedToCents(x: real)
    ensures -0.005 <= FixedValue(x, 2) - x <= 0.005
  {
    FixedValueIsNear(x, 2);
    assert Pow10(2) == 100;
  }

  /**
   * Every amount the worker posts reads back, through `parseFloat`, as the
   * exact amount to within half a cent: the payment, the totals, and each
   * cell of each row.
   */
  lemma PostedAmountsReadBack(q: LoanQuote, i: nat)
    requires i < |q.schedule|
    ensures var m := Message(q);
            && ParseFloat(m.monthlyPayment).Some? && Near(ParseFloat(m.monthlyPayment).value, q.monthlyPayment)
            && ParseFloat(m.totalLoanAmount).Some? && Near(ParseFloat(m.totalLoanAmount).value, q.totalPaid)
            && ParseFloat(m.totalInterestPaid).Some? && Near(ParseFloat(m.totalInterestPaid).value, q.totalInterest)
    ensures var row, posted := q.schedule[i], Message(q).schedule[i];
            && posted.month == row.month
            && ParseFloat(posted.principal).Some? && Near(ParseFloat(posted.principal).value, row.principal)
            && ParseFloat(posted.interest).Some? && Near(ParseFloat(posted.interest).value, row.interest)
            && ParseFloat(posted.totalPayment).Some? && Near(ParseFloat(posted.totalPayment).value, row.totalPayment)
            && ParseFloat(posted.balance).Some? && Near(ParseFloat(posted.balance).value, row.balance)
  {
    Cents(q.monthlyPayment);
    Cents(q.totalPaid);
    Cents(q.totalInterest);
    var row := q.schedule[i];
    Cents(row.principal);
    Cents(row.interest);
    Cents(row.totalPayment);
    Cents(row.balance);
  }

  /** Within half a cent. */
  predicate Near(shown: real, exact: real)
  {
    -0.005 <= shown - exact <= 0.005
  }

  /**
   * The worker body: the arithmetic, the schedule loop, and each amount
   * rendered with `toFixed(2)` for posting.
   */
  method LoanWorker(loanAmount: real, interestRate: real, loanTerm: nat,
                    downPayment: real, tradeInValue: real, salesTax: real)
    returns (message: LoanMessage)
    requires interestRate > 0.0 && loanTerm >= 1
    ensures message == Message(Quote(loanAmount, interestRate, loanTerm, downPayment, tradeInValue, salesTax))
  {
    var loanAmountWithTax := FinancedAmount(loanAmount, downPayment, tradeInValue, salesTax);
    var loanTermMonths := TermMonths(loanTerm);
    var monthlyInterestRate := MonthlyRate(interestRate);
    var monthlyPaymentCalc := AnnuityPayment(loanAmountWithTax, monthlyInterestRate, loanTermMonths);
    var totalPaid := monthlyPaymentCalc * loanTermMonths as real;
    var totalInterest := totalPaid - loanAmountWithTax;
    var schedule := BuildSchedule(loanAmountWithTax, monthlyInterestRate, monthlyPaymentCalc, loanTermMonths);
    var quote := LoanQuote(monthlyPaymentCalc, totalPaid, totalInterest, schedule);
    assert quote == Quote(loanAmount, interestRate, loanTerm, downPayment, tradeInValue, salesTax);
    message := Message(quote);
  }

  /**
   * The page's state: the six inputs, the posted results, and the flags.
   * A result field is `None` while it holds the number 0 the page starts
   * with and clears back to, and the posted text once the worker answers.
   */
  class AutoLoanPage {
    var loanAmount: real
    var interestRate: real
    var loanTerm: int
    var downPayment: real
    var tradeInValue: real
    var salesTax: real
    var monthlyPayment: Option<string>
    var totalLoanAmount: Option<string>
    var totalInterestPaid: Option<string>
    var amortizationSchedule: seq<PostedRow>
    var loading: bool
    var error: string

    /** Every field starts at zero, empty or off. */
    constructor ()
      ensures loanAmount == 0.0 && interestRate == 0.0 && loanTerm == 0
      ensures downPayment == 0.0 && tradeInValue == 0.0 && salesTax == 0.0
      ensures monthlyPayment == None && totalLoanAmount == None && totalInterestPaid == None
      ensures amortizationSchedule == [] && !loading && error == ""
    {
      loanAmount, interestRate, loanTerm := 0.0, 0.0, 0;
      downPayment, tradeInValue, salesTax := 0.0, 0.0, 0.0;
      monthlyPayment, totalLoanAmount, totalInterestPaid := None, None, None;
      amortizationSchedule, loading, error := [], false, "";
    }

    predicate InputsValid()
      reads this
    {
      !(loanAmount <= 0.0 || interestRate <= 0.0 || loanTerm <= 0)
    }

    /**
     * The Calculate button. Invalid inputs set the error and change nothing
     * else; valid inputs clear the error and store the worker's message.
     */
    method CalculateLoan()
      modifies this
      ensures loanAmount == old(loanAmount) && interestRate == old(interestRate) && loanTerm == old(loanTerm)
      ensures downPayment == old(downPayment) && tradeInValue == old(tradeInValue) && salesTax == old(salesTax)
      ensures !old(InputsValid()) ==>
        && error == InvalidInputMessage
        && monthlyPayment == old(monthlyPayment)
        && totalLoanAmount == old(totalLoanAmount)
        && totalInterestPaid == old(totalInterestPaid)
        && amortizationSchedule == old(amortizationSchedule)
        && loading == old(loading)
      ensures old(InputsValid()) ==>
        var m := Message(Quote(loanAmount, interestRate, loanTerm, downPayment, tradeInValue, salesTax));
        && error == ""
        && !loading
        && monthlyPayment == Some(m.monthlyPayment)
        && totalLoanAmount == Some(m.totalLoanAmount)
        && totalInterestPaid == Some(m.totalInterestPaid)
        && amortizationSchedule == m.schedule
    {
      if loanAmount <= 0.0 || interestRate <= 0.0 || loanTerm <= 0 {
        error := InvalidInputMessage;
        return;
      }
      error := "";
      loading := true;
      var message := LoanWorker(loanAmount, interestRate, loanTerm, downPayment, tradeInValue, salesTax);
      OnMessage(message);
    }

    /** The worker's reply handler: store the posted results and stop loading. */
    method OnMessage(message: LoanMessage)
      modifies this`monthlyPayment, this`totalLoanAmount, this`totalInterestPaid,
               this`amortizationSchedule, this`loading
      ensures monthlyPayment == Some(message.monthlyPayment)
      ensures totalLoanAmount == Some(message.totalLoanAmount)
      ensures totalInterestPaid == Some(message.totalInterestPaid)
      ensures amortizationSchedule == message.schedule
      ensures !loading
    {
      monthlyPayment := Some(message.monthlyPayment);
      totalLoanAmount := Some(message.totalLoanAmount);
      totalInterestPaid := Some(message.totalInterestPaid);
      amortizationSchedule := message.schedule;
      loading := false;
    }

    /** The Clear button: every input and result back to zero or empty. */
    method ClearFields()
      modifies this
      ensures loanAmount == 0.0 && interestRate == 0.0 && loanTerm == 0
      ensures downPayment == 0.0 && tradeInValue == 0.0 && salesTax == 0.0
      ensures monthlyPayment == None && totalLoanAmount == None && totalInterestPaid == None
      ensures amortizationSchedule == [] && error == "" && loading == old(loading)
    {
      loanAmount, interestRate, loanTerm := 0.0, 0.0, 0;
      downPayment, tradeInValue, salesTax := 0.0, 0.0, 0.0;
      monthlyPayment, totalLoanAmount, totalInterestPaid := None, None, None;
      amortizationSchedule := [];
      error := "";
    }
  }
}
