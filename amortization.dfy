/**
 * The fixed-rate amortization arithmetic of the auto-loan worker, in exact
 * arithmetic: the monthly rate and period count, the annuity payment
 * `L·r / (1 − (1+r)^−n)`, and the schedule whose loop carries an unrounded
 * balance forward, one row per month.
 */
module Amortization {
  import opened JsMath

  /** One schedule row, before the display rounding the page applies. */
  datatype Row = Row(month: nat, principal: real, interest: real, totalPayment: real, balance: real)

  /** `interestRate / 100 / 12`: the nominal annual percentage as a monthly fraction. */
  function MonthlyRate(interestRate: real): (r: real)
    ensures r * 1200.0 == interestRate
    ensures interestRate > 0.0 ==> r > 0.0
  {
    interestRate / 100.0 / 12.0
  }

  /** `loanTerm * 12`: whole years as months. */
  function TermMonths(loanTerm: nat): (n: nat)
    ensures loanTerm >= 1 ==> n >= 12
    ensures n % 12 == 0 && n / 12 == loanTerm
  {
    loanTerm * 12
  }

  /**
   * The monthly payment `amount·r / (1 − (1 + r)^−n)`. For a positive amount
   * it is more than the first month's interest, so the balance goes down
   * from the first row on.
   */
  function AnnuityPayment(amount: real, rate: real, n: nat): (p: real)
    requires rate > 0.0 && n >= 1
    ensures amount > 0.0 ==> p > amount * rate
    ensures amount == 0.0 ==> p == 0.0
  {
    PowAboveOne(1.0 + rate, n);
    AnnuityAboveInterest(amount * rate, 1.0 / Pow(1.0 + rate, n));
    amount * rate / (1.0 - 1.0 / Pow(1.0 + rate, n))
  }

  lemma AnnuityAboveInterest(interest: real, discount: real)
    requires 0.0 < discount < 1.0
    ensures interest > 0.0 ==> interest / (1.0 - discount) > interest
    ensures interest == 0.0 ==> interest / (1.0 - discount) == 0.0
  {
    var d := 1.0 - discount;
    var x := interest / d;
    assert x * d == interest;
    if interest == 0.0 {
      assert x == 0.0;
    }
  }

  /**
   * The balance after `k` rows: each row takes `interest = balance·rate`,
   * `principal = payment − interest`, and `balance −= principal`.
   */
  function BalanceAfter(amount: real, rate: real, payment: real, k: nat): real
  {
    if k == 0 then amount
    else
      var b := BalanceAfter(amount, rate, payment, k - 1);
      b - (payment - b * rate)
  }

  /** Row `i` (0-based) of the schedule; its month number is `i + 1`. */
  function ScheduleRow(amount: real, rate: real, payment: real, i: nat): (row: Row)
    ensures row.month == i + 1 && row.totalPayment == payment
    ensures row.principal + row.interest == payment
    ensures row.interest == BalanceAfter(amount, rate, payment, i) * rate
    ensures row.balance == BalanceAfter(amount, rate, payment, i) - row.principal
    ensures row.balance == BalanceAfter(amount, rate, payment, i + 1)
  {
    var b := BalanceAfter(amount, rate, payment, i);
    var interest := b * rate;
    var principal := payment - interest;
    Row(i + 1, principal, interest, payment, b - principal)
  }

  /** The first `n` rows of the schedule. */
  function Schedule(amount: real, rate: real, payment: real, n: nat): (rows: seq<Row>)
    ensures |rows| == n
    ensures forall i :: 0 <= i < n ==> rows[i] == ScheduleRow(amount, rate, payment, i)
  {
    if n == 0 then [] else Schedule(amount, rate, payment, n - 1) + [ScheduleRow(amount, rate, payment, n - 1)]
  }

  /**
   * The worker's loop: `n` rows, months 1..n, carrying the unrounded balance
   * from one row to the next.
   */
  method BuildSchedule(amount: real, rate: real, payment: real, n: nat) returns (schedule: seq<Row>)
    ensures schedule == Schedule(amount, rate, payment, n)
    ensures |schedule| == n
    ensures forall i :: 0 <= i < n ==> schedule[i].month == i + 1 && schedule[i].totalPayment == payment
  {
    schedule := [];
    var balance := amount;
    var month := 1;
    while month <= n
      invariant 1 <= month <= n + 1
      invariant balance == BalanceAfter(amount, rate, payment, month - 1)
      invariant schedule == Schedule(amount, rate, payment, month - 1)
    {
      var interestPayment := balance * rate;
      var principalPayment := payment - interestPayment;
      balance := balance - principalPayment;
      schedule := schedule + [Row(month, principalPayment, interestPayment, payment, balance)];
      month := month + 1;
    }
  }

  /** The sum of the principal column. */
  function TotalPrincipal(rows: seq<Row>): real
  {
    if rows == [] then 0.0 else TotalPrincipal(rows[..|rows| - 1]) + rows[|rows| - 1].principal
  }

  /**
   * Whatever the payment, the principal column and the final balance add up
   * to the amount borrowed: each row moves exactly its principal portion off
   * the balance.
   */
  lemma {:induction false} PrincipalTelescopes(amount: real, rate: real, payment: real, n: nat)
    ensures TotalPrincipal(Schedule(amount, rate, payment, n)) + BalanceAfter(amount, rate, payment, n) == amount
  {
    if n > 0 {
      PrincipalTelescopes(amount, rate, payment, n - 1);
      var rows := Schedule(amount, rate, payment, n);
      var last := ScheduleRow(amount, rate, payment, n - 1);
      assert rows == Schedule(amount, rate, payment, n - 1) + [last];
      assert rows[..n - 1] == Schedule(amount, rate, payment, n - 1);
      assert TotalPrincipal(rows) == TotalPrincipal(Schedule(amount, rate, payment, n - 1)) + last.principal;
      assert BalanceAfter(amount, rate, payment, n) == BalanceAfter(amount, rate, payment, n - 1) - last.principal;
    }
  }

  /**
   * Closed form of the balance: with `q = (1 + r)^k`,
   * `balance·r = amount·r·q − payment·(q − 1)`.
   */
  lemma {:induction false} BalanceClosedForm(amount: real, rate: real, payment: real, k: nat)
    ensures BalanceAfter(amount, rate, payment, k) * rate
         == amount * rate * Pow(1.0 + rate, k) - payment * (Pow(1.0 + rate, k) - 1.0)
  {
    if k == 0 {
      assert Pow(1.0 + rate, k) == 1.0;
    } else {
      BalanceClosedForm(amount, rate, payment, k - 1);
      var b, q := BalanceAfter(amount, rate, payment, k - 1), Pow(1.0 + rate, k - 1);
      var b', q' := BalanceAfter(amount, rate, payment, k), Pow(1.0 + rate, k);
      assert b' == b - (payment - b * rate);
      assert q' == (1.0 + rate) * q;
      ClosedFormStep(amount, rate, payment, b, q, b', q');
    }
  }

  /** One row of the closed form: if it holds for `b` and `q`, it holds one month on. */
  lemma ClosedFormStep(amount: real, rate: real, payment: real, b: real, q: real, b': real, q': real)
    requires b * rate == amount * rate * q - payment * (q - 1.0)
    requires b' == b - (payment - b * rate) && q' == (1.0 + rate) * q
    ensures b' * rate == amount * rate * q' - payment * (q' - 1.0)
  {
    calc {
      b' * rate;
      (b * rate) * (1.0 + rate) - payment * rate;
      (amount * rate * q - payment * (q - 1.0)) * (1.0 + rate) - payment * rate;
      amount * rate * ((1.0 + rate) * q) - payment * ((1.0 + rate) * q - 1.0);
    }
  }

  /** `amount·r / (1 − q⁻¹)` rewritten over a common denominator: `amount·r·q / (q − 1)`. */
  lemma AnnuityOverCommonDenominator(amount: real, rate: real, n: nat)
    requires rate > 0.0 && n >= 1
    ensures Pow(1.0 + rate, n) > 1.0
    ensures AnnuityPayment(amount, rate, n) * (Pow(1.0 + rate, n) - 1.0) == amount * rate * Pow(1.0 + rate, n)
  {
    PowAboveOne(1.0 + rate, n);
    CommonDenominator(amount * rate, Pow(1.0 + rate, n), AnnuityPayment(amount, rate, n));
  }

  lemma CommonDenominator(x: real, q: real, p: real)
    requires q > 1.0 && p == x / (1.0 - 1.0 / q)
    ensures p * (q - 1.0) == x * q
  {
    var d := 1.0 - 1.0 / q;
    assert d * q == q - 1.0;
    assert p * d == x;
    calc {
      p * (q - 1.0);
      p * (d * q);
      (p * d) * q;
      x * q;
    }
  }

  /** With the annuity payment, the balance after the last row is exactly zero. */
  lemma FinalBalanceIsZero(amount: real, rate: real, n: nat)
    requires rate > 0.0 && n >= 1
    ensures BalanceAfter(amount, rate, AnnuityPayment(amount, rate, n), n) == 0.0
  {
    var p := AnnuityPayment(amount, rate, n);
    BalanceClosedForm(amount, rate, p, n);
    AnnuityOverCommonDenominator(amount, rate, n);
    var b := BalanceAfter(amount, rate, p, n);
    assert b * rate == 0.0;
  }

  /** With the annuity payment, the principal column repays exactly the amount borrowed. */
  lemma AnnuityRepaysAmount(amount: real, rate: real, n: nat)
    requires rate > 0.0 && n >= 1
    ensures TotalPrincipal(Schedule(amount, rate, AnnuityPayment(amount, rate, n), n)) == amount
  {
    PrincipalTelescopes(amount, rate, AnnuityPayment(amount, rate, n), n);
    FinalBalanceIsZero(amount, rate, n);
  }

  /** Each row's principal portion is the previous one grown by one month's interest. */
  lemma PrincipalGrows(amount: real, rate: real, payment: real, i: nat)
    ensures ScheduleRow(amount, rate, payment, i + 1).principal
         == ScheduleRow(amount, rate, payment, i).principal * (1.0 + rate)
  {
    var b := BalanceAfter(amount, rate, payment, i);
    var principal := payment - b * rate;
    assert BalanceAfter(amount, rate, payment, i + 1) == b - principal;
    assert payment - (b - principal) * rate == principal * (1.0 + rate);
  }

  lemma {:induction false} PrincipalPositive(amount: real, rate: real, payment: real, i: nat)
    requires rate >= 0.0 && payment > amount * rate
    ensures ScheduleRow(amount, rate, payment, i).principal > 0.0
  {
    if i > 0 {
      PrincipalPositive(amount, rate, payment, i - 1);
      PrincipalGrows(amount, rate, payment, i - 1);
    }
  }

  /**
   * For a positive amount and the annuity payment the balance strictly
   * decreases from row to row.
   */
  lemma BalanceDecreases(amount: real, rate: real, n: nat, i: nat)
    requires rate > 0.0 && n >= 1 && amount > 0.0
    ensures BalanceAfter(amount, rate, AnnuityPayment(amount, rate, n), i + 1)
          < BalanceAfter(amount, rate, AnnuityPayment(amount, rate, n), i)
  {
    PrincipalPositive(amount, rate, AnnuityPayment(amount, rate, n), i);
  }
}
