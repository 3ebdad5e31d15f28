/**
 * The few pieces of JavaScript number semantics the calculator pages rely on,
 * stated over Dafny's unbounded `int` and exact `real`.
 *
 * - `Math.floor(a / b)` on integers with a positive divisor is floor division;
 *   Dafny's `/` is Euclidean, which agrees with floor division when b > 0.
 * - JavaScript's `%` truncates toward zero (the remainder takes the sign of the
 *   dividend), unlike Dafny's Euclidean `%`.
 * - `Math.round` rounds to the nearest integer, ties toward +infinity.
 * - `Math.pow` with a whole exponent is repeated multiplication.
 */
module JsMath {

  /** `Math.floor(a / b)` for a positive integer divisor. */
  function FloorDiv(a: int, b: int): (q: int)
    requires b > 0
    ensures b * q <= a < b * q + b
  {
    a / b
  }

  /**
   * The JavaScript remainder `a % b` for a positive divisor: it truncates, so
   * the remainder takes the sign of the dividend. It differs from `a` by a
   * multiple of `b`, which together with its range fixes its value.
   */
  function Rem(a: int, b: int): (r: int)
    requires b > 0
    ensures a >= 0 ==> 0 <= r < b && r == a % b
    ensures a < 0 ==> -b < r <= 0
    ensures (a - r) % b == 0
  {
    if a >= 0 then
      NonNegativeRemainder(a, b);
      a % b
    else
      NegativeRemainder(a, b);
      -((-a) % b)
  }

  lemma NonNegativeRemainder(a: int, b: int)
    requires b > 0 && a >= 0
    ensures (a - a % b) % b == 0
  {
    var q := a / b;
    assert a - a % b == b * q;
    MultipleLeavesNothing(b, q);
  }

  lemma NegativeRemainder(a: int, b: int)
    requires b > 0 && a < 0
    ensures (a + (-a) % b) % b == 0
  {
    var q := (-a) / b;
    assert a + (-a) % b == b * (-q);
    MultipleLeavesNothing(b, -q);
  }

  lemma MultipleLeavesNothing(b: int, k: int)
    requires b > 0
    ensures (b * k) % b == 0
  {
    DivModUnique(b * k, b, k, 0);
  }

  /** `Math.floor(x)`: the greatest integer not above `x`. */
  function Floor(x: real): (n: int)
    ensures n as real <= x < n as real + 1.0
  {
    x.Floor
  }

  /** Division and remainder agree with any decomposition `a = m·q + r` with `0 <= r < m`. */
  lemma DivModUnique(a: int, m: int, q: int, r: int)
    requires m > 0 && a == m * q + r && 0 <= r < m
    ensures a / m == q && a % m == r
  {
    var q', r' := a / m, a % m;
    assert m * q + r == m * q' + r';
    if q > q' {
      AtLeastOneMultiple(m, q - q');
      assert false;
    } else if q < q' {
      AtLeastOneMultiple(m, q' - q);
      assert false;
    }
  }

  lemma AtLeastOneMultiple(m: int, k: int)
    requires m > 0 && k >= 1
    ensures m * k >= m
  {
  }

  /** `Math.round(x)`: the nearest integer, a tie going toward +infinity. */
  function Round(x: real): (n: int)
    ensures x - 0.5 < n as real <= x + 0.5
  {
    (x + 0.5).Floor
  }

  /** `Math.pow(x, n)` for a whole, non-negative exponent. */
  function Pow(x: real, n: nat): real
  {
    if n == 0 then 1.0 else x * Pow(x, n - 1)
  }

  lemma {:induction false} PowPositive(x: real, n: nat)
    requires x > 0.0
    ensures Pow(x, n) > 0.0
  {
    if n > 0 {
      PowPositive(x, n - 1);
    }
  }

  /** A base above one raised to a positive power stays above one. */
  lemma {:induction false} PowAboveOne(x: real, n: nat)
    requires x > 1.0 && n >= 1
    ensures Pow(x, n) > 1.0
  {
    if n > 1 {
      PowAboveOne(x, n - 1);
      assert Pow(x, n) == x * Pow(x, n - 1);
    }
  }

  lemma {:induction false} PowAdd(x: real, m: nat, n: nat)
    ensures Pow(x, m + n) == Pow(x, m) * Pow(x, n)
  {
    if m > 0 {
      PowAdd(x, m - 1, n);
    }
  }

  /** Integer powers of ten, used by decimal parsing. */
  function Pow10(n: nat): (p: nat)
    ensures p >= 1
  {
    if n == 0 then 1 else 10 * Pow10(n - 1)
  }

  lemma {:induction false} Pow10AsReal(n: nat)
    ensures Pow10(n) as real == Pow(10.0, n)
  {
    if n > 0 {
      Pow10AsReal(n - 1);
    }
  }

  function Min(a: int, b: int): (m: int)
    ensures m <= a && m <= b && (m == a || m == b)
  {
    if a <= b then a else b
  }

  function Abs(x: int): (r: nat)
    ensures r == x || r == -x
  {
    if x < 0 then -x else x
  }
}
