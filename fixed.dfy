/**
 * `Number.prototype.toFixed(f)` on exact reals: the magnitude scaled by
 * `10^f` and rounded to the nearest whole number (ties away from zero), its
 * digits padded with leading zeros to at least `f + 1`, a point before the
 * last `f`, and a minus sign for a negative number. Binary floating point,
 * and the exponential form toFixed switches to at 10^21, are not modelled.
 */
module FixedPoint {
  import opened Options
  import opened JsMath
  import opened Parsing

  function Magnitude(x: real): (a: real)
    ensures a >= 0.0 && (a == x || a == -x)
  {
    if x < 0.0 then -x else x
  }

  /** The whole number of `10^-f` units toFixed writes: `|x|·10^f` rounded, ties up. */
  function FixedUnits(x: real, f: nat): (n: nat)
    ensures n as real - 0.5 <= Magnitude(x) * Pow10(f) as real < n as real + 0.5
  {
    Round(Magnitude(x) * Pow10(f) as real)
  }

  /** The number the text of `x.toFixed(f)` denotes. */
  function FixedValue(x: real, f: nat): real
  {
    var v := FixedUnits(x, f) as real / Pow10(f) as real;
    if x < 0.0 then -v else v
  }

  /** `FixedValue` is `x` rounded to `f` decimals: it is never more than half a unit away. */
  lemma FixedValueIsNear(x: real, f: nat)
    ensures -0.5 / Pow10(f) as real <= FixedValue(x, f) - x <= 0.5 / Pow10(f) as real
  {
    var p := Pow10(f) as real;
    var n := FixedUnits(x, f) as real;
    var a := Magnitude(x);
    assert n - 0.5 <= a * p < n + 0.5;
    ScaledBounds(n, a, p);
  }

  lemma ScaledBounds(n: real, a: real, p: real)
    requires p >= 1.0 && n - 0.5 <= a * p < n + 0.5
    ensures -0.5 / p < n / p - a <= 0.5 / p
  {
    assert n / p - a == (n - a * p) / p;
  }

  function Zeros(k: nat): (z: string)
    ensures |z| == k && forall i :: 0 <= i < k ==> z[i] == '0'
  {
    if k == 0 then [] else Zeros(k - 1) + "0"
  }

  /**
   * The digits of `n` as toFixed lays them out for `f` decimals: padded with
   * leading zeros to at least `f + 1` digits, with a point before the last `f`.
   */
  function FixedDigits(n: nat, f: nat): string
  {
    if f == 0 then NatToString(n)
    else
      var padded := Padded(n, f);
      var k := |padded|;
      padded[..k - f] + "." + padded[k - f..]
  }

  /** The digits of `n` with leading zeros up to at least `f + 1` of them. */
  function Padded(n: nat, f: nat): (padded: string)
    ensures |padded| >= f + 1
  {
    var m := NatToString(n);
    if |m| <= f then Zeros(f + 1 - |m|) + m else m
  }

  /** `x.toFixed(f)`. */
  function ToFixed(x: real, f: nat): (s: string)
    ensures s != []
    ensures ' ' !in s
  {
    FixedDigitsShape(FixedUnits(x, f), f);
    (if x < 0.0 then "-" else "") + FixedDigits(FixedUnits(x, f), f)
  }

  /** `toFixed` on a number that may be NaN (`None`), which it writes as "NaN". */
  function NumberToFixed(x: Option<real>, f: nat): (s: string)
    ensures s != [] && ' ' !in s
    ensures x.None? ==> s == "NaN"
    ensures x.Some? ==> s == ToFixed(x.value, f)
  {
    match x
    case None => "NaN"
    case Some(v) => ToFixed(v, f)
  }

  lemma FixedDigitsShape(n: nat, f: nat)
    ensures FixedDigits(n, f) != [] && IsDigit(FixedDigits(n, f)[0], 10)
    ensures forall i :: 0 <= i < |FixedDigits(n, f)| ==> FixedDigits(n, f)[i] == '.' || IsDigit(FixedDigits(n, f)[i], 10)
  {
  }

  // ---------------------------------------------------------------------------
  // Reading the text back

  lemma {:induction false} DigitsValueConcat(a: string, b: string)
    requires forall i :: 0 <= i < |a| ==> IsDigit(a[i], 10)
    requires forall i :: 0 <= i < |b| ==> IsDigit(b[i], 10)
    ensures forall i :: 0 <= i < |a + b| ==> IsDigit((a + b)[i], 10)
    ensures DigitsValue(a + b, 10) == DigitsValue(a, 10) * Pow10(|b|) + DigitsValue(b, 10)
  {
    if b == [] {
      assert a + b == a;
    } else {
      var b' := b[..|b| - 1];
      DigitsValueConcat(a, b');
      assert (a + b)[..|a + b| - 1] == a + b';
      assert (a + b)[|a + b| - 1] == b[|b| - 1];
      var d := DigitValue(b[|b| - 1], 10);
      var va, vb', q := DigitsValue(a, 10), DigitsValue(b', 10), Pow10(|b'|);
      assert DigitsValue(a + b, 10) == DigitsValue(a + b', 10) * 10 + d;
      assert DigitsValue(b, 10) == vb' * 10 + d;
      assert Pow10(|b|) == q * 10;
      Distribute(va, vb', q, d);
    }
  }

  lemma Distribute(va: int, vb: int, q: int, d: int)
    ensures (va * q + vb) * 10 + d == va * (q * 10) + (vb * 10 + d)
  {
  }

  lemma {:induction false} DigitsValueOfZeros(k: nat)
    ensures forall i :: 0 <= i < k ==> IsDigit(Zeros(k)[i], 10)
    ensures DigitsValue(Zeros(k), 10) == 0
  {
    if k > 0 {
      DigitsValueOfZeros(k - 1);
      assert Zeros(k)[..k - 1] == Zeros(k - 1);
    }
  }

  /** The padded digits still denote `n`; the point splits them into whole and fraction. */
  lemma PaddedDigits(n: nat, f: nat) returns (whole: string, fraction: string)
    requires f > 0
    ensures FixedDigits(n, f) == whole + "." + fraction
    ensures whole != [] && |fraction| == f
    ensures forall i :: 0 <= i < |whole| ==> IsDigit(whole[i], 10)
    ensures forall i :: 0 <= i < |fraction| ==> IsDigit(fraction[i], 10)
    ensures DigitsValue(whole, 10) * Pow10(f) + DigitsValue(fraction, 10) == n
  {
    var padded := Padded(n, f);
    PaddedValue(n, f);
    var k := |padded|;
    whole, fraction := padded[..k - f], padded[k - f..];
    assert padded == whole + fraction;
    DigitsValueConcat(whole, fraction);
  }

  /** Leading zeros change neither the digits' kind nor their value. */
  lemma PaddedValue(n: nat, f: nat)
    ensures forall i :: 0 <= i < |Padded(n, f)| ==> IsDigit(Padded(n, f)[i], 10)
    ensures DigitsValue(Padded(n, f), 10) == n
  {
    var m := NatToString(n);
    DigitsValueOfNatToString(n);
    if |m| <= f {
      LeadingZeros(f + 1 - |m|, m);
      assert Padded(n, f) == Zeros(f + 1 - |m|) + m;
    } else {
      assert Padded(n, f) == m;
    }
  }

  lemma LeadingZeros(k: nat, m: string)
    requires forall i :: 0 <= i < |m| ==> IsDigit(m[i], 10)
    ensures forall i :: 0 <= i < |Zeros(k) + m| ==> IsDigit((Zeros(k) + m)[i], 10)
    ensures DigitsValue(Zeros(k) + m, 10) == DigitsValue(m, 10)
  {
    DigitsValueOfZeros(k);
    DigitsValueConcat(Zeros(k), m);
  }

  lemma ParseUnsignedFloatOfFixedDigits(n: nat, f: nat)
    ensures ParseUnsignedFloat(FixedDigits(n, f)) == Some(n as real / Pow10(f) as real)
  {
    if f == 0 {
      ParseUnsignedFloatOfNatToString(n);
      assert FixedDigits(n, f) == NatToString(n);
      assert n as real / Pow10(0) as real == n as real;
    } else {
      var whole, fraction := PaddedDigits(n, f);
      ParseUnsignedFloatOfPointed(whole, fraction);
      DecimalValueOfUnits(whole, fraction, n);
    }
  }

  /** Whole and fraction digits that make up `n` units of `10^-|fraction|` denote `n / 10^|fraction|`. */
  lemma DecimalValueOfUnits(whole: string, fraction: string, n: nat)
    requires forall i :: 0 <= i < |whole| ==> IsDigit(whole[i], 10)
    requires forall i :: 0 <= i < |fraction| ==> IsDigit(fraction[i], 10)
    requires DigitsValue(whole, 10) * Pow10(|fraction|) + DigitsValue(fraction, 10) == n
    ensures DecimalValue(whole, fraction) == n as real / Pow10(|fraction|) as real
  {
    UnitsOverPower(DigitsValue(whole, 10), Pow10(|fraction|), DigitsValue(fraction, 10), n,
                   DecimalValue(whole, fraction));
  }

  lemma UnitsOverPower(w: int, q: int, r: int, n: int, d: real)
    requires q >= 1 && w * q + r == n && d == w as real + r as real / q as real
    ensures d == n as real / q as real
  {
    var qr := q as real;
    assert n as real == w as real * qr + r as real;
    assert w as real + r as real / qr == (w as real * qr + r as real) / qr;
  }

  /** A run of digits, a point and a run of digits reads as whole plus fraction. */
  lemma ParseUnsignedFloatOfPointed(whole: string, fraction: string)
    requires whole != []
    requires forall i :: 0 <= i < |whole| ==> IsDigit(whole[i], 10)
    requires forall i :: 0 <= i < |fraction| ==> IsDigit(fraction[i], 10)
    ensures ParseUnsignedFloat(whole + "." + fraction) == Some(DecimalValue(whole, fraction))
  {
    var text := whole + "." + fraction;
    DigitPrefixOfDigits(whole, "." + fraction);
    assert text == whole + ("." + fraction);
    var rest := text[|whole|..];
    assert rest == "." + fraction;
    assert rest[1..] == fraction;
    DigitPrefixOfDigits(fraction, []);
    assert fraction + [] == fraction;
    assert FractionDigits(rest) == fraction;
    assert AfterFraction(rest, fraction) == [];
    assert ExponentPrefix([]) == None;
    assert TenTo(0) == 1.0;
  }

  /** `parseFloat(x.toFixed(f))` is `x` rounded to `f` decimals. */
  lemma ParseFloatOfToFixed(x: real, f: nat)
    ensures ParseFloat(ToFixed(x, f)).Some?
    ensures ParseFloat(ToFixed(x, f)).value == FixedValue(x, f)
  {
    var n := FixedUnits(x, f);
    var digits := FixedDigits(n, f);
    var v := n as real / Pow10(f) as real;
    ParseUnsignedFloatOfFixedDigits(n, f);
    if x < 0.0 {
      assert ToFixed(x, f) == "-" + digits;
      assert FixedValue(x, f) == -v;
      ParseFloatOfMinus(digits);
    } else {
      assert ToFixed(x, f) == digits;
      assert FixedValue(x, f) == v;
      FixedDigitsShape(n, f);
      ParseFloatOfUnsigned(digits);
      assert ParseFloat(digits) == Some(v);
    }
  }
}
