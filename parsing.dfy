/**
 * The string operations the pages apply to their text fields, with the
 * semantics of the ECMAScript built-ins they call:
 *
 * - `s.split(sep)` for a one-character separator, and its inverse `join`;
 * - `s.trim() === ""` (the calculator's blank-display test);
 * - `parseInt(s)` with no radix (decimal, or hexadecimal after `0x`);
 * - `parseFloat(s)` (decimal literal with optional fraction and exponent);
 * - `String(i)` for an integer, used by the template strings that render
 *   whole-number results.
 *
 * `NaN` is `None`: the pages only ever ask `isNaN` of a parse result.
 */
module Parsing {
  import opened Options
  import opened JsMath

  /**
   * The code points ECMAScript's TrimString removes: WhiteSpace (tab,
   * vertical tab, form feed, the byte-order mark and the space separators of
   * Unicode category Zs) and LineTerminator (line feed, carriage return, line
   * and paragraph separators).
   */
  predicate IsWhiteSpace(c: char)
  {
    || c == '\t' || c == '\n' || c == '\r' || c == ' '
    || c == '\U{000B}' || c == '\U{000C}' || c == '\U{00A0}' || c == '\U{1680}'
    || ('\U{2000}' <= c <= '\U{200A}')
    || c == '\U{2028}' || c == '\U{2029}' || c == '\U{202F}' || c == '\U{205F}'
    || c == '\U{3000}' || c == '\U{FEFF}'
  }

  /** What `trim()` would strip from the front of `s`. */
  function TrimStart(s: string): (t: string)
    ensures |t| <= |s|
  {
    if s != [] && IsWhiteSpace(s[0]) then TrimStart(s[1..]) else s
  }

  /** What is left is a suffix of `s` that starts with no white space, and all that went was white space. */
  lemma {:induction false} TrimStartShape(s: string)
    ensures TrimStart(s) == s[|s| - |TrimStart(s)|..]
    ensures forall i :: 0 <= i < |s| - |TrimStart(s)| ==> IsWhiteSpace(s[i])
    ensures TrimStart(s) != [] ==> !IsWhiteSpace(TrimStart(s)[0])
  {
    if s != [] && IsWhiteSpace(s[0]) {
      TrimStartShape(s[1..]);
      assert s[1..][|s| - 1 - |TrimStart(s)|..] == s[|s| - |TrimStart(s)|..];
      forall i | 0 <= i < |s| - |TrimStart(s)|
        ensures IsWhiteSpace(s[i])
      {
        if i > 0 {
          assert s[i] == s[1..][i - 1];
        }
      }
    }
  }

  /** `s.trim() === ""`: nothing but white space. */
  predicate IsBlank(s: string)
  {
    forall i :: 0 <= i < |s| ==> IsWhiteSpace(s[i])
  }

  lemma BlankIffTrimsToEmpty(s: string)
    ensures IsBlank(s) <==> TrimStart(s) == []
  {
    TrimStartShape(s);
  }

  // ---------------------------------------------------------------------------
  // split / join

  /** `s.split(sep)`: the pieces between occurrences of `sep`, never an empty list. */
  function Split(s: string, sep: char): (parts: seq<string>)
    ensures |parts| >= 1
    ensures forall k :: 0 <= k < |parts| ==> sep !in parts[k]
  {
    if s == [] then [""]
    else
      var rest := Split(s[1..], sep);
      if s[0] == sep then [""] + rest
      else [[s[0]] + rest[0]] + rest[1..]
  }

  /** `parts.join(sep)`. */
  function Join(parts: seq<string>, sep: char): string
    requires |parts| >= 1
  {
    if |parts| == 1 then parts[0] else parts[0] + [sep] + Join(parts[1..], sep)
  }

  /** Splitting loses nothing: joining the pieces back gives the original text. */
  lemma {:induction false} JoinSplit(s: string, sep: char)
    ensures Join(Split(s, sep), sep) == s
  {
    if s != [] {
      var rest := Split(s[1..], sep);
      JoinSplit(s[1..], sep);
      if s[0] == sep {
        assert Split(s, sep)[1..] == rest;
      } else {
        var parts := Split(s, sep);
        if |rest| == 1 {
          assert parts == [[s[0]] + rest[0]];
        } else {
          assert parts[1..] == rest[1..];
          assert Join(parts, sep) == [s[0]] + (rest[0] + [sep] + Join(rest[1..], sep));
        }
      }
    }
  }

  /** Joining pieces free of the separator and splitting again gives the pieces back. */
  lemma {:induction false} SplitJoin(parts: seq<string>, sep: char)
    requires |parts| >= 1
    requires forall k :: 0 <= k < |parts| ==> sep !in parts[k]
    ensures Split(Join(parts, sep), sep) == parts
  {
    if |parts| == 1 {
      SplitSeparatorFree(parts[0], sep);
    } else {
      SplitJoin(parts[1..], sep);
      SplitPrefix(parts[0], sep, Join(parts[1..], sep));
      assert parts == [parts[0]] + parts[1..];
    }
  }

  lemma {:induction false} SplitSeparatorFree(s: string, sep: char)
    requires sep !in s
    ensures Split(s, sep) == [s]
  {
    if s != [] {
      SplitSeparatorFree(s[1..], sep);
      assert [s[0]] + s[1..] == s;
    }
  }

  lemma {:induction false} SplitPrefix(a: string, sep: char, b: string)
    requires sep !in a
    ensures Split(a + [sep] + b, sep) == [a] + Split(b, sep)
  {
    if a == [] {
      assert a + [sep] + b == [sep] + b;
      assert ([sep] + b)[1..] == b;
    } else {
      assert (a + [sep] + b)[1..] == a[1..] + [sep] + b;
      SplitPrefix(a[1..], sep, b);
      assert [a[0]] + a[1..] == a;
    }
  }

  // ---------------------------------------------------------------------------
  // digits

  predicate IsDigit(c: char, radix: nat)
    requires radix == 10 || radix == 16
  {
    ('0' <= c <= '9') || (radix == 16 && (('a' <= c <= 'f') || ('A' <= c <= 'F')))
  }

  function DigitValue(c: char, radix: nat): (d: nat)
    requires radix == 10 || radix == 16
    requires IsDigit(c, radix)
    ensures d < radix
  {
    if '0' <= c <= '9' then (c - '0') as nat
    else if 'a' <= c <= 'f' then (c - 'a') as nat + 10
    else (c - 'A') as nat + 10
  }

  /** The longest run of radix digits at the front of `s`. */
  function DigitPrefix(s: string, radix: nat): (ds: string)
    requires radix == 10 || radix == 16
    ensures |ds| <= |s| && ds == s[..|ds|]
    ensures forall i :: 0 <= i < |ds| ==> IsDigit(ds[i], radix)
    ensures |ds| < |s| ==> !IsDigit(s[|ds|], radix)
  {
    if s == [] || !IsDigit(s[0], radix) then [] else [s[0]] + DigitPrefix(s[1..], radix)
  }

  /** The number a run of digits denotes, most significant digit first. */
  function DigitsValue(ds: string, radix: nat): nat
    requires radix == 10 || radix == 16
    requires forall i :: 0 <= i < |ds| ==> IsDigit(ds[i], radix)
  {
    if ds == [] then 0
    else DigitsValue(ds[..|ds| - 1], radix) * radix + DigitValue(ds[|ds| - 1], radix)
  }

  // ---------------------------------------------------------------------------
  // parseInt

  /** Whether text starts with a minus sign, and the text after one optional sign. */
  function SplitSign(t: string): (r: (bool, string))
    ensures r.0 <==> t != [] && t[0] == '-'
    ensures r.1 == if t != [] && (t[0] == '-' || t[0] == '+') then t[1..] else t
  {
    if t != [] && (t[0] == '-' || t[0] == '+') then (t[0] == '-', t[1..]) else (false, t)
  }

  /**
   * The digits of an unsigned `parseInt` body: hexadecimal after a `0x`/`0X`
   * prefix and decimal otherwise, up to the first character that is not a
   * digit; `None` when there is no digit.
   */
  function ParseUnsignedInt(u: string): Option<nat>
  {
    var hex := |u| >= 2 && u[0] == '0' && (u[1] == 'x' || u[1] == 'X');
    var radix := if hex then 16 else 10;
    var ds := DigitPrefix(if hex then u[2..] else u, radix);
    if ds == [] then None else Some(DigitsValue(ds, radix))
  }

  /**
   * `parseInt(s)` with no radix: skip leading white space, take one optional
   * sign, then read the unsigned body; `NaN` when no digit was read.
   */
  function ParseInt(s: string): Option<int>
  {
    var signed := SplitSign(TrimStart(s));
    match ParseUnsignedInt(signed.1)
    case None => None
    case Some(n) => Some(if signed.0 then -(n as int) else n as int)
  }

  // ---------------------------------------------------------------------------
  // parseFloat

  /** 10 raised to an integer power, as a real. */
  function TenTo(e: int): (p: real)
    ensures p > 0.0
  {
    if e >= 0 then Pow10(e) as real else 1.0 / Pow10(-e) as real
  }

  /**
   * The exponent part `e`/`E`, optional sign, at least one digit, at the
   * front of `s`; `None` when `s` does not start with one (the exponent is
   * then simply not part of the literal).
   */
  function ExponentPrefix(s: string): Option<int>
  {
    if s == [] || (s[0] != 'e' && s[0] != 'E') then None
    else
      var signed := |s| >= 2 && (s[1] == '+' || s[1] == '-');
      var ds := DigitPrefix(if signed then s[2..] else s[1..], 10);
      if ds == [] then None
      else
        var n: int := DigitsValue(ds, 10);
        Some(if signed && s[1] == '-' then -n else n)
  }

  /** The digits after a leading decimal point, if `rest` starts with one. */
  function FractionDigits(rest: string): (fraction: string)
    ensures forall i :: 0 <= i < |fraction| ==> IsDigit(fraction[i], 10)
    ensures fraction != [] ==> rest != [] && rest[0] == '.' && |fraction| < |rest|
  {
    if rest != [] && rest[0] == '.' then DigitPrefix(rest[1..], 10) else []
  }

  /** What follows the fraction: `rest` after the point and its digits, if there is a point. */
  function AfterFraction(rest: string, fraction: string): string
    requires fraction != [] ==> |fraction| < |rest|
  {
    if rest != [] && rest[0] == '.' && 1 + |fraction| <= |rest| then rest[1 + |fraction|..] else rest
  }

  /** `whole.fraction` as a number. */
  function DecimalValue(whole: string, fraction: string): real
    requires forall i :: 0 <= i < |whole| ==> IsDigit(whole[i], 10)
    requires forall i :: 0 <= i < |fraction| ==> IsDigit(fraction[i], 10)
  {
    DigitsValue(whole, 10) as real + DigitsValue(fraction, 10) as real / Pow10(|fraction|) as real
  }

  /**
   * The longest unsigned decimal literal `digits[.digits][exponent]` or
   * `.digits[exponent]` at the front of `u`; `None` when there is none.
   */
  function ParseUnsignedFloat(u: string): Option<real>
  {
    var whole := DigitPrefix(u, 10);
    var rest := u[|whole|..];
    var fraction := FractionDigits(rest);
    if whole == [] && fraction == [] then None
    else
      var exponent := match ExponentPrefix(AfterFraction(rest, fraction)) case Some(e) => e case None => 0;
      Some(DecimalValue(whole, fraction) * TenTo(exponent))
  }

  /**
   * `parseFloat(s)`: skip leading white space, take one optional sign, then
   * read the longest unsigned decimal literal; `NaN` when there is none.
   */
  function ParseFloat(s: string): Option<real>
  {
    var signed := SplitSign(TrimStart(s));
    match ParseUnsignedFloat(signed.1)
    case None => None
    case Some(x) => Some(if signed.0 then -x else x)
  }

  // ---------------------------------------------------------------------------
  // String(i)

  function DigitChar(d: nat): (c: char)
    requires d < 10
    ensures IsDigit(c, 10) && DigitValue(c, 10) == d
  {
    ('0' as int + d) as char
  }

  /** The decimal digits of a natural number, without leading zeros. */
  function NatToString(n: nat): (s: string)
    ensures s != []
    ensures forall i :: 0 <= i < |s| ==> IsDigit(s[i], 10)
    ensures |s| >= 2 ==> s[0] != '0'
  {
    if n < 10 then [DigitChar(n)] else NatToString(n / 10) + [DigitChar(n % 10)]
  }

  /** `String(i)` for a whole number: a minus sign, then the digits. */
  function IntToString(i: int): (s: string)
    ensures s != []
  {
    if i < 0 then "-" + NatToString(-i) else NatToString(i)
  }

  /** A rendered integer holds only digits and a minus sign. */
  lemma IntToStringChars(i: int)
    ensures forall k :: 0 <= k < |IntToString(i)| ==> IntToString(i)[k] == '-' || IsDigit(IntToString(i)[k], 10)
  {
  }

  lemma {:induction false} DigitsValueOfNatToString(n: nat)
    ensures DigitsValue(NatToString(n), 10) == n
  {
    if n >= 10 {
      DigitsValueOfNatToString(n / 10);
      var s := NatToString(n);
      assert s[..|s| - 1] == NatToString(n / 10);
    }
  }

  lemma {:induction false} DigitPrefixOfDigits(ds: string, tail: string)
    requires forall i :: 0 <= i < |ds| ==> IsDigit(ds[i], 10)
    requires tail == [] || !IsDigit(tail[0], 10)
    ensures DigitPrefix(ds + tail, 10) == ds
  {
    if ds != [] {
      assert (ds + tail)[1..] == ds[1..] + tail;
      DigitPrefixOfDigits(ds[1..], tail);
    }
  }

  /** Text that can follow a rendered integer without being read as part of it. */
  predicate EndsNumber(tail: string)
  {
    tail == [] || (!IsDigit(tail[0], 10) && tail[0] != 'x' && tail[0] != 'X')
  }

  lemma TrimStartOfDigits(s: string)
    requires s != [] && IsDigit(s[0], 10)
    ensures TrimStart(s) == s
  {
  }

  lemma TrimStartOfMinus(s: string)
    requires s != [] && s[0] == '-'
    ensures TrimStart(s) == s
  {
  }

  lemma ParseUnsignedIntOfNatToString(n: nat, tail: string)
    requires EndsNumber(tail)
    ensures ParseUnsignedInt(NatToString(n) + tail) == Some(n)
  {
    var digits := NatToString(n);
    DigitsValueOfNatToString(n);
    DigitPrefixOfDigits(digits, tail);
    var u := digits + tail;
    assert !(|u| >= 2 && u[0] == '0' && (u[1] == 'x' || u[1] == 'X')) by {
      if |u| >= 2 && u[0] == '0' {
        assert |digits| == 1;
      }
    }
  }

  /**
   * `parseInt` reads back what `String` writes, whatever non-digit text
   * follows it. (A tail starting with `x` is excluded: after a lone `0` it
   * would make a hexadecimal prefix.)
   */
  lemma ParseIntOfIntToString(i: int, tail: string)
    requires EndsNumber(tail)
    ensures ParseInt(IntToString(i) + tail) == Some(i)
  {
    if i < 0 {
      ParseIntOfNegative(-i, tail);
    } else {
      ParseIntOfNat(i, tail);
    }
  }

  lemma ParseIntOfNat(n: nat, tail: string)
    requires EndsNumber(tail)
    ensures ParseInt(NatToString(n) + tail) == Some(n)
  {
    var u := NatToString(n) + tail;
    ParseUnsignedIntOfNatToString(n, tail);
    TrimStartOfDigits(u);
    assert SplitSign(TrimStart(u)) == (false, u);
  }

  lemma ParseIntOfNegative(n: nat, tail: string)
    requires n > 0 && EndsNumber(tail)
    ensures ParseInt("-" + NatToString(n) + tail) == Some(-(n as int))
  {
    var u := NatToString(n) + tail;
    ParseUnsignedIntOfNatToString(n, tail);
    assert "-" + NatToString(n) + tail == "-" + u;
    SignedText(u);
  }

  lemma SignedText(u: string)
    ensures SplitSign(TrimStart("-" + u)) == (true, u)
  {
    TrimStartOfMinus("-" + u);
    assert ("-" + u)[1..] == u;
  }

  lemma ParseUnsignedFloatOfNatToString(n: nat)
    ensures ParseUnsignedFloat(NatToString(n)) == Some(n as real)
  {
    var digits := NatToString(n);
    DigitsValueOfNatToString(n);
    DigitPrefixOfDigits(digits, []);
    assert digits + [] == digits;
    assert digits[|digits|..] == [];
  }

  /** `parseFloat` reads back what `String` writes for a whole number. */
  lemma ParseFloatOfIntToString(i: int)
    ensures ParseFloat(IntToString(i)) == Some(i as real)
  {
    if i < 0 {
      ParseFloatOfNegative(-i);
    } else {
      ParseFloatOfNat(i);
    }
  }

  lemma ParseFloatOfNat(n: nat)
    ensures ParseFloat(NatToString(n)) == Some(n as real)
  {
    ParseUnsignedFloatOfNatToString(n);
    ParseFloatOfUnsigned(NatToString(n));
  }

  lemma ParseFloatOfNegative(n: nat)
    requires n > 0
    ensures ParseFloat("-" + NatToString(n)) == Some(-(n as real))
  {
    ParseUnsignedFloatOfNatToString(n);
    ParseFloatOfMinus(NatToString(n));
  }

  /** Text that starts with a digit is read by the unsigned reader alone. */
  lemma ParseFloatOfUnsigned(u: string)
    requires u != [] && IsDigit(u[0], 10)
    ensures ParseFloat(u) == ParseUnsignedFloat(u)
  {
    TrimStartOfDigits(u);
    assert SplitSign(TrimStart(u)) == (false, u);
  }

  /** A leading minus sign negates what the unsigned reader reads. */
  lemma ParseFloatOfMinus(u: string)
    ensures ParseUnsignedFloat(u).None? ==> ParseFloat("-" + u) == None
    ensures ParseUnsignedFloat(u).Some? ==> ParseFloat("-" + u) == Some(-ParseUnsignedFloat(u).value)
  {
    SignedText(u);
  }
}
