/**
 * Numeric literals of the lexer: text made only of ASCII digits and '.', as read by
 * `str::parse::<f32>` and printed back by f32's `Display`.
 *
 * In place of the f32, a literal is modelled by its exact decimal value, kept in a
 * canonical form (no trailing zero after the point), so that two literals give equal
 * values exactly when they denote the same decimal number ("1.50" and "1.5"). f32
 * rounding, which can also merge literals of different values, and overflow to
 * infinity are not part of this model.
 */
module Numerals {

  predicate IsDigit(c: char) {
    '0' <= c <= '9'
  }

  /** The characters the lexer accepts in a numeric literal (`is_ascii_digit() || a == '.'`). */
  predicate IsNumeralChar(c: char) {
    IsDigit(c) || c == '.'
  }

  predicate AllDigits(s: string) {
    forall i | 0 <= i < |s| :: IsDigit(s[i])
  }

  predicate IsNumeralText(s: string) {
    forall i | 0 <= i < |s| :: IsNumeralChar(s[i])
  }

  function Pow10(k: nat): (r: nat)
    ensures r >= 1
  {
    if k == 0 then 1 else 10 * Pow10(k - 1)
  }

  /** The number a digit string spells, most significant digit first. */
  function DigitsValue(s: string): nat
    requires AllDigits(s)
  {
    if s == [] then 0 else 10 * DigitsValue(s[..|s| - 1]) + ((s[|s| - 1] as int) - ('0' as int))
  }

  function DigitChar(d: nat): (c: char)
    requires d < 10
    ensures IsDigit(c) && (c as int) - ('0' as int) == d
  {
    (('0' as int) + d) as char
  }

  /** The decimal digits of `n`, without leading zeros ("0" for zero). */
  function NatDigits(n: nat): (s: string)
    ensures |s| >= 1 && AllDigits(s)
    ensures |s| > 1 ==> s[0] != '0'
    decreases n
  {
    if n < 10 then [DigitChar(n)] else NatDigits(n / 10) + [DigitChar(n % 10)]
  }

  function Zeros(k: nat): (s: string)
    ensures |s| == k && AllDigits(s)
  {
    seq(k, _ => '0')
  }

  /** `s` with zeros in front, up to `width` characters. */
  function PadLeft(s: string, width: nat): (r: string)
    requires AllDigits(s)
    ensures AllDigits(r) && |r| == if |s| >= width then |s| else width
  {
    if |s| >= width then s else Zeros(width - |s|) + s
  }

  /** The exact value `mantissa / 10^scale`. */
  datatype Decimal = Decimal(mantissa: nat, scale: nat)

  /** No trailing zero after the decimal point: each value has exactly one canonical form. */
  predicate Canonical(d: Decimal) {
    d.scale == 0 || d.mantissa % 10 != 0
  }

  /** Strips trailing zeros after the point; the value is unchanged. */
  function Normalize(m: nat, scale: nat): (d: Decimal)
    ensures Canonical(d) && d.scale <= scale
    decreases scale
  {
    if scale > 0 && m % 10 == 0 then Normalize(m / 10, scale - 1) else Decimal(m, scale)
  }

  /** `Normalize` keeps the value: `m / 10^scale == d.mantissa / 10^d.scale`. */
  lemma {:induction false} NormalizeKeepsValue(m: nat, scale: nat)
    ensures var d := Normalize(m, scale); m == d.mantissa * Pow10(scale - d.scale)
    decreases scale
  {
    if scale > 0 && m % 10 == 0 {
      var d := Normalize(m / 10, scale - 1);
      NormalizeKeepsValue(m / 10, scale - 1);
      var t := Pow10(scale - 1 - d.scale);
      assert m / 10 == d.mantissa * t;
      assert Pow10(scale - d.scale) == 10 * t;
      TenTimes(d.mantissa, t);
    }
  }

  lemma ZeroTimes(a: nat, b: nat)
    requires a == 0
    ensures a * b == 0
  {
  }

  lemma TenTimes(a: nat, b: nat)
    ensures 10 * (a * b) == a * (10 * b)
  {
  }

  /** Index of the first occurrence of `c` in `s`. */
  function IndexOf(s: string, c: char): (p: nat)
    requires c in s
    ensures p < |s| && s[p] == c && c !in s[..p]
  {
    if s[0] == c then 0 else 1 + IndexOf(s[1..], c)
  }

  /**
   * `parse::<f32>` on a digit/period string: a run of digits with at most one
   * period and at least one digit ("12", "1.", ".5"); `None` for "", "." and for
   * two or more periods ("1.2.3").
   */
  function ParseNumeral(s: string): (r: Option<Decimal>)
    requires IsNumeralText(s)
    ensures r.Some? ==> Canonical(r.value)
  {
    if '.' !in s then
      if s == [] then None else Some(Normalize(DigitsValue(s), 0))
    else
      var p := IndexOf(s, '.');
      var whole, fraction := s[..p], s[p + 1..];
      if '.' in fraction || |whole| + |fraction| == 0 then None
      else
        assert AllDigits(whole + fraction) by {
          forall i | 0 <= i < |whole + fraction| ensures IsDigit((whole + fraction)[i]) {
            if i < |whole| {
              assert (whole + fraction)[i] == s[i] && s[i] in s[..p];
            } else {
              assert (whole + fraction)[i] == s[p + 1 + i - |whole|] && fraction[i - |whole|] in fraction;
            }
          }
        }
        Some(Normalize(DigitsValue(whole + fraction), |fraction|))
  }

  datatype Option<T> = None | Some(value: T)

  /**
   * f32's `Display`: the integer part without leading zeros, then, when the value
   * is not whole, a period and the fraction digits (no exponent notation).
   */
  function Show(d: Decimal): (s: string)
  {
    if d.scale == 0 then NatDigits(d.mantissa)
    else
      var digits := ShownDigits(d);
      var cut := |digits| - d.scale;
      digits[..cut] + "." + digits[cut..]
  }

  /** The mantissa's digits, with zeros in front so that one is left before the point. */
  function ShownDigits(d: Decimal): (s: string)
    ensures AllDigits(s) && |s| > d.scale
  {
    PadLeft(NatDigits(d.mantissa), d.scale + 1)
  }

  lemma {:induction false} DigitsValueOfNatDigits(n: nat)
    ensures DigitsValue(NatDigits(n)) == n
    decreases n
  {
    if n >= 10 {
      var s := NatDigits(n);
      assert s[..|s| - 1] == NatDigits(n / 10);
      DigitsValueOfNatDigits(n / 10);
    }
  }

  lemma AllDigitsConcat(a: string, b: string)
    requires AllDigits(a) && AllDigits(b)
    ensures AllDigits(a + b)
  {
    forall i | 0 <= i < |a + b| ensures IsDigit((a + b)[i]) {
      if i < |a| { assert (a + b)[i] == a[i]; } else { assert (a + b)[i] == b[i - |a|]; }
    }
  }

  lemma {:induction false} DigitsValueAppend(a: string, b: string)
    requires AllDigits(a) && AllDigits(b)
    ensures AllDigits(a + b)
    ensures DigitsValue(a + b) == DigitsValue(a) * Pow10(|b|) + DigitsValue(b)
    decreases |b|
  {
    AllDigitsConcat(a, b);
    if b == [] {
      assert a + b == a;
    } else {
      var b' := b[..|b| - 1];
      var d := (b[|b| - 1] as int) - ('0' as int);
      assert (a + b)[..|a + b| - 1] == a + b';
      assert (a + b)[|a + b| - 1] == b[|b| - 1];
      DigitsValueAppend(a, b');
      var x, y, z := DigitsValue(a), Pow10(|b'|), DigitsValue(b');
      assert DigitsValue(a + b) == 10 * (x * y + z) + d;
      assert DigitsValue(b) == 10 * z + d;
      assert Pow10(|b|) == 10 * y;
      TenTimes(x, y);
    }
  }

  lemma {:induction false} DigitsValueOfZeros(k: nat)
    ensures DigitsValue(Zeros(k)) == 0
  {
    if k > 0 {
      assert Zeros(k)[..k - 1] == Zeros(k - 1);
      DigitsValueOfZeros(k - 1);
    }
  }

  lemma DigitsValueOfPadded(s: string, width: nat)
    requires AllDigits(s)
    ensures DigitsValue(PadLeft(s, width)) == DigitsValue(s)
  {
    if |s| < width {
      var z := Zeros(width - |s|);
      DigitsValueAppend(z, s);
      DigitsValueOfZeros(width - |s|);
      ZeroTimes(DigitsValue(z), Pow10(|s|));
    }
  }

  lemma SliceDigits(s: string, cut: nat)
    requires AllDigits(s) && cut <= |s|
    ensures AllDigits(s[..cut]) && AllDigits(s[cut..]) && s[..cut] + s[cut..] == s
  {
    assert forall i | 0 <= i < cut :: s[..cut][i] == s[i];
    assert forall i | 0 <= i < |s| - cut :: s[cut..][i] == s[cut + i];
  }

  lemma NoPeriodInDigits(s: string)
    requires AllDigits(s)
    ensures '.' !in s
  {
    forall i | 0 <= i < |s| ensures s[i] != '.' {
      assert IsDigit(s[i]);
    }
  }

  lemma {:induction false} IndexOfAfter(a: string, rest: string, c: char)
    requires c !in a && |rest| > 0 && rest[0] == c
    ensures c in a + rest && IndexOf(a + rest, c) == |a|
  {
    assert (a + rest)[|a|] == c;
    if a != [] {
      assert (a + rest)[0] == a[0];
      assert (a + rest)[1..] == a[1..] + rest;
      IndexOfAfter(a[1..], rest, c);
    }
  }

  lemma NumeralTextWithPoint(a: string, b: string)
    requires AllDigits(a) && AllDigits(b)
    ensures IsNumeralText(a + "." + b)
  {
    var s := a + "." + b;
    forall i | 0 <= i < |s| ensures IsNumeralChar(s[i]) {
      if i < |a| { assert s[i] == a[i]; }
      else if i > |a| { assert s[i] == b[i - |a| - 1]; }
    }
  }

  /** Some character of `s` is a digit. */
  predicate HasDigit(s: string) {
    exists i | 0 <= i < |s| :: IsDigit(s[i])
  }

  /**
   * The float parse of a digit/period text succeeds exactly when the text has a digit
   * and at most one period; it fails on "", "." and on two or more periods.
   */
  lemma ParseNumeralDefined(s: string)
    requires IsNumeralText(s)
    ensures ParseNumeral(s).Some? <==> HasDigit(s) && multiset(s)['.'] <= 1
  {
    if '.' !in s {
      assert multiset(s)['.'] == 0;
      if s != [] {
        assert IsDigit(s[0]);
      }
    } else {
      var p := IndexOf(s, '.');
      var whole, fraction := s[..p], s[p + 1..];
      assert s == whole + [s[p]] + fraction;
      assert multiset(whole)['.'] == 0;
      assert multiset(s)['.'] == multiset(whole)['.'] + 1 + multiset(fraction)['.'];
      if '.' in fraction {
        assert multiset(fraction)['.'] >= 1;
      } else if |whole| > 0 {
        assert whole[0] in whole && s[0] == whole[0];
        assert IsDigit(s[0]);
      } else if |fraction| > 0 {
        assert fraction[0] in fraction && s[p + 1] == fraction[0];
        assert IsDigit(s[p + 1]);
      } else {
        assert s == ".";
        assert !HasDigit(s);
      }
    }
  }

  /** A numeral without a point is the whole number its digits spell ("12" is 12). */
  lemma ParseWhole(s: string)
    requires s != [] && AllDigits(s)
    ensures IsNumeralText(s) && ParseNumeral(s) == Some(Decimal(DigitsValue(s), 0))
  {
    NoPeriodInDigits(s);
  }

  /** In "a.b" with digit strings a and b, the first period is the one between them. */
  lemma PointPosition(a: string, b: string)
    requires AllDigits(a) && AllDigits(b)
    ensures var s := a + "." + b;
      '.' in s && IndexOf(s, '.') == |a| && s[..|a|] == a && s[|a| + 1..] == b && '.' !in b
  {
    var s := a + "." + b;
    NoPeriodInDigits(a);
    NoPeriodInDigits(b);
    assert s == a + ("." + b);
    IndexOfAfter(a, "." + b, '.');
  }

  /** Parsing "a.b" where a and b are digit strings, not both empty. */
  lemma ParseWithPoint(a: string, b: string)
    requires AllDigits(a) && AllDigits(b) && |a| + |b| > 0
    ensures AllDigits(a + b) && IsNumeralText(a + "." + b)
    ensures ParseNumeral(a + "." + b) == Some(Normalize(DigitsValue(a + b), |b|))
  {
    AllDigitsConcat(a, b);
    NumeralTextWithPoint(a, b);
    PointPosition(a, b);
  }

  lemma ShowIsNumeral(d: Decimal)
    ensures IsNumeralText(Show(d)) && |Show(d)| >= 1 && IsDigit(Show(d)[0])
  {
    if d.scale > 0 {
      var digits := ShownDigits(d);
      var cut := |digits| - d.scale;
      SliceDigits(digits, cut);
      NumeralTextWithPoint(digits[..cut], digits[cut..]);
      assert Show(d)[0] == digits[..cut][0];
    }
  }

  lemma NormalizeCanonical(d: Decimal)
    requires Canonical(d)
    ensures Normalize(d.mantissa, d.scale) == d
  {
  }

  /** The text of a non-whole canonical value parses back to it. */
  lemma FractionRoundTrip(d: Decimal)
    requires Canonical(d) && d.scale > 0
    ensures IsNumeralText(Show(d)) && ParseNumeral(Show(d)) == Some(d)
  {
    var digits := ShownDigits(d);
    var cut := |digits| - d.scale;
    SliceDigits(digits, cut);
    ParseWithPoint(digits[..cut], digits[cut..]);
    DigitsValueOfPadded(NatDigits(d.mantissa), d.scale + 1);
    DigitsValueOfNatDigits(d.mantissa);
    NormalizeCanonical(d);
  }

  /** Printing a canonical value and parsing the text back gives the value again. */
  lemma ShowParseRoundTrip(d: Decimal)
    requires Canonical(d)
    ensures IsNumeralText(Show(d)) && ParseNumeral(Show(d)) == Some(d)
  {
    if d.scale == 0 {
      ShowIsNumeral(d);
      NoPeriodInDigits(Show(d));
      DigitsValueOfNatDigits(d.mantissa);
    } else {
      FractionRoundTrip(d);
    }
  }

  lemma Pow10Add(a: nat, b: nat)
    ensures Pow10(a + b) == Pow10(a) * Pow10(b)
  {
    if a > 0 {
      Pow10Add(a - 1, b);
      assert Pow10(a + b) == 10 * (Pow10(a - 1) * Pow10(b));
    }
  }

  lemma MulCancel(x: nat, y: nat, c: nat)
    requires c >= 1 && x * c == y * c
    ensures x == y
  {
    assert (x - y) * c == 0;
  }

  lemma TimesTenMod(n: nat)
    ensures (10 * n) % 10 == 0
  {
  }

  lemma CancelFactor(a: nat, b: nat, c: nat, e: nat)
    requires c >= 1 && a * (b * c) == e * c
    ensures e == a * b
  {
    assert a * (b * c) == (a * b) * c;
    MulCancel(a * b, e, c);
  }

  lemma EndsInZero(m: nat, k: nat)
    requires k >= 1
    ensures (m * Pow10(k)) % 10 == 0
  {
    var t := Pow10(k - 1);
    assert Pow10(k) == 10 * t;
    TenTimes(m, t);
    TimesTenMod(m * t);
  }

  /** Equal values at different scales: the finer mantissa ends in a zero digit. */
  lemma ScaleGap(x: Decimal, y: Decimal)
    requires x.scale < y.scale
    requires x.mantissa * Pow10(y.scale) == y.mantissa * Pow10(x.scale)
    ensures y.mantissa % 10 == 0
  {
    var k := y.scale - x.scale;
    Pow10Add(k, x.scale);
    CancelFactor(x.mantissa, Pow10(k), Pow10(x.scale), y.mantissa);
    EndsInZero(x.mantissa, k);
  }

  /** Two canonical decimals with the same value are the same decimal. */
  lemma CanonicalUnique(x: Decimal, y: Decimal)
    requires Canonical(x) && Canonical(y)
    requires x.mantissa * Pow10(y.scale) == y.mantissa * Pow10(x.scale)
    ensures x == y
  {
    if x.scale < y.scale {
      ScaleGap(x, y);
    } else if y.scale < x.scale {
      ScaleGap(y, x);
    } else {
      MulCancel(x.mantissa, y.mantissa, Pow10(x.scale));
    }
  }

  lemma PositiveProduct(x: nat, y: nat)
    requires x >= 1 && y >= 1
    ensures x * y >= 1
  {
  }

  /** Cross-multiplication with common factors: `(a1 e1)(q2 e2) == (a2 e2)(q1 e1)` iff `a1 q2 == a2 q1`. */
  lemma CrossMultiply(a1: nat, q1: nat, e1: nat, a2: nat, q2: nat, e2: nat)
    requires e1 >= 1 && e2 >= 1
    ensures (a1 * e1) * (q2 * e2) == (a2 * e2) * (q1 * e1) <==> a1 * q2 == a2 * q1
  {
    var e := e1 * e2;
    PositiveProduct(e1, e2);
    assert (a1 * e1) * (q2 * e2) == (a1 * q2) * e;
    assert (a2 * e2) * (q1 * e1) == (a2 * q1) * e;
    if (a1 * q2) * e == (a2 * q1) * e {
      MulCancel(a1 * q2, a2 * q1, e);
    }
  }

  lemma SameValueCanonical(m1: nat, s1: nat, d1: Decimal, m2: nat, s2: nat, d2: Decimal)
    requires Canonical(d1) && d1.scale <= s1 && m1 == d1.mantissa * Pow10(s1 - d1.scale)
    requires Canonical(d2) && d2.scale <= s2 && m2 == d2.mantissa * Pow10(s2 - d2.scale)
    ensures d1 == d2 <==> m1 * Pow10(s2) == m2 * Pow10(s1)
  {
    Pow10Add(d1.scale, s1 - d1.scale);
    Pow10Add(d2.scale, s2 - d2.scale);
    CrossMultiply(d1.mantissa, Pow10(d1.scale), Pow10(s1 - d1.scale),
                  d2.mantissa, Pow10(d2.scale), Pow10(s2 - d2.scale));
    if m1 * Pow10(s2) == m2 * Pow10(s1) {
      CanonicalUnique(d1, d2);
    }
  }

  /**
   * Two (mantissa, scale) readings normalize to the same decimal exactly when they
   * denote the same number: equality of normal forms is equality of exact values.
   */
  lemma NormalizeSameValue(m1: nat, s1: nat, m2: nat, s2: nat)
    ensures Normalize(m1, s1) == Normalize(m2, s2) <==> m1 * Pow10(s2) == m2 * Pow10(s1)
  {
    NormalizeKeepsValue(m1, s1);
    NormalizeKeepsValue(m2, s2);
    SameValueCanonical(m1, s1, Normalize(m1, s1), m2, s2, Normalize(m2, s2));
  }

  lemma TrailingZeroValue(a: string, b: string)
    requires AllDigits(a) && AllDigits(b)
    ensures AllDigits(a + b) && AllDigits(a + (b + "0"))
    ensures DigitsValue(a + (b + "0")) == 10 * DigitsValue(a + b)
  {
    AllDigitsConcat(a, b);
    AllDigitsConcat(a + b, "0");
    assert a + (b + "0") == (a + b) + "0";
    DigitsValueAppend(a + b, "0");
    assert DigitsValue("0") == 0;
  }

  /** Appending a zero digit one place further right leaves the normal form unchanged. */
  lemma NormalizeTimesTen(m: nat, scale: nat)
    ensures Normalize(10 * m, scale + 1) == Normalize(m, scale)
  {
    assert (10 * m) % 10 == 0 && (10 * m) / 10 == m;
  }

  /** "a.b0" and "a.b" parse to the same decimal. */
  lemma ParseTrailingZero(a: string, b: string)
    requires AllDigits(a) && AllDigits(b) && |a| + |b| > 0
    ensures IsNumeralText(a + "." + b) && IsNumeralText(a + "." + (b + "0"))
    ensures ParseNumeral(a + "." + (b + "0")) == ParseNumeral(a + "." + b)
  {
    var b0 := b + "0";
    AllDigitsConcat(b, "0");
    ParseWithPoint(a, b);
    ParseWithPoint(a, b0);
    TrailingZeroValue(a, b);
    NormalizeTimesTen(DigitsValue(a + b), |b|);
  }

  /** "0s" and "s" parse to the same decimal. */
  lemma ParseLeadingZero(s: string)
    requires s != [] && AllDigits(s)
    ensures IsNumeralText(s) && IsNumeralText("0" + s)
    ensures ParseNumeral("0" + s) == ParseNumeral(s)
  {
    AllDigitsConcat("0", s);
    NoPeriodInDigits(s);
    NoPeriodInDigits("0" + s);
    DigitsValueAppend("0", s);
    assert DigitsValue("0") == 0;
  }
}
