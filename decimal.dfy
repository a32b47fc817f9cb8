/**
 * Decimal digit strings: writing a whole number in decimal, reading the
 * leading digits of a text as a number, deleting every non-digit from a text,
 * and padding a text on the left. Numbers are unbounded naturals; JavaScript's
 * double-precision rounding (above 2^53) and exponent notation (from 1e21 on)
 * are not modelled.
 */
module Decimal {
  import opened Wrappers

  predicate IsDigit(c: char) { '0' <= c <= '9' }

  predicate IsDigits(s: string) { forall i :: 0 <= i < |s| ==> IsDigit(s[i]) }

  function DigitChar(d: nat): (c: char)
    requires d < 10
    ensures IsDigit(c)
  {
    (d + '0' as int) as char
  }

  function DigitValue(c: char): (d: nat)
    requires IsDigit(c)
    ensures d < 10 && DigitChar(d) == c
  {
    c as int - '0' as int
  }

  /** The value of a digit string, most significant digit first; "" reads as 0. */
  function DigitsValue(s: string): nat
    requires IsDigits(s)
    decreases |s|
  {
    if s == [] then 0 else 10 * DigitsValue(s[..|s| - 1]) + DigitValue(s[|s| - 1])
  }

  /** A natural written in decimal: shortest form, no leading zero (as JavaScript writes integers below 1e21). */
  function DecimalString(n: nat): (s: string)
    ensures |s| > 0 && IsDigits(s)
    ensures s[0] == '0' <==> n == 0
    ensures |s| == 1 <==> n < 10
    ensures n == 0 ==> s == "0"
    decreases n
  {
    if n < 10 then [DigitChar(n)] else DecimalString(n / 10) + [DigitChar(n % 10)]
  }

  lemma {:induction false} DecimalStringValue(n: nat)
    ensures DigitsValue(DecimalString(n)) == n
    decreases n
  {
    var s := DecimalString(n);
    if n >= 10 {
      DecimalStringValue(n / 10);
      assert s[..|s| - 1] == DecimalString(n / 10);
      assert DigitValue(s[|s| - 1]) == n % 10;
    } else {
      assert s[..0] == [];
    }
  }

  /** Digit strings of one length are equal exactly when their values are. */
  lemma {:induction false} DigitsValueInjective(a: string, b: string)
    requires IsDigits(a) && IsDigits(b) && |a| == |b|
    requires DigitsValue(a) == DigitsValue(b)
    ensures a == b
    decreases |a|
  {
    if a != [] {
      var n := |a| - 1;
      var va, vb := DigitsValue(a[..n]), DigitsValue(b[..n]);
      var da, db := DigitValue(a[n]), DigitValue(b[n]);
      assert 10 * va + da == 10 * vb + db;
      LastDigitSplit(va, da, vb, db);
      assert a[n] == DigitChar(da) == DigitChar(db) == b[n];
      DigitsValueInjective(a[..n], b[..n]);
      assert a == a[..n] + [a[n]] && b == b[..n] + [b[n]];
    }
  }

  /** A number written as 10 * v + d with d a digit determines v and d. */
  lemma LastDigitSplit(va: nat, da: nat, vb: nat, db: nat)
    requires da < 10 && db < 10 && 10 * va + da == 10 * vb + db
    ensures va == vb && da == db
  {
    assert 10 * va < 10 * (vb + 1) && 10 * vb < 10 * (va + 1);
  }

  /** Length of the leading run of digits. */
  function DigitPrefixLength(s: string): (k: nat)
    ensures k <= |s| && IsDigits(s[..k])
    ensures k < |s| ==> !IsDigit(s[k])
    decreases |s|
  {
    if s == [] || !IsDigit(s[0]) then 0
    else
      var k := 1 + DigitPrefixLength(s[1..]);
      assert s[..k] == [s[0]] + s[1..][..k - 1];
      k
  }

  /**
   * Number parsing as the core uses it: the value of the leading digit run,
   * and None (JavaScript's NaN) when the string does not start with a digit.
   * It agrees with JavaScript for digit runs whose value is below 2^53.
   */
  function ParseNumber(s: string): (r: Option<nat>)
    ensures r.None? <==> s == [] || !IsDigit(s[0])
    ensures IsDigits(s) && s != [] ==> r == Some(DigitsValue(s))
  {
    var k := DigitPrefixLength(s);
    if k == 0 then None
    else
      assert IsDigits(s) ==> k == |s| && s[..k] == s;
      Some(DigitsValue(s[..k]))
  }

  lemma ParseDecimalString(n: nat)
    ensures ParseNumber(DecimalString(n)) == Some(n)
  {
    DecimalStringValue(n);
  }

  /** The digits of `s`, in order, with every other character deleted. */
  function KeepDigits(s: string): (r: string)
    ensures IsDigits(r) && |r| <= |s|
    ensures IsDigits(s) ==> r == s
    ensures |s| == 1 ==> r == if IsDigit(s[0]) then s else []
    decreases |s|
  {
    if s == [] then []
    else (if IsDigit(s[0]) then [s[0]] else []) + KeepDigits(s[1..])
  }

  /** Sanitising distributes over concatenation, so it keeps every digit and their order. */
  lemma {:induction false} KeepDigitsAppend(a: string, b: string)
    ensures KeepDigits(a + b) == KeepDigits(a) + KeepDigits(b)
    decreases |a|
  {
    if a != [] {
      assert (a + b)[0] == a[0];
      assert (a + b)[1..] == a[1..] + b;
      KeepDigitsAppend(a[1..], b);
    } else {
      assert a + b == b;
    }
  }

  /** Fill on the left up to `width`, never truncating. */
  function PadStart(s: string, width: nat, fill: char): (r: string)
    ensures |r| == if |s| >= width then |s| else width
    ensures r[|r| - |s|..] == s
    ensures forall i :: 0 <= i < |r| - |s| ==> r[i] == fill
  {
    if |s| >= width then s else seq(width - |s|, _ => fill) + s
  }

  /** Leading zeros do not change the value of a digit string. */
  lemma {:induction false} LeadingZerosValue(z: string, s: string)
    requires forall i :: 0 <= i < |z| ==> z[i] == '0'
    requires IsDigits(s)
    ensures IsDigits(z + s) && DigitsValue(z + s) == DigitsValue(s)
    decreases |s|, |z|
  {
    var zs := z + s;
    if s == [] {
      assert zs == z;
      if z != [] {
        LeadingZerosValue(z[..|z| - 1], []);
        assert zs[..|zs| - 1] == z[..|z| - 1] + [];
      }
    } else {
      LeadingZerosValue(z, s[..|s| - 1]);
      assert zs[..|zs| - 1] == z + s[..|s| - 1];
    }
  }
}
