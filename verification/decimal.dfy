/**
  Decimal numerals of natural numbers, as `Number.prototype.toString()` and
  `String.prototype.padStart(2, "0")` render the small non-negative integers
  shown by the countdown.
 */
module Decimal {

  predicate IsDigit(c: char) {
    '0' <= c <= '9'
  }

  /** Every character of `s` is an ASCII decimal digit. */
  predicate IsDecimal(s: string) {
    forall i :: 0 <= i < |s| ==> IsDigit(s[i])
  }

  function DigitVal(c: char): (d: nat)
    requires IsDigit(c)
    ensures d < 10
  {
    c as int - '0' as int
  }

  /** The digit character for `d`; `DigitVal` is its inverse. */
  function DigitChar(d: nat): (c: char)
    requires d < 10
    ensures IsDigit(c) && DigitVal(c) == d
  {
    (d + '0' as int) as char
  }

  /** The number a numeral denotes, most significant digit first; leading zeros are allowed. */
  function Value(s: string): nat
    requires IsDecimal(s)
  {
    if s == [] then 0 else Value(s[..|s| - 1]) * 10 + DigitVal(s[|s| - 1])
  }

  /** A numeral with no superfluous leading zero: "0" or one starting with 1-9. */
  predicate Canonical(s: string) {
    IsDecimal(s) && |s| >= 1 && (s[0] == '0' ==> |s| == 1)
  }

  /**
    `n.toString()` for a non-negative integer: the canonical numeral, whose
    length is 1 exactly below ten and 2 exactly from ten to ninety-nine.
   */
  function ToDecimal(n: nat): (s: string)
    ensures Canonical(s)
    ensures s[0] == '0' <==> n == 0
    ensures |s| == 1 <==> n < 10
    ensures 10 <= n < 100 ==> |s| == 2
    decreases n
  {
    if n < 10 then [DigitChar(n)] else ToDecimal(n / 10) + [DigitChar(n % 10)]
  }

  /** `s.padStart(width, fill)`: `s` with copies of `fill` put in front up to `width` characters. */
  function PadStart(s: string, width: nat, fill: char): (r: string)
    ensures |r| == if |s| >= width then |s| else width
    ensures r[|r| - |s|..] == s
    ensures forall i :: 0 <= i < |r| - |s| ==> r[i] == fill
  {
    if |s| >= width then s else seq(width - |s|, _ => fill) + s
  }

  /** `n.toString().padStart(2, "0")`: at least two digits, still denoting `n`. */
  function TwoDigits(n: nat): (s: string)
    ensures IsDecimal(s) && Value(s) == n
    ensures |s| >= 2
    ensures n < 100 ==> |s| == 2
  {
    var d := ToDecimal(n);
    ToDecimalDenotes(n);
    var r := PadStart(d, 2, '0');
    if |d| >= 2 then
      r
    else
      assert r == ['0'] + d;
      LeadingZero(d);
      r
  }

  /** Reading back `n.toString()` gives `n`. */
  lemma {:induction false} ToDecimalDenotes(n: nat)
    ensures Value(ToDecimal(n)) == n
    decreases n
  {
    if n >= 10 {
      var s := ToDecimal(n);
      assert s[..|s| - 1] == ToDecimal(n / 10);
      ToDecimalDenotes(n / 10);
    }
  }

  /** A leading zero does not change the number a numeral denotes. */
  lemma {:induction false} LeadingZero(s: string)
    requires IsDecimal(s)
    ensures IsDecimal(['0'] + s) && Value(['0'] + s) == Value(s)
    decreases |s|
  {
    var z := ['0'] + s;
    if s != [] {
      assert z[..|z| - 1] == ['0'] + s[..|s| - 1];
      LeadingZero(s[..|s| - 1]);
    }
  }

  /** A numeral denoting zero is all zeros. */
  lemma {:induction false} ZeroValueAllZeros(s: string)
    requires IsDecimal(s) && Value(s) == 0
    ensures forall i :: 0 <= i < |s| ==> s[i] == '0'
    decreases |s|
  {
    if s != [] {
      var p := s[..|s| - 1];
      ZeroValueAllZeros(p);
      assert forall i :: 0 <= i < |p| ==> s[i] == p[i];
    }
  }

  /** Every canonical numeral is what `toString` prints for the number it denotes. */
  lemma {:induction false} CanonicalIsToDecimal(s: string)
    requires Canonical(s)
    ensures ToDecimal(Value(s)) == s
    decreases |s|
  {
    if |s| >= 2 {
      var p := s[..|s| - 1];
      assert p[0] == s[0];
      CanonicalIsToDecimal(p);
      if Value(p) == 0 {
        ZeroValueAllZeros(p);
        assert false;
      }
      var n := Value(s);
      assert n / 10 == Value(p) && n % 10 == DigitVal(s[|s| - 1]);
      assert DigitChar(DigitVal(s[|s| - 1])) == s[|s| - 1];
      assert s == p + [s[|s| - 1]];
    } else {
      assert DigitChar(DigitVal(s[0])) == s[0];
    }
  }
}
