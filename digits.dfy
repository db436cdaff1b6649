/**
 * Decimal text as the timer reads and writes it: `parseInt` on the pending
 * digit string, and `num.toString().padStart(2, '0')` for the display.
 */
module Digits {

  predicate IsDigit(c: char) {
    '0' <= c <= '9'
  }

  predicate AllDigits(s: string) {
    forall i :: 0 <= i < |s| ==> IsDigit(s[i])
  }

  function DigitValue(c: char): (v: nat)
    requires IsDigit(c)
    ensures v < 10
  {
    c as int - '0' as int
  }

  function DigitChar(d: nat): (c: char)
    requires d < 10
    ensures IsDigit(c) && DigitValue(c) == d
  {
    ('0' as int + d) as char
  }

  function Pow10(k: nat): nat {
    if k == 0 then 1 else 10 * Pow10(k - 1)
  }

  /** `parseInt` of a string of decimal digits, read left to right (Horner's rule). */
  function ParseDigits(s: string): (r: nat)
    requires AllDigits(s)
    ensures |s| == 1 ==> r == DigitValue(s[0])
    ensures |s| == 2 ==> r == 10 * DigitValue(s[0]) + DigitValue(s[1])
    decreases |s|
  {
    if s == [] then 0 else ParseDigits(s[..|s| - 1]) * 10 + DigitValue(s[|s| - 1])
  }

  /** Appending a digit shifts the value one decimal place and adds the digit. */
  lemma ParseAppendDigit(s: string, c: char)
    requires AllDigits(s) && IsDigit(c)
    ensures AllDigits(s + [c]) && ParseDigits(s + [c]) == ParseDigits(s) * 10 + DigitValue(c)
    ensures |s| == 1 ==> ParseDigits(s + [c]) == 10 * DigitValue(s[0]) + DigitValue(c)
  {
  }

  /** A string of k digits denotes a number below 10^k. */
  lemma {:induction false} ParseDigitsBound(s: string)
    requires AllDigits(s)
    ensures ParseDigits(s) < Pow10(|s|)
    decreases |s|
  {
    if s != [] {
      ParseDigitsBound(s[..|s| - 1]);
    }
  }

  /** A leading zero does not change the value `parseInt` reads. */
  lemma {:induction false} ParseLeadingZero(s: string)
    requires AllDigits(s)
    ensures AllDigits(['0'] + s) && ParseDigits(['0'] + s) == ParseDigits(s)
    decreases |s|
  {
    var t := ['0'] + s;
    if s != [] {
      assert t[..|t| - 1] == ['0'] + s[..|s| - 1];
      ParseLeadingZero(s[..|s| - 1]);
    } else {
      assert t[..|t| - 1] == [];
    }
  }

  /** `n.toString()` for a non-negative integer: its shortest decimal numeral. */
  function NatToDecimal(n: nat): (r: string)
    ensures AllDigits(r) && 1 <= |r|
    ensures 1 < |r| ==> r[0] != '0'
  {
    if n < 10 then [DigitChar(n)] else NatToDecimal(n / 10) + [DigitChar(n % 10)]
  }

  /** Reading back what `toString` wrote gives the number again. */
  lemma {:induction false} ParseNatToDecimal(n: nat)
    ensures ParseDigits(NatToDecimal(n)) == n
  {
    var r := NatToDecimal(n);
    if n < 10 {
      assert r[..|r| - 1] == [];
    } else {
      assert r[..|r| - 1] == NatToDecimal(n / 10);
      ParseNatToDecimal(n / 10);
    }
  }

  /** The numeral has one digit below 10, two below 100, and more beyond. */
  lemma NatToDecimalLength(n: nat)
    ensures n < 10 <==> |NatToDecimal(n)| == 1
    ensures n < 100 <==> |NatToDecimal(n)| <= 2
  {
  }

  /** `s.padStart(width, pad)` with a one-character pad string. */
  function PadStart(s: string, width: nat, pad: char): (r: string)
    ensures |r| == if |s| < width then width else |s|
    ensures r[|r| - |s|..] == s
    ensures forall i :: 0 <= i < |r| - |s| ==> r[i] == pad
  {
    if |s| >= width then s else seq(width - |s|, _ => pad) + s
  }

  /**
   * `formatTwoDigits`: exactly two digits for any value up to 99, and for
   * every value a digit string that reads back as that value.
   */
  function FormatTwoDigits(n: nat): (r: string)
    ensures AllDigits(r) && ParseDigits(r) == n
    ensures |r| == 2 <==> n <= 99
    ensures 2 <= |r|
    ensures 2 < |r| ==> r[0] != '0'
    ensures 99 < n ==> r == NatToDecimal(n)
  {
    var d := NatToDecimal(n);
    NatToDecimalLength(n);
    ParseNatToDecimal(n);
    if |d| < 2 then
      assert PadStart(d, 2, '0') == ['0'] + d;
      ParseLeadingZero(d);
      PadStart(d, 2, '0')
    else
      PadStart(d, 2, '0')
  }
}
