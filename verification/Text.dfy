/** Decimal text of integers, as Python's `str` prints them, with its inverse. */
module Text {
  predicate IsDigit(c: char) { '0' <= c <= '9' }

  predicate AllDigits(s: string) { forall i :: 0 <= i < |s| ==> IsDigit(s[i]) }

  function DigitChar(d: nat): (c: char)
    requires d < 10
    ensures IsDigit(c) && DigitValue(c) == d
  {
    (48 + d) as char
  }

  function DigitValue(c: char): (d: nat)
    requires IsDigit(c)
    ensures d < 10
  {
    c as int - 48
  }

  function Zeros(n: nat): (s: string)
    ensures |s| == n && AllDigits(s)
  {
    seq(n, _ => '0')
  }

  function Pow(n: nat): (p: nat)
    ensures p >= 1
  {
    if n == 0 then 1 else 10 * Pow(n - 1)
  }

  function NatValue(s: string): nat
    requires AllDigits(s)
  {
    if s == [] then 0 else NatValue(s[..|s| - 1]) * 10 + DigitValue(s[|s| - 1])
  }

  function NatText(n: nat): (s: string)
    ensures |s| > 0 && AllDigits(s)
    ensures s[0] == '0' ==> n == 0
    ensures n < 10 ==> |s| == 1
  {
    if n < 10 then [DigitChar(n)] else NatText(n / 10) + [DigitChar(n % 10)]
  }

  function IntText(n: int): string {
    if n < 0 then "-" + NatText(-n) else NatText(n)
  }

  /** Reading the text of `n` gives `n` back. */
  lemma {:induction false} NatTextValue(n: nat)
    ensures NatValue(NatText(n)) == n
  {
    if n >= 10 {
      NatTextValue(n / 10);
      assert NatText(n)[..|NatText(n)| - 1] == NatText(n / 10);
    }
  }

  lemma {:induction false} LeadingZerosValue(zeros: nat, s: string)
    requires AllDigits(s)
    ensures AllDigits(Zeros(zeros) + s)
    ensures NatValue(Zeros(zeros) + s) == NatValue(s)
    decreases |s|, zeros
  {
    if s != [] {
      LeadingZerosValue(zeros, s[..|s| - 1]);
      assert (Zeros(zeros) + s)[..|Zeros(zeros) + s| - 1] == Zeros(zeros) + s[..|s| - 1];
    } else if zeros > 0 {
      LeadingZerosValue(zeros - 1, s);
      assert (Zeros(zeros) + s)[..zeros - 1] == Zeros(zeros - 1) + s;
    }
  }

  /** A digit string without a leading zero of length k denotes a number in [10^(k-1), 10^k). */
  lemma {:induction false} NatValueRange(s: string)
    requires AllDigits(s) && |s| > 0
    ensures NatValue(s) < Pow(|s|)
    ensures s[0] != '0' ==> Pow(|s| - 1) <= NatValue(s)
  {
    if |s| > 1 {
      NatValueRange(s[..|s| - 1]);
    } else {
      assert s[..0] == [];
      assert Pow(1) == 10;
    }
  }

  /** The text of a number is the only digit string without a leading zero that denotes it. */
  lemma {:induction false} NatTextUnique(s: string)
    requires AllDigits(s) && |s| > 0
    requires s[0] != '0' || |s| == 1
    ensures NatText(NatValue(s)) == s
  {
    var n := NatValue(s);
    if |s| == 1 {
      assert s[..0] == [];
    } else {
      var s' := s[..|s| - 1];
      NatTextUnique(s');
      NatValueRange(s);
      assert Pow(|s| - 1) == 10 * Pow(|s| - 2);
      assert n / 10 == NatValue(s') && n % 10 == DigitValue(s[|s| - 1]);
      assert s == s' + [s[|s| - 1]];
    }
  }

  lemma PowMonotone(a: nat, b: nat)
    requires a <= b
    ensures Pow(a) <= Pow(b)
    decreases b - a
  {
    if a < b { PowMonotone(a + 1, b); }
  }
}
