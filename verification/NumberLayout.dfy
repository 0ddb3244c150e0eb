/** ECMA-262 Number::toString over Python's shortest `repr` digits (RFC 8785 section 3.2.2.3). */
module NumberLayout {
  import opened Prelude
  import opened Text

  /** A Python float through the text `repr(abs(value))`: integer digits, fraction digits, exponent. */
  datatype RawFloat =
    | NotANumber
    | Infinite(neg: bool)
    | Finite(neg: bool, intPart: string, fracPart: string, exp10: int)

  type Float = f: RawFloat |
    f.Finite? ==> |f.intPart| > 0 && AllDigits(f.intPart) && AllDigits(f.fracPart)
    witness NotANumber

  /** `lstrip("0")` and `rstrip("0")`. */
  function LStrip(s: string): (r: string)
    ensures |r| <= |s|
    ensures AllDigits(s) ==> AllDigits(r)
    ensures r != [] ==> r[0] != '0'
  {
    if s != [] && s[0] == '0' then
      LStrip(s[1..])
    else s
  }

  function RStrip(s: string): (r: string)
    ensures |r| <= |s|
    ensures AllDigits(s) ==> AllDigits(r)
    ensures r != [] ==> r[|r| - 1] != '0'
    ensures s != [] && s[0] != '0' ==> r != [] && r[0] == s[0]
  {
    if s != [] && s[|s| - 1] == '0' then
      RStrip(s[..|s| - 1])
    else s
  }

  function ExpText(exp: int): string {
    "e" + (if exp >= 0 then "+" else "-") + NatText(if exp >= 0 then exp else -exp)
  }

  /** The four layouts of `_number_to_es_string`, from the stripped digits and the point position. */
  function Body(digits: string, n: int): string
    requires digits != []
  {
    var k := |digits|;
    if k <= n <= 21 then digits + Zeros(n - k)
    else if 0 < n <= 21 then digits[..n] + "." + digits[n..]
    else if -6 < n <= 0 then "0." + Zeros(-n) + digits
    else (if k == 1 then digits else digits[..1] + "." + digits[1..]) + ExpText(n - 1)
  }

  /** The digits and the point position that `_number_to_es_string` computes. */
  function FloatDigits(f: Float): string
    requires f.Finite?
  {
    RStrip(LStrip(f.intPart + f.fracPart))
  }

  function PointPos(f: Float): int
    requires f.Finite?
  {
    |f.intPart| - (|f.intPart + f.fracPart| - |LStrip(f.intPart + f.fracPart)|) + f.exp10
  }

  predicate NonZero(f: Float)
    requires f.Finite?
  {
    LStrip(f.intPart + f.fracPart) != []
  }

  /** `_number_to_es_string`: None is the ValueError for NaN and infinities. */
  function Layout(f: Float): Option<string> {
    match f
    case NotANumber => None
    case Infinite(_) => None
    case Finite(neg, intPart, fracPart, exp10) =>
      if NonZero(f) then Some((if neg then "-" else "") + Body(FloatDigits(f), PointPos(f))) else Some("0")
  }

  // ---- what a number text denotes ----

  /** v * 10^e. */
  function Shift(v: real, e: int): real
    decreases if e < 0 then -e else e
  {
    if e == 0 then v else if e > 0 then 10.0 * Shift(v, e - 1) else Shift(v, e + 1) / 10.0
  }

  function Signed(neg: bool, r: real): real { if neg then -r else r }

  /** The value of `int.frac e exp`. */
  function Denotes(intPart: string, fracPart: string, exp: int): real
    requires AllDigits(intPart) && AllDigits(fracPart)
  {
    Shift(NatValue(intPart + fracPart) as real, exp - |fracPart|)
  }

  function FloatValue(f: Float): real
    requires f.Finite?
  {
    Signed(f.neg, Denotes(f.intPart, f.fracPart, f.exp10))
  }

  lemma {:induction false} ShiftTen(v: real, e: int)
    ensures Shift(10.0 * v, e) == Shift(v, e + 1) == 10.0 * Shift(v, e)
    decreases if e < 0 then -e else e
  {
    if e > 0 { ShiftTen(v, e - 1); }
    if e < 0 { ShiftTen(v, e + 1); }
  }

  lemma {:induction false} ShiftInjective(v: real, w: real, e: int)
    requires Shift(v, e) == Shift(w, e)
    ensures v == w
    decreases if e < 0 then -e else e
  {
    if e > 0 { ShiftInjective(v, w, e - 1); }
    if e < 0 { ShiftInjective(v, w, e + 1); }
  }

  lemma {:induction false} ShiftSign(v: real, e: int)
    ensures v > 0.0 ==> Shift(v, e) > 0.0
    ensures v == 0.0 ==> Shift(v, e) == 0.0
    decreases if e < 0 then -e else e
  {
    if e > 0 { ShiftSign(v, e - 1); }
    if e < 0 { ShiftSign(v, e + 1); }
  }

  lemma {:induction false} LStripValue(s: string)
    requires AllDigits(s)
    ensures NatValue(LStrip(s)) == NatValue(s)
  {
    if s != [] && s[0] == '0' {
      LStripValue(s[1..]);
      LeadingZerosValue(1, s[1..]);
      assert Zeros(1) + s[1..] == s;
    }
  }

  /** Trailing zeros and the power of ten trade off. */
  lemma {:induction false} RStripValue(s: string, e: int)
    requires AllDigits(s)
    ensures Shift(NatValue(s) as real, e) == Shift(NatValue(RStrip(s)) as real, e + |s| - |RStrip(s)|)
  {
    if s != [] && s[|s| - 1] == '0' {
      var init := s[..|s| - 1];
      ShiftTen(NatValue(init) as real, e);
      RStripValue(init, e + 1);
    }
  }

  lemma {:induction false} LStripZero(s: string)
    requires AllDigits(s) && LStrip(s) == []
    ensures NatValue(s) == 0
  {
    LStripValue(s);
  }

  // ---- an independent reference: the specification's (s, k, n) ----

  /** `s` has exactly `k` digits, does not end in zero, and s * 10^(n-k) is the value: the
      triple of ECMA-262 Number::toString step 5, with the shortest digits taken as given. */
  ghost predicate EsTriple(s: nat, k: nat, n: int, value: real) {
    k >= 1 && Pow(k - 1) <= s < Pow(k) && s % 10 != 0 && Shift(s as real, n - k) == value
  }

  /** Steps 6 to 10 of ECMA-262 Number::toString for a positive value. */
  function EsString(s: nat, k: nat, n: int): string
    requires k >= 1 && k == |NatText(s)|
  {
    var d := NatText(s);
    if k <= n <= 21 then d + Zeros(n - k)
    else if 0 < n <= 21 then d[..n] + "." + d[n..]
    else if -6 < n <= 0 then "0." + Zeros(-n) + d
    else
      // Steps 9 and 10: the sign of n-1, which is not zero here, and its magnitude in decimal.
      var exponent := if n > 0 then ['e', '+'] + NatText(n - 1) else ['e', '-'] + NatText(1 - n);
      if k == 1 then d + exponent else d[..1] + "." + d[1..] + exponent
  }

  lemma {:induction false} ScaleOrder(s: nat, a: int, t: nat, b: int)
    requires a < b && Shift(s as real, a) == Shift(t as real, b)
    ensures s % 10 == 0
    decreases b - a
  {
    ShiftTen(t as real, b - 1);
    assert 10.0 * t as real == (10 * t) as real;
    if b == a + 1 {
      ShiftInjective(s as real, (10 * t) as real, a);
    } else {
      ScaleOrder(s, a, 10 * t, b - 1);
    }
  }

  lemma SameLength(s: nat, k: nat, j: nat)
    requires k >= 1 && j >= 1
    requires Pow(k - 1) <= s < Pow(k) && Pow(j - 1) <= s < Pow(j)
    ensures k == j
  {
    if k < j { PowMonotone(k, j - 1); }
    if j < k { PowMonotone(j, k - 1); }
  }

  /** No two triples name one value: the digits, their count and the point are determined. */
  lemma EsTripleUnique(s: nat, k: nat, n: int, t: nat, j: nat, m: int, value: real)
    requires EsTriple(s, k, n, value) && EsTriple(t, j, m, value)
    ensures s == t && k == j && n == m
  {
    if n - k < m - j { ScaleOrder(s, n - k, t, m - j); }
    if m - j < n - k { ScaleOrder(t, m - j, s, n - k); }
    ShiftInjective(s as real, t as real, n - k);
    SameLength(s, k, j);
  }

  // ---- the main results ----

  lemma DigitsTriple(digits: string, n: int)
    requires AllDigits(digits) && digits != [] && digits[0] != '0' && digits[|digits| - 1] != '0'
    ensures EsTriple(NatValue(digits), |digits|, n, Shift(NatValue(digits) as real, n - |digits|))
    ensures NatText(NatValue(digits)) == digits
  {
    NatValueRange(digits);
    NatTextUnique(digits);
    assert NatValue(digits) % 10 == DigitValue(digits[|digits| - 1]);
  }

  lemma FloatDigitsValue(f: Float)
    requires f.Finite?
    ensures AllDigits(FloatDigits(f))
    ensures Denotes(f.intPart, f.fracPart, f.exp10)
         == Shift(NatValue(FloatDigits(f)) as real, PointPos(f) - |FloatDigits(f)|)
  {
    var raw, e := f.intPart + f.fracPart, f.exp10 - |f.fracPart|;
    LStripValue(raw);
    RStripValue(LStrip(raw), e);
  }

  /** The stripped digits and point position of a non-zero float form its triple. */
  lemma LayoutTriple(f: Float)
    requires f.Finite? && NonZero(f)
    ensures var d := FloatDigits(f);
      && AllDigits(d) && d != [] && d[0] != '0' && NatText(NatValue(d)) == d
      && EsTriple(NatValue(d), |d|, PointPos(f), Denotes(f.intPart, f.fracPart, f.exp10))
  {
    FloatDigitsValue(f);
    DigitsTriple(FloatDigits(f), PointPos(f));
  }

  lemma ZeroFloat(f: Float)
    requires f.Finite? && !NonZero(f)
    ensures FloatValue(f) == 0.0 && Layout(f) == Some("0")
  {
    LStripZero(f.intPart + f.fracPart);
    ShiftSign(0.0, f.exp10 - |f.fracPart|);
  }

  lemma TriplePositive(s: nat, k: nat, n: int, value: real)
    requires EsTriple(s, k, n, value)
    ensures value > 0.0
  {
    ShiftSign(s as real, n - k);
  }

  lemma NonZeroFloat(f: Float)
    requires f.Finite? && NonZero(f)
    ensures Denotes(f.intPart, f.fracPart, f.exp10) > 0.0
  {
    LayoutTriple(f);
    var d := FloatDigits(f);
    TriplePositive(NatValue(d), |d|, PointPos(f), Denotes(f.intPart, f.fracPart, f.exp10));
  }

  /** The layout is ECMA-262 Number::toString: for every triple the standard allows for the
      absolute value, the text is the standard's text, with "-" exactly for negative values. */
  lemma LayoutIsEcma(f: Float, s: nat, k: nat, n: int)
    requires f.Finite? && EsTriple(s, k, n, Denotes(f.intPart, f.fracPart, f.exp10))
    ensures k >= 1 && k == |NatText(s)|
    ensures Layout(f) == Some((if f.neg then "-" else "") + EsString(s, k, n))
  {
    hide Denotes, Shift, FloatDigits, PointPos, Pow, NatValue, NatText, NonZero, Body, EsString;
    TriplePositive(s, k, n, Denotes(f.intPart, f.fracPart, f.exp10));
    if !NonZero(f) {
      ZeroFloat(f);
      assert false;
    }
    LayoutTriple(f);
    var d := FloatDigits(f);
    EsTripleUnique(NatValue(d), |d|, PointPos(f), s, k, n, Denotes(f.intPart, f.fracPart, f.exp10));
    BodyIsEcma(d, s, n);
  }

  lemma BodyIsEcma(digits: string, s: nat, n: int)
    requires digits != [] && NatText(s) == digits
    ensures Body(digits, n) == EsString(s, |digits|, n)
  {
    hide NatText;
    if n > 0 {
      assert ExpText(n - 1) == ['e', '+'] + NatText(n - 1) by { assert "e" + "+" == ['e', '+']; }
    } else {
      assert ExpText(n - 1) == ['e', '-'] + NatText(1 - n) by { assert "e" + "-" == ['e', '-']; }
    }
  }

  /** Beyond 21 digits before the point, or six zeros after it, the text is a mantissa without 'e',
      then 'e', then the sign of n-1 (with '+' written out), then its magnitude with no leading zero. */
  lemma ScientificSpelled(f: Float, s: nat, k: nat, n: int) returns (mantissa: string, exponent: string)
    requires f.Finite? && EsTriple(s, k, n, Denotes(f.intPart, f.fracPart, f.exp10)) && (n > 21 || n <= -6)
    ensures Layout(f) == Some(mantissa + ['e', if n - 1 > 0 then '+' else '-'] + exponent)
    ensures forall i :: 0 <= i < |mantissa| ==> mantissa[i] != 'e'
    ensures AllDigits(exponent) && exponent != [] && exponent[0] != '0'
    ensures NatValue(exponent) == if n - 1 > 0 then n - 1 else 1 - n
  {
    hide EsTriple, Denotes, Layout, NatText, NatValue;
    LayoutIsEcma(f, s, k, n);
    var d := NatText(s);
    var sign := if f.neg then "-" else "";
    exponent := NatText(if n - 1 > 0 then n - 1 else 1 - n);
    NatTextValue(if n - 1 > 0 then n - 1 else 1 - n);
    mantissa := sign + (if k == 1 then d else d[..1] + "." + d[1..]);
    var body := mantissa + ['e', if n - 1 > 0 then '+' else '-'] + exponent;
    assert body == sign + EsString(s, k, n);
  }

  /** The text depends on the value alone: two spellings of one decimal print alike. */
  lemma LayoutOfValue(f: Float, g: Float)
    requires f.Finite? && g.Finite? && FloatValue(f) == FloatValue(g)
    ensures Layout(f) == Layout(g)
  {
    if !NonZero(f) { ZeroFloat(f); } else { NonZeroFloat(f); }
    if !NonZero(g) { ZeroFloat(g); } else { NonZeroFloat(g); }
    if NonZero(f) {
      LayoutTriple(f);
      var d := FloatDigits(f);
      LayoutIsEcma(f, NatValue(d), |d|, PointPos(f));
      LayoutIsEcma(g, NatValue(d), |d|, PointPos(f));
    }
  }
}
