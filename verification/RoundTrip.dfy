/** The reader undoes the printer; equal canonical texts mean equal values. */
module RoundTrip {
  import opened Prelude
  import opened Text
  import opened KeyOrder
  import opened Canonical
  import opened JsonReader
  import N = NumberLayout
  import Utf16

  /** The meaning of a printable value. */
  function Meaning(j: Json): Value
    requires Printable(j)
    decreases j, 1
  {
    match j
    case Null => VNull
    case Bool(b) => VBool(b)
    case Str(s) => VStr(s)
    case Int(n) => VNum(n as real)
    case Float(f) => VNum(N.FloatValue(f))
    case Arr(vs) => VArr(MeaningAll(vs))
    case Obj(items) => VObj(MapOf(MeaningItems(items)))
  }

  function MeaningAll(vs: seq<Json>): (r: seq<Value>)
    requires forall i :: 0 <= i < |vs| ==> Printable(vs[i])
    ensures |r| == |vs|
    decreases vs, 0
  {
    seq(|vs|, i requires 0 <= i < |vs| => Meaning(vs[i]))
  }

  ghost predicate AllPrintable(items: seq<(string, Json)>) {
    forall i :: 0 <= i < |items| ==> Printable(items[i].1)
  }

  function MeaningItems(items: seq<(string, Json)>): (r: seq<(string, Value)>)
    requires forall i :: 0 <= i < |items| ==> Printable(items[i].1)
    ensures |r| == |items|
    decreases Obj(items), 0
  {
    seq(|items|, i requires 0 <= i < |items| => (items[i].0, Meaning(items[i].1)))
  }

  lemma Assoc(a: string, b: string, c: string)
    ensures (a + b) + c == a + (b + c)
  {}

  lemma Cons(c: char, t: string)
    ensures ([c] + t)[0] == c && ([c] + t)[1..] == t
  {}

  // ---- strings ----

  lemma ReadEscapedChar(c: char, tail: string)
    ensures EscapeChar(c) != [] && EscapeChar(c)[0] != '"'
    ensures ReadChar(EscapeChar(c) + tail) == Some((c, |EscapeChar(c)|))
  {
    var e := EscapeChar(c);
    var n := c as int;
    assert (e + tail)[0] == e[0];
    if |e| == 6 {
      assert (e + tail)[2..6] == ['0', '0', HexDigit(n / 16), HexDigit(n % 16)];
      assert HexValue(HexDigit(n / 16)) == Some(n / 16) && HexValue(HexDigit(n % 16)) == Some(n % 16);
    }
  }

  lemma {:induction false} ReadEscaped(s: string, rest: string)
    ensures ReadChars(Escaped(s) + "\"" + rest) == Some((s, rest))
  {
    if s == [] {
      assert Escaped(s) + "\"" + rest == ['"'] + rest;
    } else {
      var tail := Escaped(s[1..]) + "\"" + rest;
      var whole := Escaped(s) + "\"" + rest;
      assert whole == EscapeChar(s[0]) + tail;
      ReadEscapedChar(s[0], tail);
      assert whole[|EscapeChar(s[0])|..] == tail;
      ReadEscaped(s[1..], rest);
      assert s == [s[0]] + s[1..];
    }
  }

  lemma ReadEncoded(s: string, rest: string)
    ensures ReadString(EncodeString(s) + rest) == Some((s, rest))
    ensures EncodeString(s)[0] == '"'
  {
    var whole := EncodeString(s) + rest;
    assert whole[1..] == Escaped(s) + "\"" + rest;
    ReadEscaped(s, rest);
  }

  // ---- numbers ----

  /** What may follow a value in canonical text: nothing that would extend a number. */
  predicate Stops(rest: string) {
    rest != [] ==> !IsDigit(rest[0]) && rest[0] != '.' && rest[0] != 'e' && rest[0] != 'E'
  }

  lemma {:induction false} SpanDigits(d: string, rest: string)
    requires AllDigits(d) && (rest != [] ==> !IsDigit(rest[0]))
    ensures Span(d + rest) == (d, rest)
  {
    if d == [] {
      assert d + rest == rest;
    } else {
      SpanDigits(d[1..], rest);
      assert (d + rest)[1..] == d[1..] + rest && d == [d[0]] + d[1..];
    }
  }

  lemma ReadPlain(intPart: string, rest: string)
    requires AllDigits(intPart) && intPart != [] && (intPart[0] != '0' || |intPart| == 1) && Stops(rest)
    ensures ReadUnsigned(intPart + rest) == Some((N.Denotes(intPart, "", 0), rest))
  {
    SpanDigits(intPart, rest);
  }

  lemma ReadPointed(intPart: string, fracPart: string, rest: string)
    requires AllDigits(intPart) && intPart != [] && (intPart[0] != '0' || |intPart| == 1) && Stops(rest)
    requires AllDigits(fracPart) && fracPart != []
    ensures ReadUnsigned(intPart + "." + fracPart + rest) == Some((N.Denotes(intPart, fracPart, 0), rest))
  {
    hide NatValue, N.Shift, Span;
    Assoc(intPart + ".", fracPart, rest);
    Assoc(intPart, ".", fracPart + rest);
    Cons('.', fracPart + rest);
    SpanDigits(intPart, "." + (fracPart + rest));
    SpanDigits(fracPart, rest);
  }

  lemma ReadExpText(exp: int, rest: string)
    requires Stops(rest)
    ensures ReadExponent(N.ExpText(exp) + rest) == Some((exp, rest))
    ensures N.ExpText(exp)[0] == 'e'
  {
    var m := if exp >= 0 then exp else -exp;
    var sign := if exp >= 0 then "+" else "-";
    hide NatValue, NatText, Span;
    Assoc("e" + sign, NatText(m), rest);
    assert ("e" + sign + (NatText(m) + rest))[2..] == NatText(m) + rest;
    SpanDigits(NatText(m), rest);
    NatTextValue(m);
  }

  lemma ReadShortScientific(intPart: string, exp: int, rest: string)
    requires AllDigits(intPart) && |intPart| == 1 && Stops(rest)
    ensures ReadUnsigned(intPart + (N.ExpText(exp) + rest)) == Some((N.Denotes(intPart, "", exp), rest))
  {
    ReadExpText(exp, rest);
    SpanDigits(intPart, N.ExpText(exp) + rest);
  }

  lemma ReadLongScientific(intPart: string, fracPart: string, exp: int, rest: string)
    requires AllDigits(intPart) && |intPart| == 1 && AllDigits(fracPart) && fracPart != [] && Stops(rest)
    ensures ReadUnsigned(intPart + ("." + (fracPart + (N.ExpText(exp) + rest))))
         == Some((N.Denotes(intPart, fracPart, exp), rest))
  {
    var tail := N.ExpText(exp) + rest;
    var fraction := fracPart + tail;
    ReadExpText(exp, rest);
    SpanDigits(intPart, "." + fraction);
    assert ("." + fraction)[1..] == fraction;
    SpanDigits(fracPart, tail);
  }

  lemma ReadPaddedBody(digits: string, n: int, rest: string)
    requires AllDigits(digits) && digits != [] && digits[0] != '0' && Stops(rest) && |digits| <= n <= 21
    ensures ReadUnsigned(N.Body(digits, n) + rest) == Some((N.Shift(NatValue(digits) as real, n - |digits|), rest))
  {
    hide ReadUnsigned, NatValue, N.Shift;
    var text := digits + Zeros(n - |digits|);
    ReadPlain(text, rest);
    PadZeros(digits, n - |digits|);
    assert text + "" == text;
  }

  lemma ReadInnerPoint(digits: string, n: nat, rest: string)
    requires AllDigits(digits) && digits != [] && digits[0] != '0' && Stops(rest) && 0 < n <= 21 && n < |digits|
    ensures ReadUnsigned(N.Body(digits, n) + rest) == Some((N.Shift(NatValue(digits) as real, n - |digits|), rest))
  {
    var whole, frac := digits[..n], digits[n..];
    hide ReadUnsigned, NatValue, N.Shift;
    ReadPointed(whole, frac, rest);
    assert whole + frac == digits;
  }

  lemma LeadingZeros(digits: string, zeros: nat)
    requires AllDigits(digits)
    ensures NatValue("0" + (Zeros(zeros) + digits)) == NatValue(digits)
  {
    assert "0" + (Zeros(zeros) + digits) == Zeros(zeros + 1) + digits;
    LeadingZerosValue(zeros + 1, digits);
  }

  lemma LeadingBody(digits: string, n: int)
    requires digits != [] && -6 < n <= 0
    ensures N.Body(digits, n) == "0" + "." + (Zeros(-n) + digits)
  {
    assert "0." == "0" + ".";
    Assoc("0.", Zeros(-n), digits);
  }

  lemma ReadZeroPoint(body: string, frac: string, v: nat, e: int, rest: string)
    requires AllDigits(frac) && frac != [] && Stops(rest)
    requires body == "0" + "." + frac && NatValue("0" + frac) == v && e == 0 - |frac|
    ensures ReadUnsigned(body + rest) == Some((N.Shift(v as real, e), rest))
  {
    hide ReadUnsigned, N.Shift, NatValue;
    ReadPointed("0", frac, rest);
  }

  lemma PaddedDigits(digits: string, zeros: nat)
    requires AllDigits(digits) && digits != []
    ensures AllDigits(Zeros(zeros) + digits) && Zeros(zeros) + digits != []
    ensures |Zeros(zeros) + digits| == zeros + |digits|
  {}

  lemma ReadLeadingPoint(digits: string, n: int, rest: string)
    requires AllDigits(digits) && digits != [] && digits[0] != '0' && Stops(rest) && -6 < n <= 0
    ensures ReadUnsigned(N.Body(digits, n) + rest) == Some((N.Shift(NatValue(digits) as real, n - |digits|), rest))
  {
    hide ReadUnsigned, N.Body, N.Shift, NatValue;
    LeadingZeros(digits, -n);
    LeadingBody(digits, n);
    PaddedDigits(digits, -n);
    ReadZeroPoint(N.Body(digits, n), Zeros(-n) + digits, NatValue(digits), n - |digits|, rest);
  }

  lemma ReadScientificBody(digits: string, n: int, rest: string)
    requires AllDigits(digits) && digits != [] && digits[0] != '0' && Stops(rest) && (n <= -6 || n > 21)
    ensures ReadUnsigned(N.Body(digits, n) + rest) == Some((N.Shift(NatValue(digits) as real, n - |digits|), rest))
  {
    hide ReadUnsigned, N.ExpText, N.Shift, NatValue;
    var exp := N.ExpText(n - 1);
    if |digits| == 1 {
      ReadShortScientific(digits, n - 1, rest);
      assert digits + "" == digits;
      Assoc(digits, exp, rest);
    } else {
      var first, others := digits[..1], digits[1..];
      ReadLongScientific(first, others, n - 1, rest);
      assert digits == first + others;
      Assoc(first + "." + others, exp, rest);
      Assoc(first + ".", others, exp + rest);
      Assoc(first, ".", others + (exp + rest));
    }
  }

  /** Every layout denotes digits * 10^(n-k). */
  lemma ReadBody(digits: string, n: int, rest: string)
    requires AllDigits(digits) && digits != [] && digits[0] != '0' && Stops(rest)
    ensures ReadUnsigned(N.Body(digits, n) + rest) == Some((N.Shift(NatValue(digits) as real, n - |digits|), rest))
  {
    if |digits| <= n <= 21 {
      ReadPaddedBody(digits, n, rest);
    } else if 0 < n <= 21 {
      ReadInnerPoint(digits, n, rest);
    } else if -6 < n <= 0 {
      ReadLeadingPoint(digits, n, rest);
    } else {
      ReadScientificBody(digits, n, rest);
    }
  }

  lemma {:induction false} PadZeros(digits: string, zeros: nat)
    requires AllDigits(digits)
    ensures N.Shift(NatValue(digits + Zeros(zeros)) as real, 0) == N.Shift(NatValue(digits) as real, zeros)
  {
    if zeros == 0 {
      assert digits + Zeros(0) == digits;
    } else {
      var all := digits + Zeros(zeros);
      assert all[..|all| - 1] == digits + Zeros(zeros - 1) && all[|all| - 1] == '0';
      PadZeros(digits, zeros - 1);
    }
  }

  lemma ReadSigned(neg: bool, u: string, v: real, rest: string)
    requires u != [] && ReadUnsigned(u + rest) == Some((v, rest))
    ensures ReadNumber((if neg then "-" else "") + u + rest) == Some((N.Signed(neg, v), rest))
  {
    if neg {
      Assoc("-", u, rest);
      Cons('-', u + rest);
    } else {
      assert "" + u == u;
    }
  }

  lemma LayoutParts(f: N.Float)
    requires f.Finite?
    ensures !N.NonZero(f) ==> N.Layout(f) == Some("0") && N.FloatValue(f) == 0.0
    ensures N.NonZero(f) ==> N.FloatDigits(f) != []
    ensures N.NonZero(f) ==>
      N.Layout(f) == Some((if f.neg then "-" else "") + N.Body(N.FloatDigits(f), N.PointPos(f)))
  {
    hide N.NonZero, N.PointPos, N.FloatDigits, N.Body, N.FloatValue;
    if !N.NonZero(f) { N.ZeroFloat(f); } else { N.LayoutTriple(f); }
  }

  lemma BodyNonEmpty(digits: string, n: int)
    requires digits != []
    ensures N.Body(digits, n) != []
  {}

  /** The printed float denotes exactly the decimal its `repr` denoted, in all four regimes. */
  lemma ReadFloat(f: N.Float, rest: string)
    requires f.Finite? && Stops(rest)
    ensures N.Layout(f).Some? && N.Layout(f).value != []
    ensures ReadNumber(N.Layout(f).value + rest) == Some((N.FloatValue(f), rest))
  {
    hide N.Layout, N.NonZero, N.PointPos, N.FloatDigits, N.Body, N.Shift, N.Denotes, N.EsTriple,
      NatValue, NatText, Pow, ReadNumber, ReadUnsigned;
    LayoutParts(f);
    if !N.NonZero(f) {
      ZeroDigits();
      ReadNat(0, rest);
      ReadSigned(false, "0", 0.0, rest);
    } else {
      var digits, n := N.FloatDigits(f), N.PointPos(f);
      N.LayoutTriple(f);
      N.FloatDigitsValue(f);
      ReadBody(digits, n, rest);
      BodyNonEmpty(digits, n);
      ReadSigned(f.neg, N.Body(digits, n), N.Denotes(f.intPart, f.fracPart, f.exp10), rest);
    }
  }

  lemma ZeroDigits()
    ensures NatText(0) == "0" && "" + "0" == "0"
  {}

  lemma ReadNat(n: nat, rest: string)
    requires Stops(rest)
    ensures ReadUnsigned(NatText(n) + rest) == Some((n as real, rest))
  {
    NatTextValue(n);
    ReadPlain(NatText(n), rest);
    assert NatText(n) + "" == NatText(n);
  }

  lemma ReadInt(n: int, rest: string)
    requires Stops(rest)
    ensures IntText(n) != [] && ReadNumber(IntText(n) + rest) == Some((n as real, rest))
  {
    hide ReadUnsigned, ReadNumber, NatText;
    var m := if n < 0 then -n else n;
    ReadNat(m, rest);
    ReadSigned(n < 0, NatText(m), m as real, rest);
    assert "" + NatText(m) == NatText(m);
  }

  // ---- values ----

  lemma MembersPrintable(a: seq<(string, Json)>, b: seq<(string, Json)>)
    requires multiset(a) == multiset(b) && AllPrintable(a)
    ensures AllPrintable(b)
  {
    hide Printable;
    forall i | 0 <= i < |b| ensures Printable(b[i].1) {
      SameMembers(a, b, b[i]);
      var k :| 0 <= k < |a| && a[k] == b[i];
    }
  }

  lemma SortedPrintable(items: seq<(string, Json)>)
    ensures AllPrintable(SortItems(items)) <==> Printable(Obj(items))
  {
    hide SortItems;
    SortPermutes(items);
    if AllPrintable(SortItems(items)) { MembersPrintable(SortItems(items), items); }
    if Printable(Obj(items)) { MembersPrintable(items, SortItems(items)); }
  }

  /** Printing fails exactly on NaN, infinities and foreign objects. */
  lemma {:induction false} CanonSome(j: Json)
    ensures Canon(j).Some? <==> Printable(j)
    decreases j, 1, 0
  {
    match j
    case Arr(vs) => CanonAllSome(vs);
    case Obj(items) =>
      SortedBelow(items);
      CanonMembersSome(SortItems(items), j);
      SortedPrintable(items);
    case _ =>
  }

  lemma {:induction false} CanonAllSome(vs: seq<Json>)
    ensures CanonAll(vs).Some? <==> forall i :: 0 <= i < |vs| ==> Printable(vs[i])
    ensures CanonAll(vs).Some? ==> |CanonAll(vs).value| == |vs|
    decreases vs, 0, |vs|
  {
    if vs != [] {
      CanonSome(vs[0]);
      CanonAllSome(vs[1..]);
      assert forall i :: 0 < i < |vs| ==> vs[i] == vs[1..][i - 1];
      assert forall i :: 0 <= i < |vs[1..]| ==> vs[1..][i] == vs[i + 1];
    }
  }

  lemma {:induction false} CanonMembersSome(items: seq<(string, Json)>, parent: Json)
    requires forall i :: 0 <= i < |items| ==> items[i].1 < parent
    ensures CanonMembers(items, parent).Some? <==> AllPrintable(items)
    ensures CanonMembers(items, parent).Some? ==> |CanonMembers(items, parent).value| == |items|
    decreases parent, 0, |items|
  {
    if items != [] {
      CanonSome(items[0].1);
      CanonMembersSome(items[1..], parent);
      assert forall i :: 0 < i < |items| ==> items[i] == items[1..][i - 1];
      assert forall i :: 0 <= i < |items[1..]| ==> items[1..][i] == items[i + 1];
    }
  }

  // ---- key maps ----

  lemma {:induction false} MapOfItems(ms: seq<(string, Value)>)
    requires KeysDistinct(ms)
    ensures forall i :: 0 <= i < |ms| ==> ms[i].0 in MapOf(ms) && MapOf(ms)[ms[i].0] == ms[i].1
    ensures forall k :: k in MapOf(ms) ==> exists i :: 0 <= i < |ms| && ms[i].0 == k
  {
    if ms != [] {
      var init := ms[..|ms| - 1];
      MapOfItems(init);
      forall k | k in MapOf(ms) ensures exists i :: 0 <= i < |ms| && ms[i].0 == k {
        if k in MapOf(init) {
          var i :| 0 <= i < |init| && init[i].0 == k;
          assert ms[i].0 == k;
        } else {
          assert ms[|ms| - 1].0 == k;
        }
      }
      forall i | 0 <= i < |ms| ensures ms[i].0 in MapOf(ms) && MapOf(ms)[ms[i].0] == ms[i].1 {
        if i < |ms| - 1 { assert init[i] == ms[i]; }
      }
    }
  }

  /** A key map does not depend on the order its items are read in. */
  lemma MapOfSubset(a: seq<(string, Value)>, b: seq<(string, Value)>)
    requires KeysDistinct(a) && KeysDistinct(b)
    requires forall x :: x in a <==> x in b
    ensures MapOf(a) == MapOf(b)
  {
    MapOfItems(a);
    MapOfItems(b);
    forall k ensures k in MapOf(a) <==> k in MapOf(b)
      ensures k in MapOf(a) && k in MapOf(b) ==> MapOf(a)[k] == MapOf(b)[k]
    {
      if k in MapOf(a) {
        var i :| 0 <= i < |a| && a[i].0 == k;
        assert a[i] in b;
      }
      if k in MapOf(b) {
        var i :| 0 <= i < |b| && b[i].0 == k;
        assert b[i] in a;
      }
    }
  }

  lemma MeaningSubset(a: seq<(string, Json)>, b: seq<(string, Json)>)
    requires AllPrintable(a) && AllPrintable(b) && multiset(a) == multiset(b)
    ensures forall x :: x in MeaningItems(a) ==> x in MeaningItems(b)
  {
    hide Meaning;
    forall i | 0 <= i < |a| ensures MeaningItems(a)[i] in MeaningItems(b) {
      SameMembers(a, b, a[i]);
      var k :| 0 <= k < |b| && b[k] == a[i];
      assert MeaningItems(b)[k] == MeaningItems(a)[i];
    }
  }

  lemma SortedMeaning(items: seq<(string, Json)>)
    requires KeysDistinct(items) && AllPrintable(items)
    ensures AllPrintable(SortItems(items)) && KeysDistinct(SortItems(items))
    ensures MapOf(MeaningItems(SortItems(items))) == MapOf(MeaningItems(items))
  {
    hide SortItems, Meaning, Printable;
    var sorted := SortItems(items);
    SortPermutes(items);
    MembersPrintable(items, sorted);
    PermutedKeysDistinct(items, sorted);
    MeaningSubset(items, sorted);
    MeaningSubset(sorted, items);
    MapOfSubset(MeaningItems(sorted), MeaningItems(items));
  }

  lemma MeaningAllSplit(vs: seq<Json>)
    requires vs != [] && forall i :: 0 <= i < |vs| ==> Printable(vs[i])
    ensures MeaningAll(vs) == [Meaning(vs[0])] + MeaningAll(vs[1..])
  {
    hide Meaning, Printable;
  }

  lemma MeaningItemsSplit(items: seq<(string, Json)>)
    requires items != [] && AllPrintable(items)
    ensures MeaningItems(items) == [(items[0].0, Meaning(items[0].1))] + MeaningItems(items[1..])
  {
    hide Meaning, Printable;
  }

  // ---- how the text is spelled ----

  predicate LowerHex(c: char) { IsDigit(c) || 'a' <= c <= 'f' }

  /** Section 3.2.2.2 of RFC 8785: a quote, a backslash and the five named controls get two
      characters, the other controls a lower-case \u escape, and everything else stands as it is. */
  lemma EscapeSpelled(c: char)
    ensures var n, e := c as int, EscapeChar(c);
      if c == '"' || c == '\\' || n == 8 || n == 9 || n == 10 || n == 12 || n == 13 then
        |e| == 2 && e[0] == '\\' && SimpleEscape(e[1]) == Some(c)
      else if n < 0x20 then
        && |e| == 6 && e[..4] == "\\u00" && LowerHex(e[4]) && LowerHex(e[5])
        && HexValue(e[4]).Some? && HexValue(e[5]).Some? && HexValue(e[4]).value * 16 + HexValue(e[5]).value == n
      else e == [c]
  {}

  /** One member of an object's text. */
  function MemberText(key: string, value: string): string { EncodeString(key) + ":" + value }

  /** Section 3.2.3 of RFC 8785: the text of an object is its members between braces, with commas,
      each once, and the earlier of two keys has the smaller UTF-16 code unit where they first differ. */
  lemma ObjectSpelled(items: seq<(string, Json)>) returns (members: seq<(string, Json)>, parts: seq<string>)
    requires KeysDistinct(items) && Printable(Obj(items))
    ensures multiset(members) == multiset(items) && |members| == |items| == |parts|
    ensures forall i, j :: 0 <= i < j < |members| ==> UnitsBelow(members[i].0, members[j].0)
    ensures forall i :: 0 <= i < |members| ==>
      Canon(members[i].1).Some? && parts[i] == MemberText(members[i].0, Canon(members[i].1).value)
    ensures Canon(Obj(items)) == Some("{" + Join(parts) + "}")
  {
    members := SortItems(items);
    SortPermutes(items);
    CanonObject(items);
    CanonSome(Obj(items));
    hide SortItems, UnitsBelow, Canon, Join, KeysDistinct;
    forall i, j | 0 <= i < j < |members| ensures UnitsBelow(members[i].0, members[j].0) { SortedByUnits(items, i, j); }
    parts := CanonMembers(members, Obj(items)).value;
    MembersSpelled(members, Obj(items));
  }

  lemma {:induction false} MembersSpelled(items: seq<(string, Json)>, parent: Json)
    requires forall i :: 0 <= i < |items| ==> items[i].1 < parent
    requires CanonMembers(items, parent).Some?
    ensures var parts := CanonMembers(items, parent).value;
      && |parts| == |items|
      && forall i :: 0 <= i < |items| ==>
        Canon(items[i].1).Some? && parts[i] == MemberText(items[i].0, Canon(items[i].1).value)
    decreases |items|
  {
    hide Canon, EncodeString;
    if items != [] { MembersSpelled(items[1..], parent); }
  }

  /** The text of an object, from its members arranged in key order and the texts of their values. */
  lemma CanonArranged(items: seq<(string, Json)>, arranged: seq<(string, Json)>, parts: seq<string>)
    requires KeysDistinct(items) && multiset(arranged) == multiset(items) && Ascending(arranged)
    requires |parts| == |arranged|
    requires forall i :: 0 <= i < |arranged| ==>
      Canon(arranged[i].1).Some? && parts[i] == MemberText(arranged[i].0, Canon(arranged[i].1).value)
    ensures Canon(Obj(items)) == Some("{" + Join(parts) + "}")
  {
    SortUnique(items, arranged);
    CanonObject(items);
    hide SortItems, Canon, Join, Ascending, KeysDistinct, MemberText;
    MembersPrinted(arranged, Obj(items));
    MembersSpelled(arranged, Obj(items));
    assert CanonMembers(arranged, Obj(items)).value == parts;
  }

  lemma {:induction false} MembersPrinted(items: seq<(string, Json)>, parent: Json)
    requires forall i :: 0 <= i < |items| ==> items[i].1 < parent && Canon(items[i].1).Some?
    ensures CanonMembers(items, parent).Some?
    decreases |items|
  {
    hide Canon, EncodeString;
    if items != [] { MembersPrinted(items[1..], parent); }
  }

  /** Two, three and four members, however they are listed. */
  lemma CanonTwo(a: (string, Json), b: (string, Json))
    requires Less(a.0, b.0) && Canon(a.1).Some? && Canon(b.1).Some?
    ensures Canon(Obj([a, b])) == Canon(Obj([b, a])) ==
      Some("{" + Join([MemberText(a.0, Canon(a.1).value), MemberText(b.0, Canon(b.1).value)]) + "}")
  {
    hide Less, Canon, Join, MemberText, SortItems;
    LessTotal(a.0, b.0);
    assert multiset([b, a]) == multiset([a, b]);
    CanonArranged([b, a], [a, b], [MemberText(a.0, Canon(a.1).value), MemberText(b.0, Canon(b.1).value)]);
    CanonArranged([a, b], [a, b], [MemberText(a.0, Canon(a.1).value), MemberText(b.0, Canon(b.1).value)]);
  }

  lemma CanonThree(a: (string, Json), b: (string, Json), c: (string, Json))
    requires Less(a.0, b.0) && Less(b.0, c.0) && Less(a.0, c.0) && Canon(a.1).Some? && Canon(b.1).Some?
    requires Canon(c.1).Some?
    ensures Canon(Obj([a, b, c])) ==
      Some("{" + Join([MemberText(a.0, Canon(a.1).value), MemberText(b.0, Canon(b.1).value),
                       MemberText(c.0, Canon(c.1).value)]) + "}")
  {
    hide Less, Canon, Join, MemberText, SortItems;
    LessTotal(a.0, b.0);
    LessTotal(b.0, c.0);
    LessTotal(a.0, c.0);
    CanonArranged([a, b, c], [a, b, c], [MemberText(a.0, Canon(a.1).value), MemberText(b.0, Canon(b.1).value),
                                         MemberText(c.0, Canon(c.1).value)]);
  }

  lemma CanonFour(a: (string, Json), b: (string, Json), c: (string, Json), d: (string, Json))
    requires Less(a.0, b.0) && Less(b.0, c.0) && Less(a.0, c.0) && Less(a.0, d.0) && Less(b.0, d.0) && Less(c.0, d.0)
    requires Canon(a.1).Some? && Canon(b.1).Some? && Canon(c.1).Some? && Canon(d.1).Some?
    ensures Canon(Obj([d, a, c, b])) ==
      Some("{" + Join([MemberText(a.0, Canon(a.1).value), MemberText(b.0, Canon(b.1).value),
                       MemberText(c.0, Canon(c.1).value), MemberText(d.0, Canon(d.1).value)]) + "}")
  {
    hide Less, Canon, Join, MemberText, SortItems;
    LessTotal(a.0, b.0);
    LessTotal(b.0, c.0);
    LessTotal(a.0, c.0);
    LessTotal(a.0, d.0);
    LessTotal(b.0, d.0);
    LessTotal(c.0, d.0);
    assert multiset([d, a, c, b]) == multiset([a, b, c, d]);
    CanonArranged([d, a, c, b], [a, b, c, d],
                  [MemberText(a.0, Canon(a.1).value), MemberText(b.0, Canon(b.1).value),
                   MemberText(c.0, Canon(c.1).value), MemberText(d.0, Canon(d.1).value)]);
  }

  lemma CanonStr(s: string)
    ensures Canon(Str(s)) == Some(EncodeString(s))
  {}

  /** Keys that differ in their first letter, an ASCII one. */
  lemma FirstLetterLess(s: string, t: string)
    requires s != [] && t != [] && s[0] < t[0] && (t[0] as int) < 128
    ensures Less(s, t)
  {
    var a, b := Utf16.Points(s), Utf16.Points(t);
    assert a[0] == s[0] as int && b[0] == t[0] as int;
    assert Utf16.Key(a) == Utf16.CharUnits(a[0]) + Utf16.Key(a[1..]);
    assert Utf16.Key(b) == Utf16.CharUnits(b[0]) + Utf16.Key(b[1..]);
  }

  // ---- the round trip ----

  lemma ReadWordOf(word: string, rest: string, v: Value)
    requires word != []
    ensures ReadWord(word + rest, word, v) == Some((v, rest))
  {}

  lemma ReadScalar(j: Json, rest: string)
    requires Printable(j) && !j.Arr? && !j.Obj? && Stops(rest)
    ensures Canon(j).Some? && Canon(j).value != [] && Canon(j).value[0] != ']'
    ensures Read(Canon(j).value + rest) == Some((Meaning(j), rest))
  {
    hide ReadNumber, ReadString, EncodeString, N.Layout, IntText, ReadElements, ReadMembers;
    match j
    case Null => ReadWordOf("null", rest, VNull);
    case Bool(b) => ReadWordOf(if b then "true" else "false", rest, VBool(b));
    case Str(s) => ReadEncoded(s, rest);
    case Int(n) => ReadInt(n, rest);
    case Float(f) => ReadFloat(f, rest);
  }

  /** The reader undoes the printer, whatever stopping text follows. */
  lemma {:induction false} ReadCanon(j: Json, rest: string)
    requires WellFormed(j) && Printable(j) && Stops(rest)
    ensures Canon(j).Some? && Canon(j).value != [] && Canon(j).value[0] != ']'
    ensures Read(Canon(j).value + rest) == Some((Meaning(j), rest))
    decreases j, 2, 0
  {
    CanonSome(j);
    match j
    case Arr(vs) => ReadArray(vs, rest);
    case Obj(items) => ReadObject(items, rest);
    case _ => ReadScalar(j, rest);
  }

  lemma {:induction false} ReadArray(vs: seq<Json>, rest: string)
    requires WellFormed(Arr(vs)) && Printable(Arr(vs)) && Stops(rest) && Canon(Arr(vs)).Some?
    ensures Read(Canon(Arr(vs)).value + rest) == Some((Meaning(Arr(vs)), rest))
    decreases Arr(vs), 1, 0
  {
    if vs == [] {
      ReadNoElements(rest);
    } else {
      CanonAllSome(vs);
      var text := Join(CanonAll(vs).value);
      Assoc("[" + text, "]", rest);
      Assoc("[", text, "]" + rest);
      hide CanonAll, Join, Read, Meaning;
      ReadAllElements(vs, rest);
      ReadBrackets(text, MeaningAll(vs), rest);
      assert Meaning(Arr(vs)) == VArr(MeaningAll(vs)) by { ArrayMeaning(vs); }
    }
  }

  lemma ArrayMeaning(vs: seq<Json>)
    requires Printable(Arr(vs))
    ensures Meaning(Arr(vs)) == VArr(MeaningAll(vs))
  {}

  lemma ReadNoElements(rest: string)
    ensures Canon(Arr([])) == Some("[]") && Read("[]" + rest) == Some((Meaning(Arr([])), rest))
  {
    hide ReadMembers, ReadElements, ReadNumber, ReadString, MapOf;
    assert CanonAll([]) == Some([]) && Join([]) == "" && MeaningAll([]) == [];
    assert "[" + "" + "]" == "[]";
    var s := "[]" + rest;
    assert s[0] == '[' && s[1] == ']' && s[2..] == rest;
  }

  lemma ReadBrackets(text: string, vs: seq<Value>, rest: string)
    requires text != [] && text[0] != ']' && ReadElements(text + ("]" + rest)) == Some((vs, rest))
    ensures Read("[" + (text + ("]" + rest))) == Some((VArr(vs), rest))
  {
    hide ReadMembers, ReadElements, ReadNumber, ReadString, MapOf;
    Cons('[', text + ("]" + rest));
    assert (text + ("]" + rest))[0] == text[0];
  }

  lemma {:induction false} ReadAllElements(vs: seq<Json>, rest: string)
    requires vs != [] && forall i :: 0 <= i < |vs| ==> WellFormed(vs[i]) && Printable(vs[i])
    ensures CanonAll(vs).Some?
    ensures var text := Join(CanonAll(vs).value);
      text != [] && text[0] != ']' && ReadElements(text + ("]" + rest)) == Some((MeaningAll(vs), rest))
    decreases vs, 0, |vs|
  {
    hide Read, ReadElements, WellFormed, Canon;
    CanonAllSome(vs);
    var parts := CanonAll(vs).value;
    var v := vs[0];
    var first := Canon(v).value;
    MeaningAllSplit(vs);
    if |vs| == 1 {
      ReadCanon(v, "]" + rest);
      assert CanonAll(vs[1..]) == Some([]);
      assert parts == [first];
      assert MeaningAll(vs) == [Meaning(v)];
      ReadLastElement(first, Meaning(v), rest);
    } else {
      var more := Join(CanonAll(vs[1..]).value);
      CanonAllSome(vs[1..]);
      assert parts[1..] == CanonAll(vs[1..]).value;
      ReadCanon(v, "," + (more + ("]" + rest)));
      ReadAllElements(vs[1..], rest);
      ReadNextElement(first, Meaning(v), more, MeaningAll(vs[1..]), rest);
    }
  }

  lemma ReadLastElement(first: string, v: Value, rest: string)
    requires Read(first + ("]" + rest)) == Some((v, "]" + rest))
    ensures ReadElements(first + ("]" + rest)) == Some(([v], rest))
  {
    hide Read;
    Cons(']', rest);
  }

  lemma ReadNextElement(first: string, v: Value, more: string, vs: seq<Value>, rest: string)
    requires first != [] && Read(first + ("," + (more + ("]" + rest)))) == Some((v, "," + (more + ("]" + rest))))
    requires ReadElements(more + ("]" + rest)) == Some((vs, rest))
    ensures ReadElements(first + "," + more + ("]" + rest)) == Some(([v] + vs, rest))
    ensures (first + "," + more)[0] == first[0]
  {
    hide Read;
    var tail := more + ("]" + rest);
    assert first + "," + more + ("]" + rest) == first + ("," + tail) by {
      Assoc(first + ",", more, "]" + rest);
      Assoc(first, ",", tail);
    }
    Cons(',', tail);
  }

  function Braces(parts: Option<seq<string>>): Option<string> {
    var p :- parts;
    Some("{" + Join(p) + "}")
  }

  lemma CanonObject(items: seq<(string, Json)>)
    ensures forall i :: 0 <= i < |SortItems(items)| ==> SortItems(items)[i].1 < Obj(items)
    ensures Canon(Obj(items)) == Braces(CanonMembers(SortItems(items), Obj(items)))
  {
    hide SortItems, CanonMembers, Join;
    SortedBelow(items);
  }

  lemma {:induction false} ReadObject(items: seq<(string, Json)>, rest: string)
    requires WellFormed(Obj(items)) && Printable(Obj(items)) && Stops(rest) && Canon(Obj(items)).Some?
    ensures Read(Canon(Obj(items)).value + rest) == Some((Meaning(Obj(items)), rest))
    decreases Obj(items), 1, 0
  {
    CanonObject(items);
    var sorted := SortItems(items);
    var text := Join(CanonMembers(sorted, Obj(items)).value);
    Assoc("{" + text, "}", rest);
    Assoc("{", text, "}" + rest);
    if items != [] {
      hide SortItems, Canon, CanonMembers, Join, Read, MapOf;
      SortedMeaning(items);
      SortedWellFormed(items);
      ReadAllMembers(sorted, Obj(items), rest);
      ReadBraces(text, MeaningItems(sorted), rest);
    } else {
      assert text + ("}" + rest) == ['}'] + rest;
      assert (['{'] + (text + ("}" + rest)))[2..] == rest;
    }
  }

  lemma SortedWellFormed(items: seq<(string, Json)>)
    requires WellFormed(Obj(items))
    ensures forall i :: 0 <= i < |SortItems(items)| ==> WellFormed(SortItems(items)[i].1)
  {
    hide SortItems;
    SortPermutes(items);
    forall i | 0 <= i < |SortItems(items)| ensures WellFormed(SortItems(items)[i].1) {
      SameMembers(SortItems(items), items, SortItems(items)[i]);
    }
  }

  lemma ReadBraces(text: string, ms: seq<(string, Value)>, rest: string)
    requires text != [] && text[0] == '"' && ReadMembers(text + ("}" + rest)) == Some((ms, rest))
    ensures Read("{" + (text + ("}" + rest))) == Some((VObj(MapOf(ms)), rest))
  {
    hide ReadMembers, ReadElements, ReadNumber, ReadString, MapOf;
    Cons('{', text + ("}" + rest));
    assert (text + ("}" + rest))[0] == text[0];
  }

  lemma {:induction false} ReadAllMembers(items: seq<(string, Json)>, parent: Json, rest: string)
    requires items != [] && forall i :: 0 <= i < |items| ==> items[i].1 < parent
    requires forall i :: 0 <= i < |items| ==> WellFormed(items[i].1) && Printable(items[i].1)
    ensures CanonMembers(items, parent).Some?
    ensures var text := Join(CanonMembers(items, parent).value);
      text != [] && text[0] == '"' && ReadMembers(text + ("}" + rest)) == Some((MeaningItems(items), rest))
    decreases parent, 0, |items|
  {
    CanonMembersSome(items, parent);
    var parts := CanonMembers(items, parent).value;
    var k, v := items[0].0, items[0].1;
    var first := Canon(v).value;
    MeaningItemsSplit(items);
    if |items| == 1 {
      ReadCanon(v, "}" + rest);
      assert CanonMembers(items[1..], parent) == Some([]);
      assert parts == [EncodeString(k) + ":" + first];
      assert MeaningItems(items) == [(k, Meaning(v))];
      ReadLastMember(k, first, Meaning(v), rest);
    } else {
      var more := Join(CanonMembers(items[1..], parent).value);
      CanonMembersSome(items[1..], parent);
      assert parts[1..] == CanonMembers(items[1..], parent).value;
      ReadCanon(v, "," + (more + ("}" + rest)));
      ReadAllMembers(items[1..], parent, rest);
      ReadNextMember(k, first, Meaning(v), more, MeaningItems(items[1..]), rest);
    }
  }

  lemma ReadLastMember(k: string, first: string, v: Value, rest: string)
    requires Read(first + ("}" + rest)) == Some((v, "}" + rest))
    ensures ReadMembers(EncodeString(k) + ":" + first + ("}" + rest)) == Some(([(k, v)], rest))
    ensures (EncodeString(k) + ":" + first)[0] == '"'
  {
    hide Read, ReadString, EncodeString;
    ReadMemberPrefix(k, first, "}" + rest);
    Cons('}', rest);
  }

  lemma ReadNextMember(k: string, first: string, v: Value, more: string, ms: seq<(string, Value)>, rest: string)
    requires Read(first + ("," + (more + ("}" + rest)))) == Some((v, "," + (more + ("}" + rest))))
    requires ReadMembers(more + ("}" + rest)) == Some((ms, rest))
    ensures ReadMembers(EncodeString(k) + ":" + first + "," + more + ("}" + rest)) == Some(([(k, v)] + ms, rest))
    ensures (EncodeString(k) + ":" + first + "," + more)[0] == '"'
  {
    hide Read, ReadString, EncodeString;
    var member, tail := EncodeString(k) + ":" + first, more + ("}" + rest);
    assert member + "," + more + ("}" + rest) == member + ("," + tail) by {
      Assoc(member + ",", more, "}" + rest);
      Assoc(member, ",", tail);
    }
    ReadMemberPrefix(k, first, "," + tail);
    Cons(',', tail);
  }

  lemma ReadMemberPrefix(k: string, value: string, tail: string)
    ensures ReadString(EncodeString(k) + ":" + value + tail) == Some((k, ":" + (value + tail)))
    ensures (":" + (value + tail))[0] == ':' && (":" + (value + tail))[1..] == value + tail
    ensures (EncodeString(k) + ":" + value)[0] == '"'
  {
    hide ReadString;
    Assoc(EncodeString(k) + ":", value, tail);
    Assoc(EncodeString(k), ":", value + tail);
    ReadEncoded(k, ":" + (value + tail));
    Cons(':', value + tail);
  }
}
