/** What equal canonical texts and equal digests mean. SHA-256 is a parameter; where a theorem
    needs it, it is assumed free of collisions. */
module Digests {
  import opened Prelude
  import opened Text
  import opened KeyOrder
  import opened Canonical
  import opened RoundTrip
  import JsonReader
  import N = NumberLayout

  /** Reading the whole canonical text of a value gives its meaning. */
  lemma ReadAllCanon(j: Json)
    requires WellFormed(j) && Printable(j)
    ensures Canon(j).Some? && JsonReader.ReadAll(Canon(j).value) == Some(Meaning(j))
  {
    ReadCanon(j, "");
    assert Canon(j).value + "" == Canon(j).value;
  }

  /** Equal canonical texts imply equal values. */
  lemma CanonInjective(a: Json, b: Json)
    requires WellFormed(a) && WellFormed(b)
    requires Canon(a).Some? && Canon(a) == Canon(b)
    ensures Printable(a) && Printable(b) && Meaning(a) == Meaning(b)
  {
    CanonSome(a);
    CanonSome(b);
    ReadAllCanon(a);
    ReadAllCanon(b);
  }

  // ---- the converse, and exactly where it fails ----

  lemma {:induction false} RStripRestore(s: string)
    ensures s == N.RStrip(s) + Zeros(|s| - |N.RStrip(s)|)
  {
    if s != [] && s[|s| - 1] == '0' {
      RStripRestore(s[..|s| - 1]);
    }
  }

  /** The float spelled like the integer `m` with a sign. */
  function IntFloat(neg: bool, m: nat): (f: N.Float)
    ensures f.Finite?
  {
    N.Finite(neg, NatText(m), "", 0)
  }

  lemma IntFloatValue(neg: bool, m: nat)
    ensures N.FloatValue(IntFloat(neg, m)) == N.Signed(neg, m as real)
  {
    NatTextValue(m);
    assert NatText(m) + "" == NatText(m);
  }

  lemma IntFloatParts(neg: bool, m: nat)
    requires m > 0
    ensures var f := IntFloat(neg, m);
      N.NonZero(f) && N.PointPos(f) == |NatText(m)| && N.FloatDigits(f) == N.RStrip(NatText(m))
  {
    var t := NatText(m);
    assert t + "" == t && N.LStrip(t) == t;
  }

  lemma ScientificNotDigits(digits: string, n: int, t: string)
    requires digits != [] && n > 21 && AllDigits(t)
    ensures N.Body(digits, n) != t
  {
    var mantissa := if |digits| == 1 then digits else digits[..1] + "." + digits[1..];
    var exp := N.ExpText(n - 1);
    assert exp[0] == 'e';
    assert N.Body(digits, n)[|mantissa|] == 'e';
  }

  lemma SmallIntLayout(neg: bool, m: nat)
    requires m > 0
    ensures |NatText(m)| <= 21 <==> N.Layout(IntFloat(neg, m)) == Some((if neg then "-" else "") + NatText(m))
  {
    hide NatText, N.RStrip, N.FloatDigits, N.PointPos, N.NonZero;
    var t := NatText(m);
    var digits := N.RStrip(t);
    IntFloatParts(neg, m);
    RStripRestore(t);
    if |t| > 21 {
      ScientificNotDigits(digits, |t|, t);
      hide N.Body;
      assert (if neg then "-" else "") + N.Body(digits, |t|) != (if neg then "-" else "") + t by {
        if neg {
          Cons('-', t);
          Cons('-', N.Body(digits, |t|));
        } else {
          assert "" + t == t && "" + N.Body(digits, |t|) == N.Body(digits, |t|);
        }
      }
    }
  }

  lemma NatTextLength(m: nat)
    ensures |NatText(m)| <= 21 <==> m < Pow(21)
  {
    hide NatText, NatValue, Pow;
    NatTextValue(m);
    NatValueRange(NatText(m));
    if |NatText(m)| <= 21 { PowMonotone(|NatText(m)|, 21); } else { PowMonotone(21, |NatText(m)| - 1); }
  }

  /** An int and a float of the same value print alike exactly below 10^21. */
  lemma IntFloatAgree(n: int, f: N.Float)
    requires f.Finite? && N.FloatValue(f) == n as real
    ensures N.Layout(f) == Some(IntText(n)) <==> 0 - Pow(21) < n < Pow(21)
  {
    hide N.Layout, N.FloatValue, IntFloat, NatText;
    var m := if n < 0 then -n else n;
    IntFloatValue(n < 0, m);
    N.LayoutOfValue(f, IntFloat(n < 0, m));
    NatTextLength(m);
    if n == 0 {
      PowMonotone(0, 21);
      ZeroText(f);
    } else {
      SmallIntLayout(n < 0, m);
      assert "" + NatText(m) == NatText(m);
    }
  }

  lemma ZeroText(f: N.Float)
    requires f.Finite? && N.FloatValue(f) == 0.0
    ensures N.Layout(f) == Some(IntText(0))
  {
    if N.NonZero(f) { N.NonZeroFloat(f); } else { N.ZeroFloat(f); }
  }

  /** Every int inside is below 10^21 in size. */
  predicate SmallInts(j: Json) {
    match j
    case Int(n) => 0 - Pow(21) < n < Pow(21)
    case Arr(vs) => forall i :: 0 <= i < |vs| ==> SmallInts(vs[i])
    case Obj(items) => forall i :: 0 <= i < |items| ==> SmallInts(items[i].1)
    case _ => true
  }

  ghost predicate Tame(j: Json) { WellFormed(j) && Printable(j) && SmallInts(j) }

  /** With small ints the text depends on the meaning alone: dict order and number spelling
      do not matter. */
  lemma {:induction false} CanonOfMeaning(a: Json, b: Json)
    requires Tame(a) && Tame(b) && Meaning(a) == Meaning(b)
    ensures Canon(a) == Canon(b)
    decreases a, 2, 0
  {
    match a
    case Arr(vs) => CanonAllOfMeaning(vs, b.vs);
    case Obj(items) => CanonObjOfMeaning(items, b.items);
    case Int(n) => if b.Float? { IntFloatAgree(n, b.f); }
    case Float(f) => if b.Float? { N.LayoutOfValue(f, b.f); } else { IntFloatAgree(b.n, f); }
    case _ =>
  }

  lemma {:induction false} CanonAllOfMeaning(vs: seq<Json>, ws: seq<Json>)
    requires forall i :: 0 <= i < |vs| ==> Printable(vs[i]) && Tame(vs[i])
    requires forall i :: 0 <= i < |ws| ==> Printable(ws[i]) && Tame(ws[i])
    requires MeaningAll(vs) == MeaningAll(ws)
    ensures CanonAll(vs) == CanonAll(ws)
    decreases vs, 0, |vs|
  {
    hide Meaning, Printable, Tame, Canon;
    assert |vs| == |ws|;
    if vs != [] {
      MeaningAllSplit(vs);
      MeaningAllSplit(ws);
      assert MeaningAll(vs)[1..] == MeaningAll(vs[1..]) && MeaningAll(ws)[1..] == MeaningAll(ws[1..]);
      CanonOfMeaning(vs[0], ws[0]);
      CanonAllOfMeaning(vs[1..], ws[1..]);
    }
  }

  lemma {:induction false} CanonObjOfMeaning(items: seq<(string, Json)>, others: seq<(string, Json)>)
    requires Tame(Obj(items)) && Tame(Obj(others)) && Meaning(Obj(items)) == Meaning(Obj(others))
    ensures Canon(Obj(items)) == Canon(Obj(others))
    decreases Obj(items), 1, 0
  {
    assert KeysDistinct(items) && AllPrintable(items) && KeysDistinct(others) && AllPrintable(others);
    assert JsonReader.MapOf(MeaningItems(items)) == JsonReader.MapOf(MeaningItems(others));
    hide SortItems, Canon, CanonMembers, Less, Meaning, JsonReader.MapOf, Tame, Printable;
    CanonObject(items);
    CanonObject(others);
    SortedTame(items);
    SortedTame(others);
    SortedMeaning(items);
    SortedMeaning(others);
    SortAscending(items);
    SortAscending(others);
    AscendingMeaning(SortItems(items), SortItems(others));
    CanonMembersOfMeaning(SortItems(items), Obj(items), SortItems(others), Obj(others));
  }

  lemma SortedTame(items: seq<(string, Json)>)
    requires Tame(Obj(items))
    ensures forall i :: 0 <= i < |SortItems(items)| ==> Tame(SortItems(items)[i].1)
  {
    hide SortItems;
    SortPermutes(items);
    forall i | 0 <= i < |SortItems(items)| ensures Tame(SortItems(items)[i].1) {
      SameMembers(SortItems(items), items, SortItems(items)[i]);
    }
  }

  /** Ascending item lists with one key map list the same keys and meanings in the same order. */
  lemma AscendingMeaning(a: seq<(string, Json)>, b: seq<(string, Json)>)
    requires AllPrintable(a) && AllPrintable(b) && Ascending(a) && Ascending(b)
    requires JsonReader.MapOf(MeaningItems(a)) == JsonReader.MapOf(MeaningItems(b))
    ensures MeaningItems(a) == MeaningItems(b)
  {
    hide Less, Meaning, Printable;
    var ma, mb := MeaningItems(a), MeaningItems(b);
    AscendingDistinct(ma);
    AscendingDistinct(mb);
    MapOfItems(ma);
    MapOfItems(mb);
    SameMapMembers(ma, mb);
    SameMapMembers(mb, ma);
    AscendingUnique(ma, mb);
  }

  lemma AscendingDistinct<T>(a: seq<(string, T)>)
    requires Ascending(a)
    ensures KeysDistinct(a)
  {
    forall i, j | 0 <= i < j < |a| ensures a[i].0 != a[j].0 { LessTotal(a[i].0, a[j].0); }
  }

  lemma SameMapMembers(a: seq<(string, JsonReader.Value)>, b: seq<(string, JsonReader.Value)>)
    requires KeysDistinct(a) && KeysDistinct(b) && JsonReader.MapOf(a) == JsonReader.MapOf(b)
    ensures forall x :: x in a ==> x in b
  {
    MapOfItems(a);
    MapOfItems(b);
    forall i | 0 <= i < |a| ensures a[i] in b {
      var j :| 0 <= j < |b| && b[j].0 == a[i].0;
      assert b[j] == a[i];
    }
  }

  lemma {:induction false} CanonMembersOfMeaning(a: seq<(string, Json)>, pa: Json, b: seq<(string, Json)>, pb: Json)
    requires forall i :: 0 <= i < |a| ==> a[i].1 < pa && Printable(a[i].1) && Tame(a[i].1)
    requires forall i :: 0 <= i < |b| ==> b[i].1 < pb && Printable(b[i].1) && Tame(b[i].1)
    requires MeaningItems(a) == MeaningItems(b)
    ensures CanonMembers(a, pa) == CanonMembers(b, pb)
    decreases pa, 0, |a|
  {
    hide Meaning, Printable, Tame, Canon;
    assert |a| == |b|;
    if a != [] {
      MeaningItemsSplit(a);
      MeaningItemsSplit(b);
      assert MeaningItems(a)[1..] == MeaningItems(a[1..]) && MeaningItems(b)[1..] == MeaningItems(b[1..]);
      CanonOfMeaning(a[0].1, b[0].1);
      CanonMembersOfMeaning(a[1..], pa, b[1..], pb);
    }
  }

  /** Without any bound on ints: a dict and any reordering of it have one canonical text. */
  lemma CanonPermuted(items: seq<(string, Json)>, other: seq<(string, Json)>)
    requires KeysDistinct(items) && multiset(items) == multiset(other)
    ensures Canon(Obj(items)) == Canon(Obj(other))
  {
    hide SortItems, Canon, CanonMembers, Join;
    CanonObject(items);
    CanonObject(other);
    SortUnique(items, other);
    CanonMembersParent(SortItems(items), Obj(items), Obj(other));
  }

  lemma {:induction false} CanonMembersParent(items: seq<(string, Json)>, p: Json, q: Json)
    requires forall i :: 0 <= i < |items| ==> items[i].1 < p && items[i].1 < q
    ensures CanonMembers(items, p) == CanonMembers(items, q)
    decreases |items|
  {
    if items != [] { CanonMembersParent(items[1..], p, q); }
  }

  // ---- subjects and digests ----

  predicate Signed(key: string) { key != "signature" && key != "subject_digest" }

  /** `subject`: the item list without `signature` and `subject_digest`, in order. */
  function Subject(items: seq<(string, Json)>): (r: seq<(string, Json)>)
    ensures forall x :: x in r <==> x in items && Signed(x.0)
    ensures KeysDistinct(items) ==> KeysDistinct(r)
  {
    if items == [] then []
    else
      var rest := Subject(items[1..]);
      assert items == [items[0]] + items[1..];
      assert KeysDistinct(items) ==> KeysDistinct(items[1..]) by {
        assert forall i :: 0 <= i < |items[1..]| ==> items[1..][i] == items[i + 1];
      }
      if Signed(items[0].0) then [items[0]] + rest else rest
  }

  function DigestHex(sha: string -> string, j: Json): Option<string> {
    var text :- Canon(j);
    Some(sha(text))
  }

  function SubjectDigest(sha: string -> string, items: seq<(string, Json)>): Option<string> {
    DigestHex(sha, Obj(Subject(items)))
  }

  ghost predicate CollisionFree(sha: string -> string) {
    forall a, b :: sha(a) == sha(b) ==> a == b
  }

  /** Equal digests imply equal values: the converse of "same value, same digest". */
  lemma DigestInjective(sha: string -> string, a: Json, b: Json)
    requires CollisionFree(sha) && WellFormed(a) && WellFormed(b)
    requires DigestHex(sha, a).Some? && DigestHex(sha, a) == DigestHex(sha, b)
    ensures Printable(a) && Printable(b) && Meaning(a) == Meaning(b)
  {
    CanonInjective(a, b);
  }

  /** The keys of a dict's meaning are those of its items, and so are the values. */
  lemma KeyMeaning(items: seq<(string, Json)>)
    requires WellFormed(Obj(items)) && Printable(Obj(items))
    ensures var v := Meaning(Obj(items));
      && v.VObj? && (forall i :: 0 <= i < |items| ==> items[i].0 in v.m && v.m[items[i].0] == Meaning(items[i].1))
      && forall k :: k in v.m ==> exists i :: 0 <= i < |items| && items[i].0 == k
  {
    var ms := MeaningItems(items);
    assert forall i :: 0 <= i < |items| ==> ms[i] == (items[i].0, Meaning(items[i].1));
    MapOfItems(ms);
    forall k | k in Meaning(Obj(items)).m ensures exists i :: 0 <= i < |items| && items[i].0 == k {
      var i :| 0 <= i < |ms| && ms[i].0 == k;
      assert items[i].0 == k;
    }
  }

  /** Lists of one meaning have one set of keys, and one value's meaning under each. */
  lemma SameMeaningSameKey(a: seq<(string, Json)>, b: seq<(string, Json)>, i: nat) returns (j: nat)
    requires WellFormed(Obj(a)) && WellFormed(Obj(b)) && Printable(Obj(a)) && Printable(Obj(b))
    requires Meaning(Obj(a)) == Meaning(Obj(b)) && i < |a|
    ensures j < |b| && b[j].0 == a[i].0 && Meaning(b[j].1) == Meaning(a[i].1)
  {
    KeyMeaning(a);
    KeyMeaning(b);
    hide Meaning, WellFormed;
    assert a[i].0 in Meaning(Obj(a)).m && Meaning(Obj(a)).m[a[i].0] == Meaning(a[i].1);
    j :| 0 <= j < |b| && b[j].0 == a[i].0;
  }

  /** Exactly the fields but those two, each as it was and in the order they came. */
  lemma {:induction false} SubjectKeeps(items: seq<(string, Json)>)
    ensures forall x :: x in Subject(items) <==> x in items && x.0 != "signature" && x.0 != "subject_digest"
    ensures items != [] ==>
      var first := if items[0].0 == "signature" || items[0].0 == "subject_digest" then [] else [items[0]];
      Subject(items) == first + Subject(items[1..])
  {}

  lemma SubjectMembers(items: seq<(string, Json)>)
    requires WellFormed(Obj(items))
    ensures WellFormed(Obj(Subject(items)))
  {
    var s := Subject(items);
    forall i | 0 <= i < |s| ensures WellFormed(s[i].1) { assert s[i] in items; }
  }

  /** A subject digest pins every field but `signature` and `subject_digest`, and only those
      two may differ between dicts with one digest. */
  lemma SubjectDigestPins(sha: string -> string, a: seq<(string, Json)>, b: seq<(string, Json)>)
    requires CollisionFree(sha) && WellFormed(Obj(a)) && WellFormed(Obj(b))
    requires SubjectDigest(sha, a).Some? && SubjectDigest(sha, a) == SubjectDigest(sha, b)
    ensures Printable(Obj(Subject(a))) && Printable(Obj(Subject(b)))
    ensures Meaning(Obj(Subject(a))) == Meaning(Obj(Subject(b)))
  {
    SubjectMembers(a);
    SubjectMembers(b);
    DigestInjective(sha, Obj(Subject(a)), Obj(Subject(b)));
  }

  /** Two subjects with the same members are one list up to order. */
  lemma {:induction false} SameMembersSorted(a: seq<(string, Json)>, b: seq<(string, Json)>)
    requires KeysDistinct(a) && KeysDistinct(b) && forall x :: x in a <==> x in b
    ensures SortItems(a) == SortItems(b)
  {
    SortAscending(a);
    SortAscending(b);
    SortPermutes(a);
    SortPermutes(b);
    forall x ensures x in SortItems(a) <==> x in SortItems(b) {
      SameMembers(SortItems(a), a, x);
      SameMembers(SortItems(b), b, x);
    }
    AscendingUnique(SortItems(a), SortItems(b));
  }

  /** Reordering a dict, or changing its signature or claimed digest, leaves the digest alone. */
  lemma SubjectDigestStable(sha: string -> string, a: seq<(string, Json)>, b: seq<(string, Json)>)
    requires KeysDistinct(a) && KeysDistinct(b)
    requires forall x: (string, Json) :: Signed(x.0) ==> (x in a <==> x in b)
    ensures SubjectDigest(sha, a) == SubjectDigest(sha, b)
  {
    var sa, sb := Subject(a), Subject(b);
    SameMembersSorted(sa, sb);
    CanonObject(sa);
    CanonObject(sb);
    CanonMembersParent(SortItems(sa), Obj(sa), Obj(sb));
  }
}
