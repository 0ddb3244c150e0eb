/** The order `sorted(value.items(), key=_utf16_key)` puts dictionary items in. */
module KeyOrder {
  import Utf16

  /** Python's tuple comparison. */
  predicate LexLess(a: seq<int>, b: seq<int>) {
    if a == [] then b != []
    else b != [] && (a[0] < b[0] || (a[0] == b[0] && LexLess(a[1..], b[1..])))
  }

  lemma {:induction false} LexTotal(a: seq<int>, b: seq<int>)
    ensures LexLess(a, b) || LexLess(b, a) || a == b
    ensures !(LexLess(a, b) && LexLess(b, a))
    ensures !LexLess(a, a)
  {
    if a != [] {
      LexTotal(a[1..], a[1..]);
      if b != [] {
        LexTotal(a[1..], b[1..]);
        assert a == [a[0]] + a[1..] && b == [b[0]] + b[1..];
      }
    }
  }

  lemma {:induction false} LexTransitive(a: seq<int>, b: seq<int>, c: seq<int>)
    requires LexLess(a, b) && LexLess(b, c)
    ensures LexLess(a, c)
  {
    if a != [] && a[0] == b[0] == c[0] {
      LexTransitive(a[1..], b[1..], c[1..]);
    }
  }

  /** The order of lists as it is said: at the first place where they differ one has ended, or has the
      smaller number. */
  ghost predicate FirstDiffersBelow(a: seq<int>, b: seq<int>) { exists k :: DiffersBelowAt(a, b, k) }

  ghost predicate DiffersBelowAt(a: seq<int>, b: seq<int>, k: nat) {
    k <= |a| && k < |b| && (forall i :: 0 <= i < k ==> a[i] == b[i]) && (k == |a| || a[k] < b[k])
  }

  lemma {:induction false} LexLessExactly(a: seq<int>, b: seq<int>)
    ensures LexLess(a, b) <==> FirstDiffersBelow(a, b)
  {
    if a == [] || b == [] || a[0] != b[0] {
      if LexLess(a, b) { assert DiffersBelowAt(a, b, 0); }
      if k: nat :| DiffersBelowAt(a, b, k) { assert k == 0; }
    } else {
      LexLessExactly(a[1..], b[1..]);
      if k: nat :| DiffersBelowAt(a[1..], b[1..], k) {
        assert forall i :: 0 <= i < k + 1 ==> a[i] == b[i] by {
          assert forall i :: 0 < i < k + 1 ==> a[i] == a[1..][i - 1] && b[i] == b[1..][i - 1];
        }
        assert DiffersBelowAt(a, b, k + 1);
      }
      if k: nat :| DiffersBelowAt(a, b, k) {
        assert k > 0 && DiffersBelowAt(a[1..], b[1..], k - 1);
      }
    }
  }

  /** The code units of the first key differ below those of the second. */
  ghost predicate UnitsBelow(s: string, t: string) {
    FirstDiffersBelow(Utf16.Key(Utf16.Points(s)), Utf16.Key(Utf16.Points(t)))
  }

  predicate Less(s: string, t: string) {
    LexLess(Utf16.Key(Utf16.Points(s)), Utf16.Key(Utf16.Points(t)))
  }

  /** A strict total order: exactly one of less, equal, greater holds. */
  lemma LessTotal(s: string, t: string)
    ensures Less(s, t) || Less(t, s) || s == t
    ensures !(Less(s, t) && Less(t, s)) && !Less(s, s)
  {
    LexTotal(Utf16.Key(Utf16.Points(s)), Utf16.Key(Utf16.Points(t)));
    LexTotal(Utf16.Key(Utf16.Points(s)), Utf16.Key(Utf16.Points(s)));
    if Utf16.Key(Utf16.Points(s)) == Utf16.Key(Utf16.Points(t)) { Utf16.KeyInjective(s, t); }
  }

  lemma LessTransitive(s: string, t: string, u: string)
    requires Less(s, t) && Less(t, u)
    ensures Less(s, u)
  {
    LexTransitive(Utf16.Key(Utf16.Points(s)), Utf16.Key(Utf16.Points(t)), Utf16.Key(Utf16.Points(u)));
  }

  /** The comparison is a strict total order. */
  lemma StrictTotalOrder(s: string, t: string, u: string)
    ensures !Less(s, s)
    ensures Less(s, t) || Less(t, s) || s == t
    ensures !(Less(s, t) && Less(t, s))
    ensures Less(s, t) && Less(t, u) ==> Less(s, u)
  {
    hide Less;
    LessTotal(s, t);
    if Less(s, t) && Less(t, u) { LessTransitive(s, t, u); }
  }

  /** A stable insertion sort on the key alone. */
  function Insert<T>(x: (string, T), xs: seq<(string, T)>): seq<(string, T)> {
    if xs == [] || !Less(xs[0].0, x.0) then [x] + xs else [xs[0]] + Insert(x, xs[1..])
  }

  function SortItems<T>(items: seq<(string, T)>): seq<(string, T)> {
    if items == [] then [] else Insert(items[0], SortItems(items[1..]))
  }

  lemma {:induction false} InsertPermutes<T>(x: (string, T), xs: seq<(string, T)>)
    ensures multiset(Insert(x, xs)) == multiset{x} + multiset(xs)
  {
    hide Less;
    if xs != [] {
      InsertPermutes(x, xs[1..]);
      assert xs == [xs[0]] + xs[1..];
    }
  }

  /** Sorting permutes the items. */
  lemma {:induction false} SortPermutes<T>(items: seq<(string, T)>)
    ensures multiset(SortItems(items)) == multiset(items)
    ensures |SortItems(items)| == |items|
  {
    if items != [] {
      SortPermutes(items[1..]);
      InsertPermutes(items[0], SortItems(items[1..]));
      assert items == [items[0]] + items[1..];
    }
    assert |multiset(SortItems(items))| == |multiset(items)|;
  }

  predicate KeysDistinct<T>(items: seq<(string, T)>) {
    forall i, j :: 0 <= i < j < |items| ==> items[i].0 != items[j].0
  }

  predicate Ascending<T>(items: seq<(string, T)>) {
    forall i, j :: 0 <= i < j < |items| ==> Less(items[i].0, items[j].0)
  }

  lemma SameMembers<T>(a: seq<T>, b: seq<T>, x: T)
    requires multiset(a) == multiset(b)
    ensures x in a <==> x in b
  {
    assert x in a <==> x in multiset(a);
    assert x in b <==> x in multiset(b);
  }

  lemma {:induction false} InsertAscending<T>(x: (string, T), xs: seq<(string, T)>)
    requires Ascending(xs)
    requires forall y :: y in xs ==> y.0 != x.0
    ensures Ascending(Insert(x, xs))
  {
    hide Less;
    if xs != [] {
      LessTotal(xs[0].0, x.0);
      InsertPermutes(x, xs[1..]);
      if Less(xs[0].0, x.0) {
        forall i, j | 0 <= i < j < |xs[1..]| ensures Less(xs[1..][i].0, xs[1..][j].0) {
          assert xs[1..][i] == xs[i + 1] && xs[1..][j] == xs[j + 1];
        }
        InsertAscending(x, xs[1..]);
        var r := Insert(x, xs[1..]);
        forall j | 0 <= j < |r| ensures Less(xs[0].0, r[j].0) {
          assert r[j] in multiset(r);
          if r[j] != x {
            assert r[j] in xs[1..];
            var k :| 0 <= k < |xs[1..]| && xs[1..][k] == r[j];
            assert xs[k + 1] == r[j];
          }
        }
      } else {
        forall j | 0 <= j < |xs| ensures Less(x.0, xs[j].0) {
          if j > 0 { LessTransitive(x.0, xs[0].0, xs[j].0); }
        }
      }
    }
  }

  /** Sorting items with distinct keys puts them in strictly ascending key order. */
  lemma {:induction false} SortAscending<T>(items: seq<(string, T)>)
    requires KeysDistinct(items)
    ensures Ascending(SortItems(items))
  {
    if items != [] {
      forall i, j | 0 <= i < j < |items[1..]| ensures items[1..][i].0 != items[1..][j].0 {
        assert items[1..][i] == items[i + 1] && items[1..][j] == items[j + 1];
      }
      SortAscending(items[1..]);
      SortPermutes(items[1..]);
      forall y | y in SortItems(items[1..]) ensures y.0 != items[0].0 {
        SameMembers(SortItems(items[1..]), items[1..], y);
        var k :| 0 <= k < |items[1..]| && items[1..][k] == y;
        assert items[k + 1] == y;
      }
      InsertAscending(items[0], SortItems(items[1..]));
    }
  }

  /** So the earlier of two sorted keys has, at the first UTF-16 code unit where they differ, the
      smaller unit, or ends there. */
  lemma SortedByUnits<T>(items: seq<(string, T)>, i: nat, j: nat)
    requires KeysDistinct(items) && i < j < |items|
    ensures |SortItems(items)| == |items| && UnitsBelow(SortItems(items)[i].0, SortItems(items)[j].0)
  {
    hide SortItems, UnitsBelow, LexLess;
    SortAscending(items);
    SortPermutes(items);
    var a, b := SortItems(items)[i].0, SortItems(items)[j].0;
    assert Less(a, b);
    LexLessExactly(Utf16.Key(Utf16.Points(a)), Utf16.Key(Utf16.Points(b)));
    assert UnitsBelow(a, b) by { UnitsSaid(a, b); }
  }

  lemma UnitsSaid(s: string, t: string)
    requires FirstDiffersBelow(Utf16.Key(Utf16.Points(s)), Utf16.Key(Utf16.Points(t)))
    ensures UnitsBelow(s, t)
  {}

  lemma AscendingHead<T>(a: seq<(string, T)>, b: seq<(string, T)>)
    requires Ascending(a) && Ascending(b) && a != [] && b != []
    requires a[0] in b && b[0] in a
    ensures a[0] == b[0]
  {
    var j :| 0 <= j < |b| && b[j] == a[0];
    var i :| 0 <= i < |a| && a[i] == b[0];
    if i > 0 && j > 0 {
      assert Less(a[0].0, a[i].0) && Less(b[0].0, b[j].0);
      LessTotal(a[0].0, b[0].0);
      assert false;
    }
  }

  lemma TailMultiset<X>(s: seq<X>)
    requires s != []
    ensures multiset(s[1..]) == multiset(s) - multiset{s[0]}
  {
    assert s == [s[0]] + s[1..];
  }

  lemma AscendingTail<T>(a: seq<(string, T)>)
    requires Ascending(a) && a != []
    ensures Ascending(a[1..])
    ensures forall x :: x in a[1..] <==> x in a && x != a[0]
  {
    forall x | x in a && x != a[0] ensures x in a[1..] {
      var i :| 0 <= i < |a| && a[i] == x;
      assert a[1..][i - 1] == x;
    }
    forall i | 0 <= i < |a[1..]| ensures a[1..][i] != a[0] {
      LessTotal(a[0].0, a[i + 1].0);
    }
  }

  /** Two ascending lists with the same members are the same list. */
  lemma {:induction false} AscendingUnique<T>(a: seq<(string, T)>, b: seq<(string, T)>)
    requires Ascending(a) && Ascending(b)
    requires forall x :: x in a <==> x in b
    ensures a == b
    decreases |a|
  {
    assert a != [] ==> a[0] in b;
    assert b != [] ==> b[0] in a;
    if a != [] {
      AscendingHead(a, b);
      AscendingTail(a);
      AscendingTail(b);
      AscendingUnique(a[1..], b[1..]);
      assert a == [a[0]] + a[1..] && b == [b[0]] + b[1..];
    }
  }

  /** The sorted list does not depend on insertion order, and is the only ascending arrangement. */
  lemma SortUnique<T>(items: seq<(string, T)>, other: seq<(string, T)>)
    requires KeysDistinct(items) && multiset(items) == multiset(other)
    ensures SortItems(other) == SortItems(items)
    ensures Ascending(other) ==> other == SortItems(items)
  {
    SortPermutes(items);
    SortPermutes(other);
    SortAscending(items);
    PermutedKeysDistinct(items, other);
    SortAscending(other);
    forall x ensures x in SortItems(items) <==> x in other { SameMembers(SortItems(items), other, x); }
    forall x ensures x in SortItems(other) <==> x in other { SameMembers(SortItems(other), other, x); }
    AscendingUnique(SortItems(other), SortItems(items));
    if Ascending(other) { AscendingUnique(other, SortItems(items)); }
  }

  lemma RemoveAt<T>(items: seq<(string, T)>, p: nat) returns (rest: seq<(string, T)>)
    requires p < |items| && KeysDistinct(items)
    ensures KeysDistinct(rest) && multiset(rest) == multiset(items) - multiset{items[p]}
    ensures forall y :: y in rest ==> y.0 != items[p].0
  {
    rest := items[..p] + items[p + 1..];
    assert items == items[..p] + [items[p]] + items[p + 1..];
    assert forall k :: 0 <= k < |rest| ==> rest[k] == items[if k < p then k else k + 1];
  }

  lemma {:induction false} PermutedKeysDistinct<T>(items: seq<(string, T)>, other: seq<(string, T)>)
    requires KeysDistinct(items) && multiset(items) == multiset(other)
    ensures KeysDistinct(other)
    decreases |other|
  {
    if other != [] {
      SameMembers(items, other, other[0]);
      var p :| 0 <= p < |items| && items[p] == other[0];
      var rest := RemoveAt(items, p);
      TailMultiset(other);
      PermutedKeysDistinct(rest, other[1..]);
      forall i, j | 0 <= i < j < |other| ensures other[i].0 != other[j].0 {
        assert other[j] == other[1..][j - 1];
        if i == 0 {
          SameMembers(rest, other[1..], other[j]);
        } else {
          assert other[i] == other[1..][i - 1];
        }
      }
    }
  }
}
