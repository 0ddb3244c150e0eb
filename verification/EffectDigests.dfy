/** The two digests a reconciliation carries: of the intended effects and of the observed ones. */
module EffectDigests {
  import opened Prelude
  import opened Canonical
  import opened Digests
  import opened KeyOrder
  import opened RoundTrip

  /** A dict as a list of items, in some order. */
  ghost function MapItems(m: map<string, Json>): seq<(string, Json)> {
    if m == map[] then []
    else
      var k :| k in m;
      [(k, m[k])] + MapItems(m - {k})
  }

  /** The list holds the items of the map, each once. */
  ghost predicate Lists(items: seq<(string, Json)>, m: map<string, Json>) {
    KeysDistinct(items) && forall x :: x in items <==> x.0 in m && x.1 == m[x.0]
  }

  lemma ListsCons(rest: seq<(string, Json)>, m: map<string, Json>, k: string)
    requires k in m && Lists(rest, m - {k})
    ensures Lists([(k, m[k])] + rest, m)
  {
    var items := [(k, m[k])] + rest;
    forall i, j | 0 <= i < j < |items| ensures items[i].0 != items[j].0 {
      assert items[j] == rest[j - 1] && rest[j - 1] in rest;
      if i > 0 { assert items[i] == rest[i - 1]; }
    }
  }

  lemma {:induction false} MapItemsList(m: map<string, Json>)
    ensures Lists(MapItems(m), m)
    decreases |m|
  {
    hide Lists;
    if m == map[] {
      NoneListed();
    } else {
      var k :| k in m && MapItems(m) == [(k, m[k])] + MapItems(m - {k});
      MapItemsList(m - {k});
      ListsCons(MapItems(m - {k}), m, k);
    }
  }

  lemma NoneListed()
    ensures Lists([], map[])
  {}

  /** However a dict is listed, it has one canonical text. */
  lemma AnyListing(items: seq<(string, Json)>, m: map<string, Json>)
    requires Lists(items, m)
    ensures Canon(Obj(items)) == Canon(Obj(MapItems(m)))
  {
    MapItemsList(m);
    var other := MapItems(m);
    hide Canon, MapItems, SortItems;
    SameMembersSorted(items, other);
    CanonObject(items);
    CanonObject(other);
    CanonMembersParent(SortItems(items), Obj(items), Obj(other));
  }

  /** `canonical.digest_hex(intended_map)`. */
  ghost function IntendedDigest(sha: string -> string, intended: map<string, Json>): Option<string> {
    DigestHex(sha, Obj(MapItems(intended)))
  }

  function Hex(sha: string -> string, j: Json): Json { Str(DigestHex(sha, j).GetOr("")) }

  function HexMap(sha: string -> string, effects: map<string, Json>): map<string, Json> {
    map k | k in effects :: Hex(sha, effects[k])
  }

  function HexList(sha: string -> string, effects: seq<Json>): (r: seq<Json>)
    ensures |r| == |effects|
  {
    seq(|effects|, i requires 0 <= i < |effects| => Hex(sha, effects[i]))
  }

  /** The dict of effect digests by receipt digest, and the digests of the effects without a receipt. */
  function ObservedDict(items: seq<(string, Json)>, unmatched: seq<Json>): Json {
    Obj([("effects", Obj(items)), ("unmatched", Arr(unmatched))])
  }

  ghost function ObservedDigest(sha: string -> string, effects: map<string, Json>,
                                unmatched: seq<Json>): Option<string> {
    DigestHex(sha, ObservedDict(MapItems(HexMap(sha, effects)), HexList(sha, unmatched)))
  }

  lemma AnyObservedListing(items: seq<(string, Json)>, m: map<string, Json>, unmatched: seq<Json>)
    requires Lists(items, m)
    ensures Canon(ObservedDict(items, unmatched)) == Canon(ObservedDict(MapItems(m), unmatched))
  {
    AnyListing(items, m);
    hide Canon, SortItems, CanonMembers, MapItems;
    var a := [("effects", Obj(items)), ("unmatched", Arr(unmatched))];
    var b := [("effects", Obj(MapItems(m))), ("unmatched", Arr(unmatched))];
    PairSorted(Obj(items), Arr(unmatched));
    PairSorted(Obj(MapItems(m)), Arr(unmatched));
    CanonObject(a);
    CanonObject(b);
    PairMembers(a, b, Obj(a), Obj(b));
  }

  lemma PairSorted(x: Json, y: Json)
    ensures SortItems([("effects", x), ("unmatched", y)]) == [("effects", x), ("unmatched", y)]
  {
    var a := [("effects", x), ("unmatched", y)];
    EffectsFirst();
    hide Less, SortItems;
    assert Ascending(a);
    SortAscending(a);
    SortPermutes(a);
    AscendingUnique(SortItems(a), a);
  }

  /** The text the observed digest is over. */
  lemma ObservedSpelled(items: seq<(string, Json)>, unmatched: seq<Json>)
    requires Canon(Obj(items)).Some? && Canon(Arr(unmatched)).Some?
    ensures Canon(ObservedDict(items, unmatched)) ==
      Some("{" + Join([MemberText("effects", Canon(Obj(items)).value),
                       MemberText("unmatched", Canon(Arr(unmatched)).value)]) + "}")
  {
    EffectsFirst();
    hide Canon, Less, Join, MemberText, SortItems;
    CanonTwo(("effects", Obj(items)), ("unmatched", Arr(unmatched)));
  }

  lemma EffectsFirst()
    ensures Less("effects", "unmatched")
  {
    assert "effects"[0] == 'e' && "unmatched"[0] == 'u';
  }

  lemma PairMembers(a: seq<(string, Json)>, b: seq<(string, Json)>, p: Json, q: Json)
    requires |a| == |b| == 2 && a[0].0 == b[0].0 && a[1] == b[1] && Canon(a[0].1) == Canon(b[0].1)
    requires forall i :: 0 <= i < 2 ==> a[i].1 < p && b[i].1 < q
    ensures CanonMembers(a, p) == CanonMembers(b, q)
  {
    hide Canon;
    assert a[1..] == b[1..];
    CanonMembersParent(a[1..], p, q);
  }

  /** `digest_hex` of a dict of effects exists exactly when they are all JSON values. */
  ghost predicate AllJson(m: map<string, Json>) { forall k :: k in m ==> Printable(m[k]) }

  ghost predicate AllWellFormed(m: map<string, Json>) { forall k :: k in m ==> WellFormed(m[k]) }

  lemma MapItemsPrint(m: map<string, Json>)
    ensures Printable(Obj(MapItems(m))) <==> AllJson(m)
    ensures WellFormed(Obj(MapItems(m))) <==> AllWellFormed(m)
  {
    hide Printable, WellFormed, MapItems;
    MapItemsList(m);
    var items := MapItems(m);
    assert Printable(Obj(items)) <==> forall i :: 0 <= i < |items| ==> Printable(items[i].1) by { ObjPrintable(items); }
    assert WellFormed(Obj(items)) <==>
      KeysDistinct(items) && forall i :: 0 <= i < |items| ==> WellFormed(items[i].1) by {
      ObjWellFormed(items);
    }
    forall k | k in m ensures (k, m[k]) in items {}
    assert forall i :: 0 <= i < |items| ==> items[i] in items;
  }

  lemma ObjPrintable(items: seq<(string, Json)>)
    ensures Printable(Obj(items)) <==> forall i :: 0 <= i < |items| ==> Printable(items[i].1)
  {}

  lemma ObjWellFormed(items: seq<(string, Json)>)
    ensures WellFormed(Obj(items)) <==> KeysDistinct(items) && forall i :: 0 <= i < |items| ==> WellFormed(items[i].1)
  {}

  /** Effects that mean the same under the same names. */
  ghost predicate SameEffects(a: map<string, Json>, b: map<string, Json>) {
    && a.Keys == b.Keys && AllJson(a) && AllJson(b)
    && forall k :: k in a ==> Meaning(a[k]) == Meaning(b[k])
  }

  lemma MeaningOfMaps(a: map<string, Json>, b: map<string, Json>)
    requires AllJson(a) && AllJson(b) && AllWellFormed(a) && AllWellFormed(b)
    requires Printable(Obj(MapItems(a))) && Printable(Obj(MapItems(b)))
    requires WellFormed(Obj(MapItems(a))) && WellFormed(Obj(MapItems(b)))
    requires Meaning(Obj(MapItems(a))) == Meaning(Obj(MapItems(b)))
    ensures SameEffects(a, b)
  {
    hide Meaning, MapItems, WellFormed, Printable;
    MapItemsList(a);
    MapItemsList(b);
    forall k | k in a ensures k in b && Meaning(a[k]) == Meaning(b[k]) { KeyOfBoth(a, b, k); }
    forall k | k in b ensures k in a { KeyOfBoth(b, a, k); }
  }

  lemma KeyOfBoth(a: map<string, Json>, b: map<string, Json>, k: string)
    requires AllJson(a) && AllJson(b) && k in a && Lists(MapItems(a), a) && Lists(MapItems(b), b)
    requires Printable(Obj(MapItems(a))) && Printable(Obj(MapItems(b)))
    requires WellFormed(Obj(MapItems(a))) && WellFormed(Obj(MapItems(b)))
    requires Meaning(Obj(MapItems(a))) == Meaning(Obj(MapItems(b)))
    ensures k in b && Meaning(a[k]) == Meaning(b[k])
  {
    hide Meaning, MapItems, WellFormed, Printable;
    var x, y := MapItems(a), MapItems(b);
    assert (k, a[k]) in x;
    var i :| 0 <= i < |x| && x[i] == (k, a[k]);
    var j := SameMeaningSameKey(x, y, i);
    assert y[j] in y;
  }

  /** The intended digest pins every intended effect. */
  lemma IntendedPins(sha: string -> string, a: map<string, Json>, b: map<string, Json>)
    requires CollisionFree(sha) && AllWellFormed(a) && AllWellFormed(b)
    requires IntendedDigest(sha, a).Some? && IntendedDigest(sha, a) == IntendedDigest(sha, b)
    ensures SameEffects(a, b)
  {
    hide Meaning, MapItems, WellFormed, Printable, DigestHex;
    MapItemsPrint(a);
    MapItemsPrint(b);
    DigestInjective(sha, Obj(MapItems(a)), Obj(MapItems(b)));
    MeaningOfMaps(a, b);
  }

  lemma Hexes(sha: string -> string, effects: map<string, Json>, unmatched: seq<Json>)
    ensures AllJson(HexMap(sha, effects)) && AllWellFormed(HexMap(sha, effects))
    ensures Printable(ObservedDict(MapItems(HexMap(sha, effects)), HexList(sha, unmatched)))
    ensures WellFormed(ObservedDict(MapItems(HexMap(sha, effects)), HexList(sha, unmatched)))
  {
    var m := HexMap(sha, effects);
    forall k | k in m ensures Printable(m[k]) && WellFormed(m[k]) {}
    MapItemsPrint(m);
    hide MapItems, Hex;
    assert |"effects"| == 7 && |"unmatched"| == 9;
    forall i | 0 <= i < |unmatched|
      ensures Printable(HexList(sha, unmatched)[i]) && WellFormed(HexList(sha, unmatched)[i])
    {
      HexIsStr(sha, unmatched[i]);
    }
  }

  lemma HexIsStr(sha: string -> string, j: Json)
    ensures Hex(sha, j).Str? && Printable(Hex(sha, j)) && WellFormed(Hex(sha, j))
  {}

  /** Equal hex texts of two JSON values stand for one value. */
  lemma HexPins(sha: string -> string, a: Json, b: Json)
    requires CollisionFree(sha) && WellFormed(a) && WellFormed(b) && Printable(a) && Printable(b)
    requires Printable(Hex(sha, a)) && Printable(Hex(sha, b)) && Meaning(Hex(sha, a)) == Meaning(Hex(sha, b))
    ensures Meaning(a) == Meaning(b)
  {
    CanonSome(a);
    CanonSome(b);
    assert DigestHex(sha, a) == DigestHex(sha, b);
    DigestInjective(sha, a, b);
  }

  lemma ObservedParts(items: seq<(string, Json)>, list: seq<Json>, items': seq<(string, Json)>, list': seq<Json>)
    requires Printable(ObservedDict(items, list)) && Printable(ObservedDict(items', list'))
    requires WellFormed(ObservedDict(items, list)) && WellFormed(ObservedDict(items', list'))
    requires Meaning(ObservedDict(items, list)) == Meaning(ObservedDict(items', list'))
    ensures Printable(Obj(items)) && Printable(Obj(items')) && WellFormed(Obj(items)) && WellFormed(Obj(items'))
    ensures Printable(Arr(list)) && Printable(Arr(list'))
    ensures Meaning(Obj(items)) == Meaning(Obj(items')) && Meaning(Arr(list)) == Meaning(Arr(list'))
  {
    var a := [("effects", Obj(items)), ("unmatched", Arr(list))];
    var b := [("effects", Obj(items')), ("unmatched", Arr(list'))];
    assert |"effects"| == 7 && |"unmatched"| == 9;
    assert Printable(a[0].1) && Printable(a[1].1) && Printable(b[0].1) && Printable(b[1].1);
    assert WellFormed(a[0].1) && WellFormed(b[0].1);
    hide Meaning, WellFormed, Printable;
    var i := SameMeaningSameKey(a, b, 0);
    var j := SameMeaningSameKey(a, b, 1);
  }

  lemma ListParts(a: seq<Json>, b: seq<Json>)
    requires Printable(Arr(a)) && Printable(Arr(b)) && Meaning(Arr(a)) == Meaning(Arr(b))
    ensures |a| == |b| && forall i :: 0 <= i < |a| ==>
      Printable(a[i]) && Printable(b[i]) && Meaning(a[i]) == Meaning(b[i])
  {
    assert MeaningAll(a) == MeaningAll(b);
    forall i | 0 <= i < |a| ensures Meaning(a[i]) == Meaning(b[i]) {
      assert MeaningAll(a)[i] == MeaningAll(b)[i];
    }
  }

  /** Effects without a receipt that mean the same, in order. */
  ghost predicate SameList(a: seq<Json>, b: seq<Json>) {
    |a| == |b| && forall i :: 0 <= i < |a| ==> Printable(a[i]) && Printable(b[i]) && Meaning(a[i]) == Meaning(b[i])
  }

  ghost predicate JsonList(a: seq<Json>) { forall i :: 0 <= i < |a| ==> Printable(a[i]) && WellFormed(a[i]) }

  /** The observed digest pins under which receipts effects were seen, every such effect, and the
      effects without a receipt in order. */
  lemma ObservedPins(sha: string -> string, a: map<string, Json>, unmatched: seq<Json>, b: map<string, Json>,
                     unmatched': seq<Json>)
    requires CollisionFree(sha) && AllWellFormed(a) && AllWellFormed(b) && AllJson(a) && AllJson(b)
    requires JsonList(unmatched) && JsonList(unmatched')
    requires ObservedDigest(sha, a, unmatched) == ObservedDigest(sha, b, unmatched')
    ensures SameEffects(a, b) && SameList(unmatched, unmatched')
  {
    hide Meaning, MapItems, WellFormed, Printable, DigestHex, Hex, ObservedDict;
    Hexes(sha, a, unmatched);
    Hexes(sha, b, unmatched');
    var x, y := MapItems(HexMap(sha, a)), MapItems(HexMap(sha, b));
    var xs, ys := HexList(sha, unmatched), HexList(sha, unmatched');
    DigestSome(sha, ObservedDict(x, xs));
    DigestInjective(sha, ObservedDict(x, xs), ObservedDict(y, ys));
    ObservedParts(x, xs, y, ys);
    MeaningOfMaps(HexMap(sha, a), HexMap(sha, b));
    ListParts(xs, ys);
    assert a.Keys == HexMap(sha, a).Keys && b.Keys == HexMap(sha, b).Keys;
    forall k | k in a ensures Meaning(a[k]) == Meaning(b[k]) {
      assert k in HexMap(sha, a) && k in HexMap(sha, b);
      HexPins(sha, a[k], b[k]);
    }
    forall i | 0 <= i < |unmatched| ensures Meaning(unmatched[i]) == Meaning(unmatched'[i]) {
      assert Meaning(xs[i]) == Meaning(ys[i]);
      HexPins(sha, unmatched[i], unmatched'[i]);
    }
  }

  lemma DigestSome(sha: string -> string, j: Json)
    requires Printable(j)
    ensures DigestHex(sha, j).Some?
  {
    CanonSome(j);
  }
}
