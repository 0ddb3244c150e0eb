/** `wire/chain.py`: receipts linked by the digest of their predecessor. */
module Chain {
  import opened Prelude
  import opened Wire
  import opened Verification
  import opened NonceStores

  /** Element i is a dict that names the digest of its predecessor, or, in front, the anchor. */
  predicate LinkOk(codec: Codec, receipts: seq<Item>, anchor: Option<string>, i: nat)
    requires i < |receipts|
  {
    receipts[i].Dict? &&
    var prev := PrevOf(receipts[i].obj.subject.body);
    if i == 0 then prev == anchor
    else prev.Some? && receipts[i - 1].Dict? && prev == Digest(codec, receipts[i - 1].obj.subject)
  }

  predicate Linked(codec: Codec, receipts: seq<Item>, anchor: Option<string>) {
    receipts != [] && forall i :: 0 <= i < |receipts| ==> receipts[i].Dict? && LinkOk(codec, receipts, anchor, i)
  }

  /** What an accepted chain is: linked, and every element verifies. */
  predicate ChainOk(env: Env, receipts: seq<Item>, t: WireType, now: int, anchor: Option<string>) {
    Linked(env.codec, receipts, anchor) && forall i :: 0 <= i < |receipts| ==> VerifiedItem(env, receipts[i], t, now)
  }

  // ---- the links, said of the fields ----

  /** The object's own link field holds this digest. */
  predicate NamesPrev(b: Body, digest: string) {
    || (b.StageReceipt? && b.stagePrev == Some(digest)) || (b.ToolReceipt? && b.toolPrev == Some(digest))
    || (b.Discharge? && b.dischargePrev == Some(digest)) || (b.Certificate? && b.certPrev == Some(digest))
  }

  /** It has no link field, or an empty one. */
  predicate NamesNothing(b: Body) {
    && (b.StageReceipt? ==> b.stagePrev.None?) && (b.ToolReceipt? ==> b.toolPrev.None?)
    && (b.Discharge? ==> b.dischargePrev.None?) && (b.Certificate? ==> b.certPrev.None?)
  }

  lemma PrevExactly(b: Body)
    ensures forall d :: NamesPrev(b, d) <==> PrevOf(b) == Some(d)
    ensures NamesNothing(b) <==> PrevOf(b).None?
  {}

  /** The successor holds the digest of its predecessor in its link field. */
  predicate Follows(codec: Codec, before: Item, after: Item) {
    && before.Dict? && after.Dict? && codec.digest(before.obj.subject).Some?
    && NamesPrev(after.obj.subject.body, codec.digest(before.obj.subject).value)
  }

  /** The first holds the anchor, or nothing where there is none, and each other one follows the one
      before it. */
  predicate WellLinked(codec: Codec, receipts: seq<Item>, anchor: Option<string>) {
    && |receipts| > 0 && receipts[0].Dict?
    && (if anchor.Some? then NamesPrev(receipts[0].obj.subject.body, anchor.value)
        else NamesNothing(receipts[0].obj.subject.body))
    && forall i :: 0 < i < |receipts| ==> Follows(codec, receipts[i - 1], receipts[i])
  }

  lemma LinkedExactly(codec: Codec, receipts: seq<Item>, anchor: Option<string>)
    ensures Linked(codec, receipts, anchor) <==> WellLinked(codec, receipts, anchor)
  {
    hide LinkOk, Follows, NamesPrev, NamesNothing;
    if |receipts| > 0 && receipts[0].Dict? { FirstExactly(codec, receipts, anchor); }
    forall i | 0 < i < |receipts|
      ensures Follows(codec, receipts[i - 1], receipts[i]) <==> LinkOk(codec, receipts, anchor, i)
      ensures Follows(codec, receipts[i - 1], receipts[i]) ==> receipts[i].Dict?
    {
      LaterExactly(codec, receipts, anchor, i);
    }
    if WellLinked(codec, receipts, anchor) {
      forall i | 0 <= i < |receipts| ensures receipts[i].Dict? && LinkOk(codec, receipts, anchor, i) {
        if i > 0 { assert Follows(codec, receipts[i - 1], receipts[i]); }
      }
    }
    if Linked(codec, receipts, anchor) {
      assert LinkOk(codec, receipts, anchor, 0);
      forall i | 0 < i < |receipts| ensures Follows(codec, receipts[i - 1], receipts[i]) {
        assert LinkOk(codec, receipts, anchor, i);
      }
    }
  }

  /** A chain is accepted exactly when it is well linked and every element is a verified object of the
      type. */
  lemma ChainExactly(env: Env, receipts: seq<Item>, t: WireType, now: int, anchor: Option<string>)
    ensures ChainOk(env, receipts, t, now, anchor) <==>
      && WellLinked(env.codec, receipts, anchor)
      && forall i :: 0 <= i < |receipts| ==> receipts[i].Dict? && Verified(env, receipts[i].obj, t, now)
  {
    LinkedExactly(env.codec, receipts, anchor);
    hide Verified, Linked, WellLinked;
  }

  lemma FirstExactly(codec: Codec, receipts: seq<Item>, anchor: Option<string>)
    requires |receipts| > 0 && receipts[0].Dict?
    ensures LinkOk(codec, receipts, anchor, 0) <==>
      if anchor.Some? then NamesPrev(receipts[0].obj.subject.body, anchor.value)
      else NamesNothing(receipts[0].obj.subject.body)
  {
    PrevExactly(receipts[0].obj.subject.body);
    hide PrevOf, NamesPrev, NamesNothing;
  }

  lemma LaterExactly(codec: Codec, receipts: seq<Item>, anchor: Option<string>, i: nat)
    requires 0 < i < |receipts|
    ensures Follows(codec, receipts[i - 1], receipts[i]) <==> LinkOk(codec, receipts, anchor, i)
    ensures Follows(codec, receipts[i - 1], receipts[i]) ==> receipts[i].Dict?
  {
    if receipts[i].Dict? { PrevExactly(receipts[i].obj.subject.body); }
    hide PrevOf, NamesPrev, NamesNothing;
  }

  // ---- the optional replay check ----

  /** The nonce store after a chain: each element that verifies under a nonce not seen records it,
      whatever becomes of the rest of the chain. */
  function AfterChain(env: Env, receipts: seq<Item>, t: WireType, now: int, s: StoreState): StoreState {
    if receipts == [] then s
    else
      var before, last := AfterChain(env, receipts[..|receipts| - 1], t, now, s), receipts[|receipts| - 1];
      if VerifiedItem(env, last, t, now) && !SeenIn(before, NonceOf(last.obj.subject)) then
        Recorded(before, NonceOf(last.obj.subject))
      else before
  }

  /** No element's nonce was seen before it, in the store or earlier in the chain. */
  predicate AllFresh(env: Env, receipts: seq<Item>, t: WireType, now: int, s: StoreState) {
    forall i :: 0 <= i < |receipts| ==> FreshAt(env, receipts, t, now, s, i)
  }

  predicate FreshAt(env: Env, receipts: seq<Item>, t: WireType, now: int, s: StoreState, i: nat)
    requires i < |receipts|
  {
    receipts[i].Dict? && !SeenIn(AfterChain(env, receipts[..i], t, now, s), NonceOf(receipts[i].obj.subject))
  }

  /** Element i is linked, verifies and, where nonces are checked, is new. */
  predicate Passes(env: Env, receipts: seq<Item>, t: WireType, now: int, anchor: Option<string>, replay: bool,
                   s: StoreState, i: nat)
    requires i < |receipts|
  {
    LinkOk(env.codec, receipts, anchor, i) && VerifiedItem(env, receipts[i], t, now)
    && (replay ==> FreshAt(env, receipts, t, now, s, i))
  }

  lemma AfterSnoc(env: Env, receipts: seq<Item>, t: WireType, now: int, s: StoreState, i: nat)
    requires i < |receipts|
    ensures var before, item := AfterChain(env, receipts[..i], t, now, s), receipts[i];
      AfterChain(env, receipts[..i + 1], t, now, s) ==
        if VerifiedItem(env, item, t, now) && !SeenIn(before, NonceOf(item.obj.subject))
        then Recorded(before, NonceOf(item.obj.subject)) else before
  {
    hide VerifiedItem, SeenIn, Recorded;
    assert receipts[..i + 1][..i] == receipts[..i];
  }

  /** `verify_chain`: one pass carrying the digest of the object just seen, and recording nonces
      where there is a store. */
  method VerifyChain(env: Env, receipts: seq<Item>, t: WireType, now: int, anchor: Option<string>, store: Option<Store>)
      returns (ok: bool)
    modifies if store.Some? then store.value.Objects() else {}
    ensures store.None? ==> (ok <==> ChainOk(env, receipts, t, now, anchor))
    ensures store.Some? ==>
      (ok <==> ChainOk(env, receipts, t, now, anchor) && AllFresh(env, receipts, t, now, old(store.value.State())))
    ensures store.Some? ==> store.value.State() == AfterChain(env, receipts, t, now, old(store.value.State()))
  {
    hide Verified, Digest, PrevOf, SeenIn, Recorded, AfterChain, Intact, NotRevoked, ChainOk, AllFresh;
    ghost var start := if store.Some? then store.value.State() else InMemory({}, {});
    if receipts == [] {
      AfterNone(env, t, now, start);
      EmptyRejected(env, t, now, anchor);
      return false;
    }
    var errors := 0;
    var prior := anchor;
    AfterNone(env, t, now, start);
    assert receipts[..0] == [];
    for i := 0 to |receipts|
      invariant errors >= 0
      invariant errors == 0 <==> forall j :: 0 <= j < i ==> Passes(env, receipts, t, now, anchor, store.Some?, start, j)
      invariant errors == 0 ==> forall j :: 0 <= j < i ==> receipts[j].Dict?
      invariant errors == 0 ==> prior == if i == 0 then anchor else Digest(env.codec, receipts[i - 1].obj.subject)
      invariant store.Some? ==> store.value.State() == AfterChain(env, receipts[..i], t, now, start)
    {
      ghost var before := errors;
      AfterSnoc(env, receipts, t, now, start, i);
      if receipts[i].NotADict? {
        errors := errors + 1;
        prior := None;
      } else {
        var o := receipts[i].obj;
        var verified := Verify(env, o, t, now, "human", true, store);
        if !verified { errors := errors + 1; }
        var claimed := PrevOf(o.subject.body);
        if i == 0 {
          if claimed != prior { errors := errors + 1; }
        } else if claimed.None? {
          errors := errors + 1;
        } else if claimed != prior {
          errors := errors + 1;
        }
        prior := Digest(env.codec, o.subject);
      }
      assert before == 0 ==> (errors == 0 <==> Passes(env, receipts, t, now, anchor, store.Some?, start, i));
    }
    assert receipts[..|receipts|] == receipts;
    ChainPasses(env, receipts, t, now, anchor, store.Some?, start);
    return errors == 0;
  }

  lemma ChainPasses(env: Env, receipts: seq<Item>, t: WireType, now: int, anchor: Option<string>, replay: bool,
                    s: StoreState)
    requires receipts != []
    ensures (forall i :: 0 <= i < |receipts| ==> Passes(env, receipts, t, now, anchor, replay, s, i))
      <==> ChainOk(env, receipts, t, now, anchor) && (replay ==> AllFresh(env, receipts, t, now, s))
  {
    hide Verified, FreshAt, Digest, PrevOf;
    if forall i :: 0 <= i < |receipts| ==> Passes(env, receipts, t, now, anchor, replay, s, i) {
      forall i | 0 <= i < |receipts|
        ensures receipts[i].Dict? && LinkOk(env.codec, receipts, anchor, i) && VerifiedItem(env, receipts[i], t, now)
        ensures replay ==> FreshAt(env, receipts, t, now, s, i)
      {
        assert Passes(env, receipts, t, now, anchor, replay, s, i);
      }
    }
    if ChainOk(env, receipts, t, now, anchor) && (replay ==> AllFresh(env, receipts, t, now, s)) {
      forall i | 0 <= i < |receipts| ensures Passes(env, receipts, t, now, anchor, replay, s, i) {
        assert LinkOk(env.codec, receipts, anchor, i);
      }
    }
  }

  lemma EmptyRejected(env: Env, t: WireType, now: int, anchor: Option<string>)
    ensures !ChainOk(env, [], t, now, anchor)
  {}

  lemma AfterNone(env: Env, t: WireType, now: int, s: StoreState)
    ensures AfterChain(env, [], t, now, s) == s
  {}

  /** The nonces of a list of dicts. */
  function Nonces(receipts: seq<Item>): (r: seq<Pair>)
    requires forall i :: 0 <= i < |receipts| ==> receipts[i].Dict?
    ensures |r| == |receipts|
  {
    seq(|receipts|, i requires 0 <= i < |receipts| => NonceOf(receipts[i].obj.subject))
  }

  /** One of the first i pairs takes p's place in the store. */
  predicate SlotTaken(s: StoreState, ps: seq<Pair>, i: nat, p: Pair)
    requires i <= |ps|
  {
    exists j :: 0 <= j < i && SameSlot(s, p, ps[j])
  }

  lemma {:induction false} FreshRecords(env: Env, receipts: seq<Item>, t: WireType, now: int, s: StoreState, i: nat,
                                        p: Pair)
    requires i <= |receipts|
    requires forall j :: 0 <= j < |receipts| ==> receipts[j].Dict? && VerifiedItem(env, receipts[j], t, now)
    ensures var after := AfterChain(env, receipts[..i], t, now, s);
      && (SeenIn(after, p) <==> SeenIn(s, p) || SlotTaken(s, Nonces(receipts), i, p))
      && forall x, y :: SameSlot(after, x, y) == SameSlot(s, x, y)
    decreases i
  {
    hide VerifiedItem, AfterChain, SameSlot, SeenIn, Recorded;
    AfterNone(env, t, now, s);
    if i == 0 {
      assert receipts[..0] == [];
    } else {
      AfterSnoc(env, receipts, t, now, s, i - 1);
      FreshRecords(env, receipts, t, now, s, i - 1, p);
      SlotRecorded(AfterChain(env, receipts[..i - 1], t, now, s), p, Nonces(receipts)[i - 1]);
    }
  }

  /** The replay check on a chain whose elements verify: none of its nonces is seen by the store, and
      no two take one place in it, which in memory is to be equal and on disk to have one marker. */
  lemma FreshExactly(env: Env, receipts: seq<Item>, t: WireType, now: int, s: StoreState)
    requires forall j :: 0 <= j < |receipts| ==> receipts[j].Dict? && VerifiedItem(env, receipts[j], t, now)
    ensures AllFresh(env, receipts, t, now, s) <==>
      && (forall i :: 0 <= i < |receipts| ==> !SeenIn(s, Nonces(receipts)[i]))
      && (forall i, j :: 0 <= i < j < |receipts| ==> !SameSlot(s, Nonces(receipts)[j], Nonces(receipts)[i]))
  {
    hide VerifiedItem, AfterChain, SameSlot, SeenIn;
    var ps := Nonces(receipts);
    forall i | 0 <= i < |receipts|
      ensures FreshAt(env, receipts, t, now, s, i) <==> !SeenIn(s, ps[i]) && !SlotTaken(s, ps, i, ps[i])
    {
      FreshRecords(env, receipts, t, now, s, i, ps[i]);
    }
    if AllFresh(env, receipts, t, now, s) {
      forall i, j | 0 <= i < j < |ps| ensures !SameSlot(s, ps[j], ps[i]) {
        assert FreshAt(env, receipts, t, now, s, j);
      }
    }
  }

  function Subjects(receipts: seq<Item>): (r: seq<Subject>)
    requires forall i :: 0 <= i < |receipts| ==> receipts[i].Dict?
    ensures |r| == |receipts|
  {
    seq(|receipts|, i requires 0 <= i < |receipts| => receipts[i].obj.subject)
  }

  /** Equal last subjects make linked lists agree backwards, link by link. */
  lemma {:induction false} BackFromLast(codec: Codec, a: seq<Item>, b: seq<Item>, g: Option<string>, h: Option<string>,
                                        d: nat)
    requires Sound(codec) && Linked(codec, a, g) && Linked(codec, b, h)
    requires a[|a| - 1].obj.subject == b[|b| - 1].obj.subject
    requires d < |a| && d < |b|
    ensures a[|a| - 1 - d].obj.subject == b[|b| - 1 - d].obj.subject
  {
    hide PrevOf, Digest, Sound;
    if d > 0 {
      BackFromLast(codec, a, b, g, h, d - 1);
      assert LinkOk(codec, a, g, |a| - d) && LinkOk(codec, b, h, |b| - d);
      DigestPins(codec, a[|a| - d - 1].obj.subject, b[|b| - d - 1].obj.subject);
    }
  }

  lemma NotLonger(codec: Codec, a: seq<Item>, b: seq<Item>)
    requires Sound(codec) && Linked(codec, a, None) && Linked(codec, b, None)
    requires a[|a| - 1].obj.subject == b[|b| - 1].obj.subject
    ensures |b| <= |a|
  {
    hide PrevOf, Digest, Sound;
    if |a| < |b| {
      assert LinkOk(codec, a, None, 0) && LinkOk(codec, b, None, |b| - |a|);
      BackFromLast(codec, a, b, None, None, |a| - 1);
    }
  }

  predicate SameSubject(x: Item, y: Item) { x.Dict? && y.Dict? && x.obj.subject == y.obj.subject }

  /** A genesis-linked list is determined by its last element: two of them whose last elements
      have one subject agree in length and in every subject. */
  lemma LastFixesLinks(codec: Codec, a: seq<Item>, b: seq<Item>)
    requires Sound(codec) && Linked(codec, a, None) && Linked(codec, b, None)
    requires SameSubject(a[|a| - 1], b[|b| - 1])
    ensures |a| == |b| && forall i :: 0 <= i < |a| ==> SameSubject(a[i], b[i])
  {
    hide PrevOf, Digest, Sound;
    NotLonger(codec, a, b);
    NotLonger(codec, b, a);
    forall i | 0 <= i < |a| ensures SameSubject(a[i], b[i]) {
      BackFromLast(codec, a, b, None, None, |a| - 1 - i);
    }
  }

  /** So an accepted genesis chain is determined by its last element: a permutation, a removal or a
      substitution that keeps the last element is rejected, by every verifier at every time. */
  lemma LastFixesChain(env: Env, a: seq<Item>, t: WireType, now: int, late: Env, b: seq<Item>, u: WireType, at: int)
    requires Sound(env.codec) && late.codec == env.codec
    requires ChainOk(env, a, t, now, None) && b != [] && SameSubject(a[|a| - 1], b[|b| - 1])
    requires |a| != |b| || exists i :: 0 <= i < |a| && !SameSubject(a[i], b[i])
    ensures !ChainOk(late, b, u, at, None)
  {
    hide PrevOf, Digest, Sound, Verified, SameSubject, LinkOk;
    if ChainOk(late, b, u, at, None) { LastFixesLinks(env.codec, a, b); }
  }

  /** A prefix of an accepted chain is accepted: a dropped tail goes unnoticed. */
  lemma DroppedTailAccepted(env: Env, a: seq<Item>, t: WireType, now: int, anchor: Option<string>, k: nat)
    requires ChainOk(env, a, t, now, anchor) && 0 < k <= |a|
    ensures ChainOk(env, a[..k], t, now, anchor)
  {
    hide Verified;
    PrefixLinked(env.codec, a, anchor, k);
  }

  lemma PrefixLinked(codec: Codec, a: seq<Item>, anchor: Option<string>, k: nat)
    requires Linked(codec, a, anchor) && 0 < k <= |a|
    ensures Linked(codec, a[..k], anchor)
  {
    hide Digest, PrevOf;
    forall i | 0 <= i < k ensures LinkOk(codec, a[..k], anchor, i) { assert LinkOk(codec, a, anchor, i); }
  }

  lemma NoRepeat(codec: Codec, a: seq<Item>, i: nat, j: nat)
    requires Sound(codec) && Linked(codec, a, None)
    requires i < j < |a|
    ensures a[i].obj.subject != a[j].obj.subject
  {
    hide PrevOf, Digest, Sound, LinkOk;
    PrefixLinked(codec, a, None, i + 1);
    PrefixLinked(codec, a, None, j + 1);
    if a[i].obj.subject == a[j].obj.subject { NotLonger(codec, a[..i + 1], a[..j + 1]); }
  }

  /** The elements of an accepted genesis chain are pairwise distinct. */
  lemma ChainDistinct(env: Env, a: seq<Item>, t: WireType, now: int)
    requires Sound(env.codec) && ChainOk(env, a, t, now, None)
    ensures Distinct(Subjects(a))
  {
    hide Verified, PrevOf, Digest, Sound, LinkOk;
    forall i, j | 0 <= i < j < |Subjects(a)| ensures Subjects(a)[i] != Subjects(a)[j] {
      NoRepeat(env.codec, a, i, j);
    }
  }

  /** A chain is also accepted at every earlier time and with fewer revocations. */
  lemma ChainEarlier(early: Env, late: Env, a: seq<Item>, t: WireType, t1: int, t2: int, anchor: Option<string>)
    requires Later(early, late) && t1 <= t2 && ChainOk(late, a, t, t2, anchor)
    ensures ChainOk(early, a, t, t1, anchor)
  {
    hide Verified, LinkOk;
    forall i | 0 <= i < |a| ensures VerifiedItem(early, a[i], t, t1) {
      assert VerifiedItem(late, a[i], t, t2);
      VerifiedEarlier(early, late, a[i].obj, t, t1, t2, "human");
    }
  }
}
