/** `wire/reconciliation.py`: intended against observed effects. */
module Reconciling {
  import opened Prelude
  import opened Canonical
  import opened Digests
  import opened Wire
  import opened Verification
  import opened Executor
  import Utf16
  import K = KeyOrder
  import E = EffectDigests
  import RT = RoundTrip

  /** What the host saw: effects filed under receipt digests, and effects no receipt explains. */
  datatype Observed = Observed(effects: map<string, Json>, unmatched: seq<Json>)

  predicate ReceiptOk(env: Env, permit: Subject, item: Item, now: int)
    requires permit.body.Permit?
  {
    VerifiedItem(env, item, ToolReceiptType, now) && item.obj.subject.body.toolAction == permit.body.permitAction
  }

  predicate IsTool(item: Item) { item.Dict? && item.obj.subject.body.ToolReceipt? }

  lemma ReceiptOkIsTool(env: Env, permit: Subject, item: Item, now: int)
    requires permit.body.Permit? && ReceiptOk(env, permit, item, now)
    ensures IsTool(item) && Digest(env.codec, item.obj.subject) == Some(item.obj.subjectDigest)
  {}

  /** The host saw, under this receipt, exactly the effect the receipt reports; and where an effect
      was intended for the tool, the receipt reports that one. A JSON null counts as not seen. */
  predicate EffectMatches(env: Env, observed: Observed, intended: map<string, Json>, item: Item)
    requires IsTool(item)
  {
    var b := item.obj.subject.body;
    var d := Digest(env.codec, item.obj.subject);
    && d.Some? && d.value in observed.effects && !observed.effects[d.value].Null?
    && DigestHex(env.codec.sha, observed.effects[d.value]) == Some(b.effectDigest)
    && (b.tool in intended ==> DigestHex(env.codec.sha, intended[b.tool]) == Some(b.effectDigest))
  }

  /** The documented rule: some effect was observed for the receipt, and it is the reported one. */
  predicate DocumentedMatch(env: Env, observed: Observed, intended: map<string, Json>, item: Item)
    requires IsTool(item)
  {
    var b := item.obj.subject.body;
    var d := Digest(env.codec, item.obj.subject);
    && d.Some? && d.value in observed.effects
    && DigestHex(env.codec.sha, observed.effects[d.value]) == Some(b.effectDigest)
    && (b.tool in intended ==> DigestHex(env.codec.sha, intended[b.tool]) == Some(b.effectDigest))
  }

  /** A dict that verifies as a tool receipt and is about the permit's action. */
  predicate BoundReceipt(env: Env, permit: Subject, item: Item, now: int) {
    && item.Dict? && Verified(env, item.obj, ToolReceiptType, now) && item.obj.subject.body.ToolReceipt?
    && permit.body.Permit? && item.obj.subject.body.toolAction == permit.body.permitAction
  }

  lemma BoundExactly(env: Env, permit: Subject, item: Item, now: int)
    requires permit.body.Permit?
    ensures BoundReceipt(env, permit, item, now) <==> ReceiptOk(env, permit, item, now)
  {}

  /** Some receipt reports this tool. */
  predicate Served(receipts: seq<Item>, tool: string) {
    exists i :: 0 <= i < |receipts| && receipts[i].Dict? && receipts[i].obj.subject.body.ToolReceipt?
      && receipts[i].obj.subject.body.tool == tool
  }

  /** A permit in force at a grade that is enforced. */
  predicate EnforcedPermit(env: Env, permit: Item, now: int) {
    && permit.Dict? && Verified(env, permit.obj, PermitType, now) && permit.obj.subject.body.Permit?
    && (permit.obj.subject.body.grade == "mediated" || permit.obj.subject.body.grade == "platform")
  }

  lemma EnforcedExactly(env: Env, permit: Item, now: int)
    ensures EnforcedPermit(env, permit, now) <==> PermitEnforced(env, permit, now)
  {
    if PermitEnforced(env, permit, now) { PermitEnforcedBody(env, permit, now); }
    hide Verified;
  }

  /** The documented condition for a clean record. */
  ghost predicate DocumentedClean(env: Env, permit: Subject, receipts: seq<Item>, observed: Observed,
                                  intended: map<string, Json>, now: int)
    requires permit.body.Permit?
  {
    && receipts != []
    && (forall i :: 0 <= i < |receipts| ==> BoundReceipt(env, permit, receipts[i], now))
    && (forall i :: 0 <= i < |receipts| && IsTool(receipts[i]) ==>
          DocumentedMatch(env, observed, intended, receipts[i]))
    && (forall tool :: tool in intended ==> Served(receipts, tool))
    && observed.unmatched == []
  }

  /** Some receipt reports, truly, that its effect was null. */
  predicate SomeNullEffect(env: Env, receipts: seq<Item>, observed: Observed) {
    exists i :: 0 <= i < |receipts| && IsTool(receipts[i]) && SawNull(env, receipts[i], observed)
  }

  predicate SawNull(env: Env, item: Item, observed: Observed)
    requires IsTool(item)
  {
    var d := Digest(env.codec, item.obj.subject);
    d.Some? && d.value in observed.effects && observed.effects[d.value].Null?
  }

  /** An observed JSON null, even the very effect the receipt reports, is a missing effect: a record
      is clean exactly when it is by the documented rule and no receipt's observed effect is null. */
  lemma CleanExactly(env: Env, permit: Subject, receipts: seq<Item>, observed: Observed, intended: map<string, Json>,
                     now: int)
    requires permit.body.Permit?
    ensures Clean(env, permit, receipts, observed, intended, now) <==>
      DocumentedClean(env, permit, receipts, observed, intended, now) && !SomeNullEffect(env, receipts, observed)
  {
    forall i | 0 <= i < |receipts|
      ensures BoundReceipt(env, permit, receipts[i], now) <==> ReceiptOk(env, permit, receipts[i], now)
    {
      BoundExactly(env, permit, receipts[i], now);
    }
    forall tool ensures Served(receipts, tool) <==> Delivered(receipts, tool) {}
    hide DigestHex, Digest, Delivered, Served, BoundReceipt;
    if Clean(env, permit, receipts, observed, intended, now)
      || DocumentedClean(env, permit, receipts, observed, intended, now)
    {
      forall i | 0 <= i < |receipts| ensures IsTool(receipts[i]) { ReceiptOkIsTool(env, permit, receipts[i], now); }
    }
    hide ReceiptOk;
  }

  /** An observed JSON null is where one receipt departs from the documented rule. */
  lemma NullEffectIsMissing(env: Env, permit: Subject, receipts: seq<Item>, observed: Observed,
                            intended: map<string, Json>, now: int, k: nat)
    requires permit.body.Permit? && k < |receipts| && IsTool(receipts[k])
    requires DocumentedMatch(env, observed, intended, receipts[k])
    ensures var isNull := observed.effects[Digest(env.codec, receipts[k].obj.subject).value].Null?;
      && (EffectMatches(env, observed, intended, receipts[k]) <==> !isNull)
      && (isNull ==> !Clean(env, permit, receipts, observed, intended, now))
  {
    hide DigestHex, Digest, ReceiptOk, Delivered;
  }

  /** Every effect named is a JSON value; otherwise digesting it raises. */
  predicate Digestible(observed: Observed, intended: map<string, Json>) {
    && (forall k :: k in observed.effects ==> Printable(observed.effects[k]))
    && (forall i :: 0 <= i < |observed.unmatched| ==> Printable(observed.unmatched[i]))
    && (forall k :: k in intended ==> Printable(intended[k]))
  }

  predicate Delivered(receipts: seq<Item>, tool: string) {
    exists i :: 0 <= i < |receipts| && IsTool(receipts[i]) && receipts[i].obj.subject.body.tool == tool
  }

  /** The whole condition for a clean record. */
  ghost predicate Clean(env: Env, permit: Subject, receipts: seq<Item>, observed: Observed,
                        intended: map<string, Json>, now: int)
    requires permit.body.Permit?
  {
    && receipts != []
    && (forall i :: 0 <= i < |receipts| ==> ReceiptOk(env, permit, receipts[i], now))
    && (forall i :: 0 <= i < |receipts| && IsTool(receipts[i]) ==> EffectMatches(env, observed, intended, receipts[i]))
    && (forall tool :: tool in intended ==> Delivered(receipts, tool))
    && observed.unmatched == []
  }

  datatype Stamp = Stamp(runId: string, nonce: string, ttl: int)

  predicate PermitEnforced(env: Env, permit: Item, now: int) {
    VerifiedItem(env, permit, PermitType, now) && permit.obj.subject.body.grade in {"mediated", "platform"}
  }

  lemma PermitEnforcedBody(env: Env, permit: Item, now: int)
    requires PermitEnforced(env, permit, now)
    ensures permit.Dict? && permit.obj.subject.body.Permit?
  {}

  /** First pass of `reconcile`: keep the receipts that verify and are bound, name the rest. */
  method Collect(env: Env, permit: Subject, receipts: seq<Item>, now: int)
      returns (verified: seq<Item>, invalid: seq<string>)
    requires permit.body.Permit?
    ensures forall i :: 0 <= i < |verified| ==>
      IsTool(verified[i]) && verified[i] in receipts && ReceiptOk(env, permit, verified[i], now)
    ensures invalid == [] <==> forall i :: 0 <= i < |receipts| ==> ReceiptOk(env, permit, receipts[i], now)
    ensures invalid == [] ==> verified == receipts
    ensures forall i :: 0 <= i < |receipts| && ReceiptOk(env, permit, receipts[i], now) ==> receipts[i] in verified
  {
    hide ReceiptOk;
    verified, invalid := [], [];
    for i := 0 to |receipts|
      invariant forall j :: 0 <= j < |verified| ==>
        IsTool(verified[j]) && verified[j] in receipts && ReceiptOk(env, permit, verified[j], now)
      invariant invalid == [] <==> forall j :: 0 <= j < i ==> ReceiptOk(env, permit, receipts[j], now)
      invariant invalid == [] ==> verified == receipts[..i]
      invariant forall j :: 0 <= j < i && ReceiptOk(env, permit, receipts[j], now) ==> receipts[j] in verified
    {
      if receipts[i].NotADict? {
        invalid := invalid + ["tool receipt is not a JSON object"];
        assert !ReceiptOk(env, permit, receipts[i], now) by { NotADictFails(env, permit, receipts[i], now); }
      } else if !ReceiptOk(env, permit, receipts[i], now) {
        invalid := invalid + ["tool receipt does not verify or bind"];
      } else {
        ReceiptOkIsTool(env, permit, receipts[i], now);
        verified := verified + [receipts[i]];
      }
      assert receipts[..i + 1] == receipts[..i] + [receipts[i]];
    }
    assert receipts[..|receipts|] == receipts;
  }

  lemma NotADictFails(env: Env, permit: Subject, item: Item, now: int)
    requires permit.body.Permit? && item.NotADict?
    ensures !ReceiptOk(env, permit, item, now)
  {}

  /** Second pass: one residual for every disagreement. */
  method Residuals(env: Env, verified: seq<Item>, observed: Observed, intended: map<string, Json>)
      returns (residuals: seq<string>, missing: set<string>)
    requires forall i :: 0 <= i < |verified| ==> IsTool(verified[i]) && Digest(env.codec, verified[i].obj.subject).Some?
    ensures missing == set t | t in intended && !Delivered(verified, t)
    ensures residuals == [] <==>
      && verified != [] && observed.unmatched == [] && missing == {}
      && forall i :: 0 <= i < |verified| ==> EffectMatches(env, observed, intended, verified[i])
  {
    hide DigestHex, Digest;
    residuals := [];
    for i := 0 to |verified|
      invariant residuals == [] <==> forall j :: 0 <= j < i ==> EffectMatches(env, observed, intended, verified[j])
    {
      ghost var before := residuals;
      var b := verified[i].obj.subject.body;
      var digest := Digest(env.codec, verified[i].obj.subject).value;
      if digest !in observed.effects || observed.effects[digest].Null? {
        residuals := residuals + ["missing observed effect"];
      } else if DigestHex(env.codec.sha, observed.effects[digest]) != Some(b.effectDigest) {
        residuals := residuals + ["effect mismatch"];
      }
      if b.tool in intended && DigestHex(env.codec.sha, intended[b.tool]) != Some(b.effectDigest) {
        residuals := residuals + ["intended/observed mismatch"];
      }
      assert residuals == before <==> EffectMatches(env, observed, intended, verified[i]);
    }
    hide EffectMatches, Delivered;
    ghost var afterEffects := residuals;
    for i := 0 to |observed.unmatched|
      invariant residuals == [] <==> afterEffects == [] && i == 0
    {
      residuals := residuals + ["unexpected effect with no matching receipt"];
    }
    missing := set t | t in intended && !Delivered(verified, t);
    var todo := missing;
    ghost var afterUnmatched := residuals;
    while todo != {}
      invariant todo <= missing
      invariant residuals == [] <==> afterUnmatched == [] && todo == missing
      decreases |todo|
    {
      var t :| t in todo;
      todo := todo - {t};
      residuals := residuals + ["missing tool receipt for intended tool"];
    }
    if verified == [] { residuals := residuals + ["no verified tool receipts"]; }
  }

  /** `sorted` on strings: by code points. */
  predicate NameLess(s: string, t: string) { K.LexLess(Utf16.Points(s), Utf16.Points(t)) }

  ghost predicate NamesAscend(xs: seq<string>) { forall i, j :: 0 <= i < j < |xs| ==> NameLess(xs[i], xs[j]) }

  lemma NameOrder(s: string, t: string)
    ensures NameLess(s, t) || NameLess(t, s) || s == t
  {
    K.LexTotal(Utf16.Points(s), Utf16.Points(t));
    if Utf16.Points(s) == Utf16.Points(t) {
      forall i | 0 <= i < |s| ensures s[i] == t[i] { assert Utf16.Points(s)[i] == Utf16.Points(t)[i]; }
    }
  }

  function InsertName(x: string, xs: seq<string>): (r: seq<string>)
    ensures forall y :: y in r <==> y == x || y in xs
  {
    if xs == [] || NameLess(x, xs[0]) then [x] + xs else [xs[0]] + InsertName(x, xs[1..])
  }

  lemma {:induction false} InsertAscends(x: string, xs: seq<string>)
    requires NamesAscend(xs) && x !in xs
    ensures NamesAscend(InsertName(x, xs))
  {
    hide NameLess;
    var r := InsertName(x, xs);
    if xs == [] || NameLess(x, xs[0]) {
      forall i, j | 0 <= i < j < |r| ensures NameLess(r[i], r[j]) {
        if i == 0 && j > 1 {
          assert NameLess(x, xs[0]) && NameLess(xs[0], xs[j - 1]);
          NameTransitive(x, xs[0], xs[j - 1]);
        }
      }
    } else {
      NameOrder(x, xs[0]);
      assert forall i :: 0 <= i < |xs[1..]| ==> xs[1..][i] == xs[i + 1];
      InsertAscends(x, xs[1..]);
      var rest := InsertName(x, xs[1..]);
      forall i, j | 0 <= i < j < |r| ensures NameLess(r[i], r[j]) {
        if i == 0 {
          assert r[j] == rest[j - 1] && rest[j - 1] in rest;
          if r[j] != x {
            var k :| 0 <= k < |xs[1..]| && xs[1..][k] == r[j];
            assert NameLess(xs[0], xs[k + 1]);
          }
        } else {
          assert r[i] == rest[i - 1] && r[j] == rest[j - 1];
        }
      }
    }
  }

  lemma NameTransitive(a: string, b: string, c: string)
    requires NameLess(a, b) && NameLess(b, c)
    ensures NameLess(a, c)
  {
    K.LexTransitive(Utf16.Points(a), Utf16.Points(b), Utf16.Points(c));
  }

  /** `sorted(set)`. */
  method SortedNames(s: set<string>) returns (xs: seq<string>)
    ensures NamesAscend(xs) && forall x :: x in xs <==> x in s
  {
    xs := [];
    var rest := s;
    while rest != {}
      invariant rest <= s && NamesAscend(xs) && forall x :: x in xs <==> x in s && x !in rest
      decreases |rest|
    {
      var x :| x in rest;
      InsertAscends(x, xs);
      rest := rest - {x};
      xs := InsertName(x, xs);
    }
  }

  /** The items of a dict, in the order they come. */
  method ItemsOf(m: map<string, Json>) returns (items: seq<(string, Json)>)
    ensures E.Lists(items, m)
  {
    items := [];
    var rest := m.Keys;
    while rest != {}
      invariant rest <= m.Keys && K.KeysDistinct(items)
      invariant forall x :: x in items <==> x.0 in m && x.0 !in rest && x.1 == m[x.0]
      decreases |rest|
    {
      var k :| k in rest;
      assert forall i :: 0 <= i < |items| ==> items[i] in items;
      rest := rest - {k};
      items := items + [(k, m[k])];
    }
  }

  function JoinWith(sep: string, parts: seq<string>): string {
    if parts == [] then "" else if |parts| == 1 then parts[0] else parts[0] + sep + JoinWith(sep, parts[1..])
  }

  /** The record's `reason`. */
  function ReasonOf(certified: bool, residuals: seq<string>, invalid: seq<string>): string {
    if certified then "effects matched: reconciliation is clean and certifiable"
    else "residual open: " + JoinWith("; ", if residuals != [] then residuals else invalid)
  }

  /** A receipt that verifies and is bound reports this tool. */
  predicate Recorded(env: Env, permit: Subject, receipts: seq<Item>, tool: string, now: int)
    requires permit.body.Permit?
  {
    exists i :: 0 <= i < |receipts| && ReceiptOk(env, permit, receipts[i], now) && IsTool(receipts[i])
      && receipts[i].obj.subject.body.tool == tool
  }

  /** A tool counts as missing exactly when no receipt that verifies for this action reports it. */
  lemma RecordedExactly(env: Env, permit: Subject, receipts: seq<Item>, tool: string, now: int)
    requires permit.body.Permit?
    ensures Recorded(env, permit, receipts, tool, now) <==>
      exists i :: 0 <= i < |receipts| && BoundReceipt(env, permit, receipts[i], now)
        && receipts[i].obj.subject.body.tool == tool
  {
    forall i | 0 <= i < |receipts|
      ensures BoundReceipt(env, permit, receipts[i], now) <==> ReceiptOk(env, permit, receipts[i], now)
    {
      BoundExactly(env, permit, receipts[i], now);
    }
    hide Verified;
  }

  lemma RecordedDelivered(env: Env, permit: Subject, receipts: seq<Item>, verified: seq<Item>, tool: string, now: int)
    requires permit.body.Permit?
    requires forall i :: 0 <= i < |verified| ==>
      IsTool(verified[i]) && verified[i] in receipts && ReceiptOk(env, permit, verified[i], now)
    requires forall i :: 0 <= i < |receipts| && ReceiptOk(env, permit, receipts[i], now) ==> receipts[i] in verified
    ensures Recorded(env, permit, receipts, tool, now) <==> Delivered(verified, tool)
  {
    hide ReceiptOk;
    if Recorded(env, permit, receipts, tool, now) {
      var i :| 0 <= i < |receipts| && ReceiptOk(env, permit, receipts[i], now) && IsTool(receipts[i])
        && receipts[i].obj.subject.body.tool == tool;
      var j :| 0 <= j < |verified| && verified[j] == receipts[i];
    }
    if Delivered(verified, tool) {
      var j :| 0 <= j < |verified| && IsTool(verified[j]) && verified[j].obj.subject.body.tool == tool;
      var i :| 0 <= i < |receipts| && receipts[i] == verified[j];
    }
  }

  /** What a record says: certified exactly when every effect matches, and then with nothing left over. */
  ghost predicate Reports(env: Env, permit: Item, receipts: seq<Item>, observed: Observed, intended: map<string, Json>,
                          signer: Issuer, stamp: Stamp, now: int, s: Subject)
  {
    && permit.Dict? && permit.obj.subject.body.Permit?
    && s.issuer == signer.identity && s.keyId == signer.keyId && s.issuedAt == now
    && s.expiresAt == Some(now + stamp.ttl) && s.runId == stamp.runId && s.nonce == stamp.nonce
    && s.body.Reconciliation? && s.body.state == "RECONCILED"
    && s.body.reconAction == permit.obj.subject.body.permitAction
    && (s.body.certified <==> Clean(env, permit.obj.subject, receipts, observed, intended, now))
    && (s.body.certified <==> s.body.residuals == [] && s.body.invalid == [])
    && (s.body.invalid == [] <==>
          forall i :: 0 <= i < |receipts| ==> ReceiptOk(env, permit.obj.subject, receipts[i], now))
    && NamesAscend(s.body.missing)
    && (forall t :: t in s.body.missing <==> t in intended && !Recorded(env, permit.obj.subject, receipts, t, now))
    && s.body.reconReason == ReasonOf(s.body.certified, s.body.residuals, s.body.invalid)
    && E.IntendedDigest(env.codec.sha, intended) == Some(s.body.intendedDigest)
    && E.ObservedDigest(env.codec.sha, observed.effects, observed.unmatched) == Some(s.body.observedDigest)
  }

  /** The two digests in the record, over the dicts in the order their items come. */
  method EffectsDigests(sha: string -> string, observed: Observed, intended: map<string, Json>)
      returns (intendedDigest: string, observedDigest: string)
    requires Digestible(observed, intended)
    ensures E.IntendedDigest(sha, intended) == Some(intendedDigest)
    ensures E.ObservedDigest(sha, observed.effects, observed.unmatched) == Some(observedDigest)
  {
    hide DigestHex, Printable, E.MapItems, E.Hex, E.ObservedDict;
    var items := ItemsOf(intended);
    E.AnyListing(items, intended);
    E.MapItemsPrint(intended);
    SameDigest(sha, Obj(items), Obj(E.MapItems(intended)));
    intendedDigest := DigestHex(sha, Obj(items)).value;
    var effects := E.HexMap(sha, observed.effects);
    var hexes := ItemsOf(effects);
    E.AnyObservedListing(hexes, effects, E.HexList(sha, observed.unmatched));
    E.Hexes(sha, observed.effects, observed.unmatched);
    SameDigest(sha, E.ObservedDict(hexes, E.HexList(sha, observed.unmatched)),
               E.ObservedDict(E.MapItems(effects), E.HexList(sha, observed.unmatched)));
    observedDigest := DigestHex(sha, E.ObservedDict(hexes, E.HexList(sha, observed.unmatched))).value;
  }

  lemma SameDigest(sha: string -> string, a: Json, b: Json)
    requires Canon(a) == Canon(b) && Printable(b)
    ensures DigestHex(sha, a).Some? && DigestHex(sha, a) == DigestHex(sha, b)
  {
    RT.CanonSome(b);
  }

  /** `reconcile`: a record exists exactly for a permit that verifies at an enforcement grade, and it
      is marked certified exactly when every effect matches. None is a rejection or a raised error. */
  method Reconcile(env: Env, permit: Item, receipts: seq<Item>, observed: Observed, intended: map<string, Json>,
                   signer: Issuer, stamp: Stamp, now: int) returns (record: Option<Object>)
    requires Sound(env.codec)
    ensures record.Some? <==> PermitEnforced(env, permit, now) && Digestible(observed, intended)
    ensures record.Some? <==> EnforcedPermit(env, permit, now) && Digestible(observed, intended)
    ensures record.Some? ==> SignedObject(env.codec, signer, record.value.subject) == record
    ensures record.Some? ==>
      Reports(env, permit, receipts, observed, intended, signer, stamp, now, record.value.subject)
  {
    EnforcedExactly(env, permit, now);
    hide Digest, DigestHex, ReceiptOk, PermitEnforced, EffectMatches, Delivered, Recorded, Sound, Digestible,
      EnforcedPermit;
    if !PermitEnforced(env, permit, now) { return None; }
    PermitEnforcedBody(env, permit, now);
    if !Digestible(observed, intended) { return None; }
    var p := permit.obj.subject;
    var verified, invalid := Collect(env, p, receipts, now);
    forall i | 0 <= i < |verified| ensures Digest(env.codec, verified[i].obj.subject).Some? {
      ReceiptOkIsTool(env, p, verified[i], now);
    }
    var residuals, missingTools := Residuals(env, verified, observed, intended);
    var missing := SortedNames(missingTools);
    var certified := invalid == [] && residuals == [] && verified != [];
    forall t ensures Recorded(env, p, receipts, t, now) <==> Delivered(verified, t) {
      RecordedDelivered(env, p, receipts, verified, t, now);
    }
    if invalid == [] { CleanWhen(env, p, receipts, observed, intended, now, missingTools); }
    var intendedDigest, observedDigest := EffectsDigests(env.codec.sha, observed, intended);
    var s := Subject(signer.identity, now, Some(now + stamp.ttl), stamp.runId, stamp.nonce, signer.keyId,
                     Reconciliation("RECONCILED", certified, p.body.permitAction, missing, invalid, residuals,
                                    ReasonOf(certified, residuals, invalid), intendedDigest, observedDigest));
    DigestPins(env.codec, s, s);
    record := SignedObject(env.codec, signer, s);
  }

  lemma CleanWhen(env: Env, permit: Subject, receipts: seq<Item>, observed: Observed, intended: map<string, Json>,
                  now: int, missing: set<string>)
    requires permit.body.Permit?
    requires forall i :: 0 <= i < |receipts| ==> IsTool(receipts[i]) && ReceiptOk(env, permit, receipts[i], now)
    requires missing == set t | t in intended && !Delivered(receipts, t)
    ensures Clean(env, permit, receipts, observed, intended, now) <==>
      && receipts != [] && observed.unmatched == [] && missing == {}
      && forall i :: 0 <= i < |receipts| ==> EffectMatches(env, observed, intended, receipts[i])
  {
    hide ReceiptOk, EffectMatches, Delivered;
    assert missing == {} <==> forall tool :: tool in intended ==> Delivered(receipts, tool) by {
      if missing == {} {
        forall tool | tool in intended ensures Delivered(receipts, tool) { assert tool !in missing; }
      }
    }
  }

  /** Every dict inside has distinct keys, as every dict has. */
  ghost predicate Dicts(observed: Observed, intended: map<string, Json>) {
    && E.AllWellFormed(observed.effects) && E.AllWellFormed(intended)
    && forall i :: 0 <= i < |observed.unmatched| ==> WellFormed(observed.unmatched[i])
  }

  /** One record stands for one set of effects: whoever signed it, over whatever receipts, what was
      intended under each tool, what was observed under each receipt and what had no receipt are pinned. */
  lemma RecordPinsEffects(env: Env, permit: Item, receipts: seq<Item>, observed: Observed, intended: map<string, Json>,
                          signer: Issuer, stamp: Stamp, now: int, env': Env, permit': Item, receipts': seq<Item>,
                          observed': Observed, intended': map<string, Json>, signer': Issuer, stamp': Stamp, now': int,
                          record: Subject)
    requires CollisionFree(env.codec.sha) && env'.codec == env.codec
    requires Dicts(observed, intended) && Dicts(observed', intended') && Digestible(observed, intended)
    requires Digestible(observed', intended')
    requires Reports(env, permit, receipts, observed, intended, signer, stamp, now, record)
    requires Reports(env', permit', receipts', observed', intended', signer', stamp', now', record)
    ensures E.SameEffects(intended, intended') && E.SameEffects(observed.effects, observed'.effects)
    ensures E.SameList(observed.unmatched, observed'.unmatched)
  {
    hide Clean, ReceiptOk, Recorded, ReasonOf, E.IntendedDigest, E.ObservedDigest, Printable, WellFormed, RT.Meaning;
    E.IntendedPins(env.codec.sha, intended, intended');
    E.ObservedPins(env.codec.sha, observed.effects, observed.unmatched, observed'.effects, observed'.unmatched);
  }

  lemma CleanRecords(env: Env, permit: Subject, receipts: seq<Item>, observed: Observed, intended: map<string, Json>,
                     now: int)
    requires permit.body.Permit? && Clean(env, permit, receipts, observed, intended, now)
    ensures forall i :: 0 <= i < |receipts| ==> ReceiptOk(env, permit, receipts[i], now)
    ensures forall t :: t in intended ==> Recorded(env, permit, receipts, t, now)
  {
    hide ReceiptOk, EffectMatches;
    forall t | t in intended ensures Recorded(env, permit, receipts, t, now) {
      assert Delivered(receipts, t);
    }
  }

  /** What reconciles clean also reconciles clean at every earlier time and with fewer revocations. */
  lemma CleanEarlier(early: Env, late: Env, permit: Item, receipts: seq<Item>, observed: Observed,
                     intended: map<string, Json>, t1: int, t2: int)
    requires Later(early, late) && t1 <= t2
    requires PermitEnforced(late, permit, t2) && permit.Dict? && permit.obj.subject.body.Permit?
    requires Clean(late, permit.obj.subject, receipts, observed, intended, t2)
    ensures PermitEnforced(early, permit, t1)
    ensures Clean(early, permit.obj.subject, receipts, observed, intended, t1)
  {
    hide Verified, Digest, DigestHex, Delivered;
    VerifiedEarlier(early, late, permit.obj, PermitType, t1, t2, "human");
    forall i | 0 <= i < |receipts| ensures ReceiptOk(early, permit.obj.subject, receipts[i], t1) {
      assert ReceiptOk(late, permit.obj.subject, receipts[i], t2);
      VerifiedEarlier(early, late, receipts[i].obj, ToolReceiptType, t1, t2, "human");
    }
    forall i | 0 <= i < |receipts| && IsTool(receipts[i])
      ensures EffectMatches(early, observed, intended, receipts[i])
    {
      assert EffectMatches(late, observed, intended, receipts[i]);
    }
  }
}
