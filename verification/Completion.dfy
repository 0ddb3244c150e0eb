/** The pipeline is not only safe: with its keys provisioned each component goes ahead where its
    conditions hold, and an admissible action is carried through to a certificate. */
module Completion {
  import opened Prelude
  import opened Canonical
  import opened Digests
  import opened Wire
  import opened Verification
  import opened Executor
  import opened Admission
  import opened Pipeline
  import P = Pipeline
  import NonceStores
  import R = Reconciling
  import C = Certifying
  import RT = RoundTrip
  import E = EffectDigests

  // ---- reaching states ----

  ghost predicate Reaches(w: World, s: State, t: State) {
    exists events :: P.Run(w, s, events) == Some(t)
  }

  lemma {:induction false} RunSplit(w: World, s: State, a: seq<Event>, b: seq<Event>)
    ensures P.Run(w, s, a + b) == if P.Run(w, s, a).Some? then P.Run(w, P.Run(w, s, a).value, b) else None
    decreases |a|
  {
    hide Step;
    if a == [] {
      assert a + b == b;
    } else {
      assert (a + b)[1..] == a[1..] + b;
      if Step(w, s, a[0]).Some? { RunSplit(w, Step(w, s, a[0]).value, a[1..], b); }
    }
  }

  lemma ReachesTrans(w: World, s: State, t: State, u: State)
    requires Reaches(w, s, t) && Reaches(w, t, u)
    ensures Reaches(w, s, u)
  {
    hide P.Run;
    var a :| P.Run(w, s, a) == Some(t);
    var b :| P.Run(w, t, b) == Some(u);
    RunSplit(w, s, a, b);
  }

  lemma ReachesStep(w: World, s: State, e: Event, t: State)
    requires Step(w, s, e) == Some(t)
    ensures Reaches(w, s, t)
  {
    hide Step;
    assert P.Run(w, t, []) == Some(t);
    assert [e][1..] == [];
    assert P.Run(w, s, [e]) == Some(t);
  }

  lemma ReachesReachable(w: World, s: State, t: State)
    requires Reachable(w, s) && Reaches(w, s, t)
    ensures Reachable(w, t)
  {
    hide P.Run;
    var a :| P.Run(w, P.Init, a) == Some(s);
    var b :| P.Run(w, s, b) == Some(t);
    RunSplit(w, P.Init, a, b);
  }

  /** At one time, under the same revocations, with nothing signed or logged taken back. */
  ghost predicate Onward(s: State, t: State) {
    && t.now == s.now && t.revocations == s.revocations && s.signed <= t.signed
    && |s.history| <= |t.history| && s.history == t.history[..|s.history|]
  }

  /** t can be reached from s, onward. */
  ghost predicate Leads(w: World, s: State, t: State) { Reaches(w, s, t) && Onward(s, t) }

  lemma LeadsTrans(w: World, s: State, t: State, u: State)
    requires Leads(w, s, t) && Leads(w, t, u)
    ensures Leads(w, s, u)
  {
    hide Reaches;
    ReachesTrans(w, s, t, u);
    assert u.history[..|s.history|] == t.history[..|s.history|];
  }

  // ---- what a component signs verifies ----

  /** Each component's key is in the trust store for its type, and signs with non-empty text. */
  ghost predicate Provisioned(w: World) {
    && Sound(w.host.env.codec) && Hashing(w.host.env.codec.sha)
    && forall t :: SignerOf(w, t).Some? ==> KeyReady(w, SignerOf(w, t).value, t)
  }

  ghost predicate KeyReady(w: World, i: Issuer, t: WireType) {
    && i.keyId != "" && i.keyId in w.host.env.trust
    && w.host.env.trust[i.keyId].publicKey == i.publicKey
    && w.host.env.trust[i.keyId].AuthorizesType(TypeName(t))
    && forall s :: i.sign(s) != ""
  }

  /** What its component signed, of the right shape, unexpired and unrevoked. */
  predicate Fit(w: World, at: Snap, t: WireType, s: Subject) {
    && SignerOf(w, t).Some? && TypeOf(s.body) == t && w.host.env.schema(s)
    && s.keyId == SignerOf(w, t).value.keyId
    && s.expiresAt.Some? && at.now < s.expiresAt.value && NotRevoked(EnvAt(w, at), s, at.now)
  }

  predicate SignedIn(w: World, at: Snap, t: WireType, s: Subject) {
    SignerOf(w, t).Some? && var i := SignerOf(w, t).value; Signing(i.publicKey, s, i.sign(s)) in at.signed
  }

  function Signed(w: World, t: WireType, s: Subject): Object
    requires SignerOf(w, t).Some?
  {
    Object(s, Digest(w.host.env.codec, s).GetOr(""), SignerOf(w, t).value.sign(s))
  }

  function Filing(w: World, receipt: Subject): Item { Dict(Signed(w, ToolReceiptType, receipt)) }

  lemma SignedVerifies(w: World, at: Snap, t: WireType, s: Subject)
    requires Provisioned(w) && Fit(w, at, t, s) && SignedIn(w, at, t, s)
    ensures Verified(EnvAt(w, at), Signed(w, t, s), t, at.now)
    ensures SignedObject(w.host.env.codec, SignerOf(w, t).value, s) == Some(Signed(w, t, s))
  {
    hide Hashing, TypeName, IsRevoked;
    assert KeyReady(w, SignerOf(w, t).value, t);
    DigestPins(w.host.env.codec, s, s);
  }

  /** Later, at the same time and under the same revocations, it is still so. */
  lemma StillFit(w: World, s: State, u: State, t: WireType, x: Subject)
    requires Onward(s, u)
    ensures Fit(w, Now(s), t, x) ==> Fit(w, Now(u), t, x)
    ensures SignedIn(w, Now(s), t, x) ==> SignedIn(w, Now(u), t, x)
  {
    hide IsRevoked;
  }

  function Hash(w: World, j: Json): string { DigestHex(w.host.env.codec.sha, j).GetOr("") }

  lemma Hashes(w: World, j: Json)
    requires Printable(j)
    ensures DigestHex(w.host.env.codec.sha, j) == Some(Hash(w, j))
  {
    RT.CanonSome(j);
  }

  // ---- admission and issue ----

  lemma AdmissibleAdmits(h: Host, i: Intake, now: int)
    requires Admissible(h, i, now)
    ensures Decide(h, i, now).decision.Admitted? && Decide(h, i, now).actionDigest == i.plan.actionDigest
  {
    hide ApprovalOk, PinHolds, ReceiptsSound, Resolved;
  }

  lemma Admits(w: World, s: State, intake: Intake) returns (t: State)
    requires Admissible(HostAt(w, Now(s)), intake, s.now)
    ensures Leads(w, s, t) && t.recorded == s.recorded && t.consumed == s.consumed && |t.history| == |s.history| + 1
    ensures var e := t.history[|s.history|];
      e.Decided? && e.result.decision.Admitted? && e.result.actionDigest == intake.plan.actionDigest
        && e.result == Decide(HostAt(w, Now(s)), intake, s.now)
  {
    AdmissibleAdmits(HostAt(w, Now(s)), intake, s.now);
    hide Reaches, Decide, Admissible;
    t := Log(s, Decided(Now(s), intake, Decide(HostAt(w, Now(s)), intake, s.now)));
    assert Step(w, s, Event.Admit(intake)) == Some(t);
    hide Step;
    ReachesStep(w, s, Event.Admit(intake), t);
  }

  lemma Issues(w: World, s: State, d: nat, terms: Terms, approval: Option<Object>) returns (t: State, permit: Subject)
    requires d < |s.history| && s.history[d].Decided?
    requires MayIssue(s.history[d].result, w.permits, terms, approval, NonceStores.InMemory(s.recorded, s.consumed))
    ensures Leads(w, s, t) && t.recorded == s.recorded + {(terms.runId, terms.nonce)} && t.consumed == s.consumed
    ensures permit == PermitSubject(s.history[d].result, w.permits, terms) && SignedIn(w, Now(t), PermitType, permit)
  {
    hide Reaches, PermitSubject, MayIssue;
    permit := PermitSubject(s.history[d].result, w.permits, terms);
    t := Log(Sign(s, w.permits, permit),
             Issued(d, terms, permit)).(recorded := s.recorded + {(terms.runId, terms.nonce)});
    assert Step(w, s, Issue(d, terms, approval)) == Some(t);
    hide Step;
    ReachesStep(w, s, Issue(d, terms, approval), t);
  }

  // ---- one executor call ----

  /** A call and its outcome, as the host makes it. */
  datatype Job = Job(tool: string, arguments: Json, identity: Option<string>, proof: Option<Proof>, outcome: Outcome,
                     dispatchId: string, clock: Clock, prev: Option<string>)

  predicate Callable(w: World, p: Subject, j: Job) {
    && p.body.Permit? && p.body.grade in {"mediated", "platform"}
    && SenderOk(w.pe, Signed(w, PermitType, p), j.identity, j.proof)
    && MatchOk(w.host.env.codec.sha, p.body.constraints, j.tool, j.arguments)
    && Printable(j.arguments) && Printable(j.outcome.effect) && (j.prev.Some? ==> w.linking)
  }

  function ReceiptOf(w: World, p: Subject, j: Job): Subject
    requires p.body.Permit?
  {
    LinkTo(ReceiptSubject(p, w.receipts, j.tool, Hash(w, j.arguments), Hash(w, j.outcome.effect), j.outcome.executor,
                          j.dispatchId, j.clock), j.prev)
  }

  function Ask(w: World, p: Subject, j: Job): Executor.Request {
    Executor.Request(Dict(Signed(w, PermitType, p)), j.tool, j.arguments, j.identity, j.proof)
  }

  lemma Checks(w: World, s: State, p: Subject, j: Job) returns (t: State)
    requires Provisioned(w) && Fit(w, Now(s), PermitType, p) && SignedIn(w, Now(s), PermitType, p) && Callable(w, p, j)
    ensures t == Log(s, Checked(Now(s), Ask(w, p, j))) && Reaches(w, s, t)
  {
    SignedVerifies(w, Now(s), PermitType, p);
    hide Verified, Provisioned, Fit, SignedIn, MatchOk, Reaches, Printable;
    assert Authorised(EnvAt(w, Now(s)), w.pe, Ask(w, p, j), s.now);
    hide Authorised, Ask, Callable;
    t := Log(s, Checked(Now(s), Ask(w, p, j)));
    assert Step(w, s, Check(Ask(w, p, j))) == Some(t);
    hide Step;
    ReachesStep(w, s, Check(Ask(w, p, j)), t);
  }

  lemma Performs(w: World, s: State, c: nat, p: Subject, j: Job) returns (t: State)
    requires c < |s.history| && s.history[c].Checked? && s.history[c].request == Ask(w, p, j)
    requires (p.runId, p.nonce) !in s.consumed
    ensures t == Log(s, Performed(c, j.outcome)).(consumed := s.consumed + {(p.runId, p.nonce)}) && Reaches(w, s, t)
  {
    hide Reaches;
    t := Log(s, Performed(c, j.outcome)).(consumed := s.consumed + {(p.runId, p.nonce)});
    assert Step(w, s, Perform(c, j.outcome)) == Some(t);
    hide Step;
    ReachesStep(w, s, Perform(c, j.outcome), t);
  }

  lemma Files(w: World, s: State, k: nat, p: Subject, j: Job) returns (t: State)
    requires k < |s.history| && s.history[k].Performed? && s.history[k].outcome == j.outcome && s.history[k].checked < k
    requires var c := s.history[s.history[k].checked]; c.Checked? && c.request == Ask(w, p, j)
    requires !IsFiled(s.history, k) && Callable(w, p, j)
    ensures t == Log(Sign(s, w.receipts, ReceiptOf(w, p, j)), Filed(k, ReceiptOf(w, p, j))) && Reaches(w, s, t)
  {
    Hashes(w, j.arguments);
    Hashes(w, j.outcome.effect);
    hide Reaches, DigestHex, Hash, ReceiptSubject, LinkTo, IsFiled, MatchOk, Printable;
    t := Log(Sign(s, w.receipts, ReceiptOf(w, p, j)), Filed(k, ReceiptOf(w, p, j)));
    assert Step(w, s, File(k, j.dispatchId, j.clock, j.prev)) == Some(t);
    hide Step;
    ReachesStep(w, s, File(k, j.dispatchId, j.clock, j.prev), t);
  }

  /** No call is filed before it is performed. */
  lemma NotFiledYet(w: World, s: State, c: Entry, p: Entry)
    requires Reachable(w, s) && !c.Filed? && !p.Filed?
    ensures !IsFiled(s.history + [c] + [p], |s.history| + 1)
  {
    hide Reachable, SignedByComponents, OnceEach, Justified;
    ReachableInv(w, s);
    var h := s.history + [c] + [p];
    forall k | 0 <= k < |h| && h[k].Filed? ensures h[k].performed != |s.history| + 1 {
      assert k < |s.history| && h[k] == s.history[k];
      FiledBefore(w, s, k);
    }
  }

  lemma FiledBefore(w: World, s: State, k: nat)
    requires AllJustified(w, s) && k < |s.history| && s.history[k].Filed?
    ensures s.history[k].performed < k
  {
    assert Justified(w, s.history, k);
  }

  /** Check, perform, file: a permit that fits and binds the call leads to its receipt. */
  lemma CallCompletes(w: World, s: State, p: Subject, j: Job) returns (t: State)
    requires Reachable(w, s) && Provisioned(w) && Callable(w, p, j) && (p.runId, p.nonce) !in s.consumed
    requires Fit(w, Now(s), PermitType, p) && SignedIn(w, Now(s), PermitType, p)
    ensures Leads(w, s, t) && t.recorded == s.recorded && t.consumed == s.consumed + {(p.runId, p.nonce)}
    ensures SignedIn(w, Now(t), ToolReceiptType, ReceiptOf(w, p, j))
  {
    hide Reachable, Provisioned, Fit, Callable, Reaches, Ask, IsFiled, ReceiptSubject, LinkTo;
    var n := |s.history|;
    var s1 := Checks(w, s, p, j);
    var s2 := Performs(w, s1, n, p, j);
    NotFiledYet(w, s, s1.history[n], s2.history[n + 1]);
    assert s2.history == s.history + [s1.history[n]] + [s2.history[n + 1]];
    t := Files(w, s2, n + 1, p, j);
    ReachesTrans(w, s, s1, s2);
    ReachesTrans(w, s, s2, t);
  }

  // ---- reconciliation and certification ----

  /** Receipts of one permit's action that verify. */
  ghost predicate GoodReceipts(w: World, at: Snap, p: Subject, receipts: seq<Subject>) {
    p.body.Permit? && receipts != [] && forall i :: 0 <= i < |receipts| ==> GoodReceipt(w, at, p, receipts[i])
  }

  predicate GoodReceipt(w: World, at: Snap, p: Subject, r: Subject)
    requires p.body.Permit?
  {
    Fit(w, at, ToolReceiptType, r) && SignedIn(w, at, ToolReceiptType, r)
    && r.body.ToolReceipt? && r.body.toolAction == p.body.permitAction
  }

  function Items(w: World, receipts: seq<Subject>): (items: seq<Item>)
    ensures |items| == |receipts|
    ensures forall i :: 0 <= i < |receipts| ==> items[i] == Filing(w, receipts[i])
  {
    seq(|receipts|, i requires 0 <= i < |receipts| => Filing(w, receipts[i]))
  }

  lemma ItemsOk(w: World, at: Snap, p: Subject, receipts: seq<Subject>)
    requires Provisioned(w) && GoodReceipts(w, at, p, receipts)
    ensures forall i :: 0 <= i < |receipts| ==>
      R.ReceiptOk(EnvAt(w, at), p, Items(w, receipts)[i], at.now) && R.IsTool(Items(w, receipts)[i])
  {
    hide Provisioned, Verified;
    forall i | 0 <= i < |receipts|
      ensures R.ReceiptOk(EnvAt(w, at), p, Items(w, receipts)[i], at.now) && R.IsTool(Items(w, receipts)[i])
    {
      assert GoodReceipt(w, at, p, receipts[i]);
      SignedVerifies(w, at, ToolReceiptType, receipts[i]);
    }
  }

  /** What a record is about. */
  datatype Matter = Matter(stamp: R.Stamp, observed: R.Observed, intended: map<string, Json>)

  ghost function RecordOf(w: World, p: Subject, now: int, m: Matter): Subject
    requires p.body.Permit?
  {
    var sha := w.host.env.codec.sha;
    Subject(w.records.identity, now, Some(now + m.stamp.ttl), m.stamp.runId, m.stamp.nonce, w.records.keyId,
            Reconciliation("RECONCILED", true, p.body.permitAction, [], [], [], R.ReasonOf(true, [], []),
                           E.IntendedDigest(sha, m.intended).GetOr(""),
                           E.ObservedDigest(sha, m.observed.effects, m.observed.unmatched).GetOr("")))
  }

  lemma MatterDigests(w: World, m: Matter)
    requires R.Digestible(m.observed, m.intended)
    ensures var sha := w.host.env.codec.sha;
      E.IntendedDigest(sha, m.intended).Some? && E.ObservedDigest(sha, m.observed.effects, m.observed.unmatched).Some?
  {
    hide Printable, E.MapItems, E.HexMap, E.HexList, E.ObservedDict, DigestHex;
    E.MapItemsPrint(m.intended);
    E.Hexes(w.host.env.codec.sha, m.observed.effects, m.observed.unmatched);
    Hashes(w, Obj(E.MapItems(m.intended)));
    Hashes(w, E.ObservedDict(E.MapItems(E.HexMap(w.host.env.codec.sha, m.observed.effects)),
                             E.HexList(w.host.env.codec.sha, m.observed.unmatched)));
  }

  /** Under each receipt exactly its own effect was observed, and the intended one where there is
      one; and every intended tool has a receipt. */
  ghost predicate ObservedAll(w: World, observed: R.Observed, intended: map<string, Json>, receipts: seq<Subject>) {
    && observed.unmatched == []
    && (forall i :: 0 <= i < |receipts| ==>
          R.IsTool(Filing(w, receipts[i])) && R.EffectMatches(w.host.env, observed, intended, Filing(w, receipts[i])))
    && forall tool :: tool in intended ==> R.Delivered(Items(w, receipts), tool)
  }

  lemma ReconcileFires(w: World, s: State, p: Subject, receipts: seq<Subject>, m: Matter) returns (t: State)
    requires Provisioned(w) && Fit(w, Now(s), PermitType, p) && SignedIn(w, Now(s), PermitType, p)
    requires GoodReceipts(w, Now(s), p, receipts) && p.body.grade in {"mediated", "platform"}
    requires ObservedAll(w, m.observed, m.intended, receipts) && R.Digestible(m.observed, m.intended)
    ensures Leads(w, s, t) && SignedIn(w, Now(t), ReconciliationType, RecordOf(w, p, s.now, m))
    ensures |t.history| == |s.history| + 1
    ensures t.history[|s.history|] ==
      Reconciled(Now(s), Dict(Signed(w, PermitType, p)), Items(w, receipts), m.observed, m.intended, m.stamp,
                 RecordOf(w, p, s.now, m))
  {
    var permit, items, env := Dict(Signed(w, PermitType, p)), Items(w, receipts), EnvAt(w, Now(s));
    var record := RecordOf(w, p, s.now, m);
    hide Provisioned, Fit, ObservedAll, GoodReceipts, R.Digestible, SignedIn, Reaches, RecordOf, R.PermitEnforced,
      R.Reports, Signed, Items;
    Enforced(w, s, p);
    RecordReports(w, s, p, receipts, m);
    hide Log, Sign;
    t := StepReconcile(w, s, permit, items, m.observed, m.intended, m.stamp, record);
  }

  lemma Enforced(w: World, s: State, p: Subject)
    requires Provisioned(w) && Fit(w, Now(s), PermitType, p) && SignedIn(w, Now(s), PermitType, p)
    requires p.body.Permit? && p.body.grade in {"mediated", "platform"}
    ensures R.PermitEnforced(EnvAt(w, Now(s)), Dict(Signed(w, PermitType, p)), s.now)
  {
    SignedVerifies(w, Now(s), PermitType, p);
    hide Provisioned, Fit, SignedIn, Verified;
  }

  lemma RecordReports(w: World, s: State, p: Subject, receipts: seq<Subject>, m: Matter)
    requires Provisioned(w) && GoodReceipts(w, Now(s), p, receipts)
    requires ObservedAll(w, m.observed, m.intended, receipts) && R.Digestible(m.observed, m.intended)
    ensures R.Reports(EnvAt(w, Now(s)), Dict(Signed(w, PermitType, p)), Items(w, receipts), m.observed, m.intended,
                      w.records, m.stamp, s.now, RecordOf(w, p, s.now, m))
  {
    hide Provisioned, Verified, R.ReceiptOk, Digest, Items, E.IntendedDigest, E.ObservedDigest, R.Digestible, R.Clean,
      GoodReceipt, ObservedAll, R.Recorded, DigestHex;
    MatterDigests(w, m);
    CleanHere(w, s, p, receipts, m);
    R.CleanRecords(EnvAt(w, Now(s)), p, Items(w, receipts), m.observed, m.intended, s.now);
  }

  lemma CleanHere(w: World, s: State, p: Subject, receipts: seq<Subject>, m: Matter)
    requires Provisioned(w) && GoodReceipts(w, Now(s), p, receipts) && ObservedAll(w, m.observed, m.intended, receipts)
    ensures R.Clean(EnvAt(w, Now(s)), p, Items(w, receipts), m.observed, m.intended, s.now)
  {
    ItemsOk(w, Now(s), p, receipts);
    var items, env := Items(w, receipts), EnvAt(w, Now(s));
    hide Provisioned, Verified, R.ReceiptOk, DigestHex, Digest, GoodReceipt, Items;
    forall i | 0 <= i < |items| ensures R.EffectMatches(env, m.observed, m.intended, items[i]) {
      assert items[i] == Filing(w, receipts[i]);
    }
    hide R.EffectMatches, Filing, R.Delivered;
  }

  lemma SignPuts(w: World, s: State, t: WireType, x: Subject, u: State)
    requires SignerOf(w, t).Some? && u.signed == Sign(s, SignerOf(w, t).value, x).signed
    ensures SignedIn(w, Now(u), t, x)
  {}

  lemma StepReconcile(w: World, s: State, permit: Item, items: seq<Item>, observed: R.Observed,
                      intended: map<string, Json>, stamp: R.Stamp, record: Subject) returns (t: State)
    requires R.PermitEnforced(EnvAt(w, Now(s)), permit, s.now)
    requires R.Reports(EnvAt(w, Now(s)), permit, items, observed, intended, w.records, stamp, s.now, record)
    ensures Leads(w, s, t) && SignedIn(w, Now(t), ReconciliationType, record) && |t.history| == |s.history| + 1
    ensures t.history[|s.history|] == Reconciled(Now(s), permit, items, observed, intended, stamp, record)
  {
    hide R.PermitEnforced, R.Reports, Reaches;
    t := Log(Sign(s, w.records, record), Reconciled(Now(s), permit, items, observed, intended, stamp, record));
    assert Step(w, s, Event.Reconcile(permit, items, observed, intended, stamp, record)) == Some(t);
    hide Step;
    ReachesStep(w, s, Event.Reconcile(permit, items, observed, intended, stamp, record), t);
  }

  /** What else a certificate rests on. */
  datatype Backing = Backing(discharges: seq<Item>, obligations: seq<string>, sources: seq<string>,
                             freshness: Option<(string, int) -> bool>, approval: Option<Object>, prev: Option<string>)

  /** Obligations are discharged, sources fresh, and the approver is not the certifier. */
  ghost predicate Backed(w: World, at: Snap, p: Subject, b: Backing)
    requires p.body.Permit?
  {
    && (forall i :: 0 <= i < |b.obligations| ==>
          C.Discharged(EnvAt(w, at), b.discharges, b.obligations[i], p.body.permitAction, at.now))
    && (b.sources != [] ==> b.freshness.Some?)
    && (forall i :: 0 <= i < |b.sources| && b.freshness.Some? ==> b.freshness.value(b.sources[i], at.now))
    && (b.approval.Some? && b.approval.value.subject.body.HumanApproval? ==>
          w.certificates.identity != b.approval.value.subject.body.approver.id)
  }

  /** The digests of the first evidence for each obligation. */
  ghost predicate DischargeDigests(w: World, at: Snap, p: Subject, b: Backing, digests: seq<string>)
    requires p.body.Permit?
  {
    && |digests| == |b.obligations|
    && forall i :: 0 <= i < |b.obligations| ==>
      C.FirstDischarge(EnvAt(w, at), b.discharges, b.obligations[i], p.body.permitAction, at.now, digests[i])
  }

  lemma FirstAmong(env: Env, pool: seq<Item>, obligation: string, action: string, now: int, upto: nat) returns (i: nat)
    requires upto < |pool| && C.Discharges(env, pool[upto], obligation, action, now)
    ensures i <= upto && C.FirstAt(env, pool, obligation, action, now, i)
    decreases upto
  {
    hide C.Discharges;
    if j :| 0 <= j < upto && C.Discharges(env, pool[j], obligation, action, now) {
      i := FirstAmong(env, pool, obligation, action, now, j);
    } else {
      i := upto;
      DischargeDict(env, pool[upto], obligation, action, now);
    }
  }

  lemma DischargeDict(env: Env, item: Item, obligation: string, action: string, now: int)
    requires C.Discharges(env, item, obligation, action, now)
    ensures item.Dict?
  {}

  lemma FirstEvidence(env: Env, pool: seq<Item>, obligation: string, action: string, now: int) returns (d: string)
    requires Sound(env.codec) && C.Discharged(env, pool, obligation, action, now)
    ensures C.FirstDischarge(env, pool, obligation, action, now, d)
  {
    hide C.Discharges, Digest, Sound;
    var k :| 0 <= k < |pool| && C.Discharges(env, pool[k], obligation, action, now);
    var i := FirstAmong(env, pool, obligation, action, now, k);
    DigestPins(env.codec, pool[i].obj.subject, pool[i].obj.subject);
    d := Digest(env.codec, pool[i].obj.subject).value;
  }

  lemma AllEvidence(w: World, at: Snap, p: Subject, b: Backing) returns (digests: seq<string>)
    requires Sound(w.host.env.codec) && p.body.Permit? && Backed(w, at, p, b)
    ensures DischargeDigests(w, at, p, b, digests)
  {
    hide C.Discharged, C.FirstDischarge, Sound;
    digests := [];
    for n := 0 to |b.obligations|
      invariant |digests| == n
      invariant forall i :: 0 <= i < n ==>
        C.FirstDischarge(EnvAt(w, at), b.discharges, b.obligations[i], p.body.permitAction, at.now, digests[i])
    {
      var d := FirstEvidence(EnvAt(w, at), b.discharges, b.obligations[n], p.body.permitAction, at.now);
      digests := digests + [d];
    }
  }

  /** New signatures take no evidence away. */
  lemma StillBacked(w: World, s: State, u: State, p: Subject, b: Backing)
    requires Onward(s, u) && p.body.Permit? && Backed(w, Now(s), p, b)
    ensures Backed(w, Now(u), p, b)
  {
    hide Verified;
    forall i | 0 <= i < |b.obligations|
      ensures C.Discharged(EnvAt(w, Now(u)), b.discharges, b.obligations[i], p.body.permitAction, u.now)
    {
      var k :| 0 <= k < |b.discharges| && C.Discharges(EnvAt(w, Now(s)), b.discharges[k], b.obligations[i],
                                                       p.body.permitAction, s.now);
      StillVerified(w, s, u, b.discharges[k].obj, DischargeType);
      assert C.Discharges(EnvAt(w, Now(u)), b.discharges[k], b.obligations[i], p.body.permitAction, u.now);
    }
  }

  lemma StillVerified(w: World, s: State, u: State, o: Object, t: WireType)
    requires Onward(s, u) && Verified(EnvAt(w, Now(s)), o, t, s.now)
    ensures Verified(EnvAt(w, Now(u)), o, t, u.now)
  {
    hide IsRevoked, OwnedBy, Digest;
  }

  function AskCertificate(w: World, p: Subject, receipts: seq<Subject>, record: Subject, role: string, stamp: R.Stamp,
                          b: Backing): C.Request {
    C.Request(Dict(Signed(w, PermitType, p)), Items(w, receipts), Dict(Signed(w, ReconciliationType, record)),
              b.discharges, b.obligations, b.sources, b.freshness, b.approval, role, stamp, b.prev)
  }

  function DigestList(w: World, receipts: seq<Subject>): (r: seq<string>)
    ensures |r| == |receipts|
  {
    seq(|receipts|, i requires 0 <= i < |receipts| => Digest(w.host.env.codec, receipts[i]).GetOr(""))
  }

  function CertificateOf(w: World, p: Subject, receipts: seq<Subject>, record: Subject, now: int, role: string,
                         stamp: R.Stamp, discharged: seq<string>, prev: Option<string>): Subject
    requires p.body.Permit?
  {
    Subject(w.certificates.identity, now, Some(now + stamp.ttl), stamp.runId, stamp.nonce, w.certificates.keyId,
            Certificate(p.body.permitAction, Digest(w.host.env.codec, p).GetOr(""),
                        Digest(w.host.env.codec, record).GetOr(""), DigestList(w, receipts), discharged,
                        Party(w.certificates.identity, role), prev))
  }

  predicate Differ(w: World, i: Issuer) { w.certificates.identity != i.identity && w.certificates.keyId != i.keyId }

  /** The certifier is none of the others, nor an executor. */
  ghost predicate CertifierApart(w: World, receipts: seq<Subject>) {
    && Differ(w, w.permits) && Differ(w, w.receipts) && Differ(w, w.records)
    && forall i :: 0 <= i < |receipts| && receipts[i].body.ToolReceipt? ==>
      w.certificates.identity != receipts[i].body.executor.id
  }

  ghost predicate IssuedBy(i: Issuer, s: Subject) { s.issuer == i.identity && s.keyId == i.keyId }

  /** Whatever receipts the record was about, `certify` signs for any list of good ones. */
  lemma CertifyFires(w: World, s: State, p: Subject, receipts: seq<Subject>, now: int, m: Matter, role: string,
                     stamp: R.Stamp, b: Backing) returns (t: State, discharged: seq<string>)
    requires Provisioned(w) && Fit(w, Now(s), PermitType, p) && SignedIn(w, Now(s), PermitType, p)
    requires IssuedBy(w.permits, p)
    requires GoodReceipts(w, Now(s), p, receipts) && p.body.grade in {"mediated", "platform"}
    requires CertifierApart(w, receipts)
    requires forall i :: 0 <= i < |receipts| ==> IssuedBy(w.receipts, receipts[i])
    requires Backed(w, Now(s), p, b)
    requires var r := RecordOf(w, p, now, m);
      Fit(w, Now(s), ReconciliationType, r) && SignedIn(w, Now(s), ReconciliationType, r)
    ensures var r := RecordOf(w, p, now, m);
      var c := CertificateOf(w, p, receipts, r, s.now, role, stamp, discharged, b.prev);
      && t == Log(Sign(s, w.certificates, c), Certified(Now(s), AskCertificate(w, p, receipts, r, role, stamp, b), c))
      && C.Certifiable(EnvAt(w, Now(s)), AskCertificate(w, p, receipts, r, role, stamp, b), w.certificates, s.now)
      && C.Attests(EnvAt(w, Now(s)), AskCertificate(w, p, receipts, r, role, stamp, b), w.certificates, s.now, c)
    ensures Leads(w, s, t) && DischargeDigests(w, Now(s), p, b, discharged)
  {
    var r := RecordOf(w, p, now, m);
    discharged := AllEvidence(w, Now(s), p, b);
    var asked := AskCertificate(w, p, receipts, r, role, stamp, b);
    var c := CertificateOf(w, p, receipts, r, s.now, role, stamp, discharged, b.prev);
    CertifiableHere(w, s, p, receipts, now, m, role, stamp, b);
    AttestsHere(w, s, p, receipts, r, role, stamp, b, discharged);
    hide Provisioned, Fit, SignedIn, GoodReceipts, CertifierApart, IssuedBy, RecordOf, AskCertificate, CertificateOf,
      C.Certifiable, C.Attests, Reaches, Backed, DischargeDigests;
    t := StepCertify(w, s, asked, c);
  }

  lemma StepCertify(w: World, s: State, asked: C.Request, c: Subject) returns (t: State)
    requires C.Certifiable(EnvAt(w, Now(s)), asked, w.certificates, s.now)
    requires C.Attests(EnvAt(w, Now(s)), asked, w.certificates, s.now, c)
    ensures t == Log(Sign(s, w.certificates, c), Certified(Now(s), asked, c)) && Leads(w, s, t)
  {
    hide C.Certifiable, C.Attests, Reaches;
    t := Log(Sign(s, w.certificates, c), Certified(Now(s), asked, c));
    assert Step(w, s, Event.Certify(asked, c)) == Some(t);
    hide Step;
    ReachesStep(w, s, Event.Certify(asked, c), t);
  }

  lemma CertifiableHere(w: World, s: State, p: Subject, receipts: seq<Subject>, now: int, m: Matter, role: string,
                        stamp: R.Stamp, b: Backing)
    requires Provisioned(w) && Fit(w, Now(s), PermitType, p) && SignedIn(w, Now(s), PermitType, p)
    requires IssuedBy(w.permits, p)
    requires GoodReceipts(w, Now(s), p, receipts) && p.body.grade in {"mediated", "platform"}
    requires CertifierApart(w, receipts)
    requires forall i :: 0 <= i < |receipts| ==> IssuedBy(w.receipts, receipts[i])
    requires Backed(w, Now(s), p, b)
    requires var r := RecordOf(w, p, now, m);
      Fit(w, Now(s), ReconciliationType, r) && SignedIn(w, Now(s), ReconciliationType, r)
    ensures C.Certifiable(EnvAt(w, Now(s)), AskCertificate(w, p, receipts, RecordOf(w, p, now, m), role, stamp, b),
                          w.certificates, s.now)
  {
    var r := RecordOf(w, p, now, m);
    SignedVerifies(w, Now(s), PermitType, p);
    SignedVerifies(w, Now(s), ReconciliationType, r);
    ItemsOk(w, Now(s), p, receipts);
    hide Provisioned, Fit, SignedIn, GoodReceipt, Verified, R.ReceiptOk, C.Discharged;
    var items := Items(w, receipts);
    forall i | 0 <= i < |items| ensures C.SeparateFromReceipt(w.certificates, items[i]) {
      assert items[i] == Filing(w, receipts[i]) && IssuedBy(w.receipts, receipts[i]);
    }
    hide Items;
  }

  lemma AttestsHere(w: World, s: State, p: Subject, receipts: seq<Subject>, r: Subject, role: string, stamp: R.Stamp,
                    b: Backing, discharged: seq<string>)
    requires Provisioned(w) && p.body.Permit? && DischargeDigests(w, Now(s), p, b, discharged)
    ensures C.Attests(EnvAt(w, Now(s)), AskCertificate(w, p, receipts, r, role, stamp, b), w.certificates, s.now,
                      CertificateOf(w, p, receipts, r, s.now, role, stamp, discharged, b.prev))
  {
    var codec := w.host.env.codec;
    DigestPins(codec, p, r);
    DigestPins(codec, r, r);
    var items, digests := Items(w, receipts), DigestList(w, receipts);
    forall i | 0 <= i < |items| ensures items[i].Dict? && Digest(codec, items[i].obj.subject) == Some(digests[i]) {
      DigestPins(codec, receipts[i], receipts[i]);
    }
    hide Provisioned, Items, DigestList, Digest, C.FirstDischarge;
  }

  // ---- the whole run ----

  /** One action: what is admitted, the permit's terms, the call it binds, what was intended, the
      stamps, and what else the certificate rests on. */
  datatype Order = Order(intake: Intake, terms: Terms, approval: Option<Object>, extra: map<string, Constraint>,
                         job: Job, intended: map<string, Json>, recordStamp: R.Stamp, role: string, stamp: R.Stamp,
                         backing: Backing)

  ghost function PermitOf(w: World, s: State, o: Order): Subject {
    PermitSubject(Decide(HostAt(w, Now(s)), o.intake, s.now), w.permits, o.terms)
  }

  /** The terms ask for an enforced permit under a new nonce that binds the call, its sender can
      prove possession if it names one, and at most the effect of this call was intended. */
  ghost predicate Orderly(w: World, s: State, o: Order) {
    && (o.terms.runId, o.terms.nonce) !in s.recorded && (o.terms.runId, o.terms.nonce) !in s.consumed
    && o.terms.grade in {"mediated", "platform"} && (o.terms.aud.Some? <==> o.terms.cnf.Some?)
    && IssuerSeparate(w.permits, o.approval)
    && SenderOk(w.pe, Signed(w, PermitType, PermitOf(w, s, o)), o.job.identity, o.job.proof)
    && o.job.tool != "" && Printable(o.job.arguments) && Printable(o.job.outcome.effect) && !o.job.outcome.effect.Null?
    && (o.job.prev.Some? ==> w.linking)
    && Some(o.terms.constraints) == BindConstraints(w.host.env.codec.sha, o.job.tool, o.job.arguments, o.extra)
    && forall tool :: tool in o.intended ==> tool == o.job.tool && SameDigest(w, o.intended[tool], o.job.outcome.effect)
  }

  predicate SameDigest(w: World, a: Json, b: Json) {
    DigestHex(w.host.env.codec.sha, a) == DigestHex(w.host.env.codec.sha, b)
  }

  /** What the record will be about: this effect, under this receipt. */
  ghost function MatterOf(w: World, s: State, o: Order): Matter {
    Matter(o.recordStamp, ObservedOnce(w, ReceiptOf(w, PermitOf(w, s, o), o.job), o.job.outcome.effect), o.intended)
  }

  /** The three objects on the way will be accepted: of the right shape, unexpired and unrevoked. */
  ghost predicate Acceptable(w: World, s: State, o: Order) {
    var p := PermitOf(w, s, o);
    && Fit(w, Now(s), PermitType, p)
    && Fit(w, Now(s), ToolReceiptType, ReceiptOf(w, p, o.job))
    && Fit(w, Now(s), ReconciliationType, RecordOf(w, p, s.now, MatterOf(w, s, o)))
    && CertifierApart(w, [ReceiptOf(w, p, o.job)]) && Backed(w, Now(s), p, o.backing)
  }

  lemma OrderCallable(w: World, s: State, o: Order)
    requires Provisioned(w) && Orderly(w, s, o)
    ensures Callable(w, PermitOf(w, s, o), o.job)
  {
    var a := Decide(HostAt(w, Now(s)), o.intake, s.now);
    hide Decide, Printable, BindConstraints, MatchOk, MergedConstraints, KeyReady, Hashing, Sound, SenderOk, Signed,
      SameDigest;
    BindingRoundTrip(w.host.env.codec.sha, o.job.tool, o.job.arguments, o.extra, a.reservations, o.job.tool,
                     o.job.arguments);
  }

  lemma SamePrints(w: World, a: Json, b: Json)
    requires SameDigest(w, a, b) && Printable(b)
    ensures Printable(a)
  {
    RT.CanonSome(a);
    RT.CanonSome(b);
  }

  function ObservedOnce(w: World, receipt: Subject, effect: Json): R.Observed {
    R.Observed(map[Digest(w.host.env.codec, receipt).GetOr("") := effect], [])
  }

  lemma ObservedHere(w: World, p: Subject, j: Job, intended: map<string, Json>)
    requires Provisioned(w) && Callable(w, p, j) && !j.outcome.effect.Null?
    requires forall tool :: tool in intended ==> tool == j.tool && SameDigest(w, intended[tool], j.outcome.effect)
    ensures ObservedAll(w, ObservedOnce(w, ReceiptOf(w, p, j), j.outcome.effect), intended, [ReceiptOf(w, p, j)])
    ensures R.Digestible(ObservedOnce(w, ReceiptOf(w, p, j), j.outcome.effect), intended)
  {
    forall tool | tool in intended ensures Printable(intended[tool]) {
      SamePrints(w, intended[tool], j.outcome.effect);
    }
    hide Printable, MatchOk, DigestHex, KeyReady, Hashing, Hash, SenderOk;
    DigestPins(w.host.env.codec, ReceiptOf(w, p, j), ReceiptOf(w, p, j));
    Hashes(w, j.outcome.effect);
    assert R.IsTool(Items(w, [ReceiptOf(w, p, j)])[0]);
  }

  /** Admit, issue, check, perform and file. */
  lemma OrderCalled(w: World, s: State, o: Order) returns (t: State)
    requires Reachable(w, s) && Provisioned(w) && Admissible(HostAt(w, Now(s)), o.intake, s.now)
    requires Orderly(w, s, o) && Fit(w, Now(s), PermitType, PermitOf(w, s, o))
    ensures Leads(w, s, t)
    ensures var p := PermitOf(w, s, o);
      && PermitOf(w, s, o).body.Permit? && Callable(w, p, o.job)
      && SignedIn(w, Now(t), PermitType, p) && SignedIn(w, Now(t), ToolReceiptType, ReceiptOf(w, p, o.job))
      && p.body.permitAction == o.intake.plan.actionDigest
  {
    var p := PermitOf(w, s, o);
    OrderCallable(w, s, o);
    hide Reachable, Provisioned, Admissible, Fit, Callable, Reaches, Decide, SignedIn, Printable, BindConstraints,
      SenderOk;
    var s1 := Admits(w, s, o.intake);
    var s2, permit := Issues(w, s1, |s.history|, o.terms, o.approval);
    assert permit == p;
    ReachesReachable(w, s, s1);
    ReachesReachable(w, s1, s2);
    LeadsTrans(w, s, s1, s2);
    StillFit(w, s, s2, PermitType, p);
    hide PermitSubject, ReceiptOf;
    t := CallCompletes(w, s2, p, o.job);
    LeadsTrans(w, s, s2, t);
    StillFit(w, s2, t, PermitType, p);
  }

  /** The last entry of the run is this certificate, signed as asked. */
  ghost predicate EndsCertified(w: World, t: State, asked: C.Request, c: Subject) {
    && t.history != []
    && (var e := t.history[|t.history| - 1]; e.Certified? && e.asked == asked && e.certificate == c)
    && SignedIn(w, Now(t), CertificateType, c)
  }

  lemma LogEnds(w: World, s: State, t: State, asked: C.Request, c: Subject)
    requires t == Log(Sign(s, w.certificates, c), Certified(Now(s), asked, c))
    ensures EndsCertified(w, t, asked, c)
  {}

  lemma CertifyEnds(w: World, s: State, p: Subject, receipts: seq<Subject>, now: int, m: Matter, role: string,
                    stamp: R.Stamp, b: Backing)
      returns (t: State, discharged: seq<string>)
    requires Provisioned(w) && Fit(w, Now(s), PermitType, p) && SignedIn(w, Now(s), PermitType, p)
    requires IssuedBy(w.permits, p)
    requires GoodReceipts(w, Now(s), p, receipts) && p.body.grade in {"mediated", "platform"}
    requires CertifierApart(w, receipts)
    requires forall i :: 0 <= i < |receipts| ==> IssuedBy(w.receipts, receipts[i])
    requires Backed(w, Now(s), p, b)
    requires var r := RecordOf(w, p, now, m);
      Fit(w, Now(s), ReconciliationType, r) && SignedIn(w, Now(s), ReconciliationType, r)
    ensures Leads(w, s, t) && |discharged| == |b.obligations|
    ensures var r := RecordOf(w, p, now, m);
      EndsCertified(w, t, AskCertificate(w, p, receipts, r, role, stamp, b),
                    CertificateOf(w, p, receipts, r, s.now, role, stamp, discharged, b.prev))
  {
    var r := RecordOf(w, p, now, m);
    hide Provisioned, Reaches, RecordOf, CertificateOf, AskCertificate, CertifierApart, IssuedBy, Fit, SignedIn,
      GoodReceipts, Backed, C.Certifiable, C.Attests, EndsCertified;
    t, discharged := CertifyFires(w, s, p, receipts, now, m, role, stamp, b);
    LogEnds(w, s, t, AskCertificate(w, p, receipts, r, role, stamp, b),
            CertificateOf(w, p, receipts, r, s.now, role, stamp, discharged, b.prev));
  }

  /** Receipts that verify and whose effects were observed are led on to a certificate over them all. */
  lemma ReceiptsCertified(w: World, s: State, p: Subject, receipts: seq<Subject>, m: Matter, role: string,
                          stamp: R.Stamp, b: Backing)
      returns (t: State, discharged: seq<string>)
    requires Provisioned(w) && Fit(w, Now(s), PermitType, p) && SignedIn(w, Now(s), PermitType, p)
    requires IssuedBy(w.permits, p)
    requires GoodReceipts(w, Now(s), p, receipts) && p.body.grade in {"mediated", "platform"}
    requires CertifierApart(w, receipts)
    requires forall i :: 0 <= i < |receipts| ==> IssuedBy(w.receipts, receipts[i])
    requires ObservedAll(w, m.observed, m.intended, receipts) && R.Digestible(m.observed, m.intended)
    requires Backed(w, Now(s), p, b)
    requires Fit(w, Now(s), ReconciliationType, RecordOf(w, p, s.now, m))
    ensures Leads(w, s, t) && |discharged| == |b.obligations|
    ensures var r := RecordOf(w, p, s.now, m);
      EndsCertified(w, t, AskCertificate(w, p, receipts, r, role, stamp, b),
                    CertificateOf(w, p, receipts, r, s.now, role, stamp, discharged, b.prev))
  {
    var record := RecordOf(w, p, s.now, m);
    hide Provisioned, Reaches, RecordOf, CertificateOf, AskCertificate, ObservedAll, CertifierApart, IssuedBy, Fit,
      SignedIn, GoodReceipts, Backed, EndsCertified, R.Digestible;
    var s1 := ReconcileFires(w, s, p, receipts, m);
    StillAll(w, s, s1, p, receipts, record, b);
    t, discharged := CertifyEnds(w, s1, p, receipts, s.now, m, role, stamp, b);
    LeadsTrans(w, s, s1, t);
  }

  lemma StillAll(w: World, s: State, u: State, p: Subject, receipts: seq<Subject>, record: Subject, b: Backing)
    requires Onward(s, u) && GoodReceipts(w, Now(s), p, receipts) && Backed(w, Now(s), p, b)
    requires Fit(w, Now(s), PermitType, p) && SignedIn(w, Now(s), PermitType, p)
    requires Fit(w, Now(s), ReconciliationType, record)
    ensures GoodReceipts(w, Now(u), p, receipts) && Backed(w, Now(u), p, b)
    ensures Fit(w, Now(u), PermitType, p) && SignedIn(w, Now(u), PermitType, p)
    ensures Fit(w, Now(u), ReconciliationType, record)
  {
    StillGood(w, s, u, p, receipts);
    hide Fit, SignedIn, GoodReceipts, Backed;
    StillFit(w, s, u, PermitType, p);
    StillFit(w, s, u, ReconciliationType, record);
    StillBacked(w, s, u, p, b);
  }

  lemma StillGood(w: World, s: State, u: State, p: Subject, receipts: seq<Subject>)
    requires Onward(s, u) && GoodReceipts(w, Now(s), p, receipts)
    ensures GoodReceipts(w, Now(u), p, receipts)
  {
    forall i | 0 <= i < |receipts| ensures GoodReceipt(w, Now(u), p, receipts[i]) {
      assert GoodReceipt(w, Now(s), p, receipts[i]);
      StillFit(w, s, u, ToolReceiptType, receipts[i]);
    }
  }

  /** From every reachable state: an admissible action, with a new nonce, acceptable objects, its
      obligations discharged and a certifier apart from the others, is led on to a certificate of
      that action and that receipt. */
  lemma PipelineCompletes(w: World, s: State, o: Order) returns (t: State, discharged: seq<string>)
    requires Reachable(w, s) && Provisioned(w) && Admissible(HostAt(w, Now(s)), o.intake, s.now)
    requires Orderly(w, s, o) && Acceptable(w, s, o)
    ensures Leads(w, s, t)
    ensures var p := PermitOf(w, s, o); var receipts := [ReceiptOf(w, p, o.job)];
      var r := RecordOf(w, p, s.now, MatterOf(w, s, o));
      var c := CertificateOf(w, p, receipts, r, s.now, o.role, o.stamp, discharged, o.backing.prev);
      && EndsCertified(w, t, AskCertificate(w, p, receipts, r, o.role, o.stamp, o.backing), c)
      && c.body.Certificate? && c.body.certAction == o.intake.plan.actionDigest
      && |discharged| == |o.backing.obligations|
  {
    hide Reachable, Provisioned, Admissible, Callable, Reaches, Decide, RecordOf, ObservedAll, SignedIn, Fit,
      CertificateOf, MatterOf, R.Digestible, CertifierApart, Backed, EndsCertified, AskCertificate, Orderly, Acceptable,
      PermitOf, ReceiptOf, GoodReceipts, IssuedBy;
    AcceptablePermit(w, s, o);
    var p := PermitOf(w, s, o);
    var s1 := OrderCalled(w, s, o);
    OrderReady(w, s, s1, o);
    var receipts := [ReceiptOf(w, p, o.job)];
    t, discharged := ReceiptsCertified(w, s1, p, receipts, MatterOf(w, s, o), o.role, o.stamp, o.backing);
    LeadsTrans(w, s, s1, t);
    CertifiedAction(w, p, receipts, RecordOf(w, p, s.now, MatterOf(w, s, o)), s.now, o.role, o.stamp, discharged,
                    o.backing.prev);
  }

  lemma AcceptablePermit(w: World, s: State, o: Order)
    requires Acceptable(w, s, o)
    ensures Fit(w, Now(s), PermitType, PermitOf(w, s, o))
  {}

  lemma CertifiedAction(w: World, p: Subject, receipts: seq<Subject>, record: Subject, now: int, role: string,
                        stamp: R.Stamp, discharged: seq<string>, prev: Option<string>)
    requires p.body.Permit?
    ensures var c := CertificateOf(w, p, receipts, record, now, role, stamp, discharged, prev);
      c.body.Certificate? && c.body.certAction == p.body.permitAction
  {}

  /** After the call all that reconciling and certifying need is there. */
  lemma OrderReady(w: World, s: State, u: State, o: Order)
    requires Provisioned(w) && Orderly(w, s, o) && Acceptable(w, s, o) && Onward(s, u) && PermitOf(w, s, o).body.Permit?
    requires var p := PermitOf(w, s, o);
      Callable(w, p, o.job) && SignedIn(w, Now(u), ToolReceiptType, ReceiptOf(w, p, o.job))
    ensures var p := PermitOf(w, s, o); var r := ReceiptOf(w, p, o.job);
      && Fit(w, Now(u), PermitType, p) && IssuedBy(w.permits, p) && p.body.grade in {"mediated", "platform"}
      && GoodReceipts(w, Now(u), p, [r]) && IssuedBy(w.receipts, r) && CertifierApart(w, [r])
      && Backed(w, Now(u), p, o.backing)
      && ObservedAll(w, MatterOf(w, s, o).observed, MatterOf(w, s, o).intended, [r])
      && R.Digestible(MatterOf(w, s, o).observed, MatterOf(w, s, o).intended)
      && Fit(w, Now(u), ReconciliationType, RecordOf(w, p, u.now, MatterOf(w, s, o)))
  {
    var p := PermitOf(w, s, o);
    var r := ReceiptOf(w, p, o.job);
    hide Provisioned, Callable, Decide, RecordOf, ObservedOnce, ObservedAll, SignedIn, BindConstraints, Printable,
      CertifierApart, IsRevoked, Backed, SenderOk, SameDigest, Fit, R.Digestible;
    ObservedHere(w, p, o.job, o.intended);
    StillFit(w, s, u, PermitType, p);
    StillFit(w, s, u, ToolReceiptType, r);
    StillFit(w, s, u, ReconciliationType, RecordOf(w, p, s.now, MatterOf(w, s, o)));
    StillBacked(w, s, u, p, o.backing);
    assert GoodReceipt(w, Now(u), p, r);
  }
}
