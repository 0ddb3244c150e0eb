/** Runs that exist: what the theorems about the pipeline allow does happen, in a concrete world. */
module Witness {
  import opened Prelude
  import opened Canonical
  import opened Digests
  import opened Wire
  import opened Verification
  import opened Executor
  import opened Admission
  import opened Pipeline
  import opened Completion
  import P = Pipeline
  import R = Reconciling
  import C = Certifying
  import A = AuditChain
  import Chain
  import E = EffectDigests
  import RT = RoundTrip
  import WireCodec

  // ---- a world ----

  function Marked(): string -> string { (text: string) => "#" + text }

  lemma MarkedHashes()
    ensures Hashing(Marked())
  {
    forall a, b | Marked()(a) == Marked()(b) ensures a == b {
      assert a == ("#" + a)[1..] && b == ("#" + b)[1..];
    }
  }

  function Named(name: string): Issuer { Issuer(name, name, name, (s: Subject) => "signature") }

  function KeyFor(name: string, t: WireType): Binding { Binding(name, {TypeName(t)}, {}, Some(name)) }

  function Keys(): map<string, Binding> {
    map["issuer" := KeyFor("issuer", PermitType), "executor" := KeyFor("executor", ToolReceiptType),
        "reconciler" := KeyFor("reconciler", ReconciliationType), "certifier" := KeyFor("certifier", CertificateType)]
  }

  /** Four components with a key each, and the wire dicts of `WireCodec`. */
  ghost function Workshop(linking: bool): World {
    World(Host(Env(WireCodec.CodecOf(Marked()), (s: Subject) => true, map[], Keys(), {}, {}), [], {}),
          ProofEnv((x: string) => x, {}), Named("issuer"), Named("executor"), Named("reconciler"), Named("certifier"),
          linking)
  }

  lemma NamesApart()
    ensures "issuer" != "executor" && "issuer" != "reconciler" && "issuer" != "certifier"
    ensures "executor" != "reconciler" && "executor" != "certifier" && "reconciler" != "certifier"
  {
    assert |"issuer"| == 6 && |"executor"| == 8 && |"reconciler"| == 10 && |"certifier"| == 9;
  }

  lemma TypesApart()
    ensures TypeName(PermitType) != TypeName(ToolReceiptType) && TypeName(PermitType) != TypeName(ReconciliationType)
    ensures TypeName(PermitType) != TypeName(CertificateType)
    ensures TypeName(ToolReceiptType) != TypeName(ReconciliationType)
    ensures TypeName(ToolReceiptType) != TypeName(CertificateType)
    ensures TypeName(ReconciliationType) != TypeName(CertificateType)
    ensures forall t :: TypeName(t) != ANY
  {
    assert |"StageReceipt"| == 12 && |"HumanApprovalReceipt"| == 20 && |"ExecutionPermit"| == 15;
    assert |"ToolReceipt"| == 11;
    assert |"Reconciliation"| == 14 && |"ObligationDischargeReceipt"| == 26 && |"OversightCertificate"| == 20;
    assert |ANY| == 1;
  }

  lemma KeyForOnly(name: string, t: WireType, u: WireType)
    requires t in {PermitType, ToolReceiptType, ReconciliationType, CertificateType}
    requires u in {PermitType, ToolReceiptType, ReconciliationType, CertificateType}
    ensures KeyFor(name, t).AuthorizesType(TypeName(u)) <==> t == u
  {
    TypesApart();
    hide TypeName;
  }

  lemma WorkshopIsSound(linking: bool)
    ensures Honest(Workshop(linking)) && Provisioned(Workshop(linking))
  {
    var w := Workshop(linking);
    MarkedHashes();
    WireCodec.CodecSound(Marked());
    NamesApart();
    hide Sound, Hashing, WireCodec.CodecOf, Marked;
    forall t | SignerOf(w, t).Some?
      ensures KeyReady(w, SignerOf(w, t).value, t)
      ensures w.host.env.trust[SignerOf(w, t).value.keyId] == KeyFor(SignerOf(w, t).value.keyId, t)
    {
      KeyForOnly(SignerOf(w, t).value.keyId, t, t);
      hide KeyFor, TypeName;
    }
    forall id, t | id in w.host.env.trust && SignerOf(w, t).Some? && w.host.env.trust[id].AuthorizesType(TypeName(t))
      ensures w.host.env.trust[id].publicKey == SignerOf(w, t).value.publicKey
    {
      var u := TypeOfKey(id);
      KeyForOnly(id, u, t);
      hide TypeName;
    }
  }

  function TypeOfKey(id: string): WireType {
    if id == "issuer" then PermitType else if id == "executor" then ToolReceiptType
    else if id == "reconciler" then ReconciliationType else CertificateType
  }

  // ---- two calls for one action ----

  const ACTION := "deploy"
  const STAMP := R.Stamp("run", "stamp", 10)

  /** No obligations, sources or approval behind the certificate. */
  const ALONE := Backing([], [], [], None, None, None)

  function Intent(): Intake {
    Intake(Plan(false, "maker", "kind", ACTION, [], true, "", Steer, ""), [],
           GovernanceBlock({"kind"}, {}, {}, "block"), None, None, [], None, "author")
  }

  function TermsFor(nonce: string): Terms {
    Terms("mediated", "adapter", "run", nonce, 0, 10, BindConstraints(Marked(), "tool", Null, map[]).GetOr(map[]),
          None, None)
  }

  /** One call under this nonce, its receipt linked to `prev`. */
  function OrderFor(nonce: string, prev: Option<string>): Order {
    Order(Intent(), TermsFor(nonce), None, map[],
          Job("tool", Null, None, None, Outcome(Bool(true), Party("worker", "executor")), "dispatch", Clock(0, 0, 10),
              prev), map[], STAMP, "certifier", STAMP,
          ALONE)
  }

  ghost function FirstPermit(w: World): Subject { PermitOf(w, P.Init, OrderFor("1", None)) }

  ghost function FirstReceipt(w: World): Subject { ReceiptOf(w, FirstPermit(w), OrderFor("1", None).job) }

  /** The second receipt names the first, where the host links. */
  ghost function Link(w: World): Option<string> {
    if w.linking then Digest(w.host.env.codec, FirstReceipt(w)) else None
  }

  ghost function SecondPermit(w: World): Subject { PermitOf(w, P.Init, OrderFor("2", Link(w))) }

  ghost function SecondReceipt(w: World): Subject { ReceiptOf(w, SecondPermit(w), OrderFor("2", Link(w)).job) }

  ghost function Both(w: World): seq<Subject> { [FirstReceipt(w), SecondReceipt(w)] }

  lemma IntentAdmissible(w: World)
    requires w == Workshop(w.linking)
    ensures Admissible(HostAt(w, Now(P.Init)), Intent(), 0)
  {}

  ghost predicate Setting(w: World, at: Snap, prev: Option<string>) {
    w == Workshop(w.linking) && (prev.Some? ==> w.linking) && at.now == 0 && at.revocations == {}
  }

  lemma OrderFits(w: World, at: Snap, nonce: string, prev: Option<string>)
    requires Setting(w, at, prev)
    ensures var o := OrderFor(nonce, prev); var p := PermitOf(w, P.Init, o);
      && p.body.Permit? && p.body.permitAction == ACTION && p.body.grade == "mediated"
      && (p.runId, p.nonce) == ("run", nonce)
      && Fit(w, at, PermitType, p) && IssuedBy(w.permits, p)
      && Fit(w, at, ToolReceiptType, ReceiptOf(w, p, o.job)) && IssuedBy(w.receipts, ReceiptOf(w, p, o.job))
  {
    IntentAdmissible(w);
    hide DigestHex, BindConstraints, Keys, Marked, WireCodec.CodecOf;
    AdmissibleAdmits(HostAt(w, Now(P.Init)), Intent(), 0);
    hide Decide, Admissible;
  }

  lemma OrderIsCallable(w: World, nonce: string, prev: Option<string>)
    requires w == Workshop(w.linking) && (prev.Some? ==> w.linking)
    ensures var o := OrderFor(nonce, prev); Callable(w, PermitOf(w, P.Init, o), o.job)
  {
    var o := OrderFor(nonce, prev);
    WorkshopIsSound(w.linking);
    RT.CanonSome(Null);
    assert Orderly(w, P.Init, o) by {
      hide Honest, Provisioned, Canon, Keys, WireCodec.DigestOf, Decide;
      assert BindConstraints(w.host.env.codec.sha, "tool", Null, map[]).Some?;
    }
    hide Honest, Provisioned, Orderly, Callable, Canon, Keys, WireCodec.CodecOf, Decide;
    OrderCallable(w, P.Init, o);
  }

  lemma IssuesFor(w: World, s: State, o: Order) returns (t: State)
    requires w == Workshop(w.linking) && o.intake == Intent() && o.terms == TermsFor(o.terms.nonce)
    requires Reachable(w, s) && |s.history| > 0 && s.now == 0 && ("run", o.terms.nonce) !in s.recorded
    requires s.history[0].Decided? && s.history[0].result == Decide(HostAt(w, Now(P.Init)), Intent(), 0)
    ensures Leads(w, s, t) && Reachable(w, t) && t.recorded == s.recorded + {("run", o.terms.nonce)}
    ensures t.consumed == s.consumed
    ensures SignedIn(w, Now(t), PermitType, PermitOf(w, P.Init, o)) && |t.history| > 0 && t.history[0] == s.history[0]
  {
    IntentAdmissible(w);
    AdmissibleAdmits(HostAt(w, Now(P.Init)), Intent(), 0);
    var permit: Subject;
    hide Reachable, Reaches, Decide, Admissible, BindConstraints, PermitSubject, SignedIn, Workshop;
    t, permit := Issues(w, s, 0, o.terms, None);
    ReachesReachable(w, s, t);
  }

  /** Admit once, and issue two permits from the one admission. */
  lemma BothIssued(w: World, a: Order, b: Order) returns (s: State)
    requires w == Workshop(w.linking) && a.intake == Intent() && b.intake == Intent()
    requires a.terms == TermsFor("1") && b.terms == TermsFor("2")
    ensures Reachable(w, s) && s.now == 0 && s.revocations == {} && s.consumed == {}
    ensures SignedIn(w, Now(s), PermitType, PermitOf(w, P.Init, a))
    ensures SignedIn(w, Now(s), PermitType, PermitOf(w, P.Init, b))
  {
    IntentAdmissible(w);
    hide Reachable, Reaches, Decide, Admissible, SignedIn, PermitOf, BindConstraints, Workshop, Fit;
    var s1 := Admits(w, P.Init, Intent());
    Starts(w);
    ReachesReachable(w, P.Init, s1);
    var s2 := IssuesFor(w, s1, a);
    s := IssuesFor(w, s2, b);
    StillFit(w, s2, s, PermitType, PermitOf(w, P.Init, a));
  }

  lemma Starts(w: World)
    ensures Reachable(w, P.Init)
  {
    assert P.Run(w, P.Init, []) == Some(P.Init);
  }

  lemma CallsFor(w: World, s: State, nonce: string, prev: Option<string>) returns (t: State)
    requires Setting(w, Now(s), prev) && Reachable(w, s) && ("run", nonce) !in s.consumed
    requires SignedIn(w, Now(s), PermitType, PermitOf(w, P.Init, OrderFor(nonce, prev)))
    ensures Leads(w, s, t) && Reachable(w, t) && t.consumed == s.consumed + {("run", nonce)}
    ensures var o := OrderFor(nonce, prev); var p := PermitOf(w, P.Init, o);
      && p.body.Permit? && SignedIn(w, Now(t), ToolReceiptType, ReceiptOf(w, p, o.job))
  {
    var o := OrderFor(nonce, prev);
    WorkshopIsSound(w.linking);
    OrderFits(w, Now(s), nonce, prev);
    OrderIsCallable(w, nonce, prev);
    hide Reachable, Reaches, Provisioned, Honest, SignedIn, Callable, PermitOf, ReceiptOf, Fit, Workshop, IssuedBy;
    t := CallCompletes(w, s, PermitOf(w, P.Init, o), o.job);
    ReachesReachable(w, s, t);
  }

  /** Admit once, issue twice, and make both calls. */
  lemma BothCalled(w: World) returns (s: State)
    requires w == Workshop(w.linking)
    ensures Reachable(w, s) && s.now == 0 && s.revocations == {}
    ensures SignedIn(w, Now(s), PermitType, FirstPermit(w))
    ensures SignedIn(w, Now(s), ToolReceiptType, FirstReceipt(w))
    ensures SignedIn(w, Now(s), ToolReceiptType, SecondReceipt(w))
  {
    hide Reachable, Reaches, SignedIn, PermitOf, ReceiptOf, Fit, Workshop, Digest;
    assert "1" != "2" by { assert "1"[0] != "2"[0]; }
    var s1 := BothIssued(w, OrderFor("1", None), OrderFor("2", Link(w)));
    var s2 := CallsFor(w, s1, "1", None);
    StillFit(w, s1, s2, PermitType, FirstPermit(w));
    StillFit(w, s1, s2, PermitType, SecondPermit(w));
    s := CallsFor(w, s2, "2", Link(w));
    StillFit(w, s2, s, PermitType, FirstPermit(w));
    StillFit(w, s2, s, ToolReceiptType, FirstReceipt(w));
  }

  // ---- reconciling and certifying the two ----

  /** The receipts the host reconciles: both, or the first alone. */
  ghost function Matched(w: World, all: bool): seq<Subject> { if all then Both(w) else [FirstReceipt(w)] }

  function DigestIn(w: World, s: Subject): string { Digest(w.host.env.codec, s).GetOr("") }

  /** The effects the host sees are those of the receipts it reconciles. */
  ghost function Seen(w: World, all: bool): R.Observed {
    var first := map[DigestIn(w, FirstReceipt(w)) := Bool(true)];
    R.Observed(if all then first[DigestIn(w, SecondReceipt(w)) := Bool(true)] else first, [])
  }

  lemma ReceiptsReport(w: World)
    requires w == Workshop(w.linking)
    ensures forall i :: 0 <= i < 2 ==>
      var r := Both(w)[i];
      r.body.ToolReceipt? && r.body.effectDigest == Completion.Hash(w, Bool(true)) && r.body.executor.id == "worker"
    ensures FirstReceipt(w).body.toolPrev.None? && SecondReceipt(w).body.toolPrev == Link(w)
    ensures FirstReceipt(w) != SecondReceipt(w)
  {
    hide PermitOf, Completion.Hash, Digest, Workshop;
    OrderFits(w, Now(P.Init), "1", None);
    OrderFits(w, Now(P.Init), "2", Link(w));
    hide Fit, IssuedBy;
    assert ("1" + ":receipt")[0] != ("2" + ":receipt")[0];
  }

  /** A receipt of the effect `true` matches where its digest was seen. */
  lemma ReportedTrue(w: World, observed: R.Observed, r: Subject)
    requires Sound(w.host.env.codec) && forall d :: d in observed.effects ==> observed.effects[d] == Bool(true)
    requires r.body.ToolReceipt? && r.body.effectDigest == Completion.Hash(w, Bool(true))
    ensures R.IsTool(Filing(w, r))
    ensures R.EffectMatches(w.host.env, observed, map[], Filing(w, r)) <==> DigestIn(w, r) in observed.effects
  {
    hide Completion.Hash, DigestHex;
    Hashes(w, Bool(true));
    DigestPins(w.host.env.codec, r, r);
  }

  lemma DigestsApart(w: World)
    requires w == Workshop(w.linking)
    ensures Sound(w.host.env.codec) && DigestIn(w, FirstReceipt(w)) != DigestIn(w, SecondReceipt(w))
  {
    WorkshopIsSound(w.linking);
    ReceiptsReport(w);
    hide Provisioned, FirstReceipt, SecondReceipt, Workshop, Link;
    DigestPins(w.host.env.codec, FirstReceipt(w), SecondReceipt(w));
    DigestPins(w.host.env.codec, SecondReceipt(w), FirstReceipt(w));
  }

  lemma SeenDigests(w: World, all: bool)
    requires DigestIn(w, FirstReceipt(w)) != DigestIn(w, SecondReceipt(w))
    ensures var o := Seen(w, all);
      && o.unmatched == [] && DigestIn(w, FirstReceipt(w)) in o.effects
      && (DigestIn(w, SecondReceipt(w)) in o.effects <==> all)
      && forall d :: d in o.effects ==> o.effects[d] == Bool(true)
  {
    hide FirstReceipt, SecondReceipt, DigestIn;
  }

  lemma SeenRight(w: World, all: bool)
    requires w == Workshop(w.linking)
    ensures ObservedAll(w, Seen(w, all), map[], Matched(w, all))
    ensures var item := Filing(w, SecondReceipt(w));
      R.IsTool(item) && (R.EffectMatches(w.host.env, Seen(w, all), map[], item) <==> all)
  {
    hide Seen, FirstReceipt, SecondReceipt, Workshop, Link, Sound, Completion.Hash, DigestIn, R.EffectMatches, Filing,
      R.IsTool, ObservedAll;
    DigestsApart(w);
    ReceiptsReport(w);
    SeenDigests(w, all);
    var a, b := FirstReceipt(w), SecondReceipt(w);
    assert a == Both(w)[0] && b == Both(w)[1];
    ReportedTrue(w, Seen(w, all), a);
    ReportedTrue(w, Seen(w, all), b);
    ObservedEach(w, Seen(w, all), Matched(w, all));
  }

  lemma ObservedEach(w: World, observed: R.Observed, receipts: seq<Subject>)
    requires observed.unmatched == []
    requires forall i :: 0 <= i < |receipts| ==>
      R.IsTool(Filing(w, receipts[i])) && R.EffectMatches(w.host.env, observed, map[], Filing(w, receipts[i]))
    ensures ObservedAll(w, observed, map[], receipts)
  {}

  ghost function About(w: World, all: bool): Matter { Matter(STAMP, Seen(w, all), map[]) }

  ghost function TheRecord(w: World, all: bool): Subject
    requires FirstPermit(w).body.Permit?
  {
    RecordOf(w, FirstPermit(w), 0, About(w, all))
  }

  ghost function Asked(w: World, all: bool): C.Request
    requires FirstPermit(w).body.Permit?
  {
    AskCertificate(w, FirstPermit(w), Both(w), TheRecord(w, all), "certifier", STAMP, ALONE)
  }

  ghost function TheCertificate(w: World, all: bool): Subject
    requires FirstPermit(w).body.Permit?
  {
    CertificateOf(w, FirstPermit(w), Both(w), TheRecord(w, all), 0, "certifier", STAMP, [], None)
  }

  lemma PermitKnown(w: World)
    requires w == Workshop(w.linking)
    ensures FirstPermit(w).body.Permit?
  {}

  /** What certifying both receipts needs of a state, and keeps. */
  ghost predicate ReadyForBoth(w: World, all: bool, s: State) {
    var p := FirstPermit(w);
    && s.now == 0 && s.revocations == {}
    && Fit(w, Now(s), PermitType, p) && SignedIn(w, Now(s), PermitType, p) && IssuedBy(w.permits, p)
    && p.body.Permit? && p.body.grade == "mediated" && p.body.permitAction == ACTION
    && GoodReceipts(w, Now(s), p, Both(w)) && (forall i :: 0 <= i < 2 ==> IssuedBy(w.receipts, Both(w)[i]))
    && Fit(w, Now(s), ReconciliationType, TheRecord(w, all))
  }

  lemma StillReady(w: World, all: bool, s: State, u: State)
    requires ReadyForBoth(w, all, s) && Onward(s, u)
    ensures ReadyForBoth(w, all, u)
  {
    hide FirstPermit, Both, TheRecord, Fit, SignedIn, IssuedBy, GoodReceipts;
    StillFit(w, s, u, PermitType, FirstPermit(w));
    StillFit(w, s, u, ReconciliationType, TheRecord(w, all));
    StillGood(w, s, u, FirstPermit(w), Both(w));
  }

  lemma ReadyAfterCalls(w: World, all: bool, s: State)
    requires w == Workshop(w.linking) && s.now == 0 && s.revocations == {}
    requires SignedIn(w, Now(s), PermitType, FirstPermit(w))
    requires SignedIn(w, Now(s), ToolReceiptType, FirstReceipt(w))
    requires SignedIn(w, Now(s), ToolReceiptType, SecondReceipt(w))
    ensures ReadyForBoth(w, all, s)
  {
    hide SignedIn, PermitOf, ReceiptOf, IssuedBy, Fit, Workshop, GoodReceipts;
    OrderFits(w, Now(s), "1", None);
    BothGood(w, Now(s));
    RecordFits(w, all, Now(s));
  }

  lemma BothGood(w: World, at: Snap)
    requires w == Workshop(w.linking) && at.now == 0 && at.revocations == {}
    requires SignedIn(w, at, ToolReceiptType, FirstReceipt(w)) && SignedIn(w, at, ToolReceiptType, SecondReceipt(w))
    ensures GoodReceipts(w, at, FirstPermit(w), Both(w)) && forall i :: 0 <= i < 2 ==> IssuedBy(w.receipts, Both(w)[i])
  {
    hide SignedIn, PermitOf, IssuedBy, Fit, Workshop;
    OrderFits(w, at, "1", None);
    OrderFits(w, at, "2", Link(w));
    assert Both(w)[0] == FirstReceipt(w) && Both(w)[1] == SecondReceipt(w);
  }

  lemma RecordFits(w: World, all: bool, at: Snap)
    requires w == Workshop(w.linking) && at.now == 0 && at.revocations == {} && FirstPermit(w).body.Permit?
    ensures Fit(w, at, ReconciliationType, TheRecord(w, all))
  {
    hide FirstPermit, Keys, E.IntendedDigest, E.ObservedDigest, R.ReasonOf, Seen, WireCodec.CodecOf, Marked;
  }

  /** The run ends with a certificate over both receipts, at j + 1, naming the record made at j. */
  ghost predicate BothCertified(w: World, all: bool, t: State, j: nat) {
    var p := FirstPermit(w);
    && p.body.Permit? && Reachable(w, t) && ReadyForBoth(w, all, t) && |t.history| == j + 2
    && (var e := t.history[j]; e.Reconciled? && e.record == TheRecord(w, all) && e.observed == Seen(w, all)
                               && e.intended == map[]
                               && e.matched == Items(w, Matched(w, all)) && e.at.now == 0 && e.at.revocations == {})
    && (var e := t.history[j + 1]; e.Certified? && e.asked == Asked(w, all) && e.certificate == TheCertificate(w, all))
    && SignedIn(w, Now(t), ReconciliationType, TheRecord(w, all))
    && SignedIn(w, Now(t), CertificateType, TheCertificate(w, all))
  }

  lemma CertifierIsApart(w: World)
    requires w == Workshop(w.linking)
    ensures CertifierApart(w, Both(w))
  {
    ReceiptsReport(w);
    NamesApart();
    assert |"worker"| == 6 && |"certifier"| == 9;
    hide Both;
  }

  lemma MatchedGood(w: World, at: Snap, all: bool)
    requires GoodReceipts(w, at, FirstPermit(w), Both(w))
    ensures GoodReceipts(w, at, FirstPermit(w), Matched(w, all))
  {
    hide GoodReceipt, FirstPermit, FirstReceipt, SecondReceipt;
    assert Both(w)[0] == FirstReceipt(w);
  }

  lemma CertifiesBoth(w: World, all: bool) returns (t: State, j: nat)
    requires w == Workshop(w.linking)
    ensures BothCertified(w, all, t, j)
  {
    PermitKnown(w);
    hide FirstPermit, FirstReceipt, SecondReceipt, Workshop, Reachable, Reaches, Provisioned, Honest, ReadyForBoth,
      Both, SignedIn, Fit, IssuedBy, GoodReceipts, Matched, Seen, ObservedAll, CertifierApart, RecordOf, CertificateOf,
      AskCertificate, Items, TheRecord, TheCertificate, Asked;
    var s := BothCalled(w);
    ReadyAfterCalls(w, all, s);
    var u := ReconcilesBoth(w, all, s);
    t := CertifiesFrom(w, all, u);
    j := |s.history|;
  }

  lemma SeenDigestible(w: World, all: bool)
    ensures R.Digestible(Seen(w, all), map[])
  {
    hide FirstReceipt, SecondReceipt, DigestIn;
  }

  lemma ReconcilesBoth(w: World, all: bool, s: State) returns (u: State)
    requires w == Workshop(w.linking) && Reachable(w, s) && ReadyForBoth(w, all, s)
    ensures Reachable(w, u) && ReadyForBoth(w, all, u) && SignedIn(w, Now(u), ReconciliationType, TheRecord(w, all))
    ensures |u.history| == |s.history| + 1
    ensures var e := u.history[|s.history|];
      e.Reconciled? && e.record == TheRecord(w, all) && e.observed == Seen(w, all) && e.intended == map[]
        && e.matched == Items(w, Matched(w, all)) && e.at.now == 0 && e.at.revocations == {}
  {
    hide FirstPermit, Workshop, Reachable, Reaches, Provisioned, Honest, Both, SignedIn, Fit, IssuedBy, GoodReceipts,
      Matched, Seen, ObservedAll, RecordOf;
    WorkshopIsSound(w.linking);
    SeenRight(w, all);
    MatchedGood(w, Now(s), all);
    SeenDigestible(w, all);
    u := ReconcileFires(w, s, FirstPermit(w), Matched(w, all), About(w, all));
    ReachesReachable(w, s, u);
    StillReady(w, all, s, u);
  }

  lemma CertifiesFrom(w: World, all: bool, s: State) returns (t: State)
    requires w == Workshop(w.linking) && Reachable(w, s) && ReadyForBoth(w, all, s)
    requires SignedIn(w, Now(s), ReconciliationType, TheRecord(w, all))
    ensures Reachable(w, t) && ReadyForBoth(w, all, t) && FirstPermit(w).body.Permit? && Onward(s, t)
    ensures |t.history| == |s.history| + 1
    ensures SignedIn(w, Now(t), ReconciliationType, TheRecord(w, all))
    ensures SignedIn(w, Now(t), CertificateType, TheCertificate(w, all))
    ensures var e := t.history[|s.history|];
      e.Certified? && e.asked == Asked(w, all) && e.certificate == TheCertificate(w, all)
  {
    hide FirstPermit, Workshop, Reachable, Reaches, Provisioned, Honest, Both, SignedIn, Fit, IssuedBy, GoodReceipts,
      CertifierApart, RecordOf, CertificateOf, AskCertificate;
    WorkshopIsSound(w.linking);
    CertifierIsApart(w);
    assert |Both(w)| == 2 by { BothTwo(w); }
    var none: seq<string>;
    t, none := CertifyFires(w, s, FirstPermit(w), Both(w), 0, About(w, all), "certifier", STAMP, ALONE);
    assert none == [];
    ReachesReachable(w, s, t);
    StillReady(w, all, s, t);
    StillFit(w, s, t, ReconciliationType, TheRecord(w, all));
    SignPuts(w, s, CertificateType, TheCertificate(w, all), t);
  }

  lemma BothTwo(w: World)
    ensures |Both(w)| == 2
  {}

  // ---- the three runs ----

  function RunOf(asked: C.Request, certificate: Object): A.AuditRun {
    A.AuditRun(asked.permit, asked.receipts, asked.record, Dict(certificate), [])
  }

  /** A run whose last entry is a certificate over two receipts, and that certificate verifies. */
  ghost predicate CertifiedPair(w: World, t: State, c: Object) {
    && Honest(w) && Reachable(w, t) && t.history != []
    && (var e := t.history[|t.history| - 1]; e.Certified? && |e.asked.receipts| == 2 && e.certificate == c.subject)
    && Verified(EnvAt(w, Now(t)), c, CertificateType, t.now)
  }

  lemma CertificateFits(w: World, all: bool, at: Snap)
    requires w == Workshop(w.linking) && at.now == 0 && at.revocations == {} && FirstPermit(w).body.Permit?
    ensures Fit(w, at, CertificateType, TheCertificate(w, all))
  {
    hide FirstPermit, Both, TheRecord, Keys, DigestList, Digest, WireCodec.CodecOf, Marked;
  }

  lemma PairCertified(w: World, all: bool, t: State, j: nat)
    requires w == Workshop(w.linking) && BothCertified(w, all, t, j)
    ensures CertifiedPair(w, t, Completion.Signed(w, CertificateType, TheCertificate(w, all)))
  {
    hide FirstPermit, Workshop, Reachable, Provisioned, Honest, SignedIn, Fit, IssuedBy, GoodReceipts, Matched, Seen,
      RecordOf, CertificateOf, Both, Verified;
    WorkshopIsSound(w.linking);
    CertificateFits(w, all, Now(t));
    SignedVerifies(w, Now(t), CertificateType, TheCertificate(w, all));
    BothTwo(w);
  }

  /** With the executor as it is, `certify` goes as far as two receipts for one action, both
      reconciled; the certificate verifies, and the audit of its run is rejected. */
  lemma PairNeverAudits() returns (t: State, c: Object)
    ensures var w := Workshop(false);
      CertifiedPair(w, t, c) && !A.AuditOk(EnvAt(w, Now(t)), RunOf(t.history[|t.history| - 1].asked, c), t.now)
  {
    var w := Workshop(false);
    var j: nat;
    t, j := CertifiesBoth(w, true);
    c := Completion.Signed(w, CertificateType, TheCertificate(w, true));
    PairCertified(w, true, t, j);
    hide Workshop, Reachable, Honest, A.AuditOk, Verified, BothCertified;
    var run := RunOf(t.history[|t.history| - 1].asked, c);
    if A.AuditOk(EnvAt(w, Now(t)), run, t.now) { AuditIsSingle(w, t, run); }
  }

  /** The certificate at k names the record made at j and lists, second, a receipt whose effect was
      not observed there. */
  ghost predicate ListsUnseen(w: World, h: seq<Entry>, j: nat, k: nat) {
    && j < |h| && k < |h| && h[j].Reconciled? && h[k].Certified? && |h[k].asked.receipts| == 2
    && h[k].asked.record.Dict? && h[k].asked.record.obj.subject == h[j].record
    && var item := h[k].asked.receipts[1];
    && R.IsTool(item) && !R.EffectMatches(EnvAt(w, h[j].at), h[j].observed, h[j].intended, item)
  }

  /** A certificate that verifies and lists a receipt whose effect was not among those observed in
      the reconciliation it names. */
  lemma UnseenReceiptCertified() returns (t: State, j: nat, c: Object)
    ensures var w := Workshop(false); CertifiedPair(w, t, c) && ListsUnseen(w, t.history, j, |t.history| - 1)
  {
    var w := Workshop(false);
    t, j := CertifiesBoth(w, false);
    c := Completion.Signed(w, CertificateType, TheCertificate(w, false));
    PairCertified(w, false, t, j);
    SeenRight(w, false);
    SecondItem(w, false);
    var r := t.history[j];
    hide Workshop, Honest, Reachable, Verified, ReadyForBoth, Seen, Filing, Items, Matched;
    SameMatch(w.host.env, EnvAt(w, r.at), Seen(w, false), Filing(w, SecondReceipt(w)));
  }

  lemma SecondItem(w: World, all: bool)
    requires FirstPermit(w).body.Permit?
    ensures |Asked(w, all).receipts| == 2 && Asked(w, all).receipts[1] == Filing(w, SecondReceipt(w))
    ensures Asked(w, all).receipts[0] == Filing(w, FirstReceipt(w))
    ensures Asked(w, all).record == Dict(Completion.Signed(w, ReconciliationType, TheRecord(w, all)))
  {
    hide FirstPermit, FirstReceipt, SecondReceipt;
  }

  /** Whether an effect matches does not depend on revocations or signatures. */
  lemma SameMatch(a: Env, b: Env, observed: R.Observed, item: Item)
    requires a.codec == b.codec && R.IsTool(item)
    ensures R.EffectMatches(a, observed, map[], item) <==> R.EffectMatches(b, observed, map[], item)
  {}

  /** Where the host links receipts, a run of two is audited clean. */
  lemma AuditedPair() returns (t: State, c: Object)
    ensures var w := Workshop(true);
      CertifiedPair(w, t, c) && A.AuditOk(EnvAt(w, Now(t)), RunOf(t.history[|t.history| - 1].asked, c), t.now)
  {
    var w := Workshop(true);
    var j: nat;
    hide Workshop, A.AuditOk, C.Certifiable, C.Attests, Honest, Reachable, ReadyForBoth, Verified, TheCertificate,
      TheRecord, Asked;
    assert w.linking && w == Workshop(w.linking) by { LinksAsTold(true); }
    t, j := CertifiesBoth(w, true);
    c := Completion.Signed(w, CertificateType, TheCertificate(w, true));
    PairCertified(w, true, t, j);
    PairAudits(w, true, t, c);
  }

  lemma LinksAsTold(linking: bool)
    ensures Workshop(linking).linking == linking
  {}

  lemma PairAudits(w: World, all: bool, t: State, c: Object)
    requires w == Workshop(w.linking) && w.linking && ReadyForBoth(w, all, t) && FirstPermit(w).body.Permit?
    requires SignedIn(w, Now(t), ReconciliationType, TheRecord(w, all))
    requires c.subject == TheCertificate(w, all) && Verified(EnvAt(w, Now(t)), c, CertificateType, t.now)
    ensures A.AuditOk(EnvAt(w, Now(t)), RunOf(Asked(w, all), c), t.now)
  {
    hide Workshop, A.AuditOk, C.Certifiable, C.Attests, Chain.Linked, ReadyForBoth, Verified, TheCertificate,
      TheRecord, Asked, SignedIn, FirstPermit;
    StillCertifiable(w, all, t);
    PairLinked(w, all);
    DigestsApart(w);
    A.CertifiedAuditsClean(EnvAt(w, Now(t)), Asked(w, all), w.certificates, t.now, c, []);
  }

  lemma PairLinked(w: World, all: bool)
    requires w == Workshop(w.linking) && w.linking
    ensures FirstPermit(w).body.Permit? && Chain.Linked(w.host.env.codec, Asked(w, all).receipts, None)
  {
    hide FirstPermit, FirstReceipt, SecondReceipt, Workshop, Asked, Sound, Chain.Linked;
    PermitKnown(w);
    ReceiptsReport(w);
    DigestsApart(w);
    SecondItem(w, all);
    assert FirstReceipt(w) == Both(w)[0] && SecondReceipt(w) == Both(w)[1];
    hide Both;
    DigestPins(w.host.env.codec, FirstReceipt(w), FirstReceipt(w));
    TwoLinked(w.host.env.codec, Asked(w, all).receipts);
  }

  lemma TwoLinked(codec: Codec, receipts: seq<Item>)
    requires |receipts| == 2 && receipts[0].Dict? && receipts[1].Dict? && PrevOf(receipts[0].obj.subject.body).None?
    requires Digest(codec, receipts[0].obj.subject).Some?
    requires PrevOf(receipts[1].obj.subject.body) == Digest(codec, receipts[0].obj.subject)
    ensures Chain.Linked(codec, receipts, None)
  {}

  lemma StillCertifiable(w: World, all: bool, t: State)
    requires w == Workshop(w.linking) && ReadyForBoth(w, all, t)
    requires SignedIn(w, Now(t), ReconciliationType, TheRecord(w, all))
    ensures C.Certifiable(EnvAt(w, Now(t)), Asked(w, all), w.certificates, t.now)
    ensures C.Attests(EnvAt(w, Now(t)), Asked(w, all), w.certificates, t.now, TheCertificate(w, all))
  {
    hide FirstPermit, Workshop, Provisioned, Honest, Both, SignedIn, Fit, IssuedBy, GoodReceipts, CertifierApart,
      RecordOf, CertificateOf, AskCertificate, C.Certifiable, C.Attests;
    WorkshopIsSound(w.linking);
    CertifierIsApart(w);
    BothTwo(w);
    CertifiableHere(w, t, FirstPermit(w), Both(w), 0, About(w, all), "certifier", STAMP, ALONE);
    AttestsHere(w, t, FirstPermit(w), Both(w), TheRecord(w, all), "certifier", STAMP, ALONE, []);
  }
}
