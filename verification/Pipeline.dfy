/** The permit pipeline as one state machine: admit, issue, execute, reconcile and certify, by
    honest components, among outsiders who may sign anything with keys of their own. */
module Pipeline {
  import opened Prelude
  import opened Canonical
  import opened Digests
  import opened Wire
  import opened Verification
  import opened Executor
  import opened Admission
  import NonceStores
  import R = Reconciling
  import C = Certifying
  import Chain
  import A = AuditChain

  /** What a component saw when it acted. */
  datatype Snap = Snap(now: int, revocations: set<Revocation>, signed: set<Signing>)

  /** The host, the proofs of possession, and the one signer of each kind of object. `linking` says
      whether the host extends the executor to write `prev_digest` into receipts; the executor as it
      is never does. */
  datatype World = World(host: Host, pe: ProofEnv, permits: Issuer, receipts: Issuer, records: Issuer,
                         certificates: Issuer, linking: bool)

  function EnvAt(w: World, at: Snap): Env { w.host.env.(revocations := at.revocations, signed := at.signed) }

  function HostAt(w: World, at: Snap): Host { w.host.(env := EnvAt(w, at)) }

  /** What happened, in order; later entries point back at earlier ones. */
  datatype Entry =
    | Decided(at: Snap, intake: Intake, result: AdmissionResult)
    | Issued(decided: nat, terms: Terms, permit: Subject)
    | Checked(at: Snap, request: Executor.Request)
    | Performed(checked: nat, outcome: Outcome)
    | Filed(performed: nat, receipt: Subject)
    | Reconciled(at: Snap, reconciled: Item, matched: seq<Item>, observed: R.Observed, intended: map<string, Json>,
                 stamp: R.Stamp, record: Subject)
    | Certified(at: Snap, asked: C.Request, certificate: Subject)

  datatype State = State(now: int, revocations: set<Revocation>, signed: set<Signing>,
                         recorded: set<NonceStores.Pair>, consumed: set<NonceStores.Pair>, history: seq<Entry>)

  const Init := State(0, {}, {}, {}, {}, [])

  datatype Event =
    | Tick(to: int)
    | Revoke(r: Revocation)
    | Outsider(signing: Signing)
    | Admit(intake: Intake)
    | Issue(decided: nat, terms: Terms, approval: Option<Object>)
    | Check(request: Executor.Request)
    | Perform(checked: nat, outcome: Outcome)
    | File(performed: nat, dispatchId: string, clock: Clock, prev: Option<string>)
    | Reconcile(permit: Item, receipts: seq<Item>, observed: R.Observed, intended: map<string, Json>, stamp: R.Stamp,
                record: Subject)
    | Certify(asked: C.Request, certificate: Subject)

  function HonestKeys(w: World): set<string> {
    {w.permits.publicKey, w.receipts.publicKey, w.records.publicKey, w.certificates.publicKey}
  }

  function Now(s: State): Snap { Snap(s.now, s.revocations, s.signed) }

  function Log(s: State, e: Entry): State { s.(history := s.history + [e]) }

  function Sign(s: State, signer: Issuer, subject: Subject): State {
    s.(signed := s.signed + {Signing(signer.publicKey, subject, signer.sign(subject))})
  }

  /** One step; None when the component would refuse, or the event cannot happen. */
  ghost function Step(w: World, s: State, e: Event): Option<State> {
    match e
    case Tick(to) => if s.now <= to then Some(s.(now := to)) else None
    case Revoke(r) => Some(s.(revocations := s.revocations + {r}))
    case Outsider(g) => if g.publicKey in HonestKeys(w) then None else Some(s.(signed := s.signed + {g}))
    case Admit(intake) => Some(Log(s, Decided(Now(s), intake, Decide(HostAt(w, Now(s)), intake, s.now))))
    case Issue(d, terms, approval) => IssueStep(w, s, d, terms, approval)
    case Check(request) =>
      if Authorised(EnvAt(w, Now(s)), w.pe, request, s.now) then Some(Log(s, Checked(Now(s), request))) else None
    case Perform(c, outcome) => PerformStep(s, c, outcome)
    case File(p, dispatchId, clock, prev) => FileStep(w, s, p, dispatchId, clock, prev)
    case Reconcile(permit, receipts, observed, intended, stamp, record) =>
      if R.PermitEnforced(EnvAt(w, Now(s)), permit, s.now)
         && R.Reports(EnvAt(w, Now(s)), permit, receipts, observed, intended, w.records, stamp, s.now, record)
      then Some(Log(Sign(s, w.records, record),
                    Reconciled(Now(s), permit, receipts, observed, intended, stamp, record)))
      else None
    case Certify(asked, certificate) =>
      if C.Certifiable(EnvAt(w, Now(s)), asked, w.certificates, s.now)
         && C.Attests(EnvAt(w, Now(s)), asked, w.certificates, s.now, certificate)
      then Some(Log(Sign(s, w.certificates, certificate), Certified(Now(s), asked, certificate)))
      else None
  }

  ghost function IssueStep(w: World, s: State, d: nat, terms: Terms, approval: Option<Object>): Option<State> {
    if d >= |s.history| || !s.history[d].Decided? then None
    else
      var a := s.history[d].result;
      if !MayIssue(a, w.permits, terms, approval, NonceStores.InMemory(s.recorded, s.consumed)) then None
      else
        var permit := PermitSubject(a, w.permits, terms);
        Some(Log(Sign(s, w.permits, permit), Issued(d, terms, permit))
               .(recorded := s.recorded + {(terms.runId, terms.nonce)}))
  }

  /** The nonce is consumed and the effect happens. */
  ghost function PerformStep(s: State, c: nat, outcome: Outcome): Option<State> {
    if c >= |s.history| || !s.history[c].Checked? || s.history[c].request.permit.NotADict? then None
    else
      var pair := PairOf(s.history[c].request);
      if pair in s.consumed then None
      else Some(Log(s, Performed(c, outcome)).(consumed := s.consumed + {pair}))
  }

  function PairOf(r: Executor.Request): NonceStores.Pair
    requires r.permit.Dict?
  {
    (r.permit.obj.subject.runId, r.permit.obj.subject.nonce)
  }

  function LinkTo(receipt: Subject, prev: Option<string>): Subject
    requires receipt.body.ToolReceipt?
  {
    receipt.(body := receipt.body.(toolPrev := prev))
  }

  /** The receipt of a performed call is filed, at most once; with a link only by a linking host. */
  ghost function FileStep(w: World, s: State, p: nat, dispatchId: string, clock: Clock,
                          prev: Option<string>): Option<State> {
    if prev.Some? && !w.linking then None
    else if p >= |s.history| || !s.history[p].Performed? || s.history[p].checked >= p
            || !s.history[s.history[p].checked].Checked? then None
    else
      var r := s.history[s.history[p].checked].request;
      var sha := w.host.env.codec.sha;
      if IsFiled(s.history, p) || r.permit.NotADict? || !r.permit.obj.subject.body.Permit?
        || DigestHex(sha, r.arguments).None? || DigestHex(sha, s.history[p].outcome.effect).None? then None
      else
        var receipt := LinkTo(ReceiptSubject(r.permit.obj.subject, w.receipts, r.tool,
                                             DigestHex(sha, r.arguments).value,
                                             DigestHex(sha, s.history[p].outcome.effect).value,
                                             s.history[p].outcome.executor, dispatchId, clock), prev);
        Some(Log(Sign(s, w.receipts, receipt), Filed(p, receipt)))
  }

  predicate IsFiled(h: seq<Entry>, p: nat) {
    exists k :: 0 <= k < |h| && h[k].Filed? && h[k].performed == p
  }

  ghost function Run(w: World, s: State, events: seq<Event>): Option<State>
    decreases |events|
  {
    if events == [] then Some(s)
    else
      var next :- Step(w, s, events[0]);
      Run(w, next, events[1..])
  }

  ghost predicate Reachable(w: World, s: State) {
    exists events :: Run(w, Init, events) == Some(s)
  }

  // ---- every entry is accounted for by the ones before it ----

  /** The entry at k is what its component does, on what it saw and on the entries it points back at. */
  ghost predicate Justified(w: World, h: seq<Entry>, k: nat)
    requires k < |h|
  {
    match h[k]
    case Decided(at, intake, result) => result == Decide(HostAt(w, at), intake, at.now)
    case Issued(d, terms, permit) =>
      d < k && h[d].Decided? && h[d].result.decision.Admitted? && permit == PermitSubject(h[d].result, w.permits, terms)
    case Checked(at, request) => Authorised(EnvAt(w, at), w.pe, request, at.now)
    case Performed(c, outcome) => c < k && h[c].Checked?
    case Filed(p, receipt) =>
      p < k && h[p].Performed? && h[p].checked < p && h[h[p].checked].Checked?
      && Receipts(w, h[h[p].checked].request, h[p].outcome, receipt)
    case Reconciled(at, permit, receipts, observed, intended, stamp, record) =>
      R.PermitEnforced(EnvAt(w, at), permit, at.now)
      && R.Reports(EnvAt(w, at), permit, receipts, observed, intended, w.records, stamp, at.now, record)
    case Certified(at, asked, certificate) =>
      C.Certifiable(EnvAt(w, at), asked, w.certificates, at.now)
      && C.Attests(EnvAt(w, at), asked, w.certificates, at.now, certificate)
  }

  /** The receipt repeats the permit's action and reports exactly this call and this effect. */
  ghost predicate Receipts(w: World, r: Executor.Request, o: Outcome, receipt: Subject) {
    r.permit.Dict? && r.permit.obj.subject.body.Permit?
    && var sha := w.host.env.codec.sha;
    && receipt.body.ToolReceipt? && receipt.body.tool == r.tool
    && DigestHex(sha, r.arguments) == Some(receipt.body.argumentsDigest)
    && DigestHex(sha, o.effect) == Some(receipt.body.effectDigest)
    && receipt.body.executor == o.executor
    && receipt.runId == r.permit.obj.subject.runId
    && receipt.body.toolAction == r.permit.obj.subject.body.permitAction
    && receipt.issuer == w.receipts.identity && receipt.keyId == w.receipts.keyId
    && receipt.nonce == r.permit.obj.subject.nonce + ":receipt"
    && (receipt.body.toolPrev.Some? ==> w.linking)
  }

  /** What a component acted on had been signed, and had been revoked, by now. */
  ghost predicate Past(s: State, e: Entry) {
    e.Decided? || e.Checked? || e.Reconciled? || e.Certified? ==>
      e.at.now <= s.now && e.at.revocations <= s.revocations && e.at.signed <= s.signed
  }

  ghost predicate AllJustified(w: World, s: State) {
    forall k :: 0 <= k < |s.history| ==> Justified(w, s.history, k) && Past(s, s.history[k])
  }

  /** The entry is the signing of this subject under this key. */
  predicate Signs(w: World, e: Entry, publicKey: string, subject: Subject) {
    match e
    case Issued(_, _, permit) => permit == subject && publicKey == w.permits.publicKey
    case Filed(_, receipt) => receipt == subject && publicKey == w.receipts.publicKey
    case Reconciled(_, _, _, _, _, _, record) => record == subject && publicKey == w.records.publicKey
    case Certified(_, _, certificate) => certificate == subject && publicKey == w.certificates.publicKey
    case _ => false
  }

  /** Nothing is signed with an honest key but by its component. */
  ghost predicate SignedByComponents(w: World, s: State) {
    forall g :: g in s.signed && g.publicKey in HonestKeys(w) ==>
      exists k :: 0 <= k < |s.history| && Signs(w, s.history[k], g.publicKey, g.subject)
  }

  /** Each nonce performs once and each performance is filed once. */
  ghost predicate OnceEach(s: State) {
    && (forall k :: 0 <= k < |s.history| && s.history[k].Performed? ==>
          s.history[k].checked < |s.history| && s.history[s.history[k].checked].Checked?
          && s.history[s.history[k].checked].request.permit.Dict?
          && PairOf(s.history[s.history[k].checked].request) in s.consumed)
    && (forall j, k :: 0 <= j < k < |s.history| && s.history[j].Performed? && s.history[k].Performed? ==>
          !SamePair(s.history, j, k))
    && (forall j, k :: 0 <= j < k < |s.history| && s.history[j].Filed? && s.history[k].Filed? ==>
          s.history[j].performed != s.history[k].performed)
  }

  predicate SamePair(h: seq<Entry>, j: nat, k: nat)
    requires j < |h| && k < |h| && h[j].Performed? && h[k].Performed?
  {
    var a, b := h[j].checked, h[k].checked;
    a < |h| && b < |h| && h[a].Checked? && h[b].Checked? && h[a].request.permit.Dict? && h[b].request.permit.Dict?
    && SameNonce(h[a].request.permit.obj.subject, h[b].request.permit.obj.subject)
  }

  predicate SameNonce(a: Subject, b: Subject) { a.runId == b.runId && a.nonce == b.nonce }

  lemma SameNonceSamePair(a: Executor.Request, b: Executor.Request)
    requires a.permit.Dict? && b.permit.Dict?
    ensures SameNonce(a.permit.obj.subject, b.permit.obj.subject) <==> PairOf(a) == PairOf(b)
  {}

  ghost predicate Inv(w: World, s: State) { AllJustified(w, s) && SignedByComponents(w, s) && OnceEach(s) }

  /** A step only ever adds: time, revocations, signatures, and at most one entry. */
  ghost predicate Grows(s: State, t: State) {
    && s.now <= t.now && s.revocations <= t.revocations && s.signed <= t.signed
    && |s.history| <= |t.history| <= |s.history| + 1 && s.history == t.history[..|s.history|]
  }

  lemma StepGrows(w: World, s: State, e: Event)
    requires Step(w, s, e).Some?
    ensures Grows(s, Step(w, s, e).value)
  {
    hide Authorised, R.PermitEnforced, R.Reports, C.Certifiable, C.Attests, MayIssue, PermitSubject, DigestHex,
      IsFiled, Decide;
  }

  lemma JustifiedAppend(w: World, h: seq<Entry>, g: seq<Entry>, k: nat)
    requires k < |h| <= |g| && h == g[..|h|] && Justified(w, h, k)
    ensures Justified(w, g, k)
  {
    hide Authorised, R.PermitEnforced, R.Reports, C.Certifiable, C.Attests, Decide, Receipts, PermitSubject;
    assert forall j :: 0 <= j <= k ==> g[j] == h[j];
  }

  /** The entry a step adds is justified. */
  lemma NewEntry(w: World, s: State, e: Event)
    requires AllJustified(w, s) && Step(w, s, e).Some?
    ensures var t := Step(w, s, e).value; |t.history| > |s.history| ==>
      Justified(w, t.history, |s.history|) && Past(t, t.history[|s.history|])
  {
    hide AllJustified, Authorised, R.PermitEnforced, R.Reports, C.Certifiable, C.Attests, Decide, PermitSubject,
      IsFiled, DigestHex;
  }

  lemma StepJustified(w: World, s: State, e: Event)
    requires AllJustified(w, s) && Step(w, s, e).Some?
    ensures AllJustified(w, Step(w, s, e).value)
  {
    hide Step, Justified;
    StepGrows(w, s, e);
    NewEntry(w, s, e);
    var t := Step(w, s, e).value;
    forall k | 0 <= k < |t.history| ensures Justified(w, t.history, k) && Past(t, t.history[k]) {
      if k < |s.history| {
        assert t.history[k] == s.history[k];
        JustifiedAppend(w, s.history, t.history, k);
      }
    }
  }

  lemma StepSigned(w: World, s: State, e: Event)
    requires SignedByComponents(w, s) && Step(w, s, e).Some?
    ensures SignedByComponents(w, Step(w, s, e).value)
  {
    hide Authorised, R.PermitEnforced, R.Reports, C.Certifiable, C.Attests, Decide, MayIssue, PermitSubject, IsFiled,
      DigestHex, ReceiptSubject;
    var t := Step(w, s, e).value;
    forall g | g in t.signed && g.publicKey in HonestKeys(w)
      ensures exists k :: 0 <= k < |t.history| && Signs(w, t.history[k], g.publicKey, g.subject)
    {
      if g in s.signed {
        var k :| 0 <= k < |s.history| && Signs(w, s.history[k], g.publicKey, g.subject);
        assert t.history[k] == s.history[k];
      } else {
        assert Signs(w, t.history[|s.history|], g.publicKey, g.subject);
      }
    }
  }

  /** A step that neither performs nor files leaves the once-each facts alone. */
  lemma KeepOnce(s: State, t: State)
    requires OnceEach(s) && Grows(s, t) && t.consumed == s.consumed
    requires |t.history| > |s.history| ==> !t.history[|s.history|].Performed? && !t.history[|s.history|].Filed?
    ensures OnceEach(t)
  {
    hide SameNonce, PairOf;
    assert forall k :: 0 <= k < |s.history| ==> t.history[k] == s.history[k];
  }

  lemma PerformOnce(s: State, c: nat, outcome: Outcome)
    requires OnceEach(s) && PerformStep(s, c, outcome).Some?
    ensures OnceEach(PerformStep(s, c, outcome).value)
  {
    hide PairOf, SameNonce;
    var t := PerformStep(s, c, outcome).value;
    assert forall k :: 0 <= k < |s.history| ==> t.history[k] == s.history[k];
    assert t.history[|s.history|] == Performed(c, outcome);
    forall j | 0 <= j < |s.history| && t.history[j].Performed? ensures !SamePair(t.history, j, |s.history|) {
      SameNonceSamePair(t.history[t.history[j].checked].request, t.history[c].request);
    }
  }

  lemma FileOnce(w: World, s: State, p: nat, dispatchId: string, clock: Clock, prev: Option<string>)
    requires OnceEach(s) && FileStep(w, s, p, dispatchId, clock, prev).Some?
    ensures OnceEach(FileStep(w, s, p, dispatchId, clock, prev).value)
  {
    hide SameNonce, PairOf, DigestHex, ReceiptSubject, LinkTo;
    var t := FileStep(w, s, p, dispatchId, clock, prev).value;
    assert forall k :: 0 <= k < |s.history| ==> t.history[k] == s.history[k];
  }

  lemma StepOnce(w: World, s: State, e: Event)
    requires OnceEach(s) && Step(w, s, e).Some?
    ensures OnceEach(Step(w, s, e).value)
  {
    if e.Perform? {
      hide OnceEach, PerformStep;
      PerformOnce(s, e.checked, e.outcome);
    } else if e.File? {
      hide OnceEach, FileStep;
      FileOnce(w, s, e.performed, e.dispatchId, e.clock, e.prev);
    } else {
      StepGrows(w, s, e);
      hide OnceEach, Grows, Authorised, R.PermitEnforced, R.Reports, C.Certifiable, C.Attests, Decide, MayIssue,
        PermitSubject;
      KeepOnce(s, Step(w, s, e).value);
    }
  }

  lemma {:induction false} RunInv(w: World, s: State, events: seq<Event>)
    requires Inv(w, s) && Run(w, s, events).Some?
    ensures Inv(w, Run(w, s, events).value)
    decreases |events|
  {
    hide Step, AllJustified, SignedByComponents, OnceEach;
    if events != [] {
      StepJustified(w, s, events[0]);
      StepSigned(w, s, events[0]);
      StepOnce(w, s, events[0]);
      RunInv(w, Step(w, s, events[0]).value, events[1..]);
    }
  }

  lemma ReachableInv(w: World, s: State)
    requires Reachable(w, s)
    ensures Inv(w, s)
  {
    var events :| Run(w, Init, events) == Some(s);
    RunInv(w, Init, events);
  }

  // ---- provenance ----

  function SignerOf(w: World, t: WireType): Option<Issuer> {
    match t
    case PermitType => Some(w.permits)
    case ToolReceiptType => Some(w.receipts)
    case ReconciliationType => Some(w.records)
    case CertificateType => Some(w.certificates)
    case _ => None
  }

  /** The trust store lets only the one honest key issue each of the four component types. */
  ghost predicate Honest(w: World) {
    && Sound(w.host.env.codec)
    && forall id, t :: id in w.host.env.trust && SignerOf(w, t).Some?
                       && w.host.env.trust[id].AuthorizesType(TypeName(t)) ==>
         w.host.env.trust[id].publicKey == SignerOf(w, t).value.publicKey
  }

  /** The subject an entry signed, if it signed one. */
  function SignedBy(e: Entry): Option<Subject> {
    match e
    case Issued(_, _, permit) => Some(permit)
    case Filed(_, receipt) => Some(receipt)
    case Reconciled(_, _, _, _, _, _, record) => Some(record)
    case Certified(_, _, certificate) => Some(certificate)
    case _ => None
  }

  function EntryType(e: Entry): Option<WireType> {
    match e
    case Issued(_, _, _) => Some(PermitType)
    case Filed(_, _) => Some(ToolReceiptType)
    case Reconciled(_, _, _, _, _, _, _) => Some(ReconciliationType)
    case Certified(_, _, _) => Some(CertificateType)
    case _ => None
  }

  predicate SignedAt(h: seq<Entry>, k: nat, t: WireType, subject: Subject)
    requires k < |h|
  {
    EntryType(h[k]) == Some(t) && SignedBy(h[k]) == Some(subject)
  }

  lemma EntryTypeRight(w: World, h: seq<Entry>, k: nat)
    requires k < |h| && Justified(w, h, k) && EntryType(h[k]).Some?
    ensures SignedBy(h[k]).Some? && TypeOf(SignedBy(h[k]).value.body) == EntryType(h[k]).value
  {
    hide Authorised, Decide, R.PermitEnforced, C.Certifiable;
  }

  /** What an honest key signed, its component made. */
  lemma MadeByComponent(w: World, s: State, t: WireType, g: Signing) returns (k: nat)
    requires Reachable(w, s) && g in s.signed && TypeOf(g.subject.body) == t
    requires SignerOf(w, t).Some? && g.publicKey == SignerOf(w, t).value.publicKey
    ensures k < |s.history| && SignedAt(s.history, k, t, g.subject)
  {
    hide Reachable, AllJustified, OnceEach, Justified;
    ReachableInv(w, s);
    k :| 0 <= k < |s.history| && Signs(w, s.history[k], g.publicKey, g.subject);
    assert Justified(w, s.history, k) by { JustifiedAt(w, s, k); }
    EntryTypeRight(w, s.history, k);
  }

  lemma JustifiedAt(w: World, s: State, k: nat)
    requires AllJustified(w, s) && k < |s.history|
    ensures Justified(w, s.history, k) && Past(s, s.history[k])
  {}

  /** A component object that verifies, on signatures that exist by now, was made by its component. */
  lemma VerifiedWasMade(w: World, s: State, at: Snap, o: Object, t: WireType) returns (k: nat)
    requires Reachable(w, s) && Honest(w) && at.signed <= s.signed && SignerOf(w, t).Some?
    requires Verified(EnvAt(w, at), o, t, at.now)
    ensures k < |s.history| && SignedAt(s.history, k, t, o.subject)
  {
    hide Reachable, Sound, Digest, NotRevoked, HumanBound;
    var b := w.host.env.trust[o.subject.keyId];
    assert b.publicKey == SignerOf(w, t).value.publicKey;
    k := MadeByComponent(w, s, t, Signing(b.publicKey, o.subject, o.signature));
  }

  /** The permit was issued from an admission that held: the whole condition for this very action. */
  ghost predicate PermitGrounded(w: World, h: seq<Entry>, p: Subject) {
    exists k :: 0 <= k < |h| && SignedAt(h, k, PermitType, p) && IssuedFromAdmission(w, h, k)
  }

  ghost predicate IssuedFromAdmission(w: World, h: seq<Entry>, k: nat)
    requires k < |h| && EntryType(h[k]) == Some(PermitType)
  {
    var d := h[k].decided;
    d < k && h[d].Decided? &&
    var p, i := h[k].permit, h[d].intake;
    && Admissible(HostAt(w, h[d].at), i, h[d].at.now) && Declared(i.governance, i.plan.kind)
    && p.body.Permit? && p.body.permitAction == i.plan.actionDigest && Grants(p, h[d].result, w.permits, h[k].terms)
    && (i.plan.kind in i.governance.reserved ==>
          ApprovalOk(HostAt(w, h[d].at), i, h[d].at.now) && CarriesReservations(p, Reservations(i.approval)))
  }

  /** A real call is behind the receipt: it was authorised by a grounded permit for the receipt's
      action, and its tool, arguments and effect are the ones the receipt reports. */
  ghost predicate ReceiptGrounded(w: World, h: seq<Entry>, r: Subject) {
    exists k :: 0 <= k < |h| && SignedAt(h, k, ToolReceiptType, r) && CallBehind(w, h, k)
  }

  ghost predicate CallBehind(w: World, h: seq<Entry>, k: nat)
    requires k < |h| && EntryType(h[k]) == Some(ToolReceiptType)
  {
    var p := h[k].performed;
    p < k && h[p].Performed? && h[p].checked < p && h[h[p].checked].Checked? &&
    var c := h[h[p].checked];
    && Authorised(EnvAt(w, c.at), w.pe, c.request, c.at.now) && Entitled(EnvAt(w, c.at), w.pe, c.request, c.at.now)
    && Receipts(w, c.request, h[p].outcome, h[k].receipt)
    && PermitGrounded(w, h, c.request.permit.obj.subject)
  }

  /** The record reconciled a grounded permit of its action and, if marked certified, found all clean. */
  ghost predicate RecordGrounded(w: World, h: seq<Entry>, r: Subject) {
    exists k :: 0 <= k < |h| && SignedAt(h, k, ReconciliationType, r) && CleanBehind(w, h, k)
  }

  ghost predicate CleanBehind(w: World, h: seq<Entry>, k: nat)
    requires k < |h| && EntryType(h[k]) == Some(ReconciliationType)
  {
    var e := h[k];
    && e.reconciled.Dict? && e.reconciled.obj.subject.body.Permit?
    && PermitGrounded(w, h, e.reconciled.obj.subject)
    && e.record.body.Reconciliation?
    && e.record.body.reconAction == e.reconciled.obj.subject.body.permitAction
    && (e.record.body.certified ==>
          && R.Clean(EnvAt(w, e.at), e.reconciled.obj.subject, e.matched, e.observed, e.intended, e.at.now)
          && R.DocumentedClean(EnvAt(w, e.at), e.reconciled.obj.subject, e.matched, e.observed, e.intended, e.at.now))
  }

  /** Every digest in the certificate is the digest of a grounded object of the certificate's action. */
  ghost predicate CertificateGrounded(w: World, h: seq<Entry>, c: Subject) {
    exists k :: 0 <= k < |h| && SignedAt(h, k, CertificateType, c) && RunBehind(w, h, k)
  }

  ghost predicate RunBehind(w: World, h: seq<Entry>, k: nat)
    requires k < |h| && EntryType(h[k]) == Some(CertificateType)
  {
    var a, c, codec := h[k].asked, h[k].certificate.body, w.host.env.codec;
    && h[k].certificate.body.Certificate?
    && a.permit.Dict? && a.record.Dict?
    && var p, r := a.permit.obj.subject, a.record.obj.subject;
    && Digest(codec, p) == Some(c.permitDigest) && PermitGrounded(w, h, p)
    && p.body.Permit? && p.body.permitAction == c.certAction
    && Digest(codec, r) == Some(c.reconciliationDigest) && RecordGrounded(w, h, r)
    && r.body.Reconciliation? && r.body.certified && r.body.reconAction == c.certAction
    && c.toolReceiptDigests != [] && C.DigestsOf(codec, a.receipts, c.toolReceiptDigests)
    && |c.dischargedDigests| == |a.obligations|
    && (forall i :: 0 <= i < |a.obligations| ==>
          C.DigestOfEvidence(EnvAt(w, h[k].at), a.discharges, a.obligations[i], c.certAction, h[k].at.now,
                             c.dischargedDigests[i]))
    && c.certifier.id == w.certificates.identity && h[k].certificate.issuer == w.certificates.identity
    && h[k].certificate.keyId == w.certificates.keyId
    && (forall i :: 0 <= i < |a.receipts| ==> ListedReceipt(w, h, a.receipts[i], c.certAction))
    && C.Separated(w.certificates, p, a.receipts, r, a.approval)
    && !C.IsParty(a, w.certificates.identity) && !C.IsPartyKey(a, w.certificates.keyId)
  }

  ghost predicate ListedReceipt(w: World, h: seq<Entry>, item: Item, action: string) {
    item.Dict? && item.obj.subject.body.ToolReceipt? && item.obj.subject.body.toolAction == action
    && ReceiptGrounded(w, h, item.obj.subject)
  }

  lemma GroundPermit(w: World, s: State, at: Snap, o: Object)
    requires Reachable(w, s) && Honest(w) && at.signed <= s.signed
    requires Verified(EnvAt(w, at), o, PermitType, at.now)
    ensures PermitGrounded(w, s.history, o.subject)
  {
    hide Reachable, Verified, Honest, SignedByComponents, OnceEach, Admissible, ApprovalOk, Decide, AllJustified;
    ReachableInv(w, s);
    var k := VerifiedWasMade(w, s, at, o, PermitType);
    JustifiedAt(w, s, k);
    var d := s.history[k].decided;
    JustifiedAt(w, s, d);
    DecideAdmits(HostAt(w, s.history[d].at), s.history[d].intake, s.history[d].at.now);
    AdmissionDeclared(HostAt(w, s.history[d].at), s.history[d].intake, s.history[d].at.now);
    GrantsExactly(o.subject, s.history[d].result, w.permits, s.history[k].terms);
    hide Grants;
  }

  lemma AdmissionDeclared(h: Host, i: Intake, now: int)
    requires Admissible(h, i, now)
    ensures Declared(i.governance, i.plan.kind)
    ensures i.plan.kind in i.governance.reserved ==> Rule(i.governance, i.plan.kind) == RouteHuman
  {
    AdmissibleExactly(h, i, now);
    hide Admissible, GoodStage, Doubled, Cleared, PinHolds, ApprovalOk;
  }

  lemma GroundReceipt(w: World, s: State, at: Snap, o: Object)
    requires Reachable(w, s) && Honest(w) && at.signed <= s.signed
    requires Verified(EnvAt(w, at), o, ToolReceiptType, at.now)
    ensures ReceiptGrounded(w, s.history, o.subject)
  {
    hide Reachable, Verified, Honest, SignedByComponents, OnceEach, AllJustified, Receipts, SenderOk, MatchOk,
      PermitGrounded;
    ReachableInv(w, s);
    var k := VerifiedWasMade(w, s, at, o, ToolReceiptType);
    JustifiedAt(w, s, k);
    var c := s.history[s.history[k].performed].checked;
    JustifiedAt(w, s, s.history[k].performed);
    JustifiedAt(w, s, c);
    GroundPermit(w, s, s.history[c].at, s.history[c].request.permit.obj);
    AuthorisedExactly(EnvAt(w, s.history[c].at), w.pe, s.history[c].request, s.history[c].at.now);
    hide Entitled;
    assert CallBehind(w, s.history, k);
  }

  lemma GroundRecord(w: World, s: State, at: Snap, o: Object)
    requires Reachable(w, s) && Honest(w) && at.signed <= s.signed
    requires Verified(EnvAt(w, at), o, ReconciliationType, at.now)
    ensures RecordGrounded(w, s.history, o.subject)
  {
    hide Reachable, Verified, Honest, SignedByComponents, OnceEach, AllJustified, PermitGrounded, R.Clean;
    ReachableInv(w, s);
    var k := VerifiedWasMade(w, s, at, o, ReconciliationType);
    JustifiedAt(w, s, k);
    GroundPermit(w, s, s.history[k].at, s.history[k].reconciled.obj);
    var e := s.history[k];
    R.CleanExactly(EnvAt(w, e.at), e.reconciled.obj.subject, e.matched, e.observed, e.intended, e.at.now);
    hide R.DocumentedClean, R.SomeNullEffect;
    assert CleanBehind(w, s.history, k);
  }

  lemma GroundCertificate(w: World, s: State, k: nat)
    requires Reachable(w, s) && Honest(w) && k < |s.history| && EntryType(s.history[k]) == Some(CertificateType)
    ensures RunBehind(w, s.history, k)
  {
    hide Reachable, Verified, Honest, SignedByComponents, OnceEach, AllJustified, PermitGrounded, RecordGrounded,
      ReceiptGrounded, C.Separated, C.FirstDischarge, C.Discharged;
    ReachableInv(w, s);
    JustifiedAt(w, s, k);
    var at, a := s.history[k].at, s.history[k].asked;
    var p := a.permit.obj.subject;
    GroundPermit(w, s, at, a.permit.obj);
    GroundRecord(w, s, at, a.record.obj);
    RecordBody(EnvAt(w, at), p, a.record, at.now);
    C.SeparatedExactly(a, w.certificates);
    forall i | 0 <= i < |a.obligations|
      ensures C.DigestOfEvidence(EnvAt(w, at), a.discharges, a.obligations[i], p.body.permitAction, at.now,
                                 s.history[k].certificate.body.dischargedDigests[i])
    {
      C.FirstExactly(EnvAt(w, at), a.discharges, a.obligations[i], p.body.permitAction, at.now,
                     s.history[k].certificate.body.dischargedDigests[i]);
    }
    hide C.IsParty, C.IsPartyKey, C.DigestOfEvidence;
    forall i | 0 <= i < |a.receipts| ensures ListedReceipt(w, s.history, a.receipts[i], p.body.permitAction) {
      R.ReceiptOkIsTool(EnvAt(w, at), p, a.receipts[i], at.now);
      GroundReceipt(w, s, at, a.receipts[i].obj);
    }
  }

  lemma RecordBody(env: Env, permit: Subject, record: Item, now: int)
    requires permit.body.Permit? && C.RecordOk(env, permit, record, now)
    ensures record.Dict? && record.obj.subject.body.Reconciliation?
  {}

  /** Provenance: whatever outsiders sign, every certificate under the certifier's key rests on an
      admission that held, a permit issued from it, a clean reconciliation of the same action, and
      a real authorised call behind each receipt it lists. */
  lemma Provenance(w: World, s: State, g: Signing)
    requires Reachable(w, s) && Honest(w)
    requires g in s.signed && g.publicKey == w.certificates.publicKey && g.subject.body.Certificate?
    ensures CertificateGrounded(w, s.history, g.subject)
  {
    hide Honest, Reachable, RunBehind;
    var k := MadeByComponent(w, s, CertificateType, g);
    GroundCertificate(w, s, k);
  }

  /** What the host asked for holds when the call is made: a permit whose terms name a sender and a key
      is performed only for that sender, with a proof by that key over this very permit and nonce. */
  lemma ConstrainedTermsHold(w: World, s: State, k: nat) returns (issued: nat)
    requires Reachable(w, s) && Honest(w) && k < |s.history| && s.history[k].Performed?
    ensures s.history[k].checked < |s.history| && s.history[s.history[k].checked].Checked?
    ensures issued < |s.history| && s.history[issued].Issued?
    ensures var r, t := s.history[s.history[k].checked].request, s.history[issued].terms;
      && r.permit.Dict? && r.permit.obj.subject == s.history[issued].permit
      && r.permit.obj.subject.runId == t.runId && r.permit.obj.subject.nonce == t.nonce
      && (t.aud.Some? || t.cnf.Some? ==>
            t.aud.Some? && t.cnf.Some? && r.identity == t.aud && ProvesKey(w.pe, r.permit.obj, r.proof, t.cnf.value))
  {
    hide Reachable, Verified, Honest, SignedByComponents, OnceEach, AllJustified, Admissible, ApprovalOk, Decide,
      NamesCall, ProvesKey, Declared;
    ReachableInv(w, s);
    JustifiedAt(w, s, k);
    var c := s.history[k].checked;
    JustifiedAt(w, s, c);
    var e := s.history[c];
    AuthorisedExactly(EnvAt(w, e.at), w.pe, e.request, e.at.now);
    hide Authorised;
    issued := VerifiedWasMade(w, s, e.at, e.request.permit.obj, PermitType);
    JustifiedAt(w, s, issued);
    GrantsExactly(e.request.permit.obj.subject, s.history[s.history[issued].decided].result, w.permits,
                  s.history[issued].terms);
    hide PermitSubject;
  }

  /** The item is, up to its signature, one of the list. */
  predicate Among(item: Item, list: seq<Item>) { exists m :: 0 <= m < |list| && Chain.SameSubject(item, list[m]) }

  /** A digest that was observed is that of a reconciled receipt: nothing extra was observed. */
  predicate NothingExtra(codec: Codec, observed: R.Observed, matched: seq<Item>) {
    forall d :: d in observed.effects ==>
      exists m :: 0 <= m < |matched| && matched[m].Dict? && Digest(codec, matched[m].obj.subject) == Some(d)
  }

  /** `certify` does not compare the receipts it lists with those of the reconciliation it names. The
      effect of a listed receipt was observed, and intended effects delivered by the reconciled ones,
      if the receipt is among those reconciled; and only if, where nothing extra was observed (which
      `reconcile` does not check). */
  lemma MatchedEffects(w: World, s: State, k: nat, j: nat, i: nat)
    requires Reachable(w, s) && Sound(w.host.env.codec) && k < |s.history| && j < |s.history|
    requires s.history[k].Certified? && s.history[j].Reconciled? && i < |s.history[k].asked.receipts|
    requires s.history[k].asked.record.Dict? && s.history[j].record == s.history[k].asked.record.obj.subject
    ensures var e, item := s.history[j], s.history[k].asked.receipts[i]; var env := EnvAt(w, e.at);
      && R.IsTool(item)
      && (Among(item, e.matched) ==> R.EffectMatches(env, e.observed, e.intended, item))
      && (NothingExtra(env.codec, e.observed, e.matched) && R.EffectMatches(env, e.observed, e.intended, item) ==>
            Among(item, e.matched))
      && e.observed.unmatched == [] && (forall tool :: tool in e.intended ==> R.Delivered(e.matched, tool))
  {
    hide Verified, SignedByComponents, OnceEach, AllJustified, Reachable, R.EffectMatches, R.Delivered,
      C.Separated, C.FirstDischarge, C.Discharged, Sound;
    ReachableInv(w, s);
    JustifiedAt(w, s, k);
    JustifiedAt(w, s, j);
    var e, at := s.history[j], s.history[k].at;
    var item := s.history[k].asked.receipts[i];
    R.ReceiptOkIsTool(EnvAt(w, at), s.history[k].asked.permit.obj.subject, item, at.now);
    forall m | 0 <= m < |e.matched| ensures R.IsTool(e.matched[m]) {
      R.ReceiptOkIsTool(EnvAt(w, e.at), e.reconciled.obj.subject, e.matched[m], e.at.now);
    }
    EffectsAmong(EnvAt(w, e.at), e.observed, e.intended, e.matched, item);
  }

  lemma EffectsAmong(env: Env, observed: R.Observed, intended: map<string, Json>, matched: seq<Item>, item: Item)
    requires Sound(env.codec) && R.IsTool(item)
    requires forall m :: 0 <= m < |matched| ==>
      R.IsTool(matched[m]) && R.EffectMatches(env, observed, intended, matched[m])
    ensures Among(item, matched) ==> R.EffectMatches(env, observed, intended, item)
    ensures NothingExtra(env.codec, observed, matched) && R.EffectMatches(env, observed, intended, item) ==>
      Among(item, matched)
  {
    hide Sound, DigestHex;
    if NothingExtra(env.codec, observed, matched) && R.EffectMatches(env, observed, intended, item) {
      var d := Digest(env.codec, item.obj.subject).value;
      var m :| 0 <= m < |matched| && matched[m].Dict? && Digest(env.codec, matched[m].obj.subject) == Some(d);
      DigestPins(env.codec, item.obj.subject, matched[m].obj.subject);
    }
  }

  // ---- which runs an audit accepts ----

  /** The executor as it is links nothing: whatever verifies as its receipt has no `prev_digest`. */
  lemma ReceiptUnlinked(w: World, s: State, at: Snap, o: Object)
    requires Reachable(w, s) && Honest(w) && !w.linking && at.signed <= s.signed
    requires Verified(EnvAt(w, at), o, ToolReceiptType, at.now)
    ensures PrevOf(o.subject.body).None?
  {
    hide Reachable, Verified, Honest, SignedByComponents, OnceEach, AllJustified;
    ReachableInv(w, s);
    var k := VerifiedWasMade(w, s, at, o, ToolReceiptType);
    JustifiedAt(w, s, k);
  }

  /** So receipts that verify are linked from a genesis one exactly when there is one of them. */
  lemma LinkedIsSingle(w: World, s: State, at: Snap, receipts: seq<Item>)
    requires Reachable(w, s) && Honest(w) && !w.linking && at.signed <= s.signed
    requires forall i :: 0 <= i < |receipts| ==> VerifiedItem(EnvAt(w, at), receipts[i], ToolReceiptType, at.now)
    ensures Chain.Linked(w.host.env.codec, receipts, None) <==> |receipts| == 1
  {
    hide Reachable, Honest, Verified, Digest;
    forall i | 0 <= i < |receipts| ensures receipts[i].Dict? && PrevOf(receipts[i].obj.subject.body).None? {
      ReceiptUnlinked(w, s, at, receipts[i].obj);
    }
    hide PrevOf;
    assert Chain.Linked(w.host.env.codec, receipts, None) && |receipts| > 1 ==>
      Chain.LinkOk(w.host.env.codec, receipts, None, 1);
  }

  /** With the executor as it is, an accepted audit has exactly one tool receipt. */
  lemma AuditIsSingle(w: World, s: State, run: A.AuditRun)
    requires Reachable(w, s) && Honest(w) && !w.linking && A.AuditOk(EnvAt(w, Now(s)), run, s.now)
    ensures |run.receipts| == 1
  {
    hide Reachable, Honest, Verified, A.References, Chain.Linked;
    forall i | 0 <= i < |run.receipts| ensures VerifiedItem(EnvAt(w, Now(s)), run.receipts[i], ToolReceiptType, s.now) {
      A.ChainVerified(EnvAt(w, Now(s)), run.receipts, s.now, i);
    }
    LinkedIsSingle(w, s, Now(s), run.receipts);
    A.ChainLinked(EnvAt(w, Now(s)), run.receipts, s.now);
  }

  /** And what `certify` signs, over any number of receipts, audits clean at that time exactly when
      it lists one receipt and the certificate itself verifies. */
  lemma CertifiedAuditsIffSingle(w: World, s: State, asked: C.Request, certificate: Object)
    requires Reachable(w, s) && Honest(w) && !w.linking
    requires C.Certifiable(EnvAt(w, Now(s)), asked, w.certificates, s.now)
    requires C.Attests(EnvAt(w, Now(s)), asked, w.certificates, s.now, certificate.subject)
    ensures A.AuditOk(EnvAt(w, Now(s)),
                      A.AuditRun(asked.permit, asked.receipts, asked.record, Dict(certificate), []), s.now) <==>
      |asked.receipts| == 1 && Verified(EnvAt(w, Now(s)), certificate, CertificateType, s.now)
  {
    hide Reachable, Honest, Verified, A.AuditOk, Chain.Linked, C.Attests, C.Separated, C.Discharged;
    HonestSound(w);
    A.CertifiedAuditsClean(EnvAt(w, Now(s)), asked, w.certificates, s.now, certificate, []);
    forall i | 0 <= i < |asked.receipts| ensures VerifiedItem(EnvAt(w, Now(s)), asked.receipts[i], ToolReceiptType,
                                                              s.now) {
      assert R.ReceiptOk(EnvAt(w, Now(s)), asked.permit.obj.subject, asked.receipts[i], s.now);
    }
    LinkedIsSingle(w, s, Now(s), asked.receipts);
  }

  // ---- an audited run happened ----

  /** The entry performed the call whose receipt this is. */
  predicate CallOf(h: seq<Entry>, k: nat, call: nat, receipt: Subject) {
    k < |h| && call < |h| && h[k].Filed? && h[k].receipt == receipt && h[k].performed == call && h[call].Performed?
  }

  lemma ReceiptCall(w: World, s: State, at: Snap, o: Object) returns (k: nat, call: nat)
    requires Reachable(w, s) && Honest(w) && at.signed <= s.signed
    requires Verified(EnvAt(w, at), o, ToolReceiptType, at.now)
    ensures CallOf(s.history, k, call, o.subject)
  {
    hide Reachable, Verified, Honest, SignedByComponents, OnceEach, AllJustified, Receipts;
    ReachableInv(w, s);
    k := VerifiedWasMade(w, s, at, o, ToolReceiptType);
    JustifiedAt(w, s, k);
    call := s.history[k].performed;
  }

  /** Some receipt entry says this call is behind the receipt. */
  ghost predicate Behind(h: seq<Entry>, call: nat, receipt: Subject) {
    exists k :: CallOf(h, k, call, receipt)
  }

  /** Two calls under different nonces. */
  predicate Apart(h: seq<Entry>, a: nat, b: nat) {
    a < |h| && b < |h| && h[a].Performed? && h[b].Performed? && !SamePair(h, a, b)
  }

  lemma DistinctCalls(w: World, s: State, k1: nat, call1: nat, r1: Subject, k2: nat, call2: nat, r2: Subject)
    requires Reachable(w, s) && CallOf(s.history, k1, call1, r1) && CallOf(s.history, k2, call2, r2) && r1 != r2
    ensures call1 != call2 && Apart(s.history, call1, call2)
  {
    hide Reachable, AllJustified, SignedByComponents, PairOf;
    ReachableInv(w, s);
    assert k1 != k2;
    assert call1 != call2;
    if call2 < call1 { assert !SamePair(s.history, call2, call1); }
  }

  /** Where the host links receipts, an accepted audit of n receipts stands for n distinct real
      calls, each under a nonce of its own; and its permit, record and receipts are the grounded ones
      of its certificate's action. */
  lemma AuditedRunHappened(w: World, s: State, run: A.AuditRun) returns (calls: seq<nat>)
    requires Reachable(w, s) && Honest(w) && A.AuditOk(EnvAt(w, Now(s)), run, s.now)
    ensures CertificateGrounded(w, s.history, run.certificate.obj.subject)
    ensures PermitGrounded(w, s.history, run.permit.obj.subject)
    ensures RecordGrounded(w, s.history, run.record.obj.subject)
    ensures |calls| == |run.receipts|
    ensures forall i :: 0 <= i < |calls| ==>
      run.receipts[i].Dict? && Behind(s.history, calls[i], run.receipts[i].obj.subject)
    ensures forall i, j :: 0 <= i < j < |calls| ==> calls[i] != calls[j] && Apart(s.history, calls[i], calls[j])
  {
    hide Honest, Reachable, Verified, A.References, CertificateGrounded, PermitGrounded, RecordGrounded, SamePair,
      CallOf, Apart, Chain.ChainOk, Chain.Linked;
    var env, at := EnvAt(w, Now(s)), Now(s);
    var k := VerifiedWasMade(w, s, at, run.certificate.obj, CertificateType);
    GroundAudited(w, s, k, run.certificate.obj.subject);
    GroundPermit(w, s, at, run.permit.obj);
    GroundRecord(w, s, at, run.record.obj);
    A.ChainDicts(env, run.receipts, s.now);
    A.ChainLinked(env, run.receipts, s.now);
    HonestSound(w);
    calls := [];
    for n := 0 to |run.receipts|
      invariant |calls| == n
      invariant forall i :: 0 <= i < n ==> Behind(s.history, calls[i], run.receipts[i].obj.subject)
      invariant forall i, j :: 0 <= i < j < n ==> calls[i] != calls[j] && Apart(s.history, calls[i], calls[j])
    {
      A.ChainVerified(env, run.receipts, s.now, n);
      var file, call := ReceiptCall(w, s, at, run.receipts[n].obj);
      forall i | 0 <= i < n ensures calls[i] != call && Apart(s.history, calls[i], call) {
        var other :| CallOf(s.history, other, calls[i], run.receipts[i].obj.subject);
        Chain.NoRepeat(env.codec, run.receipts, i, n);
        DistinctCalls(w, s, other, calls[i], run.receipts[i].obj.subject, file, call, run.receipts[n].obj.subject);
      }
      calls := calls + [call];
      assert Behind(s.history, call, run.receipts[n].obj.subject);
    }
  }

  lemma HonestSound(w: World)
    requires Honest(w)
    ensures Sound(w.host.env.codec)
  {}

  lemma GroundAudited(w: World, s: State, k: nat, c: Subject)
    requires Reachable(w, s) && Honest(w) && k < |s.history| && SignedAt(s.history, k, CertificateType, c)
    ensures CertificateGrounded(w, s.history, c)
  {
    hide Reachable, Honest, RunBehind;
    GroundCertificate(w, s, k);
  }
}
