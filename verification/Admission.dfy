/** `wire/admission.py` and the ruling of `governance_block.py`: decide, then issue a permit. */
module Admission {
  import opened Prelude
  import opened Wire
  import opened Verification
  import opened Canonical
  import opened Digests
  import opened Executor
  import opened NonceStores

  // ---- the governance block ----

  datatype GovernanceBlock = GovernanceBlock(actions: set<string>, reserved: set<string>, prohibited: set<string>,
                                             digest: string)

  datatype Ruling = Steer | RouteHuman | Refuse

  /** `GovernanceBlock.rule`: prohibited wins, then reserved, then declared; anything else is refused. */
  function Rule(g: GovernanceBlock, kind: string): Ruling {
    if kind in g.prohibited then Refuse
    else if kind in g.reserved then RouteHuman
    else if kind in g.actions then Steer
    else Refuse
  }

  datatype SignedBlock = SignedBlock(digest: string, keyId: string, identity: string, signature: string)
  datatype BlockSigning = BlockSigning(publicKey: string, digest: string, keyId: string, identity: string,
                                       signature: string)

  // ---- what a request for admission is ----

  datatype Plan = Plan(loomground: bool, makerId: string, kind: string, actionDigest: string, obligations: seq<string>,
                       ready: bool, disposition: string, ruling: Ruling, recommended: string)

  datatype Intake = Intake(plan: Plan, receipts: seq<Item>, governance: GovernanceBlock, approval: Option<Object>,
                           authority: Option<(string, string, string) -> bool>, acknowledged: seq<string>,
                           pin: Option<SignedBlock>, authorRole: string)

  /** The preflight tools, and the policy signatures that exist. */
  datatype Host = Host(env: Env, preflight: seq<string>, blockSignings: set<BlockSigning>)

  datatype Decision = Admitted | ReviewRequired | Refused

  datatype AdmissionResult = AdmissionResult(decision: Decision, actionDigest: string, kind: string,
                                             reservations: seq<string>, governanceDigest: Option<string>)

  /** `_governance_block_findings`: an absent pin holds; a present one must be this block's, signed
      by a policy author other than the maker. */
  predicate PinHolds(h: Host, i: Intake) {
    i.pin.None? ||
    var p := i.pin.value;
    && p.digest == i.governance.digest
    && p.keyId in h.env.trust &&
    var b := h.env.trust[p.keyId];
    && b.AuthorizesType("GovernanceBlock")
    && b.AuthorizesRole(i.authorRole)
    && b.identity == Some(p.identity)
    && p.identity != i.plan.makerId
    && p.signature != ""
    && BlockSigning(b.publicKey, p.digest, p.keyId, p.identity, p.signature) in h.blockSignings
  }

  /** `_approval_findings`: a verified human approval of this action, by an approver authorised for the kind. */
  predicate ApprovalOk(h: Host, i: Intake, now: int) {
    i.approval.Some? &&
    var who := VerifyHumanApproval(h.env, i.approval.value, now, None);
    who.Some? &&
    var b := i.approval.value.subject.body;
    && b.permittedAction == i.plan.actionDigest
    && i.authority.Some? && i.authority.value(i.plan.kind, who.value, b.approver.role)
    && b.scope in {"next-action", "session"}
  }

  /** The receipt verifies and is bound to this action. */
  predicate StageOk(env: Env, plan: Plan, item: Item, now: int) {
    VerifiedItem(env, item, StageReceiptType, now) && item.obj.subject.body.stageAction == plan.actionDigest
  }

  predicate IsStage(item: Item) { item.Dict? && item.obj.subject.body.StageReceipt? }

  /** The capability a stage receipt reports, without its `tool:` prefix. */
  function KeyOf(item: Item): string {
    if IsStage(item) then ToolKey(item.obj.subject.body.capability) else "?"
  }

  lemma StageOkIsStage(env: Env, plan: Plan, item: Item, now: int)
    requires StageOk(env, plan, item, now)
    ensures IsStage(item)
  {}

  /** Every receipt verifies, is bound to this action, and reports a capability of its own. */
  ghost predicate ReceiptsSound(env: Env, plan: Plan, receipts: seq<Item>, now: int) {
    && (forall i :: 0 <= i < |receipts| ==> StageOk(env, plan, receipts[i], now))
    && (forall i, j :: 0 <= i < j < |receipts| ==> KeyOf(receipts[i]) != KeyOf(receipts[j]))
  }

  predicate Blocking(status: string) { status == "OPEN" || status == "ERROR" || status == "NOT_SATISFIED" }

  predicate Settles(item: Item, name: string) {
    IsStage(item) && KeyOf(item) == name && !Blocking(item.obj.subject.body.status)
  }

  /** The tool has a receipt that is neither open, erroneous nor failed. */
  ghost predicate Resolved(receipts: seq<Item>, name: string) {
    exists i :: 0 <= i < |receipts| && Settles(receipts[i], name)
  }

  function Required(h: Host, plan: Plan): seq<string> { if plan.loomground then h.preflight else [] }

  /** The whole condition for admission. */
  ghost predicate Admissible(h: Host, i: Intake, now: int) {
    && Rule(i.governance, i.plan.kind) != Refuse
    && PinHolds(h, i)
    && (Rule(i.governance, i.plan.kind) == RouteHuman ==> ApprovalOk(h, i, now))
    && ReceiptsSound(h.env, i.plan, i.receipts, now)
    && (forall name :: name in Required(h, i.plan) ==> Resolved(i.receipts, name))
    && (forall o :: o in i.plan.obligations ==> o in i.acknowledged)
  }

  /** What the index holds: for each key, a good receipt with that key, and every good receipt's key. */
  ghost predicate Indexes(env: Env, plan: Plan, receipts: seq<Item>, now: int, indexed: map<string, Object>) {
    && (forall k :: k in indexed ==>
          exists i :: 0 <= i < |receipts| && StageOk(env, plan, receipts[i], now)
            && receipts[i] == Dict(indexed[k]) && KeyOf(receipts[i]) == k)
    && (forall i :: 0 <= i < |receipts| && StageOk(env, plan, receipts[i], now) ==> KeyOf(receipts[i]) in indexed)
  }

  /** `_index_and_verify`: verify, bind and de-duplicate, counting everything that is not indexed. */
  method IndexAndVerify(env: Env, plan: Plan, receipts: seq<Item>, now: int)
      returns (indexed: map<string, Object>, invalid: nat)
    ensures invalid == 0 <==> ReceiptsSound(env, plan, receipts, now)
    ensures Indexes(env, plan, receipts, now, indexed)
  {
    indexed, invalid := map[], 0;
    for i := 0 to |receipts|
      invariant invalid == 0 <==> ReceiptsSound(env, plan, receipts[..i], now)
      invariant Indexes(env, plan, receipts[..i], now, indexed)
    {
      hide StageOk, KeyOf, Indexes, ReceiptsSound;
      var item := receipts[i];
      ghost var taken, before := receipts[..i], indexed;
      var key := KeyOf(item);
      if !StageOk(env, plan, item, now) {
        invalid := invalid + 1;
      } else if key in indexed {
        invalid := invalid + 1;
      } else {
        StageOkIsStage(env, plan, item, now);
        indexed := indexed[key := item.obj];
      }
      assert receipts[..i + 1] == taken + [item];
      IndexSnoc(env, plan, taken, item, now, before, indexed);
    }
    assert receipts[..|receipts|] == receipts;
  }

  lemma IndexSnoc(env: Env, plan: Plan, taken: seq<Item>, item: Item, now: int, before: map<string, Object>,
                  after: map<string, Object>)
    requires Indexes(env, plan, taken, now, before)
    requires if StageOk(env, plan, item, now) && KeyOf(item) !in before
             then item.Dict? && after == before[KeyOf(item) := item.obj] else after == before
    ensures Indexes(env, plan, taken + [item], now, after)
    ensures ReceiptsSound(env, plan, taken + [item], now)
      <==> ReceiptsSound(env, plan, taken, now) && StageOk(env, plan, item, now) && KeyOf(item) !in before
  {
    hide StageOk, KeyOf;
    var all := taken + [item];
    assert all[|taken|] == item && forall j :: 0 <= j < |taken| ==> all[j] == taken[j];
    forall k | k in after
      ensures exists i ::
        0 <= i < |all| && StageOk(env, plan, all[i], now) && all[i] == Dict(after[k]) && KeyOf(all[i]) == k
    {
      if k in before && after[k] == before[k] {
        var i :| 0 <= i < |taken| && StageOk(env, plan, taken[i], now) && taken[i] == Dict(before[k])
          && KeyOf(taken[i]) == k;
        assert all[i] == taken[i];
      } else {
        assert all[|taken|] == Dict(after[k]);
      }
    }
    if KeyOf(item) in before {
      var i :| 0 <= i < |taken| && StageOk(env, plan, taken[i], now) && KeyOf(taken[i]) == KeyOf(item);
      assert KeyOf(all[i]) == KeyOf(all[|taken|]);
    }
  }

  /** With sound receipts the index answers "is this tool settled" correctly. */
  lemma IndexSettles(env: Env, plan: Plan, receipts: seq<Item>, now: int, indexed: map<string, Object>, name: string)
    requires ReceiptsSound(env, plan, receipts, now) && Indexes(env, plan, receipts, now, indexed)
    ensures Resolved(receipts, name) <==>
      name in indexed && indexed[name].subject.body.StageReceipt? && !Blocking(indexed[name].subject.body.status)
  {
    hide StageOk;
    if Resolved(receipts, name) {
      var i :| 0 <= i < |receipts| && Settles(receipts[i], name);
      assert KeyOf(receipts[i]) in indexed;
      var j :| 0 <= j < |receipts| && receipts[j] == Dict(indexed[name]) && KeyOf(receipts[j]) == name;
      assert i == j;
    }
    if name in indexed && indexed[name].subject.body.StageReceipt? && !Blocking(indexed[name].subject.body.status) {
      var j :| 0 <= j < |receipts| && receipts[j] == Dict(indexed[name]) && KeyOf(receipts[j]) == name;
      assert Settles(receipts[j], name);
    }
  }

  // ---- the condition, said of the fields ----

  /** Within the declared boundary: a kind somebody declared and nobody prohibited. */
  predicate Declared(g: GovernanceBlock, kind: string) {
    kind !in g.prohibited && (kind in g.actions || kind in g.reserved)
  }

  /** A stage receipt whose capability is this tool's, with or without the `tool:` prefix. */
  predicate ReportsTool(item: Item, name: string) {
    item.Dict? && item.obj.subject.body.StageReceipt?
    && CapabilityOf(item.obj.subject.body.capability, name)
  }

  lemma ReportsToolExactly(item: Item, name: string)
    requires IsStage(item)
    ensures ReportsTool(item, name) <==> KeyOf(item) == name
  {
    ToolKeyExactly(item.obj.subject.body.capability, name);
  }

  /** Verified and about this very action. */
  predicate GoodStage(env: Env, plan: Plan, item: Item, now: int) {
    item.Dict? && Verified(env, item.obj, StageReceiptType, now)
    && item.obj.subject.body.StageReceipt? && item.obj.subject.body.stageAction == plan.actionDigest
  }

  /** A receipt for the tool that is not open, erroneous or failed. */
  predicate Cleared(receipts: seq<Item>, name: string) {
    exists k :: 0 <= k < |receipts| && ReportsTool(receipts[k], name)
      && receipts[k].obj.subject.body.status !in {"OPEN", "ERROR", "NOT_SATISFIED"}
  }

  /** Two receipts that report one tool. */
  predicate Doubled(receipts: seq<Item>, name: string) {
    exists j, k :: 0 <= j < k < |receipts| && ReportsTool(receipts[j], name) && ReportsTool(receipts[k], name)
  }

  lemma ClearedExactly(receipts: seq<Item>, name: string)
    ensures Cleared(receipts, name) <==> Resolved(receipts, name)
  {
    forall k | 0 <= k < |receipts| && IsStage(receipts[k])
      ensures ReportsTool(receipts[k], name) <==> KeyOf(receipts[k]) == name
    {
      ReportsToolExactly(receipts[k], name);
    }
    hide ReportsTool, KeyOf;
    if Cleared(receipts, name) {
      var k :| 0 <= k < |receipts| && ReportsTool(receipts[k], name)
               && receipts[k].obj.subject.body.status !in {"OPEN", "ERROR", "NOT_SATISFIED"};
      assert Settles(receipts[k], name) by { ReportsIsStage(receipts[k], name); }
    }
    if Resolved(receipts, name) {
      var k :| 0 <= k < |receipts| && Settles(receipts[k], name);
      assert ReportsTool(receipts[k], name);
    }
  }

  lemma ReportsIsStage(item: Item, name: string)
    requires ReportsTool(item, name)
    ensures IsStage(item)
  {}

  lemma SoundExactly(env: Env, plan: Plan, receipts: seq<Item>, now: int)
    ensures ReceiptsSound(env, plan, receipts, now) <==>
      && (forall k :: 0 <= k < |receipts| ==> GoodStage(env, plan, receipts[k], now))
      && (forall name :: !Doubled(receipts, name))
  {
    hide Verified;
    forall k | 0 <= k < |receipts|
      ensures GoodStage(env, plan, receipts[k], now) <==> StageOk(env, plan, receipts[k], now)
    {
      StageExactly(env, plan, receipts[k], now);
    }
    hide StageOk, GoodStage;
    forall k, name | 0 <= k < |receipts|
      ensures ReportsTool(receipts[k], name) <==> IsStage(receipts[k]) && KeyOf(receipts[k]) == name
    {
      if IsStage(receipts[k]) { ReportsToolExactly(receipts[k], name); }
      if ReportsTool(receipts[k], name) { ReportsIsStage(receipts[k], name); }
    }
    if forall k :: 0 <= k < |receipts| ==> StageOk(env, plan, receipts[k], now) {
      forall k | 0 <= k < |receipts| ensures IsStage(receipts[k]) { StageOkIsStage(env, plan, receipts[k], now); }
      hide ReportsTool, KeyOf;
      if forall name :: !Doubled(receipts, name) {
        forall j, k | 0 <= j < k < |receipts| ensures KeyOf(receipts[j]) != KeyOf(receipts[k]) {
          assert !Doubled(receipts, KeyOf(receipts[j]));
        }
      }
    }
  }

  lemma StageExactly(env: Env, plan: Plan, item: Item, now: int)
    ensures GoodStage(env, plan, item, now) <==> StageOk(env, plan, item, now)
  {}

  /** An absent pin holds; a present one is of this very block, signed with a key of the store for
      governance blocks, in the author's role and under its own identity, which is not the maker's. */
  lemma PinExactly(h: Host, i: Intake)
    ensures PinHolds(h, i) <==> i.pin.Some? ==>
      var p := i.pin.value;
      && p.digest == i.governance.digest && p.signature != "" && p.identity != i.plan.makerId
      && p.keyId in h.env.trust && h.env.trust[p.keyId].identity == Some(p.identity)
      && ("*" in h.env.trust[p.keyId].objectTypes || "GovernanceBlock" in h.env.trust[p.keyId].objectTypes)
      && ("*" in h.env.trust[p.keyId].roles || i.authorRole in h.env.trust[p.keyId].roles)
      && exists g :: g in h.blockSignings && g.publicKey == h.env.trust[p.keyId].publicKey && g.digest == p.digest
           && g.keyId == p.keyId && g.identity == p.identity && g.signature == p.signature
  {
    if i.pin.Some? && i.pin.value.keyId in h.env.trust {
      var p := i.pin.value;
      var g := BlockSigning(h.env.trust[p.keyId].publicKey, p.digest, p.keyId, p.identity, p.signature);
      assert g in h.blockSignings ==> g.digest == p.digest;
    }
  }

  /** An approval counts when it verifies, approves this very action at a known scope, and its human
      is authorised for the kind in the role the receipt names. */
  lemma ApprovalExactly(h: Host, i: Intake, now: int)
    ensures ApprovalOk(h, i, now) <==>
      && i.approval.Some? && Verified(h.env, i.approval.value, HumanApprovalType, now)
      && i.approval.value.subject.body.HumanApproval?
      && i.approval.value.subject.body.permittedAction == i.plan.actionDigest
      && (i.approval.value.subject.body.scope == "next-action" || i.approval.value.subject.body.scope == "session")
      && i.authority.Some?
      && i.authority.value(i.plan.kind, i.approval.value.subject.body.approver.id,
                           i.approval.value.subject.body.approver.role)
  {
    if i.approval.Some? && Verified(h.env, i.approval.value, HumanApprovalType, now) {
      HumanKey(h.env, i.approval.value, now);
    }
    hide Verified;
  }

  lemma HumanKey(env: Env, o: Object, now: int)
    requires Verified(env, o, HumanApprovalType, now)
    ensures o.subject.body.HumanApproval? && o.subject.keyId in env.trust
    ensures env.trust[o.subject.keyId].AuthorizesRole("human")
  {
    hide IsRevoked, OwnedBy, Digest;
  }

  /** The whole condition again: within the boundary, pinned as claimed, approved if the kind is
      reserved, on good receipts, no tool twice, every preflight tool cleared for a plan that has them,
      and every obligation acknowledged. */
  lemma AdmissibleExactly(h: Host, i: Intake, now: int)
    ensures Admissible(h, i, now) <==>
      && Declared(i.governance, i.plan.kind) && PinHolds(h, i)
      && (i.plan.kind in i.governance.reserved ==> ApprovalOk(h, i, now))
      && (forall k :: 0 <= k < |i.receipts| ==> GoodStage(h.env, i.plan, i.receipts[k], now))
      && (forall name :: !Doubled(i.receipts, name))
      && (i.plan.loomground ==> forall name :: name in h.preflight ==> Cleared(i.receipts, name))
      && (forall o :: o in i.plan.obligations ==> o in i.acknowledged)
  {
    SoundExactly(h.env, i.plan, i.receipts, now);
    forall name ensures Cleared(i.receipts, name) <==> Resolved(i.receipts, name) { ClearedExactly(i.receipts, name); }
    hide ReceiptsSound, GoodStage, Doubled, Cleared, Resolved, PinHolds, ApprovalOk;
  }

  function StatusOf(o: Object): string {
    if o.subject.body.StageReceipt? then o.subject.body.status else "ERROR"
  }

  /** The whole result: reservations only from a needed approval, the block's digest only when pinned. */
  ghost function Decide(h: Host, i: Intake, now: int): AdmissionResult {
    var ruling := Rule(i.governance, i.plan.kind);
    if ruling == Refuse || !PinHolds(h, i) then AdmissionResult(Decision.Refused, i.plan.actionDigest, i.plan.kind, [],
                                                                None)
    else if !Admissible(h, i, now) then AdmissionResult(ReviewRequired, i.plan.actionDigest, i.plan.kind, [], None)
    else
      AdmissionResult(Admitted, i.plan.actionDigest, i.plan.kind,
                      if ruling == RouteHuman then Reservations(i.approval) else [],
                      if i.pin.Some? then Some(i.governance.digest) else None)
  }

  function Reservations(approval: Option<Object>): seq<string> {
    if approval.Some? && approval.value.subject.body.HumanApproval? then approval.value.subject.body.reservations
    else []
  }

  /** By set membership alone: a prohibited or undeclared kind is refused, no other kind is where the
      pin holds, and a reserved kind, and no other, waits for its approval. */
  lemma DecideSays(h: Host, i: Intake, now: int)
    ensures var r := Decide(h, i, now);
      && (!Declared(i.governance, i.plan.kind) ==> r.decision.Refused?)
      && (Declared(i.governance, i.plan.kind) && PinHolds(h, i) ==> !r.decision.Refused?)
      && (i.plan.kind in i.governance.reserved && !ApprovalOk(h, i, now) ==> !r.decision.Admitted?)
      && (i.plan.kind !in i.governance.reserved ==>
            (r.decision.Admitted? <==> Admissible(h, i.(approval := None), now)))
      && r.actionDigest == i.plan.actionDigest && r.kind == i.plan.kind
      && (r.decision.Admitted? ==>
            && r.governanceDigest == (if i.pin.Some? then Some(i.governance.digest) else None)
            && r.reservations == (if i.plan.kind in i.governance.reserved then Reservations(i.approval) else []))
  {
    AdmissibleExactly(h, i, now);
    AdmissibleExactly(h, i.(approval := None), now);
    assert PinHolds(h, i.(approval := None)) == PinHolds(h, i);
    hide ApprovalOk, PinHolds, GoodStage, Doubled, Cleared, Admissible;
  }

  /** `admit`: ADMITTED exactly on the whole condition, REFUSED exactly on a refused kind or a broken
      pin, which come before anything a human could supply. */
  method Admit(h: Host, i: Intake, now: int) returns (r: AdmissionResult)
    ensures r.decision.Admitted? <==> Admissible(h, i, now)
    ensures r.decision.Refused? <==> Rule(i.governance, i.plan.kind) == Refuse || !PinHolds(h, i)
    ensures r == Decide(h, i, now)
    // By set membership alone: a prohibited or undeclared kind is refused, no other kind is where the
    // pin holds, and a reserved kind, and no other, waits for its approval.
    ensures !Declared(i.governance, i.plan.kind) ==> r.decision.Refused?
    ensures Declared(i.governance, i.plan.kind) && PinHolds(h, i) ==> !r.decision.Refused?
    ensures i.plan.kind in i.governance.reserved && !ApprovalOk(h, i, now) ==> !r.decision.Admitted?
    ensures i.plan.kind !in i.governance.reserved ==>
      (r.decision.Admitted? <==> Admissible(h, i.(approval := None), now))
    // What an admission says.
    ensures r.actionDigest == i.plan.actionDigest && r.kind == i.plan.kind
    ensures r.decision.Admitted? ==>
      && r.governanceDigest == (if i.pin.Some? then Some(i.governance.digest) else None)
      && r.reservations == (if i.plan.kind in i.governance.reserved then Reservations(i.approval) else [])
  {
    DecideSays(h, i, now);
    hide StageOk, ApprovalOk, PinHolds, Resolved, ReceiptsSound, Indexes, Blocking, GoodStage, Doubled, Cleared;
    var plan := i.plan;
    var ruling := Rule(i.governance, plan.kind);
    if ruling.Refuse? { return AdmissionResult(Decision.Refused, plan.actionDigest, plan.kind, [], None); }
    if !PinHolds(h, i) { return AdmissionResult(Decision.Refused, plan.actionDigest, plan.kind, [], None); }
    var pinned := if i.pin.Some? then Some(i.governance.digest) else None;

    var reasons := 0;
    var reservations := [];
    if ruling.RouteHuman? {
      if ApprovalOk(h, i, now) {
        reservations := i.approval.value.subject.body.reservations by { ApprovalBody(h, i, now); }
      } else {
        reasons := reasons + 1;
      }
    }
    var indexed, invalid := IndexAndVerify(h.env, plan, i.receipts, now);
    var required := Required(h, plan);
    var missing := exists n :: n in required && n !in indexed;
    var blocked := exists n :: n in required && n in indexed && Blocking(StatusOf(indexed[n]));
    var unacknowledged := exists o :: o in plan.obligations && o !in i.acknowledged;
    if invalid > 0 { reasons := reasons + 1; }
    if missing { reasons := reasons + 1; }
    if blocked { reasons := reasons + 1; }
    if unacknowledged { reasons := reasons + 1; }
    if invalid == 0 {
      forall n ensures Resolved(i.receipts, n) <==> n in indexed && !Blocking(StatusOf(indexed[n])) {
        IndexSettles(h.env, plan, i.receipts, now, indexed, n);
        IndexedStage(h.env, plan, i.receipts, now, indexed, n);
      }
    }
    if reasons > 0 { return AdmissionResult(ReviewRequired, plan.actionDigest, plan.kind, [], None); }
    return AdmissionResult(Admitted, plan.actionDigest, plan.kind, reservations, pinned);
  }

  lemma ApprovalBody(h: Host, i: Intake, now: int)
    requires ApprovalOk(h, i, now)
    ensures i.approval.Some? && i.approval.value.subject.body.HumanApproval?
  {}

  lemma IndexedStage(env: Env, plan: Plan, receipts: seq<Item>, now: int, indexed: map<string, Object>, k: string)
    requires Indexes(env, plan, receipts, now, indexed)
    ensures k in indexed ==> indexed[k].subject.body.StageReceipt?
  {
    hide StageOk;
    if k in indexed {
      var i :| 0 <= i < |receipts| && StageOk(env, plan, receipts[i], now) && receipts[i] == Dict(indexed[k]);
      StageOkIsStage(env, plan, receipts[i], now);
    }
  }

  // ---- the order receipts arrive in does not matter ----

  /** Distinct keys at distinct positions, said without positions: no receipt twice, and no two
      receipts with one key. */
  lemma DistinctKeysByMember(receipts: seq<Item>)
    requires forall i, j :: 0 <= i < j < |receipts| ==> KeyOf(receipts[i]) != KeyOf(receipts[j])
    ensures forall x :: x in receipts ==> multiset(receipts)[x] == 1
    ensures forall x, y :: x in receipts && y in receipts && x != y ==> KeyOf(x) != KeyOf(y)
  {
    hide KeyOf;
    forall x | x in receipts ensures multiset(receipts)[x] == 1 {
      var i :| 0 <= i < |receipts| && receipts[i] == x;
      var before, after := receipts[..i], receipts[i + 1..];
      assert receipts == before + [x] + after;
      assert x !in before && x !in after;
      assert multiset(receipts) == multiset(before) + multiset{x} + multiset(after);
    }
  }

  lemma TwoPositions(receipts: seq<Item>, i: nat, j: nat)
    requires i < j < |receipts| && receipts[i] == receipts[j]
    ensures multiset(receipts)[receipts[i]] >= 2
  {
    var x := receipts[i];
    var a, b, c := receipts[..i], receipts[i + 1..j], receipts[j + 1..];
    assert receipts == a + [x] + b + [x] + c;
    assert multiset(receipts) == multiset(a) + multiset{x} + multiset(b) + multiset{x} + multiset(c);
  }

  lemma SoundPermuted(env: Env, plan: Plan, a: seq<Item>, b: seq<Item>, now: int)
    requires multiset(a) == multiset(b) && ReceiptsSound(env, plan, a, now)
    ensures ReceiptsSound(env, plan, b, now)
  {
    hide StageOk, KeyOf;
    DistinctKeysByMember(a);
    forall x ensures x in a <==> x in b { assert x in multiset(a) <==> x in multiset(b); }
    forall i | 0 <= i < |b| ensures StageOk(env, plan, b[i], now) { assert b[i] in a; }
    forall i, j | 0 <= i < j < |b| ensures KeyOf(b[i]) != KeyOf(b[j]) {
      if b[i] == b[j] { TwoPositions(b, i, j); }
      assert b[i] in a && b[j] in a;
    }
  }

  lemma ResolvedPermuted(a: seq<Item>, b: seq<Item>, name: string)
    requires multiset(a) == multiset(b) && Resolved(a, name)
    ensures Resolved(b, name)
  {
    hide Settles;
    var i :| 0 <= i < |a| && Settles(a[i], name);
    assert a[i] in multiset(b);
    var j :| 0 <= j < |b| && b[j] == a[i];
  }

  /** Admission does not depend on the order of the receipts. */
  lemma AdmissionPermuted(h: Host, i: Intake, now: int, other: seq<Item>)
    requires multiset(other) == multiset(i.receipts)
    ensures Admissible(h, i, now) <==> Admissible(h, i.(receipts := other), now)
  {
    hide ReceiptsSound, Resolved, ApprovalOk, VerifyHumanApproval;
    var k := i.(receipts := other);
    assert ApprovalOk(h, i, now) == ApprovalOk(h, k, now) by { SameApproval(h, i, k, now); }
    if ReceiptsSound(h.env, i.plan, i.receipts, now) { SoundPermuted(h.env, i.plan, i.receipts, other, now); }
    if ReceiptsSound(h.env, i.plan, other, now) { SoundPermuted(h.env, i.plan, other, i.receipts, now); }
    forall name ensures Resolved(i.receipts, name) <==> Resolved(other, name) {
      if Resolved(i.receipts, name) { ResolvedPermuted(i.receipts, other, name); }
      if Resolved(other, name) { ResolvedPermuted(other, i.receipts, name); }
    }
  }

  lemma SameApproval(h: Host, i: Intake, k: Intake, now: int)
    requires k.plan == i.plan && k.approval == i.approval && k.authority == i.authority
    ensures ApprovalOk(h, i, now) == ApprovalOk(h, k, now)
  {
    hide VerifyHumanApproval;
  }

  // ---- issuing ----

  /** What the host chooses for a permit. */
  datatype Terms = Terms(grade: string, adapter: string, runId: string, nonce: string, issuedAt: int, expiresAt: int,
                         constraints: map<string, Constraint>, aud: Option<string>, cnf: Option<string>)

  /** What the permit says: the admitted action, the merged constraints and the pinned block. */
  function PermitSubject(a: AdmissionResult, issuer: Issuer, t: Terms): Subject {
    Subject(issuer.identity, t.issuedAt, Some(t.expiresAt), t.runId, t.nonce, issuer.keyId,
            Permit(a.actionDigest, t.grade, t.adapter, MergedConstraints(t.constraints, a.reservations), t.aud, t.cnf,
                   a.governanceDigest))
  }

  function ApproverId(o: Object): Option<string> {
    if o.subject.body.HumanApproval? then Some(o.subject.body.approver.id) else None
  }

  /** What a permit grants, field by field: the admitted action, the host's terms, and the caller's
      constraints, in which only the reservations are the approver's. */
  ghost predicate Grants(p: Subject, a: AdmissionResult, issuer: Issuer, t: Terms) {
    && p.issuer == issuer.identity && p.keyId == issuer.keyId && p.runId == t.runId && p.nonce == t.nonce
    && p.issuedAt == t.issuedAt && p.expiresAt == Some(t.expiresAt)
    && p.body.Permit?
    && p.body.permitAction == a.actionDigest && p.body.grade == t.grade && p.body.adapter == t.adapter
    && p.body.aud == t.aud && p.body.cnf == t.cnf && p.body.governanceDigest == a.governanceDigest
    && (forall k :: k != "reservations" || a.reservations == [] ==>
          (k in p.body.constraints <==> k in t.constraints)
          && (k in t.constraints ==> k in p.body.constraints && p.body.constraints[k] == t.constraints[k]))
    && (a.reservations != [] ==>
          "reservations" in p.body.constraints && p.body.constraints["reservations"] == Texts(a.reservations))
  }

  /** That is all a permit says: no two subjects grant the same. */
  lemma GrantsExactly(p: Subject, a: AdmissionResult, issuer: Issuer, t: Terms)
    ensures Grants(p, a, issuer, t) <==> p == PermitSubject(a, issuer, t)
  {
    if Grants(p, a, issuer, t) {
      var q := PermitSubject(a, issuer, t);
      forall k ensures k in p.body.constraints <==> k in q.body.constraints
        ensures k in p.body.constraints && k in q.body.constraints ==> p.body.constraints[k] == q.body.constraints[k]
      {}
      assert p.body.constraints == q.body.constraints;
    }
  }

  /** The issuer is not the approver it relies on. */
  predicate IssuerSeparate(issuer: Issuer, approval: Option<Object>) {
    approval.Some? ==>
      ApproverId(approval.value) != Some(issuer.identity) && approval.value.subject.keyId != issuer.keyId
  }

  /** The issuer is the approver, by name or by key. */
  predicate IsApprover(issuer: Issuer, approval: Object) {
    ApproverId(approval) == Some(issuer.identity) || approval.subject.keyId == issuer.keyId
  }

  /** No issuer that may issue is the approver whose receipt the admission rests on. */
  ghost predicate ApproverNeverIssues(a: AdmissionResult, t: Terms, passed: Option<Object>, store: StoreState,
                                      relied: Object) {
    forall issuer: Issuer :: MayIssue(a, issuer, t, passed, store) ==> !IsApprover(issuer, relied)
  }

  /** Issuer and approver are compared on the approval passed to `issue_permit`, not on the one the
      admission rests on. So they are kept apart exactly when one was passed and it has that
      approver and that key; with none, the approver may issue the permit. */
  lemma ApproverKeptApartExactly(a: AdmissionResult, t: Terms, passed: Option<Object>, store: StoreState,
                                 relied: Object)
    requires a.decision.Admitted? && !SeenIn(store, (t.runId, t.nonce)) && (t.aud.Some? <==> t.cnf.Some?)
    requires relied.subject.body.HumanApproval?
    ensures ApproverNeverIssues(a, t, passed, store, relied) <==>
      passed.Some? && ApproverId(passed.value) == ApproverId(relied)
      && passed.value.subject.keyId == relied.subject.keyId
  {
    hide SeenIn;
    var who, key := relied.subject.body.approver.id, relied.subject.keyId;
    var sign := (s: Subject) => "";
    var otherKey := if passed.Some? then passed.value.subject.keyId + "'" else "";
    var otherName :=
      if passed.Some? && ApproverId(passed.value).Some? then ApproverId(passed.value).value + "'" else "";
    var byName, byKey := Issuer(otherKey, who, "", sign), Issuer(key, otherName, "", sign);
    if ApproverNeverIssues(a, t, passed, store, relied) {
      assert IsApprover(byName, relied) && IsApprover(byKey, relied);
      assert !MayIssue(a, byName, t, passed, store) && !MayIssue(a, byKey, t, passed, store);
    }
  }

  /** Only from an ADMITTED admission, by an issuer that is not its approver, under a new nonce. */
  predicate MayIssue(a: AdmissionResult, issuer: Issuer, t: Terms, approval: Option<Object>, store: StoreState) {
    && a.decision.Admitted? && IssuerSeparate(issuer, approval)
    && !SeenIn(store, (t.runId, t.nonce)) && (t.aud.Some? <==> t.cnf.Some?)
  }

  /** `issue_permit`: a refusal never burns the nonce. */
  method IssuePermit(codec: Codec, a: AdmissionResult, issuer: Issuer, t: Terms, approval: Option<Object>, store: Store)
      returns (permit: Option<Object>)
    requires Sound(codec)
    modifies store.Objects()
    ensures permit.Some? <==> MayIssue(a, issuer, t, approval, old(store.State()))
    ensures permit.Some? ==> permit == SignedObject(codec, issuer, PermitSubject(a, issuer, t))
    // Said of the fields: who may issue, and what is granted.
    ensures permit.Some? <==>
      && a.decision.Admitted? && !SeenIn(old(store.State()), (t.runId, t.nonce)) && (t.aud.Some? <==> t.cnf.Some?)
      && (approval.Some? ==> approval.value.subject.keyId != issuer.keyId)
      && (approval.Some? && approval.value.subject.body.HumanApproval? ==>
            approval.value.subject.body.approver.id != issuer.identity)
    ensures permit.Some? ==> Grants(permit.value.subject, a, issuer, t)
    ensures store.State() ==
      if permit.Some? then Recorded(old(store.State()), (t.runId, t.nonce)) else old(store.State())
  {
    GrantsExactly(PermitSubject(a, issuer, t), a, issuer, t);
    hide Sound, Digest, MarkerName, Grants;
    if !a.decision.Admitted? { return None; }
    if approval.Some? {
      var o := approval.value;
      if ApproverId(o) == Some(issuer.identity) || issuer.keyId == o.subject.keyId { return None; }
    }
    var seen := store.Seen((t.runId, t.nonce));
    if seen { return None; }
    var merged := t.constraints;
    if a.reservations != [] { merged := merged["reservations" := Texts(a.reservations)]; }
    if t.aud.Some? && t.cnf.None? { return None; }
    if t.cnf.Some? && t.aud.None? { return None; }
    var s := Subject(issuer.identity, t.issuedAt, Some(t.expiresAt), t.runId, t.nonce, issuer.keyId,
                     Permit(a.actionDigest, t.grade, t.adapter, merged, t.aud, t.cnf, a.governanceDigest));
    DigestPins(codec, s, s);
    permit := SignedObject(codec, issuer, s);
    store.Record((t.runId, t.nonce));
  }

  lemma DecideAdmits(h: Host, i: Intake, now: int)
    requires Decide(h, i, now).decision.Admitted?
    ensures Admissible(h, i, now) && Decide(h, i, now).actionDigest == i.plan.actionDigest
    ensures Rule(i.governance, i.plan.kind) == RouteHuman ==>
      ApprovalOk(h, i, now) && Decide(h, i, now).reservations == Reservations(i.approval)
  {
    hide ApprovalOk, PinHolds, ReceiptsSound, Resolved;
  }

  /** What the permit carries of the approver's reservations. */
  predicate CarriesReservations(p: Subject, reservations: seq<string>)
    requires p.body.Permit?
  {
    reservations != [] ==>
      "reservations" in p.body.constraints && p.body.constraints["reservations"] == Texts(reservations)
  }

  /** From a verified approval into the permit: for a reserved kind, whatever constraints the caller
      supplies, the permit issued from the admission carries the reservations of an approval that
      verified, from an approver authorised for the kind; and where the caller bound a call, the
      permit still matches exactly that call. */
  lemma ReservationsReachPermit(h: Host, i: Intake, now: int, issuer: Issuer, t: Terms, tool: string, arguments: Json,
                                extra: map<string, Constraint>, tool': string, arguments': Json)
    requires Decide(h, i, now).decision.Admitted? && Rule(i.governance, i.plan.kind) == RouteHuman
    ensures var p := PermitSubject(Decide(h, i, now), issuer, t);
      && ApprovalOk(h, i, now) && i.approval.Some? && i.approval.value.subject.body.HumanApproval?
      && CarriesReservations(p, i.approval.value.subject.body.reservations)
    ensures (Hashing(h.env.codec.sha)
             && Some(t.constraints) == BindConstraints(h.env.codec.sha, tool, arguments, extra)) ==>
      var matches := MatchOk(h.env.codec.sha, PermitSubject(Decide(h, i, now), issuer, t).body.constraints, tool',
                             arguments');
      matches <==> tool != "" && tool' == tool && Canon(arguments') == Canon(arguments)
  {
    DecideAdmits(h, i, now);
    ApprovalBody(h, i, now);
    var a := Decide(h, i, now);
    hide Decide, ApprovalOk, MatchOk, BindConstraints, Canon, Hashing, MergedConstraints;
    if Hashing(h.env.codec.sha) && Some(t.constraints) == BindConstraints(h.env.codec.sha, tool, arguments, extra) {
      BindingRoundTrip(h.env.codec.sha, tool, arguments, extra, a.reservations, tool', arguments');
    }
    ReservationsMerged(t.constraints, a.reservations);
  }

  lemma ReservationsMerged(constraints: map<string, Constraint>, reservations: seq<string>)
    ensures reservations != [] ==>
      var m := MergedConstraints(constraints, reservations);
      "reservations" in m && m["reservations"] == Texts(reservations)
  {}
}
