/** The preview fold of `lifecycle.py`, which admission strengthens. */
module Lifecycle {
  import opened Wire
  import opened Verification
  import opened Admission

  datatype PreviewReceipt = PreviewReceipt(role: string, capability: string, status: string, actionDigest: string)

  datatype RunState = PreviewAdmitted | Held | RoutedHuman | PreviewRefused

  /** `_index`: bound, reported by the owner, and not a duplicate. */
  method Index(owners: map<string, string>, actionDigest: string, receipts: seq<PreviewReceipt>)
      returns (indexed: map<string, PreviewReceipt>, invalid: nat)
    ensures invalid == 0 <==> Indexable(owners, actionDigest, receipts)
    ensures invalid == 0 ==> IndexesAll(receipts, indexed)
  {
    hide ToolKey;
    indexed, invalid := map[], 0;
    for i := 0 to |receipts|
      invariant invalid == 0 <==> Indexable(owners, actionDigest, receipts[..i])
      invariant invalid == 0 ==> forall j :: 0 <= j < i ==>
        ToolKey(receipts[j].capability) in indexed && indexed[ToolKey(receipts[j].capability)] == receipts[j]
      invariant invalid == 0 ==> forall k :: k in indexed ==>
        exists j :: 0 <= j < i && ToolKey(receipts[j].capability) == k
    {
      var r := receipts[i];
      var key := ToolKey(r.capability);
      ghost var taken := receipts[..i];
      assert receipts[..i + 1] == taken + [r];
      ghost var before := invalid;
      if r.actionDigest != actionDigest {
        invalid := invalid + 1;
      } else if key !in owners || owners[key] != r.role {
        invalid := invalid + 1;
      } else if key in indexed {
        invalid := invalid + 1;
      } else {
        indexed := indexed[key := r];
      }
      IndexableSnoc(owners, actionDigest, taken, r);
      assert before == 0 ==> forall j :: 0 <= j < i ==> taken[j] == receipts[j];
    }
    assert receipts[..|receipts|] == receipts;
  }

  ghost predicate Indexable(owners: map<string, string>, actionDigest: string, receipts: seq<PreviewReceipt>) {
    && (forall i :: 0 <= i < |receipts| ==> Bound(owners, actionDigest, receipts[i]))
    && (forall i, j :: 0 <= i < j < |receipts| ==> ToolKey(receipts[i].capability) != ToolKey(receipts[j].capability))
  }

  predicate Bound(owners: map<string, string>, actionDigest: string, r: PreviewReceipt) {
    r.actionDigest == actionDigest && ToolKey(r.capability) in owners && owners[ToolKey(r.capability)] == r.role
  }

  lemma IndexableSnoc(owners: map<string, string>, actionDigest: string, taken: seq<PreviewReceipt>, r: PreviewReceipt)
    ensures Indexable(owners, actionDigest, taken + [r]) <==>
      && Indexable(owners, actionDigest, taken) && Bound(owners, actionDigest, r)
      && forall j :: 0 <= j < |taken| ==> ToolKey(taken[j].capability) != ToolKey(r.capability)
  {
    hide ToolKey;
    var all := taken + [r];
    assert all[|taken|] == r && forall j :: 0 <= j < |taken| ==> all[j] == taken[j];
    if Indexable(owners, actionDigest, all) {
      forall j | 0 <= j < |taken| ensures Bound(owners, actionDigest, taken[j]) {
        assert Bound(owners, actionDigest, all[j]);
      }
      assert Bound(owners, actionDigest, all[|taken|]);
    }
  }

  ghost predicate PreviewSettled(receipts: seq<PreviewReceipt>, name: string) {
    exists i :: 0 <= i < |receipts| && ToolKey(receipts[i].capability) == name && !Blocking(receipts[i].status)
  }

  /** When `enforce_preview` answers ADMITTED. */
  ghost predicate Previewable(plan: Plan, owners: map<string, string>, preflight: seq<string>,
                              receipts: seq<PreviewReceipt>) {
    && plan.disposition != "refuse" && !plan.ruling.RouteHuman? && plan.ready
    && plan.recommended != "route-human" && plan.recommended != "hold" && plan.recommended != "steer"
    && Indexable(owners, plan.actionDigest, receipts)
    && forall name :: name in (if plan.loomground then preflight else []) ==> PreviewSettled(receipts, name)
  }

  ghost predicate Reports(receipts: seq<PreviewReceipt>, name: string) {
    exists i :: 0 <= i < |receipts| && ToolKey(receipts[i].capability) == name
  }

  ghost predicate ReportsStatus(receipts: seq<PreviewReceipt>, name: string, status: string) {
    exists i :: 0 <= i < |receipts| && ToolKey(receipts[i].capability) == name && receipts[i].status == status
  }

  /** What `_receipt_findings` finds: something required did not report, is open or erroneous, or failed. */
  ghost predicate SomeMissing(required: seq<string>, receipts: seq<PreviewReceipt>) {
    exists n :: n in required && !Reports(receipts, n)
  }

  ghost predicate SomeOpen(required: seq<string>, receipts: seq<PreviewReceipt>) {
    exists n :: n in required && (ReportsStatus(receipts, n, "OPEN") || ReportsStatus(receipts, n, "ERROR"))
  }

  ghost predicate SomeFailed(required: seq<string>, receipts: seq<PreviewReceipt>) {
    exists n :: n in required && ReportsStatus(receipts, n, "NOT_SATISFIED")
  }

  /** When it answers HELD: the plan asks for a correction, or everything required has reported,
      nothing is open or erroneous, and something failed. All else that is not admitted goes to a human. */
  ghost predicate HeldBack(plan: Plan, owners: map<string, string>, preflight: seq<string>,
                           receipts: seq<PreviewReceipt>) {
    var required := if plan.loomground then preflight else [];
    && plan.disposition != "refuse" && !plan.ruling.RouteHuman? && plan.ready && plan.recommended != "route-human"
    && (plan.recommended == "hold" || plan.recommended == "steer" ||
        (Indexable(owners, plan.actionDigest, receipts) && !SomeMissing(required, receipts)
         && !SomeOpen(required, receipts)
         && SomeFailed(required, receipts)))
  }

  ghost predicate IndexesAll(receipts: seq<PreviewReceipt>, indexed: map<string, PreviewReceipt>) {
    && (forall i :: 0 <= i < |receipts| ==>
          ToolKey(receipts[i].capability) in indexed && indexed[ToolKey(receipts[i].capability)] == receipts[i])
    && forall k :: k in indexed ==> exists i :: 0 <= i < |receipts| && ToolKey(receipts[i].capability) == k
  }

  /** An index of everything answers whether a tool is settled. */
  lemma IndexedSettled(receipts: seq<PreviewReceipt>, indexed: map<string, PreviewReceipt>, n: string)
    requires IndexesAll(receipts, indexed)
    ensures PreviewSettled(receipts, n) <==> n in indexed && !Blocking(indexed[n].status)
  {
    hide ToolKey, Blocking;
    if n in indexed {
      var i :| 0 <= i < |receipts| && ToolKey(receipts[i].capability) == n;
      assert indexed[n] == receipts[i];
    }
  }

  lemma IndexedReport(receipts: seq<PreviewReceipt>, indexed: map<string, PreviewReceipt>, n: string, status: string)
    requires IndexesAll(receipts, indexed)
    ensures Reports(receipts, n) <==> n in indexed
    ensures ReportsStatus(receipts, n, status) <==> n in indexed && indexed[n].status == status
  {
    hide ToolKey;
    if n in indexed {
      var i :| 0 <= i < |receipts| && ToolKey(receipts[i].capability) == n;
      assert indexed[n] == receipts[i];
    }
  }

  /** `_receipt_findings`: the three lists, as whether they are empty, read off a full index. */
  method ReceiptFindings(required: seq<string>, receipts: seq<PreviewReceipt>, indexed: map<string, PreviewReceipt>)
      returns (missing: bool, unsettled: bool, failed: bool)
    ensures IndexesAll(receipts, indexed) ==>
      && (missing <==> SomeMissing(required, receipts)) && (unsettled <==> SomeOpen(required, receipts))
      && (failed <==> SomeFailed(required, receipts))
      && (!missing && !unsettled && !failed <==> forall n :: n in required ==> PreviewSettled(receipts, n))
  {
    hide Reports, ReportsStatus, PreviewSettled, Blocking, IndexesAll;
    missing := exists n :: n in required && n !in indexed;
    unsettled := exists n :: n in required && n in indexed
                    && (indexed[n].status == "OPEN" || indexed[n].status == "ERROR");
    failed := exists n :: n in required && n in indexed && indexed[n].status == "NOT_SATISFIED";
    if IndexesAll(receipts, indexed) {
      forall n
        ensures Reports(receipts, n) <==> n in indexed
        ensures ReportsStatus(receipts, n, "OPEN") <==> n in indexed && indexed[n].status == "OPEN"
        ensures ReportsStatus(receipts, n, "ERROR") <==> n in indexed && indexed[n].status == "ERROR"
        ensures ReportsStatus(receipts, n, "NOT_SATISFIED") <==> n in indexed && indexed[n].status == "NOT_SATISFIED"
      {
        IndexedReport(receipts, indexed, n, "OPEN");
        IndexedReport(receipts, indexed, n, "ERROR");
        IndexedReport(receipts, indexed, n, "NOT_SATISFIED");
      }
      forall n ensures PreviewSettled(receipts, n) <==> n in indexed && !Blocking(indexed[n].status) {
        IndexedSettled(receipts, indexed, n);
      }
      BlockingStatuses();
    }
  }

  lemma BlockingStatuses()
    ensures forall status :: Blocking(status) <==> status == "OPEN" || status == "ERROR" || status == "NOT_SATISFIED"
  {}

  // ---- the conditions, said of the fields ----

  /** Every receipt is about this action and comes from the role that owns its tool; no tool twice. */
  ghost predicate ProperReports(owners: map<string, string>, actionDigest: string, receipts: seq<PreviewReceipt>) {
    && (forall i :: 0 <= i < |receipts| ==> receipts[i].actionDigest == actionDigest)
    && (forall i :: 0 <= i < |receipts| ==> FromOwner(owners, receipts[i]))
    && forall tool :: !TwiceReported(receipts, tool)
  }

  ghost predicate FromOwner(owners: map<string, string>, r: PreviewReceipt) {
    exists tool :: tool in owners && CapabilityOf(r.capability, tool) && owners[tool] == r.role
  }

  predicate TwiceReported(receipts: seq<PreviewReceipt>, tool: string) {
    exists i, j :: 0 <= i < j < |receipts| && CapabilityOf(receipts[i].capability, tool)
      && CapabilityOf(receipts[j].capability, tool)
  }

  /** Some receipt for the tool has a status of these. */
  predicate HasStatus(receipts: seq<PreviewReceipt>, tool: string, statuses: set<string>) {
    exists i :: 0 <= i < |receipts| && CapabilityOf(receipts[i].capability, tool) && receipts[i].status in statuses
  }

  predicate HasReport(receipts: seq<PreviewReceipt>, tool: string) {
    exists i :: 0 <= i < |receipts| && CapabilityOf(receipts[i].capability, tool)
  }

  /** Some receipt for the tool is neither open, erroneous nor failed. */
  predicate HasCleared(receipts: seq<PreviewReceipt>, tool: string) {
    exists i :: 0 <= i < |receipts| && CapabilityOf(receipts[i].capability, tool)
      && receipts[i].status != "OPEN" && receipts[i].status != "ERROR" && receipts[i].status != "NOT_SATISFIED"
  }

  lemma ToolKeys(receipts: seq<PreviewReceipt>)
    ensures forall i, tool :: 0 <= i < |receipts| ==>
      (CapabilityOf(receipts[i].capability, tool) <==> ToolKey(receipts[i].capability) == tool)
  {
    forall i, tool | 0 <= i < |receipts|
      ensures CapabilityOf(receipts[i].capability, tool) <==> ToolKey(receipts[i].capability) == tool
    {
      ToolKeyExactly(receipts[i].capability, tool);
    }
  }

  lemma IndexableExactly(owners: map<string, string>, actionDigest: string, receipts: seq<PreviewReceipt>)
    ensures Indexable(owners, actionDigest, receipts) <==> ProperReports(owners, actionDigest, receipts)
  {
    ToolKeys(receipts);
    hide ToolKey, CapabilityOf;
    if ProperReports(owners, actionDigest, receipts) {
      forall i | 0 <= i < |receipts| ensures Bound(owners, actionDigest, receipts[i]) {
        assert FromOwner(owners, receipts[i]);
      }
      forall i, j | 0 <= i < j < |receipts| ensures ToolKey(receipts[i].capability) != ToolKey(receipts[j].capability) {
        assert !TwiceReported(receipts, ToolKey(receipts[i].capability));
      }
    }
    if Indexable(owners, actionDigest, receipts) {
      forall i | 0 <= i < |receipts|
        ensures FromOwner(owners, receipts[i]) && receipts[i].actionDigest == actionDigest
      {
        assert Bound(owners, actionDigest, receipts[i]);
        assert CapabilityOf(receipts[i].capability, ToolKey(receipts[i].capability));
      }
    }
  }

  lemma StatusesExactly(receipts: seq<PreviewReceipt>, tool: string)
    ensures PreviewSettled(receipts, tool) <==> HasCleared(receipts, tool)
    ensures Reports(receipts, tool) <==> HasReport(receipts, tool)
    ensures ReportsStatus(receipts, tool, "OPEN") || ReportsStatus(receipts, tool, "ERROR") <==>
      HasStatus(receipts, tool, {"OPEN", "ERROR"})
    ensures ReportsStatus(receipts, tool, "NOT_SATISFIED") <==> HasStatus(receipts, tool, {"NOT_SATISFIED"})
  {
    ToolKeys(receipts);
    hide ToolKey, CapabilityOf;
  }

  /** Previewed and admitted exactly for a ready plan nobody refuses, routes or corrects, on proper
      receipts, with every preflight tool cleared where the plan has them. */
  lemma PreviewableExactly(plan: Plan, owners: map<string, string>, preflight: seq<string>,
                           receipts: seq<PreviewReceipt>)
    ensures Previewable(plan, owners, preflight, receipts) <==>
      && plan.disposition != "refuse" && plan.ruling != RouteHuman && plan.ready
      && plan.recommended !in {"route-human", "hold", "steer"} && ProperReports(owners, plan.actionDigest, receipts)
      && (plan.loomground ==> forall tool :: tool in preflight ==> HasCleared(receipts, tool))
  {
    IndexableExactly(owners, plan.actionDigest, receipts);
    forall tool ensures PreviewSettled(receipts, tool) <==>
      HasCleared(receipts, tool) { StatusesExactly(receipts, tool); }
    hide Indexable, ProperReports, PreviewSettled, HasCleared;
  }

  /** Held exactly when a correction is asked for, or when the only thing wrong is a failed tool. */
  lemma HeldBackExactly(plan: Plan, owners: map<string, string>, preflight: seq<string>, receipts: seq<PreviewReceipt>)
    ensures HeldBack(plan, owners, preflight, receipts) <==>
      && plan.disposition != "refuse" && plan.ruling != RouteHuman && plan.ready && plan.recommended != "route-human"
      && (plan.recommended in {"hold", "steer"}
          || (plan.loomground && ProperReports(owners, plan.actionDigest, receipts)
              && (forall tool :: tool in preflight ==>
                    HasReport(receipts, tool) && !HasStatus(receipts, tool, {"OPEN", "ERROR"}))
              && exists tool :: tool in preflight && HasStatus(receipts, tool, {"NOT_SATISFIED"})))
  {
    IndexableExactly(owners, plan.actionDigest, receipts);
    forall tool
      ensures Reports(receipts, tool) <==> HasReport(receipts, tool)
      ensures ReportsStatus(receipts, tool, "OPEN") || ReportsStatus(receipts, tool, "ERROR") <==>
        HasStatus(receipts, tool, {"OPEN", "ERROR"})
      ensures ReportsStatus(receipts, tool, "NOT_SATISFIED") <==> HasStatus(receipts, tool, {"NOT_SATISFIED"})
    {
      StatusesExactly(receipts, tool);
    }
    hide Indexable, ProperReports, Reports, ReportsStatus, HasReport, HasStatus;
  }

  /** `enforce_preview`. */
  method EnforcePreview(plan: Plan, owners: map<string, string>, preflight: seq<string>, receipts: seq<PreviewReceipt>)
      returns (state: RunState)
    ensures state.PreviewAdmitted? <==> Previewable(plan, owners, preflight, receipts)
    ensures state.PreviewRefused? <==> plan.disposition == "refuse"
    ensures state.Held? <==> HeldBack(plan, owners, preflight, receipts)
  {
    hide ToolKey, Indexable, SomeMissing, SomeOpen, SomeFailed, PreviewSettled, IndexesAll;
    if plan.disposition == "refuse" { return PreviewRefused; }
    if plan.ruling.RouteHuman? { return RoutedHuman; }
    if !plan.ready { return RoutedHuman; }
    if plan.recommended == "route-human" { return RoutedHuman; }
    if plan.recommended == "hold" || plan.recommended == "steer" { return Held; }
    var required := if plan.loomground then preflight else [];
    var indexed, invalid := Index(owners, plan.actionDigest, receipts);
    var missing, unsettled, failed := ReceiptFindings(required, receipts, indexed);
    if invalid > 0 || unsettled || missing { return RoutedHuman; }
    if failed { return Held; }
    return PreviewAdmitted;
  }

  // ---- postflight ----

  datatype Preview = Preview(state: RunState, admitted: bool, actionDigest: string)
  datatype Control = Control(actionDigest: string, humanApprovalRef: string)

  /** The tools that must have reported: an approved dispatch adds the oversight check. */
  function Postflight(plan: Plan, control: Control, postflight: seq<string>): seq<string> {
    (if plan.loomground then postflight else []) + (if control.humanApprovalRef != "" then ["oversight_verify"] else [])
  }

  /** `lifecycle.reconcile`: certified exactly when the preview admitted this very action, the
      dispatch was bound to it, and every required tool reports it settled. */
  method Reconcile(plan: Plan, preview: Preview, control: Control, owners: map<string, string>, postflight: seq<string>,
                   receipts: seq<PreviewReceipt>) returns (certified: bool)
    ensures certified <==>
      && preview.admitted && preview.state.PreviewAdmitted?
      && preview.actionDigest == plan.actionDigest && control.actionDigest == plan.actionDigest
      && Indexable(owners, plan.actionDigest, receipts)
      && forall name :: name in Postflight(plan, control, postflight) ==> PreviewSettled(receipts, name)
    // Said of the fields: the oversight check is required exactly where a human's approval is referred to.
    ensures certified <==>
      && preview.admitted && preview.state.PreviewAdmitted?
      && preview.actionDigest == plan.actionDigest && control.actionDigest == plan.actionDigest
      && ProperReports(owners, plan.actionDigest, receipts)
      && (plan.loomground ==> forall tool :: tool in postflight ==> HasCleared(receipts, tool))
      && (control.humanApprovalRef != "" ==> HasCleared(receipts, "oversight_verify"))
  {
    IndexableExactly(owners, plan.actionDigest, receipts);
    forall tool ensures PreviewSettled(receipts, tool) <==>
      HasCleared(receipts, tool) { StatusesExactly(receipts, tool); }
    hide ToolKey, Indexable, PreviewSettled, IndexesAll, ProperReports, HasCleared;
    if !preview.admitted || !preview.state.PreviewAdmitted? { return false; }
    if preview.actionDigest != plan.actionDigest || control.actionDigest != plan.actionDigest { return false; }
    var required := if plan.loomground then postflight else [];
    if control.humanApprovalRef != "" { required := required + ["oversight_verify"]; }
    var indexed, invalid := Index(owners, plan.actionDigest, receipts);
    var missing, unsettled, failed := ReceiptFindings(required, receipts, indexed);
    assert required == Postflight(plan, control, postflight);
    return !(invalid > 0 || missing || unsettled || failed);
  }

  function ToPreview(items: seq<Item>): seq<PreviewReceipt>
    requires forall i :: 0 <= i < |items| ==> IsStage(items[i])
  {
    seq(|items|, i requires 0 <= i < |items| && IsStage(items[i]) =>
      var b := items[i].obj.subject.body;
      PreviewReceipt(b.role, b.capability, b.status, b.stageAction))
  }

  /** A ready plan with nothing to steer, whose receipts all report owned `tool:` capabilities: what
      admission admits, the preview admits too. */
  lemma AdmittedIsPreviewed(h: Host, i: Intake, now: int)
    requires Admissible(h, i, now)
    requires i.plan.disposition != "refuse" && i.plan.ruling == Steer && i.plan.ready
    requires i.plan.recommended == "no-steer"
    requires forall k :: 0 <= k < |i.receipts| && IsStage(i.receipts[k]) ==>
      var c := i.receipts[k].obj.subject.body.capability;
      |c| >= 5 && c[..5] == "tool:" && ToolKey(c) in h.env.owners
    ensures forall k :: 0 <= k < |i.receipts| ==> IsStage(i.receipts[k])
    ensures Previewable(i.plan, h.env.owners, h.preflight, ToPreview(i.receipts))
  {
    hide PinHolds, ApprovalOk, Verified, ToolKey;
    var env, receipts := h.env, i.receipts;
    forall k | 0 <= k < |receipts|
      ensures IsStage(receipts[k])
      ensures OwnedBy(env.owners, receipts[k].obj.subject.body.capability, receipts[k].obj.subject.body.role)
    {
      StageOkIsStage(env, i.plan, receipts[k], now);
      VerifiedOwned(env, receipts[k].obj, now);
    }
    var previews := ToPreview(receipts);
    forall k | 0 <= k < |previews| ensures Bound(env.owners, i.plan.actionDigest, previews[k]) {
      assert StageOk(env, i.plan, receipts[k], now);
    }
    forall a, b | 0 <= a < b < |previews| ensures ToolKey(previews[a].capability) != ToolKey(previews[b].capability) {
      assert KeyOf(receipts[a]) != KeyOf(receipts[b]);
    }
    forall name | name in (if i.plan.loomground then h.preflight else []) ensures PreviewSettled(previews, name) {
      assert Resolved(receipts, name);
      var k :| 0 <= k < |receipts| && Settles(receipts[k], name);
      assert ToolKey(previews[k].capability) == name;
    }
    SteerWords();
  }

  lemma SteerWords()
    ensures "no-steer" != "route-human" && "no-steer" != "hold" && "no-steer" != "steer"
  {
    assert |"no-steer"| == 8 && |"route-human"| == 11 && |"hold"| == 4 && |"steer"| == 5;
  }

  lemma VerifiedOwned(env: Env, o: Object, now: int)
    requires Verified(env, o, StageReceiptType, now)
    ensures o.subject.body.StageReceipt? && OwnedBy(env.owners, o.subject.body.capability, o.subject.body.role)
  {}
}
