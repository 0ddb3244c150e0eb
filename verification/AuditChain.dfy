/** `wire/audit_chain.py`: one run, checked end to end against its certificate. */
module AuditChain {
  import opened Prelude
  import opened Wire
  import opened Verification
  import opened Chain
  import C = Certifying
  import R = Reconciling
  import Executor

  datatype AuditRun = AuditRun(permit: Item, receipts: seq<Item>, record: Item, certificate: Item, stages: seq<Item>)

  ghost predicate References(codec: Codec, run: AuditRun)
    requires run.permit.Dict? && run.record.Dict? && run.certificate.Dict?
    requires run.certificate.obj.subject.body.Certificate?
  {
    var c := run.certificate.obj.subject.body;
    && Digest(codec, run.permit.obj.subject) == Some(c.permitDigest)
    && Digest(codec, run.record.obj.subject) == Some(c.reconciliationDigest)
    && C.DigestsOf(codec, run.receipts, c.toolReceiptDigests)
  }

  ghost predicate AuditOk(env: Env, run: AuditRun, now: int) {
    && (run.stages != [] ==> ChainOk(env, run.stages, StageReceiptType, now, None))
    && ChainOk(env, run.receipts, ToolReceiptType, now, None)
    && VerifiedItem(env, run.permit, PermitType, now)
    && VerifiedItem(env, run.record, ReconciliationType, now)
    && VerifiedItem(env, run.certificate, CertificateType, now)
    && run.certificate.obj.subject.body.Certificate?
    && References(env.codec, run)
  }

  /** `audit_chain_verify`. */
  method AuditChainVerify(env: Env, run: AuditRun, now: int) returns (ok: bool)
    requires Sound(env.codec)
    ensures ok <==> AuditOk(env, run, now)
  {
    hide Sound, Digest, ChainOk, Verified;
    var errors := 0;
    if run.stages != [] {
      var linked := VerifyChain(env, run.stages, StageReceiptType, now, None, None);
      if !linked { errors := errors + 1; }
    }
    if run.receipts != [] {
      var linked := VerifyChain(env, run.receipts, ToolReceiptType, now, None, None);
      if !linked { errors := errors + 1; }
    } else {
      errors := errors + 1;
      assert !ChainOk(env, run.receipts, ToolReceiptType, now, None) by { EmptyChain(env, run.receipts, now); }
    }
    if !VerifiedItem(env, run.permit, PermitType, now) { errors := errors + 1; }
    if !VerifiedItem(env, run.record, ReconciliationType, now) { errors := errors + 1; }
    if !VerifiedItem(env, run.certificate, CertificateType, now) { errors := errors + 1; }
    if errors > 0 { return false; }
    assert run.certificate.obj.subject.body.Certificate? by { CertificateBody(env, run.certificate.obj, now); }
    ChainDicts(env, run.receipts, now);
    var c := run.certificate.obj.subject.body;
    var expected := C.DigestList(env.codec, run.receipts);
    if Digest(env.codec, run.permit.obj.subject) != Some(c.permitDigest) { errors := errors + 1; }
    if Digest(env.codec, run.record.obj.subject) != Some(c.reconciliationDigest) { errors := errors + 1; }
    if c.toolReceiptDigests != expected {
      errors := errors + 1;
      DigestsOfUnique(env.codec, run.receipts, c.toolReceiptDigests, expected);
    }
    return errors == 0;
  }

  lemma EmptyChain(env: Env, receipts: seq<Item>, now: int)
    requires receipts == []
    ensures !ChainOk(env, receipts, ToolReceiptType, now, None)
  {}

  lemma CertificateBody(env: Env, o: Object, now: int)
    requires Verified(env, o, CertificateType, now)
    ensures o.subject.body.Certificate?
  {}

  lemma ChainDicts(env: Env, receipts: seq<Item>, now: int)
    requires ChainOk(env, receipts, ToolReceiptType, now, None)
    ensures forall i :: 0 <= i < |receipts| ==> receipts[i].Dict?
  {}

  lemma ChainLinked(env: Env, receipts: seq<Item>, now: int)
    requires ChainOk(env, receipts, ToolReceiptType, now, None)
    ensures Linked(env.codec, receipts, None)
  {}

  lemma ChainVerified(env: Env, receipts: seq<Item>, now: int, i: nat)
    requires ChainOk(env, receipts, ToolReceiptType, now, None) && i < |receipts|
    ensures VerifiedItem(env, receipts[i], ToolReceiptType, now)
  {
    hide Verified, LinkOk;
  }

  lemma DigestsOfUnique(codec: Codec, receipts: seq<Item>, a: seq<string>, b: seq<string>)
    requires C.DigestsOf(codec, receipts, b)
    ensures C.DigestsOf(codec, receipts, a) ==> a == b
  {}

  /** Two accepted audits whose certificates have one subject are audits of one permit, one
      reconciliation and one ordered list of tool receipts. */
  lemma CertificatePinsRun(e1: Env, a: AuditRun, now1: int, e2: Env, b: AuditRun, now2: int)
    requires Sound(e1.codec) && e1.codec == e2.codec
    requires AuditOk(e1, a, now1) && AuditOk(e2, b, now2)
    requires a.certificate.obj.subject == b.certificate.obj.subject
    ensures a.permit.obj.subject == b.permit.obj.subject
    ensures a.record.obj.subject == b.record.obj.subject
    ensures |a.receipts| == |b.receipts|
    ensures forall i :: 0 <= i < |a.receipts| ==>
      a.receipts[i].Dict? && b.receipts[i].Dict? && a.receipts[i].obj.subject == b.receipts[i].obj.subject
  {
    hide Sound, Digest, ChainOk, Verified;
    var codec := e1.codec;
    DigestPins(codec, a.permit.obj.subject, b.permit.obj.subject);
    DigestPins(codec, a.record.obj.subject, b.record.obj.subject);
    forall i | 0 <= i < |a.receipts|
      ensures a.receipts[i].Dict? && b.receipts[i].Dict? && a.receipts[i].obj.subject == b.receipts[i].obj.subject
    {
      DigestPins(codec, a.receipts[i].obj.subject, b.receipts[i].obj.subject);
    }
  }

  /** What `certify` signs audits clean at the same time and with the same stores exactly when the
      certificate itself verifies, the receipts are linked from a genesis one, and the stage
      receipts, if any are given, form an accepted chain. */
  lemma CertifiedAuditsClean(env: Env, r: C.Request, signer: Executor.Issuer, now: int, certificate: Object,
                             stages: seq<Item>)
    requires Sound(env.codec) && C.Certifiable(env, r, signer, now)
    requires C.Attests(env, r, signer, now, certificate.subject)
    ensures AuditOk(env, AuditRun(r.permit, r.receipts, r.record, Dict(certificate), stages), now) <==>
      && Verified(env, certificate, CertificateType, now) && Linked(env.codec, r.receipts, None)
      && (stages != [] ==> ChainOk(env, stages, StageReceiptType, now, None))
  {
    hide Sound, Digest, Verified, Linked, C.Separated, C.Discharged, C.FirstDischarge;
    var p := r.permit.obj.subject;
    forall i | 0 <= i < |r.receipts| ensures VerifiedItem(env, r.receipts[i], ToolReceiptType, now) {
      assert R.ReceiptOk(env, p, r.receipts[i], now);
    }
  }

  /** An accepted audit is also accepted at every earlier time and with fewer revocations. */
  lemma AuditEarlier(early: Env, late: Env, run: AuditRun, t1: int, t2: int)
    requires Later(early, late) && t1 <= t2 && AuditOk(late, run, t2)
    ensures AuditOk(early, run, t1)
  {
    hide Verified, ChainOk, Digest, PrevOf;
    if run.stages != [] { ChainEarlier(early, late, run.stages, StageReceiptType, t1, t2, None); }
    ChainEarlier(early, late, run.receipts, ToolReceiptType, t1, t2, None);
    VerifiedEarlier(early, late, run.permit.obj, PermitType, t1, t2, "human");
    VerifiedEarlier(early, late, run.record.obj, ReconciliationType, t1, t2, "human");
    VerifiedEarlier(early, late, run.certificate.obj, CertificateType, t1, t2, "human");
  }

  /** A run that lists one receipt twice, which `certify` signs, is never accepted by an audit. */
  lemma RepeatNeverAudits(env: Env, run: AuditRun, now: int, i: nat, j: nat)
    requires Sound(env.codec) && i < j < |run.receipts| && SameSubject(run.receipts[i], run.receipts[j])
    ensures !AuditOk(env, run, now)
  {
    hide Sound, Digest, Verified, LinkOk, References;
    if Linked(env.codec, run.receipts, None) { NoRepeat(env.codec, run.receipts, i, j); }
  }
}
