/** `wire/certification.py`: the only maker of certificates. */
module Certifying {
  import opened Prelude
  import opened Wire
  import opened Verification
  import opened Executor
  import opened Reconciling

  datatype Request = Request(permit: Item, receipts: seq<Item>, record: Item, discharges: seq<Item>,
                             obligations: seq<string>, sources: seq<string>, freshness: Option<(string, int) -> bool>,
                             approval: Option<Object>, role: string, stamp: Stamp, prev: Option<string>)

  predicate RecordOk(env: Env, permit: Subject, record: Item, now: int)
    requires permit.body.Permit?
  {
    VerifiedItem(env, record, ReconciliationType, now) &&
    var b := record.obj.subject.body;
    b.reconAction == permit.body.permitAction && b.state == "RECONCILED" && b.certified && b.residuals == []
    && b.invalid == []
  }

  // ---- discharged obligations ----

  /** Verified evidence that this obligation was discharged for this action. */
  predicate Discharges(env: Env, item: Item, obligation: string, action: string, now: int) {
    item.Dict? && item.obj.subject.body.Discharge? && item.obj.subject.body.obligationId == obligation
    && item.obj.subject.body.dischargeAction == action && VerifiedItem(env, item, DischargeType, now)
  }

  predicate Discharged(env: Env, pool: seq<Item>, obligation: string, action: string, now: int) {
    exists i :: 0 <= i < |pool| && Discharges(env, pool[i], obligation, action, now)
  }

  predicate FirstAt(env: Env, pool: seq<Item>, obligation: string, action: string, now: int, i: nat)
    requires i < |pool|
  {
    Discharges(env, pool[i], obligation, action, now) && pool[i].Dict?
    && forall j :: 0 <= j < i ==> !Discharges(env, pool[j], obligation, action, now)
  }

  /** `d` is the digest of the first evidence in the pool. */
  ghost predicate FirstDischarge(env: Env, pool: seq<Item>, obligation: string, action: string, now: int, d: string) {
    exists i :: 0 <= i < |pool| && FirstAt(env, pool, obligation, action, now, i)
      && Digest(env.codec, pool[i].obj.subject) == Some(d)
  }

  /** `_find_discharge`: first match. */
  method FindDischarge(env: Env, pool: seq<Item>, obligation: string, action: string, now: int)
      returns (found: Option<Object>)
    ensures found.Some? <==> Discharged(env, pool, obligation, action, now)
    ensures found.Some? ==>
      exists i :: 0 <= i < |pool| && FirstAt(env, pool, obligation, action, now, i) && pool[i] == Dict(found.value)
  {
    hide Verified;
    for i := 0 to |pool|
      invariant forall j :: 0 <= j < i ==> !Discharges(env, pool[j], obligation, action, now)
    {
      if pool[i].NotADict? { continue; }
      var b := pool[i].obj.subject.body;
      if !b.Discharge? || b.obligationId != obligation { continue; }
      if b.dischargeAction != action { continue; }
      if VerifiedItem(env, pool[i], DischargeType, now) {
        assert FirstAt(env, pool, obligation, action, now, i);
        return Some(pool[i].obj);
      }
    }
    return None;
  }

  // ---- role separation ----

  predicate SeparateFrom(signer: Issuer, s: Subject) { signer.identity != s.issuer && signer.keyId != s.keyId }

  predicate SeparateFromReceipt(signer: Issuer, item: Item) {
    IsTool(item) ==>
      (signer.identity != "" ==> signer.identity != item.obj.subject.body.executor.id)
      && SeparateFrom(signer, item.obj.subject)
  }

  /** `_role_conflicts` finds nothing: the signer is not the issuer, the reconciler, a recorder, an
      executor or the approver. */
  predicate Separated(signer: Issuer, permit: Subject, receipts: seq<Item>, record: Subject, approval: Option<Object>) {
    && SeparateFrom(signer, permit) && SeparateFrom(signer, record)
    && (forall i :: 0 <= i < |receipts| ==> SeparateFromReceipt(signer, receipts[i]))
    && (approval.Some? && approval.value.subject.body.HumanApproval? ==>
          signer.identity != approval.value.subject.body.approver.id)
  }

  method RoleConflicts(signer: Issuer, permit: Subject, receipts: seq<Item>, record: Subject, approval: Option<Object>)
      returns (conflicts: nat)
    ensures conflicts == 0 <==> Separated(signer, permit, receipts, record, approval)
  {
    conflicts := 0;
    if !SeparateFrom(signer, permit) { conflicts := conflicts + 1; }
    if !SeparateFrom(signer, record) { conflicts := conflicts + 1; }
    ghost var before := conflicts;
    for i := 0 to |receipts|
      invariant conflicts >= before
      invariant conflicts == before <==> forall j :: 0 <= j < i ==> SeparateFromReceipt(signer, receipts[j])
    {
      if IsTool(receipts[i]) {
        var s := receipts[i].obj.subject;
        if signer.identity != "" && signer.identity == s.body.executor.id { conflicts := conflicts + 1; }
        if !SeparateFrom(signer, s) { conflicts := conflicts + 1; }
      }
    }
    if approval.Some? && approval.value.subject.body.HumanApproval? {
      if signer.identity == approval.value.subject.body.approver.id { conflicts := conflicts + 1; }
    }
  }

  // ---- certify ----

  /** The whole condition for a certificate. */
  ghost predicate Certifiable(env: Env, r: Request, signer: Issuer, now: int) {
    && PermitEnforced(env, r.permit, now) && r.permit.Dict? && r.permit.obj.subject.body.Permit?
    && r.receipts != []
    && (forall i :: 0 <= i < |r.receipts| ==> ReceiptOk(env, r.permit.obj.subject, r.receipts[i], now))
    && RecordOk(env, r.permit.obj.subject, r.record, now) && r.record.Dict?
    && (forall i :: 0 <= i < |r.obligations| ==>
          Discharged(env, r.discharges, r.obligations[i], r.permit.obj.subject.body.permitAction, now))
    && (r.sources != [] ==> r.freshness.Some?)
    && (forall i :: 0 <= i < |r.sources| && r.freshness.Some? ==> r.freshness.value(r.sources[i], now))
    && Separated(signer, r.permit.obj.subject, r.receipts, r.record.obj.subject, r.approval)
  }

  // ---- the condition, said of the fields ----

  /** A verified record of the permit's action that found nothing wrong. */
  predicate CleanRecord(env: Env, permit: Subject, record: Item, now: int) {
    && record.Dict? && Verified(env, record.obj, ReconciliationType, now)
    && record.obj.subject.body.Reconciliation? && permit.body.Permit?
    && record.obj.subject.body.reconAction == permit.body.permitAction
    && record.obj.subject.body.state == "RECONCILED" && record.obj.subject.body.certified
    && |record.obj.subject.body.residuals| == 0 && |record.obj.subject.body.invalid| == 0
  }

  /** A verified discharge of this very obligation for this very action. */
  predicate Evidence(env: Env, item: Item, obligation: string, action: string, now: int) {
    && item.Dict? && Verified(env, item.obj, DischargeType, now) && item.obj.subject.body.Discharge?
    && item.obj.subject.body.obligationId == obligation && item.obj.subject.body.dischargeAction == action
  }

  predicate SomeEvidence(env: Env, pool: seq<Item>, obligation: string, action: string, now: int) {
    exists i :: 0 <= i < |pool| && Evidence(env, pool[i], obligation, action, now)
  }

  /** Everybody the certifier must not be: the issuer, the reconciler, the recorders, the executors and
      the approver. */
  ghost predicate IsParty(r: Request, identity: string) {
    || (r.permit.Dict? && identity == r.permit.obj.subject.issuer)
    || (r.record.Dict? && identity == r.record.obj.subject.issuer)
    || (exists i :: 0 <= i < |r.receipts| && r.receipts[i].Dict? && r.receipts[i].obj.subject.body.ToolReceipt?
          && (identity == r.receipts[i].obj.subject.issuer
              || (identity != "" && identity == r.receipts[i].obj.subject.body.executor.id)))
    || (r.approval.Some? && r.approval.value.subject.body.HumanApproval?
        && identity == r.approval.value.subject.body.approver.id)
  }

  /** The keys the certifier must not sign with. */
  ghost predicate IsPartyKey(r: Request, keyId: string) {
    || (r.permit.Dict? && keyId == r.permit.obj.subject.keyId)
    || (r.record.Dict? && keyId == r.record.obj.subject.keyId)
    || exists i :: 0 <= i < |r.receipts| && r.receipts[i].Dict? && r.receipts[i].obj.subject.body.ToolReceipt?
         && keyId == r.receipts[i].obj.subject.keyId
  }

  lemma SeparatedExactly(r: Request, signer: Issuer)
    requires r.permit.Dict? && r.record.Dict?
    ensures Separated(signer, r.permit.obj.subject, r.receipts, r.record.obj.subject, r.approval) <==>
      !IsParty(r, signer.identity) && !IsPartyKey(r, signer.keyId)
  {
    if !IsParty(r, signer.identity) && !IsPartyKey(r, signer.keyId) {
      forall i | 0 <= i < |r.receipts| ensures SeparateFromReceipt(signer, r.receipts[i]) {}
    }
  }

  lemma RecordExactly(env: Env, permit: Subject, record: Item, now: int)
    requires permit.body.Permit?
    ensures RecordOk(env, permit, record, now) <==> CleanRecord(env, permit, record, now)
  {}

  lemma EvidenceExactly(env: Env, pool: seq<Item>, obligation: string, action: string, now: int)
    ensures Discharged(env, pool, obligation, action, now) <==> SomeEvidence(env, pool, obligation, action, now)
  {
    hide Verified;
    forall i | 0 <= i < |pool|
      ensures Evidence(env, pool[i], obligation, action, now) <==> Discharges(env, pool[i], obligation, action, now)
    {}
  }

  /** The digest in the certificate is that of evidence for the obligation, with none before it in the pool. */
  ghost predicate DigestOfEvidence(env: Env, pool: seq<Item>, obligation: string, action: string, now: int, d: string) {
    exists i :: 0 <= i < |pool| && Evidence(env, pool[i], obligation, action, now)
      && env.codec.digest(pool[i].obj.subject) == Some(d) && !SomeEvidence(env, pool[..i], obligation, action, now)
  }

  lemma FirstExactly(env: Env, pool: seq<Item>, obligation: string, action: string, now: int, d: string)
    ensures FirstDischarge(env, pool, obligation, action, now, d) <==>
      DigestOfEvidence(env, pool, obligation, action, now, d)
  {
    hide Verified;
    forall i | 0 <= i < |pool|
      ensures Evidence(env, pool[i], obligation, action, now) <==> Discharges(env, pool[i], obligation, action, now)
    {}
    forall i | 0 <= i < |pool|
      ensures SomeEvidence(env, pool[..i], obligation, action, now) <==>
        exists j :: 0 <= j < i && Discharges(env, pool[j], obligation, action, now)
    {
      EvidenceExactly(env, pool[..i], obligation, action, now);
      if j :| 0 <= j < i && Discharges(env, pool[j], obligation, action, now) { assert pool[..i][j] == pool[j]; }
    }
    hide Evidence, Discharges, SomeEvidence;
    if FirstDischarge(env, pool, obligation, action, now, d) {
      var i :| 0 <= i < |pool| && FirstAt(env, pool, obligation, action, now, i)
               && Digest(env.codec, pool[i].obj.subject) == Some(d);
      assert Evidence(env, pool[i], obligation, action, now);
      assert env.codec.digest(pool[i].obj.subject) == Some(d);
    }
    if DigestOfEvidence(env, pool, obligation, action, now, d) {
      var i :| 0 <= i < |pool| && Evidence(env, pool[i], obligation, action, now)
        && env.codec.digest(pool[i].obj.subject) == Some(d) && !SomeEvidence(env, pool[..i], obligation, action, now);
      assert pool[i].Dict? by { EvidenceDict(env, pool[i], obligation, action, now); }
      assert FirstAt(env, pool, obligation, action, now, i);
    }
  }

  lemma EvidenceDict(env: Env, item: Item, obligation: string, action: string, now: int)
    requires Evidence(env, item, obligation, action, now)
    ensures item.Dict?
  {}

  /** The whole condition again: an enforced permit, some receipts, each verified and of its action, a
      clean record of that action, evidence for every obligation, every source fresh, and a certifier
      that is none of the parties and signs with none of their keys. */
  lemma CertifiableExactly(env: Env, r: Request, signer: Issuer, now: int)
    ensures Certifiable(env, r, signer, now) <==>
      && EnforcedPermit(env, r.permit, now) && |r.receipts| > 0
      && (forall i :: 0 <= i < |r.receipts| ==> BoundReceipt(env, r.permit.obj.subject, r.receipts[i], now))
      && CleanRecord(env, r.permit.obj.subject, r.record, now)
      && (forall o :: o in r.obligations ==>
            SomeEvidence(env, r.discharges, o, r.permit.obj.subject.body.permitAction, now))
      && (forall source :: source in r.sources ==> r.freshness.Some? && r.freshness.value(source, now))
      && !IsParty(r, signer.identity) && !IsPartyKey(r, signer.keyId)
  {
    EnforcedExactly(env, r.permit, now);
    hide EnforcedPermit, PermitEnforced;
    if PermitEnforced(env, r.permit, now) {
      PermitEnforcedBody(env, r.permit, now);
      var p := r.permit.obj.subject;
      RecordExactly(env, p, r.record, now);
      forall i | 0 <= i < |r.receipts|
        ensures BoundReceipt(env, p, r.receipts[i], now) <==> ReceiptOk(env, p, r.receipts[i], now)
      {
        BoundExactly(env, p, r.receipts[i], now);
      }
      forall o
        ensures Discharged(env, r.discharges, o, p.body.permitAction, now) <==>
          SomeEvidence(env, r.discharges, o, p.body.permitAction, now)
      {
        EvidenceExactly(env, r.discharges, o, p.body.permitAction, now);
      }
      if r.record.Dict? { SeparatedExactly(r, signer); }
      hide RecordOk, CleanRecord, BoundReceipt, ReceiptOk, Discharged, SomeEvidence, Separated, IsParty, IsPartyKey;
      assert (forall o :: o in r.obligations ==> Discharged(env, r.discharges, o, p.body.permitAction, now)) <==>
        forall i :: 0 <= i < |r.obligations| ==>
          Discharged(env, r.discharges, r.obligations[i], p.body.permitAction, now);
      assert r.freshness.Some? ==>
        ((forall source :: source in r.sources ==> r.freshness.value(source, now)) <==>
         forall i :: 0 <= i < |r.sources| ==> r.freshness.value(r.sources[i], now));
      assert r.sources != [] ==> r.sources[0] in r.sources;
      assert CleanRecord(env, p, r.record, now) ==> r.record.Dict? by { CleanRecordDict(env, p, r.record, now); }
    }
  }

  lemma CleanRecordDict(env: Env, permit: Subject, record: Item, now: int)
    ensures CleanRecord(env, permit, record, now) ==> record.Dict?
  {}

  /** The digests are those of the receipts, in order. */
  ghost predicate DigestsOf(codec: Codec, receipts: seq<Item>, digests: seq<string>) {
    |digests| == |receipts| &&
    forall i :: 0 <= i < |receipts| ==> receipts[i].Dict? && Digest(codec, receipts[i].obj.subject) == Some(digests[i])
  }

  /** What a certificate says about the run it attests. */
  ghost predicate Attests(env: Env, r: Request, signer: Issuer, now: int, s: Subject)
    requires r.permit.Dict? && r.permit.obj.subject.body.Permit? && r.record.Dict?
  {
    && s.issuer == signer.identity && s.keyId == signer.keyId && s.issuedAt == now
    && s.expiresAt == Some(now + r.stamp.ttl) && s.runId == r.stamp.runId && s.nonce == r.stamp.nonce
    && s.body.Certificate?
    && s.body.certAction == r.permit.obj.subject.body.permitAction
    && Digest(env.codec, r.permit.obj.subject) == Some(s.body.permitDigest)
    && Digest(env.codec, r.record.obj.subject) == Some(s.body.reconciliationDigest)
    && DigestsOf(env.codec, r.receipts, s.body.toolReceiptDigests)
    && |s.body.dischargedDigests| == |r.obligations|
    && (forall i :: 0 <= i < |r.obligations| ==>
          FirstDischarge(env, r.discharges, r.obligations[i], r.permit.obj.subject.body.permitAction, now,
                         s.body.dischargedDigests[i]))
    && s.body.certifier == Party(signer.identity, r.role) && s.body.certPrev == r.prev
  }

  /** Step 4 of `certify`: one digest for each discharged obligation, in order. */
  method DischargeAll(env: Env, pool: seq<Item>, obligations: seq<string>, action: string, now: int)
      returns (digests: seq<string>, reasons: nat)
    requires Sound(env.codec)
    ensures reasons == 0 <==> forall i :: 0 <= i < |obligations| ==> Discharged(env, pool, obligations[i], action, now)
    ensures reasons == 0 ==> |digests| == |obligations|
    ensures reasons == 0 ==> forall i :: 0 <= i < |obligations| ==>
      FirstDischarge(env, pool, obligations[i], action, now, digests[i])
  {
    hide Discharges, Discharged, Sound, Digest;
    digests, reasons := [], 0;
    for i := 0 to |obligations|
      invariant reasons == 0 <==> forall j :: 0 <= j < i ==> Discharged(env, pool, obligations[j], action, now)
      invariant reasons == 0 ==> |digests| == i
      invariant reasons == 0 ==> forall j :: 0 <= j < i ==>
        FirstDischarge(env, pool, obligations[j], action, now, digests[j])
    {
      var found := FindDischarge(env, pool, obligations[i], action, now);
      if found.None? {
        reasons := reasons + 1;
      } else {
        DigestPins(env.codec, found.value.subject, found.value.subject);
        digests := digests + [Digest(env.codec, found.value.subject).value];
      }
    }
  }

  method DigestList(codec: Codec, receipts: seq<Item>) returns (digests: seq<string>)
    requires Sound(codec) && forall i :: 0 <= i < |receipts| ==> receipts[i].Dict?
    ensures DigestsOf(codec, receipts, digests)
  {
    hide Sound, Digest;
    digests := [];
    for i := 0 to |receipts|
      invariant |digests| == i
      invariant forall j :: 0 <= j < i ==> Digest(codec, receipts[j].obj.subject) == Some(digests[j])
    {
      DigestPins(codec, receipts[i].obj.subject, receipts[i].obj.subject);
      digests := digests + [Digest(codec, receipts[i].obj.subject).value];
    }
  }

  /** `certify`: a certificate exists exactly when the whole condition holds, and attests that run. */
  method Certify(env: Env, r: Request, signer: Issuer, now: int) returns (certificate: Option<Object>)
    requires Sound(env.codec)
    ensures certificate.Some? <==> Certifiable(env, r, signer, now)
    ensures certificate.Some? ==> SignedObject(env.codec, signer, certificate.value.subject) == certificate
    ensures certificate.Some? ==> Attests(env, r, signer, now, certificate.value.subject)
  {
    hide Sound, Digest, PermitEnforced, ReceiptOk, RecordOk, Discharged, FirstDischarge, Separated, DigestsOf;
    if !PermitEnforced(env, r.permit, now) { return None; }
    PermitEnforcedBody(env, r.permit, now);
    var p := r.permit.obj.subject;
    if r.receipts == [] { return None; }
    for i := 0 to |r.receipts|
      invariant forall j :: 0 <= j < i ==> ReceiptOk(env, p, r.receipts[j], now) && IsTool(r.receipts[j])
    {
      if !ReceiptOk(env, p, r.receipts[i], now) { return None; }
      ReceiptOkIsTool(env, p, r.receipts[i], now);
    }
    if !RecordOk(env, p, r.record, now) { return None; }
    assert r.record.Dict? by { RecordOkDict(env, p, r.record, now); }
    var discharged, reasons := DischargeAll(env, r.discharges, r.obligations, p.body.permitAction, now);
    if r.sources != [] && r.freshness.None? {
      reasons := reasons + 1;
    } else if r.freshness.Some? {
      ghost var before := reasons;
      for i := 0 to |r.sources|
        invariant reasons >= before
        invariant reasons == before <==> forall j :: 0 <= j < i ==> r.freshness.value(r.sources[j], now)
      {
        if !r.freshness.value(r.sources[i], now) { reasons := reasons + 1; }
      }
    }
    var conflicts := RoleConflicts(signer, p, r.receipts, r.record.obj.subject, r.approval);
    if reasons + conflicts > 0 { return None; }
    DigestPins(env.codec, p, p);
    DigestPins(env.codec, r.record.obj.subject, r.record.obj.subject);
    var receiptDigests := DigestList(env.codec, r.receipts);
    var s := Subject(signer.identity, now, Some(now + r.stamp.ttl), r.stamp.runId, r.stamp.nonce, signer.keyId,
                     Certificate(p.body.permitAction, Digest(env.codec, p).value,
                                 Digest(env.codec, r.record.obj.subject).value, receiptDigests, discharged,
                                 Party(signer.identity, r.role), r.prev));
    DigestPins(env.codec, s, s);
    certificate := SignedObject(env.codec, signer, s);
  }

  lemma RecordOkDict(env: Env, permit: Subject, record: Item, now: int)
    requires permit.body.Permit? && RecordOk(env, permit, record, now)
    ensures record.Dict?
  {}

  /** A receipt may be listed any number of times: listing one again changes nothing about whether a
      certificate is signed. */
  lemma RepeatedReceiptAccepted(env: Env, r: Request, signer: Issuer, now: int, k: nat)
    requires k < |r.receipts|
    ensures Certifiable(env, r.(receipts := r.receipts + [r.receipts[k]]), signer, now) <==>
      Certifiable(env, r, signer, now)
  {
    hide PermitEnforced, ReceiptOk, RecordOk, Discharged, SeparateFromReceipt, SeparateFrom;
    var longer := r.receipts + [r.receipts[k]];
    assert forall i :: 0 <= i < |r.receipts| ==> longer[i] == r.receipts[i];
  }
}
