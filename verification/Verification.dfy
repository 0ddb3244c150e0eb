/** `wire/verification.py` and `wire/trust.py`: is one object to be believed, here and now? */
module Verification {
  import opened Prelude
  import opened Wire
  import opened NonceStores

  const ANY := "*"

  /** A key's public half and what it may speak for. */
  datatype Binding = Binding(publicKey: string, objectTypes: set<string>, roles: set<string>, identity: Option<string>)
  {
    predicate AuthorizesType(name: string) { ANY in objectTypes || name in objectTypes }
    predicate AuthorizesRole(role: string) { ANY in roles || role in roles }
  }

  datatype RevokedKind = Key | Run | PermitId
  datatype Revocation = Revocation(kind: RevokedKind, id: string, effectiveAt: int)

  /** One act of signing: an ideal signature verifies only if its key produced it on that subject. */
  datatype Signing = Signing(publicKey: string, subject: Subject, signature: string)

  /** What a verifier is given: the wire codec, the schemas, who owns which tool, the trust store,
      the revocations, and which signatures exist. */
  datatype Env = Env(codec: Codec, schema: Subject -> bool, owners: map<string, string>,
                     trust: map<string, Binding>, revocations: set<Revocation>, signed: set<Signing>)

  predicate IsRevoked(revocations: set<Revocation>, kind: RevokedKind, id: string, at: int) {
    exists r :: r in revocations && r.kind == kind && r.id == id && r.effectiveAt <= at
  }

  /** `wire/trust.py:InMemoryRevocationStore`. */
  class RevocationStore {
    var entries: seq<Revocation>

    constructor ()
      ensures entries == []
    {
      entries := [];
    }

    function Entries(): set<Revocation>
      reads this
    {
      set r | r in entries
    }

    /** Nothing is ever un-revoked, and a revocation counts from its effective time on. */
    method Revoke(kind: RevokedKind, id: string, effectiveAt: int)
      modifies this
      ensures Entries() == old(Entries()) + {Revocation(kind, id, effectiveAt)}
      ensures forall k, i, at :: IsRevoked(Entries(), k, i, at) <==>
        IsRevoked(old(Entries()), k, i, at) || (k == kind && i == id && effectiveAt <= at)
    {
      var r := Revocation(kind, id, effectiveAt);
      ghost var before := Entries();
      entries := entries + [r];
      assert Entries() == before + {r};
      forall k, i, at ensures IsRevoked(before + {r}, k, i, at) <==>
        IsRevoked(before, k, i, at) || (k == kind && i == id && effectiveAt <= at) {
        if k == kind && i == id && effectiveAt <= at { assert r in before + {r}; }
        if IsRevoked(before, k, i, at) {
          var x :| x in before && x.kind == k && x.id == i && x.effectiveAt <= at;
          assert x in before + {r};
        }
      }
    }
  }

  /** `str.removeprefix("tool:")`. */
  function ToolKey(capability: string): string {
    if |capability| >= 5 && capability[..5] == "tool:" then capability[5..] else capability
  }

  /** The capability is this tool's, with the prefix or without. */
  predicate CapabilityOf(capability: string, tool: string) {
    capability == "tool:" + tool || (capability == tool && !("tool:" <= tool))
  }

  lemma ToolKeyExactly(capability: string, tool: string)
    ensures CapabilityOf(capability, tool) <==> ToolKey(capability) == tool
  {
    assert |"tool:"| == 5;
    if |capability| >= 5 && capability[..5] == "tool:" { assert capability == "tool:" + capability[5..]; }
    if capability == "tool:" + tool { assert capability[..5] == "tool:" && capability[5..] == tool; }
  }

  /** `_stage_receipt_role_findings`: a tool: capability this family owns is reported by its owner. */
  predicate OwnedBy(owners: map<string, string>, capability: string, role: string) {
    |capability| >= 5 && capability[..5] == "tool:" && ToolKey(capability) in owners ==>
      role == owners[ToolKey(capability)]
  }

  /** `_trust_findings`: the key resolves, may issue this type (and stage role, as the issuer it is
      bound to), and signed this subject. */
  predicate Trusted(env: Env, o: Object) {
    var s := o.subject;
    s.keyId != "" && s.keyId in env.trust &&
    var b := env.trust[s.keyId];
    && b.AuthorizesType(TypeName(TypeOf(s.body)))
    && (s.body.StageReceipt? ==> b.AuthorizesRole(s.body.role) && b.identity == Some(s.issuer))
    && o.signature != ""
    && Signing(b.publicKey, s, o.signature) in env.signed
  }

  /** `_human_approval_wire_findings`. */
  predicate HumanBound(env: Env, o: Object, humanRole: string) {
    var s := o.subject;
    s.body.HumanApproval? && s.keyId in env.trust ==>
      env.trust[s.keyId].AuthorizesRole(humanRole) && env.trust[s.keyId].identity == Some(s.body.approver.id)
  }

  /** `_revocation_findings`. */
  predicate NotRevoked(env: Env, s: Subject, at: int) {
    && !IsRevoked(env.revocations, Key, s.keyId, at)
    && !IsRevoked(env.revocations, Run, s.runId, at)
    && (ActionOf(s.body) != "" ==> !IsRevoked(env.revocations, PermitId, ActionOf(s.body), at))
  }

  /** Schema, digest, expiry and tool ownership: what holds of an object whoever signed it. */
  predicate Intact(env: Env, o: Object, t: WireType, now: int) {
    var s := o.subject;
    && TypeOf(s.body) == t
    && env.schema(s)
    && Digest(env.codec, s) == Some(o.subjectDigest)
    && s.expiresAt.Some? && now < s.expiresAt.value
    && (s.body.StageReceipt? ==> OwnedBy(env.owners, s.body.capability, s.body.role))
  }

  // ---- what makes an object unacceptable, said of its fields ----

  /** The body names this action: a permitted one, or the one it is bound to. */
  predicate ActsOn(b: Body, action: string) {
    || (b.StageReceipt? && action == b.stageAction) || (b.HumanApproval? && action == b.permittedAction)
    || (b.Permit? && action == b.permitAction) || (b.ToolReceipt? && action == b.toolAction)
    || (b.Reconciliation? && action == b.reconAction) || (b.Discharge? && action == b.dischargeAction)
    || (b.Certificate? && action == b.certAction)
  }

  /** A revocation in force names the key, the run, or the action the object is about. */
  predicate Withdrawn(revocations: set<Revocation>, s: Subject, now: int) {
    exists r :: r in revocations && r.effectiveAt <= now && Concerns(r, s)
  }

  predicate Concerns(r: Revocation, s: Subject) {
    (r.kind.Key? && r.id == s.keyId) || (r.kind.Run? && r.id == s.runId)
    || (r.kind.PermitId? && r.id != "" && ActsOn(s.body, r.id))
  }

  predicate Expired(s: Subject, now: int) { s.expiresAt.None? || s.expiresAt.value <= now }

  /** A stage receipt for a tool that another role owns. */
  predicate Usurps(env: Env, s: Subject) {
    exists tool :: tool in env.owners && s.body.StageReceipt? && s.body.capability == "tool:" + tool
      && s.body.role != env.owners[tool]
  }

  /** The key is not in the store, or may not do this: issue this type of object, act in the receipt's
      stage role under that identity, or approve as this human. */
  predicate Unentitled(env: Env, s: Subject, humanRole: string) {
    s.keyId == "" || s.keyId !in env.trust ||
    var b := env.trust[s.keyId];
    || ("*" !in b.objectTypes && TypeName(TypeOf(s.body)) !in b.objectTypes)
    || (s.body.StageReceipt? && "*" !in b.roles && s.body.role !in b.roles)
    || (s.body.StageReceipt? && b.identity != Some(s.issuer))
    || (s.body.HumanApproval? && "*" !in b.roles && humanRole !in b.roles)
    || (s.body.HumanApproval? && b.identity != Some(s.body.approver.id))
  }

  /** No signature, or one that this key never made over this subject. */
  predicate Unsigned(env: Env, o: Object) {
    o.signature == "" ||
    forall g :: g in env.signed && g.subject == o.subject && g.signature == o.signature ==>
      o.subject.keyId !in env.trust || g.publicKey != env.trust[o.subject.keyId].publicKey
  }

  /** Exactly what `verify` rejects: an object of another type or shape, with another digest, expired,
      withdrawn, usurping a tool, unsigned, or under a key that is not entitled. */
  lemma RejectedExactly(env: Env, o: Object, t: WireType, now: int, humanRole: string)
    ensures !Verified(env, o, t, now, humanRole) <==>
      || TypeOf(o.subject.body) != t || !env.schema(o.subject) || env.codec.digest(o.subject) != Some(o.subjectDigest)
      || Expired(o.subject, now) || Withdrawn(env.revocations, o.subject, now) || Usurps(env, o.subject)
      || Unsigned(env, o) || Unentitled(env, o.subject, humanRole)
  {
    WithdrawnExactly(env, o.subject, now);
    UsurpsExactly(env, o.subject);
    if o.subject.keyId in env.trust { UnsignedExactly(env, o); }
    hide IsRevoked, NotRevoked, Withdrawn, Usurps, OwnedBy, Unsigned;
  }

  lemma WithdrawnExactly(env: Env, s: Subject, now: int)
    ensures NotRevoked(env, s, now) <==> !Withdrawn(env.revocations, s, now)
  {
    forall a: string ensures ActsOn(s.body, a) <==> a == ActionOf(s.body) {}
    if !NotRevoked(env, s, now) {
      var kind, id := Key, s.keyId;
      if !IsRevoked(env.revocations, Key, s.keyId, now) {
        kind, id := Run, s.runId;
        if !IsRevoked(env.revocations, Run, s.runId, now) { kind, id := PermitId, ActionOf(s.body); }
      }
      var r :| r in env.revocations && r.kind == kind && r.id == id && r.effectiveAt <= now;
      assert Concerns(r, s);
    }
    if r :| r in env.revocations && r.effectiveAt <= now && Concerns(r, s) {
      assert IsRevoked(env.revocations, r.kind, r.id, now);
    }
  }

  lemma UsurpsExactly(env: Env, s: Subject)
    ensures Usurps(env, s) <==> s.body.StageReceipt? && !OwnedBy(env.owners, s.body.capability, s.body.role)
  {
    if s.body.StageReceipt? {
      var c := s.body.capability;
      assert |"tool:"| == 5;
      if |c| >= 5 && c[..5] == "tool:" { assert c == "tool:" + c[5..]; }
      forall tool | c == "tool:" + tool ensures |c| >= 5 && c[..5] == "tool:" && c[5..] == tool {}
    }
  }

  lemma UnsignedExactly(env: Env, o: Object)
    requires o.subject.keyId in env.trust
    ensures Unsigned(env, o) <==>
      o.signature == "" || Signing(env.trust[o.subject.keyId].publicKey, o.subject, o.signature) !in env.signed
  {}

  /** The names of the types, as trust stores list them. */
  lemma TypesNamed(s: Subject)
    ensures TypeName(TypeOf(s.body)) ==
      if s.body.StageReceipt? then "StageReceipt" else if s.body.HumanApproval? then "HumanApprovalReceipt"
      else if s.body.Permit? then "ExecutionPermit" else if s.body.ToolReceipt? then "ToolReceipt"
      else if s.body.Reconciliation? then "Reconciliation" else if s.body.Discharge? then "ObligationDischargeReceipt"
      else "OversightCertificate"
  {}

  /** `verify` with a trust store and no nonce store. */
  predicate Verified(env: Env, o: Object, t: WireType, now: int, humanRole: string := "human") {
    && Intact(env, o, t, now)
    && Trusted(env, o)
    && HumanBound(env, o, humanRole)
    && NotRevoked(env, o.subject, now)
  }

  /** `verify`: fail closed, and record the nonce only when every check has passed, so that no
      rejected object burns one. No store is no replay check. */
  method Verify(env: Env, o: Object, t: WireType, now: int, humanRole: string, withTrust: bool, store: Option<Store>)
      returns (ok: bool)
    modifies if store.Some? then store.value.Objects() else {}
    // Whatever else holds, an expired or revoked object is rejected.
    ensures Expired(o.subject, now) || Withdrawn(env.revocations, o.subject, now) ==> !ok
    ensures ok <==>
      && (if withTrust then Verified(env, o, t, now, humanRole)
          else Intact(env, o, t, now) && NotRevoked(env, o.subject, now))
      && (store.Some? ==> !SeenIn(old(store.value.State()), NonceOf(o.subject)))
    ensures store.Some? ==>
      store.value.State() ==
        if ok then Recorded(old(store.value.State()), NonceOf(o.subject)) else old(store.value.State())
  {
    WithdrawnExactly(env, o.subject, now);
    hide Digest, IsRevoked, OwnedBy, MarkerName, Withdrawn;
    var s := o.subject;
    var errors := 0;
    if TypeOf(s.body) != t { errors := errors + 1; }
    if !env.schema(s) { errors := errors + 1; }
    if errors > 0 { return false; }
    if Digest(env.codec, s) != Some(o.subjectDigest) { errors := errors + 1; }
    if s.expiresAt.None? {
      errors := errors + 1;
    } else if s.expiresAt.value <= now {
      errors := errors + 1;
    }
    if s.body.StageReceipt? && !OwnedBy(env.owners, s.body.capability, s.body.role) { errors := errors + 1; }
    if store.Some? {
      var seen := store.value.Seen(NonceOf(s));
      if seen { errors := errors + 1; }
    }
    if withTrust {
      if !Trusted(env, o) { errors := errors + 1; }
      if !HumanBound(env, o, humanRole) { errors := errors + 1; }
    }
    if IsRevoked(env.revocations, Key, s.keyId, now) { errors := errors + 1; }
    if IsRevoked(env.revocations, Run, s.runId, now) { errors := errors + 1; }
    if ActionOf(s.body) != "" && IsRevoked(env.revocations, PermitId, ActionOf(s.body), now) { errors := errors + 1; }
    if errors > 0 { return false; }
    if store.Some? { store.value.Record(NonceOf(s)); }
    return true;
  }

  function NonceOf(s: Subject): Pair { (s.runId, s.nonce) }

  predicate VerifiedItem(env: Env, i: Item, t: WireType, now: int) {
    i.Dict? && Verified(env, i.obj, t, now)
  }

  /** `verify_human_approval`: who approved, by the signing key's bound identity. None is a rejection.
      The plain `verify` inside is called without a role, so it always asks for "human"; beyond it
      this checks the caller's role and the sender, and nothing else. */
  function VerifyHumanApproval(env: Env, o: Object, now: int, sender: Option<string>,
                               humanRole: string := "human"): (r: Option<string>)
    ensures r.Some? <==>
      && Verified(env, o, HumanApprovalType, now) && o.subject.body.HumanApproval? && o.subject.keyId in env.trust
      && env.trust[o.subject.keyId].AuthorizesRole(humanRole) && sender != Some(o.subject.body.approver.id)
    ensures r.Some? ==> o.subject.body.HumanApproval? && r.value == o.subject.body.approver.id
  {
    if !Verified(env, o, HumanApprovalType, now) then None
    else
      var b := env.trust[o.subject.keyId];
      if !b.AuthorizesRole(humanRole) then None
      else if b.identity.None? then None
      else if o.subject.body.approver.id != b.identity.value then None
      else if sender.Some? && b.identity.value == sender.value then None
      else b.identity
  }

  /** A receipt that `verify` accepts for the caller's own role, from an approver other than the
      sender, is accepted here exactly when the key is bound to the role "human" as well. */
  lemma OtherRolesNeedHuman(env: Env, o: Object, now: int, sender: Option<string>, role: string)
    requires Verified(env, o, HumanApprovalType, now, role)
    ensures o.subject.body.HumanApproval? && o.subject.keyId in env.trust
    ensures sender != Some(o.subject.body.approver.id) ==>
      (VerifyHumanApproval(env, o, now, sender, role).Some? <==> env.trust[o.subject.keyId].AuthorizesRole("human"))
  {
    hide Digest, IsRevoked, OwnedBy;
  }

  /** So a key bound to "supervisor" alone never passes for that role, though `verify` accepts its
      receipt for it. */
  lemma SupervisorRejected(env: Env, o: Object, now: int, sender: Option<string>)
    requires Verified(env, o, HumanApprovalType, now, "supervisor")
    requires o.subject.keyId in env.trust && env.trust[o.subject.keyId].roles == {"supervisor"}
    ensures VerifyHumanApproval(env, o, now, sender, "supervisor").None?
  {
    hide Digest, IsRevoked, OwnedBy;
    assert |"supervisor"| == 10 && |"human"| == 5 && |ANY| == 1;
  }

  /** The later environment knows no fewer revocations and otherwise agrees. */
  ghost predicate Later(early: Env, late: Env) {
    early == late.(revocations := early.revocations) && early.revocations <= late.revocations
  }

  /** Acceptance only shrinks as time passes and revocations arrive. */
  lemma VerifiedEarlier(early: Env, late: Env, o: Object, t: WireType, t1: int, t2: int, humanRole: string)
    requires Later(early, late) && t1 <= t2 && Verified(late, o, t, t2, humanRole)
    ensures Verified(early, o, t, t1, humanRole)
  {
    forall kind, id | IsRevoked(early.revocations, kind, id, t1) ensures IsRevoked(late.revocations, kind, id, t2) {
      var r :| r in early.revocations && r.kind == kind && r.id == id && r.effectiveAt <= t1;
      assert r in late.revocations;
    }
  }
}
