/** What the dict of each wire object says under each name. */
module WireDicts {
  import opened Prelude
  import opened Text
  import opened Canonical
  import opened RoundTrip
  import opened Wire
  import opened WireCodec
  import Verification
  import J = JsonReader

  /** The dict has this value under the name, or nothing there. */
  ghost predicate Says(s: Subject, name: string, v: Option<J.Value>) {
    Printable(Encode(s)) &&
    var m := Meaning(Encode(s));
    m.VObj? && if v.Some? then name in m.m && m.m[name] == v.value else name !in m.m
  }

  function Txt(x: string): Option<J.Value> { Some(J.VStr(x)) }
  function Opt(x: Option<string>): Option<J.Value> { if x.Some? then Some(J.VStr(x.value)) else None }
  function Flag(b: bool): Option<J.Value> { Some(J.VBool(b)) }
  function Moment(t: int): Option<J.Value> { Some(J.VStr(IntText(t))) }
  function Member(p: Party): Option<J.Value> { Some(J.VObj(map["id" := J.VStr(p.id), "role" := J.VStr(p.role)])) }
  function Thumb(jkt: Option<string>): Option<J.Value> {
    if jkt.Some? then Some(J.VObj(map["jkt" := J.VStr(jkt.value)])) else None
  }
  function List(xs: seq<string>): Option<J.Value> { Some(J.VArr(seq(|xs|, i requires 0 <= i < |xs| => J.VStr(xs[i])))) }

  /** What every object says: its type and version, who signed it and when, and for which run. */
  ghost predicate SaysCommon(s: Subject, typeName: string) {
    && Says(s, "type", Txt(typeName)) && Says(s, "schema_version", Txt("1.0.0"))
    && Says(s, "issuer", Txt(s.issuer)) && Says(s, "key_id", Txt(s.keyId))
    && Says(s, "run_id", Txt(s.runId)) && Says(s, "nonce", Txt(s.nonce)) && Says(s, "issued_at", Moment(s.issuedAt))
    && Says(s, "expires_at", if s.expiresAt.Some? then Moment(s.expiresAt.value) else None)
  }

  /** What the i-th field says. */
  ghost function Said(s: Subject, i: nat): Option<J.Value>
    requires i < Count(TypeOf(s.body))
  {
    if FieldOk(Values(s)[i]) then FieldMeaning(Values(s)[i]) else None
  }

  lemma FieldSays(s: Subject, i: nat)
    requires i < Count(TypeOf(s.body))
    ensures Says(s, Names(TypeOf(s.body))[i], Said(s, i)) && FieldOk(Values(s)[i])
  {
    EncodeOk(s);
    hide Meaning, Present, FieldMeaning, Values, Names, Printable, WellFormed;
    SubjectFieldsOk(s);
    FieldLookup(Fields(s), i);
  }

  // ---- what the kinds of fields mean ----

  lemma Meanings()
    ensures forall x: string :: FieldMeaning(Str1(x)) == Txt(x)
    ensures forall x: Option<string> :: FieldMeaning(Str0(x)) == Opt(x)
    ensures forall b: bool :: FieldMeaning(Some(Bool(b))) == Flag(b)
    ensures forall t: int :: FieldMeaning(Time(t)) == Moment(t)
    ensures forall t: Option<int> :: FieldMeaning(Time0(t)) == if t.Some? then Moment(t.value) else None
  {
    hide IntText;
  }

  lemma ListMeaning(xs: seq<string>)
    ensures FieldMeaning(Strs(xs)) == List(xs)
  {
    StrsOk(xs);
    assert MeaningAll(StrList(xs)) == List(xs).value.vs;
  }

  lemma MemberMeaning(p: Party)
    ensures FieldMeaning(PartyDict(p)) == Member(p)
  {
    PartyOk(p);
    var items := [("id", Str(p.id)), ("role", Str(p.role))];
    var ms := MeaningItems(items);
    assert Meaning(Str(p.id)) == J.VStr(p.id) && Meaning(Str(p.role)) == J.VStr(p.role);
    assert items[0].1 == Str(p.id) && items[1].1 == Str(p.role);
    assert ms[0] == ("id", J.VStr(p.id)) && ms[1] == ("role", J.VStr(p.role));
    assert ms == [("id", J.VStr(p.id)), ("role", J.VStr(p.role))];
    assert ms[..1] == [("id", J.VStr(p.id))] && ms[..1][..0] == [];
    assert J.MapOf(ms[..1]) == map["id" := J.VStr(p.id)];
  }

  lemma ThumbMeaning(jkt: Option<string>)
    ensures FieldMeaning(Jkt(jkt)) == Thumb(jkt)
  {
    if jkt.Some? {
      var items := [("jkt", Str(jkt.value))];
      var ms := MeaningItems(items);
      assert Meaning(Str(jkt.value)) == J.VStr(jkt.value) && items[0].1 == Str(jkt.value);
      assert ms[0] == ("jkt", J.VStr(jkt.value));
      assert ms == [("jkt", J.VStr(jkt.value))] && ms[..0] == [];
      assert J.MapOf(ms[..0]) == map[] && |ms| == 1;
      assert J.MapOf(ms) == J.MapOf(ms[..0])["jkt" := J.VStr(jkt.value)];
      assert Meaning(Obj(items)) == J.VObj(J.MapOf(ms));
    }
  }

  // ---- StageReceipt ----

  lemma StageReceiptSays(s: Subject)
    requires s.body.StageReceipt?
    ensures SaysCommon(s, "StageReceipt")
    ensures Says(s, "role", Txt(s.body.role)) && Says(s, "capability", Txt(s.body.capability))
    ensures Says(s, "status", Txt(s.body.status)) && Says(s, "action_digest", Txt(s.body.stageAction))
    ensures Says(s, "input_digest", Txt(s.body.inputDigest)) && Says(s, "output_digest", Opt(s.body.outputDigest))
    ensures Says(s, "reason", Opt(s.body.stageReason)) && Says(s, "prev_digest", Opt(s.body.stagePrev))
  {
    hide Says, FieldMeaning, Str1, Str0, Time, Time0, Strs, PartyDict, Jkt, ConstraintItems, TypeName;
    Verification.TypesNamed(s);
    Meanings();
    FieldSays(s, 0);
    FieldSays(s, 1);
    FieldSays(s, 2);
    FieldSays(s, 3);
    FieldSays(s, 4);
    FieldSays(s, 5);
    FieldSays(s, 6);
    FieldSays(s, 7);
    FieldSays(s, 8);
    FieldSays(s, 9);
    FieldSays(s, 10);
    FieldSays(s, 11);
    FieldSays(s, 12);
    FieldSays(s, 13);
    FieldSays(s, 14);
    FieldSays(s, 15);
  }

  // ---- HumanApprovalReceipt ----

  lemma HumanApprovalSays(s: Subject)
    requires s.body.HumanApproval?
    ensures SaysCommon(s, "HumanApprovalReceipt")
    ensures Says(s, "approver", Member(s.body.approver))
    ensures Says(s, "permitted_action_digest", Txt(s.body.permittedAction))
    ensures Says(s, "scope", Txt(s.body.scope)) && Says(s, "reservations", List(s.body.reservations))
  {
    hide Says, FieldMeaning, Str1, Str0, Time, Time0, Strs, PartyDict, Jkt, ConstraintItems, TypeName;
    Verification.TypesNamed(s);
    Meanings();
    MemberMeaning(s.body.approver);
    ListMeaning(s.body.reservations);
    FieldSays(s, 0);
    FieldSays(s, 1);
    FieldSays(s, 2);
    FieldSays(s, 3);
    FieldSays(s, 4);
    FieldSays(s, 5);
    FieldSays(s, 6);
    FieldSays(s, 7);
    FieldSays(s, 8);
    FieldSays(s, 9);
    FieldSays(s, 10);
    FieldSays(s, 11);
  }

  // ---- ExecutionPermit ----

  lemma PermitSays(s: Subject)
    requires s.body.Permit?
    ensures SaysCommon(s, "ExecutionPermit")
    ensures Says(s, "action_digest", Txt(s.body.permitAction)) && Says(s, "enforcement_grade", Txt(s.body.grade))
    ensures Says(s, "adapter", Txt(s.body.adapter)) && Says(s, "aud", Opt(s.body.aud))
    ensures Says(s, "cnf", Thumb(s.body.cnf)) && Says(s, "governance_block_digest", Opt(s.body.governanceDigest))
  {
    hide Says, FieldMeaning, Str1, Str0, Time, Time0, Strs, PartyDict, Jkt, ConstraintItems, TypeName;
    Verification.TypesNamed(s);
    Meanings();
    ThumbMeaning(s.body.cnf);
    FieldSays(s, 0);
    FieldSays(s, 1);
    FieldSays(s, 2);
    FieldSays(s, 3);
    FieldSays(s, 4);
    FieldSays(s, 5);
    FieldSays(s, 6);
    FieldSays(s, 7);
    FieldSays(s, 8);
    FieldSays(s, 9);
    FieldSays(s, 10);
    FieldSays(s, 11);
    FieldSays(s, 12);
    FieldSays(s, 13);
    FieldSays(s, 14);
  }

  // ---- ToolReceipt ----

  lemma ToolReceiptSays(s: Subject)
    requires s.body.ToolReceipt?
    ensures SaysCommon(s, "ToolReceipt")
    ensures Says(s, "tool", Txt(s.body.tool)) && Says(s, "arguments_digest", Txt(s.body.argumentsDigest))
    ensures Says(s, "effect_digest", Txt(s.body.effectDigest)) && Says(s, "started_at", Moment(s.body.startedAt))
    ensures Says(s, "ended_at", Moment(s.body.endedAt)) && Says(s, "executor", Member(s.body.executor))
    ensures Says(s, "dispatch_id", Txt(s.body.dispatchId)) && Says(s, "action_digest", Txt(s.body.toolAction))
    ensures Says(s, "prev_digest", Opt(s.body.toolPrev))
  {
    hide Says, FieldMeaning, Str1, Str0, Time, Time0, Strs, PartyDict, Jkt, ConstraintItems, TypeName;
    Verification.TypesNamed(s);
    Meanings();
    MemberMeaning(s.body.executor);
    FieldSays(s, 0);
    FieldSays(s, 1);
    FieldSays(s, 2);
    FieldSays(s, 3);
    FieldSays(s, 4);
    FieldSays(s, 5);
    FieldSays(s, 6);
    FieldSays(s, 7);
    FieldSays(s, 8);
    FieldSays(s, 9);
    FieldSays(s, 10);
    FieldSays(s, 11);
    FieldSays(s, 12);
    FieldSays(s, 13);
    FieldSays(s, 14);
    FieldSays(s, 15);
    FieldSays(s, 16);
  }

  // ---- Reconciliation ----

  lemma ReconciliationSays(s: Subject)
    requires s.body.Reconciliation?
    ensures SaysCommon(s, "Reconciliation")
    ensures Says(s, "state", Txt(s.body.state)) && Says(s, "certified", Flag(s.body.certified))
    ensures Says(s, "action_digest", Txt(s.body.reconAction)) && Says(s, "missing_receipts", List(s.body.missing))
    ensures Says(s, "invalid_receipts", List(s.body.invalid)) && Says(s, "residuals", List(s.body.residuals))
    ensures Says(s, "reason", Txt(s.body.reconReason)) && Says(s, "intended_effects_digest", Txt(s.body.intendedDigest))
    ensures Says(s, "observed_effects_digest", Txt(s.body.observedDigest)) && Says(s, "open_receipts", List([]))
    ensures Says(s, "failed_receipts", List([])) && Says(s, "discharged_obligations", List([]))
  {
    hide Says, FieldMeaning, Str1, Str0, Time, Time0, Strs, PartyDict, Jkt, ConstraintItems, TypeName;
    Verification.TypesNamed(s);
    Meanings();
    ListMeaning(s.body.missing);
    ListMeaning(s.body.invalid);
    ListMeaning(s.body.residuals);
    ListMeaning([]);
    ListMeaning([]);
    ListMeaning([]);
    FieldSays(s, 0);
    FieldSays(s, 1);
    FieldSays(s, 2);
    FieldSays(s, 3);
    FieldSays(s, 4);
    FieldSays(s, 5);
    FieldSays(s, 6);
    FieldSays(s, 7);
    FieldSays(s, 8);
    FieldSays(s, 9);
    FieldSays(s, 10);
    FieldSays(s, 11);
    FieldSays(s, 12);
    FieldSays(s, 13);
    FieldSays(s, 14);
    FieldSays(s, 15);
    FieldSays(s, 16);
    FieldSays(s, 17);
    FieldSays(s, 18);
    FieldSays(s, 19);
  }

  // ---- ObligationDischargeReceipt ----

  lemma DischargeSays(s: Subject)
    requires s.body.Discharge?
    ensures SaysCommon(s, "ObligationDischargeReceipt")
    ensures Says(s, "obligation_id", Txt(s.body.obligationId)) && Says(s, "action_digest", Txt(s.body.dischargeAction))
    ensures Says(s, "discharged_by", Member(s.body.dischargedBy)) && Says(s, "prev_digest", Opt(s.body.dischargePrev))
  {
    hide Says, FieldMeaning, Str1, Str0, Time, Time0, Strs, PartyDict, Jkt, ConstraintItems, TypeName;
    Verification.TypesNamed(s);
    Meanings();
    MemberMeaning(s.body.dischargedBy);
    FieldSays(s, 0);
    FieldSays(s, 1);
    FieldSays(s, 2);
    FieldSays(s, 3);
    FieldSays(s, 4);
    FieldSays(s, 5);
    FieldSays(s, 6);
    FieldSays(s, 7);
    FieldSays(s, 8);
    FieldSays(s, 9);
    FieldSays(s, 10);
    FieldSays(s, 11);
  }

  // ---- OversightCertificate ----

  lemma CertificateSays(s: Subject)
    requires s.body.Certificate?
    ensures SaysCommon(s, "OversightCertificate")
    ensures Says(s, "action_digest", Txt(s.body.certAction)) && Says(s, "permit_digest", Txt(s.body.permitDigest))
    ensures Says(s, "reconciliation_digest", Txt(s.body.reconciliationDigest))
    ensures Says(s, "tool_receipt_digests", List(s.body.toolReceiptDigests))
    ensures Says(s, "discharged_obligation_digests", List(s.body.dischargedDigests))
    ensures Says(s, "certifier", Member(s.body.certifier))
    ensures Says(s, "prev_digest", Opt(s.body.certPrev))
  {
    hide Says, FieldMeaning, Str1, Str0, Time, Time0, Strs, PartyDict, Jkt, ConstraintItems, TypeName;
    Verification.TypesNamed(s);
    Meanings();
    ListMeaning(s.body.toolReceiptDigests);
    ListMeaning(s.body.dischargedDigests);
    MemberMeaning(s.body.certifier);
    FieldSays(s, 0);
    FieldSays(s, 1);
    FieldSays(s, 2);
    FieldSays(s, 3);
    FieldSays(s, 4);
    FieldSays(s, 5);
    FieldSays(s, 6);
    FieldSays(s, 7);
    FieldSays(s, 8);
    FieldSays(s, 9);
    FieldSays(s, 10);
    FieldSays(s, 11);
    FieldSays(s, 12);
    FieldSays(s, 13);
    FieldSays(s, 14);
  }

  /** And its constraints, each under its own key. */
  lemma PermitConstraintsSay(s: Subject, k: string)
    requires s.body.Permit?
    ensures Printable(Encode(s)) && Meaning(Encode(s)).VObj? && "constraints" in Meaning(Encode(s)).m
    ensures var c := Meaning(Encode(s)).m["constraints"];
      && c.VObj? && (k in c.m <==> k in s.body.constraints)
      && (k in c.m && s.body.constraints[k].Text? ==> c.m[k] == J.VStr(s.body.constraints[k].s))
      && (k in c.m && s.body.constraints[k].Texts? ==> Some(c.m[k]) == List(s.body.constraints[k].ss))
  {
    FieldSays(s, 10);
    hide Encode, ConstraintItems, Str1, Str0, Time, Time0, Strs, PartyDict, Jkt, TypeName, IntText;
    ConstraintsLookup(s.body.constraints, k);
    if k in s.body.constraints && s.body.constraints[k].Texts? { ListMeaning(s.body.constraints[k].ss); }
  }
}
