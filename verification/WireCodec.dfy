/** The dicts wire objects are, field by field; and the proof that they tell all subjects apart. */
module WireCodec {
  import opened Prelude
  import opened Text
  import opened Canonical
  import opened RoundTrip
  import opened Wire
  import D = Digests
  import J = JsonReader
  import K = KeyOrder
  import E = EffectDigests

  /** A field that is written only when it has a value. */
  type Field = (string, Option<Json>)

  function Str1(s: string): Option<Json> { Some(Str(s)) }
  function Str0(s: Option<string>): Option<Json> { if s.Some? then Some(Str(s.value)) else None }
  function Strs(ss: seq<string>): Option<Json> { Some(Arr(StrList(ss))) }
  function Time(t: int): Option<Json> { Some(Str(IntText(t))) }
  function Time0(t: Option<int>): Option<Json> { if t.Some? then Some(Str(IntText(t.value))) else None }
  function PartyDict(p: Party): Option<Json> { Some(Obj([("id", Str(p.id)), ("role", Str(p.role))])) }
  function Jkt(cnf: Option<string>): Option<Json> { if cnf.Some? then Some(Obj([("jkt", Str(cnf.value))])) else None }

  function StrList(ss: seq<string>): (r: seq<Json>)
    ensures |r| == |ss|
  {
    seq(|ss|, i requires 0 <= i < |ss| => Str(ss[i]))
  }

  function ConstraintJson(c: Constraint): Json {
    match c
    case Text(s) => Str(s)
    case Texts(ss) => Arr(StrList(ss))
  }

  function ConstraintMap(m: map<string, Constraint>): map<string, Json> { map k | k in m :: ConstraintJson(m[k]) }

  /** A constraints dict in some order. */
  ghost function ConstraintItems(m: map<string, Constraint>): seq<(string, Json)> { E.MapItems(ConstraintMap(m)) }

  function Count(t: WireType): nat {
    match t
    case StageReceiptType => 16
    case HumanApprovalType => 12
    case PermitType => 15
    case ToolReceiptType => 17
    case ReconciliationType => 20
    case DischargeType => 12
    case CertificateType => 15
  }

  /** The names of the fields of each type of object, shorter names first. */
  function Names(t: WireType): (r: seq<string>)
    ensures |r| == Count(t)
  {
    match t
    case StageReceiptType =>
      ["role", "type", "nonce", "issuer", "key_id", "reason", "run_id", "status", "issued_at", "capability",
       "expires_at", "prev_digest", "input_digest", "action_digest", "output_digest", "schema_version"]
    case HumanApprovalType =>
      ["type", "nonce", "scope", "issuer", "key_id", "run_id", "approver", "issued_at", "expires_at", "reservations",
       "schema_version", "permitted_action_digest"]
    case PermitType =>
      ["aud", "cnf", "type", "nonce", "issuer", "key_id", "run_id", "adapter", "issued_at", "expires_at",
       "constraints", "action_digest", "schema_version", "enforcement_grade", "governance_block_digest"]
    case ToolReceiptType =>
      ["tool", "type", "nonce", "issuer", "key_id", "run_id", "ended_at", "executor", "issued_at", "expires_at",
       "started_at", "dispatch_id", "prev_digest", "action_digest", "effect_digest", "schema_version",
       "arguments_digest"]
    case ReconciliationType =>
      ["type", "nonce", "state", "issuer", "key_id", "reason", "run_id", "certified", "issued_at", "residuals",
       "expires_at", "action_digest", "open_receipts", "schema_version", "failed_receipts", "invalid_receipts",
       "missing_receipts", "discharged_obligations", "intended_effects_digest", "observed_effects_digest"]
    case DischargeType =>
      ["type", "nonce", "issuer", "key_id", "run_id", "issued_at", "expires_at", "prev_digest", "action_digest",
       "discharged_by", "obligation_id", "schema_version"]
    case CertificateType =>
      ["type", "nonce", "issuer", "key_id", "run_id", "certifier", "issued_at", "expires_at", "prev_digest",
       "action_digest", "permit_digest", "schema_version", "tool_receipt_digests", "reconciliation_digest",
       "discharged_obligation_digests"]
  }

  /** Their values, in the same order. */
  ghost function Values(s: Subject): (r: seq<Option<Json>>)
    ensures |r| == Count(TypeOf(s.body))
  {
    var typeName := Str1(TypeName(TypeOf(s.body)));
    var version := Str1("1.0.0");
    match s.body
    case StageReceipt(role, capability, status, action, input, output, reason, prev) =>
      [Str1(role), typeName, Str1(s.nonce), Str1(s.issuer), Str1(s.keyId), Str0(reason), Str1(s.runId), Str1(status),
       Time(s.issuedAt), Str1(capability), Time0(s.expiresAt), Str0(prev), Str1(input), Str1(action), Str0(output),
       version]
    case HumanApproval(approver, action, scope, reservations) =>
      [typeName, Str1(s.nonce), Str1(scope), Str1(s.issuer), Str1(s.keyId), Str1(s.runId), PartyDict(approver),
       Time(s.issuedAt), Time0(s.expiresAt), Strs(reservations), version, Str1(action)]
    case Permit(action, grade, adapter, constraints, aud, cnf, governance) =>
      [Str0(aud), Jkt(cnf), typeName, Str1(s.nonce), Str1(s.issuer), Str1(s.keyId), Str1(s.runId), Str1(adapter),
       Time(s.issuedAt), Time0(s.expiresAt), Some(Obj(ConstraintItems(constraints))), Str1(action), version,
       Str1(grade), Str0(governance)]
    case ToolReceipt(tool, arguments, effect, started, ended, executor, dispatch, action, prev) =>
      [Str1(tool), typeName, Str1(s.nonce), Str1(s.issuer), Str1(s.keyId), Str1(s.runId), Time(ended),
       PartyDict(executor), Time(s.issuedAt), Time0(s.expiresAt), Time(started), Str1(dispatch), Str0(prev),
       Str1(action), Str1(effect), version, Str1(arguments)]
    case Reconciliation(state, certified, action, missing, invalid, residuals, reason, intended, observed) =>
      [typeName, Str1(s.nonce), Str1(state), Str1(s.issuer), Str1(s.keyId), Str1(reason), Str1(s.runId),
       Some(Bool(certified)), Time(s.issuedAt), Strs(residuals), Time0(s.expiresAt), Str1(action), Strs([]), version,
       Strs([]), Strs(invalid), Strs(missing), Strs([]), Str1(intended), Str1(observed)]
    case Discharge(obligation, action, dischargedBy, prev) =>
      [typeName, Str1(s.nonce), Str1(s.issuer), Str1(s.keyId), Str1(s.runId), Time(s.issuedAt), Time0(s.expiresAt),
       Str0(prev), Str1(action), PartyDict(dischargedBy), Str1(obligation), version]
    case Certificate(action, permit, reconciliation, receipts, discharged, certifier, prev) =>
      [typeName, Str1(s.nonce), Str1(s.issuer), Str1(s.keyId), Str1(s.runId), PartyDict(certifier), Time(s.issuedAt),
       Time0(s.expiresAt), Str0(prev), Str1(action), Str1(permit), version, Strs(receipts), Str1(reconciliation),
       Strs(discharged)]
  }

  ghost function Fields(s: Subject): (r: seq<Field>)
    ensures |r| == |Values(s)|
  {
    seq(|Values(s)|, i requires 0 <= i < |Values(s)| => (Names(TypeOf(s.body))[i], Values(s)[i]))
  }

  /** The items of the fields that have a value. */
  function Present(fields: seq<Field>): seq<(string, Json)> {
    if fields == [] then []
    else (if fields[0].1.Some? then [(fields[0].0, fields[0].1.value)] else []) + Present(fields[1..])
  }

  ghost function Encode(s: Subject): Json { Obj(Present(Fields(s))) }

  // ---- names are distinct ----

  /** Shorter, or of one length and earlier by one of the first two letters. */
  predicate Before(a: string, b: string) {
    |a| < |b| || (|a| == |b| >= 2 && (a[0] < b[0] || (a[0] == b[0] && a[1] < b[1])))
  }

  lemma BeforeTransitive(a: string, b: string, c: string)
    requires Before(a, b) && Before(b, c)
    ensures Before(a, c) && a != c
  {}

  ghost predicate Ranked(names: seq<string>) {
    forall i :: 0 < i < |names| ==> Before(names[i - 1], names[i])
  }

  lemma {:induction false} RankedBefore(names: seq<string>, i: nat, j: nat)
    requires Ranked(names) && i < j < |names|
    ensures Before(names[i], names[j])
    decreases j - i
  {
    if i + 1 < j {
      RankedBefore(names, i, j - 1);
      BeforeTransitive(names[i], names[j - 1], names[j]);
    }
  }

  lemma StageReceiptRanked()
    ensures Ranked(Names(StageReceiptType))
  {
    var n := Names(StageReceiptType);
    assert Before(n[0], n[1]);
    assert Before(n[1], n[2]);
    assert Before(n[2], n[3]);
    assert Before(n[3], n[4]);
    assert Before(n[4], n[5]);
    assert Before(n[5], n[6]);
    assert Before(n[6], n[7]);
    assert Before(n[7], n[8]);
    assert Before(n[8], n[9]);
    assert Before(n[9], n[10]);
    assert Before(n[10], n[11]);
    assert Before(n[11], n[12]);
    assert Before(n[12], n[13]);
    assert Before(n[13], n[14]);
    assert Before(n[14], n[15]);
  }

  lemma HumanApprovalRanked()
    ensures Ranked(Names(HumanApprovalType))
  {
    var n := Names(HumanApprovalType);
    assert Before(n[0], n[1]);
    assert Before(n[1], n[2]);
    assert Before(n[2], n[3]);
    assert Before(n[3], n[4]);
    assert Before(n[4], n[5]);
    assert Before(n[5], n[6]);
    assert Before(n[6], n[7]);
    assert Before(n[7], n[8]);
    assert Before(n[8], n[9]);
    assert Before(n[9], n[10]);
    assert Before(n[10], n[11]);
  }

  lemma PermitRanked()
    ensures Ranked(Names(PermitType))
  {
    var n := Names(PermitType);
    assert Before(n[0], n[1]);
    assert Before(n[1], n[2]);
    assert Before(n[2], n[3]);
    assert Before(n[3], n[4]);
    assert Before(n[4], n[5]);
    assert Before(n[5], n[6]);
    assert Before(n[6], n[7]);
    assert Before(n[7], n[8]);
    assert Before(n[8], n[9]);
    assert Before(n[9], n[10]);
    assert Before(n[10], n[11]);
    assert Before(n[11], n[12]);
    assert Before(n[12], n[13]);
    assert Before(n[13], n[14]);
  }

  lemma ToolReceiptRanked()
    ensures Ranked(Names(ToolReceiptType))
  {
    var n := Names(ToolReceiptType);
    assert Before(n[0], n[1]);
    assert Before(n[1], n[2]);
    assert Before(n[2], n[3]);
    assert Before(n[3], n[4]);
    assert Before(n[4], n[5]);
    assert Before(n[5], n[6]);
    assert Before(n[6], n[7]);
    assert Before(n[7], n[8]);
    assert Before(n[8], n[9]);
    assert Before(n[9], n[10]);
    assert Before(n[10], n[11]);
    assert Before(n[11], n[12]);
    assert Before(n[12], n[13]);
    assert Before(n[13], n[14]);
    assert Before(n[14], n[15]);
    assert Before(n[15], n[16]);
  }

  lemma ReconciliationRanked()
    ensures Ranked(Names(ReconciliationType))
  {
    var n := Names(ReconciliationType);
    assert Before(n[0], n[1]);
    assert Before(n[1], n[2]);
    assert Before(n[2], n[3]);
    assert Before(n[3], n[4]);
    assert Before(n[4], n[5]);
    assert Before(n[5], n[6]);
    assert Before(n[6], n[7]);
    assert Before(n[7], n[8]);
    assert Before(n[8], n[9]);
    assert Before(n[9], n[10]);
    assert Before(n[10], n[11]);
    assert Before(n[11], n[12]);
    assert Before(n[12], n[13]);
    assert Before(n[13], n[14]);
    assert Before(n[14], n[15]);
    assert Before(n[15], n[16]);
    assert Before(n[16], n[17]);
    assert Before(n[17], n[18]);
    assert Before(n[18], n[19]);
  }

  lemma DischargeRanked()
    ensures Ranked(Names(DischargeType))
  {
    var n := Names(DischargeType);
    assert Before(n[0], n[1]);
    assert Before(n[1], n[2]);
    assert Before(n[2], n[3]);
    assert Before(n[3], n[4]);
    assert Before(n[4], n[5]);
    assert Before(n[5], n[6]);
    assert Before(n[6], n[7]);
    assert Before(n[7], n[8]);
    assert Before(n[8], n[9]);
    assert Before(n[9], n[10]);
    assert Before(n[10], n[11]);
  }

  lemma CertificateRanked()
    ensures Ranked(Names(CertificateType))
  {
    var n := Names(CertificateType);
    assert Before(n[0], n[1]);
    assert Before(n[1], n[2]);
    assert Before(n[2], n[3]);
    assert Before(n[3], n[4]);
    assert Before(n[4], n[5]);
    assert Before(n[5], n[6]);
    assert Before(n[6], n[7]);
    assert Before(n[7], n[8]);
    assert Before(n[8], n[9]);
    assert Before(n[9], n[10]);
    assert Before(n[10], n[11]);
    assert Before(n[11], n[12]);
    assert Before(n[12], n[13]);
    assert Before(n[13], n[14]);
  }

  lemma NamesDistinct(t: WireType)
    ensures forall i, j :: 0 <= i < j < Count(t) ==> Names(t)[i] != Names(t)[j]
  {
    hide Names, Before;
    match t {
      case StageReceiptType => StageReceiptRanked();
      case HumanApprovalType => HumanApprovalRanked();
      case PermitType => PermitRanked();
      case ToolReceiptType => ToolReceiptRanked();
      case ReconciliationType => ReconciliationRanked();
      case DischargeType => DischargeRanked();
      case CertificateType => CertificateRanked();
    }
    forall i, j | 0 <= i < j < Count(t) ensures Names(t)[i] != Names(t)[j] {
      RankedBefore(Names(t), i, j);
      BeforeDiffers(Names(t)[i], Names(t)[j]);
    }
  }

  lemma BeforeDiffers(a: string, b: string)
    requires Before(a, b)
    ensures a != b
  {}

  // ---- dicts that leave fields out ----

  ghost predicate NamesApart(fields: seq<Field>) {
    forall i, j :: 0 <= i < j < |fields| ==> fields[i].0 != fields[j].0
  }

  /** What is present is exactly what the fields hold. */
  lemma {:induction false} PresentMembers(fields: seq<Field>)
    ensures forall x :: x in Present(fields) <==> (x.0, Some(x.1)) in fields
  {
    if fields != [] {
      var first, rest := fields[0], fields[1..];
      PresentMembers(rest);
      assert forall f :: f in fields <==> f == first || f in rest by { assert fields == [first] + rest; }
    }
  }

  lemma NamesApartTail(fields: seq<Field>)
    requires NamesApart(fields) && fields != []
    ensures NamesApart(fields[1..])
    ensures forall f :: f in fields[1..] ==> f.0 != fields[0].0
  {
    var rest := fields[1..];
    assert forall i :: 0 <= i < |rest| ==> rest[i] == fields[i + 1];
  }

  lemma {:induction false} PresentItems(fields: seq<Field>)
    requires NamesApart(fields)
    ensures forall x :: x in Present(fields) <==> (x.0, Some(x.1)) in fields
    ensures K.KeysDistinct(Present(fields))
  {
    PresentMembers(fields);
    if fields != [] {
      NamesApartTail(fields);
      var rest := fields[1..];
      PresentItems(rest);
      var tail := Present(rest);
      forall j | 0 <= j < |tail| ensures tail[j].0 != fields[0].0 { assert tail[j] in tail; }
    }
  }

  ghost predicate FieldOk(f: Option<Json>) { f.Some? ==> Printable(f.value) && WellFormed(f.value) }

  ghost predicate FieldsOk(fields: seq<Field>) {
    NamesApart(fields) && forall i :: 0 <= i < |fields| ==> FieldOk(fields[i].1)
  }

  function FieldMeaning(f: Option<Json>): Option<J.Value>
    requires f.Some? ==> Printable(f.value)
  {
    if f.Some? then Some(Meaning(f.value)) else None
  }

  lemma DictOk(fields: seq<Field>)
    requires FieldsOk(fields)
    ensures WellFormed(Obj(Present(fields))) && Printable(Obj(Present(fields)))
  {
    PresentItems(fields);
    var items := Present(fields);
    forall i | 0 <= i < |items| ensures WellFormed(items[i].1) && Printable(items[i].1) {
      assert items[i] in items;
      var j :| 0 <= j < |fields| && fields[j] == (items[i].0, Some(items[i].1));
      assert FieldOk(fields[j].1);
    }
  }

  lemma NameAbsent(fields: seq<Field>, i: nat)
    requires NamesApart(fields) && i < |fields| && fields[i].1.None?
    ensures forall x :: x in Present(fields) ==> x.0 != fields[i].0
  {
    hide Present;
    PresentItems(fields);
    forall x | x in Present(fields) ensures x.0 != fields[i].0 {
      var j :| 0 <= j < |fields| && fields[j] == (x.0, Some(x.1));
      assert fields[j].1 != fields[i].1;
    }
  }

  /** A dict says, under each name, what the field says, and nothing where the field was left out. */
  lemma FieldLookup(fields: seq<Field>, i: nat)
    requires FieldsOk(fields) && i < |fields| && Printable(Obj(Present(fields)))
    ensures var m := Meaning(Obj(Present(fields)));
      m.VObj? && FieldMeaning(fields[i].1) == if fields[i].0 in m.m then Some(m.m[fields[i].0]) else None
  {
    hide J.MapOf, WellFormed, Present, NamesApart;
    PresentItems(fields);
    var items := Present(fields);
    var ms := MeaningItems(items);
    MapOfItems(ms);
    var name := fields[i].0;
    if fields[i].1.Some? {
      var k :| 0 <= k < |items| && items[k] == (name, fields[i].1.value);
      assert ms[k] == (name, Meaning(fields[i].1.value));
    } else {
      NameAbsent(fields, i);
      forall k | 0 <= k < |ms| ensures ms[k].0 != name { assert items[k] in items; }
    }
  }

  // ---- every field is JSON ----

  lemma StrsOk(ss: seq<string>)
    ensures FieldOk(Strs(ss))
  {}

  lemma PartyOk(p: Party)
    ensures FieldOk(PartyDict(p))
  {
    assert |"id"| == 2 && |"role"| == 4;
  }

  lemma ConstraintsMembers(m: map<string, Constraint>)
    ensures forall x :: x in ConstraintItems(m) <==> x.0 in m && x.1 == ConstraintJson(m[x.0])
    ensures K.KeysDistinct(ConstraintItems(m))
  {
    hide ConstraintJson;
    E.MapItemsList(ConstraintMap(m));
  }

  lemma ConstraintsOk(m: map<string, Constraint>)
    ensures FieldOk(Some(Obj(ConstraintItems(m))))
  {
    hide ConstraintItems;
    ConstraintsMembers(m);
    var items := ConstraintItems(m);
    forall i | 0 <= i < |items| ensures Printable(items[i].1) && WellFormed(items[i].1) {
      assert items[i] in items;
      ConstraintOk(m[items[i].0]);
    }
  }

  lemma ConstraintOk(c: Constraint)
    ensures Printable(ConstraintJson(c)) && WellFormed(ConstraintJson(c))
  {}

  /** Fields made of the plain kinds need no more. */
  lemma PlainFieldsOk()
    ensures forall x: string :: FieldOk(Str1(x))
    ensures forall x: Option<string> :: FieldOk(Str0(x))
    ensures forall t: int :: FieldOk(Time(t))
    ensures forall t: Option<int> :: FieldOk(Time0(t))
  {
    hide FieldOk, Str1, Str0, Time, Time0;
    forall x ensures FieldOk(Str1(x)) { PlainOk(x); }
    forall x ensures FieldOk(Str0(x)) { OptionalOk(x); }
    forall t ensures FieldOk(Time(t)) { TimeOk(t); }
    forall t ensures FieldOk(Time0(t)) { Time0Ok(t); }
  }

  ghost predicate ValuesFine(s: Subject) { forall i :: 0 <= i < |Values(s)| ==> FieldOk(Values(s)[i]) }

  lemma StageReceiptFine(s: Subject)
    requires s.body.StageReceipt?
    ensures ValuesFine(s)
  {
    hide StrList, ConstraintItems, IntText, TypeName, FieldOk, PartyDict, Strs, Str1, Str0, Time, Time0, Jkt;
    PlainFieldsOk();
  }

  lemma HumanApprovalFine(s: Subject)
    requires s.body.HumanApproval?
    ensures ValuesFine(s)
  {
    hide StrList, ConstraintItems, IntText, TypeName, FieldOk, PartyDict, Strs, Str1, Str0, Time, Time0, Jkt;
    PlainFieldsOk();
    PartyOk(s.body.approver);
    StrsOk(s.body.reservations);
  }

  lemma PermitFine(s: Subject)
    requires s.body.Permit?
    ensures ValuesFine(s)
  {
    hide StrList, ConstraintItems, IntText, TypeName, FieldOk, PartyDict, Strs, Str1, Str0, Time, Time0, Jkt;
    PlainFieldsOk();
    ConstraintsOk(s.body.constraints);
    JktOk(s.body.cnf);
  }

  lemma ToolReceiptFine(s: Subject)
    requires s.body.ToolReceipt?
    ensures ValuesFine(s)
  {
    hide StrList, ConstraintItems, IntText, TypeName, FieldOk, PartyDict, Strs, Str1, Str0, Time, Time0, Jkt;
    PlainFieldsOk();
    PartyOk(s.body.executor);
  }

  lemma ReconciliationFine(s: Subject)
    requires s.body.Reconciliation?
    ensures ValuesFine(s)
  {
    hide StrList, ConstraintItems, IntText, TypeName, FieldOk, PartyDict, Strs, Str1, Str0, Time, Time0, Jkt;
    PlainFieldsOk();
    StrsOk(s.body.missing);
    StrsOk(s.body.invalid);
    StrsOk(s.body.residuals);
    StrsOk([]);
    BoolOk(s.body.certified);
  }

  lemma DischargeFine(s: Subject)
    requires s.body.Discharge?
    ensures ValuesFine(s)
  {
    hide StrList, ConstraintItems, IntText, TypeName, FieldOk, PartyDict, Strs, Str1, Str0, Time, Time0, Jkt;
    PlainFieldsOk();
    PartyOk(s.body.dischargedBy);
  }

  lemma CertificateFine(s: Subject)
    requires s.body.Certificate?
    ensures ValuesFine(s)
  {
    hide StrList, ConstraintItems, IntText, TypeName, FieldOk, PartyDict, Strs, Str1, Str0, Time, Time0, Jkt;
    PlainFieldsOk();
    StrsOk(s.body.toolReceiptDigests);
    StrsOk(s.body.dischargedDigests);
    PartyOk(s.body.certifier);
  }

  lemma ValuesOk(s: Subject)
    ensures ValuesFine(s)
  {
    hide ValuesFine;
    match s.body {
      case StageReceipt(_, _, _, _, _, _, _, _) => StageReceiptFine(s);
      case HumanApproval(_, _, _, _) => HumanApprovalFine(s);
      case Permit(_, _, _, _, _, _, _) => PermitFine(s);
      case ToolReceipt(_, _, _, _, _, _, _, _, _) => ToolReceiptFine(s);
      case Reconciliation(_, _, _, _, _, _, _, _, _) => ReconciliationFine(s);
      case Discharge(_, _, _, _) => DischargeFine(s);
      case Certificate(_, _, _, _, _, _, _) => CertificateFine(s);
    }
  }

  lemma PlainOk(x: string) ensures FieldOk(Str1(x)) {}
  lemma OptionalOk(x: Option<string>) ensures FieldOk(Str0(x)) {}
  lemma TimeOk(t: int) ensures FieldOk(Time(t)) {}
  lemma Time0Ok(t: Option<int>) ensures FieldOk(Time0(t)) {}
  lemma JktOk(c: Option<string>) ensures FieldOk(Jkt(c)) {}
  lemma BoolOk(b: bool) ensures FieldOk(Some(Bool(b))) {}

  lemma SubjectFieldsOk(s: Subject)
    ensures FieldsOk(Fields(s)) && |Fields(s)| == Count(TypeOf(s.body))
  {
    hide Names, Values, FieldOk;
    NamesDistinct(TypeOf(s.body));
    ValuesOk(s);
  }

  // ---- every field can be read back ----

  lemma PlainBack(a: string, b: string)
    requires FieldMeaning(Str1(a)) == FieldMeaning(Str1(b))
    ensures a == b
  {}

  lemma OptionalBack(a: Option<string>, b: Option<string>)
    requires FieldMeaning(Str0(a)) == FieldMeaning(Str0(b))
    ensures a == b
  {}

  lemma IntTextSign(a: int)
    ensures if a < 0 then IntText(a)[0] == '-' && IntText(a)[1..] == NatText(-a)
            else IsDigit(IntText(a)[0]) && IntText(a) == NatText(a)
  {
    hide NatText;
  }

  lemma IntTextBack(a: int, b: int)
    requires IntText(a) == IntText(b)
    ensures a == b
  {
    hide NatText, NatValue;
    var x, y := if a < 0 then -a else a, if b < 0 then -b else b;
    NatTextValue(x);
    NatTextValue(y);
    IntTextSign(a);
    IntTextSign(b);
  }

  lemma TimeBack(a: int, b: int)
    requires FieldMeaning(Time(a)) == FieldMeaning(Time(b))
    ensures a == b
  {
    hide IntText;
    IntTextBack(a, b);
  }

  lemma Time0Back(a: Option<int>, b: Option<int>)
    requires FieldMeaning(Time0(a)) == FieldMeaning(Time0(b))
    ensures a == b
  {
    hide IntText;
    if a.Some? && b.Some? { IntTextBack(a.value, b.value); }
  }

  lemma StrListMeaning(ss: seq<string>, i: nat)
    requires i < |ss|
    ensures Printable(Arr(StrList(ss)))
    ensures var m := Meaning(Arr(StrList(ss))); m.VArr? && |m.vs| == |ss| && m.vs[i] == J.VStr(ss[i])
  {
    assert Meaning(Str(ss[i])) == J.VStr(ss[i]);
  }

  lemma StrListBack(a: seq<string>, b: seq<string>)
    requires Printable(Arr(StrList(a))) && Printable(Arr(StrList(b)))
    requires Meaning(Arr(StrList(a))) == Meaning(Arr(StrList(b)))
    ensures a == b
  {
    assert |MeaningAll(StrList(a))| == |a| && |MeaningAll(StrList(b))| == |b|;
    hide StrList;
    assert |a| == |b|;
    forall i | 0 <= i < |a| ensures a[i] == b[i] {
      hide Meaning;
      StrListMeaning(a, i);
      StrListMeaning(b, i);
    }
  }

  lemma StrsBack(a: seq<string>, b: seq<string>)
    requires FieldOk(Strs(a)) && FieldOk(Strs(b)) && FieldMeaning(Strs(a)) == FieldMeaning(Strs(b))
    ensures a == b
  {
    hide StrList, Meaning;
    StrListBack(a, b);
  }

  lemma DictMeaning(items: seq<(string, Json)>, i: nat)
    requires K.KeysDistinct(items) && Printable(Obj(items)) && i < |items|
    ensures var m := Meaning(Obj(items));
      m.VObj? && items[i].0 in m.m && m.m[items[i].0] == Meaning(items[i].1)
  {
    hide J.MapOf;
    var ms := MeaningItems(items);
    MapOfItems(ms);
    assert ms[i] == (items[i].0, Meaning(items[i].1));
  }

  lemma PartyBack(a: Party, b: Party)
    requires FieldOk(PartyDict(a)) && FieldOk(PartyDict(b)) && FieldMeaning(PartyDict(a)) == FieldMeaning(PartyDict(b))
    ensures a == b
  {
    assert |"id"| == 2 && |"role"| == 4;
    var x, y := [("id", Str(a.id)), ("role", Str(a.role))], [("id", Str(b.id)), ("role", Str(b.role))];
    assert Meaning(Str(a.id)) == J.VStr(a.id) && Meaning(Str(b.id)) == J.VStr(b.id);
    assert Meaning(Str(a.role)) == J.VStr(a.role) && Meaning(Str(b.role)) == J.VStr(b.role);
    hide Meaning;
    DictMeaning(x, 0);
    DictMeaning(y, 0);
    DictMeaning(x, 1);
    DictMeaning(y, 1);
  }

  lemma JktBack(a: Option<string>, b: Option<string>)
    requires FieldOk(Jkt(a)) && FieldOk(Jkt(b)) && FieldMeaning(Jkt(a)) == FieldMeaning(Jkt(b))
    ensures a == b
  {
    if a.Some? && b.Some? {
      var x, y := [("jkt", Str(a.value))], [("jkt", Str(b.value))];
      assert Meaning(Str(a.value)) == J.VStr(a.value) && Meaning(Str(b.value)) == J.VStr(b.value);
      hide Meaning;
      DictMeaning(x, 0);
      DictMeaning(y, 0);
    }
  }

  lemma ConstraintBack(a: Constraint, b: Constraint)
    requires Printable(ConstraintJson(a)) && Printable(ConstraintJson(b))
    requires Meaning(ConstraintJson(a)) == Meaning(ConstraintJson(b))
    ensures a == b
  {
    if a.Texts? && b.Texts? { StrListBack(a.ss, b.ss); }
  }

  /** What a constraints dict says under one key. */
  lemma ConstraintsLookup(m: map<string, Constraint>, k: string)
    requires Printable(Obj(ConstraintItems(m)))
    ensures var v := Meaning(Obj(ConstraintItems(m)));
      v.VObj? && (k in v.m <==> k in m)
      && (k in m ==> Printable(ConstraintJson(m[k])) && v.m[k] == Meaning(ConstraintJson(m[k])))
  {
    hide J.MapOf, ConstraintJson, ConstraintItems;
    ConstraintsMembers(m);
    var items := ConstraintItems(m);
    var ms := MeaningItems(items);
    MapOfItems(ms);
    assert forall j :: 0 <= j < |items| ==> items[j] in items && ms[j] == (items[j].0, Meaning(items[j].1));
    if k in m {
      assert (k, ConstraintJson(m[k])) in items;
    }
  }

  lemma ConstraintsBack(a: map<string, Constraint>, b: map<string, Constraint>)
    requires FieldOk(Some(Obj(ConstraintItems(a)))) && FieldOk(Some(Obj(ConstraintItems(b))))
    requires FieldMeaning(Some(Obj(ConstraintItems(a)))) == FieldMeaning(Some(Obj(ConstraintItems(b))))
    ensures a == b
  {
    hide ConstraintItems, Meaning, ConstraintJson;
    forall k ensures k in a <==> k in b
      ensures k in a && k in b ==> a[k] == b[k]
    {
      ConstraintsLookup(a, k);
      ConstraintsLookup(b, k);
      if k in a && k in b { ConstraintBack(a[k], b[k]); }
    }
  }
  // ---- the codec is sound ----

  lemma TypeNameBack(t: WireType, u: WireType)
    requires TypeName(t) == TypeName(u)
    ensures t == u
  {
    assert |"StageReceipt"| == 12 && |"HumanApprovalReceipt"| == 20 && |"ExecutionPermit"| == 15;
    assert |"ToolReceipt"| == 11;
    assert |"Reconciliation"| == 14 && |"ObligationDischargeReceipt"| == 26 && |"OversightCertificate"| == 20;
    assert "HumanApprovalReceipt"[0] != "OversightCertificate"[0];
  }

  /** Where a type's list has the field `type`. */
  function TypeAt(t: WireType): (i: nat)
    ensures i < Count(t)
  {
    match t
    case StageReceiptType | ToolReceiptType => 1
    case PermitType => 2
    case _ => 0
  }

  lemma TypeField(s: Subject)
    ensures var t := TypeOf(s.body); Names(t)[TypeAt(t)] == "type" && Values(s)[TypeAt(t)] == Str1(TypeName(t))
  {
    hide Names;
    TypeNamed(TypeOf(s.body));
    hide Str1, Str0, Strs, Time, Time0, Jkt, PartyDict, TypeName, StrList, ConstraintItems, IntText;
  }

  lemma TypeNamed(t: WireType)
    ensures Names(t)[TypeAt(t)] == "type"
  {}

  lemma SameType(s: Subject, t: Subject)
    requires Printable(Encode(s)) && Printable(Encode(t)) && Meaning(Encode(s)) == Meaning(Encode(t))
    ensures TypeOf(s.body) == TypeOf(t.body)
  {
    hide Names, Values, TypeName, Meaning, FieldsOk, Present;
    SubjectFieldsOk(s);
    SubjectFieldsOk(t);
    TypeField(s);
    TypeField(t);
    FieldLookup(Fields(s), TypeAt(TypeOf(s.body)));
    FieldLookup(Fields(t), TypeAt(TypeOf(t.body)));
    PlainBack(TypeName(TypeOf(s.body)), TypeName(TypeOf(t.body)));
    TypeNameBack(TypeOf(s.body), TypeOf(t.body));
  }

  /** The same field of two dicts of one type, with one meaning. */
  ghost predicate SameField(s: Subject, t: Subject, i: nat)
    requires TypeOf(s.body) == TypeOf(t.body) && i < Count(TypeOf(s.body))
  {
    FieldOk(Values(s)[i]) && FieldOk(Values(t)[i]) && FieldMeaning(Values(s)[i]) == FieldMeaning(Values(t)[i])
  }

  lemma SameFields(s: Subject, t: Subject, i: nat)
    requires Printable(Encode(s)) && Printable(Encode(t)) && Meaning(Encode(s)) == Meaning(Encode(t))
    requires TypeOf(s.body) == TypeOf(t.body) && i < Count(TypeOf(s.body))
    ensures SameField(s, t, i)
  {
    hide Names, Values, Meaning, Present, FieldOk, FieldMeaning;
    SubjectFieldsOk(s);
    SubjectFieldsOk(t);
    FieldLookup(Fields(s), i);
    FieldLookup(Fields(t), i);
  }

  /** Reads the fields every type has, at their places in the lists. */
  lemma CommonBack(s: Subject, t: Subject, nonce: nat, issuer: nat, keyId: nat, runId: nat, issued: nat, expires: nat)
    requires TypeOf(s.body) == TypeOf(t.body)
    requires nonce < Count(TypeOf(s.body)) && issuer < Count(TypeOf(s.body)) && keyId < Count(TypeOf(s.body))
    requires runId < Count(TypeOf(s.body)) && issued < Count(TypeOf(s.body)) && expires < Count(TypeOf(s.body))
    requires forall i :: 0 <= i < Count(TypeOf(s.body)) ==> SameField(s, t, i)
    requires Values(s)[nonce] == Str1(s.nonce) && Values(t)[nonce] == Str1(t.nonce)
    requires Values(s)[issuer] == Str1(s.issuer) && Values(t)[issuer] == Str1(t.issuer)
    requires Values(s)[keyId] == Str1(s.keyId) && Values(t)[keyId] == Str1(t.keyId)
    requires Values(s)[runId] == Str1(s.runId) && Values(t)[runId] == Str1(t.runId)
    requires Values(s)[issued] == Time(s.issuedAt) && Values(t)[issued] == Time(t.issuedAt)
    requires Values(s)[expires] == Time0(s.expiresAt) && Values(t)[expires] == Time0(t.expiresAt)
    ensures s == t.(body := s.body)
  {
    hide Values, Str1, Time, Time0, FieldMeaning, FieldOk;
    assert SameField(s, t, nonce) && SameField(s, t, issuer) && SameField(s, t, keyId) && SameField(s, t, runId);
    assert SameField(s, t, issued) && SameField(s, t, expires);
    PlainBack(s.nonce, t.nonce);
    PlainBack(s.issuer, t.issuer);
    PlainBack(s.keyId, t.keyId);
    PlainBack(s.runId, t.runId);
    TimeBack(s.issuedAt, t.issuedAt);
    Time0Back(s.expiresAt, t.expiresAt);
  }

  lemma BoolBack(a: bool, b: bool)
    requires FieldMeaning(Some(Bool(a))) == FieldMeaning(Some(Bool(b)))
    ensures a == b
  {}

  lemma StageReceiptBack(s: Subject, t: Subject)
    requires s.body.StageReceipt? && t.body.StageReceipt?
    requires forall i :: 0 <= i < Count(TypeOf(s.body)) ==> SameField(s, t, i)
    ensures s == t
  {
    hide Names, Str1, Str0, Strs, Time, Time0, Jkt, PartyDict, ConstraintItems, TypeName, FieldMeaning, FieldOk;
    CommonBack(s, t, 2, 3, 4, 6, 8, 10);
    assert SameField(s, t, 0) && SameField(s, t, 5) && SameField(s, t, 7) && SameField(s, t, 9);
    assert SameField(s, t, 11) && SameField(s, t, 12) && SameField(s, t, 13) && SameField(s, t, 14);
    PlainBack(s.body.role, t.body.role);
    OptionalBack(s.body.stageReason, t.body.stageReason);
    PlainBack(s.body.status, t.body.status);
    PlainBack(s.body.capability, t.body.capability);
    OptionalBack(s.body.stagePrev, t.body.stagePrev);
    PlainBack(s.body.inputDigest, t.body.inputDigest);
    PlainBack(s.body.stageAction, t.body.stageAction);
    OptionalBack(s.body.outputDigest, t.body.outputDigest);
  }

  lemma HumanApprovalBack(s: Subject, t: Subject)
    requires s.body.HumanApproval? && t.body.HumanApproval?
    requires forall i :: 0 <= i < Count(TypeOf(s.body)) ==> SameField(s, t, i)
    ensures s == t
  {
    hide Names, Str1, Str0, Strs, Time, Time0, Jkt, PartyDict, ConstraintItems, TypeName, FieldMeaning, FieldOk;
    CommonBack(s, t, 1, 3, 4, 5, 7, 8);
    assert SameField(s, t, 2) && SameField(s, t, 6) && SameField(s, t, 9) && SameField(s, t, 11);
    PlainBack(s.body.scope, t.body.scope);
    PartyBack(s.body.approver, t.body.approver);
    StrsBack(s.body.reservations, t.body.reservations);
    PlainBack(s.body.permittedAction, t.body.permittedAction);
  }

  lemma PermitBack(s: Subject, t: Subject)
    requires s.body.Permit? && t.body.Permit?
    requires forall i :: 0 <= i < Count(TypeOf(s.body)) ==> SameField(s, t, i)
    ensures s == t
  {
    hide Names, Str1, Str0, Strs, Time, Time0, Jkt, PartyDict, ConstraintItems, TypeName, FieldMeaning, FieldOk;
    CommonBack(s, t, 3, 4, 5, 6, 8, 9);
    assert SameField(s, t, 0) && SameField(s, t, 1) && SameField(s, t, 7) && SameField(s, t, 10);
    assert SameField(s, t, 11) && SameField(s, t, 13) && SameField(s, t, 14);
    OptionalBack(s.body.aud, t.body.aud);
    JktBack(s.body.cnf, t.body.cnf);
    PlainBack(s.body.adapter, t.body.adapter);
    ConstraintsBack(s.body.constraints, t.body.constraints);
    PlainBack(s.body.permitAction, t.body.permitAction);
    PlainBack(s.body.grade, t.body.grade);
    OptionalBack(s.body.governanceDigest, t.body.governanceDigest);
  }

  lemma ToolReceiptBack(s: Subject, t: Subject)
    requires s.body.ToolReceipt? && t.body.ToolReceipt?
    requires forall i :: 0 <= i < Count(TypeOf(s.body)) ==> SameField(s, t, i)
    ensures s == t
  {
    hide Names, Str1, Str0, Strs, Time, Time0, Jkt, PartyDict, ConstraintItems, TypeName, FieldMeaning, FieldOk;
    CommonBack(s, t, 2, 3, 4, 5, 8, 9);
    assert SameField(s, t, 0) && SameField(s, t, 6) && SameField(s, t, 7) && SameField(s, t, 10) && SameField(s, t, 11);
    assert SameField(s, t, 12) && SameField(s, t, 13) && SameField(s, t, 14) && SameField(s, t, 16);
    PlainBack(s.body.tool, t.body.tool);
    TimeBack(s.body.endedAt, t.body.endedAt);
    PartyBack(s.body.executor, t.body.executor);
    TimeBack(s.body.startedAt, t.body.startedAt);
    PlainBack(s.body.dispatchId, t.body.dispatchId);
    OptionalBack(s.body.toolPrev, t.body.toolPrev);
    PlainBack(s.body.toolAction, t.body.toolAction);
    PlainBack(s.body.effectDigest, t.body.effectDigest);
    PlainBack(s.body.argumentsDigest, t.body.argumentsDigest);
  }

  lemma ReconciliationListsBack(s: Subject, t: Subject)
    requires s.body.Reconciliation? && t.body.Reconciliation?
    requires forall i :: 0 <= i < Count(TypeOf(s.body)) ==> SameField(s, t, i)
    ensures s.body.residuals == t.body.residuals && s.body.invalid == t.body.invalid && s.body.missing == t.body.missing
    ensures s.body.certified == t.body.certified
  {
    hide Names, Str1, Str0, Strs, Time, Time0, Jkt, PartyDict, ConstraintItems, TypeName, FieldMeaning, FieldOk;
    assert SameField(s, t, 7) && SameField(s, t, 9) && SameField(s, t, 15) && SameField(s, t, 16);
    BoolBack(s.body.certified, t.body.certified);
    StrsBack(s.body.residuals, t.body.residuals);
    StrsBack(s.body.invalid, t.body.invalid);
    StrsBack(s.body.missing, t.body.missing);
  }

  lemma ReconciliationBack(s: Subject, t: Subject)
    requires s.body.Reconciliation? && t.body.Reconciliation?
    requires forall i :: 0 <= i < Count(TypeOf(s.body)) ==> SameField(s, t, i)
    ensures s == t
  {
    hide Names, Str1, Str0, Strs, Time, Time0, Jkt, PartyDict, ConstraintItems, TypeName, FieldMeaning, FieldOk;
    ReconciliationListsBack(s, t);
    ReconciliationTextsBack(s, t);
    CommonBack(s, t, 1, 3, 4, 6, 8, 10);
  }

  lemma ReconciliationTextsBack(s: Subject, t: Subject)
    requires s.body.Reconciliation? && t.body.Reconciliation?
    requires forall i :: 0 <= i < Count(TypeOf(s.body)) ==> SameField(s, t, i)
    ensures s.body.state == t.body.state && s.body.reconAction == t.body.reconAction
    ensures s.body.reconReason == t.body.reconReason
    ensures s.body.intendedDigest == t.body.intendedDigest && s.body.observedDigest == t.body.observedDigest
  {
    hide Names, Str1, Str0, Strs, Time, Time0, Jkt, PartyDict, ConstraintItems, TypeName, FieldMeaning, FieldOk;
    assert SameField(s, t, 2) && SameField(s, t, 5) && SameField(s, t, 11) && SameField(s, t, 18);
    assert SameField(s, t, 19);
    PlainBack(s.body.state, t.body.state);
    PlainBack(s.body.reconAction, t.body.reconAction);
    PlainBack(s.body.reconReason, t.body.reconReason);
    PlainBack(s.body.intendedDigest, t.body.intendedDigest);
    PlainBack(s.body.observedDigest, t.body.observedDigest);
  }

  lemma DischargeBack(s: Subject, t: Subject)
    requires s.body.Discharge? && t.body.Discharge?
    requires forall i :: 0 <= i < Count(TypeOf(s.body)) ==> SameField(s, t, i)
    ensures s == t
  {
    hide Names, Str1, Str0, Strs, Time, Time0, Jkt, PartyDict, ConstraintItems, TypeName, FieldMeaning, FieldOk;
    CommonBack(s, t, 1, 2, 3, 4, 5, 6);
    assert SameField(s, t, 7) && SameField(s, t, 8) && SameField(s, t, 9) && SameField(s, t, 10);
    OptionalBack(s.body.dischargePrev, t.body.dischargePrev);
    PlainBack(s.body.dischargeAction, t.body.dischargeAction);
    PartyBack(s.body.dischargedBy, t.body.dischargedBy);
    PlainBack(s.body.obligationId, t.body.obligationId);
  }

  lemma CertificateBack(s: Subject, t: Subject)
    requires s.body.Certificate? && t.body.Certificate?
    requires forall i :: 0 <= i < Count(TypeOf(s.body)) ==> SameField(s, t, i)
    ensures s == t
  {
    hide Names, Str1, Str0, Strs, Time, Time0, Jkt, PartyDict, ConstraintItems, TypeName, FieldMeaning, FieldOk;
    CommonBack(s, t, 1, 2, 3, 4, 6, 7);
    assert SameField(s, t, 5) && SameField(s, t, 8) && SameField(s, t, 9) && SameField(s, t, 10);
    assert SameField(s, t, 12) && SameField(s, t, 13) && SameField(s, t, 14);
    PartyBack(s.body.certifier, t.body.certifier);
    OptionalBack(s.body.certPrev, t.body.certPrev);
    PlainBack(s.body.certAction, t.body.certAction);
    PlainBack(s.body.permitDigest, t.body.permitDigest);
    StrsBack(s.body.toolReceiptDigests, t.body.toolReceiptDigests);
    PlainBack(s.body.reconciliationDigest, t.body.reconciliationDigest);
    StrsBack(s.body.dischargedDigests, t.body.dischargedDigests);
  }

  /** Distinct subjects are distinct dicts. */
  lemma EncodeInjective(s: Subject, t: Subject)
    requires Printable(Encode(s)) && Printable(Encode(t)) && Meaning(Encode(s)) == Meaning(Encode(t))
    ensures s == t
  {
    hide Encode, SameField, Meaning, Names, Values;
    SameType(s, t);
    forall i | 0 <= i < Count(TypeOf(s.body)) ensures SameField(s, t, i) { SameFields(s, t, i); }
    match s.body {
      case StageReceipt(_, _, _, _, _, _, _, _) => StageReceiptBack(s, t);
      case HumanApproval(_, _, _, _) => HumanApprovalBack(s, t);
      case Permit(_, _, _, _, _, _, _) => PermitBack(s, t);
      case ToolReceipt(_, _, _, _, _, _, _, _, _) => ToolReceiptBack(s, t);
      case Reconciliation(_, _, _, _, _, _, _, _, _) => ReconciliationBack(s, t);
      case Discharge(_, _, _, _) => DischargeBack(s, t);
      case Certificate(_, _, _, _, _, _, _) => CertificateBack(s, t);
    }
  }

  /** The digest of a subject's dict. */
  ghost function DigestOf(sha: string -> string, s: Subject): Option<string> { D.DigestHex(sha, Encode(s)) }

  ghost function CodecOf(sha: string -> string): Codec { Codec((s: Subject) => DigestOf(sha, s), sha) }

  /** With these dicts and a collision-free hash, every subject has a digest and digests pin
      subjects: the codec the rest of the project takes as given exists. */
  lemma CodecSound(sha: string -> string)
    requires D.CollisionFree(sha)
    ensures Sound(CodecOf(sha))
  {
    hide Encode, Meaning, WellFormed, Printable, DigestOf;
    var c := CodecOf(sha);
    forall s ensures c.digest(s).Some? { DigestPinsSubject(sha, s, s); }
    forall s, t | c.digest(s) == c.digest(t) ensures s == t { DigestPinsSubject(sha, s, t); }
  }

  lemma DigestPinsSubject(sha: string -> string, s: Subject, t: Subject)
    requires D.CollisionFree(sha)
    ensures DigestOf(sha, s).Some?
    ensures DigestOf(sha, s) == DigestOf(sha, t) ==> s == t
  {
    hide Encode, Meaning, WellFormed, Printable;
    EncodeOk(s);
    EncodeOk(t);
    CanonSome(Encode(s));
    if DigestOf(sha, s) == DigestOf(sha, t) {
      D.DigestInjective(sha, Encode(s), Encode(t));
      EncodeInjective(s, t);
    }
  }

  lemma EncodeOk(s: Subject)
    ensures WellFormed(Encode(s)) && Printable(Encode(s))
  {
    SubjectFieldsOk(s);
    DictOk(Fields(s));
  }
}
