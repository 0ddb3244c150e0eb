/** Wire objects, their subjects and digests. */
module Wire {
  import opened Prelude

  datatype WireType =
    | StageReceiptType | HumanApprovalType | PermitType | ToolReceiptType
    | ReconciliationType | DischargeType | CertificateType

  function TypeName(t: WireType): string {
    match t
    case StageReceiptType => "StageReceipt"
    case HumanApprovalType => "HumanApprovalReceipt"
    case PermitType => "ExecutionPermit"
    case ToolReceiptType => "ToolReceipt"
    case ReconciliationType => "Reconciliation"
    case DischargeType => "ObligationDischargeReceipt"
    case CertificateType => "OversightCertificate"
  }

  datatype Party = Party(id: string, role: string)

  /** A value in the free-form `constraints` dict of a permit. */
  datatype Constraint = Text(s: string) | Texts(ss: seq<string>)

  datatype Body =
    | StageReceipt(role: string, capability: string, status: string, stageAction: string,
                   inputDigest: string, outputDigest: Option<string>, stageReason: Option<string>,
                   stagePrev: Option<string>)
    | HumanApproval(approver: Party, permittedAction: string, scope: string, reservations: seq<string>)
    | Permit(permitAction: string, grade: string, adapter: string, constraints: map<string, Constraint>,
             aud: Option<string>, cnf: Option<string>, governanceDigest: Option<string>)
    | ToolReceipt(tool: string, argumentsDigest: string, effectDigest: string, startedAt: int, endedAt: int,
                  executor: Party, dispatchId: string, toolAction: string, toolPrev: Option<string>)
    | Reconciliation(state: string, certified: bool, reconAction: string, missing: seq<string>,
                     invalid: seq<string>, residuals: seq<string>, reconReason: string, intendedDigest: string,
                     observedDigest: string)
    | Discharge(obligationId: string, dischargeAction: string, dischargedBy: Party, dischargePrev: Option<string>)
    | Certificate(certAction: string, permitDigest: string, reconciliationDigest: string,
                  toolReceiptDigests: seq<string>, dischargedDigests: seq<string>, certifier: Party,
                  certPrev: Option<string>)

  /** An object without `signature` and `subject_digest`: what is digested and signed. The expiry
      is None when its text is not a date-time. */
  datatype Subject = Subject(issuer: string, issuedAt: int, expiresAt: Option<int>, runId: string,
                             nonce: string, keyId: string, body: Body)

  datatype Object = Object(subject: Subject, subjectDigest: string, signature: string)

  /** What a caller may pass where a wire object is expected. */
  datatype Item = NotADict | Dict(obj: Object)

  function TypeOf(b: Body): WireType {
    match b
    case StageReceipt(_, _, _, _, _, _, _, _) => StageReceiptType
    case HumanApproval(_, _, _, _) => HumanApprovalType
    case Permit(_, _, _, _, _, _, _) => PermitType
    case ToolReceipt(_, _, _, _, _, _, _, _, _) => ToolReceiptType
    case Reconciliation(_, _, _, _, _, _, _, _, _) => ReconciliationType
    case Discharge(_, _, _, _) => DischargeType
    case Certificate(_, _, _, _, _, _, _) => CertificateType
  }

  /** `obj.get("action_digest") or obj.get("permitted_action_digest")`. */
  function ActionOf(b: Body): string {
    match b
    case StageReceipt(_, _, _, a, _, _, _, _) => a
    case HumanApproval(_, a, _, _) => a
    case Permit(a, _, _, _, _, _, _) => a
    case ToolReceipt(_, _, _, _, _, _, _, a, _) => a
    case Reconciliation(_, _, a, _, _, _, _, _, _) => a
    case Discharge(_, a, _, _) => a
    case Certificate(a, _, _, _, _, _, _) => a
  }

  function PrevOf(b: Body): Option<string> {
    match b
    case StageReceipt(_, _, _, _, _, _, _, p) => p
    case ToolReceipt(_, _, _, _, _, _, _, _, p) => p
    case Discharge(_, _, _, p) => p
    case Certificate(_, _, _, _, _, _, p) => p
    case _ => None
  }

  /** How subjects are digested, and the hash of canonical text. */
  datatype Codec = Codec(digest: Subject -> Option<string>, sha: string -> string)

  /** Every subject has a digest, and distinct subjects have distinct ones. */
  ghost predicate Sound(c: Codec) {
    && (forall s :: c.digest(s).Some?)
    && (forall s, t :: c.digest(s) == c.digest(t) ==> s == t)
  }

  /** `canonical.subject_digest`. */
  function Digest(c: Codec, s: Subject): Option<string> { c.digest(s) }

  /** A digest pins the subject. */
  lemma DigestPins(c: Codec, s: Subject, t: Subject)
    requires Sound(c)
    ensures Digest(c, s).Some?
    ensures Digest(c, s) == Digest(c, t) ==> s == t
  {}
}
