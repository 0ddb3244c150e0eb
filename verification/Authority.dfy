/** `authority.py`: which role may drive which verb at which maker. */
module Authority {
  datatype Verb = QueryState | IssueDirective | Hold | Resume | Halt | ReportState | Ack | Escalate

  predicate Steers(v: Verb) { v.QueryState? || v.IssueDirective? || v.Hold? || v.Resume? || v.Halt? }

  predicate ComplianceRole(role: string) { role in {"policy-compliance", "grounding", "verify"} }

  /** Who oversees whom. */
  datatype Oversight = Oversight(grants: map<string, set<string>>, overseesAll: bool)

  /** A compliance role with no assignments oversees everyone, unless the roster says otherwise;
      one with assignments oversees exactly those. */
  predicate Oversees(o: Oversight, role: string, maker: string) {
    ComplianceRole(role) &&
    if role in o.grants then maker in o.grants[role] else o.overseesAll
  }

  class Roster {
    var oversight: Oversight

    constructor (oversight: Oversight)
      ensures this.oversight == oversight
    {
      this.oversight := oversight;
    }

    /** `assign`: narrows a role that oversaw everyone to its first maker, and widens it after that. */
    method Assign(role: string, maker: string)
      modifies this
      ensures oversight.overseesAll == old(oversight).overseesAll
      ensures forall r, m :: Oversees(oversight, r, m) <==>
        if r == role then
          ComplianceRole(r) && (m == maker || (r in old(oversight).grants && Oversees(old(oversight), r, m)))
        else Oversees(old(oversight), r, m)
    {
      var makers := if role in oversight.grants then oversight.grants[role] else {};
      oversight := oversight.(grants := oversight.grants[role := makers + {maker}]);
    }
  }

  /** `authorize`: allowed, or not. */
  predicate Authorize(o: Oversight, role: string, verb: Verb, maker: string) {
    Steers(verb) && ComplianceRole(role) && Oversees(o, role, maker)
  }

  /** Denied exactly: a verb that answers rather than steers, a role that is not a compliance role, a
      maker the role was not assigned where it was assigned some, or no assignment where there must be. */
  lemma DeniedExactly(o: Oversight, role: string, verb: Verb, maker: string)
    ensures !Authorize(o, role, verb, maker) <==>
      || verb == ReportState || verb == Ack || verb == Escalate
      || (role != "policy-compliance" && role != "grounding" && role != "verify")
      || (role in o.grants && maker !in o.grants[role])
      || (role !in o.grants && !o.overseesAll)
  {}
}
