/** `channel.py`: the gated halt of a compliance agent, and the approval receipts it spends. */
module Halting {
  import opened Prelude
  import opened Canonical
  import opened Digests
  import opened Verification
  import opened NonceStores
  import opened Authority
  import opened Inbox
  import W = Wire
  import P = Participant
  import K = KeyOrder
  import R = RoundTrip
  import J = JsonReader

  // ---- the digest of one exact halt ----

  function HaltItems(agent: string, maker: string, reason: Option<string>): seq<(string, Json)> {
    [("verb", Str("halt")), ("from", Str(agent)), ("to", Str(maker)),
     ("reason_ref", if reason.Some? then Str(reason.value) else Null)]
  }

  /** `envelope.halt_digest`. */
  function HaltDigest(sha: string -> string, agent: string, maker: string, reason: Option<string>): Option<string> {
    DigestHex(sha, Obj(HaltItems(agent, maker, reason)))
  }

  lemma HaltKeysDistinct(agent: string, maker: string, reason: Option<string>)
    ensures K.KeysDistinct(HaltItems(agent, maker, reason))
  {
    assert |"verb"| == 4 && |"from"| == 4 && |"to"| == 2 && |"reason_ref"| == 10 && "verb"[0] != "from"[0];
  }

  /** The digest always exists, and it binds agent, maker and reason. */
  lemma HaltDigestBinds(sha: string -> string, agent: string, maker: string, reason: Option<string>,
                        agent': string, maker': string, reason': Option<string>)
    requires CollisionFree(sha)
    ensures HaltDigest(sha, agent, maker, reason).Some?
    ensures HaltDigest(sha, agent, maker, reason) == HaltDigest(sha, agent', maker', reason') ==>
      agent == agent' && maker == maker' && reason == reason'
  {
    var a, b := HaltItems(agent, maker, reason), HaltItems(agent', maker', reason');
    HaltPrintable(agent, maker, reason);
    HaltPrintable(agent', maker', reason');
    hide HaltItems, DigestHex, Printable, WellFormed, R.Meaning;
    assert DigestHex(sha, Obj(a)).Some? by { DigestExists(sha, Obj(a)); }
    if DigestHex(sha, Obj(a)) == DigestHex(sha, Obj(b)) {
      DigestInjective(sha, Obj(a), Obj(b));
      HaltMeaning(agent, maker, reason);
      HaltMeaning(agent', maker', reason');
    }
  }

  /** The text a halt's digest is over: this agent, this maker, this reason or null, and the verb. */
  lemma HaltDigestSpelled(sha: string -> string, agent: string, maker: string, reason: Option<string>)
    ensures HaltDigest(sha, agent, maker, reason) ==
      Some(sha("{" + Join([R.MemberText("from", EncodeString(agent)),
                           R.MemberText("reason_ref", if reason.Some? then EncodeString(reason.value) else "null"),
                           R.MemberText("to", EncodeString(maker)), R.MemberText("verb", EncodeString("halt"))]) + "}"))
  {
    var v, f, t := ("verb", Str("halt")), ("from", Str(agent)), ("to", Str(maker));
    var r := ("reason_ref", if reason.Some? then Str(reason.value) else Null);
    assert HaltItems(agent, maker, reason) == [v, f, t, r];
    HaltKeysOrdered();
    R.CanonStr(agent);
    R.CanonStr(maker);
    R.CanonStr("halt");
    if reason.Some? { R.CanonStr(reason.value); }
    assert Canon(Null) == Some("null");
    hide K.Less, EncodeString, R.MemberText, Join, Canon, K.SortItems, HaltItems;
    R.CanonFour(f, r, t, v);
  }

  lemma HaltKeysOrdered()
    ensures K.Less("from", "reason_ref") && K.Less("from", "to") && K.Less("from", "verb")
    ensures K.Less("reason_ref", "to") && K.Less("reason_ref", "verb") && K.Less("to", "verb")
  {
    assert |"verb"| == 4 && |"from"| == 4 && |"to"| == 2 && |"reason_ref"| == 10;
    R.FirstLetterLess("from", "reason_ref");
    R.FirstLetterLess("from", "to");
    R.FirstLetterLess("from", "verb");
    R.FirstLetterLess("reason_ref", "to");
    R.FirstLetterLess("reason_ref", "verb");
    R.FirstLetterLess("to", "verb");
  }

  lemma DigestExists(sha: string -> string, j: Json)
    requires Printable(j)
    ensures DigestHex(sha, j).Some?
  {
    R.CanonSome(j);
  }

  lemma HaltPrintable(agent: string, maker: string, reason: Option<string>)
    ensures WellFormed(Obj(HaltItems(agent, maker, reason))) && Printable(Obj(HaltItems(agent, maker, reason)))
  {
    HaltKeysDistinct(agent, maker, reason);
  }

  lemma HaltMeaning(agent: string, maker: string, reason: Option<string>)
    requires Printable(Obj(HaltItems(agent, maker, reason)))
    ensures var v := R.Meaning(Obj(HaltItems(agent, maker, reason)));
      && v.VObj? && "from" in v.m && "to" in v.m && "reason_ref" in v.m
      && v.m["from"] == J.VStr(agent) && v.m["to"] == J.VStr(maker)
      && v.m["reason_ref"] == (if reason.Some? then J.VStr(reason.value) else J.VNull)
  {
    HaltKeysDistinct(agent, maker, reason);
    var items := HaltItems(agent, maker, reason);
    var ms := R.MeaningItems(items);
    hide J.MapOf;
    R.MapOfItems(ms);
    forall i | 0 <= i < 4 ensures ms[i] == (items[i].0, R.Meaning(items[i].1)) {}
    assert R.Meaning(Str(agent)) == J.VStr(agent) && R.Meaning(Str(maker)) == J.VStr(maker);
    assert R.Meaning(Null) == J.VNull;
    assert items[1] == ("from", Str(agent)) && items[2] == ("to", Str(maker)) && items[3].0 == "reason_ref";
    assert ms[1].0 == "from" && ms[2].0 == "to" && ms[3].0 == "reason_ref";
  }

  // ---- the ruling ----

  const NEXT_ACTION_USED := "__halt:next-action-scope-used__"

  datatype Agent = Agent(sessionId: string, role: string, oversight: Oversight, authenticated: bool, env: Env)

  /** One call of `halt`. Time and revocations are those of the call. */
  datatype Call = Call(maker: string, reason: Option<string>, confirm: bool, approval: Option<W.Object>,
                       now: int, revocations: set<Revocation>)

  datatype Outcome =
    | Dispatched
    | Unauthorised | Unconfirmed | NoApproval | BadApproval | OtherHalt | ApproverIsMaker | UnknownScope | NoNonce
    | AlreadyUsed | ScopeUsed

  function EnvOf(a: Agent, c: Call): Env { a.env.(revocations := c.revocations) }

  function PairOf(c: Call): Pair
    requires c.approval.Some?
  {
    (c.approval.value.subject.runId, c.approval.value.subject.nonce)
  }

  /** A verified approval by a bound human other than the sender. */
  predicate Approved(a: Agent, c: Call) {
    c.approval.Some? && VerifyHumanApproval(EnvOf(a, c), c.approval.value, c.now, Some(a.sessionId)).Some?
  }

  function ScopeOf(c: Call): string {
    if c.approval.Some? && c.approval.value.subject.body.HumanApproval? then c.approval.value.subject.body.scope else ""
  }

  predicate NextAction(c: Call) { ScopeOf(c) == "next-action" }

  /** Everything checked before the store is asked: the first reason to refuse, if there is one. */
  function Preliminary(a: Agent, c: Call): Outcome {
    if !Authorize(a.oversight, a.role, Verb.Halt, c.maker) then Unauthorised
    else if c.approval.None? then NoApproval
    else if !Approved(a, c) then BadApproval
    else if Some(c.approval.value.subject.body.permittedAction)
              != HaltDigest(a.env.codec.sha, a.sessionId, c.maker, c.reason)
      then OtherHalt
    else if c.approval.value.subject.body.approver.id == c.maker then ApproverIsMaker
    else if ScopeOf(c) != "next-action" && ScopeOf(c) != "session" then UnknownScope
    else if c.approval.value.subject.runId == "" || c.approval.value.subject.nonce == "" then NoNonce
    else Dispatched
  }

  /** The outcome of `halt` in authenticated mode against the store as it stands. */
  function Ruling(a: Agent, s: StoreState, c: Call): Outcome {
    var first := Preliminary(a, c);
    if first != Dispatched || c.approval.None? then first
    else if SeenIn(s, PairOf(c)) then AlreadyUsed
    else if NextAction(c) && SeenIn(s, (PairOf(c).0, NEXT_ACTION_USED)) then ScopeUsed
    else if SpentIn(s, PairOf(c)) then AlreadyUsed
    else Dispatched
  }

  /** The store after a call: only a dispatched halt spends anything. */
  function After(a: Agent, s: StoreState, c: Call): StoreState {
    if Ruling(a, s, c) != Dispatched || c.approval.None? then s
    else if NextAction(c) then Recorded(Consumed(s, PairOf(c)), (PairOf(c).0, NEXT_ACTION_USED))
    else Consumed(s, PairOf(c))
  }

  // ---- the agent ----

  /** The halt message an agent makes, not yet stamped or signed. */
  function HaltMessage(a: Agent, c: Call, draft: P.Envelope): P.Envelope {
    draft.(correlates := None, sender := P.Peer(a.sessionId, a.role), recipient := P.Peer(c.maker, "maker"),
           verb := Verb.Halt, content := P.Control("", "", [], [], c.reason), nonce := "", expiresAt := None,
           keyId := "", signature := "")
  }

  class ComplianceAgent {
    const agent: Agent
    const inbox: FileInbox<P.Envelope>
    const store: Store
    const stamp: Option<P.Envelope -> P.Envelope>

    constructor (agent: Agent, inbox: FileInbox<P.Envelope>, store: Store, stamp: Option<P.Envelope -> P.Envelope>)
      ensures this.agent == agent && this.inbox == inbox && this.store == store && this.stamp == stamp
    {
      this.agent, this.inbox, this.store, this.stamp := agent, inbox, store, stamp;
    }

    /** `_verify_halt_approval`, after `halt` has resolved authority. */
    method VerifyHaltApproval(c: Call) returns (outcome: Outcome)
      requires Authorize(agent.oversight, agent.role, Verb.Halt, c.maker)
      modifies store.Objects()
      ensures outcome == Ruling(agent, old(store.State()), c)
      ensures store.State() == After(agent, old(store.State()), c)
    {
      hide HaltDigest, MarkerName, Authorize;
      if c.approval.None? { return NoApproval; }
      var o := c.approval.value;
      var who := VerifyHumanApproval(EnvOf(agent, c), o, c.now, Some(agent.sessionId));
      if who.None? { return BadApproval; }
      hide VerifyHumanApproval;
      if Some(o.subject.body.permittedAction) != HaltDigest(agent.env.codec.sha, agent.sessionId, c.maker, c.reason) {
        return OtherHalt;
      }
      if who.value == c.maker { return ApproverIsMaker; }
      var scope := o.subject.body.scope;
      if scope != "next-action" && scope != "session" { return UnknownScope; }
      var pair := (o.subject.runId, o.subject.nonce);
      if pair.0 == "" || pair.1 == "" { return NoNonce; }
      var seen := store.Seen(pair);
      if seen { return AlreadyUsed; }
      if scope == "next-action" {
        var used := store.Seen((pair.0, NEXT_ACTION_USED));
        if used { return ScopeUsed; }
      }
      assert Preliminary(agent, c) == Dispatched;
      ghost var start := store.State();
      var first := store.Consume(pair);
      if !first {
        assert Consumed(start, pair) == start by { SpentAlready(start, pair); }
        return AlreadyUsed;
      }
      if scope == "next-action" {
        store.Record((pair.0, NEXT_ACTION_USED));
      }
      return Dispatched;
    }

    /** `halt`: in bare mode a confirmation dispatches; in authenticated mode only an approval does. */
    method HaltMaker(c: Call, draft: P.Envelope) returns (outcome: Outcome)
      requires inbox !in store.Objects()
      modifies store.Objects(), inbox
      ensures agent.authenticated ==> outcome == Ruling(agent, old(store.State()), c)
      ensures agent.authenticated ==> store.State() == After(agent, old(store.State()), c)
      ensures !agent.authenticated ==>
        outcome == (if !Authorize(agent.oversight, agent.role, Verb.Halt, c.maker) then Unauthorised
                    else if c.confirm then Dispatched else Unconfirmed)
      ensures !agent.authenticated ==> store.State() == old(store.State())
      ensures inbox.boxes == if outcome != Dispatched then old(inbox.boxes)
        else old(inbox.boxes)[SafeComponent(inbox.alnum, c.maker) :=
          Published(old(inbox.BoxOf(c.maker)), Outgoing(agent, c, draft, stamp))]
    {
      hide HaltDigest, SafeComponent, Published, Authorize, Ruling, After, Outgoing;
      if !Authorize(agent.oversight, agent.role, Verb.Halt, c.maker) {
        UnauthorisedFirst(agent, store.State(), c);
        return Unauthorised;
      }
      if agent.authenticated {
        outcome := VerifyHaltApproval(c);
        if outcome != Dispatched { return; }
      } else if !c.confirm {
        return Unconfirmed;
      }
      var _ := inbox.Put(c.maker, Outgoing(agent, c, draft, stamp));
      return Dispatched;
    }
  }

  lemma UnauthorisedFirst(a: Agent, s: StoreState, c: Call)
    requires !Authorize(a.oversight, a.role, Verb.Halt, c.maker)
    ensures Ruling(a, s, c) == Unauthorised && After(a, s, c) == s
  {
    hide HaltDigest, Approved, SeenIn, SpentIn;
  }

  /** `_send`: stamped and signed only in authenticated mode, by an agent that has a signer. */
  function Outgoing(a: Agent, c: Call, draft: P.Envelope, stamp: Option<P.Envelope -> P.Envelope>): P.Envelope {
    if a.authenticated && stamp.Some? then stamp.value(HaltMessage(a, c, draft)) else HaltMessage(a, c, draft)
  }
}
