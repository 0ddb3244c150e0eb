/** `participant.py`: a maker that polls its mailbox, verifies each envelope and applies it. */
module Participant {
  import opened Prelude
  import opened Verification
  import opened Authority
  import opened Inbox
  import opened NonceStores

  /** What a control message says, field by field as its handler reads it. */
  datatype Content =
    | Control(kind: string, instruction: string, conditions: seq<string>, wanted: seq<string>,
              reasonRef: Option<string>)
    | Acknowledgement(directiveRef: string, accepted: bool, mode: Option<string>)
    | StateReport(state: string, mode: Option<string>)

  datatype Peer = Peer(actor: string, role: string)

  /** An envelope on the wire. Absent and empty authentication fields are treated alike. */
  datatype Envelope = Envelope(id: string, correlates: Option<string>, sender: Peer, recipient: Peer, verb: Verb,
                               content: Content, nonce: string, expiresAt: Option<int>, keyId: string,
                               signature: string)

  datatype EnvelopeSigning = EnvelopeSigning(publicKey: string, envelope: Envelope, signature: string)

  const ENVELOPE_TYPE := "A2AControlMessage"

  /** What a participant is built with; no trust store means bare mode. */
  datatype Setup = Setup(sessionId: string, complianceActor: string, role: string, provider: seq<string> -> string,
                         trust: Option<map<string, Binding>>, oversight: Oversight, signed: set<EnvelopeSigning>)

  datatype Directive = Directive(id: string, kind: string, instruction: string)

  /** The participant's own state, and the store of (sender, nonce) pairs it has honoured. */
  datatype Maker = Maker(halted: bool, held: bool, holdRef: Option<string>, conditions: seq<string>,
                         directives: seq<Directive>, honoured: StoreState)

  // ---- what one message does ----

  /** Every check of `_verify_envelope` but the replay check. */
  predicate Genuine(setup: Setup, e: Envelope, now: int) {
    setup.trust.Some? && e.signature != "" && e.keyId != "" && e.keyId in setup.trust.value &&
    var b := setup.trust.value[e.keyId];
    && b.AuthorizesType(ENVELOPE_TYPE)
    && b.AuthorizesRole(e.sender.role)
    && b.identity == Some(e.sender.actor)
    && EnvelopeSigning(b.publicKey, e.(signature := ""), e.signature) in setup.signed
    && e.expiresAt.Some? && now < e.expiresAt.value
    && e.nonce != ""
    && Authorize(setup.oversight, e.sender.role, e.verb, setup.sessionId)
  }

  function PairOf(e: Envelope): Pair { (e.sender.actor, e.nonce) }

  /** The verdict: in bare mode always, otherwise genuine and not honoured before. */
  predicate Accepts(setup: Setup, honoured: StoreState, e: Envelope, now: int) {
    setup.trust.None? || (Genuine(setup, e, now) && !SeenIn(honoured, PairOf(e)))
  }

  /** What applying a message does, with no regard to whether it should be applied. */
  function Apply(m: Maker, e: Envelope): Maker {
    match e.verb
    case Halt => m.(halted := true)
    case Hold => m.(held := true, holdRef := Some(e.id), conditions := ConditionsOf(e))
    case Resume => m.(held := false, holdRef := None, conditions := [])
    case IssueDirective => m.(directives := m.directives + [DirectiveOf(e)])
    case _ => m
  }

  function ConditionsOf(e: Envelope): seq<string> { if e.content.Control? then e.content.conditions else [] }

  function DirectiveOf(e: Envelope): Directive {
    if e.content.Control? then Directive(e.id, e.content.kind, e.content.instruction) else Directive(e.id, "", "")
  }

  function ModeOf(setup: Setup): string { if setup.trust.None? then "advisory" else "authenticated" }

  /** A reply correlates with the message it answers. */
  function ReplyTo(setup: Setup, e: Envelope, verb: Verb, content: Content): Envelope {
    Envelope("", Some(e.id), Peer(setup.sessionId, setup.role), Peer(setup.complianceActor, e.sender.role), verb,
             content, "", None, "", "")
  }

  function Reply(setup: Setup, e: Envelope, accepted: bool): Option<Envelope> {
    if !accepted then Some(ReplyTo(setup, e, Ack, Acknowledgement(e.id, false, None)))
    else
      match e.verb
      case QueryState =>
        Some(ReplyTo(setup, e, ReportState,
                     StateReport(setup.provider(if e.content.Control? then e.content.wanted else []),
                                 Some(ModeOf(setup)))))
      case Halt | Hold | Resume | IssueDirective => Some(ReplyTo(setup, e, Ack,
                                                                 Acknowledgement(e.id, true, Some(ModeOf(setup)))))
      case _ => None
  }

  /** One message of a checkpoint: the next state and the reply. */
  function Handle(setup: Setup, m: Maker, e: Envelope, now: int): (Maker, Option<Envelope>) {
    var ok := Accepts(setup, m.honoured, e, now);
    (if !ok then m
     else Apply(m, e).(honoured := if setup.trust.Some? then Recorded(m.honoured, PairOf(e)) else m.honoured),
     Reply(setup, e, ok))
  }

  /** A message and the time it was verified at. */
  datatype Arrival = Arrival(e: Envelope, at: int)

  /** A run of messages, over any number of checkpoints: the final state and every reply. */
  function HandleAll(setup: Setup, m: Maker, arrivals: seq<Arrival>): (Maker, seq<Envelope>)
    decreases |arrivals|
  {
    if arrivals == [] then (m, [])
    else
      var (next, reply) := Handle(setup, m, arrivals[0].e, arrivals[0].at);
      var (end, replies) := HandleAll(setup, next, arrivals[1..]);
      (end, (if reply.Some? then [reply.value] else []) + replies)
  }

  lemma {:induction false} HandleAllSnoc(setup: Setup, m: Maker, arrivals: seq<Arrival>, a: Arrival)
    ensures var (mid, replies) := HandleAll(setup, m, arrivals);
      var (end, reply) := Handle(setup, mid, a.e, a.at);
      HandleAll(setup, m, arrivals + [a]) == (end, replies + if reply.Some? then [reply.value] else [])
    decreases |arrivals|
  {
    hide Handle;
    if arrivals == [] {
      assert arrivals + [a] == [a] && [a][1..] == [];
      var (next, reply) := Handle(setup, m, a.e, a.at);
      HandleNone(setup, next);
      var x := if reply.Some? then [reply.value] else [];
      assert x + [] == [] + x;
    } else {
      assert (arrivals + [a])[1..] == arrivals[1..] + [a];
      var (next, first) := Handle(setup, m, arrivals[0].e, arrivals[0].at);
      HandleAllSnoc(setup, next, arrivals[1..], a);
      var (mid, later) := HandleAll(setup, next, arrivals[1..]);
      var (end, reply) := Handle(setup, mid, a.e, a.at);
      var x, y := if first.Some? then [first.value] else [], if reply.Some? then [reply.value] else [];
      assert (x + later) + y == x + (later + y);
    }
  }

  /** Replies put, one after another, into one mailbox. */
  function PutAll(boxes: map<string, Box<Envelope>>, safe: string, replies: seq<Envelope>): map<string, Box<Envelope>> {
    if replies == [] then boxes
    else
      var before := PutAll(boxes, safe, replies[..|replies| - 1]);
      before[safe := Published(if safe in before then before[safe] else EmptyBox(), replies[|replies| - 1])]
  }

  // ---- the participant ----

  class ControlParticipant {
    const setup: Setup
    const inbox: FileInbox<Envelope>
    const store: Store

    var halted: bool
    var held: bool
    var holdRef: Option<string>
    var conditions: seq<string>
    var directives: seq<Directive>

    constructor (setup: Setup, inbox: FileInbox<Envelope>, store: Store)
      ensures this.setup == setup && this.inbox == inbox && this.store == store
      ensures Value() == Maker(false, false, None, [], [], store.State())
    {
      this.setup, this.inbox, this.store := setup, inbox, store;
      halted, held, holdRef, conditions, directives := false, false, None, [], [];
    }

    function Value(): Maker
      reads this, store.Objects()
    {
      Maker(halted, held, holdRef, conditions, directives, store.State())
    }

    /** `_verify_envelope`: the nonce is recorded only once everything else has passed. */
    method VerifyEnvelope(e: Envelope, now: int) returns (ok: bool)
      modifies store.Objects()
      ensures ok <==> Accepts(setup, old(store.State()), e, now)
      ensures store.State() ==
        if ok && setup.trust.Some? then Recorded(old(store.State()), PairOf(e)) else old(store.State())
    {
      hide Authorize, MarkerName;
      if setup.trust.None? { return true; }
      if e.signature == "" || e.keyId == "" { return false; }
      if e.keyId !in setup.trust.value { return false; }
      var b := setup.trust.value[e.keyId];
      if !b.AuthorizesType(ENVELOPE_TYPE) { return false; }
      if !b.AuthorizesRole(e.sender.role) { return false; }
      if b.identity.None? || b.identity.value != e.sender.actor { return false; }
      if EnvelopeSigning(b.publicKey, e.(signature := ""), e.signature) !in setup.signed { return false; }
      if e.expiresAt.None? { return false; }
      if e.expiresAt.value <= now { return false; }
      if e.nonce == "" { return false; }
      var seen := store.Seen(PairOf(e));
      if seen { return false; }
      if !Authorize(setup.oversight, e.sender.role, e.verb, setup.sessionId) { return false; }
      store.Record(PairOf(e));
      return true;
    }

    /** `accept_directive`. */
    method AcceptDirective(e: Envelope) returns (reply: Envelope)
      requires this !in store.Objects() && (e.verb.IssueDirective? || e.verb.Hold? || e.verb.Resume?)
      modifies this
      ensures Value() == Apply(old(Value()), e)
      ensures reply == ReplyTo(setup, e, Ack, Acknowledgement(e.id, true, None))
    {
      match e.verb {
        case IssueDirective => directives := directives + [DirectiveOf(e)];
        case Hold =>
          held := true;
          holdRef := Some(e.id);
          conditions := ConditionsOf(e);
        case Resume =>
          held := false;
          holdRef := None;
          conditions := [];
      }
      reply := ReplyTo(setup, e, Ack, Acknowledgement(e.id, true, None));
    }

    /** `halt`. */
    method HaltNow(e: Envelope) returns (reply: Envelope)
      requires this !in store.Objects()
      modifies this
      ensures Value() == old(Value()).(halted := true)
      ensures reply == ReplyTo(setup, e, Ack, Acknowledgement(e.id, true, None))
    {
      halted := true;
      reply := ReplyTo(setup, e, Ack, Acknowledgement(e.id, true, None));
    }

    /** One turn of the loop in `checkpoint`: verify, dispatch, label the reply. */
    method Answer(e: Envelope, now: int) returns (reply: Option<Envelope>)
      requires this !in store.Objects()
      modifies this, store.Objects()
      ensures (Value(), reply) == Handle(setup, old(Value()), e, now)
    {
      hide Genuine, ReplyTo, SeenIn, Recorded;
      var ok := VerifyEnvelope(e, now);
      if !ok { return Some(ReplyTo(setup, e, Ack, Acknowledgement(e.id, false, None))); }
      var answer: Envelope;
      match e.verb {
        case QueryState =>
          var wanted := if e.content.Control? then e.content.wanted else [];
          return Some(ReplyTo(setup, e, ReportState, StateReport(setup.provider(wanted), Some(ModeOf(setup)))));
        case Halt =>
          answer := HaltNow(e);
        case IssueDirective | Hold | Resume =>
          answer := AcceptDirective(e);
        case _ =>
          return None;
      }
      Labelled(setup, e, answer);
      return Some(answer.(content := Acknowledgement(e.id, true, Some(ModeOf(setup)))));
    }

    /** `checkpoint`: drain the mailbox, answer each message in order. The clock gives the time each
        message is verified at. */
    method Checkpoint(clock: nat -> int) returns (replies: seq<Envelope>)
      requires this !in store.Objects() && inbox !in store.Objects()
      modifies this, inbox, store.Objects()
      ensures (Value(), replies) ==
        HandleAll(setup, old(Value()), Stamped(Messages(Arrived(old(inbox.BoxOf(setup.sessionId)))), clock))
      ensures inbox.boxes == PutAll(
        old(inbox.boxes)[SafeComponent(inbox.alnum, setup.sessionId) := Polled(old(inbox.BoxOf(setup.sessionId)))],
        SafeComponent(inbox.alnum, setup.complianceActor), replies)
    {
      hide HandleAll, Handle, SafeComponent, Arrived, Polled, Published;
      var polled := inbox.Poll(setup.sessionId);
      ghost var start, boxes := Value(), inbox.boxes;
      replies := [];
      HandleNone(setup, start);
      for i := 0 to |polled|
        invariant (Value(), replies) == HandleAll(setup, start, Stamped(polled[..i], clock))
        invariant inbox.boxes == PutAll(boxes, SafeComponent(inbox.alnum, setup.complianceActor), replies)
      {
        HandleAllSnoc(setup, start, Stamped(polled[..i], clock), Arrival(polled[i], clock(i)));
        assert Stamped(polled[..i + 1], clock) == Stamped(polled[..i], clock) + [Arrival(polled[i], clock(i))];
        var reply := Answer(polled[i], clock(i));
        if reply.Some? {
          ghost var earlier := replies;
          var _ := inbox.Put(setup.complianceActor, reply.value);
          replies := replies + [reply.value];
          assert replies[..|replies| - 1] == earlier;
        }
        assert replies == replies + [];
      }
      assert polled[..|polled|] == polled;
    }
  }

  lemma Labelled(setup: Setup, e: Envelope, answer: Envelope)
    requires answer == ReplyTo(setup, e, Ack, Acknowledgement(e.id, true, None))
    ensures answer.(content := Acknowledgement(e.id, true, Some(ModeOf(setup))))
         == ReplyTo(setup, e, Ack, Acknowledgement(e.id, true, Some(ModeOf(setup))))
  {}

  lemma HandleNone(setup: Setup, m: Maker)
    ensures HandleAll(setup, m, []) == (m, [])
  {}

  function Stamped(polled: seq<Envelope>, clock: nat -> int): (r: seq<Arrival>)
    ensures |r| == |polled|
  {
    seq(|polled|, i requires 0 <= i < |polled| => Arrival(polled[i], clock(i)))
  }
}
