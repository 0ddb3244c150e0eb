/** Any run of messages at a maker in authenticated mode, over any number of checkpoints. */
module ParticipantRuns {
  import opened Prelude
  import opened Authority
  import opened Participant
  import NonceStores
  import Inbox

  /** Which messages are accepted, in order. */
  function Verdicts(setup: Setup, m: Maker, arrivals: seq<Arrival>): (r: seq<bool>)
    ensures |r| == |arrivals|
    decreases |arrivals|
  {
    if arrivals == [] then []
    else
      var a := arrivals[0];
      [Accepts(setup, m.honoured, a.e, a.at)] + Verdicts(setup, Handle(setup, m, a.e, a.at).0, arrivals[1..])
  }

  function Pick<T>(xs: seq<T>, keep: seq<bool>): seq<T>
    requires |xs| == |keep|
  {
    if xs == [] then [] else (if keep[0] then [xs[0]] else []) + Pick(xs[1..], keep[1..])
  }

  /** Messages in one batch or in several make no difference. */
  lemma {:induction false} BatchesJoin(setup: Setup, m: Maker, a: seq<Arrival>, b: seq<Arrival>)
    ensures var (mid, first) := HandleAll(setup, m, a);
      var (end, second) := HandleAll(setup, mid, b);
      HandleAll(setup, m, a + b) == (end, first + second)
    decreases |a|
  {
    hide Handle;
    if a == [] {
      assert a + b == b;
      assert [] + HandleAll(setup, m, b).1 == HandleAll(setup, m, b).1;
    } else {
      var (next, reply) := Handle(setup, m, a[0].e, a[0].at);
      BatchesJoin(setup, next, a[1..], b);
      assert (a + b)[1..] == a[1..] + b;
      var (mid, later) := HandleAll(setup, next, a[1..]);
      var second := HandleAll(setup, mid, b).1;
      var x := if reply.Some? then [reply.value] else [];
      assert (x + later) + second == x + (later + second);
    }
  }

  // ---- rejected messages do not matter ----

  lemma RejectedIsNoop(setup: Setup, m: Maker, a: Arrival)
    requires !Accepts(setup, m.honoured, a.e, a.at)
    ensures Handle(setup, m, a.e, a.at).0 == m
  {
    hide Accepts, Apply;
  }

  /** Deleting any of the rejected messages changes neither the final state nor any other verdict. */
  lemma {:induction false} RejectedDoNotMatter(setup: Setup, m: Maker, arrivals: seq<Arrival>, keep: seq<bool>)
    requires |keep| == |arrivals|
    requires forall i :: 0 <= i < |arrivals| && Verdicts(setup, m, arrivals)[i] ==> keep[i]
    ensures HandleAll(setup, m, Pick(arrivals, keep)).0 == HandleAll(setup, m, arrivals).0
    ensures Verdicts(setup, m, Pick(arrivals, keep)) == Pick(Verdicts(setup, m, arrivals), keep)
    decreases |arrivals|
  {
    hide Handle, Accepts;
    if arrivals != [] {
      var a, rest := arrivals[0], arrivals[1..];
      var next := Handle(setup, m, a.e, a.at).0;
      var vs := Verdicts(setup, m, arrivals);
      assert vs[1..] == Verdicts(setup, next, rest);
      forall i | 0 <= i < |rest| && Verdicts(setup, next, rest)[i] ensures keep[1..][i] { assert vs[i + 1]; }
      RejectedDoNotMatter(setup, next, rest, keep[1..]);
      if keep[0] {
        var picked := Pick(arrivals, keep);
        assert picked[0] == a && picked[1..] == Pick(rest, keep[1..]);
      } else {
        RejectedIsNoop(setup, m, a);
        assert Pick(arrivals, keep) == Pick(rest, keep[1..]);
        assert Pick(vs, keep) == Pick(vs[1..], keep[1..]);
      }
    }
  }

  /** The effect of a list of messages with no verification at all. */
  function Fold(m: Maker, es: seq<Arrival>): Maker
    decreases |es|
  {
    if es == [] then m else Fold(Apply(m, es[0].e).(honoured := NonceStores.Recorded(m.honoured, PairOf(es[0].e))),
                                 es[1..])
  }

  /** In authenticated mode the final state is the plain fold of the accepted messages alone. */
  lemma {:induction false} StateIsFoldOfAccepted(setup: Setup, m: Maker, arrivals: seq<Arrival>)
    requires setup.trust.Some?
    ensures HandleAll(setup, m, arrivals).0 == Fold(m, Pick(arrivals, Verdicts(setup, m, arrivals)))
    decreases |arrivals|
  {
    hide Accepts, Apply;
    if arrivals != [] {
      var a, rest := arrivals[0], arrivals[1..];
      var next := Handle(setup, m, a.e, a.at).0;
      var vs := Verdicts(setup, m, arrivals);
      assert vs[1..] == Verdicts(setup, next, rest);
      StateIsFoldOfAccepted(setup, next, rest);
      var picked := Pick(arrivals, vs);
      if vs[0] {
        assert picked[1..] == Pick(rest, vs[1..]);
      } else {
        assert picked == Pick(rest, vs[1..]);
      }
    }
  }

  // ---- replies ----

  /** Told apart by its reply: rejected, or accepted under the authenticated label. */
  predicate Answers(setup: Setup, reply: Envelope, a: Arrival, accepted: bool) {
    && reply.correlates == Some(a.e.id) && reply.recipient == Peer(setup.complianceActor, a.e.sender.role)
    && match reply.content
       case Acknowledgement(ref, ok, mode) =>
         ref == a.e.id && ok == accepted && mode == (if accepted then Some("authenticated") else None)
       case StateReport(_, mode) => accepted && mode == Some("authenticated")
       case Control(_, _, _, _, _) => false
  }

  lemma AuthenticatedAnswer(setup: Setup, m: Maker, a: Arrival)
    requires setup.trust.Some?
    ensures var reply := Handle(setup, m, a.e, a.at).1;
      reply.Some? && Answers(setup, reply.value, a, Accepts(setup, m.honoured, a.e, a.at))
  {
    hide Apply;
  }

  /** Every message gets exactly one reply, correlated with it and telling its verdict. */
  lemma {:induction false} OneReplyEach(setup: Setup, m: Maker, arrivals: seq<Arrival>)
    requires setup.trust.Some?
    ensures |HandleAll(setup, m, arrivals).1| == |arrivals|
    ensures forall i :: 0 <= i < |arrivals| ==>
      Answers(setup, HandleAll(setup, m, arrivals).1[i], arrivals[i], Verdicts(setup, m, arrivals)[i])
    decreases |arrivals|
  {
    hide Handle, Accepts, Answers;
    if arrivals != [] {
      AuthenticatedAnswer(setup, m, arrivals[0]);
      OneReplyEach(setup, Handle(setup, m, arrivals[0].e, arrivals[0].at).0, arrivals[1..]);
    }
  }

  function Applied(m: Maker, es: seq<Arrival>): Maker
    decreases |es|
  {
    if es == [] then m else Applied(Apply(m, es[0].e), es[1..])
  }

  /** The messages a maker is steered by. */
  function Steering(es: seq<Arrival>): seq<Envelope> {
    if es == [] then [] else (if Steers(es[0].e.verb) then [es[0].e] else []) + Steering(es[1..])
  }

  predicate AdvisoryAnswer(setup: Setup, reply: Envelope, e: Envelope) {
    && reply.correlates == Some(e.id) && reply.recipient == Peer(setup.complianceActor, e.sender.role)
    && !reply.content.Control? && reply.content.mode == Some("advisory")
  }

  lemma BareStep(setup: Setup, m: Maker, a: Arrival)
    requires setup.trust.None?
    ensures var (next, reply) := Handle(setup, m, a.e, a.at);
      next == Apply(m, a.e) && (reply.Some? <==> Steers(a.e.verb))
      && (reply.Some? ==> AdvisoryAnswer(setup, reply.value, a.e))
  {}

  /** In bare mode every message is applied, signed or not, and the replies are one advisory answer
      to each message that steers, in order. */
  lemma {:induction false} BareAnswersSteering(setup: Setup, m: Maker, arrivals: seq<Arrival>)
    requires setup.trust.None?
    ensures HandleAll(setup, m, arrivals).0 == Applied(m, arrivals)
    ensures |HandleAll(setup, m, arrivals).1| == |Steering(arrivals)|
    ensures forall i :: 0 <= i < |Steering(arrivals)| ==>
      AdvisoryAnswer(setup, HandleAll(setup, m, arrivals).1[i], Steering(arrivals)[i])
    decreases |arrivals|
  {
    hide Handle, Apply, AdvisoryAnswer;
    if arrivals != [] {
      BareStep(setup, m, arrivals[0]);
      BareAnswersSteering(setup, Handle(setup, m, arrivals[0].e, arrivals[0].at).0, arrivals[1..]);
    }
  }

  // ---- once each ----

  lemma {:induction false} HonouredGrows(setup: Setup, m: Maker, arrivals: seq<Arrival>, i: nat)
    requires setup.trust.Some? && i < |arrivals| && Verdicts(setup, m, arrivals)[i]
    ensures !NonceStores.SeenIn(m.honoured, PairOf(arrivals[i].e))
    decreases |arrivals|
  {
    hide Genuine, Apply;
    if i > 0 {
      HonouredGrows(setup, Handle(setup, m, arrivals[0].e, arrivals[0].at).0, arrivals[1..], i - 1);
    }
  }

  /** Each (sender, nonce) is applied at most once. */
  lemma {:induction false} AppliedAtMostOnce(setup: Setup, m: Maker, arrivals: seq<Arrival>, i: nat, j: nat)
    requires setup.trust.Some? && i < j < |arrivals|
    requires Verdicts(setup, m, arrivals)[i] && Verdicts(setup, m, arrivals)[j]
    ensures PairOf(arrivals[i].e) != PairOf(arrivals[j].e)
    ensures arrivals[i].e.sender.actor != arrivals[j].e.sender.actor || arrivals[i].e.nonce != arrivals[j].e.nonce
    decreases |arrivals|
  {
    hide Genuine, Apply;
    var next := Handle(setup, m, arrivals[0].e, arrivals[0].at).0;
    if i == 0 {
      HonouredGrows(setup, next, arrivals[1..], j - 1);
    } else {
      AppliedAtMostOnce(setup, next, arrivals[1..], i - 1, j - 1);
    }
  }

  // ---- what the state says about the messages ----

  predicate SomeAccepted(arrivals: seq<Arrival>, verdicts: seq<bool>, verb: Verb)
    requires |arrivals| == |verdicts|
  {
    exists i :: 0 <= i < |arrivals| && verdicts[i] && arrivals[i].e.verb == verb
  }

  lemma SomeAcceptedCons(arrivals: seq<Arrival>, verdicts: seq<bool>, verb: Verb)
    requires |arrivals| == |verdicts| && arrivals != []
    ensures SomeAccepted(arrivals, verdicts, verb) <==>
      (verdicts[0] && arrivals[0].e.verb == verb) || SomeAccepted(arrivals[1..], verdicts[1..], verb)
  {
    if i :| 0 <= i < |arrivals| && verdicts[i] && arrivals[i].e.verb == verb {
      if i > 0 { assert verdicts[1..][i - 1] && arrivals[1..][i - 1].e.verb == verb; }
    }
    if i :| 0 <= i < |arrivals[1..]| && verdicts[1..][i] && arrivals[1..][i].e.verb == verb {
      assert verdicts[i + 1] && arrivals[i + 1].e.verb == verb;
    }
  }

  /** Halted never goes back: it holds at the end exactly if it held at the start or a halt was accepted. */
  lemma {:induction false} HaltedIffAccepted(setup: Setup, m: Maker, arrivals: seq<Arrival>)
    ensures HandleAll(setup, m, arrivals).0.halted <==>
      m.halted || SomeAccepted(arrivals, Verdicts(setup, m, arrivals), Halt)
    decreases |arrivals|
  {
    hide Accepts, NonceStores.Recorded, SomeAccepted, Reply;
    if arrivals == [] {
      NoneAccepted(Verdicts(setup, m, arrivals), Halt);
    } else {
      var next := Handle(setup, m, arrivals[0].e, arrivals[0].at).0;
      var vs := Verdicts(setup, m, arrivals);
      assert vs[1..] == Verdicts(setup, next, arrivals[1..]);
      HaltedIffAccepted(setup, next, arrivals[1..]);
      SomeAcceptedCons(arrivals, vs, Halt);
    }
  }

  lemma NoneAccepted(verdicts: seq<bool>, verb: Verb)
    requires verdicts == []
    ensures !SomeAccepted([], verdicts, verb)
  {}

  /** The last hold or resume in a list of messages. */
  function LastHold(es: seq<Arrival>): Option<Envelope> {
    if es == [] then None
    else
      var last := es[|es| - 1].e;
      if last.verb.Hold? || last.verb.Resume? then Some(last) else LastHold(es[..|es| - 1])
  }

  predicate HeldAs(m: Maker, last: Option<Envelope>, start: Maker) {
    match last
    case None => m.held == start.held && m.holdRef == start.holdRef && m.conditions == start.conditions
    case Some(e) =>
      && m.held == e.verb.Hold?
      && m.holdRef == (if e.verb.Hold? then Some(e.id) else None)
      && m.conditions == (if e.verb.Hold? && e.content.Control? then e.content.conditions else [])
  }

  lemma {:induction false} FoldSnoc(m: Maker, es: seq<Arrival>, a: Arrival)
    ensures Fold(m, es + [a]) == Apply(Fold(m, es),
                                       a.e).(honoured := NonceStores.Recorded(Fold(m, es).honoured, PairOf(a.e)))
    decreases |es|
  {
    hide Apply;
    if es == [] {
      assert es + [a] == [a];
    } else {
      assert (es + [a])[1..] == es[1..] + [a];
      FoldSnoc(Apply(m, es[0].e).(honoured := NonceStores.Recorded(m.honoured, PairOf(es[0].e))), es[1..], a);
    }
  }

  lemma {:induction false} FoldHolds(m: Maker, es: seq<Arrival>)
    ensures HeldAs(Fold(m, es), LastHold(es), m)
    decreases |es|
  {
    hide Fold;
    if es == [] {
      assert Fold(m, es) == m by { FoldNone(m); }
    } else {
      var init, last := es[..|es| - 1], es[|es| - 1];
      assert es == init + [last];
      FoldSnoc(m, init, last);
      FoldHolds(m, init);
    }
  }

  lemma FoldNone(m: Maker)
    ensures Fold(m, []) == m
  {}

  /** Held, its reference and its conditions are those of the last accepted hold or resume. */
  lemma HeldByLastAccepted(setup: Setup, m: Maker, arrivals: seq<Arrival>)
    requires setup.trust.Some?
    ensures HeldAs(HandleAll(setup, m, arrivals).0, LastHold(Pick(arrivals, Verdicts(setup, m, arrivals))), m)
  {
    hide Fold, HeldAs, LastHold, Pick, HandleAll;
    StateIsFoldOfAccepted(setup, m, arrivals);
    FoldHolds(m, Pick(arrivals, Verdicts(setup, m, arrivals)));
  }

  // ---- forging ----

  /** A message that is accepted was signed, as it stands and unexpired, by the key bound to its
      sender, who holds a compliance role that oversees this maker. */
  lemma {:induction false} AcceptedIsGenuine(setup: Setup, m: Maker, arrivals: seq<Arrival>, i: nat)
    requires setup.trust.Some? && i < |arrivals| && Verdicts(setup, m, arrivals)[i]
    ensures Genuine(setup, arrivals[i].e, arrivals[i].at)
    decreases |arrivals|
  {
    hide Genuine, Apply;
    if i > 0 {
      AcceptedIsGenuine(setup, Handle(setup, m, arrivals[0].e, arrivals[0].at).0, arrivals[1..], i - 1);
    }
  }

  /** Genuine exactly: signed, as it stands but for the signature, by a key of the trust store that may
      issue control messages in the sender's role and is bound to the sender; unexpired; with a nonce;
      and from a role that may drive this verb at this maker. */
  lemma GenuineExactly(setup: Setup, e: Envelope, now: int)
    ensures Genuine(setup, e, now) <==>
      && setup.trust.Some? && e.keyId != "" && e.keyId in setup.trust.value
      && (var b := setup.trust.value[e.keyId];
          && ("*" in b.objectTypes || "A2AControlMessage" in b.objectTypes)
          && ("*" in b.roles || e.sender.role in b.roles)
          && b.identity == Some(e.sender.actor)
          && exists g :: g in setup.signed && g.publicKey == b.publicKey && g.signature == e.signature
               && g.envelope == e.(signature := ""))
      && e.signature != "" && e.nonce != "" && !(e.expiresAt.None? || e.expiresAt.value <= now)
      && Authorize(setup.oversight, e.sender.role, e.verb, setup.sessionId)
  {
    hide Authorize;
    if setup.trust.Some? && e.keyId in setup.trust.value {
      var g := EnvelopeSigning(setup.trust.value[e.keyId].publicKey, e.(signature := ""), e.signature);
      assert g in setup.signed ==> g.envelope == e.(signature := "") && g.signature == e.signature;
    }
  }

  // ---- directives ----

  /** The directives that accepted messages issue: the message's id, kind and instruction, in order. */
  function IssuedDirectives(arrivals: seq<Arrival>, verdicts: seq<bool>): seq<Directive>
    requires |arrivals| == |verdicts|
  {
    if arrivals == [] then []
    else
      var e := arrivals[0].e;
      (if verdicts[0] && e.verb == IssueDirective then
         [if e.content.Control? then Directive(e.id, e.content.kind, e.content.instruction)
          else Directive(e.id, "", "")]
       else [])
      + IssuedDirectives(arrivals[1..], verdicts[1..])
  }

  /** The maker ends with the directives it had and those of the accepted messages, nothing else. */
  lemma {:induction false} DirectivesAreAccepted(setup: Setup, m: Maker, arrivals: seq<Arrival>)
    ensures HandleAll(setup, m, arrivals).0.directives ==
      m.directives + IssuedDirectives(arrivals, Verdicts(setup, m, arrivals))
    decreases |arrivals|
  {
    hide Accepts, NonceStores.Recorded, Reply;
    if arrivals != [] {
      var next := Handle(setup, m, arrivals[0].e, arrivals[0].at).0;
      var vs := Verdicts(setup, m, arrivals);
      assert vs[1..] == Verdicts(setup, next, arrivals[1..]);
      assert vs[0] == Accepts(setup, m.honoured, arrivals[0].e, arrivals[0].at);
      DirectivesAreAccepted(setup, next, arrivals[1..]);
      assert forall xs: seq<Directive> :: m.directives + [] + xs == m.directives + xs;
    }
  }

  /** What a reply says, field by field: it comes from the maker, to the compliance actor, about the
      message; a rejection and an order are acknowledged, and a query is answered with the state asked for. */
  lemma ReplySays(setup: Setup, m: Maker, e: Envelope, at: int)
    ensures var reply := Handle(setup, m, e, at).1; var ok := Accepts(setup, m.honoured, e, at);
      && (reply.None? <==> ok && e.verb != QueryState && e.verb != Halt && e.verb != Hold && e.verb != Resume
                           && e.verb != IssueDirective)
      && (reply.Some? ==>
            && reply.value.sender.actor == setup.sessionId && reply.value.sender.role == setup.role
            && reply.value.recipient.actor == setup.complianceActor && reply.value.recipient.role == e.sender.role
            && reply.value.correlates == Some(e.id)
            && (reply.value.verb == ReportState <==> ok && e.verb == QueryState)
            && (reply.value.verb == Ack <==> !(ok && e.verb == QueryState)))
      && (ok && e.verb == QueryState ==>
            && reply.value.content.StateReport?
            && reply.value.content.state == setup.provider(if e.content.Control? then e.content.wanted else []))
      && (reply.Some? && !(ok && e.verb == QueryState) ==>
            && reply.value.content.Acknowledgement? && reply.value.content.directiveRef == e.id
            && reply.value.content.accepted == ok
            && reply.value.content.mode ==
               (if !ok then None else if setup.trust.None? then Some("advisory") else Some("authenticated")))
  {
    hide Accepts;
  }

  // ---- where replies go ----

  function BoxAt(boxes: map<string, Inbox.Box<Envelope>>, name: string): Inbox.Box<Envelope> {
    if name in boxes then boxes[name] else Inbox.EmptyBox()
  }

  /** A checkpoint's replies are appended, in order, to the one mailbox, and no other is touched. */
  lemma {:induction false} RepliesPosted(boxes: map<string, Inbox.Box<Envelope>>, name: string, sent: seq<Envelope>,
                                         replies: seq<Envelope>)
    requires Inbox.Holds(BoxAt(boxes, name), sent)
    ensures Inbox.Holds(BoxAt(PutAll(boxes, name, replies), name), sent + replies)
    ensures forall other :: other != name ==> BoxAt(PutAll(boxes, name, replies), other) == BoxAt(boxes, other)
    decreases |replies|
  {
    hide Inbox.Holds, Inbox.Published;
    if replies == [] {
      assert sent + replies == sent;
    } else {
      var most, last := replies[..|replies| - 1], replies[|replies| - 1];
      RepliesPosted(boxes, name, sent, most);
      Inbox.PutHolds(BoxAt(PutAll(boxes, name, most), name), sent + most, last);
      assert sent + most + [last] == sent + replies;
    }
  }

  // ---- exactly which messages are accepted ----

  /** An earlier accepted message takes this pair's place in the store. */
  predicate HonouredBefore(setup: Setup, m: Maker, arrivals: seq<Arrival>, i: nat, p: NonceStores.Pair)
    requires i <= |arrivals|
  {
    exists j :: 0 <= j < i && Verdicts(setup, m, arrivals)[j]
      && NonceStores.SameSlot(m.honoured, p, PairOf(arrivals[j].e))
  }

  /** The first message and the rest. */
  lemma HonouredCons(setup: Setup, m: Maker, arrivals: seq<Arrival>, i: nat, p: NonceStores.Pair)
    requires setup.trust.Some? && 0 < i <= |arrivals|
    ensures var next := Handle(setup, m, arrivals[0].e, arrivals[0].at).0;
      NonceStores.SeenIn(next.honoured, p) || HonouredBefore(setup, next, arrivals[1..], i - 1, p) <==>
      NonceStores.SeenIn(m.honoured, p) || HonouredBefore(setup, m, arrivals, i, p)
  {
    hide Accepts, NonceStores.SameSlot, NonceStores.SeenIn, NonceStores.Recorded, Apply;
    var a := arrivals[0];
    var next := Handle(setup, m, a.e, a.at).0;
    var vs, later := Verdicts(setup, m, arrivals), Verdicts(setup, next, arrivals[1..]);
    assert vs[0] == Accepts(setup, m.honoured, a.e, a.at) && vs[1..] == later;
    NonceStores.SlotRecorded(m.honoured, p, PairOf(a.e));
    forall j | 0 <= j < i - 1 ensures later[j] == vs[j + 1] && arrivals[1..][j] == arrivals[j + 1] {}
    assert forall x, y :: NonceStores.SameSlot(next.honoured, x, y) == NonceStores.SameSlot(m.honoured, x, y);
    hide Verdicts, Handle;
    if HonouredBefore(setup, m, arrivals, i, p) {
      var j :| 0 <= j < i && vs[j] && NonceStores.SameSlot(m.honoured, p, PairOf(arrivals[j].e));
      if j > 0 { assert later[j - 1]; }
    }
    if HonouredBefore(setup, next, arrivals[1..], i - 1, p) {
      var j :| 0 <= j < i - 1 && later[j] && NonceStores.SameSlot(next.honoured, p, PairOf(arrivals[1..][j].e));
      assert vs[j + 1];
    }
  }

  /** With either store, whatever the names: a message is accepted exactly when it is genuine, its
      pair was not seen at the start, and no earlier accepted message takes its place in the store. */
  lemma {:induction false} AcceptedExactly(setup: Setup, m: Maker, arrivals: seq<Arrival>, i: nat)
    requires setup.trust.Some? && i < |arrivals|
    ensures Verdicts(setup, m, arrivals)[i] <==>
      Genuine(setup, arrivals[i].e, arrivals[i].at) && !NonceStores.SeenIn(m.honoured, PairOf(arrivals[i].e))
      && !HonouredBefore(setup, m, arrivals, i, PairOf(arrivals[i].e))
    decreases |arrivals|
  {
    hide Genuine, Apply, NonceStores.SeenIn, HonouredBefore;
    var p := PairOf(arrivals[i].e);
    if i == 0 {
      NoneBefore(setup, m, arrivals, p);
    } else {
      var next := Handle(setup, m, arrivals[0].e, arrivals[0].at).0;
      HonouredCons(setup, m, arrivals, i, p);
      AcceptedExactly(setup, next, arrivals[1..], i - 1);
    }
  }

  lemma NoneBefore(setup: Setup, m: Maker, arrivals: seq<Arrival>, p: NonceStores.Pair)
    ensures !HonouredBefore(setup, m, arrivals, 0, p)
  {}
}
