/** One mailbox, step by step: many senders probing, claiming and publishing, and one poller. */
module InboxRuns {
  import opened Prelude
  import opened Inbox

  /** Where one `put` has got to. A sender that dies after its claim just never publishes. */
  datatype Sender<T> = Probing(msg: T, n: nat) | Claimed(msg: T, n: nat) | Done(msg: T, n: nat)
  {
    predicate Owns() { Claimed? || Done? }
  }

  /** `passed` remembers the numbers that were claimed and unpublished when a poll left the cursor above them. */
  datatype State<T> = State(box: Box<T>, senders: map<nat, Sender<T>>, delivered: seq<(nat, T)>, passed: set<nat>)

  datatype Event<T> = Begin(id: nat, msg: T) | Probe(id: nat) | Publish(id: nat) | Poll

  function Init<T>(): State<T> { State(EmptyBox(), map[], [], {}) }

  function Unpublished<T>(box: Box<T>): set<nat> { box.claims - box.files.Keys }

  /** The open claims a poll of this mailbox leaves behind its cursor. */
  function PassedOver<T>(box: Box<T>): set<nat> { set n | n in Unpublished(box) && n <= Polled(box).cursor }

  /** One atomic step: an exclusive create, a rename, or a poll. None when it cannot happen. */
  function Step<T>(s: State<T>, e: Event<T>): Option<State<T>> {
    match e
    case Begin(id, msg) => if id in s.senders then None else Some(s.(senders := s.senders[id := Probing(msg, 0)]))
    case Probe(id) =>
      if id !in s.senders || !s.senders[id].Probing? then None
      else
        var p := s.senders[id];
        if p.n in s.box.claims then Some(s.(senders := s.senders[id := Probing(p.msg, p.n + 1)]))
        else Some(s.(box := s.box.(claims := s.box.claims + {p.n}), senders := s.senders[id := Claimed(p.msg, p.n)]))
    case Publish(id) =>
      if id !in s.senders || !s.senders[id].Claimed? then None
      else
        var p := s.senders[id];
        Some(s.(box := s.box.(files := s.box.files[p.n := p.msg]), senders := s.senders[id := Done(p.msg, p.n)]))
    case Poll => Some(State(Polled(s.box), s.senders, s.delivered + Arrived(s.box), s.passed + PassedOver(s.box)))
  }

  function Run<T>(s: State<T>, events: seq<Event<T>>): Option<State<T>>
    decreases |events|
  {
    if events == [] then Some(s)
    else
      var next :- Step(s, events[0]);
      Run(next, events[1..])
  }

  // ---- what every run keeps ----

  /** The claimed numbers are an initial segment, and no sender has probed past it. */
  ghost predicate SegmentOk<T>(s: State<T>) {
    && (forall n, m :: n in s.box.claims && 0 <= m < n ==> m in s.box.claims)
    && (forall id, m :: id in s.senders && s.senders[id].Probing? && 0 <= m < s.senders[id].n ==> m in s.box.claims)
  }

  ghost predicate HasOwner<T>(s: State<T>, n: nat) {
    exists id :: id in s.senders && s.senders[id].Owns() && s.senders[id].n == n
  }

  /** Each claimed number has one owner. */
  ghost predicate OwnersOk<T>(s: State<T>) {
    && (forall id :: id in s.senders && s.senders[id].Owns() ==> s.senders[id].n in s.box.claims)
    && (forall id, other :: SameNumber(s, id, other) ==> id == other)
    && (forall n :: n in s.box.claims ==> HasOwner(s, n))
  }

  predicate SameNumber<T>(s: State<T>, id: nat, other: nat) {
    id in s.senders && other in s.senders && s.senders[id].Owns() && s.senders[other].Owns()
    && s.senders[id].n == s.senders[other].n
  }

  /** The files are the finished owners' messages. */
  ghost predicate FilesOk<T>(s: State<T>) {
    && (forall id :: id in s.senders && s.senders[id].Claimed? ==> s.senders[id].n !in s.box.files)
    && (forall id :: id in s.senders && s.senders[id].Done? ==>
          s.senders[id].n in s.box.files && s.box.files[s.senders[id].n] == s.senders[id].msg)
    && s.box.files.Keys <= s.box.claims
  }

  ghost predicate DeliveredOk<T>(s: State<T>) {
    && (forall i :: 0 <= i < |s.delivered| ==>
          s.delivered[i].0 in s.box.files && s.box.files[s.delivered[i].0] == s.delivered[i].1
          && s.delivered[i].0 <= s.box.cursor)
    && (forall i, j :: 0 <= i < j < |s.delivered| ==> s.delivered[i].0 < s.delivered[j].0)
    && s.box.cursor < LIMIT
    && (s.box.cursor >= 0 ==> s.box.cursor in s.box.files)
  }

  /** What the cursor has passed was delivered, or was passed over while unpublished, never both. */
  ghost predicate PassedOk<T>(s: State<T>) {
    && (forall n :: n in s.box.claims && n <= s.box.cursor && n !in s.passed ==>
          n in s.box.files && (n, s.box.files[n]) in s.delivered)
    && (forall n :: n in s.passed ==> n in s.box.claims && n <= s.box.cursor && !DeliveredUnder(s, n))
  }

  predicate DeliveredUnder<T>(s: State<T>, n: nat) { exists i :: 0 <= i < |s.delivered| && s.delivered[i].0 == n }

  ghost predicate Inv<T>(s: State<T>) { SegmentOk(s) && OwnersOk(s) && FilesOk(s) && DeliveredOk(s) && PassedOk(s) }

  lemma StepSegment<T>(s: State<T>, e: Event<T>)
    requires SegmentOk(s) && Step(s, e).Some?
    ensures SegmentOk(Step(s, e).value)
  {
    hide Arrived;
  }

  lemma StepOwners<T>(s: State<T>, e: Event<T>)
    requires OwnersOk(s) && Step(s, e).Some?
    ensures OwnersOk(Step(s, e).value)
  {
    hide Arrived, HasOwner;
    var t := Step(s, e).value;
    forall id, other | SameNumber(t, id, other) ensures id == other {
      assert SameNumber(s, id, other) ==> id == other;
    }
    forall n | n in t.box.claims ensures HasOwner(t, n) { StepHasOwner(s, e, n); }
  }

  lemma StepHasOwner<T>(s: State<T>, e: Event<T>, n: nat)
    requires Step(s, e).Some? && n in Step(s, e).value.box.claims
    requires n in s.box.claims ==> HasOwner(s, n)
    ensures HasOwner(Step(s, e).value, n)
  {
    hide Arrived;
    var t := Step(s, e).value;
    if n in s.box.claims {
      var id :| id in s.senders && s.senders[id].Owns() && s.senders[id].n == n;
      assert t.senders[id].Owns() && t.senders[id].n == n;
    } else {
      assert t.senders[e.id].Owns();
    }
  }

  lemma StepFiles<T>(s: State<T>, e: Event<T>)
    requires FilesOk(s) && OwnersOk(s) && Step(s, e).Some?
    ensures FilesOk(Step(s, e).value)
  {
    hide Arrived, HasOwner;
    if e.Publish? {
      forall id | id in s.senders && s.senders[id].Claimed? && id != e.id ensures s.senders[id].n != s.senders[e.id].n {
        assert !SameNumber(s, id, e.id);
      }
    }
  }

  lemma PollDelivered<T(!new)>(s: State<T>)
    requires DeliveredOk(s)
    ensures DeliveredOk(Step(s, Event<T>.Poll).value)
  {
    hide Pending;
    PendingIs(s.box.files, s.box.cursor + 1, LIMIT);
    var pending := Arrived(s.box);
    assert forall i :: 0 <= i < |pending| ==> pending[i] in pending;
  }

  lemma StepDelivered<T(!new)>(s: State<T>, e: Event<T>)
    requires DeliveredOk(s) && FilesOk(s) && Step(s, e).Some?
    ensures DeliveredOk(Step(s, e).value)
  {
    if e.Poll? {
      hide Step, DeliveredOk;
      PollDelivered(s);
    } else {
      hide Arrived, Polled;
    }
  }

  lemma PollPassed<T(!new)>(s: State<T>)
    requires SegmentOk(s) && FilesOk(s) && DeliveredOk(s) && PassedOk(s)
    ensures PassedOk(Step(s, Event<T>.Poll).value)
  {
    hide Pending, SegmentOk;
    PendingIs(s.box.files, s.box.cursor + 1, LIMIT);
    var t, pending := Step(s, Event<T>.Poll).value, Arrived(s.box);
    forall n | n in t.box.claims && n <= t.box.cursor && n !in t.passed
      ensures n in t.box.files && (n, t.box.files[n]) in t.delivered
    {
      if n > s.box.cursor {
        assert pending[|pending| - 1] in pending;
        assert (n, s.box.files[n]) in pending;
      }
    }
    forall n | n in t.passed ensures n <= t.box.cursor && !DeliveredUnder(t, n) { PollKeepsLost(s, n); }
  }

  /** A poll delivers nothing that is passed over, now or before. */
  lemma PollKeepsLost<T(!new)>(s: State<T>, n: nat)
    requires FilesOk(s) && DeliveredOk(s) && PassedOk(s) && n in Step(s, Event<T>.Poll).value.passed
    ensures var t := Step(s, Event<T>.Poll).value; n <= t.box.cursor && !DeliveredUnder(t, n)
  {
    hide Pending;
    PendingIs(s.box.files, s.box.cursor + 1, LIMIT);
    var t, pending := Step(s, Event<T>.Poll).value, Arrived(s.box);
    assert pending != [] ==> pending[|pending| - 1] in pending;
    forall i | 0 <= i < |t.delivered| ensures t.delivered[i].0 != n {
      if i < |s.delivered| {
        assert t.delivered[i] == s.delivered[i];
        assert n in s.passed ==> !DeliveredUnder(s, n);
      } else {
        assert t.delivered[i] in pending;
      }
    }
  }

  lemma StepPassed<T(!new)>(s: State<T>, e: Event<T>)
    requires SegmentOk(s) && FilesOk(s) && DeliveredOk(s) && PassedOk(s) && Step(s, e).Some?
    ensures PassedOk(Step(s, e).value)
  {
    if e.Poll? {
      hide Step, PassedOk, DeliveredOk, FilesOk, SegmentOk;
      PollPassed(s);
    } else {
      hide Arrived, Polled;
    }
  }

  lemma {:induction false} RunInv<T(!new)>(s: State<T>, events: seq<Event<T>>)
    requires Inv(s) && Run(s, events).Some?
    ensures Inv(Run(s, events).value)
    decreases |events|
  {
    hide Step, SegmentOk, OwnersOk, FilesOk, DeliveredOk, PassedOk;
    if events != [] {
      StepSegment(s, events[0]);
      StepOwners(s, events[0]);
      StepFiles(s, events[0]);
      StepDelivered(s, events[0]);
      StepPassed(s, events[0]);
      RunInv(Step(s, events[0]).value, events[1..]);
    }
  }

  ghost predicate Reachable<T(!new)>(s: State<T>) {
    exists events :: Run(Init(), events) == Some(s)
  }

  lemma ReachableInv<T(!new)>(s: State<T>)
    requires Reachable(s)
    ensures Inv(s)
  {
    var events :| Run(Init(), events) == Some(s);
    RunInv(Init(), events);
  }

  // ---- allocation ----

  function Below(n: nat): (r: set<nat>)
    ensures forall m: int :: m in r <==> 0 <= m < n
    ensures |r| == n
  {
    if n == 0 then {} else Below(n - 1) + {n - 1}
  }

  function Owners<T>(s: State<T>): set<nat> { set id | id in s.senders && s.senders[id].Owns() }

  lemma {:induction false} InjectiveSize<T>(s: State<T>, ids: set<nat>, numbers: set<nat>)
    requires ids <= Owners(s)
    requires numbers == set id | id in ids :: s.senders[id].n
    requires forall id, other :: id in ids && other in ids && s.senders[id].n == s.senders[other].n ==> id == other
    ensures |numbers| == |ids|
    decreases |ids|
  {
    if ids != {} {
      var id :| id in ids;
      InjectiveSize(s, ids - {id}, numbers - {s.senders[id].n});
    }
  }

  /** Numbers are handed out without gaps or repeats: as many claims as owners, and exactly the
      numbers below that count. */
  lemma ClaimsAreInitialSegment<T(!new)>(s: State<T>)
    requires Reachable(s)
    ensures |s.box.claims| == |Owners(s)|
    ensures s.box.claims == Below(|s.box.claims|)
    ensures forall id, other :: SameNumber(s, id, other) ==> id == other
  {
    ReachableInv(s);
    hide DeliveredOk, PassedOk, FilesOk, Reachable;
    forall n | n in s.box.claims ensures n in set id | id in Owners(s) :: s.senders[id].n { assert HasOwner(s, n); }
    var claims := s.box.claims;
    assert claims == set id | id in Owners(s) :: s.senders[id].n;
    forall id, other | id in Owners(s) && other in Owners(s) && s.senders[id].n == s.senders[other].n
      ensures id == other
    {
      assert SameNumber(s, id, other);
    }
    InjectiveSize(s, Owners(s), claims);
    var free := FreeFrom(claims, 0);
    assert claims == Below(free) by {
      forall n | n in claims ensures n < free { assert n > free ==> free in claims; }
      forall n | 0 <= n < free ensures n in claims { FreeIsFirst(claims, 0, n); }
    }
  }

  /** Allocation terminates: however probes interleave, a sender that is still probing has failed
      fewer times than there are senders. */
  lemma ProbesBounded<T(!new)>(s: State<T>, id: nat)
    requires Reachable(s) && id in s.senders && s.senders[id].Probing?
    ensures s.senders[id].n < |s.senders|
  {
    ClaimsAreInitialSegment(s);
    ReachableInv(s);
    hide DeliveredOk, PassedOk, OwnersOk, FilesOk, Reachable;
    var n := s.senders[id].n;
    assert Below(n) <= s.box.claims;
    SubsetSize(Below(n), s.box.claims);
    assert Owners(s) <= s.senders.Keys - {id};
    SubsetSize(Owners(s), s.senders.Keys - {id});
  }

  lemma {:induction false} SubsetSize(a: set<nat>, b: set<nat>)
    requires a <= b
    ensures |a| <= |b|
    decreases |a|
  {
    if a != {} {
      var x :| x in a;
      SubsetSize(a - {x}, b - {x});
    }
  }

  // ---- delivery ----

  /** Across all polls the delivered numbers strictly ascend, so nothing is delivered twice or out of
      order; and what is delivered under a number is what its one owner sent. */
  lemma AtMostOnceInOrder<T(!new)>(s: State<T>)
    requires Reachable(s)
    ensures forall i, j :: 0 <= i < j < |s.delivered| ==> s.delivered[i].0 < s.delivered[j].0
    ensures forall i :: 0 <= i < |s.delivered| ==> SentBySomeone(s, s.delivered[i])
  {
    hide Reachable;
    ReachableInv(s);
    hide SegmentOk, PassedOk;
    forall i | 0 <= i < |s.delivered| ensures SentBySomeone(s, s.delivered[i]) {
      var n := s.delivered[i].0;
      assert n in s.box.claims && HasOwner(s, n);
      var id :| id in s.senders && s.senders[id].Owns() && s.senders[id].n == n;
      assert s.senders[id] == Done(s.delivered[i].1, n);
    }
  }

  predicate SentBySomeone<T(==)>(s: State<T>, x: (nat, T)) {
    exists id :: id in s.senders && s.senders[id] == Done(x.1, x.0)
  }

  /** Event k is a poll that found n claimed and unpublished, and left the cursor above it: it
      returned, or an earlier poll had returned, a number above n. */
  predicate PollsPast<T>(s: State<T>, events: seq<Event<T>>, k: nat, n: nat) {
    k < |events| && events[k].Poll? &&
    var t := Run(s, events[..k]);
    t.Some? && n in Unpublished(t.value.box) && n < Polled(t.value.box).cursor
  }

  ghost predicate PolledPast<T>(s: State<T>, events: seq<Event<T>>, n: nat) {
    exists k :: 0 <= k < |events| && PollsPast(s, events, k, n)
  }

  lemma {:induction false} RunSplit<T>(s: State<T>, a: seq<Event<T>>, b: seq<Event<T>>)
    ensures Run(s, a + b) == if Run(s, a).Some? then Run(Run(s, a).value, b) else None
    decreases |a|
  {
    hide Step;
    if a == [] {
      assert a + b == b;
    } else {
      assert (a + b)[1..] == a[1..] + b;
      if Step(s, a[0]).Some? { RunSplit(Step(s, a[0]).value, a[1..], b); }
    }
  }

  /** The cursor's own number is published, so an open claim at or below it is below it. */
  lemma OpenBelow<T>(s: State<T>, n: nat)
    requires DeliveredOk(s) && n in Unpublished(s.box) && n <= s.box.cursor
    ensures n < s.box.cursor
  {}

  lemma {:induction false} PassedGrows<T>(s: State<T>, events: seq<Event<T>>, n: nat)
    requires Run(s, events).Some? && n in s.passed
    ensures n in Run(s, events).value.passed
    decreases |events|
  {
    if events != [] {
      var t := Step(s, events[0]).value;
      assert n in t.passed by { hide Arrived, Polled, Unpublished, PassedOver; }
      hide Step;
      PassedGrows(t, events[1..], n);
    }
  }

  lemma {:induction false} PassedMeansPolled<T(!new)>(s: State<T>, events: seq<Event<T>>, n: nat)
    requires Inv(s) && Run(s, events).Some? && n !in s.passed
    ensures n in Run(s, events).value.passed <==> PolledPast(s, events, n)
    decreases |events|
  {
    hide Inv, Step, PassedOver, Unpublished, Polled;
    if events != [] {
      var t := Step(s, events[0]).value;
      assert Inv(t) by { OneStepInv(s, events[0]); }
      PassedAtOnce(s, events[0], n);
      assert events[..0] == [];
      if n in t.passed {
        PassedGrows(t, events[1..], n);
        assert PollsPast(s, events, 0, n);
      } else {
        assert !PollsPast(s, events, 0, n);
        PassedMeansPolled(t, events[1..], n);
        forall k | 0 <= k < |events| - 1 ensures PollsPast(s, events, k + 1, n) <==> PollsPast(t, events[1..], k, n) {
          assert events[..k + 1][1..] == events[1..][..k];
        }
        if PolledPast(t, events[1..], n) {
          var k :| 0 <= k < |events[1..]| && PollsPast(t, events[1..], k, n);
          assert PollsPast(s, events, k + 1, n);
        }
        if PolledPast(s, events, n) {
          var k :| 0 <= k < |events| && PollsPast(s, events, k, n);
          assert PollsPast(t, events[1..], k - 1, n);
        }
      }
    }
  }

  lemma OneStepInv<T(!new)>(s: State<T>, e: Event<T>)
    requires Inv(s) && Step(s, e).Some?
    ensures Inv(Step(s, e).value)
  {
    hide Step, SegmentOk, OwnersOk, FilesOk, DeliveredOk, PassedOk;
    StepSegment(s, e);
    StepOwners(s, e);
    StepFiles(s, e);
    StepDelivered(s, e);
    StepPassed(s, e);
  }

  /** One event passes n over exactly when it is such a poll. */
  lemma PassedAtOnce<T(!new)>(s: State<T>, e: Event<T>, n: nat)
    requires Inv(s) && Step(s, e).Some? && n !in s.passed
    ensures n in Step(s, e).value.passed <==> e.Poll? && n in Unpublished(s.box) && n < Polled(s.box).cursor
  {
    if e.Poll? {
      OneStepInv(s, e);
      hide SegmentOk, OwnersOk, FilesOk, PassedOk, Arrived;
      var t := Step(s, e).value;
      if n in Unpublished(s.box) && n <= t.box.cursor { OpenBelow(t, n); }
    } else {
      hide SegmentOk, OwnersOk, FilesOk, PassedOk, DeliveredOk, Arrived, Polled, Unpublished;
    }
  }

  /** Whatever happens from here on, the message is not among those delivered. */
  ghost predicate Lost<T(!new)>(events: seq<Event<T>>, n: nat) {
    forall more: seq<Event<T>> :: NotDelivered(events + more, n)
  }

  predicate NotDelivered<T>(events: seq<Event<T>>, n: nat) {
    Run(Init<T>(), events).Some? ==> !DeliveredUnder(Run(Init<T>(), events).value, n)
  }

  /** Exactly which published messages are lost: those with more than twelve digits, and those some
      poll went past while they were claimed and unpublished. Every other one has been delivered, or
      the next poll delivers it. */
  lemma LostExactly<T(!new)>(events: seq<Event<T>>, n: nat)
    requires Run(Init<T>(), events).Some? && n in Run(Init<T>(), events).value.box.files
    ensures Lost(events, n) <==> n >= LIMIT || PolledPast(Init(), events, n)
  {
    hide Run, Step, Inv, PolledPast;
    var s := Run(Init<T>(), events).value;
    assert Inv(Init<T>()) by { InitInv<T>(); }
    PassedMeansPolled(Init(), events, n);
    if n >= LIMIT {
      forall more: seq<Event<T>> ensures NotDelivered(events + more, n) { LateNeverDelivered(events + more, n); }
    } else if n in s.passed {
      forall more: seq<Event<T>> ensures NotDelivered(events + more, n) { PassedNeverDelivered(events, more, n); }
    } else {
      OtherwiseDelivered(events, n);
    }
  }

  lemma LateNeverDelivered<T(!new)>(events: seq<Event<T>>, n: nat)
    requires n >= LIMIT
    ensures NotDelivered(events, n)
  {
    hide Run, SegmentOk, OwnersOk, FilesOk, PassedOk;
    if Run(Init<T>(), events).Some? {
      var t := Run(Init<T>(), events).value;
      assert Reachable(t);
      hide Reachable;
      ReachableInv(t);
    }
  }

  lemma InitInv<T>()
    ensures Inv(Init<T>())
  {}

  lemma PassedNeverDelivered<T(!new)>(events: seq<Event<T>>, more: seq<Event<T>>, n: nat)
    requires Run(Init<T>(), events).Some? && n in Run(Init<T>(), events).value.passed
    ensures NotDelivered(events + more, n)
  {
    hide Run, Step, DeliveredUnder, SegmentOk, OwnersOk, FilesOk, DeliveredOk;
    RunSplit(Init<T>(), events, more);
    if Run(Init<T>(), events + more).Some? {
      var t := Run(Init<T>(), events + more).value;
      PassedGrows(Run(Init<T>(), events).value, more, n);
      assert Reachable(t);
      hide Reachable;
      ReachableInv(t);
    }
  }

  lemma OtherwiseDelivered<T(!new)>(events: seq<Event<T>>, n: nat)
    requires Run(Init<T>(), events).Some?
    requires var s := Run(Init<T>(), events).value; n in s.box.files && n !in s.passed && n < LIMIT
    ensures !NotDelivered(events + [], n) || !NotDelivered(events + [Poll], n)
  {
    var s := Run(Init<T>(), events).value;
    RunSplit(Init<T>(), events, [Poll]);
    assert events + [] == events;
    var poll: seq<Event<T>> := [Poll];
    RunStep(s, poll, Step(s, Event<T>.Poll).value);
    assert poll[1..] == [] && Run(Step(s, Event<T>.Poll).value, []) == Step(s, Event<T>.Poll);
    hide Run;
    assert Reachable(s);
    hide Reachable;
    ReachableInv(s);
    hide SegmentOk, OwnersOk, DeliveredOk, Pending;
    if n <= s.box.cursor {
      assert (n, s.box.files[n]) in s.delivered;
    } else {
      PendingIs(s.box.files, s.box.cursor + 1, LIMIT);
      assert (n, s.box.files[n]) in Arrived(s.box);
      var i :| 0 <= i < |Arrived(s.box)| && Arrived(s.box)[i] == (n, s.box.files[n]);
      var t := Step(s, Event<T>.Poll).value;
      assert t.delivered[|s.delivered| + i].0 == n;
    }
  }

  /** When no poll ever went past an open claim, one more poll makes the deliveries all there is,
      in order: the exactly-once case. */
  lemma NothingSkipped<T(!new)>(s: State<T>)
    requires Reachable(s) && s.passed == {}
    ensures Step(s, Event<T>.Poll).value.delivered == Pending(s.box.files, 0, LIMIT)
  {
    hide Reachable, Pending;
    ReachableInv(s);
    hide SegmentOk;
    forall n | n in s.box.files && n <= s.box.cursor ensures (n, s.box.files[n]) in s.delivered {}
    hide OwnersOk, FilesOk, PassedOk;
    DeliveredAndPending(s.box, s.delivered);
  }

  lemma DeliveredAndPending<T(!new)>(box: Box<T>, delivered: seq<(nat, T)>)
    requires box.cursor < LIMIT
    requires forall i :: 0 <= i < |delivered| ==>
      delivered[i].0 in box.files && box.files[delivered[i].0] == delivered[i].1 && delivered[i].0 <= box.cursor
    requires forall i, j :: 0 <= i < j < |delivered| ==> delivered[i].0 < delivered[j].0
    requires forall n :: n in box.files && n <= box.cursor ==> (n, box.files[n]) in delivered
    ensures delivered + Arrived(box) == Pending(box.files, 0, LIMIT)
  {
    hide Pending;
    PendingIs(box.files, 0, LIMIT);
    PendingIs(box.files, box.cursor + 1, LIMIT);
    var pending, all := Arrived(box), Pending(box.files, 0, LIMIT);
    var out := delivered + pending;
    assert forall j :: 0 <= j < |pending| ==> pending[j] in pending;
    forall x ensures x in out <==> x in all {
      assert x in out <==> x in delivered || x in pending;
    }
    hide Arrived;
    AscendingSame(out, all);
  }

  lemma {:induction false} AscendingSame<T(!new)>(a: seq<(nat, T)>, b: seq<(nat, T)>)
    requires forall i, j :: 0 <= i < j < |a| ==> a[i].0 < a[j].0
    requires forall i, j :: 0 <= i < j < |b| ==> b[i].0 < b[j].0
    requires forall x :: x in a <==> x in b
    ensures a == b
    decreases |a|
  {
    assert a != [] ==> a[0] in b;
    assert b != [] ==> b[0] in a;
    if a != [] {
      assert a[0] == b[0];
      forall x ensures x in a[1..] <==> x in b[1..] {
        assert x in a[1..] ==> x in a && x != a[0];
        assert x in b[1..] ==> x in b && x != b[0];
        assert a == [a[0]] + a[1..] && b == [b[0]] + b[1..];
      }
      AscendingSame(a[1..], b[1..]);
      assert a == [a[0]] + a[1..] && b == [b[0]] + b[1..];
    }
  }

  lemma RunStep<T>(s: State<T>, events: seq<Event<T>>, t: State<T>)
    requires events != [] && Step(s, events[0]) == Some(t)
    ensures Run(s, events) == Run(t, events[1..])
  {}

  /** Both senders claim, and only the second publishes. */
  function Opening<T>(a: T, b: T): seq<Event<T>> {
    [Begin(0, a), Begin(1, b), Probe(0), Probe(1), Probe(1), Publish(1)]
  }

  lemma OpeningState<T>(a: T, b: T)
    ensures Run(Init(), Opening(a, b)) == Some(State(Box({0, 1}, map[1 := b], -1),
                                                     map[0 := Claimed(a, 0), 1 := Done(b, 1)], [], {}))
  {
    var e := Opening(a, b);
    var s1 := Step(Init(), e[0]).value;
    var s2 := Step(s1, e[1]).value;
    assert s2.senders == map[0 := Probing(a, 0), 1 := Probing(b, 0)];
    var s3 := Step(s2, e[2]).value;
    assert s3.senders == map[0 := Claimed(a, 0), 1 := Probing(b, 0)] && s3.box.claims == {0};
    var s4 := Step(s3, e[3]).value;
    assert s4.senders == map[0 := Claimed(a, 0), 1 := Probing(b, 1)];
    var s5 := Step(s4, e[4]).value;
    assert s5.senders == map[0 := Claimed(a, 0), 1 := Claimed(b, 1)] && s5.box.claims == {0, 1};
    var s6 := Step(s5, e[5]).value;
    assert s6.senders == map[0 := Claimed(a, 0), 1 := Done(b, 1)] && s6.box.files == map[1 := b];
    RunStep(s5, e[5..], s6);
    assert e[5..][1..] == [] && Run(s6, []) == Some(s6);
    hide Step, Run;
    RunStep(s4, e[4..], s5);
    RunStep(s3, e[3..], s4);
    RunStep(s2, e[2..], s3);
    RunStep(s1, e[1..], s2);
    RunStep(Init(), e, s1);
    assert e[1..][1..] == e[2..] && e[2..][1..] == e[3..] && e[3..][1..] == e[4..] && e[4..][1..] == e[5..];
  }

  /** Skipping does happen: after the opening a poll delivers 1; then the first sender publishes
      under 0, and no later poll returns its message. */
  lemma SkipHappens<T>(a: T, b: T)
    ensures var s := Run(Init(), Opening(a, b));
      && s.Some?
      && Run(s.value, [Poll, Publish(0), Poll]).Some?
      && Run(s.value, [Poll, Publish(0), Poll]).value.box.files == map[0 := a, 1 := b]
      && Run(s.value, [Poll, Publish(0), Poll]).value.delivered == [(1, b)]
  {
    OpeningState(a, b);
    hide Opening, Pending;
    var e: seq<Event<T>> := [Poll, Publish(0), Poll];
    var s0 := Run(Init(), Opening(a, b)).value;
    var none: map<nat, T> := map[];
    PendingNone(none, 0, LIMIT);
    PendingInsert(none, 1, b, 0, LIMIT);
    assert none[1 := b] == s0.box.files;
    assert Arrived(s0.box) == [(1, b)];
    var s1 := Step(s0, Poll).value;
    var s2 := Step(s1, Event<T>.Publish(0)).value;
    PendingNone(none, 2, LIMIT);
    PendingOutside(none, 1, b, 2, LIMIT);
    PendingOutside(none[1 := b], 0, a, 2, LIMIT);
    assert Arrived(s2.box) == [];
    RunStep(s0, e, s1);
    assert e[1..] == [Publish(0), Poll] && e[1..][1..] == [Poll] && [Event<T>.Poll][1..] == [];
    RunStep(s1, e[1..], s2);
    RunStep(s2, [Poll], Step(s2, Poll).value);
    assert s2.box.files == map[0 := a, 1 := b];
  }
}
