/** Any number of `consume_and_execute` calls, interleaved step by step, while time passes and
    revocations arrive. */
module ExecutorRuns {
  import opened Prelude
  import opened Wire
  import opened Verification
  import opened Executor
  import NonceStores

  /** The permit check of a call: when it was made and what was revoked then. */
  datatype Ticket = Ticket(when: int, revoked: set<Revocation>)

  datatype Phase =
    | Arrived
    | Checked(ticket: Ticket)
    | Matched(ticket: Ticket)
    | Spent(ticket: Ticket)
    | Performed
    | Filed
    | Crashed
    | Turned

  datatype Caller = Caller(request: Request, phase: Phase)
  datatype Effect = Effect(caller: nat, request: Request, ticket: Ticket)

  /** `spentBy` is the marker set of the nonce store; each marker remembers the call that created it. */
  datatype State = State(now: int, revocations: set<Revocation>, spentBy: map<string, nat>,
                         callers: map<nat, Caller>, effects: seq<Effect>, receipts: seq<nat>)

  datatype Event =
    | Arrive(id: nat, request: Request)
    | Check(id: nat)
    | Match(id: nat)
    | Consume(id: nat)
    | Perform(id: nat)
    | File(id: nat, crash: bool)
    | Tick(to: int)
    | Revoke(r: Revocation)

  /** The fixed surroundings, and the marker a (run_id, nonce) pair is filed under: the pair itself
      for the in-memory store, a file name for the file store. */
  datatype World = World(env: Env, pe: ProofEnv, slot: NonceStores.Pair -> string)

  function EnvAt(w: World, revoked: set<Revocation>): Env { w.env.(revocations := revoked) }

  function PairOf(r: Request): NonceStores.Pair
    requires r.permit.Dict?
  {
    (r.permit.obj.subject.runId, r.permit.obj.subject.nonce)
  }

  function SlotOf(w: World, r: Request): string
    requires r.permit.Dict?
  {
    w.slot(PairOf(r))
  }

  function Move(s: State, id: nat, phase: Phase): State
    requires id in s.callers
  {
    s.(callers := s.callers[id := Caller(s.callers[id].request, phase)])
  }

  const Init := State(0, {}, map[], map[], [], [])

  /** The match step on a request whose permit has been checked. */
  predicate Matches(w: World, r: Request) {
    r.permit.Dict? && r.permit.obj.subject.body.Permit? &&
    MatchOk(w.env.codec.sha, r.permit.obj.subject.body.constraints, r.tool, r.arguments)
  }

  /** One atomic step; None when the event cannot happen now. */
  function Step(w: World, s: State, e: Event): Option<State> {
    match e
    case Tick(to) => if s.now <= to then Some(s.(now := to)) else None
    case Revoke(r) => Some(s.(revocations := s.revocations + {r}))
    case Arrive(id, request) =>
      if id in s.callers then None else Some(s.(callers := s.callers[id := Caller(request, Arrived)]))
    case _ =>
      if e.id !in s.callers then None else CallerStep(w, s, e)
  }

  function CallerStep(w: World, s: State, e: Event): Option<State>
    requires !e.Tick? && !e.Revoke? && !e.Arrive? && e.id in s.callers
  {
    var c := s.callers[e.id];
    match e
    case Check(id) =>
      if !c.phase.Arrived? then None
      else if PermitOk(EnvAt(w, s.revocations), w.pe, c.request, s.now) then
        Some(Move(s, id, Checked(Ticket(s.now, s.revocations))))
      else Some(Move(s, id, Turned))
    case Match(id) =>
      if !c.phase.Checked? then None
      else if Matches(w, c.request) then Some(Move(s, id, Matched(c.phase.ticket)))
      else Some(Move(s, id, Turned))
    case Consume(id) =>
      if !c.phase.Matched? || c.request.permit.NotADict? then None
      else if SlotOf(w, c.request) in s.spentBy then Some(Move(s, id, Turned))
      else Some(Move(s, id, Spent(c.phase.ticket)).(spentBy := s.spentBy[SlotOf(w, c.request) := id]))
    case Perform(id) =>
      if !c.phase.Spent? then None
      else Some(Move(s, id, Performed).(effects := s.effects + [Effect(id, c.request, c.phase.ticket)]))
    case File(id, crash) =>
      if !c.phase.Performed? then None
      else if crash then Some(Move(s, id, Crashed))
      else Some(Move(s, id, Filed).(receipts := s.receipts + [id]))
  }

  function Run(w: World, s: State, events: seq<Event>): Option<State>
    decreases |events|
  {
    if events == [] then Some(s)
    else
      var next :- Step(w, s, events[0]);
      Run(w, next, events[1..])
  }

  // ---- invariants of every run ----

  predicate Acted(p: Phase) { p.Performed? || p.Filed? || p.Crashed? }
  predicate Late(p: Phase) { p.Spent? || Acted(p) }

  /** The permit of the request was good when the ticket was cut, for this very call. */
  predicate Earned(w: World, r: Request, t: Ticket) {
    PermitOk(EnvAt(w, t.revoked), w.pe, r, t.when)
  }

  predicate Past(s: State, t: Ticket) { t.when <= s.now && t.revoked <= s.revocations }

  /** A call past its check holds an earned ticket; past its match, it also matches. */
  predicate CallerOk(w: World, s: State, c: Caller) {
    && (c.phase.Checked? ==> Earned(w, c.request, c.phase.ticket) && Past(s, c.phase.ticket))
    && (c.phase.Matched? || c.phase.Spent? ==>
          Earned(w, c.request, c.phase.ticket) && Past(s, c.phase.ticket) && Matches(w, c.request))
  }

  predicate EffectOk(w: World, s: State, e: Effect) {
    Earned(w, e.request, e.ticket) && Past(s, e.ticket) && Matches(w, e.request)
  }

  ghost predicate TicketsOk(w: World, s: State) {
    && (forall id :: id in s.callers ==> CallerOk(w, s, s.callers[id]))
    && (forall i :: 0 <= i < |s.effects| ==> EffectOk(w, s, s.effects[i]))
  }

  ghost predicate MarkersOk(w: World, s: State) {
    && (forall id :: id in s.callers && Late(s.callers[id].phase) ==>
          s.callers[id].request.permit.Dict? && SlotOf(w, s.callers[id].request) in s.spentBy
          && s.spentBy[SlotOf(w, s.callers[id].request)] == id)
    && (forall slot :: slot in s.spentBy ==>
          s.spentBy[slot] in s.callers && Late(s.callers[s.spentBy[slot]].phase)
          && s.callers[s.spentBy[slot]].request.permit.Dict? && SlotOf(w, s.callers[s.spentBy[slot]].request) == slot)
  }

  ghost predicate EffectsOk(s: State) {
    && (forall i, j :: 0 <= i < j < |s.effects| ==> s.effects[i].caller != s.effects[j].caller)
    && (forall i :: 0 <= i < |s.effects| ==>
          s.effects[i].caller in s.callers && Acted(s.callers[s.effects[i].caller].phase)
          && s.effects[i].request == s.callers[s.effects[i].caller].request)
    && (forall id :: id in s.callers && Acted(s.callers[id].phase) ==>
          exists i :: 0 <= i < |s.effects| && s.effects[i].caller == id)
  }

  ghost predicate ReceiptsOk(s: State) {
    && Distinct(s.receipts)
    && (forall id :: id in s.receipts <==> id in s.callers && s.callers[id].phase.Filed?)
  }

  ghost predicate Inv(w: World, s: State) {
    TicketsOk(w, s) && MarkersOk(w, s) && EffectsOk(s) && ReceiptsOk(s)
  }

  lemma StepLater(w: World, s: State, e: Event)
    requires Step(w, s, e).Some?
    ensures var t := Step(w, s, e).value; s.now <= t.now && s.revocations <= t.revocations
  {
    hide PermitOk, Matches, SlotOf;
  }

  lemma OkLater(w: World, s: State, t: State, c: Caller, e: Effect)
    requires s.now <= t.now && s.revocations <= t.revocations
    ensures CallerOk(w, s, c) ==> CallerOk(w, t, c)
    ensures EffectOk(w, s, e) ==> EffectOk(w, t, e)
  {
    hide Earned, Matches;
  }

  /** The caller a step touches is in order after it. */
  lemma TouchedOk(w: World, s: State, e: Event)
    requires Step(w, s, e).Some? && !e.Tick? && !e.Revoke?
    requires e.id in s.callers ==> CallerOk(w, s, s.callers[e.id])
    ensures var t := Step(w, s, e).value; e.id in t.callers && CallerOk(w, t, t.callers[e.id])
  {
    hide PermitOk, Matches, SlotOf;
  }

  lemma StepTickets(w: World, s: State, e: Event)
    requires TicketsOk(w, s) && Step(w, s, e).Some?
    ensures TicketsOk(w, Step(w, s, e).value)
  {
    StepLater(w, s, e);
    if !e.Tick? && !e.Revoke? { TouchedOk(w, s, e); }
    hide CallerOk, PermitOk, Matches, SlotOf, Earned, Past;
    var t := Step(w, s, e).value;
    forall id | id in t.callers ensures CallerOk(w, t, t.callers[id]) {
      if id in s.callers && t.callers[id] == s.callers[id] {
        OkLater(w, s, t, s.callers[id], Effect(id, s.callers[id].request, Ticket(0, {})));
      }
    }
    forall i | 0 <= i < |t.effects| ensures EffectOk(w, t, t.effects[i]) { StepEffectOk(w, s, e, i); }
  }

  lemma StepEffectOk(w: World, s: State, e: Event, i: nat)
    requires TicketsOk(w, s) && Step(w, s, e).Some? && i < |Step(w, s, e).value.effects|
    ensures EffectOk(w, Step(w, s, e).value, Step(w, s, e).value.effects[i])
  {
    hide Earned, Matches, PermitOk, SlotOf;
    StepLater(w, s, e);
    if e.Perform? { assert CallerOk(w, s, s.callers[e.id]); }
    if i < |s.effects| { assert EffectOk(w, s, s.effects[i]); }
  }

  /** A step that spends nothing leaves every request, marker and late phase as they were. */
  ghost predicate SameSpending(s: State, t: State) {
    && t.spentBy == s.spentBy
    && s.callers.Keys <= t.callers.Keys
    && (forall id :: id in t.callers && id in s.callers ==>
          t.callers[id].request == s.callers[id].request
          && (Late(t.callers[id].phase) <==> Late(s.callers[id].phase)))
    && (forall id :: id in t.callers && id !in s.callers ==> !Late(t.callers[id].phase))
  }

  lemma KeepMarkers(w: World, s: State, t: State)
    requires MarkersOk(w, s) && SameSpending(s, t)
    ensures MarkersOk(w, t)
  {
    hide SlotOf, Late;
  }

  lemma SpendMarker(w: World, s: State, id: nat)
    requires MarkersOk(w, s) && Step(w, s, Consume(id)).Some?
    ensures MarkersOk(w, Step(w, s, Consume(id)).value)
  {
    hide SlotOf, PermitOk, Matches;
    var t := Step(w, s, Consume(id)).value;
    if t.spentBy == s.spentBy { KeepMarkers(w, s, t); }
  }

  lemma StepMarkers(w: World, s: State, e: Event)
    requires MarkersOk(w, s) && Step(w, s, e).Some?
    ensures MarkersOk(w, Step(w, s, e).value)
  {
    hide Step, SameSpending, MarkersOk;
    if e.Consume? {
      SpendMarker(w, s, e.id);
    } else {
      StepSpending(w, s, e);
      KeepMarkers(w, s, Step(w, s, e).value);
    }
  }

  lemma StepSpending(w: World, s: State, e: Event)
    requires !e.Consume? && Step(w, s, e).Some?
    ensures SameSpending(s, Step(w, s, e).value)
  {
    hide PermitOk, Matches, SlotOf;
  }

  lemma KeepEffects(s: State, t: State)
    requires EffectsOk(s) && t.effects == s.effects && s.callers.Keys <= t.callers.Keys
    requires forall id :: id in t.callers && id in s.callers ==>
      t.callers[id].request == s.callers[id].request && (Acted(t.callers[id].phase) <==> Acted(s.callers[id].phase))
    requires forall id :: id in t.callers && id !in s.callers ==> !Acted(t.callers[id].phase)
    ensures EffectsOk(t)
  {
    hide Acted;
  }

  lemma PerformEffect(w: World, s: State, id: nat)
    requires EffectsOk(s) && Step(w, s, Perform(id)).Some?
    ensures EffectsOk(Step(w, s, Perform(id)).value)
  {
    var t := Step(w, s, Perform(id)).value;
    assert t.effects[|s.effects|].caller == id;
    forall k | k in t.callers && Acted(t.callers[k].phase)
      ensures exists i :: 0 <= i < |t.effects| && t.effects[i].caller == k
    {
      if k != id {
        var i :| 0 <= i < |s.effects| && s.effects[i].caller == k;
        assert t.effects[i].caller == k;
      }
    }
  }

  /** A step that performs nothing leaves every effect and every acted call as they were. */
  lemma StepActing(w: World, s: State, e: Event)
    requires !e.Perform? && Step(w, s, e).Some?
    ensures var t := Step(w, s, e).value;
      && t.effects == s.effects && s.callers.Keys <= t.callers.Keys
      && (forall id :: id in t.callers && id in s.callers ==>
            t.callers[id].request == s.callers[id].request
            && (Acted(t.callers[id].phase) <==> Acted(s.callers[id].phase)))
      && (forall id :: id in t.callers && id !in s.callers ==> !Acted(t.callers[id].phase))
  {
    hide PermitOk, Matches, SlotOf;
  }

  lemma StepEffects(w: World, s: State, e: Event)
    requires EffectsOk(s) && Step(w, s, e).Some?
    ensures EffectsOk(Step(w, s, e).value)
  {
    hide Step, EffectsOk, Acted;
    if e.Perform? {
      PerformEffect(w, s, e.id);
    } else {
      StepActing(w, s, e);
      KeepEffects(s, Step(w, s, e).value);
    }
  }

  lemma StepReceipts(w: World, s: State, e: Event)
    requires ReceiptsOk(s) && Step(w, s, e).Some?
    ensures ReceiptsOk(Step(w, s, e).value)
  {
    hide PermitOk, Matches;
  }

  lemma {:induction false} RunInv(w: World, s: State, events: seq<Event>)
    requires Inv(w, s) && Run(w, s, events).Some?
    ensures Inv(w, Run(w, s, events).value)
    decreases |events|
  {
    hide Step, TicketsOk, MarkersOk, EffectsOk, ReceiptsOk;
    if events != [] {
      StepTickets(w, s, events[0]);
      StepMarkers(w, s, events[0]);
      StepEffects(w, s, events[0]);
      StepReceipts(w, s, events[0]);
      RunInv(w, Step(w, s, events[0]).value, events[1..]);
    }
  }

  ghost predicate Reachable(w: World, s: State) {
    exists events :: Run(w, Init, events) == Some(s)
  }

  lemma ReachableInv(w: World, s: State)
    requires Reachable(w, s)
    ensures Inv(w, s)
  {
    var events :| Run(w, Init, events) == Some(s);
    RunInv(w, Init, events);
  }

  /** Every (run_id, nonce) has at most one effect, under every interleaving. */
  lemma AtMostOneEffect(w: World, s: State, i: nat, j: nat)
    requires Reachable(w, s) && i < |s.effects| && j < |s.effects|
    ensures s.effects[i].request.permit.Dict? && s.effects[j].request.permit.Dict?
    ensures var a, b := s.effects[i].request.permit.obj.subject, s.effects[j].request.permit.obj.subject;
      a.runId == b.runId && a.nonce == b.nonce ==> i == j
  {
    ReachableInv(w, s);
  }

  /** Every effect was earned: at some earlier moment its permit verified at an enforcement grade
      for its sender, and its tool and arguments are the ones the permit binds. */
  lemma EffectsEarned(w: World, s: State, i: nat)
    requires Reachable(w, s) && i < |s.effects|
    ensures var e := s.effects[i];
      && e.ticket.when <= s.now && e.ticket.revoked <= s.revocations
      && Authorised(EnvAt(w, e.ticket.revoked), w.pe, e.request, e.ticket.when)
      && Entitled(EnvAt(w, e.ticket.revoked), w.pe, e.request, e.ticket.when)
  {
    ReachableInv(w, s);
    var e := s.effects[i];
    AuthorisedExactly(EnvAt(w, e.ticket.revoked), w.pe, e.request, e.ticket.when);
    hide Authorised, Entitled;
  }

  /** A permit that names a sender or a key has an effect only for that sender, with a proof that this
      key signed over this very permit and nonce. */
  lemma ConstrainedEffectsProven(w: World, s: State, i: nat)
    requires Reachable(w, s) && i < |s.effects|
    ensures var e := s.effects[i];
      && e.request.permit.Dict? && e.request.permit.obj.subject.body.Permit?
      && var o := e.request.permit.obj;
      (o.subject.body.aud.Some? || o.subject.body.cnf.Some? ==>
         && o.subject.body.aud.Some? && o.subject.body.cnf.Some? && e.request.identity == o.subject.body.aud
         && ProvesKey(w.pe, o, e.request.proof, o.subject.body.cnf.value))
  {
    hide Reachable, Authorised, ProvesKey;
    EffectsEarned(w, s, i);
  }

  // ---- conservation ----

  /** Calls that spent their nonce and have not performed yet. */
  function SpentCalls(s: State): set<nat> { set id | id in s.callers && s.callers[id].phase.Spent? }
  function ActedCalls(s: State): set<nat> { set id | id in s.callers && Acted(s.callers[id].phase) }
  function FiledCalls(s: State): set<nat> { set id | id in s.callers && s.callers[id].phase.Filed? }

  /** Calls whose effect happened but whose receipt is still to be filed, or never will be. */
  function UnfiledCalls(s: State): set<nat> {
    set id | id in s.callers && (s.callers[id].phase.Performed? || s.callers[id].phase.Crashed?)
  }

  function SetOf(xs: seq<nat>): set<nat> { set x | x in xs }

  lemma {:induction false} SetOfDistinct(xs: seq<nat>)
    requires Distinct(xs)
    ensures |SetOf(xs)| == |xs|
  {
    if xs != [] {
      var init, last := xs[..|xs| - 1], xs[|xs| - 1];
      SetOfDistinct(init);
      assert SetOf(xs) == SetOf(init) + {last};
      assert last !in init;
    }
  }

  lemma {:induction false} InjectiveMap(m: map<string, nat>)
    requires forall a, b :: a in m && b in m && m[a] == m[b] ==> a == b
    ensures |m.Values| == |m|
    decreases |m|
  {
    if m != map[] {
      var k :| k in m;
      var rest := m - {k};
      InjectiveMap(rest);
      forall v | v in m.Values ensures v in rest.Values + {m[k]} {
        var a :| a in m && m[a] == v;
        if a != k { assert rest[a] == v; }
      }
      assert m.Values == rest.Values + {m[k]};
      assert m[k] !in rest.Values;
      assert m.Keys == rest.Keys + {k};
    }
  }

  lemma SpentValues(w: World, s: State)
    requires MarkersOk(w, s)
    ensures s.spentBy.Values == ActedCalls(s) + SpentCalls(s)
    ensures ActedCalls(s) !! SpentCalls(s)
  {
    hide SlotOf, Acted;
    forall id | id in ActedCalls(s) + SpentCalls(s) ensures id in s.spentBy.Values {
      assert Late(s.callers[id].phase);
      assert s.spentBy[SlotOf(w, s.callers[id].request)] == id;
    }
    SpentNotActed(s);
  }

  lemma SpentNotActed(s: State)
    ensures ActedCalls(s) !! SpentCalls(s)
  {}

  lemma SpentCount(w: World, s: State)
    requires MarkersOk(w, s)
    ensures |s.spentBy| == |ActedCalls(s)| + |SpentCalls(s)|
  {
    hide SlotOf, Acted, ActedCalls, SpentCalls;
    InjectiveMap(s.spentBy);
    SpentValues(w, s);
    hide MarkersOk;
    assert |ActedCalls(s) + SpentCalls(s)| == |ActedCalls(s)| + |SpentCalls(s)|;
  }

  lemma EffectCount(s: State)
    requires EffectsOk(s)
    ensures |s.effects| == |ActedCalls(s)|
  {
    var actors := seq(|s.effects|, i requires 0 <= i < |s.effects| => s.effects[i].caller);
    SetOfDistinct(actors);
    forall id | id in ActedCalls(s) ensures id in actors {
      var i :| 0 <= i < |s.effects| && s.effects[i].caller == id;
      assert actors[i] == id;
    }
    assert SetOf(actors) == ActedCalls(s);
  }

  /** Every spent nonce is an effect or a call about to perform one, and every effect is a receipt,
      a call about to file one, or a crash. So receipts never outnumber effects, nor effects nonces. */
  lemma Conservation(w: World, s: State)
    requires Reachable(w, s)
    ensures |s.spentBy| == |s.effects| + |SpentCalls(s)|
    ensures |s.effects| == |s.receipts| + |UnfiledCalls(s)|
    ensures |s.receipts| <= |s.effects| <= |s.spentBy|
  {
    ReachableInv(w, s);
    hide MarkersOk, EffectsOk, TicketsOk, ReceiptsOk, Reachable;
    SpentCount(w, s);
    EffectCount(s);
    ReceiptCount(s);
  }

  lemma ReceiptCount(s: State)
    requires ReceiptsOk(s)
    ensures |ActedCalls(s)| == |s.receipts| + |UnfiledCalls(s)|
  {
    SetOfDistinct(s.receipts);
    assert SetOf(s.receipts) == FiledCalls(s);
    var filed, unfiled := FiledCalls(s), UnfiledCalls(s);
    assert filed !! unfiled;
    assert ActedCalls(s) == filed + unfiled;
    assert |filed + unfiled| == |filed| + |unfiled|;
  }

  // ---- calls that never spend a nonce do not matter ----

  function Erase(s: State, gone: set<nat>): State { s.(callers := s.callers - gone) }

  function Without(events: seq<Event>, gone: set<nat>): seq<Event> {
    if events == [] then []
    else
      var e := events[0];
      var rest := Without(events[1..], gone);
      if !e.Tick? && !e.Revoke? && e.id in gone then rest else [e] + rest
  }

  predicate NeverSpent(s: State, gone: set<nat>) {
    forall id :: id in gone && id in s.callers ==> !Late(s.callers[id].phase)
  }

  lemma LateStays(w: World, s: State, e: Event, gone: set<nat>)
    requires Step(w, s, e).Some? && NeverSpent(Step(w, s, e).value, gone)
    ensures NeverSpent(s, gone)
  {
    hide PermitOk, Matches;
  }

  lemma {:induction false} RunNeverSpent(w: World, s: State, events: seq<Event>, gone: set<nat>)
    requires Run(w, s, events).Some? && NeverSpent(Run(w, s, events).value, gone)
    ensures NeverSpent(s, gone)
    decreases |events|
  {
    hide Step, NeverSpent;
    if events != [] {
      RunNeverSpent(w, Step(w, s, events[0]).value, events[1..], gone);
      LateStays(w, s, events[0], gone);
    }
  }

  lemma EraseStep(w: World, s: State, e: Event, gone: set<nat>)
    requires Step(w, s, e).Some? && NeverSpent(Step(w, s, e).value, gone)
    ensures var t := Erase(Step(w, s, e).value, gone);
      if !e.Tick? && !e.Revoke? && e.id in gone then t == Erase(s, gone)
      else Step(w, Erase(s, gone), e) == Some(t)
  {
    hide PermitOk, Matches, SlotOf;
    var next := Step(w, s, e).value;
    if !e.Tick? && !e.Revoke? {
      var id := e.id;
      if id in gone {
        assert next.callers - gone == s.callers - gone;
      } else {
        assert next.callers - gone == (s.callers - gone)[id := next.callers[id]];
      }
    }
  }

  /** Calls that never spend a nonce (rejected ones among them) can be deleted from any run: what
      remains is a run that ends with the same effects, receipts, nonces, time and revocations, and
      with every other call in the same phase. */
  lemma {:induction false} RejectedCallsDoNotMatter(w: World, s: State, events: seq<Event>, gone: set<nat>)
    requires Run(w, s, events).Some? && NeverSpent(Run(w, s, events).value, gone)
    ensures Run(w, Erase(s, gone), Without(events, gone)) == Some(Erase(Run(w, s, events).value, gone))
    decreases |events|
  {
    hide Step, NeverSpent, Erase;
    if events != [] {
      var e := events[0];
      var next := Step(w, s, e).value;
      RunNeverSpent(w, next, events[1..], gone);
      EraseStep(w, s, e, gone);
      RejectedCallsDoNotMatter(w, next, events[1..], gone);
      if e.Tick? || e.Revoke? || e.id !in gone {
        assert Without(events, gone)[1..] == Without(events[1..], gone);
      }
    }
  }

  // ---- one uninterrupted call is the sequential function ----

  function Drive(w: World, s: State, id: nat, r: Request, crash: bool): Option<State> {
    var s1 :- Step(w, s, Arrive(id, r));
    var s2 :- Step(w, s1, Check(id));
    var s3 :- Step(w, s2, Match(id));
    var s4 :- Step(w, s3, Consume(id));
    var s5 :- Step(w, s4, Perform(id));
    Step(w, s5, File(id, crash))
  }

  /** Stepped without interruption, a call goes through exactly when `consume_and_execute` would
      not refuse it, and then has that one effect, spends that one nonce and files that one receipt. */
  lemma UninterruptedCall(w: World, s: State, id: nat, r: Request, crash: bool)
    requires id !in s.callers
    ensures Drive(w, s, id, r, crash).Some? <==>
      Authorised(EnvAt(w, s.revocations), w.pe, r, s.now) && SlotOf(w, r) !in s.spentBy
    ensures Drive(w, s, id, r, crash).Some? ==>
      var t := Drive(w, s, id, r, crash).value;
      && t.effects == s.effects + [Effect(id, r, Ticket(s.now, s.revocations))]
      && t.spentBy == s.spentBy[SlotOf(w, r) := id]
      && t.receipts == s.receipts + (if crash then [] else [id])
  {
    hide Verified, MatchOk, SenderOk;
    if PermitOk(EnvAt(w, s.revocations), w.pe, r, s.now) {
      assert r.permit.obj.subject.body.Permit? by {
        VerifiedType(EnvAt(w, s.revocations), r.permit.obj, PermitType, s.now);
      }
    }
  }
}
