/** Any sequence of authenticated `halt` calls of one agent, against either kind of store. */
module HaltRuns {
  import opened Prelude
  import opened Verification
  import opened NonceStores
  import opened Halting
  import opened Digests
  import Authority
  import P = Participant
  import PR = ParticipantRuns

  function StateAfter(a: Agent, s: StoreState, calls: seq<Call>): StoreState {
    if calls == [] then s
    else After(a, StateAfter(a, s, calls[..|calls| - 1]), calls[|calls| - 1])
  }

  predicate DispatchedAt(a: Agent, s: StoreState, calls: seq<Call>, i: nat)
    requires i < |calls|
  {
    Ruling(a, StateAfter(a, s, calls[..i]), calls[i]) == Dispatched && calls[i].approval.Some?
  }

  lemma StateStep(a: Agent, s: StoreState, calls: seq<Call>, i: nat)
    requires i < |calls|
    ensures StateAfter(a, s, calls[..i + 1]) == After(a, StateAfter(a, s, calls[..i]), calls[i])
  {
    hide After;
    assert calls[..i + 1][..i] == calls[..i];
  }

  // ---- any store, any keys: nothing is spent twice ----

  predicate Taken(s: StoreState, p: Pair) { SeenIn(s, p) || SpentIn(s, p) }

  lemma AfterKeeps(a: Agent, s: StoreState, c: Call, p: Pair)
    ensures Taken(s, p) ==> Taken(After(a, s, c), p)
    ensures SeenIn(s, p) ==> SeenIn(After(a, s, c), p)
  {
    hide Ruling, MarkerName;
  }

  lemma {:induction false} StateKeeps(a: Agent, s: StoreState, calls: seq<Call>, i: nat, j: nat, p: Pair)
    requires i <= j <= |calls|
    ensures Taken(StateAfter(a, s, calls[..i]), p) ==> Taken(StateAfter(a, s, calls[..j]), p)
    ensures SeenIn(StateAfter(a, s, calls[..i]), p) ==> SeenIn(StateAfter(a, s, calls[..j]), p)
    decreases j - i
  {
    hide After, StateAfter, Taken, SeenIn;
    if i < j {
      StateStep(a, s, calls, i);
      AfterKeeps(a, StateAfter(a, s, calls[..i]), calls[i], p);
      StateKeeps(a, s, calls, i + 1, j, p);
    }
  }

  lemma DispatchTakes(a: Agent, s: StoreState, c: Call)
    requires Ruling(a, s, c) == Dispatched && c.approval.Some?
    ensures Taken(After(a, s, c), PairOf(c)) && !Taken(s, PairOf(c))
    ensures NextAction(c) ==>
      SeenIn(After(a, s, c), (PairOf(c).0, NEXT_ACTION_USED)) && !SeenIn(s, (PairOf(c).0, NEXT_ACTION_USED))
  {
    hide Preliminary, MarkerName, NextAction;
  }

  /** Dispatched halts map one to one into approval (run_id, nonce) pairs, whichever store is used,
      whatever it held before, and even where its marker names collide. */
  lemma DistinctApprovals(a: Agent, s: StoreState, calls: seq<Call>, i: nat, j: nat)
    requires i < j < |calls| && DispatchedAt(a, s, calls, i) && DispatchedAt(a, s, calls, j)
    ensures PairOf(calls[i]) != PairOf(calls[j])
    ensures calls[i].approval.Some? && calls[j].approval.Some?
    ensures var a, b := calls[i].approval.value.subject, calls[j].approval.value.subject;
      a.runId != b.runId || a.nonce != b.nonce
  {
    hide After, StateAfter, Taken, SeenIn, Ruling;
    DispatchTakes(a, StateAfter(a, s, calls[..i]), calls[i]);
    DispatchTakes(a, StateAfter(a, s, calls[..j]), calls[j]);
    StateStep(a, s, calls, i);
    StateKeeps(a, s, calls, i + 1, j, PairOf(calls[i]));
  }

  /** Approved for one action only. */
  predicate ForNextAction(c: Call) {
    c.approval.Some? && c.approval.value.subject.body.HumanApproval?
    && c.approval.value.subject.body.scope == "next-action"
  }

  /** At most one halt of a run is dispatched by next-action receipts. */
  lemma OneNextActionPerRun(a: Agent, s: StoreState, calls: seq<Call>, i: nat, j: nat)
    requires i < j < |calls| && DispatchedAt(a, s, calls, i) && DispatchedAt(a, s, calls, j)
    requires ForNextAction(calls[i]) && ForNextAction(calls[j])
    ensures calls[i].approval.value.subject.runId != calls[j].approval.value.subject.runId
  {
    assert NextAction(calls[i]) && NextAction(calls[j]);
    hide After, StateAfter, Taken, SeenIn, Ruling, NextAction;
    DispatchTakes(a, StateAfter(a, s, calls[..i]), calls[i]);
    DispatchTakes(a, StateAfter(a, s, calls[..j]), calls[j]);
    StateStep(a, s, calls, i);
    StateKeeps(a, s, calls, i + 1, j, (PairOf(calls[i]).0, NEXT_ACTION_USED));
  }

  /** What a dispatched halt rests on: a bound human, neither the sender nor the maker, signed a
      receipt whose digest names this agent, this maker and this reason. */
  lemma DispatchedIsBound(a: Agent, s: StoreState, c: Call)
    requires Ruling(a, s, c) == Dispatched
    ensures Approved(a, c)
    ensures var o := c.approval.value;
      && o.subject.body.HumanApproval?
      && Some(o.subject.body.permittedAction) == HaltDigest(a.env.codec.sha, a.sessionId, c.maker, c.reason)
      && o.subject.body.approver.id != a.sessionId && o.subject.body.approver.id != c.maker
      && o.subject.keyId in a.env.trust
      && a.env.trust[o.subject.keyId].AuthorizesRole("human")
      && a.env.trust[o.subject.keyId].identity == Some(o.subject.body.approver.id)
  {
    hide HaltDigest, SeenIn, SpentIn, Verified;
    assert Verified(EnvOf(a, c), c.approval.value, Wire.HumanApprovalType, c.now);
    VerifiedKeyKnown(EnvOf(a, c), c.approval.value, c.now);
  }

  lemma VerifiedKeyKnown(env: Env, o: Wire.Object, now: int)
    requires Verified(env, o, Wire.HumanApprovalType, now)
    ensures o.subject.keyId in env.trust
  {}

  /** Receipts for one action digest dispatch only one halt's agent, maker and reason. */
  lemma OneDigestOneHalt(a: Agent, s: StoreState, c: Call, b: Agent, t: StoreState, d: Call)
    requires CollisionFree(a.env.codec.sha) && b.env.codec == a.env.codec
    requires Ruling(a, s, c) == Dispatched && Ruling(b, t, d) == Dispatched
    requires c.approval.Some? && d.approval.Some? && c.approval.value.subject.body == d.approval.value.subject.body
    ensures a.sessionId == b.sessionId && c.maker == d.maker && c.reason == d.reason
  {
    hide HaltDigest, Ruling, Approved;
    DispatchedIsBound(a, s, c);
    DispatchedIsBound(b, t, d);
    HaltDigestBinds(a.env.codec.sha, a.sessionId, c.maker, c.reason, b.sessionId, d.maker, d.reason);
  }

  /** Every check before the store, said of the fields: the agent may halt this maker, and the approval
      verifies, is of this very halt, comes from a human who is neither sender nor maker, has a known
      scope, and names a run and a nonce. */
  lemma PreliminaryExactly(a: Agent, c: Call)
    ensures Preliminary(a, c) == Dispatched <==>
      && Authority.Authorize(a.oversight, a.role, Authority.Halt, c.maker)
      && c.approval.Some? && Verified(EnvOf(a, c), c.approval.value, Wire.HumanApprovalType, c.now)
      && (var s := c.approval.value.subject;
          && s.body.HumanApproval? && s.runId != "" && s.nonce != ""
          && s.body.approver.id != a.sessionId && s.body.approver.id != c.maker
          && (s.body.scope == "next-action" || s.body.scope == "session")
          && HaltDigest(a.env.codec.sha, a.sessionId, c.maker, c.reason) == Some(s.body.permittedAction))
  {
    if c.approval.Some? && Verified(EnvOf(a, c), c.approval.value, Wire.HumanApprovalType, c.now) {
      HumanVerified(EnvOf(a, c), c.approval.value, c.now);
    }
    hide Verified, HaltDigest, Authority.Authorize;
  }

  lemma HumanVerified(env: Env, o: Wire.Object, now: int)
    requires Verified(env, o, Wire.HumanApprovalType, now)
    ensures o.subject.body.HumanApproval? && o.subject.keyId in env.trust
    ensures env.trust[o.subject.keyId].AuthorizesRole("human")
  {
    hide IsRevoked, OwnedBy;
  }

  /** The message of a halt, field by field: from the agent to the maker, a halt, for the given reason. */
  lemma HaltMessageSays(a: Agent, c: Call, draft: P.Envelope, stamp: Option<P.Envelope -> P.Envelope>)
    requires stamp.None? || forall e ::
      stamp.value(e).content == e.content
      && stamp.value(e).verb == e.verb && stamp.value(e).recipient == e.recipient && stamp.value(e).sender == e.sender
    ensures var e := Outgoing(a, c, draft, stamp);
      && e.verb == Authority.Halt && e.sender.actor == a.sessionId && e.sender.role == a.role
      && e.recipient.actor == c.maker && e.recipient.role == "maker"
      && e.content.Control? && e.content.reasonRef == c.reason
      && (!a.authenticated || stamp.None? ==> e.nonce == "" && e.expiresAt.None? && e.keyId == "" && e.signature == "")
      && (a.authenticated && stamp.Some? ==> e == stamp.value(Outgoing(a, c, draft, None)))
  {}

  // ---- exactly which halts are dispatched ----

  /** An earlier dispatched halt spent this pair. */
  predicate SpentBefore(a: Agent, s: StoreState, calls: seq<Call>, i: nat, p: Pair)
    requires i <= |calls|
  {
    exists j :: 0 <= j < i && DispatchedAt(a, s, calls, j) && PairOf(calls[j]) == p
  }

  /** An earlier next-action halt was dispatched in this run. */
  predicate ScopeUsedBefore(a: Agent, s: StoreState, calls: seq<Call>, i: nat, run: string)
    requires i <= |calls|
  {
    exists j :: 0 <= j < i && DispatchedAt(a, s, calls, j) && NextAction(calls[j]) && PairOf(calls[j]).0 == run
  }

  /** The whole rule, with no mention of a store. */
  predicate ShouldDispatch(a: Agent, s: StoreState, calls: seq<Call>, i: nat)
    requires i < |calls|
  {
    Preliminary(a, calls[i]) == Dispatched && calls[i].approval.Some?
    && !SpentBefore(a, s, calls, i, PairOf(calls[i]))
    && (NextAction(calls[i]) ==> !ScopeUsedBefore(a, s, calls, i, PairOf(calls[i]).0))
  }

  const FRESH := InMemory({}, {})

  lemma SpentBeforeStep(a: Agent, s: StoreState, calls: seq<Call>, i: nat, p: Pair)
    requires i < |calls|
    ensures SpentBefore(a, s, calls, i + 1, p) <==>
      SpentBefore(a, s, calls, i, p) || (DispatchedAt(a, s, calls, i) && PairOf(calls[i]) == p)
  {
    hide DispatchedAt;
  }

  lemma ScopeUsedStep(a: Agent, s: StoreState, calls: seq<Call>, i: nat, run: string)
    requires i < |calls|
    ensures ScopeUsedBefore(a, s, calls, i + 1, run) <==>
      ScopeUsedBefore(a, s, calls, i, run)
      || (DispatchedAt(a, s, calls, i) && NextAction(calls[i]) && PairOf(calls[i]).0 == run)
  {
    hide DispatchedAt, NextAction;
  }

  lemma MemoryStep(a: Agent, s: StoreState, c: Call, p: Pair)
    requires s.InMemory?
    ensures var t, yes := After(a, s, c), Ruling(a, s, c) == Dispatched && c.approval.Some?;
      && t.InMemory?
      && (p in t.consumed <==> p in s.consumed || (yes && PairOf(c) == p))
      && (p in t.recorded <==> p in s.recorded || (yes && NextAction(c) && (PairOf(c).0, NEXT_ACTION_USED) == p))
  {
    hide Ruling, NextAction;
  }

  /** The in-memory store holds just what was dispatched. */
  lemma {:induction false} MemoryHolds(a: Agent, calls: seq<Call>, i: nat, p: Pair)
    requires i <= |calls|
    ensures StateAfter(a, FRESH, calls[..i]).InMemory?
    ensures p in StateAfter(a, FRESH, calls[..i]).consumed <==> SpentBefore(a, FRESH, calls, i, p)
    ensures p in StateAfter(a, FRESH, calls[..i]).recorded <==>
      p.1 == NEXT_ACTION_USED && ScopeUsedBefore(a, FRESH, calls, i, p.0)
    decreases i
  {
    if i > 0 {
      hide StateAfter, SpentBefore, ScopeUsedBefore, Ruling, NextAction, After;
      MemoryHolds(a, calls, i - 1, p);
      MemoryStep(a, StateAfter(a, FRESH, calls[..i - 1]), calls[i - 1], p);
      StateStep(a, FRESH, calls, i - 1);
      SpentBeforeStep(a, FRESH, calls, i - 1, p);
      ScopeUsedStep(a, FRESH, calls, i - 1, p.0);
    }
  }

  /** The receipt's nonce is the one that marks a used scope, and in its run the scope was used. */
  predicate NonceIsUsedScope(a: Agent, s: StoreState, calls: seq<Call>, i: nat)
    requires i < |calls|
  {
    calls[i].approval.Some? && PairOf(calls[i]).1 == NEXT_ACTION_USED
    && ScopeUsedBefore(a, s, calls, i, PairOf(calls[i]).0)
  }

  /** From an empty in-memory store a halt is dispatched exactly when its receipt passes, its pair
      was not spent before, for a next-action receipt no other one was used in the run, and its
      nonce is not the mark of one that was. */
  lemma MemoryDispatchesExactly(a: Agent, calls: seq<Call>, i: nat)
    requires i < |calls|
    ensures DispatchedAt(a, FRESH, calls, i) <==>
      ShouldDispatch(a, FRESH, calls, i) && !NonceIsUsedScope(a, FRESH, calls, i)
  {
    hide StateAfter, SpentBefore, ScopeUsedBefore, Preliminary, NextAction;
    if calls[i].approval.Some? {
      MemoryHolds(a, calls, i, PairOf(calls[i]));
      MemoryHolds(a, calls, i, (PairOf(calls[i]).0, NEXT_ACTION_USED));
    }
  }

  /** Receipts for a session are under no limit but their own nonces: after any calls, one that passes
      is dispatched unless its very pair was spent, or its nonce is the mark of a used scope. */
  lemma SessionsUnlimited(a: Agent, calls: seq<Call>, i: nat)
    requires i < |calls| && calls[i].approval.Some? && calls[i].approval.value.subject.body.HumanApproval?
    requires calls[i].approval.value.subject.body.scope == "session" && PairOf(calls[i]).1 != NEXT_ACTION_USED
    ensures DispatchedAt(a, FRESH, calls, i) <==>
      Preliminary(a, calls[i]) == Dispatched && !SpentBefore(a, FRESH, calls, i, PairOf(calls[i]))
  {
    assert |"session"| == 7 && |"next-action"| == 11;
    assert !NextAction(calls[i]);
    MemoryDispatchesExactly(a, calls, i);
    hide DispatchedAt, Preliminary, SpentBefore, ScopeUsedBefore;
  }

  /** Off that rule: a session receipt whose nonce is the scope mark is good on the empty store, and
      counts as used, though its pair was never consumed, once its run had a next-action halt. */
  lemma ScopeMarkIsANonce(a: Agent, next: Call, session: Call)
    requires Preliminary(a, session) == Dispatched && Preliminary(a, next) == Dispatched
    requires session.approval.Some? && next.approval.Some? && !NextAction(session) && NextAction(next)
    requires PairOf(session) == (PairOf(next).0, NEXT_ACTION_USED) && PairOf(next).1 != NEXT_ACTION_USED
    ensures Ruling(a, FRESH, session) == Dispatched
    ensures var s := After(a, FRESH, next); Ruling(a, s, session) == AlreadyUsed && !SpentIn(s, PairOf(session))
  {
    hide Preliminary, NextAction;
  }

  // ---- on disk ----

  function Disk(alnum: char -> bool): StoreState { OnDisk(alnum, {}) }

  /** The marker files a dispatched halt leaves. */
  predicate Marks(alnum: char -> bool, c: Call, name: string)
    requires c.approval.Some?
  {
    name == MarkerName(alnum, PairOf(c).0, PairOf(c).1)
    || (NextAction(c) && name == MarkerName(alnum, PairOf(c).0, NEXT_ACTION_USED))
  }

  lemma DiskStep(a: Agent, s: StoreState, c: Call, name: string)
    requires s.OnDisk?
    ensures var t, yes := After(a, s, c), Ruling(a, s, c) == Dispatched && c.approval.Some?;
      && t.OnDisk? && t.alnum == s.alnum
      && (name in t.markers <==> name in s.markers || (yes && Marks(s.alnum, c, name)))
  {
    hide Ruling, NextAction, MarkerName;
  }

  /** The marker was there, or an earlier dispatched halt left it. */
  predicate MarkedBefore(a: Agent, s: StoreState, calls: seq<Call>, i: nat, name: string)
    requires i <= |calls| && s.OnDisk?
  {
    name in s.markers || exists j :: 0 <= j < i && DispatchedAt(a, s, calls, j) && Marks(s.alnum, calls[j], name)
  }

  lemma MarkedStep(a: Agent, s: StoreState, calls: seq<Call>, i: nat, name: string)
    requires i < |calls| && s.OnDisk?
    ensures MarkedBefore(a, s, calls, i + 1, name) <==>
      MarkedBefore(a, s, calls, i, name) || (DispatchedAt(a, s, calls, i) && Marks(s.alnum, calls[i], name))
  {
    hide DispatchedAt, Marks;
  }

  /** The disk holds just what was on it and the markers of what was dispatched. */
  lemma {:induction false} DiskHolds(a: Agent, s: StoreState, calls: seq<Call>, i: nat, name: string)
    requires i <= |calls| && s.OnDisk?
    ensures var t := StateAfter(a, s, calls[..i]);
      t.OnDisk? && t.alnum == s.alnum && (name in t.markers <==> MarkedBefore(a, s, calls, i, name))
    decreases i
  {
    if i > 0 {
      hide StateAfter, MarkedBefore, Marks, Ruling, After;
      DiskHolds(a, s, calls, i - 1, name);
      DiskStep(a, StateAfter(a, s, calls[..i - 1]), calls[i - 1], name);
      StateStep(a, s, calls, i - 1);
      MarkedStep(a, s, calls, i - 1, name);
    }
  }

  /** On any disk, whatever the names: a halt is dispatched exactly when its receipt passes, its
      marker is not there, and, for a next-action receipt, neither is the scope marker. */
  lemma DiskDispatchesExactly(a: Agent, s: StoreState, calls: seq<Call>, i: nat)
    requires i < |calls| && s.OnDisk?
    ensures DispatchedAt(a, s, calls, i) <==>
      Preliminary(a, calls[i]) == Dispatched && calls[i].approval.Some?
      && !MarkedBefore(a, s, calls, i, MarkerName(s.alnum, PairOf(calls[i]).0, PairOf(calls[i]).1))
      && (NextAction(calls[i]) ==> !MarkedBefore(a, s, calls, i,
                                                 MarkerName(s.alnum, PairOf(calls[i]).0, NEXT_ACTION_USED)))
  {
    hide StateAfter, MarkedBefore, Preliminary, NextAction, MarkerName;
    if calls[i].approval.Some? {
      DiskHolds(a, s, calls, i, MarkerName(s.alnum, PairOf(calls[i]).0, PairOf(calls[i]).1));
      DiskHolds(a, s, calls, i, MarkerName(s.alnum, PairOf(calls[i]).0, NEXT_ACTION_USED));
    }
  }

  // ---- exactly when a good receipt is refused ----

  function Scope(c: Call): Pair
    requires c.approval.Some?
  {
    (PairOf(c).0, NEXT_ACTION_USED)
  }

  /** A halt on d leaves a marker in the way of c which is not the mark of the same pair, nor that of
      a next-action halt of the same run in the way of another. */
  predicate Clashes(alnum: char -> bool, c: Call, d: Call)
    requires c.approval.Some? && d.approval.Some?
  {
    || (PairOf(d) != PairOf(c) && SameMarker(alnum, PairOf(d), PairOf(c)))
    || (NextAction(d) && SameMarker(alnum, Scope(d), PairOf(c)))
    || (NextAction(c) && SameMarker(alnum, PairOf(d), Scope(c)))
    || (NextAction(c) && NextAction(d) && Scope(d) != Scope(c) && SameMarker(alnum, Scope(d), Scope(c)))
  }

  /** An earlier dispatched halt clashes with this one. */
  predicate ClashBefore(a: Agent, alnum: char -> bool, s: StoreState, calls: seq<Call>, i: nat)
    requires i < |calls|
  {
    calls[i].approval.Some?
    && exists j :: 0 <= j < i && DispatchedAt(a, s, calls, j) && Clashes(alnum, calls[i], calls[j])
  }

  /** A halt on d leaves a marker that c looks for. */
  predicate Blocks(alnum: char -> bool, d: Call, c: Call)
    requires c.approval.Some? && d.approval.Some?
  {
    Marks(alnum, d, MarkerName(alnum, PairOf(c).0, PairOf(c).1))
    || (NextAction(c) && Marks(alnum, d, MarkerName(alnum, PairOf(c).0, NEXT_ACTION_USED)))
  }

  /** After a halt on d the rule forbids one on c: the same pair, or next-action twice in a run. */
  predicate Forbids(d: Call, c: Call)
    requires c.approval.Some? && d.approval.Some?
  {
    PairOf(d) == PairOf(c) || (NextAction(c) && NextAction(d) && PairOf(d).0 == PairOf(c).0)
  }

  lemma BlocksExactly(alnum: char -> bool, d: Call, c: Call)
    requires c.approval.Some? && d.approval.Some?
    ensures Blocks(alnum, d, c) <==> Forbids(d, c) || Clashes(alnum, c, d)
  {
    hide NextAction, MarkerName;
  }

  /** From an empty disk, whatever the names: a halt is dispatched exactly when it should be and no
      earlier dispatched one clashes with it. So a good receipt is refused exactly on a clash. */
  lemma RefusedExactlyOnClash(a: Agent, alnum: char -> bool, calls: seq<Call>, i: nat)
    requires i < |calls|
    ensures DispatchedAt(a, Disk(alnum), calls, i) <==>
      ShouldDispatch(a, Disk(alnum), calls, i) && !ClashBefore(a, alnum, Disk(alnum), calls, i)
  {
    var s := Disk(alnum);
    DiskDispatchesExactly(a, s, calls, i);
    if calls[i].approval.Some? {
      hide Preliminary, NextAction, MarkerName, Clashes, Marks, DispatchedAt;
      forall j | 0 <= j < i && DispatchedAt(a, s, calls, j) && calls[j].approval.Some?
        ensures Blocks(alnum, calls[j], calls[i]) <==> Forbids(calls[j], calls[i]) || Clashes(alnum, calls[i], calls[j])
      {
        BlocksExactly(alnum, calls[j], calls[i]);
      }
    }
  }

  ghost predicate SameDispatches(a: Agent, alnum: char -> bool, calls: seq<Call>, n: nat)
    requires n <= |calls|
  {
    forall i :: 0 <= i < n ==> (DispatchedAt(a, FRESH, calls, i) <==> DispatchedAt(a, Disk(alnum), calls, i))
  }

  /** No two halts that the in-memory store dispatches clash. */
  ghost predicate ClashFree(a: Agent, alnum: char -> bool, calls: seq<Call>) {
    forall i :: 0 <= i < |calls| && DispatchedAt(a, FRESH, calls, i) ==> !ClashBefore(a, alnum, FRESH, calls, i)
  }

  lemma SameBefore(a: Agent, alnum: char -> bool, calls: seq<Call>, i: nat)
    requires i < |calls| && SameDispatches(a, alnum, calls, i)
    ensures ShouldDispatch(a, FRESH, calls, i) <==> ShouldDispatch(a, Disk(alnum), calls, i)
    ensures ClashBefore(a, alnum, FRESH, calls, i) <==> ClashBefore(a, alnum, Disk(alnum), calls, i)
    ensures NonceIsUsedScope(a, FRESH, calls, i) ==> ClashBefore(a, alnum, Disk(alnum), calls, i)
  {
    hide Preliminary, NextAction, Clashes, MarkerName;
    assert forall j :: 0 <= j < i && DispatchedAt(a, FRESH, calls, j) ==> calls[j].approval.Some?;
    hide DispatchedAt;
    if NonceIsUsedScope(a, FRESH, calls, i) {
      var j :| 0 <= j < i && DispatchedAt(a, FRESH, calls, j) && calls[j].approval.Some? && NextAction(calls[j])
               && PairOf(calls[j]).0 == PairOf(calls[i]).0;
      assert Clashes(alnum, calls[i], calls[j]) by { ScopeClashes(alnum, calls[i], calls[j]); }
    }
  }

  lemma ScopeClashes(alnum: char -> bool, c: Call, d: Call)
    requires c.approval.Some? && d.approval.Some? && NextAction(d) && PairOf(c) == Scope(d)
    ensures Clashes(alnum, c, d)
  {}

  lemma SameNext(a: Agent, alnum: char -> bool, calls: seq<Call>, i: nat)
    requires i < |calls| && SameDispatches(a, alnum, calls, i)
    ensures (DispatchedAt(a, FRESH, calls, i) <==> DispatchedAt(a, Disk(alnum), calls, i)) <==>
      (DispatchedAt(a, FRESH, calls, i) ==> !ClashBefore(a, alnum, FRESH, calls, i))
  {
    SameBefore(a, alnum, calls, i);
    MemoryDispatchesExactly(a, calls, i);
    RefusedExactlyOnClash(a, alnum, calls, i);
    hide DispatchedAt, ShouldDispatch, ClashBefore, NonceIsUsedScope;
  }

  lemma {:induction false} AgreeUpTo(a: Agent, alnum: char -> bool, calls: seq<Call>, n: nat)
    requires n <= |calls| && ClashFree(a, alnum, calls)
    ensures SameDispatches(a, alnum, calls, n)
  {
    hide DispatchedAt, ClashBefore;
    if n > 0 {
      AgreeUpTo(a, alnum, calls, n - 1);
      SameNext(a, alnum, calls, n - 1);
    }
  }

  /** Both stores dispatch the same halts exactly when no two that memory dispatches clash. */
  lemma StoresAgreeExactly(a: Agent, alnum: char -> bool, calls: seq<Call>)
    ensures SameDispatches(a, alnum, calls, |calls|) <==> ClashFree(a, alnum, calls)
  {
    hide DispatchedAt, ClashBefore;
    if SameDispatches(a, alnum, calls, |calls|) {
      forall i | 0 <= i < |calls| && DispatchedAt(a, FRESH, calls, i) ensures !ClashBefore(a, alnum, FRESH, calls, i) {
        assert SameDispatches(a, alnum, calls, i);
        SameNext(a, alnum, calls, i);
      }
    }
    if ClashFree(a, alnum, calls) { AgreeUpTo(a, alnum, calls, |calls|); }
  }

  // ---- names that never clash ----

  const MARKER_ON_DISK := "__halt_next-action-scope-used__"

  /** Names that can be told apart: a splittable run, a safe nonce, and not the marker's own name. */
  predicate Clear(alnum: char -> bool, p: Pair) { Readable(alnum, p) && p.1 != MARKER_ON_DISK }

  predicate ClearCalls(alnum: char -> bool, calls: seq<Call>) {
    forall i :: 0 <= i < |calls| && calls[i].approval.Some? ==> Clear(alnum, PairOf(calls[i]))
  }

  lemma MarkerOnDisk(alnum: char -> bool)
    requires IsAlnum(alnum)
    ensures SafeComponent(alnum, NEXT_ACTION_USED) == MARKER_ON_DISK && Safe(alnum, MARKER_ON_DISK)
  {
    var s, t := SafeComponent(alnum, NEXT_ACTION_USED), MARKER_ON_DISK;
    assert |s| == |t|;
    forall i | 0 <= i < |t| ensures s[i] == t[i] && SafeChar(alnum, t[i]) { assert t[i] < 128 as char; }
  }

  /** The scope marker is that of the readable pair with the sanitised mark. */
  lemma ScopeMarker(alnum: char -> bool, p: Pair)
    requires IsAlnum(alnum)
    ensures SameMarker(alnum, (p.0, NEXT_ACTION_USED), (p.0, MARKER_ON_DISK))
  {
    MarkerOnDisk(alnum);
    assert SafeComponent(alnum, MARKER_ON_DISK) == MARKER_ON_DISK;
  }

  lemma ClearNeverClash(alnum: char -> bool, c: Call, d: Call)
    requires IsAlnum(alnum) && c.approval.Some? && d.approval.Some? && Clear(alnum, PairOf(c))
    requires Clear(alnum, PairOf(d))
    ensures !Clashes(alnum, c, d)
  {
    var p, q := PairOf(d), PairOf(c);
    MarkerOnDisk(alnum);
    ScopeMarker(alnum, p);
    ScopeMarker(alnum, q);
    var ps, qs := (p.0, MARKER_ON_DISK), (q.0, MARKER_ON_DISK);
    hide MarkerName, Splittable, Safe, NextAction, SafeComponent;
    if SameMarker(alnum, p, q) { OwnerUnique(alnum, p, q); }
    if SameMarker(alnum, ps, q) { OwnerUnique(alnum, ps, q); }
    if SameMarker(alnum, p, qs) { OwnerUnique(alnum, p, qs); }
    if SameMarker(alnum, ps, qs) { OwnerUnique(alnum, ps, qs); }
  }

  /** On clear names both stores dispatch the same halts, though their reasons to refuse may differ. */
  lemma StoresAgree(a: Agent, alnum: char -> bool, calls: seq<Call>)
    requires IsAlnum(alnum) && ClearCalls(alnum, calls)
    ensures SameDispatches(a, alnum, calls, |calls|)
  {
    hide Clear, Clashes, Preliminary, Ruling;
    forall i, j | 0 <= j < i < |calls| && calls[i].approval.Some? && calls[j].approval.Some?
      ensures !Clashes(alnum, calls[i], calls[j])
    {
      ClearNeverClash(alnum, calls[i], calls[j]);
    }
    StoresAgreeExactly(a, alnum, calls);
  }

  lemma ClearIsNotMarker(alnum: char -> bool, p: Pair)
    requires IsAlnum(alnum) && Clear(alnum, p)
    ensures p.1 != NEXT_ACTION_USED
  {
    assert NEXT_ACTION_USED[6] == ':' && !AsciiAlnum(':');
  }

  /** The same receipt presented twice: refused as used by the disk store, and as a used scope by
      the in-memory one when its scope is next-action. */
  lemma ReasonsDiffer(a: Agent, alnum: char -> bool, c: Call)
    requires Preliminary(a, c) == Dispatched && c.approval.Some? && NextAction(c)
    requires IsAlnum(alnum) && Clear(alnum, PairOf(c))
    ensures Ruling(a, After(a, FRESH, c), c) == ScopeUsed
    ensures Ruling(a, After(a, Disk(alnum), c), c) == AlreadyUsed
  {
    hide Preliminary, NextAction, MarkerName;
    ClearIsNotMarker(alnum, PairOf(c));
  }

  /** Off the clear names the stores part: a nonce spelled like the sanitised marker makes a
      next-action receipt look used as soon as a session receipt carries it. */
  lemma StoresPart(a: Agent, alnum: char -> bool, session: Call, next: Call)
    requires IsAlnum(alnum) && Preliminary(a, session) == Dispatched && Preliminary(a, next) == Dispatched
    requires session.approval.Some? && next.approval.Some? && !NextAction(session) && NextAction(next)
    requires PairOf(session) == (PairOf(next).0, MARKER_ON_DISK)
    requires Clear(alnum, PairOf(next))
    ensures Ruling(a, After(a, FRESH, session), next) == Dispatched
    ensures Ruling(a, After(a, Disk(alnum), session), next) == ScopeUsed
  {
    hide Preliminary, NextAction;
    MarkerOnDisk(alnum);
    ScopeMarker(alnum, PairOf(next));
    ClearIsNotMarker(alnum, PairOf(next));
    ClearAndMark(alnum, PairOf(next));
    hide Clear, SafeComponent, MarkerName;
  }

  lemma ClearAndMark(alnum: char -> bool, p: Pair)
    requires IsAlnum(alnum) && Clear(alnum, p)
    ensures !SameMarker(alnum, (p.0, MARKER_ON_DISK), p)
  {
    MarkerOnDisk(alnum);
    hide SameMarker, Splittable, Safe;
    if SameMarker(alnum, (p.0, MARKER_ON_DISK), p) { OwnerUnique(alnum, (p.0, MARKER_ON_DISK), p); }
  }

  // ---- from the approval to the stop ----

  /** `stamp_and_sign` filled in the four authentication fields and nothing else, with a key the
      maker trusts for this agent and role. */
  predicate StampedFor(setup: P.Setup, a: Agent, c: Call, draft: P.Envelope, e: P.Envelope) {
    && e == HaltMessage(a, c, draft).(nonce := e.nonce, expiresAt := e.expiresAt, keyId := e.keyId,
                                      signature := e.signature)
    && e.nonce != "" && e.signature != "" && e.keyId != ""
    && setup.trust.Some? && e.keyId in setup.trust.value &&
    var b := setup.trust.value[e.keyId];
    && b.AuthorizesType(P.ENVELOPE_TYPE) && b.AuthorizesRole(a.role) && b.identity == Some(a.sessionId)
    && P.EnvelopeSigning(b.publicKey, e.(signature := ""), e.signature) in setup.signed
  }

  /** What `_send` can make of a halt message: the four authentication fields, and nothing else. */
  predicate Stamped(a: Agent, c: Call, draft: P.Envelope, e: P.Envelope) {
    e == HaltMessage(a, c, draft).(nonce := e.nonce, expiresAt := e.expiresAt, keyId := e.keyId,
                                   signature := e.signature)
  }

  /** A dispatched halt, whatever its authentication fields, is obeyed on arrival exactly when a key
      the maker trusts for this agent and role signed it, it is unexpired, and its nonce is unseen.
      So a running maker stops on it exactly then, and stays stopped whatever arrives afterwards. */
  lemma DispatchedHaltStops(a: Agent, s: StoreState, c: Call, draft: P.Envelope, e: P.Envelope, setup: P.Setup,
                            m: P.Maker, before: seq<P.Arrival>, after: seq<P.Arrival>, at: int)
    requires Ruling(a, s, c) == Dispatched && Stamped(a, c, draft, e)
    requires setup.trust.Some? && setup.sessionId == c.maker && setup.oversight == a.oversight
    ensures var mid := P.HandleAll(setup, m, before).0;
      var stops := StampedFor(setup, a, c, draft, e) && e.expiresAt.Some? && at < e.expiresAt.value
                   && !SeenIn(mid.honoured, P.PairOf(e));
      && (P.HandleAll(setup, m, before + [P.Arrival(e, at)]).0.halted <==> mid.halted || stops)
      && (mid.halted || stops ==> P.HandleAll(setup, m, before + [P.Arrival(e, at)] + after).0.halted)
      && (!stops ==> P.HandleAll(setup, m, before + [P.Arrival(e, at)]).0 == mid)
  {
    hide Ruling, P.HandleAll, P.Handle;
    assert Authority.Authorize(a.oversight, a.role, Authority.Halt, c.maker) by { DispatchedIsAuthorised(a, s, c); }
    var mid := P.HandleAll(setup, m, before).0;
    P.HandleAllSnoc(setup, m, before, P.Arrival(e, at));
    var next := P.Handle(setup, mid, e, at).0;
    assert P.Genuine(setup, e, at) <==>
      StampedFor(setup, a, c, draft, e) && e.expiresAt.Some? && at < e.expiresAt.value;
    HaltHandled(setup, mid, e, at);
    PR.BatchesJoin(setup, m, before + [P.Arrival(e, at)], after);
    PR.HaltedIffAccepted(setup, next, after);
  }

  lemma DispatchedIsAuthorised(a: Agent, s: StoreState, c: Call)
    requires Ruling(a, s, c) == Dispatched
    ensures Authority.Authorize(a.oversight, a.role, Authority.Halt, c.maker)
  {
    hide Authority.Authorize, SeenIn, SpentIn, HaltDigest, Approved;
  }

  lemma HaltHandled(setup: P.Setup, m: P.Maker, e: P.Envelope, at: int)
    requires e.verb.Halt?
    ensures var next := P.Handle(setup, m, e, at).0;
      && (next.halted <==> m.halted || P.Accepts(setup, m.honoured, e, at))
      && (!P.Accepts(setup, m.honoured, e, at) ==> next == m)
  {}

  /** Without a signer a dispatched halt goes out unsigned: its approval is spent, and every maker in
      authenticated mode rejects it. */
  lemma UnsignedHaltRejected(a: Agent, c: Call, draft: P.Envelope, setup: P.Setup, m: P.Maker, at: int)
    requires setup.trust.Some?
    ensures var e := Outgoing(a, c, draft, None);
      !P.Accepts(setup, m.honoured, e, at) && P.Handle(setup, m, e, at).0 == m
  {
    hide P.Apply;
  }
}
