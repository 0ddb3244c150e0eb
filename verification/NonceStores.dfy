/** Single-use bookkeeping: the in-memory store and the file-backed one, which names markers by a
    sanitised pair and so may run two pairs together. */
module NonceStores {
  type Pair = (string, string)

  /** `wire/verification.py:InMemoryNonceStore`: two independent sets. */
  class InMemoryNonceStore {
    var recorded: set<Pair>
    var consumed: set<Pair>

    constructor ()
      ensures recorded == {} && consumed == {}
    {
      recorded, consumed := {}, {};
    }

    method Seen(runId: string, nonce: string) returns (seen: bool)
      ensures seen <==> (runId, nonce) in recorded
    {
      seen := (runId, nonce) in recorded;
    }

    method Record(runId: string, nonce: string)
      modifies this
      ensures recorded == old(recorded) + {(runId, nonce)} && consumed == old(consumed)
    {
      recorded := recorded + {(runId, nonce)};
    }

    /** True exactly the first time a pair is consumed. */
    method Consume(runId: string, nonce: string) returns (first: bool)
      modifies this
      ensures first <==> (runId, nonce) !in old(consumed)
      ensures consumed == old(consumed) + {(runId, nonce)} && recorded == old(recorded)
    {
      var key := (runId, nonce);
      if key in consumed {
        return false;
      }
      consumed := consumed + {key};
      return true;
    }
  }

  predicate AsciiAlnum(c: char) { 'a' <= c <= 'z' || 'A' <= c <= 'Z' || '0' <= c <= '9' }

  /** `str.isalnum` is given; of it only what it says of ASCII is used. */
  ghost predicate IsAlnum(alnum: char -> bool) {
    forall c: char :: c < 128 as char ==> (alnum(c) <==> AsciiAlnum(c))
  }

  /** `c.isalnum() or c in "-_."`. */
  predicate SafeChar(alnum: char -> bool, c: char) { alnum(c) || c == '-' || c == '_' || c == '.' }

  predicate Safe(alnum: char -> bool, s: string) { forall i :: 0 <= i < |s| ==> SafeChar(alnum, s[i]) }

  function SafeComponent(alnum: char -> bool, s: string): (r: string)
    ensures |r| == |s| && Safe(alnum, r)
    ensures Safe(alnum, s) ==> r == s
  {
    seq(|s|, i requires 0 <= i < |s| => if SafeChar(alnum, s[i]) then s[i] else '_')
  }

  /** Letters, digits, '-', '_' and '.' stay, and everything else becomes '_'. */
  lemma SafeSpelled(alnum: char -> bool, s: string, i: nat)
    requires i < |s|
    ensures SafeComponent(alnum, s)[i] ==
      if alnum(s[i]) || s[i] in {'-', '_', '.'} then s[i] else '_'
  {}

  function MarkerName(alnum: char -> bool, runId: string, nonce: string): string {
    SafeComponent(alnum, runId) + "__" + SafeComponent(alnum, nonce) + ".nonce"
  }

  /** The separator can be read off a joined name: it does not occur in the run id, nor does the
      run id end in an underscore. */
  predicate Splittable(alnum: char -> bool, runId: string) {
    && Safe(alnum, runId)
    && (forall i :: 0 <= i < |runId| - 1 ==> !(runId[i] == '_' && runId[i + 1] == '_'))
    && (runId != "" ==> runId[|runId| - 1] != '_')
  }

  lemma FirstSeparator(alnum: char -> bool, a: string, n: string, b: string, m: string)
    requires Splittable(alnum, a) && Splittable(alnum, b) && a + "__" + n == b + "__" + m
    ensures |a| >= |b|
  {
    var whole := a + "__" + n;
    assert whole[|a|] == '_' && whole[|a| + 1] == '_';
    assert whole == b + "__" + m;
    assert forall k :: 0 <= k < |b| ==> whole[k] == b[k];
  }

  /** On splittable names, distinct pairs have distinct markers. */
  lemma MarkerInjective(alnum: char -> bool, a: string, n: string, b: string, m: string)
    requires Splittable(alnum, a) && Splittable(alnum, b) && Safe(alnum, n) && Safe(alnum, m)
    requires MarkerName(alnum, a, n) == MarkerName(alnum, b, m)
    ensures a == b && n == m
  {
    var x, y := a + "__" + n, b + "__" + m;
    assert x + ".nonce" == y + ".nonce";
    assert |x| == |y|;
    assert x == (x + ".nonce")[..|x|] && y == (y + ".nonce")[..|y|];
    FirstSeparator(alnum, a, n, b, m);
    FirstSeparator(alnum, b, m, a, n);
    assert a == x[..|a|] && b == y[..|b|];
    assert n == x[|a| + 2..] && m == y[|b| + 2..];
  }

  /** Pairs whose joined name can be read back: those of splittable runs and safe nonces. */
  predicate Readable(alnum: char -> bool, p: Pair) { Splittable(alnum, p.0) && Safe(alnum, p.1) }

  predicate SameMarker(alnum: char -> bool, p: Pair, q: Pair) {
    MarkerName(alnum, p.0, p.1) == MarkerName(alnum, q.0, q.1)
  }

  predicate CutAt(s: string, i: nat) { i + 1 < |s| && s[i] == '_' && s[i + 1] == '_' }

  /** The first double underscore at or after `from`. */
  lemma FirstCut(s: string, from: nat, at: nat) returns (i: nat)
    requires from <= at && CutAt(s, at)
    ensures from <= i <= at && CutAt(s, i) && forall k :: from <= k < i ==> !CutAt(s, k)
    decreases at - from
  {
    if CutAt(s, from) { i := from; } else { i := FirstCut(s, from + 1, at); }
  }

  /** Every marker belongs to a readable pair: cut the joined name at its first double underscore. */
  lemma MarkerOwner(alnum: char -> bool, p: Pair) returns (owner: Pair)
    ensures Readable(alnum, owner) && SameMarker(alnum, owner, p)
  {
    var a, n := SafeComponent(alnum, p.0), SafeComponent(alnum, p.1);
    var joined := a + "__" + n;
    assert CutAt(joined, |a|);
    var i := FirstCut(joined, 0, |a|);
    var b, m := joined[..i], joined[i + 2..];
    assert Safe(alnum, joined);
    forall k | 0 <= k < |b| - 1 ensures !(b[k] == '_' && b[k + 1] == '_') { assert !CutAt(joined, k); }
    if b != "" { assert !CutAt(joined, i - 1); }
    assert joined == b + "__" + m;
    owner := (b, m);
    assert SafeComponent(alnum, b) == b && SafeComponent(alnum, m) == m;
  }

  /** The readable owner is unique. */
  lemma OwnerUnique(alnum: char -> bool, p: Pair, q: Pair)
    requires Readable(alnum, p) && Readable(alnum, q) && SameMarker(alnum, p, q)
    ensures p == q
  {
    MarkerInjective(alnum, p.0, p.1, q.0, q.1);
  }

  ghost predicate SharesWithReadable(alnum: char -> bool, p: Pair) {
    exists q: Pair :: q != p && Readable(alnum, q) && SameMarker(alnum, q, p)
  }

  /** A pair shares its marker with another, readable pair exactly when it is not readable itself:
      each marker has exactly one readable owner, and every other pair on it is confused with that one. */
  lemma MarkersCollideExactly(alnum: char -> bool, p: Pair)
    ensures SharesWithReadable(alnum, p) <==> !Readable(alnum, p)
  {
    hide Readable, SameMarker;
    var owner := MarkerOwner(alnum, p);
    if Readable(alnum, p) {
      forall q: Pair | Readable(alnum, q) && SameMarker(alnum, q, p) ensures q == p { OwnerUnique(alnum, q, p); }
    }
  }

  /** A character that sanitising neither changes nor produces. */
  predicate Fixed(alnum: char -> bool, c: char) { SafeChar(alnum, c) && c != '_' }

  predicate AllFixed(alnum: char -> bool, s: string) { forall i :: 0 <= i < |s| ==> Fixed(alnum, s[i]) }

  ghost predicate SharesMarker(alnum: char -> bool, p: Pair) { exists q: Pair :: q != p && SameMarker(alnum, q, p) }

  /** Another string with the same safe rendering: an underscore and a space are interchangeable,
      and so are an unsafe character and an underscore. */
  lemma OtherSpelling(alnum: char -> bool, s: string) returns (t: string)
    requires IsAlnum(alnum) && !AllFixed(alnum, s)
    ensures t != s && SafeComponent(alnum, t) == SafeComponent(alnum, s)
  {
    var i :| 0 <= i < |s| && !Fixed(alnum, s[i]);
    t := s[i := if s[i] == '_' then ' ' else '_'];
    assert t[i] != s[i];
    assert forall k :: 0 <= k < |s| ==> SafeComponent(alnum, t)[k] == SafeComponent(alnum, s)[k];
  }

  lemma FixedAlone(alnum: char -> bool, p: Pair, q: Pair)
    requires AllFixed(alnum, p.0) && AllFixed(alnum, p.1) && SameMarker(alnum, p, q)
    ensures p == q
  {
    var x := SafeComponent(alnum, p.0) + "__" + SafeComponent(alnum, p.1);
    var y := SafeComponent(alnum, q.0) + "__" + SafeComponent(alnum, q.1);
    assert x + ".nonce" == y + ".nonce";
    assert |x| == |y|;
    assert x == (x + ".nonce")[..|x|] && y == (y + ".nonce")[..|y|];
    assert SafeComponent(alnum, p.0) == p.0 && SafeComponent(alnum, p.1) == p.1;
    assert x[|p.0|] == '_' && y[|q.0|] == '_' && y[|q.0| + 1] == '_';
    assert |p.0| == |q.0|;
    assert SafeComponent(alnum, q.0) == y[..|q.0|] == p.0 && SafeComponent(alnum, q.1) == y[|q.0| + 2..] == p.1;
    SafeFixed(alnum, q.0);
    SafeFixed(alnum, q.1);
  }

  lemma SafeFixed(alnum: char -> bool, s: string)
    requires AllFixed(alnum, SafeComponent(alnum, s))
    ensures SafeComponent(alnum, s) == s
  {
    forall i | 0 <= i < |s| ensures SafeComponent(alnum, s)[i] == s[i] {
      assert Fixed(alnum, SafeComponent(alnum, s)[i]);
    }
  }

  /** A marker serves one pair alone exactly when neither part has an underscore or an unsafe character. */
  lemma MarkerAloneExactly(alnum: char -> bool, p: Pair)
    requires IsAlnum(alnum)
    ensures SharesMarker(alnum, p) <==> !(AllFixed(alnum, p.0) && AllFixed(alnum, p.1))
  {
    if !AllFixed(alnum, p.0) {
      var t := OtherSpelling(alnum, p.0);
      assert SameMarker(alnum, (t, p.1), p) && (t, p.1) != p;
    } else if !AllFixed(alnum, p.1) {
      var t := OtherSpelling(alnum, p.1);
      assert SameMarker(alnum, (p.0, t), p) && (p.0, t) != p;
    } else {
      forall q: Pair | SameMarker(alnum, q, p) ensures q == p { FixedAlone(alnum, p, q); }
    }
  }

  /** `nonce_store.py:FileNonceStore`: the set of marker files; `seen`, `record` and `consume` share it. */
  class FileNonceStore {
    const alnum: char -> bool
    var markers: set<string>

    constructor (alnum: char -> bool)
      ensures markers == {} && this.alnum == alnum
    {
      this.alnum, markers := alnum, {};
    }

    /** The `O_CREAT | O_EXCL` open: one atomic step. */
    method Create(runId: string, nonce: string) returns (created: bool)
      modifies this
      ensures created <==> MarkerName(alnum, runId, nonce) !in old(markers)
      ensures markers == old(markers) + {MarkerName(alnum, runId, nonce)}
    {
      var path := MarkerName(alnum, runId, nonce);
      if path in markers { return false; }
      markers := markers + {path};
      return true;
    }

    method Seen(runId: string, nonce: string) returns (seen: bool)
      ensures seen <==> MarkerName(alnum, runId, nonce) in markers
    {
      seen := MarkerName(alnum, runId, nonce) in markers;
    }

    method Record(runId: string, nonce: string)
      modifies this
      ensures markers == old(markers) + {MarkerName(alnum, runId, nonce)}
    {
      var _ := Create(runId, nonce);
    }

    method Consume(runId: string, nonce: string) returns (first: bool)
      modifies this
      ensures first <==> MarkerName(alnum, runId, nonce) !in old(markers)
      ensures markers == old(markers) + {MarkerName(alnum, runId, nonce)}
    {
      first := Create(runId, nonce);
    }
  }

  // ---- the injected store: either kind ----

  datatype StoreState = InMemory(recorded: set<Pair>,
                                 consumed: set<Pair>) | OnDisk(alnum: char -> bool, markers: set<string>)

  predicate SeenIn(s: StoreState, p: Pair) {
    match s
    case InMemory(recorded, _) => p in recorded
    case OnDisk(alnum, markers) => MarkerName(alnum, p.0, p.1) in markers
  }

  /** Whether `consume` would answer False. */
  predicate SpentIn(s: StoreState, p: Pair) {
    match s
    case InMemory(_, consumed) => p in consumed
    case OnDisk(alnum, markers) => MarkerName(alnum, p.0, p.1) in markers
  }

  function Recorded(s: StoreState, p: Pair): StoreState {
    match s
    case InMemory(recorded, consumed) => InMemory(recorded + {p}, consumed)
    case OnDisk(alnum, markers) => OnDisk(alnum, markers + {MarkerName(alnum, p.0, p.1)})
  }

  function Consumed(s: StoreState, p: Pair): StoreState {
    match s
    case InMemory(recorded, consumed) => InMemory(recorded, consumed + {p})
    case OnDisk(alnum, markers) => OnDisk(alnum, markers + {MarkerName(alnum, p.0, p.1)})
  }

  /** Recording one of the pairs makes the other look seen. */
  predicate SameSlot(s: StoreState, p: Pair, q: Pair) { p == q || (s.OnDisk? && SameMarker(s.alnum, p, q)) }

  lemma SlotRecorded(s: StoreState, p: Pair, q: Pair)
    ensures SeenIn(Recorded(s, q), p) <==> SeenIn(s, p) || SameSlot(s, p, q)
    ensures SameSlot(s, p, q) ==> (SeenIn(s, p) <==> SeenIn(s, q))
    ensures forall x, y :: SameSlot(Recorded(s, q), x, y) == SameSlot(s, x, y)
  {
    hide MarkerName;
  }

  /** A nonce store port: one of the two classes. */
  datatype Store = Memory(m: InMemoryNonceStore) | Durable(f: FileNonceStore)
  {
    function State(): StoreState
      reads if Memory? then {m as object} else {f as object}
    {
      match this
      case Memory(m) => InMemory(m.recorded, m.consumed)
      case Durable(f) => OnDisk(f.alnum, f.markers)
    }

    function Objects(): set<object> { if Memory? then {m as object} else {f as object} }

    method Seen(p: Pair) returns (seen: bool)
      ensures seen <==> SeenIn(State(), p)
    {
      match this {
        case Memory(m) => seen := m.Seen(p.0, p.1);
        case Durable(f) => seen := f.Seen(p.0, p.1);
      }
    }

    method Record(p: Pair)
      modifies Objects()
      ensures State() == Recorded(old(State()), p)
    {
      match this {
        case Memory(m) => m.Record(p.0, p.1);
        case Durable(f) => f.Record(p.0, p.1);
      }
    }

    method Consume(p: Pair) returns (first: bool)
      modifies Objects()
      ensures first <==> !SpentIn(old(State()), p)
      ensures State() == Consumed(old(State()), p)
    {
      match this {
        case Memory(m) => first := m.Consume(p.0, p.1);
        case Durable(f) => first := f.Consume(p.0, p.1);
      }
    }
  }

  lemma SpentAlready(s: StoreState, p: Pair)
    requires SpentIn(s, p)
    ensures Consumed(s, p) == s
  {}

  // ---- refinement of the abstract once-only set ----

  /** Runs of `consume` calls against a store that files a pair under `slot`: which calls succeed. */
  function Firsts(slot: Pair -> string, used: set<string>, calls: seq<Pair>): (r: seq<bool>)
    ensures |r| == |calls|
    decreases |calls|
  {
    if calls == [] then []
    else [slot(calls[0]) !in used] + Firsts(slot, used + {slot(calls[0])}, calls[1..])
  }

  /** The abstract store: a set of pairs. */
  function AbstractFirsts(used: set<Pair>, calls: seq<Pair>): (r: seq<bool>)
    ensures |r| == |calls|
    decreases |calls|
  {
    if calls == [] then [] else [calls[0] !in used] + AbstractFirsts(used + {calls[0]}, calls[1..])
  }

  lemma {:induction false} FirstsRespectUsed(slot: Pair -> string, used: set<string>, calls: seq<Pair>, i: nat)
    requires i < |calls| && slot(calls[i]) in used
    ensures !Firsts(slot, used, calls)[i]
    decreases |calls|
  {
    if i > 0 { FirstsRespectUsed(slot, used + {slot(calls[0])}, calls[1..], i - 1); }
  }

  /** Whatever the naming function, pairs filed alike succeed at most once, the first time. */
  lemma {:induction false} NeverTwice(slot: Pair -> string, used: set<string>, calls: seq<Pair>, i: nat, j: nat)
    requires i < j < |calls| && slot(calls[i]) == slot(calls[j])
    ensures !Firsts(slot, used, calls)[j]
    decreases |calls|
  {
    if i == 0 {
      FirstsRespectUsed(slot, used + {slot(calls[0])}, calls[1..], j - 1);
    } else {
      NeverTwice(slot, used + {slot(calls[0])}, calls[1..], i - 1, j - 1);
    }
  }

  /** Marker slots and pairs correspond on everything used or called. */
  ghost predicate Faithful(slot: Pair -> string, pairs: set<Pair>) {
    forall p, q :: p in pairs && q in pairs && slot(p) == slot(q) ==> p == q
  }

  /** Every success of the file store is one of the abstract store; where names do not collide the
      two agree call by call. */
  lemma {:induction false} FileStoreRefines(slot: Pair -> string, usedPairs: set<Pair>, used: set<string>,
                                            calls: seq<Pair>)
    requires used == set p | p in usedPairs :: slot(p)
    ensures forall i :: 0 <= i < |calls| && Firsts(slot, used, calls)[i] ==> AbstractFirsts(usedPairs, calls)[i]
    ensures Faithful(slot, usedPairs + set c | c in calls) ==>
      Firsts(slot, used, calls) == AbstractFirsts(usedPairs, calls)
    decreases |calls|
  {
    if calls != [] {
      var c := calls[0];
      var used', pairs' := used + {slot(c)}, usedPairs + {c};
      assert used' == set p | p in pairs' :: slot(p);
      FileStoreRefines(slot, pairs', used', calls[1..]);
      assert pairs' + (set x | x in calls[1..]) == usedPairs + set x | x in calls by {
        assert calls == [c] + calls[1..];
      }
    }
  }

  /** For the real marker names: agreement with the abstract store on splittable runs and safe nonces. */
  lemma FileStoreAgrees(alnum: char -> bool, calls: seq<Pair>)
    requires forall c :: c in calls ==> Splittable(alnum, c.0) && Safe(alnum, c.1)
    ensures Firsts((p: Pair) => MarkerName(alnum, p.0, p.1), {}, calls) == AbstractFirsts({}, calls)
  {
    var slot := (p: Pair) => MarkerName(alnum, p.0, p.1);
    var pairs := set c | c in calls;
    forall p, q | p in pairs && q in pairs && slot(p) == slot(q) ensures p == q {
      MarkerInjective(alnum, p.0, p.1, q.0, q.1);
    }
    assert {} + pairs == pairs;
    FileStoreRefines(slot, {}, {}, calls);
  }
}
