/** `inbox.py`: mailboxes of numbered messages, claimed, published and polled behind a cursor. */
module Inbox {
  import opened NonceStores

  /** File names carry twelve digits, and a poll matches names of exactly twelve. */
  const LIMIT: nat := 1000000000000

  type Cursor = c: int | -1 <= c

  /** One mailbox directory: claim files, published files and the cursor. */
  datatype Box<T> = Box(claims: set<nat>, files: map<nat, T>, cursor: Cursor)

  function EmptyBox<T>(): Box<T> { Box({}, map[], -1) }

  /** The first number from n on that nobody has claimed. */
  function FreeFrom(claims: set<nat>, n: nat): (free: nat)
    ensures n <= free && free !in claims
    decreases |claims|
  {
    if n !in claims then n else FreeFrom(claims - {n}, n + 1)
  }

  /** Every smaller number from n on is taken. */
  lemma {:induction false} FreeIsFirst(claims: set<nat>, n: nat, m: nat)
    requires n <= m < FreeFrom(claims, n)
    ensures m in claims
    decreases |claims|
  {
    if n < m { FreeIsFirst(claims - {n}, n + 1, m); }
  }

  /** So a free number with every smaller one taken is that number. */
  lemma FreeUnique(claims: set<nat>, n: nat, free: nat)
    requires n <= free && free !in claims && forall m :: n <= m < free ==> m in claims
    ensures free == FreeFrom(claims, n)
  {
    hide FreeFrom;
    var other := FreeFrom(claims, n);
    assert other < free ==> other in claims;
    FreeTaken(claims, n, free);
  }

  lemma FreeTaken(claims: set<nat>, n: nat, m: nat)
    requires n <= m && m !in claims
    ensures FreeFrom(claims, n) <= m
  {
    hide FreeFrom;
    if m < FreeFrom(claims, n) { FreeIsFirst(claims, n, m); }
  }

  /** The published messages numbered in [from, upto), in order. */
  function Pending<T>(files: map<nat, T>, from: nat, upto: nat): seq<(nat, T)>
    decreases upto - from
  {
    if from >= upto then []
    else if from in files then [(from, files[from])] + Pending(files, from + 1, upto)
    else Pending(files, from + 1, upto)
  }

  /** Exactly the numbered messages of the range, in strictly ascending order. */
  lemma {:induction false} PendingIs<T(!new)>(files: map<nat, T>, from: nat, upto: nat)
    ensures var r := Pending(files, from, upto);
      && (forall x :: x in r <==> from <= x.0 < upto && x.0 in files && x.1 == files[x.0])
      && (forall i, j :: 0 <= i < j < |r| ==> r[i].0 < r[j].0)
    decreases upto - from
  {
    if from < upto {
      PendingIs(files, from + 1, upto);
      var r, rest := Pending(files, from, upto), Pending(files, from + 1, upto);
      if from in files {
        forall x ensures x in r <==> x == (from, files[from]) || x in rest {}
        forall j | 0 < j < |r| ensures r[0].0 < r[j].0 { assert r[j] == rest[j - 1] && rest[j - 1] in rest; }
        hide Pending;
        forall i, j | 0 <= i < j < |r| ensures r[i].0 < r[j].0 {
          if i > 0 { assert r[i] == rest[i - 1] && r[j] == rest[j - 1]; }
        }
      }
    }
  }

  lemma {:induction false} PendingHead<T>(files: map<nat, T>, from: nat, upto: nat)
    ensures Pending(files, from, upto) != [] ==> from <= Pending(files, from, upto)[0].0
    decreases upto - from
  {
    if from < upto { PendingHead(files, from + 1, upto); }
  }

  lemma {:induction false} PendingNone<T>(files: map<nat, T>, from: nat, upto: nat)
    requires files == map[]
    ensures Pending(files, from, upto) == []
    decreases upto - from
  {
    if from < upto { PendingNone(files, from + 1, upto); }
  }

  function Messages<T>(xs: seq<(nat, T)>): (r: seq<T>)
    ensures |r| == |xs|
  {
    seq(|xs|, i requires 0 <= i < |xs| => xs[i].1)
  }

  // ---- the sort by number ----

  function InsertPair<T>(x: (nat, T), xs: seq<(nat, T)>): seq<(nat, T)> {
    if xs == [] || x.0 < xs[0].0 then [x] + xs else [xs[0]] + InsertPair(x, xs[1..])
  }

  function SortPairs<T>(xs: seq<(nat, T)>): seq<(nat, T)> {
    if xs == [] then [] else InsertPair(xs[|xs| - 1], SortPairs(xs[..|xs| - 1]))
  }

  lemma {:induction false} PendingOutside<T>(files: map<nat, T>, n: nat, v: T, from: nat, upto: nat)
    requires n < from || upto <= n
    ensures Pending(files[n := v], from, upto) == Pending(files, from, upto)
    decreases upto - from
  {
    if from < upto { PendingOutside(files, n, v, from + 1, upto); }
  }

  lemma {:induction false} PendingInsert<T>(files: map<nat, T>, n: nat, v: T, from: nat, upto: nat)
    requires from <= n < upto && n !in files
    ensures Pending(files[n := v], from, upto) == InsertPair((n, v), Pending(files, from, upto))
    decreases upto - from
  {
    if from == n {
      PendingOutside(files, n, v, n + 1, upto);
      PendingHead(files, n + 1, upto);
    } else {
      PendingInsert(files, n, v, from + 1, upto);
      var rest := Pending(files, from + 1, upto);
      if from in files { assert ([(from, files[from])] + rest)[1..] == rest; }
    }
  }

  // ---- the mailboxes ----

  /** What a put and a poll make of a box. */
  function Published<T>(box: Box<T>, msg: T): Box<T> {
    var n := FreeFrom(box.claims, 0);
    Box(box.claims + {n}, box.files[n := msg], box.cursor)
  }

  function Arrived<T>(box: Box<T>): seq<(nat, T)> { Pending(box.files, box.cursor + 1, LIMIT) }

  function Polled<T>(box: Box<T>): Box<T> {
    var pending := Arrived(box);
    if pending == [] then box else box.(cursor := pending[|pending| - 1].0)
  }

  class FileInbox<T> {
    const alnum: char -> bool
    var boxes: map<string, Box<T>>

    constructor (alnum: char -> bool)
      ensures boxes == map[] && this.alnum == alnum
    {
      this.alnum, boxes := alnum, map[];
    }

    /** `_mailbox`: actors whose sanitised names agree share one directory. */
    function BoxOf(actor: string): Box<T>
      reads this
    {
      var safe := SafeComponent(alnum, actor);
      if safe in boxes then boxes[safe] else EmptyBox()
    }

    /** `_next_seq`: try to claim 0, 1, 2, ... until one is free. */
    method NextSeq(actor: string) returns (n: nat)
      modifies this
      ensures n == FreeFrom(old(BoxOf(actor)).claims, 0)
      ensures boxes ==
        old(boxes)[SafeComponent(alnum, actor) := old(BoxOf(actor)).(claims := old(BoxOf(actor)).claims + {n})]
    {
      var box := BoxOf(actor);
      n := 0;
      ghost var left := box.claims;
      while n in box.claims
        invariant left == set m | m in box.claims && n <= m
        invariant forall m :: 0 <= m < n ==> m in box.claims
        decreases |left|
      {
        left := left - {n};
        n := n + 1;
      }
      FreeUnique(box.claims, 0, n);
      boxes := boxes[SafeComponent(alnum, actor) := box.(claims := box.claims + {n})];
    }

    /** `put`: claim a number, then publish under it. */
    method Put(toActor: string, msg: T) returns (n: nat)
      modifies this
      ensures n == FreeFrom(old(BoxOf(toActor)).claims, 0)
      ensures boxes == old(boxes)[SafeComponent(alnum, toActor) := Published(old(BoxOf(toActor)), msg)]
    {
      n := NextSeq(toActor);
      var safe := SafeComponent(alnum, toActor);
      boxes := boxes[safe := boxes[safe].(files := boxes[safe].files[n := msg])];
    }

    /** `poll`: everything past the cursor, sorted by number; the cursor moves to the last. */
    method Poll(actor: string) returns (messages: seq<T>)
      modifies this
      ensures messages == Messages(Arrived(old(BoxOf(actor))))
      ensures boxes == old(boxes)[SafeComponent(alnum, actor) := Polled(old(BoxOf(actor)))]
    {
      hide Pending, InsertPair, SafeComponent;
      var box := BoxOf(actor);
      var names := box.files.Keys;
      var pending: seq<(nat, T)> := [];
      ghost var taken: map<nat, T> := map[];
      PendingNone(taken, box.cursor + 1, LIMIT);
      while names != {}
        invariant boxes == old(boxes) && names <= box.files.Keys
        invariant taken == map n | n in box.files && n !in names :: box.files[n]
        invariant SortPairs(pending) == Pending(taken, box.cursor + 1, LIMIT)
        decreases |names|
      {
        var n :| n in names;
        ghost var before := taken;
        names := names - {n};
        taken := taken[n := box.files[n]];
        if n > box.cursor && n < LIMIT {
          PendingInsert(before, n, box.files[n], box.cursor + 1, LIMIT);
          ghost var shorter := pending;
          pending := pending + [(n, box.files[n])];
          assert pending[..|pending| - 1] == shorter;
        } else {
          PendingOutside(before, n, box.files[n], box.cursor + 1, LIMIT);
        }
      }
      assert taken == box.files;
      pending := SortPairs(pending);
      assert pending == Arrived(box);
      if pending != [] { box := box.(cursor := pending[|pending| - 1].0); }
      boxes := boxes[SafeComponent(alnum, actor) := box];
      messages := Messages(pending);
    }
  }

  // ---- whole puts and polls, in any order ----

  datatype Op<T> = PutOp(msg: T) | PollOp

  function Sent<T>(ops: seq<Op<T>>): seq<T> {
    if ops == [] then [] else (if ops[0].PutOp? then [ops[0].msg] else []) + Sent(ops[1..])
  }

  /** The box after the operations, and everything the polls among them returned. */
  function Operate<T>(box: Box<T>, ops: seq<Op<T>>): (Box<T>, seq<T>)
    decreases |ops|
  {
    if ops == [] then (box, [])
    else if ops[0].PutOp? then Operate(Published(box, ops[0].msg), ops[1..])
    else
      var (end, later) := Operate(Polled(box), ops[1..]);
      (end, Messages(Arrived(box)) + later)
  }

  /** The box after the messages `sent` were put in order: message i is number i. */
  ghost predicate Holds<T>(box: Box<T>, sent: seq<T>) {
    && (forall n :: n in box.claims <==> 0 <= n < |sent|)
    && (forall n :: n in box.files <==> 0 <= n < |sent|)
    && (forall n :: 0 <= n < |sent| ==> box.files[n] == sent[n])
    && box.cursor < |sent|
  }

  lemma {:induction false} PendingAll<T>(files: map<nat, T>, sent: seq<T>, from: nat, upto: nat)
    requires forall n :: n in files <==> 0 <= n < |sent|
    requires forall n :: 0 <= n < |sent| ==> files[n] == sent[n]
    requires |sent| <= upto && from <= upto
    ensures |Pending(files, from, upto)| == if from <= |sent| then |sent| - from else 0
    ensures forall i :: 0 <= i < |Pending(files, from, upto)| ==>
      Pending(files, from, upto)[i] == (from + i, sent[from + i])
    decreases upto - from
  {
    if from < upto { PendingAll(files, sent, from + 1, upto); }
  }

  lemma PutHolds<T>(box: Box<T>, sent: seq<T>, msg: T)
    requires Holds(box, sent)
    ensures Holds(Published(box, msg), sent + [msg])
  {
    hide FreeFrom;
    FreeUnique(box.claims, 0, |sent|);
  }

  lemma PollHolds<T>(box: Box<T>, sent: seq<T>)
    requires Holds(box, sent) && |sent| <= LIMIT
    ensures Holds(Polled(box), sent) && Polled(box).cursor == |sent| - 1
    ensures Messages(Arrived(box)) == sent[box.cursor + 1..]
  {
    hide Pending;
    PendingAll(box.files, sent, box.cursor + 1, LIMIT);
  }

  lemma {:induction false} OperateHolds<T>(box: Box<T>, sent: seq<T>, ops: seq<Op<T>>)
    requires Holds(box, sent) && |sent| + |Sent(ops)| <= LIMIT
    ensures var (end, out) := Operate(box, ops);
      Holds(end, sent + Sent(ops)) && sent[..box.cursor + 1] + out == (sent + Sent(ops))[..end.cursor + 1]
    decreases |ops|
  {
    hide Published, Polled, Arrived;
    if ops == [] {
      assert sent + [] == sent;
    } else if ops[0].PutOp? {
      PutHolds(box, sent, ops[0].msg);
      var more := sent + [ops[0].msg];
      assert more + Sent(ops[1..]) == sent + Sent(ops);
      OperateHolds(Published(box, ops[0].msg), more, ops[1..]);
      assert Published(box, ops[0].msg).cursor == box.cursor by { PutCursor(box, ops[0].msg); }
      assert more[..box.cursor + 1] == sent[..box.cursor + 1];
    } else {
      PollHolds(box, sent);
      var (end, later) := Operate(Polled(box), ops[1..]);
      OperateHolds(Polled(box), sent, ops[1..]);
      assert sent[..box.cursor + 1] + sent[box.cursor + 1..] == sent == sent[..|sent|];
      assert sent[..box.cursor + 1] + (sent[box.cursor + 1..] + later) == sent + later;
    }
  }

  lemma PutCursor<T>(box: Box<T>, msg: T)
    ensures Published(box, msg).cursor == box.cursor
  {}

  lemma OperateFromEmpty<T>(ops: seq<Op<T>>)
    requires |Sent(ops)| <= LIMIT
    ensures var (end, out) := Operate(EmptyBox(), ops);
      Holds(end, Sent(ops)) && end.cursor < |Sent(ops)| && out == Sent(ops)[..end.cursor + 1]
  {
    hide Operate, Published, Sent;
    var none: seq<T> := [];
    OperateHolds(EmptyBox(), none, ops);
    assert none + Sent(ops) == Sent(ops);
  }

  /** Up to LIMIT whole puts: the polls together return an initial segment of the puts, in order,
      each once; and all of them once the last operation is a poll. */
  lemma ExactlyOnce<T>(ops: seq<Op<T>>)
    requires |Sent(ops)| <= LIMIT
    ensures Operate(EmptyBox(), ops).1 <= Sent(ops)
    ensures Operate(EmptyBox(), ops + [PollOp]).1 == Sent(ops)
  {
    hide Operate, Polled, Arrived, Holds, Sent, EmptyBox, Messages;
    OperateFromEmpty(ops);
    LastPoll(EmptyBox(), ops);
    var (end, out) := Operate(EmptyBox(), ops);
    PollHolds(end, Sent(ops));
    SplitSeq(Sent(ops), end.cursor + 1);
  }

  lemma SplitSeq<T>(s: seq<T>, k: nat)
    requires k <= |s|
    ensures s[..k] + s[k..] == s
  {}

  lemma {:induction false} LastPoll<T>(box: Box<T>, ops: seq<Op<T>>)
    ensures Operate(box, ops + [PollOp]).1 == Operate(box, ops).1 + Messages(Arrived(Operate(box, ops).0))
    decreases |ops|
  {
    hide Arrived, Published, Polled;
    if ops == [] {
      assert ops + [PollOp] == [PollOp];
    } else {
      assert (ops + [PollOp])[1..] == ops[1..] + [PollOp];
      LastPoll(if ops[0].PutOp? then Published(box, ops[0].msg) else Polled(box), ops[1..]);
    }
  }

  /** Two boxes that agree but for messages numbered past twelve digits. */
  ghost predicate SameBelow<T>(a: Box<T>, b: Box<T>) {
    && a.claims == b.claims && a.cursor == b.cursor
    && forall n: nat :: n < LIMIT ==>
      (n in a.files <==> n in b.files) && (n in a.files && n in b.files ==> a.files[n] == b.files[n])
  }

  lemma {:induction false} PendingSame<T>(a: Box<T>, b: Box<T>, from: nat, upto: nat)
    requires SameBelow(a, b) && upto <= LIMIT
    ensures Pending(a.files, from, upto) == Pending(b.files, from, upto)
    decreases upto - from
  {
    if from < upto { PendingSame(a, b, from + 1, upto); }
  }

  lemma {:induction false} LateChangesNothing<T>(a: Box<T>, b: Box<T>, ops: seq<Op<T>>)
    requires SameBelow(a, b)
    ensures Operate(a, ops).1 == Operate(b, ops).1
    decreases |ops|
  {
    hide FreeFrom, Pending;
    if ops != [] {
      PendingSame(a, b, a.cursor + 1, LIMIT);
      if ops[0].PutOp? {
        LateChangesNothing(Published(a, ops[0].msg), Published(b, ops[0].msg), ops[1..]);
      } else {
        LateChangesNothing(Polled(a), Polled(b), ops[1..]);
      }
    }
  }

  /** Past twelve digits the guarantee ends: such a message is on disk, and whatever is put and
      polled afterwards, all polls return what they would had it never been published. */
  lemma TooLateToArrive<T>(box: Box<T>, msg: T, ops: seq<Op<T>>)
    requires FreeFrom(box.claims, 0) >= LIMIT
    ensures FreeFrom(box.claims, 0) in Published(box, msg).files
    ensures Operate(Published(box, msg), ops).1 == Operate(box.(claims := Published(box, msg).claims), ops).1
  {
    hide Operate, FreeFrom;
    LateChangesNothing(Published(box, msg), box.(claims := Published(box, msg).claims), ops);
  }
}
