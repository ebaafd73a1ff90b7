/** The tracker over whole runs: any interleaving of observed events and releases. */
module TrackerRuns {
  import opened Wrappers
  import opened Events
  import opened Lru
  import opened OrderProgress
  import opened OrderFold

  /** One call on the tracker. */
  datatype Op = Observe(body: Body) | Release(body: Body) {
    predicate Observes(k: string) {
      Observe? && body.OrderId() == Some(k)
    }
  }

  function Step(c: Cache, op: Op, cap: nat): Cache {
    match op
    case Observe(b) => Observed(c, b, cap)
    case Release(b) => Released(c, b)
  }

  /** The tracker after `ops`, from empty. */
  function Run(ops: seq<Op>, cap: nat): Cache {
    if ops == [] then NO_ORDERS else Step(Run(ops[..|ops| - 1], cap), ops[|ops| - 1], cap)
  }

  /** What one call does to the recency list. */
  function Effect(c: Cache, op: Op): seq<Event> {
    match op
    case Observe(b) => if b.OrderId().Some? then [Touch(b.OrderId().value)] else []
    case Release(b) => if EndsOrder(c, b) then [Free(b.OrderId().value)] else []
  }

  function Trace(ops: seq<Op>, cap: nat): seq<Event> {
    if ops == [] then []
    else Trace(ops[..|ops| - 1], cap) + Effect(Run(ops[..|ops| - 1], cap), ops[|ops| - 1])
  }

  lemma {:induction false} KeysFollowTrace(ops: seq<Op>, cap: nat)
    ensures WellFormed(Run(ops, cap))
    ensures Run(ops, cap).keys == Bounded(Trace(ops, cap), cap)
  {
    if ops != [] {
      var pre, op := ops[..|ops| - 1], ops[|ops| - 1];
      KeysFollowTrace(pre, cap);
      var c, t := Run(pre, cap), Trace(pre, cap);
      if op.Observe? {
        ObservedWellFormed(c, op.body, cap);
      } else {
        ReleasedWellFormed(c, op.body);
      }
      var e := Effect(c, op);
      if e == [] {
        assert t + e == t;
      } else {
        assert e == [e[0]];
        BoundedStep(t, e[0], cap);
      }
    }
  }

  /** Index of the last observed event of `k`, or -1. */
  function LastSeen(ops: seq<Op>, k: string): (r: int)
    ensures -1 <= r < |ops|
    ensures r >= 0 ==> ops[r].Observes(k)
  {
    if ops == [] then -1
    else if ops[|ops| - 1].Observes(k) then |ops| - 1
    else LastSeen(ops[..|ops| - 1], k)
  }

  /** The distinct orders observed after the last event of `k`. */
  function SeenSince(ops: seq<Op>, k: string): set<string> {
    if ops == [] || ops[|ops| - 1].Observes(k) then {}
    else
      SeenSince(ops[..|ops| - 1], k)
      + if ops[|ops| - 1].Observe? && ops[|ops| - 1].body.OrderId().Some?
        then {ops[|ops| - 1].body.OrderId().value} else {}
  }

  lemma TouchedSinceStep(t: seq<Event>, e: Event, k: string)
    ensures TouchedSince(t + [e], k)
         == if e == Touch(k) then {} else TouchedSince(t, k) + if e.Touch? then {e.key} else {}
  {
    LastTouchStep(t, e, k);
    var h := t + [e];
    if e != Touch(k) {
      forall x | x in TouchedSince(t, k) ensures x in TouchedSince(h, k) {
        var i :| LastTouch(t, k) < i < |t| && t[i] == Touch(x);
        assert h[i] == Touch(x);
      }
      if e.Touch? {
        assert h[|t|] == e;
      }
      forall x | x in TouchedSince(h, k) ensures x in TouchedSince(t, k) || (e.Touch? && x == e.key) {
        var i :| LastTouch(h, k) < i < |h| && h[i] == Touch(x);
        if i < |t| {
          assert t[i] == Touch(x);
        }
      }
    }
  }

  lemma TraceAppend(pre: seq<Op>, op: Op, cap: nat)
    ensures Run(pre + [op], cap) == Step(Run(pre, cap), op, cap)
    ensures Trace(pre + [op], cap) == Trace(pre, cap) + Effect(Run(pre, cap), op)
  {
    assert (pre + [op])[..|pre|] == pre;
  }

  lemma SeenAppend(pre: seq<Op>, op: Op, k: string)
    ensures LastSeen(pre + [op], k) == if op.Observes(k) then |pre| else LastSeen(pre, k)
    ensures SeenSince(pre + [op], k)
         == if op.Observes(k) then {}
            else SeenSince(pre, k) + if op.Observe? && op.body.OrderId().Some? then {op.body.OrderId().value} else {}
  {
    assert (pre + [op])[..|pre|] == pre;
  }

  /** The trace and the calls agree on one order's last event and on what came after it. */
  predicate SameRecency(t: seq<Event>, ops: seq<Op>, k: string) {
    (LastTouch(t, k) >= 0 <==> LastSeen(ops, k) >= 0)
    && (LastSeen(ops, k) >= 0 ==> TouchedSince(t, k) == SeenSince(ops, k))
  }

  /** They also agree on which of two orders had the later last event. */
  predicate SameOrder(t: seq<Event>, ops: seq<Op>, j: string, k: string) {
    LastTouch(t, j) < LastTouch(t, k) <==> LastSeen(ops, j) < LastSeen(ops, k)
  }

  /** One call moves an order's last touch as it moves its last event. */
  lemma TouchFollowsCall(t: seq<Event>, c: Cache, op: Op, k: string)
    ensures LastTouch(t + Effect(c, op), k) == if op.Observes(k) then |t| else LastTouch(t, k)
    ensures |t + Effect(c, op)| >= |t|
  {
    var e := Effect(c, op);
    if e == [] {
      assert t + e == t;
    } else {
      assert e == [e[0]];
      LastTouchStep(t, e[0], k);
    }
  }

  lemma SinceFollowsCall(t: seq<Event>, c: Cache, pre: seq<Op>, op: Op, k: string)
    requires LastSeen(pre, k) >= 0 ==> TouchedSince(t, k) == SeenSince(pre, k)
    ensures LastSeen(pre + [op], k) >= 0 ==> TouchedSince(t + Effect(c, op), k) == SeenSince(pre + [op], k)
  {
    SeenAppend(pre, op, k);
    var e := Effect(c, op);
    if e == [] {
      assert t + e == t;
    } else {
      assert e == [e[0]];
      TouchedSinceStep(t, e[0], k);
    }
  }

  lemma RecencyStepAgrees(t: seq<Event>, c: Cache, pre: seq<Op>, op: Op, j: string, k: string)
    requires SameRecency(t, pre, k) && SameOrder(t, pre, j, k)
    ensures SameRecency(t + Effect(c, op), pre + [op], k) && SameOrder(t + Effect(c, op), pre + [op], j, k)
  {
    SeenAppend(pre, op, j);
    SeenAppend(pre, op, k);
    TouchFollowsCall(t, c, op, j);
    TouchFollowsCall(t, c, op, k);
    SinceFollowsCall(t, c, pre, op, k);
  }

  lemma {:induction false} TraceRecency(ops: seq<Op>, cap: nat, j: string, k: string)
    ensures SameRecency(Trace(ops, cap), ops, k) && SameOrder(Trace(ops, cap), ops, j, k)
  {
    if ops != [] {
      var pre, op := ops[..|ops| - 1], ops[|ops| - 1];
      assert ops == pre + [op];
      TraceRecency(pre, cap, j, k);
      TraceAppend(pre, op, cap);
      RecencyStepAgrees(Trace(pre, cap), Run(pre, cap), pre, op, j, k);
    }
  }

  /** Whether call `i` removes the slot of `k`. */
  predicate FreedAt(ops: seq<Op>, cap: nat, k: string, i: nat)
    requires i < |ops|
  {
    ops[i].Release? && ops[i].body.OrderId() == Some(k) && EndsOrder(Run(ops[..i], cap), ops[i].body)
  }

  /** Observed, and not released since. */
  ghost predicate Open(ops: seq<Op>, cap: nat, k: string) {
    LastSeen(ops, k) >= 0 && forall i :: LastSeen(ops, k) < i < |ops| ==> !FreedAt(ops, cap, k, i)
  }

  lemma OpenStep(pre: seq<Op>, op: Op, cap: nat, k: string)
    ensures Open(pre + [op], cap, k)
       <==> op.Observes(k) || (Open(pre, cap, k) && !FreedAt(pre + [op], cap, k, |pre|))
  {
    var ops := pre + [op];
    assert ops[..|ops| - 1] == pre;
    forall i | 0 <= i < |pre| ensures FreedAt(ops, cap, k, i) == FreedAt(pre, cap, k, i) {
      assert ops[..i] == pre[..i];
    }
  }

  /** Observing lists the order, releasing an ended one removes it, nothing else matters. */
  lemma ListedStep(t: seq<Event>, c: Cache, op: Op, k: string)
    ensures k in Recency(t + Effect(c, op))
       <==> op.Observes(k)
            || (k in Recency(t) && !(op.Release? && op.body.OrderId() == Some(k) && EndsOrder(c, op.body)))
  {
    var e := Effect(c, op);
    if e == [] {
      assert t + e == t;
    } else {
      assert e == [e[0]];
      RecencyStep(t, e[0]);
    }
  }

  lemma {:induction false} OpenIsListed(ops: seq<Op>, cap: nat, k: string)
    ensures Open(ops, cap, k) <==> k in Recency(Trace(ops, cap))
  {
    if ops != [] {
      var pre, op := ops[..|ops| - 1], ops[|ops| - 1];
      assert ops == pre + [op];
      OpenIsListed(pre, cap, k);
      OpenStep(pre, op, cap, k);
      TraceAppend(pre, op, cap);
      assert (pre + [op])[..|pre|] == pre;
      ListedStep(Trace(pre, cap), Run(pre, cap), op, k);
    }
  }

  // ─── what the dictionary holds ───────────────────────────────────────────

  predicate SeenBefore(ops: seq<Op>, j: string, k: string) {
    0 <= LastSeen(ops, j) < LastSeen(ops, k)
  }

  ghost predicate OrderedByLastSeen(ops: seq<Op>, keys: seq<string>) {
    forall i, j :: 0 <= i < j < |keys| ==> SeenBefore(ops, keys[i], keys[j])
  }

  lemma OrderAgrees(ops: seq<Op>, cap: nat, j: string, k: string)
    requires 0 <= LastTouch(Trace(ops, cap), j) < LastTouch(Trace(ops, cap), k)
    ensures 0 <= LastSeen(ops, j) < LastSeen(ops, k)
  {
    TraceRecency(ops, cap, j, k);
    TraceRecency(ops, cap, k, j);
  }

  lemma TailOrdered(ops: seq<Op>, cap: nat, dropped: seq<string>, keys: seq<string>)
    requires Recency(Trace(ops, cap)) == dropped + keys
    ensures OrderedByLastSeen(ops, keys)
  {
    forall i, j | 0 <= i < j < |keys| ensures SeenBefore(ops, keys[i], keys[j]) {
      InOrderWithinTail(Trace(ops, cap), dropped, keys, i, j);
      OrderAgrees(ops, cap, keys[i], keys[j]);
    }
  }

  /** After any run the dictionary respects its cap and lists its orders by last event. */
  lemma CappedAndOrdered(ops: seq<Op>, cap: nat)
    ensures |Run(ops, cap).keys| <= cap
    ensures Run(ops, cap).slots.Keys == Elements(Run(ops, cap).keys)
    ensures OrderedByLastSeen(ops, Run(ops, cap).keys)
  {
    KeysFollowTrace(ops, cap);
    var dropped := BoundedIsTail(Trace(ops, cap), cap);
    TailOrdered(ops, cap, dropped, Run(ops, cap).keys);
  }

  /** Exactly which orders are held: open ones that were never pushed `cap` deep. */
  lemma HeldExactly(ops: seq<Op>, cap: nat, k: string)
    ensures k in Run(ops, cap).slots
       <==> Open(ops, cap, k) && NeverTooDeep(Trace(ops, cap), k, cap)
  {
    KeysFollowTrace(ops, cap);
    HeldIff(Trace(ops, cap), k, cap);
    OpenIsListed(ops, cap, k);
  }

  /** An order that was not released is held while fewer than `cap` distinct other orders
      have been observed since its last event. */
  lemma HeldWhileRecent(ops: seq<Op>, cap: nat, k: string)
    requires Open(ops, cap, k) && |SeenSince(ops, k)| < cap
    ensures k in Run(ops, cap).slots
  {
    KeysFollowTrace(ops, cap);
    OpenIsListed(ops, cap, k);
    TraceRecency(ops, cap, k, k);
    HeldUnderLowPressure(Trace(ops, cap), k, cap);
  }

  lemma {:induction false} ObservedOnlyTouches(ops: seq<Op>, cap: nat)
    requires forall i :: 0 <= i < |ops| ==> ops[i].Observe?
    ensures forall i :: 0 <= i < |Trace(ops, cap)| ==> Trace(ops, cap)[i].Touch?
  {
    if ops != [] {
      ObservedOnlyTouches(ops[..|ops| - 1], cap);
    }
  }

  /** Without releases that is exact. */
  lemma HeldExactlyWhileRecent(ops: seq<Op>, cap: nat, k: string)
    requires forall i :: 0 <= i < |ops| ==> ops[i].Observe?
    ensures k in Run(ops, cap).slots <==> LastSeen(ops, k) >= 0 && |SeenSince(ops, k)| < cap
  {
    KeysFollowTrace(ops, cap);
    ObservedOnlyTouches(ops, cap);
    TraceRecency(ops, cap, k, k);
    HeldIffFewTouched(Trace(ops, cap), k, cap);
  }

  // ─── what a slot contains ────────────────────────────────────────────────

  /** The observed events of one order, in order. */
  function BodiesOf(ops: seq<Op>, k: string): seq<Body> {
    if ops == [] then []
    else BodiesOf(ops[..|ops| - 1], k) + (if ops[|ops| - 1].Observes(k) then [ops[|ops| - 1].body] else [])
  }

  predicate HeldAfter(ops: seq<Op>, cap: nat, k: string, j: nat)
    requires j <= |ops|
  {
    k in Run(ops[..j], cap).slots
  }

  /** Call `i` created the slot of `k`, and the slot has been held ever since. */
  ghost predicate BornAt(ops: seq<Op>, cap: nat, k: string, i: nat) {
    i < |ops| && ops[i].Observes(k) && k !in Run(ops[..i], cap).slots
    && forall j :: i < j <= |ops| ==> HeldAfter(ops, cap, k, j)
  }

  lemma SlotStep(c: Cache, op: Op, cap: nat, k: string)
    requires k in Step(c, op, cap).slots
    ensures op.Observes(k) ==> Step(c, op, cap).slots[k] == Absorbed(SlotOf(c, k), op.body)
    ensures !op.Observes(k) ==> k in c.slots && Step(c, op, cap).slots[k] == c.slots[k]
  { }

  lemma BornStep(ops: seq<Op>, cap: nat, k: string, born: nat)
    requires ops != [] && BornAt(ops[..|ops| - 1], cap, k, born) && k in Run(ops, cap).slots
    ensures BornAt(ops, cap, k, born)
  {
    var pre := ops[..|ops| - 1];
    assert ops[..|ops|] == ops && pre[..born] == ops[..born];
    forall j | born < j <= |ops| ensures HeldAfter(ops, cap, k, j) {
      if j < |ops| {
        assert HeldAfter(pre, cap, k, j);
        assert pre[..j] == ops[..j];
      }
    }
  }

  lemma FoldStep(ops: seq<Op>, k: string)
    requires ops != []
    ensures Fold(BodiesOf(ops, k))
         == if ops[|ops| - 1].Observes(k) then Absorbed(Fold(BodiesOf(ops[..|ops| - 1], k)), ops[|ops| - 1].body)
            else Fold(BodiesOf(ops[..|ops| - 1], k))
  {
    var bs, pre := BodiesOf(ops, k), BodiesOf(ops[..|ops| - 1], k);
    if ops[|ops| - 1].Observes(k) {
      assert bs[..|bs| - 1] == pre;
    } else {
      assert bs == pre;
    }
  }

  /** The slot of `k` is held, was created by call `born`, and is the fold from there on. */
  ghost predicate FoldedSince(ops: seq<Op>, cap: nat, k: string, born: nat) {
    BornAt(ops, cap, k, born) && k in Run(ops, cap).slots && Run(ops, cap).slots[k] == Fold(BodiesOf(ops[born..], k))
  }

  lemma SlotContinues(pre: seq<Op>, op: Op, cap: nat, k: string, born: nat)
    requires FoldedSince(pre, cap, k, born) && k in Run(pre + [op], cap).slots
    ensures FoldedSince(pre + [op], cap, k, born)
  {
    var ops, suffix := pre + [op], pre[born..] + [op];
    assert ops[..|pre|] == pre && ops[born..] == suffix && suffix[..|suffix| - 1] == pre[born..];
    TraceAppend(pre, op, cap);
    SlotStep(Run(pre, cap), op, cap, k);
    BornStep(ops, cap, k, born);
    FoldStep(suffix, k);
  }

  lemma BornNow(pre: seq<Op>, op: Op, cap: nat, k: string)
    requires k !in Run(pre, cap).slots && k in Run(pre + [op], cap).slots && op.Observes(k)
    ensures BornAt(pre + [op], cap, k, |pre|)
  {
    var ops := pre + [op];
    assert ops[..|pre|] == pre && ops[..|ops|] == ops;
    assert HeldAfter(ops, cap, k, |ops|);
  }

  lemma FoldOfOne(op: Op, k: string)
    requires op.Observes(k)
    ensures Fold(BodiesOf([op], k)) == Absorbed(EMPTY, op.body)
  {
    assert [op][..0] == [];
    FoldStep([op], k);
  }

  lemma SlotBegins(pre: seq<Op>, op: Op, cap: nat, k: string)
    requires k !in Run(pre, cap).slots && k in Run(pre + [op], cap).slots
    ensures FoldedSince(pre + [op], cap, k, |pre|)
  {
    TraceAppend(pre, op, cap);
    SlotStep(Run(pre, cap), op, cap, k);
    BornNow(pre, op, cap, k);
    FoldOfOne(op, k);
    assert (pre + [op])[|pre|..] == [op];
  }

  /** Every held slot is the fold of its order's events since the slot was created. */
  lemma {:induction false} SlotIsFold(ops: seq<Op>, cap: nat, k: string) returns (born: nat)
    requires k in Run(ops, cap).slots
    ensures FoldedSince(ops, cap, k, born)
  {
    var pre, op := ops[..|ops| - 1], ops[|ops| - 1];
    assert ops == pre + [op];
    if k in Run(pre, cap).slots {
      born := SlotIsFold(pre, cap, k);
      SlotContinues(pre, op, cap, k, born);
    } else {
      born := |pre|;
      SlotBegins(pre, op, cap, k);
    }
  }

  /** While an order's slot is never lost, it is the fold of all the order's events. */
  ghost predicate Unbroken(ops: seq<Op>, cap: nat, k: string, upTo: nat)
    requires upTo <= |ops|
  {
    forall j :: 0 <= j <= upTo && LastSeen(ops[..j], k) >= 0 ==> HeldAfter(ops, cap, k, j)
  }

  lemma {:induction false} NeverSeen(ops: seq<Op>, cap: nat, k: string)
    requires LastSeen(ops, k) < 0
    ensures k !in Run(ops, cap).slots && BodiesOf(ops, k) == []
  {
    if ops != [] {
      NeverSeen(ops[..|ops| - 1], cap, k);
    }
  }

  lemma {:induction false} UnbrokenSlot(ops: seq<Op>, cap: nat, k: string, upTo: nat)
    requires upTo <= |ops| && Unbroken(ops, cap, k, upTo)
    ensures SlotOf(Run(ops[..upTo], cap), k) == Fold(BodiesOf(ops[..upTo], k))
  {
    var now := ops[..upTo];
    if upTo > 0 {
      UnbrokenSlot(ops, cap, k, upTo - 1);
      assert now[..upTo - 1] == ops[..upTo - 1];
      FoldStep(now, k);
      if LastSeen(now, k) >= 0 {
        assert HeldAfter(ops, cap, k, upTo);
        SlotStep(Run(ops[..upTo - 1], cap), now[upTo - 1], cap, k);
      } else {
        NeverSeen(now, cap, k);
        NeverSeen(ops[..upTo - 1], cap, k);
      }
    }
  }
}
