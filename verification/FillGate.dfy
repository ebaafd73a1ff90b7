/** The gates that decide which events reach Discord, and what they guarantee over runs. */
module FillGate {
  import opened Wrappers
  import opened Events
  import opened OrderProgress
  import opened OrderFold
  import opened TrackerRuns

  /** Every partial fill but the completing one is suppressed; anything that cannot be
      aggregated passes. */
  predicate ShouldForwardFill(b: Body, c: Cache) {
    !b.HasType(ORDER_FILLED) || b.OrderId().None? || b.OrderId().value !in c.slots
    || c.slots[b.OrderId().value].IsComplete()
  }

  /** All gates, on the tracker as it is after the event was observed. */
  predicate Passes(b: Body, c: Cache) {
    ComponentStatePasses(b) && ShouldForwardOrderEvent(b) && ShouldForwardEventType(b) && ShouldForwardFill(b, c)
  }

  // ─── gate and release ────────────────────────────────────────────────────

  /** No slot is released on an event that the gates would have suppressed. */
  lemma ReleasedOnlyIfForwarded(c: Cache, b: Body)
    requires Released(c, b) != c
    ensures Passes(b, c)
  {
    if b.HasType(ORDER_FILLED) {
      assert b.TypeIn({ORDER_FILLED});
    }
  }

  /** The completeness gate has a slack, the release test has none: a forwarded fill leaves
      its slot behind exactly when a positive remainder within the slack is left. */
  lemma SlotLeftBehindIff(c: Cache, b: Body)
    requires b.HasType(ORDER_FILLED) && b.OrderId().Some?
    requires b.OrderId().value in c.slots && c.slots[b.OrderId().value].total.Some?
    ensures Passes(b, c) && b.OrderId().value in Released(c, b).slots
       <==> 0.0 < c.slots[b.OrderId().value].Remainder().value <= SLACK
  { }

  function Initialized(id: string, total: real): Body {
    Dict(Some(ORDER_INITIALIZED), Some(id), None, None, None, None, None, Some(total), None, None)
  }

  function FilledBy(id: string, qty: real): Body {
    Dict(Some(ORDER_FILLED), Some(id), None, None, None, None, None, None, Some(qty), None)
  }

  /** An order announced and then filled up to the slack reaches that case. */
  lemma SlotIsLeftBehind(id: string, total: real, qty: real, cap: nat)
    requires id != "" && cap >= 1 && 0.0 < total - qty <= SLACK
    ensures var fill := FilledBy(id, qty);
            var c := Run([Observe(Initialized(id, total)), Observe(fill)], cap);
            Passes(fill, c) && id in Released(c, fill).slots
  {
    var init, fill := Observe(Initialized(id, total)), Observe(FilledBy(id, qty));
    TraceAppend([], init, cap);
    TraceAppend([init], fill, cap);
    assert [] + [init] == [init] && [init] + [fill] == [init, fill];
    var c1, c := Run([init], cap), Run([init, fill], cap);
    assert c1.keys == [id] && c1.slots[id] == EMPTY.(total := Some(total));
    assert c.keys == [id] && c.slots[id] == c1.slots[id].(filled := 0.0 + qty, count := 1);
    SlotLeftBehindIff(c, FilledBy(id, qty));
  }

  // ─── what the fill gate asks, on any run ─────────────────────────────────

  /** An order's own event leaves its slot held. */
  lemma HeldOnOwnEvent(ops: seq<Op>, cap: nat, k: string)
    requires ops != [] && ops[|ops| - 1].Observes(k) && cap >= 1
    ensures k in Run(ops, cap).slots
  {
    assert SeenSince(ops, k) == {} && LastSeen(ops, k) == |ops| - 1;
    HeldWhileRecent(ops, cap, k);
  }

  lemma FillFacts(b: Body)
    requires b.HasType(ORDER_FILLED)
    ensures ComponentStatePasses(b) && ShouldForwardOrderEvent(b) && ShouldForwardEventType(b)
  {
    assert b.TypeIn({ORDER_FILLED});
  }

  predicate FillOp(op: Op, k: string) {
    op.Observes(k) && op.body.HasType(ORDER_FILLED)
  }

  /** The gate on a fill, in terms of the order's events since its slot was created: it passes
      exactly if none of them told a total, or the quantities of the fills among them come within
      1e-9 of the last total told. */
  lemma FillPassesIff(ops: seq<Op>, cap: nat, k: string) returns (born: nat, total: Option<real>)
    requires ops != [] && FillOp(ops[|ops| - 1], k) && cap >= 1
    ensures BornAt(ops, cap, k, born) && IsLastTotal(BodiesOf(ops[born..], k), total)
    ensures Passes(ops[|ops| - 1].body, Run(ops, cap))
       <==> total.None? || SumQty(Fills(BodiesOf(ops[born..], k))) >= total.value - 0.000000001
  {
    HeldOnOwnEvent(ops, cap, k);
    born := SlotIsFold(ops, cap, k);
    total := Run(ops, cap).slots[k].total;
    FoldMeaning(BodiesOf(ops[born..], k));
    FillFacts(ops[|ops| - 1].body);
  }

  lemma {:induction false} BodyInBodies(ops: seq<Op>, k: string, b: Body)
    ensures b in BodiesOf(ops, k) <==> exists i :: 0 <= i < |ops| && ops[i].Observes(k) && ops[i].body == b
  {
    if ops != [] {
      var pre, last := ops[..|ops| - 1], ops[|ops| - 1];
      BodyInBodies(pre, k, b);
      assert ops == pre + [last];
    }
  }

  /** No event of the order tells a total (the notifier restarted while it was open, say). */
  ghost predicate NeverTold(ops: seq<Op>, k: string) {
    forall i :: 0 <= i < |ops| && ops[i].Observes(k) ==> !CarriesTotal(ops[i].body)
  }

  lemma UntoldPasses(ops: seq<Op>, cap: nat, k: string)
    requires ops != [] && FillOp(ops[|ops| - 1], k) && NeverTold(ops, k)
    ensures Passes(ops[|ops| - 1].body, Run(ops, cap))
  {
    FillFacts(ops[|ops| - 1].body);
    if k in Run(ops, cap).slots {
      var born := SlotIsFold(ops, cap, k);
      var bs := BodiesOf(ops[born..], k);
      FoldMeaning(bs);
      forall b | b in bs ensures !CarriesTotal(b) {
        BodyInBodies(ops[born..], k, b);
      }
    }
  }

  /** Call `i` observes a fill of `k` that then passes the gates. */
  predicate ForwardedAt(ops: seq<Op>, cap: nat, k: string, i: nat)
    requires i < |ops|
  {
    FillOp(ops[i], k) && Passes(ops[i].body, Run(ops[..i + 1], cap))
  }

  /** The calls at which an `OrderFilled` of `k` is forwarded. */
  function ForwardedFills(ops: seq<Op>, cap: nat, k: string): set<int> {
    set i | 0 <= i < |ops| && ForwardedAt(ops, cap, k, i)
  }

  /** Degrading safely: every fill of such an order is forwarded, none is swallowed. */
  lemma UnknownTotalForwardsAll(ops: seq<Op>, cap: nat, k: string)
    requires NeverTold(ops, k)
    ensures ForwardedFills(ops, cap, k) == set i | 0 <= i < |ops| && FillOp(ops[i], k)
  {
    forall i | 0 <= i < |ops| && FillOp(ops[i], k) ensures ForwardedAt(ops, cap, k, i) {
      UntoldPasses(ops[..i + 1], cap, k);
    }
  }

  // ─── what releases a slot, on any run ────────────────────────────────────

  lemma RemovedIff(c: Cache, b: Body, k: string)
    requires b.OrderId() == Some(k) && k in c.slots
    ensures k !in Released(c, b).slots
       <==> b.eventType in {Some("OrderCanceled"), Some("OrderRejected"), Some("OrderDenied"), Some("OrderExpired")}
            || (b.eventType == Some("OrderFilled") && c.slots[k].total.Some? && c.slots[k].filled >= c.slots[k].total.value)
  {
    assert k !in Released(c, b).slots <==> EndsOrder(c, b);
    assert b.TypeIn(TERMINAL_ORDER_EVENTS)
      <==> b.eventType in {Some("OrderCanceled"), Some("OrderRejected"), Some("OrderDenied"), Some("OrderExpired")};
  }

  /** An event given to `forget_if_terminal` frees its order's slot exactly if it is one of the
      four terminal events, or a fill of an order whose fills have reached its last total. */
  lemma FreedIff(ops: seq<Op>, cap: nat, b: Body, k: string) returns (born: nat, total: Option<real>)
    requires b.OrderId() == Some(k) && k in Run(ops, cap).slots
    ensures BornAt(ops, cap, k, born) && IsLastTotal(BodiesOf(ops[born..], k), total)
    ensures k !in Run(ops + [Release(b)], cap).slots
       <==> b.eventType in {Some("OrderCanceled"), Some("OrderRejected"), Some("OrderDenied"), Some("OrderExpired")}
            || (b.eventType == Some("OrderFilled") && total.Some? && SumQty(Fills(BodiesOf(ops[born..], k))) >= total.value)
  {
    born := SlotIsFold(ops, cap, k);
    total := Run(ops, cap).slots[k].total;
    FoldMeaning(BodiesOf(ops[born..], k));
    TraceAppend(ops, Release(b), cap);
    RemovedIff(Run(ops, cap), b, k);
  }

  /** Releasing touches no other slot and adds none. */
  lemma FreesOnlyItsOwn(ops: seq<Op>, cap: nat, b: Body, j: string)
    requires b.OrderId() != Some(j)
    ensures var c, d := Run(ops, cap), Run(ops + [Release(b)], cap);
            (j in d.slots <==> j in c.slots) && (j in c.slots ==> d.slots[j] == c.slots[j])
  {
    TraceAppend(ops, Release(b), cap);
  }

  // ─── exactly one message per filled order ────────────────────────────────

  function Lots(n: nat, lot: real): real {
    n as real * lot
  }

  ghost predicate OnGrid(q: real, lot: real) {
    exists n: nat :: n >= 1 && q == Lots(n, lot)
  }

  ghost predicate Announced(bs: seq<Body>) {
    exists i :: 0 <= i < |bs| && CarriesTotal(bs[i])
  }

  /** A well-behaved order: its total is announced before its fills and never contradicted,
      fills are whole lots of a grid coarser than the slack, and it never overfills. */
  ghost predicate Orderly(bs: seq<Body>, total: real, lot: real) {
    && lot > SLACK && OnGrid(total, lot)
    && (forall i :: 0 <= i < |bs| && CarriesTotal(bs[i]) ==> bs[i].quantity == Some(total))
    && (forall i :: 0 <= i < |bs| && bs[i].HasType(ORDER_FILLED) ==>
          bs[i].lastQty.Some? && OnGrid(bs[i].lastQty.value, lot) && Announced(bs[..i]))
    && SumQty(Fills(bs)) <= total
  }

  function LastFill(ops: seq<Op>, k: string): (r: int)
    ensures -1 <= r < |ops|
    ensures r >= 0 ==> FillOp(ops[r], k)
    ensures forall i :: r < i < |ops| ==> !FillOp(ops[i], k)
  {
    if ops == [] then -1
    else if FillOp(ops[|ops| - 1], k) then |ops| - 1
    else LastFill(ops[..|ops| - 1], k)
  }

  lemma {:induction false} BodiesConcat(a: seq<Op>, b: seq<Op>, k: string)
    ensures BodiesOf(a + b, k) == BodiesOf(a, k) + BodiesOf(b, k)
  {
    if b == [] {
      assert a + b == a;
    } else {
      assert (a + b)[..|a + b| - 1] == a + b[..|b| - 1];
      BodiesConcat(a, b[..|b| - 1], k);
    }
  }

  lemma BodiesOfOne(op: Op, k: string)
    ensures BodiesOf([op], k) == if op.Observes(k) then [op.body] else []
  {
    assert [op][..0] == [];
  }

  lemma BodiesSplit(ops: seq<Op>, k: string, i: nat)
    requires i <= |ops|
    ensures BodiesOf(ops, k) == BodiesOf(ops[..i], k) + BodiesOf(ops[i..], k)
  {
    BodiesConcat(ops[..i], ops[i..], k);
    assert ops[..i] + ops[i..] == ops;
  }

  lemma {:induction false} FillsSplit(a: seq<Body>, b: seq<Body>)
    ensures Fills(a + b) == Fills(a) + Fills(b)
  {
    if b == [] {
      assert a + b == a;
    } else {
      assert (a + b)[..|a + b| - 1] == a + b[..|b| - 1];
      FillsSplit(a, b[..|b| - 1]);
    }
  }

  lemma {:induction false} SumSplit(a: seq<Fill>, b: seq<Fill>)
    ensures SumQty(a + b) == SumQty(a) + SumQty(b)
  {
    if b == [] {
      assert a + b == a;
    } else {
      assert (a + b)[..|a + b| - 1] == a + b[..|b| - 1];
      SumSplit(a, b[..|b| - 1]);
    }
  }

  ghost predicate AllOnGrid(fs: seq<Fill>, lot: real) {
    forall i :: 0 <= i < |fs| ==> OnGrid(fs[i].qty, lot)
  }

  lemma AddLots(m: nat, n: nat, lot: real)
    ensures Lots(m, lot) + Lots(n, lot) == Lots(m + n, lot)
  { }

  lemma {:induction false} GridSum(fs: seq<Fill>, lot: real) returns (n: nat)
    requires AllOnGrid(fs, lot)
    ensures SumQty(fs) == Lots(n, lot)
    ensures fs != [] ==> n >= 1
  {
    if fs == [] {
      n := 0;
    } else {
      var m := GridSum(fs[..|fs| - 1], lot);
      var d: nat :| d >= 1 && fs[|fs| - 1].qty == Lots(d, lot);
      AddLots(m, d, lot);
      n := m + d;
    }
  }

  lemma AtLeastOneLot(n: nat, lot: real)
    requires n >= 1 && lot > 0.0
    ensures Lots(n, lot) >= lot
  {
    assert (n as real - 1.0) * lot >= 0.0;
  }

  /** On the grid, the slack makes no difference. */
  lemma SlackIsHarmless(m: nat, n: nat, lot: real)
    requires lot > SLACK
    ensures Lots(m, lot) >= Lots(n, lot) - SLACK <==> m >= n
    ensures Lots(m, lot) <= Lots(n, lot) <==> m <= n
    ensures Lots(m, lot) == Lots(n, lot) <==> m == n
  {
    if m < n {
      AddLots(m, n - m, lot);
      AtLeastOneLot(n - m, lot);
    } else {
      AddLots(n, m - n, lot);
      if m > n { AtLeastOneLot(m - n, lot); }
    }
  }

  lemma {:induction false} OrderlyGrid(bs: seq<Body>, total: real, lot: real, i: nat)
    requires Orderly(bs, total, lot) && i <= |bs|
    ensures AllOnGrid(Fills(bs[..i]), lot)
  {
    if i > 0 {
      OrderlyGrid(bs, total, lot, i - 1);
      assert bs[..i][..i - 1] == bs[..i - 1];
    }
  }

  lemma GridOfRest(a: seq<Fill>, b: seq<Fill>, lot: real)
    requires AllOnGrid(a + b, lot)
    ensures AllOnGrid(b, lot)
  {
    forall i | 0 <= i < |b| ensures OnGrid(b[i].qty, lot) {
      assert (a + b)[|a| + i] == b[i];
    }
  }

  /** Whole lots: m filled by the prefix, r by the rest, n in the order. */
  lemma LotsFilled(a: seq<Body>, b: seq<Body>, total: real, lot: real) returns (m: nat, r: nat, n: nat)
    requires Orderly(a + b, total, lot)
    ensures SumQty(Fills(a)) == Lots(m, lot) && total == Lots(n, lot) && lot > SLACK
    ensures SumQty(Fills(a + b)) == Lots(m + r, lot) && m + r <= n
    ensures r == 0 <==> Fills(b) == []
  {
    FillsSplit(a, b);
    SumSplit(Fills(a), Fills(b));
    OrderlyGrid(a + b, total, lot, |a|);
    OrderlyGrid(a + b, total, lot, |a + b|);
    assert (a + b)[..|a|] == a && (a + b)[..|a + b|] == a + b;
    GridOfRest(Fills(a), Fills(b), lot);
    m := GridSum(Fills(a), lot);
    r := GridSum(Fills(b), lot);
    n :| n >= 1 && total == Lots(n, lot);
    AddLots(m, r, lot);
    SlackIsHarmless(m + r, n, lot);
    SlackIsHarmless(r, 0, lot);
  }

  lemma AnnouncedTotal(a: seq<Body>, b: seq<Body>, total: real, lot: real)
    requires Orderly(a + b, total, lot)
    ensures Fold(a).total.Some? ==> Fold(a).total == Some(total)
    ensures Announced(a) ==> Fold(a).total.Some?
  {
    FoldMeaning(a);
    if Fold(a).total.Some? {
      var i :| 0 <= i < |a| && CarriesTotal(a[i]) && a[i].quantity == Fold(a).total
               && forall j :: i < j < |a| ==> !CarriesTotal(a[j]);
      assert (a + b)[i] == a[i];
    }
  }

  /** After a prefix `a` of an orderly order: the slot's total is the announced one, and it is
      full exactly when no fill is left in the rest `b` and the fills add up. */
  lemma PrefixProgress(a: seq<Body>, b: seq<Body>, total: real, lot: real)
    requires Orderly(a + b, total, lot)
    ensures Fold(a).total.Some? ==> Fold(a).total == Some(total)
    ensures Announced(a) ==> Fold(a).total.Some?
    ensures Fold(a).filled >= total - SLACK <==> Fold(a).filled == total
    ensures Fold(a).filled <= total
    ensures Fold(a).filled == total <==> Fills(b) == [] && SumQty(Fills(a + b)) == total
  {
    FoldMeaning(a);
    AnnouncedTotal(a, b, total, lot);
    var m, r, n := LotsFilled(a, b, total, lot);
    SlackIsHarmless(m, n, lot);
    SlackIsHarmless(m + r, n, lot);
  }

  lemma FillAnnounced(ops: seq<Op>, k: string, total: real, lot: real, i: nat)
    requires Orderly(BodiesOf(ops, k), total, lot)
    requires i < |ops| && FillOp(ops[i], k)
    ensures Announced(BodiesOf(ops[..i + 1], k))
  {
    var now := ops[..i + 1];
    var bs, a := BodiesOf(ops, k), BodiesOf(now, k);
    BodiesSplit(ops, k, i + 1);
    assert a[|a| - 1] == ops[i].body && bs[|a| - 1] == a[|a| - 1];
    var j :| 0 <= j < |bs[..|a| - 1]| && CarriesTotal(bs[..|a| - 1][j]);
    assert a[j] == bs[j];
  }

  lemma FillsOfOne(b: Body)
    ensures Fills([b]) == if IsFill(b) then [Fill(b.lastQty.value, b.lastPx)] else []
  {
    assert [b][..0] == [];
  }

  lemma NoFillYet(a: seq<Op>, op: Op, k: string)
    requires FillOp(op, k) ==> op.body.lastQty.Some?
    ensures Fills(BodiesOf(a + [op], k)) == [] <==> Fills(BodiesOf(a, k)) == [] && !FillOp(op, k)
  {
    BodiesConcat(a, [op], k);
    BodiesOfOne(op, k);
    FillsSplit(BodiesOf(a, k), BodiesOf([op], k));
    if op.Observes(k) {
      FillsOfOne(op.body);
    }
  }

  /** Every fill of `k` says how much was filled. */
  predicate FillsTellQty(ops: seq<Op>, k: string) {
    forall i :: 0 <= i < |ops| && FillOp(ops[i], k) ==> ops[i].body.lastQty.Some?
  }

  lemma {:induction false} LaterFillOf(ops: seq<Op>, k: string, i: nat)
    requires i < |ops| && FillOp(ops[i], k) && FillsTellQty(ops, k)
    ensures i <= LastFill(ops, k)
    ensures Fills(BodiesOf(ops[i + 1..], k)) == [] <==> i == LastFill(ops, k)
  {
    if i == |ops| - 1 {
      assert ops[i + 1..] == [];
    } else {
      var pre, op := ops[..|ops| - 1], ops[|ops| - 1];
      assert ops[i + 1..] == pre[i + 1..] + [op];
      LaterFillOf(pre, k, i);
      NoFillYet(pre[i + 1..], op, k);
    }
  }

  lemma LaterFill(ops: seq<Op>, k: string, i: nat)
    requires i < |ops| && FillOp(ops[i], k)
    requires forall b :: b in BodiesOf(ops, k) && b.HasType(ORDER_FILLED) ==> b.lastQty.Some?
    ensures i <= LastFill(ops, k)
    ensures Fills(BodiesOf(ops[i + 1..], k)) == [] <==> i == LastFill(ops, k)
  {
    forall j | 0 <= j < |ops| && FillOp(ops[j], k) ensures ops[j].body.lastQty.Some? {
      BodyInBodies(ops, k, ops[j].body);
    }
    LaterFillOf(ops, k, i);
  }

  /** For an unbroken order the fill gate asks whether the fold of its events is complete. */
  lemma PassesIfComplete(ops: seq<Op>, cap: nat, k: string, i: nat)
    requires i < |ops| && FillOp(ops[i], k) && Unbroken(ops, cap, k, i + 1)
    ensures SlotOf(Run(ops[..i + 1], cap), k) == Fold(BodiesOf(ops[..i + 1], k))
    ensures Passes(ops[i].body, Run(ops[..i + 1], cap)) <==> Fold(BodiesOf(ops[..i + 1], k)).IsComplete()
  {
    UnbrokenSlot(ops, cap, k, i + 1);
    assert ops[..i + 1][i] == ops[i];
    assert HeldAfter(ops, cap, k, i + 1);
    assert ops[i].body.TypeIn({ORDER_FILLED});
  }

  /** A fill of an orderly, unbroken order is forwarded iff it is the last one and the fills
      add up to the total. */
  lemma ForwardedIff(ops: seq<Op>, cap: nat, k: string, total: real, lot: real, i: nat)
    requires Orderly(BodiesOf(ops, k), total, lot)
    requires i < |ops| && FillOp(ops[i], k) && Unbroken(ops, cap, k, i + 1)
    ensures Passes(ops[i].body, Run(ops[..i + 1], cap))
       <==> i == LastFill(ops, k) && SumQty(Fills(BodiesOf(ops, k))) == total
    ensures SlotOf(Run(ops[..i + 1], cap), k) == Fold(BodiesOf(ops[..i + 1], k))
  {
    PassesIfComplete(ops, cap, k, i);
    BodiesSplit(ops, k, i + 1);
    FillAnnounced(ops, k, total, lot, i);
    PrefixProgress(BodiesOf(ops[..i + 1], k), BodiesOf(ops[i + 1..], k), total, lot);
    LaterFill(ops, k, i);
  }

  lemma ForwardedAtIff(ops: seq<Op>, cap: nat, k: string, total: real, lot: real, i: nat)
    requires Orderly(BodiesOf(ops, k), total, lot)
    requires i < |ops| && Unbroken(ops, cap, k, LastFill(ops, k) + 1)
    ensures ForwardedAt(ops, cap, k, i) <==> i == LastFill(ops, k) && SumQty(Fills(BodiesOf(ops, k))) == total
  {
    if FillOp(ops[i], k) {
      ForwardedIff(ops, cap, k, total, lot, i);
    }
  }

  lemma {:induction false} NoFillNoSum(ops: seq<Op>, k: string)
    requires LastFill(ops, k) < 0
    ensures Fills(BodiesOf(ops, k)) == []
  {
    if ops != [] {
      var pre, op := ops[..|ops| - 1], ops[|ops| - 1];
      NoFillNoSum(pre, k);
      if op.Observes(k) {
        FillsSplit(BodiesOf(pre, k), [op.body]);
        FillsOfOne(op.body);
      } else {
        assert BodiesOf(ops, k) == BodiesOf(pre, k);
      }
    }
  }

  lemma SomeFill(ops: seq<Op>, k: string, total: real, lot: real)
    requires lot > SLACK && OnGrid(total, lot) && SumQty(Fills(BodiesOf(ops, k))) == total
    ensures LastFill(ops, k) >= 0
  {
    var n: nat :| n >= 1 && total == Lots(n, lot);
    AtLeastOneLot(n, lot);
    if LastFill(ops, k) < 0 {
      NoFillNoSum(ops, k);
    }
  }

  lemma ForwardedSet(ops: seq<Op>, cap: nat, k: string, total: real, lot: real)
    requires Orderly(BodiesOf(ops, k), total, lot)
    requires Unbroken(ops, cap, k, LastFill(ops, k) + 1)
    ensures ForwardedFills(ops, cap, k)
         == if SumQty(Fills(BodiesOf(ops, k))) == total then {LastFill(ops, k)} else {}
  {
    var full := SumQty(Fills(BodiesOf(ops, k))) == total;
    if full {
      SomeFill(ops, k, total, lot);
    }
    forall i | 0 <= i < |ops| ensures i in ForwardedFills(ops, cap, k) <==> i == LastFill(ops, k) && full {
      ForwardedAtIff(ops, cap, k, total, lot, i);
    }
  }

  lemma AllFillsByLast(ops: seq<Op>, k: string)
    requires LastFill(ops, k) >= 0
    requires forall b :: b in BodiesOf(ops, k) && b.HasType(ORDER_FILLED) ==> b.lastQty.Some?
    ensures Fills(BodiesOf(ops[..LastFill(ops, k) + 1], k)) == Fills(BodiesOf(ops, k))
  {
    var last := LastFill(ops, k);
    var a, b := BodiesOf(ops[..last + 1], k), BodiesOf(ops[last + 1..], k);
    BodiesSplit(ops, k, last + 1);
    FillsSplit(a, b);
    LaterFill(ops, k, last);
    assert Fills(a) + [] == Fills(a);
  }

  lemma CompletingSlot(ops: seq<Op>, cap: nat, k: string, total: real, lot: real)
    requires Orderly(BodiesOf(ops, k), total, lot)
    requires Unbroken(ops, cap, k, LastFill(ops, k) + 1)
    requires SumQty(Fills(BodiesOf(ops, k))) == total
    ensures LastFill(ops, k) >= 0
    ensures var p := SlotOf(Run(ops[..LastFill(ops, k) + 1], cap), k);
            p.filled == total && p.count == |Fills(BodiesOf(ops, k))|
            && p.notional == SumNotional(Fills(BodiesOf(ops, k)))
  {
    var last := LastFill(ops, k);
    SomeFill(ops, k, total, lot);
    UnbrokenSlot(ops, cap, k, last + 1);
    AllFillsByLast(ops, k);
    FoldSums(BodiesOf(ops[..last + 1], k));
  }

  /** Over any interleaving with other orders: an orderly order whose slot is not lost before
      its last fill produces exactly one forwarded `OrderFilled`, the completing one with the
      full count and notional, if its fills add up to the total, and none otherwise. */
  lemma ExactlyOneMessage(ops: seq<Op>, cap: nat, k: string, total: real, lot: real)
    requires Orderly(BodiesOf(ops, k), total, lot)
    requires Unbroken(ops, cap, k, LastFill(ops, k) + 1)
    ensures ForwardedFills(ops, cap, k)
         == if SumQty(Fills(BodiesOf(ops, k))) == total then {LastFill(ops, k)} else {}
    ensures SumQty(Fills(BodiesOf(ops, k))) == total ==>
              var p := SlotOf(Run(ops[..LastFill(ops, k) + 1], cap), k);
              p.filled == total && p.count == |Fills(BodiesOf(ops, k))|
              && p.notional == SumNotional(Fills(BodiesOf(ops, k)))
  {
    ForwardedSet(ops, cap, k, total, lot);
    if SumQty(Fills(BodiesOf(ops, k))) == total {
      CompletingSlot(ops, cap, k, total, lot);
    }
  }

  // ─── the same, from conditions on the stream alone ───────────────────────

  /** Until its last fill the order is not cancelled, rejected, denied or expired, and fewer
      than `cap` other orders are ever observed between two of its events. */
  ghost predicate Quiet(ops: seq<Op>, cap: nat, k: string) {
    && (forall i :: 0 <= i < LastFill(ops, k) && ops[i].Release? && ops[i].body.OrderId() == Some(k) ==>
          !ops[i].body.TypeIn(TERMINAL_ORDER_EVENTS))
    && (forall i :: 0 <= i <= LastFill(ops, k) + 1 && LastSeen(ops[..i], k) >= 0 ==> |SeenSince(ops[..i], k)| < cap)
  }

  lemma FillIsCounted(ops: seq<Op>, k: string, total: real, lot: real, i: nat)
    requires Orderly(BodiesOf(ops, k), total, lot) && i < |ops| && FillOp(ops[i], k)
    ensures Fills([ops[i].body]) != []
  {
    var a := BodiesOf(ops[..i + 1], k);
    BodiesSplit(ops, k, i + 1);
    assert BodiesOf(ops, k)[|a| - 1] == ops[i].body;
  }

  lemma FillAmong(pre: seq<Op>, op: Op, post: seq<Op>, k: string)
    requires FillOp(op, k) && Fills([op.body]) != []
    ensures Fills(BodiesOf((pre + [op]) + post, k)) != []
  {
    BodiesConcat(pre + [op], post, k);
    BodiesConcat(pre, [op], k);
    BodiesOfOne(op, k);
    FillsSplit(BodiesOf(pre + [op], k), BodiesOf(post, k));
    FillsSplit(BodiesOf(pre, k), [op.body]);
  }

  lemma FillsRemain(ops: seq<Op>, k: string, total: real, lot: real, i: nat)
    requires Orderly(BodiesOf(ops, k), total, lot) && i <= LastFill(ops, k)
    ensures Fills(BodiesOf(ops[i..], k)) != []
  {
    var last := LastFill(ops, k);
    FillIsCounted(ops, k, total, lot, last);
    FillAmong(ops[i..last], ops[last], ops[last + 1..], k);
    assert ops[i..] == (ops[i..last] + [ops[last]]) + ops[last + 1..];
  }

  lemma NotFreedBeforeLastFill(ops: seq<Op>, cap: nat, k: string, total: real, lot: real, i: nat)
    requires Orderly(BodiesOf(ops, k), total, lot) && Quiet(ops, cap, k)
    requires i < LastFill(ops, k) && Unbroken(ops, cap, k, i)
    ensures !FreedAt(ops, cap, k, i)
  {
    BodiesSplit(ops, k, i);
    UnbrokenSlot(ops, cap, k, i);
    PrefixProgress(BodiesOf(ops[..i], k), BodiesOf(ops[i..], k), total, lot);
    FillsRemain(ops, k, total, lot, i);
  }

  lemma QuietStaysOpen(ops: seq<Op>, cap: nat, k: string, total: real, lot: real, upTo: nat)
    requires Orderly(BodiesOf(ops, k), total, lot) && Quiet(ops, cap, k)
    requires 0 < upTo <= LastFill(ops, k) + 1 && Unbroken(ops, cap, k, upTo - 1)
    requires LastSeen(ops[..upTo], k) >= 0
    ensures Open(ops[..upTo], cap, k)
  {
    var now := ops[..upTo];
    forall i | LastSeen(now, k) < i < |now| ensures !FreedAt(now, cap, k, i) {
      assert now[..i] == ops[..i] && now[i] == ops[i];
      if i < LastFill(ops, k) {
        NotFreedBeforeLastFill(ops, cap, k, total, lot, i);
      }
    }
  }

  lemma QuietStaysHeld(ops: seq<Op>, cap: nat, k: string, total: real, lot: real, upTo: nat)
    requires Orderly(BodiesOf(ops, k), total, lot) && Quiet(ops, cap, k)
    requires 0 < upTo <= LastFill(ops, k) + 1 && Unbroken(ops, cap, k, upTo - 1)
    requires LastSeen(ops[..upTo], k) >= 0
    ensures HeldAfter(ops, cap, k, upTo)
  {
    QuietStaysOpen(ops, cap, k, total, lot, upTo);
    HeldWhileRecent(ops[..upTo], cap, k);
  }

  lemma {:induction false} QuietIsUnbroken(ops: seq<Op>, cap: nat, k: string, total: real, lot: real, upTo: nat)
    requires Orderly(BodiesOf(ops, k), total, lot) && Quiet(ops, cap, k)
    requires upTo <= LastFill(ops, k) + 1
    ensures Unbroken(ops, cap, k, upTo)
  {
    if upTo > 0 {
      QuietIsUnbroken(ops, cap, k, total, lot, upTo - 1);
      if LastSeen(ops[..upTo], k) >= 0 {
        QuietStaysHeld(ops, cap, k, total, lot, upTo);
      }
    } else {
      assert ops[..0] == [];
    }
  }

  /** The guarantee from conditions a caller can read off the event stream. */
  lemma ExactlyOneMessageWhenQuiet(ops: seq<Op>, cap: nat, k: string, total: real, lot: real)
    requires Orderly(BodiesOf(ops, k), total, lot) && Quiet(ops, cap, k)
    ensures ForwardedFills(ops, cap, k)
         == if SumQty(Fills(BodiesOf(ops, k))) == total then {LastFill(ops, k)} else {}
  {
    QuietIsUnbroken(ops, cap, k, total, lot, LastFill(ops, k) + 1);
    ExactlyOneMessage(ops, cap, k, total, lot);
  }

  // ─── such orders exist ───────────────────────────────────────────────────

  /** Two lots announced, then filled one by one. */
  function TwoLots(k: string): seq<Body> {
    [Initialized(k, 2.0), FilledBy(k, 1.0), FilledBy(k, 1.0)]
  }

  function TwoLotsOps(k: string): seq<Op> {
    [Observe(Initialized(k, 2.0)), Observe(FilledBy(k, 1.0)), Observe(FilledBy(k, 1.0))]
  }

  lemma TwoLotsBodies(k: string)
    requires k != ""
    ensures BodiesOf(TwoLotsOps(k), k) == TwoLots(k)
  {
    var a, b := Observe(Initialized(k, 2.0)), Observe(FilledBy(k, 1.0));
    BodiesOfOne(a, k);
    BodiesOfOne(b, k);
    BodiesConcat([a], [b], k);
    BodiesConcat([a, b], [b], k);
    assert [a] + [b] == [a, b] && [a, b] + [b] == TwoLotsOps(k);
  }

  lemma SumOfOne(f: Fill)
    ensures SumQty([f]) == f.qty
  {
    assert [f][..0] == [];
  }

  lemma TwoLotsFills(k: string)
    ensures Fills(TwoLots(k)) == [Fill(1.0, None), Fill(1.0, None)]
    ensures SumQty(Fills(TwoLots(k))) == 2.0
  {
    var a, b, f := Initialized(k, 2.0), FilledBy(k, 1.0), Fill(1.0, None);
    FillsOfOne(a);
    FillsOfOne(b);
    FillsSplit([a], [b]);
    FillsSplit([a, b], [b]);
    assert [a] + [b] == [a, b] && [a, b] + [b] == TwoLots(k);
    assert Fills(TwoLots(k)) == [f] + [f];
    SumOfOne(f);
    SumSplit([f], [f]);
  }

  lemma TwoLotsOrderly(k: string)
    requires k != ""
    ensures Orderly(TwoLots(k), 2.0, 1.0)
  {
    TwoLotsFills(k);
    assert Lots(1, 1.0) == 1.0 && Lots(2, 1.0) == 2.0;
    forall i | 1 <= i < 3 ensures Announced(TwoLots(k)[..i]) {
      assert CarriesTotal(TwoLots(k)[..i][0]);
    }
  }

  lemma TwoLotsQuiet(k: string, cap: nat)
    requires k != "" && cap >= 1
    ensures Quiet(TwoLotsOps(k), cap, k) && LastFill(TwoLotsOps(k), k) == 2
  {
    var ops := TwoLotsOps(k);
    assert FillOp(ops[2], k);
    forall i | 0 <= i <= 3 && LastSeen(ops[..i], k) >= 0 ensures |SeenSince(ops[..i], k)| < cap {
      assert i > 0 && ops[..i][i - 1] == ops[i - 1] && ops[i - 1].Observes(k);
      assert SeenSince(ops[..i], k) == {};
    }
  }

  /** An order that meets all conditions, and its one message. */
  lemma OrderlyAndQuiet(k: string, cap: nat)
    requires k != "" && cap >= 1
    ensures Orderly(BodiesOf(TwoLotsOps(k), k), 2.0, 1.0) && Quiet(TwoLotsOps(k), cap, k)
    ensures ForwardedFills(TwoLotsOps(k), cap, k) == {2}
  {
    TwoLotsBodies(k);
    TwoLotsFills(k);
    TwoLotsOrderly(k);
    TwoLotsQuiet(k, cap);
    ExactlyOneMessageWhenQuiet(TwoLotsOps(k), cap, k, 2.0, 1.0);
  }
}
