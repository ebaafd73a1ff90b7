/** Per-order fill aggregation behind a capped, recency-ordered dictionary
    (`OrderProgress` and `OrderProgressTracker`). */
module OrderProgress {
  import opened Wrappers
  import opened Events
  import opened Seqs
  import opened Lru

  /** Slack of the completeness test; the release test has none. */
  const SLACK: real := 0.000000001

  datatype Progress = Progress(
    total: Option<real>, filled: real, timeInForce: Option<string>,
    side: Option<string>, orderType: Option<string>, count: nat, notional: real)
  {
    function Remainder(): Option<real> {
      if total.None? then None else Some(total.value - filled)
    }

    function Vwap(): (r: Option<real>)
      ensures r.None? <==> filled == 0.0
    {
      if filled == 0.0 then None else Some(notional / filled)
    }

    predicate IsComplete() {
      total.None? || filled >= total.value - SLACK
    }
  }

  const EMPTY := Progress(None, 0.0, None, None, None, 0, 0.0)

  /** One event of an order folded into its slot. */
  function Absorbed(p: Progress, b: Body): Progress
    requires b.Dict?
  {
    var q := p.(side := if p.side.None? then Truthy(b.orderSide) else p.side,
                orderType := if p.orderType.None? then Truthy(b.orderType) else p.orderType);
    if b.HasType(ORDER_INITIALIZED) then
      q.(total := if b.quantity.Some? then b.quantity else q.total,
         timeInForce := if Truthy(b.timeInForce).Some? then b.timeInForce else q.timeInForce)
    else if b.HasType(ORDER_FILLED) && b.lastQty.Some? then
      q.(filled := q.filled + b.lastQty.value,
         count := q.count + 1,
         notional := if b.lastPx.Some? then q.notional + b.lastQty.value * b.lastPx.value else q.notional)
    else q
  }

  /** Value of the tracker: keys oldest first, and the slot of each key. */
  datatype Cache = Cache(keys: seq<string>, slots: map<string, Progress>)

  const NO_ORDERS := Cache([], map[])

  ghost predicate WellFormed(c: Cache) {
    Distinct(c.keys) && c.slots.Keys == Elements(c.keys)
  }

  function SlotOf(c: Cache, k: string): Progress {
    if k in c.slots then c.slots[k] else EMPTY
  }

  function Restrict<V>(m: map<string, V>, ks: seq<string>): map<string, V> {
    map k | k in ks && k in m :: m[k]
  }

  lemma PutTwice<V>(m: map<string, V>, k: string, v: V, w: V)
    ensures m[k := v][k := w] == m[k := w]
  { }

  lemma RestrictTwice<V>(m: map<string, V>, ks: seq<string>, js: seq<string>)
    requires forall j :: j in js ==> j in ks
    ensures Restrict(Restrict(m, ks), js) == Restrict(m, js)
  { }

  /** `observe`: fold the event in, make its order the most recent, evict from the front. */
  function Observed(c: Cache, b: Body, cap: nat): Cache {
    match b.OrderId()
    case None => c
    case Some(k) =>
      var keys := Suffix(MoveToEnd(c.keys, k), cap);
      Cache(keys, Restrict(c.slots[k := Absorbed(SlotOf(c, k), b)], keys))
  }

  /** Whether this event ends its order: a terminal type, or a fill that leaves no remainder
      in a slot that is still held. */
  predicate EndsOrder(c: Cache, b: Body) {
    b.OrderId().Some? &&
    (b.TypeIn(TERMINAL_ORDER_EVENTS) ||
     (b.HasType(ORDER_FILLED) && b.OrderId().value in c.slots &&
      c.slots[b.OrderId().value].Remainder().Some? &&
      c.slots[b.OrderId().value].Remainder().value <= 0.0))
  }

  /** `forget_if_terminal`. */
  function Released(c: Cache, b: Body): Cache {
    if EndsOrder(c, b) then Cache(Without(c.keys, b.OrderId().value), c.slots - {b.OrderId().value}) else c
  }

  lemma SuffixDistinct(ks: seq<string>, n: nat)
    requires Distinct(ks)
    ensures Distinct(Suffix(ks, n)) && forall x :: x in Suffix(ks, n) ==> x in ks
  {
    DropDistinct(ks, |ks| - |Suffix(ks, n)|);
  }

  lemma RestrictKeys<V>(m: map<string, V>, ks: seq<string>, js: seq<string>)
    requires m.Keys == Elements(ks) && forall j :: j in js ==> j in ks
    ensures Restrict(m, js).Keys == Elements(js)
  {
    assert forall j :: j in js ==> j in Elements(ks);
  }

  lemma ObservedWellFormed(c: Cache, b: Body, cap: nat)
    requires WellFormed(c)
    ensures WellFormed(Observed(c, b, cap))
  {
    if b.OrderId().Some? {
      var k := b.OrderId().value;
      var ks := MoveToEnd(c.keys, k);
      MoveToEndDistinct(c.keys, k);
      SuffixDistinct(ks, cap);
      RestrictKeys(c.slots[k := Absorbed(SlotOf(c, k), b)], ks, Suffix(ks, cap));
    }
  }

  lemma ReleasedWellFormed(c: Cache, b: Body)
    requires WellFormed(c)
    ensures WellFormed(Released(c, b))
  {
    if EndsOrder(c, b) {
      WithoutDistinct(c.keys, b.OrderId().value);
    }
  }

  /** The mutable record of one order. */
  class Slot {
    /** The order this record belongs to; distinct orders have distinct records. */
    ghost const key: string
    var total: Option<real>
    var filled: real
    var timeInForce: Option<string>
    var side: Option<string>
    var orderType: Option<string>
    var count: nat
    var notional: real

    ghost function Value(): Progress
      reads this
    {
      Progress(total, filled, timeInForce, side, orderType, count, notional)
    }

    constructor (ghost key: string)
      ensures Value() == EMPTY && this.key == key
    {
      this.key := key;
      total, filled, timeInForce, side := None, 0.0, None, None;
      orderType, count, notional := None, 0, 0.0;
    }

    method Absorb(b: Body)
      requires b.Dict?
      modifies this
      ensures Value() == Absorbed(old(Value()), b)
    {
      if side.None? && Truthy(b.orderSide).Some? {
        side := b.orderSide;
      }
      if orderType.None? && Truthy(b.orderType).Some? {
        orderType := b.orderType;
      }
      if b.HasType(ORDER_INITIALIZED) {
        if b.quantity.Some? {
          total := b.quantity;
        }
        if Truthy(b.timeInForce).Some? {
          timeInForce := b.timeInForce;
        }
      } else if b.HasType(ORDER_FILLED) {
        if b.lastQty.Some? {
          filled := filled + b.lastQty.value;
          count := count + 1;
          if b.lastPx.Some? {
            notional := notional + b.lastQty.value * b.lastPx.value;
          }
        }
      }
    }
  }

  /** What some records hold. */
  ghost function ValuesOf(slots: map<string, Slot>, repr: set<Slot>): map<string, Progress>
    requires forall k :: k in slots ==> slots[k] in repr
    reads repr
  {
    map k | k in slots :: slots[k].Value()
  }

  lemma ValuesWithout(slots: map<string, Slot>, repr: set<Slot>, k: string)
    requires forall j :: j in slots ==> slots[j] in repr
    ensures ValuesOf(slots - {k}, repr) == ValuesOf(slots, repr) - {k}
    ensures (slots - {k}).Keys == slots.Keys - {k}
  { }

  class OrderProgressTracker {
    const maxOrders: nat
    var keys: seq<string>
    var slots: map<string, Slot>
    /** Every record ever handed out. */
    ghost var Repr: set<Slot>

    ghost predicate Valid()
      reads this
    {
      && Distinct(keys)
      && slots.Keys == Elements(keys)
      && (forall k :: k in slots ==> slots[k] in Repr && slots[k].key == k)
    }

    ghost function Contents(): Cache
      requires Valid()
      reads this, Repr
    {
      Cache(keys, ValuesOf(slots, Repr))
    }

    constructor (maxOrders: nat := 2000)
      ensures Valid() && Contents() == NO_ORDERS && this.maxOrders == maxOrders
      ensures Repr == {}
    {
      this.maxOrders := maxOrders;
      keys, slots, Repr := [], map[], {};
    }

    /** The record of `k`, created when missing, as the most recent one. */
    method WarmUp(k: string) returns (slot: Slot)
      requires Valid()
      modifies this
      ensures Valid() && fresh(Repr - old(Repr)) && old(Repr) <= Repr
      ensures keys == MoveToEnd(old(keys), k) && slots == old(slots)[k := slot]
      ensures slot.Value() == old(if k in slots then slots[k].Value() else EMPTY)
    {
      if k in slots {
        slot := slots[k];
      } else {
        slot := new Slot(k);
        Repr := Repr + {slot};
      }
      MoveToEndDistinct(keys, k);
      slots := slots[k := slot];
      keys := MoveToEnd(keys, k);
    }

    method PopOldest()
      requires Valid() && keys != []
      modifies this
      ensures Valid() && Repr == old(Repr)
      ensures Contents() == Cache(old(keys)[1..], Restrict(old(Contents().slots), old(keys)[1..]))
    {
      slots := slots - {keys[0]};
      keys := keys[1..];
    }

    /** Pop from the front until the cap holds. */
    method Evict()
      requires Valid()
      modifies this
      ensures Valid() && Repr == old(Repr)
      ensures Contents() == Cache(Suffix(old(keys), maxOrders), Restrict(old(Contents().slots), Suffix(old(keys), maxOrders)))
    {
      ghost var before := Contents();
      ghost var n := |keys|;
      while |keys| > maxOrders
        invariant Valid() && Repr == old(Repr)
        invariant |keys| <= n && (|keys| == n || |keys| >= maxOrders)
        invariant Contents() == Cache(before.keys[n - |keys|..], Restrict(before.slots, before.keys[n - |keys|..]))
      {
        ghost var held := before.keys[n - |keys|..];
        PopOldest();
        RestrictTwice(before.slots, held, held[1..]);
      }
    }

    method Touch(k: string)
      requires Valid()
      modifies this
      ensures Valid() && fresh(Repr - old(Repr)) && old(Repr) <= Repr
      ensures k in slots && (slots[k] in old(Repr) || fresh(slots[k]))
      ensures slots[k].Value() == SlotOf(old(Contents()), k)
      ensures Contents() == Cache(MoveToEnd(old(keys), k), old(Contents()).slots[k := SlotOf(old(Contents()), k)])
    {
      var slot := WarmUp(k);
      assert slots[k] == slot;
    }

    /** Fold the event into its order's record; the others keep theirs. */
    method Feed(k: string, b: Body)
      requires Valid() && b.Dict? && k in slots
      modifies slots[k]
      ensures Valid()
      ensures Contents() == Cache(keys, old(Contents()).slots[k := Absorbed(old(slots[k].Value()), b)])
    {
      ghost var before := Contents().slots;
      slots[k].Absorb(b);
      forall j | j in slots && j != k ensures slots[j].Value() == before[j] {
        assert slots[j].key == j;
      }
    }

    method Accumulate(k: string, b: Body)
      requires Valid() && b.Dict?
      modifies this, Repr
      ensures Valid() && fresh(Repr - old(Repr)) && old(Repr) <= Repr
      ensures Contents() == Cache(MoveToEnd(old(keys), k), old(Contents()).slots[k := Absorbed(SlotOf(old(Contents()), k), b)])
    {
      ghost var before := Contents().slots;
      Touch(k);
      ghost var p := slots[k].Value();
      Feed(k, b);
      PutTwice(before, k, p, Absorbed(p, b));
    }

    method Observe(b: Body)
      requires Valid()
      modifies this, Repr
      ensures Valid() && fresh(Repr - old(Repr)) && old(Repr) <= Repr
      ensures Contents() == Observed(old(Contents()), b, maxOrders)
    {
      if b.OrderId().Some? {
        Accumulate(b.OrderId().value, b);
        Evict();
      }
    }

    method Snapshot(k: string) returns (p: Slot?)
      requires Valid()
      ensures (p != null) == (k in Contents().slots)
      ensures p != null ==> p.Value() == Contents().slots[k]
    {
      p := if k in slots then slots[k] else null;
    }

    /** Take `k` out of both fields. */
    method Remove(k: string)
      requires Valid()
      modifies this
      ensures Valid() && Repr == old(Repr)
      ensures keys == Without(old(keys), k) && slots == old(slots) - {k}
    {
      WithoutDistinct(keys, k);
      WithoutElements(keys, k);
      slots := slots - {k};
      keys := Without(keys, k);
    }

    method Pop(k: string)
      requires Valid()
      modifies this
      ensures Valid() && Repr == old(Repr)
      ensures Contents() == Cache(Without(old(keys), k), old(Contents().slots) - {k})
    {
      ValuesWithout(slots, Repr, k);
      ghost var values := ValuesOf(slots - {k}, Repr);
      Remove(k);
      assert ValuesOf(slots, Repr) == values;
    }

    method IsOver(b: Body) returns (terminal: bool)
      requires Valid() && b.OrderId().Some?
      ensures terminal == EndsOrder(Contents(), b)
    {
      terminal := b.TypeIn(TERMINAL_ORDER_EVENTS);
      if b.HasType(ORDER_FILLED) {
        var slot := Snapshot(b.OrderId().value);
        if slot != null && slot.total.Some? && slot.total.value - slot.filled <= 0.0 {
          terminal := true;
        }
      }
    }

    method ForgetIfTerminal(b: Body)
      requires Valid()
      modifies this
      ensures Valid() && Repr == old(Repr)
      ensures Contents() == Released(old(Contents()), b)
    {
      if b.OrderId().Some? {
        var terminal := IsOver(b);
        if terminal {
          Pop(b.OrderId().value);
        }
      }
    }
  }
}
