/** Recency lists: the key order of an `OrderedDict` whose entries are moved to the end
    when touched, popped from the front beyond a capacity, and removed on demand. */
module Lru {
  import opened Seqs

  datatype Event = Touch(key: string) | Free(key: string)

  function Elements(s: seq<string>): set<string> {
    set x | x in s
  }

  function Without(ks: seq<string>, k: string): (r: seq<string>)
    ensures |r| <= |ks|
    ensures forall x :: x in r <==> x in ks && x != k
  {
    if ks == [] then []
    else (if ks[0] == k then [] else [ks[0]]) + Without(ks[1..], k)
  }

  /** The last `n` entries, or all of them. */
  function Suffix(ks: seq<string>, n: nat): seq<string> {
    if |ks| <= n then ks else ks[|ks| - n..]
  }

  function MoveToEnd(ks: seq<string>, k: string): seq<string> {
    Without(ks, k) + [k]
  }

  /** One event on the capped list. */
  function Apply(ks: seq<string>, e: Event, cap: nat): seq<string> {
    match e
    case Touch(k) => Suffix(MoveToEnd(ks, k), cap)
    case Free(k) => Without(ks, k)
  }

  /** Key order of the capped dictionary after `h`. */
  function Bounded(h: seq<Event>, cap: nat): seq<string> {
    if h == [] then []
    else
      Apply(Bounded(h[..|h| - 1], cap), h[|h| - 1], cap)
  }

  /** Key order the dictionary would have without a capacity. */
  function Recency(h: seq<Event>): seq<string> {
    if h == [] then []
    else
      var ks := Recency(h[..|h| - 1]);
      match h[|h| - 1]
      case Touch(k) => MoveToEnd(ks, k)
      case Free(k) => Without(ks, k)
  }

  /** Index of the last touch of `k`, or -1. */
  function LastTouch(h: seq<Event>, k: string): (r: int)
    ensures -1 <= r < |h|
    ensures r >= 0 ==> h[r] == Touch(k)
  {
    if h == [] then -1
    else if h[|h| - 1] == Touch(k) then |h| - 1
    else LastTouch(h[..|h| - 1], k)
  }

  lemma {:induction false} LastTouchIsLast(h: seq<Event>, k: string, i: nat)
    requires i < |h| && h[i] == Touch(k)
    ensures i <= LastTouch(h, k)
  {
    if h[|h| - 1] != Touch(k) {
      LastTouchIsLast(h[..|h| - 1], k, i);
    }
  }

  lemma LastTouchStep(pre: seq<Event>, e: Event, k: string)
    ensures LastTouch(pre + [e], k) == if e == Touch(k) then |pre| else LastTouch(pre, k)
  {
    assert (pre + [e])[..|pre + [e]| - 1] == pre;
  }

  /** How many entries come after `k`: the number of removals from the front that `k` survives. */
  function Depth(ks: seq<string>, k: string): nat {
    if ks == [] || ks[|ks| - 1] == k then 0 else 1 + Depth(ks[..|ks| - 1], k)
  }

  /** The distinct keys touched after the last touch of `k`. */
  function TouchedSince(h: seq<Event>, k: string): set<string> {
    set i | LastTouch(h, k) < i < |h| && h[i].Touch? :: h[i].key
  }

  // ─── facts about the list operations ─────────────────────────────────────

  lemma {:induction false} WithoutConcat(a: seq<string>, b: seq<string>, k: string)
    ensures Without(a + b, k) == Without(a, k) + Without(b, k)
  {
    if a == [] {
      assert a + b == b;
    } else {
      assert (a + b)[1..] == a[1..] + b;
      WithoutConcat(a[1..], b, k);
    }
  }

  lemma {:induction false} WithoutDistinct(ks: seq<string>, k: string)
    requires Distinct(ks)
    ensures Distinct(Without(ks, k))
  {
    if ks != [] {
      WithoutDistinct(ks[1..], k);
      var w := Without(ks[1..], k);
      assert ([ks[0]] + w)[1..] == w && [] + w == w;
    }
  }

  lemma WithoutElements(ks: seq<string>, k: string)
    ensures Elements(Without(ks, k)) == Elements(ks) - {k}
  { }

  lemma MoveToEndDistinct(ks: seq<string>, k: string)
    requires Distinct(ks)
    ensures Distinct(MoveToEnd(ks, k))
    ensures Elements(MoveToEnd(ks, k)) == Elements(ks) + {k}
  {
    WithoutDistinct(ks, k);
    AppendDistinct(Without(ks, k), k);
  }

  lemma {:induction false} DepthInTail(a: seq<string>, b: seq<string>, k: string)
    requires k in b
    ensures Depth(a + b, k) == Depth(b, k)
  {
    if b[|b| - 1] != k {
      assert (a + b)[..|a + b| - 1] == a + b[..|b| - 1];
      assert b == b[..|b| - 1] + [b[|b| - 1]];
      DepthInTail(a, b[..|b| - 1], k);
    }
  }

  lemma {:induction false} DepthWithout(ks: seq<string>, j: string, k: string)
    requires j != k && k in ks
    ensures Depth(Without(ks, j), k) <= Depth(ks, k)
  {
    var front, last := ks[..|ks| - 1], ks[|ks| - 1];
    assert ks == front + [last];
    WithoutConcat(front, [last], j);
    var w := Without(front, j);
    if last == k {
      assert Without(ks, j) == w + [k];
    } else {
      DepthWithout(front, j, k);
      if last == j {
        assert w + [] == w;
      } else {
        assert Without(ks, j) == w + [last];
        assert (w + [last])[..|w|] == w;
      }
    }
  }

  lemma {:induction false} InSuffix(ks: seq<string>, k: string, n: nat)
    requires k in ks
    ensures k in Suffix(ks, n) <==> Depth(ks, k) < n
  {
    var last := ks[|ks| - 1];
    if last == k {
      if 0 < n < |ks| {
        assert ks[|ks| - n..][n - 1] == last;
      }
    } else {
      var front := ks[..|ks| - 1];
      assert ks == front + [last];
      if n == 0 {
      } else {
        InSuffix(front, k, n - 1);
        assert Suffix(ks, n) == Suffix(front, n - 1) + [last];
      }
    }
  }

  // ─── invariants over every history ───────────────────────────────────────

  lemma {:induction false} RecencyDistinct(h: seq<Event>)
    ensures Distinct(Recency(h))
  {
    if h != [] {
      RecencyDistinct(h[..|h| - 1]);
      WithoutDistinct(Recency(h[..|h| - 1]), h[|h| - 1].key);
      MoveToEndDistinct(Recency(h[..|h| - 1]), h[|h| - 1].key);
    }
  }

  lemma SuffixSplit(ks: seq<string>, n: nat) returns (front: seq<string>)
    ensures ks == front + Suffix(ks, n)
    ensures |Suffix(ks, n)| <= n
  {
    front := ks[..|ks| - |Suffix(ks, n)|];
  }

  lemma SuffixOfLonger(w: seq<string>, ks: seq<string>, cap: nat) returns (dropped: seq<string>)
    ensures w + ks == dropped + Suffix(ks, cap)
  {
    var front := SuffixSplit(ks, cap);
    dropped := w + front;
    assert w + (front + Suffix(ks, cap)) == (w + front) + Suffix(ks, cap);
  }

  lemma TailStep(d: seq<string>, b: seq<string>, e: Event, cap: nat) returns (dropped: seq<string>)
    requires |b| <= cap
    ensures (if e.Touch? then MoveToEnd(d + b, e.key) else Without(d + b, e.key)) == dropped + Apply(b, e, cap)
    ensures |Apply(b, e, cap)| <= cap
  {
    var k := e.key;
    var w := Without(d, k);
    WithoutConcat(d, b, k);
    if e.Touch? {
      dropped := SuffixOfLonger(w, MoveToEnd(b, k), cap);
      assert (w + Without(b, k)) + [k] == w + MoveToEnd(b, k);
    } else {
      dropped := w;
    }
  }

  /** The capped list is always a tail of the uncapped one and never exceeds the cap. */
  lemma {:induction false} BoundedIsTail(h: seq<Event>, cap: nat) returns (dropped: seq<string>)
    ensures Recency(h) == dropped + Bounded(h, cap)
    ensures |Bounded(h, cap)| <= cap
  {
    if h == [] {
      dropped := [];
    } else {
      var pre := h[..|h| - 1];
      var k := h[|h| - 1].key;
      var d := BoundedIsTail(pre, cap);
      dropped := TailStep(d, Bounded(pre, cap), h[|h| - 1], cap);
    }
  }

  ghost predicate OrderedByTouch(h: seq<Event>, ks: seq<string>) {
    forall i, j :: 0 <= i < j < |ks| ==> LastTouch(h, ks[i]) < LastTouch(h, ks[j])
  }

  lemma {:induction false} OrderSurvivesRemoval(h: seq<Event>, ks: seq<string>, k: string)
    requires OrderedByTouch(h, ks)
    ensures OrderedByTouch(h, Without(ks, k))
  {
    if ks != [] {
      OrderSurvivesRemoval(h, ks[1..], k);
      var w := Without(ks[1..], k);
      forall i | 0 <= i < |w| ensures LastTouch(h, ks[0]) < LastTouch(h, w[i]) {
        assert w[i] in ks[1..];
      }
    }
  }

  ghost predicate AllTouched(h: seq<Event>, ks: seq<string>) {
    forall k :: k in ks ==> LastTouch(h, k) >= 0
  }

  lemma OrderSurvivesOther(pre: seq<Event>, e: Event, ks: seq<string>)
    requires OrderedByTouch(pre, ks) && AllTouched(pre, ks) && e.key !in ks
    ensures OrderedByTouch(pre + [e], ks) && AllTouched(pre + [e], ks)
  {
    forall x | x in ks ensures LastTouch(pre + [e], x) == LastTouch(pre, x) {
      LastTouchStep(pre, e, x);
    }
    forall i, j | 0 <= i < j < |ks| ensures LastTouch(pre + [e], ks[i]) < LastTouch(pre + [e], ks[j]) {
      assert ks[i] in ks && ks[j] in ks;
    }
  }

  lemma OrderWithNewest(h: seq<Event>, ks: seq<string>, k: string)
    requires OrderedByTouch(h, ks) && AllTouched(h, ks) && LastTouch(h, k) == |h| - 1 && k !in ks && h != []
    ensures OrderedByTouch(h, ks + [k]) && AllTouched(h, ks + [k])
  {
    forall x | x in ks ensures LastTouch(h, x) < LastTouch(h, k) {
      assert x != k;
    }
    var all := ks + [k];
    forall i, j | 0 <= i < j < |all| ensures LastTouch(h, all[i]) < LastTouch(h, all[j]) {
      assert all[i] == ks[i] && ks[i] in ks;
    }
  }

  /** Keys are in order of their last touch. */
  lemma {:induction false} RecencyOrdered(h: seq<Event>)
    ensures AllTouched(h, Recency(h)) && OrderedByTouch(h, Recency(h))
  {
    if h != [] {
      var pre, e := h[..|h| - 1], h[|h| - 1];
      var w := Without(Recency(pre), e.key);
      RecencyOrdered(pre);
      OrderSurvivesRemoval(pre, Recency(pre), e.key);
      OrderSurvivesOther(pre, e, w);
      assert h == pre + [e];
      if e.Touch? {
        LastTouchStep(pre, e, e.key);
        OrderWithNewest(h, w, e.key);
      }
    }
  }

  // ─── which keys survive ──────────────────────────────────────────────────

  ghost predicate ShallowAt(h: seq<Event>, k: string, cap: nat, i: nat)
    requires i <= |h|
  {
    Depth(Recency(h[..i]), k) < cap
  }

  /** In every state since its last touch, fewer than `cap` keys were more recent than `k`. */
  ghost predicate NeverTooDeep(h: seq<Event>, k: string, cap: nat) {
    forall i :: LastTouch(h, k) < i <= |h| ==> ShallowAt(h, k, cap, i)
  }

  lemma RecencyStep(pre: seq<Event>, e: Event)
    ensures Recency(pre + [e]) == if e.Touch? then MoveToEnd(Recency(pre), e.key) else Without(Recency(pre), e.key)
  {
    assert (pre + [e])[..|pre + [e]| - 1] == pre;
  }

  lemma BoundedStep(pre: seq<Event>, e: Event, cap: nat)
    ensures Bounded(pre + [e], cap) == Apply(Bounded(pre, cap), e, cap)
  {
    assert (pre + [e])[..|pre + [e]| - 1] == pre;
  }

  lemma HeldAtOwnEvent(pre: seq<Event>, e: Event, cap: nat)
    ensures e.key in Bounded(pre + [e], cap)
       <==> e.key in Recency(pre + [e]) && NeverTooDeep(pre + [e], e.key, cap)
  {
    var h, k := pre + [e], e.key;
    BoundedStep(pre, e, cap);
    RecencyStep(pre, e);
    if e.Touch? {
      InSuffix(MoveToEnd(Bounded(pre, cap), k), k, cap);
      LastTouchStep(pre, e, k);
      assert h[..|h|] == h;
      assert ShallowAt(h, k, cap, |h|) <==> Depth(Recency(h), k) < cap;
    } else {
      var b := Bounded(pre, cap);
      assert k !in Without(b, k);
    }
  }

  /** One more event adds one more depth condition. */
  lemma NeverTooDeepStep(pre: seq<Event>, e: Event, k: string, cap: nat)
    requires e.key != k
    ensures NeverTooDeep(pre + [e], k, cap)
       <==> NeverTooDeep(pre, k, cap) && Depth(Recency(pre + [e]), k) < cap
  {
    var h := pre + [e];
    LastTouchStep(pre, e, k);
    assert h[..|h|] == h;
    assert ShallowAt(h, k, cap, |h|) <==> Depth(Recency(h), k) < cap;
    forall i | 0 <= i <= |pre| ensures ShallowAt(h, k, cap, i) == ShallowAt(pre, k, cap, i) {
      assert h[..i] == pre[..i];
    }
  }

  lemma {:induction false} DepthBelowLength(ks: seq<string>, k: string)
    requires k in ks
    ensures Depth(ks, k) < |ks|
    ensures ks[|ks| - 1 - Depth(ks, k)] == k
  {
    if ks[|ks| - 1] != k {
      assert ks == ks[..|ks| - 1] + [ks[|ks| - 1]];
      DepthBelowLength(ks[..|ks| - 1], k);
    }
  }

  lemma HeldStep(pre: seq<Event>, e: Event, k: string, cap: nat)
    requires e.key != k && k in Bounded(pre, cap)
    ensures k in Bounded(pre + [e], cap) <==> Depth(Recency(pre + [e]), k) < cap
  {
    BoundedStep(pre, e, cap);
    RecencyStep(pre, e);
    var d := BoundedIsTail(pre, cap);
    var b := Bounded(pre, cap);
    WithoutConcat(d, b, e.key);
    if e.Touch? {
      var ks := MoveToEnd(b, e.key);
      InSuffix(ks, k, cap);
      assert Recency(pre + [e]) == Without(d, e.key) + ks;
      DepthInTail(Without(d, e.key), ks, k);
    } else {
      DepthInTail(Without(d, e.key), Without(b, e.key), k);
      DepthWithout(b, e.key, k);
      DepthBelowLength(b, k);
    }
  }

  /** Exact survival: a key is held after `h` iff it was touched, not freed since, and was
      never pushed deeper than the capacity since its last touch. */
  lemma {:induction false} HeldIff(h: seq<Event>, k: string, cap: nat)
    ensures k in Bounded(h, cap) <==> k in Recency(h) && NeverTooDeep(h, k, cap)
  {
    if h != [] {
      var pre, e := h[..|h| - 1], h[|h| - 1];
      assert h == pre + [e];
      if e.key == k {
        HeldAtOwnEvent(pre, e, cap);
      } else {
        HeldIff(pre, k, cap);
        NeverTooDeepStep(pre, e, k, cap);
        RecencyStep(pre, e);
        BoundedStep(pre, e, cap);
        if k in Bounded(pre, cap) {
          HeldStep(pre, e, k, cap);
        }
      }
    }
  }

  // ─── the same condition in terms of distinct keys ────────────────────────

  /** The keys more recent than `k`. */
  function Deeper(ks: seq<string>, k: string): set<string>
    requires k in ks
  {
    DepthBelowLength(ks, k);
    Elements(ks[|ks| - Depth(ks, k)..])
  }

  lemma {:induction false} DistinctCount(s: seq<string>)
    requires Distinct(s)
    ensures |Elements(s)| == |s|
  {
    if s != [] {
      DistinctCount(s[1..]);
      assert Elements(s) == {s[0]} + Elements(s[1..]);
    }
  }

  lemma DepthIsCount(ks: seq<string>, k: string)
    requires Distinct(ks) && k in ks
    ensures Depth(ks, k) == |Deeper(ks, k)|
  {
    DepthBelowLength(ks, k);
    DropDistinct(ks, |ks| - Depth(ks, k));
    DistinctCount(ks[|ks| - Depth(ks, k)..]);
  }

  lemma ListedWasTouched(h: seq<Event>, k: string)
    requires k in Recency(h)
    ensures LastTouch(h, k) >= 0
  {
    RecencyOrdered(h);
  }

  lemma InOrder(h: seq<Event>, i: nat, j: nat)
    requires i < j < |Recency(h)|
    ensures LastTouch(h, Recency(h)[i]) < LastTouch(h, Recency(h)[j])
  {
    RecencyOrdered(h);
  }

  lemma InOrderWithinTail(h: seq<Event>, dropped: seq<string>, ks: seq<string>, i: nat, j: nat)
    requires i < j < |ks| && Recency(h) == dropped + ks
    ensures 0 <= LastTouch(h, ks[i]) < LastTouch(h, ks[j])
  {
    assert Recency(h)[|dropped| + i] == ks[i] && Recency(h)[|dropped| + j] == ks[j];
    InOrder(h, |dropped| + i, |dropped| + j);
    ListedWasTouched(h, ks[i]);
  }

  lemma NotDeeper(ks: seq<string>, k: string, j: nat)
    requires k in ks && j < |ks|
    ensures |ks| - 1 - Depth(ks, k) < j ==> ks[j] in Deeper(ks, k)
  {
    DepthBelowLength(ks, k);
    var n := |ks| - Depth(ks, k);
    if n <= j {
      assert ks[n..][j - n] == ks[j];
    }
  }

  /** A position of `x`, beyond that of `k` exactly if `x` is more recent. */
  lemma PlaceOf(ks: seq<string>, k: string, x: string) returns (j: nat)
    requires k in ks && x in ks
    ensures j < |ks| && ks[j] == x && (x in Deeper(ks, k) <==> |ks| - 1 - Depth(ks, k) < j)
  {
    DepthBelowLength(ks, k);
    var n := |ks| - Depth(ks, k);
    if x in Deeper(ks, k) {
      var i :| 0 <= i < |ks[n..]| && ks[n..][i] == x;
      j := n + i;
    } else {
      j :| 0 <= j < |ks| && ks[j] == x;
      NotDeeper(ks, k, j);
    }
  }

  lemma DeeperIsLater(h: seq<Event>, k: string, x: string)
    requires k in Recency(h) && x in Recency(h)
    ensures x in Deeper(Recency(h), k) <==> LastTouch(h, k) < LastTouch(h, x)
  {
    var ks := Recency(h);
    var p := |ks| - 1 - Depth(ks, k);
    DepthBelowLength(ks, k);
    var j := PlaceOf(ks, k, x);
    if p < j {
      InOrder(h, p, j);
    } else if j < p {
      InOrder(h, j, p);
    }
  }

  lemma {:induction false} SubsetCount(a: set<string>, b: set<string>)
    requires a <= b
    ensures |a| <= |b|
  {
    assert b == a + (b - a);
    assert |a + (b - a)| == |a| + |b - a|;
  }

  /** The keys more recent than `k` were all touched since. */
  lemma DepthAtMostTouched(h: seq<Event>, k: string)
    requires k in Recency(h)
    ensures Depth(Recency(h), k) <= |TouchedSince(h, k)|
  {
    var ks := Recency(h);
    RecencyDistinct(h);
    RecencyOrdered(h);
    DepthIsCount(ks, k);
    DepthBelowLength(ks, k);
    forall x | x in Deeper(ks, k) ensures x in TouchedSince(h, k) {
      assert x in ks;
      DeeperIsLater(h, k, x);
      assert h[LastTouch(h, x)] == Touch(x);
    }
    SubsetCount(Deeper(ks, k), TouchedSince(h, k));
  }

  lemma {:induction false} TouchedAreListed(h: seq<Event>, k: string)
    requires forall i :: 0 <= i < |h| ==> h[i].Touch?
    ensures k in Recency(h) <==> LastTouch(h, k) >= 0
  {
    if h != [] {
      TouchedAreListed(h[..|h| - 1], k);
    }
  }

  /** Without removals they are all the keys touched since. */
  lemma DepthCountsTouched(h: seq<Event>, k: string)
    requires k in Recency(h)
    requires forall i :: 0 <= i < |h| ==> h[i].Touch?
    ensures Depth(Recency(h), k) == |TouchedSince(h, k)|
  {
    var ks := Recency(h);
    DepthAtMostTouched(h, k);
    RecencyDistinct(h);
    DepthIsCount(ks, k);
    forall x | x in TouchedSince(h, k) ensures x in Deeper(ks, k) {
      var i :| LastTouch(h, k) < i < |h| && h[i] == Touch(x);
      LastTouchIsLast(h, x, i);
      TouchedAreListed(h, x);
      DeeperIsLater(h, k, x);
    }
    SubsetCount(TouchedSince(h, k), Deeper(ks, k));
  }

  lemma TouchedSinceGrows(h: seq<Event>, k: string, i: nat)
    requires LastTouch(h, k) < i <= |h|
    ensures LastTouch(h[..i], k) == LastTouch(h, k)
    ensures TouchedSince(h[..i], k) <= TouchedSince(h, k)
  {
    if LastTouch(h[..i], k) >= 0 {
      LastTouchIsLast(h, k, LastTouch(h[..i], k));
    }
    if LastTouch(h, k) >= 0 {
      LastTouchIsLast(h[..i], k, LastTouch(h, k));
    }
  }

  lemma {:induction false} StaysListed(h: seq<Event>, k: string, i: nat)
    requires k in Recency(h) && LastTouch(h, k) < i <= |h|
    ensures k in Recency(h[..i])
  {
    RecencyOrdered(h);
    if i == |h| {
      assert h[..i] == h;
    } else {
      var pre := h[..|h| - 1];
      assert LastTouch(pre, k) == LastTouch(h, k);
      StaysListed(pre, k, i);
      assert pre[..i] == h[..i];
    }
  }

  /** Sufficient with removals: fewer than `cap` distinct other keys touched since. */
  lemma HeldUnderLowPressure(h: seq<Event>, k: string, cap: nat)
    requires k in Recency(h)
    requires |TouchedSince(h, k)| < cap
    ensures k in Bounded(h, cap)
  {
    forall i | LastTouch(h, k) < i <= |h| ensures ShallowAt(h, k, cap, i) {
      StaysListed(h, k, i);
      DepthAtMostTouched(h[..i], k);
      TouchedSinceGrows(h, k, i);
      SubsetCount(TouchedSince(h[..i], k), TouchedSince(h, k));
    }
    HeldIff(h, k, cap);
  }

  /** Exact without removals. */
  lemma HeldIffFewTouched(h: seq<Event>, k: string, cap: nat)
    requires forall i :: 0 <= i < |h| ==> h[i].Touch?
    ensures k in Bounded(h, cap) <==> LastTouch(h, k) >= 0 && |TouchedSince(h, k)| < cap
  {
    TouchedAreListed(h, k);
    HeldIff(h, k, cap);
    if k in Recency(h) {
      DepthCountsTouched(h, k);
      assert h[..|h|] == h;
      assert NeverTooDeep(h, k, cap) ==> ShallowAt(h, k, cap, |h|);
      if |TouchedSince(h, k)| < cap {
        HeldUnderLowPressure(h, k, cap);
      }
    }
  }
}
