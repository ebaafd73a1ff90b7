/** What one order's slot means: the fold of its events, and the volume-weighted price. */
module OrderFold {
  import opened Wrappers
  import opened Events
  import opened OrderProgress

  function Fold(bs: seq<Body>): Progress {
    if bs == [] then EMPTY
    else
      var p := Fold(bs[..|bs| - 1]);
      if bs[|bs| - 1].Dict? then Absorbed(p, bs[|bs| - 1]) else p
  }

  predicate IsFill(b: Body) {
    b.HasType(ORDER_FILLED) && b.lastQty.Some?
  }

  predicate CarriesTotal(b: Body) {
    b.HasType(ORDER_INITIALIZED) && b.quantity.Some?
  }

  /** The part of a fill event that is aggregated. */
  datatype Fill = Fill(qty: real, px: Option<real>)

  function Fills(bs: seq<Body>): seq<Fill> {
    if bs == [] then []
    else
      var b := bs[|bs| - 1];
      Fills(bs[..|bs| - 1]) + (if IsFill(b) then [Fill(b.lastQty.value, b.lastPx)] else [])
  }

  function SumQty(fs: seq<Fill>): real {
    if fs == [] then 0.0 else SumQty(fs[..|fs| - 1]) + fs[|fs| - 1].qty
  }

  function Notional(f: Fill): real {
    if f.px.Some? then f.qty * f.px.value else 0.0
  }

  /** Quantity times price, over the fills whose price is known. */
  function SumNotional(fs: seq<Fill>): real {
    if fs == [] then 0.0 else SumNotional(fs[..|fs| - 1]) + Notional(fs[|fs| - 1])
  }

  predicate NamesSide(b: Body) {
    b.Dict? && Truthy(b.orderSide).Some?
  }

  ghost predicate IsFirstSide(bs: seq<Body>, side: Option<string>) {
    if side.None? then forall i :: 0 <= i < |bs| ==> !NamesSide(bs[i])
    else exists i :: 0 <= i < |bs| && NamesSide(bs[i]) && bs[i].orderSide == side
                     && forall j :: 0 <= j < i ==> !NamesSide(bs[j])
  }

  predicate NamesType(b: Body) {
    b.Dict? && Truthy(b.orderType).Some?
  }

  ghost predicate IsFirstType(bs: seq<Body>, orderType: Option<string>) {
    if orderType.None? then forall i :: 0 <= i < |bs| ==> !NamesType(bs[i])
    else exists i :: 0 <= i < |bs| && NamesType(bs[i]) && bs[i].orderType == orderType
                     && forall j :: 0 <= j < i ==> !NamesType(bs[j])
  }

  /** The total is the quantity of the last `OrderInitialized` that carries one; no other
      event type (an amendment, say) changes it. */
  ghost predicate IsLastTotal(bs: seq<Body>, total: Option<real>) {
    if total.None? then forall i :: 0 <= i < |bs| ==> !CarriesTotal(bs[i])
    else exists i :: 0 <= i < |bs| && CarriesTotal(bs[i]) && bs[i].quantity == total
                     && forall j :: i < j < |bs| ==> !CarriesTotal(bs[j])
  }

  lemma {:induction false} FoldSums(bs: seq<Body>)
    ensures Fold(bs).filled == SumQty(Fills(bs))
    ensures Fold(bs).notional == SumNotional(Fills(bs))
    ensures Fold(bs).count == |Fills(bs)|
  {
    if bs != [] {
      FoldSums(bs[..|bs| - 1]);
      var fs := Fills(bs);
      if IsFill(bs[|bs| - 1]) {
        assert fs[..|fs| - 1] == Fills(bs[..|bs| - 1]);
      } else {
        assert fs == Fills(bs[..|bs| - 1]);
      }
    }
  }

  lemma TotalStep(pre: seq<Body>, b: Body)
    requires IsLastTotal(pre, Fold(pre).total)
    ensures IsLastTotal(pre + [b], Fold(pre + [b]).total)
  {
    var bs := pre + [b];
    assert bs[..|bs| - 1] == pre;
    if CarriesTotal(b) {
      assert CarriesTotal(bs[|pre|]);
    } else if Fold(pre).total.Some? {
      var i :| 0 <= i < |pre| && CarriesTotal(pre[i]) && pre[i].quantity == Fold(pre).total
               && forall j :: i < j < |pre| ==> !CarriesTotal(pre[j]);
      assert CarriesTotal(bs[i]);
    }
  }

  lemma SideStep(pre: seq<Body>, b: Body)
    requires IsFirstSide(pre, Fold(pre).side)
    ensures IsFirstSide(pre + [b], Fold(pre + [b]).side)
  {
    var bs := pre + [b];
    assert bs[..|bs| - 1] == pre;
    if Fold(pre).side.Some? {
      var i :| 0 <= i < |pre| && NamesSide(pre[i]) && pre[i].orderSide == Fold(pre).side
               && forall j :: 0 <= j < i ==> !NamesSide(pre[j]);
      assert NamesSide(bs[i]);
    } else if NamesSide(b) {
      assert NamesSide(bs[|pre|]);
    }
  }

  lemma TypeStep(pre: seq<Body>, b: Body)
    requires IsFirstType(pre, Fold(pre).orderType)
    ensures IsFirstType(pre + [b], Fold(pre + [b]).orderType)
  {
    var bs := pre + [b];
    assert bs[..|bs| - 1] == pre;
    if Fold(pre).orderType.Some? {
      var i :| 0 <= i < |pre| && NamesType(pre[i]) && pre[i].orderType == Fold(pre).orderType
               && forall j :: 0 <= j < i ==> !NamesType(pre[j]);
      assert NamesType(bs[i]);
    } else if NamesType(b) {
      assert NamesType(bs[|pre|]);
    }
  }

  /** Closed form of every aggregated field, for every event sequence. */
  lemma {:induction false} FoldMeaning(bs: seq<Body>)
    ensures Fold(bs).filled == SumQty(Fills(bs))
    ensures Fold(bs).notional == SumNotional(Fills(bs))
    ensures Fold(bs).count == |Fills(bs)|
    ensures IsLastTotal(bs, Fold(bs).total)
    ensures IsFirstSide(bs, Fold(bs).side) && IsFirstType(bs, Fold(bs).orderType)
  {
    FoldSums(bs);
    if bs != [] {
      var pre, b := bs[..|bs| - 1], bs[|bs| - 1];
      FoldMeaning(pre);
      TotalStep(pre, b);
      SideStep(pre, b);
      TypeStep(pre, b);
      assert bs == pre + [b];
    }
  }

  predicate NamesTif(b: Body) {
    b.HasType(ORDER_INITIALIZED) && Truthy(b.timeInForce).Some?
  }

  /** Unlike side and type, the time in force is the last one an `OrderInitialized` names. */
  ghost predicate IsLastTif(bs: seq<Body>, tif: Option<string>) {
    if tif.None? then forall i :: 0 <= i < |bs| ==> !NamesTif(bs[i])
    else exists i :: 0 <= i < |bs| && NamesTif(bs[i]) && bs[i].timeInForce == tif
                     && forall j :: i < j < |bs| ==> !NamesTif(bs[j])
  }

  lemma {:induction false} TifMeaning(bs: seq<Body>)
    ensures IsLastTif(bs, Fold(bs).timeInForce)
  {
    if bs != [] {
      var pre, last := bs[..|bs| - 1], |bs| - 1;
      TifMeaning(pre);
      if !NamesTif(bs[last]) && Fold(pre).timeInForce.Some? {
        var i :| 0 <= i < |pre| && NamesTif(pre[i]) && pre[i].timeInForce == Fold(pre).timeInForce
                 && forall j :: i < j < |pre| ==> !NamesTif(pre[j]);
        assert NamesTif(bs[i]);
      }
    }
  }

  // ─── volume-weighted average price ───────────────────────────────────────

  predicate Positive(fs: seq<Fill>) {
    forall f :: f in fs ==> f.qty > 0.0
  }

  predicate PricedWithin(fs: seq<Fill>, lo: real, hi: real) {
    forall f :: f in fs ==> f.px.Some? && lo <= f.px.value <= hi
  }

  lemma Scaled(q: real, a: real, b: real)
    requires q > 0.0 && a <= b
    ensures q * a <= q * b
  { }

  /** n is between lo times q and hi times q. */
  predicate Scales(lo: real, hi: real, q: real, n: real) {
    lo * q <= n <= hi * q
  }

  lemma BoundStep(q: real, p: real, lo: real, hi: real, sum: real, n: real)
    requires q > 0.0 && lo <= p <= hi
    requires Scales(lo, hi, sum, n)
    ensures Scales(lo, hi, sum + q, n + q * p)
  {
    Scaled(q, lo, p);
    Scaled(q, p, hi);
  }

  lemma {:induction false} NotionalBound(fs: seq<Fill>, lo: real, hi: real)
    requires Positive(fs) && PricedWithin(fs, lo, hi)
    ensures Scales(lo, hi, SumQty(fs), SumNotional(fs))
    ensures fs != [] ==> SumQty(fs) > 0.0
  {
    if fs != [] {
      var front, f := fs[..|fs| - 1], fs[|fs| - 1];
      NotionalBound(front, lo, hi);
      BoundStep(f.qty, f.px.value, lo, hi, SumQty(front), SumNotional(front));
    }
  }

  lemma QuotientBound(n: real, q: real, lo: real, hi: real)
    requires q > 0.0 && Scales(lo, hi, q, n)
    ensures lo <= n / q <= hi && (n / q) * q == n
  {
    assert (lo * q) / q == lo && (hi * q) / q == hi;
  }

  /** The price which, paid for the whole quantity, comes to the notional. */
  predicate Averages(price: real, qty: real, notional: real) {
    price * qty == notional
  }

  lemma VwapOf(p: Progress, lo: real, hi: real)
    requires p.filled > 0.0 && Scales(lo, hi, p.filled, p.notional)
    ensures p.Vwap().Some? && Averages(p.Vwap().value, p.filled, p.notional) && lo <= p.Vwap().value <= hi
  {
    QuotientBound(p.notional, p.filled, lo, hi);
  }

  /** With positive quantities and known prices, the average shown is the true
      volume-weighted one and lies between the extreme fill prices. */
  lemma VwapBetweenPrices(bs: seq<Body>, lo: real, hi: real)
    requires Fills(bs) != [] && Positive(Fills(bs)) && PricedWithin(Fills(bs), lo, hi)
    ensures Fold(bs).Vwap().Some?
    ensures Averages(Fold(bs).Vwap().value, SumQty(Fills(bs)), SumNotional(Fills(bs)))
    ensures lo <= Fold(bs).Vwap().value <= hi
  {
    FoldSums(bs);
    NotionalBound(Fills(bs), lo, hi);
    VwapOf(Fold(bs), lo, hi);
  }

  function Priced(fs: seq<Fill>): seq<Fill> {
    if fs == [] then []
    else Priced(fs[..|fs| - 1]) + (if fs[|fs| - 1].px.Some? then [fs[|fs| - 1]] else [])
  }

  lemma {:induction false} PricedNotional(fs: seq<Fill>)
    ensures SumNotional(Priced(fs)) == SumNotional(fs)
  {
    if fs != [] {
      var front, f := fs[..|fs| - 1], fs[|fs| - 1];
      PricedNotional(front);
      if f.px.Some? {
        assert Priced(fs)[..|Priced(fs)| - 1] == Priced(front);
      } else {
        assert Priced(fs) == Priced(front);
      }
    }
  }

  predicate AllPriced(fs: seq<Fill>) {
    forall f :: f in fs ==> f.px.Some?
  }

  lemma {:induction false} PricedQty(fs: seq<Fill>)
    requires Positive(fs)
    ensures Positive(Priced(fs)) && SumQty(Priced(fs)) <= SumQty(fs)
    ensures SumQty(Priced(fs)) == SumQty(fs) <==> AllPriced(fs)
  {
    if fs != [] {
      var front, f := fs[..|fs| - 1], fs[|fs| - 1];
      assert fs == front + [f] && f in fs;
      PricedQty(front);
      assert AllPriced(fs) <==> AllPriced(front) && f.px.Some?;
      if f.px.Some? {
        assert Priced(fs)[..|Priced(fs)| - 1] == Priced(front);
      } else {
        assert Priced(fs) == Priced(front);
      }
    }
  }

  lemma {:induction false} QtyPositive(fs: seq<Fill>)
    requires Positive(fs)
    ensures SumQty(fs) >= 0.0 && (fs != [] ==> SumQty(fs) > 0.0)
  {
    if fs != [] {
      assert fs[|fs| - 1] in fs && forall f :: f in fs[..|fs| - 1] ==> f in fs;
      QtyPositive(fs[..|fs| - 1]);
    }
  }

  /** The average over one quantity is the average over another only if they agree, or if there
      is nothing to pay. */
  lemma AveragesIff(n: real, q: real, r: real)
    requires q > 0.0
    ensures Averages(n / q, r, n) <==> q == r || n == 0.0
  {
    var a := n / q;
    assert a * q == n;
    if a * r == n {
      assert a * (q - r) == 0.0;
    }
  }

  lemma VwapAveragesIff(p: Progress, r: real)
    requires p.filled > 0.0
    ensures p.Vwap().Some? && (Averages(p.Vwap().value, r, p.notional) <==> p.filled == r || p.notional == 0.0)
  {
    AveragesIff(p.notional, p.filled, r);
  }

  /** A fill without a price still counts towards the quantity, so the average shown is the
      average over the priced fills exactly when every fill has a price, or the priced ones
      come to nothing. */
  lemma VwapExactIff(bs: seq<Body>)
    requires Positive(Fills(bs)) && Fills(bs) != []
    ensures Fold(bs).Vwap().Some?
    ensures Averages(Fold(bs).Vwap().value, SumQty(Priced(Fills(bs))), SumNotional(Priced(Fills(bs))))
       <==> AllPriced(Fills(bs)) || SumNotional(Fills(bs)) == 0.0
  {
    FoldSums(bs);
    QtyPositive(Fills(bs));
    PricedNotional(Fills(bs));
    PricedQty(Fills(bs));
    VwapAveragesIff(Fold(bs), SumQty(Priced(Fills(bs))));
  }
}
