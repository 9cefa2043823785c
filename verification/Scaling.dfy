// Linearity: under the deterministic decider the B side is the control run
// scaled, over-sell clamps included, as long as no dust is dropped.
module Scaling {
  import opened Lots
  import opened Accounting
  import opened Decisions

  function ScaleLot(l: Lot, k: real): Lot {
    l.(quantity := Times(k, l.quantity))
  }

  function ScaleQueue(q: seq<Lot>, k: real): seq<Lot> {
    seq(|q|, i requires 0 <= i < |q| => ScaleLot(q[i], k))
  }

  function ScaleLots(lots: map<string, seq<Lot>>, k: real): map<string, seq<Lot>> {
    map s | s in lots :: ScaleQueue(lots[s], k)
  }

  function ScaleOrder(o: Order, k: real): Order {
    o.(quantity := Times(k, o.quantity))
  }

  function ScaleOrders(os: seq<Order>, k: real): seq<Order> {
    seq(|os|, i requires 0 <= i < |os| => ScaleOrder(os[i], k))
  }

  lemma TimesLaws(k: real, a: real, b: real)
    requires k > 0.0
    ensures Times(k, a) + Times(k, b) == Times(k, a + b)
    ensures Times(k, a) - Times(k, b) == Times(k, a - b)
    ensures Times(Times(k, a), b) == Times(k, Times(a, b))
    ensures Times(k, -a) == -Times(k, a)
    ensures Times(k, 0.0) == 0.0
    ensures a < b <==> Times(k, a) < Times(k, b)
    ensures a == b <==> Times(k, a) == Times(k, b)
  {
    if a < b {
      assert k * (b - a) > 0.0;
    } else if b < a {
      assert k * (a - b) > 0.0;
    }
  }

  lemma {:induction false} HeldScales(q: seq<Lot>, k: real)
    requires k > 0.0
    ensures Held(ScaleQueue(q, k)) == Times(k, Held(q))
    ensures Cost(ScaleQueue(q, k)) == Times(k, Cost(q))
    decreases |q|
  {
    if q == [] {
      TimesLaws(k, 0.0, 0.0);
    } else {
      assert ScaleQueue(q, k)[1..] == ScaleQueue(q[1..], k);
      HeldScales(q[1..], k);
      TimesLaws(k, q[0].quantity, Held(q[1..]));
      TimesLaws(k, q[0].quantity, q[0].costBasis);
      TimesLaws(k, Times(q[0].quantity, q[0].costBasis), Cost(q[1..]));
    }
  }

  // Taking scales, when neither take drops a residue.
  lemma {:induction false} TakeScales(q: seq<Lot>, amount: real, k: real)
    requires k > 0.0
    requires Take(q, amount).dust == 0.0 && Take(ScaleQueue(q, k), Times(k, amount)).dust == 0.0
    ensures var t := Take(q, amount);
            var u := Take(ScaleQueue(q, k), Times(k, amount));
            u.rest == ScaleQueue(t.rest, k) && u.cost == Times(k, t.cost)
    decreases |q|
  {
    TimesLaws(k, 0.0, amount);
    var s := ScaleQueue(q, k);
    if amount <= 0.0 || q == [] {
    } else {
      assert s[1..] == ScaleQueue(q[1..], k);
      var first := q[0].quantity;
      TimesLaws(k, amount, first);
      TimesLaws(k, first, amount);
      if first <= amount {
        TakeScales(q[1..], amount - first, k);
        TimesLaws(k, first, q[0].costBasis);
        TimesLaws(k, Times(first, q[0].costBasis), Take(q[1..], amount - first).cost);
      } else {
        TimesLaws(k, amount, q[0].costBasis);
        assert Take(s, Times(k, amount)).rest == [ScaleLot(q[0].(quantity := first - amount), k)] + s[1..];
      }
    }
  }

  // One queue under one order.
  lemma QueueScales(q: seq<Lot>, o: Order, k: real)
    requires k > 0.0
    requires o.kind == Sell && Held(q) > 0.0 ==>
               && SellTaken(q, o.quantity).dust == 0.0
               && SellTaken(ScaleQueue(q, k), Times(k, o.quantity)).dust == 0.0
    ensures QueueAfter(ScaleQueue(q, k), ScaleOrder(o, k)) == ScaleQueue(QueueAfter(q, o), k)
    ensures o.kind == Sell ==>
              var r := SellResult(q, o.quantity, o.price);
              SellResult(ScaleQueue(q, k), Times(k, o.quantity), o.price)
              == ApplyResult(Times(k, r.applied), Times(k, r.cashDelta), Times(k, r.realizedPnL), r.clamped)
  {
    HeldScales(q, k);
    TimesLaws(k, 0.0, Held(q));
    TimesLaws(k, Held(q), o.quantity);
    if o.kind == Sell && Held(q) > 0.0 {
      var fill := FillOf(q, o.quantity);
      assert FillOf(ScaleQueue(q, k), Times(k, o.quantity)) == Times(k, fill);
      TakeScales(q, fill, k);
      TimesLaws(k, fill, o.price);
      TimesLaws(k, Times(fill, o.price), SellTaken(q, o.quantity).cost);
    }
  }

  // Account b is account a with everything but the starting cash k times as large.
  ghost predicate IsScaled(a: Account, b: Account, cash: real, k: real) {
    && b.cash - cash == Times(k, a.cash - cash)
    && b.realizedPnL == Times(k, a.realizedPnL)
    && b.lots == ScaleLots(a.lots, k)
  }

  lemma PostScales(a: Account, b: Account, o: Order, cash: real, k: real)
    requires k > 0.0 && IsScaled(a, b, cash, k)
    requires DustUnits(a.lots, o) == 0.0 && DustUnits(b.lots, ScaleOrder(o, k)) == 0.0
    ensures IsScaled(Post(a, o), Post(b, ScaleOrder(o, k)), cash, k)
  {
    var q := Queue(a.lots, o.symbol);
    var p := ScaleOrder(o, k);
    assert Queue(b.lots, o.symbol) == ScaleQueue(q, k);
    HeldScales(q, k);
    TimesLaws(k, 0.0, Held(q));
    QueueScales(q, o, k);
    ResultScales(a, b, o, k);
    var r := Outcome(a.lots, o);
    TimesLaws(k, a.cash - cash, r.cashDelta);
    TimesLaws(k, a.realizedPnL, r.realizedPnL);
    assert LotsAfter(b.lots, p) == ScaleLots(LotsAfter(a.lots, o), k);
  }

  lemma ResultScales(a: Account, b: Account, o: Order, k: real)
    requires k > 0.0 && b.lots == ScaleLots(a.lots, k)
    requires DustUnits(a.lots, o) == 0.0 && DustUnits(b.lots, ScaleOrder(o, k)) == 0.0
    ensures Outcome(b.lots, ScaleOrder(o, k)).cashDelta == Times(k, Outcome(a.lots, o).cashDelta)
    ensures Outcome(b.lots, ScaleOrder(o, k)).realizedPnL == Times(k, Outcome(a.lots, o).realizedPnL)
  {
    var q := Queue(a.lots, o.symbol);
    assert Queue(b.lots, o.symbol) == ScaleQueue(q, k);
    HeldScales(q, k);
    TimesLaws(k, 0.0, Held(q));
    QueueScales(q, o, k);
    TimesLaws(k, o.quantity, o.price);
    TimesLaws(k, 0.0, Times(o.quantity, o.price));
  }

  // A whole run scales.
  lemma {:induction false} RunScales(cash: real, os: seq<Order>, k: real)
    requires k > 0.0
    requires DustFree(Opened(cash), os) && DustFree(Opened(cash), ScaleOrders(os, k))
    ensures IsScaled(PostAll(Opened(cash), os), PostAll(Opened(cash), ScaleOrders(os, k)), cash, k)
    decreases |os|
  {
    if os == [] {
      TimesLaws(k, 0.0, 0.0);
    } else {
      var past, o := os[..|os| - 1], os[|os| - 1];
      var scaled := ScaleOrders(os, k);
      ScaleSnoc(os, k);
      hide Post, DustUnits, DustFree, IsScaled, ScaleOrder, ScaleOrders, Times, Opened;
      DustFreePrefix(Opened(cash), os);
      DustFreePrefix(Opened(cash), scaled);
      RunScales(cash, past, k);
      PostScales(PostAll(Opened(cash), past), PostAll(Opened(cash), scaled[..|os| - 1]), o, cash, k);
    }
  }

  lemma ScaleSnoc(os: seq<Order>, k: real)
    requires os != []
    ensures |ScaleOrders(os, k)| == |os|
    ensures ScaleOrders(os, k)[..|os| - 1] == ScaleOrders(os[..|os| - 1], k)
    ensures ScaleOrders(os, k)[|os| - 1] == ScaleOrder(os[|os| - 1], k)
  {
  }

  // On one control trade the deterministic decider only scales.
  lemma DecisionScales(t: Trade, k: real)
    requires k > 0.0
    ensures var one, many := ApplyDecision(t, Deterministic(1.0)), ApplyDecision(t, Deterministic(k));
            && (one.None? <==> many.None?)
            && (one.Some? ==> OrderOf(many.value) == ScaleOrder(OrderOf(one.value), k))
  {
    TimesLaws(k, 0.0, t.quantity);
    assert Times(1.0, t.quantity) == t.quantity;
  }

  function Constant(n: nat, scale: real): seq<Decision> {
    seq(n, _ => Deterministic(scale))
  }

  // So B's orders at scale k are those at scale 1, each k times as large.
  lemma {:induction false} ShadowScales(ts: seq<Trade>, k: real)
    requires k > 0.0
    ensures Orders(Shadow(ts, Constant(|ts|, k))) == ScaleOrders(Orders(Shadow(ts, Constant(|ts|, 1.0))), k)
    decreases |ts|
  {
    if ts != [] {
      var n := |ts| - 1;
      ShadowScales(ts[..n], k);
      assert Constant(|ts|, k)[..n] == Constant(n, k);
      assert Constant(|ts|, 1.0)[..n] == Constant(n, 1.0);
      DecisionScales(ts[n], k);
      var one := ApplyDecision(ts[n], Deterministic(1.0));
      if one.Some? {
        var xs, ys := Shadow(ts[..n], Constant(n, k)), Shadow(ts[..n], Constant(n, 1.0));
        var x, y := ApplyDecision(ts[n], Deterministic(k)).value, one.value;
        assert Orders(xs + [x]) == Orders(xs) + [OrderOf(x)];
        assert Orders(ys + [y]) == Orders(ys) + [OrderOf(y)];
      }
    }
  }
}
