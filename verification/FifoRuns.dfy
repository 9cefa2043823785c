// First-in-first-out over whole runs.  The reference keeps no queue at all: per
// symbol it knows the list of everything ever bought and one number, how many of
// those units are gone.  Every quantity the ledger reports is a function of that.
module FifoRuns {
  import opened Lots

  // Everything bought of a symbol, in order.
  function Buys(os: seq<Order>, symbol: string): seq<Lot> {
    if os == [] then [] else
      var o := os[|os| - 1];
      Buys(os[..|os| - 1], symbol) + if o.kind == Buy && o.symbol == symbol then [Bought(o)] else []
  }

  // A queue without its first x units.
  function DropFirst(q: seq<Lot>, x: real): seq<Lot> {
    if x <= 0.0 || q == [] then q
    else if q[0].quantity <= x then DropFirst(q[1..], x - q[0].quantity)
    else [q[0].(quantity := q[0].quantity - x)] + q[1..]
  }

  // What the first x units cost.
  function FirstCost(q: seq<Lot>, x: real): real {
    if x <= 0.0 || q == [] then 0.0
    else if q[0].quantity <= x then Times(q[0].quantity, q[0].costBasis) + FirstCost(q[1..], x - q[0].quantity)
    else Times(x, q[0].costBasis)
  }

  // The units left in the lot that a cut after x units goes through, 0 on a
  // boundary.
  function CutRest(q: seq<Lot>, x: real): real {
    if x <= 0.0 || q == [] then 0.0
    else if q[0].quantity <= x then CutRest(q[1..], x - q[0].quantity)
    else q[0].quantity - x
  }

  // The units of `symbol` one more order fills, given what was bought and gone.
  function Fill(buys: seq<Lot>, gone: real, symbol: string, o: Order): real {
    var left := Held(buys) - gone;
    if o.kind != Sell || o.symbol != symbol || left <= 0.0 then 0.0
    else if o.quantity > left then left else o.quantity
  }

  function Dust(cut: real): real {
    if cut <= DUST then cut else 0.0
  }

  // The units gone after one more order: those filled, and the dust behind them.
  function GoneAfter(buys: seq<Lot>, gone: real, symbol: string, o: Order): real {
    var fill := Fill(buys, gone, symbol, o);
    if fill <= 0.0 then gone else gone + fill + Dust(CutRest(buys, gone + fill))
  }

  function Gone(os: seq<Order>, symbol: string): real {
    if os == [] then 0.0 else
      var past := os[..|os| - 1];
      GoneAfter(Buys(past, symbol), Gone(past, symbol), symbol, os[|os| - 1])
  }

  // Profit of one order: its proceeds less what the matched slice of the buys
  // had cost.
  function ProfitOf(buys: seq<Lot>, gone: real, o: Order): real {
    var fill := Fill(buys, gone, o.symbol, o);
    Times(fill, o.price) - (FirstCost(buys, gone + fill) - FirstCost(buys, gone))
  }

  function Profit(os: seq<Order>): real {
    if os == [] then 0.0 else
      var past, o := os[..|os| - 1], os[|os| - 1];
      Profit(past) + ProfitOf(Buys(past, o.symbol), Gone(past, o.symbol), o)
  }

  // Cash paid for a buy or received for a fill.
  function CashOf(buys: seq<Lot>, gone: real, o: Order): real {
    if o.kind == Buy then -Times(o.quantity, o.price) else Times(Fill(buys, gone, o.symbol, o), o.price)
  }

  function CashFlow(os: seq<Order>): real {
    if os == [] then 0.0 else
      var past, o := os[..|os| - 1], os[|os| - 1];
      CashFlow(past) + CashOf(Buys(past, o.symbol), Gone(past, o.symbol), o)
  }

  lemma {:induction false} DropDrop(q: seq<Lot>, x: real, y: real, symbol: string)
    requires SoundQueue(q, symbol) && 0.0 <= x && 0.0 <= y
    ensures DropFirst(DropFirst(q, x), y) == DropFirst(q, x + y)
    ensures y > 0.0 ==> CutRest(DropFirst(q, x), y) == CutRest(q, x + y)
    ensures FirstCost(DropFirst(q, x), y) == FirstCost(q, x + y) - FirstCost(q, x)
    decreases |q|
  {
    if q == [] || x == 0.0 {
    } else if q[0].quantity <= x {
      DropDrop(q[1..], x - q[0].quantity, y, symbol);
    } else {
      var d := DropFirst(q, x);
      assert d[1..] == q[1..];
      var c := q[0].costBasis;
      assert (q[0].quantity - x) * c == q[0].quantity * c - x * c;
      assert (x + y) * c == x * c + y * c;
      if y >= q[0].quantity - x {
        assert x + y - q[0].quantity == y - d[0].quantity;
      }
    }
  }

  lemma {:induction false} DropHeld(q: seq<Lot>, x: real, symbol: string)
    requires SoundQueue(q, symbol) && 0.0 <= x <= Held(q)
    ensures Held(DropFirst(q, x)) == Held(q) - x
    ensures SoundQueue(DropFirst(q, x), symbol)
    decreases |q|
  {
    if q == [] || x == 0.0 {
    } else if q[0].quantity <= x {
      DropHeld(q[1..], x - q[0].quantity, symbol);
    } else {
      assert DropFirst(q, x)[1..] == q[1..];
    }
  }

  lemma {:induction false} DropAppend(q: seq<Lot>, r: seq<Lot>, x: real, symbol: string)
    requires SoundQueue(q, symbol) && x <= Held(q)
    ensures DropFirst(q + r, x) == DropFirst(q, x) + r
    ensures FirstCost(q + r, x) == FirstCost(q, x)
    decreases |q|
  {
    if q == [] {
      assert q + r == r;
    } else {
      assert (q + r)[1..] == q[1..] + r;
      if q[0].quantity <= x {
        DropAppend(q[1..], r, x - q[0].quantity, symbol);
      } else if x > 0.0 {
        assert DropFirst(q + r, x) == [q[0].(quantity := q[0].quantity - x)] + (q[1..] + r);
      }
    }
  }

  // The ledger's take is a cut of the queue, moved to the lot's end when it
  // leaves no more than dust.
  lemma {:induction false} TakeIsDrop(q: seq<Lot>, amount: real, symbol: string)
    requires SoundQueue(q, symbol) && 0.0 < amount <= Held(q)
    ensures var t := Take(q, amount);
            && t.cost == FirstCost(q, amount)
            && t.dust == (if CutRest(q, amount) <= DUST then CutRest(q, amount) else 0.0)
            && t.rest == DropFirst(q, amount + t.dust)
    decreases |q|
  {
    if q[0].quantity < amount {
      var rest := amount - q[0].quantity;
      TakeIsDrop(q[1..], rest, symbol);
      CutRestWithin(q[1..], rest, symbol);
      var dust := Take(q, amount).dust;
      assert amount + dust - q[0].quantity == rest + dust;
    }
  }

  // Cutting stays within the queue.
  lemma {:induction false} CutRestWithin(q: seq<Lot>, x: real, symbol: string)
    requires SoundQueue(q, symbol) && 0.0 <= x <= Held(q)
    ensures 0.0 <= CutRest(q, x) && x + CutRest(q, x) <= Held(q)
    decreases |q|
  {
    if q == [] || x == 0.0 {
    } else if q[0].quantity <= x {
      CutRestWithin(q[1..], x - q[0].quantity, symbol);
    } else {
      HeldPositive(q[1..], symbol);
    }
  }

  lemma {:induction false} BuysSound(os: seq<Order>, symbol: string)
    requires AllValid(os)
    ensures SoundQueue(Buys(os, symbol), symbol)
    decreases |os|
  {
    if os != [] {
      BuysSound(os[..|os| - 1], symbol);
    }
  }

  // What is gone never exceeds what was bought.
  lemma {:induction false} GoneWithin(os: seq<Order>, symbol: string)
    requires AllValid(os)
    ensures 0.0 <= Gone(os, symbol) <= Held(Buys(os, symbol))
    decreases |os|
  {
    if os != [] {
      var past, o := os[..|os| - 1], os[|os| - 1];
      GoneWithin(past, symbol);
      BuysSound(past, symbol);
      GoneAfterWithin(Buys(past, symbol), Gone(past, symbol), symbol, o);
      BoughtAdds(Buys(past, symbol), o);
      hide GoneAfter, Held, SoundQueue;
      assert Buys(past, symbol) + [] == Buys(past, symbol);
    }
  }

  lemma GoneAfterWithin(buys: seq<Lot>, gone: real, symbol: string, o: Order)
    requires SoundQueue(buys, symbol) && 0.0 <= gone <= Held(buys) && o.Valid()
    ensures 0.0 <= GoneAfter(buys, gone, symbol, o) <= Held(buys)
  {
    CutRestWithin(buys, gone + Fill(buys, gone, symbol, o), symbol);
  }

  lemma BoughtAdds(buys: seq<Lot>, o: Order)
    requires o.Valid()
    ensures o.kind == Buy ==> Held(buys + [Bought(o)]) >= Held(buys)
  {
    if o.kind == Buy {
      HeldAppend(buys, [Bought(o)]);
      HeldPositive([Bought(o)], o.symbol);
    }
  }

  // Taking from a queue that is a cut of the buys moves the cut on.
  lemma TakeMovesCut(buys: seq<Lot>, gone: real, fill: real, symbol: string)
    requires SoundQueue(buys, symbol) && 0.0 <= gone && 0.0 < fill <= Held(buys) - gone
    ensures var t := Take(DropFirst(buys, gone), fill);
            && t.cost == FirstCost(buys, gone + fill) - FirstCost(buys, gone)
            && t.rest == DropFirst(buys, gone + fill + Dust(CutRest(buys, gone + fill)))
  {
    var q := DropFirst(buys, gone);
    DropHeld(buys, gone, symbol);
    TakeIsDrop(q, fill, symbol);
    CutRestWithin(q, fill, symbol);
    DropDrop(buys, gone, fill, symbol);
    var dust := Take(q, fill).dust;
    DropDrop(buys, gone, fill + dust, symbol);
    assert gone + (fill + dust) == gone + fill + dust;
  }

  // One SELL against a queue that is a cut of the buys.
  lemma SellIsCut(buys: seq<Lot>, gone: real, o: Order)
    requires SoundQueue(buys, o.symbol) && 0.0 <= gone <= Held(buys)
    requires o.kind == Sell && o.Valid()
    ensures var q := DropFirst(buys, gone);
            var fill := Fill(buys, gone, o.symbol, o);
            && Held(q) == Held(buys) - gone
            && (fill <= 0.0 <==> Held(q) <= 0.0)
            && (fill > 0.0 ==>
                  && fill == FillOf(q, o.quantity)
                  && SellTaken(q, o.quantity).rest == DropFirst(buys, GoneAfter(buys, gone, o.symbol, o))
                  && SellTaken(q, o.quantity).cost == FirstCost(buys, gone + fill) - FirstCost(buys, gone))
  {
    DropHeld(buys, gone, o.symbol);
    var fill := Fill(buys, gone, o.symbol, o);
    if fill > 0.0 {
      TakeMovesCut(buys, gone, fill, o.symbol);
    }
  }

  // After any run each queue is exactly what is left of the symbol's buys once
  // the units gone are cut from the front.
  lemma {:induction false} QueueIsLeftover(cash: real, os: seq<Order>, symbol: string)
    requires AllValid(os)
    ensures Queue(PostAll(Opened(cash), os).lots, symbol) == DropFirst(Buys(os, symbol), Gone(os, symbol))
    decreases |os|
  {
    if os != [] {
      var past, o := os[..|os| - 1], os[|os| - 1];
      QueueIsLeftover(cash, past, symbol);
      QueueOfAfter(PostAll(Opened(cash), past).lots, o, symbol);
      GoneWithin(past, symbol);
      BuysSound(past, symbol);
      var buys, gone := Buys(past, symbol), Gone(past, symbol);
      if o.symbol == symbol && o.kind == Buy {
        DropAppend(buys, [Bought(o)], gone, symbol);
      } else {
        assert Buys(os, symbol) == buys;
        if o.symbol == symbol && o.kind == Sell {
          SellIsCut(buys, gone, o);
        }
      }
    }
  }

  // What one more order fills, earns and moves in cash, said without the queue.
  lemma OutcomeIsReference(cash: real, past: seq<Order>, o: Order)
    requires AllValid(past) && o.Valid()
    ensures IsReference(Outcome(PostAll(Opened(cash), past).lots, o), Buys(past, o.symbol), Gone(past, o.symbol), o)
  {
    QueueIsLeftover(cash, past, o.symbol);
    GoneWithin(past, o.symbol);
    BuysSound(past, o.symbol);
    OutcomeOfCut(PostAll(Opened(cash), past).lots, Buys(past, o.symbol), Gone(past, o.symbol), o);
  }

  ghost predicate IsReference(r: ApplyResult, buys: seq<Lot>, gone: real, o: Order) {
    && (o.kind == Sell ==> r.applied == Fill(buys, gone, o.symbol, o))
    && (o.kind == Sell ==> (r.clamped <==> o.quantity > Held(buys) - gone))
    && r.realizedPnL == ProfitOf(buys, gone, o)
    && r.cashDelta == CashOf(buys, gone, o)
  }

  lemma OutcomeOfCut(lots: map<string, seq<Lot>>, buys: seq<Lot>, gone: real, o: Order)
    requires SoundQueue(buys, o.symbol) && 0.0 <= gone <= Held(buys) && o.Valid()
    requires Queue(lots, o.symbol) == DropFirst(buys, gone)
    ensures IsReference(Outcome(lots, o), buys, gone, o)
  {
    var fill := Fill(buys, gone, o.symbol, o);
    match o.kind
    case Ignored => assert fill == 0.0;
    case Buy => assert fill == 0.0;
    case Sell =>
      SellIsCut(buys, gone, o);
      var r := Outcome(lots, o);
      if fill > 0.0 {
        assert r.applied == fill;
        assert r.cashDelta == Times(fill, o.price);
      } else {
        assert fill == 0.0;
      }
  }

  // Whole-run matching: realised profit and cash are those of the reference.
  lemma {:induction false} RunIsFifo(cash: real, os: seq<Order>)
    requires AllValid(os)
    ensures PostAll(Opened(cash), os).realizedPnL == Profit(os)
    ensures PostAll(Opened(cash), os).cash == cash + CashFlow(os)
    decreases |os|
  {
    if os != [] {
      var past, o := os[..|os| - 1], os[|os| - 1];
      RunIsFifo(cash, past);
      OutcomeIsReference(cash, past, o);
    }
  }

  // No run ever sells more than it holds, and every lot that stays is open.
  lemma FillsWithinHoldings(cash: real, past: seq<Order>, o: Order)
    requires AllValid(past) && o.Valid() && o.kind == Sell
    ensures var lots := PostAll(Opened(cash), past).lots;
            var r := Outcome(lots, o);
            && 0.0 <= r.applied <= o.quantity
            && r.applied <= Held(Queue(lots, o.symbol))
            && (r.clamped <==> r.applied < o.quantity)
            && Sound(LotsAfter(lots, o))
  {
    SoundRun(Opened(cash), past);
    var lots := PostAll(Opened(cash), past).lots;
    HeldPositive(Queue(lots, o.symbol), o.symbol);
    SoundStep(lots, o);
  }

  // A SELL fills something exactly when more was bought before it, in the order of
  // the calls, than is gone by then.
  lemma SellFillsExactly(cash: real, past: seq<Order>, o: Order)
    requires AllValid(past) && o.Valid() && o.kind == Sell
    ensures Outcome(PostAll(Opened(cash), past).lots, o).applied > 0.0
       <==> Held(Buys(past, o.symbol)) > Gone(past, o.symbol)
  {
    var buys, gone := Buys(past, o.symbol), Gone(past, o.symbol);
    GoneWithin(past, o.symbol);
    BuysSound(past, o.symbol);
    QueueIsLeftover(cash, past, o.symbol);
    DropHeld(buys, gone, o.symbol);
  }

  // So where every sell of a symbol comes before every buy of it, as in a newest-first
  // listing of a position opened and closed, nothing is ever sold.
  lemma {:induction false} SellsBeforeBuys(cash: real, os: seq<Order>, symbol: string)
    requires AllValid(os)
    requires forall i, j | 0 <= i < j < |os| && os[i].kind == Buy && os[i].symbol == symbol ::
               !(os[j].kind == Sell && os[j].symbol == symbol)
    ensures Gone(os, symbol) == 0.0 && Queue(PostAll(Opened(cash), os).lots, symbol) == Buys(os, symbol)
    decreases |os|
  {
    QueueIsLeftover(cash, os, symbol);
    if os != [] {
      var n := |os| - 1;
      SellsBeforeBuys(cash, os[..n], symbol);
      if os[n].kind == Sell && os[n].symbol == symbol {
        NoBuys(os[..n], symbol);
      }
    }
  }

  lemma {:induction false} NoBuys(os: seq<Order>, symbol: string)
    requires forall i | 0 <= i < |os| :: !(os[i].kind == Buy && os[i].symbol == symbol)
    ensures Buys(os, symbol) == []
    decreases |os|
  {
    if os != [] {
      NoBuys(os[..|os| - 1], symbol);
    }
  }
}
