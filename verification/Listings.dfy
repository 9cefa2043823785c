// What the order in which trades are listed can change: each symbol's own sequence of
// orders decides its lots, and those sequences together decide profit and cash.
module Listings {
  import opened Lots
  import opened Sums
  import opened FifoRuns

  // One symbol's orders, in order.
  function Of(os: seq<Order>, symbol: string): seq<Order> {
    if os == [] then [] else
      var past, o := Of(os[..|os| - 1], symbol), os[|os| - 1];
      if o.symbol == symbol then past + [o] else past
  }

  function Traded(os: seq<Order>): set<string> {
    set o | o in os :: o.symbol
  }

  // The account a symbol's orders leave by themselves.
  function Alone(os: seq<Order>, symbol: string): Account {
    PostAll(Opened(0.0), Of(os, symbol))
  }

  function AloneProfit(os: seq<Order>): string -> real {
    s => Alone(os, s).realizedPnL
  }

  function AloneCash(os: seq<Order>): string -> real {
    s => Alone(os, s).cash
  }

  lemma AloneSnoc(os: seq<Order>, symbol: string)
    requires os != []
    ensures var past, o := os[..|os| - 1], os[|os| - 1];
            Alone(os, symbol) == if o.symbol == symbol then Post(Alone(past, symbol), o) else Alone(past, symbol)
  {
    var past, o := os[..|os| - 1], os[|os| - 1];
    assert (Of(past, symbol) + [o])[..|Of(past, symbol)|] == Of(past, symbol);
  }

  // A symbol's queue after any run is the one its own orders leave.
  lemma {:induction false} QueueByItself(cash: real, os: seq<Order>, symbol: string)
    ensures Queue(PostAll(Opened(cash), os).lots, symbol) == Queue(Alone(os, symbol).lots, symbol)
    decreases |os|
  {
    if os != [] {
      var past, o := os[..|os| - 1], os[|os| - 1];
      QueueByItself(cash, past, symbol);
      AloneSnoc(os, symbol);
      hide Alone;
      QueueOfAfter(PostAll(Opened(cash), past).lots, o, symbol);
      QueueOfAfter(Alone(past, symbol).lots, o, symbol);
    }
  }

  // What an order fills depends on its own symbol's queue alone.
  lemma SameOutcome(a: Account, b: Account, o: Order)
    requires Queue(a.lots, o.symbol) == Queue(b.lots, o.symbol)
    ensures Outcome(a.lots, o) == Outcome(b.lots, o)
  {
  }

  lemma TradedSnoc(os: seq<Order>)
    requires os != []
    ensures Traded(os) == Traded(os[..|os| - 1]) + {os[|os| - 1].symbol}
  {
    var past, o := os[..|os| - 1], os[|os| - 1];
    assert os == past + [o];
  }

  lemma {:induction false} NotTraded(os: seq<Order>, symbol: string)
    requires symbol !in Traded(os)
    ensures Of(os, symbol) == []
    decreases |os|
  {
    if os != [] {
      TradedSnoc(os);
      NotTraded(os[..|os| - 1], symbol);
    }
  }

  // One more order moves only its own symbol's part of a sum.
  lemma SumSnoc(os: seq<Order>, f: string -> real, g: string -> real)
    requires os != [] && forall s | s != os[|os| - 1].symbol :: g(s) == f(s)
    requires os[|os| - 1].symbol !in Traded(os[..|os| - 1]) ==> f(os[|os| - 1].symbol) == 0.0
    ensures var s := os[|os| - 1].symbol; Sum(Traded(os), g) == Sum(Traded(os[..|os| - 1]), f) + g(s) - f(s)
  {
    var past, s := os[..|os| - 1], os[|os| - 1].symbol;
    TradedSnoc(os);
    hide Traded;
    SumWiden(Traded(past), Traded(past) + {s}, f);
    SumChange(Traded(os), f, g, s);
  }

  // One more order adds to the sums what it brings by itself.
  lemma PartsSnoc(os: seq<Order>)
    requires os != []
    ensures var past, o := os[..|os| - 1], os[|os| - 1];
            var r := Outcome(Alone(past, o.symbol).lots, o);
            && Sum(Traded(os), AloneProfit(os)) == Sum(Traded(past), AloneProfit(past)) + r.realizedPnL
            && Sum(Traded(os), AloneCash(os)) == Sum(Traded(past), AloneCash(past)) + r.cashDelta
  {
    var past, o := os[..|os| - 1], os[|os| - 1];
    forall s ensures Alone(os, s) == if o.symbol == s then Post(Alone(past, s), o) else Alone(past, s) {
      AloneSnoc(os, s);
    }
    if o.symbol !in Traded(past) {
      NotTraded(past, o.symbol);
    }
    hide Alone, Outcome, LotsAfter, Traded;
    AloneAtStart(past, o.symbol);
    SumSnoc(os, AloneProfit(past), AloneProfit(os));
    SumSnoc(os, AloneCash(past), AloneCash(os));
  }

  // Profit and cash of a run are the sums of what each symbol's orders bring by
  // themselves.
  lemma {:induction false} MoneyBySymbol(cash: real, os: seq<Order>)
    ensures PostAll(Opened(cash), os).realizedPnL == Sum(Traded(os), AloneProfit(os))
    ensures PostAll(Opened(cash), os).cash == cash + Sum(Traded(os), AloneCash(os))
    decreases |os|
  {
    if os != [] {
      var past, o := os[..|os| - 1], os[|os| - 1];
      MoneyBySymbol(cash, past);
      QueueByItself(cash, past, o.symbol);
      PartsSnoc(os);
      SameOutcome(PostAll(Opened(cash), past), Alone(past, o.symbol), o);
      hide Alone, Outcome, LotsAfter, Traded, Sum, AloneProfit, AloneCash, Queue;
    }
  }

  lemma AloneAtStart(os: seq<Order>, symbol: string)
    ensures Of(os, symbol) == [] ==> Alone(os, symbol) == Opened(0.0)
  {
  }

  // Two listings in which every symbol's orders come in the same order leave the same
  // lots, profit and cash, however the symbols are interleaved.
  lemma SameListing(cash: real, os: seq<Order>, other: seq<Order>)
    requires forall s :: Of(os, s) == Of(other, s)
    ensures var a, b := PostAll(Opened(cash), os), PostAll(Opened(cash), other);
            a.realizedPnL == b.realizedPnL && a.cash == b.cash && forall s :: Queue(a.lots, s) == Queue(b.lots, s)
  {
    MoneyBySymbol(cash, os);
    MoneyBySymbol(cash, other);
    forall s ensures s in Traded(os) <==> Of(os, s) != [] {
      TradedIff(os, s);
    }
    forall s ensures s in Traded(other) <==> Of(other, s) != [] {
      TradedIff(other, s);
    }
    assert Traded(os) == Traded(other);
    SumSame(Traded(os), AloneProfit(os), AloneProfit(other));
    SumSame(Traded(os), AloneCash(os), AloneCash(other));
    forall s ensures Queue(PostAll(Opened(cash), os).lots, s) == Queue(PostAll(Opened(cash), other).lots, s) {
      QueueByItself(cash, os, s);
      QueueByItself(cash, other, s);
    }
  }

  lemma {:induction false} TradedIff(os: seq<Order>, symbol: string)
    ensures symbol in Traded(os) <==> Of(os, symbol) != []
    decreases |os|
  {
    if os != [] {
      TradedSnoc(os);
      TradedIff(os[..|os| - 1], symbol);
    }
  }

  // --- The listing turned round ---------------------------------------------------

  function Turned<T>(s: seq<T>): (r: seq<T>)
    ensures |r| == |s|
  {
    if s == [] then [] else [s[|s| - 1]] + Turned(s[..|s| - 1])
  }

  lemma {:induction false} BuysAppend(xs: seq<Order>, ys: seq<Order>, symbol: string)
    ensures Buys(xs + ys, symbol) == Buys(xs, symbol) + Buys(ys, symbol)
    decreases |ys|
  {
    if ys == [] {
      assert xs + ys == xs;
    } else {
      BuysAppend(xs, ys[..|ys| - 1], symbol);
      assert (xs + ys)[..|xs + ys| - 1] == xs + ys[..|ys| - 1];
    }
  }

  lemma {:induction false} BuysTurned(os: seq<Order>, symbol: string)
    ensures Buys(Turned(os), symbol) == Turned(Buys(os, symbol))
    decreases |os|
  {
    if os != [] {
      var past, o := os[..|os| - 1], os[|os| - 1];
      BuysTurned(past, symbol);
      BuysAppend([o], Turned(past), symbol);
      assert [o][..0] == [];
      if o.kind == Buy && o.symbol == symbol {
        assert Buys([o], symbol) == [Bought(o)];
        assert (Buys(past, symbol) + [Bought(o)])[..|Buys(past, symbol)|] == Buys(past, symbol);
      } else {
        assert Buys(past, symbol) + [] == Buys(past, symbol);
      }
    }
  }

  lemma {:induction false} InTurned(os: seq<Order>, o: Order)
    ensures o in Turned(os) <==> o in os
    decreases |os|
  {
    if os != [] {
      InTurned(os[..|os| - 1], o);
      assert os == os[..|os| - 1] + [os[|os| - 1]];
    }
  }

  lemma {:induction false} NoSells(cash: real, os: seq<Order>, symbol: string)
    requires AllValid(os) && forall o | o in os :: !(o.kind == Sell && o.symbol == symbol)
    ensures Queue(PostAll(Opened(cash), os).lots, symbol) == Buys(os, symbol)
  {
    SellsBeforeBuys(cash, os, symbol);
  }

  // Listing a symbol the other way round only turns its queue round as long as it is
  // never sold.
  lemma BoughtOnlyTurns(cash: real, os: seq<Order>, symbol: string)
    requires AllValid(os) && forall o | o in os :: !(o.kind == Sell && o.symbol == symbol)
    ensures Queue(PostAll(Opened(cash), Turned(os)).lots, symbol)
         == Turned(Queue(PostAll(Opened(cash), os).lots, symbol))
  {
    forall o ensures o in Turned(os) <==> o in os {
      InTurned(os, o);
    }
    assert forall i | 0 <= i < |os| :: os[i] in os && os[i].Valid();
    assert forall i | 0 <= i < |os| :: Turned(os)[i] in Turned(os);
    NoSells(cash, os, symbol);
    NoSells(cash, Turned(os), symbol);
    BuysTurned(os, symbol);
  }

  // A position opened by buys and then closed by sells: listed the other way round no
  // sell fills anything and every buy stays open.
  lemma ClosedTurnsOpen(cash: real, os: seq<Order>, symbol: string)
    requires AllValid(os)
    requires forall i, j | 0 <= i < j < |os| && os[i].kind == Sell && os[i].symbol == symbol ::
               !(os[j].kind == Buy && os[j].symbol == symbol)
    ensures Queue(PostAll(Opened(cash), Turned(os)).lots, symbol) == Turned(Buys(os, symbol))
    ensures Gone(Turned(os), symbol) == 0.0
  {
    TurnedAt(os);
    assert AllValid(Turned(os));
    SellsBeforeBuys(cash, Turned(os), symbol);
    BuysTurned(os, symbol);
  }

  lemma {:induction false} TurnedAt<T>(s: seq<T>)
    ensures forall i | 0 <= i < |s| :: Turned(s)[i] == s[|s| - 1 - i]
    decreases |s|
  {
    if s != [] {
      TurnedAt(s[..|s| - 1]);
    }
  }
}
