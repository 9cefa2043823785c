// Conservation over whole runs: where the money went, what trading at the mark
// can and cannot earn, and how far the dust rule lets the books drift.
module Accounting {
  import opened Lots
  import opened Sums

  // Cost of everything still held.
  ghost function BookCost(lots: map<string, seq<Lot>>): real {
    Sum(lots.Keys, s => Cost(Queue(lots, s)))
  }

  function Worth(lots: map<string, seq<Lot>>, symbol: string, mark: string -> real): real {
    Times(Held(Queue(lots, symbol)), mark(symbol))
  }

  // Value of everything still held at the given marks.
  ghost function BookValue(lots: map<string, seq<Lot>>, mark: string -> real): real {
    Sum(lots.Keys, s => Worth(lots, s, mark))
  }

  predicate Sells(lots: map<string, seq<Lot>>, o: Order) {
    o.kind == Sell && Held(Queue(lots, o.symbol)) > 0.0
  }

  // The residue one order drops, in units and in cost.
  function DustUnits(lots: map<string, seq<Lot>>, o: Order): real {
    if Sells(lots, o) then SellTaken(Queue(lots, o.symbol), o.quantity).dust else 0.0
  }

  function DustCost(lots: map<string, seq<Lot>>, o: Order): real {
    if Sells(lots, o) then SellTaken(Queue(lots, o.symbol), o.quantity).dustCost else 0.0
  }

  // Everything a run of orders dropped, at cost.
  function TotalDustCost(a: Account, os: seq<Order>): real {
    if os == [] then 0.0 else
      var past := os[..|os| - 1];
      TotalDustCost(a, past) + DustCost(PostAll(a, past).lots, os[|os| - 1])
  }

  // How many orders of a run sold something.
  function SellCount(a: Account, os: seq<Order>): nat {
    if os == [] then 0 else
      var past := os[..|os| - 1];
      SellCount(a, past) + if Sells(PostAll(a, past).lots, os[|os| - 1]) then 1 else 0
  }

  // No order of the run drops a residue.
  ghost predicate DustFree(a: Account, os: seq<Order>) {
    forall i | 0 <= i < |os| :: DustUnits(PostAll(a, os[..i]).lots, os[i]) == 0.0
  }

  // Highest price any buy of the run was made at.
  function DearestBuy(os: seq<Order>): real {
    if os == [] then 0.0 else
      var top, o := DearestBuy(os[..|os| - 1]), os[|os| - 1];
      if o.kind == Buy && o.price > top then o.price else top
  }

  // A per-queue total moves only at the order's symbol.
  lemma {:induction false} SumAfter(lots: map<string, seq<Lot>>, o: Order, f: string -> real, g: string -> real,
                                    at: real)
    requires forall s | s != o.symbol :: f(s) == g(s)
    requires o.symbol !in lots ==> f(o.symbol) == 0.0
    requires g(o.symbol) == f(o.symbol) + at
    requires LotsAfter(lots, o) == lots ==> at == 0.0
    ensures Sum(LotsAfter(lots, o).Keys, g) == Sum(lots.Keys, f) + at
  {
    var after := LotsAfter(lots, o);
    if after == lots {
      SumSame(lots.Keys, f, g);
    } else {
      var keys := lots.Keys + {o.symbol};
      assert after.Keys == keys;
      assert forall k | k in keys - lots.Keys :: k == o.symbol;
      SumWiden(lots.Keys, keys, f);
      SumChange(keys, f, g, o.symbol);
    }
  }

  lemma CostAfter(q: seq<Lot>, o: Order)
    requires SoundQueue(q, o.symbol) && o.Valid()
    ensures o.kind == Buy ==>
              && Cost(QueueAfter(q, o)) == Cost(q) + Times(o.quantity, o.price)
              && Held(QueueAfter(q, o)) == Held(q) + o.quantity
    ensures o.kind == Sell && Held(q) > 0.0 ==>
              var t := SellTaken(q, o.quantity);
              && Cost(QueueAfter(q, o)) == Cost(q) - t.cost - t.dustCost
              && Held(QueueAfter(q, o)) == Held(q) - FillOf(q, o.quantity) - t.dust
  {
    if o.kind == Buy {
      HeldAppend(q, [Bought(o)]);
      assert Cost([Bought(o)]) == Times(o.quantity, o.price);
      assert Held([Bought(o)]) == o.quantity;
    } else if o.kind == Sell && Held(q) > 0.0 {
      TakeConserves(q, FillOf(q, o.quantity), o.symbol);
    }
  }

  // One order: profit booked less cash gained is exactly the fall in book cost
  // plus the dust.
  lemma IdentityStep(a: Account, o: Order)
    requires Sound(a.lots) && o.Valid()
    ensures var b := Post(a, o);
            (b.realizedPnL - a.realizedPnL) - (b.cash - a.cash) - (BookCost(b.lots) - BookCost(a.lots))
            == DustCost(a.lots, o)
  {
    var q := Queue(a.lots, o.symbol);
    var b := Post(a, o);
    CostAfter(q, o);
    QueueOfAfter(a.lots, o, o.symbol);
    forall s ensures s != o.symbol ==> Queue(b.lots, s) == Queue(a.lots, s) {
      QueueOfAfter(a.lots, o, s);
    }
    SumAfter(a.lots, o, s => Cost(Queue(a.lots, s)), s => Cost(Queue(b.lots, s)),
             Cost(Queue(b.lots, o.symbol)) - Cost(q));
  }

  // The accounting identity, exactly, in every reachable state.
  lemma {:induction false} Identity(cash: real, os: seq<Order>)
    requires AllValid(os)
    ensures var b := PostAll(Opened(cash), os);
            cash + b.realizedPnL - b.cash - BookCost(b.lots) == TotalDustCost(Opened(cash), os)
    decreases |os|
  {
    if os != [] {
      Identity(cash, os[..|os| - 1]);
      SoundRun(Opened(cash), os[..|os| - 1]);
      IdentityStep(PostAll(Opened(cash), os[..|os| - 1]), os[|os| - 1]);
    }
  }

  ghost predicate CostsUpTo(q: seq<Lot>, top: real) {
    forall i | 0 <= i < |q| :: q[i].costBasis <= top
  }

  lemma {:induction false} TakeDustBound(q: seq<Lot>, amount: real, symbol: string, top: real)
    requires SoundQueue(q, symbol) && CostsUpTo(q, top) && top >= 0.0
    requires 0.0 <= amount <= Held(q)
    ensures 0.0 <= Take(q, amount).dustCost <= DUST * top
    ensures Take(q, amount).dust == 0.0 ==> Take(q, amount).dustCost == 0.0
    ensures CostsUpTo(Take(q, amount).rest, top)
    decreases |q|
  {
    if amount <= 0.0 || q == [] {
    } else if q[0].quantity <= amount {
      TakeDustBound(q[1..], amount - q[0].quantity, symbol, top);
    } else {
      var left := q[0].quantity - amount;
      if left <= DUST {
        MulBounds(left, DUST, q[0].costBasis, top);
      }
    }
  }

  lemma MulBounds(a: real, b: real, c: real, d: real)
    requires 0.0 <= a <= b && 0.0 <= c <= d
    ensures 0.0 <= a * c <= b * d
  {
    assert a * c <= b * c;
    assert b * c <= b * d;
  }

  // No lot is dearer than the dearest buy of the run.
  lemma {:induction false} CostsBounded(cash: real, os: seq<Order>)
    requires AllValid(os)
    ensures DearestBuy(os) >= 0.0
    ensures forall s :: CostsUpTo(Queue(PostAll(Opened(cash), os).lots, s), DearestBuy(os))
    decreases |os|
  {
    if os != [] {
      var past, o := os[..|os| - 1], os[|os| - 1];
      CostsBounded(cash, past);
      SoundRun(Opened(cash), past);
      var lots := PostAll(Opened(cash), past).lots;
      var q := Queue(lots, o.symbol);
      HeldPositive(q, o.symbol);
      if Sells(lots, o) {
        TakeDustBound(q, FillOf(q, o.quantity), o.symbol, DearestBuy(past));
      }
      assert CostsUpTo(q, DearestBuy(past));
      forall s ensures CostsUpTo(Queue(LotsAfter(lots, o), s), DearestBuy(os)) {
        QueueOfAfter(lots, o, s);
        assert CostsUpTo(Queue(lots, s), DearestBuy(past));
      }
    }
  }

  // One dust threshold, at the given cost, per sale.
  function Allowance(top: real, sales: nat): real {
    DUST * top * (sales as real)
  }

  lemma AllowanceGrows(low: real, top: real, sales: nat, after: nat, d: real, total: real)
    requires 0.0 <= low <= top && 0.0 <= d <= Allowance(low, 1)
    requires after == sales + 1 || (after == sales && d == 0.0)
    requires 0.0 <= total <= Allowance(low, sales)
    ensures 0.0 <= total + d <= Allowance(top, after)
  {
  }

  lemma DustCostBound(lots: map<string, seq<Lot>>, o: Order, top: real)
    requires Sound(lots) && o.Valid() && top >= 0.0 && CostsUpTo(Queue(lots, o.symbol), top)
    ensures 0.0 <= DustCost(lots, o) <= Allowance(top, 1)
    ensures DustUnits(lots, o) == 0.0 ==> DustCost(lots, o) == 0.0
    ensures !Sells(lots, o) ==> DustCost(lots, o) == 0.0
  {
    var q := Queue(lots, o.symbol);
    HeldPositive(q, o.symbol);
    if Sells(lots, o) {
      TakeDustBound(q, FillOf(q, o.quantity), o.symbol, top);
    }
  }

  lemma DustFreePrefix(a: Account, os: seq<Order>)
    requires os != [] && DustFree(a, os)
    ensures DustFree(a, os[..|os| - 1])
    ensures DustUnits(PostAll(a, os[..|os| - 1]).lots, os[|os| - 1]) == 0.0
  {
    var past := os[..|os| - 1];
    forall i | 0 <= i < |past| ensures DustUnits(PostAll(a, past[..i]).lots, past[i]) == 0.0 {
      assert past[..i] == os[..i];
    }
  }

  // The drift of the books is never negative and at most one dust threshold, at
  // the dearest cost, per sale; it is nothing at all when nothing was dropped.
  lemma {:induction false} DriftBounded(cash: real, os: seq<Order>)
    requires AllValid(os)
    ensures 0.0 <= TotalDustCost(Opened(cash), os) <= Allowance(DearestBuy(os), SellCount(Opened(cash), os))
    ensures DustFree(Opened(cash), os) ==> TotalDustCost(Opened(cash), os) == 0.0
    decreases |os|
  {
    if os != [] {
      var past, o := os[..|os| - 1], os[|os| - 1];
      DriftBounded(cash, past);
      CostsBounded(cash, past);
      SoundRun(Opened(cash), past);
      var lots := PostAll(Opened(cash), past).lots;
      assert CostsUpTo(Queue(lots, o.symbol), DearestBuy(past));
      DustCostBound(lots, o, DearestBuy(past));
      AllowanceGrows(DearestBuy(past), DearestBuy(os), SellCount(Opened(cash), past), SellCount(Opened(cash), os),
                     DustCost(lots, o), TotalDustCost(Opened(cash), past));
      if DustFree(Opened(cash), os) {
        DustFreePrefix(Opened(cash), os);
      }
    }
  }

  // Cash plus holdings at the marks.
  ghost function Wealth(a: Account, mark: string -> real): real {
    a.cash + BookValue(a.lots, mark)
  }

  lemma TimesSplit(a: real, b: real, c: real, p: real)
    ensures Times(a - b - c, p) == Times(a, p) - Times(b, p) - Times(c, p)
    ensures Times(-b, p) == -Times(b, p) && Times(0.0, p) == 0.0
  {
  }

  // What one order does to the value of its symbol's holding at the order price.
  lemma WorthAfter(lots: map<string, seq<Lot>>, o: Order, mark: string -> real)
    requires Sound(lots) && o.Valid()
    requires o.kind != Ignored ==> o.price == mark(o.symbol)
    ensures Worth(LotsAfter(lots, o), o.symbol, mark)
         == Worth(lots, o.symbol, mark) - Outcome(lots, o).cashDelta - DustWorth(lots, o, mark)
  {
    var q := Queue(lots, o.symbol);
    CostAfter(q, o);
    QueueOfAfter(lots, o, o.symbol);
    if o.kind == Buy {
      TimesSplit(Held(q), -o.quantity, 0.0, mark(o.symbol));
    } else if Sells(lots, o) {
      TimesSplit(Held(q), FillOf(q, o.quantity), DustUnits(lots, o), mark(o.symbol));
    } else {
      TimesSplit(Held(q), 0.0, 0.0, mark(o.symbol));
    }
    hide Times, Take, Held, Cost;
  }

  // A trade made at the mark changes no wealth, dust apart.
  lemma WealthStep(a: Account, o: Order, mark: string -> real)
    requires Sound(a.lots) && o.Valid()
    requires o.kind != Ignored ==> o.price == mark(o.symbol)
    ensures Wealth(Post(a, o), mark) == Wealth(a, mark) - DustWorth(a.lots, o, mark)
  {
    var after := LotsAfter(a.lots, o);
    WorthAfter(a.lots, o, mark);
    forall s ensures s != o.symbol ==> Worth(after, s, mark) == Worth(a.lots, s, mark) {
      QueueOfAfter(a.lots, o, s);
    }
    SumAfter(a.lots, o, s => Worth(a.lots, s, mark), s => Worth(after, s, mark),
             Worth(after, o.symbol, mark) - Worth(a.lots, o.symbol, mark));
  }

  function DustWorth(lots: map<string, seq<Lot>>, o: Order, mark: string -> real): real {
    Times(DustUnits(lots, o), mark(o.symbol))
  }

  // The value at the marks of what a run dropped.
  ghost function DustValue(a: Account, os: seq<Order>, mark: string -> real): real {
    if os == [] then 0.0 else
      var past, o := os[..|os| - 1], os[|os| - 1];
      DustValue(a, past, mark) + DustWorth(PostAll(a, past).lots, o, mark)
  }

  ghost predicate AtMarks(os: seq<Order>, mark: string -> real) {
    forall i | 0 <= i < |os| :: os[i].kind != Ignored ==> os[i].price == mark(os[i].symbol)
  }

  lemma {:induction false} WealthRun(a: Account, os: seq<Order>, mark: string -> real)
    requires Sound(a.lots) && AllValid(os) && AtMarks(os, mark)
    ensures Wealth(PostAll(a, os), mark) == Wealth(a, mark) - DustValue(a, os, mark)
    decreases |os|
  {
    if os != [] {
      WealthRun(a, os[..|os| - 1], mark);
      SoundRun(a, os[..|os| - 1]);
      WealthStep(PostAll(a, os[..|os| - 1]), os[|os| - 1], mark);
    }
  }

  lemma MoveWorth(lots: map<string, seq<Lot>>, s: string, before: string -> real, after: string -> real)
    ensures Worth(lots, s, after) == Worth(lots, s, before) + Worth(lots, s, r => after(r) - before(r))
  {
  }

  // Profit comes only from price moves: between two markings, with every trade
  // in between made at the later marks, wealth changes by the price moves on
  // what was held before, less the dust.
  lemma ProfitIsPriceMoves(a: Account, os: seq<Order>, before: string -> real, after: string -> real)
    requires Sound(a.lots) && AllValid(os) && AtMarks(os, after)
    ensures Wealth(PostAll(a, os), after) - Wealth(a, before)
         == Sum(a.lots.Keys, s => Worth(a.lots, s, (r => after(r) - before(r)))) - DustValue(a, os, after)
  {
    WealthRun(a, os, after);
    var move := r => after(r) - before(r);
    forall s ensures Worth(a.lots, s, after) == Worth(a.lots, s, before) + Worth(a.lots, s, move) {
      MoveWorth(a.lots, s, before, after);
    }
    hide Times, PostAll, AtMarks, Sound, DustValue, Worth;
    SumAdd(a.lots.Keys, s => Worth(a.lots, s, before), s => Worth(a.lots, s, move), s => Worth(a.lots, s, after));
  }
}
