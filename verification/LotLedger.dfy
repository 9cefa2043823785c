// The per-run ledger object: a cash balance, one FIFO queue of lots per symbol
// and an append-only log, updated in place by Apply.
module LotLedger {
  import opened Text
  import opened Lots
  import LedgerCalls

  class Ledger {
    var cash: real
    var initial: real
    var realizedPnL: real
    var lots: map<string, seq<Lot>>
    var trades: seq<AppliedTrade>

    ghost predicate Valid()
      reads this
    {
      Sound(lots)
    }

    ghost function View(): Book
      reads this
    {
      Book(Account(cash, realizedPnL, lots), initial, trades)
    }

    constructor (initialCash: real)
      ensures Valid()
      ensures View() == Fresh(initialCash)
    {
      cash, initial, realizedPnL := initialCash, initialCash, 0.0;
      lots, trades := map[], [];
    }

    // Ingests one trade.
    method Apply(date: int, rawSymbol: string, rawSide: string, qty: real, price: real) returns (res: ApplyResult)
      requires Valid()
      modifies this
      ensures Valid()
      ensures View() == Step(old(View()), Trade(date, rawSymbol, rawSide, qty, price))
      ensures res == Outcome(old(lots), OrderOf(Trade(date, rawSymbol, rawSide, qty, price)))
      ensures LedgerCalls.Answers(old(View()), Trade(date, rawSymbol, rawSide, qty, price), View(), res)
    {
      ghost var t := Trade(date, rawSymbol, rawSide, qty, price);
      LedgerCalls.StepAnswers(View(), t);
      SoundStep(lots, OrderOf(t));
      StepBranches(View(), t);
      hide *;
      var side := Norm(rawSide);
      var symbol := Trim(rawSymbol);
      res := NO_OP;
      if symbol == "" || qty <= 0.0 || price < 0.0 {
        trades := trades + [AppliedTrade(date, symbol, side, qty, price, res)];
        return;
      }
      if side == "BUY" {
        lots := lots[symbol := Queue(lots, symbol) + [Lot(date, symbol, qty, price)]];
        res := res.(applied := qty, cashDelta := -(qty * price));
        cash := cash + res.cashDelta;
      } else if side == "SELL" {
        var queue;
        QueueSound(lots, symbol);
        res, queue := SellFrom(Queue(lots, symbol), symbol, qty, price);
        if res.applied > 0.0 {
          lots := lots[symbol := queue];
          cash := cash + res.cashDelta;
          realizedPnL := realizedPnL + res.realizedPnL;
        }
      }
      trades := trades + [AppliedTrade(date, symbol, side, qty, price, res)];
    }

    // A SELL against one queue: clamped to what is held, refused when nothing is.
    static method SellFrom(open: seq<Lot>, ghost symbol: string, qty: real, price: real)
      returns (res: ApplyResult, queue: seq<Lot>)
      requires SoundQueue(open, symbol) && qty > 0.0
      ensures res.applied > 0.0 <==> Held(open) > 0.0
      ensures res == SellResult(open, qty, price)
      ensures queue == if Held(open) <= 0.0 then open else SellTaken(open, qty).rest
    {
      queue, res := open, NO_OP;
      var held := Total(queue);
      if held <= 0.0 {
        res := res.(clamped := true);
      } else {
        var fillQty := qty;
        if fillQty > held {
          res := res.(clamped := true);
          fillQty := held;
        }
        var pnl;
        queue, pnl := Match(queue, fillQty, price);
        res := res.(applied := fillQty, cashDelta := fillQty * price, realizedPnL := pnl);
      }
    }

    static method Total(queue: seq<Lot>) returns (total: real)
      ensures total == Held(queue)
    {
      total := 0.0;
      for i := 0 to |queue|
        invariant total == Held(queue[..i])
      {
        HeldSnoc(queue, i);
        total := total + queue[i].quantity;
      }
      assert queue[..|queue|] == queue;
    }

    // The FIFO walk of a SELL: eats lots from the front and books the profit of
    // each slice against that lot's own cost.
    static method Match(open: seq<Lot>, fillQty: real, price: real) returns (queue: seq<Lot>, pnl: real)
      requires Open(open)
      requires 0.0 < fillQty <= Held(open)
      ensures queue == Take(open, fillQty).rest
      ensures pnl == fillQty * price - Take(open, fillQty).cost
    {
      hide *;
      queue, pnl := open, 0.0;
      var remaining := fillQty;
      ghost var spent, got := 0.0, 0.0;
      MatchSlice(0.0, 0.0, price, 0.0);
      while remaining > 0.0 && |queue| > 0
        invariant 0.0 <= remaining <= fillQty
        invariant Open(queue)
        invariant remaining > 0.0 ==> remaining <= Held(queue)
        invariant Take(open, fillQty).rest == Take(queue, remaining).rest
        invariant Take(open, fillQty).cost == spent + Take(queue, remaining).cost
        invariant pnl == got - spent
        invariant got == Times(fillQty - remaining, price)
        decreases |queue|, remaining > 0.0
      {
        var front := queue[0];
        var take := if remaining > front.quantity then front.quantity else remaining;
        TakeFront(queue, remaining, take);
        MatchSlice(fillQty - remaining, take, price, front.costBasis);
        spent := spent + Times(take, front.costBasis);
        got := got + Times(take, price);
        pnl := pnl + take * (price - front.costBasis);
        queue := DropFront(queue, take);
        remaining := remaining - take;
      }
      TakeNothing(queue, remaining);
      MatchSlice(fillQty - remaining, 0.0, price, 0.0);
    }

    // The front lot gives `take` units, and goes when no more than dust is left of it.
    static method DropFront(queue: seq<Lot>, take: real) returns (rest: seq<Lot>)
      requires queue != []
      ensures rest == Advance(queue, take)
    {
      var front := queue[0].(quantity := queue[0].quantity - take);
      rest := queue[0 := front];
      if front.quantity <= DUST {
        rest := rest[1..];
      }
    }

    // Positions of the symbols held beyond the dust threshold, and the cash.
    method PositionsAndCash() returns (positions: map<string, real>, balance: real)
      ensures positions == Positions(lots)
      ensures balance == cash
    {
      positions := map[];
      var todo := lots.Keys;
      while todo != {}
        invariant todo <= lots.Keys
        invariant positions == map s | s in lots && s !in todo && Held(lots[s]) > DUST :: Held(lots[s])
        decreases todo
      {
        var sym :| sym in todo;
        var total := Total(lots[sym]);
        todo := todo - {sym};
        if total > DUST {
          positions := positions[sym := total];
        }
      }
      balance := cash;
    }

    // Volume-weighted cost of a symbol's open lots, 0 when there is nothing
    // worth valuing.
    method AvgCostBasis(symbol: string) returns (avg: real)
      ensures avg == AvgCost(Queue(lots, symbol))
    {
      var queue := Queue(lots, symbol);
      var totalQty, totalCost := 0.0, 0.0;
      for i := 0 to |queue|
        invariant totalQty == Held(queue[..i])
        invariant totalCost == Cost(queue[..i])
      {
        HeldSnoc(queue, i);
        totalQty := totalQty + queue[i].quantity;
        totalCost := totalCost + queue[i].quantity * queue[i].costBasis;
      }
      assert queue[..|queue|] == queue;
      avg := if totalQty <= DUST then 0.0 else totalCost / totalQty;
    }
  }

  lemma QueueSound(lots: map<string, seq<Lot>>, symbol: string)
    requires Sound(lots)
    ensures SoundQueue(Queue(lots, symbol), symbol)
  {
  }

  // The abstract step, branch by branch.
  lemma StepBranches(b: Book, t: Trade)
    ensures var side, symbol := Norm(t.side), Trim(t.symbol);
            var cash, profit, lots := b.account.cash, b.account.realizedPnL, b.account.lots;
            var q := Queue(lots, symbol);
            var res := Outcome(lots, OrderOf(t));
            && Step(b, t) == Book(Step(b, t).account, b.initial,
                                  b.trades + [AppliedTrade(t.date, symbol, side, t.quantity, t.price, res)])
            && (if symbol == "" || t.quantity <= 0.0 || t.price < 0.0 || (side != "BUY" && side != "SELL")
                then res == NO_OP && Step(b, t).account == b.account
                else if side == "BUY" then
                  && res == ApplyResult(t.quantity, -(t.quantity * t.price), 0.0, false)
                  && Step(b, t).account == Account(cash + res.cashDelta, profit,
                                                   lots[symbol := q + [Lot(t.date, symbol, t.quantity, t.price)]])
                else
                  && res == SellResult(q, t.quantity, t.price)
                  && (Held(q) <= 0.0 ==> Step(b, t).account == b.account)
                  && (Held(q) > 0.0 ==>
                        Step(b, t).account == Account(cash + res.cashDelta, profit + res.realizedPnL,
                                                      lots[symbol := SellTaken(q, t.quantity).rest])))
  {
    hide Held, Take, SellTaken, Norm, Trim;
  }

  function Positions(lots: map<string, seq<Lot>>): map<string, real> {
    map s | s in lots && Held(lots[s]) > DUST :: Held(lots[s])
  }

  function AvgCost(q: seq<Lot>): real {
    if Held(q) <= DUST then 0.0 else Cost(q) / Held(q)
  }

  ghost predicate Open(q: seq<Lot>) {
    forall i | 0 <= i < |q| :: q[i].quantity > 0.0
  }

  // The queue once `take` units have left its front lot.
  function Advance(q: seq<Lot>, take: real): seq<Lot>
    requires q != []
  {
    var left := q[0].quantity - take;
    if left <= DUST then q[1..] else [q[0].(quantity := left)] + q[1..]
  }

  lemma MatchSlice(done: real, take: real, price: real, cost: real)
    ensures Times(done, price) + Times(take, price) == Times(done + take, price)
    ensures take * (price - cost) == Times(take, price) - Times(take, cost)
    ensures Times(done + take, price) == (done + take) * price && Times(0.0, price) == 0.0
  {
  }

  lemma TakeNothing(q: seq<Lot>, amount: real)
    requires amount > 0.0 ==> amount <= Held(q)
    requires amount <= 0.0 || q == []
    ensures amount <= 0.0 && Take(q, amount).rest == q && Take(q, amount).cost == 0.0
  {
  }

  // One turn of the walk, seen from the whole of what is still to be taken.
  lemma TakeFront(q: seq<Lot>, amount: real, take: real)
    requires Open(q)
    requires q != [] && 0.0 < amount <= Held(q)
    requires take == if amount > q[0].quantity then q[0].quantity else amount
    ensures var next := Advance(q, take);
            && take > 0.0 && Open(next)
            && (|next| < |q| || (|next| == |q| && amount == take))
            && Take(q, amount).rest == Take(next, amount - take).rest
            && Take(q, amount).cost == Times(take, q[0].costBasis) + Take(next, amount - take).cost
            && (amount > take ==> amount - take <= Held(next))
  {
  }
}
