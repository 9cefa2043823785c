// What one call does to a ledger, said of its raw arguments: the words BUY and SELL
// in either case, sums of quantities, and how many units a sale takes of each lot.
module LedgerCalls {
  import opened Text
  import opened Lots

  function SumOf(xs: seq<real>): real {
    if xs == [] then 0.0 else xs[0] + SumOf(xs[1..])
  }

  function Quantities(q: seq<Lot>): seq<real> {
    seq(|q|, i requires 0 <= i < |q| => q[i].quantity)
  }

  // --- How a sale falls on the lots ------------------------------------------------

  // `taken[i]` units of lot i, and none of a lot before the older ones are used up.
  ghost predicate IsSplit(q: seq<Lot>, units: real, taken: seq<real>) {
    && |taken| == |q| && SumOf(taken) == units
    && (forall i | 0 <= i < |q| :: 0.0 <= taken[i] <= q[i].quantity)
    && (forall i, j | 0 <= i < j < |q| && taken[j] > 0.0 :: taken[i] == q[i].quantity)
  }

  // Each lot's units at the price less what that lot had cost.
  function Gains(q: seq<Lot>, taken: seq<real>, price: real): real
    requires |taken| == |q|
  {
    if q == [] then 0.0 else Times(taken[0], price - q[0].costBasis) + Gains(q[1..], taken[1..], price)
  }

  // The lots that stay: a lot sold from goes when at most 1e-9 of it is left.
  function Kept(q: seq<Lot>, taken: seq<real>): seq<Lot>
    requires |taken| == |q|
  {
    if q == [] then [] else
      var left := q[0].quantity - taken[0];
      (if taken[0] > 0.0 && left <= 0.000000001 then [] else [q[0].(quantity := left)]) + Kept(q[1..], taken[1..])
  }

  lemma {:induction false} SumNonNegative(xs: seq<real>)
    requires forall i | 0 <= i < |xs| :: xs[i] >= 0.0
    ensures SumOf(xs) >= 0.0
    ensures SumOf(xs) == 0.0 <==> forall i | 0 <= i < |xs| :: xs[i] == 0.0
    decreases |xs|
  {
    if xs != [] {
      SumNonNegative(xs[1..]);
      assert forall i | 1 <= i < |xs| :: xs[i] == xs[1..][i - 1];
    }
  }

  lemma {:induction false} HeldIsSum(q: seq<Lot>)
    ensures Held(q) == SumOf(Quantities(q))
    decreases |q|
  {
    if q != [] {
      HeldIsSum(q[1..]);
      assert Quantities(q)[1..] == Quantities(q[1..]);
    }
  }

  // The split of the rest, when the first lot gives `first`.
  lemma SplitCons(q: seq<Lot>, units: real, first: real, rest: seq<real>)
    requires q != [] && 0.0 <= first <= q[0].quantity
    requires IsSplit(q[1..], units - first, rest)
    requires first == q[0].quantity || forall i | 0 <= i < |rest| :: rest[i] == 0.0
    ensures IsSplit(q, units, [first] + rest)
  {
    var taken := [first] + rest;
    assert taken[1..] == rest;
    assert forall i | 1 <= i < |q| :: q[i] == q[1..][i - 1] && taken[i] == rest[i - 1];
  }

  lemma PartsCons(q: seq<Lot>, first: real, rest: seq<real>, price: real)
    requires q != [] && |rest| == |q| - 1
    ensures Gains(q, [first] + rest, price) == Times(first, price - q[0].costBasis) + Gains(q[1..], rest, price)
    ensures var left := q[0].quantity - first;
            Kept(q, [first] + rest) ==
            (if first > 0.0 && left <= 0.000000001 then [] else [q[0].(quantity := left)]) + Kept(q[1..], rest)
  {
    assert ([first] + rest)[1..] == rest;
  }

  function Zeros(n: nat): seq<real> {
    seq(n, _ => 0.0)
  }

  lemma NothingThere(price: real)
    ensures IsSplit([], 0.0, Zeros(0)) && Kept([], Zeros(0)) == [] && Gains([], Zeros(0), price) == 0.0
  {
  }

  lemma {:induction false} NoneTaken(q: seq<Lot>, symbol: string, price: real)
    requires SoundQueue(q, symbol)
    ensures IsSplit(q, 0.0, Zeros(|q|)) && Kept(q, Zeros(|q|)) == q && Gains(q, Zeros(|q|), price) == 0.0
    decreases |q|
  {
    hide Kept, Gains, IsSplit, Times;
    if q == [] {
      NothingThere(price);
    } else {
      NoneTaken(q[1..], symbol, price);
      Slice(0.0, 0.0, price - q[0].costBasis, 0.0);
      SplitCons(q, 0.0, 0.0, Zeros(|q| - 1));
      PartsCons(q, 0.0, Zeros(|q| - 1), price);
      assert Zeros(|q|) == [0.0] + Zeros(|q| - 1);
      assert q[0].(quantity := q[0].quantity - 0.0) == q[0];
    }
  }

  // The ledger's match is such a split, whatever the price.
  lemma {:induction false} TakeSplits(q: seq<Lot>, units: real, symbol: string, price: real) returns (taken: seq<real>)
    requires SoundQueue(q, symbol) && 0.0 <= units <= Held(q)
    ensures IsSplit(q, units, taken) && Kept(q, taken) == Take(q, units).rest
    ensures Gains(q, taken, price) == Times(units, price) - Take(q, units).cost
    decreases |q|
  {
    Slice(units, 0.0, price, 0.0);
    if units <= 0.0 || q == [] {
      taken := Zeros(|q|);
      NoneTaken(q, symbol, price);
    } else {
      var first := if q[0].quantity <= units then q[0].quantity else units;
      var rest;
      if q[0].quantity <= units {
        rest := TakeSplits(q[1..], units - first, symbol, price);
      } else {
        rest := Zeros(|q| - 1);
        NoneTaken(q[1..], symbol, price);
      }
      taken := [first] + rest;
      SplitCons(q, units, first, rest);
      PartsCons(q, first, rest, price);
      TakeCons(q, units, symbol);
      Slice(units, first, price, q[0].costBasis);
      Slice(first, first, price, q[0].costBasis);
      hide IsSplit, Kept, Gains, Times, Take;
    }
  }

  // The first lot's part of a match.
  lemma TakeCons(q: seq<Lot>, units: real, symbol: string)
    requires SoundQueue(q, symbol) && q != [] && units > 0.0
    ensures var first := if q[0].quantity <= units then q[0].quantity else units;
            var left := q[0].quantity - first;
            var t := if q[0].quantity <= units then Take(q[1..], units - first) else Taken(q[1..], 0.0, 0.0, 0.0);
            && Take(q, units).cost == Times(first, q[0].costBasis) + t.cost
            && Take(q, units).rest == (if left <= 0.000000001 then [] else [q[0].(quantity := left)]) + t.rest
  {
  }

  lemma Slice(units: real, first: real, price: real, cost: real)
    ensures Times(first, price - cost) + Times(units - first, price) == Times(units, price) - Times(first, cost)
    ensures Times(0.0, price) == 0.0
  {
  }

  // There is only one.
  lemma {:induction false} SplitUnique(q: seq<Lot>, units: real, one: seq<real>, other: seq<real>)
    requires IsSplit(q, units, one) && IsSplit(q, units, other)
    ensures one == other
    decreases |q|
  {
    if q != [] {
      FirstTaken(q, units, one);
      FirstTaken(q, units, other);
      SplitTail(q, units, one);
      SplitTail(q, units, other);
      SplitUnique(q[1..], units - one[0], one[1..], other[1..]);
      assert one == [one[0]] + one[1..] && other == [other[0]] + other[1..];
    }
  }

  // The oldest lot gives all it has, or all that is asked.
  lemma FirstTaken(q: seq<Lot>, units: real, taken: seq<real>)
    requires q != [] && IsSplit(q, units, taken)
    ensures taken[0] == if units >= q[0].quantity then q[0].quantity else units
  {
    var rest := taken[1..];
    assert forall i | 0 <= i < |rest| :: rest[i] == taken[i + 1];
    SumNonNegative(rest);
    if taken[0] < q[0].quantity {
      assert forall i | 0 <= i < |rest| :: rest[i] == 0.0;
    }
  }

  lemma SplitTail(q: seq<Lot>, units: real, taken: seq<real>)
    requires q != [] && IsSplit(q, units, taken)
    ensures IsSplit(q[1..], units - taken[0], taken[1..])
  {
    var p, rest := q[1..], taken[1..];
    assert forall i | 0 <= i < |p| :: p[i] == q[i + 1] && rest[i] == taken[i + 1];
  }

  // --- One call ---------------------------------------------------------------------

  predicate Asks(t: Trade) {
    Trim(t.symbol) != "" && t.quantity > 0.0 && t.price >= 0.0
  }

  ghost predicate Logs(before: Book, t: Trade, after: Book, res: ApplyResult) {
    && |after.trades| == |before.trades| + 1 && after.trades[..|before.trades|] == before.trades
    && var entry := after.trades[|before.trades|];
       && entry.date == t.date && entry.symbol == Trim(t.symbol) && entry.quantity == t.quantity
       && entry.price == t.price && entry.result == res
       && (entry.side == "BUY" <==> Spells(t.side, "BUY"))
       && (entry.side == "SELL" <==> Spells(t.side, "SELL"))
  }

  // A buy pays and puts one lot behind the symbol's others.
  ghost predicate Buys(before: Book, t: Trade, after: Book, res: ApplyResult) {
    var symbol := Trim(t.symbol);
    && res == ApplyResult(t.quantity, -(t.quantity * t.price), 0.0, false)
    && after.account.cash == before.account.cash - t.quantity * t.price
    && after.account.realizedPnL == before.account.realizedPnL
    && after.account.lots == before.account.lots[symbol :=
         Queue(before.account.lots, symbol) + [Lot(t.date, symbol, t.quantity, t.price)]]
  }

  // A sell of something held fills what it asks or what is held, oldest lots first.
  ghost predicate Sells(before: Book, t: Trade, after: Book, res: ApplyResult, taken: seq<real>) {
    var symbol := Trim(t.symbol);
    var q := Queue(before.account.lots, symbol);
    var held := SumOf(Quantities(q));
    var fill := if t.quantity > held then held else t.quantity;
    && IsSplit(q, fill, taken)
    && res == ApplyResult(fill, Times(fill, t.price), Gains(q, taken, t.price), t.quantity > held)
    && after.account.cash == before.account.cash + Times(fill, t.price)
    && after.account.realizedPnL == before.account.realizedPnL + Gains(q, taken, t.price)
    && after.account.lots == before.account.lots[symbol := Kept(q, taken)]
  }

  // Everything a call does, by its arguments and what was held.
  ghost predicate Answers(before: Book, t: Trade, after: Book, res: ApplyResult) {
    && Logs(before, t, after, res) && after.initial == before.initial
    && if Asks(t) && Spells(t.side, "BUY") then Buys(before, t, after, res)
       else if Asks(t) && Spells(t.side, "SELL") && Queue(before.account.lots, Trim(t.symbol)) != [] then
         exists taken :: Sells(before, t, after, res, taken)
       else
         && after.account == before.account
         && res == ApplyResult(0.0, 0.0, 0.0, Asks(t) && Spells(t.side, "SELL"))
  }

  // So the ledger's step is that, from any ledger with open lots alone.
  lemma StepAnswers(b: Book, t: Trade)
    requires Sound(b.account.lots)
    ensures Answers(b, t, Step(b, t), Outcome(b.account.lots, OrderOf(t)))
  {
    SideExactly(t.side);
    var symbol := Trim(t.symbol);
    var q := Queue(b.account.lots, symbol);
    HeldPositive(q, symbol);
    HeldIsSum(q);
    StepLogs(b, t);
    hide Trim, Norm, Spells, Logs;
    if Asks(t) && Spells(t.side, "SELL") && q != [] {
      SellStep(b, t);
    }
  }

  lemma StepLogs(b: Book, t: Trade)
    ensures Logs(b, t, Step(b, t), Outcome(b.account.lots, OrderOf(t)))
  {
    SideExactly(t.side);
    hide Trim, Norm, Spells, Outcome, Post, Times;
  }

  lemma SellPosts(a: Account, o: Order)
    requires o.kind == Sell && Held(Queue(a.lots, o.symbol)) > 0.0
    ensures var q := Queue(a.lots, o.symbol);
            var fill := if o.quantity > Held(q) then Held(q) else o.quantity;
            var profit := Times(fill, o.price) - Take(q, fill).cost;
            && Outcome(a.lots, o) == ApplyResult(fill, Times(fill, o.price), profit, o.quantity > Held(q))
            && Post(a, o) == Account(a.cash + Times(fill, o.price), a.realizedPnL + profit,
                                     a.lots[o.symbol := Take(q, fill).rest])
  {
    hide Take, Held, Times;
  }

  lemma SellStep(b: Book, t: Trade)
    requires Sound(b.account.lots) && Asks(t) && Spells(t.side, "SELL")
    requires Queue(b.account.lots, Trim(t.symbol)) != []
    ensures exists taken :: Sells(b, t, Step(b, t), Outcome(b.account.lots, OrderOf(t)), taken)
  {
    SideExactly(t.side);
    var symbol := Trim(t.symbol);
    var q := Queue(b.account.lots, symbol);
    HeldPositive(q, symbol);
    HeldIsSum(q);
    var fill := if t.quantity > Held(q) then Held(q) else t.quantity;
    var taken := TakeSplits(q, fill, symbol, t.price);
    SellPosts(b.account, OrderOf(t));
    hide Trim, Norm, Spells, Take, IsSplit, Gains, Kept, SumOf, Quantities, Held, Outcome, Post, Sound, Times;
    assert Sells(b, t, Step(b, t), Outcome(b.account.lots, OrderOf(t)), taken);
  }
}
