// The B-side lot ledger as values: what one trade does to a FIFO queue, to a
// symbol's lots and to the cash balance.  float64 amounts are modelled as reals
// and instants as integer nanoseconds.
module Lots {
  import opened Text

  // Residues at or below this size are dropped from the front of a queue.
  const DUST: real := 0.000000001

  datatype Lot = Lot(openedAt: int, symbol: string, quantity: real, costBasis: real)

  datatype ApplyResult = ApplyResult(applied: real, cashDelta: real, realizedPnL: real, clamped: bool)

  // The arguments of one Apply call.
  datatype Trade = Trade(date: int, symbol: string, side: string, quantity: real, price: real)

  datatype AppliedTrade = AppliedTrade(date: int, symbol: string, side: string, quantity: real, price: real,
                                       result: ApplyResult)

  datatype Kind = Buy | Sell | Ignored

  // A trade once its strings are normalised and its kind is known.
  datatype Order = Order(kind: Kind, date: int, symbol: string, quantity: real, price: real) {
    ghost predicate Valid() {
      kind != Ignored ==> symbol != "" && quantity > 0.0 && price >= 0.0
    }
  }

  const NO_OP := ApplyResult(0.0, 0.0, 0.0, false)

  // The money and the lots of a ledger.
  datatype Account = Account(cash: real, realizedPnL: real, lots: map<string, seq<Lot>>)

  // The abstract value of a ledger object.
  datatype Book = Book(account: Account, initial: real, trades: seq<AppliedTrade>)

  function Opened(initialCash: real): Account {
    Account(initialCash, 0.0, map[])
  }

  function Fresh(initialCash: real): Book {
    Book(Opened(initialCash), initialCash, [])
  }

  function Queue(lots: map<string, seq<Lot>>, symbol: string): seq<Lot> {
    if symbol in lots then lots[symbol] else []
  }

  // Money and unit products, named so that proofs can treat them as one term.
  function Times(a: real, b: real): real {
    a * b
  }

  function Held(q: seq<Lot>): real {
    if q == [] then 0.0 else q[0].quantity + Held(q[1..])
  }

  function Cost(q: seq<Lot>): real {
    if q == [] then 0.0 else Times(q[0].quantity, q[0].costBasis) + Cost(q[1..])
  }

  // A trade the ledger acts on is a BUY or SELL of a named symbol with positive
  // quantity and non-negative price; all else is only logged.
  function KindOf(t: Trade): Kind {
    if Trim(t.symbol) == "" || t.quantity <= 0.0 || t.price < 0.0 then Ignored
    else if Norm(t.side) == "BUY" then Buy
    else if Norm(t.side) == "SELL" then Sell
    else Ignored
  }

  function OrderOf(t: Trade): Order {
    Order(KindOf(t), t.date, Trim(t.symbol), t.quantity, t.price)
  }

  function Orders(ts: seq<Trade>): seq<Order> {
    seq(|ts|, i requires 0 <= i < |ts| => OrderOf(ts[i]))
  }

  // What taking `amount` units from the front of a queue leaves: the rest, the
  // cost of the units taken, and the residue the dust rule threw away.
  datatype Taken = Taken(rest: seq<Lot>, cost: real, dust: real, dustCost: real)

  function Take(q: seq<Lot>, amount: real): Taken {
    if amount <= 0.0 || q == [] then Taken(q, 0.0, 0.0, 0.0)
    else if q[0].quantity <= amount then
      var t := Take(q[1..], amount - q[0].quantity);
      t.(cost := Times(q[0].quantity, q[0].costBasis) + t.cost)
    else
      var left := q[0].quantity - amount;
      if left <= DUST then Taken(q[1..], Times(amount, q[0].costBasis), left, Times(left, q[0].costBasis))
      else Taken([q[0].(quantity := left)] + q[1..], Times(amount, q[0].costBasis), 0.0, 0.0)
  }

  // A SELL is clamped to what is held.
  function FillOf(q: seq<Lot>, quantity: real): real {
    if quantity > Held(q) then Held(q) else quantity
  }

  function SellTaken(q: seq<Lot>, quantity: real): Taken {
    Take(q, FillOf(q, quantity))
  }

  function SellResult(q: seq<Lot>, quantity: real, price: real): ApplyResult {
    if Held(q) <= 0.0 then ApplyResult(0.0, 0.0, 0.0, true)
    else
      var fill := FillOf(q, quantity);
      ApplyResult(fill, Times(fill, price), Times(fill, price) - SellTaken(q, quantity).cost, quantity > Held(q))
  }

  function Outcome(lots: map<string, seq<Lot>>, o: Order): ApplyResult {
    match o.kind
    case Ignored => NO_OP
    case Buy => ApplyResult(o.quantity, -Times(o.quantity, o.price), 0.0, false)
    case Sell => SellResult(Queue(lots, o.symbol), o.quantity, o.price)
  }

  function Bought(o: Order): Lot {
    Lot(o.date, o.symbol, o.quantity, o.price)
  }

  // The queue of the order's own symbol afterwards.
  function QueueAfter(q: seq<Lot>, o: Order): seq<Lot> {
    match o.kind
    case Ignored => q
    case Buy => q + [Bought(o)]
    case Sell => if Held(q) <= 0.0 then q else SellTaken(q, o.quantity).rest
  }

  function LotsAfter(lots: map<string, seq<Lot>>, o: Order): map<string, seq<Lot>> {
    var q := Queue(lots, o.symbol);
    if o.kind == Ignored || (o.kind == Sell && Held(q) <= 0.0) then lots
    else lots[o.symbol := QueueAfter(q, o)]
  }

  function Post(a: Account, o: Order): Account {
    var res := Outcome(a.lots, o);
    Account(a.cash + res.cashDelta, a.realizedPnL + res.realizedPnL, LotsAfter(a.lots, o))
  }

  function PostAll(a: Account, os: seq<Order>): Account {
    if os == [] then a else Post(PostAll(a, os[..|os| - 1]), os[|os| - 1])
  }

  // What Apply appends to the log: the normalised side and symbol, but the raw,
  // unclamped quantity.
  function Logged(t: Trade, res: ApplyResult): AppliedTrade {
    AppliedTrade(t.date, Trim(t.symbol), Norm(t.side), t.quantity, t.price, res)
  }

  // One Apply call.
  function Step(b: Book, t: Trade): Book {
    var o := OrderOf(t);
    b.(account := Post(b.account, o), trades := b.trades + [Logged(t, Outcome(b.account.lots, o))])
  }

  function Run(b: Book, ts: seq<Trade>): Book {
    if ts == [] then b else Step(Run(b, ts[..|ts| - 1]), ts[|ts| - 1])
  }

  // Every lot is open, was bought at a non-negative price and sits in its own
  // symbol's queue.
  ghost predicate SoundQueue(q: seq<Lot>, symbol: string) {
    forall i | 0 <= i < |q| :: q[i].quantity > 0.0 && q[i].costBasis >= 0.0 && q[i].symbol == symbol
  }

  ghost predicate Sound(lots: map<string, seq<Lot>>) {
    forall s | s in lots :: SoundQueue(lots[s], s)
  }

  lemma {:induction false} HeldAppend(q: seq<Lot>, r: seq<Lot>)
    ensures Held(q + r) == Held(q) + Held(r)
    ensures Cost(q + r) == Cost(q) + Cost(r)
    decreases |q|
  {
    if q == [] {
      assert q + r == r;
    } else {
      assert (q + r)[1..] == q[1..] + r;
      HeldAppend(q[1..], r);
    }
  }

  // One more lot, as a loop over a queue sees it.
  lemma HeldSnoc(q: seq<Lot>, i: nat)
    requires i < |q|
    ensures Held(q[..i + 1]) == Held(q[..i]) + q[i].quantity
    ensures Cost(q[..i + 1]) == Cost(q[..i]) + Times(q[i].quantity, q[i].costBasis)
  {
    assert q[..i + 1] == q[..i] + [q[i]];
    HeldAppend(q[..i], [q[i]]);
    assert Held([q[i]]) == q[i].quantity;
    assert Cost([q[i]]) == Times(q[i].quantity, q[i].costBasis);
  }

  lemma {:induction false} HeldPositive(q: seq<Lot>, symbol: string)
    requires SoundQueue(q, symbol)
    ensures Held(q) >= 0.0
    ensures q != [] ==> Held(q) > 0.0
    decreases |q|
  {
    if q != [] {
      HeldPositive(q[1..], symbol);
    }
  }

  // Taking conserves units and cost, up to the residue, which lies in [0, DUST].
  lemma {:induction false} TakeConserves(q: seq<Lot>, amount: real, symbol: string)
    requires SoundQueue(q, symbol)
    requires 0.0 <= amount <= Held(q)
    ensures var t := Take(q, amount);
            && SoundQueue(t.rest, symbol)
            && Held(q) == amount + Held(t.rest) + t.dust
            && Cost(q) == t.cost + Cost(t.rest) + t.dustCost
            && 0.0 <= t.dust <= DUST
    decreases |q|
  {
    if amount <= 0.0 || q == [] {
    } else if q[0].quantity <= amount {
      TakeConserves(q[1..], amount - q[0].quantity, symbol);
    } else {
      var left := q[0].quantity - amount;
      assert Times(left, q[0].costBasis) + Times(amount, q[0].costBasis) == Times(q[0].quantity, q[0].costBasis);
    }
  }

  lemma QueueOfAfter(lots: map<string, seq<Lot>>, o: Order, symbol: string)
    ensures Queue(LotsAfter(lots, o), symbol)
         == if symbol == o.symbol then QueueAfter(Queue(lots, symbol), o) else Queue(lots, symbol)
  {
  }

  lemma SoundAfter(q: seq<Lot>, o: Order)
    requires SoundQueue(q, o.symbol) && o.Valid()
    ensures SoundQueue(QueueAfter(q, o), o.symbol)
  {
    HeldPositive(q, o.symbol);
    if o.kind == Sell && Held(q) > 0.0 {
      TakeConserves(q, FillOf(q, o.quantity), o.symbol);
    }
  }

  lemma SoundStep(lots: map<string, seq<Lot>>, o: Order)
    requires Sound(lots) && o.Valid()
    ensures Sound(LotsAfter(lots, o))
  {
    SoundAfter(Queue(lots, o.symbol), o);
  }

  ghost predicate AllValid(os: seq<Order>) {
    forall i | 0 <= i < |os| :: os[i].Valid()
  }

  lemma OrdersValid(ts: seq<Trade>)
    ensures AllValid(Orders(ts))
  {
  }

  lemma {:induction false} SoundRun(a: Account, os: seq<Order>)
    requires Sound(a.lots) && AllValid(os)
    ensures Sound(PostAll(a, os).lots)
    decreases |os|
  {
    if os != [] {
      SoundRun(a, os[..|os| - 1]);
      SoundStep(PostAll(a, os[..|os| - 1]).lots, os[|os| - 1]);
    }
  }

  // The money and lots of a run depend on the orders alone.
  lemma {:induction false} RunPosts(b: Book, ts: seq<Trade>)
    ensures Run(b, ts).account == PostAll(b.account, Orders(ts))
    ensures Run(b, ts).initial == b.initial
    decreases |ts|
  {
    if ts != [] {
      RunPosts(b, ts[..|ts| - 1]);
      assert Orders(ts)[..|ts| - 1] == Orders(ts[..|ts| - 1]);
    }
  }

  lemma {:induction false} PostAppend(a: Account, xs: seq<Order>, ys: seq<Order>)
    ensures PostAll(a, xs + ys) == PostAll(PostAll(a, xs), ys)
    decreases |ys|
  {
    if ys == [] {
      assert xs + ys == xs;
    } else {
      var zs := xs + ys;
      assert zs[..|zs| - 1] == xs + ys[..|ys| - 1];
      PostAppend(a, xs, ys[..|ys| - 1]);
    }
  }
}
