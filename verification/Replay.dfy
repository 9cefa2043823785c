// Replaying a ledger's own log.  The log keeps raw quantities and normalised
// strings, so it is a complete record of the run.
module Replay {
  import opened Text
  import opened Lots

  // The arguments a logged call is replayed with.
  function InputOf(t: AppliedTrade): Trade {
    Trade(t.date, t.symbol, t.side, t.quantity, t.price)
  }

  function Inputs(log: seq<AppliedTrade>): seq<Trade> {
    seq(|log|, i requires 0 <= i < |log| => InputOf(log[i]))
  }

  // Logging a trade loses nothing the ledger looks at.
  lemma LoggedSame(t: Trade, res: ApplyResult)
    ensures OrderOf(InputOf(Logged(t, res))) == OrderOf(t)
    ensures forall r :: Logged(InputOf(Logged(t, res)), r) == Logged(t, r)
  {
    TrimFixed(t.symbol);
    NormFixed(t.side);
  }

  lemma {:induction false} LogGrows(b: Book, ts: seq<Trade>)
    ensures |Run(b, ts).trades| == |b.trades| + |ts|
    decreases |ts|
  {
    if ts != [] {
      LogGrows(b, ts[..|ts| - 1]);
    }
  }

  // Replaying the log into a fresh ledger with the same cash reproduces the
  // whole ledger, log included.
  lemma {:induction false} RoundTrip(cash: real, ts: seq<Trade>)
    ensures Run(Fresh(cash), Inputs(Run(Fresh(cash), ts).trades)) == Run(Fresh(cash), ts)
    decreases |ts|
  {
    if ts != [] {
      var past, t := ts[..|ts| - 1], ts[|ts| - 1];
      RoundTrip(cash, past);
      var b := Run(Fresh(cash), past);
      var log := Run(Fresh(cash), ts).trades;
      LoggedSame(t, Outcome(b.account.lots, OrderOf(t)));
      assert Inputs(log)[..|log| - 1] == Inputs(b.trades);
    }
  }

  // Two books that differ in cash only.
  ghost predicate ShiftedBy(a: Book, b: Book, delta: real) {
    && b.account.cash == a.account.cash + delta
    && b.account.realizedPnL == a.account.realizedPnL
    && b.account.lots == a.account.lots
    && b.trades == a.trades
  }

  // The starting cash shifts the balance and nothing else.
  lemma {:induction false} CashShift(cash: real, other: real, ts: seq<Trade>)
    ensures ShiftedBy(Run(Fresh(cash), ts), Run(Fresh(other), ts), other - cash)
    decreases |ts|
  {
    if ts != [] {
      CashShift(cash, other, ts[..|ts| - 1]);
    }
  }

  // So the NAV recompute, which may seed its replay with a different cash,
  // still sees the original run's lots, profit and log.
  lemma ReplayAnywhere(cash: real, other: real, ts: seq<Trade>)
    ensures ShiftedBy(Run(Fresh(cash), ts), Run(Fresh(other), Inputs(Run(Fresh(cash), ts).trades)), other - cash)
  {
    RoundTrip(cash, ts);
    CashShift(cash, other, Inputs(Run(Fresh(cash), ts).trades));
  }

  // --- Which logged calls changed anything ----------------------------------------

  // A call changes the account exactly when it fills something.
  lemma ChangesExactly(a: Account, o: Order)
    requires Sound(a.lots) && o.Valid()
    ensures Post(a, o) != a <==> Outcome(a.lots, o).applied > 0.0
    ensures Outcome(a.lots, o).applied >= 0.0
  {
    var q := Queue(a.lots, o.symbol);
    HeldPositive(q, o.symbol);
    if o.kind == Buy {
      assert |LotsAfter(a.lots, o)[o.symbol]| == |q| + 1;
      assert o.symbol in a.lots ==> a.lots[o.symbol] == q;
    } else if o.kind == Sell && Held(q) > 0.0 {
      TakeConserves(q, FillOf(q, o.quantity), o.symbol);
      assert Held(LotsAfter(a.lots, o)[o.symbol]) < Held(q);
      assert a.lots[o.symbol] == q;
    }
  }

  // So an entry of the log stands for a change exactly when its result filled
  // something; the others are logged all the same.
  lemma LoggedChange(cash: real, past: seq<Trade>, t: Trade)
    ensures var before, after := Run(Fresh(cash), past), Run(Fresh(cash), past + [t]);
            && |after.trades| == |before.trades| + 1
            && (after.account != before.account <==> after.trades[|before.trades|].result.applied > 0.0)
  {
    assert (past + [t])[..|past|] == past;
    RunPosts(Fresh(cash), past);
    OrdersValid(past);
    SoundRun(Opened(cash), Orders(past));
    hide Run, PostAll, Sound, Orders;
    OrdersValid([t]);
    ChangesExactly(Run(Fresh(cash), past).account, OrderOf(t));
  }

  // Such an entry: a sell with nothing held.
  lemma NakedSellIsLogged(cash: real, quantity: real, price: real)
    requires quantity > 0.0 && price >= 0.0
    ensures var t := Trade(0, "X", "SELL", quantity, price);
            Run(Fresh(cash), [t]).account == Fresh(cash).account && |Run(Fresh(cash), [t]).trades| == 1
  {
    var t := Trade(0, "X", "SELL", quantity, price);
    assert [t][..0] == [];
    TrimFixed("X");
    TrimFixed("SELL");
    assert Upper("SELL") == "SELL";
    assert OrderOf(t) == Order(Sell, 0, "X", quantity, price);
    assert Run(Fresh(cash), [t]) == Step(Fresh(cash), t);
  }
}
