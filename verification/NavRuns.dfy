// What NAV series mean for whole shadow runs: scaling, price moves, and when the
// average-cost fallback can fire.
module NavRuns {
  import opened Lots
  import opened LotLedger
  import opened Prices
  import opened Replay
  import opened NavReplay
  import opened NavLaws
  import opened Accounting
  import opened Scaling
  import opened Decisions
  import opened Sums
  import opened Valuation
  import opened FifoRuns

  // Every open queue is worth listing as a position.
  ghost predicate Clear(lots: map<string, seq<Lot>>) {
    forall s | s in lots :: lots[s] == [] || Held(lots[s]) > DUST
  }

  ghost function Marks(quotes: Quotes, lots: map<string, seq<Lot>>, date: int): string -> real {
    s => Mark(quotes, lots, s, date)
  }

  // Then assets are cash plus every holding at its mark.
  lemma AssetsAreWealth(quotes: Quotes, a: Account, date: int)
    requires Clear(a.lots)
    ensures Assets(quotes, a, date) == Wealth(a, Marks(quotes, a.lots, date))
  {
    var mark := Marks(quotes, a.lots, date);
    var f := s => Valued(quotes, a.lots, s, date);
    var g := s => Worth(a.lots, s, mark);
    var keys := Positions(a.lots).Keys;
    forall s | s in a.lots.Keys - keys ensures g(s) == 0.0 {
      assert a.lots[s] == [];
    }
    SumWiden(keys, a.lots.Keys, g);
    SumSame(keys, f, g);
    SumSame(keys, f, s => Valued(quotes, a.lots, s, date));
    SumSame(a.lots.Keys, g, s => Worth(a.lots, s, mark));
  }

  // --- Profit between bars ---------------------------------------------------

  // The orders replayed between two bars.
  function Between(history: seq<AppliedTrade>, bars: seq<Bar>, i: nat): seq<Order>
    requires i + 1 < |bars|
  {
    CursorGrows(history, bars, i);
    Orders(Inputs(history[CursorAt(history, bars, i + 1)..CursorAt(history, bars, i + 2)]))
  }

  lemma CursorGrows(history: seq<AppliedTrade>, bars: seq<Bar>, i: nat)
    requires i + 1 < |bars|
    ensures CursorAt(history, bars, i + 1) <= CursorAt(history, bars, i + 2) <= |history|
  {
    CutWithin(history, Horizon(bars, i));
    CutWithin(history, Horizon(bars, i + 1));
  }

  lemma AccountsChain(history: seq<AppliedTrade>, bars: seq<Bar>, capital: real, i: nat)
    requires i + 1 < |bars|
    ensures AccountAt(history, bars, capital, i + 1)
         == PostAll(AccountAt(history, bars, capital, i), Between(history, bars, i))
  {
    CursorGrows(history, bars, i);
    var m, n := CursorAt(history, bars, i + 1), CursorAt(history, bars, i + 2);
    assert history[..n] == history[..m] + history[m..n];
    assert Orders(Inputs(history[..n])) == Orders(Inputs(history[..m])) + Between(history, bars, i);
    PostAppend(Opened(capital), Orders(Inputs(history[..m])), Between(history, bars, i));
  }

  // When every trade of a bar is made at that bar's marks, total assets move by
  // the price moves on what was held before, less the dust dropped.
  lemma RowProfitIsPriceMoves(history: seq<AppliedTrade>, bars: seq<Bar>, quotes: Quotes, capital: real, i: nat)
    requires i + 1 < |bars|
    requires var a, b := AccountAt(history, bars, capital, i), AccountAt(history, bars, capital, i + 1);
             && Clear(a.lots) && Clear(b.lots)
             && AtMarks(Between(history, bars, i), Marks(quotes, b.lots, bars[i + 1].tradingDate))
    ensures var a, b := AccountAt(history, bars, capital, i), AccountAt(history, bars, capital, i + 1);
            var before := Marks(quotes, a.lots, bars[i].tradingDate);
            var after := Marks(quotes, b.lots, bars[i + 1].tradingDate);
            AssetsAt(history, bars, quotes, capital, i + 1) - AssetsAt(history, bars, quotes, capital, i)
            == Sum(a.lots.Keys, s => Worth(a.lots, s, (r => after(r) - before(r))))
               - DustValue(a, Between(history, bars, i), after)
  {
    var a, b := AccountAt(history, bars, capital, i), AccountAt(history, bars, capital, i + 1);
    AccountsChain(history, bars, capital, i);
    OrdersValid(Inputs(history[..CursorAt(history, bars, i + 1)]));
    SoundRun(Opened(capital), Orders(Inputs(history[..CursorAt(history, bars, i + 1)])));
    CursorGrows(history, bars, i);
    OrdersValid(Inputs(history[CursorAt(history, bars, i + 1)..CursorAt(history, bars, i + 2)]));
    AssetsAreWealth(quotes, a, bars[i].tradingDate);
    AssetsAreWealth(quotes, b, bars[i + 1].tradingDate);
    ProfitIsPriceMoves(a, Between(history, bars, i), Marks(quotes, a.lots, bars[i].tradingDate),
                       Marks(quotes, b.lots, bars[i + 1].tradingDate));
  }

  // --- Scaling ---------------------------------------------------------------

  lemma HoldingsScale(quotes: Quotes, lots: map<string, seq<Lot>>, date: int, k: real)
    requires k > 0.0 && Clear(lots) && Clear(ScaleLots(lots, k))
    ensures Holdings(quotes, ScaleLots(lots, k), date) == Times(k, Holdings(quotes, lots, date))
  {
    var scaled := ScaleLots(lots, k);
    var f := s => Valued(quotes, lots, s, date);
    var g := s => Valued(quotes, scaled, s, date);
    PositionsScale(lots, k);
    var keys := Positions(lots).Keys;
    forall s | s in keys ensures g(s) == Times(k, f(s)) {
      HeldScales(lots[s], k);
      ValuedScales(quotes, lots, s, date, k);
    }
    SumScale(keys, f, g, k);
    SumSame(keys, f, s => Valued(quotes, lots, s, date));
    SumSame(keys, g, s => Valued(quotes, scaled, s, date));
  }

  lemma PositionsScale(lots: map<string, seq<Lot>>, k: real)
    requires k > 0.0 && Clear(lots) && Clear(ScaleLots(lots, k))
    ensures Positions(ScaleLots(lots, k)).Keys == Positions(lots).Keys
    ensures forall s | s in Positions(lots) :: Held(lots[s]) > DUST && Held(ScaleLots(lots, k)[s]) > DUST
  {
  }

  lemma ValuedScales(quotes: Quotes, lots: map<string, seq<Lot>>, s: string, date: int, k: real)
    requires k > 0.0 && s in lots && Held(lots[s]) > DUST && Held(ScaleLots(lots, k)[s]) > DUST
    ensures Valued(quotes, ScaleLots(lots, k), s, date) == Times(k, Valued(quotes, lots, s, date))
  {
    var q := lots[s];
    HeldScales(q, k);
    TimesLaws(k, Held(q), Mark(quotes, lots, s, date));
    if PriceOn(quotes, s, date).None? {
      RatioScales(Cost(q), Held(q), k);
    }
  }

  lemma RatioScales(a: real, b: real, k: real)
    requires k > 0.0 && b > 0.0
    ensures Times(k, b) > 0.0 && Times(k, a) / Times(k, b) == a / b
  {
    var ratio := a / b;
    assert a == ratio * b;
    assert k * a == ratio * (k * b);
  }

  // Two logs of the same calls, the second k times as large.
  ghost predicate ScaledLog(one: seq<AppliedTrade>, many: seq<AppliedTrade>, k: real) {
    Orders(Inputs(many)) == ScaleOrders(Orders(Inputs(one)), k)
  }

  lemma ScaledLogSame(one: seq<AppliedTrade>, many: seq<AppliedTrade>, k: real, n: nat)
    requires ScaledLog(one, many, k)
    ensures |one| == |many|
    ensures forall i | 0 <= i < |one| :: one[i].date == many[i].date
    ensures n <= |one| ==> ScaledLog(one[..n], many[..n], k)
  {
    var xs, ys := Orders(Inputs(one)), Orders(Inputs(many));
    assert |xs| == |ys|;
    forall i | 0 <= i < |one| ensures one[i].date == many[i].date {
      assert ys[i] == ScaleOrder(xs[i], k);
    }
    if n <= |one| {
      assert Orders(Inputs(many[..n])) == ys[..n];
      assert ScaleOrders(Orders(Inputs(one[..n])), k) == ScaleOrders(xs, k)[..n];
    }
  }

  lemma {:induction false} CutSame(one: seq<AppliedTrade>, many: seq<AppliedTrade>, day: int)
    requires |one| == |many| && forall i | 0 <= i < |one| :: one[i].date == many[i].date
    ensures Cut(one, day) == Cut(many, day)
  {
    CutWithin(one, day);
    CutUnique(many, day, Cut(one, day));
  }

  // Nothing the row has replayed dropped any dust.
  ghost predicate DustFreeAt(history: seq<AppliedTrade>, bars: seq<Bar>, capital: real, i: nat)
    requires i < |bars|
  {
    DustFree(Opened(capital), Orders(Inputs(history[..CursorAt(history, bars, i + 1)])))
  }

  // The gain over the starting capital is k times as large at every bar ...
  lemma AssetsScale(one: seq<AppliedTrade>, many: seq<AppliedTrade>, bars: seq<Bar>, quotes: Quotes,
                    capital: real, k: real, i: nat)
    requires k > 0.0 && i < |bars| && ScaledLog(one, many, k)
    requires DustFreeAt(one, bars, capital, i) && DustFreeAt(many, bars, capital, i)
    requires Clear(AccountAt(one, bars, capital, i).lots) && Clear(AccountAt(many, bars, capital, i).lots)
    ensures AssetsAt(many, bars, quotes, capital, i) - capital
         == Times(k, AssetsAt(one, bars, quotes, capital, i) - capital)
  {
    hide IsScaled, DustFree, Assets, Clear, PostAll, ScaleOrders, Orders, Inputs, Times;
    var n := Cut(one, Horizon(bars, i));
    CutWithin(one, Horizon(bars, i));
    ScaledLogSame(one, many, k, n);
    CutSame(one, many, Horizon(bars, i));
    RunScales(capital, Orders(Inputs(one[..n])), k);
    ScaledAssets(AccountAt(one, bars, capital, i), AccountAt(many, bars, capital, i), quotes, bars[i].tradingDate,
                 capital, k);
  }

  lemma ScaledAssets(a: Account, b: Account, quotes: Quotes, date: int, capital: real, k: real)
    requires k > 0.0 && IsScaled(a, b, capital, k) && Clear(a.lots) && Clear(b.lots)
    ensures Assets(quotes, b, date) - capital == Times(k, Assets(quotes, a, date) - capital)
  {
    HoldingsScale(quotes, a.lots, date, k);
    TimesLaws(k, a.cash - capital, Holdings(quotes, a.lots, date));
  }

  // ... and so is the cumulative return, on every bar neither run is floored at.
  lemma ReturnsScale(baseline: real, capital: real, one: real, many: real, k: real)
    requires baseline > 0.0 && capital > 0.0 && k > 0.0 && one > 0.0 && many > 0.0
    requires many - capital == Times(k, one - capital)
    ensures Return(NavIndex(baseline, capital, many), baseline)
         == Times(k, Return(NavIndex(baseline, capital, one), baseline))
  {
    UnflooredReturn(baseline, capital, one);
    UnflooredReturn(baseline, capital, many);
    ScaledRatio(one, many, capital, k);
  }

  lemma ScaledRatio(one: real, many: real, capital: real, k: real)
    requires capital > 0.0 && many - capital == Times(k, one - capital)
    ensures many / capital - 1.0 == Times(k, one / capital - 1.0)
  {
    var x := one / capital;
    assert one == x * capital;
    assert k * (x * capital - capital) == (k * (x - 1.0)) * capital;
    var y := k * (x - 1.0) + 1.0;
    assert many == y * capital;
    RatioAgainst(many, capital, y);
  }

  lemma UnflooredReturn(baseline: real, capital: real, assets: real)
    requires baseline > 0.0 && capital > 0.0 && assets > 0.0
    ensures Return(NavIndex(baseline, capital, assets), baseline) == assets / capital - 1.0
  {
    var share := assets / capital;
    RatioAgainst(assets, capital, 0.0);
    TimesLaws(baseline, 0.0, share);
    assert (baseline * share) / baseline == share;
  }

  // The log of a run carries the run's own orders.
  lemma {:induction false} LogOrders(cash: real, ts: seq<Trade>)
    ensures Orders(Inputs(Run(Fresh(cash), ts).trades)) == Orders(ts)
    decreases |ts|
  {
    hide *;
    if ts == [] {
      NothingLogged(cash);
    } else {
      LastLogged(cash, ts);
      var past, t := ts[..|ts| - 1], ts[|ts| - 1];
      var b := Run(Fresh(cash), past);
      var res := Outcome(b.account.lots, OrderOf(t));
      LogOrders(cash, past);
      LoggedSame(t, res);
      OrdersSnoc(b.trades, Logged(t, res), past, t);
      assert ts == past + [t];
    }
  }

  lemma NothingLogged(cash: real)
    ensures Orders(Inputs(Run(Fresh(cash), []).trades)) == Orders([])
  {
  }

  lemma LastLogged(cash: real, ts: seq<Trade>)
    requires ts != []
    ensures var past, t := ts[..|ts| - 1], ts[|ts| - 1];
            var b := Run(Fresh(cash), past);
            Run(Fresh(cash), ts).trades == b.trades + [Logged(t, Outcome(b.account.lots, OrderOf(t)))]
  {
    hide Post, Outcome, OrderOf, Logged;
  }

  lemma OrdersSnoc(log: seq<AppliedTrade>, last: AppliedTrade, past: seq<Trade>, t: Trade)
    ensures Orders(Inputs(log + [last])) == Orders(Inputs(log)) + [OrderOf(InputOf(last))]
    ensures Orders(past + [t]) == Orders(past) + [OrderOf(t)]
  {
    hide OrderOf, InputOf;
    assert Inputs(log + [last]) == Inputs(log) + [InputOf(last)];
  }

  // The NAV index return of row i.
  ghost function ReturnAt(history: seq<AppliedTrade>, bars: seq<Bar>, quotes: Quotes, capital: real, i: nat): real
    requires i < |bars| && capital > 0.0
  {
    Return(NavIndex(Baseline(bars), capital, AssetsAt(history, bars, quotes, capital, i)), Baseline(bars))
  }

  // Neither floored, nor holding a position too small to list, nor with dust dropped
  // so far.
  ghost predicate Plain(history: seq<AppliedTrade>, bars: seq<Bar>, quotes: Quotes, capital: real, i: nat)
    requires i < |bars|
  {
    && DustFreeAt(history, bars, capital, i)
    && Clear(AccountAt(history, bars, capital, i).lots)
    && AssetsAt(history, bars, quotes, capital, i) > 0.0
  }

  lemma LogReturnsScale(one: seq<AppliedTrade>, many: seq<AppliedTrade>, bars: seq<Bar>, quotes: Quotes,
                        capital: real, k: real, i: nat)
    requires k > 0.0 && i < |bars| && capital > 0.0 && ScaledLog(one, many, k)
    requires Plain(one, bars, quotes, capital, i) && Plain(many, bars, quotes, capital, i)
    ensures ReturnAt(many, bars, quotes, capital, i) == Times(k, ReturnAt(one, bars, quotes, capital, i))
  {
    hide DustFreeAt, Clear, AccountAt, AssetsAt, ScaledLog, NavIndex, Return, Times;
    AssetsScale(one, many, bars, quotes, capital, k, i);
    ReturnsScale(Baseline(bars), capital, AssetsAt(one, bars, quotes, capital, i),
                 AssetsAt(many, bars, quotes, capital, i), k);
  }

  // The log of the deterministic shadow of a control run.
  function ShadowLog(ts: seq<Trade>, scale: real, cash: real): seq<AppliedTrade> {
    Run(Fresh(cash), Shadow(ts, Constant(|ts|, scale))).trades
  }

  // The deterministic shadow at scale k earns k times the return of the one at
  // scale 1, on every plain row.
  lemma ShadowReturnsScale(ts: seq<Trade>, cash: real, bars: seq<Bar>, quotes: Quotes, capital: real, k: real, i: nat)
    requires k > 0.0 && i < |bars| && capital > 0.0
    requires Plain(ShadowLog(ts, 1.0, cash), bars, quotes, capital, i)
    requires Plain(ShadowLog(ts, k, cash), bars, quotes, capital, i)
    ensures ReturnAt(ShadowLog(ts, k, cash), bars, quotes, capital, i)
         == Times(k, ReturnAt(ShadowLog(ts, 1.0, cash), bars, quotes, capital, i))
  {
    hide Plain, ReturnAt, ScaleOrders;
    LogOrders(cash, Shadow(ts, Constant(|ts|, 1.0)));
    LogOrders(cash, Shadow(ts, Constant(|ts|, k)));
    ShadowScales(ts, k);
    LogReturnsScale(ShadowLog(ts, 1.0, cash), ShadowLog(ts, k, cash), bars, quotes, capital, k, i);
  }

  // --- The average-cost fallback --------------------------------------------

  // Some observation of the symbol on the given instant.
  ghost predicate Observed(quotes: Quotes, symbol: string, date: int) {
    exists k | 0 <= k < |Series(quotes, symbol)| :: Series(quotes, symbol)[k].date == date
  }

  // Every buy of the log was observed when it was made.
  ghost predicate Covers(quotes: Quotes, os: seq<Order>) {
    forall i | 0 <= i < |os| :: os[i].kind == Buy ==> Observed(quotes, os[i].symbol, os[i].date)
  }

  lemma {:induction false} BuysComeFromOrders(os: seq<Order>, symbol: string) returns (i: nat)
    requires Buys(os, symbol) != []
    ensures i < |os| && os[i].kind == Buy && os[i].symbol == symbol
    decreases |os|
  {
    var last := os[|os| - 1];
    if last.kind == Buy && last.symbol == symbol {
      i := |os| - 1;
    } else {
      i := BuysComeFromOrders(os[..|os| - 1], symbol);
    }
  }

  // The fallback fires exactly when every observation the bisection looks at on its
  // way to the front of the symbol's series is late, whatever order they came in.
  lemma FallsBackExactly(quotes: Quotes, symbol: string, date: int)
    ensures PriceOn(quotes, symbol, date).None? <==>
              var s := Series(quotes, symbol); HalvesLate(s, DayEnd(date), |s|)
  {
    NothingFound(Series(quotes, symbol), DayEnd(date), |Series(quotes, symbol)|);
  }

  // A symbol held on a bar was bought, and so observed, on or before its day.
  lemma HeldWasObserved(history: seq<AppliedTrade>, bars: seq<Bar>, quotes: Quotes, capital: real, i: nat,
                        symbol: string) returns (k: nat)
    requires i < |bars| && SortedBars(bars)
    requires Covers(quotes, Orders(Inputs(history)))
    requires Queue(AccountAt(history, bars, capital, i).lots, symbol) != []
    ensures k < |Series(quotes, symbol)| && Series(quotes, symbol)[k].date <= DayEnd(bars[i].tradingDate)
  {
    HorizonSorted(bars, i);
    var day := Horizon(bars, i);
    CutWithin(history, day);
    var os := Orders(Inputs(history[..Cut(history, day)]));
    OrdersValid(Inputs(history[..Cut(history, day)]));
    QueueIsLeftover(capital, os, symbol);
    var j := BuysComeFromOrders(os, symbol);
    assert os[j] == Orders(Inputs(history))[j];
    var series := Series(quotes, symbol);
    k :| 0 <= k < |series| && series[k].date == os[j].date;
    DayBoundary(series[k].date, bars[i].tradingDate);
  }

  // If every buy was observed and the symbol's prices were added in date order, a
  // held symbol has a price and it is the most recent one: the fallback never fires.
  lemma FallbackNeverFires(history: seq<AppliedTrade>, bars: seq<Bar>, quotes: Quotes, capital: real, i: nat,
                           symbol: string)
    requires i < |bars| && SortedBars(bars)
    requires Covers(quotes, Orders(Inputs(history))) && Ordered(Series(quotes, symbol))
    requires Queue(AccountAt(history, bars, capital, i).lots, symbol) != []
    ensures PriceOn(quotes, symbol, bars[i].tradingDate).Some?
    ensures var s, limit := Series(quotes, symbol), DayEnd(bars[i].tradingDate);
            Latest(s, limit, Bisect(s, limit, 0, |s|) - 1)
  {
    var k := HeldWasObserved(history, bars, quotes, capital, i, symbol);
    OrderedFindsLatest(Series(quotes, symbol), DayEnd(bars[i].tradingDate));
  }

  // --- Rows before the first trade of the log ------------------------------------

  // Such a row shows the capital untouched: its NAV is the baseline.
  lemma EarlyRowIsFlat(history: seq<AppliedTrade>, bars: seq<Bar>, quotes: Quotes, baseline: real, capital: real,
                       i: nat)
    requires i < |bars| && baseline > 0.0 && capital > 0.0
    requires history == [] || Horizon(bars, i) < DayOf(history[0].date)
    ensures AccountAt(history, bars, capital, i) == Opened(capital)
    ensures AssetsAt(history, bars, quotes, capital, i) == capital
    ensures NavIndex(baseline, capital, AssetsAt(history, bars, quotes, capital, i)) == baseline
  {
    assert history[..0] == [];
    var a := AccountAt(history, bars, capital, i);
    assert a == Opened(capital);
    assert Positions(a.lots).Keys == {};
    assert capital / capital == 1.0 && Times(baseline, 1.0) == baseline;
  }
}
