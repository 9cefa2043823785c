// Recomputing B's NAV series: a cursor walks the trade log once while a replay
// ledger follows it, one row per control NAV bar.  The specification replays
// from scratch for every row.
module NavReplay {
  import opened Lots
  import opened LotLedger
  import opened Prices
  import opened Replay
  import opened Sums
  import opened Valuation

  // The control fund's NAV bar, as far as the recompute reads it.
  datatype Bar = Bar(tradingDate: int, nav: real)

  datatype Row = Row(tradingDate: int, nav: real, totalAssets: real, cash: real,
                     dailyReturn: real, cumulativeReturn: real, drawdown: real)

  function Baseline(bars: seq<Bar>): real
    requires bars != []
  {
    if bars[0].nav <= 0.0 then 1.0 else bars[0].nav
  }

  function Capital(bars: seq<Bar>, initialCash: real): real
    requires bars != []
  {
    if initialCash <= 0.0 then Baseline(bars) else initialCash
  }

  // The latest day among the bars up to and including the i-th.
  function Horizon(bars: seq<Bar>, i: nat): int
    requires i < |bars|
  {
    var day := DayOf(bars[i].tradingDate);
    if i == 0 || Horizon(bars, i - 1) < day then day else Horizon(bars, i - 1)
  }

  // How many trades of the log precede the first one after `day`.
  function Cut(history: seq<AppliedTrade>, day: int): nat {
    if history == [] || DayOf(history[0].date) > day then 0 else 1 + Cut(history[1..], day)
  }

  // A fresh ledger's account after the given trades.
  function AccountOf(capital: real, log: seq<AppliedTrade>): Account {
    PostAll(Opened(capital), Orders(Inputs(log)))
  }

  // The account behind row i, from scratch.
  function AccountAt(history: seq<AppliedTrade>, bars: seq<Bar>, capital: real, i: nat): Account
    requires i < |bars|
  {
    CutWithin(history, Horizon(bars, i));
    AccountOf(capital, history[..Cut(history, Horizon(bars, i))])
  }

  // The NAV index of the given assets, floored when it is not positive.
  function NavIndex(baseline: real, capital: real, assets: real): real
    requires capital > 0.0
  {
    var nav := Times(baseline, assets / capital);
    if nav <= 0.0 then baseline / 100.0 else nav
  }

  function PeakOf(baseline: real, navs: seq<real>): real {
    if navs == [] then baseline else
      var peak, nav := PeakOf(baseline, navs[..|navs| - 1]), navs[|navs| - 1];
      if nav > peak then nav else peak
  }

  // B's assets at bar i, from scratch.
  ghost function AssetsAt(history: seq<AppliedTrade>, bars: seq<Bar>, quotes: Quotes, capital: real, i: nat): real
    requires i < |bars|
  {
    Assets(quotes, AccountAt(history, bars, capital, i), bars[i].tradingDate)
  }

  function Return(now: real, before: real): real
    requires before > 0.0
  {
    now / before - 1.0
  }

  function NavsOf(rows: seq<Row>): seq<real> {
    seq(|rows|, i requires 0 <= i < |rows| => rows[i].nav)
  }

  // The money columns of a row are those of the from-scratch replay.
  ghost predicate Replayed(row: Row, history: seq<AppliedTrade>, bars: seq<Bar>, quotes: Quotes, capital: real, i: nat)
    requires i < |bars|
  {
    && row.tradingDate == bars[i].tradingDate
    && row.cash == AccountAt(history, bars, capital, i).cash
    && row.totalAssets == AssetsAt(history, bars, quotes, capital, i)
  }

  // The index columns of a row, given the NAVs of the rows before it.
  ghost predicate Indexed(row: Row, before: seq<real>, baseline: real, capital: real) {
    var peak := PeakOf(baseline, before + [row.nav]);
    var prev := if before == [] then baseline else before[|before| - 1];
    && capital > 0.0 && baseline > 0.0 && peak > 0.0 && prev > 0.0
    && row.nav == NavIndex(baseline, capital, row.totalAssets)
    && row.drawdown == Return(row.nav, peak)
    && row.cumulativeReturn == Return(row.nav, baseline)
    && row.dailyReturn == if before == [] then 0.0 else Return(row.nav, prev)
  }

  // A whole NAV series.
  ghost predicate IsSeries(rows: seq<Row>, baseline: real, capital: real) {
    forall i | 0 <= i < |rows| :: Indexed(rows[i], NavsOf(rows[..i]), baseline, capital)
  }

  // The series so far, its running peak and its last NAV.
  ghost predicate Running(rows: seq<Row>, baseline: real, capital: real, peak: real, prevNav: real) {
    var navs := NavsOf(rows);
    && baseline > 0.0 && capital > 0.0 && peak > 0.0 && prevNav > 0.0
    && IsSeries(rows, baseline, capital)
    && peak == PeakOf(baseline, navs)
    && prevNav == if rows == [] then baseline else rows[|rows| - 1].nav
  }

  ghost predicate AllReplayed(rows: seq<Row>, history: seq<AppliedTrade>, bars: seq<Bar>, quotes: Quotes, capital: real)
    requires |rows| <= |bars|
  {
    forall i | 0 <= i < |rows| :: Replayed(rows[i], history, bars, quotes, capital, i)
  }

  // Where the cursor stands before bar i.
  function CursorAt(history: seq<AppliedTrade>, bars: seq<Bar>, i: nat): (n: nat)
    requires i <= |bars|
    ensures n <= |history|
  {
    if i == 0 then 0 else
      CutWithin(history, Horizon(bars, i - 1));
      Cut(history, Horizon(bars, i - 1))
  }

  lemma {:induction false} CutWithin(history: seq<AppliedTrade>, day: int)
    ensures Cut(history, day) <= |history|
    ensures forall k | 0 <= k < Cut(history, day) :: DayOf(history[k].date) <= day
    ensures Cut(history, day) < |history| ==> DayOf(history[Cut(history, day)].date) > day
    decreases |history|
  {
    if history != [] && DayOf(history[0].date) <= day {
      CutWithin(history[1..], day);
      forall k | 0 <= k < Cut(history, day) ensures DayOf(history[k].date) <= day {
        if k > 0 {
          assert history[k] == history[1..][k - 1];
        }
      }
    }
  }

  lemma CutUnique(history: seq<AppliedTrade>, day: int, n: nat)
    requires n <= |history|
    requires forall k | 0 <= k < n :: DayOf(history[k].date) <= day
    requires n < |history| ==> DayOf(history[n].date) > day
    ensures n == Cut(history, day)
  {
    CutWithin(history, day);
  }

  lemma NavIndexPositive(baseline: real, capital: real, assets: real)
    requires baseline > 0.0 && capital > 0.0
    ensures NavIndex(baseline, capital, assets) > 0.0
  {
  }

  lemma {:induction false} PeakBounds(baseline: real, navs: seq<real>)
    ensures PeakOf(baseline, navs) >= baseline
    ensures forall k | 0 <= k < |navs| :: navs[k] <= PeakOf(baseline, navs)
    ensures PeakOf(baseline, navs) == baseline || PeakOf(baseline, navs) in navs
    decreases |navs|
  {
    if navs != [] {
      PeakBounds(baseline, navs[..|navs| - 1]);
    }
  }

  // The walking cursor stops where the from-scratch cut is.
  lemma CursorMoves(history: seq<AppliedTrade>, bars: seq<Bar>, i: nat, start: nat, stop: nat)
    requires i < |bars| && start <= stop <= |history|
    requires start == CursorAt(history, bars, i)
    requires forall k | start <= k < stop :: DayOf(history[k].date) <= DayOf(bars[i].tradingDate)
    requires stop < |history| ==> DayOf(history[stop].date) > DayOf(bars[i].tradingDate)
    ensures stop == CursorAt(history, bars, i + 1)
  {
    if i > 0 {
      CutWithin(history, Horizon(bars, i - 1));
    }
    CutUnique(history, Horizon(bars, i), stop);
  }

  lemma SeriesSnoc(rows: seq<Row>, row: Row, baseline: real, capital: real)
    requires IsSeries(rows, baseline, capital) && Indexed(row, NavsOf(rows), baseline, capital)
    ensures IsSeries(rows + [row], baseline, capital)
    ensures NavsOf(rows + [row]) == NavsOf(rows) + [row.nav]
  {
    var all := rows + [row];
    forall i | 0 <= i < |all| ensures Indexed(all[i], NavsOf(all[..i]), baseline, capital) {
      if i < |rows| {
        assert all[..i] == rows[..i];
      } else {
        assert all[..i] == rows;
      }
    }
  }

  lemma RunningStart(baseline: real, capital: real)
    requires baseline > 0.0 && capital > 0.0
    ensures Running([], baseline, capital, baseline, baseline)
  {
  }

  lemma RunningSeries(rows: seq<Row>, baseline: real, capital: real, peak: real, prevNav: real)
    requires Running(rows, baseline, capital, peak, prevNav)
    ensures IsSeries(rows, baseline, capital)
  {
  }

  lemma ReplayedSnoc(rows: seq<Row>, row: Row, history: seq<AppliedTrade>, bars: seq<Bar>, quotes: Quotes,
                     capital: real)
    requires |rows| < |bars| && AllReplayed(rows, history, bars, quotes, capital)
    requires Replayed(row, history, bars, quotes, capital, |rows|)
    ensures AllReplayed(rows + [row], history, bars, quotes, capital)
  {
  }

  // One more replayed trade.
  lemma AccountSnoc(capital: real, history: seq<AppliedTrade>, n: nat)
    requires n < |history|
    ensures AccountOf(capital, history[..n + 1]) == Post(AccountOf(capital, history[..n]), OrderOf(InputOf(history[n])))
  {
    var os := Orders(Inputs(history[..n + 1]));
    assert os[..n] == Orders(Inputs(history[..n]));
  }

  method ComputeRows(history: seq<AppliedTrade>, bars: seq<Bar>, prices: Timeline, initialCash: real)
    returns (rows: seq<Row>)
    ensures |rows| == |bars|
    ensures bars != [] ==> IsSeries(rows, Baseline(bars), Capital(bars, initialCash))
    ensures bars != [] ==> AllReplayed(rows, history, bars, prices.bySymbol, Capital(bars, initialCash))
  {
    if |bars| == 0 {
      return [];
    }
    var baseline := bars[0].nav;
    if baseline <= 0.0 {
      baseline := 1.0;
    }
    var capital := initialCash;
    if capital <= 0.0 {
      capital := baseline;
    }
    rows := Walk(history, bars, prices, baseline, capital);
  }

  lemma NothingReplayed(history: seq<AppliedTrade>, bars: seq<Bar>, quotes: Quotes, capital: real)
    ensures AllReplayed([], history, bars, quotes, capital) && CursorAt(history, bars, 0) == 0
    ensures AccountOf(capital, history[..0]) == Fresh(capital).account
  {
  }

  method Walk(history: seq<AppliedTrade>, bars: seq<Bar>, prices: Timeline, baseline: real, capital: real)
    returns (rows: seq<Row>)
    requires baseline > 0.0 && capital > 0.0
    ensures |rows| == |bars|
    ensures IsSeries(rows, baseline, capital)
    ensures AllReplayed(rows, history, bars, prices.bySymbol, capital)
  {
    hide *;
    var replay := new Ledger(capital);
    rows := [];
    var peak, prevNav := baseline, baseline;
    var historyIdx := 0;
    RunningStart(baseline, capital);
    NothingReplayed(history, bars, prices.bySymbol, capital);
    for i := 0 to |bars|
      invariant replay.Valid() && fresh(replay)
      invariant historyIdx == CursorAt(history, bars, i)
      invariant replay.View().account == AccountOf(capital, history[..historyIdx])
      invariant |rows| == i
      invariant Running(rows, baseline, capital, peak, prevNav)
      invariant AllReplayed(rows, history, bars, prices.bySymbol, capital)
    {
      var row;
      historyIdx, row, peak :=
        OneBar(replay, history, historyIdx, bars, i, prices, baseline, capital, peak, prevNav, rows);
      ReplayedSnoc(rows, row, history, bars, prices.bySymbol, capital);
      rows := rows + [row];
      prevNav := row.nav;
    }
    RunningSeries(rows, baseline, capital, peak, prevNav);
  }

  // One bar: catch the replay up, mark it to market, derive the index columns.
  method OneBar(replay: Ledger, history: seq<AppliedTrade>, start: nat, bars: seq<Bar>, i: nat, prices: Timeline,
                baseline: real, capital: real, oldPeak: real, prevNav: real, ghost rows: seq<Row>)
    returns (historyIdx: nat, row: Row, peak: real)
    requires replay.Valid()
    requires i < |bars| && start == CursorAt(history, bars, i)
    requires replay.View().account == AccountOf(capital, history[..start])
    requires |rows| == i && Running(rows, baseline, capital, oldPeak, prevNav)
    modifies replay
    ensures replay.Valid()
    ensures historyIdx == CursorAt(history, bars, i + 1)
    ensures replay.View().account == AccountOf(capital, history[..historyIdx])
    ensures Replayed(row, history, bars, prices.bySymbol, capital, i)
    ensures Running(rows + [row], baseline, capital, peak, row.nav)
  {
    historyIdx := Advance(replay, history, start, DayOf(bars[i].tradingDate), capital);
    CursorMoves(history, bars, i, start, historyIdx);
    var totalAssets, cash := MarkToMarket(replay, prices, bars[i].tradingDate);
    row, peak := NextRow(bars[i].tradingDate, totalAssets, cash, baseline, capital, oldPeak, prevNav, i, NavsOf(rows));
    SeriesSnoc(rows, row, baseline, capital);
  }

  // The index columns of one bar.
  method NextRow(date: int, totalAssets: real, cash: real, baseline: real, capital: real,
                 oldPeak: real, prevNav: real, i: nat, ghost before: seq<real>)
    returns (row: Row, peak: real)
    requires baseline > 0.0 && capital > 0.0 && |before| == i
    requires oldPeak == PeakOf(baseline, before) && oldPeak > 0.0
    requires prevNav == (if i == 0 then baseline else before[i - 1]) && prevNav > 0.0
    ensures row.tradingDate == date && row.totalAssets == totalAssets && row.cash == cash
    ensures row.nav > 0.0
    ensures Indexed(row, before, baseline, capital)
    ensures peak == PeakOf(baseline, before + [row.nav]) && peak > 0.0
  {
    peak := oldPeak;
    var nav := Times(baseline, totalAssets / capital);
    if nav <= 0.0 {
      nav := baseline / 100.0;
    }
    assert (before + [nav])[..i] == before;
    if nav > peak {
      peak := nav;
    }
    var drawdown := nav / peak - 1.0;
    var cumulative := nav / baseline - 1.0;
    var dailyReturn := 0.0;
    if i > 0 && prevNav > 0.0 {
      dailyReturn := nav / prevNav - 1.0;
    }
    row := Row(date, nav, totalAssets, cash, dailyReturn, cumulative, drawdown);
  }

  method ReplayOne(replay: Ledger, history: seq<AppliedTrade>, n: nat, ghost capital: real)
    requires replay.Valid() && n < |history|
    requires replay.View().account == AccountOf(capital, history[..n])
    modifies replay
    ensures replay.Valid()
    ensures replay.View().account == AccountOf(capital, history[..n + 1])
  {
    var h := history[n];
    AccountSnoc(capital, history, n);
    hide AccountOf, Post, Outcome;
    var _ := replay.Apply(h.date, h.symbol, h.side, h.quantity, h.price);
  }

  // Moves the cursor over every trade whose day is on or before the bar's,
  // applying each to the replay ledger.
  method Advance(replay: Ledger, history: seq<AppliedTrade>, start: nat, navDay: int, ghost capital: real)
    returns (historyIdx: nat)
    requires replay.Valid() && start <= |history|
    requires replay.View().account == AccountOf(capital, history[..start])
    modifies replay
    ensures replay.Valid()
    ensures start <= historyIdx <= |history|
    ensures forall k | start <= k < historyIdx :: DayOf(history[k].date) <= navDay
    ensures historyIdx < |history| ==> DayOf(history[historyIdx].date) > navDay
    ensures replay.View().account == AccountOf(capital, history[..historyIdx])
  {
    hide *;
    historyIdx := start;
    while historyIdx < |history| && DayOf(history[historyIdx].date) <= navDay
      invariant replay.Valid()
      invariant start <= historyIdx <= |history|
      invariant forall k | start <= k < historyIdx :: DayOf(history[k].date) <= navDay
      invariant replay.View().account == AccountOf(capital, history[..historyIdx])
    {
      ReplayOne(replay, history, historyIdx, capital);
      historyIdx := historyIdx + 1;
    }
  }

  method MarkToMarket(replay: Ledger, prices: Timeline, date: int) returns (totalAssets: real, cash: real)
    ensures totalAssets == Assets(prices.bySymbol, replay.View().account, date)
    ensures cash == replay.cash
  {
    var positions;
    positions, cash := replay.PositionsAndCash();
    var marketValue := MarketValue(replay, positions, prices, date);
    totalAssets := cash + marketValue;
  }

  // Marks the positions to market, whatever order the map is ranged in.
  method MarketValue(replay: Ledger, positions: map<string, real>, prices: Timeline, date: int) returns (total: real)
    requires positions == Positions(replay.lots)
    ensures total == Holdings(prices.bySymbol, replay.lots, date)
    ensures AtPrices(total, prices.bySymbol, replay.lots, date)
  {
    hide *;
    ghost var quotes, lots := prices.bySymbol, replay.lots;
    ghost var f := s => Valued(quotes, lots, s, date);
    total := 0.0;
    var todo := positions.Keys;
    NothingValued(f);
    assert positions.Keys - todo == {};
    while todo != {}
      invariant todo <= positions.Keys
      invariant total == Sum(positions.Keys - todo, f)
      decreases todo
    {
      var sym :| sym in todo;
      var price, ok := prices.PriceAt(sym, date);
      if !ok {
        price := replay.AvgCostBasis(sym);
      }
      PositionValued(quotes, lots, sym, date, price);
      SumPut(positions.Keys - todo, f, sym);
      assert positions.Keys - todo + {sym} == positions.Keys - (todo - {sym});
      total := total + Times(positions[sym], price);
      todo := todo - {sym};
    }
    assert positions.Keys - todo == positions.Keys;
    HoldingsAre(quotes, lots, date, f);
    AlwaysAtPrices(quotes, lots, date);
  }

  lemma NothingValued(f: string -> real)
    ensures Sum({}, f) == 0.0
  {
  }

  lemma PositionValued(quotes: Quotes, lots: map<string, seq<Lot>>, symbol: string, date: int, price: real)
    requires symbol in Positions(lots)
    requires var found := PriceOn(quotes, symbol, date);
             price == if found.Some? then found.value else AvgCost(Queue(lots, symbol))
    ensures Times(Positions(lots)[symbol], price) == Valued(quotes, lots, symbol, date)
  {
    hide PriceOn, AvgCost, Held, Times;
  }
}
