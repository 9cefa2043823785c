// What a row of the NAV series shows, said of quantities, prices and the control's
// first bar: each listed holding at the price its series gives it.
module NavRows {
  import opened Lots
  import opened LotLedger
  import opened Prices
  import opened NavReplay
  import opened NavLaws
  import opened Scaling
  import opened Sums
  import opened Valuation

  // So it is with each row: its assets are its cash and what its account holds.
  lemma RowAtPrices(rows: seq<Row>, history: seq<AppliedTrade>, bars: seq<Bar>, quotes: Quotes, capital: real, i: nat,
                    keys: set<string>, price: string -> real)
    requires |rows| == |bars| && i < |bars| && AllReplayed(rows, history, bars, quotes, capital)
    requires var lots := AccountAt(history, bars, capital, i).lots;
             Lists(keys, lots) && AllPriced(quotes, lots, bars[i].tradingDate, keys, price)
    ensures rows[i].totalAssets
         == rows[i].cash + Sum(keys, ValueAt(AccountAt(history, bars, capital, i).lots, price))
  {
    AssetsAtPrices(quotes, AccountAt(history, bars, capital, i), bars[i].tradingDate, keys, price);
  }

  // A greatest value among the baseline and the NAVs up to row i.
  ghost predicate IsPeak(peak: real, rows: seq<Row>, baseline: real, i: nat) {
    && i < |rows| && baseline <= peak && (forall k | 0 <= k <= i :: rows[k].nav <= peak)
    && (peak == baseline || exists k | 0 <= k <= i :: rows[k].nav == peak)
  }

  // The index columns: NAV is to the baseline as assets are to the capital, a hundredth
  // of the baseline where assets are gone; the three returns lead from the baseline, the
  // NAV before and the peak so far to the NAV.
  lemma ColumnsExactly(rows: seq<Row>, baseline: real, capital: real, i: nat, peak: real)
    requires IsSeries(rows, baseline, capital) && i < |rows| && IsPeak(peak, rows, baseline, i)
    ensures var row := rows[i];
            && (row.totalAssets > 0.0 ==> row.nav * capital == baseline * row.totalAssets)
            && (row.totalAssets <= 0.0 ==> row.nav * 100.0 == baseline)
            && (1.0 + row.cumulativeReturn) * baseline == row.nav
            && (1.0 + row.drawdown) * peak == row.nav
            && (i == 0 ==> row.dailyReturn == 0.0)
            && (i > 0 ==> (1.0 + row.dailyReturn) * rows[i - 1].nav == row.nav)
  {
    hide *;
    RowIndexed(rows, baseline, capital, i);
    PeakIs(rows, baseline, i, peak);
    IndexedColumns(rows[i], NavsOf(rows[..i]), baseline, capital);
  }

  lemma RowIndexed(rows: seq<Row>, baseline: real, capital: real, i: nat)
    requires IsSeries(rows, baseline, capital) && i < |rows|
    ensures Indexed(rows[i], NavsOf(rows[..i]), baseline, capital) && |NavsOf(rows[..i])| == i
    ensures i > 0 ==> NavsOf(rows[..i])[i - 1] == rows[i - 1].nav
  {
  }

  lemma IndexedColumns(row: Row, before: seq<real>, baseline: real, capital: real)
    requires Indexed(row, before, baseline, capital)
    ensures row.totalAssets > 0.0 ==> row.nav * capital == baseline * row.totalAssets
    ensures row.totalAssets <= 0.0 ==> row.nav * 100.0 == baseline
    ensures (1.0 + row.cumulativeReturn) * baseline == row.nav
    ensures (1.0 + row.drawdown) * PeakOf(baseline, before + [row.nav]) == row.nav
    ensures before == [] ==> row.dailyReturn == 0.0
    ensures before != [] ==> (1.0 + row.dailyReturn) * before[|before| - 1] == row.nav
  {
    hide *;
    IndexedParts(row, before, baseline, capital);
    NavIs(baseline, capital, row.totalAssets);
    Undo(row.nav, baseline);
    Undo(row.nav, PeakOf(baseline, before + [row.nav]));
    if before != [] {
      Undo(row.nav, before[|before| - 1]);
    }
  }

  lemma IndexedParts(row: Row, before: seq<real>, baseline: real, capital: real)
    requires Indexed(row, before, baseline, capital)
    ensures baseline > 0.0 && capital > 0.0 && PeakOf(baseline, before + [row.nav]) > 0.0
    ensures row.nav == NavIndex(baseline, capital, row.totalAssets)
    ensures row.cumulativeReturn == Return(row.nav, baseline)
    ensures row.drawdown == Return(row.nav, PeakOf(baseline, before + [row.nav]))
    ensures before == [] ==> row.dailyReturn == 0.0
    ensures before != [] ==> before[|before| - 1] > 0.0 && row.dailyReturn == Return(row.nav, before[|before| - 1])
  {
    hide PeakOf, NavIndex, Return;
  }

  lemma PeakIs(rows: seq<Row>, baseline: real, i: nat, peak: real)
    requires IsPeak(peak, rows, baseline, i)
    ensures PeakOf(baseline, NavsOf(rows[..i]) + [rows[i].nav]) == peak
  {
    var navs := NavsOf(rows[..i]) + [rows[i].nav];
    assert |navs| == i + 1 && forall k | 0 <= k <= i :: navs[k] == rows[k].nav;
    PeakBounds(baseline, navs);
    if peak != baseline {
      var k :| 0 <= k <= i && rows[k].nav == peak;
      assert navs[k] == peak;
    }
  }

  lemma Undo(now: real, before: real)
    requires before > 0.0
    ensures (1.0 + Return(now, before)) * before == now
  {
  }

  lemma NavIs(baseline: real, capital: real, assets: real)
    requires baseline > 0.0 && capital > 0.0
    ensures assets > 0.0 ==> NavIndex(baseline, capital, assets) * capital == baseline * assets
    ensures assets <= 0.0 ==> NavIndex(baseline, capital, assets) * 100.0 == baseline
  {
    var share := assets / capital;
    RatioAgainst(assets, capital, 0.0);
    TimesLaws(baseline, 0.0, share);
    assert share * capital == assets;
    assert (baseline * share) * capital == baseline * (share * capital);
  }

  // Before the log's first day a row shows the initial cash and the control's first
  // NAV; a first NAV that is not positive counts as 1, initial cash that is not as it.
  lemma FlatRow(rows: seq<Row>, history: seq<AppliedTrade>, bars: seq<Bar>, quotes: Quotes, cash: real, i: nat)
    requires |rows| == |bars| && i < |bars|
    requires IsSeries(rows, Baseline(bars), Capital(bars, cash))
    requires AllReplayed(rows, history, bars, quotes, Capital(bars, cash))
    requires history == [] || forall k | 0 <= k <= i :: DayOf(bars[k].tradingDate) < DayOf(history[0].date)
    ensures rows[i].tradingDate == bars[i].tradingDate
    ensures rows[i].nav == if bars[0].nav > 0.0 then bars[0].nav else 1.0
    ensures rows[i].totalAssets == rows[i].cash == if cash > 0.0 then cash else rows[i].nav
  {
    hide *;
    RowIndexed(rows, Baseline(bars), Capital(bars, cash), i);
    IndexedParts(rows[i], NavsOf(rows[..i]), Baseline(bars), Capital(bars, cash));
    if history != [] {
      HorizonBelow(bars, i, DayOf(history[0].date));
    }
    RowReplayed(rows, history, bars, quotes, Capital(bars, cash), i);
    EarlyAccount(history, bars, quotes, Capital(bars, cash), i);
    WholeNav(Baseline(bars), Capital(bars, cash));
    Bases(bars, cash);
  }

  lemma RowReplayed(rows: seq<Row>, history: seq<AppliedTrade>, bars: seq<Bar>, quotes: Quotes, capital: real, i: nat)
    requires |rows| == |bars| && i < |bars| && AllReplayed(rows, history, bars, quotes, capital)
    ensures rows[i].tradingDate == bars[i].tradingDate
    ensures rows[i].cash == AccountAt(history, bars, capital, i).cash
    ensures rows[i].totalAssets == AssetsAt(history, bars, quotes, capital, i)
  {
    hide AccountAt, AssetsAt;
  }

  lemma EarlyAccount(history: seq<AppliedTrade>, bars: seq<Bar>, quotes: Quotes, capital: real, i: nat)
    requires i < |bars| && (history == [] || Horizon(bars, i) < DayOf(history[0].date))
    ensures AccountAt(history, bars, capital, i).cash == capital == AssetsAt(history, bars, quotes, capital, i)
  {
    assert history[..0] == [];
    var a := AccountAt(history, bars, capital, i);
    assert a == Opened(capital);
    assert Positions(a.lots).Keys == {};
  }

  lemma WholeNav(baseline: real, capital: real)
    requires baseline > 0.0 && capital > 0.0
    ensures NavIndex(baseline, capital, capital) == baseline
  {
    assert capital / capital == 1.0 && Times(baseline, 1.0) == baseline;
  }

  lemma Bases(bars: seq<Bar>, cash: real)
    requires bars != []
    ensures Baseline(bars) == if bars[0].nav > 0.0 then bars[0].nav else 1.0
    ensures Capital(bars, cash) == if cash > 0.0 then cash else Baseline(bars)
  {
  }

  lemma {:induction false} HorizonBelow(bars: seq<Bar>, i: nat, day: int)
    requires i < |bars| && forall k | 0 <= k <= i :: DayOf(bars[k].tradingDate) < day
    ensures Horizon(bars, i) < day
    decreases i
  {
    if i > 0 {
      HorizonBelow(bars, i - 1, day);
    }
  }
}
