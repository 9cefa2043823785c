// What the recomputed NAV series promises.
module NavLaws {
  import opened Lots
  import opened Prices
  import opened Replay
  import opened NavReplay
  import opened Scaling

  // --- The index columns -----------------------------------------------------

  // NAVs are positive; drawdown lies in (-1, 0] and is 0 exactly at the peak of
  // the baseline and every NAV so far.
  lemma ColumnLaws(rows: seq<Row>, baseline: real, capital: real, i: nat)
    requires IsSeries(rows, baseline, capital) && i < |rows|
    ensures rows[i].nav > 0.0
    ensures -1.0 < rows[i].drawdown <= 0.0
    ensures rows[i].drawdown == 0.0 <==> rows[i].nav >= baseline && forall k | 0 <= k < i :: rows[i].nav >= rows[k].nav
  {
    var row := rows[i];
    var before := NavsOf(rows[..i]);
    assert Indexed(row, before, baseline, capital);
    NavIndexPositive(baseline, capital, row.totalAssets);
    var navs := before + [row.nav];
    var peak := PeakOf(baseline, navs);
    PeakBounds(baseline, navs);
    assert navs[i] == row.nav;
    assert forall k | 0 <= k < i :: navs[k] == rows[k].nav;
    ReturnSign(row.nav, peak);
  }

  lemma ReturnSign(now: real, before: real)
    requires before > 0.0 && now > 0.0
    ensures Return(now, before) > -1.0
    ensures Return(now, before) <= 0.0 <==> now <= before
    ensures Return(now, before) == 0.0 <==> now == before
  {
    RatioAgainst(now, before, 0.0);
    RatioAgainst(now, before, 1.0);
  }

  // Comparing a ratio with a bound.
  lemma RatioAgainst(a: real, b: real, bound: real)
    requires b > 0.0
    ensures a / b < bound <==> a < Times(bound, b)
    ensures a / b > bound <==> a > Times(bound, b)
    ensures a / b == bound <==> a == Times(bound, b)
  {
    var ratio := a / b;
    assert a == ratio * b;
    if ratio < bound {
      assert ratio * b < bound * b;
    } else if ratio > bound {
      assert ratio * b > bound * b;
    }
  }

  // Product of (1 + daily return) over rows 1..n.
  function Growth(rows: seq<Row>, n: nat): real
    requires n < |rows|
  {
    if n == 0 then 1.0 else Times(Growth(rows, n - 1), 1.0 + rows[n].dailyReturn)
  }

  // Daily returns compound to the cumulative one.
  lemma {:induction false} Compounding(rows: seq<Row>, baseline: real, capital: real, n: nat)
    requires IsSeries(rows, baseline, capital) && n < |rows|
    ensures 1.0 + rows[n].cumulativeReturn == Times(1.0 + rows[0].cumulativeReturn, Growth(rows, n))
  {
    assert Indexed(rows[n], NavsOf(rows[..n]), baseline, capital);
    if n == 0 {
      assert Times(1.0 + rows[0].cumulativeReturn, 1.0) == 1.0 + rows[0].cumulativeReturn;
    } else {
      Compounding(rows, baseline, capital, n - 1);
      assert Indexed(rows[n - 1], NavsOf(rows[..n - 1]), baseline, capital);
      assert NavsOf(rows[..n])[n - 1] == rows[n - 1].nav;
      Chain(rows[n].nav, rows[n - 1].nav, baseline, 1.0 + rows[0].cumulativeReturn, Growth(rows, n - 1));
    }
  }

  lemma Chain(now: real, before: real, baseline: real, first: real, growth: real)
    requires before > 0.0 && baseline > 0.0
    requires 1.0 + Return(before, baseline) == Times(first, growth)
    ensures 1.0 + Return(now, baseline) == Times(first, Times(growth, 1.0 + Return(now, before)))
  {
    var step := now / before;
    assert now == step * before;
    assert (step * before) / baseline == step * (before / baseline);
    assert first * (growth * step) == (first * growth) * step;
  }

  // The first row shows the control's own NAV exactly when B's assets are its capital.
  lemma FirstRowIsBaseline(row: Row, baseline: real, capital: real)
    requires Indexed(row, [], baseline, capital)
    ensures row.nav == baseline <==> row.totalAssets == capital
  {
    var share := row.totalAssets / capital;
    RatioAgainst(row.totalAssets, capital, 1.0);
    TimesLaws(baseline, share, 1.0);
    assert Times(baseline, 1.0) == baseline && Times(1.0, capital) == capital;
    hide Times;
  }

  // --- The floor -------------------------------------------------------------

  // The floor keeps every NAV positive, but it does not keep NAVs above
  // baseline / 100: it fires only when assets are gone.  A NAV reaches that
  // level exactly when assets are non-positive or at least capital / 100.
  lemma FloorExact(baseline: real, capital: real, assets: real)
    requires baseline > 0.0 && capital > 0.0
    ensures NavIndex(baseline, capital, assets) >= baseline / 100.0 <==> assets <= 0.0 || assets >= capital / 100.0
  {
    var share := assets / capital;
    RatioAgainst(assets, capital, 0.0);
    RatioAgainst(assets, capital, 0.01);
    TimesLaws(baseline, 0.0, share);
    TimesLaws(baseline, share, 0.01);
    TimesLaws(baseline, share, 0.0);
  }

  // More assets give no lower a NAV exactly when the lower amount is positive, or
  // the higher one is not, or the higher one is at least a hundredth of the capital.
  lemma MonotoneExactly(baseline: real, capital: real, low: real, high: real)
    requires baseline > 0.0 && capital > 0.0 && low <= high
    ensures NavIndex(baseline, capital, low) <= NavIndex(baseline, capital, high)
       <==> low > 0.0 || high <= 0.0 || high >= capital / 100.0
  {
    FloorExact(baseline, capital, high);
    RatioAgainst(low, capital, 0.0);
    RatioAgainst(high, capital, 0.0);
    RatioAgainst(low, capital, high / capital);
    TimesLaws(baseline, 0.0, low / capital);
    TimesLaws(baseline, 0.0, high / capital);
    TimesLaws(baseline, low / capital, high / capital);
  }

  // A fund that still has half a percent of its capital is drawn below one that
  // has nothing left.
  lemma FloorNotMonotone()
    ensures NavIndex(1.0, 100.0, 0.5) < NavIndex(1.0, 100.0, 0.0)
    ensures NavIndex(1.0, 100.0, 0.5) < 1.0 / 100.0
  {
    assert Times(1.0, 0.5 / 100.0) == 0.005;
    assert Times(1.0, 0.0 / 100.0) == 0.0;
  }

  // --- Which trades a row has seen ------------------------------------------

  // The trades of the log on or before a day, in order.
  function Through(history: seq<AppliedTrade>, day: int): seq<AppliedTrade> {
    if history == [] then []
    else (if DayOf(history[0].date) <= day then [history[0]] else []) + Through(history[1..], day)
  }

  ghost predicate SortedHistory(history: seq<AppliedTrade>) {
    forall i, j | 0 <= i < j < |history| :: DayOf(history[i].date) <= DayOf(history[j].date)
  }

  ghost predicate SortedBars(bars: seq<Bar>) {
    forall i, j | 0 <= i < j < |bars| :: DayOf(bars[i].tradingDate) <= DayOf(bars[j].tradingDate)
  }

  lemma {:induction false} HorizonSorted(bars: seq<Bar>, i: nat)
    requires SortedBars(bars) && i < |bars|
    ensures Horizon(bars, i) == DayOf(bars[i].tradingDate)
    decreases i
  {
    if i > 0 {
      HorizonSorted(bars, i - 1);
    }
  }

  // From the n-th trade on, all are after the day.
  ghost predicate LateFrom(history: seq<AppliedTrade>, n: nat, day: int) {
    forall k | n <= k < |history| :: DayOf(history[k].date) > day
  }

  lemma LateShift(history: seq<AppliedTrade>, n: nat, day: int)
    requires history != []
    ensures LateFrom(history, n + 1, day) <==> LateFrom(history[1..], n, day)
  {
    var rest := history[1..];
    assert forall k | n + 1 <= k < |history| :: history[k] == rest[k - 1];
    assert forall k | n <= k < |rest| :: rest[k] == history[k + 1];
  }

  // The cursor has passed exactly the trades on or before the day when none is left
  // from where it stands.
  lemma {:induction false} ThroughFromCut(history: seq<AppliedTrade>, day: int)
    ensures Cut(history, day) <= |history|
    ensures history[..Cut(history, day)] == Through(history, day) <==> LateFrom(history, Cut(history, day), day)
    decreases |history|
  {
    CutWithin(history, day);
    if history != [] {
      var rest := history[1..];
      if DayOf(history[0].date) <= day {
        ThroughFromCut(rest, day);
        LateShift(history, Cut(rest, day), day);
        hide LateFrom;
        var cut, through := rest[..Cut(rest, day)], Through(rest, day);
        assert history[..Cut(history, day)] == [history[0]] + cut;
        assert ([history[0]] + cut)[1..] == cut && ([history[0]] + through)[1..] == through;
      } else {
        NoneThrough(history, day);
        hide Through;
      }
    }
  }

  lemma {:induction false} NoneThrough(history: seq<AppliedTrade>, day: int)
    ensures Through(history, day) == [] <==> LateFrom(history, 0, day)
    decreases |history|
  {
    if history != [] {
      NoneThrough(history[1..], day);
      LateShift(history, 0, day);
    }
  }

  // No trade on or before the day stands behind a later one.
  ghost predicate NoneBehind(history: seq<AppliedTrade>, day: int) {
    forall i, j | 0 <= i < j < |history| && DayOf(history[i].date) > day :: DayOf(history[j].date) > day
  }

  // Which is when the cursor has passed exactly the trades on or before the day.
  lemma ThroughExactly(history: seq<AppliedTrade>, day: int)
    ensures Cut(history, day) <= |history|
    ensures history[..Cut(history, day)] == Through(history, day) <==> NoneBehind(history, day)
  {
    CutWithin(history, day);
    ThroughFromCut(history, day);
    var n := Cut(history, day);
    if LateFrom(history, n, day) {
      assert forall i | 0 <= i < |history| && DayOf(history[i].date) > day :: i >= n;
    } else {
      var k :| n <= k < |history| && DayOf(history[k].date) <= day;
      assert DayOf(history[n].date) > day;
    }
  }

  // For all days at once, that is a log in day order.
  lemma SortedExactly(history: seq<AppliedTrade>)
    ensures (forall day :: Cut(history, day) <= |history| && history[..Cut(history, day)] == Through(history, day))
       <==> SortedHistory(history)
  {
    forall day ensures Cut(history, day) <= |history|
                       && (history[..Cut(history, day)] == Through(history, day) <==> NoneBehind(history, day)) {
      ThroughExactly(history, day);
    }
    hide Cut, Through;
    if !SortedHistory(history) {
      var i, j :| 0 <= i < j < |history| && DayOf(history[i].date) > DayOf(history[j].date);
      var day := DayOf(history[j].date);
      assert !NoneBehind(history, day);
      assert history[..Cut(history, day)] != Through(history, day);
    }
  }

  lemma ThroughSorted(history: seq<AppliedTrade>, day: int)
    requires SortedHistory(history)
    ensures Cut(history, day) <= |history|
    ensures history[..Cut(history, day)] == Through(history, day)
  {
    CutWithin(history, day);
    ThroughExactly(history, day);
  }

  // With bars in day order a row has replayed the log up to its day's cut.  That is
  // the trades on or before the day exactly when none of them stands behind a later
  // one, as in a log in day order.
  lemma RowSeesItsDays(history: seq<AppliedTrade>, bars: seq<Bar>, capital: real, i: nat)
    requires SortedBars(bars) && i < |bars|
    ensures var day := DayOf(bars[i].tradingDate);
            var n := Cut(history, day);
            && n <= |history| && AccountAt(history, bars, capital, i) == AccountOf(capital, history[..n])
            && (history[..n] == Through(history, day) <==> NoneBehind(history, day))
            && (SortedHistory(history) ==>
                  AccountAt(history, bars, capital, i) == AccountOf(capital, Through(history, day)))
  {
    HorizonSorted(bars, i);
    ThroughExactly(history, DayOf(bars[i].tradingDate));
    if SortedHistory(history) {
      ThroughSorted(history, DayOf(bars[i].tradingDate));
    }
  }

  ghost predicate NewestFirstLog(history: seq<AppliedTrade>) {
    forall i, j | 0 <= i < j < |history| :: history[i].date >= history[j].date
  }

  // On a newest-first log a row has replayed nothing before the newest trade's day,
  // and the whole log, in that order, from then on.
  lemma NewestFirstRows(history: seq<AppliedTrade>, bars: seq<Bar>, capital: real, i: nat)
    requires i < |bars| && NewestFirstLog(history)
    ensures AccountAt(history, bars, capital, i) ==
            if history == [] || Horizon(bars, i) < DayOf(history[0].date) then Opened(capital)
            else AccountOf(capital, history)
  {
    hide *;
    CutNewestFirst(history, Horizon(bars, i));
    AccountCut(history, bars, capital, i);
    assert history[..0] == [] && history[..|history|] == history;
    NothingPosted(capital);
  }

  lemma AccountCut(history: seq<AppliedTrade>, bars: seq<Bar>, capital: real, i: nat)
    requires i < |bars|
    ensures var n := Cut(history, Horizon(bars, i));
            n <= |history| && AccountAt(history, bars, capital, i) == AccountOf(capital, history[..n])
  {
    CutWithin(history, Horizon(bars, i));
  }

  lemma NothingPosted(capital: real)
    ensures AccountOf(capital, []) == Opened(capital)
  {
  }

  lemma CutNewestFirst(history: seq<AppliedTrade>, day: int)
    requires NewestFirstLog(history)
    ensures Cut(history, day) == if history == [] || day < DayOf(history[0].date) then 0 else |history|
  {
    CutWithin(history, day);
    if history != [] && DayOf(history[0].date) <= day {
      forall k | 0 <= k < |history| ensures DayOf(history[k].date) <= day {
        assert k > 0 ==> history[0].date >= history[k].date;
      }
    }
  }

  // And when the log is that of a live run, the row sees the live ledger as it
  // stood after those trades, its cash moved by the difference in seed.
  lemma RowSeesLiveRun(cash: real, ts: seq<Trade>, bars: seq<Bar>, capital: real, i: nat)
    requires i < |bars|
    ensures var history := Run(Fresh(cash), ts).trades;
            var n := Cut(history, Horizon(bars, i));
            && n <= |ts|
            && var live := Run(Fresh(cash), ts[..n]).account;
               AccountAt(history, bars, capital, i) == live.(cash := live.cash + capital - cash)
  {
    var history := Run(Fresh(cash), ts).trades;
    LogGrows(Fresh(cash), ts);
    CutWithin(history, Horizon(bars, i));
    var n := Cut(history, Horizon(bars, i));
    LogPrefix(cash, ts, n);
    ReplayAnywhere(cash, capital, ts[..n]);
    RunPosts(Fresh(capital), Inputs(history[..n]));
  }

  lemma {:induction false} LogPrefix(cash: real, ts: seq<Trade>, n: nat)
    requires n <= |ts|
    ensures |Run(Fresh(cash), ts).trades| == |ts|
    ensures Run(Fresh(cash), ts).trades[..n] == Run(Fresh(cash), ts[..n]).trades
    decreases |ts|
  {
    LogGrows(Fresh(cash), ts);
    if n == |ts| {
      assert ts[..n] == ts;
    } else {
      LogPrefix(cash, ts[..|ts| - 1], n);
      assert ts[..|ts| - 1][..n] == ts[..n];
    }
  }
}
