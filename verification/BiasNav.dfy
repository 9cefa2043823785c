// B's NAV rows when the control fund made no trade at all: the control's own NAVs,
// with the distance from the first one scaled by a style bias.
module BiasNav {
  import opened Lots
  import opened NavReplay
  import opened NavLaws
  import opened NavRows
  import opened Scaling

  // A control NAV snapshot, as far as a row is made from it.
  datatype Snapshot = Snapshot(tradingDate: int, nav: real, totalAssets: real, cash: real, dailyReturn: real)

  function BarsOf(navs: seq<Snapshot>): (bars: seq<Bar>)
    ensures |bars| == |navs|
    ensures forall i | 0 <= i < |navs| :: bars[i].tradingDate == navs[i].tradingDate && bars[i].nav == navs[i].nav
  {
    seq(|navs|, i requires 0 <= i < |navs| => Bar(navs[i].tradingDate, navs[i].nav))
  }

  // The biased NAV of snapshot i; a value that is not positive gives way to the
  // control's own.
  function Biased(navs: seq<Snapshot>, bias: real, i: nat): real
    requires i < |navs|
  {
    var first, nav := navs[0].nav, navs[i].nav;
    var shadow :=
      if i > 0 && bias != 1.0 && first > 0.0 then Times(first, 1.0 + Times(nav / first - 1.0, bias)) else nav;
    if shadow <= 0.0 then nav else shadow
  }

  function BiasedNavs(navs: seq<Snapshot>, bias: real, n: nat): seq<real>
    requires n <= |navs|
  {
    seq(n, i requires 0 <= i < n => Biased(navs, bias, i))
  }

  // Row i, from scratch.
  ghost predicate IsBiased(row: Row, navs: seq<Snapshot>, bias: real, i: nat)
    requires i < |navs|
  {
    var base := Baseline(BarsOf(navs));
    var peak := PeakOf(base, BiasedNavs(navs, bias, i + 1));
    && base > 0.0 && peak > 0.0
    && row.tradingDate == navs[i].tradingDate && row.cash == navs[i].cash
    && row.nav == Biased(navs, bias, i)
    && row.drawdown == Return(row.nav, peak) && row.cumulativeReturn == Return(row.nav, base)
    && row.dailyReturn == Times(navs[i].dailyReturn, bias)
    && row.totalAssets ==
         if navs[i].nav > 0.0 then Times(navs[i].totalAssets, row.nav / navs[i].nav) else navs[i].totalAssets
  }

  lemma PeakSnoc(base: real, navs: seq<Snapshot>, bias: real, i: nat)
    requires i < |navs|
    ensures var before := PeakOf(base, BiasedNavs(navs, bias, i));
            var nav := Biased(navs, bias, i);
            PeakOf(base, BiasedNavs(navs, bias, i + 1)) == if nav > before then nav else before
  {
    assert BiasedNavs(navs, bias, i + 1)[..i] == BiasedNavs(navs, bias, i);
  }

  method BiasedRow(navs: seq<Snapshot>, bias: real, i: nat, baseNav: real, oldPeak: real) returns (row: Row, peak: real)
    requires i < |navs| && baseNav == Baseline(BarsOf(navs))
    requires oldPeak == PeakOf(baseNav, BiasedNavs(navs, bias, i)) && oldPeak > 0.0
    ensures IsBiased(row, navs, bias, i)
    ensures peak == PeakOf(baseNav, BiasedNavs(navs, bias, i + 1)) && peak > 0.0
  {
    PeakSnoc(baseNav, navs, bias, i);
    var nav := navs[i];
    var shadow := nav.nav;
    if i > 0 && bias != 1.0 && navs[0].nav > 0.0 {
      shadow := Times(navs[0].nav, 1.0 + Times(nav.nav / navs[0].nav - 1.0, bias));
    }
    if shadow <= 0.0 {
      shadow := nav.nav;
    }
    assert shadow == Biased(navs, bias, i);
    hide Times, Biased, BiasedNavs, PeakOf;
    peak := oldPeak;
    if shadow > peak {
      peak := shadow;
    }
    var assets := nav.totalAssets;
    if nav.nav > 0.0 {
      assets := Times(nav.totalAssets, shadow / nav.nav);
    }
    row := Row(nav.tradingDate, shadow, assets, nav.cash,
               Times(nav.dailyReturn, bias), shadow / baseNav - 1.0, shadow / peak - 1.0);
  }

  method BiasedRows(navs: seq<Snapshot>, bias: real) returns (rows: seq<Row>)
    ensures |rows| == |navs| && forall i | 0 <= i < |rows| :: IsBiased(rows[i], navs, bias, i)
  {
    rows := [];
    if |navs| == 0 {
      return;
    }
    var baseNav := navs[0].nav;
    if baseNav <= 0.0 {
      baseNav := 1.0;
    }
    var peak := baseNav;
    hide IsBiased, Biased;
    for i := 0 to |navs|
      invariant |rows| == i && forall k | 0 <= k < i :: IsBiased(rows[k], navs, bias, k)
      invariant peak == PeakOf(baseNav, BiasedNavs(navs, bias, i)) && peak > 0.0
    {
      var row;
      row, peak := BiasedRow(navs, bias, i, baseNav, peak);
      rows := rows + [row];
    }
  }

  // The row of a snapshot, said of the snapshots: the first stays, as do all under a bias
  // of 1 or a first NAV that is not positive; of another the distance from the first is
  // multiplied by the bias, unless that leaves nothing.  Assets move with the NAV.
  ghost predicate BiasedFrom(row: Row, first: Snapshot, s: Snapshot, isFirst: bool, bias: real) {
    var shifted := first.nav + bias * (s.nav - first.nav);
    && row.tradingDate == s.tradingDate && row.cash == s.cash && row.dailyReturn == bias * s.dailyReturn
    && row.nav == (if isFirst || bias == 1.0 || first.nav <= 0.0 || shifted <= 0.0 then s.nav else shifted)
    && (s.nav > 0.0 ==> row.totalAssets * s.nav == s.totalAssets * row.nav)
    && (s.nav <= 0.0 ==> row.totalAssets == s.totalAssets)
  }

  lemma BiasedExactly(rows: seq<Row>, navs: seq<Snapshot>, bias: real, i: nat, peak: real)
    requires |rows| == |navs| && i < |rows| && forall k | 0 <= k < |rows| :: IsBiased(rows[k], navs, bias, k)
    requires IsPeak(peak, rows, if navs[0].nav > 0.0 then navs[0].nav else 1.0, i)
    ensures BiasedFrom(rows[i], navs[0], navs[i], i == 0, bias)
    ensures (1.0 + rows[i].cumulativeReturn) * (if navs[0].nav > 0.0 then navs[0].nav else 1.0) == rows[i].nav
    ensures (1.0 + rows[i].drawdown) * peak == rows[i].nav
  {
    hide *;
    BaseIs(navs);
    forall k | 0 <= k < |rows| ensures rows[k].nav == Biased(navs, bias, k) {
      BiasedColumns(rows[k], navs, bias, k);
    }
    BiasedColumns(rows[i], navs, bias, i);
    BiasedPeak(rows, navs, bias, i, peak);
    Undo(rows[i].nav, Baseline(BarsOf(navs)));
    Undo(rows[i].nav, peak);
    BiasedParts(rows[i], navs, bias, i);
  }

  lemma BaseIs(navs: seq<Snapshot>)
    requires navs != []
    ensures Baseline(BarsOf(navs)) == if navs[0].nav > 0.0 then navs[0].nav else 1.0
  {
  }

  lemma BiasedColumns(row: Row, navs: seq<Snapshot>, bias: real, i: nat)
    requires i < |navs| && IsBiased(row, navs, bias, i)
    ensures var base := Baseline(BarsOf(navs));
            var peak := PeakOf(base, BiasedNavs(navs, bias, i + 1));
            && base > 0.0 && peak > 0.0 && row.nav == Biased(navs, bias, i)
            && row.drawdown == Return(row.nav, peak) && row.cumulativeReturn == Return(row.nav, base)
  {
    hide Times, Biased, BiasedNavs, PeakOf, Return, Baseline;
  }

  lemma BiasedPeak(rows: seq<Row>, navs: seq<Snapshot>, bias: real, i: nat, peak: real)
    requires |rows| == |navs| && i < |rows| && forall k | 0 <= k < |rows| :: rows[k].nav == Biased(navs, bias, k)
    requires IsPeak(peak, rows, Baseline(BarsOf(navs)), i)
    ensures PeakOf(Baseline(BarsOf(navs)), BiasedNavs(navs, bias, i + 1)) == peak
  {
    assert BiasedNavs(navs, bias, i + 1) == NavsOf(rows[..i]) + [rows[i].nav];
    PeakIs(rows, Baseline(BarsOf(navs)), i, peak);
  }

  lemma BiasedParts(row: Row, navs: seq<Snapshot>, bias: real, i: nat)
    requires i < |navs| && IsBiased(row, navs, bias, i)
    ensures BiasedFrom(row, navs[0], navs[i], i == 0, bias)
  {
    hide PeakOf, BiasedNavs, Return, Times, Baseline, Biased;
    BiasedIs(navs, bias, i);
    if navs[i].nav > 0.0 {
      Moved(navs[i].totalAssets, row.nav, navs[i].nav);
    }
    ScaledReturn(navs[i].dailyReturn, bias);
  }

  lemma BiasedIs(navs: seq<Snapshot>, bias: real, i: nat)
    requires i < |navs|
    ensures var shifted := navs[0].nav + bias * (navs[i].nav - navs[0].nav);
            Biased(navs, bias, i) ==
            if i == 0 || bias == 1.0 || navs[0].nav <= 0.0 || shifted <= 0.0 then navs[i].nav else shifted
  {
    hide Times;
    if navs[0].nav > 0.0 {
      Shifted(navs[0].nav, navs[i].nav, bias);
    }
  }

  lemma ScaledReturn(daily: real, bias: real)
    ensures Times(daily, bias) == bias * daily
  {
  }

  lemma Moved(assets: real, now: real, nav: real)
    requires nav > 0.0
    ensures Times(assets, now / nav) * nav == assets * now
  {
    var ratio := now / nav;
    assert ratio * nav == now;
    assert (assets * ratio) * nav == assets * (ratio * nav);
  }

  lemma Shifted(first: real, nav: real, bias: real)
    requires first > 0.0
    ensures Times(first, 1.0 + Times(nav / first - 1.0, bias)) == first + bias * (nav - first)
  {
    var ratio := nav / first;
    assert ratio * first == nav;
    assert first * ((ratio - 1.0) * bias) == bias * (ratio * first - first);
  }

  // A row's cumulative return is the control's times the bias exactly where that
  // would leave something of the first NAV, or the bias is 1; elsewhere it is the
  // control's own.
  lemma BiasScalesReturn(row: Row, navs: seq<Snapshot>, bias: real, i: nat)
    requires i < |navs| && navs[0].nav > 0.0 && IsBiased(row, navs, bias, i)
    ensures var control := Return(navs[i].nav, navs[0].nav);
            && (row.cumulativeReturn == Times(bias, control) <==> bias == 1.0 || 1.0 + Times(bias, control) > 0.0)
            && row.cumulativeReturn in {Times(bias, control), control}
  {
    var first, nav := navs[0].nav, navs[i].nav;
    var control := nav / first - 1.0;
    ScaledNav(first, 1.0 + Times(control, bias));
    RatioAgainst(first, first, 1.0);
    assert Times(bias, control) == Times(control, bias) && Times(1.0, control) == control && Times(bias, 0.0) == 0.0;
    assert bias == 1.0 ==> Times(bias, control) == control;
    assert i == 0 ==> control == 0.0;
    hide Times, PeakOf, BiasedNavs;
  }

  lemma ScaledNav(first: real, scaled: real)
    requires first > 0.0
    ensures Times(first, scaled) / first == scaled
    ensures Times(first, scaled) <= 0.0 <==> scaled <= 0.0
  {
    TimesLaws(first, 0.0, scaled);
    assert Times(first, scaled) == Times(scaled, first);
    RatioAgainst(Times(first, scaled), first, scaled);
  }

  // Its drawdown is never positive, and 0 exactly at the peak so far; it is above -1
  // where the control's NAV is positive.
  lemma BiasDrawdown(row: Row, navs: seq<Snapshot>, bias: real, i: nat)
    requires i < |navs| && navs[i].nav > 0.0 && IsBiased(row, navs, bias, i)
    ensures row.nav > 0.0 && -1.0 < row.drawdown <= 0.0
    ensures row.drawdown == 0.0 <==>
              row.nav >= Baseline(BarsOf(navs)) && forall k | 0 <= k < i :: row.nav >= Biased(navs, bias, k)
  {
    var base, all := Baseline(BarsOf(navs)), BiasedNavs(navs, bias, i + 1);
    PeakBounds(base, all);
    assert all[i] == row.nav && forall k | 0 <= k < i :: all[k] == Biased(navs, bias, k);
    ReturnSign(row.nav, PeakOf(base, all));
  }
}
