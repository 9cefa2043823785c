// What the decider's prompts say about the control fund's NAV bars: the recap
// headline, the trailing window, and the bar in force at a trade's instant.
module BarStats {
  import opened Options
  import opened Lots
  import opened Prices
  import opened NavReplay
  import opened NavLaws

  // --- Drawdown --------------------------------------------------------------

  // Highest NAV among bars 0..i.
  function RunPeak(bars: seq<Bar>, i: nat): real
    requires i < |bars|
  {
    if i == 0 then bars[0].nav
    else if bars[i].nav > RunPeak(bars, i - 1) then bars[i].nav
    else RunPeak(bars, i - 1)
  }

  // Percentage change from one NAV to another.
  function Percent(now: real, before: real): real
    requires before > 0.0
  {
    Times(now / before - 1.0, 100.0)
  }

  // How far bar i lies below the running peak, where that is positive.
  function Dip(bars: seq<Bar>, i: nat): real
    requires i < |bars|
  {
    if RunPeak(bars, i) > 0.0 then Percent(bars[i].nav, RunPeak(bars, i)) else 0.0
  }

  // The deepest dip among the first n bars.
  function MaxDrawdown(bars: seq<Bar>, n: nat): real
    requires n <= |bars|
  {
    if n == 0 then 0.0 else
      var deepest := MaxDrawdown(bars, n - 1);
      if Dip(bars, n - 1) < deepest then Dip(bars, n - 1) else deepest
  }

  datatype Headline = Headline(start: real, end: real, totalReturn: real, peak: real, peakIdx: nat,
                               trough: real, troughIdx: nat, maxDrawdown: real)

  datatype Trail = Trail(count: nat, cumulative: real, maxDrawdown: real)

  // The first bar at which the greatest (least) NAV occurs.
  ghost predicate FirstPeak(bars: seq<Bar>, n: nat, idx: nat) {
    && idx < n <= |bars|
    && (forall k | 0 <= k < n :: bars[k].nav <= bars[idx].nav)
    && (forall k | 0 <= k < idx :: bars[k].nav < bars[idx].nav)
  }

  ghost predicate FirstTrough(bars: seq<Bar>, n: nat, idx: nat) {
    && idx < n <= |bars|
    && (forall k | 0 <= k < n :: bars[k].nav >= bars[idx].nav)
    && (forall k | 0 <= k < idx :: bars[k].nav > bars[idx].nav)
  }

  function Gain(start: real, end: real): real {
    Percent(end, if start <= 0.0 then 1.0 else start)
  }

  // A change of so many percent of the start; one that is not positive counts as 1.
  predicate GainedBy(start: real, end: real, percent: real) {
    if start > 0.0 then percent * start == 100.0 * (end - start) else percent == 100.0 * (end - 1.0)
  }

  lemma GainIs(start: real, end: real)
    ensures GainedBy(start, end, Gain(start, end))
  {
    if start > 0.0 {
      PercentIs(end, start);
    }
  }

  lemma PercentIs(now: real, before: real)
    requires before > 0.0
    ensures Percent(now, before) * before == 100.0 * (now - before)
  {
    var ratio := now / before;
    assert ratio * before == now;
    assert Percent(now, before) * before == (ratio * before - before) * 100.0;
  }

  // Bar i, of positive NAV, is a highest up to bar j, which lies so many percent below.
  ghost predicate Falls(bars: seq<Bar>, i: nat, j: nat, percent: real) {
    && i <= j < |bars| && bars[i].nav > 0.0 && (forall k | 0 <= k <= j :: bars[k].nav <= bars[i].nav)
    && percent * bars[i].nav == 100.0 * (bars[j].nav - bars[i].nav)
  }

  // No bar lies further below the highest before it, and some bar lies so far, unless
  // that is 0.
  ghost predicate DeepestFall(bars: seq<Bar>, percent: real) {
    && percent <= 0.0
    && (forall i: nat, j: nat, p: real | Falls(bars, i, j, p) :: percent <= p)
    && (percent < 0.0 ==> exists i: nat, j: nat :: Falls(bars, i, j, percent))
  }

  lemma DrawdownExactly(bars: seq<Bar>)
    ensures DeepestFall(bars, MaxDrawdown(bars, |bars|))
  {
    hide Falls, Dip, RunPeak, MaxDrawdown;
    DrawdownNonPositive(bars, |bars|);
    forall i: nat, j: nat, p: real | Falls(bars, i, j, p) ensures MaxDrawdown(bars, |bars|) <= p {
      DipIs(bars, i, j, p);
      DrawdownBelowDips(bars, |bars|, j);
    }
    if MaxDrawdown(bars, |bars|) < 0.0 {
      var j := DrawdownIsADip(bars, |bars|);
      var i := DipFalls(bars, j);
    }
  }

  lemma DipFalls(bars: seq<Bar>, j: nat) returns (i: nat)
    requires j < |bars| && RunPeak(bars, j) > 0.0
    ensures Falls(bars, i, j, Dip(bars, j))
  {
    i := RunPeakIs(bars, j);
    PercentIs(bars[j].nav, bars[i].nav);
    hide Percent, RunPeak;
  }

  lemma DipIs(bars: seq<Bar>, i: nat, j: nat, p: real)
    requires Falls(bars, i, j, p)
    ensures j < |bars| && Dip(bars, j) == p
  {
    var k := RunPeakIs(bars, j);
    assert RunPeak(bars, j) == bars[i].nav;
    PercentIs(bars[j].nav, bars[i].nav);
    SameFactor(p, Percent(bars[j].nav, bars[i].nav), bars[i].nav);
  }

  lemma SameFactor(a: real, b: real, c: real)
    requires c > 0.0 && a * c == b * c
    ensures a == b
  {
    assert (a - b) * c == 0.0;
  }

  lemma {:induction false} DrawdownBelowDips(bars: seq<Bar>, n: nat, j: nat)
    requires j < n <= |bars|
    ensures MaxDrawdown(bars, n) <= Dip(bars, j)
    decreases n
  {
    if j < n - 1 {
      DrawdownBelowDips(bars, n - 1, j);
    }
  }

  lemma {:induction false} DrawdownIsADip(bars: seq<Bar>, n: nat) returns (j: nat)
    requires n <= |bars| && MaxDrawdown(bars, n) < 0.0
    ensures j < n && MaxDrawdown(bars, n) == Dip(bars, j) && RunPeak(bars, j) > 0.0
    decreases n
  {
    if Dip(bars, n - 1) < MaxDrawdown(bars, n - 1) {
      j := n - 1;
      assert Dip(bars, j) < 0.0 by {
        DrawdownNonPositive(bars, n - 1);
      }
    } else {
      j := DrawdownIsADip(bars, n - 1);
    }
  }

  // The recap headline, whose drawdown recomputes the running peak for each bar.
  method RecapHeadline(bars: seq<Bar>) returns (line: Option<Headline>)
    ensures line.None? <==> bars == []
    ensures line.Some? ==>
              var h := line.value;
              && FirstPeak(bars, |bars|, h.peakIdx) && h.peak == bars[h.peakIdx].nav
              && FirstTrough(bars, |bars|, h.troughIdx) && h.trough == bars[h.troughIdx].nav
              && h.start == bars[0].nav && h.end == bars[|bars| - 1].nav
              && GainedBy(h.start, h.end, h.totalReturn) && DeepestFall(bars, h.maxDrawdown)
              && h.totalReturn == Gain(h.start, h.end)
              && h.maxDrawdown == MaxDrawdown(bars, |bars|)
  {
    if |bars| == 0 {
      return None;
    }
    GainIs(bars[0].nav, bars[|bars| - 1].nav);
    DrawdownExactly(bars);
    hide GainedBy, DeepestFall;
    var start, end := bars[0].nav, bars[|bars| - 1].nav;
    var peak, peakIdx := start, 0;
    var trough, troughIdx := start, 0;
    var maxDD := 0.0;
    for i := 0 to |bars|
      invariant i == 0 ==> peakIdx == 0 && troughIdx == 0
      invariant i > 0 ==> FirstPeak(bars, i, peakIdx) && FirstTrough(bars, i, troughIdx)
      invariant peakIdx < |bars| && peak == bars[peakIdx].nav
      invariant troughIdx < |bars| && trough == bars[troughIdx].nav
      invariant maxDD == MaxDrawdown(bars, i)
    {
      var nav := bars[i].nav;
      if nav > peak {
        peak, peakIdx := nav, i;
      }
      if nav < trough {
        trough, troughIdx := nav, i;
      }
      var runPeak := bars[0].nav;
      for j := 0 to i + 1
        invariant runPeak == if j == 0 then bars[0].nav else RunPeak(bars, j - 1)
      {
        if bars[j].nav > runPeak {
          runPeak := bars[j].nav;
        }
      }
      if runPeak > 0.0 {
        var dd := Percent(nav, runPeak);
        if dd < maxDD {
          maxDD := dd;
        }
      } else {
        DrawdownNonPositive(bars, i);
      }
    }
    line := Some(Headline(bars[0].nav, end, Gain(start, end), peak, peakIdx, trough, troughIdx, maxDD));
  }

  // The last bar no later than `date` before the first one that is.
  function LastBefore(bars: seq<Bar>, date: int): (n: int)
    ensures -1 <= n < |bars|
  {
    if bars == [] || bars[0].tradingDate > date then -1 else 1 + LastBefore(bars[1..], date)
  }

  // The trailing window ending at the bar in force, its drawdown in one pass.
  method TrailingStats(bars: seq<Bar>, date: int, lookback: int) returns (stats: Option<Trail>)
    ensures var end := LastBefore(bars, date);
            && end < |bars|
            && (stats.None? <==> lookback <= 0 || end < 0)
            && (stats.Some? ==>
                  var first := if end - lookback + 1 < 0 then 0 else end - lookback + 1;
                  var window := bars[first..end + 1];
                  && GainedBy(window[0].nav, window[|window| - 1].nav, stats.value.cumulative)
                  && DeepestFall(window, stats.value.maxDrawdown)
                  && stats.value == Trail(|window|, Gain(window[0].nav, window[|window| - 1].nav),
                                          MaxDrawdown(window, |window|)))
  {
    LastBeforeIs(bars, date);
    if |bars| == 0 || lookback <= 0 {
      return None;
    }
    var end := LastUpToDate(bars, date);
    if end < 0 {
      return None;
    }
    var first := end - lookback + 1;
    if first < 0 {
      first := 0;
    }
    var window := bars[first..end + 1];
    GainIs(window[0].nav, window[|window| - 1].nav);
    DrawdownExactly(window);
    hide GainedBy, DeepestFall;
    var peak, maxDD := window[0].nav, 0.0;
    for i := 0 to |window|
      invariant peak == if i == 0 then window[0].nav else RunPeak(window, i - 1)
      invariant maxDD == MaxDrawdown(window, i)
    {
      if window[i].nav > peak {
        peak := window[i].nav;
      }
      if peak > 0.0 {
        var dd := Percent(window[i].nav, peak);
        if dd < maxDD {
          maxDD := dd;
        }
      } else {
        DrawdownNonPositive(window, i);
      }
    }
    stats := Some(Trail(|window|, Gain(window[0].nav, window[|window| - 1].nav), maxDD));
  }

  lemma {:induction false} DrawdownNonPositive(bars: seq<Bar>, n: nat)
    requires n <= |bars|
    ensures MaxDrawdown(bars, n) <= 0.0
    decreases n
  {
  }

  lemma {:induction false} RunPeakIs(bars: seq<Bar>, j: nat) returns (i: nat)
    requires j < |bars|
    ensures i <= j && RunPeak(bars, j) == bars[i].nav
    ensures forall k | 0 <= k <= j :: bars[k].nav <= RunPeak(bars, j)
    decreases j
  {
    if j == 0 {
      i := 0;
    } else {
      i := RunPeakIs(bars, j - 1);
      if bars[j].nav > RunPeak(bars, j - 1) {
        i := j;
      }
    }
  }

  ghost predicate Positive(bars: seq<Bar>) {
    forall i | 0 <= i < |bars| :: bars[i].nav > 0.0
  }

  // A higher base makes the change from it lower.
  lemma PercentFalls(now: real, low: real, high: real)
    requires now > 0.0 && 0.0 < low <= high
    ensures Percent(now, high) <= Percent(now, low)
  {
    RatioAgainst(now, high, now / low);
    var ratio := now / low;
    assert now == ratio * low && ratio > 0.0;
    assert ratio * low <= ratio * high;
  }

  // For positive NAVs the drawdown is the worst change over all ordered pairs of
  // bars: no pair does worse ...
  lemma {:induction false} DrawdownBelowPairs(bars: seq<Bar>, n: nat, i: nat, j: nat)
    requires Positive(bars) && n <= |bars| && i <= j < n
    ensures MaxDrawdown(bars, n) <= Percent(bars[j].nav, bars[i].nav)
    decreases n
  {
    if j < n - 1 {
      DrawdownBelowPairs(bars, n - 1, i, j);
    } else {
      var p := RunPeakIs(bars, j);
      PercentFalls(bars[j].nav, bars[i].nav, RunPeak(bars, j));
    }
  }

  // ... and some pair does exactly as badly.
  lemma {:induction false} DrawdownIsAPair(bars: seq<Bar>, n: nat) returns (i: nat, j: nat)
    requires Positive(bars) && 0 < n <= |bars|
    ensures i <= j < n
    ensures MaxDrawdown(bars, n) == Percent(bars[j].nav, bars[i].nav)
    decreases n
  {
    if Dip(bars, n - 1) < MaxDrawdown(bars, n - 1) {
      i := RunPeakIs(bars, n - 1);
      j := n - 1;
    } else if n == 1 {
      i, j := 0, 0;
    } else {
      i, j := DrawdownIsAPair(bars, n - 1);
    }
  }

  // So a window never draws down more than the whole, and there is no drawdown
  // exactly when NAVs never fall.
  lemma DrawdownLaws(bars: seq<Bar>, first: nat, last: nat)
    requires Positive(bars) && first < last <= |bars|
    ensures -100.0 < MaxDrawdown(bars, |bars|) <= MaxDrawdown(bars[first..last], last - first) <= 0.0
    ensures MaxDrawdown(bars, |bars|) == 0.0 <==> forall i, j | 0 <= i <= j < |bars| :: bars[i].nav <= bars[j].nav
  {
    DrawdownNonPositive(bars, |bars|);
    var window := bars[first..last];
    DrawdownNonPositive(window, |window|);
    var i, j := DrawdownIsAPair(window, |window|);
    DrawdownBelowPairs(bars, |bars|, first + i, first + j);
    var p, q := DrawdownIsAPair(bars, |bars|);
    PercentSign(bars[q].nav, bars[p].nav);
    forall i, j | 0 <= i <= j < |bars| && MaxDrawdown(bars, |bars|) == 0.0 ensures bars[i].nav <= bars[j].nav {
      DrawdownBelowPairs(bars, |bars|, i, j);
      PercentSign(bars[j].nav, bars[i].nav);
    }
  }

  lemma PercentSign(now: real, before: real)
    requires now > 0.0 && before > 0.0
    ensures Percent(now, before) > -100.0
    ensures Percent(now, before) >= 0.0 <==> now >= before
  {
    RatioAgainst(now, before, 0.0);
    RatioAgainst(now, before, 1.0);
  }

  // --- The bar in force ------------------------------------------------------

  ghost predicate Chronological(bars: seq<Bar>) {
    forall i, j | 0 <= i < j < |bars| :: bars[i].tradingDate <= bars[j].tradingDate
  }

  lemma {:induction false} LastBeforeIs(bars: seq<Bar>, date: int)
    ensures var n := LastBefore(bars, date);
            && -1 <= n < |bars|
            && (forall k | 0 <= k <= n :: bars[k].tradingDate <= date)
            && (n + 1 < |bars| ==> bars[n + 1].tradingDate > date)
    decreases |bars|
  {
    if bars != [] && bars[0].tradingDate <= date {
      LastBeforeIs(bars[1..], date);
      var n := LastBefore(bars, date);
      forall k | 0 <= k <= n ensures bars[k].tradingDate <= date {
        if k > 0 {
          assert bars[k] == bars[1..][k - 1];
        }
      }
    }
  }

  // The scan with its early exit.
  method LastUpToDate(bars: seq<Bar>, date: int) returns (best: int)
    ensures best == LastBefore(bars, date)
  {
    best := -1;
    LastBeforeIs(bars, date);
    for i := 0 to |bars|
      invariant best == i - 1
      invariant forall k | 0 <= k < i :: bars[k].tradingDate <= date
    {
      if bars[i].tradingDate > date {
        break;
      }
      best := i;
    }
  }

  // The last bar on a day.
  function LastOn(bars: seq<Bar>, day: int): (n: int)
    ensures -1 <= n < |bars|
  {
    if bars == [] then -1
    else if DayOf(bars[|bars| - 1].tradingDate) == day then |bars| - 1
    else LastOn(bars[..|bars| - 1], day)
  }

  lemma {:induction false} LastOnIs(bars: seq<Bar>, day: int)
    ensures var n := LastOn(bars, day);
            && -1 <= n < |bars|
            && (n >= 0 ==> DayOf(bars[n].tradingDate) == day)
            && (forall k | n < k < |bars| :: DayOf(bars[k].tradingDate) != day)
    decreases |bars|
  {
    if bars != [] && DayOf(bars[|bars| - 1].tradingDate) != day {
      LastOnIs(bars[..|bars| - 1], day);
    }
  }

  class Context {
    var bars: seq<Bar>
    var navByDate: map<int, nat>

    ghost predicate Valid()
      reads this
    {
      && (forall day | day in navByDate :: LastOn(bars, day) == navByDate[day])
      && (forall i | 0 <= i < |bars| :: DayOf(bars[i].tradingDate) in navByDate)
    }

    // Later bars of a day overwrite earlier ones.
    constructor (navs: seq<Bar>)
      ensures Valid() && bars == navs
    {
      bars, navByDate := navs, map[];
      new;
      for i := 0 to |navs|
        invariant bars == navs
        invariant forall day | day in navByDate :: LastOn(navs[..i], day) == navByDate[day]
        invariant forall k | 0 <= k < i :: DayOf(navs[k].tradingDate) in navByDate
      {
        assert navs[..i + 1][..i] == navs[..i];
        navByDate := navByDate[DayOf(navs[i].tradingDate) := i];
      }
      assert navs[..|navs|] == navs;
    }

    // The bar for an instant: the map first, the scan otherwise; -1 for none.
    method NavForDate(date: int) returns (idx: int)
      requires Valid()
      ensures idx == BarInForce(bars, date)
      ensures -1 <= idx < |bars|
      ensures if exists k | 0 <= k < |bars| :: DayOf(bars[k].tradingDate) == DayOf(date)
              then idx >= 0 && DayOf(bars[idx].tradingDate) == DayOf(date)
                   && forall k | idx < k < |bars| :: DayOf(bars[k].tradingDate) != DayOf(date)
              else (forall k | 0 <= k <= idx :: bars[k].tradingDate <= date)
                   && (idx + 1 < |bars| ==> bars[idx + 1].tradingDate > date)
    {
      LastBeforeIs(bars, date);
      LastOnIs(bars, DayOf(date));
      if |bars| == 0 {
        return -1;
      }
      if DayOf(date) in navByDate {
        return navByDate[DayOf(date)];
      }
      idx := LastUpToDate(bars, date);
    }
  }

  function BarInForce(bars: seq<Bar>, date: int): int {
    if LastOn(bars, DayOf(date)) >= 0 then LastOn(bars, DayOf(date)) else LastBefore(bars, date)
  }

  // In date order the indexed lookup agrees with the plain scan exactly when the
  // day's last bar, if there is one, is not stamped after the instant asked for.
  lemma IndexAgrees(bars: seq<Bar>, date: int)
    requires Chronological(bars)
    ensures BarInForce(bars, date) == LastBefore(bars, date)
       <==> LastOn(bars, DayOf(date)) < 0 || bars[LastOn(bars, DayOf(date))].tradingDate <= date
  {
    LastBeforeIs(bars, date);
    LastOnIs(bars, DayOf(date));
    var hit, n := LastOn(bars, DayOf(date)), LastBefore(bars, date);
    if hit >= 0 && bars[hit].tradingDate <= date {
      if n > hit {
        assert bars[hit].tradingDate <= bars[n].tradingDate <= date;
        SameDay(bars[hit].tradingDate, bars[n].tradingDate, date);
      }
    }
  }

  lemma SameDay(a: int, b: int, c: int)
    requires a <= b <= c && DayOf(a) == DayOf(c)
    ensures DayOf(b) == DayOf(c)
  {
  }

  // Bars stamped at UTC midnight, duplicates allowed, always meet that; and then
  // there is no bar exactly when every bar lies after the instant.
  lemma MidnightBarsAgree(bars: seq<Bar>, date: int)
    requires Chronological(bars)
    requires forall i | 0 <= i < |bars| :: bars[i].tradingDate == DayOf(bars[i].tradingDate) * DAY
    ensures BarInForce(bars, date) == LastBefore(bars, date)
    ensures BarInForce(bars, date) < 0 <==> forall i | 0 <= i < |bars| :: bars[i].tradingDate > date
  {
    LastOnIs(bars, DayOf(date));
    LastBeforeIs(bars, date);
    IndexAgrees(bars, date);
    if LastBefore(bars, date) < 0 && bars != [] {
      assert forall i | 0 <= i < |bars| :: bars[0].tradingDate <= bars[i].tradingDate;
    }
  }
}
