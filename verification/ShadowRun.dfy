// One analyze run: the decider, the loop that feeds B's ledger and the price
// timeline from the control trades, and the NAV series at its end.
module ShadowRun {
  import opened Options
  import opened Text
  import opened Lots
  import opened LotLedger
  import opened Prices
  import opened Replay
  import opened NavReplay
  import opened NavLaws
  import opened NavRuns
  import opened Decisions
  import opened Budget
  import opened BiasNav
  import opened Scaling

  // Every control trade feeds the timeline, under its symbol as it stands.
  function Feed(ts: seq<Trade>): Quotes {
    if ts == [] then map[] else
      var t := ts[|ts| - 1];
      Added(Feed(ts[..|ts| - 1]), t.symbol, t.date, t.price)
  }

  lemma FeedSnoc(ts: seq<Trade>, n: nat)
    requires n < |ts|
    ensures Feed(ts[..n + 1]) == Added(Feed(ts[..n]), ts[n].symbol, ts[n].date, ts[n].price)
  {
    assert ts[..n + 1][..n] == ts[..n];
  }

  lemma ShadowSnoc(ts: seq<Trade>, ds: seq<Decision>, n: nat)
    requires |ts| == |ds| && n < |ts|
    ensures Shadow(ts[..n + 1], ds[..n + 1])
         == ShadowStep(Shadow(ts[..n], ds[..n]), ts[n], ds[n])
  {
    assert ts[..n + 1][..n] == ts[..n] && ds[..n + 1][..n] == ds[..n];
  }

  // What one decision does to B's run so far.
  function ShadowStep(past: seq<Trade>, t: Trade, d: Decision): seq<Trade> {
    match ApplyDecision(t, d)
    case None => past
    case Some(b) => past + [b]
  }

  method ApplyOne(ledger: Ledger, t: Trade, d: Decision, ghost start: Lots.Book, ghost past: seq<Trade>)
    requires ledger.Valid() && ledger.View() == Run(start, past)
    modifies ledger
    ensures ledger.Valid() && ledger.View() == Run(start, ShadowStep(past, t, d))
  {
    var b := ApplyDecision(t, d);
    if b.Some? {
      RunSnoc(start, past, b.value);
      var _ := ledger.Apply(b.value.date, b.value.symbol, b.value.side, b.value.quantity, b.value.price);
    }
  }

  // One control trade: priced, decided on, and applied to B's ledger.
  method OneTrade(ledger: Ledger, timeline: Timeline, decider: Decider, ts: seq<Trade>, reply: Option<Reply>,
                  scale: real, i: nat, ghost ds: seq<Decision>, ghost start: Lots.Book)
    requires ledger.Valid() && |ds| == |ts| && i < |ts|
    requires ds[i] == DecisionAt(decider.Left(), reply, scale)
    requires ledger.View() == Run(start, Shadow(ts[..i], ds[..i])) && timeline.bySymbol == Feed(ts[..i])
    modifies ledger, timeline, decider
    ensures ledger.Valid()
    ensures decider.Left() == LeftAfter(old(decider.Left()), 1)
    ensures decider.callsThisRun == UsedAfter(decider.maxCalls, old(decider.callsThisRun), Session(1, false))
    ensures ledger.View() == Run(start, Shadow(ts[..i + 1], ds[..i + 1])) && timeline.bySymbol == Feed(ts[..i + 1])
  {
    FeedSnoc(ts, i);
    ShadowSnoc(ts, ds, i);
    hide *;
    var t := ts[i];
    timeline.Add(t.symbol, t.date, t.price);
    var d := decider.DecideTrade(reply, scale);
    ApplyOne(ledger, t, d, start, Shadow(ts[..i], ds[..i]));
  }

  lemma Decided(replies: seq<Option<Reply>>, left: nat, scale: real)
    ensures var ds := DecisionsFor(replies, left, scale);
            |ds| == |replies| && forall i | 0 <= i < |ds| :: ds[i] == DecisionAt(LeftAfter(left, i), replies[i], scale)
    ensures LeftAfter(left, 0) == left
  {
  }

  lemma NothingYet(ts: seq<Trade>, ds: seq<Decision>, start: Lots.Book)
    requires |ts| == |ds|
    ensures Run(start, Shadow(ts[..0], ds[..0])) == start && Feed(ts[..0]) == map[]
  {
  }

  lemma NoneAsked(max: nat, used: nat)
    requires used <= max
    ensures UsedAfter(max, used, Session(0, false)) == used
  {
  }

  // Runs a decider, new or used, over the control trades in whatever order they
  // come, filling ledger and timeline.
  method Build(ts: seq<Trade>, replies: seq<Option<Reply>>, decider: Decider, scale: real, initialCash: real)
    returns (ledger: Ledger, timeline: Timeline)
    requires |replies| == |ts| && decider.callsThisRun <= decider.maxCalls
    modifies decider
    ensures fresh(ledger) && fresh(timeline) && ledger.Valid()
    ensures ledger.View() == Run(Fresh(initialCash), Shadow(ts, DecisionsFor(replies, old(decider.Left()), scale)))
    ensures timeline.bySymbol == Feed(ts)
    ensures decider.callsThisRun == UsedAfter(decider.maxCalls, old(decider.callsThisRun), Session(|ts|, false))
  {
    hide *;
    ledger := new Ledger(initialCash);
    timeline := new Timeline();
    ghost var left, used := decider.Left(), decider.callsThisRun;
    ghost var ds := DecisionsFor(replies, left, scale);
    Decided(replies, left, scale);
    NoneAsked(decider.maxCalls, used);
    NothingYet(ts, ds, Fresh(initialCash));
    for i := 0 to |ts|
      invariant fresh(ledger) && fresh(timeline) && ledger.Valid()
      invariant decider.Left() == LeftAfter(left, i)
      invariant decider.callsThisRun == UsedAfter(decider.maxCalls, used, Session(i, false))
      invariant ledger.View() == Run(Fresh(initialCash), Shadow(ts[..i], ds[..i]))
      invariant timeline.bySymbol == Feed(ts[..i])
    {
      DecisionsSnoc(left, i);
      UsedSnoc(decider.maxCalls, used, i);
      OneTrade(ledger, timeline, decider, ts, replies[i], scale, i, ds, Fresh(initialCash));
    }
    assert ts[..|ts|] == ts && ds[..|ts|] == ds;
  }

  lemma RunSnoc(b: Lots.Book, ts: seq<Trade>, t: Trade)
    ensures Run(b, ts + [t]) == Step(Run(b, ts), t)
  {
    assert (ts + [t])[..|ts|] == ts;
  }

  // The whole run, control trades to B's NAV rows: recomputed from B's ledger when
  // there was any trade, the control's own NAVs under a bias when there was none.
  method ShadowNav(ts: seq<Trade>, replies: seq<Option<Reply>>, decider: Decider, scale: real, bias: real,
                   navs: seq<Snapshot>)
    returns (rows: seq<Row>)
    requires |replies| == |ts| && decider.callsThisRun <= decider.maxCalls
    modifies decider
    ensures |rows| == |navs|
    ensures ts == [] ==> forall i | 0 <= i < |rows| :: IsBiased(rows[i], navs, bias, i)
    ensures ts != [] && navs != [] ==>
              var bars := BarsOf(navs);
              var capital := Capital(bars, navs[0].totalAssets);
              var ds := DecisionsFor(replies, old(decider.Left()), scale);
              && IsSeries(rows, Baseline(bars), capital)
              && AllReplayed(rows, Run(Fresh(navs[0].totalAssets), Shadow(ts, ds)).trades, bars, Feed(ts), capital)
  {
    var initialCash := 0.0;
    if |navs| > 0 {
      initialCash := navs[0].totalAssets;
    }
    ghost var ds := DecisionsFor(replies, decider.Left(), scale);
    var ledger, timeline := Build(ts, replies, decider, scale, initialCash);
    if |ts| > 0 {
      RunPosts(Fresh(initialCash), Shadow(ts, ds));
      rows := ComputeRows(ledger.trades, BarsOf(navs), timeline, ledger.initial);
    } else {
      rows := BiasedRows(navs, bias);
    }
  }

  // --- What the run makes of the trades -------------------------------------------

  // The places where `chosen` holds, in order.
  ghost predicate Selects(at: seq<nat>, chosen: seq<bool>) {
    && (forall j, k | 0 <= j < k < |at| :: at[j] < at[k])
    && forall i: nat :: i in at <==> i < |chosen| && chosen[i]
  }

  lemma SelectsSnoc(at: seq<nat>, chosen: seq<bool>, next: bool)
    requires Selects(at, chosen)
    ensures Selects(if next then at + [|chosen|] else at, chosen + [next])
  {
    forall k | 0 <= k < |at| ensures at[k] < |chosen| {
      assert at[k] in at;
    }
  }

  // A trade of that very symbol at a positive price.
  function Fed(ts: seq<Trade>, symbol: string): seq<bool> {
    seq(|ts|, i requires 0 <= i < |ts| => ts[i].symbol == symbol != "" && ts[i].price > 0.0)
  }

  ghost predicate ObservedAt(s: seq<Point>, ts: seq<Trade>, at: seq<nat>) {
    |s| == |at| && forall k | 0 <= k < |at| :: at[k] < |ts| && s[k] == Point(ts[at[k]].date, ts[at[k]].price)
  }

  // A symbol's series has an observation for each such trade, in order.
  lemma {:induction false} FeedExactly(ts: seq<Trade>, symbol: string) returns (at: seq<nat>)
    ensures Selects(at, Fed(ts, symbol)) && ObservedAt(Series(Feed(ts), symbol), ts, at)
    decreases |ts|
  {
    hide *;
    if ts == [] {
      at := [];
      NothingFed(symbol);
    } else {
      var n := |ts| - 1;
      at := FeedExactly(ts[..n], symbol);
      assert ts[..n + 1] == ts;
      FeedSnoc(ts, n);
      AddedExactly(Feed(ts[..n]), ts[n].symbol, ts[n].date, ts[n].price, symbol);
      FedSnoc(ts, symbol);
      SelectsSnoc(at, Fed(ts[..n], symbol), ts[n].symbol == symbol != "" && ts[n].price > 0.0);
      ObservedSnoc(Series(Feed(ts[..n]), symbol), ts, at);
      if ts[n].symbol == symbol != "" && ts[n].price > 0.0 {
        at := at + [n];
      }
    }
  }

  lemma NothingFed(symbol: string)
    ensures Selects([], Fed([], symbol)) && ObservedAt(Series(Feed([]), symbol), [], [])
  {
  }

  lemma FedSnoc(ts: seq<Trade>, symbol: string)
    requires ts != []
    ensures var n := |ts| - 1;
            |Fed(ts[..n], symbol)| == n
            && Fed(ts, symbol) == Fed(ts[..n], symbol) + [ts[n].symbol == symbol != "" && ts[n].price > 0.0]
  {
  }

  lemma ObservedSnoc(s: seq<Point>, ts: seq<Trade>, at: seq<nat>)
    requires ts != [] && ObservedAt(s, ts[..|ts| - 1], at)
    ensures var n := |ts| - 1;
            ObservedAt(s, ts, at) && ObservedAt(s + [Point(ts[n].date, ts[n].price)], ts, at + [n])
            && s + [] == s
  {
  }

  // Where the side of a decision's trade is taken from, and whether it makes one.
  function SideOf(t: Trade, d: Decision): string {
    if d.sideOverride != "" then d.sideOverride else t.side
  }

  predicate MakesOne(t: Trade, d: Decision) {
    !d.skip && t.quantity > 0.0 && SpellsSide(SideOf(t, d))
  }

  function SizeOf(d: Decision): real {
    if d.quantityScale > 0.0 then d.quantityScale else 1.0
  }

  function Makes(ts: seq<Trade>, ds: seq<Decision>): seq<bool>
    requires |ts| == |ds|
  {
    seq(|ts|, i requires 0 <= i < |ts| => MakesOne(ts[i], ds[i]))
  }

  ghost predicate ShadowsAt(bs: seq<Trade>, ts: seq<Trade>, ds: seq<Decision>, at: seq<nat>) {
    && |bs| == |at| && |ts| == |ds|
    && forall k | 0 <= k < |at| ::
         && at[k] < |ts|
         && Shadows(bs[k], ts[at[k]], SideOf(ts[at[k]], ds[at[k]]), SizeOf(ds[at[k]]))
  }

  // B has a trade for each control trade its decision makes one of, in order, at the
  // decision's scale and on its side.
  lemma {:induction false} ShadowExactly(ts: seq<Trade>, ds: seq<Decision>) returns (at: seq<nat>)
    requires |ts| == |ds|
    ensures Selects(at, Makes(ts, ds)) && ShadowsAt(Shadow(ts, ds), ts, ds, at)
    decreases |ts|
  {
    hide *;
    if ts == [] {
      at := [];
      NothingMade(ts, ds);
    } else {
      var n := |ts| - 1;
      at := ShadowExactly(ts[..n], ds[..n]);
      assert ts[..n + 1] == ts && ds[..n + 1] == ds;
      ShadowSnoc(ts, ds, n);
      StepExactly(Shadow(ts[..n], ds[..n]), ts[n], ds[n]);
      MakesSnoc(ts, ds);
      SelectsSnoc(at, Makes(ts[..n], ds[..n]), MakesOne(ts[n], ds[n]));
      ShadowsSnoc(Shadow(ts[..n], ds[..n]), ts, ds, at);
      if MakesOne(ts[n], ds[n]) {
        at := at + [n];
      }
    }
  }

  lemma NothingMade(ts: seq<Trade>, ds: seq<Decision>)
    requires ts == [] && ds == []
    ensures Selects([], Makes(ts, ds)) && ShadowsAt(Shadow(ts, ds), ts, ds, [])
  {
  }

  lemma StepExactly(past: seq<Trade>, t: Trade, d: Decision)
    ensures if MakesOne(t, d)
            then exists b :: ShadowStep(past, t, d) == past + [b] && Shadows(b, t, SideOf(t, d), SizeOf(d))
            else ShadowStep(past, t, d) == past
  {
    AppliesExactly(t, d);
    hide ApplyDecision, Shadows, SpellsSide;
    if MakesOne(t, d) {
      var b := ApplyDecision(t, d).value;
      assert ShadowStep(past, t, d) == past + [b] && Shadows(b, t, SideOf(t, d), SizeOf(d));
    }
  }

  lemma MakesSnoc(ts: seq<Trade>, ds: seq<Decision>)
    requires ts != [] && |ts| == |ds|
    ensures var n := |ts| - 1;
            |Makes(ts[..n], ds[..n])| == n
            && Makes(ts, ds) == Makes(ts[..n], ds[..n]) + [MakesOne(ts[n], ds[n])]
  {
    hide MakesOne;
  }

  lemma ShadowsSnoc(bs: seq<Trade>, ts: seq<Trade>, ds: seq<Decision>, at: seq<nat>)
    requires ts != [] && |ts| == |ds| && ShadowsAt(bs, ts[..|ts| - 1], ds[..|ts| - 1], at)
    ensures ShadowsAt(bs, ts, ds, at)
    ensures var n := |ts| - 1;
            forall b | Shadows(b, ts[n], SideOf(ts[n], ds[n]), SizeOf(ds[n])) :: ShadowsAt(bs + [b], ts, ds, at + [n])
  {
    hide Shadows;
  }

  // --- Does the timeline see what the ledger buys? ---------------------------

  // An observation stays observed.
  lemma AddedKeeps(quotes: Quotes, symbol: string, date: int, price: real, s: string, d: int)
    requires Observed(quotes, s, d)
    ensures Observed(Added(quotes, symbol, date, price), s, d)
  {
    var k :| 0 <= k < |Series(quotes, s)| && Series(quotes, s)[k].date == d;
    assert Series(Added(quotes, symbol, date, price), s)[k].date == d;
  }

  // Feeding a control trade reaches the series the ledger's symbol is priced
  // from exactly when the price is positive and the symbol carries no stray
  // white space: the ledger trims symbols, the timeline does not.
  lemma ReachesLedgerSymbol(quotes: Quotes, t: Trade)
    requires Trim(t.symbol) != ""
    ensures Series(Added(quotes, t.symbol, t.date, t.price), Trim(t.symbol)) != Series(quotes, Trim(t.symbol))
       <==> t.price > 0.0 && Trimmed(t.symbol)
  {
    TrimFixed(t.symbol);
    if t.price > 0.0 && t.symbol != "" {
      var grown := Series(quotes, t.symbol) + [Point(t.date, t.price)];
      assert |grown| == |Series(quotes, t.symbol)| + 1;
    }
  }

  lemma CoversSnoc(quotes: Quotes, os: seq<Order>, o: Order)
    requires Covers(quotes, os) && (o.kind == Buy ==> Observed(quotes, o.symbol, o.date))
    ensures Covers(quotes, os + [o])
  {
  }

  // Feeding one more clean trade keeps what was covered, and covers what B makes of it.
  lemma CleanStep(past: Quotes, t: Trade, d: Decision, os: seq<Order>)
    requires Covers(past, os) && t.price > 0.0 && t.symbol != "" && Trimmed(t.symbol)
    ensures var quotes := Added(past, t.symbol, t.date, t.price);
            && Covers(quotes, os)
            && (ApplyDecision(t, d).Some? ==> Covers(quotes, os + [OrderOf(ApplyDecision(t, d).value)]))
  {
    TrimFixed(t.symbol);
    var quotes := Added(past, t.symbol, t.date, t.price);
    forall i | 0 <= i < |os| && os[i].kind == Buy ensures Observed(quotes, os[i].symbol, os[i].date) {
      AddedKeeps(past, t.symbol, t.date, t.price, os[i].symbol, os[i].date);
    }
    var b := ApplyDecision(t, d);
    if b.Some? {
      var series := Series(quotes, t.symbol);
      assert series[|series| - 1] == Point(t.date, t.price);
      hide Added, KindOf;
      CoversSnoc(quotes, os, OrderOf(b.value));
    }
  }

  // So with clean symbols and positive prices every buy of the run is covered.
  lemma {:induction false} CleanRunCovers(ts: seq<Trade>, ds: seq<Decision>)
    requires |ts| == |ds|
    requires forall i | 0 <= i < |ts| :: ts[i].price > 0.0 && ts[i].symbol != "" && Trimmed(ts[i].symbol)
    ensures Covers(Feed(ts), Orders(Shadow(ts, ds)))
    decreases |ts|
  {
    if ts != [] {
      var n := |ts| - 1;
      CleanRunCovers(ts[..n], ds[..n]);
      assert ts[..n + 1] == ts && ds[..n + 1] == ds;
      FeedSnoc(ts, n);
      ShadowSnoc(ts, ds, n);
      hide Feed, Added, Shadow, Covers, ApplyDecision, OrderOf, KindOf, Trimmed;
      CleanStep(Feed(ts[..n]), ts[n], ds[n], Orders(Shadow(ts[..n], ds[..n])));
      var os, b := Orders(Shadow(ts[..n], ds[..n])), ApplyDecision(ts[n], ds[n]);
      assert b.Some? ==> Orders(Shadow(ts, ds)) == os + [OrderOf(b.value)];
    }
  }

  // --- The order of the trades ----------------------------------------------------

  ghost predicate OldestFirst(ts: seq<Trade>) {
    forall i, j | 0 <= i < j < |ts| :: ts[i].date <= ts[j].date
  }

  // The order in which the control fund's trades are listed for a run.
  ghost predicate LatestFirst(ts: seq<Trade>) {
    forall i, j | 0 <= i < j < |ts| :: ts[i].date >= ts[j].date
  }

  lemma {:induction false} FeedFrom(ts: seq<Trade>, symbol: string, k: nat) returns (i: nat)
    requires k < |Series(Feed(ts), symbol)|
    ensures i < |ts| && ts[i].date == Series(Feed(ts), symbol)[k].date
    decreases |ts|
  {
    var n := |ts| - 1;
    if k < |Series(Feed(ts[..n]), symbol)| {
      i := FeedFrom(ts[..n], symbol, k);
    } else {
      i := n;
    }
  }

  lemma SeriesSnoc(quotes: Quotes, t: Trade, symbol: string)
    ensures var s := Series(Added(quotes, t.symbol, t.date, t.price), symbol);
            s == Series(quotes, symbol) || s == Series(quotes, symbol) + [Point(t.date, t.price)]
  {
  }

  // A symbol's series is in the order of the trades.
  lemma {:induction false} FeedOrder(ts: seq<Trade>, symbol: string)
    ensures OldestFirst(ts) ==> Ordered(Series(Feed(ts), symbol))
    ensures LatestFirst(ts) ==> NewestFirst(Series(Feed(ts), symbol))
    decreases |ts|
  {
    if ts != [] {
      var n := |ts| - 1;
      var before, s := Series(Feed(ts[..n]), symbol), Series(Feed(ts), symbol);
      FeedOrder(ts[..n], symbol);
      FeedSnoc(ts, n);
      assert ts[..n + 1] == ts;
      hide Feed, Added;
      SeriesSnoc(Feed(ts[..n]), ts[n], symbol);
      forall k | 0 <= k < |before|
        ensures OldestFirst(ts) ==> before[k].date <= ts[n].date
        ensures LatestFirst(ts) ==> before[k].date >= ts[n].date
      {
        var i := FeedFrom(ts[..n], symbol, k);
        assert ts[..n][i] == ts[i];
      }
    }
  }

  // B's own trades keep the order too, and so does the log.
  lemma {:induction false} ShadowFrom(ts: seq<Trade>, ds: seq<Decision>, k: nat) returns (i: nat)
    requires |ts| == |ds| && k < |Shadow(ts, ds)|
    ensures i < |ts| && Shadow(ts, ds)[k].date == ts[i].date
    decreases |ts|
  {
    var n := |ts| - 1;
    if k < |Shadow(ts[..n], ds[..n])| {
      i := ShadowFrom(ts[..n], ds[..n], k);
    } else {
      i := n;
    }
  }

  lemma {:induction false} ShadowOrder(ts: seq<Trade>, ds: seq<Decision>)
    requires |ts| == |ds|
    ensures OldestFirst(ts) ==> OldestFirst(Shadow(ts, ds))
    ensures LatestFirst(ts) ==> LatestFirst(Shadow(ts, ds))
    decreases |ts|
  {
    if ts != [] {
      var n := |ts| - 1;
      var before, all := Shadow(ts[..n], ds[..n]), Shadow(ts, ds);
      ShadowOrder(ts[..n], ds[..n]);
      forall k | 0 <= k < |before|
        ensures OldestFirst(ts) ==> before[k].date <= ts[n].date
        ensures LatestFirst(ts) ==> before[k].date >= ts[n].date
      {
        var i := ShadowFrom(ts[..n], ds[..n], k);
        assert ts[..n][i] == ts[i];
      }
    }
  }

  lemma {:induction false} LogDates(cash: real, ts: seq<Trade>)
    ensures |Run(Fresh(cash), ts).trades| == |ts|
    ensures forall i | 0 <= i < |ts| :: Run(Fresh(cash), ts).trades[i].date == ts[i].date
    decreases |ts|
  {
    hide OrderOf, Outcome, Post, Shadow;
    if ts != [] {
      LogDates(cash, ts[..|ts| - 1]);
      LastLogged(cash, ts);
      hide Run;
    }
  }

  // The log of the run.
  function LogOf(cash: real, ts: seq<Trade>, ds: seq<Decision>): seq<AppliedTrade>
    requires |ts| == |ds|
  {
    Run(Fresh(cash), Shadow(ts, ds)).trades
  }

  lemma LoggedOrders(cash: real, ts: seq<Trade>, ds: seq<Decision>)
    requires |ts| == |ds|
    ensures Orders(Inputs(LogOf(cash, ts, ds))) == Orders(Shadow(ts, ds))
  {
    LogOrders(cash, Shadow(ts, ds));
  }

  // Run oldest first, every row has replayed exactly the trades on or before its day.
  lemma OldestFirstRun(ts: seq<Trade>, ds: seq<Decision>, cash: real, bars: seq<Bar>, capital: real, i: nat)
    requires |ts| == |ds| && OldestFirst(ts) && SortedBars(bars) && i < |bars|
    ensures AccountAt(LogOf(cash, ts, ds), bars, capital, i)
         == AccountOf(capital, Through(LogOf(cash, ts, ds), DayOf(bars[i].tradingDate)))
  {
    ShadowOrder(ts, ds);
    LogDates(cash, Shadow(ts, ds));
    RowSeesItsDays(LogOf(cash, ts, ds), bars, capital, i);
  }

  // Run newest first, as they are listed, no trade shows before the newest one's day
  // and all of them, in that order, from then on; and each symbol is marked at the
  // oldest price of all or at none, by whether its middle one is in time.
  lemma LatestFirstRun(ts: seq<Trade>, ds: seq<Decision>, cash: real, bars: seq<Bar>, capital: real, i: nat,
                       symbol: string)
    requires |ts| == |ds| && LatestFirst(ts) && i < |bars|
    ensures var log := LogOf(cash, ts, ds);
            AccountAt(log, bars, capital, i) ==
            if log == [] || Horizon(bars, i) < DayOf(log[0].date) then Opened(capital) else AccountOf(capital, log)
    ensures var s := Series(Feed(ts), symbol);
            PriceOn(Feed(ts), symbol, bars[i].tradingDate) ==
            if s != [] && Middle(s).date <= DayEnd(bars[i].tradingDate) then Some(s[|s| - 1].price) else None
  {
    ShadowOrder(ts, ds);
    LogDates(cash, Shadow(ts, ds));
    NewestFirstRows(LogOf(cash, ts, ds), bars, capital, i);
    FeedOrder(ts, symbol);
    NewestFirstFinds(Series(Feed(ts), symbol), DayEnd(bars[i].tradingDate));
  }

  // A buy and the later sell of what was bought: listed newest first, the sell comes
  // before the buy, fills nothing and earns nothing, and the position stays; the two
  // orders earn the same exactly when the prices are the same.
  lemma SellBeforeItsBuy(cash: real, symbol: string, quantity: real, bought: real, sold: real)
    requires Trimmed(symbol) && symbol != "" && quantity > 0.0 && bought >= 0.0 && sold >= 0.0
    ensures var buy, sell := Trade(0, symbol, "BUY", quantity, bought), Trade(DAY, symbol, "SELL", quantity, sold);
            var forth, back := Run(Fresh(cash), [buy, sell]).account, Run(Fresh(cash), [sell, buy]).account;
            && forth.realizedPnL == Times(quantity, sold) - Times(quantity, bought) && back.realizedPnL == 0.0
            && (forth.realizedPnL == back.realizedPnL <==> sold == bought)
            && Queue(forth.lots, symbol) == [] && Queue(back.lots, symbol) == [Lot(0, symbol, quantity, bought)]
  {
    var buy, sell := Trade(0, symbol, "BUY", quantity, bought), Trade(DAY, symbol, "SELL", quantity, sold);
    var b, s := Order(Buy, 0, symbol, quantity, bought), Order(Sell, DAY, symbol, quantity, sold);
    OrdersOfPair(symbol, quantity, bought, sold);
    assert Orders([buy, sell]) == [b, s] && Orders([sell, buy]) == [s, b];
    RunPosts(Fresh(cash), [buy, sell]);
    RunPosts(Fresh(cash), [sell, buy]);
    PairPosts(cash, b, s);
    TimesLaws(quantity, sold, bought);
  }

  lemma OrdersOfPair(symbol: string, quantity: real, bought: real, sold: real)
    requires Trimmed(symbol) && symbol != "" && quantity > 0.0 && bought >= 0.0 && sold >= 0.0
    ensures OrderOf(Trade(0, symbol, "BUY", quantity, bought)) == Order(Buy, 0, symbol, quantity, bought)
    ensures OrderOf(Trade(DAY, symbol, "SELL", quantity, sold)) == Order(Sell, DAY, symbol, quantity, sold)
  {
    TrimFixed(symbol);
    TrimFixed("BUY");
    TrimFixed("SELL");
    assert Upper("BUY") == "BUY" && Upper("SELL") == "SELL";
  }

  lemma PairPosts(cash: real, b: Order, s: Order)
    requires b.kind == Buy && s.kind == Sell && b.symbol == s.symbol && b.quantity == s.quantity > 0.0
    ensures var forth, back := PostAll(Opened(cash), [b, s]), PostAll(Opened(cash), [s, b]);
            && forth.realizedPnL == Times(b.quantity, s.price) - Times(b.quantity, b.price) && back.realizedPnL == 0.0
            && Queue(forth.lots, b.symbol) == [] && Queue(back.lots, b.symbol) == [Bought(b)]
  {
    TwoPosts(Opened(cash), b, s);
    TwoPosts(Opened(cash), s, b);
    hide PostAll;
    SoldOut(Opened(cash), b, s);
    hide Take;
    var refused := Post(Opened(cash), s);
    assert refused.lots == map[] && refused.realizedPnL == 0.0;
    assert Queue(Post(refused, b).lots, b.symbol) == [] + [Bought(b)];
  }

  lemma TwoPosts(a: Account, x: Order, y: Order)
    ensures PostAll(a, [x, y]) == Post(Post(a, x), y)
  {
    assert [x, y][..1] == [x] && [x][..0] == [];
    assert PostAll(a, [x]) == Post(PostAll(a, []), x);
  }

  lemma SoldOut(a: Account, b: Order, s: Order)
    requires a.lots == map[] && a.realizedPnL == 0.0
    requires b.kind == Buy && s.kind == Sell && b.symbol == s.symbol && b.quantity == s.quantity > 0.0
    ensures var done := Post(Post(a, b), s);
            && done.realizedPnL == Times(b.quantity, s.price) - Times(b.quantity, b.price)
            && Queue(done.lots, b.symbol) == []
  {
    var q := [Bought(b)];
    var bought := Post(a, b);
    assert [] + q == q && Queue(bought.lots, b.symbol) == q && bought.realizedPnL == 0.0;
    assert Held(q) == b.quantity && q[1..] == [];
    assert Take(q, b.quantity) == Taken([], Times(b.quantity, b.price) + 0.0, 0.0, 0.0);
    assert Outcome(bought.lots, s).realizedPnL == Times(b.quantity, s.price) - Times(b.quantity, b.price);
    assert LotsAfter(bought.lots, s)[b.symbol] == [];
  }

  // With clean symbols and positive prices, oldest first, the average-cost fallback
  // never fires and every mark is the most recent price ...
  lemma CleanRunNeverFallsBack(ts: seq<Trade>, ds: seq<Decision>, cash: real, bars: seq<Bar>, capital: real, i: nat,
                               symbol: string)
    requires |ts| == |ds| && i < |bars| && SortedBars(bars) && OldestFirst(ts)
    requires forall k | 0 <= k < |ts| :: ts[k].price > 0.0 && ts[k].symbol != "" && Trimmed(ts[k].symbol)
    requires Queue(AccountAt(LogOf(cash, ts, ds), bars, capital, i).lots, symbol) != []
    ensures PriceOn(Feed(ts), symbol, bars[i].tradingDate).Some?
    ensures var s, limit := Series(Feed(ts), symbol), DayEnd(bars[i].tradingDate);
            Latest(s, limit, Bisect(s, limit, 0, |s|) - 1)
  {
    hide *;
    CleanRunCovers(ts, ds);
    LoggedOrders(cash, ts, ds);
    FeedOrder(ts, symbol);
    FallbackNeverFires(LogOf(cash, ts, ds), bars, Feed(ts), capital, i, symbol);
  }

  // ... newest first, a held symbol falls back exactly when its middle price is late.
  lemma LatestFirstFallsBack(ts: seq<Trade>, ds: seq<Decision>, cash: real, bars: seq<Bar>, capital: real, i: nat,
                             symbol: string)
    requires |ts| == |ds| && i < |bars| && SortedBars(bars) && LatestFirst(ts)
    requires forall k | 0 <= k < |ts| :: ts[k].price > 0.0 && ts[k].symbol != "" && Trimmed(ts[k].symbol)
    requires Queue(AccountAt(LogOf(cash, ts, ds), bars, capital, i).lots, symbol) != []
    ensures var s := Series(Feed(ts), symbol);
            && s != []
            && (PriceOn(Feed(ts), symbol, bars[i].tradingDate).None? <==> Middle(s).date > DayEnd(bars[i].tradingDate))
  {
    hide *;
    CleanRunCovers(ts, ds);
    LoggedOrders(cash, ts, ds);
    var k := HeldWasObserved(LogOf(cash, ts, ds), bars, Feed(ts), capital, i, symbol);
    LatestFirstRun(ts, ds, cash, bars, capital, i, symbol);
  }

  // Any padded symbol shows the gap: the ledger holds the position, the timeline
  // has no price for it on any day.
  lemma PaddedSymbolFallsBack(symbol: string, date: int)
    requires !Trimmed(symbol) && Trim(symbol) != ""
    ensures var t := Trade(0, symbol, "BUY", 1.0, 10.0);
            && Held(Queue(Run(Fresh(100.0), [t]).account.lots, Trim(symbol))) == 1.0
            && PriceOn(Feed([t]), Trim(symbol), date).None?
  {
    var t := Trade(0, symbol, "BUY", 1.0, 10.0);
    BuyIsBuy(symbol);
    TrimFixed(symbol);
    hide OrderOf, KindOf, Trim;
    assert [t][..0] == [];
    assert Run(Fresh(100.0), [t]) == Step(Fresh(100.0), t);
    assert Queue(Step(Fresh(100.0), t).account.lots, Trim(symbol)) == [Lot(0, Trim(symbol), 1.0, 10.0)];
    assert Feed([t]) == Added(map[], symbol, 0, 10.0);
    assert Series(Feed([t]), Trim(symbol)) == [];
  }

  lemma BuyIsBuy(symbol: string)
    requires Trim(symbol) != ""
    ensures OrderOf(Trade(0, symbol, "BUY", 1.0, 10.0)) == Order(Buy, 0, Trim(symbol), 1.0, 10.0)
  {
    TrimFixed("BUY");
    assert Upper("BUY") == "BUY";
  }
}
