// Per-symbol attribution of an A/B test: the grouped trade rows are pivoted into
// one row per symbol, ranked by the size of the profit gap, and capped.
module Attribution {
  import opened Options
  import opened Text

  datatype Bucket = Bucket(count: int, turnover: real, pnl: real, wins: int)

  // One group of the query's GROUP BY variant_key, symbol.
  datatype Group = Group(variant: string, symbol: string, sums: Bucket)

  datatype Winner = WinsA | WinsB | Tie

  datatype Row = Row(symbol: string, countA: int, countB: int, pnlA: real, pnlB: real,
                     turnoverA: real, turnoverB: real, gap: real, gapPct: real, winner: Winner)

  datatype Totals = Totals(count: int, turnover: real, pnl: real, winRate: real, avgPnl: real)

  datatype Report = Report(totalA: Totals, totalB: Totals, bySymbol: seq<Row>)

  const NOTHING := Bucket(0, 0.0, 0.0, 0)
  const TIE := 0.0001
  const CAP := 50

  // --- What the pivot computes --------------------------------------------------

  // The variant a group counts for, "A" and "B" only.
  function Side(g: Group): string {
    Upper(g.variant)
  }

  predicate Counted(g: Group) {
    Side(g) == "A" || Side(g) == "B"
  }

  // A later group of the same side and symbol replaces an earlier one.
  function Last(groups: seq<Group>, side: string, symbol: string): Option<Bucket> {
    if groups == [] then None else
      var g := groups[|groups| - 1];
      if Side(g) == side && g.symbol == symbol then Some(g.sums) else Last(groups[..|groups| - 1], side, symbol)
  }

  function At(groups: seq<Group>, side: string, symbol: string): Bucket {
    var b := Last(groups, side, symbol);
    if b.Some? then b.value else NOTHING
  }

  function Plus(a: Bucket, b: Bucket): Bucket {
    Bucket(a.count + b.count, a.turnover + b.turnover, a.pnl + b.pnl, a.wins + b.wins)
  }

  function Total(groups: seq<Group>, side: string): Bucket {
    if groups == [] then NOTHING else
      var g := groups[|groups| - 1];
      var rest := Total(groups[..|groups| - 1], side);
      if Side(g) == side then Plus(rest, g.sums) else rest
  }

  function Symbols(groups: seq<Group>): set<string> {
    set g | g in groups && Counted(g) :: g.symbol
  }

  function Larger(a: real, b: real): real {
    if a > b then a else b
  }

  function Abs(x: real): real {
    if x < 0.0 then -x else x
  }

  function Share(gap: real, notional: real): real {
    if notional > 0.0 then (gap / notional) * 100.0 else 0.0
  }

  function WinnerOf(gap: real): Winner {
    if gap > TIE then WinsB else if gap < -TIE then WinsA else Tie
  }

  function RowOf(symbol: string, a: Bucket, b: Bucket): Row {
    var gap := b.pnl - a.pnl;
    Row(symbol, a.count, b.count, a.pnl, b.pnl, a.turnover, b.turnover, gap,
        Share(gap, Larger(a.turnover, b.turnover)), WinnerOf(gap))
  }

  function RowFor(groups: seq<Group>, symbol: string): Row {
    RowOf(symbol, At(groups, "A", symbol), At(groups, "B", symbol))
  }

  // --- The order of rows --------------------------------------------------------

  // Go's string order.
  predicate Less(a: string, b: string) {
    b != [] && (a == [] || a[0] < b[0] || (a[0] == b[0] && Less(a[1..], b[1..])))
  }

  lemma {:induction false} LessTotal(a: string, b: string)
    ensures a == b || Less(a, b) || Less(b, a)
    ensures !(Less(a, b) && Less(b, a)) && !(a == b && Less(a, b))
    decreases |a|
  {
    if a != [] && b != [] {
      LessTotal(a[1..], b[1..]);
      if a[0] == b[0] && a[1..] == b[1..] {
        assert a == [a[0]] + a[1..] && b == [b[0]] + b[1..];
      }
    }
  }

  lemma {:induction false} LessTrans(a: string, b: string, c: string)
    requires Less(a, b) && Less(b, c)
    ensures Less(a, c)
    decreases |a|
  {
    if a != [] && a[0] == b[0] && b[0] == c[0] {
      LessTrans(a[1..], b[1..], c[1..]);
    }
  }

  // Largest gap first, then by symbol.
  predicate Before(r: Row, q: Row) {
    if Abs(r.gap) != Abs(q.gap) then Abs(r.gap) > Abs(q.gap) else Less(r.symbol, q.symbol)
  }

  predicate Ordered(rows: seq<Row>) {
    forall i, j | 0 <= i < j < |rows| :: Before(rows[i], rows[j])
  }

  lemma BeforeTrans(p: Row, q: Row, r: Row)
    requires Before(p, q) && Before(q, r)
    ensures Before(p, r)
  {
    if Less(p.symbol, q.symbol) && Less(q.symbol, r.symbol) {
      LessTrans(p.symbol, q.symbol, r.symbol);
    }
  }

  // One string is before another where they first differ, or where it ends.
  ghost predicate Precedes(a: string, b: string) {
    exists k | 0 <= k <= |a| && k < |b| :: a[..k] == b[..k] && (k == |a| || a[k] < b[k])
  }

  lemma {:induction false} LessExactly(a: string, b: string)
    ensures Less(a, b) <==> Precedes(a, b)
    decreases |a|
  {
    if a != [] && b != [] && a[0] == b[0] {
      LessExactly(a[1..], b[1..]);
      if Precedes(a[1..], b[1..]) {
        var k :| 0 <= k <= |a| - 1 && k < |b| - 1 && a[1..][..k] == b[1..][..k]
                 && (k == |a| - 1 || a[k + 1] < b[k + 1]);
        assert a[..k + 1] == [a[0]] + a[1..][..k] && b[..k + 1] == [b[0]] + b[1..][..k];
      }
      if k :| 0 <= k <= |a| && k < |b| && a[..k] == b[..k] && (k == |a| || a[k] < b[k]) {
        assert k > 0 && a[1..][..k - 1] == a[..k][1..] && b[1..][..k - 1] == b[..k][1..];
        assert Precedes(a[1..], b[1..]);
      }
    } else if b != [] {
      assert a[..0] == b[..0];
    }
  }

  // No gap is larger than one ranked before it, whichever side it favours; those of the
  // same size are in the order of their symbols.
  ghost predicate LargestFirst(rows: seq<Row>) {
    forall i, j | 0 <= i < j < |rows| ::
      && rows[i].gap * rows[i].gap >= rows[j].gap * rows[j].gap
      && (rows[i].gap == rows[j].gap || rows[i].gap == -rows[j].gap ==> Precedes(rows[i].symbol, rows[j].symbol))
  }

  lemma BeforeIs(r: Row, q: Row)
    requires Before(r, q)
    ensures r.gap * r.gap >= q.gap * q.gap
    ensures r.gap == q.gap || r.gap == -q.gap ==> Precedes(r.symbol, q.symbol)
  {
    LessExactly(r.symbol, q.symbol);
    var a, b := Abs(r.gap), Abs(q.gap);
    assert r.gap * r.gap == a * a && q.gap * q.gap == b * b;
    assert a * a >= b * b by {
      assert a * (a - b) >= 0.0 && b * (a - b) >= 0.0;
    }
  }

  lemma OrderedIs(rows: seq<Row>)
    requires Ordered(rows)
    ensures LargestFirst(rows)
  {
    forall i, j | 0 <= i < j < |rows|
      ensures rows[i].gap * rows[i].gap >= rows[j].gap * rows[j].gap
      ensures rows[i].gap == rows[j].gap || rows[i].gap == -rows[j].gap ==> Precedes(rows[i].symbol, rows[j].symbol)
    {
      BeforeIs(rows[i], rows[j]);
    }
  }

  // The rows, one for each symbol traded, ranked.
  predicate IsRanking(rows: seq<Row>, groups: seq<Group>) {
    && Ordered(rows)
    && (forall r | r in rows :: r.symbol in Symbols(groups) && r == RowFor(groups, r.symbol))
    && (forall s | s in Symbols(groups) :: RowFor(groups, s) in rows)
  }

  // --- The report ---------------------------------------------------------------

  // Averages times the count give back the sums, and the win rate is a rate.
  predicate Summarises(t: Totals, b: Bucket) {
    && t.count == b.count && t.turnover == b.turnover && t.pnl == b.pnl
    && (if b.count > 0 then t.avgPnl * b.count as real == b.pnl && t.winRate * b.count as real == b.wins as real
        else t.avgPnl == 0.0 && t.winRate == 0.0)
    && (0 <= b.wins <= b.count ==> 0.0 <= t.winRate <= 1.0)
  }

  method TotalsOf(b: Bucket) returns (t: Totals)
    ensures Summarises(t, b)
  {
    t := Totals(b.count, b.turnover, b.pnl, 0.0, 0.0);
    if b.count > 0 {
      var n := b.count as real;
      t := t.(avgPnl := b.pnl / n, winRate := b.wins as real / n);
      if 0 <= b.wins <= b.count {
        Rate(b.wins as real, n);
      }
    }
  }

  lemma Rate(w: real, n: real)
    requires 0.0 <= w <= n && n > 0.0
    ensures 0.0 <= w / n <= 1.0
  {
  }

  lemma Snoc(groups: seq<Group>, n: nat)
    requires n < |groups|
    ensures groups[..n + 1][..n] == groups[..n] && |groups[..n + 1]| == n + 1 && groups[..n + 1][n] == groups[n]
    ensures Symbols(groups[..n + 1]) == Symbols(groups[..n]) + if Counted(groups[n]) then {groups[n].symbol} else {}
  {
  }

  predicate Pivoted(bySymbol: map<string, map<string, Bucket>>, groups: seq<Group>) {
    && bySymbol.Keys == Symbols(groups)
    && forall s, k | s in bySymbol && k in {"A", "B"} ::
         Last(groups, k, s) == if k in bySymbol[s] then Some(bySymbol[s][k]) else None
  }

  // Reading the groups into the two maps.
  method Collect(groups: seq<Group>) returns (bySymbol: map<string, map<string, Bucket>>, totals: map<string, Bucket>)
    ensures Pivoted(bySymbol, groups)
    ensures totals == map["A" := Total(groups, "A"), "B" := Total(groups, "B")]
  {
    hide Last, Symbols, Total, Upper;
    bySymbol := map[];
    totals := map["A" := NOTHING, "B" := NOTHING];
    Empty();
    for n := 0 to |groups|
      invariant Pivoted(bySymbol, groups[..n])
      invariant totals == map["A" := Total(groups[..n], "A"), "B" := Total(groups[..n], "B")]
    {
      var g := groups[n];
      var key := Upper(g.variant);
      TotalStep(groups, n, "A");
      TotalStep(groups, n, "B");
      if key != "A" && key != "B" {
        Skipped(bySymbol, groups, n);
        continue;
      }
      Stored(bySymbol, groups, n);
      if g.symbol !in bySymbol {
        bySymbol := bySymbol[g.symbol := map[]];
      }
      bySymbol := bySymbol[g.symbol := bySymbol[g.symbol][key := g.sums]];
      var t := totals[key];
      totals := totals[key := Bucket(t.count + g.sums.count, t.turnover + g.sums.turnover,
                                     t.pnl + g.sums.pnl, t.wins + g.sums.wins)];
    }
    assert groups[..|groups|] == groups;
  }

  lemma Empty()
    ensures Pivoted(map[], []) && Total([], "A") == NOTHING && Total([], "B") == NOTHING
  {
  }

  lemma TotalStep(groups: seq<Group>, n: nat, side: string)
    requires n < |groups|
    ensures Total(groups[..n + 1], side) ==
            if Upper(groups[n].variant) == side then Plus(Total(groups[..n], side), groups[n].sums)
            else Total(groups[..n], side)
  {
    Snoc(groups, n);
  }

  lemma LastStep(groups: seq<Group>, n: nat, side: string, symbol: string)
    requires n < |groups|
    ensures Last(groups[..n + 1], side, symbol) ==
            if Side(groups[n]) == side && groups[n].symbol == symbol then Some(groups[n].sums)
            else Last(groups[..n], side, symbol)
  {
    Snoc(groups, n);
  }

  lemma Skipped(m: map<string, map<string, Bucket>>, groups: seq<Group>, n: nat)
    requires n < |groups| && Pivoted(m, groups[..n]) && !Counted(groups[n])
    ensures Pivoted(m, groups[..n + 1])
  {
    hide Last, Symbols, Upper;
    Snoc(groups, n);
    forall s, k | s in m && k in {"A", "B"}
      ensures Last(groups[..n + 1], k, s) == if k in m[s] then Some(m[s][k]) else None
    {
      LastStep(groups, n, k, s);
    }
  }

  lemma Stored(m: map<string, map<string, Bucket>>, groups: seq<Group>, n: nat)
    requires n < |groups| && Pivoted(m, groups[..n]) && Counted(groups[n])
    ensures var g := groups[n];
            var m' := if g.symbol in m then m else m[g.symbol := map[]];
            Pivoted(m'[g.symbol := m'[g.symbol][Side(g) := g.sums]], groups[..n + 1])
  {
    var g := groups[n];
    if g.symbol !in m {
      NeverSeen(groups[..n], g.symbol);
    }
    hide Last, Symbols, Upper;
    Snoc(groups, n);
    var m' := if g.symbol in m then m else m[g.symbol := map[]];
    var m'' := m'[g.symbol := m'[g.symbol][Side(g) := g.sums]];
    forall s, k | s in m'' && k in {"A", "B"}
      ensures Last(groups[..n + 1], k, s) == if k in m''[s] then Some(m''[s][k]) else None
    {
      LastStep(groups, n, k, s);
    }
  }

  lemma {:induction false} NeverSeen(groups: seq<Group>, symbol: string)
    requires symbol !in Symbols(groups)
    ensures Last(groups, "A", symbol) == None && Last(groups, "B", symbol) == None
    decreases |groups|
  {
    if groups != [] {
      var n := |groups| - 1;
      assert groups[..n + 1] == groups;
      Snoc(groups, n);
      NeverSeen(groups[..n], symbol);
    }
  }

  // Insertion by the comparison above, which leaves no two rows equal.
  method Sort(rows: seq<Row>) returns (sorted: seq<Row>)
    requires forall i, j | 0 <= i < j < |rows| :: rows[i].symbol != rows[j].symbol
    ensures Ordered(sorted) && LargestFirst(sorted) && multiset(sorted) == multiset(rows)
  {
    sorted := [];
    for n := 0 to |rows|
      invariant Ordered(sorted) && multiset(sorted) == multiset(rows[..n])
    {
      assert rows[..n + 1] == rows[..n] + [rows[n]];
      forall r | r in sorted ensures r.symbol != rows[n].symbol {
        assert r in multiset(rows[..n]);
      }
      sorted := Insert(sorted, rows[n]);
    }
    assert rows[..|rows|] == rows;
    OrderedIs(sorted);
  }

  method Insert(rows: seq<Row>, r: Row) returns (more: seq<Row>)
    requires Ordered(rows) && forall q | q in rows :: q.symbol != r.symbol
    ensures Ordered(more) && multiset(more) == multiset(rows) + multiset{r}
  {
    hide Ordered, Before, Abs, Less;
    var p := |rows|;
    while p > 0 && Before(r, rows[p - 1])
      invariant 0 <= p <= |rows|
      invariant forall q | p <= q < |rows| :: Before(r, rows[q])
    {
      p := p - 1;
    }
    InsertOrdered(rows, r, p);
    more := rows[..p] + [r] + rows[p..];
    assert rows[..p] + rows[p..] == rows;
  }

  // The row goes where everything behind it belongs behind it and the row before does not.
  lemma InsertOrdered(rows: seq<Row>, r: Row, p: nat)
    requires Ordered(rows) && p <= |rows| && forall q | q in rows :: q.symbol != r.symbol
    requires forall q | p <= q < |rows| :: Before(r, rows[q])
    requires p > 0 ==> !Before(r, rows[p - 1])
    ensures Ordered(rows[..p] + [r] + rows[p..])
  {
    forall q | 0 <= q < p ensures Before(rows[q], r) {
      LastBefore(r, rows[p - 1]);
      if q < p - 1 {
        BeforeTrans(rows[q], rows[p - 1], r);
      }
    }
    hide Before;
  }

  lemma LastBefore(r: Row, q: Row)
    requires !Before(r, q) && r.symbol != q.symbol
    ensures Before(q, r)
  {
    LessTotal(q.symbol, r.symbol);
  }

  method BuildRow(symbol: string, a: Bucket, b: Bucket) returns (row: Row)
    ensures row == RowOf(symbol, a, b)
    ensures row.gap == row.pnlB - row.pnlA
    ensures a.turnover >= b.turnover && a.turnover > 0.0 ==> row.gapPct * a.turnover == row.gap * 100.0
    ensures b.turnover >= a.turnover && b.turnover > 0.0 ==> row.gapPct * b.turnover == row.gap * 100.0
    ensures a.turnover <= 0.0 && b.turnover <= 0.0 ==> row.gapPct == 0.0
    ensures row.winner == WinsA <==> row.pnlA - row.pnlB > 0.0001
    ensures row.winner == WinsB <==> row.pnlB - row.pnlA > 0.0001
  {
    row := Row(symbol, a.count, b.count, a.pnl, b.pnl, a.turnover, b.turnover, b.pnl - a.pnl, 0.0, Tie);
    var denom := Larger(a.turnover, b.turnover);
    if denom > 0.0 {
      row := row.(gapPct := (row.gap / denom) * 100.0);
      assert row.gapPct * denom == (row.gap / denom) * denom * 100.0;
    }
    if row.gap > TIE {
      row := row.(winner := WinsB);
    } else if row.gap < -TIE {
      row := row.(winner := WinsA);
    }
  }

  // One row per symbol, in whatever order the map yields them.
  method BuildRows(bySymbol: map<string, map<string, Bucket>>, ghost groups: seq<Group>) returns (rows: seq<Row>)
    requires Pivoted(bySymbol, groups)
    ensures |rows| == |Symbols(groups)|
    ensures forall r | r in rows :: r.symbol in Symbols(groups) && r == RowFor(groups, r.symbol)
    ensures forall s | s in Symbols(groups) :: RowFor(groups, s) in rows
    ensures forall i, j | 0 <= i < j < |rows| :: rows[i].symbol != rows[j].symbol
  {
    hide Last, Symbols, Share, WinnerOf, Larger;
    rows := [];
    var left := bySymbol.Keys;
    while left != {}
      invariant left <= bySymbol.Keys && |rows| + |left| == |bySymbol.Keys|
      invariant forall r | r in rows :: r.symbol in bySymbol.Keys && r.symbol !in left && r == RowFor(groups, r.symbol)
      invariant forall s | s in bySymbol.Keys && s !in left :: RowFor(groups, s) in rows
      invariant forall i, j | 0 <= i < j < |rows| :: rows[i].symbol != rows[j].symbol
      decreases left
    {
      var symbol :| symbol in left;
      var a := if "A" in bySymbol[symbol] then bySymbol[symbol]["A"] else NOTHING;
      var b := if "B" in bySymbol[symbol] then bySymbol[symbol]["B"] else NOTHING;
      assert a == At(groups, "A", symbol) && b == At(groups, "B", symbol);
      var row := BuildRow(symbol, a, b);
      rows := rows + [row];
      left := left - {symbol};
    }
  }

  // The report for the groups a query returned.  `all` is the ranking before the
  // cap; nothing dropped has a larger gap than anything kept.
  method OperationalAttribution(groups: seq<Group>) returns (report: Report, ghost all: seq<Row>)
    ensures IsRanking(all, groups) && |all| == |Symbols(groups)|
    ensures LargestFirst(all)
    ensures report.bySymbol == if |all| > 50 then all[..50] else all
    ensures Summarises(report.totalA, Total(groups, "A")) && Summarises(report.totalB, Total(groups, "B"))
  {
    hide Symbols, RowFor, Total, Last, Summarises, LargestFirst;
    var bySymbol, totals := Collect(groups);
    var totalA := TotalsOf(totals["A"]);
    var totalB := TotalsOf(totals["B"]);
    var rows := BuildRows(bySymbol, groups);
    var sorted := Sort(rows);
    assert forall r :: r in sorted <==> r in multiset(sorted);
    assert forall r :: r in rows <==> r in multiset(rows);
    assert |sorted| == |multiset(sorted)| == |rows|;
    all := sorted;
    if |sorted| > CAP {
      sorted := sorted[..CAP];
    }
    report := Report(totalA, totalB, sorted);
    OrderedIs(all);
  }
}
