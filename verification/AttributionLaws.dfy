// What the attribution report keeps: totals against rows, independence from the
// order of groups and of map iteration, and the symmetry between the variants.
module AttributionLaws {
  import opened Options
  import opened Attribution
  import opened Sums
  import opened Text

  datatype Measure = Count | Turnover | Pnl | Wins

  function Of(m: Measure, b: Bucket): real {
    match m
    case Count => b.count as real
    case Turnover => b.turnover
    case Pnl => b.pnl
    case Wins => b.wins as real
  }

  // --- Canonical order ----------------------------------------------------------

  lemma SymbolsDiffer(rows: seq<Row>)
    requires Ordered(rows)
    ensures forall i, j | 0 <= i < j < |rows| :: rows[i] != rows[j]
  {
    forall i, j | 0 <= i < j < |rows| ensures rows[i] != rows[j] {
      LessTotal(rows[i].symbol, rows[j].symbol);
      assert Before(rows[i], rows[j]);
    }
  }

  lemma Inhabited(rows: seq<Row>)
    ensures rows == [] || exists r :: r in rows
  {
    assert rows == [] || rows[0] in rows;
  }

  // Two ordered lists of the same rows are the same list.
  lemma {:induction false} OrderedUnique(rows: seq<Row>, other: seq<Row>)
    requires Ordered(rows) && Ordered(other) && forall r :: r in rows <==> r in other
    ensures rows == other
    decreases |rows|
  {
    if rows == [] {
      Inhabited(other);
    } else {
      assert rows[0] in other;
      var r, q := rows[0], other[0];
      assert q in rows;
      var i :| 0 <= i < |other| && other[i] == r;
      var j :| 0 <= j < |rows| && rows[j] == q;
      if r != q {
        assert Before(q, r) && Before(r, q);
        LessTotal(q.symbol, r.symbol);
      }
      SymbolsDiffer(rows);
      SymbolsDiffer(other);
      forall x ensures x in rows[1..] <==> x in other[1..] {
        if x in rows[1..] {
          var k :| 0 <= k < |rows[1..]| && rows[1..][k] == x;
          assert rows[k + 1] == x && x != r && x in other;
        }
        if x in other[1..] {
          var k :| 0 <= k < |other[1..]| && other[1..][k] == x;
          assert other[k + 1] == x && x != q && x in rows;
        }
      }
      assert Ordered(rows[1..]) && Ordered(other[1..]);
      OrderedUnique(rows[1..], other[1..]);
      assert rows == [rows[0]] + rows[1..] && other == [other[0]] + other[1..];
    }
  }

  // The report does not depend on the order the map of symbols is walked in.
  lemma RankingUnique(rows: seq<Row>, other: seq<Row>, groups: seq<Group>)
    requires IsRanking(rows, groups) && IsRanking(other, groups)
    ensures rows == other
  {
    OrderedUnique(rows, other);
  }

  // --- What a row shows ---------------------------------------------------------

  lemma SideExactly(g: Group)
    ensures Side(g) == "A" <==> g.variant == "a" || g.variant == "A"
    ensures Side(g) == "B" <==> g.variant == "b" || g.variant == "B"
  {
    var v := g.variant;
    assert |Side(g)| == |v| && forall i | 0 <= i < |v| :: Side(g)[i] == UpperChar(v[i]);
  }

  predicate IsPart(g: Group, variants: set<string>, symbol: string) {
    g.variant in variants && g.symbol == symbol
  }

  ghost predicate IsLast(groups: seq<Group>, variants: set<string>, symbol: string, i: nat) {
    && i < |groups| && IsPart(groups[i], variants, symbol)
    && forall j | i < j < |groups| :: !IsPart(groups[j], variants, symbol)
  }

  // The last group of the symbol among those of the variants, nothing if there is none.
  ghost predicate Shows(groups: seq<Group>, variants: set<string>, symbol: string, count: int, turnover: real,
                        pnl: real)
  {
    if i: nat :| IsLast(groups, variants, symbol, i)
    then count == groups[i].sums.count && turnover == groups[i].sums.turnover && pnl == groups[i].sums.pnl
    else count == 0 && turnover == 0.0 && pnl == 0.0
  }

  lemma {:induction false} LastIsLast(groups: seq<Group>, side: string, variants: set<string>, symbol: string)
    requires forall g: Group :: Side(g) == side <==> g.variant in variants
    ensures Last(groups, side, symbol) == None ==>
              forall i | 0 <= i < |groups| :: !IsPart(groups[i], variants, symbol)
    ensures Last(groups, side, symbol).Some? ==>
              exists i | 0 <= i < |groups| ::
                IsLast(groups, variants, symbol, i) && groups[i].sums == Last(groups, side, symbol).value
    decreases |groups|
  {
    hide Side;
    if groups != [] {
      var n := |groups| - 1;
      var rest, g := groups[..n], groups[n];
      LastIsLast(rest, side, variants, symbol);
      assert forall i | 0 <= i < n :: rest[i] == groups[i];
      assert Side(g) == side <==> g.variant in variants;
      if IsPart(g, variants, symbol) {
        assert IsLast(groups, variants, symbol, n);
      } else if Last(rest, side, symbol).Some? {
        var i :| 0 <= i < n && IsLast(rest, variants, symbol, i) && rest[i].sums == Last(rest, side, symbol).value;
        assert IsLast(groups, variants, symbol, i);
      }
    }
  }

  lemma AtShows(groups: seq<Group>, side: string, variants: set<string>, symbol: string)
    requires forall g: Group :: Side(g) == side <==> g.variant in variants
    ensures var b := At(groups, side, symbol); Shows(groups, variants, symbol, b.count, b.turnover, b.pnl)
  {
    LastIsLast(groups, side, variants, symbol);
    hide Side, Last;
    assert forall i, j: nat | IsLast(groups, variants, symbol, i) && IsLast(groups, variants, symbol, j) :: i == j;
  }

  // A ranking has a row for each symbol with a group of variant a, A, b or B and no
  // other; the row has the last group of either side and the gap between their profits,
  // and rows come largest gap first.
  lemma RankingExactly(rows: seq<Row>, groups: seq<Group>)
    requires IsRanking(rows, groups)
    ensures LargestFirst(rows)
    ensures forall r | r in rows :: RowExactly(r, groups) && r.gap == r.pnlB - r.pnlA
    ensures forall g | g in groups && g.variant in {"a", "A", "b", "B"} :: exists r | r in rows :: r.symbol == g.symbol
  {
    OrderedIs(rows);
    hide LargestFirst, Ordered, RowExactly, At, Share, Larger, WinnerOf;
    forall r | r in rows ensures RowExactly(r, groups) && r.gap == r.pnlB - r.pnlA {
      RowForExactly(groups, r.symbol);
    }
    forall g | g in groups && g.variant in {"a", "A", "b", "B"} ensures exists r | r in rows :: r.symbol == g.symbol {
      SideExactly(g);
      hide Side;
      assert RowFor(groups, g.symbol) in rows;
    }
  }

  ghost predicate RowExactly(r: Row, groups: seq<Group>) {
    && (exists g | g in groups :: IsPart(g, {"a", "A", "b", "B"}, r.symbol))
    && Shows(groups, {"a", "A"}, r.symbol, r.countA, r.turnoverA, r.pnlA)
    && Shows(groups, {"b", "B"}, r.symbol, r.countB, r.turnoverB, r.pnlB)
  }

  lemma RowForExactly(groups: seq<Group>, symbol: string)
    requires symbol in Symbols(groups)
    ensures RowExactly(RowFor(groups, symbol), groups)
  {
    forall g: Group
      ensures Side(g) == "A" <==> g.variant in {"a", "A"}
      ensures Side(g) == "B" <==> g.variant in {"b", "B"}
    {
      SideExactly(g);
    }
    AtShows(groups, "A", {"a", "A"}, symbol);
    AtShows(groups, "B", {"b", "B"}, symbol);
    hide Side, At, Shows, Share, Larger, WinnerOf;
    var g :| g in groups && Counted(g) && g.symbol == symbol;
    assert IsPart(g, {"a", "A", "b", "B"}, symbol);
  }

  // --- Conservation -------------------------------------------------------------

  // What groups replaced by a later one had counted.
  function Lost(groups: seq<Group>, side: string, m: Measure): real {
    if groups == [] then 0.0 else
      var g, rest := groups[|groups| - 1], groups[..|groups| - 1];
      Lost(rest, side, m) + if Side(g) == side then Of(m, At(rest, side, g.symbol)) else 0.0
  }

  // A symbol's part in a side's totals.
  function Part(groups: seq<Group>, side: string, m: Measure): string -> real {
    s => Of(m, At(groups, side, s))
  }

  // The side's totals are its rows' sums plus what was replaced, always.
  lemma {:induction false} TotalsConserve(groups: seq<Group>, side: string, m: Measure)
    requires side == "A" || side == "B"
    ensures Of(m, Total(groups, side)) == Sum(Symbols(groups), Part(groups, side, m)) + Lost(groups, side, m)
    decreases |groups|
  {
    if groups == [] {
      assert Symbols(groups) == {};
    } else {
      var n := |groups| - 1;
      TotalsConserve(groups[..n], side, m);
      TotalSnoc(groups, side, m);
      PartsSnoc(groups, side, m);
    }
  }

  lemma TotalSnoc(groups: seq<Group>, side: string, m: Measure)
    requires groups != []
    ensures var g, rest := groups[|groups| - 1], groups[..|groups| - 1];
            Of(m, Total(groups, side)) == Of(m, Total(rest, side)) + if Side(g) == side then Of(m, g.sums) else 0.0
  {
  }

  lemma PartsSnoc(groups: seq<Group>, side: string, m: Measure)
    requires groups != [] && (side == "A" || side == "B")
    ensures var g, rest := groups[|groups| - 1], groups[..|groups| - 1];
            Sum(Symbols(groups), Part(groups, side, m)) == Sum(Symbols(rest), Part(rest, side, m))
              + if Side(g) == side then Of(m, g.sums) - Of(m, At(rest, side, g.symbol)) else 0.0
  {
    var n := |groups| - 1;
    var g, rest := groups[n], groups[..n];
    assert groups[..n + 1] == groups;
    Snoc(groups, n);
    var f, h := Part(rest, side, m), Part(groups, side, m);
    forall s | s != g.symbol || Side(g) != side ensures f(s) == h(s) {
    }
    if Counted(g) {
      SymbolsGrow(rest, side, m, g.symbol);
    } else {
      assert Symbols(groups) == Symbols(rest);
    }
    if Side(g) == side {
      assert h(g.symbol) == Of(m, g.sums);
      SumChange(Symbols(groups), f, h, g.symbol);
    } else {
      SumSame(Symbols(groups), f, h);
    }
  }

  // A symbol not traded yet contributes nothing.
  lemma SymbolsGrow(groups: seq<Group>, side: string, m: Measure, symbol: string)
    requires side == "A" || side == "B"
    ensures Sum(Symbols(groups) + {symbol}, Part(groups, side, m)) == Sum(Symbols(groups), Part(groups, side, m))
  {
    if symbol in Symbols(groups) {
      assert Symbols(groups) + {symbol} == Symbols(groups);
    } else {
      NeverSeen(groups, symbol);
      SumWiden(Symbols(groups), Symbols(groups) + {symbol}, Part(groups, side, m));
    }
  }

  // No symbol has two groups of one side once variant keys are upper-cased.
  predicate Distinct(groups: seq<Group>) {
    forall i, j | 0 <= i < j < |groups| && Counted(groups[i]) && Side(groups[i]) == Side(groups[j]) ::
      groups[i].symbol != groups[j].symbol
  }

  lemma {:induction false} LastIsThere(groups: seq<Group>, side: string, symbol: string)
    ensures Last(groups, side, symbol).Some? <==>
              exists i | 0 <= i < |groups| :: Side(groups[i]) == side && groups[i].symbol == symbol
    ensures forall i | 0 <= i < |groups| && Distinct(groups) && Counted(groups[i])
                       && Side(groups[i]) == side && groups[i].symbol == symbol ::
              Last(groups, side, symbol) == Some(groups[i].sums)
    decreases |groups|
  {
    if groups != [] {
      var n := |groups| - 1;
      var rest := groups[..n];
      LastIsThere(rest, side, symbol);
      forall i | 0 <= i < n ensures rest[i] == groups[i] {
      }
      if Last(rest, side, symbol).Some? {
        var i :| 0 <= i < n && Side(rest[i]) == side && rest[i].symbol == symbol;
        assert Side(groups[i]) == side;
      }
      assert Side(groups[n]) == side && groups[n].symbol == symbol ==>
               Last(groups, side, symbol) == Some(groups[n].sums);
    }
  }

  // A group clashes with an earlier one exactly when it replaces a value.
  lemma DistinctSnoc(groups: seq<Group>)
    requires groups != []
    ensures var g, rest := groups[|groups| - 1], groups[..|groups| - 1];
            Distinct(groups) <==> Distinct(rest) && (Counted(g) ==> Last(rest, Side(g), g.symbol).None?)
  {
    var n := |groups| - 1;
    var g, rest := groups[n], groups[..n];
    LastIsThere(rest, Side(g), g.symbol);
    hide Last, Side;
    assert forall i | 0 <= i < n :: rest[i] == groups[i];
    if Counted(g) && Last(rest, Side(g), g.symbol).Some? {
      var i :| 0 <= i < n && Side(rest[i]) == Side(g) && rest[i].symbol == g.symbol;
      assert Counted(groups[i]) && Side(groups[i]) == Side(groups[n]);
    }
  }

  // Every group counts at least one trade, as COUNT(*) of a group does.
  predicate Counting(groups: seq<Group>) {
    forall g | g in groups :: g.sums.count >= 1
  }

  // Nothing is replaced exactly when the keys stay distinct.
  lemma {:induction false} NothingLost(groups: seq<Group>, side: string, m: Measure)
    requires Distinct(groups) && (side == "A" || side == "B")
    ensures Lost(groups, side, m) == 0.0
    decreases |groups|
  {
    if groups != [] {
      DistinctSnoc(groups);
      NothingLost(groups[..|groups| - 1], side, m);
    }
  }

  lemma {:induction false} SomethingLost(groups: seq<Group>)
    requires Counting(groups)
    ensures Lost(groups, "A", Count) >= 0.0 && Lost(groups, "B", Count) >= 0.0
    ensures !Distinct(groups) ==> Lost(groups, "A", Count) + Lost(groups, "B", Count) > 0.0
    decreases |groups|
  {
    if groups != [] {
      var n := |groups| - 1;
      DistinctSnoc(groups);
      LastCounts(groups[..n], Side(groups[n]), groups[n].symbol);
      hide Distinct, Last, Upper;
      SomethingLost(groups[..n]);
    }
  }

  lemma {:induction false} LastCounts(groups: seq<Group>, side: string, symbol: string)
    requires Counting(groups)
    ensures At(groups, side, symbol).count >= if Last(groups, side, symbol).Some? then 1 else 0
    decreases |groups|
  {
    if groups != [] {
      LastCounts(groups[..|groups| - 1], side, symbol);
      assert groups[|groups| - 1] in groups;
    }
  }

  // The reported trade counts are the rows' counts if and only if the variant
  // keys stay distinct when upper-cased, and then every other total agrees too.
  lemma TotalsAreSums(groups: seq<Group>)
    requires Counting(groups)
    ensures Distinct(groups) <==>
              && Of(Count, Total(groups, "A")) == Sum(Symbols(groups), Part(groups, "A", Count))
              && Of(Count, Total(groups, "B")) == Sum(Symbols(groups), Part(groups, "B", Count))
    ensures Distinct(groups) ==> forall m: Measure, side | side in {"A", "B"} ::
              Of(m, Total(groups, side)) == Sum(Symbols(groups), Part(groups, side, m))
  {
    SomethingLost(groups);
    TotalsConserve(groups, "A", Count);
    TotalsConserve(groups, "B", Count);
    if Distinct(groups) {
      forall m: Measure, side | side in {"A", "B"}
        ensures Of(m, Total(groups, side)) == Sum(Symbols(groups), Part(groups, side, m))
      {
        TotalsConserve(groups, side, m);
        NothingLost(groups, side, m);
      }
    }
  }

  function SumGaps(rows: seq<Row>): real {
    if rows == [] then 0.0 else rows[0].gap + SumGaps(rows[1..])
  }

  function Gap(groups: seq<Group>): string -> real {
    s => RowFor(groups, s).gap
  }

  lemma {:induction false} GapsOver(rows: seq<Row>, groups: seq<Group>, symbols: set<string>)
    requires Ordered(rows)
    requires forall r | r in rows :: r.symbol in symbols && r == RowFor(groups, r.symbol)
    requires forall s | s in symbols :: RowFor(groups, s) in rows
    ensures SumGaps(rows) == Sum(symbols, Gap(groups))
    decreases |rows|
  {
    if rows == [] {
      assert symbols == {};
    } else {
      var r := rows[0];
      SymbolsDiffer(rows);
      SumTake(symbols, Gap(groups), r.symbol);
      forall q | q in rows[1..] ensures q in rows && q != r {
      }
      forall s | s in symbols - {r.symbol} ensures RowFor(groups, s) in rows[1..] {
        var i :| 0 <= i < |rows| && rows[i] == RowFor(groups, s);
        assert i > 0 && rows[1..][i - 1] == rows[i];
      }
      GapsOver(rows[1..], groups, symbols - {r.symbol});
    }
  }

  // Before the cap, the gaps add up to the difference of the two totals.
  lemma GapsConserve(rows: seq<Row>, groups: seq<Group>)
    requires IsRanking(rows, groups)
    ensures SumGaps(rows) == Total(groups, "B").pnl - Total(groups, "A").pnl
                             - (Lost(groups, "B", Pnl) - Lost(groups, "A", Pnl))
    ensures Distinct(groups) ==> SumGaps(rows) == Total(groups, "B").pnl - Total(groups, "A").pnl
  {
    GapsOver(rows, groups, Symbols(groups));
    TotalsConserve(groups, "A", Pnl);
    TotalsConserve(groups, "B", Pnl);
    var a, b, gap := Part(groups, "A", Pnl), Part(groups, "B", Pnl), Gap(groups);
    assert forall s :: b(s) == a(s) + gap(s);
    SumAdd(Symbols(groups), a, gap, b);
    if Distinct(groups) {
      NothingLost(groups, "A", Pnl);
      NothingLost(groups, "B", Pnl);
    }
  }

  lemma OneTotal(x: Group)
    requires Side(x) == "A"
    ensures Total([x], "A").pnl == x.sums.pnl
  {
    assert [x][..0] == [];
  }

  // Two groups whose keys clash, as "a" and "A" do: the totals count both, the
  // row only the one the database returned last.
  lemma ClashLoses(x: Group, y: Group)
    requires Side(x) == "A" && Side(y) == "A" && x.symbol == y.symbol
    ensures Total([x, y], "A").pnl == x.sums.pnl + y.sums.pnl == Total([y, x], "A").pnl
    ensures RowFor([x, y], x.symbol).gap == -y.sums.pnl && RowFor([y, x], x.symbol).gap == -x.sums.pnl
  {
    OneTotal(x);
    OneTotal(y);
    assert [x, y][..1] == [x] && [y, x][..1] == [y];
    NeverTraded([x, y], x.symbol);
    NeverTraded([y, x], x.symbol);
  }

  lemma {:induction false} NeverTraded(groups: seq<Group>, symbol: string)
    requires forall g | g in groups :: Side(g) == "A"
    ensures Last(groups, "B", symbol) == None
    decreases |groups|
  {
    if groups != [] {
      var n := |groups| - 1;
      assert groups[n] in groups && "A"[0] != "B"[0];
      NeverTraded(groups[..n], symbol);
    }
  }

  // --- Order of groups ----------------------------------------------------------

  lemma {:induction false} TwoPlaces<T>(s: seq<T>, x: T)
    requires multiset(s)[x] >= 2
    ensures exists i, j | 0 <= i < j < |s| :: s[i] == x && s[j] == x
    decreases |s|
  {
    var n := |s| - 1;
    assert s == s[..n] + [s[n]];
    if s[n] == x {
      assert x in multiset(s[..n]);
      var i :| 0 <= i < n && s[..n][i] == x;
      assert s[i] == x;
    } else {
      TwoPlaces(s[..n], x);
      var i, j :| 0 <= i < j < n && s[..n][i] == x && s[..n][j] == x;
      assert s[i] == x && s[j] == x;
    }
  }

  lemma Clash(groups: seq<Group>, other: seq<Group>, i: nat, j: nat)
    requires multiset(groups) == multiset(other) && i < j < |other|
    requires Counted(other[i]) && Side(other[i]) == Side(other[j]) && other[i].symbol == other[j].symbol
    ensures !Distinct(groups)
  {
    hide Side;
    var x, y := other[i], other[j];
    var p, q := BothThere(groups, other, i, j);
    assert groups[p].symbol == groups[q].symbol;
  }

  // Two places of one sequence, and two places of the other where the same things stand.
  lemma BothThere<T>(s: seq<T>, other: seq<T>, i: nat, j: nat) returns (p: nat, q: nat)
    requires multiset(s) == multiset(other) && i < j < |other|
    ensures p < q < |s| && ((s[p] == other[i] && s[q] == other[j]) || (s[p] == other[j] && s[q] == other[i]))
  {
    var x, y := other[i], other[j];
    assert other == other[..i] + [x] + other[i + 1..j] + [y] + other[j + 1..];
    if x == y {
      TwoPlaces(s, x);
      p, q :| p < q < |s| && s[p] == x && s[q] == x;
    } else {
      assert x in multiset(other) && y in multiset(other);
      p :| p < |s| && s[p] == x;
      q :| q < |s| && s[q] == y;
      if q < p {
        p, q := q, p;
      }
    }
  }

  // With distinct keys, the order in which the database returns the groups does
  // not matter either: same rows, same totals.
  lemma GroupOrderIrrelevant(groups: seq<Group>, other: seq<Group>, rows: seq<Row>, again: seq<Row>)
    requires Distinct(groups) && multiset(groups) == multiset(other)
    requires IsRanking(rows, groups) && IsRanking(again, other)
    ensures rows == again
    ensures forall m: Measure, side | side in {"A", "B"} :: Of(m, Total(groups, side)) == Of(m, Total(other, side))
  {
    hide *;
    SameMembers(groups, other);
    forall s ensures RowFor(groups, s) == RowFor(other, s) {
      SameRow(groups, other, s);
    }
    SameRanking(again, other, groups);
    RankingUnique(rows, again, groups);
    forall m: Measure, side | side in {"A", "B"} ensures Of(m, Total(groups, side)) == Of(m, Total(other, side)) {
      SameTotal(groups, other, m, side);
    }
  }

  lemma SameMembers(groups: seq<Group>, other: seq<Group>)
    requires Distinct(groups) && multiset(groups) == multiset(other)
    ensures Distinct(other) && Symbols(groups) == Symbols(other) && forall g :: g in groups <==> g in other
  {
    assert forall g :: g in groups <==> g in multiset(groups);
    assert forall g :: g in other <==> g in multiset(other);
    assert Symbols(groups) == Symbols(other) by {
      hide Distinct, Counted;
    }
    hide Side, Symbols;
    forall i, j | 0 <= i < j < |other| && Counted(other[i]) && Side(other[i]) == Side(other[j])
      ensures other[i].symbol != other[j].symbol
    {
      if other[i].symbol == other[j].symbol {
        Clash(groups, other, i, j);
      }
    }
  }

  lemma SameRow(groups: seq<Group>, other: seq<Group>, s: string)
    requires Distinct(groups) && Distinct(other) && forall g :: g in groups <==> g in other
    ensures RowFor(groups, s) == RowFor(other, s)
  {
    SameLast(groups, other, "A", s);
    SameLast(groups, other, "B", s);
    hide Last, RowOf, Distinct;
  }

  lemma SameRanking(rows: seq<Row>, groups: seq<Group>, other: seq<Group>)
    requires IsRanking(rows, groups) && Symbols(groups) == Symbols(other)
    requires forall s :: RowFor(other, s) == RowFor(groups, s)
    ensures IsRanking(rows, other)
  {
    hide Symbols, RowFor, Ordered;
  }

  lemma SameTotal(groups: seq<Group>, other: seq<Group>, m: Measure, side: string)
    requires Distinct(groups) && Distinct(other) && side in {"A", "B"}
    requires Symbols(groups) == Symbols(other) && forall g :: g in groups <==> g in other
    ensures Of(m, Total(groups, side)) == Of(m, Total(other, side))
  {
    TotalsConserve(groups, side, m);
    TotalsConserve(other, side, m);
    NothingLost(groups, side, m);
    NothingLost(other, side, m);
    hide Last, Symbols, Total, Distinct;
    forall s ensures Part(groups, side, m)(s) == Part(other, side, m)(s) {
      SameLast(groups, other, side, s);
    }
    SumSame(Symbols(groups), Part(groups, side, m), Part(other, side, m));
  }

  lemma SameLast(groups: seq<Group>, other: seq<Group>, side: string, s: string)
    requires Distinct(groups) && Distinct(other) && side in {"A", "B"}
    requires forall g :: g in groups <==> g in other
    ensures Last(groups, side, s) == Last(other, side, s)
  {
    if Last(groups, side, s).Some? {
      LastCarries(groups, other, side, s);
    } else if Last(other, side, s).Some? {
      LastCarries(other, groups, side, s);
    }
  }

  lemma LastCarries(groups: seq<Group>, other: seq<Group>, side: string, s: string)
    requires Distinct(groups) && Distinct(other) && side in {"A", "B"}
    requires (forall g :: g in groups <==> g in other) && Last(groups, side, s).Some?
    ensures Last(groups, side, s) == Last(other, side, s)
  {
    LastIsThere(groups, side, s);
    LastIsThere(other, side, s);
    var i :| 0 <= i < |groups| && Side(groups[i]) == side && groups[i].symbol == s;
    assert groups[i] in other;
    var j :| 0 <= j < |other| && other[j] == groups[i];
  }

  // --- Symmetry -----------------------------------------------------------------

  function Flip(side: string): string {
    if side == "A" then "B" else if side == "B" then "A" else side
  }

  function Swapped(groups: seq<Group>): (r: seq<Group>)
    ensures |r| == |groups|
  {
    seq(|groups|, i requires 0 <= i < |groups| => groups[i].(variant := Flip(Side(groups[i]))))
  }

  function Mirror(r: Row): Row {
    Row(r.symbol, r.countB, r.countA, r.pnlB, r.pnlA, r.turnoverB, r.turnoverA, -r.gap, -r.gapPct,
        match r.winner case WinsA => WinsB case WinsB => WinsA case Tie => Tie)
  }

  lemma FlipSide(g: Group)
    ensures Side(g.(variant := Flip(Side(g)))) == Flip(Side(g))
  {
  }

  lemma {:induction false} SwapLast(groups: seq<Group>, side: string, s: string)
    requires side == "A" || side == "B"
    ensures Last(Swapped(groups), Flip(side), s) == Last(groups, side, s)
    ensures Total(Swapped(groups), Flip(side)) == Total(groups, side)
    decreases |groups|
  {
    if groups != [] {
      var n := |groups| - 1;
      FlipSide(groups[n]);
      assert "A"[0] != "B"[0];
      assert Swapped(groups)[..n] == Swapped(groups[..n]);
      SwapLast(groups[..n], side, s);
    }
  }

  lemma SwapSymbols(groups: seq<Group>)
    ensures Symbols(Swapped(groups)) == Symbols(groups)
  {
    var w := Swapped(groups);
    forall i | 0 <= i < |groups| ensures w[i].symbol == groups[i].symbol && (Counted(w[i]) <==> Counted(groups[i])) {
      FlipSide(groups[i]);
    }
    forall s ensures s in Symbols(w) <==> s in Symbols(groups) {
      if s in Symbols(w) {
        var i :| 0 <= i < |w| && Counted(w[i]) && w[i].symbol == s;
        assert groups[i] in groups;
      }
      if s in Symbols(groups) {
        var i :| 0 <= i < |groups| && Counted(groups[i]) && groups[i].symbol == s;
        assert w[i] in w;
      }
    }
  }

  lemma MirrorRow(groups: seq<Group>, s: string)
    ensures RowFor(Swapped(groups), s) == Mirror(RowFor(groups, s))
  {
    SwapLast(groups, "A", s);
    SwapLast(groups, "B", s);
    hide Last, Swapped, RowOf, Mirror;
    MirrorBuckets(s, At(groups, "A", s), At(groups, "B", s));
  }

  lemma MirrorBuckets(s: string, a: Bucket, b: Bucket)
    ensures RowOf(s, b, a) == Mirror(RowOf(s, a, b))
  {
    var n := Larger(a.turnover, b.turnover);
    assert n == Larger(b.turnover, a.turnover);
    if n > 0.0 {
      Negated(b.pnl - a.pnl, n);
    }
  }

  lemma Negated(x: real, n: real)
    requires n > 0.0
    ensures ((-x) / n) * 100.0 == -((x / n) * 100.0)
  {
    assert (-x) / n == -(x / n);
  }

  // Exchanging the variants negates every gap, exchanges the winners and the
  // totals, and keeps the order of the rows.
  lemma SwapMirrors(groups: seq<Group>, rows: seq<Row>, swapped: seq<Row>)
    requires IsRanking(rows, groups) && IsRanking(swapped, Swapped(groups))
    ensures |swapped| == |rows| && forall i | 0 <= i < |rows| :: swapped[i] == Mirror(rows[i])
    ensures Total(Swapped(groups), "A") == Total(groups, "B") && Total(Swapped(groups), "B") == Total(groups, "A")
  {
    hide *;
    SwapTotals(groups);
    SwapSymbols(groups);
    forall s ensures RowFor(Swapped(groups), s) == Mirror(RowFor(groups, s)) {
      MirrorRow(groups, s);
    }
    MirrorRanking(rows, groups);
    RankingUnique(swapped, Mirrored(rows), Swapped(groups));
  }

  lemma SwapTotals(groups: seq<Group>)
    ensures Total(Swapped(groups), "A") == Total(groups, "B") && Total(Swapped(groups), "B") == Total(groups, "A")
  {
    SwapLast(groups, "A", "");
    SwapLast(groups, "B", "");
    hide Last, Total, Swapped;
  }

  function Mirrored(rows: seq<Row>): (r: seq<Row>)
    ensures |r| == |rows| && forall i | 0 <= i < |rows| :: r[i] == Mirror(rows[i])
  {
    seq(|rows|, i requires 0 <= i < |rows| => Mirror(rows[i]))
  }

  lemma MirrorRanking(rows: seq<Row>, groups: seq<Group>)
    requires IsRanking(rows, groups) && Symbols(Swapped(groups)) == Symbols(groups)
    requires forall s :: RowFor(Swapped(groups), s) == Mirror(RowFor(groups, s))
    ensures IsRanking(Mirrored(rows), Swapped(groups))
  {
    hide Symbols, RowFor, Swapped;
    var mirrored := Mirrored(rows);
    forall i, j | 0 <= i < j < |rows| ensures Before(mirrored[i], mirrored[j]) {
      assert Before(rows[i], rows[j]);
    }
    forall s | s in Symbols(groups) ensures Mirror(RowFor(groups, s)) in mirrored {
      var i :| 0 <= i < |rows| && rows[i] == RowFor(groups, s);
      assert mirrored[i] == Mirror(rows[i]);
    }
  }
}
