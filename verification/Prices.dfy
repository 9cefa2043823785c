// The price timeline: per symbol an append-only list of observed prices, searched
// by bisection whether or not they were added in date order.
module Prices {
  import opened Options

  // Nanoseconds in a UTC day; instants are nanoseconds from a UTC midnight.
  const DAY: int := 86_400_000_000_000

  datatype Point = Point(date: int, price: real)

  type Quotes = map<string, seq<Point>>

  function DayOf(instant: int): int {
    instant / DAY
  }

  // Last nanosecond of the instant's day.
  function DayEnd(instant: int): int {
    DayOf(instant) * DAY + DAY - 1
  }

  function Series(quotes: Quotes, symbol: string): seq<Point> {
    if symbol in quotes then quotes[symbol] else []
  }

  ghost predicate Ordered(s: seq<Point>) {
    forall i, j | 0 <= i < j < |s| :: s[i].date <= s[j].date
  }

  // The plain scan: the last observation made no later than `limit`.
  function LastUpTo(s: seq<Point>, limit: int): Option<real> {
    if s == [] then None
    else if s[|s| - 1].date <= limit then Some(s[|s| - 1].price)
    else LastUpTo(s[..|s| - 1], limit)
  }

  // Where a bisection for the first observation after `limit` ends.
  function Bisect(s: seq<Point>, limit: int, lo: nat, hi: nat): (r: nat)
    requires lo <= hi <= |s|
    ensures lo <= r <= hi
    decreases hi - lo
  {
    if lo == hi then lo
    else
      var h := (lo + hi) / 2;
      if s[h].date > limit then Bisect(s, limit, lo, h) else Bisect(s, limit, h + 1, hi)
  }

  // The price just before that place.
  function Found(s: seq<Point>, limit: int): Option<real> {
    var idx := Bisect(s, limit, 0, |s|);
    if idx == 0 then None else Some(s[idx - 1].price)
  }

  // The price a symbol is marked at on a date, when the timeline finds one.
  function PriceOn(quotes: Quotes, symbol: string, date: int): Option<real> {
    Found(Series(quotes, symbol), DayEnd(date))
  }

  function Added(quotes: Quotes, symbol: string, date: int, price: real): Quotes {
    if symbol == "" || price <= 0.0 then quotes
    else quotes[symbol := Series(quotes, symbol) + [Point(date, price)]]
  }

  // A day has 24 hours of 3600 seconds.  An instant is on or before a day exactly when
  // it is no later than the day's last nanosecond: the bisection's boundary is the
  // replay cursor's.
  lemma DayBoundary(instant: int, day: int)
    ensures DayOf(instant) == day <==>
              day * 24 * 3600 * 1_000_000_000 <= instant < (day + 1) * 24 * 3600 * 1_000_000_000
    ensures instant <= DayEnd(day) <==> DayOf(instant) <= DayOf(day)
  {
  }

  // An observation of a named symbol at a positive price goes behind the symbol's
  // others; no other changes anything.
  lemma AddedExactly(quotes: Quotes, symbol: string, date: int, price: real, s: string)
    ensures Series(Added(quotes, symbol, date, price), s)
         == Series(quotes, s) + if s == symbol != "" && price > 0.0 then [Point(date, price)] else []
  {
  }

  // --- What the bisection finds --------------------------------------------------

  // Whatever the order, it stops behind an observation in time and before a late one.
  lemma {:induction false} BisectStops(s: seq<Point>, limit: int, lo: nat, hi: nat)
    requires lo <= hi <= |s|
    requires (lo > 0 ==> s[lo - 1].date <= limit) && (hi < |s| ==> s[hi].date > limit)
    ensures var r := Bisect(s, limit, lo, hi);
            (r > 0 ==> s[r - 1].date <= limit) && (r < |s| ==> s[r].date > limit)
    decreases hi - lo
  {
    if lo < hi {
      var h := (lo + hi) / 2;
      if s[h].date > limit {
        BisectStops(s, limit, lo, h);
      } else {
        BisectStops(s, limit, h + 1, hi);
      }
    }
  }

  // How many observations there are up to and including the last one in time.
  function ScanEnd(s: seq<Point>, limit: int): (n: nat)
    ensures n <= |s|
  {
    if s == [] || s[|s| - 1].date <= limit then |s| else ScanEnd(s[..|s| - 1], limit)
  }

  lemma {:induction false} ScanEnds(s: seq<Point>, limit: int)
    ensures var n := ScanEnd(s, limit);
            && LastUpTo(s, limit) == (if n == 0 then None else Some(s[n - 1].price))
            && (n > 0 ==> s[n - 1].date <= limit) && (forall k | n <= k < |s| :: s[k].date > limit)
    decreases |s|
  {
    if s != [] && s[|s| - 1].date > limit {
      ScanEnds(s[..|s| - 1], limit);
    }
  }

  // Nothing in time stands behind something late.
  ghost predicate InTimeFirst(s: seq<Point>, limit: int) {
    forall i, j | 0 <= i < j < |s| && s[i].date > limit :: s[j].date > limit
  }

  // The bisection ends where the scan does exactly when nothing from there on is in
  // time; it does when what is in time comes first, as on every day of a series in
  // date order.
  lemma BisectIsScan(s: seq<Point>, limit: int)
    ensures Bisect(s, limit, 0, |s|) == ScanEnd(s, limit)
       <==> forall k | Bisect(s, limit, 0, |s|) <= k < |s| :: s[k].date > limit
    ensures InTimeFirst(s, limit) ==>
              Bisect(s, limit, 0, |s|) == ScanEnd(s, limit) && Found(s, limit) == LastUpTo(s, limit)
    ensures Ordered(s) ==> InTimeFirst(s, limit)
  {
    BisectStops(s, limit, 0, |s|);
    ScanEnds(s, limit);
    var r := Bisect(s, limit, 0, |s|);
    if InTimeFirst(s, limit) {
      forall k | r <= k < |s| ensures s[k].date > limit {
        assert s[r].date > limit;
      }
    }
  }

  // Every observation the bisection looks at on its way down to the front is late.
  predicate HalvesLate(s: seq<Point>, limit: int, n: nat)
    requires n <= |s|
  {
    n == 0 || (s[n / 2].date > limit && HalvesLate(s, limit, n / 2))
  }

  // So that is exactly when it finds nothing, in whatever order prices were added.
  lemma {:induction false} NothingFound(s: seq<Point>, limit: int, n: nat)
    requires n <= |s|
    ensures Bisect(s, limit, 0, n) == 0 <==> HalvesLate(s, limit, n)
    decreases n
  {
    if n > 0 && s[n / 2].date > limit {
      NothingFound(s, limit, n / 2);
    }
  }

  lemma {:induction false} HalvesReachFront(s: seq<Point>, limit: int, n: nat)
    requires 0 < n <= |s| && HalvesLate(s, limit, n)
    ensures s[0].date > limit
    decreases n
  {
    if n > 1 {
      HalvesReachFront(s, limit, n / 2);
    }
  }

  ghost predicate NewestFirst(s: seq<Point>) {
    forall i, j | 0 <= i < j < |s| :: s[i].date >= s[j].date
  }

  lemma {:induction false} BisectAllLate(s: seq<Point>, limit: int, hi: nat)
    requires hi <= |s| && forall k | 0 <= k < hi :: s[k].date > limit
    ensures Bisect(s, limit, 0, hi) == 0
    decreases hi
  {
    if hi > 0 {
      BisectAllLate(s, limit, hi / 2);
    }
  }

  lemma {:induction false} BisectAllInTime(s: seq<Point>, limit: int, lo: nat)
    requires lo <= |s| && forall k | lo <= k < |s| :: s[k].date <= limit
    ensures Bisect(s, limit, lo, |s|) == |s|
    decreases |s| - lo
  {
    if lo < |s| {
      BisectAllInTime(s, limit, (lo + |s|) / 2 + 1);
    }
  }

  // Of observations added newest first it ends behind all or before all, and which
  // of the two depends on the middle one alone.
  lemma NewestFirstEnds(s: seq<Point>, limit: int)
    requires NewestFirst(s)
    ensures Bisect(s, limit, 0, |s|) == if s != [] && Middle(s).date <= limit then |s| else 0
  {
    if s != [] {
      var h := |s| / 2;
      if s[h].date > limit {
        BisectAllLate(s, limit, h);
      } else {
        BisectAllInTime(s, limit, h + 1);
      }
    }
  }

  function Middle(s: seq<Point>): Point
    requires s != []
  {
    s[|s| / 2]
  }

  // So it finds the oldest price of all, or nothing.
  lemma NewestFirstFinds(s: seq<Point>, limit: int)
    requires NewestFirst(s)
    ensures Found(s, limit) == if s != [] && Middle(s).date <= limit then Some(s[|s| - 1].price) else None
  {
    NewestFirstEnds(s, limit);
  }

  // Observation k is in time and none in time is newer.
  ghost predicate Latest(s: seq<Point>, limit: int, k: int) {
    0 <= k < |s| && s[k].date <= limit && forall j | 0 <= j < |s| && s[j].date <= limit :: s[j].date <= s[k].date
  }

  // In date order it finds the most recent observation, and nothing only when
  // there is none in time.
  lemma OrderedFindsLatest(s: seq<Point>, limit: int)
    requires Ordered(s)
    ensures var r := Bisect(s, limit, 0, |s|);
            if r > 0 then Latest(s, limit, r - 1) else forall j | 0 <= j < |s| :: s[j].date > limit
  {
    BisectIsScan(s, limit);
    ScanEnds(s, limit);
  }

  // Newest first, with some observation in time, it finds a most recent one exactly
  // when the middle one is in time and all in time are of the same instant.
  lemma NewestFirstFindsLatest(s: seq<Point>, limit: int)
    requires NewestFirst(s) && s != [] && s[|s| - 1].date <= limit
    ensures Latest(s, limit, Bisect(s, limit, 0, |s|) - 1)
       <==> Middle(s).date <= limit && forall k | 0 <= k < |s| && s[k].date <= limit :: s[k].date == s[|s| - 1].date
  {
    NewestFirstEnds(s, limit);
    hide Bisect, Middle;
    assert forall k | 0 <= k < |s| :: s[k].date >= s[|s| - 1].date;
  }

  class Timeline {
    var bySymbol: Quotes

    constructor ()
      ensures bySymbol == map[]
    {
      bySymbol := map[];
    }

    // Records one observation; the series stays in date order exactly when the
    // caller adds it no earlier than the last.
    method Add(symbol: string, date: int, price: real)
      modifies this
      ensures bySymbol == Added(old(bySymbol), symbol, date, price)
      ensures var s := Series(old(bySymbol), symbol);
              Ordered(Series(bySymbol, symbol)) <==>
                Ordered(s) && (symbol == "" || price <= 0.0 || s == [] || s[|s| - 1].date <= date)
    {
      if symbol == "" || price <= 0.0 {
        return;
      }
      OrderedSnoc(Series(bySymbol, symbol), Point(date, price));
      bySymbol := bySymbol[symbol := Series(bySymbol, symbol) + [Point(date, price)]];
    }

    // The price before the place the bisection ends; on a series in date order,
    // the most recent price on or before the date's day.
    method PriceAt(symbol: string, date: int) returns (price: real, ok: bool)
      ensures ok <==> PriceOn(bySymbol, symbol, date).Some?
      ensures price == if ok then PriceOn(bySymbol, symbol, date).value else 0.0
      ensures Ordered(Series(bySymbol, symbol)) ==>
                PriceOn(bySymbol, symbol, date) == LastUpTo(Series(bySymbol, symbol), DayEnd(date))
    {
      var series := Series(bySymbol, symbol);
      BisectIsScan(series, DayEnd(date));
      if |series| == 0 {
        return 0.0, false;
      }
      var dayEnd := DayEnd(date);
      var i, j := 0, |series|;
      while i < j
        invariant 0 <= i <= j <= |series|
        invariant Bisect(series, dayEnd, 0, |series|) == Bisect(series, dayEnd, i, j)
      {
        var h := (i + j) / 2;
        if series[h].date > dayEnd {
          j := h;
        } else {
          i := h + 1;
        }
      }
      if i == 0 {
        return 0.0, false;
      }
      return series[i - 1].price, true;
    }
  }

  lemma OrderedSnoc(s: seq<Point>, p: Point)
    ensures Ordered(s + [p]) <==> Ordered(s) && (s == [] || s[|s| - 1].date <= p.date)
  {
    var t := s + [p];
    if Ordered(t) {
      assert forall i, j | 0 <= i < j < |s| :: s[i] == t[i] && s[j] == t[j];
      assert s == [] || (t[|s| - 1] == s[|s| - 1] && t[|s|] == p);
    }
  }
}
