// Marking to market: what a ledger's holdings are worth on a day, by the prices their
// series give them.
module Valuation {
  import opened Options
  import opened Lots
  import opened LotLedger
  import opened Prices
  import opened Sums

  // The price the timeline finds, or the average cost when it finds none.
  function Mark(quotes: Quotes, lots: map<string, seq<Lot>>, symbol: string, date: int): real {
    match PriceOn(quotes, symbol, date)
    case Some(p) => p
    case None => AvgCost(Queue(lots, symbol))
  }

  function Valued(quotes: Quotes, lots: map<string, seq<Lot>>, symbol: string, date: int): real {
    Times(Held(Queue(lots, symbol)), Mark(quotes, lots, symbol, date))
  }

  // Market value of the positions, in whatever order they are ranged.
  ghost function Holdings(quotes: Quotes, lots: map<string, seq<Lot>>, date: int): real {
    Sum(Positions(lots).Keys, s => Valued(quotes, lots, s, date))
  }

  ghost function Assets(quotes: Quotes, a: Account, date: int): real {
    a.cash + Holdings(quotes, a.lots, date)
  }

  // Observation k is on or before the day and the next one is not.
  ghost predicate InTime(s: seq<Point>, k: nat, date: int) {
    && k < |s| && DayOf(s[k].date) <= DayOf(date)
    && (k + 1 < |s| ==> DayOf(s[k + 1].date) > DayOf(date))
  }

  // The price a series gives a day: in date order the last one in time, newest first
  // the oldest one if the middle one is in time.
  ghost predicate Quoted(s: seq<Point>, date: int, price: real) {
    || (Ordered(s) && exists k | 0 <= k < |s| :: InTime(s, k, date) && price == s[k].price)
    || (NewestFirst(s) && s != [] && DayOf(Middle(s).date) <= DayOf(date) && price == s[|s| - 1].price)
  }

  ghost predicate Unquoted(s: seq<Point>, date: int) {
    || (forall k | 0 <= k < |s| :: DayOf(s[k].date) > DayOf(date))
    || (NewestFirst(s) && s != [] && DayOf(Middle(s).date) > DayOf(date))
  }

  // A holding's price: its series', or what its units cost on average.
  ghost predicate PricedAt(s: seq<Point>, q: seq<Lot>, date: int, price: real) {
    Quoted(s, date, price) || (Unquoted(s, date) && price * Held(q) == Cost(q))
  }

  lemma SameDays(s: seq<Point>, date: int)
    ensures forall k | 0 <= k < |s| :: s[k].date <= DayEnd(date) <==> DayOf(s[k].date) <= DayOf(date)
  {
    forall k | 0 <= k < |s| ensures s[k].date <= DayEnd(date) <==> DayOf(s[k].date) <= DayOf(date) {
      DayBoundary(s[k].date, date);
    }
  }

  lemma QuotedFound(s: seq<Point>, date: int, price: real)
    requires Quoted(s, date, price)
    ensures Found(s, DayEnd(date)) == Some(price)
  {
    var limit := DayEnd(date);
    SameDays(s, date);
    hide DayOf, DayEnd, Bisect;
    if k :| Ordered(s) && 0 <= k < |s| && InTime(s, k, date) && price == s[k].price {
      BisectStops(s, limit, 0, |s|);
      OnePlace(s, limit, Bisect(s, limit, 0, |s|), k + 1);
    } else {
      NewestFirstFinds(s, limit);
    }
  }

  lemma UnquotedNone(s: seq<Point>, date: int)
    requires Unquoted(s, date)
    ensures Found(s, DayEnd(date)) == None
  {
    SameDays(s, date);
    if forall k | 0 <= k < |s| :: DayOf(s[k].date) > DayOf(date) {
      BisectAllLate(s, DayEnd(date), |s|);
    } else {
      NewestFirstFinds(s, DayEnd(date));
    }
  }

  // In date order only one place has what is in time before it and the rest behind.
  lemma OnePlace(s: seq<Point>, limit: int, r: nat, k: nat)
    requires Ordered(s) && r <= |s| && k <= |s|
    requires (r > 0 ==> s[r - 1].date <= limit) && (r < |s| ==> s[r].date > limit)
    requires (k > 0 ==> s[k - 1].date <= limit) && (k < |s| ==> s[k].date > limit)
    ensures r == k
  {
  }

  lemma MarkIs(quotes: Quotes, lots: map<string, seq<Lot>>, symbol: string, date: int, price: real)
    requires PricedAt(Series(quotes, symbol), Queue(lots, symbol), date, price)
    requires Held(Queue(lots, symbol)) > 0.000000001
    ensures Mark(quotes, lots, symbol, date) == price
  {
    var s, q := Series(quotes, symbol), Queue(lots, symbol);
    hide Quoted, Unquoted, Found, Held, Cost, AvgCost;
    if Quoted(s, date, price) {
      QuotedFound(s, date, price);
    } else {
      UnquotedNone(s, date);
      Average(q, price);
    }
  }

  lemma Average(q: seq<Lot>, price: real)
    requires Held(q) > 0.000000001 && price * Held(q) == Cost(q)
    ensures AvgCost(q) == price
  {
    assert price == Cost(q) / Held(q);
  }

  // The symbols held beyond 1e-9 units.
  ghost predicate Lists(keys: set<string>, lots: map<string, seq<Lot>>) {
    forall s :: s in keys <==> s in lots && Held(lots[s]) > 0.000000001
  }

  ghost predicate AllPriced(quotes: Quotes, lots: map<string, seq<Lot>>, date: int, keys: set<string>,
                         price: string -> real)
  {
    forall s | s in keys :: PricedAt(Series(quotes, s), Queue(lots, s), date, price(s))
  }

  function ValueAt(lots: map<string, seq<Lot>>, price: string -> real): string -> real {
    s => Held(Queue(lots, s)) * price(s)
  }

  lemma ListedKeys(keys: set<string>, lots: map<string, seq<Lot>>)
    requires Lists(keys, lots)
    ensures keys == Positions(lots).Keys
  {
    hide Held;
  }

  lemma HoldingsAre(quotes: Quotes, lots: map<string, seq<Lot>>, date: int, f: string -> real)
    requires forall s :: f(s) == Valued(quotes, lots, s, date)
    ensures Holdings(quotes, lots, date) == Sum(Positions(lots).Keys, f)
  {
    hide Positions, Valued;
    SumSame(Positions(lots).Keys, f, s => Valued(quotes, lots, s, date));
  }

  // The market value is each listed holding's units at its price, and assets are cash
  // plus that.
  lemma HoldingsAtPrices(quotes: Quotes, lots: map<string, seq<Lot>>, date: int, keys: set<string>,
                         price: string -> real)
    requires Lists(keys, lots) && AllPriced(quotes, lots, date, keys, price)
    ensures Holdings(quotes, lots, date) == Sum(keys, ValueAt(lots, price))
  {
    hide *;
    var f := s => Valued(quotes, lots, s, date);
    ListedKeys(keys, lots);
    HoldingsAre(quotes, lots, date, f);
    forall s | s in keys ensures f(s) == ValueAt(lots, price)(s) {
      ListedValue(quotes, lots, date, keys, price, s);
    }
    SumSame(keys, f, ValueAt(lots, price));
  }

  lemma ListedValue(quotes: Quotes, lots: map<string, seq<Lot>>, date: int, keys: set<string>, price: string -> real,
                    s: string)
    requires Lists(keys, lots) && AllPriced(quotes, lots, date, keys, price) && s in keys
    ensures Valued(quotes, lots, s, date) == ValueAt(lots, price)(s)
  {
    ValuedIs(quotes, lots, s, date, price(s));
    hide Valued, PricedAt, Held;
  }

  lemma AssetsAtPrices(quotes: Quotes, a: Account, date: int, keys: set<string>, price: string -> real)
    requires Lists(keys, a.lots) && AllPriced(quotes, a.lots, date, keys, price)
    ensures Assets(quotes, a, date) == a.cash + Sum(keys, ValueAt(a.lots, price))
  {
    HoldingsAtPrices(quotes, a.lots, date, keys, price);
    hide Holdings, Lists, AllPriced;
  }

  lemma ValuedIs(quotes: Quotes, lots: map<string, seq<Lot>>, symbol: string, date: int, price: real)
    requires PricedAt(Series(quotes, symbol), Queue(lots, symbol), date, price)
    requires Held(Queue(lots, symbol)) > 0.000000001
    ensures Valued(quotes, lots, symbol, date) == Held(Queue(lots, symbol)) * price
  {
    MarkIs(quotes, lots, symbol, date, price);
    hide PricedAt, Mark, Held;
  }

  // On a series in either order there always is such a price.
  lemma AlwaysPriced(s: seq<Point>, q: seq<Lot>, date: int) returns (price: real)
    requires (Ordered(s) || NewestFirst(s)) && Held(q) > 0.000000001
    ensures PricedAt(s, q, date, price)
  {
    var r := Bisect(s, DayEnd(date), 0, |s|);
    BisectStops(s, DayEnd(date), 0, |s|);
    SameDays(s, date);
    hide Held, Cost, Bisect, DayOf, DayEnd;
    if NewestFirst(s) {
      price := if s != [] && DayOf(Middle(s).date) <= DayOf(date) then s[|s| - 1].price else Cost(q) / Held(q);
    } else if r > 0 {
      price := s[r - 1].price;
      assert InTime(s, r - 1, date);
    } else {
      price := Cost(q) / Held(q);
    }
  }

  // A market value is the sum of each listed holding's units at its price.
  ghost predicate AtPrices(total: real, quotes: Quotes, lots: map<string, seq<Lot>>, date: int) {
    forall keys, price | Lists(keys, lots) && AllPriced(quotes, lots, date, keys, price) ::
      total == Sum(keys, ValueAt(lots, price))
  }

  lemma AlwaysAtPrices(quotes: Quotes, lots: map<string, seq<Lot>>, date: int)
    ensures AtPrices(Holdings(quotes, lots, date), quotes, lots, date)
  {
    hide Holdings, Lists, AllPriced, ValueAt;
    forall keys, price | Lists(keys, lots) && AllPriced(quotes, lots, date, keys, price)
      ensures Holdings(quotes, lots, date) == Sum(keys, ValueAt(lots, price))
    {
      HoldingsAtPrices(quotes, lots, date, keys, price);
    }
  }
}
