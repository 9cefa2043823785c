# Fund server verification

A Dafny model of the parts of the fund server and its miniapp whose behaviour spans many calls, with proofs of what
they keep. `dafny verify dfyconfig.toml` checks the whole project (Dafny 4.11).

## What is modelled

**The A/B shadow ledger and its NAV series.** An A/B test replays a control fund's trades through a decider into an
in-memory FIFO lot ledger (B's side), then recomputes B's daily NAV from the ledger's history and a price timeline.
`Lots` gives the ledger's abstract steps, `LedgerCalls` what one call does in terms of its raw arguments, `LotLedger`
the ledger object with its in-place FIFO walk, and `FifoRuns` an independent reference that knows only the buys and the
units gone; `Listings` says what the order of a run's trades can change. `Accounting` has the books' identity and the
effect of the 1e-9 dust rule, `Replay` the history round trip, `Decisions` and `Scaling` the deciders and proportional
runs, `Prices` the binary-searched timeline, `Valuation` what holdings are worth at its prices, `NavReplay`, `NavRows`,
`NavLaws` and `NavRuns` the cursor-driven NAV recompute, what its rows show and its laws, `Budget` the model-backed
decider that runs share, `BiasNav` the rows of a run without trades, `ShadowRun` the run that ties them together, in
whatever order the trades come, and `BarStats` the drawdown loops and the NAV date index.

**The funding approval workflow.** `Funding` is a step machine with one step per SQL statement, row locks held until
commit or rollback, buffered writes, and a failure possible before any statement; users cancel and create requests at
any time. `FundingSafety` proves its invariant and the cash identity over every schedule, `FundingProgress` finality
and freedom from deadlock. `FundingDesk` has the two handlers as straight-line transactions and shows that each, run
alone and cut short anywhere, is one of the machine's schedules and keeps the books.

**Attribution and evolution diff.** `Attribution` pivots grouped trade rows into ranked rows per symbol,
`AttributionLaws` proves conservation, canonical order and symmetry. `EvolutionDiff` compares a proposed agent config
with the live one, and `Promotion` builds the config a promotion really writes.

**Miniapp sign-in.** `LoginFlight` is a step machine of promise callbacks, `LoginSafety` the proofs: one shared
handshake, at most one retry, every promise settled once. `MiniApp` is the object the callbacks update; it carries the
run that led to its state, so the proofs hold of it.

**Retention loop.** `RetentionLoop` models concurrent callers of Start and Stop, the loop goroutines, channels and the
wait group; `RetentionSafety` proves the invariant, `RetentionStops` when a Stop returns and `RetentionReuse` when its
Wait panics. `RetentionService` is the loop object, tied to the schedules in the same way.

Conventions: a `float64` is a `real`; an instant is an integer number of nanoseconds and its day is UTC; a Go map
ranged in unspecified order is walked by picking any remaining key, and the result is shown not to depend on it;
errors are values. A concurrent protocol is a function from labelled steps to states; a schedule is any sequence of
labels, a step that would have to wait being passed over, so a theorem about `Exec(s, ls)` for all `ls` covers every
interleaving. Code that a mutex protects is one step.

## Where the code differs from its description

- The price timeline and the NAV recompute are written for trades in date order, but a run is fed the control fund's
  trades as they are listed, newest first (`server/cmd/server/wiring_adapters.go:9472-9476`,
  `server/internal/repository/fund_repo.go:1606-1615`). Then a sell is applied before its own buy and fills nothing
  (`ShadowRun.SellBeforeItsBuy`, `FifoRuns.SellsBeforeBuys`; `FifoRuns.SellFillsExactly` is the exact condition), every
  row before the newest trade's day is flat and later rows have seen everything (`ShadowRun.LatestFirstRun`,
  `NavRuns.EarlyRowIsFlat`; `NavLaws.ThroughExactly` is the exact condition), and a symbol is marked at its oldest price
  of all or falls back to average cost (`Prices.NewestFirstFinds`, `ShadowRun.LatestFirstFallsBack`;
  `Prices.BisectIsScan` and `NavRuns.FallsBackExactly` are the exact conditions). `Listings.SameListing` and
  `Listings.ClosedTurnsOpen` say what a listing order can and cannot change.
- A run's call budget is described as fresh for each run; the decider is shared, and its counter is reset only when a
  run reaches B's summary (`Budget.WholeBudgetExactly`, `Budget.DecidedAsWhole`).
- The NAV floor is described as a guard for a blown-up fund, but it makes NAV non-monotone in assets:
  `NavLaws.MonotoneExactly` says between which amounts, `NavLaws.FloorNotMonotone` gives a pair, and
  `NavLaws.FloorExact` says exactly when a NAV reaches the floor's level.
- The history is described as holding calls that changed state; every call is logged, no-ops included
  (`server/cmd/server/ab_shadow_lots.go:112-115`, `164-168`). The round trip relies on that. An entry stands for a
  change exactly when its result filled something (`Replay.LoggedChange`); a sell with nothing held does not
  (`Replay.NakedSellIsLogged`).
- Symbols are trimmed on their way into the ledger but not into the price timeline, so a padded symbol is held but never
  priced (`ShadowRun.PaddedSymbolFallsBack`); `ShadowRun.ReachesLedgerSymbol` is the exact condition.
- A withdrawal may exceed current capital by 0.0001 (`FundingSafety.WithdrawalGuard`), so capital can end just below
  zero (`FundingDesk.BoundIsReached`), exactly when it did not cover the amount (`FundingDesk.OverdrawsExactly`).
- Variant keys are upper-cased after grouping: groups whose keys clash count in the totals but only the last one shows
  in its row (`AttributionLaws.TotalsAreSums` is the exact condition, `AttributionLaws.ClashLoses` the case). The
  schema's check on `variant_key` rules such keys out today.
- An empty proposal shows no diff against a non-empty live config (`EvolutionDiff.BlankProposalHides`), and overwriting
  with it empties that config all the same (`Promotion.BlankOverwriteEmpties`).
- The evolution diff is described as what would change on promotion. In its default mode, merge, a promotion ignores the
  proposal and changes the learning keys only (`Promotion.MergeKeepsLive`, `Promotion.RiskBiasStays`);
  `Promotion.PromotionExactly` says when it does what the diff shows, and `Promotion.SameProposal` when the two even
  look at the same proposal.
- The launch check is said to sign in afresh on a 401; any failure does (`LoginSafety.LaunchKeepsToken`). A 401 for an
  old token drops a newer one (`LoginSafety.ReplyDropsToken`, `LoginSafety.LateRefusalSignsOut`).
- The retention loop's first sweep is said to run immediately (`server/cmd/server/activity_retention_loop.go:76-78`); it
  waits for the warm-up timer (`RetentionStops.PhaseMoves`).
- Stop is said to wait for its goroutine; it waits for every goroutine, also one started later
  (`RetentionStops.WakesExactly`, `RetentionStops.StopOutlivesItsWorker`), and a Start that comes between its being
  woken and its return makes that return panic (`RetentionReuse.PanicsExactly`, `RetentionReuse.ReusePanics`).
  `RetentionReuse.OvertakesExactly` and `RetentionReuse.OrderlyNeverPanics` say what callers have to avoid.

## Model

| member | source | states |
|---|---|---|
| `Text.TrimFixed` | server/cmd/server/ab_shadow_lots.go:161-162 | Trimming is idempotent, and the strings it leaves alone are exactly those without white space at either end. |
| `Text.NormFixed` | server/cmd/server/ab_shadow_lots.go:161-162 | A side or symbol already normalised is left alone by a second normalisation, which is why logged trades can be replayed. |
| `Text.SpaceExactly` | server/cmd/server/ab_shadow_lots.go:161-162 | White space is exactly the 25 code points with Unicode's White_Space property. |
| `Text.TrimExactly` | server/cmd/server/ab_shadow_lots.go:161-162 | Around a core without outer white space exactly the white space goes. |
| `Text.NormSpells` | server/cmd/server/ab_shadow_lots.go:161-162 | A side normalises to a word of capitals if and only if, outer white space apart, it spells that word with each letter in either case. |
| `LotLedger.Ledger.constructor` | server/cmd/server/ab_shadow_lots.go:135-144 | A new ledger holds its initial cash, no lots, no profit and an empty history. |
| `LotLedger.Ledger.Apply` | server/cmd/server/ab_shadow_lots.go:157-232 | One call, by its raw arguments and what was held: a BUY in any spelling pays for and appends one lot, a SELL fills what is asked or held from the oldest lots on, books each lot's units at the price less its cost and drops a lot with at most 1e-9 left, anything else is only logged; and that is the abstract ledger's step. |
| `LedgerCalls.StepAnswers` | server/cmd/server/ab_shadow_lots.go:157-232 | The same of the abstract step, from every ledger of open lots: what it does to cash, profit, the symbol's lots and the log, and what it returns. |
| `LedgerCalls.TakeSplits` | server/cmd/server/ab_shadow_lots.go:199-217 | The match takes from each lot a number of units such that no lot gives any before the older ones are used up; the lots that stay and the profit are those of that split. |
| `LedgerCalls.SplitUnique` | server/cmd/server/ab_shadow_lots.go:199-217 | There is exactly one such split. |
| `LotLedger.Ledger.SellFrom` | server/cmd/server/ab_shadow_lots.go:182-223 | A SELL fills something exactly when something is held, never more than is held, and leaves the queue less its first filled units. |
| `LotLedger.Ledger.Total` | server/cmd/server/ab_shadow_lots.go:184-187 | The held quantity is the sum over the queue. |
| `LotLedger.Ledger.Match` | server/cmd/server/ab_shadow_lots.go:199-218 | The in-place FIFO walk leaves the queue that a cut of the front leaves, and its profit, booked slice by slice, is the proceeds less the cost of the units cut. |
| `LotLedger.Ledger.PositionsAndCash` | server/cmd/server/ab_shadow_lots.go:240-256 | Reports exactly the symbols held beyond the dust threshold, with their totals, whatever order the map is ranged in. |
| `LotLedger.Ledger.AvgCostBasis` | server/cmd/server/ab_shadow_lots.go:316-331 | Volume-weighted cost of the open lots, 0 when the holding is no more than dust. |
| `LotLedger.TakeFront` | server/cmd/server/ab_shadow_lots.go:203-217 | One turn of the walk, in either of its branches and with or without a dropped residue, leaves the same final queue, cost and dust as cutting everything at once. |
| `Lots.TakeConserves` | server/cmd/server/ab_shadow_lots.go:199-217 | Matching conserves units and cost: what was held is what was taken, what stays and a residue between 0 and 1e-9. |
| `Lots.SoundRun` | server/cmd/server/ab_shadow_lots.go:108-110 | After any run every lot is open (positive quantity), non-negatively priced and in its own symbol's queue. |
| `FifoRuns.QueueIsLeftover` | server/cmd/server/ab_shadow_lots.go:157-232 | Whole-run FIFO: after any sequence of calls each queue is exactly the symbol's buys, in order, with the filled units and dropped dust removed from the front. |
| `FifoRuns.GoneWithin` | server/cmd/server/ab_shadow_lots.go:188-198 | The units gone never exceed the units bought. |
| `FifoRuns.SellIsCut` | server/cmd/server/ab_shadow_lots.go:182-223 | Selling from a queue that is a cut of the buys moves the cut by the clamped quantity, plus the residue when it is at most 1e-9. |
| `FifoRuns.OutcomeIsReference` | server/cmd/server/ab_shadow_lots.go:157-232 | After any run, what the next call fills, earns, moves in cash and clamps is what a reference that only knows the past buys and units gone says. |
| `FifoRuns.RunIsFifo` | server/cmd/server/ab_shadow_lots.go:208-223 | Realised profit of a whole run is the sum over its sells of sell price times fill less the cost of the matched slices of the buys; cash is the initial cash plus the reference cash flow. |
| `FifoRuns.FillsWithinHoldings` | server/cmd/server/ab_shadow_lots.go:188-198 | A SELL fills at most what is asked and what is held, and is flagged clamped exactly when it fills less than asked. |
| `FifoRuns.SellFillsExactly` | server/cmd/server/ab_shadow_lots.go:188-198 | A SELL fills something exactly when more of the symbol was bought before it, in the order of the calls, than is gone by then. |
| `FifoRuns.SellsBeforeBuys` | server/cmd/server/ab_shadow_lots.go:188-198 | Where every sell of a symbol comes before every buy of it nothing is sold and every buy is still held. |
| `Listings.QueueByItself` | server/cmd/server/ab_shadow_lots.go:157-232 | A symbol's lots after any run are those its own orders leave by themselves. |
| `Listings.MoneyBySymbol` | server/cmd/server/ab_shadow_lots.go:157-232 | Profit and cash of a run are the sums of what each symbol's orders bring by themselves. |
| `Listings.SameListing` | server/cmd/server/ab_shadow_lots.go:157-232 | Two listings in which every symbol's orders come in the same order leave the same lots, profit and cash, however the symbols are interleaved. |
| `Listings.BoughtOnlyTurns` | server/cmd/server/ab_shadow_lots.go:172-181 | Listed the other way round, a symbol that is never sold has its queue turned round and nothing else. |
| `Listings.ClosedTurnsOpen` | server/cmd/server/ab_shadow_lots.go:182-193 | Listed the other way round, a position opened by buys and then closed by sells is never sold and stays open whole. |
| `Accounting.IdentityStep` | server/cmd/server/ab_shadow_lots.go:172-223 | One call: profit booked less cash gained is exactly the fall in book cost less the cost of the dust dropped. |
| `Accounting.Identity` | server/cmd/server/ab_shadow_lots.go:172-223 | In every reachable state initial cash plus realised profit equals cash plus the cost of all open lots plus the cost of all dust dropped. |
| `Accounting.DriftBounded` | server/cmd/server/ab_shadow_lots.go:211-216 | The cost of the dust, hence the drift of the books, lies between 0 and 1e-9 times the dearest buy times the number of sells, and is 0 when no residue is dropped. |
| `Accounting.CostsBounded` | server/cmd/server/ab_shadow_lots.go:173-178 | No open lot is dearer than the dearest buy of the run. |
| `Accounting.WealthStep` | server/cmd/server/ab_shadow_lots.go:172-223 | A trade made at the mark leaves cash plus holdings at the marks unchanged, dust apart. |
| `Accounting.ProfitIsPriceMoves` | server/cmd/server/ab_shadow_lots.go:172-223 | Profit comes only from price moves: over any run traded at the later marks, wealth changes by the price change on what was held before, less the dust dropped. |
| `Replay.RoundTrip` | server/cmd/server/ab_shadow_lots.go:164-168 | Replaying the history into a fresh ledger with the same cash reproduces lots, cash, profit and the history itself, over-sells, unknown sides and no-ops included. |
| `Replay.LoggedSame` | server/cmd/server/ab_shadow_lots.go:227-230 | Logging the normalised but unclamped inputs loses nothing the ledger looks at. |
| `Replay.ReplayAnywhere` | server/cmd/server/ab_shadow_lots.go:472-516 | Replayed with another starting cash, as the NAV recompute may do, the history gives the same lots, profit and history, and a cash balance shifted by the difference. |
| `Replay.ChangesExactly` | server/cmd/server/ab_shadow_lots.go:77-82 | A call changes cash, profit or lots if and only if it filled something; an applied quantity of 0 means a no-op. |
| `Replay.LoggedChange` | server/cmd/server/ab_shadow_lots.go:112-115 | Every call is logged, and its entry stands for a change exactly when its result filled something. |
| `Replay.NakedSellIsLogged` | server/cmd/server/ab_shadow_lots.go:188-193 | A sell with nothing held changes nothing and is logged. |
| `Decisions.ValidatedIsUsable` | server/cmd/server/ab_shadow_bside.go:839-873 | A decoded reply is refused exactly when it does not skip and its scale is not positive; otherwise it skips, or yields a trade of the control's symbol, date and price at 0.05 times its size for a lesser scale, 3 times for a greater, the scale itself between, on the side it spells if it spells one and on the control's side otherwise. |
| `Decisions.AppliesExactly` | server/cmd/server/ab_shadow_lots.go:339-367 | A decision gives no trade exactly when it skips, the quantity is not positive or the text its side is taken from spells neither BUY nor SELL; otherwise the control's trade on that side at its scale, 1 for a scale that is not positive. |
| `Scaling.DecisionScales` | server/cmd/server/ab_shadow_bside.go:330-343 | The deterministic decider at scale k turns a control trade into exactly k times the order it gives at scale 1, and drops the same ones. |
| `Scaling.ShadowScales` | server/cmd/server/ab_shadow_lots.go:339-367 | So B's orders for a whole control run at scale k are those at scale 1, each k times as large. |
| `Scaling.TakeScales` | server/cmd/server/ab_shadow_lots.go:199-217 | Matching k times the units in a queue k times as large takes and leaves k times as much, when neither match drops a residue. |
| `Scaling.PostScales` | server/cmd/server/ab_shadow_lots.go:157-232 | One order, clamped or not, keeps two ledgers in proportion, when neither drops a residue. |
| `Scaling.RunScales` | server/cmd/server/ab_shadow_lots.go:194-223 | A whole run fed k times the trades has lots, realised profit and cash change exactly k times as large, over-sell clamps included, when no residue is dropped in either. |
| `Prices.Timeline.constructor` | server/cmd/server/ab_shadow_lots.go:389-391 | A new timeline has no observations. |
| `Prices.Timeline.Add` | server/cmd/server/ab_shadow_lots.go:393-402 | Appends the observation to the symbol's series, or nothing when the symbol is empty or the price not positive; the series is in date order afterwards exactly if it was before and nothing earlier than its last was appended. |
| `Prices.Timeline.PriceAt` | server/cmd/server/ab_shadow_lots.go:415-434 | The loop ends where the bisection does and returns the price before that place, whatever order prices were added in; on a series in date order that is what a plain scan for the last observation up to the end of the target UTC day returns. |
| `Prices.BisectStops` | server/cmd/server/ab_shadow_lots.go:424-433 | Whatever the order, the bisection stops behind an observation in time and in front of a late one. |
| `Prices.BisectIsScan` | server/cmd/server/ab_shadow_lots.go:424-433 | The bisection ends where the plain scan does if and only if nothing from there on is in time; it does when what is in time comes first, as on every day of a series in date order. |
| `Prices.NothingFound` | server/cmd/server/ab_shadow_lots.go:424-433 | The bisection finds nothing exactly when each observation it looks at on its way to the front is late. |
| `Prices.OrderedFindsLatest` | server/cmd/server/ab_shadow_lots.go:404-414 | On a series in date order the price found is one of the most recent instant in time, and none is found only when none is in time. |
| `Prices.NewestFirstFinds` | server/cmd/server/ab_shadow_lots.go:424-433 | On prices added newest first the bisection finds the oldest price of all or nothing, by whether the middle one is in time. |
| `Prices.NewestFirstFindsLatest` | server/cmd/server/ab_shadow_lots.go:404-414 | There, with some observation in time, the promise of a most recent price is kept if and only if the middle one is in time and all in time are of one instant. |
| `Prices.DayBoundary` | server/cmd/server/ab_shadow_lots.go:420-426 | A day is 24 hours of nanoseconds, and an instant is up to the day's last one exactly when its UTC day is not later: the timeline's boundary is the replay cursor's. |
| `Prices.AddedExactly` | server/cmd/server/ab_shadow_lots.go:393-402 | An observation of a named symbol at a positive price goes behind that symbol's others; nothing else changes. |
| `NavReplay.ComputeRows` | server/cmd/server/ab_shadow_lots.go:469-562 | One row per bar of the control series (none for none); cash and total assets of each row are those of a from-scratch replay, and the index columns form a NAV series. |
| `NavReplay.Walk` | server/cmd/server/ab_shadow_lots.go:501-560 | The loop over bars with its cursor, peak and previous NAV computes every row as if each were computed from scratch. |
| `NavReplay.OneBar` | server/cmd/server/ab_shadow_lots.go:502-559 | Catching the replay up, marking it and deriving the columns keeps the cursor, the account, the peak and the previous NAV those of the from-scratch definition. |
| `NavReplay.Advance` | server/cmd/server/ab_shadow_lots.go:504-515 | The cursor stops at the first trade after the bar's day, having applied every trade before it once, in order. |
| `NavReplay.MarketValue` | server/cmd/server/ab_shadow_lots.go:517-526 | Marking to market sums, whatever order positions are ranged in, the units held of each listed symbol times its price: the last in time of a series in date order, the oldest or none of one newest first, the average cost where there is none. |
| `Valuation.AssetsAtPrices` | server/cmd/server/ab_shadow_lots.go:517-526 | Assets are cash plus, for each symbol held beyond 1e-9 units, its units at that price. |
| `Valuation.AlwaysPriced` | server/cmd/server/ab_shadow_lots.go:517-524 | On a series in either order every listed holding has such a price. |
| `NavRows.RowAtPrices` | server/cmd/server/ab_shadow_lots.go:517-526 | Each row of the series has the cash of its account and assets of that cash plus its listed holdings at their prices. |
| `NavRows.ColumnsExactly` | server/cmd/server/ab_shadow_lots.go:528-559 | NAV is to the baseline as assets are to the capital, or a hundredth of the baseline where assets are gone; cumulative return, drawdown and daily return lead to it from the baseline, the greatest value so far and the NAV before. |
| `NavRows.FlatRow` | server/cmd/server/ab_shadow_lots.go:475-492 | Before the history's first day a row shows the initial cash and the control's first NAV; 1 stands for a first NAV that is not positive, and the baseline for initial cash that is not. |
| `NavReplay.NextRow` | server/cmd/server/ab_shadow_lots.go:528-559 | NAV, floor, drawdown against the running peak, daily and cumulative return of one bar. |
| `NavReplay.CutUnique` | server/cmd/server/ab_shadow_lots.go:504-515 | There is exactly one place for the cursor to stop, so the walking cursor and the from-scratch cut agree. |
| `NavLaws.ColumnLaws` | server/cmd/server/ab_shadow_lots.go:528-559 | NAV is positive; drawdown lies in (-1, 0] and is 0 exactly when the NAV is at least the baseline and every earlier NAV. |
| `NavLaws.Compounding` | server/cmd/server/ab_shadow_lots.go:543-549 | Daily returns compound: one plus the cumulative return of row n is that of row 0 times the product of one plus the daily returns of rows 1 to n. |
| `NavLaws.FirstRowIsBaseline` | server/cmd/server/ab_shadow_lots.go:453-455 | The first row shows the control's own first NAV if and only if B's assets there are its capital. |
| `NavLaws.FloorExact` | server/cmd/server/ab_shadow_lots.go:528-533 | A NAV is at least a hundredth of the baseline exactly when total assets are not positive or are at least a hundredth of the capital. |
| `NavLaws.MonotoneExactly` | server/cmd/server/ab_shadow_lots.go:528-533 | More assets give no lower a NAV if and only if the lower amount is positive, the higher is not, or the higher is at least a hundredth of the capital. |
| `NavLaws.ThroughExactly` | server/cmd/server/ab_shadow_lots.go:504-515 | The cursor's prefix of the history is the trades on or before the day if and only if no such trade stands behind a later one. |
| `NavLaws.SortedExactly` | server/cmd/server/ab_shadow_lots.go:504-515 | It is on every day if and only if the history is in day order. |
| `NavLaws.ThroughSorted` | server/cmd/server/ab_shadow_lots.go:504-515 | On a day-sorted history it always is. |
| `NavLaws.RowSeesItsDays` | server/cmd/server/ab_shadow_lots.go:495-526 | With day-sorted bars, row i has replayed the history up to its day's cut: exactly the trades on or before the bar's UTC day if and only if none of those stands behind a later trade, as in a day-sorted history. |
| `NavLaws.NewestFirstRows` | server/cmd/server/ab_shadow_lots.go:501-515 | On a newest-first history a row has replayed nothing before the newest trade's day and the whole history, in that order, from then on. |
| `NavLaws.RowSeesLiveRun` | server/cmd/server/ab_shadow_lots.go:472-516 | And it is the account the live ledger had after those trades, its cash shifted by the difference in seed. |
| `NavRuns.AssetsAreWealth` | server/cmd/server/ab_shadow_lots.go:517-526 | Total assets are cash plus every holding at its mark, when no holding is too small to be listed. |
| `NavRuns.RowProfitIsPriceMoves` | server/cmd/server/ab_shadow_lots.go:501-526 | When every trade of a bar is made at that bar's marks, total assets move between rows by the price change on what was held before, less the dust dropped. |
| `NavRuns.LogReturnsScale` | server/cmd/server/ab_shadow_lots.go:517-549 | Two histories in proportion k give cumulative returns in proportion k on every row that is not floored, has dropped no dust so far and lists every holding. |
| `NavRuns.ShadowReturnsScale` | server/cmd/server/ab_shadow_bside.go:330-343 | The deterministic shadow at scale k earns, on every such row, k times the cumulative return of the shadow at scale 1. |
| `NavRuns.LogOrders` | server/cmd/server/ab_shadow_lots.go:164-168 | The history of a run carries the run's own orders. |
| `NavRuns.FallsBackExactly` | server/cmd/server/ab_shadow_lots.go:517-524 | The average-cost fallback fires exactly when each observation the bisection looks at on its way to the front of the symbol's series is late. |
| `NavRuns.HeldWasObserved` | server/cmd/server/ab_shadow_lots.go:517-524 | If every buy of the history was observed, a symbol held on a bar has an observation on or before its day. |
| `NavRuns.FallbackNeverFires` | server/cmd/server/ab_shadow_lots.go:517-524 | If moreover the symbol's prices were added in date order, the bisection finds one, and a most recent one: the fallback never fires. |
| `NavRuns.EarlyRowIsFlat` | server/cmd/server/ab_shadow_lots.go:501-533 | Before the day of the history's first entry a row shows the capital untouched, with the baseline as its NAV. |
| `Budget.Decider.DecideTrade` | server/cmd/server/ab_shadow_bside.go:469-516 | While the counter is below the cap the model is asked, a failed or invalid answer falling back to the deterministic decision and using up a call all the same; past the cap every decision is deterministic. |
| `Budget.Decider.SummarizeBLearning` | server/cmd/server/ab_shadow_bside.go:520-521 | The summary at the end of a run resets the counter, giving the next run the whole budget. |
| `Budget.WholeBudgetExactly` | server/cmd/server/wiring_adapters.go:9782-9804 | The decider is shared between runs: a run starts with the whole budget if and only if every run since the last one that reached its summary decided on no trade. |
| `Budget.LeftExactly` | server/cmd/server/ab_shadow_bside.go:445-455 | What a run has left is the cap less all trades decided on since the last summary. |
| `Budget.DecidedAsWhole` | server/cmd/server/ab_shadow_bside.go:469-489 | A run is decided as with the whole budget, whatever the model answers, if and only if the whole budget is left or what is left covers all its trades. |
| `Budget.DecidedExactly` | server/cmd/server/ab_shadow_bside.go:469-516 | A trade becomes what the reply says while a call is left and the reply can be used, and otherwise the control's trade at the strategy's scale. |
| `Budget.AskedExactly` | server/cmd/server/ab_shadow_bside.go:473-486 | The model is asked about a trade exactly when fewer trades than the cap have been decided on since the last summary. |
| `ShadowRun.Build` | server/cmd/server/wiring_adapters.go:9677-9782 | For control trades in any order and a decider new or used, the run leaves B's ledger as the ledger that applied B's trades in that order, the timeline fed with every control trade, and the decider's counter moved on. |
| `ShadowRun.ShadowNav` | server/cmd/server/wiring_adapters.go:9504-9575 | From control trades to B's NAV rows: with any trade a NAV series replayed from the history of B's own run, with none the control's own NAVs under the style bias. |
| `ShadowRun.ReachesLedgerSymbol` | server/cmd/server/wiring_adapters.go:9690-9693 | Feeding a control trade reaches the series its ledger symbol is priced from exactly when the price is positive and the symbol has no stray white space. |
| `ShadowRun.CleanRunCovers` | server/cmd/server/wiring_adapters.go:9684-9737 | With trimmed symbols and positive prices every buy of a shadow run is observed by the timeline, whatever the decisions. |
| `ShadowRun.CleanRunNeverFallsBack` | server/cmd/server/ab_shadow_lots.go:517-524 | In such a run, with the trades oldest first, the average-cost fallback never fires and every mark is a most recent price. |
| `ShadowRun.LatestFirstFallsBack` | server/cmd/server/ab_shadow_lots.go:517-524 | With the trades newest first, a held symbol falls back on a row if and only if the middle one of its prices is late. |
| `ShadowRun.FeedOrder` | server/cmd/server/wiring_adapters.go:9684-9693 | Each symbol's series is in the order of the trades: in date order for trades oldest first, newest first for trades newest first. |
| `ShadowRun.FeedExactly` | server/cmd/server/wiring_adapters.go:9684-9693 | A symbol's series has one observation, of its date and price, for each control trade of that very symbol at a positive price, in order. |
| `ShadowRun.ShadowExactly` | server/cmd/server/wiring_adapters.go:9694-9737 | B has one trade for each control trade whose decision makes one, in order, at the decision's scale and on its side. |
| `ShadowRun.ShadowOrder` | server/cmd/server/wiring_adapters.go:9684-9737 | B's own trades keep the order of the control's. |
| `ShadowRun.OldestFirstRun` | server/cmd/server/ab_shadow_lots.go:472-516 | Run oldest first, every row has replayed exactly B's trades on or before its day. |
| `ShadowRun.LatestFirstRun` | server/internal/repository/fund_repo.go:1606-1615 | Run newest first, as the control's trades are listed, no trade shows before the newest one's day and all of them from then on, and a symbol is marked at its oldest price of all or at none. |
| `ShadowRun.SellBeforeItsBuy` | server/cmd/server/ab_shadow_lots.go:182-193 | A buy and the later sell of what was bought: newest first the sell fills nothing, earns nothing and leaves the position open; the two orders earn the same exactly when the prices are equal. |
| `BiasNav.BiasedRows` | server/cmd/server/wiring_adapters.go:9619-9660 | Each row of a run without trades is the control's snapshot under the bias, its drawdown taken from the greatest value so far. |
| `BiasNav.BiasedExactly` | server/cmd/server/wiring_adapters.go:9619-9660 | Of each snapshot but the first the distance from the first NAV is multiplied by the bias, unless that leaves nothing or the first NAV is not positive; daily return and assets move with it, and the returns lead from the base and the greatest value so far to the NAV. |
| `BiasNav.BiasScalesReturn` | server/cmd/server/wiring_adapters.go:9629-9636 | Its cumulative return is the control's times the bias if and only if that leaves something of the first NAV, or the bias is 1; otherwise it is the control's own. |
| `BiasNav.BiasDrawdown` | server/cmd/server/wiring_adapters.go:9637-9643 | Its drawdown lies in (-1, 0] for a positive control NAV and is 0 exactly at the greatest value so far. |
| `ShadowRun.PaddedSymbolFallsBack` | server/cmd/server/wiring_adapters.go:9690-9693 | Any padded symbol shows the gap: the ledger holds the trimmed symbol, the timeline has no price for it on any day. |
| `BarStats.RecapHeadline` | server/cmd/server/ab_shadow_bside.go:705-748 | None for no bars; otherwise first and last NAV, the percentage between them, the first bar of the greatest and of the least NAV, and the deepest fall. |
| `BarStats.DrawdownExactly` | server/cmd/server/ab_shadow_bside.go:718-739 | For any NAVs the maximum drawdown is the deepest percentage by which a bar lies below a positive highest bar before it, 0 if none lies below. |
| `BarStats.TrailingStats` | server/cmd/server/ab_shadow_bside.go:208-249 | None exactly for a non-positive lookback or no bar up to the date; otherwise length, percentage change and, in one pass, the deepest fall of the last `lookback` bars up to it. |
| `BarStats.DrawdownBelowPairs` | server/cmd/server/ab_shadow_bside.go:718-739 | For positive NAVs no ordered pair of bars falls further than the maximum drawdown. |
| `BarStats.DrawdownIsAPair` | server/cmd/server/ab_shadow_bside.go:718-739 | And some ordered pair falls exactly that far. |
| `BarStats.DrawdownLaws` | server/cmd/server/ab_shadow_bside.go:208-249 | It lies in (-100, 0] percent, is 0 exactly when NAVs never fall, and a window's is never deeper than the whole series'. |
| `BarStats.LastUpToDate` | server/cmd/server/ab_shadow_bside.go:191-199 | The scan with its early exit returns the last bar before the first one after the instant. |
| `BarStats.Context.constructor` | server/cmd/server/ab_shadow_bside.go:145-157 | The date index maps each UTC day that has a bar to the last such bar. |
| `BarStats.Context.NavForDate` | server/cmd/server/ab_shadow_bside.go:180-200 | The bar for an instant is the day's last bar if the day has one; otherwise it is in time, as all before it, and the next one is not; none for no such bar. |
| `BarStats.IndexAgrees` | server/cmd/server/ab_shadow_bside.go:180-200 | On date-ordered bars the indexed lookup agrees with the plain scan if and only if the day's last bar, if any, is not stamped after the instant asked for. |
| `BarStats.MidnightBarsAgree` | server/cmd/server/ab_shadow_bside.go:180-200 | Bars stamped at UTC midnight, duplicates allowed, always agree, and no bar is found exactly when every bar lies after the instant. |
| `FundingSafety.Safe` | server/cmd/server/admin_funding.go:213-374 | The invariant of the workflow (locks, buffered writes, records, ledger, ids, capital, winners) holds after every schedule of any number of approve and reject handlers, cancels and new requests, with a failure possible before any statement. |
| `FundingSafety.CashIdentity` | server/cmd/server/admin_funding.go:17-37 | Over every schedule: a fund's capital is its start plus its ledger amounts; an approved request has exactly one ledger row, of its own amount and sign, and no other request has any; capital never falls below -0.0001 from a non-negative start. |
| `FundingSafety.WithdrawalGuard` | server/cmd/server/admin_funding.go:283-309 | The sufficiency check lets a withdrawal through exactly when it leaves the fund at -0.0001 or above. |
| `FundingSafety.PendingNotPosted` | server/internal/repository/cash_ledger_repo.go:222-302 | A pending request never has a ledger row under its key, so the idempotent insert's conflict branch is not taken by a handler that holds the request. |
| `FundingSafety.AdvanceInv` | server/cmd/server/admin_funding.go:251-374 | Each handler statement, approve or reject, keeps the invariant. |
| `FundingSafety.EnvironmentInv` | server/internal/repository/funding_repo.go:258-287 | So do a requester's cancel of a pending request and a new request. |
| `FundingSafety.ApprovalInv` | server/cmd/server/admin_funding.go:370-374 | An approval's commit adds its ledger row, moves capital by the same amount and marks the request, and keeps every other handler's view true. |
| `FundingSafety.RejectionInv` | server/cmd/server/admin_funding.go:482-494 | A rejection's commit changes the request's record alone. |
| `FundingProgress.StepKeeps` | server/internal/repository/funding_repo.go:303-356 | A step changes nothing of what a request asks for, nothing at all once it is decided, and takes it out of pending only as a commit by somebody other than its requester or as the requester's own cancel. |
| `FundingProgress.Final` | server/cmd/server/admin_funding.go:252-309 | Over every schedule and every continuation of it a decided request stays as it was decided, with its author and ledger row. |
| `FundingProgress.SoleDecision` | server/cmd/server/admin_funding.go:361-374 | A handler that reported success decided its request in its own admin's name, who is not the requester, the request is not both approved and rejected, and no other handler of that request succeeded. |
| `FundingProgress.ConflictExactly` | server/cmd/server/admin_funding.go:482-490 | A handler is told of a state conflict exactly when it rejects and the request was decided after it was read; an approval never is. |
| `FundingProgress.UsersMove` | server/internal/repository/funding_repo.go:258-287 | A requester's cancel cancels their own pending request, a new request is kept as made, and neither touches anything else. |
| `FundingProgress.NoDeadlock` | server/cmd/server/admin_funding.go:252-309 | Locks are taken request row first and fund row second, so after any schedule some handler can step while any is unfinished. |
| `FundingProgress.Bounded` | server/cmd/server/admin_funding.go:213-374 | No schedule makes the handlers take more statements in all than they have, at most six each. |
| `FundingProgress.Finishes` | server/cmd/server/admin_funding.go:213-374 | From wherever a schedule has got to, handler steps alone finish every handler. |
| `FundingDesk.Desk.Approve` | server/cmd/server/admin_funding.go:213-374 | Run with nobody else at work and cut short at any statement the handler answers by the books it finds, in each case; if it reports success it has moved capital by the amount, added one ledger row of that change and put the approver in the record, and otherwise nothing has changed; it leaves what the step machine's run leaves, and books in order if they were. |
| `FundingDesk.Desk.Post` | server/cmd/server/admin_funding.go:311-374 | The buffered insert, capital update and compare-and-set take effect together at the commit or not at all. |
| `FundingDesk.Desk.Append` | server/internal/repository/cash_ledger_repo.go:222-314 | The insert adds a row with a new id unless one stands under the key, whose id it then returns. |
| `FundingDesk.Desk.Reject` | server/cmd/server/admin_funding.go:414-494 | The reject handler alone, likewise; success puts the admin's name in the record and moves no money. |
| `FundingDesk.SoloIsSchedule` | server/cmd/server/admin_funding.go:213-374 | Such a lone run is one of the schedules, so every theorem about schedules holds of the handlers' code. |
| `FundingDesk.SoloKeepsBooks` | server/cmd/server/admin_funding.go:213-374 | So a lone handler, wherever it is cut short, leaves requests, ledger and capital in order. |
| `FundingDesk.ApprovalKeepsCash` | server/cmd/server/admin_funding.go:17-37 | After a lone approval, cut short anywhere, capital is its start plus its ledger rows, and the request has a row exactly if it is approved. |
| `FundingDesk.AllOrNothing` | server/cmd/server/admin_funding.go:234-374 | Whichever statement fails, the books are untouched or hold the whole approval, and success is reported exactly in the second case. |
| `FundingDesk.ApprovalAnswers` | server/cmd/server/admin_funding.go:234-374 | Not found exactly for an unknown request, not pending for a decided one, a four-eye violation for the actor's own pending one, insufficient cash for another's withdrawal of more than the capital and 0.0001, success for any other whose statements all run, and then the books hold the change; the failure answer is what is left. |
| `FundingDesk.RejectionAnswers` | server/cmd/server/admin_funding.go:436-494 | The same of a rejection, which changes the request's record alone. |
| `FundingDesk.RetryIsHarmless` | server/cmd/server/admin_funding.go:35-37 | Retrying an approval that went through, by anyone, changes nothing and does not report success. |
| `FundingDesk.OverdrawsExactly` | server/cmd/server/admin_funding.go:283-309 | After an approved withdrawal capital is non-negative if and only if it covered the whole amount before. |
| `FundingDesk.BoundIsReached` | server/cmd/server/admin_funding.go:300 | From any non-negative start a withdrawal of all capital and 0.0001 more is approved and leaves exactly -0.0001. |
| `Attribution.OperationalAttribution` | server/cmd/server/ab_shadow_agent_wiring.go:393-480 | The rows are the ranking of all symbols traded cut to the first 50; no gap is larger than one before it, whichever side it favours, and gaps of one size are in the order of their symbols; the totals summarise all groups of each side. |
| `Attribution.Collect` | server/cmd/server/ab_shadow_agent_wiring.go:393-430 | Reading the groups leaves, per symbol and side, the last group read, and per side the sum of all groups; groups of other variants are skipped. |
| `Attribution.BuildRow` | server/cmd/server/ab_shadow_agent_wiring.go:441-467 | Gap is B less A, its share is taken of the larger turnover (0 when there is none), and the winner is the side ahead by more than 0.0001. |
| `Attribution.BuildRows` | server/cmd/server/ab_shadow_agent_wiring.go:440-468 | One row per symbol, each symbol once, whatever order the map yields them in. |
| `Attribution.Sort` | server/cmd/server/ab_shadow_agent_wiring.go:469-478 | A permutation with the largest gaps first, whichever side they favour, and then by symbol. |
| `Attribution.TotalsOf` | server/cmd/server/ab_shadow_agent_wiring.go:484-501 | Average times count gives back the profit, win rate times count the wins; both are 0 for no trades, and the rate lies in [0, 1]. |
| `AttributionLaws.RankingUnique` | server/cmd/server/ab_shadow_agent_wiring.go:440-478 | The ranking is canonical: any two rankings of the same groups are the same list. |
| `AttributionLaws.RankingExactly` | server/cmd/server/ab_shadow_agent_wiring.go:404-480 | There is a row for each symbol with a group of variant a, A, b or B and no other; it shows the last group of either side, nothing where there is none, and the gap between their profits. |
| `AttributionLaws.TotalsConserve` | server/cmd/server/ab_shadow_agent_wiring.go:406-428 | A side's total of any measure is the sum over the rows plus what replaced groups had counted, for every input. |
| `AttributionLaws.TotalsAreSums` | server/cmd/server/ab_shadow_agent_wiring.go:409-428 | The reported trade counts are the rows' sums if and only if no two groups share symbol and upper-cased variant; then turnover, profit and wins agree as well. |
| `AttributionLaws.GapsConserve` | server/cmd/server/ab_shadow_agent_wiring.go:440-468 | Before the cap the gaps add up to total B less total A when keys are distinct, and in general up to what was replaced. |
| `AttributionLaws.ClashLoses` | server/cmd/server/ab_shadow_agent_wiring.go:409-428 | Two groups whose keys clash after upper-casing: totals count both, the row only the one read last. |
| `AttributionLaws.GroupOrderIrrelevant` | server/cmd/server/ab_shadow_agent_wiring.go:369-378 | With distinct keys the order in which the database returns the groups changes neither rows nor totals. |
| `AttributionLaws.SwapMirrors` | server/cmd/server/ab_shadow_agent_wiring.go:440-478 | Exchanging A and B negates every gap and share, exchanges winners and totals, and keeps the order of rows. |
| `EvolutionDiff.ComputeDiff` | server/cmd/server/ab_shadow_agent_wiring.go:290-333 | Nothing for an empty proposal or an unreadable agent, the whole proposal for a missing agent, otherwise nothing exactly when the configs are equal and else a diff that describes the change. |
| `EvolutionDiff.MapFromJson` | server/cmd/server/wiring_adapters.go:9387-9393 | The stored column's keys and values less null, text of white space alone and empty objects; false, zero and empty lists stay; nothing when absent or unreadable. |
| `EvolutionDiff.LoadedExactly` | server/cmd/server/wiring_adapters.go:22756-22783 | The same of every column. |
| `EvolutionDiff.CompactTwice` | server/cmd/server/wiring_adapters.go:22756-22783 | Dropping blank values once is enough: a compacted config stays as it is. |
| `EvolutionDiff.Compare` | server/cmd/server/ab_shadow_agent_wiring.go:307-316 | Added are exactly the new keys with their proposed values, changed exactly the differing common keys with old and new value. |
| `EvolutionDiff.Gone` | server/cmd/server/ab_shadow_agent_wiring.go:317-321 | Removed are exactly the keys the proposal lacks, each once. |
| `EvolutionDiff.ExactPatch` | server/cmd/server/ab_shadow_agent_wiring.go:302-333 | Added, changed and removed are disjoint, applying the diff to the live config gives the proposal, and undoing it gives the live config back. |
| `EvolutionDiff.DiffExactly` | server/cmd/server/ab_shadow_agent_wiring.go:290-333 | A diff is shown exactly when something is proposed, the agent could be looked up and its config differs, a missing agent's being empty; it always leads from that config to the proposal and back. |
| `EvolutionDiff.Least` | server/cmd/server/ab_shadow_agent_wiring.go:302-333 | No patch from the live config to the proposal touches fewer keys. |
| `EvolutionDiff.Reversed` | server/cmd/server/ab_shadow_agent_wiring.go:302-333 | The diff the other way round exchanges additions with removals and old with new values. |
| `EvolutionDiff.ShownExactly` | server/cmd/server/ab_shadow_agent_wiring.go:280-324 | For two stored columns nothing is shown exactly when the proposal has only blank values or the compacted configs agree. |
| `EvolutionDiff.BlankProposalHides` | server/cmd/server/ab_shadow_agent_wiring.go:291-293 | A proposal of blank values against a non-empty live config shows no diff although the configs differ. |
| `Promotion.UniqueNonEmpty` | server/cmd/server/wiring_adapters.go:23041-23056 | The loop with its set keeps the first occurrence of each trimmed value and no blank one. |
| `Promotion.UniqueKeeps` | server/cmd/server/wiring_adapters.go:23041-23056 | Nothing but blanks is lost, and nothing is kept twice. |
| `Promotion.CopyConfig` | server/cmd/server/wiring_adapters.go:8568-8577 | The copy has exactly the trimmed, non-empty keys, each with the value of a key that trims to it, whatever order the map is ranged in. |
| `Promotion.CopyExactly` | server/cmd/server/wiring_adapters.go:8568-8577 | The copy agrees with the config, outside the keys a promotion writes, if and only if no key of the config is empty or padded. |
| `Promotion.BuildPromoted` | server/cmd/server/wiring_adapters.go:9082-9108 | The promoted config starts from the live config when merging and from the proposal when overwriting, and has the six learning keys written over it. |
| `Promotion.PromotedOutside` | server/cmd/server/wiring_adapters.go:9083-9086 | Outside those keys merging leaves the live config, so it gives the proposal exactly where the two agree; overwriting gives it exactly when the proposal's keys are clean. |
| `Promotion.PromotionExactly` | server/cmd/server/ab_shadow_agent_wiring.go:284-288 | A promotion gives what applying the shown diff gives, outside those keys, if and only if it overwrites and the proposal's keys are clean, or it merges and the diff touches no other key. |
| `Promotion.MergeKeepsLive` | server/cmd/server/ab_shadow_agent_wiring.go:284-288 | A change the diff shows outside those keys never happens in a merge: the live value stays. |
| `Promotion.RiskBiasStays` | server/cmd/server/wiring_adapters_test.go:855-889 | One live setting and a proposal to change it: merging keeps the live value, overwriting takes the proposed one. |
| `Promotion.BlankOverwriteEmpties` | server/cmd/server/wiring_adapters.go:9084-9089 | Overwriting with a proposal of blank values leaves only the six keys, though no diff was shown. |
| `Promotion.LessonsKept` | server/cmd/server/wiring_adapters.go:9090 | New lessons come first, at most twelve are kept, and none, new or old, is lost while at most twelve differ. |
| `Promotion.PromotedExactly` | server/cmd/server/wiring_adapters.go:9090-9107 | Lessons written are the first twelve different ones of the new and then the old, trimmed, none blank; adjustments the first twelve; summary, dates and record as given, less what is empty. |
| `Promotion.TextsExactly` | server/cmd/server/wiring_adapters.go:22843-22863 | The old lessons read are the texts of the config's list, in order, less blank ones. |
| `Promotion.ModeExactly` | server/cmd/server/wiring_adapters.go:8989-8998 | Blank or merge merges, overwrite, replace, cover and its Chinese word overwrite, in any case of letters; anything else is refused. |
| `Promotion.NewestProposal` | server/cmd/server/wiring_adapters.go:9074-9076 | A promotion's proposal is the newest that is not empty. |
| `Promotion.SameProposal` | server/cmd/server/wiring_adapters.go:9074-9076 | The report diffs the newest event's proposal, the promotion takes the newest that is not empty; they are the same if and only if the newest proposes something or none does. |
| `LoginSafety.Safe` | miniapp/app.js:98-242 | The invariant (one handshake, where each call stands, whose token is stored when callers resume) holds after every interleaving of requests, callbacks and promise reactions. |
| `LoginSafety.SingleFlight` | miniapp/app.js:98-151 | At most one handshake is unfinished; while one is, no step of any kind begins another; and code, exchange, `finally` and resumption never begin one. |
| `LoginSafety.SharedOutcome` | miniapp/app.js:92-102 | Callers of one handshake share its outcome: all refused without another send, or all signed in, each request sent once more with that handshake's token. |
| `LoginSafety.AtMostTwoSends` | miniapp/utils/api.js:57-144 | A request is sent at most twice, a suppressed one or the launch check once, and a second send carries the token of a handshake that succeeded. |
| `LoginSafety.SettledByLastAnswer` | miniapp/app.js:187-239 | A settled request was answered once per send, and the last answer decides: fulfilled exactly on a 2xx, unauthorized exactly on a 401; a second send follows a 401 to the first. |
| `LoginSafety.SettlesOnce` | miniapp/app.js:173-241 | A settled promise stays settled, with the same outcome, under every continuation. |
| `LoginSafety.NoneHangs` | miniapp/app.js:173-241 | While a call is unsettled some callback or reaction is still due. |
| `LoginSafety.StepWorks` | miniapp/app.js:196-219 | Every callback and reaction uses up work, also where a 401 begins a handshake, so retries cannot go on for ever. |
| `LoginSafety.AllSettle` | miniapp/app.js:173-241 | From wherever a run has got to, its own callbacks settle every promise. |
| `LoginSafety.ReplyDropsToken` | miniapp/app.js:196-198 | An answer drops the stored token exactly when it is a 401 to the app's own client, even if the token stored is newer than the one refused; the pages' client keeps it. |
| `LoginSafety.LateRefusalSignsOut` | miniapp/app.js:196-211 | A run in which a late 401 throws away the token a handshake has just brought and begins another handshake. |
| `LoginSafety.LaunchKeepsToken` | miniapp/app.js:43-64 | The cached token survives the launch check exactly on an authenticated answer; a network or server error drops it as a 401 does, and signs in afresh. |
| `MiniApp.Miniprogram.LoginWithWechat` | miniapp/app.js:98-151 | Returns the handshake in flight, or begins one and puts it in flight. |
| `MiniApp.Miniprogram.BootstrapSession` | miniapp/app.js:36-68 | With a cached token exactly one check goes out, carrying it, and no sign-in begins; without one no call is made and a sign-in is in flight. |
| `MiniApp.Miniprogram.SignIn` | miniapp/app.js:98-102 | A page that asks to be signed in waits for the one unfinished handshake, begun only if there was none. |
| `MiniApp.Miniprogram.Request` | miniapp/app.js:173-186 | Going out begins no sign-in, and while a handshake's token waits to be announced the request already carries it. |
| `MiniApp.Miniprogram.OnResponse` | miniapp/app.js:187-239 | A request is settled by this answer, with the outcome the answer calls for, unless it is its first 401 and it may sign in: then it waits for the handshake in flight, begun only if there was none. Only a 401 to the app's own client drops the token. |
| `MiniApp.Miniprogram.OnSessionResponse` | miniapp/app.js:43-64 | A 401 to the launch check drops the token at once, any other answer leaves it; nothing is begun yet. |
| `MiniApp.Miniprogram.OnSession` | miniapp/app.js:51-64 | The token outlives the launch check exactly when its one answer was an authenticated session; otherwise a sign-in is in flight. |
| `MiniApp.Miniprogram.OnCode` | miniapp/app.js:105-118 | With a code or without one, the handshake stays the one in flight, no other begins and nobody resumes. |
| `MiniApp.Miniprogram.OnExchanged` | miniapp/app.js:119-140 | On success the token is stored while nobody can resume yet; a refused exchange signs out and begins no other handshake. |
| `MiniApp.Miniprogram.OnFinally` | miniapp/app.js:147-149 | No handshake is unfinished any more, everyone who waited for this one can resume, and if it succeeded its token is the one stored. |
| `MiniApp.Miniprogram.OnLoggedIn` | miniapp/app.js:199-217 | After a failed handshake the caller is told so without another send; after one that succeeded a request is sent a second and last time, with that handshake's token. |
| `MiniApp.Miniprogram.Promises` | miniapp/app.js:92-102 | In every state the object can reach the handshake in flight is the only unfinished one and no call has been sent more than twice. |
| `RetentionSafety.Safe` | server/cmd/server/activity_retention_loop.go:79-183 | The invariant of channels, goroutines, counter and callers holds after every interleaving of Start and Stop callers and loop goroutines. |
| `RetentionStops.LifeCycle` | server/cmd/server/activity_retention_loop.go:79-183 | No channel is closed twice; a started loop has an open channel; every goroutine but that channel's has its own closed or about to be by a Stop; the wait counter is goroutines launched less exited. |
| `RetentionStops.PhaseMoves` | server/cmd/server/activity_retention_loop.go:96-130 | A goroutine goes to sweep when its timer fires, from a sweep back to waiting, and leaves from waiting alone and only once its channel is closed; a Start that has spawned it returns. |
| `RetentionStops.StopSeesExit` | server/cmd/server/activity_retention_loop.go:168-183 | A Stop that detached a goroutine returns only after it has exited, and it never comes back. |
| `RetentionStops.WakesExactly` | server/cmd/server/activity_retention_loop.go:182 | A waiting Stop is woken exactly when no goroutine at all is left, not only its own. |
| `RetentionStops.StopHangs` | server/cmd/server/activity_retention_loop.go:172-183 | Once the loop has been started again, and as long as nobody else calls Stop, a waiting Stop never returns. |
| `RetentionStops.StopOutlivesItsWorker` | server/cmd/server/activity_retention_loop.go:79-94 | One Stop and one further Start reach such a state with the Stop's own goroutine already gone. |
| `RetentionStops.AllReturn` | server/cmd/server/activity_retention_loop.go:168-183 | With the loop stopped and no Start on its way, callers and goroutines alone bring every Stop back, without a panic. |
| `RetentionReuse.PanicsExactly` | server/cmd/server/activity_retention_loop.go:181-182 | A step panics exactly when a Stop that was woken returns from its Wait while some goroutine has not exited; closing a channel never does. |
| `RetentionReuse.OvertakesExactly` | server/cmd/server/activity_retention_loop.go:83-94 | The one kind of step that makes this possible is a Start that launches a goroutine while some Stop has been woken and has not returned. |
| `RetentionReuse.OvertakingPanics` | server/cmd/server/activity_retention_loop.go:83-94 | After such a Start the woken Stop's very next step is that panic. |
| `RetentionReuse.OrderlyNeverPanics` | server/cmd/server/activity_retention_loop.go:79-183 | A schedule in which no Start overtakes a woken Stop never panics. |
| `RetentionReuse.ReusePanics` | server/cmd/server/activity_retention_loop.go:168-183 | One Stop and one further Start are enough for a run that panics. |
| `RetentionService.Loop.constructor` | server/cmd/server/activity_retention_loop.go:48-55 | A new loop is stopped and has an open, unused channel. |
| `RetentionService.Loop.StartLocked` | server/cmd/server/activity_retention_loop.go:83-94 | After Start's critical section the loop is started on an open channel; a stopped loop has gained exactly one goroutine to spawn, on a channel no other has, a started one none. |
| `RetentionService.Loop.StopLocked` | server/cmd/server/activity_retention_loop.go:172-180 | After Stop's critical section the loop is stopped; if it was started the caller holds the still open channel of a goroutine that has not exited. |
| `RetentionService.Loop.CloseChannel` | server/cmd/server/activity_retention_loop.go:181 | Though the mutex has been released, the channel to be closed is open, so the close cannot panic. |
| `RetentionService.Loop.Wait` | server/cmd/server/activity_retention_loop.go:182 | Wait returns at once exactly when no goroutine is left, the caller's own included. |
| `RetentionService.Loop.ReturnFromWait` | server/cmd/server/activity_retention_loop.go:182 | A woken Wait panics exactly when some goroutine has not exited, and otherwise the caller's own has. |
| `RetentionService.Loop.WaitGroupDone` | server/cmd/server/activity_retention_loop.go:97 | An exiting goroutine's channel has been closed, and everyone waiting is woken if it was the last one, nobody otherwise. |
| `RetentionService.Loop.Promises` | server/cmd/server/activity_retention_loop.go:79-183 | In every state the object can reach the invariant holds: a started loop has an open channel, the counter is exact, no channel was closed twice. |

## Left out

- Floating point: `float64` is `real`, so rounding, NaN and infinities are not modelled; a reply's NaN or infinite scale is the invalid-scale error.
- Time zones other than UTC, and nil receivers of the ledger, the timeline and the deciders.
- Text.UpperFixed: upper and lower casing covers the letters that become ASCII letters; others stay as they are, because no word compared with has any.
- LotLedger.Ledger.Apply: queues are sequences in a map field that the method reassigns; sharing of the backing array between an old and a new slice header is not modelled.
- Prices.Timeline.PriceAt: the library's binary search is written out as a loop.
- NavLaws.ColumnLaws: stated for the series of one recompute; writing the rows to the database is left out.
- Scaling.RunScales: proportionality is stated for runs that drop no residue, because the 1e-9 threshold does not scale with the trades.
- NavRuns.ShadowReturnsScale: needs rows that are not floored and holdings above the dust threshold in both runs, for the same reason.
- NavRuns.RowProfitIsPriceMoves: needs holdings above the dust threshold on both rows, since smaller ones are not listed as positions.
- NavRuns.FallbackNeverFires: stated for day-sorted bars, which is how NAV snapshots are listed.
- ShadowRun.Build: the rows written per trade and per decision difference are left out, as is the text of reasonings.
- ShadowRun.LatestFirstRun: trades are listed by creation time and dated by execution time; newest first is stated of the dates, so it covers listings in which the two orders agree. The conditions for an arbitrary order are the general ones above.
- Budget.Decider.DecideTrade: runs that share a decider at the same time are not modelled; the model's reply is an arbitrary value or an error; prompts, JSON decoding and metrics are left out.
- `HeldSymbols`, `Cash`, `InitialCash`, `RealizedPnL` and `History`: plain accessors.
- BarStats.Context.constructor: the trade counts and notional kept beside the NAV index are left out, as is the formatted text of the headline and the trailing hint.
- FundingSafety.CashIdentity: funding is the only writer of capital; trades, fees and other writers are left out, as is the `posted` status, which no handler sets.
- Funding: isolation is read-committed with row locks; the database's own four-eye check, a commit whose outcome is unknown to the handler, list endpoints, authentication, audit and metrics are left out.
- FundingDesk.Desk.Approve: new ledger ids are a counter, where the database draws random ones.
- Attribution.Sort: the library's stable sort is an insertion on a sequence; with distinct symbols no two rows are equal, so stability does not show.
- Attribution.OperationalAttribution: the query, its grouping and the authorisation check; groups are its input.
- EvolutionDiff.ComputeDiff: JSON values are compared structurally where the code compares their marshalled text; a nil map and an empty one are the same.
- Promotion.BuildPromoted: the record of the promotion and the joined summary are values it is given; memories, skills, the dry run, the database transaction and the choice of variant and agents are left out.
- The folding of learning events into an agent's summary, lessons and timeline: string lists with easy properties.
- LoginFlight: toasts, loading masks, timeouts, base URLs, and the polling of `waitForLogin`; platform callbacks are assumed not to fire inside the call that registers them.
- LoginSafety.NoneHangs: a call settles provided the platform calls back, which the model takes as a step that can always be taken.
- BiasNav.BiasedRows: how the bias is read from a strategy config is left out; it is any number.
- RetentionLoop: the operations of the wait group are single steps, so its other misuse panic, an Add in the middle of a Done, cannot arise; what a sweep deletes, leadership, warm-up and tick lengths; the select's choice between a tick and a stop is arbitrary.
- RetentionStops.AllReturn: gives a panic-free run that brings every Stop back; that the scheduler picks it is a fairness assumption.
- Dual control, broker links, KYC and the other admin handlers, the services and tools, and the web, Android and miniapp screens: thin, or easier forms of the above.
