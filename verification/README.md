# Verified model of the trading and research core

A Dafny model of the parts of the platform that carry its promises, with proofs about them.

* **Trading.** The portfolio tracker's average-cost books, the position monitor's ratcheting stops and exits, the
  backtest's re-implementation of those stops on bars, the risk manager's sizing and vetoes, the paper broker's walk of
  the order book, and the closed loop of all of them.
* **Research.** Greedy non-overlapping sampling, the forward-horizon and carry studies, the Benjamini-Hochberg and
  Bonferroni corrections, calibration buckets, sliding-window indicators and cross-sectional momentum.
* **Data.** The recorder's buffered, retried writes, and the candle stream from the exchange collector into the
  analysts' buffers.

Objects that the code updates in place are classes whose methods are proved equal to a transition function on values;
its loops are methods with invariants. The main results are then proved about those functions, over every input, every
history or every run. Decimal and float quantities are exact reals; `quantize` is modelled as rounding to a grid where
a limit depends on it.

| module | models |
|---|---|
| `Schemas`, `Sums`, `Quotients`, `Rounding` | shared events and enumerations, finite sums over symbols, order of quotients, the two rounding modes |
| `Tracker`, `Ledger` | average-cost books; the plain cash ledger they refine; reconciliation of closure events |
| `Monitor`, `MonitorRuns` | protective stops and exits; what they do over whole price and event histories |
| `Agreement` | tracker and monitor fed by the same fills, in both delivery orders |
| `RiskManager`, `PaperBroker` | sizing and vetoes; simulated execution |
| `ClosedLoop` | decision, risk, broker, tracker and monitor run to completion per event |
| `Replay`, `ReplayTrades`, `ReplayAbstraction` | the backtest loop; what each of its trades is; the backtest against the live monitor on every tick path |
| `Recorder`, `RecorderOverlap` | per-stream buffers, the pass of a flush over them, shutdown, the book throttle; overlapping flushes |
| `Sampling`, `Study`, `Basis` | greedy marking and the two studies built on it |
| `Statistics` | multiple-testing corrections |
| `Calibration`, `Reliability` | calibration error and Brier score; the report told from the samples |
| `Windows` | one-pass indicators |
| `CrossSection`, `Spread` | date-aligned ranking; its legs and spread told from prices |
| `CandleStream` | the collector's rollover rule feeding the bounded context buffer |

Run `dafny verify dfyconfig.toml` to check everything.

## Where the code and its documentation part

The model follows the code. Each point below is a lemma with its exact condition or a concrete consequence.

* A trailing stop "ratchets and never loosens" (services/execution/position_monitor.py:27) except for a long trailing
  by more than 100% or a short by less than -100%, which the settings admit: `Monitor.StopNeverLoosensIff`.
* Portfolio snapshots and fills travel on different topics. If a snapshot overtakes its fill the monitor's copy is wrong
  in exactly three cases: `Agreement.SnapshotFirstAgreesIff`. A snapshot from before a flip that arrives after it puts
  the closed position back under guard, where the flip's own snapshot leaves it: `Agreement.StaleSnapshotAgreesIff`.
* An exit the broker rejects is never retried, because nothing but a fill or a snapshot clears the pending flag; the
  position then stays open for as long as the loop runs: `ClosedLoop.ExitStrandsIffUnexecuted`,
  `ClosedLoop.BookExitStrandsIffUnexecuted`, `ClosedLoop.StrandedForever`, `ClosedLoop.ExampleStrands`.
* The notional cap is documented per position (libs/config.py:157-159) and kept per order:
  `ClosedLoop.PositionKeepsCapIff`, `RiskManager.VerdictIgnoresHeldSizes`.
* The retry bound is documented to drop the oldest rows (services/data_ingestion/recorder.py:228) and drops the newest:
  `Recorder.TruncationDropsNewest`.
* The recorder's lock covers only the buffer swap, so overlapping flushes can lose or reorder rows:
  `RecorderOverlap.RowsSurviveIff`, `RecorderOverlap.OrderKeptIff`, `RecorderOverlap.OverlapLosesRow`. A stop loses the
  batch of the flush it cancels, and everything it then fails to write: `Recorder.StopLosesNothingIff`.
* A closure carries the last fill's PnL with all of the position's fees, and a flip charges its fee twice:
  `Ledger.ClosuresReconcile`, `Ledger.FlatClosuresMatchCash`.
* A `CLOSE` decision on a symbol that is not held is evaluated as a short entry (the decision engine never emits one), and on a held one
  is always vetoed: `RiskManager.CloseOfNothingIsShortEntry`, `RiskManager.CloseOfHeldIsVetoed`.
* The setting `reconcile_adopts_unguarded` (libs/config.py:288) is not read by the monitor: the model always adopts.
* The calibration report raises on a confidence outside [0, 1] only after bucketing it; the model checks first.

## Model

| member | source | states |
|---|---|---|
| `Tracker.PortfolioTracker.Mark` | services/agents/portfolio_manager/tracker.py:106-125 | re-marks a held symbol, remembers the mark of any other, ignores a non-positive price; reports whether a position was revalued; every other book is unchanged |
| `Tracker.PortfolioTracker.ApplyFill` | services/agents/portfolio_manager/tracker.py:127-155 | the fields after a fill and the closure published are exactly those of the fill rules (open, average in, reduce, close, flip), and the books stay sane |
| `Tracker.PortfolioTracker.ReduceOrFlip` | services/agents/portfolio_manager/tracker.py:196-258 | realised PnL, win and loss counts, the reduced, removed or reversed position, and a closure exactly when the fill is at least the position; what it must not touch is unchanged |
| `Tracker.AppliedKeepsSane` | services/agents/portfolio_manager/tracker.py:127-258 | after any fill every open position has a direction, a positive size and a positive average entry, and carries its symbol's latest mark |
| `Tracker.OpeningIsTold` | services/agents/portfolio_manager/tracker.py:167-194 | a fill of a symbol not held opens it long on a buy and short on a sell, at the fill's size and price, with its order's stop, target and trail, or none when the order is unknown; no closure |
| `Tracker.AddingIsTold` | services/agents/portfolio_manager/tracker.py:157-194 | a fill in the position's direction adds its size; new entry price times new size is the old product plus the fill's notional; the levels stay |
| `Tracker.ClosingIsTold` | services/agents/portfolio_manager/tracker.py:196-258 | a fill against a position earns exit less entry on a long and entry less exit on a short, times what it closes; it leaves the rest at its entry and levels, nothing, or the excess opened the other way without levels |
| `Tracker.ClosureIsTold` | services/agents/portfolio_manager/tracker.py:242-298 | a closure is emitted exactly when an opposing fill is at least the position; its entry price, exit price, size, PnL and fees, and the reason: the order's own, a reversal for a known opening order, else unknown |
| `Ledger.EquityRefinesLedger` | services/agents/portfolio_manager/tracker.py:91-258 | after any interleaving of fills and marks, cash plus unrealised PnL equals starting cash less fees less signed fill notionals plus net quantities at the latest marks; cash is start plus realised PnL less fees |
| `Ledger.HoldingsAreNetFills` | services/agents/portfolio_manager/tracker.py:157-258 | a symbol is held exactly when its fills do not net to zero, long or short by the sign and in the size they net to |
| `Ledger.PositionsAreNetFills` | services/agents/portfolio_manager/tracker.py:106-258 | signed size is the net of the fills and the position's mark is the latest price seen, over every history |
| `Ledger.CashTracksLedger` | services/agents/portfolio_manager/tracker.py:127-258 | tracker cash is plain-ledger cash with the cost basis of open positions set aside |
| `Ledger.FillMovesBasis` | services/agents/portfolio_manager/tracker.py:157-258 | one fill moves signed cost basis by its own signed notional plus what it realises, and cash by what it realises less its fee |
| `Ledger.ClosuresReconcile` | services/agents/portfolio_manager/tracker.py:182-298 | over any run, summed closure net PnL is cash made plus fees on open positions, less fees of flipping fills, less PnL realised by partial closes |
| `Ledger.FillReconciles` | services/agents/portfolio_manager/tracker.py:242-298 | the same correction for one fill: a closure reports the position's fees but only the last fill's PnL, and a flip charges its fee twice |
| `Ledger.PartialPnlIsCarried` | services/agents/portfolio_manager/tracker.py:227-258 | PnL of partial closes sits on the open position until it closes and then no closure reports it |
| `Ledger.FlatClosuresMatchCash` | libs/schemas/learning.py:74-77 | with nothing open, closures account for the cash made if and only if flip fees and partial-close PnL cancel |
| `Monitor.StopNeverLoosensIff` | services/execution/position_monitor.py:118-142 | the documented "never loosens" holds for every next price if and only if a long trails by at most 100%, a short by at least -100% (the settings bound neither), or a fixed stop is at least as tight |
| `Monitor.ObservingTightens` | services/execution/position_monitor.py:103-142 | one observed price never moves the effective stop away from price under that condition |
| `Monitor.TrailIsMonotone` | services/execution/position_monitor.py:118-126 | a better extreme never gives a looser trail, for shorts and for longs trailing up to 100% |
| `Monitor.StopInPercent` | services/execution/position_monitor.py:118-186 | a price reaches the effective stop exactly when it reaches the fixed level or the trailing percentage off the best price; the effective stop is the tighter of the two, reported as trailing only if strictly so |
| `Monitor.ProtectedPosition.Observe` | services/execution/position_monitor.py:103-116 | the in-place update of the extreme is the observation rule; nothing else on the record changes |
| `Monitor.PositionMonitor.RememberOrder` | services/execution/position_monitor.py:346-350 | caches an opening order by id and ignores a reduce-only one |
| `Monitor.PositionMonitor.ApplyFill` | services/execution/position_monitor.py:352-412 | the records and pending orders after a fill are those of the rule: reduce or release, extend, arm from the remembered order, or leave to reconciliation; no other symbol's record is aliased or changed |
| `Monitor.PositionMonitor.ReduceGuard` | services/execution/position_monitor.py:361-372 | an opposing fill releases the record or shrinks it in place and clears its pending exit |
| `Monitor.PositionMonitor.Reconcile` | services/execution/position_monitor.py:414-438 | records not in the snapshot are dropped, live unguarded ones are adopted with fresh records, guarded ones are untouched |
| `Monitor.PositionMonitor.OnPrice` | services/execution/position_monitor.py:440-495 | one tick updates only its symbol's record, fires at most one exit, counts it and marks the record pending |
| `MonitorRuns.BestIsTheExtremum` | services/execution/position_monitor.py:103-116 | the running best is the entry or a positive tick, and no positive tick beats it |
| `MonitorRuns.RecordTellsHistory` | services/execution/position_monitor.py:440-469 | after any ticks the record holds the best of entry and positive ticks, and an exit is pending exactly when some tick breached the stop or target its own history defines |
| `MonitorRuns.FiresAtFirstBreach` | services/execution/position_monitor.py:440-495 | an armed position exits at exactly the first breaching tick, reduce-only, on the closing side, for its full size |
| `MonitorRuns.FiresAtTheLevels` | services/execution/position_monitor.py:118-186 | in prices and percentages: the exit fires at exactly the first positive tick with price at or through the fixed stop, price times 100 at or through the best price times (100 - pct) for a long, (100 + pct) for a short, or the target; the stop comes before the target and the reason names the level that binds |
| `MonitorRuns.HistoryStopTightens` | services/execution/position_monitor.py:118-142 | along any price run the history-defined stop only tightens when the trail ratchets |
| `MonitorRuns.PendingUntilReleased` | services/execution/position_monitor.py:352-495 | no event but an opposing fill or a snapshot without the position clears a pending exit, and none fires a second one |
| `MonitorRuns.ExitsAreSeparated` | services/execution/position_monitor.py:352-495 | between two exits for one symbol, over any events, lies an opposing fill or a reconciliation that dropped it |
| `Agreement.MonitorFollowsTracker` | services/execution/position_monitor.py:352-438 | over any run of orders, fills, ticks, marks and delayed snapshots in which every fill finds the earlier snapshots delivered, the monitor guards exactly the tracker's positions with their directions and sizes whenever no snapshot is under way, and never holds a common symbol differently |
| `Agreement.StaleSnapshotAgreesIff` | services/execution/position_monitor.py:414-438 | when a snapshot of the old holdings arrives between a fill and its own snapshot, monitor and tracker end in agreement if and only if the fill is not a flip |
| `Agreement.DeliverySettles` | services/execution/position_monitor.py:414-438 | one snapshot of the tracker's holdings, at whatever prices, brings a monitor that holds nothing differently into full agreement |
| `Agreement.FillKeepsAgreementIff` | services/execution/position_monitor.py:352-412 | without the snapshot, one fill keeps monitor and tracker in agreement if and only if it neither flips a position nor opens one under an unknown order |
| `Agreement.FillThenSnapshotAgrees` | services/execution/position_monitor.py:414-438 | the snapshot handled after its fill repairs both of those cases |
| `Agreement.SnapshotFirstAgreesIff` | services/execution/position_monitor.py:318-344 | a snapshot delivered before its fill leaves them in agreement if and only if the fill acts on a held position, does not flip it, and does not close it under an order still remembered as an opening |
| `Agreement.SnapshotFirstDoublesOpening` | services/execution/position_monitor.py:375-379 | in that order an opening fill is guarded at twice its size |
| `Agreement.OutstandingOpeningIsMissed` | services/execution/position_monitor.py:381-386 | with two fills outstanding, an opening under an unknown order is missed for good: the monitor guards the second fill alone, even after both snapshots |
| `PaperBroker.WalkBook` | services/agents/execution/paper_broker.py:58-90 | the loop returns the filled size and volume-weighted price of the level-by-level walk, and rejects exactly when nothing can be filled, whatever the levels |
| `PaperBroker.FillsRequestOrDepth` | services/agents/execution/paper_broker.py:78-90 | the walk takes a feasible amount from each level and fills the lesser of request and visible depth |
| `PaperBroker.WalksCompose` | services/agents/execution/paper_broker.py:78-86 | filling a + b is filling a and then b against the depleted book, in size and in notional |
| `PaperBroker.AsksFilledAtLeastCost` | services/agents/execution/paper_broker.py:58-90 | on asks sorted best first no feasible way of taking the same total is cheaper |
| `PaperBroker.BidsFilledAtGreatestProceeds` | services/agents/execution/paper_broker.py:58-90 | on bids sorted best first no feasible way of taking the same total raises more |
| `PaperBroker.AveragePriceWorsens` | services/agents/execution/paper_broker.py:58-90 | a larger buy never gets a better average price |
| `PaperBroker.AverageProceedsWorsen` | services/agents/execution/paper_broker.py:58-90 | a larger sell never gets a better average price |
| `PaperBroker.ExecutedFillIsBounded` | services/agents/execution/paper_broker.py:164-228 | an executed fill keeps the order's id, symbol and side, has exactly the lesser of requested size and visible depth, and satisfies the fill schema; an order is rejected if and only if there is no recent book or no depth |
| `PaperBroker.BuyNeverBeatsBestAsk` | services/agents/execution/paper_broker.py:199-201 | slippage and rounding never price a buy better than a best ask that lies on the price grid |
| `PaperBroker.SellNeverBeatsBestBid` | services/agents/execution/paper_broker.py:199-201 | slippage and rounding never price a sell above a best bid that lies on the price grid |
| `PaperBroker.ExecutesIff` | services/agents/execution/paper_broker.py:176-212 | an order executes if and only if there is a recent book with depth on its side and the price does not round to zero or below |
| `PaperBroker.ExecutionIsPriced` | services/agents/execution/paper_broker.py:176-212 | an executed fill takes the asks for a buy and the bids for a sell; its price is the walked cost over its size, moved up or down by exactly the slippage in basis points and rounded to the nearest hundred-millionth, halves up; its fee is that rate of its notional, rounded the same way |
| `PaperBroker.Broker.CacheBook` | services/agents/execution/paper_broker.py:130-132 | the latest book replaces the symbol's cached one and no other |
| `PaperBroker.Broker.Execute` | services/agents/execution/paper_broker.py:136-162 | a fill is published exactly when the simulation executes, and the counters move accordingly |
| `RiskManager.StopIsOnLosingSide` | services/agents/risk_manager/agent.py:251-288 | the resolved stop is strictly on the losing side of the price, suggested or fallback |
| `RiskManager.ClampIsTheLimit` | services/agents/risk_manager/agent.py:197-209 | a size is at most the clamped size if and only if it keeps the stop-loss budget, the notional cap and the leverage headroom |
| `RiskManager.SizeIsLargestWithinLimits` | services/agents/risk_manager/agent.py:197-211 | the rounded-down size keeps all three limits and is the largest multiple of the size quantum that does |
| `RiskManager.NoBreachMeansNoCondition` | services/agents/risk_manager/agent.py:174-218 | the list of veto reasons is empty if and only if every rule holds |
| `RiskManager.ApprovalIsSafe` | services/agents/risk_manager/agent.py:146-249 | an approved opening order keeps and exhausts the limits at the decision's price, carries a losing-side stop, never opposes a held position and never exceeds the position count |
| `RiskManager.ApprovedStop` | services/agents/risk_manager/agent.py:251-288 | an approved order carries the suggested stop if that is positive, on the losing side and at least the minimum percentage of price away; otherwise its stop is on the losing side at exactly the default percentage of price |
| `RiskManager.ApprovedSize` | services/agents/risk_manager/agent.py:193-212 | its size is a whole number of hundred-millionths with stop distance times size at most the risk percentage of equity, notional at most the cap and, with gross, at most the leverage multiple of equity, and the largest such |
| `RiskManager.ApprovedOrder` | services/agents/risk_manager/agent.py:239-249 | it buys for a long and sells for a short and carries the decision's id, symbol and target and the limits' trail |
| `RiskManager.ApprovedNotional` | services/agents/risk_manager/agent.py:212-218 | the reported notional is the order's worth cut to whole cents and reaches the minimum |
| `RiskManager.CloseOfNothingIsShortEntry` | services/agents/risk_manager/agent.py:180-249 | a close decision for a symbol that is not held is judged exactly as a short entry with the fallback stop |
| `RiskManager.CloseOfHeldIsVetoed` | services/agents/risk_manager/agent.py:180-183 | a close decision for a held symbol is always vetoed, as duplicate exposure once it reaches the rules |
| `RiskManager.VerdictIgnoresHeldSizes` | services/agents/risk_manager/agent.py:181-209 | snapshots that differ only in the sizes, prices and marks held get the same verdict, so the notional cap is per order |
| `RiskManager.RiskManagerAgent.Evaluate` | services/agents/risk_manager/agent.py:146-249 | the statement-by-statement evaluation returns the verdict the rules define |
| `RiskManager.RiskManagerAgent.SizeFor` | services/agents/risk_manager/agent.py:197-211 | the successive clamps and the rounding give the final size |
| `RiskManager.RiskManagerAgent.CollectBreaches` | services/agents/risk_manager/agent.py:174-215 | a reason is listed if and only if its rule is broken, and the reasons stand in the order the rules are checked |
| `RiskManager.RiskManagerAgent.Gate` | services/agents/risk_manager/agent.py:120-144 | each decision moves exactly one of the approval and veto counters |
| `Rounding.RoundDownIsGreatestBelow` | services/agents/risk_manager/agent.py:211-212 | rounding a non-negative amount down to a quantum gives its greatest multiple not above it |
| `Rounding.RoundingKeepsOrderWithGrid` | services/agents/execution/paper_broker.py:201 | half-up rounding never carries an amount across a price that lies on the grid, from above or below |
| `ClosedLoop.LoopIsSafe` | services/agents/portfolio_manager/tracker.py:196-258 | from flat, over every run of signals, books and trades through decision, risk, broker, tracker and monitor: the tracker never flips, open positions never exceed the limit, and each is guarded in direction and size with a stop |
| `ClosedLoop.StepIsSafe` | services/decision_engine/engine.py:169-240 | every event, run to completion, preserves the joint invariant of the five components |
| `ClosedLoop.RunIsSafe` | services/agents/risk_manager/agent.py:99-144 | the joint invariant holds after every run from any safe state |
| `ClosedLoop.ApprovalsKeepLimits` | services/agents/risk_manager/agent.py:197-249 | after any run, every approved order is within the notional cap, leverage headroom and stop-loss budget after rounding |
| `ClosedLoop.PositionKeepsCapIff` | services/agents/risk_manager/agent.py:193-202 | after a fill of an approved order at its price, a new position is within the notional cap, and one added to is if and only if what was held left room for the fill |
| `ClosedLoop.GrossKeepsLeverage` | services/agents/risk_manager/agent.py:204-209 | with risk's view up to date, gross notional after such a fill is within equity times leverage, but for re-marking what was held of the symbol |
| `ClosedLoop.FilledGross` | services/agents/portfolio_manager/tracker.py:157-194 | a fill that opens or adds moves gross notional by its own and by marking what was held to its price |
| `ClosedLoop.ApprovedOrderIsSafe` | services/agents/risk_manager/agent.py:181-187 | risk's delayed view never lets through an order that is unsafe against what the tracker really holds |
| `ClosedLoop.SignalTakesItsDirection` | services/decision_engine/engine.py:169-240 | a signal leaves all holdings alone, or takes its own symbol on in its own direction: larger if held, else with the target it asked for and the usable stop it suggested or the default one |
| `ClosedLoop.SignalTakesIff` | services/decision_engine/engine.py:169-240 | it takes it on exactly when it is accepted, directional and confident enough, risk approves the long or short it asks for, and the broker executes that order |
| `ClosedLoop.OnlySignalsTake` | services/execution/position_monitor.py:318-350 | no book and no trade ever opens, enlarges or turns a position, exits included |
| `ClosedLoop.GuardsCarryLevels` | services/execution/position_monitor.py:388-399 | over every run from flat each guard has its position's stop and target, and its trail or, where that is absent, the default |
| `ClosedLoop.RestartGuardsAlike` | services/execution/position_monitor.py:414-438 | after any run a monitor restarted on the tracker's snapshot guards the same positions at the same sizes, stops and targets with nothing pending, and with the same trail unless that is zero, which no order carries |
| `ClosedLoop.ExitReducesSafely` | services/execution/position_monitor.py:471-483 | an exit fired in a safe state is against the tracker's position and no larger than it |
| `ClosedLoop.ExitStrandsIffUnexecuted` | services/execution/position_monitor.py:458-469 | a trade that fires an exit leaves the position open and pending if and only if the cached book is missing, stale or without depth on the closing side, or prices the exit at zero or below |
| `ClosedLoop.BookExitStrandsIffUnexecuted` | services/execution/position_monitor.py:339-343 | the same for a book whose mid fires the exit, judged against that very book |
| `ClosedLoop.ExampleStrands` | services/execution/position_monitor.py:458-469 | stranding happens: a run of three events from flat ends with a position stranded |
| `ClosedLoop.StrandedForever` | services/execution/position_monitor.py:458-459 | once that happens, no continuation of the loop closes the position: no second exit fires and every opposing decision is vetoed |
| `Replay.OpenTrade.Observe` | services/backtest/replay.py:117-122 | the in-place update of the extreme from a bar's high or low |
| `Replay.Manage` | services/backtest/replay.py:383-407 | one bar of an open trade: its extreme and bar count move in place, and it is closed by a level or at the holding limit, as the transition says |
| `Replay.Run` | services/backtest/replay.py:341-465 | the loop returns the fold of "manage, then consider" over the bars from the warmup on, with the final forced close; too short a series is an error |
| `Replay.RunIsStructured` | services/backtest/replay.py:378-465 | each actionable signal yields exactly one trade; trades occupy chronological spans, each entered no earlier than the previous exit; bars held is exit bar minus entry bar and within the holding limit |
| `ReplayTrades.TradesAreTold` | services/backtest/replay.py:275-465 | every trade of every run, from views and bars alone: it has the direction and confidence of the actionable view at its entry close; gross PnL is exit less entry for a long, entry less exit for a short, times size, and costs the rate on both prices; no level is reached before its exit bar; there it leaves at the stop its reason names if the bar reaches one, else at the target it reaches; a forced one leaves at the close of a bar that reaches neither, the last or at the holding limit; and a bar before the last opens a trade exactly when its view is actionable and no trade is held through it |
| `ReplayTrades.ExitIsTold` | services/backtest/replay.py:275-310 | on one bar: the stop is hit when the low (high for a short) is at or through the fixed level or, times 100, the best price times 100 less (plus) the percentage, and pays the level that binds; else the target, if the favourable extreme reaches it; else nothing |
| `ReplayTrades.BestAtIsTheExtremum` | services/backtest/replay.py:117-122 | the best price of a trade is its entry price or a favourable extreme of a bar since, and none of these is better |
| `Replay.WindowEndsAtBar` | services/backtest/replay.py:412-420 | the analyst's driving window is the last bars up to and including the deciding one, as many as configured or all |
| `Replay.PrefixTradesAgree` | services/backtest/replay.py:378-465 | replaying a prefix gives the full replay's trades so far, plus at most one forced close |
| `Replay.PrefixRunsAlike` | services/backtest/replay.py:412-424 | the state at a bar does not depend on later bars |
| `Replay.TradesOnlyGrow` | services/backtest/replay.py:378-465 | completed trades are only ever appended |
| `Replay.VisibleIsPast` | services/backtest/replay.py:421-424 | a candle of another interval is visible exactly when it has closed by the deciding bar |
| `Replay.OthersArePast` | services/backtest/replay.py:421-424 | on no interval does the analyst see a candle that closes later |
| `ReplayAbstraction.ReplayExitIsTheRuns` | services/backtest/replay.py:383-407 | the exit bar and reason used in the comparison are those of the run loop, from the bar after entry |
| `ReplayAbstraction.WatchedIsTheMonitors` | services/execution/position_monitor.py:440-469 | the guard run used in the comparison is the monitor's: an order fires exactly when it exits |
| `ReplayAbstraction.StopHitIsShared` | services/backtest/replay.py:124-142 | a positive tick that hits the monitor's stop hits the replay's, whose extreme is at least as favourable |
| `ReplayAbstraction.BarBounds` | services/backtest/replay.py:275-310 | if a bar does not stop the replay out, no tick path inside the bar stops the monitor out; if it triggers nothing, no path triggers anything |
| `ReplayAbstraction.ReplayExitsNoLater` | services/backtest/replay.py:274-310 | for any bars and any tick paths inside them, longs and shorts, whenever the monitor exits the replay has exited in that bar or earlier |
| `ReplayAbstraction.TakeProfitIsNeverOptimistic` | services/backtest/replay.py:275-310 | when the replay reports a take-profit, no tick path through that bar or an earlier one stops the monitor out |
| `ReplayAbstraction.BarIsAttained` | services/backtest/replay.py:275-310 | the path that touches a bar's best price and then its worst makes the monitor decide the bar as the replay does, except where both levels are reached |
| `ReplayAbstraction.ReplayBarIsAttained` | services/backtest/replay.py:274-310 | some tick path makes the monitor exit in exactly the replay's exit bar, so the bound is tight; where the holding limit closed the trade, that path had not taken the monitor out by then |
| `Recorder.RowsAreConserved` | services/data_ingestion/recorder.py:161-300 | in any run whose flushes do not overlap, with appends interleaving pending writes, written, in-flight and buffered rows together are the accepted rows in order and exactly once if and only if the retry bound never truncated and no batch vanished |
| `Recorder.HeldIsSubsequence` | services/data_ingestion/recorder.py:245-255 | whatever is lost, what is held is a subsequence of what was accepted: never reordered or duplicated |
| `Recorder.TruncationDropsNewest` | services/data_ingestion/recorder.py:253-254 | the rows the bound drops are the newest, the failed batch being put back in front and the tail cut |
| `Recorder.StopLosesNothingIff` | services/data_ingestion/recorder.py:145-159 | a stop loses nothing if and only if no rows are in flight when the flush task is cancelled and the last write succeeds or has nothing to write |
| `Recorder.StreamsAreOrderly` | services/data_ingestion/recorder.py:236-280 | in every run of the whole recorder each stream is a queue driven in turn by its own rows and outcomes, its batch pending exactly until its place in the pass |
| `Recorder.StreamIsConserved` | services/data_ingestion/recorder.py:222-228 | over every such run a stream's rows are conserved if and only if its own steps lose none |
| `Recorder.OthersDoNotMatter` | services/data_ingestion/recorder.py:222-224 | change every other stream's rows and write outcomes and a stream ends up the same |
| `Recorder.FlushReachesEveryStream` | services/data_ingestion/recorder.py:257-280 | a failure stops no later write: after four outcomes of any kind, with any arrivals meanwhile, every stream has been answered by its own: written, put back in front, or gone |
| `Recorder.StoredSnapshotsAreSpaced` | services/data_ingestion/recorder.py:196-217 | per symbol, stored books are at least one interval apart whatever else arrives |
| `Recorder.MarketRecorder.ShouldStoreBook` | services/data_ingestion/recorder.py:196-217 | accepts a book by the throttle rule and remembers only accepted ones |
| `Recorder.MarketRecorder.BufferRow` | services/data_ingestion/recorder.py:171-181 | an accepted row is one step of its own stream's queue; a throttled book is only counted; other streams are untouched |
| `Recorder.MarketRecorder.Handle` | services/data_ingestion/recorder.py:161-185 | one event is buffered, throttled or ignored, and when the buffers together reach the batch size every stream is flushed by its own outcome |
| `Recorder.MarketRecorder.SwapBuffers` | services/data_ingestion/recorder.py:236-240 | hands out all four buffer objects and installs fresh empty ones: a swap step of every queue |
| `Recorder.MarketRecorder.WriteBack` | services/data_ingestion/recorder.py:245-255 | a failed batch is spliced in front of the target list and the list cut at the bound; a success, an empty batch and an unset sink leave it alone |
| `Recorder.MarketRecorder.Write` | services/data_ingestion/recorder.py:245-255 | one stream's write is the answer to its own queue and leaves the other streams alone |
| `Recorder.MarketRecorder.WriteAll` | services/data_ingestion/recorder.py:257-280 | the four writes answer the four queues, whatever becomes of each, and count the rows written |
| `Recorder.MarketRecorder.FlushRows` | services/data_ingestion/recorder.py:236-280 | the same without the running count |
| `Recorder.MarketRecorder.Flush` | services/data_ingestion/recorder.py:236-300 | a flush is a swap of every queue and then its own answer to each; the rows written are counted |
| `RecorderOverlap.RowsSurviveIff` | services/data_ingestion/recorder.py:236-255 | over every run in which flushes of a stream overlap in any way and the bound never bites, all accepted rows are written or still reachable, exactly once, if and only if no success follows rows put back into its batch, no failure goes into a list neither current nor in flight, and no batch with rows is abandoned |
| `RecorderOverlap.OrderKeptIff` | services/data_ingestion/recorder.py:250-254 | from rows in order, a move that loses nothing keeps them in order if and only if its batch overtakes no rows: older batches for a success, those up to the list it returns to for a failure |
| `RecorderOverlap.OrderSurvives` | services/data_ingestion/recorder.py:250-254 | order survives every run in which nothing is lost and nothing overtaken |
| `RecorderOverlap.TurnsKeepOrder` | services/data_ingestion/recorder.py:219-255 | without overlap and abandonment every row is kept in order |
| `RecorderOverlap.OverlapLosesRow` | services/data_ingestion/recorder.py:236-255 | eight moves that lose a row with nothing truncated |
| `RecorderOverlap.FailMovesBatch` | services/data_ingestion/recorder.py:253 | a failure that loses nothing swaps its batch with the rows it overtakes and leaves the rest in place |
| `Statistics.BenjaminiHochberg` | services/research/statistics.py:231-264 | flags exactly the hypotheses whose p-value lies under the k-th step for the largest k with at least k such p-values; an error outside (0, 1] |
| `Statistics.LargestHit` | services/research/statistics.py:254-258 | the loop finds the largest rank whose p-value is under its own step |
| `Statistics.FlagFirst` | services/research/statistics.py:260-264 | exactly the first ranks are flagged |
| `Statistics.StepUpSelects` | services/research/statistics.py:254-264 | for every ascending listing of the p-values, ties in any order, the ranks up to the largest hit are exactly the rejected set |
| `Statistics.RankMeansCount` | services/research/statistics.py:254-258 | the r-th smallest p-value is at most t if and only if at least r of them are |
| `Statistics.RejectsExactlyLargest` | services/research/statistics.py:231-264 | exactly as many hypotheses are rejected as the largest step says |
| `Statistics.RejectedIff` | services/research/statistics.py:231-264 | a hypothesis is rejected if and only if for some k at least k of the n p-values, its own among them, times n are at most alpha times k |
| `Statistics.RejectionIsMonotone` | services/research/statistics.py:231-264 | raising alpha or lowering p-values never un-rejects a hypothesis |
| `Statistics.RejectionIsEquivariant` | services/research/statistics.py:231-264 | rearranging the p-values rearranges the verdicts with them |
| `Statistics.BonferroniIsStricter` | services/research/statistics.py:267-283 | every Bonferroni rejection is a Benjamini-Hochberg rejection |
| `Statistics.MoreHypothesesRejectFewer` | services/research/statistics.py:282-283 | testing more hypotheses never lets one of them through that failed before |
| `Sampling.GreedyIsMaximum` | services/research/study.py:382-416 | over strictly increasing indices the greedy marks are pairwise a horizon apart and no such choice has more members |
| `Sampling.GreedyBeats` | services/research/study.py:382-416 | the same from any point of the scan |
| `Sampling.MarksAreSpaced` | services/research/study.py:393-415 | marked indices are at least a horizon apart and none precedes the first allowed one |
| `Sampling.MarksOfPrefix` | services/research/study.py:393-415 | the marks of a prefix are a prefix of the marks |
| `Sampling.MarksExtend` | services/research/long_horizon.py:525-527 | the running "next allowed" index decides one more observation exactly as the whole rule does |
| `Study.Run` | services/research/study.py:303-380 | the loop returns the marked observations, and reports insufficient history exactly when no bar fits |
| `Study.MarkIndependent` | services/research/study.py:382-416 | the marking loop sets exactly the greedy marks and changes nothing else |
| `Study.AdvanceCursor` | services/research/study.py:328-333 | the inner loop moves the cursor past every point settled by a time |
| `Study.Observe` | services/research/study.py:335-367 | one bar's observation, or none for no reading, a flat one or a non-positive close |
| `Study.CursorNeverLeaks` | services/research/study.py:321-333 | whatever order funding arrives in, no signal sees a point that settles after its bar |
| `Study.CursorIsFilter` | services/research/study.py:321-338 | with funding sorted the incremental cursor equals filtering by settlement time |
| `Study.WindowHasNoLookAhead` | services/research/study.py:335-340 | two histories alike up to a bar give the signal the same window there, however they differ later |
| `Study.ObservationsAreTold` | services/research/study.py:335-367 | over every study with ordered closes and funding: one observation for each bar whose reading of the settled window is directional and whose close is positive, in order; gross times entry is exit less entry for a long and entry less exit for a short, at the closes a horizon apart; net is gross less the cost |
| `Study.PrefixStudyAgrees` | services/research/study.py:309-380 | studying a prefix of the candles gives exactly the full study's observations whose forward window fits, with the same marks, whatever order funding comes in |
| `Study.SamePastStudyAgrees` | services/research/study.py:303-380 | the same for any shorter history that agrees up to each of its bars: candles, funding and open interest cut, or going on differently |
| `Study.CutStudyAgrees` | services/research/study.py:303-380 | the same for a history with all three series cut at one bar |
| `Study.IndependentSampleIsMaximum` | services/research/study.py:382-416 | the study's independent subsample is a largest possible one |
| `Basis.Run` | services/research/basis.py:277-328 | every trade reports its own window's funding, premium change and returns, with the greedy marks; none when history is too short |
| `Basis.PrefixSums` | services/research/basis.py:295-298 | the running list holds the total funding of every prefix |
| `Basis.TotalRateSplits` | services/research/basis.py:303 | a difference of prefix sums is the funding of the window between |
| `Basis.MarkedWindowsTelescope` | services/research/basis.py:300-312 | the marked windows tile, so their summed gross is total funding less end-to-end premium change over a stretch that leaves less than one window unused |
| `Calibration.Analyze` | services/backtest/calibration.py:72-134 | the report before rounding, or the error the inputs raise |
| `Calibration.Distribute` | services/backtest/calibration.py:99-103 | each bucket receives exactly its samples, in order |
| `Calibration.BucketsPartition` | services/backtest/calibration.py:99-103 | the buckets' sizes add up to the number of samples |
| `Calibration.EceIsGross` | services/backtest/calibration.py:105-121 | the accumulated figure is total absolute bucket error over the number of samples |
| `Calibration.GapWithinEce` | services/backtest/calibration.py:105-133 | the gap between mean confidence and hit rate never exceeds the expected calibration error |
| `Calibration.EceSquaredWithinBrier` | services/backtest/calibration.py:105-125 | the squared expected calibration error never exceeds the Brier score |
| `Calibration.FineBucketInGroup` | services/backtest/calibration.py:101-103 | a sample's bucket among k times m lies in the group of its bucket among m, the top edge included |
| `Calibration.CoarseningNeverRaisesEce` | services/backtest/calibration.py:99-121 | merging k times m buckets to m never raises the expected calibration error |
| `Reliability.BucketHoldsCovered` | services/backtest/calibration.py:99-103 | what distribution puts in bucket b is exactly the samples with b at most confidence times bins and that less than b + 1, or b the last bucket, in their order |
| `Reliability.ReportIsTold` | services/backtest/calibration.py:105-121 | the bins reported are in order, one for each bucket that covers a sample, and count, mean confidence and hit rate are those of exactly the samples covered |
| `Reliability.EceIsWeightedGap` | services/backtest/calibration.py:105-121 | the expected calibration error is the gap between reported hit rate and mean confidence, averaged over the reported bins by count |
| `Reliability.MeansAreTold` | services/backtest/calibration.py:123-134 | mean confidence and hit rate times the number of samples are the totals of all samples |
| `Reliability.BrierIsTold` | services/backtest/calibration.py:123-126 | the Brier score is the mean of squared confidences, less twice the confidence in what came true, plus one for each hit |
| `CandleStream.PipelineIsFaithful` | services/data_ingestion/market_data/hyperliquid_collector.py:170-205 | for any update stream of one key, closed candles are published in strictly increasing open time, each the last version before rollover; the builder stores all of them and buffers exactly the last max_candles |
| `CandleStream.EveryBufferIsFaithful` | services/agents/common/context.py:149-178 | the same for every key under any interleaving of symbols and intervals |
| `CandleStream.KeysAreIndependent` | services/agents/common/context.py:166-178 | a key's state depends only on its own updates |
| `CandleStream.CurrentOnesAscend` | services/data_ingestion/market_data/hyperliquid_collector.py:196-203 | the updates that are not stale have non-decreasing open times and the newest open time of all |
| `CandleStream.RolloversIncrease` | services/data_ingestion/market_data/hyperliquid_collector.py:185-187 | rollovers are in strictly increasing open time, all before the candle still held |
| `CandleStream.Collector.HandleCandle` | services/data_ingestion/market_data/hyperliquid_collector.py:170-205 | one update holds, replaces, publishes or ignores by the rollover rule, for its own key only |
| `CandleStream.ContextBuilder.AddCandle` | services/agents/common/context.py:149-178 | one candle replaces, is appended with the oldest dropped at the bound, or is refused; other keys are untouched |
| `Windows.RollingEqualsDirect` | services/research/long_horizon.py:70-134 | on positive prices the one-pass volatility at every bar equals the two-pass estimate of the same window, for any logarithm and square root |
| `Windows.VarianceFormsAgree` | services/research/long_horizon.py:122-126 | the one-pass variance equals the two-pass sample variance, so it is never negative and max(0, x) never acts |
| `Windows.RollingVolatility` | services/research/long_horizon.py:94-134 | the running-sum loop fills each bar with the estimate of its own window |
| `Windows.Slide` | services/research/long_horizon.py:129-132 | one step of the running sums gives the next window's sum and sum of squares |
| `Windows.EstimateIsAnnualVariance` | services/research/long_horizon.py:112-127 | for any true square root the squared volatility is 365 times the sample variance of the window's returns about their mean |
| `Windows.Sma` | services/agents/market_analyst/indicators.py:42-61 | the running-sum average is the mean of each full window, undefined before; an error for a period below one |
| `Windows.Rsi` | services/agents/market_analyst/indicators.py:87-125 | the loop computes Wilder's averages and the index at every bar from the period on |
| `Windows.RsiOfNegatedPrices` | services/agents/market_analyst/indicators.py:87-125 | the index stays in [0, 100], and turning prices upside down sends it to 100 minus itself |
| `Windows.RsiReflects` | services/agents/market_analyst/indicators.py:120-125 | exchanging average gain and loss reflects the index, zero losses included |
| `Windows.RsiIsGainShare` | services/agents/market_analyst/indicators.py:120-125 | the index is the share of the average gain, in percent, in average gain and loss together, and 50 when both are zero |
| `Windows.AveragesAreWilders` | services/agents/market_analyst/indicators.py:100-118 | the averages are the means of the first period's gains and losses, and then keep all but one share of the period at each change |
| `Windows.GainsLessLosses` | services/agents/market_analyst/indicators.py:100-106 | gains less losses telescope to the net change |
| `CrossSection.CrossSectionalMomentum` | services/research/long_horizon.py:434-539 | the observations and independence marks of every rebalance date; an error for degenerate parameters, and for a date on which nothing ranks while the minimum allows it |
| `CrossSection.Rebalance` | services/research/long_horizon.py:502-538 | one date's ranking and forward returns, collected symbol by symbol, give the long and short legs and their spread, or report legs without a mean |
| `CrossSection.CommonPathHasNoSpread` | services/research/long_horizon.py:450-456 | when every symbol follows one path up to its own scale, every observation has exactly zero gross spread, whatever the listing dates |
| `CrossSection.RescalingChangesNothing` | services/research/long_horizon.py:483-539 | quoting any symbol in other units changes nothing |
| `CrossSection.MapOrderChangesNothing` | services/research/long_horizon.py:504-519 | the order in which symbols are iterated changes nothing |
| `CrossSection.LegsDisjointIff` | services/research/long_horizon.py:516-519 | no symbol is in both legs if and only if at least two symbols rank |
| `CrossSection.RankingIsUnique` | services/research/long_horizon.py:516 | two sorted rankings of the same entries are the same list |
| `Spread.StudyIsTold` | services/research/long_horizon.py:483-539 | every observation, from prices alone: one for each date with enough listings priced on its three days, in order; each leg has the whole part of their number times the quantile, at least one; no listing outside the longs ranks above one inside by trailing return and then symbol, none outside the shorts below one inside; gross is the longs' mean forward return less the shorts', net is gross less the cost |
| `Spread.LegsAreTold` | services/research/long_horizon.py:516-519 | the top and bottom slices of the sorted ranking are those two legs |
| `Spread.PricesAreLastGood` | services/research/long_horizon.py:483-490 | the price of a day is the last positive close given for it |
| `CrossSection.CalendarIsUnion` | services/research/long_horizon.py:483-492 | the calendar is, in ascending order, every day on which some symbol has a positive close |
| `Tracker.PortfolioTracker.constructor` | services/agents/portfolio_manager/tracker.py:66-80 | a tracker starts flat with its starting equity as cash |
| `Monitor.ProtectedPosition.constructor` | services/execution/position_monitor.py:388-399 | a fresh record holds exactly the given levels, extreme and size |
| `Monitor.PositionMonitor.constructor` | services/execution/position_monitor.py:248-263 | a monitor starts guarding nothing and remembering no order |
| `Monitor.PositionMonitor.PopOrder` | services/execution/position_monitor.py:374 | removes and returns the remembered order, if any, and nothing else |
| `RiskManager.RiskManagerAgent.constructor` | services/agents/risk_manager/agent.py:83-90 | an agent starts with no portfolio and zero counters |
| `RiskManager.RiskManagerAgent.SeeSnapshot` | services/agents/risk_manager/agent.py:109-111 | a snapshot replaces the portfolio seen and changes no counter |
| `PaperBroker.Broker.constructor` | services/agents/execution/paper_broker.py:103-111 | a broker starts with no book and zero counters |
| `Recorder.MarketRecorder.constructor` | services/data_ingestion/recorder.py:77-103 | a recorder starts with four distinct empty buffers |
| `CandleStream.Collector.constructor` | services/data_ingestion/market_data/hyperliquid_collector.py:135-151 | a collector starts holding no candle |
| `CandleStream.ContextBuilder.constructor` | services/agents/common/context.py:114-135 | a builder starts with empty buffers for its intervals |

## Left out

- Kafka, WebSocket, HTTP, SQL, persistence and restore, logging, configuration loading, schema validation and JSON: plumbing over libraries. Field bounds of the schemas are preconditions where the code relies on them.
- Floating-point and 28-digit Decimal rounding, and the final rounding of reported figures: exact reals.
- Logarithm and square root are arbitrary functions, so nothing depends on their values; p-value numerics are not part of this model.
- Analyst scoring and signal bodies are arbitrary deterministic functions of what they are shown.
- Clocks, UUIDs, the day roll, signal expiry, decision cooldown, book age and trust weights: parameters of each event, so the results hold for every value of them.
- Correlation and decision identifiers on positions and orders; the text of rationales and log lines; exit-reason strings that do not name a reason.
- The broker's reported slippage figure, which nothing reads back.
- In the recorder's class a flush is one step; rows that arrive between its four writes, and a flush task cancelled part way, are in the machine that `Recorder.FlushReachesEveryStream` and `Recorder.StreamIsConserved` are about.
- A retry bound that bites while flushes overlap: a batch may then succeed with rows that were cut from its list, so being cut no longer means being lost.
- Runs in which several fills are outstanding before their snapshots are handled have no run-level result; three ways in which late snapshots break agreement are given, and there may be more.
- `pool`, `pool_carry`, `profile_funding`, the report properties, EMA, ATR, MACD, Bollinger bands and on-balance volume: one-line aggregations or recurrences with no stated law beyond their definition.
- REST pagination, whose completeness depends on the server.
- The builder's nested dictionary of buffers is one map keyed by symbol and interval, and deque aliasing is not modelled.
- CrossSection.CrossSectionalMomentum: requires distinct symbols, as the keys of a mapping are; lookback and horizon are natural numbers, the negative ones being refused like zero.
- Study.ObservationsAreTold: requires closes and funding in time order, as the loaders deliver them; for funding in any order `Study.CursorNeverLeaks` and `Study.Run` say what is seen.
- Spread.StudyIsTold: requires distinct symbols, for the same reason.
- Study.Run: requires a window of at least one bar; a slice by minus zero would be the whole history.
