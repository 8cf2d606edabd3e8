# Trading platform model

A Dafny model of the parts of a multi-tenant stock and crypto trading platform that carry state or arithmetic:
the backtest replay and its pattern detection, order pricing and the stop ratchet at the broker, the lifecycles
of signals and of rule rows across dashboard, Telegram and MCP front ends, the watchlist feed, the migration and
the trade cleanup scripts, and the trading-day and next-run searches. Each is given as functions on values with
their properties proved, and where the source works by changing things step by step, as methods on mutable state
proved to compute those functions.

`dafny verify dfyconfig.toml` checks everything.

| files | what they cover |
|---|---|
| `Backtest`, `BacktestCausality`, `BacktestSafety`, `BacktestStatistics`, `VcpDetection` | day loop, no look-ahead, invariants over whole runs, sizing and fills, summary figures, pattern detection |
| `Rounding`, `TickRounding`, `BrokerOrders` | half-even rounding, tick bands, bracket orders, raising stops in place |
| `SignalLifecycle`, `SignalEffects`, `SignalDesk` | signals, watchlist items, positions and entry orders as one machine; each step row by row; its handlers on tables |
| `RuleLifecycle`, `RuleEffects`, `RuleDesk` | rule templates and organisations' rows; each handler row by row; the handlers and the sync loops on a table |
| `WatchlistPaging`, `WatchlistOrder`, `WatchlistEnrichment` | ranking, filtering and scrolling; the views' order; geometry from columns, cache or detection |
| `Migration`, `MigrationFixpoint`, `MigrationKeeps`, `MigrationEffects`, `MigrationRun`, `TradeCleanup` | the data part of the migration, how many runs settle it, what it keeps, every row after a run, its loops; duplicate removal |
| `TradingCalendar`, `NextRun` | trading-day searches, next entry check, next screener run |

## Where the code departs from what it promises

The model follows the code. Each of these is a lemma or a contract that says exactly when the promise holds, with
an input for which it does not.

- A bracket whose parent is still in `ApiPending` when polling ends is reported as submitted
  (`AcceptedMeansAcknowledged`, `StaysApiPending`).
- With the extension rule disabled an entry can be filled above its bar's high (`EntryInsideBar`, `EntryOutsideBar`).
- The undated unskip of dashboard and MCP can leave two blocking signals for one ticker (`UnskipKeepsOneBlocking`,
  `UnskipMakesTwo`), and so can the screener, which looks for live signals only (`ScreenKeepsOneBlocking`,
  `ScreenThenUnskip`).
- Closing a position does not clear its triggered signal, which then blocks its ticker (`ReleasedExactly`,
  `TriggeredBlocksForGood`, `ClosedTradeStillBlocks`).
- The dashboard's skip ignores the signal's status, so an order can go on working under a skipped signal
  (`SkipKeepsFollowing`, `SkipLeavesOrderWorking`).
- A dashboard toggle does not stamp its row, so an unforced sync may undo it (`ToggleSurvivesSync`,
  `SyncUndoesToggle`); the sync's own stamp counts as a hand edit, so rows it wrote are never synced again unforced
  (`SecondSyncDoesNothing`, `SyncFreezesRow`).
- An MCP update refused for its threshold has already committed its switch (`RefusedUpdateMaySwitch`,
  `RefusedButSwitched`).
- Search ranks only the newest five hundred matches (`SearchSeesOnlyTheNewest`, `ExactMatchNotShown`), and a search
  within a tier looks for the tier on the first page of matches only (`ScrollingShowsTheListing`,
  `TierMatchNotShown`).
- Fresh columns show four-decimal prices (`RowIsTransparent`, `FreshRowRounds`), rows without recent bars show what is
  on hand (`RowWithoutBars`, `OldRowStillShows`), and the geometry cache is shared by organisations with different
  rules (`SharedCacheNeedsSameRules`, `SharedCacheShowsTheirs`).
- An unmapped exchange has a next trading day but an empty listing (`NextIsHeadOfListing`, `UnmappedIsNotListed`).
- The cleanup script fails when duplicate groups of one ticker and account mix a missing with a present
  organisation (`Clean`, `MixedOrganisationsFail`).
- One run of the migration is not a fixpoint: memberships are backfilled before the administrator is created and
  labels read the exchange list before it is seeded (`OneRunSuffices`, `EmptyStartNeedsTwo`).

## Model

| member | source | states |
|---|---|---|
| `Backtest.TradeDay` | app/backtester/backtest_engine.py:74-214 | before sixty earlier bars a day changes nothing; after them a held position closes if and only if its stop is hit, then by the stop, or an exit rule answers, then by that rule, each at its price; a signal becomes a position exactly on a breakout and is dropped without one exactly after seven days; with neither, a detected pattern and nothing else becomes the signal; and there are never both |
| `Backtest.Replay` | app/backtester/backtest_engine.py:64-233 | the loop over the window with its final forced close yields exactly the trade log of `Run` |
| `Backtest.RunBacktest` | app/backtester/backtest_engine.py:29-268 | no bars gives the error answer and nothing else does; otherwise the log of the run over the loaded bars and its summary |
| `BacktestCausality.UpToIsPrefix` | app/backtester/backtest_engine.py:75-76 | filtering a table in date order by date keeps a prefix, and every bar cut off lies past the date |
| `BacktestCausality.LoadExtends` | app/backtester/backtest_engine.py:29-34 | the bars loaded for a later end date are those of the earlier one followed by bars past it |
| `BacktestCausality.SameDecisions` | app/backtester/backtest_engine.py:73-214 | bars appended past the last date leave the state after every earlier day as it was |
| `BacktestCausality.LogOnlyGrows` | app/backtester/backtest_engine.py:66-214 | the log only ever gets longer, and nothing in it is a forced close |
| `BacktestCausality.DecidedIsTheLog` | app/backtester/backtest_engine.py:216-233 | what a run decided, forced close aside, is the log its last day left |
| `BacktestCausality.Causality` | app/backtester/backtest_engine.py:29-233 | no look-ahead: runs to two end dates agree on the pending signal, the position and the log after every day of the shorter one, and what the shorter one decided opens the longer one's log |
| `BacktestSafety.StepChanges` | app/backtester/backtest_engine.py:74-214 | the five ways a day can change the state, and that the one taken is the one the stop, the exit rules, the breakout or the detection call for |
| `BacktestSafety.EachDay` | app/backtester/backtest_engine.py:73-214 | every day of every run: it is some bar of the table, does nothing before the sixty-first, and after that exactly what is called for by the bars up to it, no later one |
| `BacktestSafety.AverageVolumeIs` | app/backtester/backtest_engine.py:86 | the indicator's average, or the day's own volume when that is missing or zero |
| `BacktestSafety.LoadHolds` | app/backtester/backtest_engine.py:28-32 | the bars of the table from 365 days before the start to the end date, all of them, in order |
| `BacktestSafety.EntryFill` | app/backtester/backtest_engine.py:163-193 | an entry is filled at the pivot, or at the open of a day that opens above it, keeps the signal's stop, and buys the maximal quantity |
| `BacktestSafety.AlwaysSafe` | app/backtester/backtest_engine.py:64-214 | on every day of every run a signal and a position are never both set, trades are in order with a traded day strictly between exit and next entry, every date is a day already processed, a pending signal is at most a week old, and nothing happens before sixty bars of history |
| `BacktestSafety.TradesInOrder` | app/backtester/backtest_engine.py:64-233 | a whole run's trades: in date order, a window day strictly between one exit and the next entry, entry before exit except that the forced close may fall on the entry day and is last |
| `BacktestSafety.StaleSignalCheckedOnce` | app/backtester/backtest_engine.py:156-202 | a signal still pending on a day more than seven days after it appeared gets one breakout check that day, ending in the position it calls for or in nothing, and is pending on no later day |
| `BacktestSafety.SizeIsMaximal` | app/backtester/backtest_engine.py:171-183 | with the stop below the entry the quantity is the largest whole number within the 200 budget, or one share when one share exceeds it; otherwise it is a hundred |
| `BacktestSafety.PositionOrigin` | app/backtester/backtest_engine.py:156-193 | every position held was opened on an earlier day from the signal pending then, by a breakout that day |
| `BacktestSafety.RunTradeOrigin` | app/backtester/backtest_engine.py:89-153 | every logged trade closed the position held then, at the price its reason calls for; an exit rule it names answered so that day on the bars up to it, and only with the stop not hit; a stop-loss had its stop hit; the forced close is the last trade, on the last day |
| `BacktestSafety.EntryInsideBar` | app/backtester/backtest_engine.py:169 | the entry fill is inside its bar exactly when the bar reached the pivot |
| `BacktestSafety.FillsInsideBars` | app/backtester/backtest_engine.py:89-233 | with the extension rule enabled and well-formed bars, every entry and exit price of a run is one its own bar traded at |
| `BacktestSafety.EntryIsLogged` | app/backtester/backtest_engine.py:185-233 | every position a run opens is one of its trades |
| `BacktestSafety.EntriesInsideExactly` | app/backtester/backtest_engine.py:89-233 | over well-formed bars every exit of a run is a price its bar traded at, and every entry is if and only if each day that opens a position reaches its signal's pivot |
| `BacktestSafety.StopLossBounded` | app/backtester/backtest_engine.py:91-111 | a stop-loss trade never wins; filled at the stop with per-share risk within budget it loses at most 200, after rounding to cents |
| `BacktestSafety.PercentOfOutlay` | app/backtester/backtest_engine.py:95-108 | a trade's dates, prices, quantity and reason, its profit, and that as a percentage of what the position cost, each rounded to two places |
| `BacktestStatistics.WinsAndLossesPartition` | app/backtester/backtest_engine.py:238-246 | winning and losing trades partition the log as a multiset, in number and in money |
| `BacktestStatistics.WinsWin` | app/backtester/backtest_engine.py:238-239 | which trades the two halves hold: exactly those with positive, and with zero or negative, profit |
| `BacktestStatistics.AddPnl` | app/backtester/backtest_engine.py:241-253 | the money and the days held are totals over all trades |
| `BacktestStatistics.SummaryAddsUp` | app/backtester/backtest_engine.py:236-266 | net is gross profits less gross losses, the win rate the percentage of trades won, the profit factor profits over losses and infinite exactly when no trade lost money, the days held the average, each rounded as it is shown |
| `BacktestStatistics.HoldDaysFit` | app/backtester/backtest_engine.py:248-253 | holdings that do not overlap last together no longer than from the first entry to the last exit |
| `BacktestStatistics.RunHoldDaysFit` | app/backtester/backtest_engine.py:236-266 | so it is for the trades of every run, and the average is not negative |
| `BacktestSafety.BreakoutReachesPivot` | app/screener/vcp.py:267-279 | a passed breakout with the extension rule enabled closes at or above the pivot |
| `BacktestSafety.BreakoutMeans` | app/screener/vcp.py:267-321 | a breakout if and only if, as far as the rules are on, the close is from the pivot up to so many percent above it and the projected volume at least so many percent of the average |
| `BacktestSafety.EntryOutsideBar` | app/screener/vcp.py:267-279 | with that rule disabled a breakout can be filled above the bar's high: a concrete bar and signal |
| `VcpDetection.FindPivots` | app/screener/vcp.py:326-336 | exactly the positions no neighbour within half a window beats, in order |
| `VcpDetection.PairContractions` | app/screener/vcp.py:104-124 | one contraction for every swing high whose next low in time is below it, and no other, sized in percent of the high |
| `VcpDetection.Tighten` | app/screener/vcp.py:126-138 | the scan keeps a maximal run of tightening contractions and restarts only where enough of them remain |
| `VcpDetection.Contractions` | app/screener/vcp.py:74-124 | exactly one contraction for every swing high whose first later swing low is below it, with its prices and size, and none unless there are two swing highs and two swing lows |
| `VcpDetection.ContractionsUnique` | app/screener/vcp.py:74-124 | that determines the list |
| `VcpDetection.FinalRunUnique` | app/screener/vcp.py:126-138 | the list determines the run the scan ends with |
| `VcpDetection.DetectVcp` | app/screener/vcp.py:61-209 | a pattern is detected if and only if the final tightening run of the bars' contractions passes the enabled rules; its pivot and stop are the last contraction's high and low, so the stop is below the pivot |
| `VcpDetection.WindowIs` | app/screener/vcp.py:73-83 | the last so many weeks of five bars are looked at, or all there are, for swings of one bar each side with fewer than sixty bars and two otherwise |
| `VcpDetection.PassesMeans` | app/screener/vcp.py:143-176 | the rules pass if and only if there are enough contractions, the base spans an allowed number of whole weeks, and the dry-up is no weaker than allowed |
| `VcpDetection.DryUpIs` | app/screener/vcp.py:172-176 | the dry-up: the average volume of the up to five bars from the final low in percent of the average volume, or a hundred without one |
| `VcpDetection.DropIs` | app/screener/vcp.py:104-124 | the size of a contraction: the drop in percent of the high |
| `VcpDetection.DetectionUnique` | app/screener/vcp.py:61-209 | bars and rules leave the detection no choice, neither whether there is a pattern nor its prices |
| `Rounding.HalfEven` | app/broker/ibkr.py:357 | nearest whole number, ties to even |
| `Rounding.HalfEvenUnique` | app/broker/ibkr.py:357 | that description determines the result |
| `Rounding.RoundAtNear` | app/broker/ibkr.py:357 | rounding to a number of steps per unit lands on a step within half a step |
| `Rounding.RoundAtMonotone` | app/broker/ibkr.py:357 | rounding to steps keeps order |
| `TickRounding.FourDecimalsKeepTicks` | app/broker/ibkr.py:357 | the closing round to four decimals changes nothing in any band |
| `TickRounding.TickBands` | app/broker/ibkr.py:340-357 | the bands of either exchange, with the tick each price is rounded to |
| `TickRounding.TickNear` | app/broker/ibkr.py:340-357 | the rounded price is on its band's grid, within half a tick, and even on ties |
| `TickRounding.StaysBesideEdge` | app/broker/ibkr.py:345-357 | no price rounds across a band edge from either side |
| `TickRounding.TickMonotone` | app/broker/ibkr.py:340-357 | rounding keeps order over all prices, across bands |
| `TickRounding.TickIdempotent` | app/broker/ibkr.py:340-357 | a rounded price is on the grid of the band it landed in, so rounding again changes nothing |
| `BrokerOrders.BracketPricesOrdered` | app/broker/ibkr.py:421-428 | rounded stop at or below trigger, trigger at or below limit, trigger the larger of rounded pivot and rounded entry, limit within the buffer and half a tick |
| `BrokerOrders.StopBelowTrigger` | app/broker/ibkr.py:422-427 | the rounded stop never exceeds the trigger, which is already on the grid |
| `BrokerOrders.LimitAboveTrigger` | app/broker/ibkr.py:428 | the limit never falls below the trigger nor strays more than half a tick from the buffer |
| `BrokerOrders.PricesFor` | app/broker/ibkr.py:421-449 | the four prices by the request: target and stop to the tick, a buy with a pivot triggered at the higher of pivot and entry and limited its buffer above, any other request limited at its entry |
| `BrokerOrders.BuildLegs` | app/broker/ibkr.py:429-469 | three distinct legs with equal quantity, opposite sides, children tied to the parent, only the last transmitting, only the parent DAY |
| `BrokerOrders.AwaitParent` | app/broker/ibkr.py:476-484 | polling stops at the first stable status or after twelve seconds |
| `BrokerOrders.CancelAll` | app/broker/ibkr.py:513-517 | every leg is asked to cancel and none is otherwise altered |
| `BrokerOrders.SubmitBracket` | app/broker/ibkr.py:359-542 | the prices, sides, sizes, ties and terms of the three legs handed over, by the request's own fields, and which final status leads to which answer, exactly; legs are cancelled if and only if the parent is stuck |
| `BrokerOrders.AcceptedMeansAcknowledged` | app/broker/ibkr.py:493-538 | an accepted answer means an acknowledged parent if and only if its last status is not ApiPending |
| `BrokerOrders.StaysApiPending` | app/broker/ibkr.py:480-538 | a parent that stays ApiPending through every poll is reported as accepted |
| `BrokerOrders.RaiseKeepsSpread` | app/broker/ibkr.py:768-777 | the new stop is the larger of old and rounded new, and the stop-limit spread moves at most half a tick of the limit's band |
| `BrokerOrders.ModifiesExactly` | app/broker/ibkr.py:750-785 | one call: the first order of that id, if a selling stop below the rounded price, has its stop there, its limit following at the same distance; every other order is untouched |
| `BrokerOrders.CallsInTurn` | app/broker/ibkr.py:750-785 | a sequence of calls is each call in turn |
| `BrokerOrders.StopsOnlyRise` | app/broker/ibkr.py:750-785 | over any sequence of calls no working stop falls, the spread of a stop-limit whose limit is at least the smallest price moves at most half a tick of the limit's band for each call that changes it, and no other order, side, quantity or parent changes |
| `BrokerOrders.DriftIsSmall` | app/broker/ibkr.py:768-777 | which is no more than half a cent a call, and nothing for a call that changes no limit |
| `BrokerOrders.Gateway.ModifyStopOrder` | app/broker/ibkr.py:750-785 | the whole order book after the call, which answer goes with which case, and that a raised order has its stop at the rounded price |
| `TradingCalendar.FirstFromIsLeast` | app/data/calendar.py:113-118 | the bounded search returns the first trading day in its reach, or nothing if there is none |
| `TradingCalendar.TradingDayIs` | app/data/calendar.py:72-81 | crypto trades every day, a mapped exchange by its own calendar, any other by the ASX one |
| `TradingCalendar.NextIsLeast` | app/data/calendar.py:109-118 | the least trading day after the given one, found whenever one lies within fourteen days |
| `TradingCalendar.PreviousIsGreatest` | app/data/calendar.py:121-130 | the greatest trading day before the given one, found whenever one lies within fourteen days |
| `TradingCalendar.DaysBetweenListsAll` | app/data/calendar.py:133-146 | the listing holds exactly the trading days of the range, in order |
| `TradingCalendar.NextMonotone` | app/data/calendar.py:109-118 | later starts give no earlier answers, and starts before the answer give the same one |
| `TradingCalendar.NextAndPreviousUndo` | app/data/calendar.py:109-130 | on trading days forward then back, and back then forward, return to the start |
| `TradingCalendar.NextIsHeadOfListing` | app/data/calendar.py:109-146 | next equals the head of the fortnight's listing if and only if the exchange is crypto or mapped, or nothing trades then; an unmapped one borrows the ASX calendar in one call and gets an empty list in the other |
| `TradingCalendar.UnmappedIsNotListed` | app/data/calendar.py:109-146 | an unmapped exchange with a next trading day tomorrow and an empty listing |
| `TradingCalendar.MarketCalendar.GetCalendar` | app/data/calendar.py:53-60 | the cache dictionary always answers as the library would, and only for mapped exchanges |
| `TradingCalendar.MarketCalendar.IsTradingDay` | app/data/calendar.py:72-81 | crypto always, a mapped exchange by its calendar, an unknown one as the ASX |
| `TradingCalendar.MarketCalendar.NextTradingDay` | app/data/calendar.py:109-118 | the loop computes the search above |
| `TradingCalendar.MarketCalendar.PreviousTradingDay` | app/data/calendar.py:121-130 | the loop computes the search above, backwards |
| `TradingCalendar.MarketCalendar.GetTradingDays` | app/data/calendar.py:133-146 | exactly the days of the range the exchange trades on, none for one without a calendar |
| `NextRun.EntryCheckWithin` | web/main.py:4904-4931 | from every minute of every week a check falls due within 5 minutes (crypto), 3845 (NYSE) or 3905 (ASX) |
| `NextRun.ChecksAre` | web/main.py:4913-4931 | the schedule by weekday, hour and minute: every five minutes, crypto always, the ASX from ten to five on weekdays, New York from eleven at night to seven over the nights that begin on a weekday |
| `NextRun.LongestWaitIsReached` | web/main.py:4913-4931 | those bounds are tight: a minute from which nothing falls due sooner |
| `NextRun.NextEntryCheck` | web/main.py:4904-4938 | the 10080-step search always succeeds, and with the least scheduled minute strictly after now |
| `NextRun.NextCryptoRun` | web/main.py:5065-5073 | the first of the four-hourly runs strictly after now |
| `NextRun.RunsAre` | web/main.py:5058-5094 | the screener's runs by weekday, hour and minute |
| `NextRun.NextScheduledRun` | web/main.py:5058-5094 | the eight-day search always succeeds, within three days, with the least scheduled instant strictly after now |
| `TradeCleanup.KeepLowestIsClean` | scripts/cleanup_duplicate_trades.py:92-140 | keys unchanged, one row per key, that row the lowest id of its group, no duplicate group left |
| `TradeCleanup.KeptIsLowest` | scripts/cleanup_duplicate_trades.py:95-100 | no row of a group has a lower id than the one kept |
| `TradeCleanup.DuplicatesMean` | scripts/cleanup_duplicate_trades.py:44-70 | the groups found are exactly the keys on more than one row, each with the ids of all its rows, ascending |
| `TradeCleanup.WithoutHas` | scripts/cleanup_duplicate_trades.py:130-138 | a deletion leaves exactly the rows not listed, in their order |
| `TradeCleanup.TailIds` | scripts/cleanup_duplicate_trades.py:95-100 | an id is past the head of its group exactly when an earlier row has the same key |
| `TradeCleanup.DeletingLaterRows` | scripts/cleanup_duplicate_trades.py:130-138 | deleting exactly those ids leaves the first row of every key |
| `TradeCleanup.WithoutTwice` | scripts/cleanup_duplicate_trades.py:132-138 | two deletions in a row are one deletion of the joined list, so batches add up |
| `TradeCleanup.DeletedRows` | scripts/cleanup_duplicate_trades.py:130-138 | one row goes for every listed id that is present |
| `TradeCleanup.TradesTable.FindDuplicates` | scripts/cleanup_duplicate_trades.py:44-70 | the groups dictionary ends with exactly the keys on more than one row, ids ascending |
| `TradeCleanup.TradesTable.ListDeletions` | scripts/cleanup_duplicate_trades.py:92-100 | exactly the later rows of every group, each once, whatever order the groups come in |
| `TradeCleanup.TradesTable.DeleteInBatches` | scripts/cleanup_duplicate_trades.py:130-138 | batches of at most a hundred that partition the list, with the effect of deleting it whole |
| `TradeCleanup.TradesTable.Clean` | scripts/cleanup_duplicate_trades.py:73-140 | which of the five outcomes occurs when; a completed cleanup leaves the lowest row of every key and reports rows less distinct keys; any other leaves the table alone; sorting groups that mix a missing with a present organisation fails |
| `TradeCleanup.MixedOrganisationsFail` | scripts/cleanup_duplicate_trades.py:95 | four rows whose groups cannot be sorted |
| `SignalLifecycle.StepEvolves` | web/main.py:2061-2086 | no step but the undated unskip, the screener and a new day makes a signal start to count, save one new pending signal for a ticker nothing blocks |
| `SignalEffects.BlockedMeans` | web/main.py:4286-4308 | what counts against a new signal: one of the ticker that is pending or triggered, or dated today |
| `SignalEffects.StepDoes` | app/tasks/trading.py:2061-2086 | every step row by row: which signal, item, order and position changes, to what, and under which condition, for all twenty-one steps |
| `SignalEffects.StepDetermined` | app/tasks/trading.py:2061-2086 | that description leaves a step no choice |
| `SignalEffects.RunDoes` | web/main.py:4279-4357 | and a run is its steps in order |
| `SignalEffects.PromotionMakesSignal` | app/tasks/trading.py:2059-2165 | requested, accepted and run with a price, a promotion of an unblocked ticker ends in exactly one new signal, pending and dated today, the item SIGNALLED, and nothing else changed |
| `SignalEffects.TaskLeavesSignal` | app/tasks/trading.py:2096-2154 | after a task run with a price on a ticker not held the ticker has a signal that counts, a new one exactly if it had none |
| `SignalEffects.StepRaises` | app/tasks/trading.py:2059-2165 | a step keeps every signal's ticker and date and adds a signal if and only if it is a promotion task or a screening that finds the ticker free |
| `SignalEffects.SignalOrigin` | app/tasks/trading.py:2096-2154 | over any run, every signal added was raised at one of its steps, pending and dated that day |
| `SignalEffects.RaisedStays` | app/tasks/screening.py:1203-1226 | and every signal a step raises is there at the end, in its place, with its ticker and date |
| `SignalLifecycle.NextKeeps` | web/main.py:4246-4357 | each such step keeps: no signal dated ahead, one blocking signal per organisation and ticker, and no item SIGNALLED with nothing under way whose ticker never had a signal |
| `SignalLifecycle.RunKeeps` | web/main.py:4279-4357 | every interleaving of promotions, queue answers, tasks, triggers, fills, cancels, skips, Telegram unskips and day changes keeps all three |
| `SignalLifecycle.RejectedStaysWatching` | web/main.py:4310-4357 | over every run in which no task of the item is accepted and the screener does not take it, the item has no task queued and is SIGNALLED only while a request is unanswered; WATCHING otherwise, unless removed by hand |
| `SignalLifecycle.GoesWithASignal` | app/tasks/trading.py:2059-2165 | at the step an item goes off the watchlist with nothing under way, its ticker has a signal live or dated today |
| `SignalLifecycle.WentWithASignal` | web/main.py:4314-4320 | over any run whatever, an item found gone went at a definite step, stayed gone, and at that step its ticker had a signal live or dated that day |
| `SignalLifecycle.UnskipKeepsOneBlocking` | web/main.py:3161-3178 | the undated unskip keeps the invariant if and only if the signal is not the caller's, is not skipped, or has no live or same-day rival |
| `SignalLifecycle.UnskipMakesTwo` | web/main.py:3161-3178 | skipped one day, promoted the next, unskipped: two pending signals for one ticker |
| `SignalLifecycle.ScreenKeepsOneBlocking` | app/tasks/screening.py:1203-1226 | the screener keeps it if and only if it creates nothing or the ticker has no signal dated today |
| `SignalLifecycle.ScreenThenUnskip` | app/tasks/screening.py:1203-1226 | skip, screen again, Telegram unskip: two pending signals for one ticker |
| `SignalLifecycle.RunKeepsOneLive` | app/tasks/screening.py:1203-1226 | with the screener running and nothing unskipped, every run still has at most one live signal per ticker |
| `SignalLifecycle.ReleasedExactly` | web/main.py:2065-2086 | which steps take a triggered signal out of that state: its owner's dashboard skip, the cancel of an order whose newest triggered signal it is, the lapse of its own order |
| `SignalLifecycle.TriggeredBlocksForGood` | app/tasks/trading.py:2784-2805 | until one of those, and whatever happens to other signals and orders, a triggered signal stands and no run makes another signal for its ticker |
| `SignalLifecycle.ClosedTradeStillBlocks` | web/main.py:4286-4308 | a ticker whose position is closed and whose signal is five days old cannot be promoted |
| `SignalLifecycle.StepKeepsFollowing` | web/main.py:2065-2086 | with one live signal a ticker, every step but the dashboard's skip leaves each working entry order its own triggered signal of its ticker |
| `SignalLifecycle.SkipKeepsFollowing` | web/main.py:3150-3156 | the dashboard's skip does if and only if the signal is not the caller's or has no working order |
| `SignalLifecycle.RunKeepsFollowing` | app/tasks/trading.py:2784-2805 | so does every run without unskips in which no signal is skipped on the dashboard while its order works |
| `SignalLifecycle.SkipLeavesOrderWorking` | web/main.py:3150-3156 | a triggered signal skipped on the dashboard: its order still works and the screener raises a second signal |
| `SignalDesk.Tables.RequestPromotion` | web/main.py:4246-4312 | the promote route up to its commit: which of its four answers is given when, and the item flipped and in flight exactly on the one |
| `SignalDesk.Tables.QueueAnswered` | web/main.py:4321-4357 | accepted queues the task and leaves the item; refused puts the item, and no other, back to WATCHING |
| `SignalDesk.Tables.RunPromotionTask` | app/tasks/trading.py:1977-2165 | for a priced ticker not held the item is SIGNALLED and there is exactly one new signal, pending and dated today, unless one counts already; otherwise no signal is added and the item is WATCHING; the invariant is kept |
| `SignalDesk.Tables.CancelOpenOrder` | web/main.py:2061-2086 | cancel drops the position, retires the order and sets the newest triggered signal back to pending |
| `SignalDesk.Tables.UnskipAnyDay` | web/main.py:3161-3178 | restores whatever the date; one blocking signal is kept if and only if that condition holds |
| `SignalDesk.Tables.UnskipFromTelegram` | app/agent/commands.py:441-459 | today's skipped signal is restored if there is one, which keeps the invariant because it is today's |
| `RuleLifecycle.NextKeeps` | web/main.py:7843-7965 | each handler keeps mandatory rules on for every tier and the rows of a rule agreed on being mandatory |
| `RuleLifecycle.MandatoryStaysOn` | web/main.py:6495-6541 | so does every run of toggles, thresholds, tier toggles, tier thresholds, sign-ups, syncs, Telegram and MCP updates |
| `RuleEffects.StepRowByRow` | web/main.py:7843-7965 | every handler row by row: all eight fields of every row afterwards, for all nine handlers, the sync and the sign-up included |
| `RuleEffects.RunRowByRow` | web/main.py:6495-6541 | and a run is its handlers in order |
| `RuleEffects.SyncAdds` | web/main.py:7899-7938 | which rows a sync adds and which it goes through |
| `RuleEffects.FullyOnMeans` | app/mcp/tools.py:1002-1034 | a rule is on for every tier if and only if it is on and no override switches it off |
| `RuleEffects.UpdateReplies` | app/mcp/tools.py:983-1036 | which answer an MCP update gives in which case |
| `RuleLifecycle.SyncKeepsMandatoryExactly` | web/main.py:7898-7938 | without that agreement a sync keeps mandatory rules on if and only if no mandatory row it writes has a template that is off for some tier |
| `RuleLifecycle.SyncIsComplete` | web/main.py:7893-7940 | afterwards every template and organisation has its row; with force, and for new rows, switch, threshold and overrides are the template's; without it edited rows are untouched |
| `RuleLifecycle.SecondSyncDoesNothing` | web/main.py:7893-7940 | a second unforced sync changes nothing even if templates changed in between |
| `RuleLifecycle.SyncFreezesRow` | web/main.py:7905-7912 | a row nobody edited that was synced once and does not follow its template the next time |
| `RuleLifecycle.ToggleSurvivesSync` | web/main.py:6536-6538 | a dashboard toggle leaves the stamp, so an unforced sync keeps it if and only if the row already counted as edited, has no template, or the template agrees |
| `RuleLifecycle.SyncUndoesToggle` | web/main.py:7904-7913 | a rule switched off on the dashboard and on again by the next sync |
| `RuleLifecycle.RefusedUpdateMaySwitch` | app/mcp/tools.py:1002-1034 | an MCP update that is refused has still changed the rule if and only if it carried a switch that differs and that the rule may take, and a threshold outside its bounds |
| `RuleLifecycle.RefusedButSwitched` | app/mcp/tools.py:1019-1026 | an update refused for its threshold that switched the rule off |
| `RuleDesk.RuleTable.ToggleRule` | web/main.py:6495-6541 | clone if missing, then flip unless mandatory |
| `RuleDesk.RuleTable.UpdateThreshold` | web/main.py:6545-6596 | clone if missing, then set unless the rule has no threshold or the value is out of bounds, keeping the invariant |
| `RuleDesk.RuleTable.ToggleGlobalRule` | web/main.py:7843-7855 | flips the template unless mandatory, keeping the invariant |
| `RuleDesk.RuleTable.ToggleTierRule` | web/main.py:7859-7878 | flips one tier's override of the template unless mandatory, keeping the invariant |
| `RuleDesk.RuleTable.SyncExisting` | web/main.py:7899-7913 | the loop over a rule's rows writes exactly the unedited or forced ones, and counts the written and the skipped |
| `RuleDesk.RuleTable.Backfill` | web/main.py:7917-7938 | the loop over organisations creates exactly the missing rows and counts them |
| `RuleDesk.RuleTable.SyncAll` | web/main.py:7882-7941 | the nested loops leave of every row what a sync leaves of it; created is the number of missing pairs, skipped the number of edited rows left alone, synced the number of the others |
| `RuleDesk.RuleTable.CmdRule` | app/agent/commands.py:620-643 | Telegram's switch, refused for a mandatory rule only when turning it off |
| `RuleDesk.RuleTable.UpdateRule` | app/mcp/tools.py:983-1036 | the tool's answer and the row it leaves, the early switch included |
| `WatchlistPaging.SortIsStable` | web/main.py:3675 | the ranking sort orders by key, keeps every row once and leaves equal keys in order of arrival |
| `WatchlistPaging.FilterThenSort` | web/main.py:3675-3820 | filtering after the stable sort is sorting what was filtered |
| `WatchlistPaging.ListingIsOrdered` | web/main.py:3650-3697 | the listing of a request holds exactly the capped feed's rows it keeps, keys never decreasing, equal keys newest first |
| `WatchlistOrder.FocusListing` | web/main.py:3840-3852 | the focus view's listing: of the newest thousand rows those of tier A, then the favourites of other tiers, each newest first |
| `WatchlistOrder.SearchListing` | web/main.py:3664-3676 | a search's listing: of the newest five hundred matches, or those of the tier asked for, the exact ticker, then those that begin with the term, then those that hold it at some place, then the rest, each newest first |
| `WatchlistOrder.UnrankedListing` | web/main.py:3680-3697 | the plain listing is the whole feed, a tier's its rows among the newest thousand |
| `WatchlistOrder.ContainsMeans` | web/main.py:3669-3674 | a ticker holds the term when the term stands at some place of it |
| `WatchlistOrder.PagesAre` | web/main.py:3650-3852 | every page in twenties of its listing, with the total and whether there is more; in a search within a tier, a page of the tier's rows on that page of the search |
| `WatchlistOrder.ScrolledInOrder` | web/main.py:3650-3852 | scrolled to the end, the focus view and a search show their groups in that order |
| `WatchlistPaging.PageIsAStretch` | web/main.py:3650-3697 | save for a search within a tier, each page is its stretch of the listing, and the total is the listing's length |
| `WatchlistPaging.TierSearchPage` | web/main.py:3678-3827 | in a search within a tier the tier is looked for among the rows of one page and that is cut again: no page ever has more, and every page but the first is empty |
| `WatchlistPaging.ScrollingShowsTheListing` | web/main.py:3650-3852 | for every request pages up to the first without more show the listing from its start, and all of it if and only if it is not a search within a tier, or no match of that tier is ranked below the first page |
| `WatchlistPaging.SearchSeesOnlyTheNewest` | web/main.py:3664-3679 | a search shows a match if and only if it is among the newest five hundred, whatever its rank; within a tier, if and only if it is of the tier and among the twenty best of those |
| `WatchlistPaging.TierMatchNotShown` | web/main.py:3678-3827 | twenty-one matches ranked alike, the oldest alone of tier A: a search within tier A answers an empty page, total zero |
| `WatchlistPaging.ExactMatchNotShown` | web/main.py:3664-3679 | the oldest of 501 matches is exact and not shown, while five hundred worse ones are |
| `WatchlistEnrichment.ShownTells` | web/main.py:3381-3417 | two geometries show alike if and only if they are equal or neither has a pivot |
| `WatchlistEnrichment.ShownUnique` | web/main.py:3287-3417 | a row has one geometry, its fresh columns, else the cached one, else the detection within reach, and shows one thing of it, every field as it is, with size and risk for a stop below the pivot |
| `WatchlistEnrichment.ComputesWhen` | web/main.py:3287-3343 | detection runs for a row if and only if it is not fresh, is not in the cache, and its newest bar is in reach |
| `WatchlistEnrichment.StoredKeeps` | web/main.py:3368-3379 | columns keep the nearest ten-thousandth of each price, and the counts as they are |
| `WatchlistEnrichment.RowIsTransparent` | web/main.py:3287-3417 | with bars to recompute from, a row shows what recomputation would if and only if it is not fresh, its prices are whole ten-thousandths, or its pivot is zero |
| `WatchlistEnrichment.FreshRowRounds` | web/main.py:3292-3304 | a fresh row whose pivot differs from recomputation |
| `WatchlistEnrichment.RowWithoutBars` | web/main.py:3320-3343 | without bars in the 420-day reach a row shows what is on hand, which recomputation would not |
| `WatchlistEnrichment.OldRowStillShows` | web/main.py:3320-3343 | a row with its newest bar before the floor that shows its columns |
| `WatchlistEnrichment.CacheStaysHonest` | web/main.py:3366-3367 | every cache entry stays the detection of its ticker and date, and none is lost |
| `WatchlistEnrichment.CacheHolds` | web/main.py:3366-3367 | the cache afterwards: the detection for every row computed, and otherwise what it held |
| `WatchlistEnrichment.TableRowAfter` | web/main.py:3368-3379 | a table row afterwards: the stored detection of a row computed for it, and otherwise what it held |
| `WatchlistEnrichment.ComputedCounts` | web/main.py:3313-3379 | one detection for each row computed |
| `WatchlistEnrichment.TableStaysHonest` | web/main.py:3368-3379 | every row's columns stay the stored detection at their own date |
| `WatchlistEnrichment.SecondCallComputesNothing` | web/main.py:3287-3379 | a second call with unchanged bars runs no detection and changes neither cache nor table |
| `WatchlistEnrichment.SharedCacheNeedsSameRules` | web/main.py:3306 | a row answered from another organisation's entry is right if and only if both detections are equal or neither has a pivot |
| `WatchlistEnrichment.SharedCacheShowsTheirs` | web/main.py:3306-3311 | two organisations and a row that shows a pivot only the other's rules find |
| `WatchlistEnrichment.Watchlist.ComputeMissing` | web/main.py:3313-3379 | pass 2 with its cache and table writes, and the number of detections it ran |
| `WatchlistEnrichment.Watchlist.Enrich` | web/main.py:3230-3419 | the three passes: every field of each row shown, by the geometry it resolves to and the sizing asked for, and cache, table and number of detections afterwards |
| `MigrationFixpoint.ConfigsSettle` | scripts/migrate_saas.py:249-661 | one run leaves no configuration row to adopt, seed, delete or relabel |
| `MigrationFixpoint.SettledConfigsStay` | scripts/migrate_saas.py:249-661 | and then every configuration step is the identity and meets no collision |
| `MigrationFixpoint.RulesSettle` | scripts/migrate_saas.py:884-1073 | one run leaves every rule row fixed under all updates and every new rule seeded for its organisations |
| `MigrationFixpoint.RowAfter` | scripts/migrate_saas.py:884-1073 | one run's effect on one rule row: updated if it was there, in final form if new |
| `MigrationEffects.RuleRow` | scripts/migrate_saas.py:593-1397 | every rule row after a run, field by field: titles, thresholds, bounds and asset types of the rows there were, of the copies made for organisations without rules, and the new rules, and no other |
| `MigrationEffects.NewRules` | scripts/migrate_saas.py:951-1397 | the thresholds, bounds and asset types of the new rules |
| `MigrationEffects.ConfigRowAfter` | scripts/migrate_saas.py:249-661 | every configuration row after a run, value, title and group, and every key that has none |
| `MigrationEffects.DefaultFlags` | scripts/migrate_saas.py:425-445 | the factory values of switches, counts and regimes |
| `MigrationEffects.DefaultSettings` | scripts/migrate_saas.py:425-445 | the factory values of the settings |
| `MigrationEffects.LabelRow` | scripts/migrate_saas.py:498-591 | the labels after a run: which there were, the default ones of an organisation without any, and those its listed exchanges call for |
| `MigrationEffects.LabelsSee` | scripts/migrate_saas.py:528-591 | labels go by the exchanges listed before the run, not by the list it seeds |
| `MigrationEffects.SplitParts` | scripts/migrate_saas.py:533-534 | the parts of a comma-separated list hold no comma and joined by commas are the list |
| `MigrationEffects.StripTakes` | scripts/migrate_saas.py:571-576 | stripping takes all leading white space and nothing else |
| `MigrationEffects.RunLeaves` | scripts/migrate_saas.py:158-1397 | which run completes, and what it makes of organisations, users, handed-over rows and the other tables; one that does not leaves all but memberships and organisations alone |
| `MigrationFixpoint.LabelsTwice` | scripts/migrate_saas.py:498-591 | seeding labels again under the same configuration adds none |
| `MigrationFixpoint.SeededExchanges` | scripts/migrate_saas.py:1077-1079 | the seeded exchange list splits into the Australian exchange and one for crypto |
| `MigrationFixpoint.TwoRunsSuffice` | scripts/migrate_saas.py:158-1397 | from any start the third run ends as the second did, with the same outcome and the same tables |
| `MigrationFixpoint.CollisionsStay` | scripts/migrate_saas.py:249-268 | a run stopped by a key collision stops again, with the same tables |
| `MigrationFixpoint.MembershipsSettle` | scripts/migrate_saas.py:158-167 | the second run has memberships to add exactly when the first one created the administrator |
| `MigrationFixpoint.OrgLabelsSettle` | scripts/migrate_saas.py:528-591 | the second run has labels to add for an organisation exactly when it had no list of exchanges and lacks one of the labels the seeded list asks for |
| `MigrationFixpoint.OneRunSuffices` | scripts/migrate_saas.py:158-591 | one run is a fixpoint if and only if the administrator existed and every organisation had its exchanges or all those labels |
| `MigrationFixpoint.EmptyStartNeedsTwo` | scripts/migrate_saas.py:158-167 | an empty database needs two runs |
| `MigrationKeeps.MembershipsKept` | scripts/migrate_saas.py:158-167 | memberships are only added, as default ones of a user's home, and every user there was has that one |
| `MigrationKeeps.EveryUserBelongs` | scripts/migrate_saas.py:158-167 | after two runs that complete every user belongs to its home, the administrator included |
| `MigrationKeeps.ValuesKept` | scripts/migrate_saas.py:249-496 | where each configuration row is found after a run, which are gone, and that the value is unchanged |
| `MigrationKeeps.ValueAfter` | scripts/migrate_saas.py:445-661 | every other row after a run is one of the wanted seeds with its default value |
| `MigrationKeeps.ThresholdsKept` | scripts/migrate_saas.py:994-1010 | no rule row is lost, and its threshold changes only from 70 or 30 in the two rules whose factory default moved |
| `MigrationRun.Tables.FoundDefaultOrg` | scripts/migrate_saas.py:234-247 | the default organisation, found by its name; if there was none one is made, active, and no other organisation changes |
| `MigrationRun.HandOverKeepsRows` | scripts/migrate_saas.py:249-263 | handing configuration rows over loses, duplicates or alters none, unless a key collides |
| `MigrationRun.Tables.HandRowsOver` | scripts/migrate_saas.py:249-268 | it succeeds if and only if no unowned row meets one of its key there; then nothing is unowned and every row is found in one place with what it held; else nothing changes |
| `MigrationRun.Tables.SeedAdmin` | scripts/migrate_saas.py:346-357 | there is an administrator afterwards, one made here belongs to the default organisation, and no other user is made or changed |
| `MigrationRun.Tables.EnsureKeys` | scripts/migrate_saas.py:449-464 | the loop over the key list inserts exactly the missing rows |
| `MigrationRun.Tables.TidyKeys` | scripts/migrate_saas.py:466-496 | the four statements amount to one relabelling and deletion |
| `MigrationRun.Tables.SeedLabels` | scripts/migrate_saas.py:498-591 | default labels if there are none, sector and crypto labels by active exchange, inserted only where missing |
| `MigrationRun.Tables.CopyTemplates` | scripts/migrate_saas.py:593-616 | an organisation without rules gets a copy of every template, any other none |
| `MigrationRun.Tables.PrepareOrgs` | scripts/migrate_saas.py:445-617 | the organisations' loop, interleaving configuration, labels and rules, equals the three steps done for all organisations at once |
| `MigrationRun.Tables.EnsureGlobalKeys` | scripts/migrate_saas.py:638-657 | the loop over global keys inserts exactly the missing rows |
| `MigrationRun.Tables.EnsureRule` | scripts/migrate_saas.py:1372-1397 | the template and one row per organisation, where missing |
| `MigrationRun.Tables.EnsureRules` | scripts/migrate_saas.py:1039-1059 | the nested loops over rules and organisations |
| `MigrationRun.Tables.EnsureMarketKeys` | scripts/migrate_saas.py:1099-1112 | the nested loops over organisations and market keys |
| `MigrationRun.Tables.SettleBaseUrl` | scripts/migrate_saas.py:1195-1226 | the base URL is left as a global row only |
| `MigrationRun.Tables.Migrate` | scripts/migrate_saas.py:158-1397 | the whole run on the tables, collision included, is the migration the lemmas are about |

## Left out

- Binary floating point: prices and ratios are exact reals, so representation error, and NaN where a bar has no average volume, are not modelled.
- Daylight-saving changes and time zones: dates are day numbers, wall-clock time runs evenly.
- The breakout check's volume projection depends on the wall clock; it is a parameter of the rules.
- Exit rules are an arbitrary function of the entry, the stop, the entry date, the bars up to today and the average volume.
- A detected setup is taken to have a positive pivot above its stop; `DetectVcp` proves the order, and the sign for bars with non-negative lows.
- Intermediate results of pattern detection that only feed displays (final contraction percentage, leg dates).
- Handlers are atomic steps, except that a promotion request is two; a trigger's check and commit in separate sessions, two promotion tasks at once, and workers that die between steps are not modelled.
- HeldSkip: does not model a signal whose status changed between the entry check's query and its write.
- What an entry has to pass before it triggers (open position, working order, rules, risk limits): any pending signal may trigger, as by hand it may.
- `StopsOnlyRise`: the spread of a stop-limit whose limit is below the venue's smallest price, which no order the exchange accepts has.
- Which of several matching signals the Telegram commands take: their query has no order, and the oldest is taken here.
- Expiry of pending signals by age in the live system, and the screener's forced run, which repeats the modelled one.
- Audit rows, notifications, prices and sizes on signals, orders and positions.
- Which of several open positions of a ticker a cancel deletes: positions of one ticker are not told apart.
- The scripts that seed rule templates and patch a threshold: `scripts/seed_config.py`, `scripts/patch_earnings_rule.py`.
- Labels, descriptions and sort order of rule rows; the MCP tool's audit record.
- Titles of seeded configuration and rule rows are data taken over from the source; nothing is proved of them.
- Expiry of the geometry cache and the cache of rendered pages.
- The tier of a watchlist row and the search's name match are given with the row; rows created at the same instant keep the order the query returns.
- Geometry is a function of ticker and last bar date; new columns written within a call are not read back in that call.
- `Watchlist.Enrich`: the currency and capital that sizing uses are part of the given sizing function.
- Permissions, roles, user roles, exchange rows, price-column widening and the position link of trades in the migration: guarded inserts and updates of the same kind as the modelled ones, independent of them.
- Two rows of one configuration key without an organisation, which the database's unique constraint admits: a configuration table here has one row a key and organisation.
- Table and column creation, enum values and existence checks in the migration.
- Broker connection, contract lookup and market data: their answers are parameters of a session.
- Web routing, authentication, templates and the scheduling of tasks.
