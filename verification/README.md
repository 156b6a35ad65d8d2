# A verified model of the opening-range trading engine

The repository runs one opening-range strategy over a watchlist, live or as a replay of a past
day.  Minute bars of 09:30-09:34 select candidates; for those, every trade feeds a running VWAP,
the first cross from below it, at most one entry, at most one exit and the extremes after the
entry.  A historic replay fetches its data through pools of workers, is started through a
one-slot "latest wins" queue, logs to a bounded event log that a pump polls, and ends in a report
and a chart that is revealed bar by bar.

This project models that behaviour in Dafny and proves it.  `dafny verify dfyconfig.toml` checks
everything.

## How the model is built

| module | what it holds |
|---|---|
| `Tape` | the ticker record and, as values, what one trade, a tape of trades, the seed and the forced close do to it |
| `Lifecycle` | what a whole tape amounts to, stated without stepping: sums, least indices, first extremes |
| `ReplayLaws` | seams, frames and outcomes of whole replays, and what a close among the trades changes |
| `EventLog`, `RaceExample` | the log against the ticker table, and a concrete run whose log holds two exits |
| `Store`, `Engine` | the store and the engine as classes with the source's loops and early returns, each proved to perform the steps of `Tape` |
| `Tables` | what each phase does to the whole ticker table, and how one more turn of its loop extends it |
| `Pipeline`, `SessionLaws`, `WholeRun` | phases of a session on values, laws of finished sessions, and what a whole session leaves as a function of the market data |
| `WorkerPool`, `Fanout`, `Sorting` | the pool of feeder, workers, closer and collector under any schedule, and the collecting of its results |
| `HistoricQueue`, `EventPump` | the request queue with its consumer, and the log with its pump, under any schedule |
| `SoldOff`, `OpenRange`, `Session`, `Report`, `Chart` | the two-stage scan, the folds over minute bars, the session date, the report, the chart |

How the parts meet: `Lifecycle.RunMeetsSpec` equates the step-by-step machine with the
declarative description; `Engine.Engine.ProcessTrade` and its callers are proved to be that machine.
`Engine.Engine.RunHistoric` and `Engine.Engine.RunLiveToday` run all phases on the mutable store, from
the empty table to the report, and say what the store holds at the end as a function of the market
data alone (`WholeRun.ReplayTable`, `WholeRun.LiveTable`), and likewise what was logged
(`WholeRun.ReplayLog`, `WholeRun.LiveLog`).  What these tables hold is then said once more from
the market data, with windows, bounds and ratios written out and none of the definitions that the
methods share (`WholeRun.ReplayPicksAre`, `WholeRun.ReplayTableTells` and the other lemmas named
`...Is`, `...Are` and `...Tells`).  Each pool enters them as a function from a
question to results in some order of arrival, of which they know only that every answer is the
delivery of some schedule of some number of workers (`WorkerPool.IsPool`); `WorkerPool.PoolsExist`
shows that there is such a function.  `SessionLaws.EndedEndsWell` says that the end of a replay is
flat and that every position ended as its exit reason promises, `SessionLaws.ClosedDuringEndsWell`
what remains true when trades are still processed after the timed close.

Assumptions, all of them conditions in the contracts that need them:

- Prices, volumes and percentages are reals, so rounding does not appear.  Instants are integers:
  milliseconds in the engine, seconds in the chart, days in the session resolver.
- The session's instants are ordered: open + 1 minute <= selection <= cutoff <= exit (`Tape.ClockOk`).
- Take-profit and stop-loss fractions are positive, as `internal/config/config.go:133-138` enforces.
  The stop fraction is not capped below 1 there; the guard on a positive stop price in the code keeps
  the results true without a cap.
- The event log holds at least one event (`internal/config/config.go:161-163`).
- Watchlist symbols are distinct and not empty (`internal/watchlist/watchlist.go:25-37`).
- Where a result needs it, each symbol's accepted trades arrive in nondecreasing time order, and the
  trades that the seed counts fall before the selection.  Trades that the code rejects may carry any time.
- Filters may change between any two trades: every trade carries the filters in force when it is
  processed, and no result assumes that they stay the same.
- REST and WebSocket answers, the clock and the data probe are parameters.

## What the code does differently from what it says

- The pump delivers a session's events only until the log has overflowed: from then on its cursor
  equals the log's constant length and nothing more is handed on.  `EventPump.PumpDeliversUntilOverflow`
  gives the exact condition, `EventPump.SecondEventIsLost` a run that fails
  (`internal/server/api.go:234-245`, `internal/store/store.go:501-512`).
- The streamed and the REST opening figures need not agree when a bar has no positive open: REST skips
  such a bar, the stream counts it.  The volumes agree if and only if the skipped bars' volume is zero
  (`OpenRange.VolumeGap`); the high and the low agree if and only if no skipped bar from the first bar
  with an open on goes beyond the bars REST counts (`OpenRange.ExtremesAgreeExactly`, for positive lows).
  `OpenRange.SkippedBarCounts` and `OpenRange.SkippedBarStretches` are examples.
- The search for the previous close (`internal/server/http.go:186-213`) steps from a Sunday to the
  Saturday before and asks for it, at the cost of one of its fifteen tries (`Chart.FindPrevClose`).
- In the live loop the timed close reads a position and closes it under separate locks.  If a trade
  closes the position in between, the log holds two exits for one BUY.  Exactly when that happens is
  `EventLog.LateCloseTrail`; `RaceExample.TwoExits` is such a run.  The ticker itself ends as if the
  close had been one step (`ReplayLaws.LateCloseIsClose`).
- `RunHistoricForDate` has two branches for a replay that ends before the exit time
  (`internal/engine/historic.go:614-617` and `707-711`).  Neither can be reached, because line 602
  returns for exactly those sessions.  The model follows the reachable branch.
- Of the two loops that skip a weekend when stepping back (`internal/engine/historic.go:784-789`), the
  first, for Saturdays, never turns: the day before a weekday is never a Saturday.
  The final error says "within N days", but N counts weekdays probed.

## Model

| member | source | states |
|---|---|---|
| `Lifecycle.RunMeetsSpec` | internal/engine/engine.go:524-692 | after any number of accepted trades every field of the ticker and every event is that of the declarative description: exact VWAP, least crossing, least eligible entry, least exit trigger after it, first extremes since the entry; at most one BUY and one exit |
| `Lifecycle.StepMeetsSpec` | internal/engine/engine.go:544-663 | one more trade moves the description of a prefix to the description of the longer prefix, fields and events |
| `Lifecycle.VwapBounds` | internal/engine/engine.go:551-558 | the VWAP lies between any bounds on the prices it averages |
| `Lifecycle.VwapTestEquivalent` | internal/engine/engine.go:586-604 | testing a trade against the VWAP that includes it is testing it against the VWAP before it |
| `Lifecycle.CrossStep` | internal/engine/engine.go:586-604 | the code's cross test holds exactly if two adjacent trades step from below the VWAP to at or above it inside the cross window |
| `Lifecycle.HeldMeansCrossed` | internal/engine/engine.go:612-650 | a position is entered only at or after a recorded cross |
| `Lifecycle.BuysStep` | internal/engine/engine.go:612-650 | the code buys exactly at an eligible trade before which none was eligible |
| `Lifecycle.ExitStep` | internal/engine/engine.go:653-662 | the code closes exactly at the first trade at or beyond a level, PROFIT before STOP |
| `Lifecycle.Peak` | internal/engine/engine.go:564-574 | the first highest price since the entry |
| `Lifecycle.Trough` | internal/engine/engine.go:564-574 | the first lowest price since the entry |
| `ReplayLaws.RejectedAreInvisible` | internal/engine/engine.go:535-542 | trades outside the session or without price or size leave no trace: a tape and its accepted trades give the same ticker and events |
| `ReplayLaws.ReplayMeetsSpec` | internal/engine/engine.go:524-664 | any tape at all, from a fresh ticker, gives the description of its accepted trades |
| `ReplayLaws.RunTotals` | internal/engine/engine.go:535-562 | any tape from a fresh ticker: volume and turnover are summed over the trades with price and size from the open to five minutes after the exit time, the VWAP is their quotient, and the last price and time are those of the last such trade |
| `ReplayLaws.StepCounts` | internal/engine/engine.go:535-562 | a trade outside that window, or without price or size, leaves the ticker as it is; any other adds its size and its money |
| `ReplayLaws.LevelsMeanExit` | internal/engine/engine.go:652-663 | an open position is left by exactly those counted trades that may act and lie at or beyond a level, at their price and time and with one event; any other trade leaves it open and says nothing |
| `ReplayLaws.SeamIsInvisible` | internal/engine/engine.go:422-476 | seeding over the opening trades and stepping over the rest is stepping over everything, identical from the first accepted later trade on |
| `ReplayLaws.SeedStepAgrees` | internal/engine/engine.go:425-463 | before the selection time a seeding step records what a processed trade records, and a processed trade takes no position |
| `ReplayLaws.ActionsDoNotDisturbMarket` | internal/engine/engine.go:544-663 | VWAP, last price and first cross after a tape do not depend on filters, risk settings or permissions |
| `ReplayLaws.RunConsistent` | internal/engine/engine.go:612-663 | exited implies held implies crossed, for every run |
| `ReplayLaws.CatchUpIsPassive` | internal/engine/historic.go:477-504 | a tape none of whose trades may act opens and closes nothing and logs nothing |
| `ReplayLaws.WhatIsSetStays` | internal/engine/engine.go:666-709 | entry, exit and first-cross fields never change once set |
| `ReplayLaws.OpenMeansInsideLevels` | internal/engine/engine.go:653-687 | between trades an open position has stop < last price < target |
| `ReplayLaws.FinishedOutcome` | internal/engine/engine.go:694-729 | after the forced close every position is closed; PROFIT exactly if the return reached the target fraction, STOP exactly if it fell to the stop fraction, TIME_EXIT exactly in between |
| `ReplayLaws.FinishedBracketed` | internal/engine/engine.go:564-574 | entry, exit and last price lie between the recorded extremes |
| `ReplayLaws.CloseAnywhere` | internal/engine/engine.go:711-730 | the timed close may fall between any two trades: market data, first cross, entry and extremes come out as without it, a position it found is left for good, and the end is open exactly if nothing had been bought by then and the later trades alone leave a position open |
| `ReplayLaws.LateClose` | internal/engine/engine.go:715-728 | the same if trades fall between its reading a position and closing it, at any price: everything but the exit comes out as without it, and its own exit is the final one |
| `ReplayLaws.LateCloseIsClose` | internal/engine/engine.go:723-727 | at the price it read, such a late close leaves the ticker exactly as an immediate one would have |
| `ReplayLaws.NoLateEntry` | internal/engine/engine.go:612-618 | trades from the cutoff on buy nothing |
| `EventLog.StepTrail` | internal/engine/engine.go:666-709 | the events of a trade are exactly what it adds to the position's record |
| `EventLog.TellsAfterRun` | internal/engine/engine.go:666-709 | feeding a ticker keeps the invariant that the log holds messages, the 11AM event at most once, for every ticker of the table exactly its BUY and its exit, in order and with their times, and nothing else |
| `EventLog.TellsAfterClose` | internal/engine/engine.go:711-730 | the forced close keeps it and adds the 11AM event |
| `EventLog.LateCloseTrail` | internal/engine/engine.go:715-728 | a close that read an open position and closes it later logs its TIME_EXIT after the one BUY; there is a second exit exactly if a trade in between had exited |
| `RaceExample.TwoExits` | internal/engine/engine.go:715-728 | a concrete run: bought at 30, profit taken at 40 between the two steps of the close, and a log of BUY, PROFIT, TIME_EXIT |
| `Engine.Engine.OpenPosition` | internal/engine/engine.go:666-692 | stores the position, its levels and fresh extremes, and logs one BUY |
| `Engine.Engine.ClosePosition` | internal/engine/engine.go:694-709 | stores the exit and logs one event with its reason |
| `Engine.Engine.UpdateMarket` | internal/engine/engine.go:547-575 | the market part of a trade: sums, VWAP, previous values, extremes |
| `Engine.Engine.DetectCross` | internal/engine/engine.go:586-604 | stores the first cross and tells the caller whether there is one |
| `Engine.Engine.Act` | internal/engine/engine.go:612-663 | the early returns of the entry rules and the exit rules amount to `Tape.Acted` |
| `Engine.Engine.ProcessTrade` | internal/engine/engine.go:524-664 | table and log change by exactly one `Tape.Step` of the trade's own ticker, which adds size and money if the trade has both and lies from the open to five minutes after the exit time, and nothing otherwise; unknown symbols change nothing |
| `Engine.Engine.OnMinuteAgg` | internal/engine/engine.go:227-267 | a streamed bar of a watchlist symbol inside the window makes one streaming step, any other bar none |
| `Engine.Engine.MarkCandidates` | internal/engine/engine.go:269-300 | lists exactly the watchlist symbols whose opening figures pass, in order, and marks exactly those |
| `Engine.Engine.SelectCandidates` | internal/engine/engine.go:269-304 | the same list sorted, without repetitions for a distinct watchlist |
| `Engine.Engine.CollectOpen5mViaStream` | internal/engine/historic.go:387-412 | streamed bars of all symbols, in any interleaving, leave in the table for each watchlist symbol the fold of its own opening bars |
| `Engine.Engine.ShallowStates` | internal/engine/engine.go:377-384 | copies of the candidates' tickers, marked as tracked |
| `Engine.Engine.ApplyHistory` | internal/engine/engine.go:387-398 | history results reach their own ticker, in whatever order they arrive; failures change nothing |
| `Engine.Engine.SeedTrade` | internal/engine/engine.go:425-463 | one seeding trade is `Tape.SeedStep` |
| `Engine.Engine.SeedVwap` | internal/engine/engine.go:422-476 | the seeding loop, including an iterator that fails after some trades |
| `Engine.Engine.BuildTrackedStates` | internal/engine/engine.go:376-420 | the tracked map: copies, history, seed; the store receives the same |
| `Engine.Engine.Track` | internal/engine/engine.go:306-420 | the tracked tickers are the seeds of the selected ones, each with its own history, whatever order the pool delivers in; only messages are logged |
| `Engine.Engine.OnTrade` | internal/engine/engine.go:520-522 | a live trade is one acting step of its ticker, logs exactly what that step says, and keeps log and table in agreement |
| `Engine.Engine.ReplaySymbol` | internal/engine/historic.go:684-699 | one symbol's trades are `Tape.Run` on its ticker, whatever filter updates fall between them |
| `Engine.Engine.ReplayAll` | internal/engine/historic.go:679-702 | every tracked ticker is fed its own tape, and no other ticker changes; the events logged, but for messages, are those of one ticker after those of the other, in symbol order |
| `Engine.Engine.LiveLoop` | internal/engine/historic.go:538-571 | trades of all symbols interleaved in any way leave each ticker as if it had been fed its own trades alone; the events logged are those of each trade in order of arrival |
| `Engine.Engine.CloseAllOpenPositionsAt` | internal/engine/historic.go:896-911 | exactly the open positions of watchlist symbols are left, at the last price, or at the entry where there is none, with reason, time and badge; nothing else changes; each with one event |
| `Engine.Engine.OnElevenAM` | internal/engine/engine.go:711-730 | the same at the force-exit time, after one event of its own |
| `Engine.Engine.CollectOpen5mViaRest` | internal/engine/historic.go:874-892 | usable metrics reach their own ticker in order of arrival, unusable ones change nothing |
| `Engine.Engine.CorrectEach` | internal/engine/historic.go:315-335 | official bars replace the streamed ones, and the symbols that still pass are listed |
| `Engine.Engine.CorrectCandidates` | internal/engine/historic.go:259-338 | the same list sorted by symbol |
| `Engine.Engine.CorrectFrom` | internal/engine/historic.go:259-338 | exactly the candidates with usable official bars carry the official figures, and exactly those whose own bars pass remain |
| `Engine.Engine.LivePick` | internal/engine/historic.go:420-466 | selection and correction leave exactly the picks; the scan reads the table as it then stands |
| `Tables.LiveOneMore` | internal/engine/historic.go:538-571 | a live trade extends the tape of its own symbol and leaves every other ticker alone |
| `Tables.LateFeedIsLate` | internal/engine/historic.go:538-571 | a feed stamped from the cutoff on gives every tape such trades only |
| `Tables.PlayedTwice` | internal/engine/historic.go:477-571 | the catch-up and the live loop together feed each ticker one tape |
| `Tables.DaySaysSo` | internal/engine/historic.go:679-711 | a replay's log, exactly: each ticker's events in symbol order, the 11AM event, the timed exits in watchlist order |
| `Tables.SessionSaysSo` | internal/engine/historic.go:477-571 | the log of a session joined late, exactly: nothing for the catch-up, the events of the live trades in order of arrival, 11AM event and timed exits, the events of the trades after the close |
| `Tables.CaughtUpSaysNothing` | internal/engine/historic.go:477-504 | a replay whose trades may not act logs no event, for any tickers and tapes |
| `Tables.KnownAre` | internal/engine/engine.go:376-398 | the tracked tickers are exactly the selected ones, each with the figures of its own history, for every order of arrival |
| `Tables.CorrectionIs` | internal/engine/historic.go:315-335 | correcting in any order of arrival treats each candidate by its own bars |
| `Tables.StillPassing` | internal/engine/historic.go:330-337 | the corrected list holds exactly the candidates whose own official bars pass, each once |
| `Engine.Engine.CatchUpThenLive` | internal/engine/historic.go:477-571 | a session joined late, with the timed close after any number of its live trades: every ticker is ended by its own tapes, what is not open ended well, nothing is open if the trades after the close come from the cutoff on, and log and table agree |
| `Engine.Engine.ScanSoldOff` | internal/engine/historic.go:65-254 | both stages together: nothing for a scan ending within a minute of the open, otherwise the one sorted list of exactly the rows that qualify, for any schedules |
| `Engine.Engine.ReportOnStore` | internal/engine/historic.go:928-1150 | exactly one row for each position of the table, sound where it is closed, from the best to the worst return; exactly one entry, by symbol, for each other ticker; a summary that is that of these rows and agrees with them |
| `Engine.Engine.RunHistoric` | internal/engine/historic.go:576-724 | an uncancelled run from any store and with any pools leaves the table that the market data determine; every position is closed, bracketed and ended as its reason says; what was logged since the reset, but for messages, is nothing if nothing was tracked, otherwise exactly the events of each ticker's trades in symbol order, the 11AM event, and one TIME_EXIT for each position still open, in watchlist order; ticker by ticker these are its BUY and its exit, in the kept log too if at most MaxEvents events were logged; the report is the one for that table, every row sound, with the sold-off list |
| `Engine.Engine.RunLiveToday` | internal/engine/historic.go:344-572 | collect by stream or REST, select, correct, track, catch up, live feed with the close anywhere in it, report: the store holds exactly the picks, each ended by its own tapes, or the checked opening table if there are none; nothing is open if the trades after the close come from the cutoff on; the log, but for messages, is what each live trade says in order of arrival with the 11AM event and the timed exits in their place, and nothing for the trades caught up; report and sold-off list as for a replay |
| `SessionLaws.EndedMeetsSpec` | internal/engine/historic.go:679-711 | seed, tape and forced close give the declarative description of the accepted trades of both tapes |
| `SessionLaws.LaterTradesAct` | internal/engine/historic.go:477-571 | after an entry every trade may act, in a replay and in a session joined late |
| `SessionLaws.EndedEndsWell` | internal/engine/engine.go:711-730 | whatever the trades and filter changes, the end is flat, bracketed and as the exit reason says |
| `SessionLaws.ClosedDuringEndsWell` | internal/engine/historic.go:519-571 | with trades after the close, the end is flat, bracketed and as its reason says if and only if it is not open, and it is not open if the close found a position |
| `SessionLaws.LateTradesEndWell` | internal/engine/historic.go:519-571 | and it is not open if the trades after the close come from the cutoff on |
| `SessionLaws.LateCloseEndsWell` | internal/engine/engine.go:715-728 | a close at the price it read ends the position well even if trades fall between its two steps and take the position out before |
| `SessionLaws.SeedTells` | internal/engine/engine.go:422-476 | the seed holds the totals of its trades and takes no position; exactly a completed seed with trades hands its last price and VWAP on as the previous ones |
| `SessionLaws.TimeExitAtLastTrade` | internal/engine/engine.go:715-728 | a position left by time was left at the exit time, at the price of the last trade counted before the close |
| `SessionLaws.SessionTells` | internal/engine/historic.go:679-711 | seed, trades, close and trades after it: the totals are those of all trades, the timed exit is at the last of those before the close, and the badge says where the position stands |
| `SessionLaws.CaughtUpTakesNothing` | internal/engine/historic.go:477-504 | the trades missed before joining open, close and log nothing |
| `SessionLaws.RowsAreSound` | internal/engine/historic.go:953-1017 | every report row has MAE <= realised <= MFE, MAE <= hold <= MFE, MAE <= 0 <= MFE, and a return where its exit reason says |
| `WholeRun.TrackedExactly` | internal/engine/engine.go:306-398 | the tracked symbols and their figures are exactly those whose own bars pass, with their own history |
| `WholeRun.ReplayPicksAre` | internal/engine/engine.go:278-398 | the symbols tracked are exactly those of the watchlist whose bars are positive with minimum * open <= high - low <= maximum * open and a volume within its bounds; range * open = high - low, and today's percentage * average = 100 * volume |
| `WholeRun.RunIsExact` | internal/engine/historic.go:576-724 | the store after a run, as a function of the market data alone: every chosen symbol at its end, or the collected table if none is chosen |
| `WholeRun.ReplayTableTells` | internal/engine/historic.go:576-724 | in the store after a replay each ticker holds the totals of its own trades, and one left by time was left at the last of them |
| `WholeRun.LiveTableTells` | internal/engine/historic.go:477-571 | the same for a session joined late, with the last trade before the close |
| `WholeRun.CollectedIs` | internal/engine/historic.go:874-892 | the collected table, for every order of arrival |
| `WholeRun.CollectedTableIs` | internal/engine/historic.go:874-892 | in that table are exactly the watchlist symbols with positive open, high and low, each with its own figures and nothing else |
| `WholeRun.StreamedTableIs` | internal/engine/engine.go:227-267 | in the streamed table are exactly the watchlist symbols with a bar from 09:30 to 09:34; each has the volume of all of them, the first open, and the mark exactly if that bar came after 09:30 |
| `WholeRun.StreamedOneMore` | internal/engine/engine.go:227-267 | a streamed bar extends the fold of its own symbol and leaves every other ticker alone |
| `WholeRun.StreamMeetsRest` | internal/engine/engine.go:249-266 | a symbol whose streamed bars have positive opens enters the table as REST over the same bars would have it, but for the mark of a late start |
| `WholeRun.CorrectedExactly` | internal/engine/historic.go:420-466 | after selection and correction the tracked symbols are exactly the candidates whose official bars pass, with the official figures |
| `WholeRun.LivePicksAre` | internal/engine/historic.go:420-466 | the same for a session joined late: streamed and official bars both within those bounds, and the official figures |
| `WholeRun.CheckedIs` | internal/engine/historic.go:420-466 | and the table is the opening table with candidates marked and, where usable, corrected |
| `WholeRun.CheckedTableIs` | internal/engine/historic.go:420-466 | which means: candidates, by those bounds, are marked, and carry the official figures where all are positive, their own otherwise; no other ticker changes |
| `WholeRun.RunIsScheduleIndependent` | internal/engine/historic.go:842-891 | any two deliveries of the pools leave the same collected and the same tracked table |
| `WholeRun.CorrectionIsScheduleIndependent` | internal/engine/historic.go:276-337 | correcting candidates gives the same table and list for every schedule |
| `WorkerPool.NoSendAfterClose` | internal/engine/engine.go:329-374 | while a worker lives the results channel is open and the collector listens |
| `WorkerPool.NeverStuck` | internal/engine/engine.go:323-390 | no reachable state before the end is stuck, for any number of workers >= 1, cancelled at any moment or never |
| `WorkerPool.WindsDown` | internal/engine/engine.go:354-374 | once cancelled, the pool can come to its end without handing out another symbol |
| `WorkerPool.StepDecreases` | internal/engine/engine.go:323-390 | every step lowers a measure, cancellation included |
| `WorkerPool.SchedulesAreBounded` | internal/engine/engine.go:323-390 | a schedule has at most 3 steps a symbol, 1 a worker and 4 more |
| `WorkerPool.FinalDelivery` | internal/engine/engine.go:323-390 | at the end every goroutine has gone and exactly the symbols handed out were delivered, once each, even after a cancellation |
| `WorkerPool.UncancelledDelivery` | internal/engine/historic.go:842-891 | without cancellation every symbol yields exactly one result, its own |
| `WorkerPool.ScheduleIndependent` | internal/engine/historic.go:276-337 | table and sorted list are those of a sequential loop, for every interleaving and number of workers |
| `Fanout.CollectedAt` | internal/engine/historic.go:874-892 | each table entry after a pool depends on its own symbol's result only |
| `WorkerPool.PoolDelivers` | internal/engine/historic.go:842-891 | whatever its schedule, a pool answers with exactly one result for each symbol, its own |
| `WorkerPool.PoolsExist` | internal/engine/historic.go:842-891 | delivery in the order of the list, by a single worker, is one of the schedules |
| `Fanout.FoldOrderIndependent` | internal/engine/historic.go:315-335 | collecting distinct symbols' results commutes |
| `Fanout.ListOrderIndependent` | internal/engine/historic.go:223-250 | a list sorted without ties does not depend on the order of arrival |
| `Sorting.SortedUnique` | internal/engine/historic.go:243-248 | a total order without ties leaves one sorted arrangement |
| `Sorting.StringLeIs` | internal/engine/historic.go:80-80 | strings are ordered as prefixes, or by the first character in which they differ |
| `SoldOff.Scope` | internal/engine/historic.go:72-84 | the symbols in scope, sorted, each once |
| `SoldOff.MetricsAre` | internal/engine/historic.go:29-50 | the scan looks at exactly the watchlist tickers with all four figures; range * open = high - low |
| `SoldOff.FirstStage` | internal/engine/historic.go:147-161 | the survivors of the drop filter by symbol |
| `SoldOff.SecondStage` | internal/engine/historic.go:223-250 | the rows that pass today's volume filter, by drop and then symbol |
| `SoldOff.RowQualifies` | internal/engine/historic.go:223-241 | a row is listed exactly if its symbol passes all four tests on its own data |
| `SoldOff.PassesIs` | internal/engine/historic.go:147-241 | the row that the two stages compute for a symbol is the one whose drop and percentage, multiplied out, are as the figures say |
| `SoldOff.ScanMeetsSpec` | internal/engine/historic.go:65-254 | over the symbols in scope and over the survivors the two stages produce, without repetitions, exactly the rows that pass all four tests (drop * open = open - low, percentage * average = 100 * volume), deepest drop first, then by symbol |
| `SoldOff.ScanOutputUnique` | internal/engine/historic.go:65-254 | only one list is that output |
| `HistoricQueue.AtMostOneRun` | internal/server/api.go:281-348 | under every schedule at most one run is alive, and none after the loop has returned |
| `HistoricQueue.StartsAfterJoin` | internal/server/api.go:315-347 | a run starts only when every earlier one has been cancelled and has ended |
| `HistoricQueue.LatestWins` | internal/server/api.go:252-268 | once all calls have returned and the consumer has caught up, the last run serves a request whose call had not ended when any other call began, and it is cancelled exactly if the server is shutting down |
| `HistoricQueue.StartsTheNewest` | internal/server/api.go:315-347 | under every schedule a run is started for the newest request put so far, so what was queued meanwhile is drained first; the one exception is that some call is just replacing that request |
| `HistoricQueue.RunsInPutOrder` | internal/server/api.go:315-347 | runs serve requests in the order in which they were put, none twice |
| `HistoricQueue.SlotHoldsOne` | internal/server/api.go:252-268 | no step overwrites a queued request: it is dropped or taken before another is put |
| `HistoricQueue.OnlyHistoricRuns` | internal/server/api.go:315-318 | outside historic mode no run is ever started |
| `HistoricQueue.NoRequestLost` | internal/server/api.go:252-268 | a returned call's request is queued, in hand, given a run, or superseded by one put after that call began; the only other state is a replacement under way, and none once settled |
| `HistoricQueue.NeverStuck` | internal/server/api.go:270-348 | until it settles or stops, someone other than a new caller can move |
| `HistoricQueue.CallsNeverWait` | internal/server/api.go:252-268 | a call waits for nobody: until it has returned it can take its next step in any state |
| `HistoricQueue.StepMovesOneCall` | internal/server/api.go:252-268 | that step brings it nearer to its return, in at most four, and no step of anyone else moves it |
| `HistoricQueue.SchedulesAreBounded` | internal/server/api.go:270-348 | n calls give rise to at most 13 n + 3 steps, so the consumer does catch up |
| `Store.Store.AddEvent` | internal/store/store.go:501-512 | the new event is the last of the log, and before it stands as much of the end of the old log as MaxEvents allows |
| `Store.Store.KeepsTheNewest` | internal/store/store.go:501-512 | after any appends since the reset the log is their end, as long as MaxEvents allows |
| `Store.Store.ResetForHistoricRun` | internal/store/store.go:396-412 | a new session id, no tickers, an empty log; filters and times stay |
| `Store.Store.UpdateFilters` | internal/store/store.go:372-386 | a patch takes effect exactly if it succeeds and leaves valid filters; valid filters stay valid |
| `Store.ValidFilters` | internal/store/store.go:305-336 | valid are exactly the filters that some trade of some ticker can pass, with a positive least range and proper fractions for the sold-off scan |
| `Store.Store.UpsertTicker` | internal/store/store.go:460-469 | applies the update to the ticker, created first if missing, and to no other |
| `Store.Store.SetTrackedTickers` | internal/store/store.go:482-486 | replaces the whole table |
| `EventPump.Pump.Tick` | internal/server/api.go:223-246 | hands on exactly the snapshot's events past the resumed cursor, in order |
| `EventPump.PumpDeliversUntilOverflow` | internal/server/api.go:215-248 | after a tick the hub has the session's whole log, each event once and in order, if and only if the session has logged at most MaxEvents events; across any resets to new session ids |
| `EventPump.TickHandsOnTheEnd` | internal/server/api.go:238-245 | whatever a tick hands on is the end of what the session has logged, at most a full log |
| `EventPump.OverflowIsSilent` | internal/server/api.go:238-245 | once the cursor stands at a full log, the next event is never handed on |
| `EventPump.SecondEventIsLost` | internal/server/api.go:238-245 | a concrete run: a log of one event, two events, a tick after each, and the hub has only the first |
| `Session.HasOpen5mData` | internal/engine/historic.go:795-827 | yes exactly if one of the first eight symbols traded; an error exactly if every lookup failed |
| `Session.StepBack` | internal/engine/historic.go:783-789 | goes to the immediately preceding weekday |
| `Session.WeekdaysAre` | internal/engine/historic.go:748-789 | a day is a session exactly if it is neither a Saturday nor a Sunday, counted from Saturday, 1970-01-03 |
| `Session.ResolveSession` | internal/engine/historic.go:741-793 | the latest weekday at or before the target with data, all weekdays in between asked and empty, within the attempts allowed; a note exactly if it is not the target |
| `Session.ResolutionUnique` | internal/engine/historic.go:741-793 | those conditions leave one answer |
| `OpenRange.Open5mMetrics` | internal/engine/restshim.go:53-91 | the loop is the fold, and a failed iterator an error |
| `OpenRange.RestFoldIsExact` | internal/engine/restshim.go:63-90 | first open, true highest high, true lowest low and summed volume of the bars with an open |
| `OpenRange.ZeroLowIsForgotten` | internal/engine/restshim.go:76-83 | a low of 0 is forgotten as soon as another bar counts: the low is the least since the last 0 |
| `OpenRange.StreamAgreesWithRest` | internal/engine/engine.go:249-266 | with positive opens the streamed fold over any minutes equals the REST fold |
| `OpenRange.StreamExtremes` | internal/engine/engine.go:249-266 | from the first bar with an open on, the streamed extremes are those of all bars |
| `OpenRange.ExtremesAgreeExactly` | internal/engine/engine.go:249-266 | with positive lows, stream and REST agree on an extreme if and only if no bar that REST skips goes beyond the bars it counts, and on the open if and only if the first bar with one has a positive one; if REST has nothing, the streamed open is unusable |
| `OpenRange.SkippedBarCounts` | internal/engine/engine.go:249-266 | a concrete bar whose volume the stream counts and REST does not |
| `OpenRange.SkippedBarStretches` | internal/engine/engine.go:249-266 | concrete bars on which the volumes agree and the extremes do not |
| `OpenRange.VolumeGap` | internal/engine/engine.go:265-265 | the volumes differ by exactly the volume of the bars REST skips, so they agree if and only if it is zero |
| `OpenRange.MinLowAndLastClose` | internal/engine/restshim.go:115-150 | the first bar with the least positive low and the last positive close; available exactly if both exist and the iterator did not fail |
| `OpenRange.AvgPrevSessions` | internal/engine/engine.go:478-517 | the mean over the most recent usable days of the lookback, as many as needed or as there are; none exactly if there are none |
| `OpenRange.AverageIsMean` | internal/engine/engine.go:478-517 | the days used are usable, in order, at most as many as needed; a usable day is left out only if enough later ones were found; average * days = summed volume |
| `OpenRange.PercentMeans` | internal/engine/engine.go:347-350 | percentage * average = 100 * volume, and 0 without an average |
| `OpenRange.AverageBounds` | internal/engine/engine.go:509-517 | that mean lies between any bounds on the volumes averaged |
| `Report.AddRow` | internal/engine/historic.go:1019-1048 | one row updates all running figures |
| `Report.ScanStates` | internal/engine/historic.go:953-1080 | one pass puts each ticker in exactly one of the two lists |
| `Report.Summarise` | internal/engine/historic.go:1090-1143 | the guarded ratios of the summary |
| `Report.BuildReport` | internal/engine/historic.go:928-1150 | the lists are permutations of the rows and misses, sorted, from the best to the worst return, one entry a ticker; the summary is that of the sorted rows and agrees with them |
| `Report.SummaryAgrees` | internal/engine/historic.go:1090-1143 | the figures of a summary over rows of actual trades: worst <= net and average return <= best, the average splits by win rate, wins + losses = trades, trades + misses = candidates, net result = shares * summed gains, profit factor >= 1 exactly if the net result is not negative |
| `Report.ReportAgrees` | internal/engine/historic.go:952-1143 | all of that for the figures summed over any tickers and the sorted list returned |
| `Report.SummaryPermutes` | internal/engine/historic.go:1019-1048 | the summary does not depend on the order in which the tickers are visited |
| `Report.RowsAre` | internal/engine/historic.go:952-1017 | the rows are exactly those of the tickers with a position |
| `Report.RowsOnce` | internal/engine/historic.go:952-1017 | one row a ticker |
| `Report.MissesAre` | internal/engine/historic.go:1050-1079 | the other entries are exactly those of the tickers without one |
| `Report.MissesOnce` | internal/engine/historic.go:1050-1079 | one entry a ticker |
| `Report.RowIs` | internal/engine/historic.go:953-1017 | each field of a row from the ticker: entry, levels, exit and reason of the position, hold price the last price, extremes as recorded, last price and entry where exit or extreme are missing; each percentage * entry and each amount / 1000 is the price minus the entry; these fields determine the row |
| `Report.MissIs` | internal/engine/historic.go:1050-1079 | the figures and the first failed test of a ticker without a position determine its entry |
| `Report.CountsAre` | internal/engine/historic.go:1028-1042 | wins, losses and timed exits are how many rows have exit >= entry, exit < entry and that reason |
| `Report.RatiosAre` | internal/engine/historic.go:1090-1120 | win rate * trades = wins, net return * notional = net result, profit factor * summed falls = summed rises |
| `Report.AveragesAre` | internal/engine/historic.go:1100-1113 | each average times its count is the sum of its returns |
| `Report.NetReturnInRange` | internal/engine/historic.go:1095-1098 | the return on the notional lies between worst and best |
| `Report.AverageReturnInRange` | internal/engine/historic.go:1100-1103 | so does the average return |
| `Report.AverageSplits` | internal/engine/historic.go:1090-1113 | average return = win rate * average win + (1 - win rate) * average loss |
| `Report.ProfitFactorSign` | internal/engine/historic.go:1115-1120 | with a loss, profit factor >= 1 exactly if the net result is not negative; without one it is 999 or 0 |
| `Report.SummaryConserves` | internal/engine/historic.go:1122-1143 | wins + losses = trades, trades + misses = candidates, net result = shares * summed gains |
| `Report.SortedEnds` | internal/engine/historic.go:1082-1085 | the sorted list starts at the best and ends at the worst return |
| `Report.RowIsBracketed` | internal/engine/historic.go:953-1017 | the row of a finished position lies inside its extremes |
| `Chart.ComputeSMA9` | internal/server/web/app.js:714-728 | the sliding window gives, for each bar with nine closes since the open, their mean |
| `Chart.SmaIs` | internal/server/web/app.js:714-728 | the point of a bar is the mean of its close and the eight closes before it |
| `Chart.SinceOpenIs` | internal/server/web/app.js:719-719 | of chronological bars the indicators leave out only the one before the open |
| `Chart.ComputeVWAP` | internal/server/web/app.js:730-744 | the running sums give the volume-weighted typical price of the traded bars since the open |
| `Chart.VwapIs` | internal/server/web/app.js:730-744 | three times the point of a traded bar, times the volume so far, is the volume-weighted sum of highs, lows and closes |
| `Chart.TradedSinceAre` | internal/server/web/app.js:735-737 | the bars averaged are exactly those from the open on with a volume |
| `Chart.BuildSeries` | internal/server/web/app.js:764-783 | candles, volumes and both indicators of the bars |
| `Chart.SeriesIs` | internal/server/web/app.js:764-783 | the candles are the bars, each volume is that of its bar, and each indicator is in its place |
| `Chart.NoLookAhead` | internal/server/web/app.js:785-793 | the indicators of a prefix are a prefix of the indicators |
| `Chart.ChartBars` | internal/server/http.go:149-240 | the bars sent are strictly chronological, on whole minutes, with at most one bar before the open |
| `Chart.StampedAre` | internal/server/http.go:148-182 | a bar is sent exactly if its four prices are positive, stamped one minute a place after the open |
| `Chart.FindPrevClose` | internal/server/http.go:186-213 | the days asked are all but Sundays, coming back from the day before, at most fifteen; the result is the last sound bar of the first that has one, so of the latest weekday that has one, and none only if none of the fifteen has one |
| `Chart.PrevCloseUnique` | internal/server/http.go:186-213 | that leaves one answer |
| `Chart.ChartReply` | internal/server/http.go:149-240 | a reply exactly if the session's own bars could be fetched: these bars after that close |
| `Chart.View.Paint` | internal/server/web/app.js:785-800 | what is drawn is the series of the shown bars alone, and nothing once the chart is torn down |
| `Chart.View.Show` | internal/server/web/app.js:846-920 | loads a chart and shows the bars up to five minutes after the open; a failed or empty reply tears the chart down, and without the chart library nothing changes |
| `Chart.View.ShowNext` | internal/server/web/app.js:1831-1838 | shows exactly one bar more, if there is one |
| `Chart.View.ShowRest` | internal/server/web/app.js:1840-1860 | shows everything, the separator between the last shown and the first revealed bar |
| `Chart.InitialReveal` | internal/server/web/app.js:896-911 | on such bars the initial reveal is exactly the bars up to open + 5 minutes, at most seven |

## Left out

- Engine.Engine.LiveLoop: the timed close runs in its own goroutine in the source; here it falls between two trades (`Engine.Engine.CatchUpThenLive`), and between a close's reading and its writing only whole trades fall (`ReplayLaws.LateClose`).  The finer interleavings, a close between the separate store updates of one trade, are not modelled.
- Engine.Engine.CatchUpThenLive: a live feed that ends with an error makes the source return without closing or reporting.  `Engine.Engine.LiveLoop` says what such a feed leaves in the store up to there; the members that close and report follow feeds that last until the close.
- Engine.Engine.RunHistoric: is about runs that reach their end.  Cancellation is modelled in the pools and in the queue.  Filters change between trades, not between the phases before them.
- Engine.Engine.Emit: says only that one SYSTEM message was logged; texts, levels, ids and audio are not modelled, and neither is how many messages a phase logs.
- Waiting for the clock, the phase display, and the choice between streaming and REST by the time of day: the stream is a parameter.
- Which of a trade's three timestamps is used (internal/engine/historic.go:914-926): a tick carries the chosen one, 0 if there is none.
- Time zones, formatting and parsing of dates; a day is a number.  Floating-point rounding, NaN and infinities.
- Report.BuildReport: the date, window and share-count fields of the summary, and the order of trades with equal returns: the sort there is not stable and map order feeds it, so only sortedness and the multiset are claimed.
- The event slice is shifted in place inside its capacity; the model reassigns a sequence, so it says nothing about the memory behind it.
- REST and WebSocket clients, HTTP and SSE handlers, JSON, embedded files, watchlist and configuration loading.
- Drawing, the chart's second copy for the sold-off list, and clicks that come while a chart is still loading.
- The volume sum of one earlier session (internal/engine/restshim.go:23-50): `OpenRange.AvgPrevSessions` asks an oracle for it.
