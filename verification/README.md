# Trading platform: verified models of its stateful cores

This project models five state machines of the platform and proves what they keep over every input,
run and interleaving:

- **Backtest replay**: the bar-by-bar ledger of cash, one net position, prorated entry fees,
  protective and trailing stops, losing streaks and the equity curve, with its metrics and the
  downsampling of its curve.
- **Live candle feeds**: the publish/subscribe hub with its ring buffers, bounded queues, forced
  disconnects and grace-period teardown; the resume decision; the server session; the browser client
  that reconnects; and the tick normalizer that feeds the hub.
- **Market-data workers**: fenced leases, page preparation and saving with a resumable cursor,
  failure counting and recovery, in every interleaving of any number of workers.
- **Gap detection**: the scan for missing candles and the reconciliation of the stored gap rows.
- **Notification outbox**: retries, backoff, giving up, and passes that die before they commit.

Code that changes state in steps is a class whose methods are proved equal to functions on a value
of the whole state (`ReplayState`, `FeedHub`, `TickToCandleNormalizer`, `LeaseStore`, `PageStore`,
`ExecuteMarketDataPage`, `GapTable`, `NotificationWorker`) or a method with the loop of the source
(`FinalPoints`, `FindInternalGaps`, `ComputeMetrics`, `DownsampleEquityCurve`). The theorems are
about those functions: an invariant kept by each step, then by every run, then what it means for a
caller. Money is `real`, time is `int`, and everything the code asks of the outside (signal
generator, risk gate, market calendar, exchange responses, clocks, who is to be notified, which
sendings fail) is an arbitrary parameter.

## Main results

- Every point of a replay's equity curve, and its end, equals the initial equity plus the
  fee-inclusive profit of the recorded trades, minus the entry fees of what is held, plus its
  unrealized profit; and no fee is lost between fills and trades. A replay that ends flat earned
  exactly the reported net profit.
- A replay never looks ahead, and its result depends on old candles only through its bounded window:
  dropping old candles keeps the result while the rest of the warmup fills a window, and that
  condition is exact for the windows the signal sees (not for the result, which may ignore them).
  Every trade closes the whole holding, trades never overlap, and a trailing stop is always the
  highest price minus the trail and never falls.
- A position's stop and target stand where the bar that opened it put them until it closes, whatever
  is added, and a bar exits at the first level its finer bars hit, at a price known exactly.
- Everything the risk gate is told is what the curve, the trades and the entries on record say; lock
  releases happen exactly after unbroken crossings.
- On one feed incarnation, a client that reconnects as often as it likes receives every event once
  and in order, or is told to fill a gap; a client that follows one rule about the number it resumes
  with does so over any number of incarnations.
- A lapsed lease token never owns or commits again; a rightful owner is never refused for its
  cursor; no bar is lost between two saved pages; every job ends after a bounded number of pages and
  failures, and every scan of a subscription after a bounded number of pages; an execution lets go
  of its lease unless the database broke it.
- An outbox event is published exactly when all sendings made for it went through.
- Streaming candles equal the batch candles of the accepted ticks, and so do the finalized events a
  feed publishes for them: event by event, a feed says what its adapter reported.
- The gap scan finds exactly the missing slots; reconciliation closes a row exactly if it was filled
  or replaced, keeps one live row a key and is idempotent in every reachable table, and in a market
  that never closes its rows never overlap.

## Promises the code does not keep everywhere

Each is proved as an equivalence, or has a concrete run beside the condition that avoids it.

- **Resuming across feed incarnations** (frontend/src/features/market-data/useMarketStream.ts:131,
  app/market_data/infrastructure/stream_session.py:142-153). The comment at
  app/market_data/infrastructure/stream_protocol.py:24-26 has the client remember the greatest
  sequence it sees after the last stream state; the browser code keeps the greatest number ever
  seen. After a feed is recreated that number belongs to the old incarnation, and the next resume
  can be answered "replayed" without the events below it. The documented rule does not help: the
  server repeats the number of the request in its heartbeats, which give it back to the client.
  `UnnoticedGap` is a run that misses an event for each of the two. A run misses nothing at any
  moment if and only if every request answered "replayed" carried the number before the event
  needed next, or nothing was missing and it was not behind (`DeliveredIffReplaysAreExact`, and
  `ReplayKeepsInvExactly` for one resume). A rule that guarantees this, over any number of
  incarnations: resume only with the number of the last event received since the last answer other
  than "replayed", ignore heartbeats, and otherwise ask afresh (`CarefulClientMissesNothing`). An
  answer "fresh" counts as being told to fill a gap, as "gap fill required" does: the client knows
  that it asked without a number, and has to load what it lacks.
- **Disjoint gap rows** (app/market_data/infrastructure/candle_store.py:172-183). A gap that ends
  beyond the requested range can collide with a row beyond the range, which is not loaded:
  `RowsCanOverlap` is such a pair of runs. What runs of one series leave stays disjoint through a
  run, whatever the history, if and only if no missing bar of its range is still unfinished at a
  reopening of the market beyond the range (`CollisionIsExact`; the condition reads stored candles,
  market hours and range). So markets that never close need no condition
  (`OpenMarketStaysConsistent`), and elsewhere candles on one grid, or a last candle that closes
  inside the range, are enough (`GridOrClosedRangeDoesNotCollide`). Keys stay distinct, and a
  repeated run changes nothing, without any condition.
- **Size of a stored curve** (app/trading/application/backtest_metrics.py:164). `max_points` bounds
  every curve if and only if it is at least 4 (`BoundHoldsFromFour`).
- **Two missing counts** (app/market_data/domain/coverage.py:101-103). In a market that never closes
  they agree if and only if the candles lie on one grid, or no two neighbours are more than one bar
  apart (`MissingCountsAgreeOnAGrid`); `CountsCanDiffer` has two candles for which they do not.
- **Never notifying twice** (app/notifications/application/deliver_notifications.py:12-17). A pass
  that dies between a sending and its commit forgets it. A person is told once if a committed pass
  told them, plus once for each pass that died after telling them; so at most once if and only if
  that makes at most one (`ToldExactly`). `DyingTellsTwice` is a run that tells twice. The same
  comment says that `delivery_attempts` counts every try; the code counts failed ones only, and so
  does the model.

## Model

| member | source | states |
|---|---|---|
| BacktestFill.FillConservesValue | app/trading/application/backtest_fill.py:110-173 | In all five branches (open, increase, reduce, close, flip) the cash a fill moves equals the realized profit minus the entry cost it adds. |
| BacktestFill.LongOnlyStaysLong | app/trading/application/backtest_fill.py:120-127 | With shorting off no fill leaves a short position. |
| BacktestReplay.ReplayState.ApplyFill | app/trading/application/backtest_replay.py:242-314 | The in-place update of cash, fees, trades, streak and position is the specified one, errors included. |
| BacktestReplay.ReplayState.Step | app/trading/application/backtest_replay.py:451-593 | One bar of the loop, field by field, computes the specified next state. |
| BacktestReplay.ReplayState.CheckStops | app/trading/application/backtest_replay.py:456-482 | The finer bars are checked in order, the first hit closes the position, and a checked bar raises the trail only afterwards. |
| BacktestReplay.RunReplay | app/trading/application/backtest_replay.py:379-601 | The whole run equals the function the theorems below are about, with its argument errors and its empty result. |
| ReplayLedger.ApplyKeepsTheLedger | app/trading/application/backtest_replay.py:255-314 | No fill creates or loses money or fees: capital put in and fees paid are still accounted for. |
| ReplayLedger.ReplayIsBalanced | app/trading/application/backtest_replay.py:451-593 | At every bar of every replay cash + entry cost + open entry fees - profit of the trades is the initial equity, and trade fees + open fees are the fees of all fills. |
| ReplayLedger.EveryCurvePointIsExplained | app/trading/application/backtest_replay.py:484-485 | Each curve point is initial equity + net profit of the trades by then - open entry fees + unrealized profit. |
| ReplayLedger.EndingEquityIsExplained | app/trading/application/backtest_replay.py:595-601 | The same identity for the ending equity, and the fees of all fills are in trades or still open. |
| ReplayLedger.RecordsOnlyGrow | app/trading/application/backtest_replay.py:485 | Trades and curve of an earlier bar are prefixes of those of every later bar. |
| ReplayProperties.ProbesCloseWhole | app/trading/application/backtest_replay.py:459-482 | Checking stops either only raises a long's stop or closes the whole holding at a probe's close time. |
| ReplayProperties.SignalActs | app/trading/application/backtest_replay.py:501-593 | A signal does nothing, opens or adds without a trade, or closes the whole holding at the bar's close. |
| ReplayProperties.ExitAssumesTheLoss | app/trading/application/backtest_replay.py:317-347 | A bar whose range covers both levels hits the stop; a hit fills at the level, or at the open beyond it, for longs and shorts alike. |
| ReplayProperties.StopNeverFillsBetter | app/trading/application/backtest_replay.py:350-359 | After both slippages a stopped trade exits at its stop or worse, on either side. |
| ReplayLevels.BarsFollowSignals | app/trading/application/backtest_replay.py:501-593 | At every bar of every replay an opposing signal closes the whole holding at the close of the bar, less slippage and a fee of a thousandth where one is due, with the trade, cash and fees that follow; an approved one opens or adds the approved quantity and sets the levels of a new position; nothing else happens. |
| ReplayLevels.LevelsFollowOpening | app/trading/application/backtest_replay.py:583-593 | Whatever is held was opened by one bar from flat; its stop is the stop distance of that bar's window from the entry price on the losing side, its target that distance times the reward/risk ratio on the other, and both stay there until it is closed, also when it is added to; a long trailing stop stays that distance below the highest price since. |
| ReplayLevels.BarExitsAtFirstHit | app/trading/application/backtest_replay.py:456-482 | A bar checks the finer bars inside it, or itself, in order; the first that hits, with the stop as the ones before left it, closes the position at its time and at the level hit less both slippages, and if none hits nothing closes. |
| ReplayLevels.ExitIsExact | app/trading/application/backtest_replay.py:350-359 | The price, fee, profit and trade of a stop or target exit, with the stop slippage only on stops. |
| ReplayLevels.WindowEndsAtBar | app/trading/application/backtest_replay.py:454 | The window the signal reads ends with the bar at hand and is as long as it may be. |
| ReplayGate.GateIsToldTheRecord | app/trading/application/backtest_replay.py:519-565 | The risk gate is told the equity of the bar, its day's and week's first and its highest value since the last release, all from the curve, the losing streak since then from the trades, what is held, and the minutes since the last bar that opened or added. |
| ReplayRuns.ReplayIsSound | app/trading/application/backtest_replay.py:362-376 | In every state of every replay exit levels exist exactly while their policy holds a position, a long's trailing stop is highest price - trail, trade numbers are 1-based indexes, and nothing is short where shorting is off. |
| ReplayRuns.EveryBarClosesWholeOrNothing | app/trading/application/backtest_replay.py:302-314 | Partial reductions and flips are unreachable, and a held long's stop never falls from bar to bar. |
| ReplayRuns.TradesDoNotOverlap | app/trading/application/backtest_replay.py:277-290 | Trades are ordered in time, no two overlap, and an open position began after the last trade ended. |
| ReplayLocks.RiskMeasuresMatchHistory | app/trading/application/backtest_replay.py:194-216 | In every state the streak is that of the trades closed since the last release, the peak the highest equity since then (and zero if there was none), and the timer stands at the first bar of the current run of crossed bars: all three are functions of the trades and the curve on record. |
| ReplayLocks.LockTimerIsExact | app/trading/application/backtest_replay.py:207-212 | The timer says t exactly if a limit was crossed at every marked bar since one at t and not at the bar before it, counting from the last release. |
| ReplayLocks.ReleasedExactly | app/trading/application/backtest_replay.py:213-216 | Both measures start over exactly at the bars where a limit has been crossed at every bar since some earlier one at least the release time back. |
| ReplayLocks.RestartIsLastRelease | app/trading/application/backtest_replay.py:487-490 | The bar from which the measures count is the last at which they were released; without lock releases it is the first. |
| ReplayLocks.TopIsHighest | app/trading/application/backtest_replay.py:486 | The peak bounds every equity since the last release and is one of them, or zero before the first release. |
| ReplayLocks.MeasuresWithoutReleases | app/trading/application/backtest_replay.py:292 | Without lock releases the streak is the run of losing trades at the end of the history, and the peak the maximum of 0 and the curve. |
| ReplayRuns.WindowsMatchHistory | app/trading/application/backtest_replay.py:492-499 | The day's and week's starting equities the gate sees are those of the first bar of the running day and week. |
| ReplayComparisons.NoLookAhead | app/trading/application/backtest_replay.py:395-401 | Two series that agree on their first k candles give equal curves for those bars and the same trades by then, for every signal, gate and policy. |
| ReplayComparisons.PrefixRunIsAPrefix | app/trading/application/backtest_replay.py:451-593 | The replay of a prefix yields a prefix of the trades and of the curve. |
| ReplayComparisons.OldHistoryDoesNotMatter | app/trading/application/backtest_replay.py:403-408 | Dropping old candles and lowering the warmup by as many changes nothing in the result while the rest of the warmup fills a window. |
| ReplayComparisons.WindowSurvivesExactly | app/trading/application/backtest_replay.py:454 | That condition is exact for the windows handed to the signal; that the result is unchanged is the one-way statement above. |
| ReplayComparisons.ReplayFailsOnlyOnInputs | app/trading/application/backtest_replay.py:438-441 | If the gate denies shorts from flat, a replay raises only for its arguments, an exchange without fee rule, or a fill price at or below zero. |
| BacktestMetrics.ComputeMetrics | app/trading/application/backtest_metrics.py:84-119 | Gross profit and gross loss are the sums of the winning and losing trades and net profit their difference, the sum over all; rates satisfy their defining products; the drawdowns are the largest fall, and the largest fall relative to the peak before it, of the equity path. |
| BacktestMetrics.Drawdown | app/trading/application/backtest_metrics.py:97-105 | The running maximum equals the maximum of e_i - e_j over all i <= j. |
| BacktestMetrics.FlatReplayEarnsItsNetPnl | app/trading/application/backtest_metrics.py:91 | A replay that ends flat has ending equity - initial equity = net profit. |
| BacktestMetrics.DownsampleEquityCurve | app/trading/application/backtest_metrics.py:161-179 | The dictionary filled bucket by bucket yields the specified points. |
| BacktestMetrics.DownsamplingKeepsOrderAndEnds | app/trading/application/backtest_metrics.py:164-166 | The result is a subsequence by index and keeps the first and last point. |
| BacktestMetrics.DownsamplingKeepsExtremes | app/trading/application/backtest_metrics.py:168-178 | For every point the lowest and the highest of its bucket of consecutive points are in the result. |
| BacktestMetrics.BucketSizeIsLeast | app/trading/application/backtest_metrics.py:166-167 | The buckets are the smallest of which (max_points - 2) / 2, at least one, hold the whole curve. |
| BacktestMetrics.DownsamplingBracketsPoint | app/trading/application/backtest_metrics.py:164-166 | No point of the curve lies below or above everything kept, so global minimum and maximum survive. |
| BacktestMetrics.BoundHoldsFromFour | app/trading/application/backtest_metrics.py:169 | The size bound holds for every curve exactly from four points on. |
| CandleStream.FeedHub.FanOut | app/market_data/infrastructure/candle_stream.py:360-374 | An event is appended to the ring buffer and offered to every subscriber; a full queue ends up holding only the overflow sentinel. |
| CandleStream.FeedHub.AddSubscriber | app/market_data/infrastructure/candle_stream.py:247-269 | Subscribing starts the feed or calls off its teardown, and hands out the ring buffer of that moment; a starter that raises leaves the hub as it was. |
| CandleStream.FeedHub.Start | app/market_data/infrastructure/candle_stream.py:278-300 | What a starter reports while starting is published, and a starter that raises leaves no feed. |
| CandleStream.FeedHub.RemoveSubscriber | app/market_data/infrastructure/candle_stream.py:391-399 | The last subscriber to leave schedules one teardown. |
| CandleStream.FeedHub.Teardown | app/market_data/infrastructure/candle_stream.py:401-414 | A teardown removes a feed without subscribers and stops its worker, and nothing else. |
| FeedLifecycle.ReachableHubIsOrderly | app/market_data/infrastructure/candle_stream.py:247-300 | In every reachable hub state feeds and running workers correspond one to one, a teardown is pending exactly for the feeds without subscribers, and no worker was stopped twice or runs after being stopped. |
| FeedLifecycle.StepKeepsOrderly | app/market_data/infrastructure/candle_stream.py:391-414 | Each hub operation keeps that order, including resubscribing within the grace period and starters that raise. |
| FeedLifecycle.TeardownAlwaysFinishes | app/market_data/infrastructure/candle_stream.py:406-414 | A teardown that wakes always finds its feed registered and empty: its guard is never needed. |
| FeedLifecycle.StoppedOnlyWithItsFeed | app/market_data/infrastructure/candle_stream.py:409-414 | A worker is stopped only in the step that unregisters its feed. |
| FeedReports.EventsAreReports | app/market_data/infrastructure/candle_stream.py:302-358 | Over any run and all incarnations, event k of a feed tells the k-th report the feed accepted: finalized exactly for a final candle, provisional exactly for another, both with its time and values, a gap notice with its code exactly for a failure; and the feed is in the state the last report means. |
| FeedReports.FinalizedEventsAreBatchCandles | app/market_data/infrastructure/oanda_stream.py:262-277 | If the candles a feed was reported are those of the worker's loop over some ticks, its finalized events are the batch candles of those ticks, in order, none missing but the newest. |
| FeedReports.QueuesMove | app/market_data/infrastructure/candle_stream.py:360-389 | A report appends its event to the queue of a subscriber, or replaces the queue by the overflow sentinel, exactly if it was full; nothing else but the reader touches it. |
| StreamProtocol.ResumeIsExact | app/market_data/infrastructure/stream_protocol.py:143-160 | Gap fill is demanded exactly when the buffer no longer covers the next event, with nothing replayed; a replay delivers exactly what is missing if and only if the remembered number is the one before it, or nothing is missing and it is not behind. |
| StreamProtocol.RingPush | app/market_data/infrastructure/candle_stream.py:284 | The ring buffer always holds the newest min(n, size) events. |
| StreamDelivery.PublishKeeps | app/market_data/infrastructure/candle_stream.py:302-389 | After every publication the ring buffer is the newest part of the history, and every queue is its newest part or headed by the overflow sentinel. |
| StreamDelivery.HubKeepsFeedTrue | app/market_data/infrastructure/candle_stream.py:247-414 | The same over every hub event, including feeds removed and created again. |
| StreamDeliveryProofs.PumpKeepsInv | app/market_data/infrastructure/stream_session.py:197-216 | What the pump has sent and what still waits in the queue always make up exactly what the client lacks. |
| StreamDeliveryProofs.NoticeKeepsInv | app/market_data/infrastructure/stream_session.py:142-157 | A fresh or gap-fill connection continues from exactly where the feed was when it subscribed. |
| StreamDeliveryProofs.FreshClientGetsTheRing | app/market_data/infrastructure/stream_protocol.py:136-149 | A connection is answered "fresh" exactly if the client has no number or no feed, and then brings it everything the feed still holds; one told to fill its gap is sent nothing. |
| StreamDeliveryProofs.ReplayKeepsInvExactly | app/market_data/infrastructure/stream_session.py:142-165 | A resume answered "replayed" brings the client up to date without gap or duplicate if and only if the number sent was exact, over all feed incarnations. |
| StreamDeliveryProofs.StepKeepsInv | frontend/src/features/market-data/useMarketStream.ts:108-135 | Every step (hub event, connect, pump, heartbeat, receipt, server stop, disconnect) keeps delivery contiguous and the remembered number right on one incarnation. |
| StreamDeliveryProofs.DeliveredExactlyOnce | app/market_data/infrastructure/stream_protocol.py:129-160 | On one feed incarnation, over any interleaving and any number of reconnects, at every moment the client has received a contiguous piece of the published history since it was last told to start over, everything it received if it was told so once, and everything published once its connection has drained. |
| StreamDeliveryProofs.DeliveredIffReplaysAreExact | frontend/src/features/market-data/useMarketStream.ts:131 | Across incarnations, and whatever number the client resumes with, the same holds at every moment of a run if and only if every request answered "replayed" carried an exact number. |
| StreamDeliveryProofs.CarefulClientMissesNothing | frontend/src/features/market-data/useMarketStream.ts:101-131 | A client that resumes only with the number of the last event received since it was last told to start over, and otherwise asks afresh, misses nothing in any run over any number of incarnations. |
| StreamResumeGap.UnnoticedGap | app/market_data/infrastructure/stream_session.py:142-153 | A run across two incarnations after which a client told "replayed", with nothing in flight, lacks an event no message announced: the shipped client because it never lowers its number, the documented one because a heartbeat returns it. |
| TickCandles.TickToCandleNormalizer.Add | app/market_data/infrastructure/oanda_stream.py:174-189 | One tick updates the mutable bucket and yields the specified updates. |
| TickCandles.RunWorker | app/market_data/infrastructure/oanda_stream.py:262-277 | The worker loop publishes exactly the updates of its ticks, in order. |
| TickCandles.StreamingRefinesBatch | app/market_data/infrastructure/oanda_stream.py:129-202 | For any ticks in any order, final updates are the batch OHLC and tick count of the accepted ticks of their bucket, in strictly increasing order, none missing but the newest bucket, whose batch candle is the latest provisional update. |
| TickCandles.BucketHoldsItsTick | app/market_data/infrastructure/oanda_stream.py:191-194 | A tick lies in its bucket, except exactly when a fraction before the epoch is cut off towards a bucket boundary. |
| Leases.LeaseStore.TryClaim | app/market_data/infrastructure/leases.py:79-131 | A claim takes a free or expired lease for a due, active target only, after charging the interruption; an invalid lease rolls back. |
| Leases.LeaseStore.RecoverLease | app/market_data/infrastructure/leases.py:190-226 | An expired lease is charged to its active target, with the retry delay and the stop at three failures, and freed. |
| Leases.LeaseStore.RecoverExpired | app/market_data/infrastructure/leases.py:175-188 | The batch holds the leases that expired first, up to the limit, all of them if fewer; each is recovered at its own reading of the clock, and all or none are. |
| Leases.LeaseStore.Begin | app/market_data/infrastructure/leases.py:160-171 | A guarded write opens only for the owner of an unexpired lease, on an active target at the cursor of the claim. |
| WorkOutcomes.ClaimIsGivenExactly | app/market_data/infrastructure/leases.py:79-131 | A claim is given exactly for a target that is found, active and due, on a lease that is free or expired on another row; a queued job then runs, one attempt further, and the claim holds the lease for the lease time. |
| WorkOutcomes.HeartbeatExtends | app/market_data/infrastructure/leases.py:133-140 | A heartbeat gives its holder a whole lease time from now, and changes nothing for anyone else. |
| WorkOutcomes.InterruptionIsCharged | app/market_data/infrastructure/leases.py:190-226 | Recovering a lease charges its active target one failure and a wait of 30 or 120 seconds and up to 5 more, stops it with the third, and frees the lease. |
| WorkerSafety.StepKeepsInv | app/market_data/infrastructure/leases.py:79-226 | Every transaction keeps leases whole, owned leases in agreement with their rows and prepared pages, and rows within their constraints. |
| WorkerFencing.LeaseIsWhole | alembic/versions/20260831_0005_market_data_leases.py:28-32 | In every reachable state the six owner fields are all null or all set, and the lease ends after its last heartbeat. |
| WorkerFencing.OneOwnerPerFeed | app/market_data/infrastructure/leases.py:271-281 | Two claims that both own a feed are the same claim, whatever their kind of work. |
| WorkerFencing.OneFeedPerToken | app/market_data/infrastructure/leases.py:114-117 | A token owns at most one feed. |
| WorkerFencing.GuardFailsOnlyWithoutOwnership | app/market_data/infrastructure/leases.py:160-170 | For an owner the stored cursor always equals the claim's, so a guarded write is refused exactly when ownership is gone or the target was stopped. |
| WorkerFencing.LapsedTokenNeverCommits | app/market_data/infrastructure/leases.py:133-173 | Over any run, a token that no longer owns its lease never owns it again and none of its writes go through. |
| WorkerFencing.InterruptedTargetWaits | app/market_data/infrastructure/leases.py:105-112 | A claim that finds its target's lease expired charges the interruption, frees the lease and leaves without the target. |
| Pages.FinalPoints | app/market_data/infrastructure/pages.py:38-62 | It fails exactly on points without zone, invalid eligible candles or conflicting duplicates; otherwise it keeps each eligible candle once, by open time, and nothing else. |
| Pages.PageStore.PreparePage | app/market_data/infrastructure/pages.py:105-142 | The page and the checkpoint are the specified ones, and a failed preparation changes nothing. |
| Pages.PageStore.SavePage | app/market_data/infrastructure/pages.py:144-187 | Cursor, counters and schedule move together with the freed lease, or nothing changes; what is kept are the final points. |
| Pages.PageStore.CompleteJob | app/market_data/infrastructure/pages.py:189-216 | Only a backfill is completed, by its owner and with unchanged access. |
| Pages.PageStore.FailPage | app/market_data/infrastructure/pages.py:218-243 | A failure is counted and scheduled, or stops the target when it is final or the third. |
| WorkOutcomes.SaveGoesThroughExactly | app/market_data/infrastructure/pages.py:144-147 | A page is saved exactly if its response is usable, its claim owns the lease with the row where it was, and the access is found unchanged; changed access is its own error. |
| WorkOutcomes.SavedJobGoesOn | app/market_data/infrastructure/pages.py:166-183 | A saved page of a job leaves its cursor at the end of the page, no failures, due at once, and the lease free. |
| WorkOutcomes.CompletionGoesThroughExactly | app/market_data/infrastructure/pages.py:189-206 | A job is completed exactly under the same conditions, and then has succeeded. |
| WorkOutcomes.FailureIsCharged | app/market_data/infrastructure/pages.py:218-243 | A failed page is counted with its code, waits the larger of 30 or 120 seconds and what the exchange asked for, and goes on exactly if the failure may be retried and is not the third. |
| ScanProgress.SavingEndsTheScan | app/market_data/infrastructure/pages.py:166-187 | In every reachable state a saved page of a subscription takes its checkpoint away exactly if it reaches the end of the scan, and then the row is due after its poll interval with its success time set; otherwise it stands at the end of the page, in the same scan, due at once. |
| ScanProgress.PreparingBeginsTheScan | app/market_data/infrastructure/pages.py:111-142 | Without a checkpoint a preparation begins a scan that ends at its own clock, from the newest stored candle or two bars back; with one it continues it; one bar of overlap unless nothing is stored. |
| ScanProgress.ScansEnd | app/market_data/infrastructure/pages.py:134-141 | Over any run the pages of one scan all have the end it began with, and there are at most range / ((size - 1) * bar) + 1 of them from one exchange. |
| ScanProgress.ScanHasNoHole | app/market_data/infrastructure/pages.py:134-141 | Over any run every moment between the start of a scan and the end of its last page lies in a saved page. |
| PageExecution.ExecuteMarketDataPage.Execute | app/market_data/application/execute_page.py:22-52 | The sequence of store calls, with the claim rebound after preparation and each exception handled, has the specified effect and outcome; a database error in any call, with or without a commit, ends it without another. |
| PageExecution.OutcomeFollowsItsCause | app/market_data/application/execute_page.py:23-52 | An undisturbed execution ends cancelled exactly if interrupted, failed if the exchange failed or the response was unusable unless the lease was lost, and saved or completed exactly if the write went through. |
| PageExecution.ErrorsAreFinal | app/market_data/infrastructure/page_errors.py:29-39 | An error of the application stops the target at once; a lost lease changes no target. |
| PageExecution.ExecutionLetsGo | app/market_data/application/execute_page.py:37-52 | After an execution its claim holds the lease if and only if it held on to it before and the execution ended in a database error of a call that was rolled back, or of the preparation. |
| PageExecution.OutcomeTellsProgress | app/market_data/application/execute_page.py:22-52 | The cursor of a job advances exactly if the outcome is saved, a failure is counted exactly if it is failed, and a discarded or cancelled execution leaves the job as it was; after a database error everything is as before, or as the execution would have left it without the error. |
| WorkerRuns.ClaimStepIsClaim | app/market_data/infrastructure/leases.py:105-112 | A claim with inline recovery is a recovery followed by a take, in one transaction. |
| WorkerProgress.NothingLostBeforeCursor | app/market_data/infrastructure/pages.py:134-141 | For every job in every reachable state each bar between the start of its range and its cursor lies inside one saved page, also where it straddles a page end, and was kept if that page's response held it, final and observed after its close. |
| WorkerProgress.SucceededMeansComplete | app/market_data/application/execute_page.py:26-28 | A job succeeds only with its cursor at the end of its range. |
| WorkerProgress.JobsEnd | app/market_data/infrastructure/pages.py:132-141 | Over any run the pages of a job but the last advance by less than its range, each by its own size less one bar, so a job whose pages come from one exchange has at most ceil(range / ((size - 1) * bar)) of them, with the size of that exchange; and at most two failures a page and three more are charged to it. |
| WorkerProgress.EndedClaimProgresses | app/market_data/infrastructure/leases.py:204-218 | A claim on an active job that ends otherwise than by release leaves less to fetch, as much with one attempt fewer, or a stopped job. |
| Coverage.FindInternalGaps | app/market_data/domain/coverage.py:27-66 | The nested loops produce the specified windows. |
| Coverage.GapScanIsExact | app/market_data/domain/coverage.py:33-41 | A slot lies in a window exactly if it is an expected, unstored slot between two consecutive stored candles; windows are in order and disjoint, each missing_count its length in slots. |
| Coverage.PairGapsAreMaximal | app/market_data/domain/coverage.py:42-65 | Between two stored neighbours no window can be extended on either side. |
| MissingCounts.MissingCountsAgreeOnAGrid | app/market_data/domain/coverage.py:101-103 | The scan's total equals the closed form exactly if the open times lie on one grid or no two neighbours are more than one bar apart. |
| MissingCounts.CountsCanDiffer | app/market_data/domain/coverage.py:101-103 | For open times 0 and 15 and bars of ten the scan counts one missing bar and the closed form none. |
| GapStore.GapIsFilled | app/market_data/infrastructure/candle_store.py:223-238 | The loop with its counters decides as specified. |
| GapStore.FilledMeansEveryExpectedSlotIsStored | app/market_data/infrastructure/candle_store.py:229-238 | A row counts as filled exactly if it expects some slot and every expected slot is stored. |
| GapStore.GapTable.PersistInternalGaps | app/market_data/infrastructure/candle_store.py:139-220 | The loops over existing rows and found gaps leave exactly the reconciled rows. |
| GapOutcomes.RunSettlesRow | app/market_data/infrastructure/candle_store.py:189-207 | In any table with distinct keys a run resolves a row exactly if it is loaded, its window is not found again, and it overlaps a gap found or expects some slot and has every expected slot stored in the range; every other row keeps its status and resolution time, and its counts unless its gap is found again. |
| GapOutcomes.AddedRowsAreOpen | app/market_data/infrastructure/candle_store.py:208-220 | The rows a run adds are open rows of found gaps whose window no loaded row has. |
| GapOutcomes.ResolvedForAReason | app/market_data/infrastructure/candle_store.py:189-201 | Over any history a resolved row was filled or replaced at the run that resolved it. |
| GapHistories.KeysStayDistinct | app/market_data/infrastructure/candle_store.py:162-187 | Over any sequence of runs and of rows being ignored, whatever the ranges, candles and bar lengths, no two live rows share a key. |
| GapHistories.SecondRunChangesNothing | app/market_data/infrastructure/candle_store.py:139-220 | In every reachable table a second run on unchanged candles changes no row, whenever it happens. |
| GapHistories.TableStaysConsistent | app/market_data/infrastructure/candle_store.py:189-219 | Over any sequence of runs that do not collide, of any ranges, with candles added in between and rows ignored, live rows stay proper and pairwise disjoint. |
| GapHistories.CollisionIsExact | app/market_data/infrastructure/candle_store.py:172-183 | Every history of a series leaves a table that stays consistent through a run, if and only if no missing bar of its range is unfinished at a reopening beyond the range. |
| GapHistories.RowsCanOverlap | app/market_data/infrastructure/candle_store.py:172-183 | Two runs of one series after which two open rows overlap. |
| GapHistories.OpenMarketStaysConsistent | app/market_data/infrastructure/candle_store.py:139-220 | In a market that never closes live rows stay disjoint over any sequence of runs. |
| GapHistories.GridOrClosedRangeDoesNotCollide | app/market_data/infrastructure/candle_store.py:159-172 | Candles of the range on one grid, or a last one that closes inside it, rule a collision out. |
| GapRuns.EveryGapHasItsRow | app/market_data/infrastructure/candle_store.py:202-219 | After a run every gap found has a live row with its key and counts. |
| GapHistories.OnlyItsOwnRowOverlapsAGap | app/market_data/infrastructure/candle_store.py:189-201 | After a run that does not collide no other live row overlaps a gap just found. |
| Outbox.NotificationWorker.DeliverPending | app/notifications/application/deliver_notifications.py:117-201 | The nested loops over events and recipients have the specified effect on events, notifications and sendings, and return the specified count. |
| OutboxOutcomes.PassSettlesEvents | app/notifications/application/deliver_notifications.py:128-200 | Every event of a committed pass that has a system event is published at the time of the pass exactly if each sending made for it went through; otherwise it has one attempt more and is abandoned with the fifth, with a new pending give-up event unless it is one, or due again after 60, 120, 240 or 480 seconds. Sendings go to those owed one and to all of them not reached before. |
| OutboxOutcomes.PassRecordsSendings | app/notifications/application/deliver_notifications.py:149-184 | Each notification after a pass is what its sendings made of it: untouched without one, sent at the time of the pass if one went through, else failed, each failure counted. |
| OutboxOutcomes.AttemptsAreFailures | app/notifications/application/deliver_notifications.py:170-184 | In every reachable state a notification exists exactly for whom a committed pass tried to tell, and its attempts are the tries that failed. |
| OutboxRuns.ProcessedAreKnown | app/notifications/application/deliver_notifications.py:117-139 | The number a pass returns is that of the events of its batch that have a system event, whether or not anyone was told. |
| OutboxRuns.PublishedReachedEveryone | app/notifications/application/deliver_notifications.py:144-156 | In every reachable state a published event has reached every recipient on a channel with an adapter. |
| OutboxRuns.ToldExactly | app/notifications/application/deliver_notifications.py:155-184 | In every run a recipient is told successfully once if a committed pass told them, which is exactly if that is stored, plus once for each pass that died after telling them; so at most once if and only if these make at most one. |
| OutboxRuns.DyingTellsTwice | app/notifications/application/deliver_notifications.py:170-200 | One pass that dies between a sending and the commit is enough to tell the same person twice. |
| OutboxRuns.GivenUpOnce | app/notifications/application/deliver_notifications.py:76-77 | Attempts never exceed MAX_ATTEMPTS, a pending event has one left, at most one give-up event is about an event, only about one abandoned, and never about a give-up event. |
| OutboxRuns.GivingUpIsAnnounced | app/notifications/application/deliver_notifications.py:186-191 | An event that failed MAX_ATTEMPTS times has its give-up event, unless it is one. |

## Left out

- Locks, isolation, timeouts and lock waits of the database: each transaction is one atomic step, and one that does not get its locks is a step that does not happen.
- Deleting rows, editing a job's range, changing poll intervals, and the one-off normalization of legacy jobs (app/market_data/infrastructure/normalize.py:21-58), which only requeues jobs without a checkpoint.
- The risk gate and the stop distance of a replay: arbitrary pure functions. `ReplayFailsOnlyOnInputs` takes the gate to deny a sell from flat where shorting is off.
- Rounding of decimals, and time zones: money is exact, days and weeks are those of UTC, the market calendar is an arbitrary predicate.
- Non-finite prices in ticks and replays; in page responses they are modelled, because they are checked there.
- Feeds and queues are values inside the hub's map rather than shared objects; nothing outside the hub changes them, so aliasing plays no part, but the model does not show that.
- Event ids, workspace ids and sources on events, JSON encoding, tickets, close codes, logging, audit rows and stop notices.
- The REST calls by which a client fills a gap it was told of.
- Tearing down feeds with a worker that fails while stopping; `stop` is taken to return.
- The upsert of accepted candles, the progress report of a job and its malformed forms, and its final validation result.
- `classify_candle_coverage` beyond its closed-form missing count: its status and range checks are one expression each.
- The order in which the outbox query breaks ties, and rows held by another worker: a pass takes any batch of due events in due order.
- `compare_to_baseline` and the builders of dictionaries, stored runs and summaries: restatements of their fields.
- StreamDeliveryProofs.DeliveredExactlyOnce: is about the shipped client on one feed incarnation; over several it fails (`UnnoticedGap`), `DeliveredIffReplaysAreExact` says exactly when, and `CarefulClientMissesNothing` how a client avoids it.
- ReplayRuns.TradesDoNotOverlap: takes candles, and the finer bars inside them, to be in time order, as the replay asks of its callers.
- GapHistories.TableStaysConsistent: takes the runs not to collide, because otherwise it fails (`CollisionIsExact`); bar length and market hours of a series are fixed, and stored final candles are never deleted, as nothing in the repository deletes them.
- ScanProgress.ScanHasNoHole: is about moments. That a bar across the end of a page lies whole in the next page is proved over runs for jobs (`NothingLostBeforeCursor`), and for subscriptions page by page (`PreparingBeginsTheScan`).
