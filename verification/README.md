# Mercury: a verified model of the trading core

Mercury scans market structure, turns it into signals, sizes and executes them against a broker,
reconciles two stores that must agree, replays history in a backtest, sends notifications and guards
the way a strategy takes to live trading. This project models that behaviour in Dafny and proves what
the code is relied on for, or exactly when it can be: nothing looks ahead, nothing repaints, no money
appears or vanishes, stops do not loosen, caps and retry limits hold under every interleaving, caches
are invisible.

Code that changes state step by step is a `class` or a `method` with loops, proved equal to a function
of the old state; the theorems are lemmas about those functions, over every input, every run and every
interleaving, and beside them stand lemmas that say what each operation means in prices, bars, fields and
steps (TrendlineMeaning, SnapshotMeaning, IctSteps, IctTargets, SafetyMeaning, BrokerMeaning,
LedgerMeaning, BacktestMeaning, NotificationResults). Arithmetic is exact (`real`); NaN and Python's
`None` are `Option`; exceptions are `Result` values. `dafny verify dfyconfig.toml` checks everything.

## How the files fit together

| file | content |
|---|---|
| Prelude | shared types, candles, rounding to cents |
| Indicators, Structure, MarketStructure, Levels, Trendlines, TrendlineMeaning, TrendlineSearch, OrderBlocks | the market-structure scans, their closed forms, what the searches find |
| IctSnapshot, IctTracker, IctAttempts, IctReplay | the ICT strategy: higher-timeframe snapshots, the M5 state machine, its runs and attempts, the replay |
| IctSignals, IctSteps, IctTargets, SnapshotMeaning, SignalWitness | the provenance of signals, what one evaluation does exactly, the targets and the snapshots in terms of candles, a run that gives a signal |
| IctCache, CacheTransparency, SlidingWindow | the snapshot cache, when it is invisible, and calls on which it is not |
| TrendConfluence, SafetyMeaning, LineCacheTransparency, StaleLines | the safety line, in terms of its swings, and its line cache, when that is invisible, and calls on which it is not |
| PaperBroker, BrokerMeaning, Ledger, LedgerMeaning, Ticks, TickAborts, Execution | the broker and its exits in quotes and fields, the operations on broker and trade table between two awaits, a tick as a run of them and where it ends early, the service step by step |
| LedgerInvariants, LedgerConservation, TicketSupply | what every run of the service keeps, interrupted and aborted ones included |
| LedgerStops, StopAgreement, BrokerStops | the stops of the table, of both stores and of the broker, and exactly which steps loosen one |
| Reconciliation, OrphanAlerts, OrphanStays | what a pass achieves, and how often an orphan is alerted |
| LedgerWitnesses | runs from a fresh start that show the awaits and faults |
| PositionGuard, KillSwitch | database protocols as steps of any number of workers |
| Backtest, BacktestMeaning, Metrics | the simulated walk of a trade, in bars and money, its loss bound, the reported drawdown |
| Notifications, NotificationResults, TelegramNotifier | the send queue as a protocol, which result each notification gets, and the notifier object that follows it |
| Sizing, Promotion | position sizes; the promotion lifecycle and its audit log |

## What the proofs show about the code

Where a promised property does not hold on all inputs, the code is modelled as it is, an input that
breaks the property is exhibited, and the exact condition is proved.

- `atr` writes past the end of its output for 2 to 13 candles (period 14) and raises IndexError, so
  `detect_opposite_bos`, which only refuses fewer than 10 candles, raises for 10 to 13, and the
  trendline lookup, which refuses fewer than 8, raises for 8 to 13 (`MarketStructure.OppositeBos`,
  `TrendConfluence.LinesOf`). The code is followed, not its length guards. A record that has 10 to 13
  candles since its opening and is managed up to its structure exit therefore ends every tick: later
  records, safety lines and the account event are skipped (`TickAborts.YoungRecordEndsTick`).
- The single trendline score orders lines by touches and then by last touch only over 1000 bars. The
  search picks a line that none beats exactly when there are at most 1003 candles or the recency
  window is at most 1000 bars; beyond both, lows and swings are exhibited on which it settles for two
  touches although a line with three qualifies (`TrendlineSearch.SearchIsLexicographicIff`,
  `TrendlineSearch.SearchIsBeaten`).
- The snapshot cache is keyed by the last H1 candle's time alone. Over any sequence of calls it is
  invisible exactly while each call agrees with the last one that ran on the snapshots both need
  (`CacheTransparency.TransparentIff`), as on a provider that only appends. The service's provider
  returns the newest rows: once the oldest falls out, a call is handed a bullish snapshot where its
  own history shows no structure (`SlidingWindow.NewestRowsAreStale`). Likewise the line cache: signal
  building is handed a support line that its own rows no longer hold
  (`LineCacheTransparency.TransparentIff`, `StaleLines.NewestRowsKeepOldLine`). Live trailing makes a
  new strategy object for each record, so its cache is empty.
- A monitor tick awaits after each record and each booking. Quotes and signals run in between, and a
  step that raises ends the tick, so a close can be at the broker and not yet in the table
  (`LedgerWitnesses.PendingIsReachable`). The books are kept at each of these points, and a finished
  pass leaves no close pending (`LedgerConservation.FinishedPassBooksAll`).
- A stop is moved at the broker first and then in the table. The two agree throughout a run exactly
  when no such write is lost (`StopAgreement.StopsAgree`). After a lost trail the next one, measured
  against the table, can take the broker's stop down (`LedgerWitnesses.LostWriteLoosens`); a lost
  breakeven move does no harm. Over any run the broker's stops tighten exactly when no step is a trail
  behind a lost one or a first breakeven move of an unprotected record
  (`BrokerStops.BrokerRatchetIff`).
- A pass remembers its orphans as reported before it publishes them. An orphan that is gone never
  returns, so it is alerted at most once, and exactly once when the pass that first sees it comes to
  its end; otherwise its alert is lost (`OrphanStays.AlertedOnceIff`,
  `LedgerWitnesses.AlertCanBeLost`).
- The cap on open positions holds for a set of signals over all interleavings exactly when the guard
  row serialises them: the database honours row locks, or they share one process
  (`PositionGuard.CapIff`). On SQLite, which ignores FOR UPDATE, two processes can exceed it.
- A trade row that violates the schema (say, an unknown signal id) is rolled back after the order was
  sent, and the second attempt sends another order: two positions and no record. A signal sends at
  most one order exactly when its row can be stored, whatever the initial state
  (`PositionGuard.OneOrderIffStorable`, `Reconciliation.UnstorableOrderLeavesOrphans`).
- The RuntimeError of the kill switch cannot be reached. But an expiry check reads in one transaction
  and disarms in another: an arming call in between is undone. Arming calls hold exactly when no
  check finds the stored switch due (`KillSwitch.ArmsSurviveIff`).
- The move to breakeven tightens the stop exactly when the stop was on the protective side; a record
  with an unprotected stop is loosened by it, in a world that is reached from a fresh start
  (`LedgerStops.BreakevenTightensIff`, `LedgerWitnesses.BreakevenCanLoosen`). Over any run the stops
  of the table tighten exactly when no such move reaches it without a booked structure exit
  (`LedgerStops.TableRatchetIff`).
- A backtest trade stays within its risk budget on every bar series exactly when the target is not
  beyond the stop on the losing side, or the entry already gapped through the stop; in that case the
  trade leaves at the stop on its first bar, at a profit (`Backtest.BracketBudgetIff`,
  `Backtest.GapEntryStopsAtOnce`).
- A run of the backtest holds at most one trade, because the open trade is set after its close and
  never cleared, and the reported drawdown ignores losses that no profit precedes: it is right exactly
  when a drop from a point in profit covers each of them. Together, a run always reports a drawdown of
  zero (`Metrics.DrawdownIff`, `Metrics.BacktestDrawdown`).
- Sized volumes are rounded to cents after the step rounding, so the stop of every accepted size
  stays within the risk amount exactly when the lot step is a whole number of cents
  (`Sizing.SizingSafeIff`).
- `start` during a running `close` replaces the queue; what was in it is never resolved. That is the
  only way a notification is lost: after a finished close everything accepted is resolved exactly when
  no `start` found a closed notifier with items still queued (`Notifications.LosesNothingIff`,
  `Notifications.ClosedResolvesAllIff`).
- Promotion reads the stage in one transaction and writes it in another. Over any interleaving every
  audit log is a chain exactly when each write found the stage its call had read
  (`Promotion.AuditIsChain`). The live guard means a standing approval at each point exactly when no
  move between the approved stages is written for a strategy that has left them in the meantime
  (`Promotion.GuardMeansApprovalIff`); a demotion overtaken by a reset is such a write
  (`Promotion.OvertakenDemotion`), two overlapping promotions to paper are not
  (`Promotion.BrokenChainCanBeHarmless`).

## Model

| member | source | states |
|---|---|---|
| Indicators.Sma | src/mercury/services/strategy/indicators.py:27-36 | The two running sums give, at each full window, the mean of the values present in it, NaN when there is none and before the first full window |
| Indicators.Atr | src/mercury/services/strategy/indicators.py:92-110 | The loop computes Wilder's smoothing seeded with the plain mean, as the recurrence below states it; below two candles all NaN, below one period IndexError |
| Indicators.AtrRecurrence | src/mercury/services/strategy/indicators.py:92-110 | Over the array: none before the period; the first value times the period is the sum of the first ranges; each later one times the period is the one before times one less plus its range, the largest of high-low and both distances to the previous close |
| Indicators.AtrRaisesIff | src/mercury/services/strategy/indicators.py:92-110 | It raises exactly from two candles to one fewer than the period; below two every value is NaN |
| Indicators.AtrCausal | src/mercury/services/strategy/indicators.py:92-110 | The ATR of a prefix is the prefix of the ATR: no value depends on a later candle |
| Indicators.AtrBounds | src/mercury/services/strategy/indicators.py:92-110 | Every ATR value lies between the bounds of the true ranges seen so far |
| Indicators.AtrNonNegative | src/mercury/services/strategy/indicators.py:92-110 | On valid candles no ATR value is negative |
| Indicators.MeanAtrNonNegative | src/mercury/services/strategy/ict.py:84-87 | The mean ATR that scales every tolerance is never negative |
| Indicators.NanMeanIs | src/mercury/services/strategy/ict.py:84-87 | The mean times the number of finite values is their sum; without any it is one |
| Structure.FractalSwings | src/mercury/services/strategy/indicators.py:116-137 | The loop returns, in index order, the five-bar fractals tall enough for their ATR |
| Structure.SwingsArePivots | src/mercury/services/strategy/indicators.py:116-149 | After the split, each side holds exactly the qualifying bars, ascending, each at its own extreme |
| Structure.SwingHighIff | src/mercury/services/strategy/indicators.py:116-137 | A bar is a swing high if and only if its high is above those of the two bars on either side and stands above every low of the five by the multiple of its ATR |
| Structure.SwingLowIff | src/mercury/services/strategy/indicators.py:116-137 | A bar is a swing low if and only if its low is below those of its neighbours and every high of the five stands above it by that multiple |
| Structure.SplitSwings | src/mercury/services/strategy/indicators.py:140-149 | The split returns the pivots of each kind in order |
| Structure.Admit | src/mercury/services/strategy/indicators.py:164-169 | The pointer loop admits exactly the pivots confirmed two candles back and leaves the reference at the furthest confirmed pivot or later close |
| Structure.DetectBos | src/mercury/services/strategy/indicators.py:152-178 | The two-pointer scan returns the events of the pointwise definition |
| Structure.BosClosedForm | src/mercury/services/strategy/indicators.py:152-178 | An event of a side occurs at a bar if and only if its close is beyond every confirmed swing and every close since the first confirmation; its level is the furthest of those |
| Structure.BreakIff | src/mercury/services/strategy/indicators.py:152-178 | Bull: the close is above every swing high confirmed two bars earlier and every close since the first was confirmed; bear: below every such low and close |
| Structure.BosLevelsAdvance | src/mercury/services/strategy/indicators.py:152-178 | Broken levels of one side strictly advance: bull levels rise, bear levels fall |
| MarketStructure.NoRepaint | src/mercury/services/strategy/indicators.py:116-178 | Swings and breaks of the first k candles are exactly the full history's events below k |
| MarketStructure.OneEventPerBar | src/mercury/services/strategy/indicators.py:126-177 | On valid candles no bar breaks both sides; event bars strictly increase |
| MarketStructure.DetectOppositeBos | src/mercury/services/strategy/indicators.py:416-448 | The single-sided scan without moving references returns the first event of the opposite side that the full detector reports, and raises where the ATR raises |
| MarketStructure.OppositeBosIsFirst | src/mercury/services/strategy/indicators.py:416-448 | The result is the first bar at which the closed form of the opposite side holds, and absent only if it never holds |
| MarketStructure.LongLeavesBelow | src/mercury/services/strategy/indicators.py:416-448 | A long leaves at the first close below every confirmed swing low and every close since the first confirmation |
| MarketStructure.ShortLeavesAbove | src/mercury/services/strategy/indicators.py:416-448 | A short leaves at the first close above every confirmed swing high and every close since |
| MarketStructure.OppositeBosRaisesIff | src/mercury/services/strategy/indicators.py:416-448 | The search raises exactly on ten to thirteen candles and finds nothing in fewer than ten |
| MarketStructure.OppositeBosStable | src/mercury/services/strategy/indicators.py:416-448 | An early exit once seen does not move when candles are added |
| Levels.ClusterLevels | src/mercury/services/strategy/indicators.py:181-191 | The loop over the sorted levels builds the greedy clusters |
| Levels.ClustersPartition | src/mercury/services/strategy/indicators.py:181-191 | The clusters are a partition of the input multiset, none empty, none wider than the tolerance |
| Levels.ClustersAreGreedy | src/mercury/services/strategy/indicators.py:181-191 | Laid end to end the clusters ascend; each reaches from its first level to the tolerance above it, and the next begins beyond that |
| Levels.ClustersFewest | src/mercury/services/strategy/indicators.py:181-191 | No partition into groups of spread at most the tolerance has fewer groups |
| Trendlines.CountTouches | src/mercury/services/strategy/indicators.py:304-311 | The loop counts the wicks within tolerance of the line and finds the last of them |
| TrendlineMeaning.TouchesAre | src/mercury/services/strategy/indicators.py:304-311 | The touches are the number of bars whose wick is within the tolerance of the straight line through the two anchors, the last touch the greatest of them |
| Trendlines.DetectTrendlines | src/mercury/services/strategy/indicators.py:254-331 | The pair search returns at most one best line for each kind |
| TrendlineMeaning.CandidateIff | src/mercury/services/strategy/indicators.py:287-327 | A pair of swings qualifies if and only if it rises (support) or falls (resistance), enough wicks are near its line and one of those is recent; the values of its line lie on the straight line |
| TrendlineMeaning.SearchedIs | src/mercury/services/strategy/indicators.py:254-301 | The search is over as many of the last swings as configured; its lines are the best of either kind, none below eight bars |
| TrendlineSearch.DetectedIsFirstBest | src/mercury/services/strategy/indicators.py:287-331 | The detected line is the first, in the order of the loops, of the qualifying lines with the highest score; none is returned only if none qualifies |
| TrendlineSearch.ScoreIsLexicographicIff | src/mercury/services/strategy/indicators.py:316-327 | For lines with a last touch inside the history and the window, the score orders by touches, then last touch, exactly when there are at most 1000 candles or the window is at most 1000 bars |
| TrendlineSearch.DetectedIsBest | src/mercury/services/strategy/indicators.py:287-331 | With a window of at most 1000 bars, or at most 1003 candles, no qualifying line has more touches than the detected one, or as many and a later last one |
| TrendlineSearch.SearchIsBeaten | src/mercury/services/strategy/indicators.py:287-331 | Lows and swings on which the search returns a line with two touches although one with three qualifies, for every longer history and window |
| TrendlineSearch.SearchIsLexicographicIff | src/mercury/services/strategy/indicators.py:287-331 | Over all histories of a length, the search picks an unbeaten line exactly when the length is at most 1003 or the window at most 1000 bars |
| Trendlines.ChainTrendlines | src/mercury/services/strategy/indicators.py:334-413 | The walk over neighbouring swings returns the chained segments of both kinds |
| Trendlines.SegmentIff | src/mercury/services/strategy/indicators.py:377-413 | Two neighbours carry a segment if and only if it trends, is unviolated between them and touched often enough; its last touch is its end anchor |
| TrendlineMeaning.SegmentExactlyWhen | src/mercury/services/strategy/indicators.py:377-413 | Two neighbours carry a segment exactly when it trends, no wick between them is beyond the tolerance on the wrong side of the straight line, and enough are near it |
| Trendlines.ChainIsExact | src/mercury/services/strategy/indicators.py:370-413 | The chain is exactly the valid segments between consecutive swings, in order and without overlap |
| TrendlineMeaning.ChainedAre | src/mercury/services/strategy/indicators.py:334-413 | The chains are those of the swing lows and of the swing highs, in this order; below eight bars there are none |
| OrderBlocks.DetectOrderBlocks | src/mercury/services/strategy/indicators.py:194-240 | The scan with running body averages returns the blocks of the pointwise definition |
| OrderBlocks.LastOppositeIs | src/mercury/services/strategy/indicators.py:221-228 | The backward search finds the last opposite-coloured candle of the window, if there is one |
| OrderBlocks.BlocksAreGenuine | src/mercury/services/strategy/indicators.py:194-240 | A block is reported if and only if it is the last opposite-coloured candle in the lookback before a displacement: a body of at least the multiple of the average body before it, leaving a gap |
| OrderBlocks.BlocksInOrder | src/mercury/services/strategy/indicators.py:194-240 | The blocks come in the order of their displacements, one for each |
| OrderBlocks.MitigatedIff | src/mercury/services/strategy/indicators.py:243-251 | A block stands while no close at or after the given bar is below its low (bull) or above its high (bear) |
| IctSnapshot.PivotsInRange | src/mercury/services/strategy/ict.py:133-150 | The swings a snapshot is built from lie on their own candles' wicks, as the level and line searches assume |
| IctSnapshot.SnapshotLinesAreBest | src/mercury/services/strategy/ict.py:133-189 | No qualifying line of the prefix beats the support line and the resistance line that a snapshot carries |
| SnapshotMeaning.H1SnapshotIs | src/mercury/services/strategy/ict.py:133-189 | An H1 snapshot takes forty candles; its bias is the side of the last break, its blocks are exactly the genuine ones of a side that no later close has broken, in order, its mean that of the finite ATRs |
| SnapshotMeaning.H1PoolsAre | src/mercury/services/strategy/ict.py:104-131 | The pools of a side are exactly the swings that are neither the extreme of their day nor near a round number, and the means of the clusters of at least two equal swings |
| SnapshotMeaning.H4SnapshotIs | src/mercury/services/strategy/ict.py:192-205 | An H4 snapshot takes twenty candles; its bias is the side of the last break |
| SnapshotMeaning.SwingsAre | src/mercury/services/strategy/ict.py:144-147 | The swings of a snapshot are the five-bar extremes that stand out by the multiple of the fourteen-candle ATR |
| IctTracker.M5Tracker.constructor | src/mercury/services/strategy/ict.py:223-234 | A new tracker is the fresh state |
| IctTracker.M5Tracker.AdvanceCandle | src/mercury/services/strategy/ict.py:237-251 | One candle takes the object through structure, expiry, sweep, confirmation and invalidation, in this order, and returns the signals in order |
| IctTracker.M5Tracker.StructureStep | src/mercury/services/strategy/ict.py:253-283 | Today's extremes, the window and the target levels after the candle |
| IctTracker.M5Tracker.TargetStep | src/mercury/services/strategy/ict.py:266-283 | A fractal becomes a target unless excluded, and again as an equal level when it matches the one before |
| IctTargets.TargetsAre | src/mercury/services/strategy/ict.py:253-283 | Over any stream an evaluation adds to the targets of a side exactly the liquid five-candle extreme that its candle completes, and once more the further of two equal ones |
| IctTargets.RoundNumberIff | src/mercury/services/strategy/ict.py:97-100 | A level is near the nearest multiple of the step exactly when it is near any |
| IctTracker.M5Tracker.ConsumeAttempt | src/mercury/services/strategy/ict.py:289-291 | One attempt more for the direction and the rounded level, nothing else changes |
| IctTracker.M5Tracker.ExpireStep | src/mercury/services/strategy/ict.py:293-298 | A stale active setup is retired and its attempt consumed |
| IctTracker.M5Tracker.SweepStep | src/mercury/services/strategy/ict.py:300-326 | A sweep opens a setup on the nearest swept pool if none is active and an attempt is left |
| IctTracker.M5Tracker.ConfirmStep | src/mercury/services/strategy/ict.py:328-353 | A confirmation retires the setup, consumes its attempt and yields its signal, if one can be built |
| IctTracker.M5Tracker.InvalidateStep | src/mercury/services/strategy/ict.py:382-389 | A close through the level retires the setup |
| IctSteps.OpenedIff | src/mercury/services/strategy/ict.py:300-326 | A setup opens if and only if none is active, a pool was wicked through and closed back over within reach, and the level nearest to the close has an attempt left |
| IctSteps.SignalIff | src/mercury/services/strategy/ict.py:237-251 | An evaluation gives exactly the signals of the setups in force, the fresh active one or the one its sweep opens, that its candle confirms; out of session none |
| IctSteps.StaysActiveIff | src/mercury/services/strategy/ict.py:293-389 | A setup is active afterwards exactly when it was in force, nothing confirmed it and the close did not go through its level |
| IctSteps.OutOfSessionKeeps | src/mercury/services/strategy/ict.py:242-246 | Out of session setups and attempts stay as they are and no signal is given |
| IctAttempts.AttemptsConserved | src/mercury/services/strategy/ict.py:285-389 | Over any stream: for every direction and rounded level, setups opened equal attempts consumed plus the active setup, at most the maximum, and each signal consumed its own attempt |
| IctAttempts.SignalsPerLevelBounded | src/mercury/services/strategy/ict.py:285-353 | No level gives more signals than the maximum of attempts |
| IctSignals.NearestIsExtreme | src/mercury/services/strategy/ict.py:304-326 | The level a sweep takes is a swept pool, and no swept pool is nearer to the close |
| IctSignals.BuiltIsSane | src/mercury/services/strategy/ict.py:489-542 | A built signal has its stop behind the edge by the buffer, the nearest target ahead and the reward as their ratio, at least the configured one; after rounding both are on the right sides of its price |
| IctSteps.BuiltIff | src/mercury/services/strategy/ict.py:489-542 | A confirmed setup gives a signal exactly when its stop is protective and the nearest target pays the configured reward, and then the one that says so |
| IctSignals.TakeProfitIsNearest | src/mercury/services/strategy/ict.py:500-509 | The take-profit is a target recorded since the sweep and ahead of the entry, and no such target is nearer; there is none only if none lies ahead |
| IctSignals.PlusOneIff | src/mercury/services/strategy/ict.py:355-380 | What confirms a level is the first order block that reaches it, else a trendline within one and a half ATRs, else both biases, and nothing only if there is none of these |
| IctSignals.SignalsConfirmSweeps | src/mercury/services/strategy/ict.py:220-389 | Every signal of a run is given in session for a level swept within the lookback and freshness windows that no close in session has broken since, on evidence that its close cleared, with the stop behind it and the nearest of the recorded targets |
| SignalWitness.StreamGivesSignal | src/mercury/services/strategy/ict.py:220-389 | Five candles, a high, a swept low and a turned bias, give exactly one signal, and it confirms that sweep |
| IctSignals.ReplayIsRun | src/mercury/services/strategy/ict.py:431-468 | A replay is a run of the tracker over the candles that have both snapshots |
| IctSignals.GeneratedSignals | src/mercury/services/strategy/ict.py:416-468 | The provenance and the bound for each level hold of everything the strategy generates |
| IctSignals.SizedSignalsAreProtective | src/mercury/services/risk/service.py:309-314 | A generated signal that is given a size has its stop strictly on the protective side |
| IctReplay.BisectRight | src/mercury/services/strategy/ict.py:452-468 | The halving search counts the candles that opened at or before a time |
| IctReplay.OpenedByIff | src/mercury/services/strategy/ict.py:452-468 | The cut-off takes exactly the candles that opened at or before it |
| IctReplay.TickIs | src/mercury/services/strategy/ict.py:431-468 | An evaluation sees the ATR at its candle and the snapshots of the hours and four hours that have closed when it opens; there is none without both |
| IctReplay.GeneratedOn | src/mercury/services/strategy/ict.py:416-468 | From 100 M5, 40 H1 and 20 H4 candles on, what is generated are exactly the signals given on some evaluation; with fewer, nothing |
| IctReplay.NoLookahead | src/mercury/services/strategy/ict.py:416-468 | Extending the M5 history and adding H1 and H4 candles that had not closed leaves the earlier signals a prefix of the new ones |
| IctCache.IctStrategy.constructor | src/mercury/services/strategy/ict.py:399-405 | A new strategy has an empty snapshot cache |
| IctCache.IctStrategy.SnapshotOf | src/mercury/services/strategy/ict.py:470-487 | For any cache: the snapshot cached under the last candle's time, whatever history it came from, else the one of the prefix, which is then cached |
| IctCache.IctStrategy.Run | src/mercury/services/strategy/ict.py:431-468 | For any cache: looking up only when a candle has closed gives the signals of a lookup at every candle, and eviction leaves exactly the snapshots this run used |
| IctCache.IctStrategy.GenerateSignals | src/mercury/services/strategy/ict.py:416-429 | For any cache and provider: the signals of that replay and the cache for the next call, with the length guards |
| CacheTransparency.NextSeesOwnIff | src/mercury/services/strategy/ict.py:431-487 | After a call that saw its own snapshots, the next one does exactly when both histories give the same wherever both need one |
| CacheTransparency.TransparentIff | src/mercury/services/strategy/ict.py:416-487 | Over any sequence of calls on any provider: all are handed their own snapshots throughout exactly when each agrees with the last call that ran before it |
| CacheTransparency.AppendingIsConsistent | src/mercury/services/strategy/ict.py:416-487 | A provider that only appends meets that condition |
| CacheTransparency.GenerateRepeatedly | src/mercury/services/strategy/ict.py:416-487 | Any sequence of calls on the strategy object gives the replays with the caches in between; on a consistent one, the signals of recomputing |
| CacheTransparency.HandedTheOther | src/mercury/services/strategy/ict.py:470-487 | Where two calls differ on a snapshot both need, the second is handed the first one's |
| SlidingWindow.NewestRowsAreStale | src/mercury/services/strategy/engine.py:33-39 | Two calls on the newest 61 rows: the second is handed a bullish snapshot, its own history has no structure |
| TrendConfluence.TrendConfluenceStrategy.constructor | src/mercury/services/strategy/trend_confluence.py:67-72 | A new strategy has an empty line cache |
| TrendConfluence.TrendConfluenceStrategy.LinesAsOf | src/mercury/services/strategy/trend_confluence.py:84-114 | For any cache: the lines cached under the last closed row's time, whatever rows they came from, else those of the closed rows, which are then cached |
| TrendConfluence.TrendConfluenceStrategy.ComputeLines | src/mercury/services/strategy/trend_confluence.py:97-114 | The swing, ATR and chain steps give the lines of the rows, or raise for 8 to 13 rows |
| TrendConfluence.TrendConfluenceStrategy.SafetyValue | src/mercury/services/strategy/trend_confluence.py:136-145 | For any cache: the newest line of the wanted kind among the lines handed out, at their last index, and the cache for the next call |
| TrendConfluence.SafetyLineIsNewest | src/mercury/services/strategy/trend_confluence.py:56-60 | The line a position trails is the valid segment between consecutive swings that ends last; there is none only if no segment is valid |
| SafetyMeaning.SafetyIs | src/mercury/services/strategy/trend_confluence.py:84-145 | The safety value is the straight line through the two swings of that segment, carried on to the last closed bar; none below eight rows, an exception from eight to thirteen |
| LineCacheTransparency.TransparentIff | src/mercury/services/strategy/trend_confluence.py:84-114 | Over any sequence of calls: all are handed the lines of their own rows exactly when each agrees with every earlier call that found lines at the same last closed row |
| LineCacheTransparency.AppendingIsConsistent | src/mercury/services/strategy/trend_confluence.py:84-114 | A provider that only appends meets that condition |
| LineCacheTransparency.SafetyRepeatedly | src/mercury/services/strategy/trend_confluence.py:84-145 | Any sequence of calls gives the memoised values; on a consistent one, the recomputed ones |
| StaleLines.NewestRowsKeepOldLine | src/mercury/services/strategy/trend_confluence.py:172-176 | On the newest 24 rows of two calls, the lines handed out for the second hold a support line, those of its own rows hold none; an object so reused also trails it |
| PaperBroker.PaperBrokerAdapter.constructor | src/mercury/services/execution/broker.py:309-316 | An empty book with the starting balance |
| PaperBroker.PaperBrokerAdapter.OpenMarketOrder | src/mercury/services/execution/broker.py:341-358 | A fill at the rounded price under a new ticket, or nothing without a price or a connection |
| PaperBroker.PaperBrokerAdapter.CloseTrade | src/mercury/services/execution/broker.py:371-382 | The position leaves the book, its profit enters the balance once; without position or price nothing changes |
| PaperBroker.PaperBrokerAdapter.ModifyStop | src/mercury/services/execution/broker.py:384-392 | Only the stop of the named position changes |
| PaperBroker.PaperBrokerAdapter.Settle | src/mercury/services/execution/broker.py:421-440 | Balance and history grow by the one trade |
| PaperBroker.PaperBrokerAdapter.CheckExits | src/mercury/services/execution/broker.py:397-418 | The loop settles exactly the positions whose target or stop is met, as the next row states it, and keeps the rest |
| BrokerMeaning.ExitIff | src/mercury/services/execution/broker.py:397-419 | A position stays if and only if neither a long's ask is at its target nor its bid at its stop, a short's the other way round; what is settled are exactly the others, at the target if that is met and else at the stop, with that reason and profit |
| BrokerMeaning.CloseIs | src/mercury/services/execution/broker.py:421-440 | A close takes out the one position, books its trade and moves the balance by its profit: a long earns what the price rises, a short what it falls |
| BrokerMeaning.LastPriceIs | src/mercury/services/execution/broker.py:449-457 | The middle of a two-sided quote, the one side of another, no price without a quote |
| BrokerMeaning.EquityIs | src/mercury/services/execution/broker.py:328-335 | The equity is the balance plus the profit of every open position at its last price, unknown exactly when one has none |
| PaperBroker.ExitsPartition | src/mercury/services/execution/broker.py:397-418 | Each ticket is kept or closed by an evaluation, never both, never lost |
| PaperBroker.ExitsKeep | src/mercury/services/execution/broker.py:397-440 | An evaluation keeps every ticket's number of issues and the balance equation |
| PaperBroker.CloseKeeps | src/mercury/services/execution/broker.py:371-382 | So does a close |
| PaperBroker.StopKeeps | src/mercury/services/execution/broker.py:384-392 | So does a moved stop |
| PaperBroker.PaperBrokerAdapter.AccountEquity | src/mercury/services/execution/broker.py:328-335 | The loop gives the balance plus the unrealised profit, and nothing once a position has no price |
| PaperBroker.ClosingConservesEquity | src/mercury/services/execution/broker.py:328-335 | Closing at the current price does not move the account equity |
| Execution.ExecutionService.constructor | src/mercury/services/execution/service.py:33-43 | A process starts with an empty book and the rows that earlier ones left |
| Execution.ExecutionService.OnQuote | src/mercury/services/execution/service.py:107-111 | The quote reaches service and broker and nothing else |
| Execution.ExecutionService.OnSignalApproved | src/mercury/services/execution/service.py:173-252 | Count check, order and insert with the one retry, as one operation on both stores |
| LedgerMeaning.ApproveIff | src/mercury/services/execution/service.py:173-234 | A position opens if and only if fewer records are OPEN than the limit, or there is none, and the symbol has a price; one position and its record, or two positions and none |
| LedgerMeaning.LimitHolds | src/mercury/services/execution/service.py:173-181 | Over any run of the service the OPEN records stay within the limit |
| Execution.ExecutionService.SettleTrade | src/mercury/services/execution/service.py:631-655 | Only a row still OPEN under the ticket is booked, once, with one event |
| LedgerMeaning.SettleIs | src/mercury/services/execution/service.py:631-655 | Exactly the first OPEN row under the ticket is closed, with the price, reason and profit of the trade and the profit in units of its risk |
| Execution.ExecutionService.BeginReconcile | src/mercury/services/execution/service.py:300-314 | A pass reads positions and records; its orphans are reported from now on, at startup for the gate as well |
| LedgerMeaning.BeginIs | src/mercury/services/execution/service.py:284-326 | The orphans are the positions without an OPEN record; all are reported from then on, the new ones to be alerted, and the startup gate remembers each |
| LedgerMeaning.EndIs | src/mercury/services/execution/service.py:322-335 | A pass ends by forgetting reported tickets that are no orphans and raises one alert if anything is new |
| Execution.ExecutionService.ResolveOne | src/mercury/services/execution/service.py:362-398 | A missing record is settled from what history holds by now, or flagged for manual review |
| LedgerMeaning.ResolveIs | src/mercury/services/execution/service.py:362-398 | A record whose ticket was not live is settled from the first trade that history has for it and flagged if there is none; every other record is left alone |
| Execution.ExecutionService.ResolveStep | src/mercury/services/execution/service.py:318-323 | One iteration of the pass, unless its write raises |
| Execution.ExecutionService.ResolveEach | src/mercury/services/execution/service.py:316-323 | The records in order, with quotes and signals handled at each await, up to one that raises |
| Execution.ExecutionService.EndReconcile | src/mercury/services/execution/service.py:325-334 | Reports of orphans that went away are dropped and one alert is published, if there is anything to say |
| Execution.ExecutionService.ReconcileWithBroker | src/mercury/services/execution/service.py:284-334 | A whole pass, interrupted or aborted, is its run of steps; an abort publishes nothing |
| Execution.ExecutionService.Await | src/mercury/services/execution/service.py:107-124 | What is handled during an await is a run of quotes and approved signals |
| Execution.ExecutionService.SettleStep | src/mercury/services/execution/service.py:412-414 | One booking of a trade the broker closed, unless it raises |
| Execution.ExecutionService.SettleEach | src/mercury/services/execution/service.py:412-414 | The closed trades are booked in order, with quotes and signals in between, up to one that raises |
| Execution.ExecutionService.CheckAndSettle | src/mercury/services/execution/service.py:400-423 | Exits at the broker in one step, then the bookings |
| Execution.ExecutionService.MoveStopTo | src/mercury/services/execution/service.py:448-461 | The broker takes the new stop, then the table, unless that write raises |
| Execution.ExecutionService.CloseTo | src/mercury/services/execution/service.py:463-475 | The close at the broker is booked in the table, unless that raises |
| Execution.ExecutionService.ManageIctPositions | src/mercury/services/execution/service.py:426-475 | Breakeven and structure exit, record by record, with quotes and signals in between, up to one that raises, in a write, in a booking or in the structure search itself |
| Execution.ExecutionService.IctStep | src/mercury/services/execution/service.py:436-475 | One record: skipped without risk, moved to breakeven once due, then searched for an opposite break on its candles, which raises for 10 to 13 of them, and closed on one |
| LedgerMeaning.IctRowIs | src/mercury/services/execution/service.py:426-476 | The stop goes to the rounded entry, once, when the price has gone the configured multiple of the risk; under early exit a structure break closes the trade at its candle |
| LedgerMeaning.IctStepIs | src/mercury/services/execution/service.py:455-476 | Only under early exit a break is searched, among the candles since opening and against the direction |
| Ticks.BreakCloseIs | src/mercury/services/execution/service.py:591-607 | The close of the candle that breaks structure; none below ten candles, an exception from ten to thirteen |
| Execution.ExecutionService.OppositeBosClose | src/mercury/services/execution/service.py:591-607 | The close of the first candle since the opening that broke structure against the trade, or the exception of the search |
| Execution.ExecutionService.ManageTrendlinePositions | src/mercury/services/execution/service.py:478-541 | Safety-line exit and trail, record by record, with quotes and signals in between, up to one that raises |
| Execution.ExecutionService.LineStep | src/mercury/services/execution/service.py:488-541 | One record: closed beyond the line, else trailed only if that tightens |
| LedgerMeaning.LineRowIs | src/mercury/services/execution/service.py:478-541 | A close beyond the line ends the trade at it; otherwise the stop goes behind the line by the buffer when that tightens it, or when there was none |
| Execution.ExecutionService.ReconcilePositionsStep | src/mercury/services/execution/service.py:400-423 | Nothing happens without an open ticketed record; otherwise exits, then both managements; an exception ends it |
| Execution.ExecutionService.Tick | src/mercury/services/execution/service.py:272-282 | A monitor tick is its run of steps, with the account event at its end unless a step raises, and keeps the books |
| Ticks.QuietTickIs | src/mercury/services/execution/service.py:272-282 | A tick that nothing disturbs reconciles every record, then evaluates the exits, books each, goes through all records for breakeven and then for the safety line, and publishes the equity |
| Ticks.IdleTickIs | src/mercury/services/execution/service.py:400-410 | Without an open record that has a ticket the tick only reconciles and publishes the equity |
| TickAborts.YoungRecordEndsLoop | src/mercury/services/execution/service.py:426-475 | Whatever the rows before it do and whatever is handled in between, a managed record with 10 to 13 candles ends the loop, at the latest by raising itself |
| TickAborts.YoungRecordEndsTick | src/mercury/services/execution/service.py:272-282 | A tick that comes to its management with such a record manages no later record and no safety line and publishes no account event |
| LedgerInvariants.RunKeeps | src/mercury/services/execution/service.py:107-655 | In every reachable state, at every await and after every fault: tickets live or closed once, balance equals start plus closed profit, a live position's record is OPEN and agrees with it, a closed trade's record is OPEN or booked with exactly that close |
| LedgerInvariants.StartKeeps | src/mercury/services/execution/service.py:64-100 | A starting process satisfies all of that whatever rows it finds |
| LedgerInvariants.ResolveKeeps | src/mercury/services/execution/service.py:362-398 | Resolving one record in the middle of a pass keeps the books, although positions and table moved since the pass read them |
| StopAgreement.StopsAgree | src/mercury/services/execution/service.py:448-541 | Over any run the stop of a record and that of its position agree throughout exactly when no moved stop failed to reach the table |
| BrokerStops.BrokerRatchetIff | src/mercury/services/execution/service.py:448-541 | Over any run no step loosens a stop at the broker exactly when none is a trail behind one that was lost to the table, or a breakeven move of an unprotected record whose stop the broker has not at the entry already, on a position that stays open |
| BrokerStops.BrokerStopsNeverLoosen | src/mercury/services/execution/service.py:448-541 | With breakeven-managed orders filled on the protective side and no trail lost, no stop at the broker loosens, whatever breakeven writes are lost |
| LedgerInvariants.MoveStopKeeps | src/mercury/services/execution/broker.py:384-392 | Moving the stop of one record keeps the books, because no two share a ticket, even when the table does not take it |
| TicketSupply.FreshDrawsAllowed | src/mercury/services/execution/broker.py:341-358 | Drawing unused tickets without repeats is all a run needs to keep the books |
| TicketSupply.GoneForGood | src/mercury/services/execution/broker.py:341-382 | A position that is gone never comes back under its ticket |
| LedgerStops.BreakevenTightensIff | src/mercury/services/execution/service.py:448-461 | The move to breakeven tightens exactly when the stop was protective |
| LedgerStops.TableRatchetIff | src/mercury/services/execution/service.py:426-541 | Over any run no step loosens an open stop of the table or rewrites or reopens a finished record exactly when none is a breakeven move of an unprotected record that reaches the table without a booked structure exit |
| LedgerStops.StopsNeverLoosen | src/mercury/services/execution/service.py:426-541 | In particular over any run with breakeven-managed orders filled on the protective side |
| LedgerWitnesses.BreakevenCanLoosen | src/mercury/services/execution/service.py:448-461 | Without that: a run from a fresh start to a world in which the move to breakeven takes a stop from 105 down to 100 |
| LedgerWitnesses.LostWriteLoosens | src/mercury/services/execution/service.py:519-541 | A run on which a trailed stop is lost to the table and the next trail loosens the broker's stop |
| LedgerWitnesses.PendingIsReachable | src/mercury/services/execution/service.py:411-414 | A run from a fresh start after which a close of -10 is in the balance and its record is still OPEN |
| LedgerConservation.LedgerConserved | src/mercury/services/execution/broker.py:397-440 | At every await and after every fault: balance minus start equals the profit booked in the table for this broker's closes, plus that of closes with a record still OPEN, plus that of orphans |
| LedgerConservation.FinishedPassBooksAll | src/mercury/services/execution/service.py:284-334 | A pass that comes to its end leaves no close pending, whatever was handled while it waited |
| LedgerConservation.BookedOnce | src/mercury/services/execution/service.py:631-655 | The table books each close exactly once with its own profit |
| LedgerConservation.ProfitSplits | src/mercury/services/execution/service.py:400-420 | Each closed profit falls into exactly one of booked, open and orphan |
| Reconciliation.PassIsReconcile | src/mercury/services/execution/service.py:284-334 | Step by step, an undisturbed pass comes to its closed form |
| Reconciliation.ReconciledTable | src/mercury/services/execution/service.py:284-398 | After an undisturbed pass every OPEN ticketed record has a position; one that had none is CLOSED as in the history or flagged with its figures untouched; all others are unchanged |
| Reconciliation.FinishedPassResolves | src/mercury/services/execution/service.py:284-398 | After a pass that no step aborted, whatever was handled in between, every OPEN ticketed record has a position |
| Reconciliation.ReconcileIdempotent | src/mercury/services/execution/service.py:284-334 | A second pass on an unchanged broker changes nothing and emits nothing |
| OrphanAlerts.AlertsAreNewOrphans | src/mercury/services/execution/service.py:309-360 | Over any run from a start, an orphan is alerted once for each uninterrupted stay, less those whose first pass did not finish |
| OrphanAlerts.OneAlertPerStayIff | src/mercury/services/execution/service.py:309-360 | Each stay is alerted exactly once exactly when every pass that first sees one comes to its end |
| OrphanStays.OrphanNeverReturns | src/mercury/services/execution/service.py:308-326 | An orphan that is gone stays gone, whatever the service does |
| OrphanStays.AlertedOnceIff | src/mercury/services/execution/service.py:308-360 | So its stay is one interval of passes: it is alerted at most once, exactly once when the pass that first sees it comes to its end |
| LedgerWitnesses.AlertCanBeLost | src/mercury/services/execution/service.py:309-360 | A run on which the first pass aborts and a later finished one stays silent about the orphan |
| Reconciliation.UnstorableOrderLeavesOrphans | src/mercury/services/execution/service.py:173-234 | An order whose record cannot be stored leaves two positions, both alerted by the next pass |
| PositionGuard.CapHolds | src/mercury/services/execution/service.py:173-234 | Over any interleaving of any number of workers the OPEN rows stay within the cap, if storable signals are serialised |
| PositionGuard.CapIff | src/mercury/services/execution/service.py:173-234 | For a set of signals the cap holds over every interleaving exactly when they are serialised by row locks or by one process |
| PositionGuard.RaceBreaksCap | src/mercury/services/execution/service.py:173-234 | Without row locks two processes that count before either writes exceed the cap, although their rows are written one after the other |
| PositionGuard.OneOrderPerSignal | src/mercury/services/execution/service.py:173-234 | A storable signal sends at most one order, exactly one if it opened a trade, none if rejected; two attempts always suffice |
| PositionGuard.OneOrderIffStorable | src/mercury/services/execution/service.py:173-234 | From every initial state, no run sends a second order exactly when the row can be stored |
| PositionGuard.UnstorableOrdersTwice | src/mercury/services/execution/service.py:173-234 | From every initial state, a signal whose row cannot be stored can send two orders and record none |
| PositionGuard.NoDeadlock | src/mercury/services/execution/service.py:173-234 | While a signal is unfinished some worker can step |
| KillSwitch.NeverFails | src/mercury/services/risk/service.py:238-256 | The RuntimeError after the second attempt is unreachable in every interleaving |
| KillSwitch.Completes | src/mercury/services/risk/service.py:238-256 | From anywhere in a run every call can still finish without an error |
| KillSwitch.RunsAreBounded | src/mercury/services/risk/service.py:238-256 | No interleaving goes on for ever: each call has at most five steps |
| KillSwitch.LastWriteWins | src/mercury/services/risk/service.py:238-256 | The stored switch is what the last commit wrote |
| KillSwitch.CheckDisarmsIff | src/mercury/services/risk/service.py:212-229 | A check goes on to disarm if and only if re-arming is on and the switch was armed longer ago than it stays armed, at a known time |
| KillSwitch.CommitStores | src/mercury/services/risk/service.py:238-256 | A commit stores what was set, or the disarmed switch with the time of the check |
| KillSwitch.HoldersExclude | src/mercury/services/risk/service.py:238-256 | Where the database honours row locks, at most one call at a time is between its read or insert and its commit |
| KillSwitch.ExpiryOvertakesArm | src/mercury/services/risk/service.py:212-229 | A check that found the switch due can disarm one armed in between |
| KillSwitch.ArmsSurviveIff | src/mercury/services/risk/service.py:212-256 | Arming calls hold against concurrent checks exactly when no check finds the stored switch due |
| Backtest.WalkLine | src/mercury/services/backtest/engine.py:149-177 | The bar loop with the trailing safety line finds the exit of the recursive walk |
| Backtest.WalkBracket | src/mercury/services/backtest/engine.py:178-212 | The bar loop with stop, target, breakeven and structure exit finds the exit of the recursive walk |
| BacktestMeaning.LineExitIs | src/mercury/services/backtest/engine.py:149-177 | The trailing walk ends at the first bar that touches the tightest stop asked for so far, or else closes beyond the line, and never only if no bar does |
| BacktestMeaning.BracketExitIs | src/mercury/services/backtest/engine.py:178-212 | The bracket walk ends at the first bar that touches the stop, which is the entry once a bar has gone the multiple of the risk, meets the target or breaks structure, in that order within a bar |
| Backtest.LineExitNotWorse | src/mercury/services/backtest/engine.py:149-177 | Every trailing exit is at least as good as the initial stop |
| Backtest.BracketExitNotWorse | src/mercury/services/backtest/engine.py:178-212 | So is every bracket exit with entry and target on the right side of the stop |
| Backtest.GapEntryStopsAtOnce | src/mercury/services/backtest/engine.py:149-212 | An entry that opens beyond its own stop leaves at that stop on the first bar |
| Backtest.BracketBudgetIff | src/mercury/services/backtest/engine.py:178-212 | The loss stays within the risk on every bar series exactly when the target is not beyond the stop, or the entry is |
| Backtest.LineWithinRisk | src/mercury/services/backtest/engine.py:149-177 | Under the trailing line the loss is within the risk on every bar series |
| Backtest.RunBacktest | src/mercury/services/backtest/engine.py:84-242 | The signal loop: too few bars raise, a structure search that raises ends the run, the final equity is the initial one plus the profit of the trade, if there is one |
| BacktestMeaning.FirstTradeOnly | src/mercury/services/backtest/engine.py:84-242 | The only trade of a run is that of the first signal that gives one, and a run raises exactly where the first of its signals that does not pass without a trade raises |
| Backtest.SimulateSignal | src/mercury/services/backtest/engine.py:110-234 | One signal: no entry, no exit in the sample, or one trade, as the next row states them |
| BacktestMeaning.SimulateIs | src/mercury/services/backtest/engine.py:110-234 | A signal becomes a trade that enters at the open after its bar and leaves at the first bar that ends it; into none without entry or exit; it raises exactly where the structure search does |
| BacktestMeaning.EntryIff | src/mercury/services/backtest/engine.py:113-131 | The entry bar is the one after the last of the signal's time; there is none without a stop, a target for brackets, or distance to the stop |
| BacktestMeaning.TradePays | src/mercury/services/backtest/engine.py:127-218 | The profit is to the amount risked, the configured percentage of the equity, as the move is to the distance of the initial stop: gains and losses alike |
| BacktestMeaning.PaysItsMultiple | src/mercury/services/backtest/engine.py:217-218 | An exit at a protective stop loses exactly the amount risked, one that moves a multiple of the initial risk wins that multiple |
| Backtest.TradeWithinBudget | src/mercury/services/backtest/engine.py:133-218 | No simulated trade loses more than its risk amount |
| Backtest.RunWithinBudget | src/mercury/services/backtest/engine.py:84-242 | A run holds at most one trade and loses at most one risk budget |
| Metrics.MaxDrawdown | src/mercury/services/backtest/engine.py:254-261 | The running peak gives the largest drop of the curve from a point in profit, or zero |
| Metrics.DrawdownIff | src/mercury/services/backtest/engine.py:254-261 | That is the true largest drop exactly when every loss run up before the first profit is covered by a drop from a point in profit |
| Metrics.BacktestDrawdown | src/mercury/services/backtest/engine.py:232-261 | The drawdown of a backtest run is always reported as zero; that is true exactly when its trade did not lose |
| Metrics.ResultIs | src/mercury/services/backtest/engine.py:228-229 | A result in R times the amount risked is the profit; without risk it is zero |
| Notifications.ExactlyOnePlace | src/mercury/services/notifications/providers.py:81-181 | Over any run an accepted notification is in exactly one of queue, worker, cancelled worker, lost queue and resolved |
| Notifications.ResultsAreFinal | src/mercury/services/notifications/providers.py:89-216 | A future that is set stays as it was set |
| NotificationResults.ResultIff | src/mercury/services/notifications/providers.py:89-216 | Over any run a result is true exactly when the POST went through while the worker was sending the notification, and false exactly when a step failed it: a refused POST, the last one allowed, a full queue, a missing queue, a cancellation or a drain |
| NotificationResults.GivesUpIff | src/mercury/services/notifications/providers.py:161-171 | A rate-limited notification is given up exactly on the last POST that the limit allows |
| NotificationResults.TakesFirstSent | src/mercury/services/notifications/providers.py:130-160 | First come, first served: what the worker takes, unless posted before, was sent earlier than everything else unposted that waits |
| Notifications.LosesNothingIff | src/mercury/services/notifications/providers.py:81-107 | Over any run nothing is lost exactly when no start found a closed notifier with items still queued |
| Notifications.UnresolvedAreLost | src/mercury/services/notifications/providers.py:81-107 | Once every close has finished, everything accepted is resolved exactly when no queue with items was replaced |
| Notifications.ClosedResolvesAllIff | src/mercury/services/notifications/providers.py:81-107 | Once every close has finished, everything accepted is resolved exactly when no start of the run cut into a close with items queued |
| Notifications.LostOnlyByEarlyStart | src/mercury/services/notifications/providers.py:81-107 | A step loses items exactly when it starts the worker of a closed notifier whose queue still has items |
| Notifications.CloseResolvesAll | src/mercury/services/notifications/providers.py:89-107 | Without that, nobody is left waiting after a close |
| Notifications.EarlyStartLoses | src/mercury/services/notifications/providers.py:81-107 | A start that cuts into a close loses the queued notification |
| Notifications.LostForever | src/mercury/services/notifications/providers.py:81-107 | What is lost stays lost |
| Notifications.PostsBounded | src/mercury/services/notifications/providers.py:149-216 | No notification is posted more often than the retry limit allows |
| TelegramNotifier.Telegram.constructor | src/mercury/services/notifications/providers.py:56-76 | No queue, no worker, nothing accepted |
| TelegramNotifier.Telegram.SetResult | src/mercury/services/notifications/providers.py:140-145 | A future is set only when it is not set yet |
| TelegramNotifier.Telegram.StartWorker | src/mercury/services/notifications/providers.py:81-87 | A new queue and a new worker |
| TelegramNotifier.Telegram.EnqueueItem | src/mercury/services/notifications/providers.py:130-147 | A full queue drops its oldest item, which fails, before the new one enters |
| TelegramNotifier.Telegram.SendItem | src/mercury/services/notifications/providers.py:109-127 | A closed notifier refuses; otherwise the worker is there and the item is queued |
| TelegramNotifier.Telegram.WorkerTakes | src/mercury/services/notifications/providers.py:149-160 | The worker takes the oldest item |
| TelegramNotifier.Telegram.WorkerDelivers | src/mercury/services/notifications/providers.py:161-216 | One POST: success resolves to true and other errors to false, a rate limit counts an attempt and resolves only the last |
| TelegramNotifier.Telegram.WorkerRequeues | src/mercury/services/notifications/providers.py:161-181 | After the cooldown the item enters the queue again |
| TelegramNotifier.Telegram.BeginClose | src/mercury/services/notifications/providers.py:89-94 | The notifier is closed and its worker, if it has one, cancelled; any number of closes may overlap |
| TelegramNotifier.Telegram.WorkerCancelled | src/mercury/services/notifications/providers.py:172-175 | The cancelled worker fails the item it held |
| TelegramNotifier.Telegram.EndClose | src/mercury/services/notifications/providers.py:95-107 | The close whose worker has ended fails whatever is still queued |
| TelegramNotifier.Telegram.DrainQueue | src/mercury/services/notifications/providers.py:98-107 | The loop empties the queue and fails its items |
| Sizing.SizingSafeAndMaximal | src/mercury/services/risk/service.py:300-342 | With a lot step in whole cents an accepted volume is a whole number of steps within the bounds, its stop costs at most the clamped risk, one more step would cost more |
| Sizing.SizingSafeIff | src/mercury/services/risk/service.py:300-342 | The stop of every accepted size stays within the risk exactly when the lot step is in whole cents |
| Sizing.RiskIsClamped | src/mercury/services/risk/service.py:303-305 | The risk fraction lies between the configured bounds |
| Sizing.AcceptedIff | src/mercury/services/risk/service.py:300-342 | A size is accepted if and only if price, stop and equity are there and apart, the volume that risks exactly the clamped percentage is within the bounds, and its whole steps reach the minimum; it is those steps, rounded |
| Sizing.StopOutIsAtMostOneR | src/mercury/services/execution/broker.py:421-424 | A paper stop-out filled at the signal price books at least -1 R |
| Promotion.TransitionKeepsChainIff | src/mercury/services/promotion/service.py:222-266 | A legal move keeps every audit chain exactly when it starts from the stage the strategy is in when it is written |
| Promotion.CommitKeepsChainIff | src/mercury/services/promotion/service.py:222-266 | A pending write leaves every log a chain exactly when they were chains and it finds the stage its call read; a broken log is never mended |
| Promotion.AuditIsChain | src/mercury/services/promotion/service.py:128-266 | Over any interleaving of reads and writes every log is a connected chain of legal moves from draft to the current stage exactly when each write found the stage its call had read |
| Promotion.EachMoveWrittenOnce | src/mercury/services/promotion/service.py:222-266 | Over any interleaving the log and the moves still to be written are exactly the granted ones, each once |
| Promotion.StepSoundIff | src/mercury/services/promotion/service.py:116-125 | A step keeps the guard sound exactly when it does not write a move between the approved stages for a strategy below them |
| Promotion.GuardMeansApprovalIff | src/mercury/services/promotion/service.py:116-125 | Over any interleaving, at each point every strategy admitted live has a signed review-to-approved entry and no later entry below approved, exactly when no such move is written |
| Promotion.GuardMeansApproval | src/mercury/services/promotion/service.py:116-125 | In particular when each write found the stage its call had read |
| Promotion.BrokenChainCanBeHarmless | src/mercury/services/promotion/service.py:128-160 | Two overlapping promotions break the chain and reopen nothing |
| Promotion.OvertakenDemotion | src/mercury/services/promotion/service.py:175-191 | A run from the empty system in which a reset overtakes a demotion leaves the guard open without a standing approval |
| Promotion.PromotionService.constructor | src/mercury/services/promotion/service.py:68-75 | No stage row and an empty log |
| Promotion.PromotionService.Promote | src/mercury/services/promotion/service.py:128-160 | An allowed promotion writes row and log together; a refused one changes nothing |
| Promotion.PromoteIff | src/mercury/services/promotion/service.py:128-160 | A promotion is granted if and only if it is one stage ahead, signed with a reason into the last two, and, when checked, passes each figure of the paper gate into demo and of the live gate into live |
| Promotion.PromotionService.Demote | src/mercury/services/promotion/service.py:175-191 | A move back writes row and log together; anything else changes nothing |
| Promotion.DemoteIff | src/mercury/services/promotion/service.py:175-191 | A demotion is granted exactly to an earlier stage, logged with the reason given or with the stage |
| Promotion.GuardIff | src/mercury/services/promotion/service.py:116-125 | Live mode admits exactly the last two stages |
| Promotion.PromotionService.Write | src/mercury/services/promotion/service.py:222-266 | Row and log entry in one transaction |
| Promotion.WriteIs | src/mercury/services/promotion/service.py:222-266 | The stage is stored and the move logged as it was decided |

## Left out

- Floating-point rounding: arithmetic is exact. `round(x, 2)` is modelled (half to even) where a price
  or a volume is rounded; the four-digit rounding of reported results in R is not, nor what infinities
  do in the moving average.
- `ema`, `rsi` and the EMA cross signal: single folds over their input.
- Win rate, profit factor, expectancy and return of a backtest, and the other performance metrics.
- The trend-confluence entry signals and their bias; only the lines, their cache and the safety line
  are modelled. A safety value that raises inside a backtest is not part of the model: the lines of a
  backtest are given as values.
- `created_at` and some metadata of signals, session names; sessions are a given predicate on times.
- The MetaTrader broker, HTTP, databases, configuration loading, logging, alert texts, clocks.
- The trade table is a sequence, its constraints one flag for each order (`insertable`, `storable`);
  tickets are drawn by the caller, never used before and never twice, as the source's random ids are.
- A broker that is disconnected or raises: the paper broker is connected in `Execution`.
- The gates before the critical section of `_on_signal_approved` (symbol, stage, trading allowed):
  each is one branch. Reconciliation sees all positions as the service's own.
- Lists that the source reads once and then walks (`open_records` of a pass) are read row by row from
  the table: what is handled in between adds rows and changes none of those listed.
- Ticks do not overlap each other or the startup pass. Within a tick each loop may await after every
  iteration, more often than the source does. A step raises only where `Fault` says: before it changes
  anything, at the write of a moved stop, in the structure search, at the booking of a close.
- The safety value, close and ATR that trailing sees are given as values (`Ledger.LineView`).
- Startup issues and the orphans of an alert are sets; the source keeps them in lists.
- Waiting times (send interval, cooldown, poll timeouts) and a caller that cancels its own wait for a
  notification.
- Outside a tick, database errors other than a duplicate key or a violated constraint, such as a
  locked database; a process that dies inside its transaction.
- `evaluate` and the trading criteria of the risk service, `_lot_bounds`: list lookups and guards.
- The learning service and the agent mesh.
- Metrics.BacktestDrawdown: takes a result in R unrounded, because the source rounds it to four digits
  only for the report.
