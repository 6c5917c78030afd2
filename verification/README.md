# Virtual orders: a Dafny model of the ledger, the research scan and the alerts

This project models three connected parts of the virtual-orders platform and proves what they promise over every input and every run.

**The event-sourced ledger over a versioned bar store.** Order creation, live evaluation segments, commands, quarantine freezes and
replays append to an order's log and overwrite a cached projection. A separate reader rebuilds everything from events, segments and
bars as they were known at a watermark. The central result is `Database.ProjectionIsHistory`: in every state any interleaving of these
writers can reach, each log regenerates to exactly its cached state and next sequence number, a rebuild confirms the cache, and no
divergence incident was ever recorded. It rests on four things that are proved on their own: the lock and clock protocol of watermarks
(`Watermark`), delta storage of bars (`BarStore`), the bisecting session calendar (`Calendar`), and head-first replay of commands
(`FillContract`, `Ledger`). The theorems hold for every fill model that meets `FillContract.WellBehaved`; `FillV1Laws.V1IsWellBehaved`
proves that the repository's own v1 engine, modelled in `FillV1`, is one. A quarantine is for good: every order with an integrity
incident is stopped, and a stopped order keeps its trade over every later run (`StoppedOrders.EveryIncidentStopsItsOrder`,
`StoppedOrders.StoppedOrdersKeepTheirTrade`).

**The research scan.** Indicators, swing pivots, structure, pattern readings, labels, splits, resampling and the bitemporal store of
readings. The main results are that nothing computed at a candle depends on later candles although whole series are computed once
(`Backtest.NothingLooksAhead`), that training labels read no candle of the period that judges them (`Backtest.SplitTrainsBlind`,
`Backtest.FoldTrainsBlind`), that the content hash behind the "unchanged" shortcut is wide enough
(`Identity.UnchangedHashUnchangedReadings`), and that supersession keeps the store sound and its past fixed
(`Supersession.EveryStoreIsSound`, `Supersession.ThePastStaysAsItWas`).

**The alerts.** Re-evaluating a growing session from the last stored alert enqueues what one pass would
(`Crossings.IncrementalIsOneShot`), and the outbox tries an alert at most 52 times, a backoff apart, with one terminal row
(`Outbox.EveryRunDelivers`), recording the sink's own answer each time (`Outbox.EveryAnswerIsRecorded`).

## How the model is laid out

- Instants are integers in microseconds; prices, quantities and costs are reals. Where the source quantizes (research values), the
  half-even quantizer is written out.
- A hash is an injective encoding, so the encoded material stands for it: a selected-data hash is its list of entries, a window hash
  is the list of sessions, an input-content hash is the list of bar contents by bucket.
- Tables are sequences and maps. A transaction is one step; a quarantine is two. `OrderLedger.LedgerTables`, `BarStore.BarTables`,
  `Crossings.RuleAlerts` and `Outbox.AlertOutbox` are the objects whose methods change them, and each method is tied to a step function
  on values. Every loop of the source is a method tied to a function in the same way.
- The step functions are pinned from outside by laws that do not mention their bodies: `EvaluationLaws` and `CommandLaws` (when a
  live evaluation or a command acts and what it records), `AcceptedHistory` (what an accepted log must be), `RecalculationLaws`
  (what a recalculated order comes to), `StoppedOrders` (what a quarantine is for), `FillV1Rules` (the trading rules of the v1
  engine, for both sides of the market), `IndicatorLaws` and `StructureLaws` (what the numbers mean), `ResampleLaws`,
  `PatternLaws` and `LabelLaws` (candles, readings, how a trade ends), `BacktestLaws` (candidates, barriers, splits) and
  `ScanLaws` (what a scan must revisit).
- A `Result`-like constructor stands for each exception: `WriteRefused` is an integrity error (quarantined), `WriteRaised` any other
  exception (rolled back), `Diverged` a history divergence, `None` a value, range or lookup error.

## What was found

- A segment row that announces more events than the log still holds is accepted when it is the last thing in the log, because the
  comparison slice is cut off there. `Overcount.OverlongCountIsAccepted` gives a concrete accepted log; in any accepted history the
  announced counts are exact if and only if no segment reaches past the end (`HistoryLaws.CountsAreExactIffTheyFit`). No writer
  produces such a row.
- A command whose events are all known leaves the state unchanged only relative to a coupling of state and log: flagging a review that is
  on record changes nothing because its reason is already listed. The contract states that coupling and v1 keeps it.
- After a scan the active readings of a bucket are what the engine finds now if and only if none of them had been retired before
  (`Supersession.ActiveIsFound`). A reverted correction is counted; a retracted reading that returns is not even counted
  (`Supersession.RetractedThenFoundAgain`).
- A target that is hit can be worth nothing: half a rounding step above the entry rounds to zero (`Labels.TargetWorthNothing`). Every
  target hit over every future pays if and only if it lies more than half a rounding step of R away (`Labels.TargetsPayIffFarEnough`).
- Walk-forward judges an observation if and only if it was signalled between the start of the second slice and the end of the last full
  one (`Backtest.TestedIffWithinTheSlices`), so the remainder of an uneven division is never judged (`Backtest.RemainderIsNeverTested`).
  Two consecutive test sets overlap exactly on ties (`Backtest.TestsOverlapOnlyOnTies`, `Backtest.TiedSignalsAreTestedTwice`).
- Expected minutes do not add up across timeframes: a bucket without bars emits no candle, so fine candles expect as many minutes as the
  coarse one if and only if no fine bucket is a gap (`Timeframes.ExpectedMinutesAddUpIffNoGap`, `Timeframes.GapLosesExpectedMinutes`).
- An order whose end is the very instant the last loaded session opens has a valid context but no window to hash
  (`ReloadedCalendar.WindowMissingIff`).

## Model

| member | source | states |
|---|---|---|
| Calendar.SessionCalendar.FirstExpectedIsLeast | src/core/domain/calendar.py:89-98 | the query returns the least expected minute at or after an instant and refuses exactly outside the loaded range |
| Calendar.SessionCalendar.NextExpectedIsLeast | src/core/domain/calendar.py:100-102 | the next expected minute is the least one strictly later; only the last loaded minute has none |
| Calendar.SessionCalendar.LastExpectedIsGreatest | src/core/domain/calendar.py:135-143 | the greatest expected minute before an instant, refused exactly when there is none |
| Calendar.SessionCalendar.ExpectedMinutes | src/core/domain/calendar.py:104-120 | the loop ends and lists, strictly increasing, exactly the minutes of some session in the range; it refuses exactly outside the calendar |
| Calendar.EqualWindowsSameMinutes | src/core/domain/calendar.py:145-161 | two calendars with equal window hashes list the same minutes in every sub-range of the order window |
| Calendar.EqualWindowsSameNext | src/core/domain/calendar.py:145-161 | and agree on the next expected minute of every minute of the window, up to its very end |
| Calendar.Build | src/core/domain/calendar.py:48-58 | the neighbour check is enough: sessions are refused exactly when there are none, one is listed twice or two overlap; a built calendar holds exactly the given sessions, in order |
| BarStore.Validated | src/virtual_orders/marketdata/ingest.py:28-42 | accepts exactly lists of the right ticker, range, whole minutes, consistent prices and no repeated minute, sorted; otherwise names the first offender |
| BarStore.BarTables.StoreBatch | src/virtual_orders/marketdata/ingest.py:51-77 | a batch holding exactly the minutes that differ from the current view, or nothing at all; a refused fetch changes nothing |
| BarStore.DeltaRefinesFull | src/virtual_orders/marketdata/ingest.py:51-77 | after any ingestions, at every instant each minute reads as if every complete fetch had been stored in full |
| BarStore.RefetchStoresNothing | src/virtual_orders/marketdata/ingest.py:45-76 | fetching identical data again stores nothing, so every minute keeps its batch id |
| BarStore.AgreeingFetchStoresNothing | src/virtual_orders/marketdata/ingest.py:45-76 | after any history a fetch commits nothing if and only if it agrees, minute by minute, with the overlay of all complete fetches so far |
| BarStore.NewestIsGreatest | src/virtual_orders/marketdata/asof.py:16-26 | the chosen version of a minute is the greatest by ingestion instant, then batch id |
| BarStore.ReadStable | src/virtual_orders/marketdata/asof.py:55-62 | a read as of T is unchanged by batches stamped after T |
| BarStore.VersionRecoverable | src/virtual_orders/marketdata/asof.py:65-71 | the exact version a read returned can be fetched again by minute and batch |
| BarStore.ComputeSelectedDataHash | src/virtual_orders/marketdata/asof.py:79-99 | one entry per minute in order, with its bar or none; refused on a repeated or foreign minute |
| BarStore.EqualHashEqualBars | src/virtual_orders/marketdata/asof.py:79-99 | equal hashes over the same minutes mean the very same bar versions were used |
| Watermark.WatermarkIsFinal | src/virtual_orders/marketdata/asof.py:16-47 | in every interleaving, once a watermark T is returned no batch at or before T commits and every read as of T stays the same |
| Watermark.WorldIsItsSteps | src/virtual_orders/marketdata/asof.py:16-47 | what is stored is exactly what was committed, in order, stamped under the lock; an instant is a watermark if and only if a process read it under the lock and returned it |
| Events.DedupeEvents | src/virtual_orders/ledger/events.py:43-72 | the deduplicating loop: keeps new keys in order, skips equal ones, refuses a conflicting key or a bar before the start |
| Events.DedupeExtendsKnown | src/virtual_orders/ledger/events.py:43-98 | what deduplication now knows is exactly what the grown log records, with keys still unique |
| Events.DedupeIdempotent | src/virtual_orders/ledger/events.py:43-98 | recording the same events a second time adds nothing and raises no conflict |
| Events.RefusedIff | src/virtual_orders/ledger/events.py:43-72 | recording is refused if and only if some event, market ones from before the order's start or one that repeats a key with other contents, spoils it |
| Domain.TextTellsApart | src/core/fills/v1/engine.py:453-468 | event keys name their instant: different ex-dates never share a dividend key |
| History.RegenerateHistory | src/virtual_orders/evaluator/history.py:131-201 | the reader's while loop, method by method, is the specification the laws below are about; it ends on every stored log |
| HistoryLaws.AcceptedAccountsForAll | src/virtual_orders/evaluator/history.py:158-201 | on any log, honest or corrupted, acceptance means every row read, every segment consumed once in order, and the item events equal the rows exactly when no key repeats |
| HistoryLaws.EventCountExactBeforeTheEnd | src/virtual_orders/evaluator/history.py:81-85 | an announced event count is exact if and only if the segment does not reach past the end of the log |
| HistoryLaws.CountsAreExactIffTheyFit | src/virtual_orders/evaluator/history.py:81-92 | in every accepted history all announced counts are the numbers of events read if and only if no segment reaches past the end of the log |
| Overcount.OverlongCountIsAccepted | src/virtual_orders/evaluator/history.py:158-178 | a concrete valid order whose only segment announces five events and holds none is accepted |
| HistoryLaws.RegenerationStable | src/virtual_orders/evaluator/history.py:158-180 | later ingestions and runs never change an accepted history |
| AcceptedHistory.AcceptedIsTheModelsRun | src/virtual_orders/evaluator/history.py:131-201 | on any log, an accepted history ends in the state the model reaches when run again over its items: segments over the bars their run saw, commands from their first event, each recording exactly its own rows |
| AcceptedHistory.TamperedBarsAreRefused | src/virtual_orders/evaluator/history.py:158-178 | a log with a segment whose bars do not hash to what it recorded is never accepted |
| Ledger.SegmentKeepsHonest | src/virtual_orders/evaluator/cycle.py:105-132 | recording a segment extends the regenerable history to the state the model reached |
| Ledger.PartsKeepHonest | src/virtual_orders/evaluator/commands.py:52-67 | a whole command, of any parts and with any of its events already recorded, extends it likewise |
| Writers.EvaluateKeepsHonest | src/virtual_orders/evaluator/cycle.py:88-132 | every live evaluation that writes leaves a log that regenerates to the new projection |
| Writers.CommandWriteKeepsHonest | src/virtual_orders/evaluator/commands.py:52-146 | so does every command: cancel, freeze, review, validity end, dividend and quality records |
| Writers.FreezeKeepsHonest | src/virtual_orders/ledger/quarantine.py:69-102 | so does the second transaction of a quarantine |
| Writers.CreateIsHonest | src/virtual_orders/ledger/writes.py:12-22 | a new order's row, creation event and projection regenerate to the created state |
| Writers.RebuildAgrees | src/virtual_orders/evaluator/rebuild.py:24-57 | on such an order a rebuild writes nothing when the cache is there and restores it when it was dropped |
| Writers.DriftIsRefused | src/virtual_orders/evaluator/rebuild.py:24-57 | of an honest order a rebuild confirms the cache if and only if state, next sequence number and both totals are what the log gives; any other cache is an integrity error |
| Writers.RebuildConfirmsOnlyTheTruth | src/virtual_orders/evaluator/rebuild.py:24-57 | of any file, corrupted ones included, a rebuild confirms or writes only what the log regenerates, and refuses or raises otherwise |
| EvaluationLaws.SegmentReachesTheLastWaiting | src/virtual_orders/evaluator/cycle.py:105-132 | a new segment ends at the last minute that waited: with trailing gaps left open one with a stored bar and none stored later, with gaps closed the last elapsed one |
| EvaluationLaws.IdleIffNothingWaits | src/virtual_orders/evaluator/cycle.py:88-134 | an evaluation leaves a running order alone if and only if no minute waits; otherwise a fresh run writes, or is refused over conflicting events |
| CommandLaws.DividendIsCreditedIff | src/virtual_orders/evaluator/corporate.py:83-114 | a dividend is credited if and only if it is not on record, the order was evaluated past the record date, holds shares and has the tolerance in use; otherwise nothing or one named review |
| CommandLaws.UnverifiableIsFlaggedIff | src/virtual_orders/evaluator/corporate.py:119-137 | an unverifiable dividend is flagged exactly for running orders it would have mattered to |
| CommandLaws.DividendsAreCreditedOnce | src/virtual_orders/evaluator/corporate.py:86-94 | crediting a dividend that is on record changes nothing at all, whatever the amount |
| CommandLaws.EndedOnTheEvaluatedBar | src/virtual_orders/evaluator/commands.py:70-108 | the bar that ends a live order is the version its own evaluation read; without one the command is refused |
| CommandLaws.QualityIsRecordedOnce | src/virtual_orders/evaluator/quality.py:96-98 | a second quality report of a day changes nothing |
| CommandLaws.QualityTellsEverything | src/virtual_orders/evaluator/quality.py:96-143 | a day's first report records its totals, every gap with start and length, and raises every flag, in that order |
| CommandLaws.QualityAddsUp | src/virtual_orders/ledger/orders.py:187-225 | a day's first report adds exactly its expected and missing bars to the projection's totals and touches nothing but review reasons |
| Transactions.EvaluateTransaction | src/virtual_orders/evaluator/cycle.py:88-132 | the evaluation as statements: window, hash, model, deduplication, rows, segment and projection, or the error |
| Transactions.CommandTransaction | src/virtual_orders/evaluator/commands.py:52-67 | the command as statements: replays refused, plan, model calls in order, one append |
| Transactions.RebuildTransaction | src/virtual_orders/evaluator/rebuild.py:24-57 | regenerate, compare, and save only a missing projection |
| Replay.ReproduceOrder | src/virtual_orders/evaluator/replay.py:99-125 | the copying loops write the items' events from sequence one and the segments at their new first sequence |
| Replay.ReproduceIsFixpoint | src/virtual_orders/evaluator/replay.py:99-125 | the copy has the same events, positions, segments and state, regenerates to the same history, and reproducing it again changes nothing |
| Replay.ReproduceKeepsHonest | src/virtual_orders/evaluator/replay.py:99-125 | the copy of an honest order is honest, row for row and segment for segment |
| Replay.ChunksByDividend | src/virtual_orders/evaluator/replay.py:239-255 | the pending/current/applied loop computes the chunks the next row is about |
| ReplayLaws.ChunksPartitionTheMinutes | src/virtual_orders/evaluator/replay.py:239-255 | the chunks concatenate to the expected minutes; each ex-date with a minute opens exactly one chunk, at its first minute |
| Replay.RecalculateOrder | src/virtual_orders/evaluator/replay.py:258-337 | the recalculation loop: dividend, fresh run, bars of the chunk, segment, and the validity end |
| ReplayLaws.RecalculateIsHonest | src/virtual_orders/evaluator/replay.py:258-337 | a recalculated order's history regenerates to its projection and its segments reach the last minute before the watermark |
| RecalculationLaws.RecalculationIsMinuteByMinute | src/virtual_orders/evaluator/replay.py:258-337 | chunks, bulk evaluation, runs and segments leave no trace: the state is that of going through the minutes one by one, paying each dividend once before the first bar of its ex-date, and closing past validity on the last evaluated bar |
| RecalculationLaws.ReplayMinutesAre | src/virtual_orders/evaluator/replay.py:291-293 | the minutes replayed are exactly the order's expected minutes that are over by the watermark |
| Tiling.EveryMinuteOnce | src/virtual_orders/ledger/runs.py:109-122 | segments that continue each other cover exactly the expected minutes from the start, each once and in order |
| Database.CommittedOrRolledBack | src/virtual_orders/ledger/quarantine.py:105-110 | a transaction that writes replaces its order's rows and nothing else; one with nothing to write or a foreign exception changes nothing; an integrity error leaves its incident |
| Database.EveryRunIsGood | src/virtual_orders/ledger/quarantine.py:69-110 | every step of every run keeps all logs regenerable, the watermarks safe and the incidents free of divergences |
| Database.ProjectionIsHistory | src/virtual_orders/evaluator/history.py:131-201 | in every reachable state each log regenerates to exactly its cached state and next sequence number and a rebuild never reports a mismatch |
| Database.EvaluatedExactlyOnce | src/virtual_orders/evaluator/cycle.py:105-131 | in every reachable state an order's listed segments are chronological, disjoint and leave no expected minute out, and its log is numbered from one |
| FrozenReads.ReadsAsOfARunAreFrozen | src/virtual_orders/marketdata/asof.py:42-62 | in every run of the whole platform a run row keeps its watermark, later batches are stamped after it, and reads as of it return the same bars and batch ids for ever |
| FrozenReads.NoRebuildEverMismatches | src/virtual_orders/evaluator/rebuild.py:24-57 | at any point of any run a rebuild of any order is neither refused nor raised |
| FrozenReads.DriftIsAlwaysCaught | src/virtual_orders/evaluator/rebuild.py:24-57 | in every reachable state, a cache that drifts from its log is met by an integrity incident at the next rebuild, and nothing else changes |
| StoppedOrders.StoppedOrdersKeepTheirTrade | src/virtual_orders/ledger/quarantine.py:69-102 | from any reachable state on, an order its log says is frozen or ended keeps position, prices, profit, costs, dividends and marks through every later run |
| StoppedOrders.EveryIncidentStopsItsOrder | src/virtual_orders/ledger/quarantine.py:54-110 | in every reachable state, an order with an integrity incident is frozen or ended; the only exceptions are replays, a missing cache, and a freeze whose failure is itself an incident |
| OrderLedger.LedgerTables.constructor | src/virtual_orders/ledger/events.py:82-98 | the tables start empty |
| OrderLedger.LedgerTables.Ingest | src/virtual_orders/marketdata/ingest.py:51-77 | one locked ingestion is one step; a refused fetch leaves every table as it was |
| OrderLedger.LedgerTables.AcquireDataAsOf | src/virtual_orders/marketdata/asof.py:42-47 | a watermark only advances the clock |
| OrderLedger.LedgerTables.StartRun | src/virtual_orders/ledger/runs.py:54-71 | a run row with its watermark and a fresh id |
| OrderLedger.LedgerTables.QuarantineOrder | src/virtual_orders/ledger/quarantine.py:54-102 | the incident, then the freeze of a live order; a failing freeze is recorded and never hides the first error |
| OrderLedger.LedgerTables.RunGuarded | src/virtual_orders/ledger/quarantine.py:105-110 | commit, quarantine an integrity error, roll back anything else |
| OrderLedger.LedgerTables.PlaceOrder | src/virtual_orders/ledger/writes.py:20-22 | a new order or no change at all |
| OrderLedger.LedgerTables.EvaluateOrder | src/virtual_orders/evaluator/cycle.py:88-134 | one guarded evaluation changes one order only |
| OrderLedger.LedgerTables.IssueCommand | src/virtual_orders/evaluator/commands.py:52-67 | one guarded command changes one order only |
| OrderLedger.LedgerTables.RebuildProjection | src/virtual_orders/evaluator/rebuild.py:24-57 | one guarded rebuild |
| OrderLedger.LedgerTables.Reproduce | src/virtual_orders/evaluator/replay.py:99-125 | a new replay order, or a quarantined source |
| OrderLedger.LedgerTables.Recalculate | src/virtual_orders/evaluator/replay.py:258-337 | a new replay order with its runs, or an incident without an order |
| OrderLedger.LedgerTables.LiveCycle | src/virtual_orders/evaluator/cycle.py:137-203 | watermark, run, then one evaluation per open order, each guarded: exactly that run of steps, whatever single orders do |
| FillV1.RunSortedBars | src/core/fills/v1/engine.py:153-159 | the bar loop of the v1 engine, over bars in time order |
| FillV1Rules.BarCountsIff | src/core/fills/v1/engine.py:122-133 | a bar counts if and only if the order runs and the bar is a new expected minute of its validity; any other changes nothing |
| FillV1Rules.FillsIffReadyInTheZone | src/core/fills/v1/engine.py:162-218 | for both sides of the market: a pending order fills if and only if the bar opens on the good side of the stop, zone, reclaim and trigger allow it, and the bar enters the zone |
| FillV1Rules.FillPaysSlippage | src/core/fills/v1/engine.py:248-272 | a fill pays the raw price worsened by the slippage, risks exactly the configured amount to the stop, and is stopped on the same bar if that reaches the stop |
| FillV1Rules.GivenUpOrWaits | src/core/fills/v1/engine.py:183-245 | a bar without a fill gives the order up exactly when it crossed the stop or lost a zone that is not waited for; otherwise the zone counts as lost exactly when the bar closed outside it |
| FillV1Rules.StopComesFirst | src/core/fills/v1/engine.py:275-305 | a bar that reaches the stop in force closes the whole position there, or at a worse open, less slippage, whatever else it reached |
| FillV1Rules.TargetsAreTaken | src/core/fills/v1/engine.py:275-344 | otherwise reached targets are taken at their own price, the first in part when there is a second, with breakeven as stop from the next minute; otherwise only the marks move |
| FillV1Rules.LastMinuteEnds | src/core/fills/v1/engine.py:122-150 | the last expected minute ends every order: what is pending expires, what is open is closed at the close less slippage |
| FillV1Events.EventsTellMarketPrices | src/core/fills/v1/mirror.py:45-50 | the prices inside every event are those of the market for SHORT orders too: zone edge, raw entry, breakeven stop, stop level and raw stop price, closing price, trigger |
| FillV1Rules.ValidityCommand | src/core/fills/v1/engine.py:389-415 | the end of validity as a command: when it acts, closes, expires, flags or raises |
| FillV1Rules.CreatedFlat | src/core/fills/v1/engine.py:81-119 | creation is refused exactly for a signal past pending or a reserved key, and starts flat with the signal's gating |
| FillV1Rules.CancelEnds | src/core/fills/v1/engine.py:428-438 | canceling ends a running order where it stands and leaves an ended one alone |
| FillV1Rules.FreezeStops | src/core/fills/v1/engine.py:441-450 | a freeze is recorded once per reason and no bar counts after it |
| FillV1Rules.DividendFollowsThePosition | src/core/fills/v1/engine.py:453-468 | a validated dividend is paid to LONG and charged to SHORT positions per open share; anything else pays nothing |
| FillV1Laws.V1IsWellBehaved | src/core/fills/v1/engine.py:81-468 | v1 meets the contract the ledger theorems ask for: creation, bars, cancel, freeze, review, dividend and validity end replay from their first recorded event |
| FillV1Contracts.V1StandsStill | src/core/fills/v1/engine.py:389-468 | no v1 command moves the trade of a frozen or ended order, and a freeze stops any order: what the two results about stopped orders ask of a model |
| FillV1Contracts.V1IsFoldable | src/core/fills/v1/engine.py:153-159 | cutting bars in time order in two and evaluating the parts reaches the same state: what the minute-by-minute result asks of a model |
| ReloadedCalendar.V1IsBlind | src/core/fills/v1/engine.py:81-468 | every v1 function gives equal results under two calendars with equal order windows |
| ReloadedCalendar.ReloadedHistoryIsTheSame | src/virtual_orders/evaluator/context.py:30-45 | loading an order on a calendar that passes the window check regenerates the same history; any other calendar is refused |
| ReloadedCalendar.WindowMissingIff | src/core/domain/calendar.py:145-161 | a valid context has no window to hash if and only if its last loaded session opens exactly at the order's end |
| FillV1Accounts.SegmentationIsIrrelevant | src/core/fills/v1/engine.py:122-159 | however an order's bars are cut into segments, events and final state are those of one evaluation |
| FillV1Accounts.RepeatedBarsAreHarmless | src/core/fills/v1/engine.py:122-150 | evaluating bars again, all or some, in any order, adds no event and changes nothing |
| FillV1Accounts.EventsAccountForTheOrder | src/core/fills/v1/engine.py:248-386 | realized profit, costs and open quantity of a LONG or SHORT order are exactly what its events report; once closed everything bought is sold |
| Indicators.Sma | src/virtual_orders/research/indicators.py:43-55 | the running sum is the mean of the last values, once there are enough |
| Indicators.Ema | src/virtual_orders/research/indicators.py:58-75 | the running average is seeded with a simple mean and depends on the past alone |
| Indicators.Wilder | src/virtual_orders/research/indicators.py:78-89 | the smoothing loop is the recursive average of the past |
| Indicators.Rsi | src/virtual_orders/research/indicators.py:92-113 | the strength index of the gains and losses so far |
| Indicators.Atr | src/virtual_orders/research/indicators.py:116-133 | the smoothed true ranges, where each range uses the close before it |
| Indicators.ComputeMacd | src/virtual_orders/research/indicators.py:143-170 | the signal smooths only the candles where the line exists; the histogram is their difference |
| Indicators.RelativeVolume | src/virtual_orders/research/indicators.py:173-194 | the baseline is the mean of the candles before, never the current one |
| Indicators.Volatility | src/virtual_orders/research/indicators.py:197-221 | the deviation of the recent returns so far |
| Indicators.ComputeSeries | src/virtual_orders/research/indicators.py:314-339 | all indicators of a series, each a function of the candles so far |
| Indicators.IndicatorsNeverLookAhead | src/virtual_orders/research/indicators.py:264-339 | indicators of two series agree wherever their candles so far agree |
| IndicatorLaws.HalfEvenIsNearest | src/virtual_orders/research/indicators.py:43-55 | rounding moves a value by at most half a step, ties to the even step |
| IndicatorLaws.AveragesStayAmongTheValues | src/virtual_orders/research/indicators.py:43-75 | simple and exponential averages exist exactly from their period on and stay between any bounds of the values seen |
| IndicatorLaws.EmaMovesTowards | src/virtual_orders/research/indicators.py:58-75 | the exponential average starts as the mean of its first period and each later value moves it two parts in period plus one of the way towards it; the entry is that average, rounded |
| IndicatorLaws.WilderMovesTowards | src/virtual_orders/research/indicators.py:78-89 | the Wilder average starts as the mean of its first period and each later value moves it one part in period of the way |
| IndicatorLaws.StrengthIsTheShareOfGains | src/virtual_orders/research/indicators.py:92-113 | the strength index is the share of the gains in all moves, 100 without a loss |
| IndicatorLaws.StrengthStaysInScale | src/virtual_orders/research/indicators.py:92-113 | it exists exactly beyond its period and lies in [0, 100], at 100 on a series that never falls |
| IndicatorLaws.TrueRangeIsTheSpan | src/virtual_orders/research/indicators.py:116-127 | the true range is the span of the candle together with the close before it |
| IndicatorLaws.AverageRangeIsPositive | src/virtual_orders/research/indicators.py:130-140 | the average range exists from its period on and is never negative |
| IndicatorLaws.LineFollowsTheFasterAverage | src/virtual_orders/research/indicators.py:143-170 | the line is on the side of the faster average |
| IndicatorLaws.HistogramFollowsTheLine | src/virtual_orders/research/indicators.py:143-170 | the histogram exists once the signal does and is on the side of the line |
| IndicatorLaws.NotInItsOwnBaseline | src/virtual_orders/research/indicators.py:173-183 | a candle is not in its own volume baseline |
| IndicatorLaws.VolumeAgainstItsBaseline | src/virtual_orders/research/indicators.py:186-194 | relative volume needs a positive baseline and is on the right side of one |
| IndicatorLaws.DeviationVanishesIffEven | src/virtual_orders/research/indicators.py:208-221 | the deviation takes the root of a number that is zero if and only if all returns are equal |
| MarketStructure.FindSwings | src/virtual_orders/research/market_structure.py:79-97 | the pivot loop finds the strict extremes of their neighbourhood |
| StructureLaws.PivotsAreStrictExtremes | src/virtual_orders/research/market_structure.py:79-97 | a pivot is found if and only if a candle's high or low is strictly past that of every neighbour in the window |
| MarketStructure.ConfirmedAreThePast | src/virtual_orders/research/market_structure.py:79-101 | pivots of the whole series confirmed at a candle are exactly the pivots of the series as it stood there |
| MarketStructure.NearestLevels | src/virtual_orders/research/market_structure.py:182-240 | resistance and support are the nearest confirmed pivots above and below the close |
| MarketStructure.StructureNeverLooksAhead | src/virtual_orders/research/market_structure.py:182-240 | the structure at a candle is the same whatever follows it |
| StructureLaws.DistanceSide | src/virtual_orders/research/indicators.py:224-229 | a distance is unknown without a reference and otherwise on the side of the price |
| StructureLaws.TrendIsTheWindowsMove | src/virtual_orders/research/market_structure.py:104-134 | the prior trend is known exactly with a full window before the candle, and points the way from its first close to its last |
| StructureLaws.TrendNeedsAMove | src/virtual_orders/research/market_structure.py:104-110 | a trend starts at half a percent and is at full strength from two percent on |
| StructureLaws.AveragesGiveATrend | src/virtual_orders/research/market_structure.py:137-147 | two known averages give the trend of the side the faster one is on |
| StructureLaws.BreakoutIsPastAPivot | src/virtual_orders/research/market_structure.py:182-240 | a breakout is a close strictly past the latest confirmed swing high or low, both known |
| StructureLaws.GapIsAgainstTheCloseBefore | src/virtual_orders/research/market_structure.py:167-179 | a gap is an open at least half a percent from the close before, on the side it opens to |
| StructureLaws.ContextIsReadFrom | src/virtual_orders/research/market_structure.py:182-240 | which averages, pivots and prices each part of the context is read from, and when there is no context |
| Patterns.IdentityWindowSuffices | src/virtual_orders/research/candlesticks.py:371-423 | detection on the identity window gives the same readings as on the whole history |
| PatternLaws.EveryLengthSeesItsOwnTrend | src/virtual_orders/research/candlesticks.py:371-423 | detectors of one, two and three candles see their own candles and the trend before the first of them; all they find is returned, in order of the names; refused exactly outside the list or across timeframes |
| PatternLaws.RankIsAlphabetical | src/virtual_orders/research/candlesticks.py:423 | readings are in the alphabetical order of their pattern names, and no two patterns tie |
| Patterns.EqualWindowsEqualReadings | src/virtual_orders/research/service.py:346-382 | equal window content means equal readings |
| Patterns.NarrowerWindowIsNotEnough | src/virtual_orders/research/service.py:353-375 | one candle less at the old end loses the trend before a three-candle pattern |
| Patterns.ReadingsNeverLookAhead | src/virtual_orders/research/backtest.py:119-165 | the readings at a candle depend only on the candles up to it |
| Timeframes.BucketsAreTheSession | src/virtual_orders/research/timeframes.py:40-46 | the buckets of a session are its expected minutes, none missing and none twice |
| Timeframes.BucketsNest | src/virtual_orders/research/timeframes.py:40-46 | cutting each coarse bucket into fine ones is cutting the session into fine ones |
| Timeframes.EveryTimeframeNests | src/virtual_orders/research/timeframes.py:40-46 | every timeframe of a session cuts the next coarser one, from days down to five minutes |
| Timeframes.Resample | src/virtual_orders/research/timeframes.py:55-112 | candles of the elapsed buckets only, one per bucket with a bar; refused exactly on a repeated minute |
| ResampleLaws.CandlesAreTheCompletedBuckets | src/virtual_orders/research/timeframes.py:49-112 | a candle is emitted if and only if it is that of a bucket over by then, with a stored bar, of a session that meets the window |
| ResampleLaws.CandleTellsItsBucket | src/virtual_orders/research/timeframes.py:64-82 | a candle opens with the first stored minute of its bucket, closes with the last, spans the extremes of all, and is cut short exactly when its bucket is shorter than the timeframe |
| Timeframes.ResampledVolumeConserved | src/virtual_orders/research/timeframes.py:64-112 | the candles of a whole resampled series carry exactly the volume of the bars in its completed buckets |
| Timeframes.EmittedCandlesAreFinal | src/virtual_orders/research/timeframes.py:85-112 | for the same bars a later instant only appends candles |
| Timeframes.FineCandlesMakeTheCoarseOne | src/virtual_orders/research/timeframes.py:64-112 | aggregating the fine candles of a completed coarse bucket gives the coarse candle's prices, volume and number of bars |
| Timeframes.ExpectedMinutesAddUpIffNoGap | src/virtual_orders/research/timeframes.py:64-112 | the fine candles of a completed coarse bucket never expect more minutes than the coarse one, and as many if and only if every fine bucket holds a bar |
| Timeframes.GapLosesExpectedMinutes | src/virtual_orders/research/timeframes.py:64-112 | a session of ten minutes with one bar: ten minutes expected by its one coarse candle, five by its fine ones |
| Identity.BetweenIsFilter | src/virtual_orders/research/identity.py:36-55 | a bisected lookup returns exactly the bars a scan over all of them would |
| Identity.ReadOrderIsIrrelevant | src/virtual_orders/research/identity.py:52-55 | the order bars were read in cannot change a lookup |
| Identity.InputHashIsContents | src/virtual_orders/research/identity.py:58-79 | the hashed material of a window is the contents of its buckets, in order |
| Identity.ContentsDetermineCandles | src/virtual_orders/research/identity.py:22-33 | equal contents mean the same buckets holding the same values |
| Identity.UnchangedHashUnchangedReadings | src/virtual_orders/research/service.py:346-412 | an unchanged content hash means detection finds what it found before, whichever batches delivered the bars |
| Labels.TargetBeforeStop | src/virtual_orders/research/labels.py:164-238 | the candle loop is the declarative first touch, with the stop winning ties and the excursions up to the exit |
| LabelLaws.FirstBarrierDecides | src/virtual_orders/research/labels.py:164-228 | the first candle to reach a barrier decides; a stop wins a shared candle; the exit is the barrier, or the open past it; the multiple is that price's |
| LabelLaws.DecidedExcursions | src/virtual_orders/research/labels.py:196-228 | excursions are the extremes of entry and candles up to the deciding one, whose favourable side counts only when it does not stop the trade |
| LabelLaws.NothingDecided | src/virtual_orders/research/labels.py:190-238 | without a touch the label is a timeout at the last close within the limit, complete exactly when the limit was reached, or no data |
| Labels.ResolvedIsFinal | src/virtual_orders/research/labels.py:164-238 | a resolved outcome never changes with more candles or a longer horizon |
| Labels.OutcomeBounds | src/virtual_orders/research/labels.py:115-244 | bounds of the R values on target, stop and timeout: a stop costs at least one R, a target never costs anything, a timeout lies between the excursions |
| Labels.TargetsPayIffFarEnough | src/virtual_orders/research/labels.py:115-244 | every target hit over every consistent future has a positive multiple if and only if the target's distance, in R, exceeds half a rounding step |
| Labels.TargetWorthNothing | src/virtual_orders/research/labels.py:115-244 | a concrete valid trade whose target is hit with a multiple of zero |
| Labels.ExtremesAttained | src/virtual_orders/research/labels.py:196-208 | the best and worst prices are the entry or a price of a candle that was read |
| Labels.ReflectionSwapsSides | src/virtual_orders/research/labels.py:164-244 | reflecting prices about the entry swaps LONG and SHORT with the same R values |
| Labels.HorizonBounds | src/virtual_orders/research/labels.py:77-112 | the horizon return lies between the excursions; complete exactly when enough candles followed |
| LabelLaws.HorizonReturns | src/virtual_orders/research/labels.py:77-112 | the horizon return is taken at the last close within the horizon, the excursions at the highest high and the lowest low of its candles |
| Backtest.BuildOccurrences | src/virtual_orders/research/backtest.py:128-190 | the loop over candles collects, for each, what is known there and its labels |
| BacktestLaws.OneCandidatePerReading | src/virtual_orders/research/backtest.py:145-190 | at each candle exactly one candidate per wanted reading that points somewhere, in order: bullish ones bought, bearish ones sold, at that candle |
| BacktestLaws.BarriersAreOnTheirSides | src/virtual_orders/research/labels.py:147-161 | target on the profitable side and stop on the other, each its multiple of the range away |
| BacktestLaws.LabelsAreRefusedIff | src/virtual_orders/research/labels.py:77-185 | labels are refused exactly for an empty horizon, a worthless entry, or a trade without room on either side |
| BacktestLaws.SnapshotHoldsTheAverages | src/virtual_orders/research/backtest.py:184-189 | the snapshot holds the 9, 20, 50 and 200 candle averages of the closes so far and the distances from them |
| BacktestLaws.SnapshotHoldsTheIndicators | src/virtual_orders/research/backtest.py:184-189 | and strength, range, volume, volatility and MACD of the candles up to it, each in its own place |
| Backtest.NothingLooksAhead | src/virtual_orders/research/backtest.py:149-189 | readings, structure and the feature snapshot at a candle are equal for any two histories that agree up to it |
| Backtest.LabelsIgnoreHistory | src/virtual_orders/research/backtest.py:166-189 | labels see history only through the entry, the ATR and the direction |
| Backtest.LabelsReadWhatTheyCount | src/virtual_orders/research/backtest.py:166-184 | the labels are a function of the next candles they count as used: cutting the future off there changes nothing |
| Backtest.OccurrencesBuilt | src/virtual_orders/research/backtest.py:145-189 | every occurrence was built at one candle, its labels are those of the candles after it that it counts, and its label end is the end of the last of them |
| Backtest.PurgedTrainingIsBlind | src/virtual_orders/research/backtest.py:316-329 | over occurrences of any tickers, what purging keeps was labelled only from candles that ended by the boundary less the embargo |
| Backtest.BooksJoin | src/virtual_orders/research/backtest.py:128-190 | what the backtest builds for one more ticker joins a list the blindness theorems are about |
| Backtest.SplitTrainsBlind | src/virtual_orders/research/backtest.py:337-369 | every training occurrence of a split was signalled before the boundary and labelled only from candles that ended by the boundary less the embargo; everything that evaluates it was signalled at the boundary or later |
| Backtest.FoldTrainsBlind | src/virtual_orders/research/backtest.py:378-406 | the same for every fold of a walk-forward |
| Backtest.SplitsPartition | src/virtual_orders/research/backtest.py:337-369 | before purging the three splits partition the occurrences chronologically; evaluation sets lose nothing |
| BacktestLaws.ChronologicalIsOrdered | src/virtual_orders/research/backtest.py:239-241 | the chronological order is by signal candle, then ticker, then pattern, a total order, and a permutation |
| BacktestLaws.SplitIsRefusedIff | src/virtual_orders/research/backtest.py:350-356 | a split is refused exactly without occurrences or with fractions that leave no room |
| BacktestLaws.SplitKeepsToItsFractions | src/virtual_orders/research/backtest.py:332-369 | training, and training with validation, hold at most their fractions, and all of them but a part of one occurrence unless signals tie |
| Backtest.WalkForward | src/virtual_orders/research/backtest.py:378-406 | refused exactly with fewer than two folds or too few occurrences; otherwise each fold in turn |
| Backtest.TrainingGrows | src/virtual_orders/research/backtest.py:378-406 | kept training sets only grow, end before their test period and are purged |
| Backtest.TestsOverlapOnlyOnTies | src/virtual_orders/research/backtest.py:378-406 | consecutive folds share a test observation if and only if signals tie at the boundary |
| Backtest.TiedSignalsAreTestedTwice | src/virtual_orders/research/backtest.py:378-406 | three occurrences in three folds, two of them tied: both test sets hold both |
| Backtest.TestedIffWithinTheSlices | src/virtual_orders/research/backtest.py:378-406 | an observation is tested by some fold if and only if it was signalled from the start of the second slice to the end of the last full slice |
| Backtest.RemainderIsNeverTested | src/virtual_orders/research/backtest.py:378-406 | three occurrences in two folds: the third is never tested |
| Supersession.Reconcile | src/virtual_orders/research/reconcile.py:29-44 | the loop names each stale row once, superseded when its pattern is found again and retracted otherwise |
| Supersession.ScanKeepsSound | src/virtual_orders/research/service.py:354-419 | one retirement per fact and at most one active reading per bucket and pattern, after every scanned bucket |
| Supersession.ActiveIsFound | src/virtual_orders/research/service.py:261-311 | after a scan active equals found if and only if nothing found had been retired before |
| Supersession.RescanWritesNothing | src/virtual_orders/research/service.py:395-419 | scanning a bucket again on the same content writes nothing |
| Supersession.ScanSeries | src/virtual_orders/research/service.py:314-419 | the scan loop: resume, revisit floor, stop at the first unsettled candle, with its three counters |
| Supersession.ApplyReconciliation | src/virtual_orders/research/service.py:261-311 | the two writing loops, and the count of corrections whose replacement is no longer active |
| Supersession.EveryScanIsCounted | src/virtual_orders/research/service.py:314-419 | after any history a scan adds exactly the readings it counts, and exactly the retirements it counts less those it counts as reverted |
| ScanLaws.ScannedBucketsAreFound | src/virtual_orders/research/service.py:314-419 | in every bucket a scan visits and reaches, what is active afterwards is what the engine finds there now, if and only if nothing found had been retired before |
| ScanLaws.OtherBucketsStay | src/virtual_orders/research/service.py:354-366 | every other bucket keeps its rows and its retirements |
| ScanLaws.RevisionIsSeenWithinTheFloor | src/virtual_orders/research/service.py:345-361 | a concrete revised bucket: retracted when it lies within the revisited sessions, left alone otherwise |
| Supersession.RerunWritesNothing | src/virtual_orders/research/service.py:314-419 | a whole scan repeated on the same data, at any later watermark, writes nothing |
| Supersession.EveryStoreIsSound | src/virtual_orders/research/repository.py:326-353 | every reachable store is sound |
| Supersession.ThePastStaysAsItWas | src/virtual_orders/research/repository.py:356-393 | the view as of the k-th scan, asked after any later scans, is the active view right after it |
| Supersession.RetractedThenFoundAgain | src/virtual_orders/research/service.py:279-311 | a retracted reading that returns stays inactive and is not counted as reverted |
| Crossings.PriceCrossings | src/virtual_orders/alerts/rules.py:20-36 | the previous/last loop over the bars in time order |
| Crossings.AlertsAreCooledCrossings | src/virtual_orders/alerts/rules.py:16-36 | a bar alerts if and only if its close is on or past the level in the rule's direction, the close before it was strictly on the other side, and a cooldown has passed since every earlier alert and the starting one |
| Crossings.RuleAlerts.Enqueue | src/virtual_orders/alerts/outbox.py:65-82 | an alert key is stored once; the result says whether it was new |
| Crossings.RuleAlerts.Evaluate | src/virtual_orders/alerts/watch.py:58-80 | restarts from the latest stored alert over the watched window and returns exactly what it added |
| Crossings.IncrementalIsOneShot | src/virtual_orders/alerts/watch.py:64-77 | evaluating any growing prefixes of a session enqueues exactly what one pass over the final bars selects |
| Outbox.AlertOutbox.Enqueue | src/virtual_orders/alerts/outbox.py:65-82 | the same key never makes a second row |
| Outbox.AlertOutbox.Deliver | src/virtual_orders/alerts/outbox.py:247-297 | one run: expire, then one attempt per due alert within batch and budget, counting delivered and failed answers |
| Outbox.EveryAnswerIsRecorded | src/virtual_orders/alerts/outbox.py:247-297 | what a run writes on each alert: expiry by age, the sink's own answer for each attempt the budget covers, nothing otherwise |
| Outbox.DeliveredOnce | src/virtual_orders/alerts/outbox.py:199-297 | an alert that was delivered or expired is never touched again, whatever runs follow |
| Outbox.OldestFirst | src/virtual_orders/alerts/outbox.py:270-271 | no due alert is passed over for a younger one, and none is left out while the batch has room |
| Outbox.DeliverKeepsFit | src/virtual_orders/alerts/outbox.py:261-297 | a run adds at most one row per alert, rewrites none and leaves nothing past its age open |
| Outbox.EveryRunDelivers | src/virtual_orders/alerts/outbox.py:199-297 | over every run: nothing after a terminal row, tries at least a backoff apart, at most 52 tries |
| Outbox.EveryOldAlertIsClosed | src/virtual_orders/alerts/outbox.py:199-210 | a delivery run leaves every alert past its age with exactly one terminal row, its last |
| Outbox.FiftyTwoIsReached | src/virtual_orders/alerts/outbox.py:93-97 | the bound is tight: a sink that keeps failing is tried exactly 52 times |

## Left out

- HTTP API, dashboard, command line, rendering, settings, migrations, providers and retries: plumbing; a fetch is any list of bars.
- SQL and locks: a transaction is one step and the ingestion lock a single holder; row locks, cancelled statements and crashes inside a transaction roll back to nothing.
- SHA-256, JSON and Decimal text: encodings are injective; the check that a stored payload still matches its own hash has no counterpart.
- Decimal context precision: the v1 engine computes in exact reals, so its rounding to the context's digits is not modelled; a division by a zero risk distance yields zero quantity instead of an error.
- Square root: the deviation of returns takes the root as an arbitrary function, the same for every series.
- Fill-model registry: one model per ledger; the version string is carried but not looked up.
- Calendar identity check inside the run theorem: its orders keep the calendar they were created with; `ReloadedCalendar` proves for v1 that any calendar that passes the check regenerates the same history.
- Contents of a divergence's diff and of incident details: only the reason is kept.
- Feed ingestion inside a live cycle, the resume map and the failure report: the cycle evaluates the listed orders; ingestion is its own step.
- Engine errors on a missing entry or stop price, or past the end of the calendar: a missing price reads as zero and a missing next minute as the minute itself.
- Naive timestamps: instants are integers, so the timezone checks have no counterpart.
- Candlestick thresholds, scores and evidence: detectors are arbitrary functions of their one, two or three candles and the trend before them.
- Pressure and volume-weighted fields of a feature snapshot, setup candidates and their rows: written beside detections and read by nothing modelled here.
- Fractions of a time split: exact reals, where the source uses decimals.
- Bootstrap and permutation statistics, summaries, promotion gates and level policy.
- Pressure alerts, order-event and incident enqueueing, health and end-of-day alerts: idempotent by the same key rule as price alerts.
- Source locking between delivery workers: delivery runs are sequential, with a clock that never runs backwards.
- BarStore.BarTables.AcquireDataAsOf: waits for the lock in the source; here it is only enabled when no ingestion is under way, and `Watermark` models the waiting.
- Supersession.ActiveIsFound: an engine is a function of bucket and content; that equal content means equal readings is `Identity.UnchangedHashUnchangedReadings`.
- Session quality: which minutes are missing, their gaps, the cross-checks and their flags are inputs of the command.
- Replay.RecalculateOrder: works from the dividend rows of its ticker checked by the watermark; selecting them is a query.
- Transactions.EvaluateTransaction: the calendar identity check at the start of an evaluation is not part of the transaction; `ReloadedCalendar` treats loading on its own.
- Transactions.CommandTransaction: likewise without the calendar identity check.
- OrderLedger.LedgerTables.LiveCycle: without feed ingestion, the exclusion of orders whose feed failed, and the run's final status.
- FillV1Laws.V1IsWellBehaved: about exact reals, and a missing price reads as zero where the engine raises.
