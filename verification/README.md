# Verification of the trading cores

A Dafny model of the parts of the trading platform whose behaviour spans steps,
and proofs about them. `dafny verify dfyconfig.toml` checks the whole project.

- **Backtest.** `BacktestSpec` says what each signal's trade does on its own;
  `BacktestEngine` has the loop over one shared list of open positions and
  proves that it computes the specification; `BacktestLaws`, `BacktestMoney` and
  `BacktestMetrics` prove what follows, and `OverdrawnBacktest` has a run that
  ends below zero. The strategy is an arbitrary function of the candles seen so
  far. `Indicators`, `IndicatorWeights` and `EmaTrendStrategy` cover the figures
  and levels a strategy works with, `RiskAgent` the verdicts on them.
- **Live and assisted execution.** `LiveStore` holds the stored rows and the
  guard with its check-and-reserve transaction. `LiveProtocol` is a transition
  system: any number of requests, each with a program counter, may interleave
  between any two awaits, crash anywhere, and lose or half-complete any write;
  limits, configuration, users and statuses may change at any time.
  `LiveSafety`, `LiveEvidence`, `LiveRuns`, `LiveOrders` and `LiveManual` prove
  what holds in every reachable state, and `LiveRaces` that the gaps they leave are reachable.
  `LiveServices` has the same operations as classes that update the stored rows,
  and `LiveSolo` proves each of them to be a run of its own protocol steps.
- **Paper trading.** `PaperTrading` has the engine over stored accounts and
  trades, `PaperLaws` the invariants over all runs of completed operations and
  the agreement with the backtest.
- **Algorithms.** Level clustering and ranking (`SupportResistance`,
  `LevelRanking`), the debounce map (`Debounce`), drawdowns and reports
  (`Drawdown`, `Analytics`, `Grouping`, `PerformanceSummary`), week keys
  (`WeekGrouping`) and the CSV printer (`CsvExport`).

Amounts are integers in units of 10^-8, the scale of the decimal columns, and
every `toFixed(8)` is an explicit rounding to that grid; paper balances are
exact, in units of 10^-16. Candles of one instrument and timeframe have
distinct timestamps (`prisma/schema.prisma:300`).

What the code does against what one might expect of it:

- With the default multipliers a SELL signal with an odd ATR (in units of
  10^-8) misses a minimum reward/risk of 2 and is rejected
  (`EmaTrendStrategy.DefaultsMeetTwoExactlyWhen`).
- The risk agent's monetary-risk check and the guard's daily-loss check never
  refuse for the reason they name (`RiskAgent.ApprovedExactlyWhen`,
  `LiveRuns.LossGateIsInert`).
- A reservation whose request ends before the order is sent blocks its signal
  and symbol for good (`LiveRuns.AbandonedRowBlocks`).
- Manual decisions check and write without a transaction, so a rejected signal
  can be traded (`LiveRaces.RejectedSignalTraded`). A run can go on to a second
  decision for a signal exactly when checks of that signal overlap
  (`LiveManual.SerialExactlyWhen`, `LiveManual.RaceExactlyWhen`).
- Two paper openings that both check first break the one-open rule exactly when
  they share an instrument (`PaperLaws.RacingOpensExactlyWhen`), and such
  openings arise (`PaperLaws.RacingOpensArise`).
- The relative drawdown is the largest fall over ordered pairs exactly when no
  balance is negative after a positive one, or the deepest overdraft came while
  only one positive height had been reached (`BacktestMetrics.PairsExactlyWhen`);
  on a backtest the two can differ (`OverdrawnBacktest.PairsFailInBacktest`).

## Model

| member | source | states |
|---|---|---|
| Rounding.Round | src/modules/backtesting/application/backtesting-engine.service.ts:318-320 | rounds to the 10^-8 grid as `toFixed(8)`: within half a unit, a tie going to the larger magnitude |
| Rounding.RoundIsNearest | src/modules/backtesting/application/backtesting-engine.service.ts:318-320 | no grid value is nearer than the rounded one, and a tie is never resolved towards zero |
| Rounding.RoundMonotone | src/modules/backtesting/application/backtesting-engine.service.ts:318-320 | rounding keeps order |
| Rounding.RoundNegated | src/modules/backtesting/application/backtesting-engine.service.ts:318-320 | rounding is odd, so gains and losses round alike |
| BacktestEngine.CloseTriggeredTrades | src/modules/backtesting/application/backtesting-engine.service.ts:146-175 | the backwards pass with its splices leaves exactly the untouched positions, in order, and reports the touched ones youngest first |
| BacktestEngine.CloseRemainingTrades | src/modules/backtesting/application/backtesting-engine.service.ts:205-229 | closes every leftover at the last close, oldest first, and empties the list |
| BacktestEngine.Book | src/modules/backtesting/application/backtesting-engine.service.ts:55-60 | books a batch of closed trades one by one: the history grows by the running balance after each |
| BacktestEngine.CountSignal | src/modules/backtesting/application/backtesting-engine.service.ts:77-91 | counts a created signal, a filtered one under its reason, and nothing else |
| BacktestEngine.NewTrade | src/modules/backtesting/application/backtesting-engine.service.ts:93-126 | opens a position exactly for an accepted signal, entered at the next close and sized off the balance at the signal |
| BacktestEngine.PassOnOpen | src/modules/backtesting/application/backtesting-engine.service.ts:146-175 | a pass over the specified open positions leaves those whose own exit is later and closes those whose exit is this candle |
| BacktestEngine.CandleStep | src/modules/backtesting/application/backtesting-engine.service.ts:53-127 | one candle takes the specified open positions, report and balance to the next ones |
| BacktestEngine.EndStep | src/modules/backtesting/application/backtesting-engine.service.ts:129-134 | closing the leftovers completes the specified report |
| BacktestEngine.BalanceIsBooked | src/modules/backtesting/application/backtesting-engine.service.ts:48-60 | the balance before a candle is the initial balance plus the booked profits, although sizes depend on that balance |
| BacktestEngine.RealisedStep | src/modules/backtesting/application/backtesting-engine.service.ts:55-60 | the profit realised before a candle grows by exactly the profits of the trades leaving at it |
| BacktestEngine.Run | src/modules/backtesting/application/backtesting-engine.service.ts:43-144 | the interleaved loop with its shared list computes the per-trade specification: report, balance history and filter counters |
| BacktestSpec.FirstTouch | src/modules/backtesting/application/backtesting-engine.service.ts:146-161 | the first candle from a given one that touches a trade, or the end of the data |
| BacktestSpec.ExitIndex | src/modules/backtesting/application/backtesting-engine.service.ts:93-101 | a trade leaves no earlier than two candles after its signal, and touches nothing before it leaves |
| BacktestLaws.ReportedOnce | src/modules/backtesting/application/backtesting-engine.service.ts:43-134 | each accepted signal is reported exactly once and nothing else is |
| BacktestLaws.ReportSize | src/modules/backtesting/application/backtesting-engine.service.ts:77-127 | the report has one trade per accepted signal, never more than the signals created |
| BacktestLaws.LeavesAtFirstTouch | src/modules/backtesting/application/backtesting-engine.service.ts:93-195 | a trade enters at the next close and leaves at its first candle touching stop or target, the stop winning a tie, else at the last close |
| BacktestLaws.ExitWithinLevels | src/modules/backtesting/application/backtesting-engine.service.ts:93-101 | an exit lies between stop and target, strictly inside at the end of the data, and later than the entry |
| BacktestLaws.StopCostsPlannedRisk | src/modules/backtesting/application/backtesting-engine.service.ts:109-126 | a stop on the losing side costs balance times risk percent, up to half of 10^-8 times (distance + 1), through both roundings |
| BacktestLaws.NoLookAhead | src/modules/backtesting/application/backtesting-engine.service.ts:53-76 | cutting the data after a candle changes no trade that had left by then |
| BacktestLaws.FilteredExactlyWhen | src/modules/backtesting/application/backtesting-engine.service.ts:84-91 | a signal counts as filtered exactly when it was refused with the marker and one of four causes in its reason |
| BacktestMoney.TradeHasSignalTerms | src/modules/backtesting/application/backtesting-engine.service.ts:93-126 | every reported trade has its signal's direction and levels and enters at the next close |
| BacktestMoney.SizedByRisk | src/modules/backtesting/application/backtesting-engine.service.ts:113-124 | size times stop distance is balance times the risk share, 1% unless given, within half a unit of size |
| BacktestMoney.ProfitIsMoveTimesSize | src/modules/backtesting/application/backtesting-engine.service.ts:197-203 | however a trade leaves, its profit is the move in its favour times its size, to the nearest unit |
| BacktestMoney.ProfitFollowsMove | src/modules/backtesting/application/backtesting-engine.service.ts:197-203 | with money at risk a favourable move never loses and an adverse one never gains; with a negative balance both turn round |
| BacktestMoney.LevelsPayTheirSide | src/modules/backtesting/application/backtesting-engine.service.ts:177-203 | with money at risk a target on the winning side never loses and a stop on the losing side never gains |
| BacktestMoney.PercentOfBalance | src/modules/backtesting/application/backtesting-engine.service.ts:169-169 | the percentage is profit over the balance before the exit, to the nearest unit, 0 for a balance of 0 |
| BacktestMoney.LabelAtEnd | src/modules/backtesting/application/backtesting-engine.service.ts:219-224 | a trade closed at the end of the data is labelled by the sign of its profit |
| BacktestMetrics.MaxDrawdown | src/modules/backtesting/application/backtesting-metrics.service.ts:39-52 | the one-pass scan returns the largest fall from a positive running peak |
| BacktestMetrics.PairsExactlyWhen | src/modules/backtesting/application/backtesting-metrics.service.ts:39-52 | that figure is the largest relative fall over all ordered pairs exactly when no balance is negative after a positive one, or the deepest overdraft came while only one positive height had been reached |
| BacktestMetrics.PeaksGivePairs | src/modules/backtesting/application/backtesting-metrics.service.ts:39-52 | without a negative balance after a positive one it is that fall, and lies between 0 and 1 |
| BacktestMetrics.PairsFailBelowZero | src/modules/backtesting/application/backtesting-metrics.service.ts:39-52 | the two can differ: history 1, 2, -1 reports 1.5 where the pair (1, -1) is a fall of 2 |
| OverdrawnBacktest.PairsFailInBacktest | src/modules/backtesting/application/backtesting-engine.service.ts:43-144 | and they differ on a backtest: with the whole balance at risk twice, a win and two stops on one candle end below zero |
| BacktestMetrics.DrawdownAboveOne | src/modules/backtesting/application/backtesting-metrics.service.ts:39-52 | the drawdown exceeds 1 exactly when a negative balance follows a positive one |
| BacktestMetrics.Calculate | src/modules/backtesting/application/backtesting-metrics.service.ts:7-37 | every reported figure in terms of the trades and the history |
| BacktestMetrics.FiguresAreNearest | src/modules/backtesting/application/backtesting-metrics.service.ts:24-35 | the reported rates and means, multiplied back, miss by at most half a unit |
| BacktestMetrics.WithResultExactly | src/modules/backtesting/application/backtesting-metrics.service.ts:13-14 | the trades with a label are exactly those that carry it, each as often as listed |
| BacktestMetrics.ResultsPartition | src/modules/backtesting/application/backtesting-metrics.service.ts:12-16 | wins, losses and breakevens partition the trades and their profits |
| BacktestMetrics.BreakevensAreFlat | src/modules/backtesting/application/backtesting-engine.service.ts:219-224 | a trade labelled breakeven has profit zero |
| BacktestMetrics.BacktestAddsUp | src/modules/backtesting/application/backtesting-engine.service.ts:43-144 | final balance is initial balance plus profits, the history is their prefix sums, and net profit is gross profit plus the losses |
| BacktestMetrics.ReasonsAddUp | src/modules/backtesting/application/backtesting-engine.service.ts:77-91 | the per-reason counts add up to the filtered signals |
| Indicators.Ema | src/modules/backtesting/application/backtesting-indicators.service.ts:20-34 | the EMA loop computes the smoothing state of the closes, rounded |
| Indicators.Rsi | src/modules/backtesting/application/backtesting-indicators.service.ts:36-63 | the RSI loop computes the ratio of the two smoothed averages, 100 without losses |
| Indicators.Atr | src/modules/backtesting/application/backtesting-indicators.service.ts:65-88 | the ATR loop computes the smoothed true range, rounded |
| Indicators.OneStepUpdate | src/modules/backtesting/application/backtesting-indicators.service.ts:10-18 | recomputing over one more candle is one smoothing step on that candle alone, for EMA, both RSI averages and ATR, from the first prefix that has the state |
| Indicators.EmaInRange | src/modules/backtesting/application/backtesting-indicators.service.ts:20-34 | the EMA lies between any bounds on the closes, before and after rounding |
| Indicators.RsiInRange | src/modules/backtesting/application/backtesting-indicators.service.ts:36-63 | the RSI lies between 0 and 100 |
| Indicators.RsiHundredExactlyWhen | src/modules/backtesting/application/backtesting-indicators.service.ts:56-62 | before rounding the RSI is 100 exactly when no close ever fell, a flat series included |
| Indicators.AtrInRange | src/modules/backtesting/application/backtesting-indicators.service.ts:65-88 | the ATR lies between any bounds on the true ranges and is never negative |
| IndicatorWeights.EmaWeights | src/modules/backtesting/application/backtesting-indicators.service.ts:22-27 | the EMA as a weighted sum: weight 2 / (period + 1) for the newest close, less by the remaining factor for each older one, the starting mean last |
| IndicatorWeights.WilderWeights | src/modules/backtesting/application/backtesting-indicators.service.ts:50-54 | the RSI averages and the ATR as weighted sums with weight 1 / period |
| IndicatorWeights.TrueRangeIsWidest | src/modules/backtesting/application/backtesting-indicators.service.ts:73-79 | the true range is the least bound of its three spans |
| IndicatorWeights.ChangesSplit | src/modules/backtesting/application/backtesting-indicators.service.ts:50-54 | a change is its gain less its loss, one of them zero |
| IndicatorWeights.RsiIsShare | src/modules/backtesting/application/backtesting-indicators.service.ts:56-61 | the RSI times all movement is 100 times the gains; 100 without losses |
| IndicatorWeights.RsiUnitsNearest | src/modules/backtesting/application/backtesting-indicators.service.ts:61-61 | as returned it is that figure to the nearest unit |
| EmaTrendStrategy.SignalsExactlyWhen | src/modules/strategies/application/ema-trend-strategy.service.ts:59-138 | BUY exactly when EMA20 > EMA50 > EMA200, the RSI lies in the buy range, no filter objects and no resistance is within 0.3% above; SELL the mirror image |
| EmaTrendStrategy.LevelsOfSignal | src/modules/strategies/application/ema-trend-strategy.service.ts:96-137 | the stop lies on the losing side and the target on the winning side, the ATR times its multiplier away, to the nearest unit |
| EmaTrendStrategy.FilteredIsCounted | src/modules/backtesting/application/backtesting-engine.service.ts:84-91 | what one of the strategy's four filters refuses, a backtest counts as filtered |
| EmaTrendStrategy.LevelDistance | src/modules/strategies/application/ema-trend-strategy.service.ts:287-289 | rounding a level moves its distance from the entry by at most half a unit |
| EmaTrendStrategy.SignalDistances | src/modules/strategies/application/ema-trend-strategy.service.ts:86-138 | stop and target lie within half a unit of the ATR multiples from the entry |
| EmaTrendStrategy.RewardRiskInterval | src/modules/strategies/application/ema-trend-strategy.service.ts:83-138 | the reward/risk the risk agent measures lies in the interval that rounding allows, so it is never rejected when the worst case meets the minimum |
| EmaTrendStrategy.DefaultDistances | src/modules/strategies/application/ema-trend-strategy.service.ts:83-84 | with multipliers 1.5 and 3: the exact distances, by the parity of the ATR |
| EmaTrendStrategy.DefaultsMeetTwoExactlyWhen | src/modules/risk/application/risk-agent.service.ts:182-186 | with the defaults a minimum ratio of 2 is met exactly when the ATR is even, or the signal is a BUY with 2 * close > 3 * ATR |
| RiskAgent.ApprovedExactlyWhen | src/modules/risk/application/risk-agent.service.ts:72-98 | approval means ratio, free slot and today's loss over the balance below the maximum; size times stop distance is balance times the risk share; the monetary-risk check compares a product with itself and never rejects |
| RiskAgent.ReasonsExactlyWhen | src/modules/risk/application/risk-agent.service.ts:174-200 | each rejection reason is given exactly for its own cause |
| RiskAgent.JudgedExactlyWhen | src/modules/risk/application/risk-agent.service.ts:72-98 | a verdict needs both levels and a stop away from the entry, and is approved or rejected, never adjusted |
| RiskAgent.DecidesExactlyWhen | src/modules/supervisor/application/supervisor-agent.service.ts:81-135 | BLOCK unless the kill switch is off, the mode is paper or assisted, the risk is approved, no event blocks, the confidence is 50 or more, the instrument is free, and slots and drawdown leave room; then OPERATE from the configured confidence on, WAIT below it |
| LiveStore.LatestApproved | src/modules/live-trading/application/live-trading-guard.service.ts:86-92 | the approved assessment of a signal after which it has no other, or none when it has none |
| LiveStore.ActiveSinceCounts | src/modules/live-trading/application/live-trading-guard.service.ts:144-154 | the daily count is the number of REQUESTED or EXECUTED rows created since the day began |
| LiveStore.RowCountsOnce | src/modules/live-trading/application/live-trading-guard.service.ts:144-159 | leaving out any row lowers the daily count and loss by exactly what that row adds |
| LiveStore.OlderRowsDoNotCount | src/modules/live-trading/application/live-trading-guard.service.ts:144-159 | a row created before the day began never changes the verdict of the limits, unless it still holds the symbol |
| LiveStore.Store.GetLimits | src/modules/live-trading/application/live-trading-guard.service.ts:164-177 | reading the limits creates the default row when there is none |
| LiveStore.Store.UpdateLimits | src/modules/live-trading/application/live-trading.service.ts:172-197 | a patch changes the named fields of the limits in force |
| LiveStore.Store.ValidateLiveExecution | src/modules/live-trading/application/live-trading-guard.service.ts:37-162 | every check in order, on the stored rows, with the limits row created on the way; GuardAcceptsExactlyWhen says the same without the order, counting the rows since the day began |
| LiveStore.Store.ReserveLiveExecution | src/modules/live-trading/application/live-trading.service.ts:199-248 | one transaction: an accepted check inserts one REQUESTED row, a refused one leaves nothing |
| LiveStore.Store.MarkLiveTradeExecuted | src/modules/live-trading/application/live-trading.service.ts:250-261 | only the row's status and payload change |
| LiveStore.Store.MarkLiveTradeFailed | src/modules/live-trading/application/live-trading.service.ts:263-271 | only the row's status changes |
| LiveSafety.GuardAcceptsExactlyWhen | src/modules/live-trading/application/live-trading-guard.service.ts:37-162 | the guard accepts exactly when every condition holds, order aside: among them fewer REQUESTED or EXECUTED rows created since the day began than the daily limit |
| LiveSafety.RowAddedByGuard | src/modules/live-trading/application/live-trading.service.ts:199-248 | a row is added only by a reservation the guard accepted |
| LiveSafety.KeepsOwners | src/modules/live-trading/application/live-trading.service.ts:28-133 | every step keeps each row with its one request and lets only that request move it, along its states |
| LiveSafety.KeepsExclusive | src/modules/live-trading/application/live-trading-guard.service.ts:110-142 | every step keeps at most one active row per signal and per symbol |
| LiveSafety.KeepsUnderCap | src/modules/live-trading/application/live-trading-guard.service.ts:144-154 | every step keeps the active rows of a day within the largest limit so far |
| LiveSafety.LimitsUnderCap | src/modules/live-trading/application/live-trading.service.ts:172-197 | the recorded cap follows every write of the limits |
| LiveEvidence.StepGrows | src/modules/supervisor/application/supervisor-agent.service.ts:188-196 | no step removes or changes a decision, an assessment or a signal's confidence |
| LiveEvidence.NewRowBacked | src/modules/live-trading/application/live-trading-guard.service.ts:86-132 | a reserved row has its approved assessment, OPERATE decision and manual approval |
| LiveEvidence.KeepsEvidence | src/modules/live-trading/application/live-trading-guard.service.ts:86-132 | every step keeps all rows backed by that evidence |
| LiveRuns.MutualExclusion | src/modules/live-trading/application/live-trading-guard.service.ts:110-142 | in every reachable state: one active row per signal and per symbol, at most one broker call per row, calls in flight only for REQUESTED rows and never two for one symbol |
| LiveRuns.RowsOnlyAdvance | src/modules/live-trading/application/live-trading.service.ts:250-271 | over any run a row keeps its reservation and an inactive row never changes again |
| LiveRuns.SecondOrderOnlyAfterFailure | src/modules/live-trading/application/live-trading.service.ts:78-131 | when a second order for a symbol or signal is sent, the first row has become FAILED and its call has returned |
| LiveRuns.AbandonedRowBlocks | src/modules/live-trading/application/live-trading.service.ts:50-76 | a REQUESTED row whose request has ended stays as it is forever, and no later row has its signal or symbol |
| LiveRuns.DailyCap | src/modules/live-trading/application/live-trading-guard.service.ts:144-154 | in every reachable state the active rows of any day are within the largest daily limit in force so far, midnight crossings included |
| LiveRuns.CapIsLargestLimit | src/modules/live-trading/application/live-trading.service.ts:172-197 | that bound is the largest limit any earlier state had |
| LiveRuns.LossGateIsInert | src/modules/live-trading/application/live-trading-guard.service.ts:156-159 | no row is ever CLOSED, so the daily loss is always zero and the loss check only refuses on a limit of zero or less |
| LiveRuns.DecisionsStay | src/modules/supervisor/application/supervisor-agent.service.ts:188-196 | over any run decisions and assessments are permanent |
| LiveRuns.RowWasReserved | src/modules/live-trading/application/live-trading.service.ts:205-240 | every row comes from one reservation, checked against the volume limit in force there |
| LiveRuns.EvidenceChain | src/modules/live-trading/application/live-trading-guard.service.ts:86-132 | every row ever reserved keeps its signal's direction and prices, an OPERATE decision taken while trading was allowed, at confidence 50 and the configured minimum or more, an approved assessment meeting its profile whose size is the volume and within the limit, and a manual approval |
| LiveRuns.RowsExist | src/modules/live-trading/application/live-trading.service.ts:250-271 | in every reachable state the row a request is working on exists |
| LiveRuns.OperateWasAllowed | src/modules/supervisor/application/supervisor-agent.service.ts:81-135 | over any run, a stored OPERATE decision was taken from a configuration the system really had, kill switch off and mode paper or assisted, with every other condition met |
| LiveRuns.ReservedWhileLive | src/modules/live-trading/application/live-trading-guard.service.ts:54-60 | every row was reserved by a request that had read a configuration the system really had, kill switch off and limited live trading on |
| LiveOrders.StageEntered | src/modules/live-trading/application/live-trading.service.ts:28-133 | each stage of a live request is entered by one kind of step only, log and write failures included |
| LiveOrders.WritesByOutcome | src/modules/live-trading/application/live-trading.service.ts:250-271 | a lost write leaves the tables as they were, and one that fails after it was applied leaves what a successful one leaves |
| LiveOrders.OrderTrail | src/modules/live-trading/application/live-trading.service.ts:38-79 | before an order is sent its row was reserved and both logs were written, in order |
| LiveOrders.ExecutionTrail | src/modules/live-trading/application/live-trading.service.ts:79-92 | a row is marked executed only after the broker answered so and the answer was logged |
| LiveOrders.ExecutedRow | src/modules/live-trading/application/live-trading.service.ts:79-92 | over any run, every EXECUTED row's request got an executed answer from the broker |
| LiveManual.PendingChange | src/modules/assisted-trading/application/assisted-trading.service.ts:312-320 | only a passed check raises a signal's count of decisions and requests about to decide |
| LiveManual.SerialKeepsOne | src/modules/assisted-trading/application/assisted-trading.service.ts:80-103 | while the checks of a signal do not overlap it has at most one decision, whatever happens to other signals |
| LiveManual.SerialExactlyWhen | src/modules/assisted-trading/application/assisted-trading.service.ts:80-103 | over a run, the checks of a signal never overlap exactly when its decisions and requests past their check never number two |
| LiveManual.RejectedNeverTraded | src/modules/assisted-trading/application/assisted-trading.service.ts:118-169 | a rejected signal whose own checks did not overlap never has a live trade |
| LiveManual.SecondDecisionExactlyWhen | src/modules/assisted-trading/application/assisted-trading.service.ts:80-103 | letting requests finish gives a second decision exactly when decisions and requests past their check are two or more |
| LiveManual.RaceExactlyWhen | src/modules/assisted-trading/application/assisted-trading.service.ts:80-103 | over a run, checks of a signal have overlapped exactly when some state so far could go on to a second decision |
| LiveRaces.RaceRun | src/modules/assisted-trading/application/assisted-trading.service.ts:73-158 | whenever a signal could be approved, two requests can leave it with a rejection and an approval |
| LiveRaces.RejectedSignalTraded | src/modules/live-trading/application/live-trading.service.ts:28-76 | a run from empty tables in which a rejected signal gets a live trade, whose REQUESTED row is then left without a request |
| LiveServices.TradingServices.ApproveSignal | src/modules/assisted-trading/application/assisted-trading.service.ts:73-103 | approval writes one APPROVE decision and the status, or refuses with the first failing precondition and writes nothing |
| LiveServices.TradingServices.RejectSignal | src/modules/assisted-trading/application/assisted-trading.service.ts:118-158 | rejection writes one REJECT decision and the status, or refuses and writes nothing |
| LiveServices.TradingServices.DecideSignalById | src/modules/supervisor/application/supervisor-agent.service.ts:138-226 | the supervisor writes one permanent decision, the one DecidesExactlyWhen describes, and moves the signal on only after OPERATE, by mode |
| LiveServices.TradingServices.EvaluateSignalById | src/modules/risk/application/risk-agent.service.ts:66-141 | the risk agent writes its assessment and the approved or rejected status |
| LiveServices.AssessedByRisk | src/modules/risk/application/risk-agent.service.ts:81-110 | the stored size times the stop distance is balance times the risk share, within half a unit of size, and the stored ratio is target over stop distance |
| LiveServices.TradingServices.ExecuteLiveFromSignal | src/modules/live-trading/application/live-trading.service.ts:28-133 | an uninterrupted request is refused without a trace, executed with its signal, or failed |
| LiveSolo.ApproveIsRun | src/modules/assisted-trading/application/assisted-trading.service.ts:276-320 | the approval's protocol steps can be taken exactly when no precondition refuses it, and leave what it leaves |
| LiveSolo.RejectIsRun | src/modules/assisted-trading/application/assisted-trading.service.ts:118-158 | the same for rejection |
| LiveSolo.SuperviseIsRun | src/modules/supervisor/application/supervisor-agent.service.ts:142-226 | the supervisor operation is the run of its protocol steps |
| LiveSolo.AssessIsRun | src/modules/risk/application/risk-agent.service.ts:104-141 | the risk evaluation is the run of its protocol steps |
| LiveSolo.ExecuteIsRun | src/modules/live-trading/application/live-trading.service.ts:28-133 | the live operation is the run of its protocol steps, whatever the broker replies |
| LiveSolo.LimitsAreRun | src/modules/live-trading/application/live-trading.service.ts:168-197 | reading and changing the limits are single steps that leave what the store's methods leave |
| PaperTrading.PaperTradingEngine.CreateAccount | src/modules/paper-trading/application/paper-trading-engine.service.ts:52-57 | a positive balance and a free name create an account holding that balance |
| PaperTrading.PaperTradingEngine.OpenTradeFromSignal | src/modules/paper-trading/application/paper-trading-engine.service.ts:83-178 | the checks in order, then one open trade on the terms AdmittedTerms gives, the refreshed equity and the signal's status |
| PaperTrading.PaperTradingEngine.CloseTrade | src/modules/paper-trading/application/paper-trading-engine.service.ts:180-236 | the checks in order, then the closed row and the booked balance |
| PaperTrading.PaperTradingEngine.EvaluateOpenTradesOnCandle | src/modules/paper-trading/application/paper-trading-engine.service.ts:238-254 | the loop over the queried rows, stopping at the first error |
| PaperTrading.PaperTradingEngine.RecalculateAccountEquity | src/modules/paper-trading/application/paper-trading-engine.service.ts:278-286 | equity becomes the balance plus the profit recorded on open trades |
| PaperTrading.LatestApproval | src/modules/paper-trading/application/paper-trading-engine.service.ts:302-322 | the approval of a signal by an agent after which there is no other, or none when there is none |
| PaperTrading.OpenIds | src/modules/paper-trading/infrastructure/prisma-paper-trades.repository.ts:26-42 | exactly the open trades of an instrument, newest first |
| PaperLaws.AdmitsExactlyWhen | src/modules/paper-trading/application/paper-trading-engine.service.ts:83-144 | a signal is admitted exactly when every check passes |
| PaperLaws.AdmittedTerms | src/modules/paper-trading/application/paper-trading-engine.service.ts:105-156 | an admitted trade is a BUY exactly for a BUY signal, has its instrument, entry, stop and target, the account asked for or the oldest active one, and the positive size the risk agent named or else that of the latest assessment |
| PaperLaws.CloseKeeps | src/modules/paper-trading/application/paper-trading-engine.service.ts:194-217 | closing books the profit on the one account, closes the one row and keeps the invariant |
| PaperLaws.AddKeeps | src/modules/paper-trading/application/paper-trading-engine.service.ts:111-168 | opening an admitted trade keeps the invariant |
| PaperLaws.AccountsAlwaysBalance | src/modules/paper-trading/application/paper-trading-engine.service.ts:194-217 | in every state of completed operations: balance is initial balance plus closed profits, equity is balance, one trade per signal, one open trade per instrument, and each closed row's profit and label follow from its prices |
| PaperLaws.AddedByOpening | src/modules/paper-trading/application/paper-trading-engine.service.ts:146-156 | only an opening adds a trade, one at the end and open, on its signal's terms |
| PaperLaws.TradeWasOpened | src/modules/paper-trading/application/paper-trading-engine.service.ts:146-156 | every trade of every reachable state was opened by one operation on the terms its signal had then, and still has them |
| PaperLaws.ClosedRow | src/modules/paper-trading/application/paper-trading-engine.service.ts:194-213 | closing writes price, reason, profit, its sign as label and its share of the balance before, and keeps the terms |
| PaperLaws.OpenRowCountsOnce | src/modules/paper-trading/application/paper-trading-engine.service.ts:278-286 | the recorded open profit counts each open row of the account once |
| PaperLaws.QueryNewest | src/modules/paper-trading/infrastructure/prisma-paper-trades.repository.ts:26-42 | whatever is stored, the query returns the newest open trades of the instrument, all of them up to 200 |
| PaperLaws.HistoryAlwaysKept | src/modules/paper-trading/application/paper-trading-engine.service.ts:189-192 | no later operation reopens, edits or removes a trade |
| PaperLaws.QueryComplete | src/modules/paper-trading/infrastructure/prisma-paper-trades.repository.ts:38-39 | with one open trade per instrument the 200-row limit drops nothing |
| PaperLaws.EvaluateExactly | src/modules/paper-trading/application/paper-trading-engine.service.ts:238-254 | a candle never rejects and closes exactly the touched open trade of its instrument, at its level |
| PaperLaws.EvaluateIdempotent | src/modules/paper-trading/application/paper-trading-engine.service.ts:238-254 | afterwards no open trade is touched, and the same candle again changes nothing |
| PaperLaws.RacingOpensExactlyWhen | src/modules/paper-trading/application/paper-trading-engine.service.ts:111-156 | two openings that both check before either writes break the one-open rule exactly when they share an instrument |
| PaperLaws.RacingOpensArise | src/modules/paper-trading/application/paper-trading-engine.service.ts:111-156 | such a pair of openings arises from empty tables |
| PaperLaws.AgreesWithBacktest | src/modules/paper-trading/application/paper-trading-engine.service.ts:349-374 | fed the candles after entry, a paper trade closes at the backtest's exit price for the same reason, or stays open exactly when the data end first |
| PaperLaws.OpenedTradeFollowsBacktest | src/modules/paper-trading/application/paper-trading-engine.service.ts:146-156 | a signal with the strategy's levels at the next close, admitted in any sound state, gives a trade that follows the backtest, and with the same size the backtest's profit is the paper profit rounded |
| PaperLaws.LabelsAgreeExactlyWhen | src/modules/paper-trading/application/paper-trading-engine.service.ts:200-201 | the WIN/LOSS labels agree exactly when the level reached lies on its proper side of the entry |
| SupportResistance.ClusterLevels | services/agents/app/analysis/support_resistance.py:57-74 | the nested first-match loops compute the linear last-cluster scan of the sorted prices |
| SupportResistance.GreedyIsLinear | services/agents/app/analysis/support_resistance.py:57-69 | on sorted prices searching all clusters for the first match equals looking at the last one only |
| SupportResistance.LinearShape | services/agents/app/analysis/support_resistance.py:61-69 | everything after a cluster lies beyond that cluster's tolerance |
| SupportResistance.LinearClusters | services/agents/app/analysis/support_resistance.py:58-69 | clusters are consecutive slices, each price near those before it in its cluster, each cluster starting where the previous was missed |
| SupportResistance.ClusteringUnique | services/agents/app/analysis/support_resistance.py:58-69 | no other clustering has that property |
| SupportResistance.LevelsSeparated | services/agents/app/analysis/support_resistance.py:71-74 | touches add up to the number of pivots, and each level exceeds every earlier one by more than that one's tolerance |
| SupportResistance.LevelFigures | services/agents/app/analysis/support_resistance.py:71-82 | a level's price times its touches is the sum of its pivots; it is strong from three touches on and medium at two |
| SupportResistance.NearExactlyWhen | services/agents/app/analysis/support_resistance.py:61-65 | a price joins a cluster within the given share of its mean or within 10^-12 |
| SupportResistance.SortedOrders | services/agents/app/analysis/support_resistance.py:59-59 | the sorted prices are ordered and a permutation |
| LevelRanking.DetectSupportResistance | services/agents/app/analysis/support_resistance.py:13-54 | the detector returns the five nearest levels on each side, nearest first, of the window DetectedInFrame describes |
| LevelRanking.FiveAround | services/agents/app/analysis/support_resistance.py:32-41 | the four comparisons say the low (high) is the lowest (highest) of five bars |
| LevelRanking.SupportsRank | services/agents/app/analysis/support_resistance.py:46-46 | sorting supports by distance and touches lists them from the highest down |
| LevelRanking.ResistancesRank | services/agents/app/analysis/support_resistance.py:47-47 | sorting resistances lists them from the lowest up |
| LevelRanking.NearestLevels | services/agents/app/analysis/support_resistance.py:52-53 | the nearest support is the highest level at or below the close and the nearest resistance the lowest at or above it, each missing exactly when there is none |
| LevelRanking.DetectedInFrame | services/agents/app/analysis/support_resistance.py:18-54 | of the frame: nothing with fewer than five bars in view, else levels from exactly the pivots among the last lookback bars, the five nearest on each side and the nearest ones, around the close of the frame's last bar |
| LevelRanking.OlderBarsDoNotCount | services/agents/app/analysis/support_resistance.py:18-18 | bars before the last lookback ones never change the answer |
| Debounce.TechnicalAnalysisQueueProducer.IsDebounced | src/queues/technical-analysis-queue.producer.ts:115-124 | answers from the map before the purge, and purges exactly the stale entries |
| Debounce.TechnicalAnalysisQueueProducer.EnqueueTechnicalAnalysis | src/queues/technical-analysis-queue.producer.ts:60-79 | a forced request skips the check and the purge; a queued one is recorded at its second clock reading |
| Debounce.PurgingForgetsNothing | src/queues/technical-analysis-queue.producer.ts:60-124 | on every run the purging map answers as a never-purged one, and a request is skipped exactly when it is unforced and an earlier queued request of its key was recorded within the window |
| Drawdown.MaxDrawdown | src/modules/analytics/application/metrics-calculator.service.ts:68-78 | the scan returns the largest fall of the equity curve over all ordered pairs, starting at 0 |
| Drawdown.LargestFallUnique | src/modules/performance/application/performance-summary.service.ts:64-76 | that figure is unique, so both reports show the same one |
| Analytics.Calculate | src/modules/analytics/application/metrics-calculator.service.ts:6-43 | the figures of the trades, the drawdown taken in date order |
| Analytics.EquityCurve | src/modules/analytics/application/metrics-calculator.service.ts:45-58 | each point is the initial balance plus the profits so far in date order, the last one the net profit |
| Analytics.ExpectancyIsMean | src/modules/analytics/application/metrics-calculator.service.ts:14-35 | wins, losses and breakevens partition the trades, net is gross profit plus gross loss, and expectancy times trades is the net profit |
| Analytics.FiguresMultiplyBack | src/modules/analytics/application/metrics-calculator.service.ts:14-30 | rates and averages multiply back, the profit factor times the losses is the profit, and without losses it is the profit itself |
| Analytics.WhereExactly | src/modules/analytics/application/metrics-calculator.service.ts:8-10 | the trades that meet a condition are exactly those, as often as listed |
| Analytics.SortedByDate | src/modules/analytics/application/metrics-calculator.service.ts:72-82 | trades are taken in order of closing time, or opening time for one without |
| Grouping.Grouped | src/modules/analytics/application/analytics.service.ts:30-43 | one group per key that occurs, with that key's trades in order, whatever the collation, shown in key order |
| Grouping.GroupsAddUp | src/modules/analytics/application/analytics.service.ts:30-43 | counts, wins, gross profits, gross losses and net profits of the groups add up to those of all trades |
| Grouping.ShownGroupsAddUp | src/modules/analytics/application/analytics.service.ts:42-42 | the figures shown for the groups add up to the ungrouped ones, before display rounding |
| PerformanceSummary.GetSummary | src/modules/performance/application/performance-summary.service.ts:9-54 | the second report's figures, by stored label and in query order |
| PerformanceSummary.LabelledExactly | src/modules/performance/application/performance-summary.service.ts:23-28 | a label counts the rows that carry it, no matter what they earned |
| PerformanceSummary.SummaryMultipliesBack | src/modules/performance/application/performance-summary.service.ts:23-50 | whatever the labels, rates and averages multiply back, the net profit takes every row, and the expectancy times the rows is what the labelled ones earned |
| PerformanceSummary.ReportsAgree | src/modules/performance/application/performance-summary.service.ts:23-50 | on rows labelled by sign and read in closing order both reports show the same figures |
| WeekGrouping.YearLength | src/modules/analytics/application/analytics.service.ts:85-86 | years have the Gregorian lengths and day 0 is 1 January 1970 |
| WeekGrouping.DaysOfWeek | src/modules/analytics/application/analytics.service.ts:83-83 | day 0 is a Thursday and the days of the week follow one another, Sunday as 7 |
| WeekGrouping.WithinDay | src/modules/analytics/application/analytics.service.ts:82-82 | a moment lies within the day it is counted to |
| WeekGrouping.KeyReads | src/modules/analytics/application/analytics.service.ts:87-87 | a key is its year, the mark and its number in two digits |
| WeekGrouping.YearUnique | src/modules/analytics/application/analytics.service.ts:85-85 | the calendar year containing a day is unique |
| WeekGrouping.WeekInYear | src/modules/analytics/application/analytics.service.ts:81-88 | a day's week starts (number - 1) weeks after the week of 4 January of its year and before that of the next, with 1 to 53 weeks |
| WeekGrouping.WeekUnique | src/modules/analytics/application/analytics.service.ts:81-88 | no other year and number has that property |
| WeekGrouping.WeekKeyInjective | src/modules/analytics/application/analytics.service.ts:87-87 | the printed key determines year and number |
| WeekGrouping.SameKeyExactlyWhen | src/modules/analytics/application/analytics.service.ts:81-88 | two dates share a key exactly when they share a Monday-to-Sunday week |
| WeekGrouping.WeeklyGroups | src/modules/analytics/application/analytics.service.ts:61-67 | grouped by week, two trades share a group exactly when their dates share a week |
| CsvExport.EscapesExactlyWhen | src/modules/analytics/application/csv-export.service.ts:82-88 | a cell is printed as it is exactly when it holds no comma, quote or line break |
| CsvExport.FieldReadBack | src/modules/analytics/application/csv-export.service.ts:82-88 | an escaped cell reads back as the cell, whatever follows it |
| CsvExport.LineReadBack | src/modules/analytics/application/csv-export.service.ts:78-80 | a printed record reads back whole |
| CsvExport.ExportDecodes | src/modules/analytics/application/csv-export.service.ts:78-88 | a reader taking every break as a separator recovers header and rows for any cells |
| CsvExport.LenientDecodesExactlyWhen | src/modules/analytics/application/csv-export.service.ts:78-80 | a reader that allows a final break recovers them exactly when the last row is not a single empty cell |
| CsvExport.ExportInjective | src/modules/analytics/application/csv-export.service.ts:78-88 | equal texts come from equal headers and rows |
| CsvExport.EmptyRowCollides | src/modules/analytics/application/csv-export.service.ts:78-80 | a row without fields prints like one with a single empty field |

## Left out

- IEEE double rounding: prices and amounts are exact or explicitly rounded to eight places, averages and ratios are reals; `toFixed` on magnitudes of 10^21 and more.
- Backtest initial balance, stops and targets are taken on the 10^-8 grid, as they are stored.
- The strategy's confidence score, candle-consistency check and the synthetic regime and level metadata of a backtest: the loop's result does not depend on how the strategy decides.
- Live trading flags (`ENABLE_LIVE_TRADING`, `MT5_DRY_RUN`) are taken as set for live trading; otherwise the guard refuses before its first read.
- The broker symbol of an instrument is an input of the reservation, and a row's creation time is no earlier than the clock reading its day start came from.
- Broker-level exactly-once, and "FAILED means not executed": the catch block at src/modules/live-trading/application/live-trading.service.ts:114-131 does not give either.
- Some neighbouring reads of one request are one step in the protocol, such as the two reads behind an approval; no other actor's write between them is observable by it, because decisions and assessments are permanent.
- LiveServices.TradingServices.ExecuteLiveFromSignal: writes that fail, and the logs, are only in `LiveProtocol`, not in the class form.
- What follows a manual approval (`executeApprovedDecision`: the paper job, the MT5 dry run) and the statuses set by other services, which are arbitrary in the protocol.
- Agent decisions written by hand or by the fundamental agent; the supervisor's account state and the fundamental verdict are inputs.
- Paper trade timestamps: rows are kept in creation order, which stands for `openedAt`; decimal rounding of stored profits and of metadata sizes with more than eight places.
- PaperLaws.AccountsAlwaysBalance: operations run to completion one after the other; interleaved ones are covered only by RacingOpensExactlyWhen and RacingOpensArise.
- A paper candle is not compared with a trade's opening time, so a candle older than the trade can close it; the agreement with the backtest feeds the candles after entry.
- Reports: display rounding, best and worst trade, average reward/risk, and the ISO date text of the daily key; sorting of groups uses an arbitrary collation.
- WeekGrouping.SameKeyExactlyWhen: dates from the year 101 on; `Date.UTC` reads the years 0 to 99 as 1900 to 1999.
- CSV: conversion of numbers to text; a carriage return is an ordinary character, as the printer does not quote it.
- The display rounding of levels, and pandas indicators and regimes on the Python side.
- Debounce: a window that grows between requests (GrowingWindowForgets); the queue's own duplicate job ids.
- Controllers, queues, events, logs, authentication, instrument and event records, and everything on the network.
