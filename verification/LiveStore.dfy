/** The stored state behind limited live trading and the transactions on it:
    the guard, the check-and-reserve transaction, and the row updates. */
module LiveStore {
  import opened Market
  import opened RiskAgent
  import opened Sequences

  type Id = string

  datatype SignalStatus =
    | StatusApproved | StatusRejected | PendingManualApproval | ManuallyApproved | ManuallyRejected | LiveExecuted
    | OtherStatus(name: string)

  datatype Signal = Signal(
    direction: SignalDirection,
    entryPrice: int,
    stopLoss: Option<int>,
    takeProfit: Option<int>,
    confidence: int,
    status: SignalStatus)

  /** An assessment, with the profile minimum it was judged against. */
  datatype RiskAssessment = RiskAssessment(
    signal: Id,
    decision: RiskDecision,
    positionSize: int,
    riskRewardRatio: real,
    minRiskRewardRatio: real)

  /** A decision, with what it was taken from: the signal's confidence, the
      assessment, the surroundings and the system configuration. */
  datatype SupervisorDecision = SupervisorDecision(
    action: SupervisorAction,
    confidence: int,
    risk: nat,
    seen: Surroundings,
    config: SystemConfig)

  datatype ManualAction = Approve | Reject

  datatype ManualDecision = ManualDecision(signal: Id, action: ManualAction)

  datatype LiveStatus = Requested | Executed | RejectedByBroker | Failed | Closed

  /** What the broker is asked for besides symbol and volume. */
  datatype Order = Order(direction: TradeDirection, entryPrice: int, stopLoss: Option<int>, takeProfit: Option<int>)

  /** A LiveTrade row.  `owner`, `risk`, `volumeLimit`, `calls` and `inFlight`
      record the request that reserved it, the assessment and limit it passed,
      and the broker calls made for it. */
  datatype LiveTrade = LiveTrade(
    signal: Id,
    manual: nat,
    symbol: string,
    order: Order,
    volume: int,
    status: LiveStatus,
    createdAt: int,
    payloadPnl: Option<int>,
    owner: Id,
    risk: nat,
    volumeLimit: int,
    calls: nat,
    inFlight: bool)

  datatype Limits = Limits(
    maxDailyLiveTrades: int,
    maxDailyLoss: int,
    maxVolumePerTrade: int,
    allowedSymbols: seq<string>,
    isActive: bool)

  datatype LimitsPatch = LimitsPatch(
    maxDailyLiveTrades: Option<int>,
    maxDailyLoss: Option<int>,
    maxVolumePerTrade: Option<int>,
    allowedSymbols: Option<seq<string>>,
    isActive: Option<bool>)

  datatype Db = Db(
    signals: map<Id, Signal>,
    admins: set<Id>,
    users: set<Id>,
    risks: seq<RiskAssessment>,
    supervisors: map<Id, SupervisorDecision>,
    manuals: seq<ManualDecision>,
    rows: seq<LiveTrade>,
    limits: Option<Limits>)

  datatype Rejection =
    | KillSwitchEnabled | NotLiveMode | UserNotFound | NotAdmin | SignalNotFound | AlreadyExecuted
    | NoDirection | NoLevelsOnSignal | NoApprovedRisk | NotOperate | NoManualApproval
    | SignalHasLiveTrade | LimitsInactive | SymbolNotAllowed | VolumeTooLarge | SymbolHasLiveTrade
    | DailyTradesReached | DailyLossReached

  datatype Validation = Accept(signal: Signal, risk: nat, volume: int, limits: Limits) | Deny(reason: Rejection)

  const DEFAULT_LIMITS: Limits := Limits(1, 50 * 100_000_000, 1_000_000, ["XAUUSD", "BTCUSDT"], true)

  // ----- queries -----

  predicate Active(r: LiveTrade)
  {
    r.status.Requested? || r.status.Executed?
  }

  /** The latest approved assessment of a signal, if any. */
  function LatestApproved(risks: seq<RiskAssessment>, signal: Id): (i: Option<nat>)
    ensures i.Some? ==> i.value < |risks| && risks[i.value].signal == signal && risks[i.value].decision.Approved?
    ensures i.Some? ==>
              forall k :: i.value < k < |risks| ==> !(risks[k].signal == signal && risks[k].decision.Approved?)
    ensures i.None? ==> forall k :: 0 <= k < |risks| ==> !(risks[k].signal == signal && risks[k].decision.Approved?)
  {
    if risks == [] then None
    else
      var last := |risks| - 1;
      if risks[last].signal == signal && risks[last].decision.Approved? then Some(last)
      else LatestApproved(risks[..last], signal)
  }

  predicate HasActiveForSignal(rows: seq<LiveTrade>, signal: Id)
  {
    exists k :: 0 <= k < |rows| && Active(rows[k]) && rows[k].signal == signal
  }

  predicate HasActiveForSymbol(rows: seq<LiveTrade>, symbol: string)
  {
    exists k :: 0 <= k < |rows| && Active(rows[k]) && rows[k].symbol == symbol
  }

  function ActiveSince(rows: seq<LiveTrade>, start: int): nat
  {
    if rows == [] then 0
    else
      var last := rows[|rows| - 1];
      ActiveSince(rows[..|rows| - 1], start) + if Active(last) && last.createdAt >= start then 1 else 0
  }

  /** Losses of the rows closed since `start`. */
  function DailyLoss(rows: seq<LiveTrade>, start: int): nat
  {
    if rows == [] then 0
    else
      var last := rows[|rows| - 1];
      DailyLoss(rows[..|rows| - 1], start)
      + if last.status.Closed? && last.createdAt >= start && last.payloadPnl.Some? && last.payloadPnl.value < 0
        then -last.payloadPnl.value else 0
  }

  /** Rows the daily trade limit counts. */
  function ActiveFrom(start: int): LiveTrade -> bool
  {
    (r: LiveTrade) => (r.status.Requested? || r.status.Executed?) && r.createdAt >= start
  }

  /** The daily count is the number of active rows created since the day began. */
  lemma {:induction false} ActiveSinceCounts(rows: seq<LiveTrade>, start: int)
    ensures ActiveSince(rows, start) == |Indices(rows, ActiveFrom(start))|
  {
    hide Indices;
    if rows == [] {
      NoIndices(ActiveFrom(start));
    } else {
      ActiveSinceCounts(rows[..|rows| - 1], start);
      IndicesInit(rows, ActiveFrom(start));
    }
  }

  /** What a row adds to the daily loss. */
  function LossSince(r: LiveTrade, start: int): nat
  {
    match r.payloadPnl
    case Some(pnl) => if r.status == Closed && r.createdAt >= start && pnl < 0 then -pnl else 0
    case None => 0
  }

  /** Each row counts once, wherever it stands: leaving it out lowers the daily
      count and loss by what it adds. */
  lemma {:induction false} RowCountsOnce(rows: seq<LiveTrade>, k: nat, start: int)
    requires k < |rows|
    ensures ActiveSince(rows, start)
            == ActiveSince(Without(rows, k), start) + if ActiveFrom(start)(rows[k]) then 1 else 0
    ensures DailyLoss(rows, start) == DailyLoss(Without(rows, k), start) + LossSince(rows[k], start)
  {
    WithoutInit(rows, k);
    hide Without;
    if k < |rows| - 1 {
      RowCountsOnce(rows[..|rows| - 1], k, start);
    }
  }

  function LimitsInForce(db: Db): Limits
  {
    if db.limits.Some? then db.limits.value else DEFAULT_LIMITS
  }

  // ----- the guard -----

  function Validate(db: Db, config: SystemConfig, signalId: Id, userId: Id, manualId: nat,
                    symbol: string, dayStart: int): Validation
  {
    if config.killSwitch then Deny(KillSwitchEnabled)
    else if config.mode != LiveLimited then Deny(NotLiveMode)
    else if userId !in db.users then Deny(UserNotFound)
    else if userId !in db.admins then Deny(NotAdmin)
    else if signalId !in db.signals then Deny(SignalNotFound)
    else
      var signal := db.signals[signalId];
      if signal.status.LiveExecuted? then Deny(AlreadyExecuted)
      else if signal.direction != SignalBuy && signal.direction != SignalSell then Deny(NoDirection)
      else if signal.stopLoss.None? || signal.takeProfit.None? then Deny(NoLevelsOnSignal)
      else
        var risk := LatestApproved(db.risks, signalId);
        if risk.None? then Deny(NoApprovedRisk)
        else if signalId !in db.supervisors || db.supervisors[signalId].action != Operate then Deny(NotOperate)
        else if manualId >= |db.manuals| || db.manuals[manualId] != ManualDecision(signalId, Approve) then
          Deny(NoManualApproval)
        else if HasActiveForSignal(db.rows, signalId) then Deny(SignalHasLiveTrade)
        else
          ValidateLimits(db, signal, risk.value, symbol, dayStart)
  }

  function ValidateLimits(db: Db, signal: Signal, risk: nat, symbol: string, dayStart: int): Validation
    requires risk < |db.risks|
  {
    var limits, volume := LimitsInForce(db), db.risks[risk].positionSize;
    if !limits.isActive then Deny(LimitsInactive)
    else if symbol !in limits.allowedSymbols then Deny(SymbolNotAllowed)
    else if volume > limits.maxVolumePerTrade then Deny(VolumeTooLarge)
    else if HasActiveForSymbol(db.rows, symbol) then Deny(SymbolHasLiveTrade)
    else if ActiveSince(db.rows, dayStart) >= limits.maxDailyLiveTrades then Deny(DailyTradesReached)
    else if DailyLoss(db.rows, dayStart) >= limits.maxDailyLoss then Deny(DailyLossReached)
    else Accept(signal, risk, volume, limits)
  }

  /** Rows created before the day began never change the verdict of the daily
      limits: leaving one out that does not hold the symbol alters nothing. */
  lemma OlderRowsDoNotCount(db: Db, signal: Signal, risk: nat, symbol: string, start: int, k: nat)
    requires risk < |db.risks| && k < |db.rows|
    requires db.rows[k].createdAt < start
    requires db.rows[k].symbol != symbol || !(db.rows[k].status.Requested? || db.rows[k].status.Executed?)
    ensures ValidateLimits(db, signal, risk, symbol, start)
            == ValidateLimits(db.(rows := Without(db.rows, k)), signal, risk, symbol, start)
  {
    RowCountsOnce(db.rows, k, start);
    SymbolHeldWithout(db.rows, symbol, k);
    hide HasActiveForSymbol, ActiveSince, DailyLoss, Without;
  }

  lemma SymbolHeldWithout(rows: seq<LiveTrade>, symbol: string, k: nat)
    requires k < |rows| && !(Active(rows[k]) && rows[k].symbol == symbol)
    ensures HasActiveForSymbol(Without(rows, k), symbol) <==> HasActiveForSymbol(rows, symbol)
  {
    var rest := Without(rows, k);
    if HasActiveForSymbol(rows, symbol) {
      var j :| 0 <= j < |rows| && Active(rows[j]) && rows[j].symbol == symbol;
      assert rest[if j < k then j else j - 1] == rows[j];
    }
    if HasActiveForSymbol(rest, symbol) {
      var j :| 0 <= j < |rest| && Active(rest[j]) && rest[j].symbol == symbol;
      assert rows[if j < k then j else j + 1] == rest[j];
    }
  }

  function NewRow(v: Validation, signalId: Id, manualId: nat, symbol: string, createdAt: int, owner: Id): LiveTrade
    requires v.Accept?
  {
    var order := Order(if v.signal.direction.SignalBuy? then Buy else Sell,
                       v.signal.entryPrice, v.signal.stopLoss, v.signal.takeProfit);
    LiveTrade(signalId, manualId, symbol, order, v.volume, Requested, createdAt, None, owner,
              v.risk, v.limits.maxVolumePerTrade, 0, false)
  }

  /** The state after a committed check-and-reserve transaction; a denied one
      rolls back, including the limits row the guard may have created. */
  function Reserve(db: Db, v: Validation, signalId: Id, manualId: nat, symbol: string,
                   createdAt: int, owner: Id): Db
  {
    if v.Deny? then db
    else db.(limits := Some(v.limits),
             rows := db.rows + [NewRow(v, signalId, manualId, symbol, createdAt, owner)])
  }

  function Patched(l: Limits, p: LimitsPatch): Limits
  {
    Limits(if p.maxDailyLiveTrades.Some? then p.maxDailyLiveTrades.value else l.maxDailyLiveTrades,
           if p.maxDailyLoss.Some? then p.maxDailyLoss.value else l.maxDailyLoss,
           if p.maxVolumePerTrade.Some? then p.maxVolumePerTrade.value else l.maxVolumePerTrade,
           if p.allowedSymbols.Some? then p.allowedSymbols.value else l.allowedSymbols,
           if p.isActive.Some? then p.isActive.value else l.isActive)
  }

  function WithStatus(db: Db, row: nat, status: LiveStatus, payloadPnl: Option<int>): Db
    requires row < |db.rows|
  {
    db.(rows := db.rows[row := db.rows[row].(status := status, payloadPnl := payloadPnl)])
  }

  // ----- the same operations on the stored state -----

  class Store {
    var signals: map<Id, Signal>
    var admins: set<Id>
    var users: set<Id>
    var risks: seq<RiskAssessment>
    var supervisors: map<Id, SupervisorDecision>
    var manuals: seq<ManualDecision>
    var rows: seq<LiveTrade>
    var limits: Option<Limits>

    constructor (db: Db)
      ensures View() == db
    {
      signals, admins, users, risks := db.signals, db.admins, db.users, db.risks;
      supervisors, manuals, rows, limits := db.supervisors, db.manuals, db.rows, db.limits;
    }

    function View(): Db
      reads this
    {
      Db(signals, admins, users, risks, supervisors, manuals, rows, limits)
    }

    method GetLimits() returns (l: Limits)
      modifies this`limits
      ensures l == old(LimitsInForce(View()))
      ensures View() == old(View()).(limits := Some(l))
    {
      if limits.None? {
        limits := Some(Limits(1, 5_000_000_000, 1_000_000, ["XAUUSD", "BTCUSDT"], true));
      }
      l := limits.value;
    }

    method UpdateLimits(patch: LimitsPatch)
      modifies this`limits
      ensures View() == old(View()).(limits := Some(Patched(old(LimitsInForce(View())), patch)))
    {
      if limits.Some? {
        var l := limits.value;
        if patch.maxDailyLiveTrades.Some? {
          l := l.(maxDailyLiveTrades := patch.maxDailyLiveTrades.value);
        }
        if patch.maxDailyLoss.Some? {
          l := l.(maxDailyLoss := patch.maxDailyLoss.value);
        }
        if patch.maxVolumePerTrade.Some? {
          l := l.(maxVolumePerTrade := patch.maxVolumePerTrade.value);
        }
        if patch.allowedSymbols.Some? {
          l := l.(allowedSymbols := patch.allowedSymbols.value);
        }
        if patch.isActive.Some? {
          l := l.(isActive := patch.isActive.value);
        }
        limits := Some(l);
      } else {
        limits := Some(Limits(
          if patch.maxDailyLiveTrades.Some? then patch.maxDailyLiveTrades.value else 1,
          if patch.maxDailyLoss.Some? then patch.maxDailyLoss.value else 5_000_000_000,
          if patch.maxVolumePerTrade.Some? then patch.maxVolumePerTrade.value else 1_000_000,
          if patch.allowedSymbols.Some? then patch.allowedSymbols.value else ["XAUUSD", "BTCUSDT"],
          if patch.isActive.Some? then patch.isActive.value else true));
      }
    }

    method ValidateLiveExecution(config: SystemConfig, signalId: Id, userId: Id, manualId: nat,
                                 symbol: string, dayStart: int) returns (v: Validation)
      modifies this`limits
      ensures v == old(Validate(View(), config, signalId, userId, manualId, symbol, dayStart))
      ensures v.Accept? ==> View() == old(View()).(limits := Some(v.limits))
      ensures View() == old(View()).(limits := limits)
    {
      if config.killSwitch {
        return Deny(KillSwitchEnabled);
      }
      if config.mode != LiveLimited {
        return Deny(NotLiveMode);
      }
      if userId !in users {
        return Deny(UserNotFound);
      }
      if userId !in admins {
        return Deny(NotAdmin);
      }
      if signalId !in signals {
        return Deny(SignalNotFound);
      }
      var signal := signals[signalId];
      if signal.status.LiveExecuted? {
        return Deny(AlreadyExecuted);
      }
      if signal.direction != SignalBuy && signal.direction != SignalSell {
        return Deny(NoDirection);
      }
      if signal.stopLoss.None? || signal.takeProfit.None? {
        return Deny(NoLevelsOnSignal);
      }
      var risk := LatestApproved(risks, signalId);
      if risk.None? {
        return Deny(NoApprovedRisk);
      }
      if signalId !in supervisors || supervisors[signalId].action != Operate {
        return Deny(NotOperate);
      }
      if manualId >= |manuals| || manuals[manualId] != ManualDecision(signalId, Approve) {
        return Deny(NoManualApproval);
      }
      if HasActiveForSignal(rows, signalId) {
        return Deny(SignalHasLiveTrade);
      }
      var l := GetLimits();
      if !l.isActive {
        return Deny(LimitsInactive);
      }
      if symbol !in l.allowedSymbols {
        return Deny(SymbolNotAllowed);
      }
      var volume := risks[risk.value].positionSize;
      if volume > l.maxVolumePerTrade {
        return Deny(VolumeTooLarge);
      }
      if HasActiveForSymbol(rows, symbol) {
        return Deny(SymbolHasLiveTrade);
      }
      var dailyLiveTrades := ActiveSince(rows, dayStart);
      if dailyLiveTrades >= l.maxDailyLiveTrades {
        return Deny(DailyTradesReached);
      }
      var dailyLoss := DailyLoss(rows, dayStart);
      if dailyLoss >= l.maxDailyLoss {
        return Deny(DailyLossReached);
      }
      return Accept(signal, risk.value, volume, l);
    }

    /** One serializable transaction: validate, then insert the row. */
    method ReserveLiveExecution(config: SystemConfig, signalId: Id, userId: Id, manualId: nat,
                                symbol: string, dayStart: int, createdAt: int, owner: Id)
      returns (v: Validation, row: Option<nat>)
      modifies this`limits, this`rows
      ensures v == old(Validate(View(), config, signalId, userId, manualId, symbol, dayStart))
      ensures View() == Reserve(old(View()), v, signalId, manualId, symbol, createdAt, owner)
      ensures row == if v.Accept? then Some(old(|rows|)) else None
    {
      var before := limits;
      v := ValidateLiveExecution(config, signalId, userId, manualId, symbol, dayStart);
      if v.Accept? {
        row := Some(|rows|);
        var direction := if v.signal.direction == SignalBuy then Buy else Sell;
        var order := Order(direction, v.signal.entryPrice, v.signal.stopLoss, v.signal.takeProfit);
        rows := rows + [LiveTrade(signalId, manualId, symbol, order, v.volume, Requested, createdAt, None, owner,
                                  v.risk, v.limits.maxVolumePerTrade, 0, false)];
      } else {
        limits := before;
        row := None;
      }
    }

    method MarkLiveTradeExecuted(row: nat, executed: bool, payloadPnl: Option<int>)
      requires row < |rows|
      modifies this`rows
      ensures View() == WithStatus(old(View()), row, if executed then Executed else RejectedByBroker, payloadPnl)
    {
      rows := rows[row := rows[row].(status := if executed then Executed else RejectedByBroker,
                                     payloadPnl := payloadPnl)];
    }

    method MarkLiveTradeFailed(row: nat)
      requires row < |rows|
      modifies this`rows
      ensures View() == WithStatus(old(View()), row, Failed, old(rows[row].payloadPnl))
    {
      rows := rows[row := rows[row].(status := Failed)];
    }
  }
}
