/** The services as they run when nothing else runs: each operation changes the
    stored state step by step.  Every one is proved to be the run of its own
    protocol steps with no other actor between them, so the safety results over
    interleaved runs speak about these operations. */
module LiveServices {
  import opened Market
  import opened BacktestMoney
  import BacktestSpec
  import opened Rounding
  import opened RiskAgent
  import opened LiveStore
  import opened LiveProtocol

  datatype Refusal =
    | NoSuchSignal | NotPending | NoSupervisorDecision | KillSwitchOn | NotAssistedMode
    | NoApprovedRiskDecision | SupervisorNotOperate | AlreadyDecided | NoRiskDecision

  // ----- when a request is refused, and what an accepted one writes -----

  predicate HasDecision(db: Db, signal: Id)
  {
    exists k :: 0 <= k < |db.manuals| && db.manuals[k].signal == signal
  }

  function ApproveRefusal(db: Db, config: SystemConfig, signal: Id): Option<Refusal>
  {
    if signal !in db.signals then Some(NoSuchSignal)
    else if !db.signals[signal].status.PendingManualApproval? then Some(NotPending)
    else if config.killSwitch then Some(KillSwitchOn)
    else if config.mode != AssistedTrading then Some(NotAssistedMode)
    else if LatestApproved(db.risks, signal).None? then Some(NoApprovedRiskDecision)
    else if signal !in db.supervisors || db.supervisors[signal].action != Operate then Some(SupervisorNotOperate)
    else if HasDecision(db, signal) then Some(AlreadyDecided)
    else None
  }

  function RejectRefusal(db: Db, signal: Id): Option<Refusal>
  {
    if signal !in db.signals then Some(NoSuchSignal)
    else if !db.signals[signal].status.PendingManualApproval? then Some(NotPending)
    else if signal !in db.supervisors then Some(NoSupervisorDecision)
    else if HasDecision(db, signal) then Some(AlreadyDecided)
    else None
  }

  function StatusSet(db: Db, signal: Id, status: SignalStatus): Db
    requires signal in db.signals
  {
    db.(signals := db.signals[signal := db.signals[signal].(status := status)])
  }

  function Decided(db: Db, signal: Id, action: ManualAction): Db
    requires signal in db.signals
  {
    StatusSet(db.(manuals := db.manuals + [ManualDecision(signal, action)]), signal,
              if action.Approve? then ManuallyApproved else ManuallyRejected)
  }

  /** The latest assessment of a signal, whatever its decision. */
  function LatestRisk(risks: seq<RiskAssessment>, signal: Id): (i: Option<nat>)
    ensures i.Some? ==> i.value < |risks| && risks[i.value].signal == signal
                        && forall k :: i.value < k < |risks| ==> risks[k].signal != signal
    ensures i.None? ==> forall k :: 0 <= k < |risks| ==> risks[k].signal != signal
  {
    if risks == [] then None
    else if risks[|risks| - 1].signal == signal then Some(|risks| - 1)
    else LatestRisk(risks[..|risks| - 1], signal)
  }

  function DecideRefusal(db: Db, signal: Id): Option<Refusal>
  {
    if signal in db.supervisors then Some(AlreadyDecided)
    else if signal !in db.signals then Some(NoSuchSignal)
    else if LatestRisk(db.risks, signal).None? then Some(NoRiskDecision)
    else None
  }

  function SupervisorVerdict(db: Db, config: SystemConfig, signal: Id, seen: Surroundings): SupervisorDecision
    requires DecideRefusal(db, signal).None?
  {
    DecisionFrom(db, signal, LatestRisk(db.risks, signal).value, seen, config)
  }

  /** The signal moves on only after OPERATE, to a status the mode decides. */
  function Supervised(db: Db, config: SystemConfig, signal: Id, seen: Surroundings): Db
    requires DecideRefusal(db, signal).None?
  {
    var verdict := SupervisorVerdict(db, config, signal, seen);
    var decided := db.(supervisors := db.supervisors[signal := verdict]);
    if verdict.action == Operate && config.mode == PaperTrading then StatusSet(decided, signal, StatusApproved)
    else if verdict.action == Operate && config.mode == AssistedTrading then
      StatusSet(decided, signal, PendingManualApproval)
    else decided
  }

  function Assessment(signal: Id, v: RiskVerdict, profile: RiskProfile): RiskAssessment
    requires v.Verdict?
  {
    RiskAssessment(signal, v.decision, Round(v.positionSize * ONE as real), v.riskRewardRatio,
                   profile.minRiskRewardRatio)
  }

  /** The stored size is the one a backtest would take: size times stop distance
      is the money at risk, up to half a unit of size. */
  lemma AssessedByRisk(signal: Id, s: Signal, account: AccountState, profile: RiskProfile)
    requires s.stopLoss.Some? && s.takeProfit.Some? && s.stopLoss.value != s.entryPrice
    ensures var v := EvaluateSignal(s.entryPrice, s.stopLoss, s.takeProfit, account, profile);
            && v.Verdict?
            && var row, distance := Assessment(signal, v, profile), AbsInt(s.entryPrice - s.stopLoss.value);
               && row.signal == signal && row.decision == v.decision
               && SizedFor(row.positionSize, Part(account.balance, profile.maxRiskPerTrade), distance)
               && IsQuotient(row.riskRewardRatio, AbsInt(s.takeProfit.value - s.entryPrice) as real, distance)
               && row.minRiskRewardRatio == profile.minRiskRewardRatio
  {
    var v := EvaluateSignal(s.entryPrice, s.stopLoss, s.takeProfit, account, profile);
    var row, distance: int := Assessment(signal, v, profile), AbsInt(s.entryPrice - s.stopLoss.value);
    ApprovedExactlyWhen(s.entryPrice, s.stopLoss.value, s.takeProfit.value, account, profile);
    AssessmentOf(signal, v, profile);
    SizedAlike(s.entryPrice, s.stopLoss.value, s.takeProfit.value, account, profile);
    hide *;
    SizeRounds(account.balance, profile.maxRiskPerTrade, distance, row.positionSize);
  }

  lemma AssessmentOf(signal: Id, v: RiskVerdict, profile: RiskProfile)
    requires v.Verdict?
    ensures var row := Assessment(signal, v, profile);
            && row.signal == signal && row.decision == v.decision && row.riskRewardRatio == v.riskRewardRatio
            && row.minRiskRewardRatio == profile.minRiskRewardRatio && row.positionSize == InSizeUnits(v.positionSize)
  {
    hide Round;
  }

  function InSizeUnits(size: real): int
  {
    Round(size * ONE as real)
  }

  lemma SizedAlike(entryPrice: int, stopLoss: int, takeProfit: int, account: AccountState, profile: RiskProfile)
    requires stopLoss != entryPrice
    ensures AbsInt(entryPrice - stopLoss) > 0
    ensures InSizeUnits(EvaluateSignal(entryPrice, Some(stopLoss), Some(takeProfit), account, profile).positionSize)
            == BacktestSpec.PositionSize(account.balance, profile.maxRiskPerTrade, AbsInt(entryPrice - stopLoss))
  {
    VerdictSize(entryPrice, stopLoss, takeProfit, account, profile);
    BacktestSize(account.balance, profile.maxRiskPerTrade, AbsInt(entryPrice - stopLoss));
    hide *;
  }

  function SizeFor(balance: int, share: real, distance: int): real
    requires distance > 0
  {
    balance as real * share / distance as real
  }

  lemma VerdictSize(entryPrice: int, stopLoss: int, takeProfit: int, account: AccountState, profile: RiskProfile)
    requires stopLoss != entryPrice
    ensures AbsInt(entryPrice - stopLoss) > 0
    ensures EvaluateSignal(entryPrice, Some(stopLoss), Some(takeProfit), account, profile).positionSize
            == SizeFor(account.balance, profile.maxRiskPerTrade, AbsInt(entryPrice - stopLoss))
  {
    hide RejectionReasons;
  }

  lemma BacktestSize(balance: int, share: real, distance: int)
    requires distance > 0
    ensures BacktestSpec.PositionSize(balance, share, distance) == InSizeUnits(SizeFor(balance, share, distance))
  {
    hide Round;
  }

  function Assessed(db: Db, signal: Id, v: RiskVerdict, profile: RiskProfile): Db
    requires signal in db.signals && v.Verdict?
  {
    StatusSet(db.(risks := db.risks + [Assessment(signal, v, profile)]), signal,
              if v.decision.Approved? then StatusApproved else StatusRejected)
  }

  /** A live request that nothing interrupts: refused, executed, or failed. */
  function AfterLive(db: Db, v: Validation, request: LiveRequest, reply: BrokerReply, payloadPnl: Option<int>): Db
    requires v.Accept? ==> request.signal in db.signals
  {
    var reserved := Reserve(db, v, request.signal, request.manual, request.symbol, request.createdAt, request.owner);
    var row := |db.rows|;
    if v.Deny? then db
    else
      var called := reserved.(rows := reserved.rows[row := reserved.rows[row].(calls := 1)]);
      if reply.BrokerExecuted? then
        StatusSet(WithStatus(called, row, Executed, payloadPnl), request.signal, LiveExecuted)
      else WithStatus(called, row, Failed, None)
  }

  datatype LiveRequest = LiveRequest(signal: Id, user: Id, manual: nat, symbol: string, dayStart: int,
                                     createdAt: int, owner: Id)

  function Checked(db: Db, config: SystemConfig, request: LiveRequest): Validation
  {
    Validate(db, config, request.signal, request.user, request.manual, request.symbol, request.dayStart)
  }

  lemma AcceptedSignalExists(db: Db, config: SystemConfig, request: LiveRequest)
    requires Checked(db, config, request).Accept?
    ensures request.signal in db.signals
  {
  }

  // ----- the services -----

  class TradingServices {
    const store: Store
    const config: SystemConfig

    constructor (store: Store, config: SystemConfig)
      ensures this.store == store && this.config == config
    {
      this.store := store;
      this.config := config;
    }

    method UpdateStatus(signal: Id, status: SignalStatus)
      requires signal in store.signals
      modifies store`signals
      ensures store.View() == StatusSet(old(store.View()), signal, status)
    {
      store.signals := store.signals[signal := store.signals[signal].(status := status)];
    }

    method ApproveSignal(signal: Id) returns (refusal: Option<Refusal>)
      modifies store`manuals, store`signals
      ensures refusal == ApproveRefusal(old(store.View()), config, signal)
      ensures refusal.None? ==> store.View() == Decided(old(store.View()), signal, Approve)
      ensures refusal.Some? ==> store.View() == old(store.View())
    {
      if signal !in store.signals {
        return Some(NoSuchSignal);
      }
      if !store.signals[signal].status.PendingManualApproval? {
        return Some(NotPending);
      }
      if config.killSwitch {
        return Some(KillSwitchOn);
      }
      if config.mode != AssistedTrading {
        return Some(NotAssistedMode);
      }
      var riskDecision := LatestApproved(store.risks, signal);
      if riskDecision.None? {
        return Some(NoApprovedRiskDecision);
      }
      if signal !in store.supervisors || store.supervisors[signal].action != Operate {
        return Some(SupervisorNotOperate);
      }
      if HasDecision(store.View(), signal) {
        return Some(AlreadyDecided);
      }
      store.manuals := store.manuals + [ManualDecision(signal, Approve)];
      UpdateStatus(signal, ManuallyApproved);
      return None;
    }

    method RejectSignal(signal: Id) returns (refusal: Option<Refusal>)
      modifies store`manuals, store`signals
      ensures refusal == RejectRefusal(old(store.View()), signal)
      ensures refusal.None? ==> store.View() == Decided(old(store.View()), signal, Reject)
      ensures refusal.Some? ==> store.View() == old(store.View())
    {
      if signal !in store.signals {
        return Some(NoSuchSignal);
      }
      if !store.signals[signal].status.PendingManualApproval? {
        return Some(NotPending);
      }
      if signal !in store.supervisors {
        return Some(NoSupervisorDecision);
      }
      if HasDecision(store.View(), signal) {
        return Some(AlreadyDecided);
      }
      store.manuals := store.manuals + [ManualDecision(signal, Reject)];
      UpdateStatus(signal, ManuallyRejected);
      return None;
    }

    method EvaluateSignalById(signal: Id, account: AccountState, profile: RiskProfile)
      returns (verdict: Option<RiskVerdict>)
      modifies store`risks, store`signals
      ensures verdict.None? <==> signal !in old(store.signals)
      ensures verdict.Some? ==>
                var s := old(store.signals)[signal];
                && verdict.value == EvaluateSignal(s.entryPrice, s.stopLoss, s.takeProfit, account, profile)
                && store.View() == if verdict.value.Verdict? then
                                     Assessed(old(store.View()), signal, verdict.value, profile)
                                   else old(store.View())
      ensures verdict.None? ==> store.View() == old(store.View())
    {
      if signal !in store.signals {
        return None;
      }
      var s := store.signals[signal];
      var v := EvaluateSignal(s.entryPrice, s.stopLoss, s.takeProfit, account, profile);
      if v.Verdict? {
        store.risks := store.risks + [Assessment(signal, v, profile)];
        UpdateStatus(signal, if v.decision.Approved? then StatusApproved else StatusRejected);
      }
      return Some(v);
    }

    method DecideSignalById(signal: Id, seen: Surroundings) returns (refusal: Option<Refusal>)
      modifies store`supervisors, store`signals
      ensures refusal == DecideRefusal(old(store.View()), signal)
      ensures refusal.None? ==> store.View() == Supervised(old(store.View()), config, signal, seen)
      ensures refusal.Some? ==> store.View() == old(store.View())
    {
      if signal in store.supervisors {
        return Some(AlreadyDecided);
      }
      if signal !in store.signals {
        return Some(NoSuchSignal);
      }
      var risk := LatestRisk(store.risks, signal);
      if risk.None? {
        return Some(NoRiskDecision);
      }
      var confidence := store.signals[signal].confidence;
      var action := Decide(confidence, store.risks[risk.value].decision, seen.account, seen.hasOpenTrade,
                           config, seen.fundamentalBlocks, seen.limits);
      store.supervisors := store.supervisors[signal :=
        SupervisorDecision(action, confidence, risk.value, seen, config)];
      if action == Operate && config.mode == PaperTrading {
        UpdateStatus(signal, StatusApproved);
      } else if action == Operate && config.mode == AssistedTrading {
        UpdateStatus(signal, PendingManualApproval);
      }
      return None;
    }

    /** One live request whose writes all succeed; `reply` is the broker's. */
    method ExecuteLiveFromSignal(request: LiveRequest, reply: BrokerReply, payloadPnl: Option<int>)
      returns (v: Validation)
      modifies store`limits, store`rows, store`signals
      ensures v == old(Checked(store.View(), config, request))
      ensures v.Accept? ==> request.signal in old(store.signals)
      ensures store.View() == AfterLive(old(store.View()), v, request, reply, payloadPnl)
    {
      ghost var before := store.View();
      if Checked(before, config, request).Accept? {
        AcceptedSignalExists(before, config, request);
      }
      hide Validate;
      var row: Option<nat>;
      v, row := store.ReserveLiveExecution(config, request.signal, request.user, request.manual, request.symbol,
                                           request.dayStart, request.createdAt, request.owner);
      if v.Deny? {
        return;
      }
      store.rows := store.rows[row.value := store.rows[row.value].(calls := 1)];
      if reply.BrokerExecuted? {
        store.MarkLiveTradeExecuted(row.value, true, payloadPnl);
        UpdateStatus(request.signal, LiveExecuted);
      } else {
        store.MarkLiveTradeFailed(row.value);
      }
    }
  }
}
