/** The risk agent's verdict on a signal, and the supervisor's. */
module RiskAgent {
  import opened Market
  import opened Rounding

  datatype RiskDecision = Approved | Rejected | Adjusted

  datatype AccountState = AccountState(balance: int, openTrades: int, dailyPnL: int)

  datatype RiskProfile = RiskProfile(
    maxRiskPerTrade: real,
    maxDailyDrawdown: real,
    maxOpenTrades: int,
    minRiskRewardRatio: real)

  datatype RiskVerdict =
    | NoLevels
    | NoStopDistance
    | Verdict(decision: RiskDecision, positionSize: real, monetaryRisk: real, riskRewardRatio: real)

  datatype RejectionReason = LowRiskReward | MonetaryRiskTooHigh | TooManyOpenTrades | DrawdownReached

  /** `dailyDrawdown >= max`, where a loss on a zero balance is an infinite drawdown. */
  predicate DailyDrawdownReached(account: AccountState, max: real)
  {
    if account.dailyPnL >= 0 then 0.0 >= max
    else if account.balance == 0 then true
    else AbsInt(account.dailyPnL) as real / account.balance as real >= max
  }

  function RejectionReasons(account: AccountState, profile: RiskProfile, monetaryRisk: real, ratio: real)
    : seq<RejectionReason>
  {
    (if ratio < profile.minRiskRewardRatio then [LowRiskReward] else [])
    + (if monetaryRisk > account.balance as real * profile.maxRiskPerTrade then [MonetaryRiskTooHigh] else [])
    + (if account.openTrades >= profile.maxOpenTrades then [TooManyOpenTrades] else [])
    + (if DailyDrawdownReached(account, profile.maxDailyDrawdown) then [DrawdownReached] else [])
  }

  function EvaluateSignal(entryPrice: int, stopLoss: Option<int>, takeProfit: Option<int>,
                          account: AccountState, profile: RiskProfile): RiskVerdict
  {
    if stopLoss.None? || takeProfit.None? then NoLevels
    else
      var distance := AbsInt(entryPrice - stopLoss.value);
      if distance == 0 then NoStopDistance
      else
        var monetaryRisk := account.balance as real * profile.maxRiskPerTrade;
        var ratio := AbsInt(takeProfit.value - entryPrice) as real / distance as real;
        Verdict(if RejectionReasons(account, profile, monetaryRisk, ratio) == [] then Approved else Rejected,
                monetaryRisk / distance as real, monetaryRisk, ratio)
  }

  /** Today's loss over the balance; there is none while the day is not lost, and
      no finite one on a zero balance. */
  function DailyDrawdown(account: AccountState): Option<real>
  {
    if account.dailyPnL >= 0 then Some(0.0)
    else if account.balance != 0 then Some(-(account.dailyPnL as real) / account.balance as real)
    else None
  }

  /** Today's drawdown is below the maximum. */
  predicate DrawdownBelow(account: AccountState, max: real)
  {
    DailyDrawdown(account).Some? && DailyDrawdown(account).value < max
  }

  /** Approval needs the ratio, a free slot and room under the drawdown; the
      monetary-risk check compares a product with itself and never rejects.  The
      size times the stop distance is the money at risk, and the ratio times it
      the target distance. */
  lemma ApprovedExactlyWhen(entryPrice: int, stopLoss: int, takeProfit: int,
                            account: AccountState, profile: RiskProfile)
    requires stopLoss != entryPrice
    ensures var v := EvaluateSignal(entryPrice, Some(stopLoss), Some(takeProfit), account, profile);
            && v.Verdict?
            && (v.decision.Approved? <==>
                  && v.riskRewardRatio >= profile.minRiskRewardRatio
                  && account.openTrades < profile.maxOpenTrades
                  && DrawdownBelow(account, profile.maxDailyDrawdown))
            && MonetaryRiskTooHigh !in RejectionReasons(account, profile, v.monetaryRisk, v.riskRewardRatio)
            && v.monetaryRisk == account.balance as real * profile.maxRiskPerTrade
            && IsQuotient(v.positionSize, v.monetaryRisk, AbsInt(entryPrice - stopLoss))
            && IsQuotient(v.riskRewardRatio, AbsInt(takeProfit - entryPrice) as real, AbsInt(entryPrice - stopLoss))
  {
    DrawdownIs(account, profile.maxDailyDrawdown);
    hide DailyDrawdownReached, DrawdownBelow;
  }

  /** Each reason is given exactly for its own cause, and no reason means approval. */
  lemma ReasonsExactlyWhen(account: AccountState, profile: RiskProfile, monetaryRisk: real, ratio: real)
    ensures var reasons := RejectionReasons(account, profile, monetaryRisk, ratio);
            && (LowRiskReward in reasons <==> ratio < profile.minRiskRewardRatio)
            && (MonetaryRiskTooHigh in reasons <==> monetaryRisk > account.balance as real * profile.maxRiskPerTrade)
            && (TooManyOpenTrades in reasons <==> account.openTrades >= profile.maxOpenTrades)
            && (DrawdownReached in reasons <==> !DrawdownBelow(account, profile.maxDailyDrawdown))
  {
    DrawdownIs(account, profile.maxDailyDrawdown);
    hide DailyDrawdownReached, DrawdownBelow;
  }

  /** A verdict needs both levels and a stop away from the entry, and is never
      an adjustment. */
  lemma JudgedExactlyWhen(entryPrice: int, stopLoss: Option<int>, takeProfit: Option<int>,
                          account: AccountState, profile: RiskProfile)
    ensures var v := EvaluateSignal(entryPrice, stopLoss, takeProfit, account, profile);
            && (v.NoLevels? <==> stopLoss.None? || takeProfit.None?)
            && (v.NoStopDistance? <==> stopLoss == Some(entryPrice) && takeProfit.Some?)
            && (v.Verdict? ==> v.decision.Approved? || v.decision.Rejected?)
  {
    hide RejectionReasons;
  }

  /** `q` times `n` is `x`. */
  predicate IsQuotient(q: real, x: real, n: int)
  {
    q * n as real == x
  }

  lemma DrawdownIs(account: AccountState, max: real)
    ensures DailyDrawdownReached(account, max) <==> !DrawdownBelow(account, max)
  {
  }

  // ----- supervisor -----

  datatype SystemMode = Research | Backtesting | PaperTrading | AssistedTrading | LiveLimited | SafeMode | Paused

  datatype SystemConfig = SystemConfig(mode: SystemMode, killSwitch: bool)

  datatype SupervisorAction = Operate | Wait | Block

  datatype SupervisorLimits = SupervisorLimits(minConfidence: int, maxOpenTrades: int, maxDailyDrawdown: real)

  /** What the supervisor looks at besides the signal, its assessment and the
      system configuration. */
  datatype Surroundings = Surroundings(account: AccountState, hasOpenTrade: bool, fundamentalBlocks: bool,
                                       limits: SupervisorLimits)

  function Decide(confidence: int, risk: RiskDecision, account: AccountState, hasOpenTrade: bool,
                  config: SystemConfig, fundamentalBlocks: bool, limits: SupervisorLimits): SupervisorAction
  {
    if config.killSwitch
       || (config.mode != PaperTrading && config.mode != AssistedTrading)
       || risk != Approved
       || fundamentalBlocks
       || confidence < 50
       || hasOpenTrade
       || account.openTrades >= limits.maxOpenTrades
       || DailyDrawdownReached(account, limits.maxDailyDrawdown)
    then Block
    else if confidence < limits.minConfidence then Wait
    else Operate
  }

  /** Nothing blocks trading: the kill switch is off, the mode trades on paper or
      with approval, the risk is approved, no event blocks, the confidence is at
      least 50, the instrument is free, and slots and drawdown leave room. */
  predicate TradingAllowed(confidence: int, risk: RiskDecision, seen: Surroundings, config: SystemConfig)
  {
    && !config.killSwitch
    && config.mode in {PaperTrading, AssistedTrading}
    && risk.Approved?
    && !seen.fundamentalBlocks
    && confidence >= 50
    && !seen.hasOpenTrade
    && seen.account.openTrades < seen.limits.maxOpenTrades
    && DrawdownBelow(seen.account, seen.limits.maxDailyDrawdown)
  }

  /** `action` is the one the supervisor owes to what it saw: BLOCK unless
      trading is allowed, then OPERATE from the configured confidence on and
      WAIT below it. */
  predicate Justified(action: SupervisorAction, confidence: int, risk: RiskDecision, seen: Surroundings,
                      config: SystemConfig)
  {
    match action
    case Block => !TradingAllowed(confidence, risk, seen, config)
    case Wait => TradingAllowed(confidence, risk, seen, config) && confidence < seen.limits.minConfidence
    case Operate => TradingAllowed(confidence, risk, seen, config) && confidence >= seen.limits.minConfidence
  }

  /** The supervisor decides exactly so: each action under its own condition, and
      no two conditions meet. */
  lemma DecidesExactlyWhen(confidence: int, risk: RiskDecision, seen: Surroundings, config: SystemConfig,
                           action: SupervisorAction)
    ensures Decide(confidence, risk, seen.account, seen.hasOpenTrade, config, seen.fundamentalBlocks, seen.limits)
            == action
            <==> Justified(action, confidence, risk, seen, config)
  {
    DrawdownIs(seen.account, seen.limits.maxDailyDrawdown);
    hide DailyDrawdownReached, DrawdownBelow;
  }
}
