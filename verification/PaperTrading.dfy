/** Paper trading: stored accounts and trades, and the operations on them.
    Each operation is taken as running to completion.  Prices and sizes are in
    units of 10^-8; balances and profits, being products of the two, in units
    of 10^-16, so no amount is rounded.  Rows are listed in creation order. */
module PaperTrading {
  import opened Market

  type Id = string

  datatype Result<+T, +E> = Ok(value: T) | Err(error: E)

  datatype Config = Config(enabled: bool, maxOpenTradesPerSymbol: Option<int>)

  datatype PaperSignalStatus = SignalApproved | UnderReview | ManuallyApproved | ExecutedPaper | OtherSignalStatus

  datatype PaperSignal = PaperSignal(
    status: PaperSignalStatus,
    direction: SignalDirection,
    instrument: Id,
    entryPrice: Option<int>,
    stopLoss: Option<int>,
    takeProfit: Option<int>)

  datatype Agent = RiskAgent | SupervisorAgent | OtherAgent

  /** `positionSize` is the metadata field when it reads as a finite number. */
  datatype AgentDecision = AgentDecision(signal: Id, agent: Agent, approved: bool, positionSize: Option<int>)

  datatype Assessment = Assessment(signal: Id, positionSize: int)

  datatype Account = Account(name: string, initialBalance: int, balance: int, equity: int, active: bool)

  datatype TradeStatus = Open | Closed | Cancelled

  datatype CloseReason = StopLoss | TakeProfit | Manual | System

  datatype PaperTrade = PaperTrade(
    account: nat,
    signal: Id,
    instrument: Id,
    direction: TradeDirection,
    entryPrice: int,
    stopLoss: Option<int>,
    takeProfit: Option<int>,
    positionSize: int,
    status: TradeStatus,
    closePrice: Option<int>,
    pnl: Option<int>,
    pnlPercent: Option<real>,
    result: Option<TradeResult>,
    closeReason: Option<CloseReason>)

  datatype CloseInput = CloseInput(price: int, reason: CloseReason)

  datatype Error =
    | Disabled | SignalNotFound | SignalNotApproved | NoDirection | BadEntryOrStop | BadTakeProfit
    | AccountNotFound | AccountInactive | SignalHasTrade | InstrumentHasOpenTrade | NoSlots
    | NoRiskApproval | NoSupervisorApproval | BadPositionSize
    | BadInitialBalance | NameTaken | BadClosePrice | TradeNotFound | TradeNotOpen

  datatype State = State(
    accounts: seq<Account>,
    trades: seq<PaperTrade>,
    signals: map<Id, PaperSignal>,
    decisions: seq<AgentDecision>,
    assessments: seq<Assessment>)

  /** What a candle evaluation leaves: the state, the trades it closed, and the
      error that stopped it, if any. */
  datatype Evaluation = Evaluation(state: State, closed: seq<nat>, error: Option<Error>)

  const MAX_ROWS: nat := 200

  // ----- queries -----

  predicate IsPositive(value: Option<int>)
  {
    value.Some? && value.value > 0
  }

  /** The oldest active account. */
  function DefaultActive(accounts: seq<Account>, from: nat): (i: nat)
    requires from <= |accounts|
    ensures from <= i <= |accounts|
    ensures i < |accounts| ==> accounts[i].active
    ensures forall k :: from <= k < i ==> !accounts[k].active
    decreases |accounts| - from
  {
    if from == |accounts| || accounts[from].active then from else DefaultActive(accounts, from + 1)
  }

  predicate HasTradeForSignal(trades: seq<PaperTrade>, signal: Id)
  {
    exists k :: 0 <= k < |trades| && trades[k].signal == signal
  }

  predicate HasOpenForInstrument(trades: seq<PaperTrade>, instrument: Id)
  {
    exists k :: 0 <= k < |trades| && trades[k].status.Open? && trades[k].instrument == instrument
  }

  predicate Approves(d: AgentDecision, signal: Id, agent: Agent)
  {
    d.signal == signal && d.agent == agent && d.approved
  }

  /** The latest approval of a signal by an agent. */
  function LatestApproval(decisions: seq<AgentDecision>, signal: Id, agent: Agent): (r: Option<AgentDecision>)
    ensures r.Some? ==> exists i :: 0 <= i < |decisions| && decisions[i] == r.value && Approves(r.value, signal, agent)
                          && forall k :: i < k < |decisions| ==> !Approves(decisions[k], signal, agent)
    ensures r.None? ==> forall d :: d in decisions ==> !Approves(d, signal, agent)
  {
    if decisions == [] then None
    else
      var n := |decisions| - 1;
      if Approves(decisions[n], signal, agent) then Some(decisions[n])
      else
        assert decisions == decisions[..n] + [decisions[n]];
        LatestApproval(decisions[..n], signal, agent)
  }

  /** The latest assessment of a signal. */
  function LatestAssessment(assessments: seq<Assessment>, signal: Id): (i: Option<nat>)
    ensures i.Some? ==> i.value < |assessments| && assessments[i.value].signal == signal
                        && forall k :: i.value < k < |assessments| ==> assessments[k].signal != signal
    ensures i.None? ==> forall k :: 0 <= k < |assessments| ==> assessments[k].signal != signal
  {
    if assessments == [] then None
    else if assessments[|assessments| - 1].signal == signal then Some(|assessments| - 1)
    else LatestAssessment(assessments[..|assessments| - 1], signal)
  }

  /** The size it gives, 0 without one. */
  function LatestAssessedSize(assessments: seq<Assessment>, signal: Id): int
  {
    match LatestAssessment(assessments, signal)
    case Some(i) => assessments[i].positionSize
    case None => 0
  }

  predicate Descending(ids: seq<nat>)
  {
    forall p, q :: 0 <= p < q < |ids| ==> ids[q] < ids[p]
  }

  /** All open trades of an instrument, newest first. */
  function OpenIds(trades: seq<PaperTrade>, instrument: Id): (ids: seq<nat>)
    ensures forall k :: k in ids <==>
              0 <= k < |trades| && trades[k].status.Open? && trades[k].instrument == instrument
    ensures Descending(ids)
  {
    if trades == [] then []
    else
      var n := |trades| - 1;
      var rest := OpenIds(trades[..n], instrument);
      assert forall q :: 0 <= q < |rest| ==> rest[q] in rest;
      if trades[n].status.Open? && trades[n].instrument == instrument then [n] + rest else rest
  }

  /** The query behind a candle evaluation: at most 200 rows, newest first. */
  function QueryOpen(trades: seq<PaperTrade>, instrument: Id): (ids: seq<nat>)
    ensures forall q :: 0 <= q < |ids| ==> ids[q] < |trades|
  {
    var ids := OpenIds(trades, instrument);
    assert forall q :: 0 <= q < |ids| ==> ids[q] in ids;
    if |ids| <= MAX_ROWS then ids else ids[..MAX_ROWS]
  }

  /** Profit recorded on an account's open trades. */
  function OpenPnl(trades: seq<PaperTrade>, account: nat): int
  {
    if trades == [] then 0
    else
      var last := trades[|trades| - 1];
      OpenPnl(trades[..|trades| - 1], account)
      + if last.account == account && last.status.Open? && last.pnl.Some? then last.pnl.value else 0
  }

  // ----- arithmetic -----

  function Pnl(t: PaperTrade, closePrice: int): int
  {
    if t.direction.Buy? then (closePrice - t.entryPrice) * t.positionSize
    else (t.entryPrice - closePrice) * t.positionSize
  }

  function PnlPercent(pnl: int, balance: int): real
  {
    if balance == 0 then 0.0 else pnl as real / balance as real
  }

  function GetCloseInputForCandle(t: PaperTrade, c: Candle): Option<CloseInput>
  {
    if t.stopLoss.None? || t.takeProfit.None? then None
    else if t.direction.Buy? then
      if c.low <= t.stopLoss.value then Some(CloseInput(t.stopLoss.value, StopLoss))
      else if c.high >= t.takeProfit.value then Some(CloseInput(t.takeProfit.value, TakeProfit))
      else None
    else
      if c.high >= t.stopLoss.value then Some(CloseInput(t.stopLoss.value, StopLoss))
      else if c.low <= t.takeProfit.value then Some(CloseInput(t.takeProfit.value, TakeProfit))
      else None
  }

  // ----- what each operation does -----

  function Create(st: State, name: string, initialBalance: int): Result<State, Error>
  {
    if initialBalance <= 0 then Err(BadInitialBalance)
    else if exists k :: 0 <= k < |st.accounts| && st.accounts[k].name == name then Err(NameTaken)
    else Ok(st.(accounts := st.accounts + [Account(name, initialBalance, initialBalance, initialBalance, true)]))
  }

  function Recalculated(st: State, account: nat): State
    requires account < |st.accounts|
  {
    var a := st.accounts[account];
    st.(accounts := st.accounts[account := a.(equity := a.balance + OpenPnl(st.trades, account))])
  }

  function ResolvePositionSize(assessments: seq<Assessment>, signal: Id, fromMetadata: Option<int>): int
  {
    if IsPositive(fromMetadata) then fromMetadata.value else LatestAssessedSize(assessments, signal)
  }

  /** The trade a signal would open, or the first check that refuses it. */
  function Admit(st: State, config: Config, signalId: Id, accountId: Option<nat>): (r: Result<PaperTrade, Error>)
    ensures r.Ok? ==> r.value.account < |st.accounts| && r.value.signal == signalId && signalId in st.signals
  {
    if !config.enabled then Err(Disabled)
    else if signalId !in st.signals then Err(SignalNotFound)
    else
      var signal := st.signals[signalId];
      if !(signal.status.SignalApproved? || signal.status.UnderReview? || signal.status.ManuallyApproved?) then
        Err(SignalNotApproved)
      else if signal.direction != SignalBuy && signal.direction != SignalSell then Err(NoDirection)
      else if !IsPositive(signal.entryPrice) || !IsPositive(signal.stopLoss) then Err(BadEntryOrStop)
      else if !IsPositive(signal.takeProfit) then Err(BadTakeProfit)
      else
        var account := if accountId.Some? then accountId.value else DefaultActive(st.accounts, 0);
        if account >= |st.accounts| then Err(AccountNotFound)
        else if !st.accounts[account].active then Err(AccountInactive)
        else if HasTradeForSignal(st.trades, signalId) then Err(SignalHasTrade)
        else if HasOpenForInstrument(st.trades, signal.instrument) then Err(InstrumentHasOpenTrade)
        else if config.maxOpenTradesPerSymbol.Some? && config.maxOpenTradesPerSymbol.value <= 0 then Err(NoSlots)
        else
          var risk := LatestApproval(st.decisions, signalId, RiskAgent);
          if risk.None? then Err(NoRiskApproval)
          else if LatestApproval(st.decisions, signalId, SupervisorAgent).None? then Err(NoSupervisorApproval)
          else
            var size := ResolvePositionSize(st.assessments, signalId, risk.value.positionSize);
            if size <= 0 then Err(BadPositionSize)
            else Ok(NewTrade(account, signalId, signal, size))
  }

  function NewTrade(account: nat, signalId: Id, signal: PaperSignal, size: int): PaperTrade
    requires signal.entryPrice.Some?
  {
    PaperTrade(account, signalId, signal.instrument,
               if signal.direction == SignalBuy then Buy else Sell,
               signal.entryPrice.value, signal.stopLoss, signal.takeProfit, size,
               Open, None, None, None, None, None)
  }

  function WithTrade(st: State, t: PaperTrade): State
    requires t.account < |st.accounts| && t.signal in st.signals
  {
    var added := Recalculated(st.(trades := st.trades + [t]), t.account);
    added.(signals := added.signals[t.signal := added.signals[t.signal].(status := ExecutedPaper)])
  }

  function ClosedTrade(t: PaperTrade, price: int, reason: CloseReason, balance: int): PaperTrade
  {
    var pnl := Pnl(t, price);
    t.(status := Closed, closePrice := Some(price), pnl := Some(pnl),
       pnlPercent := Some(PnlPercent(pnl, balance)), result := Some(ResultOfPnl(pnl)),
       closeReason := Some(reason))
  }

  function Close(st: State, id: nat, price: int, reason: CloseReason): Result<State, Error>
  {
    if price <= 0 then Err(BadClosePrice)
    else if id >= |st.trades| then Err(TradeNotFound)
    else if !st.trades[id].status.Open? then Err(TradeNotOpen)
    else if st.trades[id].account >= |st.accounts| then Err(AccountNotFound)
    else
      var t := st.trades[id];
      var a := st.accounts[t.account];
      var after := a.balance + Pnl(t, price);
      Ok(Recalculated(st.(trades := st.trades[id := ClosedTrade(t, price, reason, a.balance)],
                          accounts := st.accounts[t.account := a.(balance := after, equity := after)]),
                      t.account))
  }

  /** Trades are looked at as they were when queried, and closed one by one. */
  function EvaluateIds(st: State, queried: seq<PaperTrade>, ids: seq<nat>, c: Candle): Evaluation
    requires forall q :: 0 <= q < |ids| ==> ids[q] < |queried|
    decreases |ids|
  {
    if ids == [] then Evaluation(st, [], None)
    else
      var input := GetCloseInputForCandle(queried[ids[0]], c);
      if input.None? then EvaluateIds(st, queried, ids[1..], c)
      else
        match Close(st, ids[0], input.value.price, input.value.reason)
        case Err(e) => Evaluation(st, [], Some(e))
        case Ok(next) =>
          var rest := EvaluateIds(next, queried, ids[1..], c);
          rest.(closed := [ids[0]] + rest.closed)
  }

  function Evaluate(st: State, instrument: Id, c: Candle): Evaluation
  {
    EvaluateIds(st, st.trades, QueryOpen(st.trades, instrument), c)
  }

  // ----- the engine -----

  class PaperTradingEngine {
    var accounts: seq<Account>
    var trades: seq<PaperTrade>
    var signals: map<Id, PaperSignal>
    var decisions: seq<AgentDecision>
    var assessments: seq<Assessment>
    const config: Config

    constructor (config: Config, st: State)
      ensures View() == st && this.config == config
    {
      this.config := config;
      accounts, trades, signals := st.accounts, st.trades, st.signals;
      decisions, assessments := st.decisions, st.assessments;
    }

    function View(): State
      reads this
    {
      State(accounts, trades, signals, decisions, assessments)
    }

    method CreateAccount(name: string, initialBalance: int) returns (r: Result<nat, Error>)
      modifies this`accounts
      ensures r.Ok? <==> Create(old(View()), name, initialBalance).Ok?
      ensures r.Ok? ==> r.value == old(|accounts|) && Ok(View()) == Create(old(View()), name, initialBalance)
      ensures r.Err? ==> View() == old(View()) && Err(r.error) == Create(old(View()), name, initialBalance)
    {
      if initialBalance <= 0 {
        return Err(BadInitialBalance);
      }
      if exists k :: 0 <= k < |accounts| && accounts[k].name == name {
        return Err(NameTaken);
      }
      accounts := accounts + [Account(name, initialBalance, initialBalance, initialBalance, true)];
      return Ok(|accounts| - 1);
    }

    method RecalculateAccountEquity(account: nat) returns (r: Result<Account, Error>)
      modifies this`accounts
      ensures account >= old(|accounts|) ==> r == Err(AccountNotFound) && View() == old(View())
      ensures account < old(|accounts|) ==>
                View() == Recalculated(old(View()), account) && r == Ok(View().accounts[account])
    {
      if account >= |accounts| {
        return Err(AccountNotFound);
      }
      var a := accounts[account];
      var unrealizedPnL := OpenPnl(trades, account);
      accounts := accounts[account := a.(equity := a.balance + unrealizedPnL)];
      return Ok(accounts[account]);
    }

    method OpenTradeFromSignal(signalId: Id, accountId: Option<nat>) returns (r: Result<nat, Error>)
      modifies this`accounts, this`trades, this`signals
      ensures r.Ok? <==> Admit(old(View()), config, signalId, accountId).Ok?
      ensures r.Ok? ==>
                r.value == old(|trades|)
                && View() == WithTrade(old(View()), Admit(old(View()), config, signalId, accountId).value)
      ensures r.Err? ==>
                View() == old(View()) && Err(r.error) == Admit(old(View()), config, signalId, accountId)
    {
      hide HasTradeForSignal, HasOpenForInstrument, LatestApproval, ResolvePositionSize, DefaultActive, WithTrade,
        Recalculated;
      if !config.enabled {
        return Err(Disabled);
      }
      if signalId !in signals {
        return Err(SignalNotFound);
      }
      var signal := signals[signalId];
      if signal.status != SignalApproved && signal.status != UnderReview && signal.status != ManuallyApproved {
        return Err(SignalNotApproved);
      }
      if signal.direction != SignalBuy && signal.direction != SignalSell {
        return Err(NoDirection);
      }
      if !IsPositive(signal.entryPrice) || !IsPositive(signal.stopLoss) {
        return Err(BadEntryOrStop);
      }
      if !IsPositive(signal.takeProfit) {
        return Err(BadTakeProfit);
      }
      var account := if accountId.Some? then accountId.value else DefaultActive(accounts, 0);
      if account >= |accounts| {
        return Err(AccountNotFound);
      }
      if !accounts[account].active {
        return Err(AccountInactive);
      }
      if HasTradeForSignal(trades, signalId) {
        return Err(SignalHasTrade);
      }
      if HasOpenForInstrument(trades, signal.instrument) {
        return Err(InstrumentHasOpenTrade);
      }
      var maxOpenTradesPerSymbol :=
        if config.maxOpenTradesPerSymbol.Some? then config.maxOpenTradesPerSymbol.value else 1;
      if maxOpenTradesPerSymbol <= 0 {
        return Err(NoSlots);
      }
      var riskDecision := LatestApproval(decisions, signalId, RiskAgent);
      if riskDecision.None? {
        return Err(NoRiskApproval);
      }
      var supervisorDecision := LatestApproval(decisions, signalId, SupervisorAgent);
      if supervisorDecision.None? {
        return Err(NoSupervisorApproval);
      }
      var positionSize := ResolvePositionSize(assessments, signalId, riskDecision.value.positionSize);
      if positionSize <= 0 {
        return Err(BadPositionSize);
      }
      var id := StoreTrade(NewTrade(account, signalId, signal, positionSize));
      return Ok(id);
    }

    /** Stores an admitted trade, then refreshes the account and the signal. */
    method StoreTrade(t: PaperTrade) returns (id: nat)
      requires t.account < |accounts| && t.signal in signals
      modifies this`accounts, this`trades, this`signals
      ensures View() == WithTrade(old(View()), t) && id == old(|trades|)
    {
      id := |trades|;
      trades := trades + [t];
      var _ := RecalculateAccountEquity(t.account);
      signals := signals[t.signal := signals[t.signal].(status := ExecutedPaper)];
    }

    method CloseTrade(id: nat, closePrice: int, reason: CloseReason) returns (r: Result<PaperTrade, Error>)
      modifies this`accounts, this`trades
      ensures r.Ok? <==> Close(old(View()), id, closePrice, reason).Ok?
      ensures r.Ok? ==>
                Ok(View()) == Close(old(View()), id, closePrice, reason) && id < |trades| && r.value == trades[id]
      ensures r.Err? ==> View() == old(View()) && Err(r.error) == Close(old(View()), id, closePrice, reason)
    {
      if closePrice <= 0 {
        return Err(BadClosePrice);
      }
      if id >= |trades| {
        return Err(TradeNotFound);
      }
      var t := trades[id];
      if !t.status.Open? {
        return Err(TradeNotOpen);
      }
      if t.account >= |accounts| {
        return Err(AccountNotFound);
      }
      var account := accounts[t.account];
      var pnl := Pnl(t, closePrice);
      var balanceAfter := account.balance + pnl;
      trades := trades[id := t.(status := Closed, closePrice := Some(closePrice), pnl := Some(pnl),
                                pnlPercent := Some(PnlPercent(pnl, account.balance)),
                                result := Some(ResultOfPnl(pnl)), closeReason := Some(reason))];
      accounts := accounts[t.account := account.(balance := balanceAfter, equity := balanceAfter)];
      var _ := RecalculateAccountEquity(t.account);
      return Ok(trades[id]);
    }

    method EvaluateOpenTradesOnCandle(instrument: Id, candle: Candle) returns (closed: seq<nat>, error: Option<Error>)
      modifies this`accounts, this`trades
      ensures Evaluation(View(), closed, error) == Evaluate(old(View()), instrument, candle)
    {
      hide Close, GetCloseInputForCandle, QueryOpen;
      var openTrades, queried := QueryOpen(trades, instrument), trades;
      ghost var st := View();
      closed := [];
      for k := 0 to |openTrades|
        invariant signals == st.signals && decisions == st.decisions && assessments == st.assessments
        invariant var rest := EvaluateIds(View(), queried, openTrades[k..], candle);
                  EvaluateIds(st, queried, openTrades, candle) == rest.(closed := closed + rest.closed)
      {
        assert openTrades[k..][1..] == openTrades[k + 1..];
        var closeInput := GetCloseInputForCandle(queried[openTrades[k]], candle);
        if closeInput.Some? {
          ghost var rest := EvaluateIds(View(), queried, openTrades[k..], candle);
          var r := CloseTrade(openTrades[k], closeInput.value.price, closeInput.value.reason);
          if r.Err? {
            return closed, Some(r.error);
          }
          ghost var later := EvaluateIds(View(), queried, openTrades[k + 1..], candle);
          assert rest == later.(closed := [openTrades[k]] + later.closed);
          assert closed + rest.closed == closed + [openTrades[k]] + later.closed;
          closed := closed + [openTrades[k]];
        }
      }
      return closed, None;
    }
  }
}
