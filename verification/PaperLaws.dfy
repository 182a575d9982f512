/** What every run of completed paper-trading operations keeps, what a candle
    evaluation does, and its agreement with the backtest's exits. */
module PaperLaws {
  import opened Market
  import opened PaperTrading
  import opened Sequences
  import Backtest = BacktestSpec
  import Money = BacktestMoney

  // ----- the invariant -----

  /** What a trade adds to its account's realised profit. */
  function Contribution(t: PaperTrade, account: nat): int
  {
    if t.account == account && t.status.Closed? && t.pnl.Some? then t.pnl.value else 0
  }

  function ClosedPnl(trades: seq<PaperTrade>, account: nat): int
  {
    if trades == [] then 0
    else ClosedPnl(trades[..|trades| - 1], account) + Contribution(trades[|trades| - 1], account)
  }

  predicate RowOk(t: PaperTrade)
  {
    && t.entryPrice > 0 && IsPositive(t.stopLoss) && IsPositive(t.takeProfit) && t.positionSize > 0
    && !t.status.Cancelled?
    && (t.status.Open? ==> t.pnl == None && t.closePrice == None && t.result == None && t.closeReason == None)
    && (t.status.Closed? ==>
          IsPositive(t.closePrice) && t.pnl == Some(Pnl(t, t.closePrice.value))
          && t.result == Some(ResultOfPnl(t.pnl.value)) && t.closeReason.Some?)
  }

  predicate RowsOk(st: State)
  {
    forall k :: 0 <= k < |st.trades| ==> RowOk(st.trades[k]) && st.trades[k].account < |st.accounts|
  }

  /** Balance is the initial balance plus realised profit; equity is the balance. */
  predicate Booked(st: State)
  {
    forall a :: 0 <= a < |st.accounts| ==> BookedAccount(st, a)
  }

  predicate BookedAccount(st: State, a: nat)
    requires a < |st.accounts|
  {
    && st.accounts[a].balance == st.accounts[a].initialBalance + ClosedPnl(st.trades, a)
    && st.accounts[a].equity == st.accounts[a].balance
    && st.accounts[a].initialBalance > 0
  }

  predicate OnePerSignal(trades: seq<PaperTrade>)
  {
    forall i, j :: 0 <= i < j < |trades| ==> trades[i].signal != trades[j].signal
  }

  predicate OneOpenPerInstrument(trades: seq<PaperTrade>)
  {
    forall i, j :: 0 <= i < j < |trades| && trades[i].status.Open? && trades[j].status.Open?
      ==> trades[i].instrument != trades[j].instrument
  }

  predicate Inv(st: State)
  {
    RowsOk(st) && Booked(st) && OnePerSignal(st.trades) && OneOpenPerInstrument(st.trades)
  }

  // ----- sums -----

  lemma ClosedPnlSnoc(trades: seq<PaperTrade>, t: PaperTrade, a: nat)
    ensures ClosedPnl(trades + [t], a) == ClosedPnl(trades, a) + Contribution(t, a)
  {
    assert (trades + [t])[..|trades|] == trades;
  }

  lemma {:induction false} ClosedPnlUpdate(trades: seq<PaperTrade>, id: nat, t: PaperTrade, a: nat)
    requires id < |trades|
    ensures ClosedPnl(trades[id := t], a) == ClosedPnl(trades, a) - Contribution(trades[id], a) + Contribution(t, a)
  {
    hide Contribution;
    var n := |trades| - 1;
    if id < n {
      ClosedPnlUpdate(trades[..n], id, t, a);
      assert trades[id := t][..n] == trades[..n][id := t];
    } else {
      assert trades[id := t][..n] == trades[..n];
    }
  }

  lemma {:induction false} NothingUnrealised(trades: seq<PaperTrade>, a: nat)
    requires forall k :: 0 <= k < |trades| ==> RowOk(trades[k])
    ensures OpenPnl(trades, a) == 0
  {
    if trades != [] {
      NothingUnrealised(trades[..|trades| - 1], a);
      assert RowOk(trades[|trades| - 1]);
    }
  }

  lemma {:induction false} NoTradesNoPnl(trades: seq<PaperTrade>, a: nat)
    requires forall k :: 0 <= k < |trades| ==> trades[k].account < a
    ensures ClosedPnl(trades, a) == 0
  {
    if trades != [] {
      NoTradesNoPnl(trades[..|trades| - 1], a);
    }
  }

  // ----- each operation keeps the invariant -----

  lemma RecalculateKeeps(st: State, a: nat)
    requires Inv(st) && a < |st.accounts|
    ensures Recalculated(st, a) == st
  {
    NothingUnrealised(st.trades, a);
    assert BookedAccount(st, a);
    assert st.accounts[a := st.accounts[a]] == st.accounts;
  }

  lemma CreateKeeps(st: State, name: string, initialBalance: int)
    requires Inv(st) && Create(st, name, initialBalance).Ok?
    ensures Inv(Create(st, name, initialBalance).value)
  {
    hide RowOk, ClosedPnl;
    var next := Create(st, name, initialBalance).value;
    NoTradesNoPnl(st.trades, |st.accounts|);
    forall a | 0 <= a < |next.accounts| ensures BookedAccount(next, a) {
      if a < |st.accounts| {
        assert BookedAccount(st, a);
      }
    }
  }

  /** A signal is admitted exactly when every check passes; the order of the
      checks only decides which refusal is reported. */
  lemma AdmitsExactlyWhen(st: State, config: Config, signalId: Id, accountId: Option<nat>)
    ensures Admit(st, config, signalId, accountId).Ok? <==>
              && config.enabled
              && signalId in st.signals
              && var s := st.signals[signalId];
                 var a := if accountId.Some? then accountId.value else DefaultActive(st.accounts, 0);
                 var risk := LatestApproval(st.decisions, signalId, RiskAgent);
                 && s.status in {SignalApproved, UnderReview, ManuallyApproved}
                 && s.direction in {SignalBuy, SignalSell}
                 && s.entryPrice.Some? && s.entryPrice.value > 0
                 && s.stopLoss.Some? && s.stopLoss.value > 0 && s.takeProfit.Some? && s.takeProfit.value > 0
                 && a < |st.accounts| && st.accounts[a].active
                 && (forall t :: t in st.trades ==>
                       t.signal != signalId && !(t.status.Open? && t.instrument == s.instrument))
                 && (config.maxOpenTradesPerSymbol.Some? ==> config.maxOpenTradesPerSymbol.value > 0)
                 && (exists d :: d in st.decisions && d.signal == signalId && d.agent.SupervisorAgent? && d.approved)
                 && risk.Some?
                 && ((risk.value.positionSize.Some? && risk.value.positionSize.value > 0)
                     || exists size :: size > 0 && IsLatestSize(st.assessments, signalId, size))
  {
    LatestSizeIs(st.assessments, signalId);
    hide LatestAssessedSize, IsLatestSize;
  }

  /** The latest assessment of the signal has this size. */
  ghost predicate IsLatestSize(assessments: seq<Assessment>, signal: Id, size: int)
  {
    exists q :: 0 <= q < |assessments| && assessments[q] == Assessment(signal, size)
                && forall k :: q < k < |assessments| ==> assessments[k].signal != signal
  }

  lemma LatestSizeIs(assessments: seq<Assessment>, signal: Id)
    ensures forall size :: IsLatestSize(assessments, signal, size) ==> size == LatestAssessedSize(assessments, signal)
    ensures IsLatestSize(assessments, signal, LatestAssessedSize(assessments, signal))
            || LatestAssessedSize(assessments, signal) == 0
  {
    hide LatestAssessment;
    var i := LatestAssessment(assessments, signal);
    if i.Some? {
      assert assessments[i.value] == Assessment(signal, LatestAssessedSize(assessments, signal));
    }
  }

  /** The risk agent's latest approval of the signal is `d`. */
  ghost predicate IsRiskApproval(decisions: seq<AgentDecision>, signal: Id, d: AgentDecision)
  {
    exists i :: 0 <= i < |decisions| && decisions[i] == d && ApprovesRisk(d, signal)
                && forall k :: i < k < |decisions| ==> !ApprovesRisk(decisions[k], signal)
  }

  predicate ApprovesRisk(d: AgentDecision, signal: Id)
  {
    d.signal == signal && d.agent.RiskAgent? && d.approved
  }

  /** The trade carries the signal's direction and levels, the account asked for
      or else the oldest active one, and the positive size the risk agent named
      or else that of the latest assessment. */
  ghost predicate OpensSignal(st: State, signalId: Id, accountId: Option<nat>, t: PaperTrade)
  {
    && signalId in st.signals
    && TermsOfSignal(st.signals[signalId], t) && t.signal == signalId
    && (if accountId.Some? then t.account == accountId.value else IsOldestActive(st.accounts, t.account))
    && (exists d :: IsRiskApproval(st.decisions, signalId, d)
                    && if d.positionSize.Some? && d.positionSize.value > 0 then t.positionSize == d.positionSize.value
                       else IsLatestSize(st.assessments, signalId, t.positionSize))
  }

  predicate TermsOfSignal(s: PaperSignal, t: PaperTrade)
  {
    && (t.direction.Buy? <==> s.direction.SignalBuy?) && (t.direction.Sell? <==> s.direction.SignalSell?)
    && t.instrument == s.instrument && Some(t.entryPrice) == s.entryPrice
    && t.stopLoss == s.stopLoss && t.takeProfit == s.takeProfit
  }

  predicate IsOldestActive(accounts: seq<Account>, a: nat)
  {
    a < |accounts| && accounts[a].active && forall k :: 0 <= k < a ==> !accounts[k].active
  }

  lemma AdmittedTerms(st: State, config: Config, signalId: Id, accountId: Option<nat>)
    requires Admit(st, config, signalId, accountId).Ok?
    ensures OpensSignal(st, signalId, accountId, Admit(st, config, signalId, accountId).value)
  {
    var t := Admit(st, config, signalId, accountId).value;
    var risk := LatestApproval(st.decisions, signalId, RiskAgent);
    LatestSizeIs(st.assessments, signalId);
    assert IsRiskApproval(st.decisions, signalId, risk.value) by {
      ApprovalIsRisk(st.decisions, signalId, risk.value);
    }
    hide HasTradeForSignal, HasOpenForInstrument, LatestApproval, LatestAssessedSize, DefaultActive, IsLatestSize,
      IsRiskApproval;
  }

  lemma ApprovalIsRisk(decisions: seq<AgentDecision>, signal: Id, d: AgentDecision)
    requires LatestApproval(decisions, signal, RiskAgent) == Some(d)
    ensures IsRiskApproval(decisions, signal, d)
  {
    hide LatestApproval;
    var i :| 0 <= i < |decisions| && decisions[i] == d && Approves(d, signal, RiskAgent)
             && forall k :: i < k < |decisions| ==> !Approves(decisions[k], signal, RiskAgent);
    assert decisions[i] == d;
  }

  lemma AdmittedRow(st: State, config: Config, signalId: Id, accountId: Option<nat>)
    requires Admit(st, config, signalId, accountId).Ok?
    ensures var t := Admit(st, config, signalId, accountId).value;
            && RowOk(t) && t.status.Open? && t.account < |st.accounts| && st.accounts[t.account].active
            && !HasTradeForSignal(st.trades, t.signal)
            && !HasOpenForInstrument(st.trades, t.instrument)
  {
    hide HasTradeForSignal, HasOpenForInstrument, LatestApproval, ResolvePositionSize, DefaultActive;
  }

  lemma AddKeeps(st: State, t: PaperTrade)
    requires Inv(st) && t.account < |st.accounts| && t.signal in st.signals
    requires RowOk(t) && t.status.Open?
    requires !HasTradeForSignal(st.trades, t.signal) && !HasOpenForInstrument(st.trades, t.instrument)
    ensures Inv(WithTrade(st, t))
  {
    hide RowOk, ClosedPnl;
    var added := st.(trades := st.trades + [t]);
    forall a | 0 <= a < |st.accounts| ensures BookedAccount(added, a) {
      assert BookedAccount(st, a);
      ClosedPnlSnoc(st.trades, t, a);
    }
    AddedRows(st.trades, t);
    RecalculateKeeps(added, t.account);
    SignalsDoNotMatter(added, WithTrade(st, t));
  }

  lemma AddedRows(trades: seq<PaperTrade>, t: PaperTrade)
    requires OnePerSignal(trades) && OneOpenPerInstrument(trades)
    requires !HasTradeForSignal(trades, t.signal) && !HasOpenForInstrument(trades, t.instrument)
    ensures OnePerSignal(trades + [t]) && OneOpenPerInstrument(trades + [t])
  {
  }

  lemma SignalsDoNotMatter(st: State, other: State)
    requires Inv(st) && other.trades == st.trades && other.accounts == st.accounts
    ensures Inv(other)
  {
    hide RowOk, ClosedPnl;
    forall a | 0 <= a < |other.accounts| ensures BookedAccount(other, a) {
      assert BookedAccount(st, a);
    }
  }

  /** Closing an open trade of a sound state books its profit and nothing else. */
  lemma CloseKeeps(st: State, id: nat, price: int, reason: CloseReason)
    requires Inv(st) && id < |st.trades| && st.trades[id].status.Open? && price > 0
    ensures Close(st, id, price, reason).Ok?
    ensures var next, t := Close(st, id, price, reason).value, st.trades[id];
            var a := st.accounts[t.account];
            && Inv(next)
            && next == st.(trades := st.trades[id := ClosedTrade(t, price, reason, a.balance)],
                           accounts := st.accounts[t.account :=
                             a.(balance := a.balance + Pnl(t, price), equity := a.balance + Pnl(t, price))])
  {
    var t := st.trades[id];
    assert RowOk(t);
    var a := st.accounts[t.account];
    var row := ClosedTrade(t, price, reason, a.balance);
    assert RowOk(row) && !row.status.Open? && row.signal == t.signal && row.account == t.account;
    assert Contribution(t, t.account) == 0 && Contribution(row, t.account) == Pnl(t, price);
    var after := a.balance + Pnl(t, price);
    var booked := st.(trades := st.trades[id := row],
                      accounts := st.accounts[t.account := a.(balance := after, equity := after)]);
    assert Close(st, id, price, reason) == Ok(Recalculated(booked, t.account));
    ReplacedRow(st, booked, id, row);
    RecalculateKeeps(booked, t.account);
  }

  lemma ReplacedRow(st: State, next: State, id: nat, row: PaperTrade)
    requires Inv(st) && id < |st.trades| && st.trades[id].status.Open?
    requires RowOk(row) && !row.status.Open?
    requires row.signal == st.trades[id].signal && row.account == st.trades[id].account
    requires next.trades == st.trades[id := row]
    requires |next.accounts| == |st.accounts|
    requires forall a :: 0 <= a < |st.accounts| && a != row.account ==> next.accounts[a] == st.accounts[a]
    requires var a, b := st.accounts[row.account], next.accounts[row.account];
             && b.initialBalance == a.initialBalance
             && b.balance == b.equity == a.balance + Contribution(row, row.account)
    ensures Inv(next)
  {
    assert Contribution(st.trades[id], row.account) == 0;
    hide RowOk, ClosedPnl;
    forall a | 0 <= a < |next.accounts| ensures BookedAccount(next, a) {
      assert BookedAccount(st, a);
      ClosedPnlUpdate(st.trades, id, row, a);
    }
  }

  // ----- one candle -----

  lemma OpenTradesDiffer(trades: seq<PaperTrade>, i: nat, j: nat)
    requires OneOpenPerInstrument(trades) && i < j < |trades| && trades[i].status.Open? && trades[j].status.Open?
    ensures trades[i].instrument != trades[j].instrument
  {
  }

  /** With one open trade per instrument the query's row limit drops nothing. */
  lemma QueryComplete(st: State, instrument: Id)
    requires Inv(st)
    ensures var ids := QueryOpen(st.trades, instrument);
            && |ids| <= 1
            && (forall k :: k in ids <==>
                  0 <= k < |st.trades| && st.trades[k].status.Open? && st.trades[k].instrument == instrument)
  {
    assert OneOpenPerInstrument(st.trades);
    hide Inv, OneOpenPerInstrument;
    var ids := OpenIds(st.trades, instrument);
    if |ids| > 1 {
      assert ids[0] in ids && ids[1] in ids;
      OpenTradesDiffer(st.trades, ids[1], ids[0]);
    }
  }

  /** Whatever is stored, the query returns the newest open trades of the
      instrument, all of them up to 200. */
  lemma QueryNewest(trades: seq<PaperTrade>, instrument: Id)
    ensures var ids, open := QueryOpen(trades, instrument), OpenIds(trades, instrument);
            && ids <= open && (|ids| == |open| < 200 || |ids| == 200 <= |open|)
            && forall p, q :: 0 <= p < |ids| <= q < |open| ==> open[q] < ids[p]
  {
    hide OpenIds;
  }

  predicate TouchedBy(t: PaperTrade, instrument: Id, c: Candle)
  {
    t.status.Open? && t.instrument == instrument && GetCloseInputForCandle(t, c).Some?
  }

  /** A candle never rejects, closes exactly the open trade of its instrument
      that it touches, at its level, and leaves every other trade alone. */
  lemma EvaluateExactly(st: State, instrument: Id, c: Candle)
    requires Inv(st)
    ensures var ev := Evaluate(st, instrument, c);
            && ev.error == None
            && Inv(ev.state)
            && |ev.state.trades| == |st.trades|
            && |ev.state.accounts| == |st.accounts|
            && (forall k :: 0 <= k < |st.trades| ==>
                  && (k in ev.closed <==> TouchedBy(st.trades[k], instrument, c))
                  && ev.state.trades[k]
                     == if TouchedBy(st.trades[k], instrument, c) then
                          var input := GetCloseInputForCandle(st.trades[k], c).value;
                          ClosedTrade(st.trades[k], input.price, input.reason,
                                      st.accounts[st.trades[k].account].balance)
                        else st.trades[k])
    ensures (forall k :: 0 <= k < |st.trades| ==> !TouchedBy(st.trades[k], instrument, c))
            ==> Evaluate(st, instrument, c) == Evaluation(st, [], None)
  {
    QueryComplete(st, instrument);
    var ids := QueryOpen(st.trades, instrument);
    if ids != [] {
      var id := ids[0];
      assert id in ids;
      assert ids == [id] && ids[1..] == [];
      assert RowOk(st.trades[id]);
      var input := GetCloseInputForCandle(st.trades[id], c);
      if input.Some? {
        assert input.value.price > 0;
        CloseKeeps(st, id, input.value.price, input.value.reason);
        EvaluatedOne(st, ids, c);
      } else {
        EvaluatedNone(st, ids, c);
      }
    }
  }

  lemma EvaluatedOne(st: State, ids: seq<nat>, c: Candle)
    requires |ids| == 1 && ids[0] < |st.trades|
    requires GetCloseInputForCandle(st.trades[ids[0]], c).Some?
    requires var input := GetCloseInputForCandle(st.trades[ids[0]], c).value;
             Close(st, ids[0], input.price, input.reason).Ok?
    ensures var input := GetCloseInputForCandle(st.trades[ids[0]], c).value;
            EvaluateIds(st, st.trades, ids, c)
            == Evaluation(Close(st, ids[0], input.price, input.reason).value, ids, None)
  {
    hide GetCloseInputForCandle, Close;
    assert ids == [ids[0]] && ids[1..] == [];
  }

  lemma EvaluatedNone(st: State, ids: seq<nat>, c: Candle)
    requires |ids| == 1 && ids[0] < |st.trades|
    requires GetCloseInputForCandle(st.trades[ids[0]], c).None?
    ensures EvaluateIds(st, st.trades, ids, c) == Evaluation(st, [], None)
  {
    hide GetCloseInputForCandle, Close;
    assert ids[1..] == [];
  }

  /** Afterwards no open trade of the instrument is touched by the candle, and
      evaluating it again changes nothing. */
  lemma EvaluateIdempotent(st: State, instrument: Id, c: Candle)
    requires Inv(st)
    ensures var after := Evaluate(st, instrument, c).state;
            && (forall k :: 0 <= k < |after.trades| ==> !TouchedBy(after.trades[k], instrument, c))
            && Evaluate(after, instrument, c) == Evaluation(after, [], None)
  {
    hide Evaluate, GetCloseInputForCandle, Inv;
    EvaluateExactly(st, instrument, c);
    var after := Evaluate(st, instrument, c).state;
    EvaluateExactly(after, instrument, c);
  }

  // ----- runs -----

  datatype Op =
    | CreateOp(name: string, initialBalance: int)
    | OpenOp(config: Config, signal: Id, account: Option<nat>)
    | CloseOp(id: nat, price: int, reason: CloseReason)
    | EvaluateOp(instrument: Id, candle: Candle)
    | RecalculateOp(accountId: nat)
    | ActivateOp(target: nat, active: bool)
    | OutsideOp(signals: map<Id, PaperSignal>, decisions: seq<AgentDecision>, assessments: seq<Assessment>)

  /** One completed operation, or any change the other services make. */
  function Step(st: State, op: Op): State
  {
    match op
    case CreateOp(name, initialBalance) =>
      var r := Create(st, name, initialBalance);
      if r.Ok? then r.value else st
    case OpenOp(config, signal, account) =>
      var r := Admit(st, config, signal, account);
      if r.Ok? then WithTrade(st, r.value) else st
    case CloseOp(id, price, reason) =>
      var r := Close(st, id, price, reason);
      if r.Ok? then r.value else st
    case EvaluateOp(instrument, candle) => Evaluate(st, instrument, candle).state
    case RecalculateOp(a) => if a < |st.accounts| then Recalculated(st, a) else st
    case ActivateOp(a, active) =>
      if a < |st.accounts| then st.(accounts := st.accounts[a := st.accounts[a].(active := active)]) else st
    case OutsideOp(signals, decisions, assessments) =>
      st.(signals := signals, decisions := decisions, assessments := assessments)
  }

  function Run(st: State, ops: seq<Op>): State
  {
    if ops == [] then st else Step(Run(st, ops[..|ops| - 1]), ops[|ops| - 1])
  }

  predicate Fresh(st: State)
  {
    st.accounts == [] && st.trades == []
  }

  /** Rows are never removed, closed rows are final, and open rows keep their terms. */
  predicate HistoryKept(before: seq<PaperTrade>, after: seq<PaperTrade>)
  {
    && |before| <= |after|
    && forall k :: 0 <= k < |before| ==> RowKept(before[k], after[k])
  }

  predicate RowKept(b: PaperTrade, a: PaperTrade)
  {
    || a == b
    || (b.status.Open? && a.status.Closed?
        && a == b.(status := a.status, closePrice := a.closePrice, pnl := a.pnl,
                   pnlPercent := a.pnlPercent, result := a.result, closeReason := a.closeReason))
  }

  lemma CloseStep(st: State, id: nat, price: int, reason: CloseReason)
    requires Inv(st)
    ensures var r := Close(st, id, price, reason); r.Ok? ==> Inv(r.value) && HistoryKept(st.trades, r.value.trades)
  {
    if price > 0 && id < |st.trades| && st.trades[id].status.Open? {
      CloseKeeps(st, id, price, reason);
    }
  }

  lemma OpenStep(st: State, config: Config, signal: Id, account: Option<nat>)
    requires Inv(st)
    ensures var r := Admit(st, config, signal, account);
            r.Ok? ==> Inv(WithTrade(st, r.value)) && HistoryKept(st.trades, WithTrade(st, r.value).trades)
  {
    hide Admit, Inv, HasTradeForSignal, HasOpenForInstrument;
    var r := Admit(st, config, signal, account);
    if r.Ok? {
      AdmittedRow(st, config, signal, account);
      AddKeeps(st, r.value);
    }
  }

  lemma EvaluateStep(st: State, instrument: Id, c: Candle)
    requires Inv(st)
    ensures var after := Evaluate(st, instrument, c).state; Inv(after) && HistoryKept(st.trades, after.trades)
  {
    hide Inv, Evaluate, TouchedBy;
    EvaluateExactly(st, instrument, c);
    forall k | 0 <= k < |st.trades|
      ensures RowKept(st.trades[k], Evaluate(st, instrument, c).state.trades[k])
    {
      if TouchedBy(st.trades[k], instrument, c) {
        TouchedIsOpen(st.trades[k], instrument, c);
      }
    }
  }

  lemma TouchedIsOpen(t: PaperTrade, instrument: Id, c: Candle)
    requires TouchedBy(t, instrument, c)
    ensures t.status.Open?
  {
  }

  lemma ActivateStep(st: State, a: nat, active: bool)
    requires Inv(st) && a < |st.accounts|
    ensures Inv(st.(accounts := st.accounts[a := st.accounts[a].(active := active)]))
  {
    hide RowOk, ClosedPnl;
    var next := st.(accounts := st.accounts[a := st.accounts[a].(active := active)]);
    forall b | 0 <= b < |next.accounts| ensures BookedAccount(next, b) {
      assert BookedAccount(st, b);
    }
  }

  lemma StepKeeps(st: State, op: Op)
    requires Inv(st)
    ensures Inv(Step(st, op)) && HistoryKept(st.trades, Step(st, op).trades)
  {
    hide Inv, Create, Admit, WithTrade, Close, Evaluate, Recalculated;
    match op {
      case CreateOp(name, initialBalance) =>
        var r := Create(st, name, initialBalance);
        if r.Ok? {
          CreateKeeps(st, name, initialBalance);
          CreateTouchesNoTrade(st, name, initialBalance);
        }
      case OpenOp(config, signal, account) => OpenStep(st, config, signal, account);
      case CloseOp(id, price, reason) => CloseStep(st, id, price, reason);
      case EvaluateOp(instrument, candle) => EvaluateStep(st, instrument, candle);
      case RecalculateOp(a) =>
        if a < |st.accounts| {
          RecalculateKeeps(st, a);
        }
      case ActivateOp(a, active) =>
        if a < |st.accounts| {
          ActivateStep(st, a, active);
        }
      case OutsideOp(signals, decisions, assessments) =>
        SignalsDoNotMatter(st, Step(st, op));
    }
  }

  lemma CreateTouchesNoTrade(st: State, name: string, initialBalance: int)
    requires Create(st, name, initialBalance).Ok?
    ensures Create(st, name, initialBalance).value.trades == st.trades
  {
  }

  lemma {:induction false} InvariantAlways(st: State, ops: seq<Op>)
    requires Inv(st)
    ensures Inv(Run(st, ops))
  {
    hide Inv, Step;
    if ops != [] {
      InvariantAlways(st, ops[..|ops| - 1]);
      StepKeeps(Run(st, ops[..|ops| - 1]), ops[|ops| - 1]);
    }
  }

  /** Profit is the way from entry to closing price in the trade's direction, times
      its size, and the label is its sign. */
  predicate ProfitOfPrices(t: PaperTrade)
  {
    && t.closePrice.Some? && t.pnl.Some? && t.result.Some?
    && (t.result.value.Win? <==> t.pnl.value > 0) && (t.result.value.Loss? <==> t.pnl.value < 0)
    && var move := if t.direction == Buy then t.closePrice.value - t.entryPrice else t.entryPrice - t.closePrice.value;
       t.pnl.value == move * t.positionSize
  }

  lemma ClosedRowPays(t: PaperTrade)
    requires RowOk(t) && t.status.Closed?
    ensures ProfitOfPrices(t)
  {
  }

  /** What closing writes into a row: price, reason, profit, label and the share
      of the balance before, 0 for a balance of 0.  Its terms stay. */
  lemma ClosedRow(t: PaperTrade, price: int, reason: CloseReason, balance: int)
    ensures var row := ClosedTrade(t, price, reason, balance);
            && row.status.Closed? && row.closePrice == Some(price) && row.closeReason == Some(reason)
            && ProfitOfPrices(row) && row.pnlPercent.Some?
            && (if balance == 0 then row.pnlPercent.value == 0.0
                else row.pnlPercent.value * balance as real == row.pnl.value as real)
            && row.account == t.account && row.signal == t.signal && row.instrument == t.instrument
            && row.direction == t.direction && row.entryPrice == t.entryPrice && row.stopLoss == t.stopLoss
            && row.takeProfit == t.takeProfit && row.positionSize == t.positionSize
  {
    PercentTimes(Pnl(t, price), balance);
    hide PnlPercent;
  }

  lemma PercentTimes(pnl: int, balance: int)
    ensures if balance == 0 then PnlPercent(pnl, balance) == 0.0
            else PnlPercent(pnl, balance) * balance as real == pnl as real
  {
  }

  /** The recorded open profit counts each open row of the account once. */
  lemma {:induction false} OpenRowCountsOnce(trades: seq<PaperTrade>, k: nat, account: nat)
    requires k < |trades|
    ensures var t := trades[k];
            OpenPnl(trades, account)
            == OpenPnl(Without(trades, k), account)
               + if t.status == Open && t.account == account && t.pnl.Some? then t.pnl.value else 0
  {
    WithoutInit(trades, k);
    hide Without;
    if k < |trades| - 1 {
      OpenRowCountsOnce(trades[..|trades| - 1], k, account);
    }
  }

  /** Only an opening adds a trade, one at the end and open, on its signal's terms. */
  lemma AddedByOpening(st: State, op: Op)
    requires Inv(st)
    ensures var before, after := st.trades, Step(st, op).trades;
            || |after| == |before|
            || (&& op.OpenOp? && |after| == |before| + 1 && after[..|before|] == before
                && after[|before|].status.Open? && OpensSignal(st, op.signal, op.account, after[|before|]))
  {
    hide Inv, Create, Admit, WithTrade, Close, Evaluate, Recalculated, OpensSignal;
    match op {
      case CreateOp(name, initialBalance) =>
        if Create(st, name, initialBalance).Ok? {
          CreateTouchesNoTrade(st, name, initialBalance);
        }
      case OpenOp(config, signal, account) =>
        var r := Admit(st, config, signal, account);
        if r.Ok? {
          AdmittedTerms(st, config, signal, account);
          AdmittedRow(st, config, signal, account);
          AddsAtEnd(st, r.value);
        }
      case CloseOp(id, price, reason) => CloseAddsNothing(st, id, price, reason);
      case EvaluateOp(instrument, candle) => EvaluateExactly(st, instrument, candle);
      case RecalculateOp(a) =>
        if a < |st.accounts| {
          RecalculateKeeps(st, a);
        }
      case ActivateOp(a, active) =>
      case OutsideOp(signals, decisions, assessments) =>
    }
  }

  lemma AddsAtEnd(st: State, t: PaperTrade)
    requires t.account < |st.accounts| && t.signal in st.signals
    ensures WithTrade(st, t).trades == st.trades + [t]
  {
  }

  lemma CloseAddsNothing(st: State, id: nat, price: int, reason: CloseReason)
    ensures var r := Close(st, id, price, reason); r.Ok? ==> |r.value.trades| == |st.trades|
  {
  }

  /** Every trade of every reachable state was opened by one operation, on the
      terms its signal had then, and still has them. */
  lemma {:induction false} TradeWasOpened(st: State, ops: seq<Op>, k: nat) returns (m: nat)
    requires Fresh(st) && k < |Run(st, ops).trades|
    ensures m < |ops| && ops[m].OpenOp? && |Run(st, ops[..m]).trades| == k
    ensures OpensSignal(Run(st, ops[..m]), ops[m].signal, ops[m].account, Run(st, ops).trades[k])
  {
    NothingBefore(st, ops);
    hide *;
    var n := |ops| - 1;
    var before := Run(st, ops[..n]);
    FreshIsSound(st);
    InvariantAlways(st, ops[..n]);
    RunUnfolds(st, ops);
    if k < |before.trades| {
      m := TradeWasOpened(st, ops[..n], k);
      assert ops[..n][..m] == ops[..m];
      StepKeeps(before, ops[n]);
      RowIsKept(before.trades, Step(before, ops[n]).trades, k);
      KeptTerms(Run(st, ops[..m]), ops[m].signal, ops[m].account, before.trades[k], Run(st, ops).trades[k]);
    } else {
      AddedByOpening(before, ops[n]);
      m := n;
    }
  }

  lemma NothingBefore(st: State, ops: seq<Op>)
    requires Fresh(st)
    ensures ops == [] ==> Run(st, ops).trades == []
  {
    hide Step;
  }

  lemma RowIsKept(before: seq<PaperTrade>, after: seq<PaperTrade>, k: nat)
    requires HistoryKept(before, after) && k < |before|
    ensures k < |after| && RowKept(before[k], after[k])
  {
    hide RowKept;
  }

  lemma KeptTerms(st: State, signal: Id, account: Option<nat>, t: PaperTrade, t': PaperTrade)
    requires OpensSignal(st, signal, account, t) && RowKept(t, t')
    ensures OpensSignal(st, signal, account, t')
  {
    hide IsRiskApproval, IsLatestSize;
  }

  /** In every state reached from empty tables: each account's balance is its
      initial balance plus the profit of its closed trades, its equity is its
      balance, a signal has one trade, an instrument has one open trade, and a
      closed trade's profit and label are those of its prices and size. */
  lemma AccountsAlwaysBalance(st: State, ops: seq<Op>)
    requires Fresh(st)
    ensures var now := Run(st, ops);
            && (forall a :: 0 <= a < |now.accounts| ==>
                  now.accounts[a].equity == now.accounts[a].balance
                  == now.accounts[a].initialBalance + ClosedPnl(now.trades, a))
            && (forall i, j :: 0 <= i < j < |now.trades| ==> now.trades[i].signal != now.trades[j].signal)
            && (forall i, j :: 0 <= i < j < |now.trades| && now.trades[i].status.Open? && now.trades[j].status.Open?
                  ==> now.trades[i].instrument != now.trades[j].instrument)
            && (forall k :: 0 <= k < |now.trades| && now.trades[k].status.Closed? ==> ProfitOfPrices(now.trades[k]))
  {
    InvariantAlways(st, ops);
    var now := Run(st, ops);
    hide ClosedPnl, Run, ProfitOfPrices;
    forall a | 0 <= a < |now.accounts|
      ensures now.accounts[a].equity == now.accounts[a].balance
              == now.accounts[a].initialBalance + ClosedPnl(now.trades, a)
    {
      assert BookedAccount(now, a);
    }
    forall k | 0 <= k < |now.trades| && now.trades[k].status.Closed? ensures ProfitOfPrices(now.trades[k]) {
      assert RowOk(now.trades[k]);
      ClosedRowPays(now.trades[k]);
    }
  }

  lemma FreshIsSound(st: State)
    requires Fresh(st)
    ensures Inv(st)
  {
  }

  lemma RunUnfolds(st: State, ops: seq<Op>)
    requires ops != []
    ensures var n := |ops| - 1; Run(st, ops) == Step(Run(st, ops[..n]), ops[n])
  {
    hide Step;
  }

  /** No later operation reopens, edits or removes a trade. */
  lemma {:induction false} HistoryAlwaysKept(st: State, ops: seq<Op>, later: seq<Op>)
    requires Fresh(st)
    ensures HistoryKept(Run(st, ops).trades, Run(st, ops + later).trades)
  {
    hide *;
    if later == [] {
      assert ops + later == ops;
      RowsKeptAlready(Run(st, ops).trades);
    } else {
      var n := |later| - 1;
      var all := ops + later;
      HistoryAlwaysKept(st, ops, later[..n]);
      assert all[..|all| - 1] == ops + later[..n] && all[|all| - 1] == later[n];
      FreshIsSound(st);
      InvariantAlways(st, all[..|all| - 1]);
      RunUnfolds(st, all);
      var mid := Run(st, all[..|all| - 1]);
      StepKeeps(mid, later[n]);
      KeptTwice(Run(st, ops).trades, mid.trades, Step(mid, later[n]).trades);
    }
  }

  lemma RowsKeptAlready(trades: seq<PaperTrade>)
    ensures HistoryKept(trades, trades)
  {
  }

  lemma KeptTwice(a: seq<PaperTrade>, b: seq<PaperTrade>, c: seq<PaperTrade>)
    requires HistoryKept(a, b) && HistoryKept(b, c)
    ensures HistoryKept(a, c)
  {
    forall k | 0 <= k < |a| ensures RowKept(a[k], c[k]) {
      assert RowKept(a[k], b[k]) && RowKept(b[k], c[k]);
    }
  }

  /** Two openings that both check before either writes break the one-open
      invariant exactly when they are for the same instrument. */
  lemma RacingOpensExactlyWhen(st: State, config: Config, s1: Id, s2: Id, a1: Option<nat>, a2: Option<nat>)
    requires Inv(st) && s1 != s2
    requires Admit(st, config, s1, a1).Ok? && Admit(st, config, s2, a2).Ok?
    ensures var t1, t2 := Admit(st, config, s1, a1).value, Admit(st, config, s2, a2).value;
            && t2.signal in WithTrade(st, t1).signals
            && t2.account < |WithTrade(st, t1).accounts|
            && (OneOpenPerInstrument(WithTrade(WithTrade(st, t1), t2).trades) <==> t1.instrument != t2.instrument)
  {
    hide Admit, RowOk, ClosedPnl, OpenPnl;
    AdmittedRow(st, config, s1, a1);
    AdmittedRow(st, config, s2, a2);
    var t1, t2 := Admit(st, config, s1, a1).value, Admit(st, config, s2, a2).value;
    var n := |st.trades|;
    var both := WithTrade(WithTrade(st, t1), t2).trades;
    assert both == st.trades + [t1, t2];
    assert both[n] == t1 && both[n + 1] == t2;
    if t1.instrument != t2.instrument {
      forall i, j | 0 <= i < j < n + 2 && both[i].status.Open? && both[j].status.Open?
        ensures both[i].instrument != both[j].instrument
      {
        if i < n {
          assert both[i] == st.trades[i];
        }
      }
    }
  }

  /** Such a pair of openings arises: after one account is created, two approved
      signals of one instrument are each admitted, and together break the rule. */
  lemma RacingOpensArise(st: State) returns (ops: seq<Op>, config: Config)
    requires Fresh(st)
    ensures var now := Run(st, ops);
            && Inv(now)
            && Admit(now, config, "first", None).Ok? && Admit(now, config, "second", None).Ok?
            && var t1, t2 := Admit(now, config, "first", None).value, Admit(now, config, "second", None).value;
               && t2.signal in WithTrade(now, t1).signals
               && t2.account < |WithTrade(now, t1).accounts|
               && !OneOpenPerInstrument(WithTrade(WithTrade(now, t1), t2).trades)
  {
    config := Config(true, None);
    var signal := PaperSignal(SignalApproved, SignalBuy, "XAUUSD", Some(100), Some(90), Some(130));
    var decisions := [
      AgentDecision("first", RiskAgent, true, Some(1)), AgentDecision("first", SupervisorAgent, true, None),
      AgentDecision("second", RiskAgent, true, Some(1)), AgentDecision("second", SupervisorAgent, true, None)];
    var create := CreateOp("main", 1);
    var outside := OutsideOp(map["first" := signal, "second" := signal], decisions, []);
    ops := [create, outside];
    TwoOps(st, create, outside);
    InvariantAlways(st, ops);
    var now := Run(st, ops);
    ApprovalsOf(decisions);
    assert now.accounts == [Account("main", 1, 1, 1, true)] && now.trades == [];
    assert DefaultActive(now.accounts, 0) == 0;
    hide Run, Inv, LatestApproval, DefaultActive, Step;
    BothAdmitted(now, config, signal, decisions);
    RacingOpensExactlyWhen(now, config, "first", "second", None, None);
  }

  lemma TwoOps(st: State, first: Op, second: Op)
    ensures Run(st, [first, second]) == Step(Step(st, first), second)
  {
    hide Step;
    assert [first, second][..1] == [first];
    assert [first][..0] == [];
    assert Run(st, [first]) == Step(st, first);
  }

  lemma ApprovalsOf(decisions: seq<AgentDecision>)
    requires decisions == [
      AgentDecision("first", RiskAgent, true, Some(1)), AgentDecision("first", SupervisorAgent, true, None),
      AgentDecision("second", RiskAgent, true, Some(1)), AgentDecision("second", SupervisorAgent, true, None)]
    ensures LatestApproval(decisions, "first", RiskAgent) == Some(decisions[0])
    ensures LatestApproval(decisions, "first", SupervisorAgent) == Some(decisions[1])
    ensures LatestApproval(decisions, "second", RiskAgent) == Some(decisions[2])
    ensures LatestApproval(decisions, "second", SupervisorAgent) == Some(decisions[3])
  {
    forall d | d in decisions ensures d == decisions[0] || d == decisions[1] || d == decisions[2] || d == decisions[3] {
    }
    assert forall k :: 0 <= k < 4 ==> decisions[k] in decisions;
  }

  lemma BothAdmitted(now: State, config: Config, signal: PaperSignal, decisions: seq<AgentDecision>)
    requires config == Config(true, None)
    requires signal == PaperSignal(SignalApproved, SignalBuy, "XAUUSD", Some(100), Some(90), Some(130))
    requires |decisions| == 4 && decisions[0].positionSize == decisions[2].positionSize == Some(1)
    requires now.accounts == [Account("main", 1, 1, 1, true)] && now.trades == []
    requires now.signals == map["first" := signal, "second" := signal] && now.decisions == decisions
    requires LatestApproval(decisions, "first", RiskAgent) == Some(decisions[0])
    requires LatestApproval(decisions, "first", SupervisorAgent) == Some(decisions[1])
    requires LatestApproval(decisions, "second", RiskAgent) == Some(decisions[2])
    requires LatestApproval(decisions, "second", SupervisorAgent) == Some(decisions[3])
    ensures Admit(now, config, "first", None) == Ok(NewTrade(0, "first", signal, 1))
    ensures Admit(now, config, "second", None) == Ok(NewTrade(0, "second", signal, 1))
  {
    hide LatestApproval;
    assert DefaultActive(now.accounts, 0) == 0;
  }

  // ----- agreement with the backtest -----

  function EvaluateAll(st: State, instrument: Id, cs: seq<Candle>): State
  {
    if cs == [] then st
    else Evaluate(EvaluateAll(st, instrument, cs[..|cs| - 1]), instrument, cs[|cs| - 1]).state
  }

  predicate SameTerms(t: PaperTrade, b: Backtest.Trade)
  {
    && t.direction == b.direction && t.entryPrice == b.entryPrice
    && t.stopLoss == Some(b.stopLoss) && t.takeProfit == Some(b.takeProfit)
  }

  function ReasonFor(result: TradeResult): CloseReason
  {
    if result.Loss? then StopLoss else TakeProfit
  }

  lemma SameExit(t: PaperTrade, b: Backtest.Trade, c: Candle)
    requires SameTerms(t, b)
    ensures var input, exit := GetCloseInputForCandle(t, c), Backtest.ExitForCandle(b, c);
            && (input.Some? <==> exit.Some?)
            && (input.Some? ==> input.value == CloseInput(exit.value.price, ReasonFor(exit.value.result)))
  {
  }

  ghost predicate ClosedAs(t: PaperTrade, before: PaperTrade, exit: Backtest.Exit)
  {
    && t.status.Closed?
    && t.closePrice == Some(exit.price)
    && t.closeReason == Some(ReasonFor(exit.result))
    && t.pnl == Some(Pnl(before, exit.price))
    && t.result == Some(ResultOfPnl(Pnl(before, exit.price)))
  }

  /** What feeding the first `m` candles after entry has done to the trade. */
  ghost predicate FedTo(inp: Backtest.Input, i: nat, m: nat, before: PaperTrade, now: PaperTrade)
    requires Backtest.Accepted(inp, i) && i + 2 + m <= |inp.candles|
  {
    var e, b := Backtest.ExitIndex(inp, i), Backtest.TradeOfSize(inp, i, 0);
    if e < i + 2 + m then
      Backtest.ExitForCandle(b, inp.candles[e]).Some?
      && ClosedAs(now, before, Backtest.ExitForCandle(b, inp.candles[e]).value)
    else now == before
  }

  lemma FedOne(inp: Backtest.Input, i: nat, m: nat, before: PaperTrade, now: PaperTrade, next: PaperTrade,
               instrument: Id, balance: int)
    requires Backtest.Accepted(inp, i) && i + 2 + m < |inp.candles| && Ascending(inp.candles)
    requires before.status.Open? && before.instrument == instrument
    requires SameTerms(before, Backtest.TradeOfSize(inp, i, 0))
    requires FedTo(inp, i, m, before, now)
    requires next == if TouchedBy(now, instrument, inp.candles[i + 2 + m]) then
                       var input := GetCloseInputForCandle(now, inp.candles[i + 2 + m]).value;
                       ClosedTrade(now, input.price, input.reason, balance)
                     else now
    ensures FedTo(inp, i, m + 1, before, next)
  {
    hide GetCloseInputForCandle, Backtest.ExitForCandle, Backtest.Accepted, Pnl, ResultOfPnl;
    var e, j := Backtest.ExitIndex(inp, i), i + 2 + m;
    if e >= j {
      TouchIsExit(inp, i, j);
    }
    SameExit(before, Backtest.TradeOfSize(inp, i, 0), inp.candles[j]);
  }

  lemma TouchIsExit(inp: Backtest.Input, i: nat, j: nat)
    requires Backtest.Accepted(inp, i) && i + 2 <= j < |inp.candles| && Ascending(inp.candles)
    requires Backtest.ExitIndex(inp, i) >= j
    ensures Backtest.ExitForCandle(Backtest.TradeOfSize(inp, i, 0), inp.candles[j]).Some?
            <==> Backtest.ExitIndex(inp, i) == j
  {
    assert Backtest.Touches(inp, i, j)
      <==> Backtest.ExitForCandle(Backtest.TradeOfSize(inp, i, 0), inp.candles[j]).Some?;
  }

  lemma {:induction false} FedPrefix(inp: Backtest.Input, i: nat, m: nat, st: State, k: nat, instrument: Id)
    requires Backtest.Accepted(inp, i) && i + 2 + m <= |inp.candles| && Ascending(inp.candles)
    requires Inv(st) && k < |st.trades| && st.trades[k].status.Open? && st.trades[k].instrument == instrument
    requires SameTerms(st.trades[k], Backtest.TradeOfSize(inp, i, 0))
    ensures var now := EvaluateAll(st, instrument, inp.candles[i + 2..i + 2 + m]);
            Inv(now) && |now.trades| == |st.trades| && FedTo(inp, i, m, st.trades[k], now.trades[k])
  {
    hide Inv, Evaluate, FedTo, Backtest.Accepted, SameTerms, TouchedBy, ClosedTrade, GetCloseInputForCandle;
    if m == 0 {
      assert inp.candles[i + 2..i + 2] == [];
      FedNothing(inp, i, st.trades[k]);
    } else {
      FedPrefix(inp, i, m - 1, st, k, instrument);
      var cs := inp.candles[i + 2..i + 2 + m];
      assert cs[..m - 1] == inp.candles[i + 2..i + 2 + (m - 1)];
      var was := EvaluateAll(st, instrument, cs[..m - 1]);
      EvaluateExactly(was, instrument, cs[m - 1]);
      var now := Evaluate(was, instrument, cs[m - 1]).state;
      assert cs[m - 1] == inp.candles[i + 2 + (m - 1)];
      AccountExists(was, k);
      var balance := was.accounts[was.trades[k].account].balance;
      FedOne(inp, i, m - 1, st.trades[k], was.trades[k], now.trades[k], instrument, balance);
    }
  }

  lemma AccountExists(st: State, k: nat)
    requires Inv(st) && k < |st.trades|
    ensures st.trades[k].account < |st.accounts|
  {
  }

  lemma FedNothing(inp: Backtest.Input, i: nat, t: PaperTrade)
    requires Backtest.Accepted(inp, i)
    ensures FedTo(inp, i, 0, t, t)
  {
  }

  /** A paper trade opened on the backtest's terms and fed the candles after
      its entry, in any sound state, closes at the backtest's exit price, for
      the same reason, with the exact profit; it stays open exactly when the
      backtest closes it only because the data ends. */
  lemma AgreesWithBacktest(inp: Backtest.Input, i: nat, st: State, k: nat, instrument: Id)
    requires Backtest.Accepted(inp, i) && Ascending(inp.candles)
    requires Inv(st) && k < |st.trades| && st.trades[k].status.Open? && st.trades[k].instrument == instrument
    requires SameTerms(st.trades[k], Backtest.TradeOfSize(inp, i, 0))
    ensures var after := EvaluateAll(st, instrument, inp.candles[i + 2..]);
            var spec := Backtest.SpecClosed(inp, i);
            && k < |after.trades|
            && (Backtest.ExitIndex(inp, i) == |inp.candles| ==> after.trades[k] == st.trades[k])
            && (Backtest.ExitIndex(inp, i) < |inp.candles| ==>
                  ClosedAs(after.trades[k], st.trades[k], Backtest.Exit(spec.exitPrice, spec.result)))
  {
    var m := |inp.candles| - (i + 2);
    assert inp.candles[i + 2..i + 2 + m] == inp.candles[i + 2..];
    FedPrefix(inp, i, m, st, k, instrument);
    if Backtest.ExitIndex(inp, i) < |inp.candles| {
      SpecExit(inp, i);
    }
    hide Evaluate, ClosedAs, Backtest.SpecClosed, Backtest.Accepted, Backtest.ExitForCandle, Inv;
  }

  /** The same for a signal admitted in any sound state, when it carries what the
      strategy decided and the price of the next close: the trade opened for it
      follows the backtest, and with the backtest's size earns its profit up to
      rounding. */
  lemma OpenedTradeFollowsBacktest(inp: Backtest.Input, i: nat, st: State, config: Config, signalId: Id,
                                   accountId: Option<nat>)
    requires Backtest.Accepted(inp, i) && Ascending(inp.candles) && Inv(st)
    requires Admit(st, config, signalId, accountId).Ok?
    requires var s, r := st.signals[signalId], Backtest.SignalAt(inp, i).value;
             && s.direction == r.direction && s.stopLoss == r.stopLoss && s.takeProfit == r.takeProfit
             && s.entryPrice == Some(inp.candles[i + 1].close)
    ensures var t, k := Admit(st, config, signalId, accountId).value, |st.trades|;
            var after := EvaluateAll(WithTrade(st, t), t.instrument, inp.candles[i + 2..]);
            var spec := Backtest.SpecClosed(inp, i);
            && k < |after.trades|
            && (Backtest.ExitIndex(inp, i) == |inp.candles| ==> after.trades[k] == t)
            && (Backtest.ExitIndex(inp, i) < |inp.candles| ==>
                  ClosedAs(after.trades[k], t, Backtest.Exit(spec.exitPrice, spec.result)))
            && (t.positionSize == spec.trade.positionSize ==> RoundsTo(Pnl(t, spec.exitPrice), spec.pnl))
  {
    var t := Admit(st, config, signalId, accountId).value;
    AdmittedTerms(st, config, signalId, accountId);
    AdmittedRow(st, config, signalId, accountId);
    AdmittedSameTerms(inp, i, st, signalId, t);
    hide Admit, Inv, Backtest.Accepted, Backtest.SpecClosed, Backtest.ExitIndex, ClosedAs, Evaluate, EvaluateAll,
      OpensSignal, RowOk, HasTradeForSignal, HasOpenForInstrument, SameTerms;
    AddKeeps(st, t);
    AddsAtEnd(st, t);
    hide WithTrade;
    AgreesWithBacktest(inp, i, WithTrade(st, t), |st.trades|, t.instrument);
    if t.positionSize == Backtest.SpecClosed(inp, i).trade.positionSize {
      SameProfit(inp, i, t);
    }
  }

  lemma AdmittedSameTerms(inp: Backtest.Input, i: nat, st: State, signalId: Id, t: PaperTrade)
    requires Backtest.Accepted(inp, i) && signalId in st.signals && TermsOfSignal(st.signals[signalId], t)
    requires var s, r := st.signals[signalId], Backtest.SignalAt(inp, i).value;
             && s.direction == r.direction && s.stopLoss == r.stopLoss && s.takeProfit == r.takeProfit
             && s.entryPrice == Some(inp.candles[i + 1].close)
    ensures SameTerms(t, Backtest.TradeOfSize(inp, i, 0)) && SameTerms(t, Backtest.SpecClosed(inp, i).trade)
  {
    hide Backtest.ExitIndex, Backtest.PositionSize, Backtest.BalanceAtSignal, Backtest.CalculatePnl;
  }

  /** The exact paper profit, in units of 10^-16, rounded to units of 10^-8. */
  predicate RoundsTo(exact: int, units: int)
  {
    2 * (if units * 100_000_000 >= exact then units * 100_000_000 - exact else exact - units * 100_000_000)
    <= 100_000_000
  }

  lemma SameProfit(inp: Backtest.Input, i: nat, t: PaperTrade)
    requires Backtest.Accepted(inp, i)
    requires SameTerms(t, Backtest.SpecClosed(inp, i).trade)
    requires t.positionSize == Backtest.SpecClosed(inp, i).trade.positionSize
    ensures RoundsTo(Pnl(t, Backtest.SpecClosed(inp, i).exitPrice), Backtest.SpecClosed(inp, i).pnl)
  {
    Money.ProfitIsMoveTimesSize(inp, i);
    hide Backtest.SpecClosed, Backtest.Accepted;
  }

  lemma SpecExit(inp: Backtest.Input, i: nat)
    requires Backtest.Accepted(inp, i) && Backtest.ExitIndex(inp, i) < |inp.candles|
    ensures var e, b := Backtest.ExitIndex(inp, i), Backtest.TradeOfSize(inp, i, 0);
            var exit := Backtest.ExitForCandle(b, inp.candles[e]);
            exit.Some? && exit.value
            == Backtest.Exit(Backtest.SpecClosed(inp, i).exitPrice, Backtest.SpecClosed(inp, i).result)
  {
  }

  /** The two engines label a touched exit alike exactly when its level lies on
      the expected side of the entry: the stop on the losing side, the target
      on the winning one. */
  lemma LabelsAgreeExactlyWhen(t: PaperTrade, b: Backtest.Trade, c: Candle)
    requires RowOk(t) && SameTerms(t, b) && Backtest.ExitForCandle(b, c).Some?
    ensures var exit := Backtest.ExitForCandle(b, c).value;
            var gain := if b.direction.Buy? then exit.price - b.entryPrice else b.entryPrice - exit.price;
            ResultOfPnl(Pnl(t, exit.price)) == exit.result
            <==> if exit.result.Loss? then gain < 0 else gain > 0
  {
    var exit := Backtest.ExitForCandle(b, c).value;
    var gain := if b.direction.Buy? then exit.price - b.entryPrice else b.entryPrice - exit.price;
    assert Pnl(t, exit.price) == gain * t.positionSize;
    SignOfProduct(gain, t.positionSize);
  }

  lemma SignOfProduct(a: int, b: int)
    requires b > 0
    ensures (a * b > 0 <==> a > 0) && (a * b < 0 <==> a < 0)
  {
  }
}
