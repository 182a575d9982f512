/** Limited live execution as a transition system.  Every request is an actor
    with a program counter; between two of its awaits any other actor may step.
    A write may succeed, fail, or fail after it was applied; any actor may crash. */
module LiveProtocol {
  import opened Market
  import opened Numbers
  import opened Rounding
  import opened RiskAgent
  import opened LiveStore

  /** How an awaited write ends. */
  datatype Outcome = Done | Lost | AppliedThenLost

  datatype BrokerReply = BrokerExecuted | BrokerDeclined | BrokerError

  datatype Pc =
    // executeLiveFromSignal
    | LiveStarted(signal: Id, user: Id, manual: nat)
    | LiveConfigRead(signal: Id, user: Id, manual: nat, config: SystemConfig)
    | LiveBlocking
    | LiveReserved(row: nat)
    | LiveValidated(row: nat)
    | LiveSending(row: nat)
    | LiveAwaiting(row: nat)
    | LiveResponded(row: nat, executed: bool)
    | LiveMarking(row: nat)
    | LiveMarked(row: nat)
    | LiveFailing(row: nat)
    | LiveMarkingFailed(row: nat)
    // decideSignalById
    | SupervisorChecked(signal: Id)
    | SupervisorRiskRead(signal: Id, risk: nat)
    | SupervisorConfigRead(signal: Id, risk: nat, config: SystemConfig)
    | SupervisorDecided(signal: Id, decision: SupervisorDecision)
    // approveSignal and rejectSignal
    | ManualSignalRead(signal: Id)
    | ManualConfigRead(signal: Id)
    | ManualValidated(signal: Id, action: ManualAction)
    | ManualChecked(signal: Id, action: ManualAction)
    | Ended

  /** `cap` is the largest daily limit in force so far. */
  datatype State = State(db: Db, config: SystemConfig, actors: map<Id, Pc>, cap: int)

  datatype Event =
    // administration and the other services
    | CreateSignal(signal: Id, value: Signal)
    | SetStatus(signal: Id, status: SignalStatus)
    | SetUsers(users: set<Id>, admins: set<Id>)
    | SetConfig(config: SystemConfig)
    | ReadLimits
    | ChangeLimits(patch: LimitsPatch)
    | AssessRisk(signal: Id, account: AccountState, profile: RiskProfile)
    // supervisor
    | SupervisorStart(actor: Id, signal: Id)
    | SupervisorReadRisk(actor: Id, risk: nat)
    | SupervisorReadConfig(actor: Id)
    | SupervisorDecide(actor: Id, seen: Surroundings)
    | SupervisorWrite(actor: Id)
    // manual decisions
    | ManualReadSignal(actor: Id, signal: Id)
    | ManualReadConfig(actor: Id)
    | ManualReadRisk(actor: Id)
    | ManualSkipToReject(actor: Id)
    | ManualCheck(actor: Id)
    | ManualCreate(actor: Id)
    // live execution
    | LiveStart(actor: Id, signal: Id, user: Id, manual: nat)
    | LiveReadConfig(actor: Id)
    | LiveReserve(actor: Id, symbol: string, checkedAt: int, createdAt: int, outcome: Outcome)
    | LiveLogBlocked(actor: Id)
    | LiveLogValidation(actor: Id, ok: bool)
    | LiveLogPlaceOrder(actor: Id, ok: bool)
    | LiveSend(actor: Id)
    | LiveBrokerReturns(actor: Id, reply: BrokerReply)
    | LiveLogResponse(actor: Id, ok: bool)
    | LiveMarkExecuted(actor: Id, payloadPnl: Option<int>, outcome: Outcome)
    | LiveUpdateSignal(actor: Id, outcome: Outcome)
    | LiveLogFailure(actor: Id, ok: bool)
    | LiveMarkFailed(actor: Id, outcome: Outcome)
    | Crash(actor: Id)

  /** The start of the local day a moment belongs to. */
  ghost predicate IsCalendar(dayStart: int -> int)
  {
    && (forall t :: dayStart(t) <= t)
    && (forall t, u :: t <= u ==> dayStart(t) <= dayStart(u))
    && (forall t :: dayStart(dayStart(t)) == dayStart(t))
  }

  predicate Init(s: State)
  {
    && s.db.risks == [] && s.db.supervisors == map[] && s.db.manuals == [] && s.db.rows == []
    && s.db.limits == None
    && s.actors == map[]
    && s.cap == 0
  }

  function PcOf(s: State, a: Id): Pc
  {
    if a in s.actors then s.actors[a] else Ended
  }

  function Goto(s: State, a: Id, pc: Pc): State
  {
    s.(actors := s.actors[a := pc])
  }

  function WithLimits(s: State, l: Limits): State
  {
    s.(db := s.db.(limits := Some(l)), cap := MaxInt(s.cap, l.maxDailyLiveTrades))
  }

  function Signalled(s: State, signal: Id, status: SignalStatus): State
  {
    if signal in s.db.signals then
      s.(db := s.db.(signals := s.db.signals[signal := s.db.signals[signal].(status := status)]))
    else s
  }

  /** What the supervisor stores when it decides on what it has read. */
  function DecisionFrom(db: Db, signal: Id, risk: nat, seen: Surroundings, config: SystemConfig): SupervisorDecision
    requires signal in db.signals && risk < |db.risks|
  {
    var confidence := db.signals[signal].confidence;
    SupervisorDecision(Decide(confidence, db.risks[risk].decision, seen.account, seen.hasOpenTrade, config,
                              seen.fundamentalBlocks, seen.limits),
                       confidence, risk, seen, config)
  }

  /** `riskAssessment.findFirst` over all decisions, newest first. */
  predicate IsLatestRisk(db: Db, signal: Id, i: nat)
  {
    && i < |db.risks| && db.risks[i].signal == signal
    && forall k :: i < k < |db.risks| ==> db.risks[k].signal != signal
  }

  // ----- the request's steps -----

  function ReserveStep(dayStart: int -> int, s: State, a: Id, symbol: string, checkedAt: int, createdAt: int,
                       outcome: Outcome): State
    requires PcOf(s, a).LiveConfigRead?
  {
    var pc := s.actors[a];
    var v := Validate(s.db, pc.config, pc.signal, pc.user, pc.manual, symbol, dayStart(checkedAt));
    if v.Deny? || outcome.Lost? then Goto(s, a, LiveBlocking)
    else
      var row := |s.db.rows|;
      var s' := s.(db := Reserve(s.db, v, pc.signal, pc.manual, symbol, createdAt, a),
                   cap := MaxInt(s.cap, v.limits.maxDailyLiveTrades));
      Goto(s', a, if outcome.Done? then LiveReserved(row) else LiveBlocking)
  }

  function SendStep(s: State, a: Id): State
    requires PcOf(s, a).LiveSending? && s.actors[a].row < |s.db.rows|
  {
    var row := s.actors[a].row;
    var r := s.db.rows[row];
    Goto(s.(db := s.db.(rows := s.db.rows[row := r.(calls := r.calls + 1, inFlight := true)])), a, LiveAwaiting(row))
  }

  function ReturnStep(s: State, a: Id, reply: BrokerReply): State
    requires PcOf(s, a).LiveAwaiting? && s.actors[a].row < |s.db.rows|
  {
    var row := s.actors[a].row;
    var r := s.db.rows[row];
    Goto(s.(db := s.db.(rows := s.db.rows[row := r.(inFlight := false)])), a,
         if reply.BrokerError? then LiveFailing(row) else LiveResponded(row, reply.BrokerExecuted?))
  }

  function MarkStep(s: State, a: Id, status: LiveStatus, payloadPnl: Option<int>, outcome: Outcome,
                    next: Pc, failed: Pc): State
    requires a in s.actors && (s.actors[a].LiveMarking? || s.actors[a].LiveMarkingFailed?)
    requires s.actors[a].row < |s.db.rows|
  {
    var s' := if outcome.Lost? then s else s.(db := WithStatus(s.db, s.actors[a].row, status, payloadPnl));
    Goto(s', a, if outcome.Done? then next else failed)
  }

  // ----- the transition relation -----

  /** The row named by a program counter, when it names one. */
  function RowOf(pc: Pc): Option<nat>
  {
    match pc
    case LiveReserved(row) => Some(row)
    case LiveValidated(row) => Some(row)
    case LiveSending(row) => Some(row)
    case LiveAwaiting(row) => Some(row)
    case LiveResponded(row, _) => Some(row)
    case LiveMarking(row) => Some(row)
    case LiveMarked(row) => Some(row)
    case LiveFailing(row) => Some(row)
    case LiveMarkingFailed(row) => Some(row)
    case _ => None
  }

  predicate Bound(s: State, a: Id)
  {
    a in s.actors && (RowOf(s.actors[a]).Some? ==> RowOf(s.actors[a]).value < |s.db.rows|)
  }

  predicate LiveEnabled(s: State, e: Event)
  {
    match e
    case LiveStart(a, _, _, _) => a !in s.actors
    case LiveReadConfig(a) => PcOf(s, a).LiveStarted?
    case LiveReserve(a, _, checkedAt, createdAt, _) => PcOf(s, a).LiveConfigRead? && checkedAt <= createdAt
    case LiveLogBlocked(a) => PcOf(s, a).LiveBlocking?
    case LiveLogValidation(a, _) => PcOf(s, a).LiveReserved?
    case LiveLogPlaceOrder(a, _) => PcOf(s, a).LiveValidated?
    case LiveSend(a) => PcOf(s, a).LiveSending? && Bound(s, a)
    case LiveBrokerReturns(a, _) => PcOf(s, a).LiveAwaiting? && Bound(s, a)
    case LiveLogResponse(a, _) => PcOf(s, a).LiveResponded?
    case LiveMarkExecuted(a, _, _) => PcOf(s, a).LiveMarking? && Bound(s, a)
    case LiveUpdateSignal(a, _) => PcOf(s, a).LiveMarked? && Bound(s, a)
    case LiveLogFailure(a, _) => PcOf(s, a).LiveFailing?
    case LiveMarkFailed(a, _) => PcOf(s, a).LiveMarkingFailed? && Bound(s, a)
    case _ => false
  }

  function LiveApply(dayStart: int -> int, s: State, e: Event): State
    requires LiveEnabled(s, e)
  {
    match e
    case LiveStart(a, signal, user, manual) => Goto(s, a, LiveStarted(signal, user, manual))
    case LiveReadConfig(a) =>
      var pc := s.actors[a];
      Goto(s, a, LiveConfigRead(pc.signal, pc.user, pc.manual, s.config))
    case LiveReserve(a, symbol, checkedAt, createdAt, outcome) =>
      ReserveStep(dayStart, s, a, symbol, checkedAt, createdAt, outcome)
    case LiveLogBlocked(a) => Goto(s, a, Ended)
    case LiveLogValidation(a, ok) => Goto(s, a, if ok then LiveValidated(s.actors[a].row) else LiveBlocking)
    case LiveLogPlaceOrder(a, ok) => Goto(s, a, if ok then LiveSending(s.actors[a].row) else Ended)
    case LiveSend(a) => SendStep(s, a)
    case LiveBrokerReturns(a, reply) => ReturnStep(s, a, reply)
    case LiveLogResponse(a, ok) =>
      var pc := s.actors[a];
      Goto(s, a, if ok && pc.executed then LiveMarking(pc.row) else LiveFailing(pc.row))
    case LiveMarkExecuted(a, payloadPnl, outcome) =>
      var row := s.actors[a].row;
      MarkStep(s, a, Executed, payloadPnl, outcome, LiveMarked(row), LiveFailing(row))
    case LiveUpdateSignal(a, outcome) =>
      var row := s.actors[a].row;
      var s' := if outcome.Lost? then s else Signalled(s, s.db.rows[row].signal, LiveExecuted);
      Goto(s', a, if outcome.Done? then Ended else LiveFailing(row))
    case LiveLogFailure(a, ok) => Goto(s, a, if ok then LiveMarkingFailed(s.actors[a].row) else Ended)
    case LiveMarkFailed(a, outcome) =>
      MarkStep(s, a, Failed, s.db.rows[s.actors[a].row].payloadPnl, outcome, Ended, Ended)
  }

  predicate ManualEnabled(s: State, e: Event)
  {
    match e
    case ManualReadSignal(a, signal) =>
      a !in s.actors && signal in s.db.signals && s.db.signals[signal].status.PendingManualApproval?
      && signal in s.db.supervisors
    case ManualReadConfig(a) =>
      PcOf(s, a).ManualSignalRead? && !s.config.killSwitch && s.config.mode == AssistedTrading
    case ManualReadRisk(a) =>
      && PcOf(s, a).ManualConfigRead?
      && LatestApproved(s.db.risks, s.actors[a].signal).Some?
      && s.actors[a].signal in s.db.supervisors && s.db.supervisors[s.actors[a].signal].action == Operate
    case ManualSkipToReject(a) => PcOf(s, a).ManualSignalRead?
    case ManualCheck(a) =>
      PcOf(s, a).ManualValidated?
      && forall k :: 0 <= k < |s.db.manuals| ==> s.db.manuals[k].signal != s.actors[a].signal
    case ManualCreate(a) => PcOf(s, a).ManualChecked?
    case _ => false
  }

  function ManualApply(s: State, e: Event): State
    requires ManualEnabled(s, e)
  {
    match e
    case ManualReadSignal(a, signal) => Goto(s, a, ManualSignalRead(signal))
    case ManualReadConfig(a) => Goto(s, a, ManualConfigRead(s.actors[a].signal))
    case ManualReadRisk(a) => Goto(s, a, ManualValidated(s.actors[a].signal, Approve))
    case ManualSkipToReject(a) => Goto(s, a, ManualValidated(s.actors[a].signal, Reject))
    case ManualCheck(a) => Goto(s, a, ManualChecked(s.actors[a].signal, s.actors[a].action))
    case ManualCreate(a) =>
      var pc := s.actors[a];
      Goto(s.(db := s.db.(manuals := s.db.manuals + [ManualDecision(pc.signal, pc.action)])), a, Ended)
  }

  predicate OtherEnabled(s: State, e: Event)
  {
    match e
    case CreateSignal(signal, _) => signal !in s.db.signals
    case SetStatus(_, _) => true
    case SetUsers(_, _) => true
    case SetConfig(_) => true
    case ReadLimits => true
    case ChangeLimits(_) => true
    case AssessRisk(signal, account, profile) =>
      signal in s.db.signals
      && EvaluateSignal(s.db.signals[signal].entryPrice, s.db.signals[signal].stopLoss,
                        s.db.signals[signal].takeProfit, account, profile).Verdict?
    case SupervisorStart(a, signal) => a !in s.actors && signal !in s.db.supervisors
    case SupervisorReadRisk(a, risk) =>
      PcOf(s, a).SupervisorChecked? && s.actors[a].signal in s.db.signals
      && IsLatestRisk(s.db, s.actors[a].signal, risk)
    case SupervisorReadConfig(a) => PcOf(s, a).SupervisorRiskRead?
    case SupervisorDecide(a, _) =>
      PcOf(s, a).SupervisorConfigRead? && s.actors[a].signal in s.db.signals && s.actors[a].risk < |s.db.risks|
    case SupervisorWrite(a) => PcOf(s, a).SupervisorDecided?
    case Crash(a) => a in s.actors
    case _ => false
  }

  function OtherApply(s: State, e: Event): State
    requires OtherEnabled(s, e)
  {
    match e
    case CreateSignal(signal, value) => s.(db := s.db.(signals := s.db.signals[signal := value]))
    case SetStatus(signal, status) => Signalled(s, signal, status)
    case SetUsers(users, admins) => s.(db := s.db.(users := users, admins := admins))
    case SetConfig(config) => s.(config := config)
    case ReadLimits => WithLimits(s, LimitsInForce(s.db))
    case ChangeLimits(patch) => WithLimits(s, Patched(LimitsInForce(s.db), patch))
    case AssessRisk(signal, account, profile) =>
      var g := s.db.signals[signal];
      var v := EvaluateSignal(g.entryPrice, g.stopLoss, g.takeProfit, account, profile);
      var size := Round(v.positionSize * ONE as real);
      s.(db := s.db.(risks := s.db.risks + [RiskAssessment(signal, v.decision, size, v.riskRewardRatio,
                                                         profile.minRiskRewardRatio)]))
    case SupervisorStart(a, signal) => Goto(s, a, SupervisorChecked(signal))
    case SupervisorReadRisk(a, risk) => Goto(s, a, SupervisorRiskRead(s.actors[a].signal, risk))
    case SupervisorReadConfig(a) =>
      Goto(s, a, SupervisorConfigRead(s.actors[a].signal, s.actors[a].risk, s.config))
    case SupervisorDecide(a, seen) =>
      var pc := s.actors[a];
      Goto(s, a, SupervisorDecided(pc.signal, DecisionFrom(s.db, pc.signal, pc.risk, seen, pc.config)))
    case SupervisorWrite(a) =>
      var pc := s.actors[a];
      if pc.signal in s.db.supervisors then Goto(s, a, Ended)
      else Goto(s.(db := s.db.(supervisors := s.db.supervisors[pc.signal := pc.decision])), a, Ended)
    case Crash(a) => Goto(s, a, Ended)
  }

  predicate Enabled(s: State, e: Event)
  {
    LiveEnabled(s, e) || ManualEnabled(s, e) || OtherEnabled(s, e)
  }

  function Apply(dayStart: int -> int, s: State, e: Event): State
    requires Enabled(s, e)
  {
    if LiveEnabled(s, e) then LiveApply(dayStart, s, e)
    else if ManualEnabled(s, e) then ManualApply(s, e)
    else OtherApply(s, e)
  }

  /** A run: a state before the first event and one after each. */
  ghost predicate IsRun(dayStart: int -> int, states: seq<State>, events: seq<Event>)
  {
    && |states| == |events| + 1
    && Init(states[0])
    && forall i :: 0 <= i < |events| ==>
         Enabled(states[i], events[i]) && states[i + 1] == Apply(dayStart, states[i], events[i])
  }

  // ----- what each family of events leaves alone -----

  lemma LiveTouches(dayStart: int -> int, s: State, e: Event)
    requires LiveEnabled(s, e)
    ensures var s' := LiveApply(dayStart, s, e);
            && s'.db.supervisors == s.db.supervisors
            && s'.db.manuals == s.db.manuals
            && s'.db.risks == s.db.risks
            && (s'.db.signals == s.db.signals
                || exists signal :: signal in s.db.signals
                     && s'.db.signals == s.db.signals[signal := s.db.signals[signal].(status := LiveExecuted)])
  {
    hide Validate;
    var s' := LiveApply(dayStart, s, e);
    if s'.db.signals != s.db.signals {
      var signal := s.db.rows[s.actors[e.actor].row].signal;
      assert s'.db.signals == s.db.signals[signal := s.db.signals[signal].(status := LiveExecuted)];
    }
  }

  lemma ManualTouches(s: State, e: Event)
    requires ManualEnabled(s, e)
    ensures var s' := ManualApply(s, e);
            && s'.db == s.db.(manuals := s'.db.manuals) && s'.config == s.config && s'.cap == s.cap
            && (s'.db.manuals == s.db.manuals
                || (&& e.ManualCreate? && PcOf(s, e.actor).ManualChecked?
                    && s'.db.manuals
                       == s.db.manuals + [ManualDecision(s.actors[e.actor].signal, s.actors[e.actor].action)]))
  {
  }

  lemma OtherTouches(s: State, e: Event)
    requires OtherEnabled(s, e)
    ensures OtherApply(s, e).db.manuals == s.db.manuals && OtherApply(s, e).db.rows == s.db.rows
  {
    hide EvaluateSignal, Decide;
  }
}
