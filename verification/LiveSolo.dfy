/** Each service operation is the run of its own protocol steps, taken with no
    other actor between them: the steps can be taken exactly when the operation
    is not refused, and they leave what the operation leaves. */
module LiveSolo {
  import opened Market
  import opened RiskAgent
  import opened LiveStore
  import opened LiveProtocol
  import opened LiveServices

  /** The events can be taken in this order from `s`. */
  predicate CanRun(dayStart: int -> int, s: State, es: seq<Event>)
    decreases |es|
  {
    es == [] || (Enabled(s, es[0]) && CanRun(dayStart, Apply(dayStart, s, es[0]), es[1..]))
  }

  function AfterRun(dayStart: int -> int, s: State, es: seq<Event>): State
    requires CanRun(dayStart, s, es)
    decreases |es|
  {
    if es == [] then s else AfterRun(dayStart, Apply(dayStart, s, es[0]), es[1..])
  }

  lemma FirstStep(dayStart: int -> int, s: State, e: Event, rest: seq<Event>)
    ensures CanRun(dayStart, s, [e] + rest) <==> Enabled(s, e) && CanRun(dayStart, Apply(dayStart, s, e), rest)
    ensures CanRun(dayStart, s, [e] + rest)
            ==> AfterRun(dayStart, s, [e] + rest) == AfterRun(dayStart, Apply(dayStart, s, e), rest)
    ensures CanRun(dayStart, s, []) && AfterRun(dayStart, s, []) == s
  {
    assert ([e] + rest)[1..] == rest;
    hide Enabled, Apply;
  }

  lemma LiveFirst(dayStart: int -> int, s: State, e: Event, rest: seq<Event>)
    requires LiveEnabled(s, e)
    ensures CanRun(dayStart, s, [e] + rest) <==> CanRun(dayStart, LiveApply(dayStart, s, e), rest)
    ensures CanRun(dayStart, s, [e] + rest)
            ==> AfterRun(dayStart, s, [e] + rest) == AfterRun(dayStart, LiveApply(dayStart, s, e), rest)
    ensures CanRun(dayStart, LiveApply(dayStart, s, e), [])
    ensures AfterRun(dayStart, LiveApply(dayStart, s, e), []) == LiveApply(dayStart, s, e)
  {
    FirstStep(dayStart, s, e, rest);
    FirstStep(dayStart, LiveApply(dayStart, s, e), e, []);
    hide LiveEnabled, LiveApply, CanRun, AfterRun;
  }

  predicate IsManual(e: Event)
  {
    e.ManualReadSignal? || e.ManualReadConfig? || e.ManualReadRisk? || e.ManualSkipToReject? || e.ManualCheck?
    || e.ManualCreate?
  }

  lemma ManualFirst(dayStart: int -> int, s: State, e: Event, rest: seq<Event>)
    requires IsManual(e)
    ensures CanRun(dayStart, s, [e] + rest) <==> ManualEnabled(s, e) && CanRun(dayStart, ManualApply(s, e), rest)
    ensures CanRun(dayStart, s, [e] + rest)
            ==> AfterRun(dayStart, s, [e] + rest) == AfterRun(dayStart, ManualApply(s, e), rest)
  {
    FirstStep(dayStart, s, e, rest);
    assert !LiveEnabled(s, e) && !OtherEnabled(s, e);
    hide ManualEnabled, ManualApply, CanRun, AfterRun, LiveEnabled, OtherEnabled;
  }

  lemma OtherFirst(dayStart: int -> int, s: State, e: Event, rest: seq<Event>)
    requires OtherEnabled(s, e)
    ensures CanRun(dayStart, s, [e] + rest) <==> CanRun(dayStart, OtherApply(s, e), rest)
    ensures CanRun(dayStart, s, [e] + rest)
            ==> AfterRun(dayStart, s, [e] + rest) == AfterRun(dayStart, OtherApply(s, e), rest)
    ensures CanRun(dayStart, OtherApply(s, e), []) && AfterRun(dayStart, OtherApply(s, e), []) == OtherApply(s, e)
  {
    FirstStep(dayStart, s, e, rest);
    assert !LiveEnabled(s, e) && !ManualEnabled(s, e);
    FirstStep(dayStart, OtherApply(s, e), e, []);
    hide OtherEnabled, OtherApply, CanRun, AfterRun, LiveEnabled, ManualEnabled;
  }

  // ----- manual decisions -----

  function ManualTail(a: Id, signal: Id, status: SignalStatus): seq<Event>
  {
    [ManualCheck(a)] + ([ManualCreate(a)] + ([SetStatus(signal, status)] + []))
  }

  function ApproveEvents(a: Id, signal: Id): seq<Event>
  {
    [ManualReadSignal(a, signal)] + ([ManualReadConfig(a)] + ([ManualReadRisk(a)]
      + ManualTail(a, signal, ManuallyApproved)))
  }

  function RejectEvents(a: Id, signal: Id): seq<Event>
  {
    [ManualReadSignal(a, signal)] + ([ManualSkipToReject(a)] + ManualTail(a, signal, ManuallyRejected))
  }

  lemma ManualTailRun(dayStart: int -> int, s: State, a: Id, signal: Id, action: ManualAction, status: SignalStatus)
    requires PcOf(s, a) == ManualValidated(signal, action) && signal in s.db.signals
    ensures CanRun(dayStart, s, ManualTail(a, signal, status)) <==> !HasDecision(s.db, signal)
    ensures CanRun(dayStart, s, ManualTail(a, signal, status)) ==>
              AfterRun(dayStart, s, ManualTail(a, signal, status)).db
              == StatusSet(s.db.(manuals := s.db.manuals + [ManualDecision(signal, action)]), signal, status)
  {
    hide Enabled, Apply, CanRun, AfterRun;
    ManualFirst(dayStart, s, ManualCheck(a), [ManualCreate(a)] + ([SetStatus(signal, status)] + []));
    if ManualEnabled(s, ManualCheck(a)) {
      var s1 := ManualApply(s, ManualCheck(a));
      assert PcOf(s1, a) == ManualChecked(signal, action) && s1.db == s.db;
      ManualFirst(dayStart, s1, ManualCreate(a), [SetStatus(signal, status)] + []);
      var s2 := ManualApply(s1, ManualCreate(a));
      assert s2.db == s.db.(manuals := s.db.manuals + [ManualDecision(signal, action)]);
      OtherFirst(dayStart, s2, SetStatus(signal, status), []);
    }
  }

  lemma ReadSignalStep(s: State, a: Id, signal: Id)
    requires a !in s.actors
    ensures ManualEnabled(s, ManualReadSignal(a, signal)) <==>
              && signal in s.db.signals && s.db.signals[signal].status.PendingManualApproval?
              && signal in s.db.supervisors
    ensures ManualEnabled(s, ManualReadSignal(a, signal)) ==>
              var after := ManualApply(s, ManualReadSignal(a, signal));
              PcOf(after, a) == ManualSignalRead(signal) && after.db == s.db && after.config == s.config
  {
  }

  lemma ReadConfigStep(s: State, a: Id, signal: Id)
    requires PcOf(s, a) == ManualSignalRead(signal)
    ensures ManualEnabled(s, ManualReadConfig(a)) <==> !s.config.killSwitch && s.config.mode == AssistedTrading
    ensures ManualEnabled(s, ManualReadConfig(a)) ==>
              var after := ManualApply(s, ManualReadConfig(a));
              PcOf(after, a) == ManualConfigRead(signal) && after.db == s.db
  {
  }

  lemma ReadRiskStep(s: State, a: Id, signal: Id)
    requires PcOf(s, a) == ManualConfigRead(signal)
    ensures ManualEnabled(s, ManualReadRisk(a)) <==>
              && LatestApproved(s.db.risks, signal).Some?
              && signal in s.db.supervisors && s.db.supervisors[signal].action == Operate
    ensures ManualEnabled(s, ManualReadRisk(a)) ==>
              var after := ManualApply(s, ManualReadRisk(a));
              PcOf(after, a) == ManualValidated(signal, Approve) && after.db == s.db
  {
    hide LatestApproved;
  }

  /** Approval runs exactly when no precondition refuses it. */
  lemma ApproveIsRun(dayStart: int -> int, s: State, a: Id, signal: Id)
    requires a !in s.actors
    ensures CanRun(dayStart, s, ApproveEvents(a, signal)) <==> ApproveRefusal(s.db, s.config, signal).None?
    ensures ApproveRefusal(s.db, s.config, signal).None? ==>
              AfterRun(dayStart, s, ApproveEvents(a, signal)).db == Decided(s.db, signal, Approve)
  {
    hide Enabled, Apply, CanRun, AfterRun, HasDecision, ManualTail, LatestApproved, ManualEnabled, ManualApply, PcOf;
    var tail := ManualTail(a, signal, ManuallyApproved);
    ReadSignalStep(s, a, signal);
    ManualFirst(dayStart, s, ManualReadSignal(a, signal), [ManualReadConfig(a)] + ([ManualReadRisk(a)] + tail));
    if ManualEnabled(s, ManualReadSignal(a, signal)) {
      var s1 := ManualApply(s, ManualReadSignal(a, signal));
      ReadConfigStep(s1, a, signal);
      ManualFirst(dayStart, s1, ManualReadConfig(a), [ManualReadRisk(a)] + tail);
      if ManualEnabled(s1, ManualReadConfig(a)) {
        var s2 := ManualApply(s1, ManualReadConfig(a));
        ReadRiskStep(s2, a, signal);
        ManualFirst(dayStart, s2, ManualReadRisk(a), tail);
        if ManualEnabled(s2, ManualReadRisk(a)) {
          ManualTailRun(dayStart, ManualApply(s2, ManualReadRisk(a)), a, signal, Approve, ManuallyApproved);
        }
      }
    }
  }

  lemma RejectIsRun(dayStart: int -> int, s: State, a: Id, signal: Id)
    requires a !in s.actors
    ensures CanRun(dayStart, s, RejectEvents(a, signal)) <==> RejectRefusal(s.db, signal).None?
    ensures RejectRefusal(s.db, signal).None? ==>
              AfterRun(dayStart, s, RejectEvents(a, signal)).db == Decided(s.db, signal, Reject)
  {
    hide Enabled, Apply, CanRun, AfterRun, HasDecision, ManualTail;
    var tail := ManualTail(a, signal, ManuallyRejected);
    ManualFirst(dayStart, s, ManualReadSignal(a, signal), [ManualSkipToReject(a)] + tail);
    if ManualEnabled(s, ManualReadSignal(a, signal)) {
      var s1 := ManualApply(s, ManualReadSignal(a, signal));
      assert PcOf(s1, a) == ManualSignalRead(signal) && s1.db == s.db;
      ManualFirst(dayStart, s1, ManualSkipToReject(a), tail);
      var s2 := ManualApply(s1, ManualSkipToReject(a));
      assert PcOf(s2, a) == ManualValidated(signal, Reject) && s2.db == s.db;
      ManualTailRun(dayStart, s2, a, signal, Reject, ManuallyRejected);
    }
  }

  // ----- supervisor -----

  function SuperviseEvents(a: Id, signal: Id, seen: Surroundings, risk: nat, status: Option<SignalStatus>): seq<Event>
  {
    [SupervisorStart(a, signal)] + ([SupervisorReadRisk(a, risk)] + ([SupervisorReadConfig(a)]
      + ([SupervisorDecide(a, seen)] + ([SupervisorWrite(a)]
        + (if status.Some? then [SetStatus(signal, status.value)] + [] else [])))))
  }

  /** The status a verdict moves the signal to, if any. */
  function StatusAfter(action: SupervisorAction, config: SystemConfig): Option<SignalStatus>
  {
    if action == Operate && config.mode == PaperTrading then Some(StatusApproved)
    else if action == Operate && config.mode == AssistedTrading then Some(PendingManualApproval)
    else None
  }

  lemma SupervisorStarts(s: State, a: Id, signal: Id)
    requires a !in s.actors && signal !in s.db.supervisors
    ensures OtherEnabled(s, SupervisorStart(a, signal))
    ensures var after := OtherApply(s, SupervisorStart(a, signal));
            PcOf(after, a) == SupervisorChecked(signal) && after.db == s.db && after.config == s.config
  {
  }

  lemma SupervisorReads(s: State, a: Id, signal: Id, risk: nat)
    requires PcOf(s, a) == SupervisorChecked(signal) && signal in s.db.signals
    requires LatestRisk(s.db.risks, signal) == Some(risk)
    ensures forall r :: OtherEnabled(s, SupervisorReadRisk(a, r)) <==> r == risk
    ensures var read := OtherApply(s, SupervisorReadRisk(a, risk));
            && OtherEnabled(read, SupervisorReadConfig(a))
            && var after := OtherApply(read, SupervisorReadConfig(a));
               PcOf(after, a) == SupervisorConfigRead(signal, risk, s.config) && after.db == s.db
  {
    hide LatestRisk;
  }

  lemma SupervisorDecides(s: State, a: Id, signal: Id, seen: Surroundings, config: SystemConfig, risk: nat)
    requires PcOf(s, a) == SupervisorConfigRead(signal, risk, config) && DecideRefusal(s.db, signal).None?
    requires LatestRisk(s.db.risks, signal) == Some(risk)
    ensures var e := SupervisorDecide(a, seen);
            && OtherEnabled(s, e)
            && PcOf(OtherApply(s, e), a) == SupervisorDecided(signal, SupervisorVerdict(s.db, config, signal, seen))
            && OtherApply(s, e).db == s.db
  {
    hide Decide, LatestRisk;
  }

  lemma SupervisorWrites(s: State, a: Id, signal: Id, verdict: LiveStore.SupervisorDecision)
    requires PcOf(s, a) == SupervisorDecided(signal, verdict) && signal !in s.db.supervisors
    ensures OtherEnabled(s, SupervisorWrite(a))
    ensures OtherApply(s, SupervisorWrite(a)).db == s.db.(supervisors := s.db.supervisors[signal := verdict])
  {
  }

  lemma StatusIsSet(s: State, signal: Id, status: SignalStatus)
    requires signal in s.db.signals
    ensures OtherEnabled(s, SetStatus(signal, status))
    ensures OtherApply(s, SetStatus(signal, status)).db == StatusSet(s.db, signal, status)
  {
  }

  lemma SuperviseIsRun(dayStart: int -> int, s: State, a: Id, signal: Id, seen: Surroundings, risk: nat)
    requires a !in s.actors && DecideRefusal(s.db, signal).None? && LatestRisk(s.db.risks, signal) == Some(risk)
    ensures var status := StatusAfter(SupervisorVerdict(s.db, s.config, signal, seen).action, s.config);
            var es := SuperviseEvents(a, signal, seen, risk, status);
            CanRun(dayStart, s, es) && AfterRun(dayStart, s, es).db == Supervised(s.db, s.config, signal, seen)
  {
    hide Enabled, Apply, CanRun, AfterRun, OtherEnabled, OtherApply, PcOf, LatestRisk, SupervisorVerdict;
    var verdict := SupervisorVerdict(s.db, s.config, signal, seen);
    var status := StatusAfter(verdict.action, s.config);
    var last := if status.Some? then [SetStatus(signal, status.value)] + [] else [];
    var readRisk, readConfig, decide := SupervisorReadRisk(a, risk), SupervisorReadConfig(a), SupervisorDecide(a, seen);
    var deciding := [decide] + ([SupervisorWrite(a)] + last);
    SupervisorStarts(s, a, signal);
    OtherFirst(dayStart, s, SupervisorStart(a, signal), [readRisk] + ([readConfig] + deciding));
    var s1 := OtherApply(s, SupervisorStart(a, signal));
    SupervisorReads(s1, a, signal, risk);
    OtherFirst(dayStart, s1, readRisk, [readConfig] + deciding);
    var s2 := OtherApply(s1, readRisk);
    OtherFirst(dayStart, s2, readConfig, deciding);
    var s3 := OtherApply(s2, readConfig);
    SupervisorDecides(s3, a, signal, seen, s.config, risk);
    OtherFirst(dayStart, s3, decide, [SupervisorWrite(a)] + last);
    var s4 := OtherApply(s3, decide);
    SupervisorWrites(s4, a, signal, verdict);
    OtherFirst(dayStart, s4, SupervisorWrite(a), last);
    var s5 := OtherApply(s4, SupervisorWrite(a));
    if status.Some? {
      StatusIsSet(s5, signal, status.value);
      OtherFirst(dayStart, s5, SetStatus(signal, status.value), []);
    }
  }

  // ----- risk agent -----

  function AssessEvents(signal: Id, account: AccountState, profile: RiskProfile, status: SignalStatus): seq<Event>
  {
    [AssessRisk(signal, account, profile)] + ([SetStatus(signal, status)] + [])
  }

  lemma AssessEffect(s: State, signal: Id, account: AccountState, profile: RiskProfile, v: RiskVerdict)
    requires signal in s.db.signals && v.Verdict?
    requires var g := s.db.signals[signal];
             v == EvaluateSignal(g.entryPrice, g.stopLoss, g.takeProfit, account, profile)
    ensures OtherEnabled(s, AssessRisk(signal, account, profile))
    ensures OtherApply(s, AssessRisk(signal, account, profile)).db
            == s.db.(risks := s.db.risks + [Assessment(signal, v, profile)])
  {
    hide EvaluateSignal;
  }

  lemma AssessIsRun(dayStart: int -> int, s: State, signal: Id, account: AccountState, profile: RiskProfile,
                    v: RiskVerdict)
    requires signal in s.db.signals && v.Verdict?
    requires var g := s.db.signals[signal];
             v == EvaluateSignal(g.entryPrice, g.stopLoss, g.takeProfit, account, profile)
    ensures var status := if v.decision.Approved? then StatusApproved else StatusRejected;
            var es := AssessEvents(signal, account, profile, status);
            CanRun(dayStart, s, es) && AfterRun(dayStart, s, es).db == Assessed(s.db, signal, v, profile)
  {
    hide Enabled, Apply, CanRun, AfterRun, OtherEnabled, OtherApply, EvaluateSignal, Assessment;
    var status := if v.decision.Approved? then StatusApproved else StatusRejected;
    AssessEffect(s, signal, account, profile, v);
    OtherFirst(dayStart, s, AssessRisk(signal, account, profile), [SetStatus(signal, status)] + []);
    var s1 := OtherApply(s, AssessRisk(signal, account, profile));
    StatusIsSet(s1, signal, status);
    OtherFirst(dayStart, s1, SetStatus(signal, status), []);
  }

  // ----- limits and administration -----

  /** Reading and changing the limits are single steps that leave what the store's
      methods leave. */
  lemma LimitsAreRun(s: State, patch: LimitsPatch)
    ensures OtherEnabled(s, ReadLimits)
    ensures OtherApply(s, ReadLimits).db == s.db.(limits := Some(LimitsInForce(s.db)))
    ensures OtherEnabled(s, ChangeLimits(patch))
    ensures OtherApply(s, ChangeLimits(patch)).db == s.db.(limits := Some(Patched(LimitsInForce(s.db), patch)))
  {
  }

  /** Configuration, users and signals change by single steps that touch nothing
      else. */
  lemma AdministrationIsRun(s: State, config: SystemConfig, users: set<Id>, admins: set<Id>, signal: Id, value: Signal,
                            status: SignalStatus)
    ensures OtherEnabled(s, SetConfig(config)) && OtherApply(s, SetConfig(config)) == s.(config := config)
    ensures OtherEnabled(s, SetUsers(users, admins))
    ensures OtherApply(s, SetUsers(users, admins)) == s.(db := s.db.(users := users, admins := admins))
    ensures OtherEnabled(s, CreateSignal(signal, value)) <==> signal !in s.db.signals
    ensures signal !in s.db.signals ==>
              OtherApply(s, CreateSignal(signal, value)) == s.(db := s.db.(signals := s.db.signals[signal := value]))
    ensures OtherEnabled(s, SetStatus(signal, status))
    ensures OtherApply(s, SetStatus(signal, status))
            == if signal in s.db.signals then s.(db := StatusSet(s.db, signal, status)) else s
  {
  }

  // ----- live execution -----

  function Reserving(a: Id, r: LiveRequest, checkedAt: int): seq<Event>
  {
    [LiveStart(a, r.signal, r.user, r.manual)] + ([LiveReadConfig(a)]
      + ([LiveReserve(a, r.symbol, checkedAt, r.createdAt, Done)] + []))
  }

  function Sending(a: Id, reply: BrokerReply): seq<Event>
  {
    [LiveLogValidation(a, true)] + ([LiveLogPlaceOrder(a, true)] + ([LiveSend(a)]
      + ([LiveBrokerReturns(a, reply)] + [])))
  }

  /** What follows the broker's reply: a response is logged, then the row and the
      signal are marked executed, or the failure is logged and the row marked. */
  function Settling(a: Id, reply: BrokerReply, payloadPnl: Option<int>): seq<Event>
  {
    var failing := [LiveLogFailure(a, true)] + ([LiveMarkFailed(a, Done)] + []);
    match reply
    case BrokerExecuted =>
      [LiveLogResponse(a, true)] + ([LiveMarkExecuted(a, payloadPnl, Done)] + ([LiveUpdateSignal(a, Done)] + []))
    case BrokerDeclined => [LiveLogResponse(a, true)] + failing
    case BrokerError => failing
  }

  lemma {:induction false} RunConcat(dayStart: int -> int, s: State, es: seq<Event>, fs: seq<Event>)
    requires CanRun(dayStart, s, es)
    ensures CanRun(dayStart, s, es + fs) <==> CanRun(dayStart, AfterRun(dayStart, s, es), fs)
    ensures CanRun(dayStart, s, es + fs)
            ==> AfterRun(dayStart, s, es + fs) == AfterRun(dayStart, AfterRun(dayStart, s, es), fs)
    decreases |es|
  {
    hide Enabled, Apply;
    if es == [] {
      assert es + fs == fs;
    } else {
      RunConcat(dayStart, Apply(dayStart, s, es[0]), es[1..], fs);
      assert (es + fs)[1..] == es[1..] + fs;
    }
  }

  predicate Matches(dayStart: int -> int, a: Id, r: LiveRequest, checkedAt: int)
  {
    r.owner == a && r.dayStart == dayStart(checkedAt) && checkedAt <= r.createdAt
  }

  lemma LiveStarts(dayStart: int -> int, s: State, a: Id, r: LiveRequest)
    requires a !in s.actors
    ensures var start := LiveStart(a, r.signal, r.user, r.manual);
            && LiveEnabled(s, start)
            && LiveEnabled(LiveApply(dayStart, s, start), LiveReadConfig(a))
            && var after := LiveApply(dayStart, LiveApply(dayStart, s, start), LiveReadConfig(a));
               PcOf(after, a) == LiveConfigRead(r.signal, r.user, r.manual, s.config) && after.db == s.db
  {
  }

  lemma LiveReserves(dayStart: int -> int, s: State, a: Id, r: LiveRequest, config: SystemConfig, checkedAt: int)
    requires PcOf(s, a) == LiveConfigRead(r.signal, r.user, r.manual, config) && Matches(dayStart, a, r, checkedAt)
    ensures var e, v := LiveReserve(a, r.symbol, checkedAt, r.createdAt, Done), Checked(s.db, config, r);
            && LiveEnabled(s, e)
            && PcOf(LiveApply(dayStart, s, e), a) == (if v.Accept? then LiveReserved(|s.db.rows|) else LiveBlocking)
            && LiveApply(dayStart, s, e).db == Reserve(s.db, v, r.signal, r.manual, r.symbol, r.createdAt, a)
  {
    hide Validate;
  }

  lemma ReservingRun(dayStart: int -> int, s: State, a: Id, r: LiveRequest, checkedAt: int)
    requires a !in s.actors && Matches(dayStart, a, r, checkedAt)
    ensures CanRun(dayStart, s, Reserving(a, r, checkedAt))
    ensures var v := Checked(s.db, s.config, r);
            var after := AfterRun(dayStart, s, Reserving(a, r, checkedAt));
            && PcOf(after, a) == (if v.Accept? then LiveReserved(|s.db.rows|) else LiveBlocking)
            && after.db == Reserve(s.db, v, r.signal, r.manual, r.symbol, r.createdAt, a)
  {
    hide Enabled, Apply, CanRun, AfterRun, LiveEnabled, LiveApply, PcOf, Validate, Reserve;
    var reserve := LiveReserve(a, r.symbol, checkedAt, r.createdAt, Done);
    LiveStarts(dayStart, s, a, r);
    LiveFirst(dayStart, s, LiveStart(a, r.signal, r.user, r.manual), [LiveReadConfig(a)] + ([reserve] + []));
    var s1 := LiveApply(dayStart, s, LiveStart(a, r.signal, r.user, r.manual));
    LiveFirst(dayStart, s1, LiveReadConfig(a), [reserve] + []);
    var s2 := LiveApply(dayStart, s1, LiveReadConfig(a));
    LiveReserves(dayStart, s2, a, r, s.config, checkedAt);
    LiveFirst(dayStart, s2, reserve, []);
  }

  /** Where a request goes on from the broker's reply. */
  function AfterReply(row: nat, reply: BrokerReply): Pc
  {
    if reply.BrokerError? then LiveFailing(row) else LiveResponded(row, reply.BrokerExecuted?)
  }

  /** The row as the broker's reply leaves it. */
  function Called(db: Db, row: nat): Db
    requires row < |db.rows|
  {
    db.(rows := db.rows[row := db.rows[row].(calls := db.rows[row].calls + 1, inFlight := false)])
  }

  lemma SendEffect(dayStart: int -> int, s: State, a: Id, row: nat)
    requires PcOf(s, a) == LiveSending(row) && row < |s.db.rows|
    ensures LiveEnabled(s, LiveSend(a))
    ensures var after, r := LiveApply(dayStart, s, LiveSend(a)), s.db.rows[row];
            && PcOf(after, a) == LiveAwaiting(row)
            && after.db == s.db.(rows := s.db.rows[row := r.(calls := r.calls + 1, inFlight := true)])
  {
  }

  lemma ReturnEffect(dayStart: int -> int, s: State, a: Id, row: nat, reply: BrokerReply)
    requires PcOf(s, a) == LiveAwaiting(row) && row < |s.db.rows|
    ensures LiveEnabled(s, LiveBrokerReturns(a, reply))
    ensures var after := LiveApply(dayStart, s, LiveBrokerReturns(a, reply));
            && PcOf(after, a) == AfterReply(row, reply)
            && after.db == s.db.(rows := s.db.rows[row := s.db.rows[row].(inFlight := false)])
  {
  }

  lemma CallingRun(dayStart: int -> int, s: State, a: Id, row: nat, reply: BrokerReply)
    requires PcOf(s, a) == LiveSending(row) && row < |s.db.rows|
    ensures var es := [LiveSend(a)] + ([LiveBrokerReturns(a, reply)] + []);
            && CanRun(dayStart, s, es)
            && PcOf(AfterRun(dayStart, s, es), a) == AfterReply(row, reply)
            && AfterRun(dayStart, s, es).db == Called(s.db, row)
  {
    hide Enabled, Apply, CanRun, AfterRun, LiveEnabled, LiveApply, PcOf;
    SendEffect(dayStart, s, a, row);
    LiveFirst(dayStart, s, LiveSend(a), [LiveBrokerReturns(a, reply)] + []);
    var s1 := LiveApply(dayStart, s, LiveSend(a));
    ReturnEffect(dayStart, s1, a, row, reply);
    LiveFirst(dayStart, s1, LiveBrokerReturns(a, reply), []);
  }

  lemma SendingRun(dayStart: int -> int, s: State, a: Id, row: nat, reply: BrokerReply)
    requires PcOf(s, a) == LiveReserved(row) && row < |s.db.rows|
    ensures CanRun(dayStart, s, Sending(a, reply))
    ensures var after := AfterRun(dayStart, s, Sending(a, reply));
            && PcOf(after, a) == AfterReply(row, reply)
            && after.db == Called(s.db, row)
  {
    hide Enabled, Apply, CanRun, AfterRun;
    var calling := [LiveSend(a)] + ([LiveBrokerReturns(a, reply)] + []);
    LiveFirst(dayStart, s, LiveLogValidation(a, true), [LiveLogPlaceOrder(a, true)] + calling);
    var s1 := LiveApply(dayStart, s, LiveLogValidation(a, true));
    assert PcOf(s1, a) == LiveValidated(row) && s1.db == s.db;
    LiveFirst(dayStart, s1, LiveLogPlaceOrder(a, true), calling);
    var s2 := LiveApply(dayStart, s1, LiveLogPlaceOrder(a, true));
    assert PcOf(s2, a) == LiveSending(row) && s2.db == s.db;
    CallingRun(dayStart, s2, a, row, reply);
  }

  lemma ResponseEffect(dayStart: int -> int, s: State, a: Id, row: nat, executed: bool)
    requires PcOf(s, a) == LiveResponded(row, executed)
    ensures LiveEnabled(s, LiveLogResponse(a, true))
    ensures var after := LiveApply(dayStart, s, LiveLogResponse(a, true));
            PcOf(after, a) == (if executed then LiveMarking(row) else LiveFailing(row)) && after.db == s.db
  {
  }

  lemma MarkEffect(dayStart: int -> int, s: State, a: Id, row: nat, payloadPnl: Option<int>)
    requires PcOf(s, a) == LiveMarking(row) && row < |s.db.rows|
    ensures LiveEnabled(s, LiveMarkExecuted(a, payloadPnl, Done))
    ensures var after := LiveApply(dayStart, s, LiveMarkExecuted(a, payloadPnl, Done));
            PcOf(after, a) == LiveMarked(row) && after.db == WithStatus(s.db, row, Executed, payloadPnl)
  {
  }

  lemma UpdateEffect(dayStart: int -> int, s: State, a: Id, row: nat)
    requires PcOf(s, a) == LiveMarked(row) && row < |s.db.rows| && s.db.rows[row].signal in s.db.signals
    ensures LiveEnabled(s, LiveUpdateSignal(a, Done))
    ensures LiveApply(dayStart, s, LiveUpdateSignal(a, Done)).db
            == StatusSet(s.db, s.db.rows[row].signal, LiveExecuted)
  {
  }

  lemma ExecutedRun(dayStart: int -> int, s: State, a: Id, row: nat, payloadPnl: Option<int>)
    requires PcOf(s, a) == LiveResponded(row, true) && row < |s.db.rows| && s.db.rows[row].signal in s.db.signals
    ensures CanRun(dayStart, s, Settling(a, BrokerExecuted, payloadPnl))
    ensures AfterRun(dayStart, s, Settling(a, BrokerExecuted, payloadPnl)).db
            == StatusSet(WithStatus(s.db, row, Executed, payloadPnl), s.db.rows[row].signal, LiveExecuted)
  {
    hide Enabled, Apply, CanRun, AfterRun, LiveEnabled, LiveApply, PcOf;
    var mark, update := LiveMarkExecuted(a, payloadPnl, Done), LiveUpdateSignal(a, Done);
    ResponseEffect(dayStart, s, a, row, true);
    LiveFirst(dayStart, s, LiveLogResponse(a, true), [mark] + ([update] + []));
    var s1 := LiveApply(dayStart, s, LiveLogResponse(a, true));
    MarkEffect(dayStart, s1, a, row, payloadPnl);
    LiveFirst(dayStart, s1, mark, [update] + []);
    var s2 := LiveApply(dayStart, s1, mark);
    UpdateEffect(dayStart, s2, a, row);
    LiveFirst(dayStart, s2, update, []);
  }

  lemma FailingRun(dayStart: int -> int, s: State, a: Id, row: nat)
    requires PcOf(s, a) == LiveFailing(row) && row < |s.db.rows|
    ensures CanRun(dayStart, s, Settling(a, BrokerError, None))
    ensures AfterRun(dayStart, s, Settling(a, BrokerError, None)).db
            == WithStatus(s.db, row, Failed, s.db.rows[row].payloadPnl)
  {
    hide Enabled, Apply, CanRun, AfterRun;
    var mark := LiveMarkFailed(a, Done);
    LiveFirst(dayStart, s, LiveLogFailure(a, true), [mark] + []);
    var s1 := LiveApply(dayStart, s, LiveLogFailure(a, true));
    assert PcOf(s1, a) == LiveMarkingFailed(row) && s1.db == s.db;
    LiveFirst(dayStart, s1, mark, []);
  }

  lemma DeclinedRun(dayStart: int -> int, s: State, a: Id, row: nat, payloadPnl: Option<int>)
    requires PcOf(s, a) == LiveResponded(row, false) && row < |s.db.rows|
    ensures CanRun(dayStart, s, Settling(a, BrokerDeclined, payloadPnl))
    ensures AfterRun(dayStart, s, Settling(a, BrokerDeclined, payloadPnl)).db
            == WithStatus(s.db, row, Failed, s.db.rows[row].payloadPnl)
  {
    hide Enabled, Apply, CanRun, AfterRun, LiveEnabled, LiveApply, PcOf;
    ResponseEffect(dayStart, s, a, row, false);
    LiveFirst(dayStart, s, LiveLogResponse(a, true), Settling(a, BrokerError, payloadPnl));
    FailingRun(dayStart, LiveApply(dayStart, s, LiveLogResponse(a, true)), a, row);
  }

  lemma SettlingRun(dayStart: int -> int, s: State, a: Id, row: nat, reply: BrokerReply, payloadPnl: Option<int>)
    requires PcOf(s, a) == AfterReply(row, reply)
    requires row < |s.db.rows| && s.db.rows[row].signal in s.db.signals
    ensures CanRun(dayStart, s, Settling(a, reply, payloadPnl))
    ensures AfterRun(dayStart, s, Settling(a, reply, payloadPnl)).db
            == if reply.BrokerExecuted? then
                 StatusSet(WithStatus(s.db, row, Executed, payloadPnl), s.db.rows[row].signal, LiveExecuted)
               else WithStatus(s.db, row, Failed, s.db.rows[row].payloadPnl)
  {
    match reply {
      case BrokerExecuted => ExecutedRun(dayStart, s, a, row, payloadPnl);
      case BrokerDeclined => DeclinedRun(dayStart, s, a, row, payloadPnl);
      case BrokerError =>
        FailingRun(dayStart, s, a, row);
        assert Settling(a, reply, payloadPnl) == Settling(a, BrokerError, None);
    }
    hide Enabled, Apply, CanRun, AfterRun;
  }

  /** A request runs to its end alone, and ends as the operation says: refused
      by the guard, executed with its signal, or failed. */
  lemma ExecuteIsRun(dayStart: int -> int, s: State, a: Id, r: LiveRequest, checkedAt: int, reply: BrokerReply,
                     payloadPnl: Option<int>)
    requires a !in s.actors && Matches(dayStart, a, r, checkedAt)
    ensures var v := Checked(s.db, s.config, r);
            var es := Reserving(a, r, checkedAt)
                      + if v.Accept? then Sending(a, reply) + Settling(a, reply, payloadPnl)
                        else [LiveLogBlocked(a)] + [];
            && (v.Accept? ==> r.signal in s.db.signals)
            && CanRun(dayStart, s, es)
            && AfterRun(dayStart, s, es).db == AfterLive(s.db, v, r, reply, payloadPnl)
  {
    hide Enabled, Apply, CanRun, AfterRun, Sending, Settling, Reserving;
    ReservingRun(dayStart, s, a, r, checkedAt);
    var s1 := AfterRun(dayStart, s, Reserving(a, r, checkedAt));
    if Checked(s.db, s.config, r).Accept? {
      AcceptedSignalExists(s.db, s.config, r);
      hide Validate;
      var row := |s.db.rows|;
      SendingRun(dayStart, s1, a, row, reply);
      var s2 := AfterRun(dayStart, s1, Sending(a, reply));
      SettlingRun(dayStart, s2, a, row, reply, payloadPnl);
      RunConcat(dayStart, s1, Sending(a, reply), Settling(a, reply, payloadPnl));
      RunConcat(dayStart, s, Reserving(a, r, checkedAt), Sending(a, reply) + Settling(a, reply, payloadPnl));
    } else {
      LiveFirst(dayStart, s1, LiveLogBlocked(a), []);
      RunConcat(dayStart, s, Reserving(a, r, checkedAt), [LiveLogBlocked(a)] + []);
    }
  }
}
