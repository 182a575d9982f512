/** The paper trail behind every live row: the stored decisions a reservation
    rests on exist, were taken under the stated thresholds, and never go away. */
module LiveEvidence {
  import opened RiskAgent
  import opened LiveStore
  import opened LiveProtocol
  import opened LiveSafety

  // ----- the invariant -----

  /** A supervisor decision is the one owed to the signal's confidence, an
      assessment of the signal, and what else it was taken from. */
  predicate DecisionOk(db: Db, signal: Id, d: SupervisorDecision)
  {
    && signal in db.signals && d.confidence == db.signals[signal].confidence
    && d.risk < |db.risks| && db.risks[d.risk].signal == signal
    && Justified(d.action, d.confidence, db.risks[d.risk].decision, d.seen, d.config)
  }

  predicate SupervisorsOk(db: Db)
  {
    forall signal :: signal in db.supervisors ==> DecisionOk(db, signal, db.supervisors[signal])
  }

  predicate RisksOk(db: Db)
  {
    forall k :: 0 <= k < |db.risks| && db.risks[k].decision.Approved? ==>
      db.risks[k].riskRewardRatio >= db.risks[k].minRiskRewardRatio
  }

  predicate Operates(db: Db, signal: Id)
  {
    signal in db.supervisors && db.supervisors[signal].action == Operate
  }

  predicate ManualsOk(db: Db)
  {
    forall k :: 0 <= k < |db.manuals| && db.manuals[k].action.Approve? ==> Operates(db, db.manuals[k].signal)
  }

  predicate Assesses(db: Db, signal: Id, risk: nat)
  {
    signal in db.signals && risk < |db.risks| && db.risks[risk].signal == signal
  }

  predicate PcOk(db: Db, pc: Pc)
  {
    match pc
    case SupervisorRiskRead(signal, risk) => Assesses(db, signal, risk)
    case SupervisorConfigRead(signal, risk, _) => Assesses(db, signal, risk)
    case SupervisorDecided(signal, decision) => DecisionOk(db, signal, decision)
    case ManualValidated(signal, action) => action.Approve? ==> Operates(db, signal)
    case ManualChecked(signal, action) => action.Approve? ==> Operates(db, signal)
    case _ => true
  }

  /** The order asks for the signal's own direction and prices. */
  predicate OrdersSignal(o: Order, s: Signal)
  {
    && (o.direction.Buy? <==> s.direction.SignalBuy?) && (o.direction.Sell? <==> s.direction.SignalSell?)
    && o.entryPrice == s.entryPrice && o.stopLoss == s.stopLoss && o.takeProfit == s.takeProfit
  }

  /** What a reservation was checked against. */
  predicate Backed(db: Db, r: LiveTrade)
  {
    && r.signal in db.signals && OrdersSignal(r.order, db.signals[r.signal])
    && Operates(db, r.signal)
    && r.manual < |db.manuals| && db.manuals[r.manual] == ManualDecision(r.signal, Approve)
    && r.risk < |db.risks|
    && db.risks[r.risk].signal == r.signal && db.risks[r.risk].decision.Approved?
    && db.risks[r.risk].positionSize == r.volume <= r.volumeLimit
  }

  predicate EvidenceOk(s: State)
  {
    && SupervisorsOk(s.db) && RisksOk(s.db) && ManualsOk(s.db)
    && (forall a :: a in s.actors ==> PcOk(s.db, s.actors[a]))
    && (forall k :: 0 <= k < |s.db.rows| ==> Backed(s.db, s.db.rows[k]))
  }

  // ----- decisions are permanent -----

  predicate Grows(db: Db, db': Db)
  {
    && db.risks <= db'.risks
    && db.manuals <= db'.manuals
    && (forall signal :: signal in db.supervisors ==>
          signal in db'.supervisors && db'.supervisors[signal] == db.supervisors[signal])
    && (forall signal :: signal in db.signals ==>
          signal in db'.signals && db'.signals[signal] == db.signals[signal].(status := db'.signals[signal].status))
  }

  lemma StepGrows(dayStart: int -> int, s: State, e: Event)
    requires Enabled(s, e)
    ensures Grows(s.db, Apply(dayStart, s, e).db)
  {
    hide LiveEnabled, LiveApply, ManualEnabled, ManualApply, EvaluateSignal, Decide;
    if LiveEnabled(s, e) {
      LiveTouches(dayStart, s, e);
    } else if ManualEnabled(s, e) {
      ManualTouches(s, e);
    } else {
      OtherGrows(s, e);
    }
  }

  lemma OtherGrows(s: State, e: Event)
    requires OtherEnabled(s, e)
    ensures Grows(s.db, OtherApply(s, e).db)
  {
    hide EvaluateSignal, Decide;
  }

  lemma GrowthKeepsFacts(db: Db, db': Db, signal: Id, risk: nat)
    requires Grows(db, db')
    ensures Operates(db, signal) ==> Operates(db', signal)
    ensures Assesses(db, signal, risk) ==> Assesses(db', signal, risk)
  {
    if risk < |db.risks| {
      assert db'.risks[risk] == db.risks[risk];
    }
  }

  lemma GrowthKeepsDecision(db: Db, db': Db, signal: Id, d: SupervisorDecision)
    requires Grows(db, db') && DecisionOk(db, signal, d)
    ensures DecisionOk(db', signal, d)
  {
    assert db'.risks[d.risk] == db.risks[d.risk];
    hide Justified;
  }

  lemma GrowthKeepsBacked(db: Db, db': Db, r: LiveTrade, r': LiveTrade)
    requires Grows(db, db') && Backed(db, r) && SameReservation(r, r')
    ensures Backed(db', r')
  {
    assert db'.risks[r.risk] == db.risks[r.risk];
    assert db'.manuals[r.manual] == db.manuals[r.manual];
  }

  lemma GrowthKeepsPc(db: Db, db': Db, pc: Pc)
    requires Grows(db, db') && PcOk(db, pc)
    ensures PcOk(db', pc)
  {
    hide Grows, DecisionOk, Operates, Assesses;
    match pc
    case SupervisorRiskRead(signal, risk) => GrowthKeepsFacts(db, db', signal, risk);
    case SupervisorConfigRead(signal, risk, _) => GrowthKeepsFacts(db, db', signal, risk);
    case SupervisorDecided(signal, decision) => GrowthKeepsDecision(db, db', signal, decision);
    case ManualValidated(signal, _) => GrowthKeepsFacts(db, db', signal, 0);
    case ManualChecked(signal, _) => GrowthKeepsFacts(db, db', signal, 0);
    case _ =>
  }

  // ----- every step keeps the invariant -----

  /** The step's own new program counter is justified. */
  lemma NewPcOk(dayStart: int -> int, s: State, e: Event, a: Id)
    requires Enabled(s, e) && EvidenceOk(s)
    requires a in Apply(dayStart, s, e).actors
    ensures (a in s.actors && Apply(dayStart, s, e).actors[a] == s.actors[a])
            || PcOk(Apply(dayStart, s, e).db, Apply(dayStart, s, e).actors[a])
  {
    hide LiveEnabled, LiveApply, ManualEnabled, ManualApply, OtherEnabled, OtherApply;
    if LiveEnabled(s, e) {
      LivePcOk(dayStart, s, e, a);
    } else if ManualEnabled(s, e) {
      ManualPcOk(s, e, a);
    } else {
      OtherPcOk(s, e, a);
    }
  }

  lemma ManualPcOk(s: State, e: Event, a: Id)
    requires ManualEnabled(s, e) && EvidenceOk(s) && a in ManualApply(s, e).actors
    ensures var s' := ManualApply(s, e);
            (a in s.actors && s'.actors[a] == s.actors[a]) || PcOk(s'.db, s'.actors[a])
  {
  }

  lemma OtherPcOk(s: State, e: Event, a: Id)
    requires OtherEnabled(s, e) && EvidenceOk(s) && a in OtherApply(s, e).actors
    ensures var s' := OtherApply(s, e);
            (a in s.actors && s'.actors[a] == s.actors[a]) || PcOk(s'.db, s'.actors[a])
  {
    hide EvaluateSignal, Decide, Justified;
    if e.SupervisorDecide? && a == e.actor {
      var pc := s.actors[a];
      assert PcOk(s.db, pc);
      DecisionFromOk(s.db, pc.signal, pc.risk, e.seen, pc.config);
    }
  }

  lemma DecisionFromOk(db: Db, signal: Id, risk: nat, seen: Surroundings, config: SystemConfig)
    requires Assesses(db, signal, risk)
    ensures DecisionOk(db, signal, DecisionFrom(db, signal, risk, seen, config))
  {
    hide Decide, Justified;
    DecidesExactlyWhen(db.signals[signal].confidence, db.risks[risk].decision, seen, config,
                       DecisionFrom(db, signal, risk, seen, config).action);
  }

  lemma LivePcOk(dayStart: int -> int, s: State, e: Event, a: Id)
    requires LiveEnabled(s, e) && a in LiveApply(dayStart, s, e).actors
    ensures var s' := LiveApply(dayStart, s, e);
            (a in s.actors && s'.actors[a] == s.actors[a]) || PcOk(s'.db, s'.actors[a])
  {
    hide Validate;
  }

  lemma KeepsSupervisors(dayStart: int -> int, s: State, e: Event)
    requires Enabled(s, e) && EvidenceOk(s)
    ensures SupervisorsOk(Apply(dayStart, s, e).db)
  {
    var db' := Apply(dayStart, s, e).db;
    StepGrows(dayStart, s, e);
    SupervisorsChange(dayStart, s, e);
    hide Enabled, Apply, DecisionOk, Grows;
    forall signal | signal in db'.supervisors ensures DecisionOk(db', signal, db'.supervisors[signal]) {
      if signal !in s.db.supervisors || db'.supervisors[signal] != s.db.supervisors[signal] {
        assert PcOk(s.db, s.actors[e.actor]);
      }
      GrowthKeepsDecision(s.db, db', signal, db'.supervisors[signal]);
    }
  }

  lemma SupervisorsChange(dayStart: int -> int, s: State, e: Event)
    requires Enabled(s, e)
    ensures var sup, sup' := s.db.supervisors, Apply(dayStart, s, e).db.supervisors;
            || sup' == sup
            || (&& e.SupervisorWrite? && PcOf(s, e.actor).SupervisorDecided?
                && sup' == sup[s.actors[e.actor].signal := s.actors[e.actor].decision])
  {
    hide LiveEnabled, LiveApply, ManualEnabled, ManualApply, EvaluateSignal, Decide;
    if LiveEnabled(s, e) {
      LiveTouches(dayStart, s, e);
    } else if ManualEnabled(s, e) {
      ManualTouches(s, e);
    }
  }

  lemma ManualsChange(dayStart: int -> int, s: State, e: Event)
    requires Enabled(s, e)
    ensures var ms, ms' := s.db.manuals, Apply(dayStart, s, e).db.manuals;
            || ms' == ms
            || (&& e.ManualCreate? && PcOf(s, e.actor).ManualChecked?
                && ms' == ms + [ManualDecision(s.actors[e.actor].signal, s.actors[e.actor].action)])
  {
    hide LiveEnabled, LiveApply, ManualEnabled, ManualApply, OtherEnabled, OtherApply;
    if LiveEnabled(s, e) {
      LiveTouches(dayStart, s, e);
    } else if ManualEnabled(s, e) {
      ManualTouches(s, e);
    } else {
      OtherTouches(s, e);
    }
  }

  lemma KeepsManuals(dayStart: int -> int, s: State, e: Event)
    requires Enabled(s, e) && EvidenceOk(s)
    ensures ManualsOk(Apply(dayStart, s, e).db)
  {
    var db' := Apply(dayStart, s, e).db;
    StepGrows(dayStart, s, e);
    ManualsChange(dayStart, s, e);
    hide Enabled, Apply, Operates, Grows;
    forall k | 0 <= k < |db'.manuals| && db'.manuals[k].action.Approve?
      ensures Operates(db', db'.manuals[k].signal)
    {
      GrowthKeepsFacts(s.db, db', db'.manuals[k].signal, 0);
      if k == |s.db.manuals| {
        assert PcOk(s.db, s.actors[e.actor]);
      }
    }
  }

  lemma KeepsRisks(dayStart: int -> int, s: State, e: Event)
    requires Enabled(s, e) && RisksOk(s.db)
    ensures RisksOk(Apply(dayStart, s, e).db)
  {
    hide LiveEnabled, LiveApply, ManualEnabled, ManualApply, Decide, DailyDrawdownReached;
    if LiveEnabled(s, e) {
      LiveTouches(dayStart, s, e);
      hide OtherEnabled, OtherApply;
    } else if ManualEnabled(s, e) {
      ManualTouches(s, e);
      hide OtherEnabled, OtherApply;
    }
  }

  lemma KeepsBacked(dayStart: int -> int, s: State, e: Event)
    requires Enabled(s, e) && EvidenceOk(s) && OwnersOk(s)
    ensures var db' := Apply(dayStart, s, e).db;
            forall k :: 0 <= k < |db'.rows| ==> Backed(db', db'.rows[k])
  {
    var db' := Apply(dayStart, s, e).db;
    StepGrows(dayStart, s, e);
    KeepsOwners(dayStart, s, e);
    RowAddedByGuard(dayStart, s, e);
    hide Enabled, Apply, Grows, OwnersOk, Backed, Validate;
    forall k | 0 <= k < |db'.rows| ensures Backed(db', db'.rows[k]) {
      if k < |s.db.rows| {
        assert RowMoves(s.db.rows[k], db'.rows[k]);
        GrowthKeepsBacked(s.db, db', s.db.rows[k], db'.rows[k]);
      } else {
        var pc := s.actors[e.actor];
        NewRowBacked(s.db, pc.config, pc.signal, pc.user, pc.manual, e.symbol, dayStart(e.checkedAt), e.createdAt,
                     e.actor);
      }
    }
  }

  lemma NewRowBacked(db: Db, config: SystemConfig, signal: Id, user: Id, manual: nat, symbol: string,
                     start: int, createdAt: int, owner: Id)
    ensures var v := Validate(db, config, signal, user, manual, symbol, start);
            v.Accept? ==>
              var db' := Reserve(db, v, signal, manual, symbol, createdAt, owner);
              |db'.rows| == |db.rows| + 1 && Backed(db', db'.rows[|db.rows|])
  {
    GuardAcceptsExactlyWhen(db, config, signal, user, manual, symbol, start);
    hide Validate;
  }

  lemma KeepsEvidence(dayStart: int -> int, s: State, e: Event)
    requires Enabled(s, e) && EvidenceOk(s) && OwnersOk(s)
    ensures EvidenceOk(Apply(dayStart, s, e))
  {
    var s' := Apply(dayStart, s, e);
    KeepsSupervisors(dayStart, s, e);
    KeepsRisks(dayStart, s, e);
    KeepsManuals(dayStart, s, e);
    KeepsBacked(dayStart, s, e);
    StepGrows(dayStart, s, e);
    forall a | a in s'.actors ensures PcOk(s'.db, s'.actors[a]) {
      NewPcOk(dayStart, s, e, a);
      hide Enabled, Apply, Grows, PcOk, OwnersOk;
      if a in s.actors && s'.actors[a] == s.actors[a] {
        GrowthKeepsPc(s.db, s'.db, s.actors[a]);
      }
    }
    hide Enabled, Apply, Grows, PcOk, OwnersOk, SupervisorsOk, RisksOk, ManualsOk, Backed;
  }
}
