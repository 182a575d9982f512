/** Whole runs of the live protocol: every interleaving of requests, decisions,
    crashes, lost writes and limit changes. */
module LiveRuns {
  import opened Market
  import opened RiskAgent
  import opened LiveStore
  import opened LiveProtocol
  import opened LiveSafety
  import opened LiveEvidence
  import opened Sequences

  ghost predicate Inv(dayStart: int -> int, s: State)
  {
    OwnersOk(s) && Exclusive(s.db.rows) && UnderCap(dayStart, s) && EvidenceOk(s)
  }

  lemma InitInv(dayStart: int -> int, s: State)
    requires Init(s)
    ensures Inv(dayStart, s)
  {
  }

  lemma StepInv(dayStart: int -> int, s: State, e: Event)
    requires IsCalendar(dayStart) && Enabled(s, e) && Inv(dayStart, s)
    ensures Inv(dayStart, Apply(dayStart, s, e))
  {
    hide OwnersOk, Exclusive, UnderCap, EvidenceOk, Enabled, Apply, IsCalendar;
    KeepsOwners(dayStart, s, e);
    KeepsExclusive(dayStart, s, e);
    KeepsUnderCap(dayStart, s, e);
    KeepsEvidence(dayStart, s, e);
  }

  lemma {:induction false} AlwaysInv(dayStart: int -> int, states: seq<State>, events: seq<Event>, i: nat)
    requires IsCalendar(dayStart) && IsRun(dayStart, states, events) && i < |states|
    ensures Inv(dayStart, states[i])
  {
    if i == 0 {
      InitInv(dayStart, states[0]);
    } else {
      hide *;
      AlwaysInv(dayStart, states, events, i - 1);
      RunStep(dayStart, states, events, i - 1);
      StepInv(dayStart, states[i - 1], events[i - 1]);
    }
  }

  lemma RunStep(dayStart: int -> int, states: seq<State>, events: seq<Event>, i: nat)
    requires IsRun(dayStart, states, events) && i + 1 < |states|
    ensures |states| == |events| + 1
    ensures Enabled(states[i], events[i]) && states[i + 1] == Apply(dayStart, states[i], events[i])
  {
    hide Enabled, Apply;
  }

  // ----- mutual exclusion -----

  /** In every reachable state: at most one active row per signal and per
      symbol, at most one broker call per row, a call in flight only for a
      requested row, and so at most one call in flight per symbol. */
  lemma MutualExclusion(dayStart: int -> int, states: seq<State>, events: seq<Event>, i: nat, j: nat, k: nat)
    requires IsCalendar(dayStart) && IsRun(dayStart, states, events) && i < |states|
    requires j < |states[i].db.rows| && k < |states[i].db.rows|
    ensures var r, q := states[i].db.rows[j], states[i].db.rows[k];
            && r.calls <= 1
            && (r.inFlight ==> r.status.Requested?)
            && (j != k && (r.status.Requested? || r.status.Executed?) && (q.status.Requested? || q.status.Executed?)
                ==> r.signal != q.signal && r.symbol != q.symbol)
            && (j != k && r.inFlight && q.inFlight ==> r.symbol != q.symbol)
  {
    AlwaysInv(dayStart, states, events, i);
    hide IsRun, IsCalendar, UnderCap, EvidenceOk, ActorOk;
    var rows := states[i].db.rows;
    assert RowOk(rows[j]) && RowOk(rows[k]);
  }

  // ----- what happens to a row over time -----

  /** A row later in a run: the same reservation, no fewer calls, and an
      inactive row exactly as it was. */
  predicate LaterRow(r: LiveTrade, r': LiveTrade)
  {
    SameReservation(r, r') && r.calls <= r'.calls && (!Active(r) ==> r' == r)
  }

  lemma {:induction false} RowsOnlyAdvance(dayStart: int -> int, states: seq<State>, events: seq<Event>, i: nat, j: nat)
    requires IsCalendar(dayStart) && IsRun(dayStart, states, events) && i <= j < |states|
    ensures |states[i].db.rows| <= |states[j].db.rows|
    ensures forall k :: 0 <= k < |states[i].db.rows| ==> LaterRow(states[i].db.rows[k], states[j].db.rows[k])
  {
    hide *;
    if i == j {
      LaterThemselves(states[i].db.rows);
    } else {
      RowsOnlyAdvance(dayStart, states, events, i, j - 1);
      AlwaysInv(dayStart, states, events, j - 1);
      RunStep(dayStart, states, events, j - 1);
      InvParts(dayStart, states[j - 1]);
      KeepsOwners(dayStart, states[j - 1], events[j - 1]);
      LaterByMove(states[i].db.rows, states[j - 1].db.rows, states[j].db.rows);
    }
  }

  lemma LaterThemselves(rows: seq<LiveTrade>)
    ensures forall k :: 0 <= k < |rows| ==> LaterRow(rows[k], rows[k])
  {
  }

  lemma LaterByMove(a: seq<LiveTrade>, b: seq<LiveTrade>, c: seq<LiveTrade>)
    requires |a| <= |b| && RowsMove(b, c)
    requires forall k :: 0 <= k < |a| ==> LaterRow(a[k], b[k])
    ensures |a| <= |c| && forall k :: 0 <= k < |a| ==> LaterRow(a[k], c[k])
  {
    forall k | 0 <= k < |a| ensures LaterRow(a[k], c[k]) {
      assert LaterRow(a[k], b[k]) && RowMoves(b[k], c[k]);
    }
  }

  lemma SendFacts(dayStart: int -> int, s: State, e: Event)
    requires Enabled(s, e) && OwnersOk(s) && e.LiveSend?
    ensures e.actor in s.actors && s.actors[e.actor].LiveSending?
    ensures var row, s' := s.actors[e.actor].row, Apply(dayStart, s, e);
            && row < |s.db.rows| == |s'.db.rows|
            && s.db.rows[row].status.Requested? && s.db.rows[row].calls == 0
            && s'.db.rows[row].status.Requested? && s'.db.rows[row].calls == 1
  {
    assert ActorOk(s, e.actor);
  }

  /** Broker calls for one symbol never overlap: when a second order for a
      symbol is sent, the row of the first has become FAILED, its call returned. */
  lemma SecondOrderOnlyAfterFailure(dayStart: int -> int, states: seq<State>, events: seq<Event>, i: nat, j: nat)
    requires IsCalendar(dayStart) && IsRun(dayStart, states, events)
    requires i < j < |events| && events[i].LiveSend? && events[j].LiveSend?
    ensures PcOf(states[i], events[i].actor).LiveSending? && PcOf(states[j], events[j].actor).LiveSending?
    ensures var r1, r2 := states[i].actors[events[i].actor].row, states[j].actors[events[j].actor].row;
            && r1 < |states[j].db.rows| && r2 < |states[j].db.rows|
            && r1 != r2
            && (states[j].db.rows[r1].symbol == states[j].db.rows[r2].symbol
                || states[j].db.rows[r1].signal == states[j].db.rows[r2].signal ==>
                  states[j].db.rows[r1].status.Failed? && !states[j].db.rows[r1].inFlight)
  {
    AlwaysInv(dayStart, states, events, i);
    AlwaysInv(dayStart, states, events, j);
    RowsOnlyAdvance(dayStart, states, events, i + 1, j);
    assert Enabled(states[i], events[i]) && Enabled(states[j], events[j]);
    hide Enabled, Apply, UnderCap, EvidenceOk, IsCalendar, Init, ActorOk;
    SendFacts(dayStart, states[i], events[i]);
    SendFacts(dayStart, states[j], events[j]);
    var r1, r2 := states[i].actors[events[i].actor].row, states[j].actors[events[j].actor].row;
    assert LaterRow(states[i + 1].db.rows[r1], states[j].db.rows[r1]);
    assert RowOk(states[j].db.rows[r1]);
  }

  // ----- abandoned reservations -----

  lemma EndedStays(dayStart: int -> int, s: State, e: Event, a: Id)
    requires Enabled(s, e) && a in s.actors && s.actors[a] == Ended
    ensures a in Apply(dayStart, s, e).actors && Apply(dayStart, s, e).actors[a] == Ended
  {
    hide LiveEnabled, LiveApply, ManualEnabled, ManualApply, OtherEnabled, OtherApply;
    if LiveEnabled(s, e) {
      LiveEndedStays(dayStart, s, e, a);
    } else if ManualEnabled(s, e) {
      ManualEndedStays(s, e, a);
    } else {
      OtherEndedStays(s, e, a);
    }
  }

  lemma LiveEndedStays(dayStart: int -> int, s: State, e: Event, a: Id)
    requires LiveEnabled(s, e) && a in s.actors && s.actors[a] == Ended
    ensures a in LiveApply(dayStart, s, e).actors && LiveApply(dayStart, s, e).actors[a] == Ended
  {
    hide Validate;
  }

  lemma ManualEndedStays(s: State, e: Event, a: Id)
    requires ManualEnabled(s, e) && a in s.actors && s.actors[a] == Ended
    ensures a in ManualApply(s, e).actors && ManualApply(s, e).actors[a] == Ended
  {
  }

  lemma OtherEndedStays(s: State, e: Event, a: Id)
    requires OtherEnabled(s, e) && a in s.actors && s.actors[a] == Ended
    ensures a in OtherApply(s, e).actors && OtherApply(s, e).actors[a] == Ended
  {
    hide EvaluateSignal, Decide;
  }

  lemma OnlyOwnerMovesRow(dayStart: int -> int, s: State, e: Event, k: nat)
    requires Enabled(s, e) && OwnersOk(s) && k < |s.db.rows|
    requires s.actors[s.db.rows[k].owner] == Ended
    ensures k < |Apply(dayStart, s, e).db.rows| && Apply(dayStart, s, e).db.rows[k] == s.db.rows[k]
  {
    hide LiveEnabled, LiveApply, ManualEnabled, ManualApply, OtherEnabled, OtherApply, OwnersOk;
    KeepsOwners(dayStart, s, e);
    if LiveEnabled(s, e) {
      LiveLeavesRow(dayStart, s, e, k);
    } else if ManualEnabled(s, e) {
      ManualTouches(s, e);
    } else {
      OtherTouches(s, e);
    }
  }

  lemma LiveLeavesRow(dayStart: int -> int, s: State, e: Event, k: nat)
    requires LiveEnabled(s, e) && OwnersOk(s) && k < |s.db.rows|
    requires s.actors[s.db.rows[k].owner] == Ended
    ensures k < |LiveApply(dayStart, s, e).db.rows| && LiveApply(dayStart, s, e).db.rows[k] == s.db.rows[k]
  {
    if e.actor in s.actors {
      assert ActorOk(s, e.actor);
    }
    hide Validate, OwnersOk, ActorOk;
  }

  /** A row left active by a request that ended (a crash or a lost log write can
      leave it REQUESTED, a finished execution leaves it EXECUTED) never changes
      again, and no later row is for its signal or its symbol. */
  lemma {:induction false} AbandonedRowBlocks(dayStart: int -> int, states: seq<State>, events: seq<Event>,
                                             i: nat, j: nat, k: nat)
    requires IsCalendar(dayStart) && IsRun(dayStart, states, events) && i <= j < |states|
    requires k < |states[i].db.rows| && Active(states[i].db.rows[k])
    requires PcOf(states[i], states[i].db.rows[k].owner) == Ended
    ensures |states[i].db.rows| <= |states[j].db.rows|
    ensures states[j].db.rows[k] == states[i].db.rows[k]
    ensures var owner := states[i].db.rows[k].owner;
            owner in states[j].actors && states[j].actors[owner] == Ended
    ensures forall n :: |states[i].db.rows| <= n < |states[j].db.rows| ==>
              states[j].db.rows[n].signal != states[i].db.rows[k].signal
              && states[j].db.rows[n].symbol != states[i].db.rows[k].symbol
  {
    hide *;
    if i == j {
      AlwaysInv(dayStart, states, events, i);
      InvParts(dayStart, states[i]);
      OwnerIsActor(states[i], k);
    } else {
      AbandonedRowBlocks(dayStart, states, events, i, j - 1, k);
      AlwaysInv(dayStart, states, events, j - 1);
      RunStep(dayStart, states, events, j - 1);
      InvParts(dayStart, states[j - 1]);
      var s, e, s' := states[j - 1], events[j - 1], states[j];
      var r := states[i].db.rows[k];
      EndedStays(dayStart, s, e, r.owner);
      OnlyOwnerMovesRow(dayStart, s, e, k);
      KeepsOwners(dayStart, s, e);
      MovesParts(s.db.rows, s'.db.rows, k);
      forall n | |states[i].db.rows| <= n < |s'.db.rows|
        ensures s'.db.rows[n].signal != r.signal && s'.db.rows[n].symbol != r.symbol
      {
        if n < |s.db.rows| {
          MovesParts(s.db.rows, s'.db.rows, n);
        } else {
          NewRowFacts(dayStart, s, e);
        }
      }
    }
  }

  lemma OwnerIsActor(s: State, k: nat)
    requires OwnersOk(s) && k < |s.db.rows| && PcOf(s, s.db.rows[k].owner) == Ended
    ensures s.db.rows[k].owner in s.actors && s.actors[s.db.rows[k].owner] == Ended
  {
    assert RowOk(s.db.rows[k]);
  }

  // ----- the daily limits -----

  /** On any day, active rows created that day never outnumber the largest
      daily limit in force so far. */
  lemma DailyCap(dayStart: int -> int, states: seq<State>, events: seq<Event>, i: nat, day: int)
    requires IsCalendar(dayStart) && IsRun(dayStart, states, events) && i < |states|
    ensures |Indices(states[i].db.rows, OnDay(dayStart, day))| <= states[i].cap
  {
    AlwaysInv(dayStart, states, events, i);
    hide OwnersOk, Exclusive, EvidenceOk, IsCalendar, IsRun, Indices;
  }

  /** `cap` is exactly that: zero before any limits exist, then the maximum of
      the daily limits in force up to now. */
  lemma {:induction false} CapIsLargestLimit(dayStart: int -> int, states: seq<State>, events: seq<Event>, i: nat)
    requires IsRun(dayStart, states, events) && i < |states|
    ensures forall m :: 0 <= m <= i && states[m].db.limits.Some? ==>
              states[m].db.limits.value.maxDailyLiveTrades <= states[i].cap
    ensures states[i].cap == 0
            || exists m :: 0 <= m <= i && states[m].db.limits.Some?
                           && states[m].db.limits.value.maxDailyLiveTrades == states[i].cap
  {
    if i > 0 {
      CapIsLargestLimit(dayStart, states, events, i - 1);
      assert Enabled(states[i - 1], events[i - 1]);
      hide Enabled, Apply;
      LimitsUnderCap(dayStart, states[i - 1], events[i - 1]);
      if states[i].cap != states[i - 1].cap {
        assert states[i].db.limits.Some? && states[i].db.limits.value.maxDailyLiveTrades == states[i].cap;
      }
    }
  }

  lemma {:induction false} NoClosedNoLoss(rows: seq<LiveTrade>, start: int)
    requires forall k :: 0 <= k < |rows| ==> RowOk(rows[k])
    ensures DailyLoss(rows, start) == 0
  {
    if rows != [] {
      NoClosedNoLoss(rows[..|rows| - 1], start);
    }
  }

  /** Nothing ever closes a live row, so the daily loss is 0 in every reachable
      state and that gate denies exactly when the configured limit is not positive. */
  lemma LossGateIsInert(dayStart: int -> int, states: seq<State>, events: seq<Event>, i: nat, start: int)
    requires IsCalendar(dayStart) && IsRun(dayStart, states, events) && i < |states|
    ensures DailyLoss(states[i].db.rows, start) == 0
    ensures DailyLoss(states[i].db.rows, start) >= LimitsInForce(states[i].db).maxDailyLoss
            <==> LimitsInForce(states[i].db).maxDailyLoss <= 0
  {
    AlwaysInv(dayStart, states, events, i);
    NoClosedNoLoss(states[i].db.rows, start);
  }

  // ----- evidence -----

  lemma {:induction false} DecisionsStay(dayStart: int -> int, states: seq<State>, events: seq<Event>, i: nat, j: nat)
    requires IsRun(dayStart, states, events) && i <= j < |states|
    ensures Grows(states[i].db, states[j].db)
  {
    hide *;
    if i < j {
      DecisionsStay(dayStart, states, events, i, j - 1);
      RunStep(dayStart, states, events, j - 1);
      StepGrows(dayStart, states[j - 1], events[j - 1]);
      GrowsTransitively(states[i].db, states[j - 1].db, states[j].db);
    } else {
      GrowsItself(states[i].db);
    }
  }

  lemma GrowsItself(db: Db)
    ensures Grows(db, db)
  {
  }

  lemma GrowsTransitively(a: Db, b: Db, c: Db)
    requires Grows(a, b) && Grows(b, c)
    ensures Grows(a, c)
  {
  }

  /** The step that reserved a row, and the limits in force there. */
  lemma {:induction false} RowWasReserved(dayStart: int -> int, states: seq<State>, events: seq<Event>, i: nat, k: nat)
    returns (m: nat)
    requires IsCalendar(dayStart) && IsRun(dayStart, states, events) && i < |states| && k < |states[i].db.rows|
    ensures m < i && events[m].LiveReserve? && |states[m].db.rows| == k < |states[m + 1].db.rows|
    ensures states[i].db.rows[k].volumeLimit == LimitsInForce(states[m].db).maxVolumePerTrade
    ensures states[i].db.rows[k].owner == events[m].actor && states[i].db.rows[k].symbol == events[m].symbol
  {
    if i == 0 {
      assert false;
    } else {
      hide *;
      AlwaysInv(dayStart, states, events, i - 1);
      RunStep(dayStart, states, events, i - 1);
      InvParts(dayStart, states[i - 1]);
      KeepsOwners(dayStart, states[i - 1], events[i - 1]);
      if k < |states[i - 1].db.rows| {
        m := RowWasReserved(dayStart, states, events, i - 1, k);
        MovesParts(states[i - 1].db.rows, states[i].db.rows, k);
      } else {
        m := i - 1;
        NewRowFacts(dayStart, states[m], events[m]);
      }
    }
  }

  lemma InvParts(dayStart: int -> int, s: State)
    requires Inv(dayStart, s)
    ensures OwnersOk(s) && Exclusive(s.db.rows) && UnderCap(dayStart, s) && EvidenceOk(s)
  {
    hide OwnersOk, Exclusive, UnderCap, EvidenceOk;
  }

  lemma MovesParts(rows: seq<LiveTrade>, rows': seq<LiveTrade>, k: nat)
    requires RowsMove(rows, rows') && k < |rows|
    ensures |rows| <= |rows'| <= |rows| + 1
    ensures SameReservation(rows[k], rows'[k])
    ensures rows'[k].owner == rows[k].owner && rows'[k].symbol == rows[k].symbol && rows'[k].signal == rows[k].signal
    ensures rows'[k].volumeLimit == rows[k].volumeLimit
  {
    assert RowMoves(rows[k], rows'[k]);
  }

  /** A row just added is active, free of rivals, and carries the limit in force. */
  lemma NewRowFacts(dayStart: int -> int, s: State, e: Event)
    requires Enabled(s, e) && OwnersOk(s) && |Apply(dayStart, s, e).db.rows| > |s.db.rows|
    ensures var n, rows' := |s.db.rows|, Apply(dayStart, s, e).db.rows;
            && e.LiveReserve? && |rows'| == n + 1
            && rows'[n].owner == e.actor && rows'[n].symbol == e.symbol
            && rows'[n].volumeLimit == LimitsInForce(s.db).maxVolumePerTrade
            && (forall k :: 0 <= k < n && Active(s.db.rows[k]) ==>
                  s.db.rows[k].signal != rows'[n].signal && s.db.rows[k].symbol != rows'[n].symbol)
  {
    RowAddedByGuard(dayStart, s, e);
    var pc := s.actors[e.actor];
    GuardAcceptsExactlyWhen(s.db, pc.config, pc.signal, pc.user, pc.manual, e.symbol, dayStart(e.checkedAt));
    hide Enabled, Apply, OwnersOk, Validate, LimitsInForce;
  }

  /** The signal has an OPERATE decision, taken at its confidence on one of its
      assessments, while trading was allowed and the threshold was met. */
  predicate OperatedOn(db: Db, signal: Id)
  {
    && signal in db.signals && signal in db.supervisors
    && var d := db.supervisors[signal];
       && d.action.Operate? && d.confidence == db.signals[signal].confidence
       && d.risk < |db.risks| && db.risks[d.risk].signal == signal
       && TradingAllowed(d.confidence, db.risks[d.risk].decision, d.seen, d.config)
       && d.confidence >= d.seen.limits.minConfidence
  }

  /** The whole chain: an OPERATE decision taken while trading was allowed and at
      the configured confidence, a manual approval, and an approved assessment of enough reward whose size is the
      volume and fits the limit. */
  predicate Evidenced(db: Db, r: LiveTrade)
  {
    && OperatedOn(db, r.signal)
    && OrdersSignal(r.order, db.signals[r.signal])
    && r.manual < |db.manuals| && db.manuals[r.manual] == ManualDecision(r.signal, Approve)
    && r.risk < |db.risks|
    && db.risks[r.risk].signal == r.signal && db.risks[r.risk].decision.Approved?
    && db.risks[r.risk].riskRewardRatio >= db.risks[r.risk].minRiskRewardRatio
    && db.risks[r.risk].positionSize == r.volume <= r.volumeLimit
  }

  /** Every row ever reserved, in whatever state it is now, has its evidence
      chain, then and at every later time. */
  lemma EvidenceChain(dayStart: int -> int, states: seq<State>, events: seq<Event>, i: nat, j: nat, k: nat)
    requires IsCalendar(dayStart) && IsRun(dayStart, states, events) && i <= j < |states|
    requires k < |states[i].db.rows|
    ensures Evidenced(states[j].db, states[i].db.rows[k])
  {
    AlwaysInv(dayStart, states, events, i);
    AlwaysInv(dayStart, states, events, j);
    DecisionsStay(dayStart, states, events, i, j);
    hide IsRun, IsCalendar, OwnersOk, Exclusive, UnderCap;
    var r := states[i].db.rows[k];
    assert Backed(states[i].db, r);
    GrowthKeepsBacked(states[i].db, states[j].db, r, r);
    assert DecisionOk(states[j].db, r.signal, states[j].db.supervisors[r.signal]);
  }

  // ----- which configuration a request acted on -----

  /** The configuration a request has read and still acts on. */
  function ConfigIn(pc: Pc): Option<SystemConfig>
  {
    match pc
    case LiveConfigRead(_, _, _, config) => Some(config)
    case SupervisorConfigRead(_, _, config) => Some(config)
    case SupervisorDecided(_, decision) => Some(decision.config)
    case _ => None
  }

  /** A step leaves no request with a configuration but the one it had or the
      current one. */
  predicate ConfigKept(s: State, s': State, a: Id)
    requires a in s'.actors
  {
    ConfigIn(s'.actors[a]) in {None, Some(s.config), ConfigIn(PcOf(s, a))}
  }

  lemma LiveConfigKept(dayStart: int -> int, s: State, e: Event, a: Id)
    requires LiveEnabled(s, e) && a in LiveApply(dayStart, s, e).actors
    ensures ConfigKept(s, LiveApply(dayStart, s, e), a)
  {
    hide Validate;
  }

  lemma ManualConfigKept(s: State, e: Event, a: Id)
    requires ManualEnabled(s, e) && a in ManualApply(s, e).actors
    ensures ConfigKept(s, ManualApply(s, e), a)
  {
  }

  lemma OtherConfigKept(s: State, e: Event, a: Id)
    requires OtherEnabled(s, e) && a in OtherApply(s, e).actors
    ensures ConfigKept(s, OtherApply(s, e), a)
  {
    hide EvaluateSignal, Decide;
  }

  lemma StepConfigKept(dayStart: int -> int, s: State, e: Event, a: Id)
    requires Enabled(s, e) && a in Apply(dayStart, s, e).actors
    ensures ConfigKept(s, Apply(dayStart, s, e), a)
  {
    hide LiveEnabled, LiveApply, ManualEnabled, ManualApply, OtherEnabled, OtherApply, ConfigKept;
    if LiveEnabled(s, e) {
      LiveConfigKept(dayStart, s, e, a);
    } else if ManualEnabled(s, e) {
      ManualConfigKept(s, e, a);
    } else {
      OtherConfigKept(s, e, a);
    }
  }

  /** The system was configured so in some state up to `i`. */
  ghost predicate WasConfigured(states: seq<State>, i: nat, config: SystemConfig)
    requires i < |states|
  {
    exists m :: 0 <= m <= i && states[m].config == config
  }

  lemma StillWasConfigured(states: seq<State>, i: nat, config: SystemConfig)
    requires 0 < i < |states| && (states[i - 1].config == config || WasConfigured(states, i - 1, config))
    ensures WasConfigured(states, i, config)
  {
    if states[i - 1].config != config {
      var m :| 0 <= m <= i - 1 && states[m].config == config;
      assert 0 <= m <= i;
    }
  }

  lemma {:induction false} RequestConfig(dayStart: int -> int, states: seq<State>, events: seq<Event>, i: nat, a: Id)
    requires IsRun(dayStart, states, events) && i < |states| && a in states[i].actors
    ensures ConfigIn(states[i].actors[a]).Some? ==> WasConfigured(states, i, ConfigIn(states[i].actors[a]).value)
  {
    if i > 0 {
      RunStep(dayStart, states, events, i - 1);
      StepConfigKept(dayStart, states[i - 1], events[i - 1], a);
      hide IsRun, Enabled, Apply, ConfigIn, WasConfigured;
      assert ConfigIn(Ended) == None;
      if a in states[i - 1].actors {
        RequestConfig(dayStart, states, events, i - 1, a);
      }
      if ConfigIn(states[i].actors[a]).Some? {
        StillWasConfigured(states, i, ConfigIn(states[i].actors[a]).value);
      }
    }
  }

  lemma NewDecision(dayStart: int -> int, s: State, e: Event, signal: Id)
    requires Enabled(s, e) && signal in Apply(dayStart, s, e).db.supervisors
    ensures var d := Apply(dayStart, s, e).db.supervisors[signal];
            || (signal in s.db.supervisors && s.db.supervisors[signal] == d)
            || (e.SupervisorWrite? && e.actor in s.actors && ConfigIn(s.actors[e.actor]) == Some(d.config))
  {
    SupervisorsChange(dayStart, s, e);
    hide Enabled, Apply;
  }

  lemma {:induction false} DecisionConfig(dayStart: int -> int, states: seq<State>, events: seq<Event>, i: nat,
                                          signal: Id)
    requires IsRun(dayStart, states, events) && i < |states| && signal in states[i].db.supervisors
    ensures WasConfigured(states, i, states[i].db.supervisors[signal].config)
  {
    if i == 0 {
      assert false;
    } else {
      hide *;
      RunStep(dayStart, states, events, i - 1);
      NewDecision(dayStart, states[i - 1], events[i - 1], signal);
      var before, d := states[i - 1].db.supervisors, states[i].db.supervisors[signal];
      if signal in before && before[signal] == d {
        DecisionConfig(dayStart, states, events, i - 1, signal);
      } else {
        RequestConfig(dayStart, states, events, i - 1, events[i - 1].actor);
      }
      StillWasConfigured(states, i, d.config);
    }
  }

  /** An OPERATE decision was taken from a configuration the system really had,
      with the kill switch off and a mode that trades on paper or with approval. */
  lemma OperateWasAllowed(dayStart: int -> int, states: seq<State>, events: seq<Event>, i: nat, signal: Id)
    returns (m: nat)
    requires IsCalendar(dayStart) && IsRun(dayStart, states, events) && i < |states|
    requires signal in states[i].db.supervisors && states[i].db.supervisors[signal].action.Operate?
    ensures OperatedOn(states[i].db, signal)
    ensures m <= i && states[m].config == states[i].db.supervisors[signal].config
    ensures !states[m].config.killSwitch && states[m].config.mode in {PaperTrading, AssistedTrading}
  {
    AlwaysInv(dayStart, states, events, i);
    DecisionConfig(dayStart, states, events, i, signal);
    hide IsRun, IsCalendar, OwnersOk, Exclusive, UnderCap;
    var db := states[i].db;
    assert DecisionOk(db, signal, db.supervisors[signal]);
    m :| 0 <= m <= i && states[m].config == db.supervisors[signal].config;
  }

  /** A row was reserved by a request that had read a configuration the system
      really had, with the kill switch off and limited live trading on. */
  lemma ReservedWhileLive(dayStart: int -> int, states: seq<State>, events: seq<Event>, i: nat, k: nat)
    returns (c: nat, m: nat)
    requires IsCalendar(dayStart) && IsRun(dayStart, states, events) && i < |states| && k < |states[i].db.rows|
    ensures c <= m < i && events[m].LiveReserve? && |states[m].db.rows| == k < |states[m + 1].db.rows|
    ensures PcOf(states[m], events[m].actor).LiveConfigRead?
    ensures states[m].actors[events[m].actor].config == states[c].config
    ensures !states[c].config.killSwitch && states[c].config.mode == LiveLimited
  {
    m := RowWasReserved(dayStart, states, events, i, k);
    AlwaysInv(dayStart, states, events, m);
    RunStep(dayStart, states, events, m);
    InvParts(dayStart, states[m]);
    var s, e := states[m], events[m];
    RowAddedByGuard(dayStart, s, e);
    var pc := s.actors[e.actor];
    RequestConfig(dayStart, states, events, m, e.actor);
    hide IsRun, IsCalendar, Inv, OwnersOk, Enabled, Apply, Validate;
    GuardAcceptsExactlyWhen(s.db, pc.config, pc.signal, pc.user, pc.manual, e.symbol, dayStart(e.checkedAt));
    c :| 0 <= c <= m && states[c].config == pc.config;
  }

  /** The row a program counter names always exists, so no step of the request
      is ever blocked by the model. */
  lemma RowsExist(dayStart: int -> int, states: seq<State>, events: seq<Event>, i: nat, a: Id)
    requires IsCalendar(dayStart) && IsRun(dayStart, states, events) && i < |states| && a in states[i].actors
    ensures Bound(states[i], a)
  {
    AlwaysInv(dayStart, states, events, i);
    hide IsRun, IsCalendar, Exclusive, UnderCap, EvidenceOk;
    assert ActorOk(states[i], a);
  }
}
