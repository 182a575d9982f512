/** What every step of the live protocol keeps, whatever is interleaved with it. */
module LiveSafety {
  import opened Market
  import opened Numbers
  import opened RiskAgent
  import opened LiveStore
  import opened LiveProtocol
  import opened Sequences

  // ----- rows and the requests that own them -----

  /** What a request's position in the code says about its row. */
  predicate StageOk(pc: Pc, r: LiveTrade)
  {
    match pc
    case LiveReserved(_) => r.status.Requested? && r.calls == 0 && !r.inFlight
    case LiveValidated(_) => r.status.Requested? && r.calls == 0 && !r.inFlight
    case LiveSending(_) => r.status.Requested? && r.calls == 0 && !r.inFlight
    case LiveAwaiting(_) => r.status.Requested? && r.calls == 1 && r.inFlight
    case LiveResponded(_, _) => r.status.Requested? && r.calls == 1 && !r.inFlight
    case LiveMarking(_) => r.status.Requested? && r.calls == 1 && !r.inFlight
    case LiveMarked(_) => r.status.Executed? && r.calls == 1 && !r.inFlight
    case LiveFailing(_) => Active(r) && r.calls == 1 && !r.inFlight
    case LiveMarkingFailed(_) => Active(r) && r.calls == 1 && !r.inFlight
    case _ => true
  }

  predicate ActorOk(s: State, a: Id)
    requires a in s.actors
  {
    var row := RowOf(s.actors[a]);
    row.Some? ==>
      && row.value < |s.db.rows|
      && s.db.rows[row.value].owner == a
      && StageOk(s.actors[a], s.db.rows[row.value])
  }

  predicate RowOk(r: LiveTrade)
  {
    && (r.status.Requested? || r.status.Executed? || r.status.Failed?)
    && r.calls <= 1
    && (r.inFlight ==> r.status.Requested? && r.calls == 1)
    && (!r.status.Requested? ==> r.calls == 1)
  }

  predicate OwnersOk(s: State)
  {
    && (forall a :: a in s.actors ==> ActorOk(s, a))
    && (forall k :: 0 <= k < |s.db.rows| ==> RowOk(s.db.rows[k]) && s.db.rows[k].owner in s.actors)
  }

  /** At most one active row for a signal and at most one for a symbol. */
  predicate Exclusive(rows: seq<LiveTrade>)
  {
    forall j, k :: 0 <= j < k < |rows| && Active(rows[j]) && Active(rows[k]) ==>
      rows[j].signal != rows[k].signal && rows[j].symbol != rows[k].symbol
  }

  // ----- what one event does to the rows -----

  /** The same reservation: everything a row is created with. */
  predicate SameReservation(r: LiveTrade, r': LiveTrade)
  {
    && r'.signal == r.signal && r'.manual == r.manual && r'.symbol == r.symbol && r'.order == r.order
    && r'.volume == r.volume
    && r'.createdAt == r.createdAt && r'.owner == r.owner && r'.risk == r.risk && r'.volumeLimit == r.volumeLimit
  }

  /** How a row may move: it keeps its reservation, a call is added only while
      requested, and an inactive row stays as it is. */
  predicate RowMoves(r: LiveTrade, r': LiveTrade)
  {
    && SameReservation(r, r')
    && r.calls <= r'.calls <= r.calls + 1
    && (r'.calls > r.calls ==> r.status.Requested? && r'.status.Requested?)
    && (!Active(r) ==> r' == r)
    && (r.status.Executed? ==> r'.status.Executed? || r'.status.Failed?)
    && (r.status.Requested? ==> r'.status.Requested? || r'.status.Executed? || r'.status.Failed?)
  }

  predicate RowsMove(rows: seq<LiveTrade>, rows': seq<LiveTrade>)
  {
    && |rows| <= |rows'| <= |rows| + 1
    && forall k :: 0 <= k < |rows| ==> RowMoves(rows[k], rows'[k])
  }

  /** A request may move only the row it owns. */
  lemma OwnerMoves(s: State, a: Id, row: nat, r: LiveTrade, pc: Pc)
    requires OwnersOk(s) && a in s.actors && RowOf(s.actors[a]) == Some(row)
    requires row < |s.db.rows| && RowMoves(s.db.rows[row], r) && RowOk(r)
    requires RowOf(pc).None? || (RowOf(pc) == Some(row) && StageOk(pc, r))
    ensures var s' := Goto(s.(db := s.db.(rows := s.db.rows[row := r])), a, pc);
            OwnersOk(s') && RowsMove(s.db.rows, s'.db.rows)
  {
    var s' := Goto(s.(db := s.db.(rows := s.db.rows[row := r])), a, pc);
    hide RowMoves, RowOk, StageOk;
    forall b | b in s'.actors ensures ActorOk(s', b) {
      if b != a {
        assert ActorOk(s, b);
      }
    }
    forall k | 0 <= k < |s.db.rows| ensures RowMoves(s.db.rows[k], s'.db.rows[k]) {
      RowStays(s.db.rows[k]);
    }
  }

  lemma RowStays(r: LiveTrade)
    ensures RowMoves(r, r)
  {
  }

  lemma RowsStay(rows: seq<LiveTrade>)
    ensures RowsMove(rows, rows)
  {
  }

  lemma ActorMoves(s: State, a: Id, pc: Pc)
    requires OwnersOk(s)
    requires RowOf(pc).None?
             || (a in s.actors && RowOf(s.actors[a]) == RowOf(pc)
                 && (RowOf(pc).value < |s.db.rows| && StageOk(s.actors[a], s.db.rows[RowOf(pc).value])
                     ==> StageOk(pc, s.db.rows[RowOf(pc).value])))
    ensures OwnersOk(Goto(s, a, pc))
  {
    hide RowOk, StageOk;
    var s' := Goto(s, a, pc);
    forall b | b in s'.actors ensures ActorOk(s', b) {
      if b in s.actors {
        assert ActorOk(s, b);
      }
    }
  }

  lemma ReservationKeepsOwners(s: State, a: Id, r: LiveTrade, db: Db, pc: Pc)
    requires OwnersOk(s) && r.owner == a && RowOk(r)
    requires db.rows == s.db.rows + [r]
    requires RowOf(pc).None? || (RowOf(pc) == Some(|s.db.rows|) && StageOk(pc, r))
    ensures forall cap :: OwnersOk(Goto(s.(db := db, cap := cap), a, pc))
    ensures RowsMove(s.db.rows, db.rows)
  {
    forall cap ensures OwnersOk(Goto(s.(db := db, cap := cap), a, pc)) {
      var s' := Goto(s.(db := db, cap := cap), a, pc);
      hide RowOk, StageOk;
      forall b | b in s'.actors ensures ActorOk(s', b) {
        if b != a {
          assert ActorOk(s, b);
        }
      }
    }
    forall k | 0 <= k < |s.db.rows| ensures RowMoves(s.db.rows[k], db.rows[k]) {
      RowStays(s.db.rows[k]);
    }
  }

  lemma ReserveKeepsOwners(dayStart: int -> int, s: State, a: Id, symbol: string, checkedAt: int,
                           createdAt: int, outcome: Outcome)
    requires PcOf(s, a).LiveConfigRead? && OwnersOk(s)
    ensures var s' := ReserveStep(dayStart, s, a, symbol, checkedAt, createdAt, outcome);
            OwnersOk(s') && RowsMove(s.db.rows, s'.db.rows)
  {
    hide OwnersOk, RowsMove, Validate;
    var pc := s.actors[a];
    var v := Validate(s.db, pc.config, pc.signal, pc.user, pc.manual, symbol, dayStart(checkedAt));
    if v.Deny? || outcome.Lost? {
      ActorMoves(s, a, LiveBlocking);
      RowsStay(s.db.rows);
    } else {
      var row := |s.db.rows|;
      ReservationKeepsOwners(s, a, NewRow(v, pc.signal, pc.manual, symbol, createdAt, a),
                             Reserve(s.db, v, pc.signal, pc.manual, symbol, createdAt, a),
                             if outcome.Done? then LiveReserved(row) else LiveBlocking);
    }
  }

  lemma SignalledKeepsOwners(s: State, signal: Id, status: SignalStatus)
    requires OwnersOk(s)
    ensures OwnersOk(Signalled(s, signal, status))
  {
    hide RowOk, StageOk;
    var s' := Signalled(s, signal, status);
    forall b | b in s'.actors ensures ActorOk(s', b) {
      assert ActorOk(s, b);
    }
  }

  lemma LiveKeepsOwners(dayStart: int -> int, s: State, e: Event)
    requires LiveEnabled(s, e) && OwnersOk(s)
    ensures OwnersOk(LiveApply(dayStart, s, e))
    ensures RowsMove(s.db.rows, LiveApply(dayStart, s, e).db.rows)
  {
    RowsStay(s.db.rows);
    if e.LiveReserve? {
      ReserveKeepsOwners(dayStart, s, e.actor, e.symbol, e.checkedAt, e.createdAt, e.outcome);
    } else if e.LiveSend? || e.LiveBrokerReturns? || e.LiveMarkExecuted? || e.LiveMarkFailed? {
      RowEventKeepsOwners(dayStart, s, e);
    } else {
      assert e.actor in s.actors ==> ActorOk(s, e.actor);
      hide OwnersOk, RowsMove, RowOk, Validate;
      match e
      case LiveStart(a, signal, user, manual) => ActorMoves(s, a, LiveStarted(signal, user, manual));
      case LiveUpdateSignal(a, outcome) =>
        var row := s.actors[a].row;
        var s' := if outcome.Lost? then s else Signalled(s, s.db.rows[row].signal, LiveExecuted);
        SignalledKeepsOwners(s, s.db.rows[row].signal, LiveExecuted);
        ActorMoves(s', a, if outcome.Done? then Ended else LiveFailing(row));
      case LiveReadConfig(a) => ActorMoves(s, a, LiveApply(dayStart, s, e).actors[a]);
      case LiveLogBlocked(a) => ActorMoves(s, a, Ended);
      case LiveLogValidation(a, _) => ActorMoves(s, a, LiveApply(dayStart, s, e).actors[a]);
      case LiveLogPlaceOrder(a, _) => ActorMoves(s, a, LiveApply(dayStart, s, e).actors[a]);
      case LiveLogResponse(a, _) => ActorMoves(s, a, LiveApply(dayStart, s, e).actors[a]);
      case LiveLogFailure(a, _) => ActorMoves(s, a, LiveApply(dayStart, s, e).actors[a]);
    }
  }

  lemma RowEventKeepsOwners(dayStart: int -> int, s: State, e: Event)
    requires LiveEnabled(s, e) && OwnersOk(s)
    requires e.LiveSend? || e.LiveBrokerReturns? || e.LiveMarkExecuted? || e.LiveMarkFailed?
    ensures OwnersOk(LiveApply(dayStart, s, e))
    ensures RowsMove(s.db.rows, LiveApply(dayStart, s, e).db.rows)
  {
    var a := e.actor;
    var s' := LiveApply(dayStart, s, e);
    assert ActorOk(s, a);
    var row := s.actors[a].row;
    assert RowOk(s.db.rows[row]);
    RowsStay(s.db.rows);
    hide OwnersOk, RowsMove;
    if e.LiveMarkExecuted? && e.outcome.Lost? {
      ActorMoves(s, a, s'.actors[a]);
    } else if e.LiveMarkFailed? && e.outcome.Lost? {
      ActorMoves(s, a, s'.actors[a]);
    } else {
      OwnerMoves(s, a, row, s'.db.rows[row], s'.actors[a]);
    }
  }

  lemma ManualKeepsOwners(s: State, e: Event)
    requires ManualEnabled(s, e) && OwnersOk(s)
    ensures OwnersOk(ManualApply(s, e))
    ensures ManualApply(s, e).db.rows == s.db.rows
  {
  }

  lemma OtherKeepsOwners(s: State, e: Event)
    requires OtherEnabled(s, e) && OwnersOk(s)
    ensures OwnersOk(OtherApply(s, e))
    ensures OtherApply(s, e).db.rows == s.db.rows
  {
  }

  // ----- the guard -----

  /** The guard accepts exactly when every gate is open, and then hands over the
      latest approved assessment's size and the limits in force. */
  lemma GuardAcceptsExactlyWhen(db: Db, config: SystemConfig, signal: Id, user: Id, manual: nat,
                                symbol: string, start: int)
    ensures var v := Validate(db, config, signal, user, manual, symbol, start);
            var risk, limits := LatestApproved(db.risks, signal), LimitsInForce(db);
            && (v.Accept? <==>
                  && !config.killSwitch && config.mode == LiveLimited
                  && user in db.users && user in db.admins
                  && signal in db.signals && !db.signals[signal].status.LiveExecuted?
                  && (db.signals[signal].direction.SignalBuy? || db.signals[signal].direction.SignalSell?)
                  && db.signals[signal].stopLoss.Some? && db.signals[signal].takeProfit.Some?
                  && risk.Some?
                  && signal in db.supervisors && db.supervisors[signal].action == Operate
                  && manual < |db.manuals| && db.manuals[manual] == ManualDecision(signal, Approve)
                  && (forall r :: r in db.rows && (r.status.Requested? || r.status.Executed?) ==>
                        r.signal != signal && r.symbol != symbol)
                  && limits.isActive && symbol in limits.allowedSymbols
                  && db.risks[risk.value].positionSize <= limits.maxVolumePerTrade
                  && |Indices(db.rows, ActiveFrom(start))| < limits.maxDailyLiveTrades
                  && DailyLoss(db.rows, start) < limits.maxDailyLoss)
            && (v.Accept? ==>
                  && v.signal == db.signals[signal]
                  && v.risk == risk.value && v.volume == db.risks[v.risk].positionSize && v.limits == limits)
  {
    hide ActiveSince, DailyLoss, LatestApproved, LimitsInForce, Indices;
    ActiveSinceCounts(db.rows, start);
  }

  /** A row is added only by a reservation the guard accepted. */
  lemma RowAddedByGuard(dayStart: int -> int, s: State, e: Event)
    requires Enabled(s, e) && OwnersOk(s)
    ensures var s' := Apply(dayStart, s, e);
            |s'.db.rows| == |s.db.rows|
            || (&& e.LiveReserve? && PcOf(s, e.actor).LiveConfigRead? && e.checkedAt <= e.createdAt
                && var pc := s.actors[e.actor];
                   var v := Validate(s.db, pc.config, pc.signal, pc.user, pc.manual, e.symbol, dayStart(e.checkedAt));
                   && v.Accept?
                   && s'.db == Reserve(s.db, v, pc.signal, pc.manual, e.symbol, e.createdAt, e.actor)
                   && s'.cap == MaxInt(s.cap, v.limits.maxDailyLiveTrades))
  {
    hide Validate, OwnersOk, ManualEnabled, ManualApply, OtherEnabled, OtherApply;
    if LiveEnabled(s, e) {
    } else if ManualEnabled(s, e) {
      ManualTouches(s, e);
    } else {
      OtherTouches(s, e);
    }
  }

  lemma KeepsOwners(dayStart: int -> int, s: State, e: Event)
    requires Enabled(s, e) && OwnersOk(s)
    ensures OwnersOk(Apply(dayStart, s, e))
    ensures RowsMove(s.db.rows, Apply(dayStart, s, e).db.rows)
  {
    RowsStay(s.db.rows);
    hide OwnersOk, RowsMove, LiveApply, ManualApply, OtherApply, LiveEnabled, ManualEnabled, OtherEnabled;
    if LiveEnabled(s, e) {
      LiveKeepsOwners(dayStart, s, e);
    } else if ManualEnabled(s, e) {
      ManualKeepsOwners(s, e);
    } else {
      OtherKeepsOwners(s, e);
    }
  }

  // ----- exclusion -----

  lemma MovesKeepExclusive(rows: seq<LiveTrade>, rows': seq<LiveTrade>)
    requires Exclusive(rows) && RowsMove(rows, rows')
    requires |rows'| > |rows| ==>
               forall k :: 0 <= k < |rows| && Active(rows[k]) ==>
                 rows[k].signal != rows'[|rows|].signal && rows[k].symbol != rows'[|rows|].symbol
    ensures Exclusive(rows')
  {
    forall j, k | 0 <= j < k < |rows'| && Active(rows'[j]) && Active(rows'[k])
      ensures rows'[j].signal != rows'[k].signal && rows'[j].symbol != rows'[k].symbol
    {
      assert RowMoves(rows[j], rows'[j]);
      if k < |rows| {
        assert RowMoves(rows[k], rows'[k]);
      }
    }
  }

  lemma KeepsExclusive(dayStart: int -> int, s: State, e: Event)
    requires Enabled(s, e) && OwnersOk(s) && Exclusive(s.db.rows)
    ensures Exclusive(Apply(dayStart, s, e).db.rows)
  {
    KeepsOwners(dayStart, s, e);
    RowAddedByGuard(dayStart, s, e);
    var s' := Apply(dayStart, s, e);
    hide OwnersOk, Exclusive, RowsMove, Enabled, Apply, Validate;
    if |s'.db.rows| != |s.db.rows| {
      var pc := s.actors[e.actor];
      GuardAcceptsExactlyWhen(s.db, pc.config, pc.signal, pc.user, pc.manual, e.symbol, dayStart(e.checkedAt));
    }
    MovesKeepExclusive(s.db.rows, s'.db.rows);
  }

  // ----- the daily cap -----

  /** Active rows created on the day that starts at `day`. */
  function OnDay(dayStart: int -> int, day: int): LiveTrade -> bool
  {
    (r: LiveTrade) => (r.status.Requested? || r.status.Executed?) && dayStart(r.createdAt) == day
  }

  ghost predicate UnderCap(dayStart: int -> int, s: State)
  {
    && s.cap >= 0
    && (s.db.limits.Some? ==> s.db.limits.value.maxDailyLiveTrades <= s.cap)
    && forall day :: |Indices(s.db.rows, OnDay(dayStart, day))| <= s.cap
  }

  lemma DayWithinSince(dayStart: int -> int, rows: seq<LiveTrade>, day: int, start: int)
    requires IsCalendar(dayStart) && start <= day
    ensures |Indices(rows, OnDay(dayStart, day))| <= |Indices(rows, ActiveFrom(start))|
  {
    forall k | k in Indices(rows, OnDay(dayStart, day)) ensures k in Indices(rows, ActiveFrom(start)) {
      assert dayStart(rows[k].createdAt) <= rows[k].createdAt;
    }
    SubsetSize(Indices(rows, OnDay(dayStart, day)), Indices(rows, ActiveFrom(start)));
  }

  lemma MovesLowerDay(dayStart: int -> int, rows: seq<LiveTrade>, rows': seq<LiveTrade>, day: int)
    requires RowsMove(rows, rows')
    ensures |Indices(rows', OnDay(dayStart, day))|
            <= |Indices(rows, OnDay(dayStart, day))|
               + if |rows'| > |rows| && dayStart(rows'[|rows|].createdAt) == day then 1 else 0
  {
    var before, after := Indices(rows, OnDay(dayStart, day)), Indices(rows', OnDay(dayStart, day));
    var added := if |rows'| > |rows| && dayStart(rows'[|rows|].createdAt) == day then {|rows|} else {};
    forall k | k in after ensures k in before + added {
      if k < |rows| {
        assert RowMoves(rows[k], rows'[k]);
      }
    }
    SubsetSize(after, before + added);
  }

  lemma KeepsUnderCap(dayStart: int -> int, s: State, e: Event)
    requires IsCalendar(dayStart) && Enabled(s, e) && OwnersOk(s) && UnderCap(dayStart, s)
    ensures UnderCap(dayStart, Apply(dayStart, s, e))
  {
    var s' := Apply(dayStart, s, e);
    KeepsOwners(dayStart, s, e);
    RowAddedByGuard(dayStart, s, e);
    LimitsUnderCap(dayStart, s, e);
    hide OwnersOk, RowsMove, Enabled, Apply, Validate, Indices, DailyLoss;
    forall day ensures |Indices(s'.db.rows, OnDay(dayStart, day))| <= s'.cap {
      MovesLowerDay(dayStart, s.db.rows, s'.db.rows, day);
      if |s'.db.rows| != |s.db.rows| && dayStart(e.createdAt) == day {
        var pc := s.actors[e.actor];
        GuardAcceptsExactlyWhen(s.db, pc.config, pc.signal, pc.user, pc.manual, e.symbol, dayStart(e.checkedAt));
        assert dayStart(e.checkedAt) <= dayStart(e.createdAt);
        DayWithinSince(dayStart, s.db.rows, day, dayStart(e.checkedAt));
      }
    }
  }

  lemma LimitsUnderCap(dayStart: int -> int, s: State, e: Event)
    requires Enabled(s, e)
    ensures var s' := Apply(dayStart, s, e);
            && s'.cap >= s.cap
            && ((s'.db.limits == s.db.limits && s'.cap == s.cap)
                || (s'.db.limits.Some? && s'.cap == MaxInt(s.cap, s'.db.limits.value.maxDailyLiveTrades)))
  {
    hide Validate, ManualEnabled, ManualApply, EvaluateSignal, Decide;
    if LiveEnabled(s, e) {
      hide OtherEnabled, OtherApply;
    } else if ManualEnabled(s, e) {
      ManualTouches(s, e);
      hide OtherEnabled, OtherApply, LiveEnabled, LiveApply;
    } else {
      hide LiveEnabled, LiveApply;
    }
  }
}
