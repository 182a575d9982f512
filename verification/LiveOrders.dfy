/** The trail a live request leaves: how each stage of it is entered, and so what
    was written before an order was sent and before a row was marked executed. */
module LiveOrders {
  import opened RiskAgent
  import opened LiveStore
  import opened LiveProtocol
  import opened LiveSafety
  import opened LiveRuns

  // ----- how a stage is entered -----

  /** The request leaves its stage for good. */
  predicate Ends(e: Event, before: Pc)
  {
    match e
    case Crash(_) => true
    case LiveLogBlocked(_) => before.LiveBlocking?
    case LiveLogPlaceOrder(_, ok) => before.LiveValidated? && !ok
    case LiveUpdateSignal(_, outcome) => before.LiveMarked? && outcome.Done?
    case LiveLogFailure(_, ok) => before.LiveFailing? && !ok
    case LiveMarkFailed(_, _) => before.LiveMarkingFailed?
    case ManualCreate(_) => before.ManualChecked?
    case SupervisorWrite(_) => before.SupervisorDecided?
    case _ => false
  }

  /** Something went wrong after the order was sent. */
  predicate Fails(e: Event, before: Pc, row: nat)
  {
    match e
    case LiveBrokerReturns(_, reply) => before == LiveAwaiting(row) && reply.BrokerError?
    case LiveLogResponse(_, ok) => before == LiveResponded(row, false) || (before == LiveResponded(row, true) && !ok)
    case LiveMarkExecuted(_, _, outcome) => before == LiveMarking(row) && !outcome.Done?
    case LiveUpdateSignal(_, outcome) => before == LiveMarked(row) && !outcome.Done?
    case _ => false
  }

  /** The step that takes request `a` from `before` to `pc`. */
  predicate Enters(e: Event, a: Id, before: Pc, pc: Pc)
  {
    match pc
    case LiveReserved(_) => e.LiveReserve? && e.actor == a && e.outcome.Done? && before.LiveConfigRead?
    case LiveValidated(row) => e == LiveLogValidation(a, true) && before == LiveReserved(row)
    case LiveSending(row) => e == LiveLogPlaceOrder(a, true) && before == LiveValidated(row)
    case LiveAwaiting(row) => e == LiveSend(a) && before == LiveSending(row)
    case LiveResponded(row, executed) =>
      e == LiveBrokerReturns(a, if executed then BrokerExecuted else BrokerDeclined) && before == LiveAwaiting(row)
    case LiveMarking(row) => e == LiveLogResponse(a, true) && before == LiveResponded(row, true)
    case LiveMarked(row) => e.LiveMarkExecuted? && e.actor == a && e.outcome.Done? && before == LiveMarking(row)
    case LiveFailing(row) => Fails(e, before, row) && e.actor == a
    case LiveMarkingFailed(row) => e == LiveLogFailure(a, true) && before == LiveFailing(row)
    case LiveBlocking => (e.LiveReserve? && e.actor == a) || (e == LiveLogValidation(a, false) && before.LiveReserved?)
    case Ended => Ends(e, before) && e.actor == a
    case _ => true
  }

  predicate StaysOrEnters(s: State, s': State, e: Event, a: Id)
    requires a in s'.actors
  {
    (a in s.actors && s'.actors[a] == s.actors[a]) || Enters(e, a, PcOf(s, a), s'.actors[a])
  }

  lemma LiveEnters(dayStart: int -> int, s: State, e: Event, a: Id)
    requires LiveEnabled(s, e) && a in LiveApply(dayStart, s, e).actors
    ensures StaysOrEnters(s, LiveApply(dayStart, s, e), e, a)
  {
    hide Validate;
  }

  lemma ManualEnters(s: State, e: Event, a: Id)
    requires ManualEnabled(s, e) && a in ManualApply(s, e).actors
    ensures StaysOrEnters(s, ManualApply(s, e), e, a)
  {
  }

  lemma OtherEnters(s: State, e: Event, a: Id)
    requires OtherEnabled(s, e) && a in OtherApply(s, e).actors
    ensures StaysOrEnters(s, OtherApply(s, e), e, a)
  {
    hide EvaluateSignal, Decide;
  }

  /** Every step leaves a request where it is or enters its next stage so. */
  lemma StageEntered(dayStart: int -> int, s: State, e: Event, a: Id)
    requires Enabled(s, e) && a in Apply(dayStart, s, e).actors
    ensures StaysOrEnters(s, Apply(dayStart, s, e), e, a)
  {
    hide LiveEnabled, LiveApply, ManualEnabled, ManualApply, OtherEnabled, OtherApply, StaysOrEnters;
    if LiveEnabled(s, e) {
      LiveEnters(dayStart, s, e, a);
    } else if ManualEnabled(s, e) {
      ManualEnters(s, e, a);
    } else {
      OtherEnters(s, e, a);
    }
  }

  // ----- how a write may end -----

  predicate HasOutcome(e: Event)
  {
    e.LiveReserve? || e.LiveMarkExecuted? || e.LiveUpdateSignal? || e.LiveMarkFailed?
  }

  function WithOutcome(e: Event, outcome: Outcome): Event
    requires HasOutcome(e)
  {
    match e
    case LiveReserve(a, symbol, checkedAt, createdAt, _) => LiveReserve(a, symbol, checkedAt, createdAt, outcome)
    case LiveMarkExecuted(a, payloadPnl, _) => LiveMarkExecuted(a, payloadPnl, outcome)
    case LiveUpdateSignal(a, _) => LiveUpdateSignal(a, outcome)
    case LiveMarkFailed(a, _) => LiveMarkFailed(a, outcome)
  }

  /** A lost write leaves the tables as they were; one that fails after it was
      applied leaves what a successful one leaves, although its request goes on
      as if it had been lost. */
  lemma WritesByOutcome(dayStart: int -> int, s: State, e: Event)
    requires LiveEnabled(s, e) && HasOutcome(e)
    ensures LiveEnabled(s, WithOutcome(e, Lost)) && LiveEnabled(s, WithOutcome(e, Done))
    ensures LiveEnabled(s, WithOutcome(e, AppliedThenLost))
    ensures LiveApply(dayStart, s, WithOutcome(e, Lost)).db == s.db
    ensures LiveApply(dayStart, s, WithOutcome(e, AppliedThenLost)).db
            == LiveApply(dayStart, s, WithOutcome(e, Done)).db
    ensures LiveApply(dayStart, s, WithOutcome(e, AppliedThenLost)).actors
            == LiveApply(dayStart, s, WithOutcome(e, Lost)).actors
  {
    hide Validate;
    if e.LiveReserve? {
      ReserveByOutcome(dayStart, s, e);
    }
  }

  lemma ReserveByOutcome(dayStart: int -> int, s: State, e: Event)
    requires LiveEnabled(s, e) && e.LiveReserve?
    ensures LiveApply(dayStart, s, WithOutcome(e, Lost)).db == s.db
    ensures LiveApply(dayStart, s, WithOutcome(e, AppliedThenLost)).db
            == LiveApply(dayStart, s, WithOutcome(e, Done)).db
    ensures LiveApply(dayStart, s, WithOutcome(e, AppliedThenLost)).actors
            == LiveApply(dayStart, s, WithOutcome(e, Lost)).actors
  {
    hide Validate, Reserve;
  }

  // ----- trails over a run -----

  /** The event by which a request came to the stage it is in. */
  lemma {:induction false} EnteredAt(dayStart: int -> int, states: seq<State>, events: seq<Event>, j: nat, a: Id)
    returns (i: nat)
    requires IsRun(dayStart, states, events) && j < |states| && a in states[j].actors
    ensures i < j && Enters(events[i], a, PcOf(states[i], a), states[j].actors[a])
  {
    if j == 0 {
      assert false;
    } else {
      RunStep(dayStart, states, events, j - 1);
      StageEntered(dayStart, states[j - 1], events[j - 1], a);
      hide *;
      i := j - 1;
      if !Enters(events[i], a, PcOf(states[i], a), states[j].actors[a]) {
        Stayed(states[i], states[j], events[i], a);
        i := EnteredAt(dayStart, states, events, j - 1, a);
      }
    }
  }

  lemma Stayed(s: State, s': State, e: Event, a: Id)
    requires a in s'.actors && StaysOrEnters(s, s', e, a) && !Enters(e, a, PcOf(s, a), s'.actors[a])
    ensures a in s.actors && s.actors[a] == s'.actors[a]
  {
  }

  lemma SenderIsSending(dayStart: int -> int, states: seq<State>, events: seq<Event>, j: nat)
    requires IsRun(dayStart, states, events) && j < |events| && events[j].LiveSend?
    ensures var a := events[j].actor; a in states[j].actors && states[j].actors[a].LiveSending?
  {
    assert Enabled(states[j], events[j]);
  }

  lemma MarkerIsMarking(dayStart: int -> int, states: seq<State>, events: seq<Event>, j: nat)
    requires IsRun(dayStart, states, events) && j < |events| && events[j].LiveMarkExecuted?
    ensures var a := events[j].actor; a in states[j].actors && states[j].actors[a].LiveMarking?
  {
    assert Enabled(states[j], events[j]);
  }

  /** Before an order is sent, its request reserved the row, logged the validation
      and logged the order, in this order and each with success. */
  lemma OrderTrail(dayStart: int -> int, states: seq<State>, events: seq<Event>, j: nat)
    returns (reserved: nat, validated: nat, placed: nat)
    requires IsRun(dayStart, states, events) && j < |events| && events[j].LiveSend?
    ensures reserved < validated < placed < j
    ensures var a := events[j].actor;
            && events[reserved].LiveReserve? && events[reserved].actor == a && events[reserved].outcome.Done?
            && events[validated] == LiveLogValidation(a, true) && events[placed] == LiveLogPlaceOrder(a, true)
  {
    var a := events[j].actor;
    SenderIsSending(dayStart, states, events, j);
    hide IsRun;
    placed := EnteredAt(dayStart, states, events, j, a);
    validated := EnteredAt(dayStart, states, events, placed, a);
    reserved := EnteredAt(dayStart, states, events, validated, a);
  }

  /** A row is marked executed only after the broker was called, answered that it
      executed, and the answer was logged. */
  lemma ExecutionTrail(dayStart: int -> int, states: seq<State>, events: seq<Event>, j: nat)
    returns (sent: nat, answered: nat, logged: nat)
    requires IsRun(dayStart, states, events) && j < |events| && events[j].LiveMarkExecuted?
    ensures sent < answered < logged < j
    ensures var a := events[j].actor;
            && events[sent] == LiveSend(a) && events[answered] == LiveBrokerReturns(a, BrokerExecuted)
            && events[logged] == LiveLogResponse(a, true)
  {
    var a := events[j].actor;
    MarkerIsMarking(dayStart, states, events, j);
    hide IsRun;
    logged := EnteredAt(dayStart, states, events, j, a);
    answered := EnteredAt(dayStart, states, events, logged, a);
    sent := EnteredAt(dayStart, states, events, answered, a);
  }

  lemma MarksExecuted(dayStart: int -> int, s: State, e: Event, k: nat)
    requires Enabled(s, e) && OwnersOk(s) && k < |Apply(dayStart, s, e).db.rows|
    requires Apply(dayStart, s, e).db.rows[k].status.Executed?
    ensures (k < |s.db.rows| && s.db.rows[k].status.Executed?)
            || (e.LiveMarkExecuted? && e.actor == Apply(dayStart, s, e).db.rows[k].owner)
  {
    hide LiveEnabled, LiveApply, ManualEnabled, ManualApply, OtherEnabled, OtherApply, OwnersOk;
    if LiveEnabled(s, e) {
      LiveMarksExecuted(dayStart, s, e, k);
    } else if ManualEnabled(s, e) {
      ManualTouches(s, e);
    } else {
      OtherTouches(s, e);
    }
  }

  lemma LiveMarksExecuted(dayStart: int -> int, s: State, e: Event, k: nat)
    requires LiveEnabled(s, e) && OwnersOk(s) && k < |LiveApply(dayStart, s, e).db.rows|
    requires LiveApply(dayStart, s, e).db.rows[k].status.Executed?
    ensures (k < |s.db.rows| && s.db.rows[k].status.Executed?)
            || (e.LiveMarkExecuted? && e.actor == LiveApply(dayStart, s, e).db.rows[k].owner)
  {
    if e.actor in s.actors {
      assert ActorOk(s, e.actor);
    }
    hide Validate, OwnersOk, ActorOk, RowOk;
  }

  /** So an EXECUTED row stands for an order its request sent and the broker
      reported executed. */
  lemma {:induction false} ExecutedRow(dayStart: int -> int, states: seq<State>, events: seq<Event>, i: nat, k: nat)
    returns (answered: nat)
    requires IsCalendar(dayStart) && IsRun(dayStart, states, events) && i < |states|
    requires k < |states[i].db.rows| && states[i].db.rows[k].status.Executed?
    ensures answered < i && events[answered] == LiveBrokerReturns(states[i].db.rows[k].owner, BrokerExecuted)
  {
    NothingExecutedYet(dayStart, states, events, i, k);
    hide *;
    var s, e := states[i - 1], events[i - 1];
    AlwaysInv(dayStart, states, events, i - 1);
    RunStep(dayStart, states, events, i - 1);
    InvParts(dayStart, s);
    MarksExecuted(dayStart, s, e, k);
    if k < |s.db.rows| && s.db.rows[k].status.Executed? {
      KeepsOwners(dayStart, s, e);
      MovesParts(s.db.rows, states[i].db.rows, k);
      answered := ExecutedRow(dayStart, states, events, i - 1, k);
    } else {
      answered := ExecutedNow(dayStart, states, events, i - 1);
    }
  }

  lemma NothingExecutedYet(dayStart: int -> int, states: seq<State>, events: seq<Event>, i: nat, k: nat)
    requires IsRun(dayStart, states, events) && i < |states| && k < |states[i].db.rows|
    ensures i > 0 && |states| == |events| + 1
  {
    hide Enabled, Apply;
  }

  lemma ExecutedNow(dayStart: int -> int, states: seq<State>, events: seq<Event>, j: nat) returns (answered: nat)
    requires IsRun(dayStart, states, events) && j < |events| && events[j].LiveMarkExecuted?
    ensures answered < j && events[answered] == LiveBrokerReturns(events[j].actor, BrokerExecuted)
  {
    hide *;
    var sent, logged: nat;
    sent, answered, logged := ExecutionTrail(dayStart, states, events, j);
  }
}
