/** The gaps the other modules leave open are reachable.  Two requests may decide
    one signal both ways whenever it could be approved at all, and a run from
    empty tables rejects a signal, trades it all the same, and leaves its row
    reserved with nobody to move it. */
module LiveRaces {
  import opened Market
  import opened Rounding
  import opened RiskAgent
  import opened LiveStore
  import opened LiveProtocol
  import opened LiveServices
  import opened LiveSolo
  import opened LiveManual

  // ----- from event lists to runs -----

  function Trace(dayStart: int -> int, s: State, es: seq<Event>): (states: seq<State>)
    requires CanRun(dayStart, s, es)
    ensures |states| == |es| + 1 && states[0] == s
    decreases |es|
  {
    if es == [] then [s] else [s] + Trace(dayStart, Apply(dayStart, s, es[0]), es[1..])
  }

  lemma {:induction false} TraceSteps(dayStart: int -> int, s: State, es: seq<Event>)
    requires CanRun(dayStart, s, es)
    ensures var states := Trace(dayStart, s, es);
            && states[|es|] == AfterRun(dayStart, s, es)
            && forall i :: 0 <= i < |es| ==>
                 Enabled(states[i], es[i]) && states[i + 1] == Apply(dayStart, states[i], es[i])
    decreases |es|
  {
    hide Enabled, Apply;
    if es != [] {
      var next := Apply(dayStart, s, es[0]);
      var states, later := Trace(dayStart, s, es), Trace(dayStart, next, es[1..]);
      TraceSteps(dayStart, next, es[1..]);
      assert states == [s] + later;
      forall i | 0 <= i < |es|
        ensures Enabled(states[i], es[i]) && states[i + 1] == Apply(dayStart, states[i], es[i])
      {
        if i > 0 {
          assert states[i] == later[i - 1] && states[i + 1] == later[i] && es[i] == es[1..][i - 1];
        }
      }
    }
  }

  // ----- what a list of events leaves alone -----

  predicate HasActor(e: Event)
  {
    !(e.CreateSignal? || e.SetStatus? || e.SetUsers? || e.SetConfig? || e.ReadLimits? || e.ChangeLimits?
      || e.AssessRisk?)
  }

  /** The event neither sets the configuration nor moves `a`. */
  predicate Quiet(e: Event, a: Id)
  {
    !e.SetConfig? && (HasActor(e) ==> e.actor != a)
  }

  lemma QuietStep(dayStart: int -> int, s: State, e: Event, a: Id)
    requires Enabled(s, e) && Quiet(e, a)
    ensures var s' := Apply(dayStart, s, e);
            s'.config == s.config && (a in s'.actors <==> a in s.actors)
  {
    hide LiveApply, ManualApply, OtherApply, LiveEnabled, ManualEnabled, OtherEnabled;
    if LiveEnabled(s, e) {
      QuietLive(dayStart, s, e, a);
    } else if ManualEnabled(s, e) {
      QuietManual(s, e, a);
    } else {
      QuietOther(s, e, a);
    }
  }

  lemma QuietLive(dayStart: int -> int, s: State, e: Event, a: Id)
    requires LiveEnabled(s, e) && Quiet(e, a)
    ensures var s' := LiveApply(dayStart, s, e);
            s'.config == s.config && (a in s'.actors <==> a in s.actors)
  {
    hide Validate, Reserve;
  }

  lemma QuietManual(s: State, e: Event, a: Id)
    requires ManualEnabled(s, e) && Quiet(e, a)
    ensures var s' := ManualApply(s, e);
            s'.config == s.config && (a in s'.actors <==> a in s.actors)
  {
  }

  lemma QuietOther(s: State, e: Event, a: Id)
    requires OtherEnabled(s, e) && Quiet(e, a)
    ensures var s' := OtherApply(s, e);
            s'.config == s.config && (a in s'.actors <==> a in s.actors)
  {
    hide EvaluateSignal, Decide;
  }

  lemma {:induction false} QuietRun(dayStart: int -> int, s: State, es: seq<Event>, a: Id)
    requires CanRun(dayStart, s, es) && forall e :: e in es ==> Quiet(e, a)
    ensures var after := AfterRun(dayStart, s, es);
            after.config == s.config && (a in after.actors <==> a in s.actors)
    decreases |es|
  {
    hide Enabled, Apply, Quiet;
    if es != [] {
      QuietStep(dayStart, s, es[0], a);
      QuietRun(dayStart, Apply(dayStart, s, es[0]), es[1..], a);
    }
  }

  // ----- two requests deciding one signal -----

  /** Request `a` means to reject, request `b` to approve; both get past their
      preconditions, then both past the check, then both create. */
  function ReadEvents(a: Id, b: Id, signal: Id): seq<Event>
  {
    [ManualReadSignal(a, signal)] + ([ManualSkipToReject(a)]
      + ([ManualReadSignal(b, signal)] + ([ManualReadConfig(b)] + ([ManualReadRisk(b)] + []))))
  }

  function DecideEvents(a: Id, b: Id): seq<Event>
  {
    [ManualCheck(a)] + ([ManualCheck(b)] + ([ManualCreate(a)] + ([ManualCreate(b)] + [])))
  }

  function Raced(db: Db, signal: Id): Db
  {
    db.(manuals := db.manuals + [ManualDecision(signal, Reject), ManualDecision(signal, Approve)])
  }

  lemma SignalReads(s: State, a: Id, signal: Id)
    requires a !in s.actors && ApproveRefusal(s.db, s.config, signal).None?
    ensures ManualEnabled(s, ManualReadSignal(a, signal))
    ensures ManualApply(s, ManualReadSignal(a, signal)) == Goto(s, a, ManualSignalRead(signal))
  {
    hide HasDecision;
  }

  lemma RejectSkips(s: State, a: Id, signal: Id)
    requires PcOf(s, a) == ManualSignalRead(signal)
    ensures ManualEnabled(s, ManualSkipToReject(a))
    ensures ManualApply(s, ManualSkipToReject(a)) == Goto(s, a, ManualValidated(signal, Reject))
  {
  }

  lemma ConfigReads(s: State, a: Id, signal: Id)
    requires PcOf(s, a) == ManualSignalRead(signal) && ApproveRefusal(s.db, s.config, signal).None?
    ensures ManualEnabled(s, ManualReadConfig(a))
    ensures ManualApply(s, ManualReadConfig(a)) == Goto(s, a, ManualConfigRead(signal))
  {
    hide HasDecision;
  }

  lemma RiskReads(s: State, a: Id, signal: Id)
    requires PcOf(s, a) == ManualConfigRead(signal) && ApproveRefusal(s.db, s.config, signal).None?
    ensures ManualEnabled(s, ManualReadRisk(a))
    ensures ManualApply(s, ManualReadRisk(a)) == Goto(s, a, ManualValidated(signal, Approve))
  {
    hide HasDecision;
  }

  lemma CheckPasses(s: State, a: Id, signal: Id, action: ManualAction)
    requires PcOf(s, a) == ManualValidated(signal, action) && !HasDecision(s.db, signal)
    ensures ManualEnabled(s, ManualCheck(a))
    ensures ManualApply(s, ManualCheck(a)) == Goto(s, a, ManualChecked(signal, action))
  {
  }

  lemma CreateWrites(s: State, a: Id, signal: Id, action: ManualAction)
    requires PcOf(s, a) == ManualChecked(signal, action)
    ensures ManualEnabled(s, ManualCreate(a))
    ensures ManualApply(s, ManualCreate(a))
            == Goto(s.(db := s.db.(manuals := s.db.manuals + [ManualDecision(signal, action)])), a, Ended)
  {
  }

  lemma GoneTo(s: State, a: Id, pc: Pc, b: Id)
    ensures PcOf(Goto(s, a, pc), a) == pc
    ensures b != a ==> PcOf(Goto(s, a, pc), b) == PcOf(s, b) && (b in Goto(s, a, pc).actors <==> b in s.actors)
    ensures Goto(s, a, pc).db == s.db && Goto(s, a, pc).config == s.config
  {
  }

  lemma ReadingRun(dayStart: int -> int, s: State, a: Id, b: Id, signal: Id)
    requires a != b && a !in s.actors && b !in s.actors && ApproveRefusal(s.db, s.config, signal).None?
    ensures CanRun(dayStart, s, ReadEvents(a, b, signal))
    ensures var after := AfterRun(dayStart, s, ReadEvents(a, b, signal));
            && after.db == s.db
            && PcOf(after, a) == ManualValidated(signal, Reject) && PcOf(after, b) == ManualValidated(signal, Approve)
  {
    hide Enabled, Apply, CanRun, AfterRun, ManualEnabled, ManualApply, Goto, PcOf, ApproveRefusal;
    var tail := [ManualReadSignal(b, signal)] + ([ManualReadConfig(b)] + ([ManualReadRisk(b)] + []));
    SignalReads(s, a, signal);
    ManualFirst(dayStart, s, ManualReadSignal(a, signal), [ManualSkipToReject(a)] + tail);
    var s1 := ManualApply(s, ManualReadSignal(a, signal));
    GoneTo(s, a, ManualSignalRead(signal), b);
    RejectSkips(s1, a, signal);
    ManualFirst(dayStart, s1, ManualSkipToReject(a), tail);
    var s2 := ManualApply(s1, ManualSkipToReject(a));
    GoneTo(s1, a, ManualValidated(signal, Reject), b);
    SignalReads(s2, b, signal);
    ManualFirst(dayStart, s2, ManualReadSignal(b, signal), [ManualReadConfig(b)] + ([ManualReadRisk(b)] + []));
    var s3 := ManualApply(s2, ManualReadSignal(b, signal));
    GoneTo(s2, b, ManualSignalRead(signal), a);
    ConfigReads(s3, b, signal);
    ManualFirst(dayStart, s3, ManualReadConfig(b), [ManualReadRisk(b)] + []);
    var s4 := ManualApply(s3, ManualReadConfig(b));
    GoneTo(s3, b, ManualConfigRead(signal), a);
    RiskReads(s4, b, signal);
    ManualFirst(dayStart, s4, ManualReadRisk(b), []);
    var s5 := ManualApply(s4, ManualReadRisk(b));
    GoneTo(s4, b, ManualValidated(signal, Approve), a);
    FirstStep(dayStart, s5, ManualReadRisk(b), []);
  }

  lemma DecidingRun(dayStart: int -> int, s: State, a: Id, b: Id, signal: Id)
    requires a != b && !HasDecision(s.db, signal)
    requires PcOf(s, a) == ManualValidated(signal, Reject) && PcOf(s, b) == ManualValidated(signal, Approve)
    ensures CanRun(dayStart, s, DecideEvents(a, b))
    ensures AfterRun(dayStart, s, DecideEvents(a, b)).db == Raced(s.db, signal)
  {
    hide Enabled, Apply, CanRun, AfterRun, ManualEnabled, ManualApply, Goto, PcOf, HasDecision;
    CheckPasses(s, a, signal, Reject);
    ManualFirst(dayStart, s, ManualCheck(a), [ManualCheck(b)] + ([ManualCreate(a)] + ([ManualCreate(b)] + [])));
    var s1 := ManualApply(s, ManualCheck(a));
    GoneTo(s, a, ManualChecked(signal, Reject), b);
    CheckPasses(s1, b, signal, Approve);
    ManualFirst(dayStart, s1, ManualCheck(b), [ManualCreate(a)] + ([ManualCreate(b)] + []));
    var s2 := ManualApply(s1, ManualCheck(b));
    GoneTo(s1, b, ManualChecked(signal, Approve), a);
    CreateWrites(s2, a, signal, Reject);
    ManualFirst(dayStart, s2, ManualCreate(a), [ManualCreate(b)] + []);
    var s3 := ManualApply(s2, ManualCreate(a));
    var rejected := s2.(db := s2.db.(manuals := s2.db.manuals + [ManualDecision(signal, Reject)]));
    GoneTo(rejected, a, Ended, b);
    SamePc(s2, rejected, b);
    CreateWrites(s3, b, signal, Approve);
    ManualFirst(dayStart, s3, ManualCreate(b), []);
    var s4 := ManualApply(s3, ManualCreate(b));
    GoneTo(s3.(db := s3.db.(manuals := s3.db.manuals + [ManualDecision(signal, Approve)])), b, Ended, a);
    FirstStep(dayStart, s4, ManualCreate(b), []);
    assert s.db.manuals + [ManualDecision(signal, Reject)] + [ManualDecision(signal, Approve)]
        == s.db.manuals + [ManualDecision(signal, Reject), ManualDecision(signal, Approve)];
  }

  lemma SamePc(s: State, t: State, a: Id)
    requires s.actors == t.actors
    ensures PcOf(s, a) == PcOf(t, a)
  {
  }

  /** Whenever a signal could be approved, two requests can leave it with a
      rejection and an approval. */
  lemma RaceRun(dayStart: int -> int, s: State, a: Id, b: Id, signal: Id)
    requires a != b && a !in s.actors && b !in s.actors && ApproveRefusal(s.db, s.config, signal).None?
    ensures CanRun(dayStart, s, ReadEvents(a, b, signal) + DecideEvents(a, b))
    ensures AfterRun(dayStart, s, ReadEvents(a, b, signal) + DecideEvents(a, b)).db == Raced(s.db, signal)
  {
    ReadingRun(dayStart, s, a, b, signal);
    var mid := AfterRun(dayStart, s, ReadEvents(a, b, signal));
    assert !HasDecision(mid.db, signal);
    hide CanRun, AfterRun, ReadEvents, DecideEvents, HasDecision, PcOf;
    DecidingRun(dayStart, mid, a, b, signal);
    RunConcat(dayStart, s, ReadEvents(a, b, signal), DecideEvents(a, b));
  }

  // ----- a run from empty tables -----

  /** Some events lead from `s` to `t`. */
  ghost predicate Reaches(dayStart: int -> int, s: State, t: State)
  {
    exists es :: CanRun(dayStart, s, es) && AfterRun(dayStart, s, es) == t
  }

  lemma ReachesByRun(dayStart: int -> int, s: State, es: seq<Event>)
    requires CanRun(dayStart, s, es)
    ensures Reaches(dayStart, s, AfterRun(dayStart, s, es))
  {
  }

  lemma ReachesOn(dayStart: int -> int, s: State, t: State, u: State)
    requires Reaches(dayStart, s, t) && Reaches(dayStart, t, u)
    ensures Reaches(dayStart, s, u)
  {
    var es :| CanRun(dayStart, s, es) && AfterRun(dayStart, s, es) == t;
    var fs :| CanRun(dayStart, t, fs) && AfterRun(dayStart, t, fs) == u;
    RunConcat(dayStart, s, es, fs);
    hide CanRun, AfterRun;
  }

  const SIGNAL: Id := "signal"
  const ASSISTED: SystemConfig := SystemConfig(AssistedTrading, false)
  const LIVE: SystemConfig := SystemConfig(LiveLimited, false)
  const ACCOUNT: AccountState := AccountState(100 * ONE, 0, 0)
  const PROFILE: RiskProfile := RiskProfile(0.001, 0.02, 1, 2.0)
  const AROUND: Surroundings := Surroundings(ACCOUNT, false, false, SupervisorLimits(70, 1, 0.02))

  function SignalWith(status: SignalStatus): Signal
  {
    Signal(SignalBuy, 100 * ONE, Some(90 * ONE), Some(130 * ONE), 80, status)
  }

  /** Empty tables with one administrator, in assisted mode. */
  function Start(): State
  {
    State(Db(map[], {"admin"}, {"admin"}, [], map[], [], [], None), ASSISTED, map[], 0)
  }

  /** The signal assessed, supervised and waiting for a manual decision. */
  function WaitingDb(): Db
  {
    Start().db.(signals := map[SIGNAL := SignalWith(PendingManualApproval)],
                risks := [RiskAssessment(SIGNAL, Approved, 1_000_000, 3.0, 2.0)],
                supervisors := map[SIGNAL := SupervisorDecision(Operate, 80, 0, AROUND, ASSISTED)])
  }

  predicate Unused(s: State, ids: set<Id>)
  {
    forall a :: a in ids ==> a !in s.actors
  }

  lemma QuietForAll(dayStart: int -> int, s: State, es: seq<Event>, ids: set<Id>)
    requires CanRun(dayStart, s, es) && Unused(s, ids) && ids != {}
    requires forall e, a :: e in es && a in ids ==> Quiet(e, a)
    ensures AfterRun(dayStart, s, es).config == s.config && Unused(AfterRun(dayStart, s, es), ids)
  {
    hide CanRun, AfterRun, Quiet;
    var some :| some in ids;
    QuietRun(dayStart, s, es, some);
    forall a | a in ids ensures a !in AfterRun(dayStart, s, es).actors {
      QuietRun(dayStart, s, es, a);
    }
  }

  /** Entry 100, stop 90 and target 130 with 0.1% of 100 at risk: a ratio of 3
      and a size of 0.01, the default volume limit. */
  lemma VerdictOnSignal()
    ensures EvaluateSignal(100 * ONE, Some(90 * ONE), Some(130 * ONE), ACCOUNT, PROFILE)
            == Verdict(Approved, 0.01, 10_000_000.0, 3.0)
    ensures Round(0.01 * ONE as real) == 1_000_000
  {
    assert AbsInt(100 * ONE - 90 * ONE) == 1_000_000_000 && AbsInt(130 * ONE - 100 * ONE) == 3_000_000_000;
    assert (100 * ONE) as real * 0.001 == 10_000_000.0;
    assert 10_000_000.0 / 1_000_000_000.0 == 0.01 && 3_000_000_000.0 / 1_000_000_000.0 == 3.0;
    assert RejectionReasons(ACCOUNT, PROFILE, 10_000_000.0, 3.0) == [];
  }

  lemma Created(dayStart: int -> int) returns (s: State)
    ensures Reaches(dayStart, Start(), s) && Unused(s, {"s", "a", "b", "c"}) && s.config == ASSISTED
    ensures s.db == Start().db.(signals := map[SIGNAL := SignalWith(OtherStatus("GENERATED"))])
  {
    var e := CreateSignal(SIGNAL, SignalWith(OtherStatus("GENERATED")));
    assert OtherEnabled(Start(), e);
    OtherFirst(dayStart, Start(), e, []);
    ReachesByRun(dayStart, Start(), [e] + []);
    s := OtherApply(Start(), e);
  }

  lemma AssessedNext(dayStart: int -> int, s: State) returns (t: State)
    requires Unused(s, {"s", "a", "b", "c"}) && s.config == ASSISTED
    requires s.db == Start().db.(signals := map[SIGNAL := SignalWith(OtherStatus("GENERATED"))])
    ensures Reaches(dayStart, s, t) && Unused(t, {"s", "a", "b", "c"}) && t.config == ASSISTED
    ensures t.db == WaitingDb().(signals := map[SIGNAL := SignalWith(StatusApproved)], supervisors := map[])
  {
    VerdictOnSignal();
    var v := EvaluateSignal(100 * ONE, Some(90 * ONE), Some(130 * ONE), ACCOUNT, PROFILE);
    var es := AssessEvents(SIGNAL, ACCOUNT, PROFILE, StatusApproved);
    AssessIsRun(dayStart, s, SIGNAL, ACCOUNT, PROFILE, v);
    hide CanRun, AfterRun, Reaches, EvaluateSignal, Unused;
    QuietForAll(dayStart, s, es, {"s", "a", "b", "c"});
    ReachesByRun(dayStart, s, es);
    t := AfterRun(dayStart, s, es);
  }

  lemma VerdictOperates(db: Db)
    requires db == WaitingDb().(signals := map[SIGNAL := SignalWith(StatusApproved)], supervisors := map[])
    ensures DecideRefusal(db, SIGNAL).None? && LatestRisk(db.risks, SIGNAL) == Some(0)
    ensures SupervisorVerdict(db, ASSISTED, SIGNAL, AROUND) == SupervisorDecision(Operate, 80, 0, AROUND, ASSISTED)
    ensures Supervised(db, ASSISTED, SIGNAL, AROUND) == WaitingDb()
  {
    assert LatestRisk(db.risks, SIGNAL) == Some(0);
    assert map[SIGNAL := SignalWith(StatusApproved)][SIGNAL := SignalWith(PendingManualApproval)]
        == map[SIGNAL := SignalWith(PendingManualApproval)];
  }

  lemma SuperviseQuiet(a: Id, signal: Id, seen: Surroundings, status: SignalStatus, b: Id)
    requires a != b
    ensures forall e :: e in SuperviseEvents(a, signal, seen, 0, Some(status)) ==> Quiet(e, b)
  {
    var start, decide := [SupervisorStart(a, signal), SupervisorReadRisk(a, 0), SupervisorReadConfig(a)],
                         [SupervisorDecide(a, seen), SupervisorWrite(a), SetStatus(signal, status)];
    assert SuperviseEvents(a, signal, seen, 0, Some(status)) == start + decide;
  }

  function Supervising(): seq<Event>
  {
    SuperviseEvents("s", SIGNAL, AROUND, 0, Some(PendingManualApproval))
  }

  lemma SupervisingRun(dayStart: int -> int, s: State)
    requires "s" !in s.actors && s.config == ASSISTED
    requires s.db == WaitingDb().(signals := map[SIGNAL := SignalWith(StatusApproved)], supervisors := map[])
    ensures CanRun(dayStart, s, Supervising()) && AfterRun(dayStart, s, Supervising()).db == WaitingDb()
  {
    VerdictOperates(s.db);
    hide CanRun, AfterRun, SupervisorVerdict, LatestRisk, Supervised, SuperviseEvents;
    SuperviseIsRun(dayStart, s, "s", SIGNAL, AROUND, 0);
  }

  lemma SupervisingQuiet()
    ensures forall e, a :: e in Supervising() && a in {"a", "b", "c"} ==> Quiet(e, a)
  {
    SuperviseQuiet("s", SIGNAL, AROUND, PendingManualApproval, "a");
    SuperviseQuiet("s", SIGNAL, AROUND, PendingManualApproval, "b");
    SuperviseQuiet("s", SIGNAL, AROUND, PendingManualApproval, "c");
    hide Quiet, SuperviseEvents;
  }

  lemma SupervisedNext(dayStart: int -> int, s: State) returns (t: State)
    requires Unused(s, {"s", "a", "b", "c"}) && s.config == ASSISTED
    requires s.db == WaitingDb().(signals := map[SIGNAL := SignalWith(StatusApproved)], supervisors := map[])
    ensures Reaches(dayStart, s, t) && Unused(t, {"a", "b", "c"}) && t.config == ASSISTED && t.db == WaitingDb()
  {
    hide *;
    UnusedParts(s);
    SupervisingRun(dayStart, s);
    SupervisingQuiet();
    t := QuietNext(dayStart, s, Supervising(), {"a", "b", "c"});
  }

  lemma UnusedParts(s: State)
    requires Unused(s, {"s", "a", "b", "c"})
    ensures Unused(s, {"a", "b", "c"}) && "s" !in s.actors
  {
  }

  lemma QuietNext(dayStart: int -> int, s: State, es: seq<Event>, ids: set<Id>) returns (t: State)
    requires CanRun(dayStart, s, es) && Unused(s, ids) && ids != {}
    requires forall e, a :: e in es && a in ids ==> Quiet(e, a)
    ensures Reaches(dayStart, s, t) && Unused(t, ids) && t.config == s.config && t == AfterRun(dayStart, s, es)
  {
    hide *;
    QuietForAll(dayStart, s, es, ids);
    ReachesByRun(dayStart, s, es);
    t := AfterRun(dayStart, s, es);
  }

  lemma RacedNext(dayStart: int -> int, s: State) returns (t: State)
    requires Unused(s, {"a", "b", "c"}) && s.config == ASSISTED && s.db == WaitingDb()
    ensures Reaches(dayStart, s, t) && Unused(t, {"c"}) && t.db == Raced(WaitingDb(), SIGNAL)
  {
    assert Unused(s, {"c"}) && "a" !in s.actors && "b" !in s.actors;
    hide CanRun, AfterRun, Reaches, Unused;
    var es := ReadEvents("a", "b", SIGNAL) + DecideEvents("a", "b");
    assert ApproveRefusal(s.db, s.config, SIGNAL).None?;
    RaceRun(dayStart, s, "a", "b", SIGNAL);
    QuietForAll(dayStart, s, es, {"c"});
    ReachesByRun(dayStart, s, es);
    t := AfterRun(dayStart, s, es);
  }

  lemma LiveNext(dayStart: int -> int, s: State) returns (t: State)
    requires "c" !in s.actors
    ensures Reaches(dayStart, s, t) && "c" !in t.actors && t.config == LIVE && t.db == s.db
  {
    assert OtherEnabled(s, SetConfig(LIVE));
    OtherFirst(dayStart, s, SetConfig(LIVE), []);
    ReachesByRun(dayStart, s, [SetConfig(LIVE)] + []);
    t := OtherApply(s, SetConfig(LIVE));
  }

  function RequestAt(dayStart: int -> int): LiveRequest
  {
    LiveRequest(SIGNAL, "admin", 1, "XAUUSD", dayStart(0), 0, "c")
  }

  lemma GuardAccepts(dayStart: int -> int)
    ensures Checked(Raced(WaitingDb(), SIGNAL), LIVE, RequestAt(dayStart)) 
            == Accept(SignalWith(PendingManualApproval), 0, 1_000_000, DEFAULT_LIMITS)
  {
    var db := Raced(WaitingDb(), SIGNAL);
    assert db.manuals[1] == ManualDecision(SIGNAL, Approve);
    assert LatestApproved(db.risks, SIGNAL) == Some(0);
    assert "XAUUSD" == DEFAULT_LIMITS.allowedSymbols[0];
  }

  lemma ReservedNext(dayStart: int -> int, s: State) returns (t: State)
    requires "c" !in s.actors && s.config == LIVE && s.db == Raced(WaitingDb(), SIGNAL)
    ensures Reaches(dayStart, s, t) && PcOf(t, "c") == LiveReserved(0)
    ensures var accepted := Accept(SignalWith(PendingManualApproval), 0, 1_000_000, DEFAULT_LIMITS);
            t.db == Reserve(s.db, accepted, SIGNAL, 1, "XAUUSD", 0, "c")
  {
    hide CanRun, AfterRun, Reaches, Validate;
    var es := Reserving("c", RequestAt(dayStart), 0);
    GuardAccepts(dayStart);
    ReservingRun(dayStart, s, "c", RequestAt(dayStart), 0);
    ReachesByRun(dayStart, s, es);
    t := AfterRun(dayStart, s, es);
  }

  /** The write of the validation log fails: the request ends, the row stays. */
  lemma AbandonedNext(dayStart: int -> int, s: State) returns (t: State)
    requires PcOf(s, "c") == LiveReserved(0)
    ensures Reaches(dayStart, s, t) && PcOf(t, "c") == Ended && t.db == s.db
  {
    var validation, blocked := LiveLogValidation("c", false), LiveLogBlocked("c");
    LiveFirst(dayStart, s, validation, [blocked] + []);
    var s1 := LiveApply(dayStart, s, validation);
    LiveFirst(dayStart, s1, blocked, []);
    ReachesByRun(dayStart, s, [validation] + ([blocked] + []));
    t := LiveApply(dayStart, s1, blocked);
  }

  /** A run from empty tables after which one signal has a rejection, an approval
      and an active live trade, whose REQUESTED row no request owns any more. */
  lemma RejectedSignalTraded(dayStart: int -> int) returns (states: seq<State>, events: seq<Event>)
    ensures IsRun(dayStart, states, events)
    ensures var last := states[|events|];
            && last.db.manuals == [ManualDecision(SIGNAL, Reject), ManualDecision(SIGNAL, Approve)]
            && |last.db.rows| == 1 && last.db.rows[0].signal == SIGNAL
            && last.db.rows[0].status.Requested? && PcOf(last, last.db.rows[0].owner) == Ended
    ensures !SerialUpTo(states, events, |events|, SIGNAL)
  {
    hide Reaches, CanRun, AfterRun, Unused, PcOf;
    var s := Start();
    var t := ToAbandoned(dayStart);
    assert exists es :: CanRun(dayStart, s, es) && AfterRun(dayStart, s, es) == t by {
      ReachedByEvents(dayStart, s, t);
    }
    events :| CanRun(dayStart, s, events) && AfterRun(dayStart, s, events) == t;
    states := Trace(dayStart, s, events);
    TraceSteps(dayStart, s, events);
    assert Init(s);
    TwoManuals(t.db.manuals);
    SerialExactlyWhen(dayStart, states, events, |events|, SIGNAL);
  }

  lemma ReachedByEvents(dayStart: int -> int, s: State, t: State)
    requires Reaches(dayStart, s, t)
    ensures exists es :: CanRun(dayStart, s, es) && AfterRun(dayStart, s, es) == t
  {
  }

  lemma TwoManuals(ms: seq<ManualDecision>)
    requires ms == [ManualDecision(SIGNAL, Reject), ManualDecision(SIGNAL, Approve)]
    ensures Decisions(ms, SIGNAL) >= 2
  {
    TwoDecisions(ms, SIGNAL, 0, 1);
  }

  lemma ToAbandoned(dayStart: int -> int) returns (t: State)
    ensures Reaches(dayStart, Start(), t)
    ensures t.db.manuals == [ManualDecision(SIGNAL, Reject), ManualDecision(SIGNAL, Approve)]
    ensures |t.db.rows| == 1 && t.db.rows[0].signal == SIGNAL && t.db.rows[0].status.Requested?
    ensures t.db.rows[0].owner == "c" && PcOf(t, "c") == Ended
  {
    hide Reaches, PcOf;
    var s1 := Created(dayStart);
    var s2 := AssessedNext(dayStart, s1);
    ReachesOn(dayStart, Start(), s1, s2);
    var s3 := SupervisedNext(dayStart, s2);
    ReachesOn(dayStart, Start(), s2, s3);
    var s4 := RacedNext(dayStart, s3);
    ReachesOn(dayStart, Start(), s3, s4);
    var s5 := LiveNext(dayStart, s4);
    ReachesOn(dayStart, Start(), s4, s5);
    var s6 := ReservedNext(dayStart, s5);
    ReachesOn(dayStart, Start(), s5, s6);
    t := AbandonedNext(dayStart, s6);
    ReachesOn(dayStart, Start(), s6, t);
  }
}
