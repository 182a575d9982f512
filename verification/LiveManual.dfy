/** Manual decisions.  A request first checks that its signal has none, then
    creates one; the two awaits are not a transaction.  With the checks of one
    signal kept apart there is at most one decision for it; otherwise not. */
module LiveManual {
  import RiskAgent
  import opened LiveStore
  import opened LiveProtocol
  import opened LiveRuns
  import opened Sequences

  /** How many decisions a signal has. */
  function Decisions(ms: seq<ManualDecision>, signal: Id): nat
  {
    if ms == [] then 0
    else Decisions(ms[..|ms| - 1], signal) + if ms[|ms| - 1].signal == signal then 1 else 0
  }

  predicate Deciding(pc: Pc, signal: Id)
  {
    pc.ManualChecked? && pc.signal == signal
  }

  /** Requests between their check and their create for a signal. */
  function InFlight(s: State, signal: Id): set<Id>
  {
    set a | a in s.actors && Deciding(s.actors[a], signal)
  }

  function Pending(s: State, signal: Id): nat
  {
    Decisions(s.db.manuals, signal) + |InFlight(s, signal)|
  }

  lemma {:induction false} NoDecisions(ms: seq<ManualDecision>, signal: Id)
    ensures Decisions(ms, signal) == 0 <==> forall k :: 0 <= k < |ms| ==> ms[k].signal != signal
  {
    if ms != [] {
      NoDecisions(ms[..|ms| - 1], signal);
    }
  }

  lemma {:induction false} TwoDecisions(ms: seq<ManualDecision>, signal: Id, j: nat, k: nat)
    requires j < k < |ms| && ms[j].signal == signal && ms[k].signal == signal
    ensures Decisions(ms, signal) >= 2
  {
    if k == |ms| - 1 {
      NoDecisions(ms[..k], signal);
      assert ms[..k][j].signal == signal;
    } else {
      TwoDecisions(ms[..|ms| - 1], signal, j, k);
    }
  }

  // ----- one step -----

  lemma ActorsChange(dayStart: int -> int, s: State, e: Event, signal: Id)
    requires Enabled(s, e)
    ensures var s' := Apply(dayStart, s, e);
            if e.ManualCheck? && ManualEnabled(s, e) && s.actors[e.actor].signal == signal then
              && InFlight(s', signal) == InFlight(s, signal) + {e.actor}
              && s'.db.manuals == s.db.manuals
              && (forall k :: 0 <= k < |s.db.manuals| ==> s.db.manuals[k].signal != signal)
            else if e.ManualCreate? && ManualEnabled(s, e) && s.actors[e.actor].signal == signal then
              && e.actor in InFlight(s, signal) && InFlight(s', signal) == InFlight(s, signal) - {e.actor}
              && s'.db.manuals == s.db.manuals + [ManualDecision(signal, s.actors[e.actor].action)]
            else
              && InFlight(s', signal) <= InFlight(s, signal)
              && Decisions(s'.db.manuals, signal) == Decisions(s.db.manuals, signal)
  {
    if LiveEnabled(s, e) {
      LiveTouches(dayStart, s, e);
      LiveActors(dayStart, s, e, signal);
      assert !ManualEnabled(s, e);
      hide LiveEnabled, LiveApply, ManualEnabled, ManualApply, OtherEnabled, OtherApply, InFlight;
    } else if ManualEnabled(s, e) {
      ManualActors(s, e, signal);
      hide LiveEnabled, LiveApply, ManualEnabled, ManualApply, OtherEnabled, OtherApply, InFlight;
    } else {
      OtherTouches(s, e);
      OtherActors(s, e, signal);
      hide LiveEnabled, LiveApply, ManualEnabled, ManualApply, OtherEnabled, OtherApply, InFlight;
    }
  }

  lemma LiveActors(dayStart: int -> int, s: State, e: Event, signal: Id)
    requires LiveEnabled(s, e)
    ensures InFlight(LiveApply(dayStart, s, e), signal) <= InFlight(s, signal)
  {
    hide Validate;
  }

  lemma OtherActors(s: State, e: Event, signal: Id)
    requires OtherEnabled(s, e)
    ensures InFlight(OtherApply(s, e), signal) <= InFlight(s, signal)
  {
    hide RiskAgent.EvaluateSignal, RiskAgent.Decide;
  }

  lemma ManualActors(s: State, e: Event, signal: Id)
    requires ManualEnabled(s, e)
    ensures var s' := ManualApply(s, e);
            if e.ManualCheck? && s.actors[e.actor].signal == signal then
              && InFlight(s', signal) == InFlight(s, signal) + {e.actor}
              && s'.db.manuals == s.db.manuals
              && (forall k :: 0 <= k < |s.db.manuals| ==> s.db.manuals[k].signal != signal)
            else if e.ManualCreate? && s.actors[e.actor].signal == signal then
              && e.actor in InFlight(s, signal) && InFlight(s', signal) == InFlight(s, signal) - {e.actor}
              && s'.db.manuals == s.db.manuals + [ManualDecision(signal, s.actors[e.actor].action)]
            else
              && InFlight(s', signal) <= InFlight(s, signal)
              && Decisions(s'.db.manuals, signal) == Decisions(s.db.manuals, signal)
  {
    if e.ManualCreate? {
      assert ManualApply(s, e).db.manuals[..|s.db.manuals|] == s.db.manuals;
    }
  }

  /** Only a check raises the count, and only from a signal without decisions. */
  lemma PendingChange(dayStart: int -> int, s: State, e: Event, signal: Id)
    requires Enabled(s, e)
    ensures var s' := Apply(dayStart, s, e);
            if e.ManualCheck? && ManualEnabled(s, e) && s.actors[e.actor].signal == signal then
              Pending(s', signal) <= 1 + |InFlight(s, signal)|
            else Pending(s', signal) <= Pending(s, signal)
  {
    var s' := Apply(dayStart, s, e);
    ActorsChange(dayStart, s, e, signal);
    NoDecisions(s.db.manuals, signal);
    hide Enabled, Apply, ManualEnabled, InFlight;
    if e.ManualCheck? && ManualEnabled(s, e) && s.actors[e.actor].signal == signal {
    } else if e.ManualCreate? && ManualEnabled(s, e) && s.actors[e.actor].signal == signal {
      assert s'.db.manuals[..|s.db.manuals|] == s.db.manuals;
    } else {
      SubsetSize(InFlight(s', signal), InFlight(s, signal));
    }
  }

  // ----- serial decisions -----

  /** Event `j` passes the check of `signal`. */
  predicate ChecksAt(states: seq<State>, events: seq<Event>, j: nat, signal: Id)
    requires |states| == |events| + 1 && j < |events|
  {
    && events[j].ManualCheck?
    && PcOf(states[j], events[j].actor).ManualValidated?
    && states[j].actors[events[j].actor].signal == signal
  }

  /** In the first `i` steps no request checks `signal` while another is between
      its check and its create for it.  Other signals may be raced. */
  ghost predicate SerialUpTo(states: seq<State>, events: seq<Event>, i: nat, signal: Id)
    requires |states| == |events| + 1 && i <= |events|
  {
    forall j :: 0 <= j < i && ChecksAt(states, events, j, signal) ==> InFlight(states[j], signal) == {}
  }

  lemma {:induction false} SerialKeepsOne(dayStart: int -> int, states: seq<State>, events: seq<Event>, i: nat,
                                          signal: Id)
    requires IsRun(dayStart, states, events) && i < |states| && SerialUpTo(states, events, i, signal)
    ensures Pending(states[i], signal) <= 1
  {
    if i == 0 {
      assert InFlight(states[0], signal) == {};
    } else {
      SerialKeepsOne(dayStart, states, events, i - 1, signal);
      RunStep(dayStart, states, events, i - 1);
      PendingChange(dayStart, states[i - 1], events[i - 1], signal);
      var s, e := states[i - 1], events[i - 1];
      if e.ManualCheck? && ManualEnabled(s, e) && s.actors[e.actor].signal == signal {
        assert ChecksAt(states, events, i - 1, signal);
      }
      hide IsRun, Enabled, Apply, Pending, InFlight, ManualEnabled;
    }
  }

  /** A check that overlaps another of its signal leaves two pending. */
  lemma OverlapLeavesTwo(dayStart: int -> int, states: seq<State>, events: seq<Event>, j: nat, signal: Id)
    requires IsRun(dayStart, states, events) && j < |events|
    requires ChecksAt(states, events, j, signal) && InFlight(states[j], signal) != {}
    ensures Pending(states[j + 1], signal) >= 2
  {
    RunStep(dayStart, states, events, j);
    var s, e := states[j], events[j];
    assert ManualEnabled(s, e);
    ActorsChange(dayStart, s, e, signal);
    assert e.actor !in InFlight(s, signal);
    hide IsRun, Enabled, Apply, ManualEnabled, InFlight;
  }

  /** The checks of a signal never overlap exactly when its decisions and its
      requests about to decide never number two. */
  lemma SerialExactlyWhen(dayStart: int -> int, states: seq<State>, events: seq<Event>, i: nat, signal: Id)
    requires IsRun(dayStart, states, events) && i < |states|
    ensures SerialUpTo(states, events, i, signal) <==> forall j :: 0 <= j <= i ==> Pending(states[j], signal) <= 1
  {
    assert |states| == |events| + 1;
    hide IsRun, Pending, InFlight, ChecksAt;
    if SerialUpTo(states, events, i, signal) {
      forall j | 0 <= j <= i ensures Pending(states[j], signal) <= 1 {
        SerialKeepsOne(dayStart, states, events, j, signal);
      }
    } else {
      var j :| 0 <= j < i && ChecksAt(states, events, j, signal) && InFlight(states[j], signal) != {};
      OverlapLeavesTwo(dayStart, states, events, j, signal);
    }
  }

  /** A signal whose checks never overlap has at most one manual decision, and
      if it was rejected it never has a live trade, active or not. */
  lemma RejectedNeverTraded(dayStart: int -> int, states: seq<State>, events: seq<Event>, i: nat, m: nat, k: nat)
    requires IsCalendar(dayStart) && IsRun(dayStart, states, events) && i < |states|
    requires m < |states[i].db.manuals| && states[i].db.manuals[m].action.Reject?
    requires SerialUpTo(states, events, i, states[i].db.manuals[m].signal)
    requires k < |states[i].db.rows|
    ensures Decisions(states[i].db.manuals, states[i].db.manuals[m].signal) <= 1
    ensures states[i].db.rows[k].signal != states[i].db.manuals[m].signal
  {
    var db := states[i].db;
    var signal := db.manuals[m].signal;
    SerialKeepsOne(dayStart, states, events, i, signal);
    EvidenceChain(dayStart, states, events, i, i, k);
    hide IsRun, IsCalendar, SerialUpTo, InFlight, Decisions;
    if db.rows[k].signal == signal {
      var a := db.rows[k].manual;
      if a < m {
        TwoDecisions(db.manuals, signal, a, m);
      } else {
        TwoDecisions(db.manuals, signal, m, a);
      }
    }
  }

  // ----- raced decisions -----

  /** The given requests create their decisions, one after the other. */
  predicate CanCreate(s: State, creators: seq<Id>)
    decreases |creators|
  {
    creators == []
    || (ManualEnabled(s, ManualCreate(creators[0]))
        && CanCreate(ManualApply(s, ManualCreate(creators[0])), creators[1..]))
  }

  function AfterCreates(s: State, creators: seq<Id>): State
    requires CanCreate(s, creators)
    decreases |creators|
  {
    if creators == [] then s
    else AfterCreates(ManualApply(s, ManualCreate(creators[0])), creators[1..])
  }

  lemma CreateChange(s: State, a: Id, signal: Id)
    requires PcOf(s, a).ManualChecked?
    ensures var s' := ManualApply(s, ManualCreate(a));
            && Pending(s', signal) == Pending(s, signal)
            && (forall b :: b != a && b in s.actors ==> b in s'.actors && s'.actors[b] == s.actors[b])
            && (s.actors[a].signal == signal ==>
                  Decisions(s'.db.manuals, signal) == Decisions(s.db.manuals, signal) + 1)
  {
    var s' := ManualApply(s, ManualCreate(a));
    assert s'.db.manuals[..|s.db.manuals|] == s.db.manuals;
    if s.actors[a].signal == signal {
      assert InFlight(s', signal) == InFlight(s, signal) - {a};
    } else {
      assert InFlight(s', signal) == InFlight(s, signal);
    }
  }

  lemma {:induction false} CreatesKeepPending(s: State, creators: seq<Id>, signal: Id)
    requires CanCreate(s, creators)
    ensures Pending(AfterCreates(s, creators), signal) == Pending(s, signal)
    decreases |creators|
  {
    if creators != [] {
      CreateChange(s, creators[0], signal);
      CreatesKeepPending(ManualApply(s, ManualCreate(creators[0])), creators[1..], signal);
    }
  }

  /** Letting some in-flight requests finish gives the signal a second decision. */
  ghost predicate CanDecideTwice(s: State, signal: Id)
  {
    exists creators: seq<Id> ::
      CanCreate(s, creators) && Decisions(AfterCreates(s, creators).db.manuals, signal) >= 2
  }

  /** That is so exactly when its decisions and its in-flight requests together
      are two or more. */
  lemma SecondDecisionExactlyWhen(s: State, signal: Id)
    ensures CanDecideTwice(s, signal) <==> Pending(s, signal) >= 2
  {
    forall creators: seq<Id> | CanCreate(s, creators)
                               && Decisions(AfterCreates(s, creators).db.manuals, signal) >= 2
      ensures Pending(s, signal) >= 2
    {
      CreatesKeepPending(s, creators, signal);
      hide Decisions, InFlight;
    }
    if Pending(s, signal) >= 2 {
      var creators := FinishTwo(s, signal);
    }
  }

  /** Over a run: checks of a signal have overlapped exactly when some state so
      far could go on to a second decision for it. */
  lemma RaceExactlyWhen(dayStart: int -> int, states: seq<State>, events: seq<Event>, i: nat, signal: Id)
    requires IsRun(dayStart, states, events) && i < |states|
    ensures !SerialUpTo(states, events, i, signal)
            <==> exists j :: 0 <= j <= i && CanDecideTwice(states[j], signal)
  {
    SerialExactlyWhen(dayStart, states, events, i, signal);
    hide SerialUpTo, Pending, CanDecideTwice;
    forall j | 0 <= j <= i ensures CanDecideTwice(states[j], signal) <==> Pending(states[j], signal) >= 2 {
      SecondDecisionExactlyWhen(states[j], signal);
    }
  }

  lemma FinishTwo(s: State, signal: Id) returns (creators: seq<Id>)
    requires Pending(s, signal) >= 2
    ensures CanCreate(s, creators) && Decisions(AfterCreates(s, creators).db.manuals, signal) >= 2
  {
    var n := Decisions(s.db.manuals, signal);
    creators := [];
    if n < 2 {
      var a :| a in InFlight(s, signal);
      CreateChange(s, a, signal);
      OneCreate(s, a, []);
      var s1 := ManualApply(s, ManualCreate(a));
      creators := [a];
      if n == 0 {
        var b := Another(InFlight(s, signal), a);
        CreateChange(s1, b, signal);
        OneCreate(s1, b, []);
        OneCreate(s, a, [b]);
        creators := [a, b];
        assert [a] + [b] == [a, b];
      }
      hide CanCreate, AfterCreates, ManualApply, Decisions;
    }
  }

  lemma OneCreate(s: State, a: Id, rest: seq<Id>)
    requires PcOf(s, a).ManualChecked?
    ensures [a] + [] == [a]
    ensures var s' := ManualApply(s, ManualCreate(a));
            CanCreate(s', rest) ==>
              CanCreate(s, [a] + rest) && AfterCreates(s, [a] + rest) == AfterCreates(s', rest)
    ensures CanCreate(s, []) && AfterCreates(s, []) == s
    ensures var s' := ManualApply(s, ManualCreate(a)); CanCreate(s', []) && AfterCreates(s', []) == s'
  {
    assert ([a] + rest)[1..] == rest;
  }

  lemma Another(ids: set<Id>, a: Id) returns (b: Id)
    requires a in ids && |ids| >= 2
    ensures b in ids && b != a
  {
    assert |ids - {a}| == |ids| - 1;
    b :| b in ids - {a};
  }
}
