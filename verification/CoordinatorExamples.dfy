/** Runs in which the alarm goes missing, in which a wake or a forced stop does, and
    in which an unreachable container is never given up. */
module CoordinatorExamples {
  import opened Wrappers
  import opened LifecycleState
  import opened CoordinatorSteps
  import opened CoordinatorInvariant
  import opened CoordinatorLaws
  import opened CoordinatorRuns
  import opened CoordinatorAlarms
  import opened CoordinatorGivesUp

  lemma WokenBusy() returns (m: Machine)
    ensures var m3 := Step(Step(Step(Uninitialized, EInitialize(None), 1), EWake(1, 2), 2), ESendWake, 2);
            m == Step(m3, EWakeReply(Ok(Snapshot(Running, Some(3), true))), 3)
    ensures m.state.Some? && m.wake.None? && m.probe.None? && m.stop.None? && m.tail.NoTail? && m.turn.NoTurn?
    ensures var s := m.state.value;
            s.phase.RunningBusy? && s.revision == 2 && s.epoch == Some(2) && s.leases == map[]
              && s.nextProbeAt == Some(10_003)
  {
    hide NextAlarmAt;
    var m1 := Step(Uninitialized, EInitialize(None), 1);
    var m2 := Step(m1, EWake(1, 2), 2);
    assert m2.wake == Some(WakeCall(1, 2, false));
    var m3 := Step(m2, ESendWake, 2);
    assert m3.state == m2.state;
    m := Step(m3, EWakeReply(Ok(Snapshot(Running, Some(3), true))), 3);
  }

  lemma WorkDuringProbe(m: Machine) returns (r: Machine)
    requires m.state.Some? && m.wake.None? && m.probe.None? && m.stop.None? && m.tail.NoTail? && m.turn.NoTurn?
    requires var s := m.state.value;
             s.phase.RunningBusy? && s.revision == 2 && s.epoch == Some(2) && s.leases == map[]
               && s.nextProbeAt == Some(10_003)
    ensures r == Step(Step(m, EReconcile, 4), EBeginWork(2, None, 3), 5)
    ensures r.state.Some? && r.wake.None? && r.stop.None? && r.tail.NoTail? && r.turn.NoTurn?
    ensures r.probe == Some(ProbeSent(2, 2)) && r.state.value.revision == 3
    ensures var s := r.state.value;
            && s.phase.RunningBusy? && s.epoch == Some(2) && s.nextProbeAt == Some(10_003)
            && s.leases == map[3 := WorkLease(2, 5, 90_005)]
            && r.alarm.Some? && r.alarm.value <= 10_003
  {
    var m5 := Step(m, EReconcile, 4);
    assert RemoveExpiredLeases(m.state.value, 4).None?;
    r := Step(m5, EBeginWork(2, None, 3), 5);
    assert 10_003 in AlarmCandidates(r.state.value, 5);
  }

  lemma ProbeFailsUnheard(m: Machine)
    requires m.state.Some? && m.wake.None? && m.stop.None? && m.tail.NoTail? && m.turn.NoTurn?
    requires m.probe == Some(ProbeSent(2, 2)) && m.state.value.revision == 3
    requires var s := m.state.value;
             && s.phase.RunningBusy? && s.epoch == Some(2) && s.nextProbeAt == Some(10_003)
             && s.leases == map[3 := WorkLease(2, 5, 90_005)]
             && m.alarm.Some? && m.alarm.value <= 10_003
    ensures var m7 := Step(m, EAlarm(4, 5), 10_003);
            && SupersededProbeFails(m7, EProbeReply(Failed))
            && Forgotten(Step(Step(m7, EProbeReply(Failed), 10_004), EAlarmAfterProbe(6), 10_004))
  {
    NothingToRemove(m.state.value, 10_003);
    hide NextAlarmAt, RemoveExpiredLeases;
  }

  lemma UsedAfter(sys: System, t: Tick)
    ensures Next(sys, t).h.used == sys.h.used + Drawn(t.event) && Next(sys, t).clock == t.at
    ensures Next(sys, t).m == Step(sys.m, t.event, t.at)
  {
    hide Step, Heard, IsFence, WorkHappens, SendsProbe;
  }

  const Opening := [
    Tick(EInitialize(None), 1),
    Tick(EWake(1, 2), 2),
    Tick(ESendWake, 2),
    Tick(EWakeReply(Ok(Snapshot(Running, Some(3), true))), 3)]

  const Ending := [
    Tick(EReconcile, 4),
    Tick(EBeginWork(2, None, 3), 5),
    Tick(EAlarm(4, 5), 10_003),
    Tick(EProbeReply(Failed), 10_004),
    Tick(EAlarmAfterProbe(6), 10_004)]

  lemma OpeningRuns() returns (s: seq<System>)
    ensures |s| == 5 && s[0] == Start
    ensures forall k | 0 <= k < 4 :: CanTick(s[k], Opening[k]) && s[k + 1] == Next(s[k], Opening[k])
    ensures s[4].h.used == {1, 2} && s[4].clock == 3
    ensures s[4].m == Step(Step(Step(Step(Uninitialized, EInitialize(None), 1), EWake(1, 2), 2), ESendWake, 2),
                           EWakeReply(Ok(Snapshot(Running, Some(3), true))), 3)
  {
    hide Step, Next;
    var s1 := Next(Start, Opening[0]); UsedAfter(Start, Opening[0]);
    var s2 := Next(s1, Opening[1]); UsedAfter(s1, Opening[1]);
    var s3 := Next(s2, Opening[2]); UsedAfter(s2, Opening[2]);
    var s4 := Next(s3, Opening[3]); UsedAfter(s3, Opening[3]);
    s := [Start, s1, s2, s3, s4];
  }

  lemma EndingRuns(s4: System) returns (s: seq<System>)
    requires s4.h.used == {1, 2} && s4.clock == 3
    ensures |s| == 6 && s[0] == s4
    ensures forall k | 0 <= k < 5 :: CanTick(s[k], Ending[k]) && s[k + 1] == Next(s[k], Ending[k])
    ensures s[5].m == Step(Step(Step(Step(Step(s4.m, EReconcile, 4), EBeginWork(2, None, 3), 5), EAlarm(4, 5), 10_003),
                                EProbeReply(Failed), 10_004), EAlarmAfterProbe(6), 10_004)
  {
    hide Step, Next;
    var s5 := Next(s4, Ending[0]); UsedAfter(s4, Ending[0]);
    var s6 := Next(s5, Ending[1]); UsedAfter(s5, Ending[1]);
    var s7 := Next(s6, Ending[2]); UsedAfter(s6, Ending[2]);
    var s8 := Next(s7, Ending[3]); UsedAfter(s7, Ending[3]);
    var s9 := Next(s8, Ending[4]); UsedAfter(s8, Ending[4]);
    s := [s4, s5, s6, s7, s8, s9];
  }

  /** The alarm is lost in a reachable state: an alarm joins a probe that work has
      superseded, and the probe then fails. */
  lemma AnAlarmCanBeForgotten() returns (run: Run)
    ensures IsRun(run) && Forgotten(run.states[|run.ticks|].m)
    ensures forall k | 0 <= k < |run.ticks| :: !run.ticks[k].event.EMarkDeleted?
  {
    hide Step, Next, Forgotten, SupersededProbeFails, CanTick;
    var opening := OpeningRuns();
    var busy := WokenBusy();
    var working := WorkDuringProbe(busy);
    ProbeFailsUnheard(working);
    var ending := EndingRuns(opening[4]);
    run := Run(Opening + Ending, opening + ending[1..]);
    forall k | 0 <= k < 9
      ensures CanTick(run.states[k], run.ticks[k]) && run.states[k + 1] == Next(run.states[k], run.ticks[k])
    {
      if k < 4 {
        assert run.ticks[k] == Opening[k] && run.states[k] == opening[k] && run.states[k + 1] == opening[k + 1];
      } else {
        assert run.ticks[k] == Ending[k - 4] && run.states[k] == ending[k - 4] && run.states[k + 1] == ending[k - 3];
      }
    }
  }

  // --- a wake that is dropped ----------------------------------------------------

  ghost predicate Rising(m: Machine) {
    m.state.Some? && (InAdmission(m) || m.state.value.phase.Waking? || m.state.value.phase.ErrorWaking?)
  }

  /** When a wake owed after a stop gets its turn, the instance is up or on its way
      exactly if no other stop or deletion has begun and, if it is asleep, no older
      wake is in flight. Behind an older wake it stays asleep, and nothing is owed
      any more. */
  lemma OwedWakesBeginUnlessOneIsInFlight(run: Run, i: nat)
    requires IsRun(run) && i < |run.ticks| && run.ticks[i].event.EWakeAfterStop? && run.states[i].m.tail.OwesWake?
    ensures var m, r, e := run.states[i].m, run.states[i + 1].m, run.ticks[i].event;
            && !r.tail.OwesWake?
            && (Rising(r) <==>
                  && m.state.Some? && !InPhase(m, Quiescing) && !InPhase(m, Deleting)
                  && (InPhase(m, Sleeping) ==> m.wake.None?))
            && (InPhase(m, Sleeping) && m.wake.None? ==>
               InPhase(r, Waking) && r.wake == Some(WakeCall(e.op, e.epoch, false)))
            && (InPhase(m, Sleeping) && m.wake.Some? ==> r == m.(tail := AwaitsWake) && !WakeIsCurrent(r, r.wake.value))
  {
    hide NextAlarmAt, Remember;
    RunsAreSound(run, i);
    assert run.ticks[i] == run.ticks[i];
    hide IsRun, CallsSound, HistorySound;
  }

  ghost function Last(run: Run): System
    requires |run.states| > 0
  {
    run.states[|run.states| - 1]
  }

  lemma RunsHaveStates(run: Run)
    requires IsRun(run)
    ensures |run.states| == |run.ticks| + 1
  {
    hide Next, CanTick;
  }

  lemma Extend(run: Run, t: Tick) returns (r: Run)
    requires IsRun(run) && CanTick(Last(run), t)
    ensures IsRun(r) && r.ticks == run.ticks + [t] && run.states <= r.states
    ensures Last(r) == Next(Last(run), t) && Last(r).m == Step(Last(run).m, t.event, t.at) && Last(r).clock == t.at
    ensures Last(r).h.used == Last(run).h.used + Drawn(t.event)
  {
    hide Next, CanTick, Step;
    r := Run(run.ticks + [t], run.states + [Next(Last(run), t)]);
    forall k | 0 <= k < |r.ticks|
      ensures CanTick(r.states[k], r.ticks[k]) && r.states[k + 1] == Next(r.states[k], r.ticks[k])
    {
      if k < |run.ticks| {
        assert r.ticks[k] == run.ticks[k] && r.states[k] == run.states[k] && r.states[k + 1] == run.states[k + 1];
      }
    }
    UsedAfter(Last(run), t);
  }

  lemma AWakeIsStored() returns (run: Run)
    ensures IsRun(run) && Last(run).clock == 2 && Last(run).h.used == {1, 2}
    ensures var m := Last(run).m;
            WakeIsStored(m) && WakeIsCurrent(m, m.wake.value) && m.state.value.leases == map[]
    ensures forall t | t in run.ticks :: !Disturbs(t.event)
  {
    hide NextAlarmAt, Next;
    run := Run([], [Start]);
    run := Extend(run, Tick(EInitialize(None), 1));
    run := Extend(run, Tick(EWake(1, 2), 2));
    hide IsRun;
  }

  lemma AWakeIsSent() returns (run: Run)
    ensures IsRun(run) && Last(run).clock == 2 && Last(run).h.used == {1, 2}
    ensures var m := Last(run).m;
            && InPhase(m, Waking) && m.wake == Some(WakeCall(1, 2, true)) && m.stop.None? && m.tail.NoTail?
            && m.turn.NoTurn? && WakeIsCurrent(m, m.wake.value) && m.state.value.leases == map[] && m.probe.None?
  {
    hide NextAlarmAt, Next, IsRun;
    run := AWakeIsStored();
    run := Extend(run, Tick(ESendWake, 2));
  }

  ghost predicate WakeIsStored(m: Machine) {
    && InPhase(m, Waking) && m.wake == Some(WakeCall(1, 2, false)) && m.stop.None? && m.probe.None?
    && m.tail.NoTail? && m.turn.NoTurn?
  }

  ghost predicate StopIsAhead(m: Machine) {
    && InPhase(m, Quiescing) && m.wake == Some(WakeCall(1, 2, true)) && m.probe.None?
    && m.stop.Some? && StopIsCurrent(m, m.stop.value) && m.tail.NoTail? && m.turn.NoTurn?
  }

  /** A forced stop overtakes the wake: its request leaves first. */
  lemma TheStopLeavesFirst(m: Machine)
    requires WakeIsStored(m)
    ensures StopIsAhead(Step(Step(Step(m, EForceStop(3), 3), ESendStop, 3), ESendWake, 3))
  {
    hide NextAlarmAt;
    var stopping := Step(m, EForceStop(3), 3);
    assert InPhase(stopping, Quiescing) && stopping.state.value.operation == Some(Operation(3, ForceStop, 3));
    assert stopping == m.(state := stopping.state, alarm := stopping.alarm);
    hide BeginForceStop, Persist;
  }

  lemma AStopIsAhead() returns (run: Run)
    ensures IsRun(run) && Last(run).clock == 3 && Last(run).h.used == {1, 2, 3} && StopIsAhead(Last(run).m)
    ensures forall t | t in run.ticks :: !Disturbs(t.event)
  {
    run := AWakeIsStored();
    hide Step, Next, IsRun, StopIsCurrent, StopIsAhead;
    RunsHaveStates(run);
    TheStopLeavesFirst(Last(run).m);
    run := Extend(run, Tick(EForceStop(3), 3));
    run := Extend(run, Tick(ESendStop, 3));
    run := Extend(run, Tick(ESendWake, 3));
  }

  lemma TheStopEnds(m: Machine)
    requires StopIsAhead(m)
    ensures var r := Step(Step(m, EWake(4, 5), 4), EStopReply(Ok(Stopped)), 5);
            && InPhase(r, Sleeping) && r.alarm.None? && r.wake == m.wake && r.stop.None? && r.turn.NoTurn?
            && Step(r, EWakeAfterStop(6, 7), 5) == r.(tail := AwaitsWake)
  {
    hide AlarmCandidates;
    var asked := Step(m, EWake(4, 5), 4);
    assert InPhase(asked, Quiescing) && asked.state.value.wakeAfterStop && asked.stop == m.stop && asked.wake == m.wake;
    var slept := Step(asked, EStopReply(Ok(Stopped)), 5);
    assert InPhase(slept, Sleeping) && slept.alarm.None? && slept.tail.OwesWake? && slept.wake == m.wake;
  }

  lemma TheOldWakeFails(m: Machine)
    requires InPhase(m, Sleeping) && m.wake.Some? && m.tail.AwaitsWake? && m.turn.NoTurn?
    ensures Step(m, EWakeReply(Failed), 6) == m.(wake := None, tail := NoTail)
  {}

  /** A forced stop comes between the intent of a wake and its request, so that the
      request travels behind the stop. A wake is asked for during the stop. The stop
      ends, the owed wake joins the older one, and when that fails the instance stays
      asleep with nothing left that would wake it. */
  lemma AnOwedWakeCanBeDropped() returns (run: Run, i: nat)
    ensures IsRun(run) && i < |run.ticks|
    ensures InPhase(run.states[i].m, Quiescing) && run.ticks[i].event.EWake?
    ensures exists t | t in run.ticks :: t.event.EWakeAfterStop?
    ensures var m := run.states[|run.ticks|].m;
            InPhase(m, Sleeping) && m.alarm.None? && m.wake.None? && m.stop.None? && m.tail.NoTail? && m.turn.NoTurn?
  {
    run := AStopIsAhead();
    hide Step, Next, StopIsCurrent;
    TheStopEnds(Last(run).m);
    i := |run.ticks|;
    run := Extend(run, Tick(EWake(4, 5), 4));
    run := Extend(run, Tick(EStopReply(Ok(Stopped)), 5));
    run := Extend(run, Tick(EWakeAfterStop(6, 7), 5));
    TheOldWakeFails(Last(run).m);
    assert Tick(EWakeAfterStop(6, 7), 5) in run.ticks;
    run := Extend(run, Tick(EWakeReply(Failed), 6));
  }

  // --- a forced stop that is lost ------------------------------------------------

  ghost predicate Disturbs(e: Event) {
    e.EReconcile? || e.EMarkDeleted? || e.EReload?
  }

  lemma ForcedAndJoined(m: Machine, op: OperationId, a: OperationId, b: Epoch, answer: Result<Snapshot>, now: int)
    returns (due: int)
    requires StopsBehindAStop(m, EForceStop(op))
    requires m.tail.AwaitsWake? && m.wake.Some? && m.probe.None? && m.stop.None? && m.turn.NoTurn?
    ensures due >= now
    ensures var r := Step(Step(m, EForceStop(op), now), ESendStop, now);
            && r.stop.None? && Forgotten(Step(Step(r, EAlarm(a, b), due), EWakeReply(answer), due))
  {
    var stopping := Step(m, EForceStop(op), now);
    PersistReschedules(stopping, now);
    hide NextAlarmAt;
    assert InPhase(stopping, Quiescing) && stopping == m.(state := stopping.state, alarm := stopping.alarm);
    assert Persist(stopping, now) == stopping;
    due := stopping.alarm.value;
    assert Step(stopping, ESendStop, now) == stopping;
    assert Step(stopping, EAlarm(a, b), due) == stopping.(alarm := None, turn := AwaitingStop);
  }

  /** In whatever run an answered stop waits for its owed wake while nobody else is
      at work, a forced stop that begins then can be lost: it joins the old stop, so
      does its alarm, and whatever the wake is answered, nothing is left. */
  lemma ForcedStopsBehindAStopCanBeLost(before: Run, op: OperationId, a: OperationId, b: Epoch,
      answer: Result<Snapshot>) returns (run: Run)
    requires IsRun(before) && {op, a, b} !! Last(before).h.used && op != a && a != b && op != b
    requires StopsBehindAStop(Last(before).m, EForceStop(op))
    requires var m := Last(before).m;
             m.tail.AwaitsWake? && m.wake.Some? && m.probe.None? && m.stop.None? && m.turn.NoTurn?
    ensures IsRun(run) && before.ticks < run.ticks && run.ticks[|before.ticks|].event == EForceStop(op)
    ensures forall k | |before.ticks| <= k < |run.ticks| :: !Disturbs(run.ticks[k].event)
    ensures before.states <= run.states && Forgotten(Last(run).m)
  {
    hide Step, Next, IsRun, StopsBehindAStop, Forgotten;
    RunsHaveStates(before);
    var now := Last(before).clock;
    var due := ForcedAndJoined(Last(before).m, op, a, b, answer, now);
    run := Extend(before, Tick(EForceStop(op), now));
    run := Extend(run, Tick(ESendStop, now));
    run := Extend(run, Tick(EAlarm(a, b), due));
    run := Extend(run, Tick(EWakeReply(answer), due));
  }

  ghost predicate OwedWakeIsInFlight(m: Machine) {
    && InPhase(m, Waking) && m.tail.AwaitsWake? && m.wake.Some? && m.probe.None? && m.stop.None? && m.turn.NoTurn?
  }

  lemma TheOwedWakeBegins(m: Machine)
    requires StopIsAhead(m)
    ensures OwedWakeIsInFlight(Step(Step(Step(Step(m, EWakeReply(Failed), 4), EWake(4, 5), 4),
                                         EStopReply(Ok(Stopped)), 5), EWakeAfterStop(6, 7), 5))
  {
    hide NextAlarmAt;
    var failed := Step(m, EWakeReply(Failed), 4);
    assert failed == m.(wake := None);
    var asked := Step(failed, EWake(4, 5), 4);
    assert InPhase(asked, Quiescing) && asked.state.value.wakeAfterStop && asked.wake.None?;
    assert asked == failed.(state := asked.state, alarm := asked.alarm) && StopIsCurrent(asked, asked.stop.value);
    var slept := Step(asked, EStopReply(Ok(Stopped)), 5);
    assert InPhase(slept, Sleeping) && slept.tail.OwesWake? && slept.wake.None? && slept.stop.None?;
    assert slept.probe.None? && slept.turn.NoTurn?;
  }

  lemma AnOwedWakeIsInFlight() returns (run: Run)
    ensures IsRun(run) && Last(run).h.used == {1, 2, 3, 4, 5, 6, 7} && OwedWakeIsInFlight(Last(run).m)
    ensures forall t | t in run.ticks :: !Disturbs(t.event)
  {
    hide Step, Next, IsRun, StopIsAhead, OwedWakeIsInFlight;
    run := AStopIsAhead();
    RunsHaveStates(run);
    TheOwedWakeBegins(Last(run).m);
    run := Extend(run, Tick(EWakeReply(Failed), 4));
    run := Extend(run, Tick(EWake(4, 5), 4));
    run := Extend(run, Tick(EStopReply(Ok(Stopped)), 5));
    run := Extend(run, Tick(EWakeAfterStop(6, 7), 5));
  }

  /** The alarm is lost without any reconciliation, deletion or reload: a forced stop
      begins while the owed wake of an earlier one is in flight. */
  lemma AForcedStopCanBeForgotten() returns (run: Run, i: nat)
    ensures IsRun(run) && i < |run.ticks| && StopsBehindAStop(run.states[i].m, run.ticks[i].event)
    ensures forall t | t in run.ticks :: !Disturbs(t.event)
    ensures Forgotten(run.states[|run.ticks|].m)
  {
    hide Next, CanTick, Forgotten, Disturbs;
    var before := AnOwedWakeIsInFlight();
    i := |before.ticks|;
    run := ForcedStopsBehindAStopCanBeLost(before, 8, 9, 10, Failed);
    assert run.states[i] == Last(before);
    forall t | t in run.ticks ensures !Disturbs(t.event) {
      var k :| 0 <= k < |run.ticks| && run.ticks[k] == t;
      if k < |before.ticks| { assert before.ticks[k] == t; }
    }
  }

  // --- a container that is never given up ----------------------------------------

  lemma APromptFailure(before: Run) returns (run: Run)
    requires IsRun(before) && Last(before).clock == 2
    requires var m := Last(before).m;
             && InPhase(m, Waking) && m.wake == Some(WakeCall(1, 2, true)) && m.turn.NoTurn? && m.probe.None?
             && WakeIsCurrent(m, m.wake.value) && m.state.value.leases == map[]
    ensures IsRun(run) && Last(run).clock == 4
    ensures FirstFailure(Last(run).m, EProbeReply(Failed)) && Last(run).m.turn.NoTurn?
  {
    hide NextAlarmAt, Next, IsRun;
    run := Extend(before, Tick(EWakeReply(Ok(Snapshot(Running, Some(3), true))), 3));
    NothingToRemove(Last(run).m.state.value, 4);
    run := Extend(run, Tick(EReconcile, 4));
  }

  /** Nobody waits for a probe, and the alarm is ten seconds away at least. */
  ghost predicate Unhurried(sys: System, since: int) {
    && Unanswered(sys.m, since) && sys.m.probe.None? && sys.m.turn.NoTurn?
    && sys.clock + BUSY_PROBE_INTERVAL_MS <= sys.m.alarm.value
  }

  /** After event `i` every event is undisturbed and perfectly timely, and the
      container is not given up. */
  ghost predicate NeverGivenUp(run: Run, i: nat)
    requires IsRun(run)
  {
    && i < |run.ticks| && FirstFailure(run.states[i].m, run.ticks[i].event)
    && (forall k {:trigger run.ticks[k]} | i < k < |run.ticks| ::
          && InPhase(run.states[k].m, ErrorRunning)
          && Undisturbed(run.states[k].m, run.ticks[k].event) && Timely(run.states[k], run.ticks[k], 0, 0))
  }

  lemma FailuresAreInTheRun(run: Run, i: nat)
    requires IsRun(run) && NeverGivenUp(run, i)
    ensures i < |run.ticks|
  {
    hide Next, CanTick, FirstFailure;
  }

  lemma AFirstFailure() returns (run: Run, i: nat)
    ensures IsRun(run) && NeverGivenUp(run, i) && Unhurried(Last(run), run.ticks[i].at)
    ensures Last(run).clock == run.ticks[i].at
  {
    hide Step, Next, FirstFailure;
    run := AWakeIsSent();
    run := APromptFailure(run);
    i := |run.ticks|;
    FirstFailureStartsTheClock(Last(run).m, EProbeReply(Failed), 5);
    run := Extend(run, Tick(EProbeReply(Failed), 5));
    hide IsRun;
  }

  /** A reconciliation a moment before the alarm sets it ten seconds back. */
  lemma PostponedOnce(before: Run, i: nat) returns (run: Run)
    requires IsRun(before) && NeverGivenUp(before, i) && Unhurried(Last(before), before.ticks[i].at)
    ensures IsRun(run) && NeverGivenUp(run, i) && run.ticks[i] == before.ticks[i]
    ensures Unhurried(Last(run), run.ticks[i].at) && Last(run).clock > Last(before).clock
  {
    hide Step, Next, IsRun, NeverGivenUp;
    RunsHaveStates(before);
    FailuresAreInTheRun(before, i);
    var since, m := before.ticks[i].at, Last(before).m;
    var due := m.alarm.value - 1;
    ReconcilingProbes(m, since, due);
    var probing := Extend(before, Tick(EReconcile, due));
    ProbesAreTimed(Last(before), Tick(EReconcile, due));
    OneMoreTick(before, probing, i, Tick(EReconcile, due));
    FailingPushesTheAlarm(Last(probing).m, Failed, since, due);
    run := Extend(probing, Tick(EProbeReply(Failed), due));
    OneMoreTick(probing, run, i, Tick(EProbeReply(Failed), due));
  }

  lemma OneMoreTick(before: Run, run: Run, i: nat, t: Tick)
    requires IsRun(before) && IsRun(run) && NeverGivenUp(before, i)
    requires run.ticks == before.ticks + [t] && before.states <= run.states
    requires var sys := Last(before);
             InPhase(sys.m, ErrorRunning) && Undisturbed(sys.m, t.event) && Timely(sys, t, 0, 0)
    ensures NeverGivenUp(run, i) && run.ticks[i] == before.ticks[i]
  {
    hide Step, Next, CanTick, FirstFailure, Undisturbed, Timely, InPhase;
    forall k | 0 <= k < |run.ticks|
      ensures run.states[k] == before.states[k] && (k < |before.ticks| ==> run.ticks[k] == before.ticks[k])
    {}
  }

  /** Every probe fails at once and every alarm is on time, but reconciliations
      whose probes fail keep setting the alarm back: however far the clock goes, the
      container is not given up. */
  lemma {:induction false} ReconciliationsPostponeForever(horizon: nat) returns (run: Run, i: nat)
    ensures IsRun(run) && NeverGivenUp(run, i)
    ensures InPhase(Last(run).m, ErrorRunning) && Last(run).clock >= run.ticks[i].at + horizon
    ensures Unhurried(Last(run), run.ticks[i].at)
  {
    if horizon == 0 {
      run, i := AFirstFailure();
    } else {
      run, i := ReconciliationsPostponeForever(horizon - 1);
      run := PostponedOnce(run, i);
    }
    hide IsRun, NeverGivenUp;
  }
}
