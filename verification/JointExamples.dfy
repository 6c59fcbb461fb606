/** A run in which the coordinator admits an epoch the gate is not running. A wake
    stores its intent, yields, and sends its request without looking again; a
    forced stop in that yield leaves the request behind the stop. */
module JointExamples {
  import opened Wrappers
  import opened LifecycleState
  import opened CoordinatorSteps
  import opened CoordinatorLaws
  import R = CoordinatorRuns
  import E = CoordinatorExamples
  import S = SandboxSteps
  import opened JointProtocol

  const Opening := [
    R.Tick(EInitialize(None), 1),
    R.Tick(EWake(1, 2), 2),
    R.Tick(ESendWake, 2),
    R.Tick(EWakeReply(Failed), 3),
    R.Tick(EAlarm(4, 5), 10_003),
    R.Tick(EForceStop(6), 10_004),
    R.Tick(ESendStop, 10_004),
    R.Tick(ESendWake, 10_004),
    R.Tick(EStopReply(Ok(FailedRunning)), 10_006)]

  /** The coordinator after the first `n` of those events. */
  ghost function After(n: nat): Machine
    requires n <= |Opening|
  {
    if n == 0 then Uninitialized else Step(After(n - 1), Opening[n - 1].event, Opening[n - 1].at)
  }

  const WakeTwo := WakeCall(1, 2, true)
  const UnsentWakeTwo := WakeCall(1, 2, false)
  const StopTwo := StopCall(Operation(6, ForceStop, 10_004), Some(2), 2)

  lemma Unfold(n: nat)
    requires 0 < n <= |Opening|
    ensures After(n) == Step(After(n - 1), Opening[n - 1].event, Opening[n - 1].at)
  {
    hide Step;
  }

  lemma BeforeAnything()
    ensures After(0) == Uninitialized
  {
    hide Step;
  }

  /** The first wake fails; its alarm will come back to it. */
  lemma WakeFailsOnce()
    ensures After(1).wake.None? && After(1).stop.None? && After(1).tail.NoTail?
    ensures After(2).wake == Some(UnsentWakeTwo) && After(2).stop.None? && WakeIsCurrent(After(2), UnsentWakeTwo)
              && After(2).tail.NoTail?
    ensures After(3).wake == Some(WakeTwo) && After(3).stop.None? && After(3).tail.NoTail?
    ensures var m := After(4);
            && m.wake.None? && m.stop.None? && m.tail.NoTail? && m.turn.NoTurn?
            && m.alarm.Some? && m.alarm.value <= 10_003
            && InPhase(m, ErrorWaking) && m.state.value.epoch == Some(2) && m.state.value.revision == 1
            && m.state.value.operation == Some(Operation(1, WakeOperation, 2))
  {
    hide NextAlarmAt, After;
    BeforeAnything();
    Unfold(1);
    Unfold(2);
    Unfold(3);
    Unfold(4);
    assert After(4).alarm == NextAlarmAt(After(4).state.value, 3);
    AlarmIsSoon(After(4).state.value);
  }

  lemma AlarmIsSoon(s: State)
    requires s.phase.ErrorWaking? && s.nextProbeAt == Some(10_003)
    ensures NextAlarmAt(s, 3).Some? && NextAlarmAt(s, 3).value <= 10_003
  {
    assert 10_003 in AlarmCandidates(s, 3);
  }

  /** The alarm stores the intent to wake again; a forced stop arrives first. */
  lemma ForceStopComesFirst()
    ensures After(5).wake == Some(UnsentWakeTwo) && After(5).stop.None? && After(5).tail.NoTail?
    ensures var m := After(6);
            && m.wake == Some(UnsentWakeTwo) && m.stop.None? && m.tail.NoTail?
            && InPhase(m, Quiescing) && m.state.value.epoch == Some(2) && m.state.value.revision == 2
            && m.state.value.operation == Some(Operation(6, ForceStop, 10_004))
  {
    hide NextAlarmAt, After;
    WakeFailsOnce();
    Unfold(5);
    Unfold(6);
  }

  lemma TheWakeIsSentAllTheSame()
    ensures After(7).wake == Some(UnsentWakeTwo) && After(7).stop == Some(StopTwo)
              && !WakeIsCurrent(After(7), UnsentWakeTwo)
    ensures After(8).wake == Some(WakeTwo) && After(8).stop == Some(StopTwo)
    ensures After(9).wake == Some(WakeTwo) && After(9).stop.None?
    ensures After(9).state.Some? && Admits(After(9).state.value, 2)
  {
    hide NextAlarmAt, After;
    ForceStopComesFirst();
    Unfold(7);
    Unfold(8);
    Unfold(9);
  }

  // --- the world around it -----------------------------------------------------

  ghost function Last(run: Run): World
    requires |run.worlds| > 0
  {
    run.worlds[|run.worlds| - 1]
  }

  lemma Extend(run: Run, a: Action) returns (r: Run)
    requires IsRun(run) && Enabled(Last(run), a)
    ensures IsRun(r) && Last(r) == Next(Last(run), a)
  {
    hide Next, Enabled;
    r := Run(run.actions + [a], run.worlds + [Next(Last(run), a)]);
    forall k | 0 <= k < |r.actions|
      ensures Enabled(r.worlds[k], r.actions[k]) && r.worlds[k + 1] == Next(r.worlds[k], r.actions[k])
    {
      if k < |run.actions| {
        assert r.actions[k] == run.actions[k] && r.worlds[k] == run.worlds[k] && r.worlds[k + 1] == run.worlds[k + 1];
      }
    }
  }

  /** The coordinator has done `n` of its events, and drawn only these identifiers. */
  ghost predicate At(w: World, n: nat, used: set<nat>) {
    n <= |Opening| && w.c.m == After(n) && w.c.h.used == used && w.c.clock == (if n == 0 then 0 else Opening[n - 1].at)
  }

  lemma CoordinatorDoes(run: Run, n: nat, used: set<nat>) returns (r: Run)
    requires IsRun(run) && n < |Opening| && At(Last(run), n, used)
    requires R.CanTick(Last(run).c, Opening[n]) && Deliverable(Last(run), Opening[n].event)
    ensures IsRun(r) && Last(r) == Coordinated(Last(run), Opening[n])
    ensures At(Last(r), n + 1, used + Drawn(Opening[n].event))
  {
    hide Step, R.Next, R.CanTick, Deliverable;
    r := Extend(run, Coordinate(Opening[n]));
    E.UsedAfter(Last(run).c, Opening[n]);
  }

  lemma SandboxDoes(run: Run, a: Action) returns (r: Run)
    requires IsRun(run) && Enabled(Last(run), a) && !a.Coordinate?
    ensures IsRun(r) && Last(r) == Next(Last(run), a) && Last(r).c == Last(run).c
  {
    r := Extend(run, a);
  }

  /** What the rest of the world looks like. */
  ghost predicate Around(w: World, queue: seq<Call>, lastSeq: nat, wakeCall: Option<nat>, stopCall: Option<nat>,
                         replies: map<nat, S.Reply>, overtaken: set<Epoch>) {
    && w.executing.None? && w.queue == queue && w.lastSeq == lastSeq
    && w.wakeCall == wakeCall && w.stopCall == stopCall && w.replies == replies && w.overtaken == overtaken
  }

  const TheWake := S.WakeRequest(2)
  const TheStop := S.ForceStopRequest(Some(2), 6)

  lemma FirstWakeIsSent() returns (run: Run)
    ensures IsRun(run) && At(Last(run), 3, {1, 2}) && Last(run).s == S.NeverWritten
    ensures Around(Last(run), [Call(1, TheWake)], 1, Some(1), None, map[], {})
  {
    hide Step, R.Next, After, NoteStop, IsRun;
    BeforeAnything();
    WakeFailsOnce();
    run := Run([], [Start]);
    assert IsRun(run) by { Nothing(); }
    run := CoordinatorDoes(run, 0, {});
    run := CoordinatorDoes(run, 1, {});
    run := CoordinatorDoes(run, 2, {1, 2});
  }

  lemma Nothing()
    ensures IsRun(Run([], [Start]))
  {}

  /** The container starts, its server does not. */
  lemma FirstWakeBreaks(before: Run) returns (run: Run)
    requires IsRun(before) && At(Last(before), 3, {1, 2}) && Last(before).s == S.NeverWritten
    requires Around(Last(before), [Call(1, TheWake)], 1, Some(1), None, map[], {})
    ensures IsRun(run) && At(Last(run), 3, {1, 2})
              && Last(run).s == S.Local(S.Gate(S.GateSleeping, None, 1, None), true)
    ensures Around(Last(run), [], 1, Some(1), None, map[1 := S.Refused], {})
  {
    hide After, IsRun;
    run := SandboxDoes(before, SandboxBegins(true));
    run := SandboxDoes(run, SandboxAdvances(S.Done));
    run := SandboxDoes(run, SandboxAdvances(S.Done));
    run := SandboxDoes(run, SandboxAdvances(S.Broke));
  }

  lemma TheFailureArrives(before: Run) returns (run: Run)
    requires IsRun(before) && At(Last(before), 3, {1, 2})
    requires Around(Last(before), [], 1, Some(1), None, map[1 := S.Refused], {})
    ensures IsRun(run) && At(Last(run), 4, {1, 2}) && Last(run).s == Last(before).s
    ensures Around(Last(run), [], 1, None, None, map[1 := S.Refused], {})
  {
    hide Step, R.Next, After, NoteStop, IsRun;
    WakeFailsOnce();
    run := CoordinatorDoes(before, 3, {1, 2});
  }

  lemma TheWakeIsTriedAgain(before: Run) returns (run: Run)
    requires IsRun(before) && At(Last(before), 4, {1, 2})
    requires Around(Last(before), [], 1, None, None, map[1 := S.Refused], {})
    ensures IsRun(run) && At(Last(run), 6, {1, 2, 4, 5, 6}) && Last(run).s == Last(before).s
    ensures Around(Last(run), [], 1, None, None, map[1 := S.Refused], {})
  {
    hide Step, R.Next, After, NoteStop, IsRun;
    WakeFailsOnce();
    ForceStopComesFirst();
    run := CoordinatorDoes(before, 4, {1, 2});
    run := CoordinatorDoes(run, 5, {1, 2, 4, 5});
  }

  lemma TheStopOvertakesTheWake(before: Run) returns (run: Run)
    requires IsRun(before) && At(Last(before), 6, {1, 2, 4, 5, 6})
    requires Around(Last(before), [], 1, None, None, map[1 := S.Refused], {})
    ensures IsRun(run) && At(Last(run), 8, {1, 2, 4, 5, 6}) && Last(run).s == Last(before).s
    ensures Around(Last(run), [Call(2, TheStop), Call(3, TheWake)], 3, Some(3), Some(2), map[1 := S.Refused], {2})
  {
    hide Step, R.Next, After, NoteStop, IsRun;
    ForceStopComesFirst();
    TheWakeIsSentAllTheSame();
    run := CoordinatorDoes(before, 6, {1, 2, 4, 5, 6});
    run := CoordinatorDoes(run, 7, {1, 2, 4, 5, 6});
  }

  const StopExporting := S.Job(TheStop, S.StopExport, 2, Some(2))
  const Exporting := S.Local(S.Gate(S.GateCheckpointing, Some(2), 2, Some(6)), true)

  lemma TheStopDrains(before: Run) returns (run: Run)
    requires IsRun(before) && At(Last(before), 8, {1, 2, 4, 5, 6})
    requires Last(before).s == S.Local(S.Gate(S.GateSleeping, None, 1, None), true)
    requires Around(Last(before), [Call(2, TheStop), Call(3, TheWake)], 3, Some(3), Some(2), map[1 := S.Refused], {2})
    ensures IsRun(run) && At(Last(run), 8, {1, 2, 4, 5, 6}) && Last(run).s == Exporting
    ensures Last(run).executing == Some(Executing(2, StopExporting))
    ensures Around(Last(run).(executing := None), [Call(3, TheWake)], 3, Some(3), Some(2), map[1 := S.Refused], {2})
  {
    hide After, IsRun;
    run := SandboxDoes(before, SandboxBegins(true));
    run := SandboxDoes(run, SandboxAdvances(S.HostSays(true)));
    run := SandboxDoes(run, SandboxAdvances(S.Done));
  }

  /** The stop cannot persist the workspace and opens the gate again. */
  lemma TheStopFails(before: Run) returns (run: Run)
    requires IsRun(before) && At(Last(before), 8, {1, 2, 4, 5, 6}) && Last(before).s == Exporting
    requires Last(before).executing == Some(Executing(2, StopExporting))
    requires Around(Last(before).(executing := None), [Call(3, TheWake)], 3, Some(3), Some(2), map[1 := S.Refused], {2})
    ensures IsRun(run) && At(Last(run), 8, {1, 2, 4, 5, 6})
              && Last(run).s == S.Local(S.Gate(S.GateRunning, Some(2), 2, None), true)
    ensures Around(Last(run), [Call(3, TheWake)], 3, Some(3), Some(2),
                   map[1 := S.Refused, 2 := S.StopEnded(FailedRunning)], {2})
  {
    hide After, IsRun;
    run := SandboxDoes(before, SandboxAdvances(S.Done));
    run := SandboxDoes(run, SandboxAdvances(S.Broke));
    run := SandboxDoes(run, SandboxAdvances(S.HostSays(true)));
  }

  /** The coordinator admits an epoch although the gate is closed: its overtaken
      wake has found no container and shut the gate. */
  lemma AnOvertakenWakeClosesAnAdmittedGate() returns (run: Run)
    ensures IsRun(run)
    ensures var w := run.worlds[|run.actions|];
            && w.c.m.state.Some? && Admits(w.c.m.state.value, 2)
            && !S.IsRunningFor(w.s.gate, 2) && 2 in w.overtaken
  {
    hide After, R.Next, Step, NoteStop;
    run := FirstWakeIsSent();
    run := FirstWakeBreaks(run);
    run := TheFailureArrives(run);
    run := TheWakeIsTriedAgain(run);
    run := TheStopOvertakesTheWake(run);
    run := TheStopDrains(run);
    run := TheStopFails(run);
    TheWakeIsSentAllTheSame();
    run := CoordinatorDoes(run, 8, {1, 2, 4, 5, 6});
    run := SandboxDoes(run, SandboxBegins(true));
    run := SandboxDoes(run, SandboxAdvances(S.HostSays(false)));
  }
}
