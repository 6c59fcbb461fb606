/** A container that has stopped answering is stopped within an hour and a minute,
    unless failing reconciliations keep its alarm away. */
module CoordinatorGivesUp {
  import opened Wrappers
  import opened LifecycleState
  import opened CoordinatorSteps
  import opened CoordinatorInvariant
  import opened CoordinatorLaws
  import opened CoordinatorRuns
  import opened CoordinatorAlarms

  /** No probe has been answered since `since`, no work is held, and the alarm
      handler is at rest or waits for a probe. */
  ghost predicate Unanswered(m: Machine, since: int) {
    && m.state.Some?
    && var s := m.state.value;
    && s.phase.ErrorRunning?
    && s.epoch.Some?
    && s.leases == map[]
    && s.idleCandidateSince.None? && s.idleDeadlineAt.None?
    && s.probeFailingSince == Some(since)
    && s.nextProbeAt.Some?
    && (m.probe.Some? ==> ProbeIsCurrent(m, m.probe.value))
    && (m.turn.NoTurn? || m.turn.AwaitingProbe?)
    && (m.turn.NoTurn? || m.probe.None? ==> m.alarm.Some?)
  }

  /** The stop the policy begins by itself is the forced one. */
  ghost predicate GivenUp(m: Machine) {
    && InPhase(m, Quiescing)
    && m.state.value.operation.Some?
    && m.state.value.operation.value.kind.ForceStop?
  }

  /** The probe failed, or came back not knowing. */
  predicate NoAnswer(answer: Result<Snapshot>) {
    answer.Ok? ==> answer.value.execution.Unknown?
  }

  /** No answer, no work admitted, no activity reported, no stop and no deletion.
      Wakes, reconciliations, reloads and every call that is refused may come. */
  ghost predicate Undisturbed(m: Machine, e: Event) {
    match e
    case EProbeReply(answer) => NoAnswer(answer)
    case EBeginWork(epoch, _, _) => m.state.Some? && !Admits(m.state.value, epoch)
    case EObserve(epoch, _) => m.state.Some? && !Admits(m.state.value, epoch)
    case EForceStop(_) => false
    case EBeginDelete => false
    case EMarkDeleted => false
    case _ => true
  }

  /** The alarm handler looks at the probe it waited for an hour too late. */
  ghost predicate GivesUp(m: Machine, e: Event, since: int, now: int) {
    && e.EAlarmAfterProbe? && m.turn.AwaitingProbe? && m.probe.None?
    && now - since >= MAX_PROBE_FAILURE_WINDOW_MS
  }

  // --- one event -----------------------------------------------------------------

  lemma NoLeasesNoExpiry(s: State, now: int)
    requires s.leases == map[]
    ensures RemoveExpiredLeases(s, now).None? && ActiveLeases(s, now) == {}
  {
    NothingToRemove(s, now);
  }

  lemma AlarmAtNextProbe(s: State, now: int)
    requires s.phase.ErrorRunning? && s.leases == map[] && s.nextProbeAt.Some? && s.nextProbeAt.value >= now
    ensures NextAlarmAt(s, now) == s.nextProbeAt
  {
    NoLeasesNoExpiry(s, now);
    assert s.nextProbeAt.value in AlarmCandidates(s, now);
    assert forall c | c in AlarmCandidates(s, now) :: c == s.nextProbeAt.value;
  }

  lemma OtherEventsPass(m: Machine, e: Event, since: int, now: int)
    requires Unanswered(m, since) && Undisturbed(m, e)
    requires !e.EReconcile? && !e.EProbeReply? && !e.EAlarm? && !e.EAlarmAfterProbe? && !e.EReload?
    ensures Step(m, e, now) ==
              m.(wake := Step(m, e, now).wake, stop := Step(m, e, now).stop, tail := Step(m, e, now).tail)
  {
    hide NextAlarmAt, ApplyExecutionSnapshot;
  }

  lemma ReconcilingProbes(m: Machine, since: int, now: int)
    requires Unanswered(m, since)
    ensures Step(m, EReconcile, now) ==
            if m.probe.Some? then m else m.(probe := Some(ProbeSent(m.state.value.revision, m.state.value.epoch.value)))
  {
    NoLeasesNoExpiry(m.state.value, now);
    hide NextAlarmAt, RemoveExpiredLeases;
  }

  /** A failure pushes the next probe, and with it the alarm, into the future. */
  lemma FailingPushesTheAlarm(m: Machine, answer: Result<Snapshot>, since: int, now: int)
    requires Unanswered(m, since) && m.probe.Some? && NoAnswer(answer)
    ensures var r := Step(m, EProbeReply(answer), now);
            && Unanswered(r, since) && r.probe.None? && r.turn == m.turn
            && r.alarm == r.state.value.nextProbeAt
            && now + BUSY_PROBE_INTERVAL_MS <= r.alarm.value <= now + A_MINUTE
  {
    hide NextAlarmAt, RemoveExpiredLeases;
    var s := ApplyUnknownActivity(m.state.value, now);
    AlarmAtNextProbe(s, now);
  }

  lemma AlarmProbesOrWaits(m: Machine, op: OperationId, epoch: Epoch, since: int, now: int)
    requires Unanswered(m, since)
    ensures var r := Step(m, EAlarm(op, epoch), now);
            || r == m
            || (m.turn.NoTurn? && m.alarm.value <= now && r == m.(alarm := m.state.value.nextProbeAt)
               && now < r.alarm.value)
            || (&& m.turn.NoTurn? && m.alarm.value <= now
                && r == m.(alarm := None, turn := AwaitingProbe, probe := r.probe)
                && r.probe == (if m.probe.Some? then m.probe
                               else Some(ProbeSent(m.state.value.revision, m.state.value.epoch.value))))
  {
    hide NextAlarmAt, RemoveExpiredLeases, ActiveLeases, ProbeIsCurrent;
    NoLeasesNoExpiry(m.state.value, now);
    if m.state.value.nextProbeAt.value >= now { AlarmAtNextProbe(m.state.value, now); }
  }

  lemma AfterProbe(m: Machine, op: OperationId, since: int, now: int)
    requires Unanswered(m, since)
    ensures var e := EAlarmAfterProbe(op); var r := Step(m, e, now);
            if GivesUp(m, e, since, now) then GivenUp(r)
            else r == (if m.turn.AwaitingProbe? && m.probe.None? then m.(turn := NoTurn) else m)
  {
    hide NextAlarmAt;
  }

  /** Exactly that step gives the container up; until then it stays unanswered
      since the same instant, whatever calls and reloads come. */
  lemma GivesUpExactlyWhen(m: Machine, e: Event, since: int, now: int)
    requires Unanswered(m, since) && Undisturbed(m, e)
    ensures GivenUp(Step(m, e, now)) <==> GivesUp(m, e, since, now)
    ensures !GivesUp(m, e, since, now) ==> Unanswered(Step(m, e, now), since)
  {
    hide Step;
    match e
    case EReconcile => ReconcilingProbes(m, since, now);
    case EProbeReply(answer) =>
      if m.probe.Some? { FailingPushesTheAlarm(m, answer, since, now); } else { UnaskedReplies(m, e, now); }
    case EAlarm(op, epoch) => AlarmProbesOrWaits(m, op, epoch, since, now);
    case EAlarmAfterProbe(op) => AfterProbe(m, op, since, now);
    case EReload => Reloading(m, now);
    case _ => OtherEventsPass(m, e, since, now);
  }

  lemma UnaskedReplies(m: Machine, e: Event, now: int)
    requires e.EProbeReply? && m.probe.None?
    ensures Step(m, e, now) == m
  {}

  lemma Reloading(m: Machine, now: int)
    requires InAdmission(m)
    ensures Step(m, EReload, now) == Machine(m.state, Some(m.alarm.GetOr(now)), None, None, None, NoTurn, NoTail)
  {}

  // --- in time -------------------------------------------------------------------

  /** The platform fires an alarm at most `late` after its instant. Within `slowest`
      of being sent a probe has failed, and the alarm handler that waited for it has
      gone on; until then its probe counts as in progress, so none begins. */
  ghost predicate Timely(sys: System, t: Tick, late: nat, slowest: nat) {
    var m := sys.m;
    && (m.turn.NoTurn? && m.alarm.Some? ==> t.at <= m.alarm.value + late)
    && (m.probe.Some? || m.turn.AwaitingProbe? ==> t.at <= sys.h.probeSentAt + slowest)
    && (m.turn.AwaitingProbe? && m.probe.None? ==> !t.event.EReconcile?)
  }

  /** A failure the alarm handler does not wait for sets the alarm anew, and a
      reload forgets the probe it waits for. */
  ghost predicate Postpones(m: Machine, e: Event) {
    e.EReload? || (e.EProbeReply? && m.probe.Some? && m.turn.NoTurn?)
  }

  /** Where a coordinator is that nobody has kept from its alarm after `quiet`. */
  ghost predicate OnTime(sys: System, since: int, quiet: int, late: nat, slowest: nat) {
    && Unanswered(sys.m, since)
    && var m, last := sys.m, quiet + A_MINUTE + late;
    && sys.clock <= last + slowest
    && sys.h.probeSentAt <= sys.clock
    && (m.turn.NoTurn? ==> sys.clock <= last)
    && (m.turn.NoTurn? || m.probe.Some? ==>
          && m.state.value.nextProbeAt.value <= quiet + A_MINUTE
          && (m.alarm.Some? ==> m.alarm.value <= quiet + A_MINUTE))
    && (m.turn.AwaitingProbe? ==> sys.h.probeSentAt <= last)
    && (m.turn.AwaitingProbe? && m.probe.None? ==>
          m.alarm == m.state.value.nextProbeAt && m.alarm.value <= sys.clock + A_MINUTE)
  }

  lemma ProbesAreTimed(sys: System, t: Tick)
    ensures var r := Next(sys, t);
            && r.m == Step(sys.m, t.event, t.at) && r.clock == t.at
            && r.h.probeSentAt == if SendsProbe(sys.m, r.m) then t.at else sys.h.probeSentAt
  {
    hide Step, Heard;
  }

  lemma {:induction false} ProbesWereSent(run: Run, i: nat)
    requires IsRun(run) && i <= |run.ticks|
    ensures run.states[i].h.probeSentAt <= run.states[i].clock
  {
    hide Step, Next, CanTick;
    if i > 0 {
      ProbesWereSent(run, i - 1);
      TickOf(run, i - 1);
      ProbesAreTimed(run.states[i - 1], run.ticks[i - 1]);
    }
  }

  lemma TickOf(run: Run, k: nat)
    requires IsRun(run) && k < |run.ticks|
    ensures |run.states| == |run.ticks| + 1
    ensures run.states[k].clock <= run.ticks[k].at && run.states[k + 1] == Next(run.states[k], run.ticks[k])
  {
    hide Step, Next;
    assert run.ticks[k] == run.ticks[k];
  }

  lemma TicksStayOnTime(sys: System, t: Tick, since: int, quiet: int, late: nat, slowest: nat)
    requires OnTime(sys, since, quiet, late, slowest) && since + MAX_PROBE_FAILURE_WINDOW_MS <= quiet
    requires CanTick(sys, t) && Undisturbed(sys.m, t.event) && Timely(sys, t, late, slowest)
    requires Postpones(sys.m, t.event) ==> t.at <= quiet
    ensures if GivesUp(sys.m, t.event, since, t.at)
            then GivenUp(Next(sys, t).m)
              && since + MAX_PROBE_FAILURE_WINDOW_MS <= t.at <= quiet + A_MINUTE + late + slowest
            else OnTime(Next(sys, t), since, quiet, late, slowest)
  {
    hide Step, Next;
    var m, e, now := sys.m, t.event, t.at;
    ProbesAreTimed(sys, t);
    GivesUpExactlyWhen(m, e, since, now);
    match e
    case EReconcile => ReconcilingProbes(m, since, now);
    case EProbeReply(answer) =>
      if m.probe.Some? { FailingPushesTheAlarm(m, answer, since, now); } else { UnaskedReplies(m, e, now); }
    case EAlarm(op, epoch) => AlarmProbesOrWaits(m, op, epoch, since, now);
    case EAlarmAfterProbe(op) => AfterProbe(m, op, since, now);
    case EReload => Reloading(m, now);
    case _ => OtherEventsPass(m, e, since, now);
  }

  // --- over runs -----------------------------------------------------------------

  /** The events from `i` to `j` are undisturbed and timely, and none postpones the
      alarm after `quiet`, for as long as the container is not given up. */
  ghost predicate LeftAlone(run: Run, i: nat, j: nat, quiet: int, late: nat, slowest: nat)
    requires IsRun(run) && i <= j <= |run.ticks|
  {
    forall k {:trigger run.ticks[k]} | i <= k < j && InPhase(run.states[k].m, ErrorRunning) ::
      && Undisturbed(run.states[k].m, run.ticks[k].event) && Timely(run.states[k], run.ticks[k], late, slowest)
      && (Postpones(run.states[k].m, run.ticks[k].event) ==> run.ticks[k].at <= quiet)
  }

  /** Given up no sooner than an hour after the first failure, and no later than a
      minute, one delay and one latency after the hour or the last postponement. */
  ghost predicate GivenUpBetween(run: Run, i: nat, j: nat, since: int, quiet: int, late: nat, slowest: nat)
    requires IsRun(run) && i <= j <= |run.ticks|
  {
    exists k {:trigger run.states[k]} :: i < k <= j && GivenUp(run.states[k].m)
      && since + MAX_PROBE_FAILURE_WINDOW_MS <= run.states[k].clock <= quiet + A_MINUTE + late + slowest
  }

  lemma {:induction false} GivesUpInTime(run: Run, i: nat, j: nat, since: int, quiet: int, late: nat, slowest: nat)
    requires IsRun(run) && i <= j <= |run.ticks|
    requires OnTime(run.states[i], since, quiet, late, slowest) && since + MAX_PROBE_FAILURE_WINDOW_MS <= quiet
    requires LeftAlone(run, i, j, quiet, late, slowest)
    ensures OnTime(run.states[j], since, quiet, late, slowest) || GivenUpBetween(run, i, j, since, quiet, late, slowest)
  {
    hide LeftAlone, OnTime, Undisturbed, Timely, Postpones, GivenUp, Next, CanTick, GivesUp, GivenUpBetween, InPhase;
    if i < j {
      TickOf(run, j - 1);
      hide IsRun;
      LeftAloneAt(run, i, j, quiet, late, slowest);
      var sys, t := run.states[j - 1], run.ticks[j - 1];
      GivesUpInTime(run, i, j - 1, since, quiet, late, slowest);
      if GivenUpBetween(run, i, j - 1, since, quiet, late, slowest) {
        GivenUpEarlier(run, i, j, since, quiet, late, slowest);
      } else {
        OnTimeIsErrorRunning(sys, since, quiet, late, slowest);
        TicksStayOnTime(sys, t, since, quiet, late, slowest);
        if GivesUp(sys.m, t.event, since, t.at) { GivenUpNow(run, i, j, since, quiet, late, slowest); }
      }
    }
  }

  lemma LeftAloneAt(run: Run, i: nat, j: nat, quiet: int, late: nat, slowest: nat)
    requires IsRun(run) && i < j <= |run.ticks| && LeftAlone(run, i, j, quiet, late, slowest)
    ensures LeftAlone(run, i, j - 1, quiet, late, slowest)
    ensures var sys, t := run.states[j - 1], run.ticks[j - 1];
            && CanTick(sys, t) && run.states[j] == Next(sys, t)
            && (InPhase(sys.m, ErrorRunning) ==>
                  Undisturbed(sys.m, t.event) && Timely(sys, t, late, slowest)
                    && (Postpones(sys.m, t.event) ==> t.at <= quiet))
  {
    hide Undisturbed, Timely, Postpones, Next, CanTick, InPhase;
    assert run.ticks[j - 1] == run.ticks[j - 1];
  }

  lemma GivenUpEarlier(run: Run, i: nat, j: nat, since: int, quiet: int, late: nat, slowest: nat)
    requires IsRun(run) && i < j <= |run.ticks| && GivenUpBetween(run, i, j - 1, since, quiet, late, slowest)
    ensures GivenUpBetween(run, i, j, since, quiet, late, slowest)
  {
    hide GivenUp, Next, CanTick;
  }

  lemma GivenUpNow(run: Run, i: nat, j: nat, since: int, quiet: int, late: nat, slowest: nat)
    requires IsRun(run) && i < j <= |run.ticks| && run.states[j] == Next(run.states[j - 1], run.ticks[j - 1])
    requires GivenUp(run.states[j].m)
    requires since + MAX_PROBE_FAILURE_WINDOW_MS <= run.ticks[j - 1].at <= quiet + A_MINUTE + late + slowest
    ensures GivenUpBetween(run, i, j, since, quiet, late, slowest)
  {
    NextClock(run.states[j - 1], run.ticks[j - 1]);
    hide GivenUp, Next, CanTick;
  }

  lemma OnTimeIsErrorRunning(sys: System, since: int, quiet: int, late: nat, slowest: nat)
    requires OnTime(sys, since, quiet, late, slowest)
    ensures InPhase(sys.m, ErrorRunning) && sys.clock <= quiet + A_MINUTE + late + slowest
  {}

  lemma NextClock(sys: System, t: Tick)
    ensures Next(sys, t).clock == t.at
  {
    hide Step, Remember;
  }

  /** The first probe that fails, with no work held. */
  ghost predicate FirstFailure(m: Machine, e: Event) {
    && e.EProbeReply? && NoAnswer(e.answer)
    && m.state.Some? && m.state.value.leases == map[] && m.state.value.probeFailingSince.None?
    && m.probe.Some? && ProbeIsCurrent(m, m.probe.value)
    && (m.turn.NoTurn? || m.turn.AwaitingProbe?)
  }

  /** It starts the clock. */
  lemma FirstFailureStartsTheClock(m: Machine, e: Event, at: int)
    requires FirstFailure(m, e)
    ensures var r := Step(m, e, at);
            && Unanswered(r, at) && r.probe.None? && r.turn == m.turn
            && r.alarm == r.state.value.nextProbeAt && at + BUSY_PROBE_INTERVAL_MS <= r.alarm.value <= at + A_MINUTE
  {
    hide NextAlarmAt;
    var s := ApplyUnknownActivity(m.state.value, at);
    AlarmAtNextProbe(s, at);
    var failed := Step(m, e, at);
    assert failed.state == Some(s) && failed.alarm == s.nextProbeAt;
  }

  /** In every run: from the first failed probe on, if every probe fails within
      `slowest`, alarms are at most `late`, no work is admitted, and after `quiet`
      nobody else's probe fails and the object is not reloaded, then once the clock
      has passed `quiet`, a minute, `late` and `slowest` a forced stop has begun,
      between the hour and then. With `quiet` at the hour itself that is 3,660,000 ms
      after the first failure, and one delay and one latency. */
  lemma UnreachableContainersAreStopped(run: Run, i: nat, j: nat, quiet: int, late: nat, slowest: nat)
    requires IsRun(run) && i < j <= |run.ticks| && FirstFailure(run.states[i].m, run.ticks[i].event)
    requires run.ticks[i].at + MAX_PROBE_FAILURE_WINDOW_MS <= quiet
    requires LeftAlone(run, i + 1, j, quiet, late, slowest)
    requires run.states[j].clock > quiet + A_MINUTE + late + slowest
    ensures GivenUpBetween(run, i + 1, j, run.ticks[i].at, quiet, late, slowest)
  {
    var since := run.ticks[i].at;
    FirstFailureStartsTheClock(run.states[i].m, run.ticks[i].event, since);
    ProbesWereSent(run, i + 1);
    assert OnTime(run.states[i + 1], since, quiet, late, slowest) by {
      ProbesAreTimed(run.states[i], run.ticks[i]);
      hide Step, Next;
    }
    hide OnTime, Step, Next;
    GivesUpInTime(run, i + 1, j, since, quiet, late, slowest);
    if OnTime(run.states[j], since, quiet, late, slowest) {
      OnTimeIsErrorRunning(run.states[j], since, quiet, late, slowest);
    }
  }

  /** In every run in which nobody reconciles: from the first failed probe on, if
      every probe fails within `slowest`, alarms are at most `late`, no work is
      admitted, and the object is not reloaded after the hour, then a forced stop
      begins between 3,600,000 ms and 3,660,000 ms, `late` and `slowest` after the
      first failure. */
  lemma WithoutReconciliationsContainersAreStopped(run: Run, i: nat, j: nat, late: nat, slowest: nat)
    requires IsRun(run) && i < j <= |run.ticks| && FirstFailure(run.states[i].m, run.ticks[i].event)
    requires forall k {:trigger run.ticks[k]} | 0 <= k < j :: !run.ticks[k].event.EReconcile?
    requires forall k {:trigger run.ticks[k]} | i < k < j && InPhase(run.states[k].m, ErrorRunning) ::
               && Undisturbed(run.states[k].m, run.ticks[k].event) && Timely(run.states[k], run.ticks[k], late, slowest)
               && (run.ticks[k].event.EReload? ==> run.ticks[k].at <= run.ticks[i].at + MAX_PROBE_FAILURE_WINDOW_MS)
    requires run.states[j].clock > run.ticks[i].at + MAX_PROBE_FAILURE_WINDOW_MS + A_MINUTE + late + slowest
    ensures GivenUpBetween(run, i + 1, j, run.ticks[i].at, run.ticks[i].at + MAX_PROBE_FAILURE_WINDOW_MS, late, slowest)
  {
    var since := run.ticks[i].at;
    hide Next, CanTick, FirstFailure, Undisturbed, Timely, InPhase, GivenUpBetween;
    forall k {:trigger run.ticks[k]} | i + 1 <= k < j && InPhase(run.states[k].m, ErrorRunning)
      ensures Postpones(run.states[k].m, run.ticks[k].event) ==> run.ticks[k].at <= since + MAX_PROBE_FAILURE_WINDOW_MS
    {
      ProbesAreTheAlarms(run, k);
    }
    UnreachableContainersAreStopped(run, i, j, since + MAX_PROBE_FAILURE_WINDOW_MS, late, slowest);
  }
}
