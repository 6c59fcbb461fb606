/** An instance that is left alone goes to sleep: an idle stop begins exactly when it
    is due, and it is due in time. */
module CoordinatorIdles {
  import opened Wrappers
  import opened LifecycleState
  import opened CoordinatorSteps
  import opened CoordinatorInvariant
  import opened CoordinatorLaws
  import opened CoordinatorRuns
  import opened CoordinatorAlarms

  // --- when an idle stop begins ---------------------------------------------------

  /** The alarm handler comes to decide while the instance is idle, its deadline has
      passed by the instant the alarm fired at, and no lease was alive then. An alarm
      that finds a lease run out removes it first, which ends the idle window. */
  ghost predicate IdleStopIsDue(m: Machine, e: Event, now: int) {
    && m.state.Some?
    && var s := m.state.value;
    && s.phase.RunningIdle? && s.epoch.Some? && s.idleDeadlineAt.Some?
    && match e
       case EAlarm(_, _) =>
         && m.turn.NoTurn? && m.alarm.Some? && m.alarm.value <= now
         && s.idleDeadlineAt.value <= now && s.leases == map[]
       case EAlarmDecides(_) =>
         && m.turn.Deciding? && s.idleDeadlineAt.value <= m.turn.firedAt
         && forall id | id in s.leases :: s.leases[id].expiresAt <= m.turn.firedAt
       case _ => false
  }

  function FiredAt(m: Machine, now: int): int {
    if m.turn.Deciding? then m.turn.firedAt else now
  }

  ghost predicate BeginsIdleStop(m: Machine, r: Machine) {
    m.state.Some? && r.state.Some? && IdleStopBegins(m.state.value, r.state.value)
  }

  lemma DecisionsStopExactlyWhen(m: Machine, op: OperationId, firedAt: int, now: int)
    requires m.state.Some? && Sound(m.state.value)
    ensures var s, r := m.state.value, Decide(m, op, firedAt, now);
            && (BeginsIdleStop(m, r) <==>
                  && s.phase.RunningIdle? && s.idleDeadlineAt.Some? && s.idleDeadlineAt.value <= firedAt
                  && forall id | id in s.leases :: s.leases[id].expiresAt <= firedAt)
            && (BeginsIdleStop(m, r) ==>
                  && r.state.value.operation == Some(Operation(op, IdleStop, firedAt))
                  && r.state.value.epoch == s.epoch && r.state.value.revision == s.revision
                  && r.turn.AwaitingStop?)
  {
    hide NextAlarmAt;
    if InAdmission(m) {
      var s := m.state.value;
      if forall id | id in s.leases :: s.leases[id].expiresAt <= firedAt {
        assert ActiveLeases(s, firedAt) == {};
      } else {
        var id :| id in s.leases && s.leases[id].expiresAt > firedAt;
        assert id in ActiveLeases(s, firedAt);
      }
      RemovalKeepsUp(s, now);
      hide ActiveLeases, RemoveExpiredLeases;
    }
  }

  lemma RemovalKeepsUp(s: State, now: int)
    ensures var r := RemoveExpiredLeases(s, now); r.Some? && IsAdmission(s.phase) ==> r.value.phase.RunningUnknown?
  {}

  lemma AlarmsStopExactlyWhen(m: Machine, op: OperationId, epoch: Epoch, clock: int, now: int)
    requires Inv(m, clock) && clock <= now && m.state.Some?
    ensures var r := AlarmFires(m, op, epoch, now);
            && (BeginsIdleStop(m, r) <==> IdleStopIsDue(m, EAlarm(op, epoch), now))
            && (BeginsIdleStop(m, r) ==>
                  && r.state.value.operation == Some(Operation(op, IdleStop, now))
                  && r.state.value.epoch == m.state.value.epoch && r.state.value.revision == m.state.value.revision
                  && r.turn.AwaitingStop?)
  {
    hide NextAlarmAt, RemoveExpiredLeases, Decide;
    RemovalIsSound(m.state.value, now);
    RemovalKeepsUp(m.state.value, now);
    if m.state.value.leases == map[] { NothingToRemove(m.state.value, now); }
    DecisionsStopExactlyWhen(m.(alarm := None), op, now, now);
  }

  lemma AnswersBeginNoStop(m: Machine, answer: Result<Snapshot>, epoch: Epoch, snapshot: Snapshot, now: int)
    requires m.state.Some?
    ensures !BeginsIdleStop(m, WakeReply(m, answer, now)) && !BeginsIdleStop(m, ProbeReply(m, answer, now))
    ensures !BeginsIdleStop(m, ObserveExecution(m, epoch, snapshot, now)) && !BeginsIdleStop(m, StartProbe(m, now))
  {
    hide NextAlarmAt, ApplyExecutionSnapshot, RemoveExpiredLeases;
    SnapshotStaysUp(now);
    RemovalKeepsUp(m.state.value, now);
  }

  lemma StopRepliesBeginNoStop(m: Machine, answer: Result<StopOutcome>, now: int)
    requires m.state.Some?
    ensures !BeginsIdleStop(m, StopReply(m, answer, now))
  {
    hide NextAlarmAt, ApplyExecutionSnapshot, AfterStop;
  }

  /** An idle stop begins exactly when it is due, under a new operation, for the epoch
      that was admitted, and with the alarm handler waiting for it. */
  lemma IdleStopsBeginExactlyWhenDue(m: Machine, e: Event, clock: int, now: int)
    requires Inv(m, clock) && clock <= now && m.state.Some?
    ensures var r := Step(m, e, now);
            && (BeginsIdleStop(m, r) <==> IdleStopIsDue(m, e, now))
            && (BeginsIdleStop(m, r) ==>
                  && r.state.value.operation == Some(Operation(e.op, IdleStop, FiredAt(m, now)))
                  && r.state.value.epoch == m.state.value.epoch && r.state.value.revision == m.state.value.revision
                  && r.turn.AwaitingStop?)
  {
    hide NextAlarmAt, AlarmFires, Decide, WakeReply, ProbeReply, StopReply, ObserveExecution, StartProbe;
    var x := Snapshot(Running, None, true);
    match e
    case EAlarm(op, epoch) => AlarmsStopExactlyWhen(m, op, epoch, clock, now);
    case EAlarmDecides(op) =>
      if m.turn.Deciding? { DecisionsStopExactlyWhen(m, op, m.turn.firedAt, now); }
    case EWakeReply(answer) => AnswersBeginNoStop(m, answer, 0, x, now);
    case EProbeReply(answer) => AnswersBeginNoStop(m, answer, 0, x, now);
    case EStopReply(answer) => StopRepliesBeginNoStop(m, answer, now);
    case EObserve(epoch, snapshot) => AnswersBeginNoStop(m, Failed, epoch, snapshot, now);
    case EReconcile => AnswersBeginNoStop(m, Failed, 0, x, now);
    case _ =>
  }

  /** So it is in every run. */
  lemma RunsBeginIdleStopsExactlyWhenDue(run: Run, i: nat)
    requires IsRun(run) && i < |run.ticks| && run.states[i].m.state.Some?
    ensures var m, r, t := run.states[i].m, run.states[i + 1].m, run.ticks[i];
            && (BeginsIdleStop(m, r) <==> IdleStopIsDue(m, t.event, t.at))
            && (BeginsIdleStop(m, r) ==>
                  && r.state.value.operation == Some(Operation(t.event.op, IdleStop, FiredAt(m, t.at)))
                  && r.state.value.epoch == m.state.value.epoch && r.turn.AwaitingStop?)
  {
    hide Step, Remember;
    RunsAreSound(run, i);
    var t := run.ticks[i];
    IdleStopsBeginExactlyWhenDue(run.states[i].m, t.event, run.states[i].clock, t.at);
    hide IsRun, SystemInv;
  }

  // --- and that it is due in time ----------------------------------------------------

  /** Work is admitted and none is held; the alarm handler is at rest, or waits for a
      probe whose answer will be taken. */
  ghost predicate Quiet(m: Machine) {
    && InAdmission(m)
    && var s := m.state.value;
    && s.epoch.Some? && s.leases == map[] && s.nextProbeAt.Some?
    && (m.probe.Some? ==> ProbeIsCurrent(m, m.probe.value))
    && (m.turn.NoTurn? || m.turn.AwaitingProbe?)
    && (m.turn.NoTurn? || m.probe.None? ==> m.alarm.Some?)
    && (m.turn.AwaitingProbe? && m.probe.None? ==> !s.phase.ErrorRunning?)
  }

  /** Not idle yet. A first idle snapshot dated at instant 0 would not count. */
  ghost predicate Unconfirmed(m: Machine) {
    && Quiet(m) && !m.state.value.phase.RunningIdle?
    && (m.state.value.idleCandidateSince.Some? ==>
          m.state.value.idleCandidateSince.value != 0 && m.state.value.idleConfirmations >= 1)
  }

  ghost predicate Idling(m: Machine, deadline: int) {
    && Quiet(m) && m.state.value.phase.RunningIdle? && m.state.value.idleSince.Some?
    && m.state.value.idleDeadlineAt == Some(deadline)
  }

  /** No work, no stop, no deletion, and no answer but that everything is idle. Calls
      that are refused, wakes and reconciliations may come, and reloads once the
      instance is idle. */
  ghost predicate LeavesQuiet(m: Machine, e: Event, now: int) {
    && !Heard(m, e, now).HeardOther?
    && match e
       case EBeginWork(epoch, _, _) => m.state.Some? && !Admits(m.state.value, epoch)
       case EObserve(_, snapshot) => Heard(m, e, now).HeardIdle? ==> ObservedAt(snapshot, now) != 0
       case EProbeReply(answer) => Heard(m, e, now).HeardIdle? && answer.Ok? ==> ObservedAt(answer.value, now) != 0
       case EForceStop(_) => false
       case EBeginDelete => false
       case EMarkDeleted => false
       case EReload => InPhase(m, RunningIdle)
       case _ => true
  }

  /** The platform fires an alarm at most `late` after its instant, or after the handler
      came to rest if that was later; a handler that is busy comes to rest within
      `slowest`. `turned` is when it last came to rest or set to work. */
  ghost predicate OnSchedule(m: Machine, turned: int, now: int, late: nat, slowest: nat) {
    if m.turn.NoTurn? then m.alarm.Some? ==> now <= Max(m.alarm.value, turned) + late
    else now <= turned + slowest
  }

  ghost function Turned(m: Machine, r: Machine, turned: int, now: int): int {
    if m.turn.NoTurn? != r.turn.NoTurn? then now else turned
  }

  lemma OthersPassBy(m: Machine, e: Event, now: int)
    requires Quiet(m) && LeavesQuiet(m, e, now)
    requires !e.EReconcile? && !e.EProbeReply? && !e.EObserve? && !e.EAlarm? && !e.EAlarmAfterProbe? && !e.EReload?
    ensures var r := Step(m, e, now); r == m.(wake := r.wake, stop := r.stop, tail := r.tail)
  {
    hide NextAlarmAt, ApplyExecutionSnapshot, Heard;
  }

  lemma ReconcilingProbesOnce(m: Machine, now: int)
    requires Quiet(m)
    ensures Step(m, EReconcile, now) ==
            if m.probe.Some? then m else m.(probe := Some(ProbeSent(m.state.value.revision, m.state.value.epoch.value)))
  {
    NothingToRemove(m.state.value, now);
    hide NextAlarmAt, RemoveExpiredLeases;
  }

  /** An idle answer confirms, or finds the instance idle still. */
  ghost function Confirmed(s: State, observedAt: int, now: int): State {
    if s.phase.RunningIdle? && s.idleSince.Some? && s.idleDeadlineAt.Some? then StillIdle(s, now)
    else ConfirmIdle(s, observedAt, now)
  }

  lemma IdleAnswersConfirm(s: State, snapshot: Snapshot, now: int)
    requires Hears(s, snapshot, now).HeardIdle?
    ensures ApplyExecutionSnapshot(s, snapshot, now) == Confirmed(s, ObservedAt(snapshot, now), now)
  {}

  lemma AnswersAreHeard(m: Machine, e: Event, now: int)
    requires Quiet(m) && LeavesQuiet(m, e, now) && (e.EProbeReply? || e.EObserve?)
    ensures var r := Step(m, e, now);
            if Heard(m, e, now).HeardIdle? then
              && r.state.Some? && r.turn == m.turn && (r.probe == m.probe || r.probe.None?)
              && r.alarm == NextAlarmAt(r.state.value, now)
              && exists at: int :: at != 0 && at <= now && r.state.value == Confirmed(m.state.value, at, now)
            else r == m
  {
    hide NextAlarmAt, ApplyExecutionSnapshot, Confirmed;
    var s := m.state.value;
    match e
    case EProbeReply(answer) =>
      if answer.Ok? && Hears(s, answer.value, now).HeardIdle? { IdleAnswersConfirm(s, answer.value, now); }
    case EObserve(_, snapshot) =>
      if Hears(s, snapshot, now).HeardIdle? { IdleAnswersConfirm(s, snapshot, now); }
  }

  lemma AlarmsProbeOrWait(m: Machine, op: OperationId, epoch: Epoch, now: int)
    requires Quiet(m) && !IdleStopIsDue(m, EAlarm(op, epoch), now)
    ensures var r, s := Step(m, EAlarm(op, epoch), now), m.state.value;
            || r == m
            || (&& m.turn.NoTurn? && m.alarm.value <= now
                && r == (if now < s.nextProbeAt.value then m.(alarm := NextAlarmAt(s, now))
                         else m.(alarm := None, turn := AwaitingProbe,
                           probe := if m.probe.Some? then m.probe
                           else Some(ProbeSent(s.revision, s.epoch.value)))))
    ensures m.turn.NoTurn? && m.alarm.value <= now && Step(m, EAlarm(op, epoch), now) != m ==>
              m.state.value.phase.RunningIdle? && m.state.value.idleDeadlineAt.Some? ==>
                now < m.state.value.idleDeadlineAt.value
  {
    hide NextAlarmAt, RemoveExpiredLeases, ProbeIsCurrent;
    NothingToRemove(m.state.value, now);
    assert ActiveLeases(m.state.value, now) == {};
  }

  lemma ProbesEndTheTurn(m: Machine, op: OperationId, now: int)
    requires Quiet(m)
    ensures Step(m, EAlarmAfterProbe(op), now) ==
            if m.turn.AwaitingProbe? && m.probe.None? then m.(turn := NoTurn) else m
  {
    hide NextAlarmAt;
  }

  lemma ReloadsRest(m: Machine, now: int)
    requires InAdmission(m)
    ensures Step(m, EReload, now) == Machine(m.state, Some(m.alarm.GetOr(now)), None, None, None, NoTurn, NoTail)
  {}

  ghost function TimeoutOf(m: Machine): int {
    if m.state.Some? then m.state.value.idleTimeout.GetOr(600_000) else 0
  }

  /** Where an instance is that waits for its next probe by `limit`. */
  ghost predicate Waits(m: Machine, clock: int, turned: int, limit: int, late: nat, slowest: nat) {
    && m.state.Some? && m.state.value.nextProbeAt.Some? && m.state.value.nextProbeAt.value <= limit
    && turned <= clock
    && if m.turn.NoTurn? then
         m.alarm.Some? && m.alarm.value <= limit && turned <= limit && clock <= limit + late
       else
         && turned <= limit + late && clock <= turned + slowest
         && (m.probe.None? ==> turned + slowest <= limit && m.alarm.Some? && m.alarm.value <= limit)
  }

  /** And one that waits for its deadline, which is `last` at the latest. */
  ghost predicate Rests(m: Machine, clock: int, turned: int, last: int, late: nat, slowest: nat) {
    && turned <= clock
    && (m.alarm.Some? ==> m.alarm.value <= last + slowest)
    && if m.turn.NoTurn? then m.alarm.Some? && turned <= last + slowest && clock <= last + slowest + late
       else turned <= last && clock <= turned + slowest
  }

  lemma ConfirmingTakesTwo(s: State, at: int, now: int)
    requires !s.phase.RunningIdle? && at != 0 && at <= now
    requires s.idleCandidateSince.Some? ==> s.idleCandidateSince.value != 0 && s.idleConfirmations >= 1
    ensures var r := Confirmed(s, at, now);
            && r.revision == s.revision && r.epoch == s.epoch && r.leases == s.leases && r.idleTimeout == s.idleTimeout
            && (if s.idleCandidateSince.Some? then
                  && r.phase.RunningIdle? && r.idleSince.Some?
                  && r.idleDeadlineAt == Some(s.idleCandidateSince.value + s.idleTimeout.GetOr(IDLE_TIMEOUT_MS))
                else
                  && r.phase.RunningUnknown? && r.idleConfirmations == 1
                  && r.idleCandidateSince == Some(at) && r.nextProbeAt == Some(now + 3_000))
            && r.nextProbeAt.Some?
  {}

  lemma IdleStaysIdle(s: State, at: int, now: int)
    requires s.phase.RunningIdle? && s.idleSince.Some? && s.idleDeadlineAt.Some?
    ensures Confirmed(s, at, now) == Rechecked(s, now)
  {}

  /** Idle still: only the next probe moves, and failures are forgotten. */
  ghost function Rechecked(s: State, now: int): State {
    s.(nextProbeAt := Some(now + 60_000), probeFailures := 0, probeFailingSince := None, operation := None,
    updatedAt := now)
  }

  /** An idle instance: its stop begins, or it is still on time. */
  lemma IdlingTicks(m: Machine, e: Event, deadline: int, clock: int, turned: int, last: int, now: int, late: nat,
      slowest: nat)
    requires Inv(m, clock) && clock <= now && Idling(m, deadline) && deadline <= last
    requires Rests(m, clock, turned, last, late, slowest)
    requires LeavesQuiet(m, e, now) && OnSchedule(m, turned, now, late, slowest)
    requires Heard(m, e, now).HeardIdle? && m.turn.NoTurn? ==> now <= last
    ensures var r := Step(m, e, now);
            if IdleStopIsDue(m, e, now) then deadline <= now <= last + slowest + late
            else
              && Idling(r, deadline) && Rests(r, now, Turned(m, r, turned, now), last, late, slowest)
              && TimeoutOf(r) == TimeoutOf(m)
  {
    hide Step, Heard, NextAlarmAt, Confirmed;
    var s := m.state.value;
    match e
    case EReconcile => ReconcilingProbesOnce(m, now);
    case EProbeReply(_) => AnswersAreHeard(m, e, now); IdlingAnswers(m, e, now);
    case EObserve(_, _) => AnswersAreHeard(m, e, now); IdlingAnswers(m, e, now);
    case EAlarm(op, epoch) =>
      if !IdleStopIsDue(m, e, now) {
        AlarmsProbeOrWait(m, op, epoch, now);
        AlarmIsTheEarliest(s, now);
      }
    case EAlarmAfterProbe(op) => ProbesEndTheTurn(m, op, now);
    case EReload => ReloadsRest(m, now);
    case _ => OthersPassBy(m, e, now);
  }

  lemma IdlingAnswers(m: Machine, e: Event, now: int)
    requires m.state.Some? && m.state.value.phase.RunningIdle? && m.state.value.idleSince.Some?
    requires m.state.value.idleDeadlineAt.Some?
    requires Heard(m, e, now).HeardIdle? ==>
               && Step(m, e, now).state.Some?
               && exists at: int :: at != 0 && at <= now
                    && Step(m, e, now).state.value == Confirmed(m.state.value, at, now)
    ensures Heard(m, e, now).HeardIdle? ==>
              var s := m.state.value;
              && Step(m, e, now).state.value == Rechecked(s, now)
              && (NextAlarmAt(Step(m, e, now).state.value, now).Some? &&
                  NextAlarmAt(Step(m, e, now).state.value, now).value <= Max(now, s.idleDeadlineAt.value))
  {
    hide Step, Heard, NextAlarmAt, Confirmed;
    if Heard(m, e, now).HeardIdle? {
      var at: int :| at != 0 && at <= now && Step(m, e, now).state.value == Confirmed(m.state.value, at, now);
      IdleStaysIdle(m.state.value, at, now);
      AlarmIsTheEarliest(Step(m, e, now).state.value, now);
    }
  }

  /** The first idle answer makes it wait three seconds for another, and that makes it
      idle, with its deadline the whole timeout after the first. */
  ghost predicate Advances(m: Machine, r: Machine, now: int, turned: int, limit: int, late: nat, slowest: nat) {
    && m.state.Some? && r.state.Some? && TimeoutOf(r) == TimeoutOf(m)
    && match m.state.value.idleCandidateSince
       case None =>
         && Unconfirmed(r) && r.state.value.idleCandidateSince.Some? && r.state.value.idleCandidateSince.value <= now
         && Waits(r, now, turned, limit + late + slowest + 3_000, late, slowest)
       case Some(since) =>
         && Idling(r, since + TimeoutOf(m))
         && forall last | limit + late <= last && since + TimeoutOf(m) <= last ::
              Rests(r, now, turned, last, late, slowest)
  }

  lemma ConfirmingAdvances(m: Machine, e: Event, turned: int, clock: int, limit: int, now: int, late: nat,
      slowest: nat)
    requires clock <= now && Unconfirmed(m) && Waits(m, clock, turned, limit, late, slowest)
    requires LeavesQuiet(m, e, now) && OnSchedule(m, turned, now, late, slowest) && (e.EProbeReply? || e.EObserve?)
    requires Heard(m, e, now).HeardIdle?
    ensures var r := Step(m, e, now);
            Turned(m, r, turned, now) == turned && Advances(m, r, now, turned, limit, late, slowest)
  {
    hide Step, Heard, NextAlarmAt, Confirmed, ConfirmIdle, StillIdle, ProbeIsCurrent;
    AnswersAreHeard(m, e, now);
    var r := Step(m, e, now);
    var at: int :| at != 0 && at <= now && r.state.value == Confirmed(m.state.value, at, now);
    ConfirmingTakesTwo(m.state.value, at, now);
    AlarmIsTheEarliest(r.state.value, now);
    CurrentProbesStayCurrent(m, r);
  }

  lemma CurrentProbesStayCurrent(m: Machine, r: Machine)
    requires m.state.Some? && r.state.Some? && InAdmission(r)
    requires r.state.value.revision == m.state.value.revision && r.state.value.epoch == m.state.value.epoch
    ensures forall call | ProbeIsCurrent(m, call) :: ProbeIsCurrent(r, call)
  {}

  /** An instance that is not idle yet: an idle answer brings it on, anything else
      leaves it on time. */
  lemma UnconfirmedTicks(m: Machine, e: Event, clock: int, turned: int, limit: int, now: int, late: nat, slowest: nat)
    requires clock <= now && Unconfirmed(m) && Waits(m, clock, turned, limit, late, slowest)
    requires LeavesQuiet(m, e, now) && OnSchedule(m, turned, now, late, slowest)
    ensures var r, after := Step(m, e, now), Turned(m, Step(m, e, now), turned, now);
            && !IdleStopIsDue(m, e, now)
            && (if Heard(m, e, now).HeardIdle? && (e.EProbeReply? || e.EObserve?) then
                  Advances(m, r, now, after, limit, late, slowest) && now <= limit + late + slowest
                else
                  && Unconfirmed(r) && Waits(r, now, after, limit, late, slowest)
                  && r.state.value == m.state.value)
  {
    hide Step, Heard, NextAlarmAt, Confirmed, Advances;
    match e
    case EReconcile => ReconcilingProbesOnce(m, now);
    case EProbeReply(_) =>
      if Heard(m, e, now).HeardIdle? { ConfirmingAdvances(m, e, turned, clock, limit, now, late, slowest); }
      else { AnswersAreHeard(m, e, now); }
    case EObserve(_, _) =>
      if Heard(m, e, now).HeardIdle? { ConfirmingAdvances(m, e, turned, clock, limit, now, late, slowest); }
      else { AnswersAreHeard(m, e, now); }
    case EAlarm(op, epoch) =>
      AlarmsProbeOrWait(m, op, epoch, now);
      AlarmIsTheEarliest(m.state.value, now);
    case EAlarmAfterProbe(op) => ProbesEndTheTurn(m, op, now);
    case EReload =>
    case _ => OthersPassBy(m, e, now);
  }

  // --- over runs -------------------------------------------------------------------------

  /** When the alarm handler last came to rest or set to work. */
  ghost function TurnedAt(run: Run, k: nat): int
    requires IsRun(run) && k <= |run.ticks|
  {
    if k == 0 then 0
    else Turned(run.states[k - 1].m, run.states[k].m, TurnedAt(run, k - 1), run.states[k].clock)
  }

  lemma {:induction false} TurnedInThePast(run: Run, k: nat)
    requires IsRun(run) && k <= |run.ticks|
    ensures TurnedAt(run, k) <= run.states[k].clock
  {
    if k > 0 {
      TurnedInThePast(run, k - 1);
      RunStep(run, k - 1);
    }
  }

  lemma RunStep(run: Run, k: nat)
    requires IsRun(run) && k < |run.ticks|
    ensures |run.states| == |run.ticks| + 1
    ensures var sys, t := run.states[k], run.ticks[k];
            && sys.clock <= t.at && run.states[k + 1].clock == t.at && run.states[k + 1].m == Step(sys.m, t.event, t.at)
  {
    hide Step, Remember;
    assert run.ticks[k] == run.ticks[k];
  }

  /** The events from `i` to `j` leave the instance quiet and are on schedule, for as
      long as it admits work; and after `last` no idle answer comes but to the alarm
      handler. */
  ghost predicate LeftQuiet(run: Run, i: nat, j: nat, last: int, late: nat, slowest: nat)
    requires IsRun(run) && i <= j <= |run.ticks|
  {
    forall k {:trigger run.ticks[k]} | i <= k < j && InAdmission(run.states[k].m) ::
      var m, t := run.states[k].m, run.ticks[k];
      && LeavesQuiet(m, t.event, t.at) && OnSchedule(m, TurnedAt(run, k), t.at, late, slowest)
      && (Heard(m, t.event, t.at).HeardIdle? && m.turn.NoTurn? ==> t.at <= last)
  }

  /** Some event after `i` begins an idle stop, no later than `bound`. */
  ghost predicate GoesToSleep(run: Run, i: nat, j: nat, bound: int)
    requires IsRun(run) && i <= j <= |run.ticks|
  {
    exists k {:trigger run.states[k]} | i < k <= j ::
      BeginsIdleStop(run.states[k - 1].m, run.states[k].m) && run.states[k].clock <= bound
  }

  /** How far an instance has come that was quiet by `start`. */
  ghost predicate OnItsWay(m: Machine, clock: int, turned: int, start: int, timeout: int, last: int, late: nat,
      slowest: nat)
  {
    && m.state.Some? && TimeoutOf(m) == timeout
    && (|| (Unconfirmed(m) && m.state.value.idleCandidateSince.None? && Waits(m, clock, turned, start, late, slowest))
        || (Unconfirmed(m) && m.state.value.idleCandidateSince.Some?
            && m.state.value.idleCandidateSince.value <= start + late + slowest
            && Waits(m, clock, turned, start + late + slowest + 3_000, late, slowest))
        || (m.state.value.idleDeadlineAt.Some? && Idling(m, m.state.value.idleDeadlineAt.value)
            && m.state.value.idleDeadlineAt.value <= last && Rests(m, clock, turned, last, late, slowest)))
  }

  lemma TicksKeepGoing(m: Machine, e: Event, clock: int, turned: int, now: int, start: int, timeout: int, last: int,
      late: nat, slowest: nat)
    requires Inv(m, clock) && clock <= now && OnItsWay(m, clock, turned, start, timeout, last, late, slowest)
    requires start + late + slowest + timeout <= last && start + late + slowest + 3_000 + late <= last
    requires LeavesQuiet(m, e, now) && OnSchedule(m, turned, now, late, slowest)
    requires Heard(m, e, now).HeardIdle? && m.turn.NoTurn? ==> now <= last
    ensures var r := Step(m, e, now);
            if IdleStopIsDue(m, e, now) then now <= last + slowest + late
            else OnItsWay(r, now, Turned(m, r, turned, now), start, timeout, last, late, slowest)
  {
    hide Step, Heard, Turned, IdleStopIsDue, Waits, Rests, ProbeIsCurrent, LeavesQuiet, OnSchedule;
    if m.state.value.phase.RunningIdle? {
      IdlingTicks(m, e, m.state.value.idleDeadlineAt.value, clock, turned, last, now, late, slowest);
    } else if m.state.value.idleCandidateSince.None? {
      UnconfirmedTicks(m, e, clock, turned, start, now, late, slowest);
    } else {
      UnconfirmedTicks(m, e, clock, turned, start + late + slowest + 3_000, now, late, slowest);
    }
  }

  lemma {:induction false} GoesOnOrSleeps(run: Run, i: nat, j: nat, start: int, timeout: int, last: int, late: nat,
      slowest: nat)
    requires IsRun(run) && i <= j <= |run.ticks|
    requires OnItsWay(run.states[i].m, run.states[i].clock, TurnedAt(run, i), start, timeout, last, late, slowest)
    requires start + late + slowest + timeout <= last && start + late + slowest + 3_000 + late <= last
    requires LeftQuiet(run, i, j, last, late, slowest)
    ensures || OnItsWay(run.states[j].m, run.states[j].clock, TurnedAt(run, j), start, timeout, last, late, slowest)
            || GoesToSleep(run, i, j, last + slowest + late)
  {
    hide OnItsWay, Step, Next, CanTick, Heard, LeavesQuiet, OnSchedule, GoesToSleep, BeginsIdleStop, IdleStopIsDue, Inv;
    if i < j {
      RunStep(run, j - 1);
      assert LeftQuiet(run, i, j - 1, last, late, slowest);
      GoesOnOrSleeps(run, i, j - 1, start, timeout, last, late, slowest);
      if GoesToSleep(run, i, j - 1, last + slowest + late) {
        SleepsStill(run, i, j, last + slowest + late);
      } else {
        RunsAreSound(run, j - 1);
        var sys, t := run.states[j - 1], run.ticks[j - 1];
        OnItsWayIsUp(sys.m, sys.clock, TurnedAt(run, j - 1), start, timeout, last, late, slowest);
        TicksKeepGoing(sys.m, t.event, sys.clock, TurnedAt(run, j - 1), t.at, start, timeout, last, late, slowest);
        if IdleStopIsDue(sys.m, t.event, t.at) {
          RunsBeginIdleStopsExactlyWhenDue(run, j - 1);
          SleepsNow(run, i, j, last + slowest + late);
        }
      }
    }
  }

  lemma OnItsWayIsUp(m: Machine, clock: int, turned: int, start: int, timeout: int, last: int, late: nat,
      slowest: nat)
    requires OnItsWay(m, clock, turned, start, timeout, last, late, slowest)
    requires start + late + slowest + timeout <= last && start + late + slowest + 3_000 + late <= last
    ensures InAdmission(m) && clock <= last + slowest + late
  {}

  lemma SleepsStill(run: Run, i: nat, j: nat, bound: int)
    requires IsRun(run) && i < j <= |run.ticks| && GoesToSleep(run, i, j - 1, bound)
    ensures GoesToSleep(run, i, j, bound)
  {
    hide BeginsIdleStop, Next, CanTick;
  }

  lemma SleepsNow(run: Run, i: nat, j: nat, bound: int)
    requires IsRun(run) && i < j <= |run.ticks| && run.states[j].clock <= bound
    requires BeginsIdleStop(run.states[j - 1].m, run.states[j].m)
    ensures GoesToSleep(run, i, j, bound)
  {
    hide BeginsIdleStop, Next, CanTick;
  }

  /** In every run: an idle instance that is left quiet, on schedule, begins its idle
      stop no later than one delay of the alarm and one latency of the handler after
      its deadline, or after `i` if the deadline was past by then. */
  lemma IdleInstancesGoToSleep(run: Run, i: nat, j: nat, deadline: int, late: nat, slowest: nat)
    requires IsRun(run) && i <= j <= |run.ticks| && Idling(run.states[i].m, deadline)
    requires run.states[i].m.turn.NoTurn?
    requires LeftQuiet(run, i, j, Max(deadline, run.states[i].clock), late, slowest)
    requires run.states[j].clock > Max(deadline, run.states[i].clock) + slowest + late
    ensures GoesToSleep(run, i, j, Max(deadline, run.states[i].clock) + slowest + late)
  {
    hide Step, Next, CanTick, Heard, LeavesQuiet, OnSchedule, GoesToSleep, BeginsIdleStop;
    var sys, last := run.states[i], Max(deadline, run.states[i].clock);
    TurnedInThePast(run, i);
    AlarmsAreSetWithinAMinute(run, i);
    var timeout := TimeoutOf(sys.m);
    var start := last - late - slowest - Max(timeout, 3_000 + late);
    assert OnItsWay(sys.m, sys.clock, TurnedAt(run, i), start, timeout, last, late, slowest);
    GoesOnOrSleeps(run, i, j, start, timeout, last, late, slowest);
    if OnItsWay(run.states[j].m, run.states[j].clock, TurnedAt(run, j), start, timeout, last, late, slowest) {
      OnItsWayIsUp(run.states[j].m, run.states[j].clock, TurnedAt(run, j), start, timeout, last, late, slowest);
    }
  }

  /** In every run: an instance at rest that holds no work and has not been seen idle
      yet, if it is left quiet and on schedule, is probed, found idle twice and begins
      its idle stop: no later than its idle timeout, three delays and three latencies
      after the first probe is due, and three seconds if the timeout is shorter. */
  lemma QuietInstancesGoToSleep(run: Run, i: nat, j: nat, late: nat, slowest: nat)
    requires IsRun(run) && i <= j <= |run.ticks| && Unconfirmed(run.states[i].m)
    requires run.states[i].m.turn.NoTurn? && run.states[i].m.state.value.idleCandidateSince.None?
    requires var s, clock := run.states[i].m.state.value, run.states[i].clock;
             var last := Max(clock, s.nextProbeAt.value) + late + slowest
                         + Max(s.idleTimeout.GetOr(600_000), 3_000 + late);
             && LeftQuiet(run, i, j, last, late, slowest) && run.states[j].clock > last + slowest + late
    ensures var s, clock := run.states[i].m.state.value, run.states[i].clock;
            var last := Max(clock, s.nextProbeAt.value) + late + slowest
                        + Max(s.idleTimeout.GetOr(600_000), 3_000 + late);
            GoesToSleep(run, i, j, last + slowest + late)
  {
    hide Step, Next, CanTick, Heard, LeavesQuiet, OnSchedule, GoesToSleep, BeginsIdleStop;
    var sys := run.states[i];
    var start, timeout := Max(sys.clock, sys.m.state.value.nextProbeAt.value), TimeoutOf(sys.m);
    var last := start + late + slowest + Max(timeout, 3_000 + late);
    TurnedInThePast(run, i);
    AlarmsAreSetWithinAMinute(run, i);
    assert OnItsWay(sys.m, sys.clock, TurnedAt(run, i), start, timeout, last, late, slowest);
    GoesOnOrSleeps(run, i, j, start, timeout, last, late, slowest);
    if OnItsWay(run.states[j].m, run.states[j].clock, TurnedAt(run, j), start, timeout, last, late, slowest) {
      OnItsWayIsUp(run.states[j].m, run.states[j].clock, TurnedAt(run, j), start, timeout, last, late, slowest);
    }
  }
}
