/** The coordinator's own alarm: it is prompt, and it goes missing at exactly the
    events that drop it. Two of them need nothing but calls and late replies. */
module CoordinatorAlarms {
  import opened Wrappers
  import opened LifecycleState
  import opened CoordinatorSteps
  import opened CoordinatorInvariant
  import opened CoordinatorLaws
  import opened CoordinatorRuns

  const A_MINUTE := 60_000

  ghost predicate NextProbePrompt(m: Machine, clock: int) {
    m.state.Some? && NeedsAlarm(m.state.value) ==>
      m.state.value.nextProbeAt.Some? && m.state.value.nextProbeAt.value <= clock + A_MINUTE
  }

  /** The alarm comes no later than the next probe, the idle deadline and the end of
      any lease that is still alive, unless those are past. */
  ghost predicate ComesFirst(s: State, alarm: int, now: int) {
    && (s.nextProbeAt.Some? ==> alarm <= Max(now, s.nextProbeAt.value))
    && (s.phase.RunningIdle? && s.idleDeadlineAt.Some? ==> alarm <= Max(now, s.idleDeadlineAt.value))
    && (forall id | id in s.leases && s.epoch == Some(s.leases[id].epoch) && s.leases[id].expiresAt > now ::
          alarm <= s.leases[id].expiresAt)
  }

  /** And it comes for one of them, or at once; for want of any, after 30 s. */
  ghost predicate ComesFor(s: State, alarm: int, now: int) {
    || alarm == now
    || s.nextProbeAt == Some(alarm)
    || (s.phase.RunningIdle? && s.idleDeadlineAt == Some(alarm))
    || (exists id :: id in s.leases && s.epoch == Some(s.leases[id].epoch) && s.leases[id].expiresAt == alarm)
    || (&& s.nextProbeAt.None? && !(s.phase.RunningIdle? && s.idleDeadlineAt.Some?)
        && (forall id | id in s.leases && s.epoch == Some(s.leases[id].epoch) :: s.leases[id].expiresAt <= now)
        && alarm == now + 30_000)
  }

  lemma AlarmIsTheEarliest(s: State, now: int)
    ensures NextAlarmAt(s, now).Some? <==> NeedsAlarm(s)
    ensures NeedsAlarm(s) ==>
              && NextAlarmAt(s, now).value >= now
              && ComesFirst(s, NextAlarmAt(s, now).value, now) && ComesFor(s, NextAlarmAt(s, now).value, now)
  {
    if NeedsAlarm(s) {
      var candidates := AlarmCandidates(s, now);
      forall id | id in s.leases && s.epoch == Some(s.leases[id].epoch) && s.leases[id].expiresAt > now
        ensures s.leases[id].expiresAt in candidates
      {
        assert id in ActiveLeases(s, now);
      }
      if s.nextProbeAt.Some? { assert s.nextProbeAt.value in candidates; }
      if s.phase.RunningIdle? && s.idleDeadlineAt.Some? { assert s.idleDeadlineAt.value in candidates; }
    }
  }

  /** What storing a state does to the alarm. */
  ghost predicate Rescheduled(r: Machine, now: int) {
    if r.state.Some? && NeedsAlarm(r.state.value) then
      r.alarm.Some? && now <= r.alarm.value <= now + A_MINUTE && ComesFirst(r.state.value, r.alarm.value, now)
    else r.alarm.None?
  }

  lemma PersistReschedules(m: Machine, now: int)
    requires NextProbePrompt(m, now)
    ensures Rescheduled(Persist(m, now), now)
  {
    if m.state.Some? && NeedsAlarm(m.state.value) {
      AlarmIsTheEarliest(m.state.value, now);
    }
  }

  ghost predicate NextProbeWithin(s: State, now: int) {
    NeedsAlarm(s) ==> s.nextProbeAt.Some? && s.nextProbeAt.value <= now + A_MINUTE
  }

  lemma SnapshotIsPrompt(s: State, snapshot: Snapshot, now: int)
    ensures NextProbeWithin(ApplyExecutionSnapshot(s, snapshot, now), now)
    ensures NextProbeWithin(ApplyUnknownActivity(s, now), now)
  {}

  lemma WritesReschedule(now: int)
    ensures forall m: Machine {:trigger Persist(m, now)} :: NextProbePrompt(m, now) ==>
              Rescheduled(Persist(m, now), now)
    ensures forall m: Machine, s: State {:trigger Put(m, s, now)} :: NextProbeWithin(s, now) ==>
              Rescheduled(Put(m, s, now), now)
    ensures forall s: State, x: Snapshot {:trigger ApplyExecutionSnapshot(s, x, now)} ::
              NextProbeWithin(ApplyExecutionSnapshot(s, x, now), now)
    ensures forall s: State {:trigger ApplyUnknownActivity(s, now)} ::
              NextProbeWithin(ApplyUnknownActivity(s, now), now)
  {
    hide NextAlarmAt, Persist, ApplyExecutionSnapshot, ApplyUnknownActivity, NextProbeWithin;
    forall m: Machine | NextProbePrompt(m, now) ensures Rescheduled(Persist(m, now), now) {
      PersistReschedules(m, now);
    }
    forall m: Machine, s: State | NextProbeWithin(s, now) ensures Rescheduled(Put(m, s, now), now) {
      PutReschedules(m, s, now);
    }
    forall s: State, x: Snapshot ensures NextProbeWithin(ApplyExecutionSnapshot(s, x, now), now) {
      SnapshotIsPrompt(s, x, now);
    }
    forall s: State ensures NextProbeWithin(ApplyUnknownActivity(s, now), now) {
      SnapshotIsPrompt(s, Snapshot(Running, None, true), now);
    }
  }

  lemma PutReschedules(m: Machine, s: State, now: int)
    requires NextProbeWithin(s, now)
    ensures Rescheduled(Put(m, s, now), now)
  {
    PersistReschedules(m.(state := Some(s)), now);
  }

  /** A piece that stores the state reschedules the alarm; any other leaves the
      state alone, and at most uses the alarm up. */
  ghost predicate Schedules(m: Machine, r: Machine, now: int) {
    && NextProbePrompt(r, now)
    && (Rescheduled(r, now) || (r.state == m.state && (r.alarm == m.alarm || r.alarm.None?)))
  }

  lemma DecisionSchedules(m: Machine, op: OperationId, firedAt: int, clock: int, now: int)
    requires NextProbePrompt(m, clock) && firedAt <= clock <= now
    ensures Schedules(m, Decide(m, op, firedAt, now), now)
  {
    WritesReschedule(now);
    hide NextAlarmAt;
  }

  lemma WakeReplySchedules(m: Machine, answer: Result<Snapshot>, clock: int, now: int)
    requires NextProbePrompt(m, clock) && clock <= now
    ensures Schedules(m, WakeReply(m, answer, now), now)
  {
    WritesReschedule(now);
    hide NextAlarmAt, ApplyExecutionSnapshot;
  }

  lemma ProbeReplySchedules(m: Machine, answer: Result<Snapshot>, clock: int, now: int)
    requires NextProbePrompt(m, clock) && clock <= now
    ensures Schedules(m, ProbeReply(m, answer, now), now)
  {
    WritesReschedule(now);
    hide NextAlarmAt, ApplyExecutionSnapshot, ApplyUnknownActivity;
  }

  lemma StopReplySchedules(m: Machine, answer: Result<StopOutcome>, clock: int, now: int)
    requires NextProbePrompt(m, clock) && clock <= now
    ensures Schedules(m, StopReply(m, answer, now), now)
  {
    WritesReschedule(now);
    hide NextAlarmAt, ApplyExecutionSnapshot;
  }

  lemma LeaseSchedules(m: Machine, epoch: Epoch, ttl: Option<int>, id: LeaseId, clock: int, now: int)
    requires NextProbePrompt(m, clock) && clock <= now
    ensures Schedules(m, RenewWork(m, epoch, ttl, id, now), now)
    ensures Schedules(m, EndWork(m, epoch, id, now), now)
  {
    WritesReschedule(now);
    hide NextAlarmAt;
  }

  lemma WorkSchedules(m: Machine, epoch: Epoch, ttl: Option<int>, id: LeaseId, snapshot: Snapshot, clock: int, now: int)
    requires NextProbePrompt(m, clock) && clock <= now
    ensures Schedules(m, BeginWork(m, epoch, ttl, id, now), now)
    ensures Schedules(m, ObserveExecution(m, epoch, snapshot, now), now)
  {
    WritesReschedule(now);
    hide NextAlarmAt, ApplyExecutionSnapshot;
  }

  lemma WakeSchedules(m: Machine, explicit: bool, op: OperationId, epoch: Epoch, clock: int, now: int)
    requires NextProbePrompt(m, clock) && clock <= now
    ensures Schedules(m, ContinueWake(m, explicit, op, epoch, now), now)
    ensures Schedules(m, Wake(m, op, epoch, now), now)
  {
    WritesReschedule(now);
    hide NextAlarmAt;
  }

  lemma RemovalIsPrompt(s: State, now: int)
    ensures var r := RemoveExpiredLeases(s, now); r.Some? ==> NextProbeWithin(r.value, now)
  {}

  lemma AlarmSchedules(m: Machine, op: OperationId, epoch: Epoch, clock: int, now: int)
    requires NextProbePrompt(m, clock) && clock <= now
    ensures Schedules(m, AlarmFires(m, op, epoch, now), now)
  {
    hide NextAlarmAt, Decide, ContinueWake, RemoveExpiredLeases;
    var fired := m.(alarm := None);
    if m.state.Some? && NeedsAlarm(m.state.value) {
      if m.state.value.phase.Waking? || m.state.value.phase.ErrorWaking? {
        WakeSchedules(fired, false, op, epoch, clock, now);
      } else if !m.state.value.phase.Quiescing? {
        var removed := RemoveExpiredLeases(m.state.value, now);
        if removed.Some? {
          RemovalIsPrompt(m.state.value, now);
          PutReschedules(fired, removed.value, now);
        } else {
          DecisionSchedules(fired, op, now, now, now);
        }
      }
    }
  }

  lemma StepSchedules(m: Machine, e: Event, clock: int, now: int)
    requires NextProbePrompt(m, clock) && AlarmSound(m, clock) && clock <= now
    ensures Schedules(m, Step(m, e, now), now)
  {
    hide NextAlarmAt, AlarmFires, Decide, WakeReply, ProbeReply, StopReply, ContinueWake, BeginWork, RenewWork,
      EndWork, ObserveExecution;
    match e
    case EWake(op, epoch) => WakeSchedules(m, true, op, epoch, clock, now);
    case EWakeAfterStop(op, epoch) => WakeSchedules(m, true, op, epoch, clock, now);
    case EBeginWork(epoch, ttl, lease) => WorkSchedules(m, epoch, ttl, lease, Snapshot(Running, None, true), clock,
      now);
    case ERenewWork(epoch, ttl, lease) => LeaseSchedules(m, epoch, ttl, lease, clock, now);
    case EEndWork(epoch, lease) => LeaseSchedules(m, epoch, None, lease, clock, now);
    case EObserve(epoch, snapshot) => WorkSchedules(m, epoch, None, 0, snapshot, clock, now);
    case EWakeReply(answer) => WakeReplySchedules(m, answer, clock, now);
    case EProbeReply(answer) => ProbeReplySchedules(m, answer, clock, now);
    case EStopReply(answer) => StopReplySchedules(m, answer, clock, now);
    case EAlarm(op, epoch) => AlarmSchedules(m, op, epoch, clock, now);
    case EAlarmDecides(op) =>
      if m.turn.Deciding? { DecisionSchedules(m, op, m.turn.firedAt, clock, now); }
    case _ => WritesReschedule(now);
  }

  /** In every run an alarm is never set for more than a minute ahead, and never set
      behind what it is for. */
  lemma {:induction false} AlarmsAreSetWithinAMinute(run: Run, i: nat)
    requires IsRun(run) && i <= |run.ticks|
    ensures NextProbePrompt(run.states[i].m, run.states[i].clock)
    ensures i > 0 && run.states[i].m.alarm.Some? && run.states[i].m.alarm != run.states[i - 1].m.alarm ==>
              run.states[i].m.alarm.value <= run.states[i].clock + A_MINUTE
    ensures var m := run.states[i].m;
            m.alarm.Some? && m.state.Some? && NeedsAlarm(m.state.value) ==>
              ComesFirst(m.state.value, m.alarm.value, run.states[i].clock)
  {
    hide Step, Remember;
    if i > 0 {
      AlarmsAreSetWithinAMinute(run, i - 1);
      RunsAreSound(run, i - 1);
      var before, t := run.states[i - 1], run.ticks[i - 1];
      StepSchedules(before.m, t.event, before.clock, t.at);
    }
  }

  // --- when an alarm goes missing --------------------------------------------

  /** The instance needs attention and nothing will give it any: no alarm is set,
      no request is out whose reply could set one, and no alarm is deciding. */
  ghost predicate Forgotten(m: Machine) {
    && m.state.Some? && NeedsAlarm(m.state.value)
    && m.alarm.None?
    && m.wake.None? && m.probe.None? && m.stop.None? && m.tail.NoTail?
    && !m.turn.Deciding?
  }

  /** The event takes the last thing in progress away without storing anything,
      while no alarm is set: a superseded failure of a probe, a superseded answer of a
      wake the alarm handler would not report, or of a stop, a probe that finds
      admission closed before it was sent, or a stop whose owed wake is not to be any
      more. */
  ghost predicate DropsTheAlarm(m: Machine, e: Event) {
    && m.state.Some? && NeedsAlarm(m.state.value)
    && m.alarm.None? && !m.turn.Deciding?
    && match e
       case EProbeReply(answer) =>
         && m.wake.None? && m.stop.None? && m.tail.NoTail?
         && answer.Failed?
         && m.probe.Some? && m.probe.value.ProbeSent? && !ProbeIsCurrent(m, m.probe.value)
       case ESendProbe =>
         && m.wake.None? && m.stop.None? && m.tail.NoTail?
         && m.probe == Some(ProbeStarting)
         && !(InAdmission(m) && m.state.value.epoch.Some?)
       case EWakeReply(answer) =>
         && m.probe.None? && m.stop.None? && !m.tail.OwesWake?
         && m.wake.Some? && !WakeIsCurrent(m, m.wake.value)
         && !(answer.Failed? && m.turn.AwaitingWake?)
       case EStopReply(answer) =>
         && m.probe.None? && m.wake.None?
         && m.stop.Some? && !StopIsCurrent(m, m.stop.value)
       case EWakeAfterStop(_, _) =>
         && m.probe.None? && m.wake.None? && m.stop.None? && m.tail.OwesWake?
         && !(m.state.value.phase.Waking? || m.state.value.phase.ErrorWaking?)
       case _ => false
  }

  lemma DecisionNeverForgets(m: Machine, op: OperationId, firedAt: int, clock: int, now: int)
    requires Inv(m, clock) && NextProbePrompt(m, clock) && firedAt <= clock <= now
    ensures !Forgotten(Decide(m, op, firedAt, now))
  {
    WritesReschedule(now);
    hide NextAlarmAt;
  }

  lemma WakeReplyForgetsExactlyWhen(m: Machine, answer: Result<Snapshot>, clock: int, now: int)
    requires Inv(m, clock) && NextProbePrompt(m, clock) && clock <= now && !Forgotten(m)
    ensures Forgotten(WakeReply(m, answer, now)) <==> DropsTheAlarm(m, EWakeReply(answer))
  {
    WritesReschedule(now);
    hide NextAlarmAt, ApplyExecutionSnapshot;
  }

  lemma ProbeReplyForgetsExactlyWhen(m: Machine, answer: Result<Snapshot>, clock: int, now: int)
    requires Inv(m, clock) && NextProbePrompt(m, clock) && clock <= now && !Forgotten(m)
    ensures Forgotten(ProbeReply(m, answer, now)) <==> DropsTheAlarm(m, EProbeReply(answer))
  {
    WritesReschedule(now);
    hide NextAlarmAt, ApplyExecutionSnapshot, ApplyUnknownActivity;
  }

  lemma StopReplyForgetsExactlyWhen(m: Machine, answer: Result<StopOutcome>, clock: int, now: int)
    requires Inv(m, clock) && NextProbePrompt(m, clock) && clock <= now && !Forgotten(m)
    ensures Forgotten(StopReply(m, answer, now)) <==> DropsTheAlarm(m, EStopReply(answer))
  {
    WritesReschedule(now);
    hide NextAlarmAt, ApplyExecutionSnapshot;
  }

  lemma AlarmNeverForgets(m: Machine, op: OperationId, epoch: Epoch, clock: int, now: int)
    requires Inv(m, clock) && NextProbePrompt(m, clock) && clock <= now && !Forgotten(m)
    ensures !Forgotten(AlarmFires(m, op, epoch, now))
  {
    WritesReschedule(now);
    DecisionNeverForgets(m.(alarm := None), op, now, now, now);
    if m.state.Some? { RemovalIsPrompt(m.state.value, now); }
    hide NextAlarmAt, Decide, RemoveExpiredLeases;
  }

  lemma WorkNeverForgets(m: Machine, epoch: Epoch, ttl: Option<int>, id: LeaseId, snapshot: Snapshot, clock: int,
      now: int)
    requires Inv(m, clock) && NextProbePrompt(m, clock) && clock <= now && !Forgotten(m)
    ensures !Forgotten(BeginWork(m, epoch, ttl, id, now))
    ensures !Forgotten(RenewWork(m, epoch, ttl, id, now))
    ensures !Forgotten(EndWork(m, epoch, id, now))
    ensures !Forgotten(ObserveExecution(m, epoch, snapshot, now))
  {
    WorkSchedules(m, epoch, ttl, id, snapshot, clock, now);
    LeaseSchedules(m, epoch, ttl, id, clock, now);
    hide NextAlarmAt, ApplyExecutionSnapshot;
  }

  lemma WakeNeverForgets(m: Machine, explicit: bool, op: OperationId, epoch: Epoch, clock: int, now: int)
    requires Inv(m, clock) && NextProbePrompt(m, clock) && clock <= now && !Forgotten(m)
    ensures !Forgotten(ContinueWake(m, explicit, op, epoch, now))
    ensures !Forgotten(Wake(m, op, epoch, now))
  {
    WakeSchedules(m, explicit, op, epoch, clock, now);
    hide NextAlarmAt;
  }

  lemma OwedWakeForgetsExactlyWhen(m: Machine, op: OperationId, epoch: Epoch, clock: int, now: int)
    requires Inv(m, clock) && NextProbePrompt(m, clock) && clock <= now && !Forgotten(m)
    ensures Forgotten(WakeAfterStop(m, op, epoch, now)) <==> DropsTheAlarm(m, EWakeAfterStop(op, epoch))
  {
    WritesReschedule(now);
    hide NextAlarmAt;
  }

  /** Exactly those events lose the alarm of an instance that still needs one. */
  lemma AlarmIsForgottenExactlyWhenDropped(m: Machine, e: Event, clock: int, now: int)
    requires Inv(m, clock) && NextProbePrompt(m, clock) && clock <= now && !Forgotten(m)
    ensures Forgotten(Step(m, e, now)) <==> DropsTheAlarm(m, e)
  {
    hide NextAlarmAt, AlarmFires, Decide, WakeReply, ProbeReply, StopReply, ContinueWake, WakeAfterStop, BeginWork,
      RenewWork, EndWork, ObserveExecution;
    match e
    case EWake(op, epoch) => WakeNeverForgets(m, true, op, epoch, clock, now);
    case EWakeAfterStop(op, epoch) => OwedWakeForgetsExactlyWhen(m, op, epoch, clock, now);
    case EBeginWork(epoch, ttl, lease) => WorkNeverForgets(m, epoch, ttl, lease, Snapshot(Running, None, true), clock,
      now);
    case ERenewWork(epoch, ttl, lease) => WorkNeverForgets(m, epoch, ttl, lease, Snapshot(Running, None, true), clock,
      now);
    case EEndWork(epoch, lease) => WorkNeverForgets(m, epoch, None, lease, Snapshot(Running, None, true), clock, now);
    case EObserve(epoch, snapshot) => WorkNeverForgets(m, epoch, None, 0, snapshot, clock, now);
    case EWakeReply(answer) => WakeReplyForgetsExactlyWhen(m, answer, clock, now);
    case EProbeReply(answer) => ProbeReplyForgetsExactlyWhen(m, answer, clock, now);
    case EStopReply(answer) => StopReplyForgetsExactlyWhen(m, answer, clock, now);
    case EAlarm(op, epoch) => AlarmNeverForgets(m, op, epoch, clock, now);
    case EAlarmDecides(op) =>
      if m.turn.Deciding? { DecisionNeverForgets(m, op, m.turn.firedAt, clock, now); }
    case _ => WritesReschedule(now);
  }

  // --- over whole runs ---------------------------------------------------------

  /** In every run an instance is forgotten at the very events that drop its alarm. */
  lemma RunsForgetExactlyWhenDropped(run: Run, i: nat)
    requires IsRun(run) && i < |run.ticks| && !Forgotten(run.states[i].m)
    ensures Forgotten(run.states[i + 1].m) <==> DropsTheAlarm(run.states[i].m, run.ticks[i].event)
  {
    hide Step, Remember, Forgotten, DropsTheAlarm;
    RunsAreSound(run, i);
    AlarmsAreSetWithinAMinute(run, i);
    var before, t := run.states[i], run.ticks[i];
    AlarmIsForgottenExactlyWhenDropped(before.m, t.event, before.clock, t.at);
  }

  /** Whoever used the alarm up is still at work: deciding, or waiting for a reply
      that will be stored, or for a probe while admission stays open. */
  ghost predicate Attended(m: Machine) {
    m.state.Some? && NeedsAlarm(m.state.value) && m.alarm.None? ==>
      || m.turn.Deciding?
      || (m.wake.Some? && WakeIsCurrent(m, m.wake.value))
      || (m.stop.Some? && StopIsCurrent(m, m.stop.value))
      || (m.probe.Some? && InAdmission(m))
      || (m.turn.AwaitingStop? && !m.tail.NoTail?)
  }

  /** A wake or a stop in flight is the one the phase is about. */
  ghost predicate CallsFitPhase(m: Machine) {
    && (m.wake.Some? && (InPhase(m, Waking) || InPhase(m, ErrorWaking)) ==> WakeIsCurrent(m, m.wake.value))
    && (m.stop.Some? ==> m.tail.NoTail? && (StopIsCurrent(m, m.stop.value) || InPhase(m, Deleting)))
  }

  ghost predicate Kept(m: Machine, r: Machine) {
    m.state.Some? && CallsFitPhase(m) ==> r.state.Some? && CallsFitPhase(r)
  }

  lemma LeasesKeepFit(m: Machine, epoch: Epoch, ttl: Option<int>, id: LeaseId, now: int)
    requires m.state.Some? && Consistent(m.state.value)
    ensures Kept(m, RenewWork(m, epoch, ttl, id, now)) && Kept(m, EndWork(m, epoch, id, now))
  {
    hide NextAlarmAt, NormalizeLeaseTtl;
  }

  lemma WorkKeepsFit(m: Machine, epoch: Epoch, ttl: Option<int>, id: LeaseId, snapshot: Snapshot, now: int)
    requires m.state.Some? && Consistent(m.state.value)
    ensures Kept(m, BeginWork(m, epoch, ttl, id, now)) && Kept(m, RenewWork(m, epoch, ttl, id, now))
    ensures Kept(m, EndWork(m, epoch, id, now)) && Kept(m, ObserveExecution(m, epoch, snapshot, now))
  {
    LeasesKeepFit(m, epoch, ttl, id, now);
    ObservationKeepsFit(m, epoch, snapshot, now);
    hide NextAlarmAt, NormalizeLeaseTtl, RenewWork, EndWork, ObserveExecution;
  }

  lemma ObservationKeepsFit(m: Machine, epoch: Epoch, snapshot: Snapshot, now: int)
    requires m.state.Some? && Consistent(m.state.value)
    ensures Kept(m, ObserveExecution(m, epoch, snapshot, now))
  {
    SnapshotLeavesNoCall(m.state.value, snapshot, now);
    hide NextAlarmAt, ApplyExecutionSnapshot;
  }

  /** An answered probe leaves the instance admitting work or asleep. */
  lemma SnapshotLeavesNoCall(s: State, snapshot: Snapshot, now: int)
    ensures var phase := ApplyExecutionSnapshot(s, snapshot, now).phase; IsAdmission(phase) || phase.Sleeping?
  {
    hide ActiveLeases;
  }

  lemma WakeKeepsFit(m: Machine, explicit: bool, op: OperationId, epoch: Epoch, now: int)
    requires m.state.Some? && Consistent(m.state.value)
    ensures Kept(m, ContinueWake(m, explicit, op, epoch, now)) && Kept(m, Wake(m, op, epoch, now))
  {
    hide NextAlarmAt;
  }

  lemma OwedWakeKeepsFit(m: Machine, op: OperationId, epoch: Epoch, now: int)
    requires m.state.Some? && Consistent(m.state.value)
    ensures Kept(m, WakeAfterStop(m, op, epoch, now))
  {
    hide NextAlarmAt;
  }

  lemma RepliesKeepFit(m: Machine, answer: Result<Snapshot>, stopAnswer: Result<StopOutcome>, now: int)
    requires m.state.Some? && Consistent(m.state.value)
    ensures Kept(m, WakeReply(m, answer, now)) && Kept(m, ProbeReply(m, answer, now))
    ensures Kept(m, StopReply(m, stopAnswer, now))
  {
    hide NextAlarmAt;
  }

  lemma DecisionKeepsFit(m: Machine, op: OperationId, firedAt: int, now: int)
    requires m.state.Some? && Consistent(m.state.value)
    ensures Kept(m, Decide(m, op, firedAt, now)) && Kept(m, StartProbe(m, now))
  {
    hide NextAlarmAt;
  }

  lemma AlarmKeepsFit(m: Machine, op: OperationId, epoch: Epoch, now: int)
    requires m.state.Some? && Consistent(m.state.value)
    ensures Kept(m, AlarmFires(m, op, epoch, now))
  {
    hide NextAlarmAt, Decide, ContinueWake;
    DecisionKeepsFit(m.(alarm := None), op, now, now);
    WakeKeepsFit(m.(alarm := None), false, op, epoch, now);
  }

  lemma StepKeepsFit(m: Machine, e: Event, now: int)
    requires m.state.Some? && Consistent(m.state.value) && CallsFitPhase(m) && !e.EMarkDeleted?
    ensures CallsFitPhase(Step(m, e, now))
  {
    hide NextAlarmAt, AlarmFires, Decide, WakeReply, ProbeReply, StopReply, ContinueWake, BeginWork, RenewWork, EndWork,
      ObserveExecution, StartProbe;
    match e
    case EWake(op, epoch) => WakeKeepsFit(m, true, op, epoch, now);
    case EWakeAfterStop(op, epoch) => OwedWakeKeepsFit(m, op, epoch, now);
    case EBeginWork(epoch, ttl, lease) => WorkKeepsFit(m, epoch, ttl, lease, Snapshot(Running, None, true), now);
    case ERenewWork(epoch, ttl, lease) => WorkKeepsFit(m, epoch, ttl, lease, Snapshot(Running, None, true), now);
    case EEndWork(epoch, lease) => WorkKeepsFit(m, epoch, None, lease, Snapshot(Running, None, true), now);
    case EObserve(epoch, snapshot) => WorkKeepsFit(m, epoch, None, 0, snapshot, now);
    case EWakeReply(answer) => RepliesKeepFit(m, answer, Failed, now);
    case EProbeReply(answer) => RepliesKeepFit(m, answer, Failed, now);
    case EStopReply(answer) => RepliesKeepFit(m, Failed, answer, now);
    case EAlarm(op, epoch) => AlarmKeepsFit(m, op, epoch, now);
    case EAlarmDecides(op) =>
      if m.turn.Deciding? { DecisionKeepsFit(m, op, m.turn.firedAt, now); }
    case EReconcile => DecisionKeepsFit(m, 0, 0, now);
    case _ =>
  }

  /** A run that keeps its stored state can drop the alarm in two ways: a superseded
      probe fails after the alarm handler has joined it, */
  ghost predicate SupersededProbeFails(m: Machine, e: Event) {
    && e.EProbeReply? && e.answer.Failed?
    && m.state.Some? && NeedsAlarm(m.state.value) && m.alarm.None?
    && m.probe.Some? && m.probe.value.ProbeSent? && !ProbeIsCurrent(m, m.probe.value)
  }

  /** and a stop that was answered before another one began is over, its owed wake
      superseded or not to be any more, after the alarm handler has joined it. */
  ghost predicate JoinedStopEnds(m: Machine, e: Event) {
    && m.state.Some? && NeedsAlarm(m.state.value) && m.alarm.None? && m.turn.AwaitingStop?
    && (|| (e.EWakeReply? && m.tail.AwaitsWake? && m.wake.Some? && !WakeIsCurrent(m, m.wake.value))
        || (&& e.EWakeAfterStop? && m.tail.OwesWake? && m.wake.None?
            && !m.state.value.phase.Waking? && !m.state.value.phase.ErrorWaking?))
  }

  lemma AlarmIsAttended(m: Machine, op: OperationId, epoch: Epoch, clock: int, now: int)
    requires Inv(m, clock) && NextProbePrompt(m, clock) && clock <= now
    requires Attended(m) && CallsFitPhase(m)
    ensures Attended(AlarmFires(m, op, epoch, now))
  {
    hide NextAlarmAt, Decide, RemoveExpiredLeases;
    AlarmSchedules(m, op, epoch, clock, now);
    if !Rescheduled(AlarmFires(m, op, epoch, now), now) && m.state.Some? {
      DecisionAttends(m.(alarm := None), op, now, clock, now);
    }
  }

  lemma DecisionAttends(m: Machine, op: OperationId, firedAt: int, clock: int, now: int)
    requires Inv(m, clock) && NextProbePrompt(m, clock) && firedAt <= now && clock <= now
    ensures Attended(Decide(m, op, firedAt, now))
  {
    WritesReschedule(now);
    hide NextAlarmAt;
  }

  lemma StepIsAttended(m: Machine, e: Event, clock: int, now: int)
    requires Inv(m, clock) && NextProbePrompt(m, clock) && clock <= now
    requires Attended(m) && CallsFitPhase(m) && !e.EMarkDeleted?
    requires !SupersededProbeFails(m, e) && !JoinedStopEnds(m, e)
    ensures Attended(Step(m, e, now))
  {
    StepSchedules(m, e, clock, now);
    if !Rescheduled(Step(m, e, now), now) {
      hide NextAlarmAt, AlarmFires, Decide, WakeReply, ProbeReply, StopReply, WakeAfterStop, ApplyExecutionSnapshot,
        RemoveExpiredLeases;
      match e
      case EAlarm(op, epoch) => AlarmIsAttended(m, op, epoch, clock, now);
      case EAlarmDecides(op) =>
        if m.turn.Deciding? { DecisionAttends(m, op, m.turn.firedAt, clock, now); }
      case EWakeReply(answer) => WakeReplyAttends(m, answer, clock, now);
      case EProbeReply(answer) => ProbeReplyAttends(m, answer, clock, now);
      case EStopReply(answer) => StopReplyAttends(m, answer, clock, now);
      case EWakeAfterStop(op, epoch) => OwedWakeAttends(m, op, epoch, clock, now);
      case _ =>
    }
  }

  lemma OwedWakeAttends(m: Machine, op: OperationId, epoch: Epoch, clock: int, now: int)
    requires Inv(m, clock) && NextProbePrompt(m, clock) && clock <= now
    requires Attended(m) && CallsFitPhase(m) && !JoinedStopEnds(m, EWakeAfterStop(op, epoch))
    ensures Attended(WakeAfterStop(m, op, epoch, now))
  {
    WritesReschedule(now);
    hide NextAlarmAt;
  }

  /** A reply that stores nothing was superseded, so that something else attends. */
  lemma WakeReplyAttends(m: Machine, answer: Result<Snapshot>, clock: int, now: int)
    requires NextProbePrompt(m, clock) && clock <= now
    requires Attended(m) && CallsFitPhase(m) && !JoinedStopEnds(m, EWakeReply(answer))
    ensures Attended(WakeReply(m, answer, now))
  {
    WritesReschedule(now);
    hide NextAlarmAt, ApplyExecutionSnapshot;
  }

  lemma ProbeReplyAttends(m: Machine, answer: Result<Snapshot>, clock: int, now: int)
    requires NextProbePrompt(m, clock) && clock <= now
    requires Attended(m) && CallsFitPhase(m) && !SupersededProbeFails(m, EProbeReply(answer))
    ensures Attended(ProbeReply(m, answer, now))
  {
    WritesReschedule(now);
    hide NextAlarmAt, ApplyExecutionSnapshot, ApplyUnknownActivity;
  }

  lemma StopReplyAttends(m: Machine, answer: Result<StopOutcome>, clock: int, now: int)
    requires NextProbePrompt(m, clock) && clock <= now
    requires Attended(m) && CallsFitPhase(m)
    ensures Attended(StopReply(m, answer, now))
  {
    WritesReschedule(now);
    hide NextAlarmAt, ApplyExecutionSnapshot;
  }

  /** In a run that never deletes the stored state only those two lose the alarm: as
      long as neither happens an instance is never forgotten. */
  lemma {:induction false} OnlyJoinedHandlersLoseTheAlarm(run: Run, i: nat)
    requires IsRun(run) && i <= |run.ticks|
    requires forall k {:trigger run.ticks[k]} | 0 <= k < i ::
               && !run.ticks[k].event.EMarkDeleted?
               && !SupersededProbeFails(run.states[k].m, run.ticks[k].event)
               && !JoinedStopEnds(run.states[k].m, run.ticks[k].event)
    ensures !Forgotten(run.states[i].m)
    ensures Attended(run.states[i].m) && CallsFitPhase(run.states[i].m)
  {
    hide Step, Remember, WakeIsCurrent, StopIsCurrent;
    if i > 0 {
      OnlyJoinedHandlersLoseTheAlarm(run, i - 1);
      RunsAreSound(run, i - 1);
      AlarmsAreSetWithinAMinute(run, i - 1);
      var before, t := run.states[i - 1], run.ticks[i - 1];
      StepIsAttended(before.m, t.event, before.clock, t.at);
      StepFits(before.m, t.event, before.clock, t.at);
    }
  }

  lemma StepFits(m: Machine, e: Event, clock: int, now: int)
    requires Inv(m, clock) && clock <= now && CallsFitPhase(m) && !e.EMarkDeleted?
    ensures CallsFitPhase(Step(m, e, now))
  {
    if m.state.Some? {
      StepKeepsFit(m, e, now);
    } else {
      hide NextAlarmAt;
    }
  }

  // --- without reconciliations ---------------------------------------------------

  /** Only the alarm handler probes, and while no alarm is set its probe is current. */
  ghost predicate ProbesForTheAlarm(m: Machine) {
    && (m.probe.Some? ==> m.turn.AwaitingProbe?)
    && (m.probe.Some? && m.state.Some? && NeedsAlarm(m.state.value) && m.alarm.None? ==>
       ProbeIsCurrent(m, m.probe.value))
  }

  lemma DecisionProbesForTheAlarm(m: Machine, op: OperationId, firedAt: int, clock: int, now: int)
    requires NextProbePrompt(m, clock) && clock <= now && m.probe.None?
    ensures ProbesForTheAlarm(Decide(m, op, firedAt, now))
  {
    if m.state.Some? { RemovalIsPrompt(m.state.value, now); }
    WritesReschedule(now);
    hide NextAlarmAt, RemoveExpiredLeases;
  }

  lemma AlarmProbesForItself(m: Machine, op: OperationId, epoch: Epoch, clock: int, now: int)
    requires NextProbePrompt(m, clock) && clock <= now && ProbesForTheAlarm(m)
    ensures ProbesForTheAlarm(AlarmFires(m, op, epoch, now))
  {
    hide NextAlarmAt, Decide, RemoveExpiredLeases;
    if m.probe.None? { DecisionProbesForTheAlarm(m.(alarm := None), op, now, now, now); }
  }

  lemma StepProbesForTheAlarm(m: Machine, e: Event, clock: int, now: int)
    requires Inv(m, clock) && NextProbePrompt(m, clock) && clock <= now
    requires ProbesForTheAlarm(m) && !e.EReconcile?
    ensures ProbesForTheAlarm(Step(m, e, now))
  {
    match e
    case EAlarm(op, epoch) => hide Step; AlarmProbesForItself(m, op, epoch, clock, now);
    case EAlarmDecides(op) =>
      if m.turn.Deciding? { DecisionProbesForTheAlarm(m, op, m.turn.firedAt, clock, now); }
    case _ =>
      StepSchedules(m, e, clock, now);
      OthersLeaveTheProbe(m, e, clock, now);
      hide Step;
  }

  lemma OthersLeaveTheProbe(m: Machine, e: Event, clock: int, now: int)
    requires !e.EReconcile? && !e.EAlarm? && !e.EAlarmDecides? && ProbesForTheAlarm(m)
    requires NextProbePrompt(m, clock) && clock <= now && Schedules(m, Step(m, e, now), now)
    ensures var r := Step(m, e, now);
            && (r.probe.Some? ==> m.probe.Some? && r.turn.AwaitingProbe?)
            && (r.probe.Some? ==> r.probe == m.probe || ProbeIsCurrent(r, r.probe.value))
            && (r.probe.Some? && r.alarm.None? && !Rescheduled(r, now) ==> m.alarm.None?)
  {
    WritesReschedule(now);
    hide NextAlarmAt, ApplyExecutionSnapshot, ApplyUnknownActivity, ActiveLeases, RemoveExpiredLeases,
      NormalizeLeaseTtl;
  }

  /** In every run without a reconciliation only the alarm handler probes. */
  lemma {:induction false} ProbesAreTheAlarms(run: Run, i: nat)
    requires IsRun(run) && i <= |run.ticks|
    requires forall k {:trigger run.ticks[k]} | 0 <= k < i :: !run.ticks[k].event.EReconcile?
    ensures ProbesForTheAlarm(run.states[i].m)
  {
    hide Step, Remember, ProbesForTheAlarm;
    if i > 0 {
      ProbesAreTheAlarms(run, i - 1);
      RunsAreSound(run, i - 1);
      AlarmsAreSetWithinAMinute(run, i - 1);
      var before, t := run.states[i - 1], run.ticks[i - 1];
      StepProbesForTheAlarm(before.m, t.event, before.clock, t.at);
    } else {
      NobodyProbesYet();
    }
  }

  lemma NobodyProbesYet()
    ensures ProbesForTheAlarm(Uninitialized)
  {}

  lemma AlarmProbesAreNotSuperseded(m: Machine, e: Event)
    requires ProbesForTheAlarm(m)
    ensures !SupersededProbeFails(m, e)
  {}

  /** In every run that keeps its stored state, calls fit the phase. */
  lemma {:induction false} CallsAlwaysFit(run: Run, i: nat)
    requires IsRun(run) && i <= |run.ticks|
    requires forall k {:trigger run.ticks[k]} | 0 <= k < i :: !run.ticks[k].event.EMarkDeleted?
    ensures CallsFitPhase(run.states[i].m)
  {
    hide Step, Remember, WakeIsCurrent, StopIsCurrent;
    if i > 0 {
      CallsAlwaysFit(run, i - 1);
      RunsAreSound(run, i - 1);
      var before, t := run.states[i - 1], run.ticks[i - 1];
      StepFits(before.m, t.event, before.clock, t.at);
    }
  }

  /** Who is forgotten stays so until something stores the state or sends a stop. */
  lemma ForgottenOrAttended(m: Machine, e: Event, clock: int, now: int)
    requires NextProbePrompt(m, clock) && AlarmSound(m, clock) && clock <= now
    requires Forgotten(m) && !e.EReconcile? && !e.EMarkDeleted?
    ensures Attended(Step(m, e, now)) || Forgotten(Step(m, e, now))
  {
    StepSchedules(m, e, clock, now);
    hide NextAlarmAt, RemoveExpiredLeases, ApplyExecutionSnapshot, NormalizeLeaseTtl;
  }

  /** The end of a joined stop takes the last thing in progress away. */
  lemma JoinedEndsDrop(m: Machine, e: Event)
    requires CallsFitPhase(m) && ProbesForTheAlarm(m) && JoinedStopEnds(m, e)
    ensures DropsTheAlarm(m, e) && !Forgotten(m)
  {
    hide WakeIsCurrent, StopIsCurrent, ProbeIsCurrent;
  }

  /** Where no reconciliation and no deletion happens, the instance is attended or
      forgotten. */
  lemma {:induction false} AttendedOrForgotten(run: Run, i: nat)
    requires IsRun(run) && i <= |run.ticks|
    requires forall k {:trigger run.ticks[k]} | 0 <= k < i ::
               !run.ticks[k].event.EReconcile? && !run.ticks[k].event.EMarkDeleted?
    ensures Attended(run.states[i].m) || Forgotten(run.states[i].m)
  {
    hide Step, Remember, WakeIsCurrent, StopIsCurrent, Forgotten, SupersededProbeFails, JoinedStopEnds,
      ProbesForTheAlarm, DropsTheAlarm;
    if i > 0 {
      AttendedOrForgotten(run, i - 1);
      RunsAreSound(run, i - 1);
      AlarmsAreSetWithinAMinute(run, i - 1);
      CallsAlwaysFit(run, i - 1);
      ProbesAreTheAlarms(run, i - 1);
      var before, t := run.states[i - 1], run.ticks[i - 1];
      AlarmProbesAreNotSuperseded(before.m, t.event);
      if Forgotten(before.m) {
        ForgottenOrAttended(before.m, t.event, before.clock, t.at);
      } else if JoinedStopEnds(before.m, t.event) {
        JoinedEndsDrop(before.m, t.event);
        AlarmIsForgottenExactlyWhenDropped(before.m, t.event, before.clock, t.at);
      } else {
        StepIsAttended(before.m, t.event, before.clock, t.at);
      }
    }
  }

  lemma AttendedIsNotForgotten(m: Machine)
    requires Attended(m)
    ensures !Forgotten(m)
  {}

  /** In a run without reconciliations and without deletion of the stored state the
      alarm is lost at exactly the events that end a joined stop. */
  lemma WithoutReconciliationsOnlyJoinedStopsForget(run: Run, i: nat)
    requires IsRun(run) && i < |run.ticks| && !Forgotten(run.states[i].m)
    requires forall k {:trigger run.ticks[k]} | 0 <= k <= i ::
               !run.ticks[k].event.EReconcile? && !run.ticks[k].event.EMarkDeleted?
    ensures Forgotten(run.states[i + 1].m) <==> JoinedStopEnds(run.states[i].m, run.ticks[i].event)
  {
    hide Step, Remember, Forgotten, Attended, CallsFitPhase, SupersededProbeFails, JoinedStopEnds, ProbesForTheAlarm,
      DropsTheAlarm;
    AttendedOrForgotten(run, i);
    RunsAreSound(run, i);
    AlarmsAreSetWithinAMinute(run, i);
    CallsAlwaysFit(run, i);
    ProbesAreTheAlarms(run, i);
    var before, t := run.states[i], run.ticks[i];
    AlarmProbesAreNotSuperseded(before.m, t.event);
    if JoinedStopEnds(before.m, t.event) {
      JoinedEndsDrop(before.m, t.event);
      AlarmIsForgottenExactlyWhenDropped(before.m, t.event, before.clock, t.at);
    } else {
      StepIsAttended(before.m, t.event, before.clock, t.at);
      AttendedIsNotForgotten(run.states[i + 1].m);
    }
  }

  // --- without a forced stop behind a stop -----------------------------------------

  /** A forced stop begins while an answered stop is still in progress. */
  ghost predicate StopsBehindAStop(m: Machine, e: Event) {
    && e.EForceStop? && !m.tail.NoTail?
    && m.state.Some? && !InPhase(m, Sleeping) && !InPhase(m, Deleting) && !InPhase(m, Quiescing)
  }

  /** Who waits for an answered stop has its alarm, and only the alarm handler began
      the stop that waits behind it. */
  ghost predicate JoinersKeepTheAlarm(m: Machine) {
    && (m.turn.AwaitingStop? && !m.tail.NoTail? && m.state.Some? && NeedsAlarm(m.state.value) ==> m.alarm.Some?)
    && (InPhase(m, Quiescing) && !m.tail.NoTail? ==> m.turn.AwaitingStop?)
  }

  lemma WakesJoin(m: Machine, explicit: bool, op: OperationId, epoch: Epoch, clock: int, now: int)
    requires NextProbePrompt(m, clock) && clock <= now && JoinersKeepTheAlarm(m)
    ensures JoinersKeepTheAlarm(ContinueWake(m, explicit, op, epoch, now))
    ensures JoinersKeepTheAlarm(Wake(m, op, epoch, now)) && JoinersKeepTheAlarm(WakeAfterStop(m, op, epoch, now))
  {
    WritesReschedule(now);
    hide NextAlarmAt;
  }

  lemma WorkJoins(m: Machine, epoch: Epoch, ttl: Option<int>, id: LeaseId, clock: int, now: int)
    requires NextProbePrompt(m, clock) && clock <= now && JoinersKeepTheAlarm(m)
    ensures JoinersKeepTheAlarm(BeginWork(m, epoch, ttl, id, now)) && JoinersKeepTheAlarm(EndWork(m, epoch, id, now))
    ensures JoinersKeepTheAlarm(RenewWork(m, epoch, ttl, id, now))
  {
    hide NextAlarmAt, NormalizeLeaseTtl;
    WritesReschedule(now);
  }

  lemma ObservationJoins(m: Machine, epoch: Epoch, snapshot: Snapshot, clock: int, now: int)
    requires NextProbePrompt(m, clock) && clock <= now && JoinersKeepTheAlarm(m)
    ensures JoinersKeepTheAlarm(ObserveExecution(m, epoch, snapshot, now))
  {
    hide NextAlarmAt, ApplyExecutionSnapshot;
    WritesReschedule(now);
    if m.state.Some? { SnapshotLeavesNoCall(m.state.value, snapshot, now); }
  }

  lemma SnapshotStaysUp(now: int)
    ensures forall s: State, x: Snapshot {:trigger ApplyExecutionSnapshot(s, x, now)} ::
              var phase := ApplyExecutionSnapshot(s, x, now).phase; IsAdmission(phase) || phase.Sleeping?
  {
    forall s: State, x: Snapshot
      ensures var phase := ApplyExecutionSnapshot(s, x, now).phase; IsAdmission(phase) || phase.Sleeping?
    {
      SnapshotLeavesNoCall(s, x, now);
    }
  }

  lemma WakeReplyJoins(m: Machine, answer: Result<Snapshot>, clock: int, now: int)
    requires NextProbePrompt(m, clock) && clock <= now && JoinersKeepTheAlarm(m)
    ensures JoinersKeepTheAlarm(WakeReply(m, answer, now))
  {
    WakeReplySchedules(m, answer, clock, now);
    SnapshotStaysUp(now);
    hide NextAlarmAt, ApplyExecutionSnapshot, NextProbePrompt;
  }

  lemma ProbeReplyJoins(m: Machine, answer: Result<Snapshot>, clock: int, now: int)
    requires NextProbePrompt(m, clock) && clock <= now && JoinersKeepTheAlarm(m)
    ensures JoinersKeepTheAlarm(ProbeReply(m, answer, now))
  {
    ProbeReplySchedules(m, answer, clock, now);
    SnapshotStaysUp(now);
    hide NextAlarmAt, ApplyExecutionSnapshot, NextProbePrompt;
  }

  lemma StopReplyJoins(m: Machine, answer: Result<StopOutcome>, clock: int, now: int)
    requires CallsFitPhase(m) && JoinersKeepTheAlarm(m)
    ensures JoinersKeepTheAlarm(StopReply(m, answer, now))
  {
    hide NextAlarmAt, ApplyExecutionSnapshot;
  }

  lemma RemovalStaysUp(s: State, now: int)
    requires IsAdmission(s.phase)
    ensures var r := RemoveExpiredLeases(s, now); r.Some? ==> r.value.phase.RunningUnknown?
  {}

  lemma DecisionJoins(m: Machine, op: OperationId, firedAt: int, clock: int, now: int)
    requires NextProbePrompt(m, clock) && firedAt <= now && clock <= now && JoinersKeepTheAlarm(m)
    ensures !m.turn.AwaitingStop? ==> JoinersKeepTheAlarm(Decide(m, op, firedAt, now))
    ensures JoinersKeepTheAlarm(StartProbe(m, now))
  {
    WritesReschedule(now);
    if InAdmission(m) {
      RemovalIsPrompt(m.state.value, now);
      RemovalStaysUp(m.state.value, now);
    }
    hide NextAlarmAt, RemoveExpiredLeases;
  }

  lemma AlarmJoins(m: Machine, op: OperationId, epoch: Epoch, clock: int, now: int)
    requires NextProbePrompt(m, clock) && clock <= now && JoinersKeepTheAlarm(m)
    ensures JoinersKeepTheAlarm(AlarmFires(m, op, epoch, now))
  {
    if InAdmission(m) { RemovalStaysUp(m.state.value, now); }
    hide NextAlarmAt, Decide, RemoveExpiredLeases;
    if m.turn.NoTurn? { DecisionJoins(m.(alarm := None), op, now, clock, now); }
  }

  lemma StepJoinsWithTheAlarm(m: Machine, e: Event, clock: int, now: int)
    requires Inv(m, clock) && NextProbePrompt(m, clock) && clock <= now
    requires JoinersKeepTheAlarm(m) && CallsFitPhase(m) && !StopsBehindAStop(m, e)
    ensures JoinersKeepTheAlarm(Step(m, e, now))
  {
    hide NextAlarmAt, AlarmFires, Decide, WakeReply, ProbeReply, StopReply, ContinueWake, WakeAfterStop, BeginWork,
      RenewWork, EndWork, ObserveExecution, StartProbe;
    match e
    case EWake(op, epoch) => WakesJoin(m, true, op, epoch, clock, now);
    case EWakeAfterStop(op, epoch) => WakesJoin(m, true, op, epoch, clock, now);
    case EBeginWork(epoch, ttl, lease) => WorkJoins(m, epoch, ttl, lease, clock, now);
    case ERenewWork(epoch, ttl, lease) => WorkJoins(m, epoch, ttl, lease, clock, now);
    case EEndWork(epoch, lease) => WorkJoins(m, epoch, None, lease, clock, now);
    case EObserve(epoch, snapshot) => ObservationJoins(m, epoch, snapshot, clock, now);
    case EReconcile => DecisionJoins(m, 0, clock, clock, now);
    case EWakeReply(answer) => WakeReplyJoins(m, answer, clock, now);
    case EProbeReply(answer) => ProbeReplyJoins(m, answer, clock, now);
    case EStopReply(answer) => StopReplyJoins(m, answer, clock, now);
    case EAlarm(op, epoch) => AlarmJoins(m, op, epoch, clock, now);
    case EAlarmDecides(op) =>
      if m.turn.Deciding? { DecisionJoins(m, op, m.turn.firedAt, clock, now); }
    case _ => WritesReschedule(now);
  }

  lemma {:induction false} JoinersHaveTheAlarm(run: Run, i: nat)
    requires IsRun(run) && i <= |run.ticks|
    requires forall k {:trigger run.ticks[k]} | 0 <= k < i ::
               !run.ticks[k].event.EMarkDeleted? && !StopsBehindAStop(run.states[k].m, run.ticks[k].event)
    ensures JoinersKeepTheAlarm(run.states[i].m)
  {
    hide Step, Remember, StopsBehindAStop;
    if i > 0 {
      JoinersHaveTheAlarm(run, i - 1);
      RunsAreSound(run, i - 1);
      AlarmsAreSetWithinAMinute(run, i - 1);
      CallsAlwaysFit(run, i - 1);
      var before, t := run.states[i - 1], run.ticks[i - 1];
      StepJoinsWithTheAlarm(before.m, t.event, before.clock, t.at);
    }
  }

  lemma JoinersAreNotDropped(m: Machine, e: Event)
    requires JoinersKeepTheAlarm(m)
    ensures !JoinedStopEnds(m, e)
  {}

  /** In every run without a reconciliation, without deletion of the stored state and
      without a forced stop that begins while an answered stop is in progress, an
      instance that needs its alarm is attended, and never forgotten. */
  lemma WithoutReconciliationsTheAlarmStays(run: Run, i: nat)
    requires IsRun(run) && i <= |run.ticks|
    requires forall k {:trigger run.ticks[k]} | 0 <= k < i ::
               && !run.ticks[k].event.EReconcile? && !run.ticks[k].event.EMarkDeleted?
               && !StopsBehindAStop(run.states[k].m, run.ticks[k].event)
    ensures Attended(run.states[i].m) && !Forgotten(run.states[i].m)
  {
    hide Next, CanTick, ProbesForTheAlarm, SupersededProbeFails, JoinedStopEnds, JoinersKeepTheAlarm, Attended,
      Forgotten;
    forall k | 0 <= k < i
      ensures !run.ticks[k].event.EMarkDeleted? && !SupersededProbeFails(run.states[k].m, run.ticks[k].event)
      ensures !JoinedStopEnds(run.states[k].m, run.ticks[k].event)
    {
      ProbesAreTheAlarms(run, k);
      AlarmProbesAreNotSuperseded(run.states[k].m, run.ticks[k].event);
      JoinersHaveTheAlarm(run, k);
      JoinersAreNotDropped(run.states[k].m, run.ticks[k].event);
    }
    OnlyJoinedHandlersLoseTheAlarm(run, i);
  }
}
