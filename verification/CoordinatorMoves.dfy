/** The moves of a coordinator that another object can notice: which epoch it
    admits, wakes or stops, and which requests it has out. */
module CoordinatorMoves {
  import opened Wrappers
  import opened LifecycleState
  import opened CoordinatorSteps
  import opened CoordinatorInvariant
  import opened CoordinatorLaws

  ghost predicate IsWaking(m: Machine) {
    InPhase(m, Waking) || InPhase(m, ErrorWaking)
  }

  ghost function EpochOf(m: Machine): Option<Epoch> {
    if m.state.Some? then m.state.value.epoch else None
  }

  /** A wake call is new and current, unchanged, or just marked as sent. */
  ghost predicate WakeMoves(m: Machine, r: Machine, e: Event) {
    r.wake.Some? ==>
      || r.wake == m.wake
      || (m.wake.None? && !r.wake.value.sent && WakeIsCurrent(r, r.wake.value))
      || (e.ESendWake? && m.wake.Some? && m.state.Some? && r == m.(wake := Some(m.wake.value.(sent := true))))
  }

  /** A stop call is new and names the stored operation, or unchanged. */
  ghost predicate StopMoves(m: Machine, r: Machine) {
    r.stop.Some? ==>
      || r.stop == m.stop
      || (&& m.stop.None? && InPhase(r, Quiescing) && r.state.value.operation.Some?
          && r.stop.value == StopCall(r.state.value.operation.value, r.state.value.epoch, r.state.value.revision))
  }

  /** Admission opens only on a current reply, and for the epoch already held. */
  ghost predicate AdmissionMoves(m: Machine, r: Machine, e: Event) {
    InAdmission(r) ==>
      && m.state.Some? && r.state.value.epoch == m.state.value.epoch
      && (|| InAdmission(m)
          || (e.EWakeReply? && e.answer.Ok? && m.wake.Some? && WakeIsCurrent(m, m.wake.value))
          || (e.EStopReply? && e.stopAnswer.Ok? && (e.stopAnswer.value.Busy? || e.stopAnswer.value.FailedRunning?)
              && m.stop.Some? && StopIsCurrent(m, m.stop.value)))
  }

  /** Waking is for the epoch already being woken, or for a fresh one. */
  ghost predicate WakingMoves(m: Machine, r: Machine, e: Event) {
    IsWaking(r) ==>
      || (IsWaking(m) && r.state.value.epoch == m.state.value.epoch
         && (m.wake.Some? && r.wake.Some? ==> r.state == m.state))
      || (r.state.value.epoch.Some? && r.state.value.epoch.value in Drawn(e) && m.wake.None?)
  }

  /** Stopping goes on with its operation, or begins with a fresh one. */
  ghost predicate QuiescingMoves(m: Machine, r: Machine, e: Event) {
    InPhase(r, Quiescing) ==>
      && m.state.Some? && r.state.value.epoch == m.state.value.epoch && r.state.value.operation.Some?
      && (|| (InPhase(m, Quiescing) && r.state.value.operation == m.state.value.operation)
          || (!InPhase(m, Quiescing) && r.state.value.operation.value.id in Drawn(e)))
  }

  ghost predicate Moves(m: Machine, r: Machine, e: Event) {
    && WakeMoves(m, r, e) && StopMoves(m, r) && AdmissionMoves(m, r, e)
    && WakingMoves(m, r, e) && QuiescingMoves(m, r, e)
  }

  lemma DecisionMoves(m: Machine, e: Event, op: OperationId, firedAt: int, now: int)
    requires m.state.Some? ==> Consistent(m.state.value)
    requires op in Drawn(e)
    ensures Moves(m, Decide(m, op, firedAt, now), e)
  {
    hide NextAlarmAt, ActiveLeases, UnexpiredLeases;
  }

  lemma WorkMoves(m: Machine, e: Event, epoch: Epoch, ttl: Option<int>, id: LeaseId, now: int)
    requires m.state.Some? ==> Consistent(m.state.value)
    ensures Moves(m, BeginWork(m, epoch, ttl, id, now), e)
    ensures Moves(m, RenewWork(m, epoch, ttl, id, now), e)
  {
    hide NextAlarmAt, NormalizeLeaseTtl;
  }

  lemma EndWorkMoves(m: Machine, e: Event, epoch: Epoch, id: LeaseId, now: int)
    requires m.state.Some? ==> Consistent(m.state.value)
    ensures Moves(m, EndWork(m, epoch, id, now), e)
  {
    hide NextAlarmAt;
    var r := EndWork(m, epoch, id, now);
    if HoldsLease(m, epoch, id) {
      assert id in m.state.value.leases.Keys && InAdmission(m);
      assert InAdmission(r) && r.state.value.epoch == m.state.value.epoch;
    }
    assert r.wake == m.wake && r.stop == m.stop;
    hide EndWork, ClearIdleWindow, Put, Persist;
  }

  lemma SnapshotMoves(s: State, snapshot: Snapshot, now: int)
    ensures var r := ApplyExecutionSnapshot(s, snapshot, now);
            (IsAdmission(r.phase) && r.epoch == s.epoch) || (r.phase.Sleeping? && r.epoch.None?)
  {
    hide ActiveLeases;
  }

  lemma ObservationMoves(m: Machine, e: Event, epoch: Epoch, snapshot: Snapshot, now: int)
    requires m.state.Some? ==> Consistent(m.state.value)
    ensures Moves(m, ObserveExecution(m, epoch, snapshot, now), e)
  {
    if m.state.Some? { SnapshotMoves(m.state.value, snapshot, now); }
    hide NextAlarmAt, ApplyExecutionSnapshot;
  }

  lemma WakeRequestMoves(m: Machine, e: Event, explicit: bool, op: OperationId, epoch: Epoch, now: int)
    requires m.state.Some? ==> Consistent(m.state.value)
    requires epoch in Drawn(e)
    ensures Moves(m, ContinueWake(m, explicit, op, epoch, now), e)
  {
    hide NextAlarmAt;
  }

  lemma WakeReplyMoves(m: Machine, answer: Result<Snapshot>, now: int)
    requires m.state.Some? ==> Consistent(m.state.value)
    ensures Moves(m, WakeReply(m, answer, now), EWakeReply(answer))
  {
    hide NextAlarmAt, ActiveLeases;
  }

  lemma ProbeReplyMoves(m: Machine, answer: Result<Snapshot>, now: int)
    requires m.state.Some? ==> Consistent(m.state.value)
    ensures Moves(m, ProbeReply(m, answer, now), EProbeReply(answer))
  {
    hide NextAlarmAt, ActiveLeases;
  }

  lemma StopReplyMoves(m: Machine, answer: Result<StopOutcome>, now: int)
    requires m.state.Some? ==> Consistent(m.state.value)
    ensures Moves(m, StopReply(m, answer, now), EStopReply(answer))
  {
    hide NextAlarmAt, ActiveLeases;
  }

  lemma AlarmMoves(m: Machine, op: OperationId, epoch: Epoch, now: int)
    requires m.state.Some? ==> Consistent(m.state.value)
    ensures Moves(m, AlarmFires(m, op, epoch, now), EAlarm(op, epoch))
  {
    hide NextAlarmAt, ActiveLeases, UnexpiredLeases, Decide, ContinueWake;
    DecisionMoves(m.(alarm := None), EAlarm(op, epoch), op, now, now);
    WakeRequestMoves(m.(alarm := None), EAlarm(op, epoch), false, op, epoch, now);
  }

  lemma ForceStopMoves(m: Machine, e: Event, op: OperationId, now: int)
    requires m.state.Some? ==> Consistent(m.state.value)
    requires op in Drawn(e)
    ensures Moves(m, ForceStopRequest(m, op, now), e)
  {
    hide NextAlarmAt;
  }

  lemma ProbeStartMoves(m: Machine, e: Event, now: int)
    requires m.state.Some? ==> Consistent(m.state.value)
    ensures Moves(m, StartProbe(m, now), e)
  {
    hide NextAlarmAt, ActiveLeases, UnexpiredLeases;
  }

  lemma StepMoves(m: Machine, e: Event, now: int)
    requires m.state.Some? ==> Consistent(m.state.value)
    ensures Moves(m, Step(m, e, now), e)
  {
    hide NextAlarmAt, ActiveLeases, UnexpiredLeases, AlarmFires, Decide, WakeReply, ProbeReply, StopReply, ContinueWake,
      BeginWork, RenewWork, EndWork, ObserveExecution, ForceStopRequest, StartProbe;
    match e
    case EForceStop(op) => ForceStopMoves(m, e, op, now);
    case EReconcile => ProbeStartMoves(m, e, now);
    case EWake(op, epoch) => WakeRequestMoves(m, e, true, op, epoch, now);
    case EWakeAfterStop(op, epoch) => WakeRequestMoves(m, e, true, op, epoch, now);
    case EBeginWork(epoch, ttl, lease) => WorkMoves(m, e, epoch, ttl, lease, now);
    case ERenewWork(epoch, ttl, lease) => WorkMoves(m, e, epoch, ttl, lease, now);
    case EEndWork(epoch, lease) => EndWorkMoves(m, e, epoch, lease, now);
    case EObserve(epoch, snapshot) => ObservationMoves(m, e, epoch, snapshot, now);
    case EWakeReply(answer) => WakeReplyMoves(m, answer, now);
    case EProbeReply(answer) => ProbeReplyMoves(m, answer, now);
    case EStopReply(answer) => StopReplyMoves(m, answer, now);
    case EAlarm(op, epoch) => AlarmMoves(m, op, epoch, now);
    case EAlarmDecides(op) =>
      if m.turn.Deciding? { DecisionMoves(m, e, op, m.turn.firedAt, now); }
    case _ =>
  }
}
