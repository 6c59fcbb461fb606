/** What every piece of the coordinator keeps. */
module CoordinatorInvariant {
  import opened Wrappers
  import opened LifecycleState
  import opened CoordinatorSteps

  /** The epoch is present exactly outside sleeping and deleting, an operation
      exactly in the three phases that carry one out, and leases only where work
      is admitted, each for the current epoch. */
  ghost predicate Consistent(s: State) {
    && (s.epoch.Some? <==> !s.phase.Sleeping? && !s.phase.Deleting?)
    && (s.operation.Some? <==> s.phase.Waking? || s.phase.ErrorWaking? || s.phase.Quiescing?)
    && (s.phase.Waking? || s.phase.ErrorWaking? ==> s.operation.value.kind.WakeOperation?)
    && (s.phase.Quiescing? ==> !s.operation.value.kind.WakeOperation?)
    && (forall id | id in s.leases :: IsAdmission(s.phase) && s.epoch == Some(s.leases[id].epoch))
  }

  /** The idle window never reaches back before the last work, and an idle
      deadline is the whole timeout after the first idle observation. */
  ghost predicate IdleWindowSound(s: State) {
    && (s.idleCandidateSince.Some? && s.lastSemanticWorkAt.Some? ==>
          s.lastSemanticWorkAt.value <= s.idleCandidateSince.value)
    && (s.phase.Waking? || s.phase.ErrorWaking? ==> s.idleConfirmations == 0)
    && (s.phase.RunningIdle? ==>
          && s.idleCandidateSince.Some?
          && s.idleSince == s.idleCandidateSince
          && s.idleDeadlineAt == Some(s.idleSince.value + s.idleTimeout.GetOr(IDLE_TIMEOUT_MS))
          && s.idleConfirmations >= REQUIRED_IDLE_CONFIRMATIONS)
  }

  ghost predicate Sound(s: State) { Consistent(s) && IdleWindowSound(s) }

  /** The leases an alarm saw alive when it fired are still unexpired at that
      instant when it decides. */
  ghost predicate AlarmSound(m: Machine, clock: int) {
    m.turn.Deciding? ==>
      && m.turn.firedAt <= clock
      && (m.state.Some? ==> forall id | id in m.state.value.leases ::
         m.state.value.leases[id].expiresAt > m.turn.firedAt)
  }

  ghost predicate Inv(m: Machine, clock: int) {
    && (m.state.Some? ==> Sound(m.state.value))
    && AlarmSound(m, clock)
  }

  lemma UnknownActivityIsSound(s: State, now: int)
    requires Sound(s) && IsAdmission(s.phase)
    ensures var r := ApplyUnknownActivity(s, now);
            Sound(r) && r.phase.ErrorRunning? && r.leases == s.leases && r.epoch == s.epoch
  {}

  lemma IdleConfirmationIsSound(s: State, observedAt: int, now: int)
    requires Sound(s) && IsAdmission(s.phase)
    requires s.lastSemanticWorkAt.Some? ==> s.lastSemanticWorkAt.value <= observedAt
    ensures var r := ConfirmIdle(s, observedAt, now);
            Sound(r) && r.leases == s.leases && r.epoch == s.epoch && IsAdmission(r.phase)
  {}

  lemma OtherAnswersAreSound(s: State, now: int)
    requires Sound(s) && IsAdmission(s.phase)
    ensures Sound(FoundBusy(s, now)) && Sound(FoundOutdated(s, now))
    ensures s.phase.RunningIdle? ==> Sound(StillIdle(s, now))
  {}

  lemma ExecutionSnapshotIsSound(s: State, snapshot: Snapshot, now: int)
    requires Sound(s) && IsAdmission(s.phase)
    ensures var r := ApplyExecutionSnapshot(s, snapshot, now);
            && Sound(r)
            && (r.leases == s.leases || r.leases == map[])
            && ((IsAdmission(r.phase) && r.epoch == s.epoch) || r.phase.Sleeping?)
  {
    var observedAt := ObservedAt(snapshot, now);
    if snapshot.execution.Unknown? {
      UnknownActivityIsSound(s, now);
    } else if snapshot.execution.NotRunning? {
    } else if snapshot.active || ActiveLeases(s, now) != {} {
      OtherAnswersAreSound(s, now);
    } else if s.phase.RunningIdle? || (s.lastSemanticWorkAt.Some? && observedAt < s.lastSemanticWorkAt.value) {
      OtherAnswersAreSound(s, now);
    } else if !(s.lastSemanticWorkAt.Some? && observedAt < s.lastSemanticWorkAt.value) {
      IdleConfirmationIsSound(s, observedAt, now);
    }
  }

  lemma RemovalIsSound(s: State, now: int)
    requires Sound(s)
    ensures match RemoveExpiredLeases(s, now)
            case None => forall id | id in s.leases :: s.leases[id].expiresAt > now
            case Some(r) =>
              && Sound(r) && IsAdmission(s.phase) && r.phase.RunningUnknown? && r.epoch == s.epoch
              && r.leases.Keys <= s.leases.Keys && r.leases.Keys != s.leases.Keys
              && (forall id | id in r.leases :: r.leases[id].expiresAt > now)
  {
    var live := UnexpiredLeases(s, now);
    assert live.Keys <= s.leases.Keys;
    if |live| == |s.leases| {
      SubsetOfEqualSize(live.Keys, s.leases.Keys);
      assert forall id | id in s.leases :: id in live;
    } else {
      assert |live.Keys| != |s.leases.Keys|;
    }
  }

  lemma SubsetOfEqualSize(a: set<nat>, b: set<nat>)
    requires a <= b && |a| == |b|
    ensures a == b
  {
    assert b == a + (b - a);
    assert |b - a| == 0;
  }

  lemma ProbeStartKeepsInv(m: Machine, clock: int, now: int)
    requires Inv(m, clock) && clock <= now
    ensures Inv(StartProbe(m, now), now)
  {
    if m.state.Some? { RemovalIsSound(m.state.value, now); }
  }

  lemma DecisionKeepsInv(m: Machine, op: OperationId, firedAt: int, clock: int, now: int)
    requires m.state.Some? ==> Sound(m.state.value)
    requires firedAt <= clock <= now
    requires m.state.Some? ==> forall id | id in m.state.value.leases :: m.state.value.leases[id].expiresAt > firedAt
    ensures Inv(Decide(m, op, firedAt, now), now)
  {
    if InAdmission(m) {
      var s := m.state.value;
      // every lease is still active at that instant, so an idle stop finds none
      assert forall id | id in s.leases :: id in ActiveLeases(s, firedAt);
      ProbeStartKeepsInv(m.(turn := NoTurn), clock, now);
    }
  }

  /** Every event, at any instant the clock may have reached, keeps `Inv`. */
  lemma StepKeepsInv(m: Machine, e: Event, clock: int, now: int)
    requires Inv(m, clock) && clock <= now
    ensures Inv(Step(m, e, now), now)
  {
    hide NextAlarmAt;
    match e
    case EInitialize(_) =>
    case EWake(op, epoch) => WakeKeepsInv(m, op, epoch, clock, now);
    case EBeginWork(epoch, ttl, lease) => BeginWorkKeepsInv(m, epoch, ttl, lease, clock, now);
    case ERenewWork(epoch, ttl, lease) => RenewWorkKeepsInv(m, epoch, ttl, lease, clock, now);
    case EEndWork(epoch, lease) => EndWorkKeepsInv(m, epoch, lease, clock, now);
    case EObserve(epoch, snapshot) =>
      if m.state.Some? && Admits(m.state.value, epoch) {
        ExecutionSnapshotIsSound(m.state.value, snapshot, now);
      }
    case EReconcile => ProbeStartKeepsInv(m, clock, now);
    case EForceStop(op) => HaltKeepsInv(m, op, clock, now);
    case EBeginDelete => HaltKeepsInv(m, 0, clock, now);
    case EMarkDeleted =>
    case EReload =>
    case ESendWake =>
    case EWakeReply(answer) => WakeReplyKeepsInv(m, answer, clock, now);
    case ESendProbe =>
    case EProbeReply(answer) => ProbeReplyKeepsInv(m, answer, clock, now);
    case ESendStop =>
    case EStopReply(answer) => StopReplyKeepsInv(m, answer, clock, now);
    case EWakeAfterStop(op, epoch) => WakeKeepsInv(m, op, epoch, clock, now);
    case EAlarm(op, epoch) => AlarmKeepsInv(m, op, epoch, clock, now);
    case EAlarmDecides(op) =>
      if m.turn.Deciding? { DecisionKeepsInv(m, op, m.turn.firedAt, clock, now); }
    case EAlarmAfterProbe(op) => HaltKeepsInv(m, op, clock, now);
  }

  lemma WakeKeepsInv(m: Machine, op: OperationId, epoch: Epoch, clock: int, now: int)
    requires Inv(m, clock) && clock <= now
    ensures Inv(Wake(m, op, epoch, now), now)
    ensures forall explicit :: Inv(ContinueWake(m, explicit, op, epoch, now), now)
  {
    hide NextAlarmAt;
  }

  lemma BeginWorkKeepsInv(m: Machine, epoch: Epoch, ttl: Option<int>, id: LeaseId, clock: int, now: int)
    requires Inv(m, clock) && clock <= now
    ensures Inv(BeginWork(m, epoch, ttl, id, now), now)
  {}

  lemma RenewWorkKeepsInv(m: Machine, epoch: Epoch, ttl: Option<int>, id: LeaseId, clock: int, now: int)
    requires Inv(m, clock) && clock <= now
    ensures Inv(RenewWork(m, epoch, ttl, id, now), now)
  {}

  /** `EndWork` does not test the phase; that leases exist only where work is
      admitted is what keeps it from reopening a closed instance. */
  lemma EndWorkKeepsInv(m: Machine, epoch: Epoch, id: LeaseId, clock: int, now: int)
    requires Inv(m, clock) && clock <= now
    ensures Inv(EndWork(m, epoch, id, now), now)
    ensures EndWork(m, epoch, id, now) != m ==> InAdmission(m)
  {}

  lemma HaltKeepsInv(m: Machine, op: OperationId, clock: int, now: int)
    requires Inv(m, clock) && clock <= now
    ensures Inv(BeginDelete(m, now), now)
    ensures Inv(ForceStopRequest(m, op, now), now)
    ensures Inv(AlarmAfterProbe(m, op, now), now)
  {}

  lemma WakeReplyKeepsInv(m: Machine, reply: Result<Snapshot>, clock: int, now: int)
    requires Inv(m, clock) && clock <= now
    ensures Inv(WakeReply(m, reply, now), now)
  {
    if m.wake.Some? && WakeIsCurrent(m, m.wake.value) && reply.Ok? && !reply.value.execution.NotRunning? {
      var s := m.state.value;
      ExecutionSnapshotIsSound(
        s.(phase := RunningUnknown, operation := None, nextProbeAt := Some(now), probeFailures := 0,
        probeFailingSince := None, updatedAt := now), reply.value, now);
    }
  }

  lemma ProbeReplyKeepsInv(m: Machine, reply: Result<Snapshot>, clock: int, now: int)
    requires Inv(m, clock) && clock <= now
    ensures Inv(ProbeReply(m, reply, now), now)
  {
    if m.probe.Some? && ProbeIsCurrent(m, m.probe.value) {
      UnknownActivityIsSound(m.state.value, now);
      if reply.Ok? { ExecutionSnapshotIsSound(m.state.value, reply.value, now); }
    }
  }

  lemma AfterStopIsSound(s: State, call: StopCall, outcome: StopOutcome, now: int)
    requires Sound(s) && s.phase.Quiescing?
    ensures Sound(AfterStop(s, call, outcome, now)) && AfterStop(s, call, outcome, now).leases == map[]
  {
    if outcome.Busy? && outcome.snapshot.Some? {
      ExecutionSnapshotIsSound(
        ClearIdleWindow(s).(phase := RunningUnknown, revision := s.revision + 1, operation := None,
        wakeAfterStop := false, nextProbeAt := Some(now), updatedAt := now), outcome.snapshot.value, now);
    }
  }

  lemma StopReplyKeepsInv(m: Machine, reply: Result<StopOutcome>, clock: int, now: int)
    requires Inv(m, clock) && clock <= now
    ensures Inv(StopReply(m, reply, now), now)
  {
    if m.stop.Some? && StopIsCurrent(m, m.stop.value) && reply.Ok? {
      AfterStopIsSound(m.state.value, m.stop.value, reply.value, now);
    }
  }

  lemma AlarmKeepsInv(m: Machine, op: OperationId, epoch: Epoch, clock: int, now: int)
    requires Inv(m, clock) && clock <= now
    ensures Inv(AlarmFires(m, op, epoch, now), now)
  {
    if m.state.Some? {
      RemovalIsSound(m.state.value, now);
      if RemoveExpiredLeases(m.state.value, now).None? {
        DecisionKeepsInv(m.(alarm := None), op, now, now, now);
      }
    }
  }
}
