/** The coordinator object. Its methods assign `state` step by step; each is one
    piece of a handler between two yields and is proved to do what the function
    of the same name in `CoordinatorSteps` says. */
module LifecycleCoordinator {
  import opened Wrappers
  import opened LifecycleState
  import S = CoordinatorSteps

  class Coordinator {
    var state: Option<State>
    var alarmAt: Option<int>
    var wakeInProgress: Option<S.WakeCall>
    var probeInProgress: Option<S.ProbeCall>
    var stopInProgress: Option<S.StopCall>
    var alarmTurn: S.AlarmTurn
    var stopTail: S.StopTail

    function View(): S.Machine
      reads this
    {
      S.Machine(state, alarmAt, wakeInProgress, probeInProgress, stopInProgress, alarmTurn, stopTail)
    }

    constructor ()
      ensures View() == S.Uninitialized
    {
      state, alarmAt := None, None;
      wakeInProgress, probeInProgress, stopInProgress := None, None, None;
      alarmTurn, stopTail := S.NoTurn, S.NoTail;
    }

    /** Eviction and reload; the stored state and the stored alarm survive. */
    method Reload(now: int)
      modifies this
      ensures View() == S.Reload(old(View()), now)
    {
      wakeInProgress, probeInProgress, stopInProgress := None, None, None;
      alarmTurn, stopTail := S.NoTurn, S.NoTail;
      if state.Some? && NeedsAlarm(state.value) && alarmAt.None? {
        alarmAt := Some(now);
      } else if (state.None? || !NeedsAlarm(state.value)) && alarmAt.Some? {
        alarmAt := None;
      }
    }

    method PersistAndSchedule(now: int)
      modifies this`alarmAt
      ensures View() == S.Persist(old(View()), now)
    {
      if state.None? {
        alarmAt := None;
        return;
      }
      alarmAt := NextAlarmAt(state.value, now);
    }

    method InitializeInstance(idleTimeout: Option<nat>, now: int)
      modifies this
      ensures View() == S.Initialize(old(View()), idleTimeout, now)
    {
      if state.Some? { return; }
      state := Some(Initial(idleTimeout, now));
      PersistAndSchedule(now);
    }

    method BeginWork(epoch: Epoch, ttl: Option<int>, id: LeaseId, now: int) returns (admitted: bool)
      modifies this
      ensures View() == S.BeginWork(old(View()), epoch, ttl, id, now)
      ensures admitted == (old(state).Some? && Admits(old(state).value, epoch))
    {
      admitted := AdmissionFor(epoch);
      if !admitted { return; }
      var lease := WorkLease(epoch, now, now + NormalizeLeaseTtl(ttl));
      var soon := now + BUSY_PROBE_INTERVAL_MS;
      var nextProbeAt := soon;
      if state.value.nextProbeAt.Some? && state.value.nextProbeAt.value < soon {
        nextProbeAt := state.value.nextProbeAt.value;
      }
      state := Some(ClearIdleWindow(state.value).(
                    phase := RunningBusy,
                    revision := state.value.revision + 1,
                    lastSemanticWorkAt := Some(now),
                    nextProbeAt := Some(nextProbeAt),
                    leases := state.value.leases[id := lease],
                    updatedAt := now));
      PersistAndSchedule(now);
    }

    /** The two refusals before the epoch is compared are the closed phases. */
    method AdmissionFor(epoch: Epoch) returns (admitted: bool)
      ensures admitted == (state.Some? && Admits(state.value, epoch))
    {
      if state.None? { return false; }
      if state.value.phase.Deleting? || state.value.phase.Quiescing? { return false; }
      if !IsAdmission(state.value.phase) || state.value.epoch.None? { return false; }
      return state.value.epoch.value == epoch;
    }

    method RenewWork(epoch: Epoch, ttl: Option<int>, id: LeaseId, now: int) returns (renewed: bool)
      modifies this
      ensures View() == S.RenewWork(old(View()), epoch, ttl, id, now)
      ensures renewed ==> old(state).Some? && Admits(old(state).value, epoch) && id in old(state).value.leases
    {
      if !S.HoldsLease(View(), epoch, id) || !IsAdmission(state.value.phase) { return false; }
      var lease := state.value.leases[id];
      lease := lease.(expiresAt := now + NormalizeLeaseTtl(ttl));
      state := Some(state.value.(leases := state.value.leases[id := lease], updatedAt := now));
      PersistAndSchedule(now);
      return true;
    }

    method EndWork(epoch: Epoch, id: LeaseId, now: int)
      modifies this
      ensures View() == S.EndWork(old(View()), epoch, id, now)
    {
      if !S.HoldsLease(View(), epoch, id) { return; }
      var leases := state.value.leases - {id};
      var phase := RunningUnknown;
      if |leases| > 0 { phase := RunningBusy; }
      state := Some(ClearIdleWindow(state.value).(
                    phase := phase,
                    revision := state.value.revision + 1,
                    lastSemanticWorkAt := Some(now),
                    nextProbeAt := Some(now),
                    leases := leases,
                    updatedAt := now));
      PersistAndSchedule(now);
    }

    method ObserveExecution(epoch: Epoch, snapshot: Snapshot, now: int)
      modifies this
      ensures View() == S.ObserveExecution(old(View()), epoch, snapshot, now)
    {
      if state.None? || !Admits(state.value, epoch) { return; }
      if snapshot.execution.Running? && !snapshot.active && state.value.lastSemanticWorkAt.Some?
         && ObservedAt(snapshot, now) < state.value.lastSemanticWorkAt.value { return; }
      ApplySnapshot(snapshot, now);
      PersistAndSchedule(now);
    }

    /** One write to `state` per branch, in the order the branches are tried. */
    method ApplySnapshot(snapshot: Snapshot, now: int)
      requires state.Some?
      modifies this`state
      ensures state == Some(ApplyExecutionSnapshot(old(state).value, snapshot, now))
    {
      var s := state.value;
      var observedAt := ObservedAt(snapshot, now);
      if snapshot.execution.NotRunning? {
        state := Some(ToSleeping(s, now, UnexpectedReason));
        return;
      }
      if snapshot.execution.Unknown? {
        state := Some(ApplyUnknownActivity(s, now));
        return;
      }
      var leases := ActiveLeases(s, now);
      if snapshot.active || leases != {} {
        var revision := s.revision;
        if s.idleCandidateSince.Some? || s.idleDeadlineAt.Some? || !s.phase.RunningBusy? {
          revision := revision + 1;
        }
        state := Some(Answered(ClearIdleWindow(s), now).(
                      phase := RunningBusy, revision := revision, nextProbeAt := Some(now + BUSY_PROBE_INTERVAL_MS)));
        return;
      }
      if s.lastSemanticWorkAt.Some? && observedAt < s.lastSemanticWorkAt.value {
        state := Some(Answered(ClearIdleWindow(s), now).(
                      phase := RunningUnknown, nextProbeAt := Some(now + IDLE_CONFIRM_INTERVAL_MS)));
        return;
      }
      if s.phase.RunningIdle? && s.idleSince.Some? && s.idleDeadlineAt.Some? {
        state := Some(Answered(s, now).(nextProbeAt := Some(now + IDLE_PROBE_INTERVAL_MS)));
        return;
      }
      var candidate := observedAt;
      var confirmations := 1;
      if s.idleCandidateSince.Some? {
        candidate := s.idleCandidateSince.value;
        if candidate != 0 { confirmations := s.idleConfirmations + 1; }
      }
      if confirmations >= REQUIRED_IDLE_CONFIRMATIONS {
        state := Some(Answered(s, now).(
                      phase := RunningIdle,
                      idleCandidateSince := Some(candidate),
                      idleConfirmations := confirmations,
                      idleSince := Some(candidate),
                      idleDeadlineAt := Some(candidate + s.idleTimeout.GetOr(IDLE_TIMEOUT_MS)),
                      nextProbeAt := Some(now + IDLE_PROBE_INTERVAL_MS)));
        return;
      }
      state := Some(Answered(s, now).(
                    phase := RunningUnknown,
                    idleCandidateSince := Some(candidate),
                    idleConfirmations := confirmations,
                    idleSince := None,
                    idleDeadlineAt := None,
                    nextProbeAt := Some(now + IDLE_CONFIRM_INTERVAL_MS)));
    }

    method ForceStop(op: OperationId, now: int)
      modifies this
      ensures View() == S.ForceStopRequest(old(View()), op, now)
    {
      if state.None? { return; }
      if state.value.phase.Sleeping? || state.value.phase.Deleting? || state.value.phase.Quiescing? { return; }
      Quiesce(op, now);
    }

    method Quiesce(op: OperationId, now: int)
      requires state.Some?
      modifies this
      ensures View() == S.BeginForceStop(old(View()), op, now)
    {
      state := Some(ClearIdleWindow(state.value).(
                    phase := Quiescing,
                    revision := state.value.revision + 1,
                    nextProbeAt := Some(now + OPERATION_RECOVERY_INTERVAL_MS),
                    leases := map[],
                    operation := Some(Operation(op, OperationKind.ForceStop, now)),
                    wakeAfterStop := false,
                    updatedAt := now));
      PersistAndSchedule(now);
    }

    method BeginDelete(now: int)
      modifies this
      ensures View() == S.BeginDelete(old(View()), now)
    {
      if state.None? { return; }
      state := Some(ClearIdleWindow(state.value).(
                    phase := Deleting,
                    revision := state.value.revision + 1,
                    epoch := None,
                    nextProbeAt := None,
                    leases := map[],
                    operation := None,
                    wakeAfterStop := false,
                    updatedAt := now));
      PersistAndSchedule(now);
    }

    method MarkDeleted()
      modifies this
      ensures View() == S.MarkDeleted(old(View()))
    {
      state := None;
      alarmAt := None;
    }

    method Wake(op: OperationId, epoch: Epoch, now: int)
      modifies this
      ensures View() == S.Wake(old(View()), op, epoch, now)
    {
      if state.None? || state.value.phase.Deleting? { return; }
      if IsAdmission(state.value.phase) && state.value.epoch.Some? { return; }
      if state.value.phase.Quiescing? {
        state := Some(state.value.(wakeAfterStop := true, updatedAt := now));
        PersistAndSchedule(now);
        return;
      }
      ContinueWake(true, op, epoch, now);
    }

    /** Up to the yield in which the intent is written; `SendWake` is the rest. */
    method ContinueWake(explicitIntent: bool, op: OperationId, epoch: Epoch, now: int)
      modifies this
      ensures View() == S.ContinueWake(old(View()), explicitIntent, op, epoch, now)
    {
      if wakeInProgress.Some? || state.None? { return; }
      var s := state.value;
      if s.phase.RunningUnknown? || s.phase.RunningBusy? || s.phase.RunningIdle? || s.phase.Quiescing?
         || s.phase.Deleting?
         || (s.phase.ErrorRunning? && s.epoch.Some?) { return; }
      var revision, runtimeEpoch, operation := s.revision + 1, epoch, Operation(op, WakeOperation, now);
      if !explicitIntent && (s.phase.Waking? || s.phase.ErrorWaking?) && s.epoch.Some?
         && s.operation.Some? && s.operation.value.kind.WakeOperation? {
        revision, runtimeEpoch, operation := s.revision, s.epoch.value, s.operation.value;
      }
      state := Some(ClearIdleWindow(s).(
                    phase := Waking,
                    revision := revision,
                    epoch := Some(runtimeEpoch),
                    nextProbeAt := Some(now + OPERATION_RECOVERY_INTERVAL_MS),
                    leases := map[],
                    operation := Some(operation),
                    wakeAfterStop := false,
                    updatedAt := now));
      PersistAndSchedule(now);
      wakeInProgress := Some(S.WakeCall(operation.id, runtimeEpoch, false));
    }

    method SendWake(now: int)
      modifies this
      ensures View() == S.SendWake(old(View()), now)
    {
      if wakeInProgress.None? { return; }
      if state.None? {
        WakeEnds(true, now);
      } else {
        wakeInProgress := Some(wakeInProgress.value.(sent := true));
      }
    }

    method WakeReply(reply: Result<Snapshot>, now: int)
      modifies this
      ensures View() == S.WakeReply(old(View()), reply, now)
    {
      if wakeInProgress.None? { return; }
      var current := S.WakeIsCurrent(View(), wakeInProgress.value);
      if current && reply.Ok? && !reply.value.execution.NotRunning? {
        state := Some(state.value.(
                      phase := RunningUnknown,
                      operation := None,
                      nextProbeAt := Some(now),
                      probeFailures := 0,
                      probeFailingSince := None,
                      updatedAt := now));
        ApplySnapshot(reply.value, now);
        PersistAndSchedule(now);
        WakeEnds(false, now);
      } else if current {
        var failures := state.value.probeFailures + 1;
        state := Some(state.value.(
                      phase := ErrorWaking,
                      probeFailures := failures,
                      nextProbeAt := Some(now + RetryBackoff(failures)),
                      updatedAt := now));
        PersistAndSchedule(now);
        WakeEnds(true, now);
      } else {
        WakeEnds(reply.Failed? || state.None?, now);
      }
    }

    method StartProbe(now: int)
      modifies this
      ensures View() == S.StartProbe(old(View()), now)
    {
      if probeInProgress.Some? { return; }
      if state.None? || !IsAdmission(state.value.phase) || state.value.epoch.None? { return; }
      var expired := ExpireLeases(now);
      if expired {
        PersistAndSchedule(now);
        probeInProgress := Some(S.ProbeStarting);
      } else {
        probeInProgress := Some(S.ProbeSent(state.value.revision, state.value.epoch.value));
      }
    }

    method ExpireLeases(now: int) returns (expired: bool)
      requires state.Some?
      modifies this`state
      ensures expired == RemoveExpiredLeases(old(state).value, now).Some?
      ensures state == (if expired then RemoveExpiredLeases(old(state).value, now) else old(state))
    {
      var removed := RemoveExpiredLeases(state.value, now);
      expired := removed.Some?;
      if expired { state := removed; }
    }

    method ProbeReply(reply: Result<Snapshot>, now: int)
      modifies this
      ensures View() == S.ProbeReply(old(View()), reply, now)
    {
      if probeInProgress.None? || probeInProgress.value.ProbeStarting? { return; }
      var current := S.ProbeIsCurrent(View(), probeInProgress.value);
      probeInProgress := None;
      if state.None? {
        if alarmTurn.AwaitingProbe? {
          alarmTurn := S.NoTurn;
          PersistAndSchedule(now);
        }
        return;
      }
      if reply.Ok? {
        if current { ApplySnapshot(reply.value, now); }
        PersistAndSchedule(now);
      } else if current {
        state := Some(ApplyUnknownActivity(state.value, now));
        PersistAndSchedule(now);
      }
    }

    method StopReply(reply: Result<S.StopOutcome>, now: int)
      modifies this
      ensures View() == S.StopReply(old(View()), reply, now)
    {
      if stopInProgress.None? { return; }
      var call := stopInProgress.value;
      var current := S.StopIsCurrent(View(), call);
      stopInProgress := None;
      if !current {
        StopEnds(now);
        return;
      }
      if reply.Ok? {
        var wakeAfterStop := state.value.wakeAfterStop && (reply.value.Stopped? || reply.value.NotRunningOutcome?);
        state := Some(S.AfterStop(state.value, call, reply.value, now));
        PersistAndSchedule(now);
        if wakeAfterStop { stopTail := S.OwesWake; } else { StopEnds(now); }
      } else {
        var failures := state.value.probeFailures + 1;
        state := Some(ClearIdleWindow(state.value).(
                      nextProbeAt := Some(now + RetryBackoff(failures)),
                      probeFailures := failures,
                      updatedAt := now));
        PersistAndSchedule(now);
        StopEnds(now);
      }
    }

    method WakeAfterStop(op: OperationId, epoch: Epoch, now: int)
      modifies this
      ensures View() == S.WakeAfterStop(old(View()), op, epoch, now)
    {
      if !stopTail.OwesWake? { return; }
      if wakeInProgress.None? {
        ContinueWake(true, op, epoch, now);
      }
      if wakeInProgress.Some? {
        stopTail := S.AwaitsWake;
      } else {
        StopEnds(now);
      }
    }

    method StopEnds(now: int)
      modifies this
      ensures View() == S.StopEnds(old(View()), now)
    {
      stopTail := S.NoTail;
      if alarmTurn.AwaitingStop? {
        alarmTurn := S.NoTurn;
        if state.None? { PersistAndSchedule(now); }
      }
    }

    method WakeEnds(fails: bool, now: int)
      modifies this
      ensures View() == S.WakeEnds(old(View()), fails, now)
    {
      wakeInProgress := None;
      if alarmTurn.AwaitingWake? {
        alarmTurn := S.NoTurn;
        if fails { PersistAndSchedule(now); }
      }
      if stopTail.AwaitsWake? { StopEnds(now); }
    }

    method Alarm(op: OperationId, epoch: Epoch, now: int)
      modifies this
      ensures View() == S.AlarmFires(old(View()), op, epoch, now)
    {
      if alarmAt.None? || alarmAt.value > now || !alarmTurn.NoTurn? { return; }
      alarmAt := None;
      if state.None? || !NeedsAlarm(state.value) { return; }
      var phase := state.value.phase;
      if phase.Waking? || phase.ErrorWaking? {
        ContinueWake(false, op, epoch, now);
        alarmTurn := S.AwaitingWake;
        return;
      }
      if phase.Quiescing? {
        SendStop();
        alarmTurn := S.AwaitingStop;
        return;
      }
      var expired := ExpireLeases(now);
      if expired {
        PersistAndSchedule(now);
        alarmTurn := S.Deciding(now);
      } else {
        Decide(op, now, now);
      }
    }

    method SendStop()
      modifies this
      ensures View() == S.SendStop(old(View()))
    {
      if stopInProgress.Some? || !stopTail.NoTail? { return; }
      if state.Some? && state.value.phase.Quiescing? && state.value.operation.Some? {
        stopInProgress := Some(S.StopCall(state.value.operation.value, state.value.epoch, state.value.revision));
      } else if alarmTurn.AwaitingStop? {
        alarmTurn := S.NoTurn;
      }
    }

    method Decide(op: OperationId, firedAt: int, now: int)
      modifies this
      ensures View() == S.Decide(old(View()), op, firedAt, now)
    {
      if state.None? || !IsAdmission(state.value.phase) {
        PersistAndSchedule(now);
        alarmTurn := S.NoTurn;
      } else if S.IdleDeadlinePassed(state.value, firedAt) {
        if state.value.epoch.Some? {
          state := Some(state.value.(
                        phase := Quiescing,
                        nextProbeAt := Some(firedAt + OPERATION_RECOVERY_INTERVAL_MS),
                        operation := Some(Operation(op, IdleStop, firedAt)),
                        wakeAfterStop := false,
                        updatedAt := firedAt));
          PersistAndSchedule(now);
          alarmTurn := S.AwaitingStop;
        } else {
          PersistAndSchedule(now);
          alarmTurn := S.NoTurn;
        }
      } else if state.value.nextProbeAt.None? || firedAt >= state.value.nextProbeAt.value {
        StartProbe(now);
        alarmTurn := S.AwaitingProbe;
      } else {
        PersistAndSchedule(now);
        alarmTurn := S.NoTurn;
      }
    }

    method AlarmAfterProbe(op: OperationId, now: int)
      modifies this
      ensures View() == S.AlarmAfterProbe(old(View()), op, now)
    {
      if !alarmTurn.AwaitingProbe? || probeInProgress.Some? { return; }
      if state.Some? && ProbeFailureWindowExpired(state.value, now) {
        Quiesce(op, now);
        alarmTurn := S.AwaitingStop;
      } else {
        alarmTurn := S.NoTurn;
      }
    }
  }
}
