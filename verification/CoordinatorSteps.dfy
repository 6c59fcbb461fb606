/** The coordinator between two yields. A handler that awaits is cut at its
    awaits, and each piece is one function on `Machine`: the stored state, the
    stored alarm and the handlers still in flight. A state assignment and the
    storage write that follows it without a yield are one piece, so the stored
    state is the one in memory at every piece boundary. */
module CoordinatorSteps {
  import opened Wrappers
  import opened LifecycleState

  /** A wake whose intent is stored; `sent` once its request has left. */
  datatype WakeCall = WakeCall(op: OperationId, epoch: Epoch, sent: bool)

  /** A probe that is still removing leases, or one whose request has left. */
  datatype ProbeCall = ProbeStarting | ProbeSent(revision: nat, epoch: Epoch)

  datatype StopCall = StopCall(op: Operation, epoch: Option<Epoch>, revision: nat)

  /** Where the alarm handler is suspended. The platform runs one at a time. */
  datatype AlarmTurn = NoTurn | Deciding(firedAt: int) | AwaitingProbe | AwaitingWake | AwaitingStop

  /** What is left of a stop that has been answered: the wake it owes has yet to get
      its turn, or is in flight. The stop is in progress until that is over. */
  datatype StopTail = NoTail | OwesWake | AwaitsWake

  datatype Machine = Machine(
    state: Option<State>,
    alarm: Option<int>,
    wake: Option<WakeCall>,
    probe: Option<ProbeCall>,
    stop: Option<StopCall>,
    turn: AlarmTurn,
    tail: StopTail)

  datatype StopOutcome =
    | Stopped | NotRunningOutcome | TerminationPending | FailedRunning
    | Busy(snapshot: Option<Snapshot>)

  const Uninitialized := Machine(None, None, None, None, None, NoTurn, NoTail)

  function Persist(m: Machine, now: int): Machine {
    m.(alarm := if m.state.None? then None else NextAlarmAt(m.state.value, now))
  }

  function Put(m: Machine, s: State, now: int): Machine {
    Persist(m.(state := Some(s)), now)
  }

  predicate InPhase(m: Machine, phase: Phase) {
    m.state.Some? && m.state.value.phase == phase
  }

  predicate InAdmission(m: Machine) {
    m.state.Some? && IsAdmission(m.state.value.phase)
  }

  // --- instance lifetime ---------------------------------------------------

  function Initialize(m: Machine, idleTimeout: Option<nat>, now: int): Machine {
    if m.state.Some? then m else Put(m, Initial(idleTimeout, now), now)
  }

  function BeginDelete(m: Machine, now: int): Machine {
    if m.state.None? then m
    else
      var s := m.state.value;
      Put(m, ClearIdleWindow(s).(
          phase := Deleting,
          revision := s.revision + 1,
          epoch := None,
          nextProbeAt := None,
          leases := map[],
          operation := None,
          wakeAfterStop := false,
          updatedAt := now), now)
  }

  function MarkDeleted(m: Machine): Machine {
    m.(state := None, alarm := None)
  }

  /** Eviction and reload: every handler in flight is gone. */
  function Reload(m: Machine, now: int): Machine {
    Machine(
      m.state,
      if m.state.None? || !NeedsAlarm(m.state.value) then None else Some(m.alarm.GetOr(now)),
      None, None, None, NoTurn, NoTail)
  }

  // --- work ------------------------------------------------------------------

  function BeginWork(m: Machine, epoch: Epoch, ttl: Option<int>, id: LeaseId, now: int): Machine {
    if m.state.None? || !Admits(m.state.value, epoch) then m
    else
      var s := m.state.value;
      var soon := now + BUSY_PROBE_INTERVAL_MS;
      Put(m, ClearIdleWindow(s).(
          phase := RunningBusy,
          revision := s.revision + 1,
          lastSemanticWorkAt := Some(now),
          nextProbeAt := Some(Min(s.nextProbeAt.GetOr(soon), soon)),
          leases := s.leases[id := WorkLease(epoch, now, now + NormalizeLeaseTtl(ttl))],
          updatedAt := now), now)
  }

  predicate HoldsLease(m: Machine, epoch: Epoch, id: LeaseId) {
    && m.state.Some?
    && id in m.state.value.leases
    && m.state.value.leases[id].epoch == epoch
    && m.state.value.epoch == Some(epoch)
  }

  function RenewWork(m: Machine, epoch: Epoch, ttl: Option<int>, id: LeaseId, now: int): Machine {
    if !HoldsLease(m, epoch, id) || !InAdmission(m) then m
    else
      var s := m.state.value;
      Put(m, s.(
          leases := s.leases[id := s.leases[id].(expiresAt := now + NormalizeLeaseTtl(ttl))],
          updatedAt := now), now)
  }

  /** Unlike its siblings this one does not look at the phase. */
  function EndWork(m: Machine, epoch: Epoch, id: LeaseId, now: int): Machine {
    if !HoldsLease(m, epoch, id) then m
    else
      var s := m.state.value;
      var leases := s.leases - {id};
      Put(m, ClearIdleWindow(s).(
          phase := if |leases| > 0 then RunningBusy else RunningUnknown,
          revision := s.revision + 1,
          lastSemanticWorkAt := Some(now),
          nextProbeAt := Some(now),
          leases := leases,
          updatedAt := now), now)
  }

  function ObserveExecution(m: Machine, epoch: Epoch, snapshot: Snapshot, now: int): Machine {
    if m.state.None? || !Admits(m.state.value, epoch) then m
    else
      var s := m.state.value;
      if snapshot.execution.Running? && !snapshot.active && s.lastSemanticWorkAt.Some?
         && ObservedAt(snapshot, now) < s.lastSemanticWorkAt.value
      then m
      else Put(m, ApplyExecutionSnapshot(s, snapshot, now), now)
  }

  // --- waking ----------------------------------------------------------------

  /** The handler of an explicit wake. */
  function Wake(m: Machine, op: OperationId, epoch: Epoch, now: int): Machine {
    if m.state.None? || InPhase(m, Deleting) || (InAdmission(m) && m.state.value.epoch.Some?) then m
    else if InPhase(m, Quiescing) then
      Put(m, m.state.value.(wakeAfterStop := true, updatedAt := now), now)
    else ContinueWake(m, true, op, epoch, now)
  }

  /** Store the intent to wake, unless a wake is already in flight. The request
      itself leaves in a later piece, `SendWake`. */
  function ContinueWake(m: Machine, explicit: bool, op: OperationId, epoch: Epoch, now: int): Machine {
    if m.wake.Some? || m.state.None? then m
    else
      var s := m.state.value;
      if !(s.phase.Waking? || s.phase.ErrorWaking? || s.phase.Sleeping? || (s.phase.ErrorRunning? && s.epoch.None?))
      then m
      else
        var again := !explicit && (s.phase.Waking? || s.phase.ErrorWaking?) && s.epoch.Some?
                     && s.operation.Some? && s.operation.value.kind.WakeOperation?;
        var theEpoch := if again then s.epoch.value else epoch;
        var operation := if again then s.operation.value else Operation(op, WakeOperation, now);
        Put(m, ClearIdleWindow(s).(
            phase := Waking,
            revision := if again then s.revision else s.revision + 1,
            epoch := Some(theEpoch),
            nextProbeAt := Some(now + OPERATION_RECOVERY_INTERVAL_MS),
            leases := map[],
            operation := Some(operation),
            wakeAfterStop := false,
            updatedAt := now), now).(wake := Some(WakeCall(operation.id, theEpoch, false)))
  }

  /** The stop in progress is over, and so is the alarm handler that waited for it.
      It fails only when the stored state is gone. */
  function StopEnds(m: Machine, now: int): Machine {
    var done := m.(tail := NoTail, turn := if m.turn.AwaitingStop? then NoTurn else m.turn);
    if m.turn.AwaitingStop? && m.state.None? then Persist(done, now) else done
  }

  /** The wake in progress is over; a stop that waited for it is over with it. An
      alarm handler that waited for a failed wake reschedules. */
  function WakeEnds(m: Machine, fails: bool, now: int): Machine {
    var ended := m.(wake := None, turn := if m.turn.AwaitingWake? then NoTurn else m.turn);
    var done := if fails && m.turn.AwaitingWake? then Persist(ended, now) else ended;
    if m.tail.AwaitsWake? then StopEnds(done, now) else done
  }

  /** The wake request leaves. Nothing is checked again after the yield, but that
      the state is still there: without it the wake fails. */
  function SendWake(m: Machine, now: int): Machine {
    if m.wake.None? then m
    else if m.state.None? then WakeEnds(m, true, now)
    else m.(wake := Some(m.wake.value.(sent := true)))
  }

  predicate WakeIsCurrent(m: Machine, call: WakeCall) {
    && InPhase(m, Waking)
    && m.state.value.operation.Some?
    && m.state.value.operation.value.id == call.op
    && m.state.value.epoch == Some(call.epoch)
  }

  function WakeReply(m: Machine, reply: Result<Snapshot>, now: int): Machine {
    if m.wake.None? then m
    else if !WakeIsCurrent(m, m.wake.value) then WakeEnds(m, reply.Failed? || m.state.None?, now)
    else
      var s := m.state.value;
      if reply.Failed? || reply.value.execution.NotRunning? then
        var failed := s.(
                      phase := ErrorWaking,
                      probeFailures := s.probeFailures + 1,
                      nextProbeAt := Some(now + RetryBackoff(s.probeFailures + 1)),
                      updatedAt := now);
        WakeEnds(Put(m, failed, now), true, now)
      else
        var woken := s.(
                     phase := RunningUnknown,
                     operation := None,
                     nextProbeAt := Some(now),
                     probeFailures := 0,
                     probeFailingSince := None,
                     updatedAt := now);
        WakeEnds(Put(m, ApplyExecutionSnapshot(woken, reply.value, now), now), false, now)
  }

  // --- probing ---------------------------------------------------------------

  function StartProbe(m: Machine, now: int): Machine {
    if m.probe.Some? || !InAdmission(m) || m.state.value.epoch.None? then m
    else
      match RemoveExpiredLeases(m.state.value, now)
      case Some(s) => Put(m, s, now).(probe := Some(ProbeStarting))
      case None => m.(probe := Some(ProbeSent(m.state.value.revision, m.state.value.epoch.value)))
  }

  /** A probe that has removed expired leases sends its request. */
  function SendProbe(m: Machine, now: int): Machine {
    if m.probe != Some(ProbeStarting) then m
    else if m.state.None? then
      if m.turn.AwaitingProbe? then Persist(m.(probe := None, turn := NoTurn), now) else m.(probe := None)
    else if InAdmission(m) && m.state.value.epoch.Some? then
      m.(probe := Some(ProbeSent(m.state.value.revision, m.state.value.epoch.value)))
    else m.(probe := None)
  }

  predicate ProbeIsCurrent(m: Machine, call: ProbeCall) {
    && call.ProbeSent?
    && InAdmission(m)
    && m.state.value.revision == call.revision
    && m.state.value.epoch == Some(call.epoch)
  }

  /** A superseded answer schedules the alarm again; a superseded failure
      returns without doing so. */
  function ProbeReply(m: Machine, reply: Result<Snapshot>, now: int): Machine {
    if m.probe.None? || m.probe.value.ProbeStarting? then m
    else
      var done := m.(probe := None);
      if m.state.None? then
        if m.turn.AwaitingProbe? then Persist(done.(turn := NoTurn), now) else done
      else if ProbeIsCurrent(m, m.probe.value) then
        match reply
        case Ok(snapshot) => Put(done, ApplyExecutionSnapshot(m.state.value, snapshot, now), now)
        case Failed => Put(done, ApplyUnknownActivity(m.state.value, now), now)
      else if reply.Ok? then Persist(done, now)
      else done
  }

  // --- stopping --------------------------------------------------------------

  function BeginForceStop(m: Machine, op: OperationId, now: int): Machine
    requires m.state.Some?
  {
    var s := m.state.value;
    Put(m, ClearIdleWindow(s).(
        phase := Quiescing,
        revision := s.revision + 1,
        nextProbeAt := Some(now + OPERATION_RECOVERY_INTERVAL_MS),
        leases := map[],
        operation := Some(Operation(op, ForceStop, now)),
        wakeAfterStop := false,
        updatedAt := now), now)
  }

  function ForceStopRequest(m: Machine, op: OperationId, now: int): Machine {
    if m.state.None? || InPhase(m, Sleeping) || InPhase(m, Deleting) || InPhase(m, Quiescing) then m
    else BeginForceStop(m, op, now)
  }

  /** Idle stop keeps the revision, and keeps whatever leases have expired. */
  function BeginIdleStop(m: Machine, op: OperationId, now: int): Machine
    requires m.state.Some?
  {
    m.(state := Some(m.state.value.(
       phase := Quiescing,
       nextProbeAt := Some(now + OPERATION_RECOVERY_INTERVAL_MS),
       operation := Some(Operation(op, IdleStop, now)),
       wakeAfterStop := false,
       updatedAt := now)))
  }

  /** The stop request leaves, unless a stop is in progress, which it joins then, or
      the stop is over. */
  function SendStop(m: Machine): Machine {
    if m.stop.Some? || !m.tail.NoTail? then m
    else if InPhase(m, Quiescing) && m.state.value.operation.Some? then
      var s := m.state.value;
      m.(stop := Some(StopCall(s.operation.value, s.epoch, s.revision)))
    else if m.turn.AwaitingStop? then m.(turn := NoTurn)
    else m
  }

  predicate StopIsCurrent(m: Machine, call: StopCall) {
    && InPhase(m, Quiescing)
    && m.state.value.operation.Some?
    && m.state.value.operation.value.id == call.op.id
  }

  function AfterStop(s: State, call: StopCall, outcome: StopOutcome, now: int): State {
    match outcome
    case TerminationPending =>
      s.(nextProbeAt := Some(now + OPERATION_RECOVERY_INTERVAL_MS), updatedAt := now)
    case FailedRunning =>
      ClearIdleWindow(s).(
      phase := ErrorRunning,
      revision := s.revision + 1,
      operation := None,
      wakeAfterStop := false,
      nextProbeAt := Some(now + RetryBackoff(1)),
      probeFailures := 1,
      updatedAt := now)
    case Busy(snapshot) =>
      var reopened := ClearIdleWindow(s).(
                      phase := RunningUnknown,
                      revision := s.revision + 1,
                      operation := None,
                      wakeAfterStop := false,
                      nextProbeAt := Some(now),
                      updatedAt := now);
      if snapshot.Some? then ApplyExecutionSnapshot(reopened, snapshot.value, now) else reopened
    case _ =>
      ToSleeping(s, now, if call.op.kind.ForceStop? then ManualReason else IdleReason)
  }

  /** A superseded answer stores nothing, not even when it is a failure. After a
      stop that owes a wake the stop goes on. */
  function StopReply(m: Machine, reply: Result<StopOutcome>, now: int): Machine {
    if m.stop.None? then m
    else
      var call := m.stop.value;
      var answered := m.(stop := None);
      if !StopIsCurrent(m, call) then StopEnds(answered, now)
      else
        var s := m.state.value;
        match reply
        case Ok(outcome) =>
          var stored := Put(answered, AfterStop(s, call, outcome, now), now);
          if s.wakeAfterStop && (outcome.Stopped? || outcome.NotRunningOutcome?) then stored.(tail := OwesWake)
          else StopEnds(stored, now)
        case Failed =>
          var failed := ClearIdleWindow(s).(
                        nextProbeAt := Some(now + RetryBackoff(s.probeFailures + 1)),
                        probeFailures := s.probeFailures + 1,
                        updatedAt := now);
          StopEnds(Put(answered, failed, now), now)
  }

  /** The wake that a stop was asked to be followed by: it joins a wake in progress,
      begins one, or is not to be any more. */
  function WakeAfterStop(m: Machine, op: OperationId, epoch: Epoch, now: int): Machine {
    if !m.tail.OwesWake? then m
    else
      var woken := ContinueWake(m, true, op, epoch, now);
      if woken.wake.Some? then woken.(tail := AwaitsWake) else StopEnds(m, now)
  }

  // --- the alarm -----------------------------------------------------------

  function AlarmFires(m: Machine, op: OperationId, epoch: Epoch, now: int): Machine {
    if m.alarm.None? || m.alarm.value > now || !m.turn.NoTurn? then m
    else
      var fired := m.(alarm := None);
      if m.state.None? || !NeedsAlarm(m.state.value) then fired
      else
        var s := m.state.value;
        if s.phase.Waking? || s.phase.ErrorWaking? then
          ContinueWake(fired, false, op, epoch, now).(turn := AwaitingWake)
        else if s.phase.Quiescing? then
          SendStop(fired).(turn := AwaitingStop)
        else
          match RemoveExpiredLeases(s, now)
          case Some(live) => Put(fired, live, now).(turn := Deciding(now))
          case None => Decide(fired, op, now, now)
  }

  predicate IdleDeadlinePassed(s: State, firedAt: int) {
    && s.phase.RunningIdle?
    && s.idleDeadlineAt.Some?
    && firedAt >= s.idleDeadlineAt.value
    && ActiveLeases(s, firedAt) == {}
  }

  /** The alarm decides by the instant it fired at, whatever the clock says now. */
  function Decide(m: Machine, op: OperationId, firedAt: int, now: int): Machine {
    if !InAdmission(m) then Persist(m, now).(turn := NoTurn)
    else
      var s := m.state.value;
      if IdleDeadlinePassed(s, firedAt) then
        if s.epoch.None? then Persist(m, now).(turn := NoTurn)
        else Persist(BeginIdleStop(m, op, firedAt), now).(turn := AwaitingStop)
      else if s.nextProbeAt.None? || firedAt >= s.nextProbeAt.value then
        StartProbe(m, now).(turn := AwaitingProbe)
      else Persist(m, now).(turn := NoTurn)
  }

  function AlarmDecides(m: Machine, op: OperationId, now: int): Machine {
    if !m.turn.Deciding? then m else Decide(m, op, m.turn.firedAt, now)
  }

  /** After the probe it waited for, the alarm gives up on a container that has
      not answered for an hour. */
  function AlarmAfterProbe(m: Machine, op: OperationId, now: int): Machine {
    if !m.turn.AwaitingProbe? || m.probe.Some? then m
    else if m.state.Some? && ProbeFailureWindowExpired(m.state.value, now) then
      BeginForceStop(m, op, now).(turn := AwaitingStop)
    else m.(turn := NoTurn)
  }

  // --- events ----------------------------------------------------------------

  /** Everything that can happen to one coordinator. `op` and `epoch` are the
      identifiers the handler draws if it needs any. */
  datatype Event =
    | EInitialize(idleTimeout: Option<nat>)
    | EWake(op: OperationId, epoch: Epoch)
    | EBeginWork(workEpoch: Epoch, ttl: Option<int>, lease: LeaseId)
    | ERenewWork(workEpoch: Epoch, ttl: Option<int>, lease: LeaseId)
    | EEndWork(workEpoch: Epoch, lease: LeaseId)
    | EObserve(workEpoch: Epoch, snapshot: Snapshot)
    | EReconcile
    | EForceStop(op: OperationId)
    | EBeginDelete
    | EMarkDeleted
    | EReload
    | ESendWake
    | EWakeReply(answer: Result<Snapshot>)
    | ESendProbe
    | EProbeReply(answer: Result<Snapshot>)
    | ESendStop
    | EStopReply(stopAnswer: Result<StopOutcome>)
    | EWakeAfterStop(op: OperationId, epoch: Epoch)
    | EAlarm(op: OperationId, epoch: Epoch)
    | EAlarmDecides(op: OperationId)
    | EAlarmAfterProbe(op: OperationId)

  function Step(m: Machine, e: Event, now: int): Machine {
    match e
    case EInitialize(idleTimeout) => Initialize(m, idleTimeout, now)
    case EWake(op, epoch) => Wake(m, op, epoch, now)
    case EBeginWork(epoch, ttl, lease) => BeginWork(m, epoch, ttl, lease, now)
    case ERenewWork(epoch, ttl, lease) => RenewWork(m, epoch, ttl, lease, now)
    case EEndWork(epoch, lease) => EndWork(m, epoch, lease, now)
    case EObserve(epoch, snapshot) => ObserveExecution(m, epoch, snapshot, now)
    case EReconcile => StartProbe(m, now)
    case EForceStop(op) => ForceStopRequest(m, op, now)
    case EBeginDelete => BeginDelete(m, now)
    case EMarkDeleted => MarkDeleted(m)
    case EReload => Reload(m, now)
    case ESendWake => SendWake(m, now)
    case EWakeReply(answer) => WakeReply(m, answer, now)
    case ESendProbe => SendProbe(m, now)
    case EProbeReply(answer) => ProbeReply(m, answer, now)
    case ESendStop => SendStop(m)
    case EStopReply(answer) => StopReply(m, answer, now)
    case EWakeAfterStop(op, epoch) => WakeAfterStop(m, op, epoch, now)
    case EAlarm(op, epoch) => AlarmFires(m, op, epoch, now)
    case EAlarmDecides(op) => AlarmDecides(m, op, now)
    case EAlarmAfterProbe(op) => AlarmAfterProbe(m, op, now)
  }
}
