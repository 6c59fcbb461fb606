/** The stored state of one instance's lifecycle policy, and the pure decisions
    taken on it. Instants and durations are milliseconds; every identifier the
    program draws from `crypto.randomUUID()` is a natural number, and the runs
    that use them only ever draw fresh ones. */
module LifecycleState {
  import opened Wrappers

  const IDLE_TIMEOUT_MS := 600_000
  const BUSY_PROBE_INTERVAL_MS := 10_000
  const IDLE_PROBE_INTERVAL_MS := 60_000
  const IDLE_CONFIRM_INTERVAL_MS := 3_000
  const DEFAULT_WORK_LEASE_MS := 90_000
  const REQUIRED_IDLE_CONFIRMATIONS := 2
  const MIN_WORK_LEASE_MS := 5_000
  const MAX_WORK_LEASE_MS := 300_000
  const OPERATION_RECOVERY_INTERVAL_MS := 30_000
  const MAX_PROBE_BACKOFF_MS := 60_000
  const MAX_PROBE_FAILURE_WINDOW_MS := 3_600_000

  type Epoch = nat
  type OperationId = nat
  type LeaseId = nat

  datatype Phase =
    | Sleeping | Waking | RunningUnknown | RunningBusy | RunningIdle
    | Quiescing | ErrorRunning | ErrorWaking | Deleting

  datatype OperationKind = WakeOperation | IdleStop | ForceStop

  datatype Operation = Operation(id: OperationId, kind: OperationKind, startedAt: int)

  datatype WorkLease = WorkLease(epoch: Epoch, startedAt: int, expiresAt: int)

  datatype StopReason = IdleReason | ManualReason | UnexpectedReason

  datatype State = State(
    phase: Phase,
    revision: nat,
    epoch: Option<Epoch>,
    idleTimeout: Option<nat>,
    idleCandidateSince: Option<int>,
    idleConfirmations: nat,
    idleSince: Option<int>,
    idleDeadlineAt: Option<int>,
    nextProbeAt: Option<int>,
    lastSemanticWorkAt: Option<int>,
    probeFailures: nat,
    probeFailingSince: Option<int>,
    leases: map<LeaseId, WorkLease>,
    operation: Option<Operation>,
    wakeAfterStop: bool,
    lastStopReason: Option<StopReason>,
    updatedAt: int)

  datatype Execution = Running | NotRunning | Unknown

  /** What a probe or a wake learned. `observedAt` is `None` when the reported
      instant does not parse. */
  datatype Snapshot = Snapshot(execution: Execution, observedAt: Option<int>, active: bool)

  predicate IsAdmission(phase: Phase) {
    phase.RunningUnknown? || phase.RunningBusy? || phase.RunningIdle? || phase.ErrorRunning?
  }

  predicate NeedsAlarm(s: State) {
    !s.phase.Sleeping? && !s.phase.Deleting?
  }

  predicate Admits(s: State, epoch: Epoch) {
    IsAdmission(s.phase) && s.epoch == Some(epoch)
  }

  function Initial(idleTimeout: Option<nat>, now: int): State {
    State(Sleeping, 0, None, idleTimeout, None, 0, None, None, None, None, 0, None, map[], None, false, None, now)
  }

  function ClearIdleWindow(s: State): State {
    s.(idleCandidateSince := None, idleConfirmations := 0, idleSince := None, idleDeadlineAt := None)
  }

  function ToSleeping(s: State, now: int, reason: StopReason): State {
    ClearIdleWindow(s).(
    phase := Sleeping,
    revision := s.revision + 1,
    epoch := None,
    nextProbeAt := None,
    probeFailures := 0,
    probeFailingSince := None,
    leases := map[],
    operation := None,
    wakeAfterStop := false,
    lastStopReason := Some(reason),
    updatedAt := now)
  }

  predicate IsActiveLease(lease: WorkLease, epoch: Option<Epoch>, now: int) {
    epoch == Some(lease.epoch) && lease.expiresAt > now
  }

  function ActiveLeases(s: State, now: int): set<LeaseId> {
    set id | id in s.leases && IsActiveLease(s.leases[id], s.epoch, now)
  }

  /** `None` is a requested lifetime that is not a finite number. */
  function NormalizeLeaseTtl(value: Option<int>): (ttl: int)
    ensures MIN_WORK_LEASE_MS <= ttl <= MAX_WORK_LEASE_MS
  {
    match value
    case None => DEFAULT_WORK_LEASE_MS
    case Some(v) => Min(MAX_WORK_LEASE_MS, Max(MIN_WORK_LEASE_MS, v))
  }

  function RetryBackoff(failures: nat): (delay: int)
    requires failures >= 1
    ensures BUSY_PROBE_INTERVAL_MS <= delay <= MAX_PROBE_BACKOFF_MS
  {
    var doubled := match failures case 1 => 1 case 2 => 2 case 3 => 4 case _ => 8;
    Min(MAX_PROBE_BACKOFF_MS, BUSY_PROBE_INTERVAL_MS * doubled)
  }

  function ObservedAt(snapshot: Snapshot, now: int): int {
    match snapshot.observedAt
    case None => now
    case Some(at) => Min(at, now)
  }

  predicate ProbeFailureWindowExpired(s: State, now: int) {
    && s.phase.ErrorRunning?
    && s.probeFailingSince.Some?
    && now - s.probeFailingSince.value >= MAX_PROBE_FAILURE_WINDOW_MS
  }

  // --- the alarm -----------------------------------------------------------

  function AlarmCandidates(s: State, now: int): set<int> {
    (if s.nextProbeAt.Some? then {s.nextProbeAt.value} else {})
    + (if s.phase.RunningIdle? && s.idleDeadlineAt.Some? then {s.idleDeadlineAt.value} else {})
    + (set id | id in ActiveLeases(s, now) :: s.leases[id].expiresAt)
  }

  function NextAlarmAt(s: State, now: int): Option<int> {
    if !NeedsAlarm(s) then None
    else
      var candidates := AlarmCandidates(s, now);
      if exists c :: c in candidates then Some(Max(now, Minimum(candidates)))
      else Some(now + OPERATION_RECOVERY_INTERVAL_MS)
  }

  // --- transitions on the stored state ------------------------------------

  function UnexpiredLeases(s: State, now: int): map<LeaseId, WorkLease> {
    map id | id in s.leases && IsActiveLease(s.leases[id], s.epoch, now) :: s.leases[id]
  }

  function RemoveExpiredLeases(s: State, now: int): Option<State> {
    var live := UnexpiredLeases(s, now);
    if |live| == |s.leases| then None
    else
      Some(ClearIdleWindow(s).(
           phase := if IsAdmission(s.phase) then RunningUnknown else s.phase,
           revision := s.revision + 1,
           lastSemanticWorkAt := Some(now),
           nextProbeAt := Some(now),
           leases := live,
           updatedAt := now))
  }

  lemma NothingToRemove(s: State, now: int)
    requires forall id | id in s.leases :: IsActiveLease(s.leases[id], s.epoch, now)
    ensures RemoveExpiredLeases(s, now).None?
  {
    assert UnexpiredLeases(s, now) == s.leases;
  }

  function ApplyUnknownActivity(s: State, now: int): State {
    var failures := s.probeFailures + 1;
    var invalidatesIdle := s.idleCandidateSince.Some? || s.idleDeadlineAt.Some? || !s.phase.ErrorRunning?;
    ClearIdleWindow(s).(
    phase := ErrorRunning,
    revision := if invalidatesIdle then s.revision + 1 else s.revision,
    probeFailures := failures,
    probeFailingSince := Some(s.probeFailingSince.GetOr(now)),
    nextProbeAt := Some(now + RetryBackoff(failures)),
    updatedAt := now)
  }

  /** The fields every conclusive snapshot of a running container writes. */
  function Answered(s: State, now: int): State {
    s.(probeFailures := 0, probeFailingSince := None, operation := None, updatedAt := now)
  }

  function ApplyExecutionSnapshot(s: State, snapshot: Snapshot, now: int): State {
    var observedAt := ObservedAt(snapshot, now);
    if snapshot.execution.NotRunning? then ToSleeping(s, now, UnexpectedReason)
    else if snapshot.execution.Unknown? then ApplyUnknownActivity(s, now)
    else if snapshot.active || ActiveLeases(s, now) != {} then FoundBusy(s, now)
    else if s.lastSemanticWorkAt.Some? && observedAt < s.lastSemanticWorkAt.value then FoundOutdated(s, now)
    else if s.phase.RunningIdle? && s.idleSince.Some? && s.idleDeadlineAt.Some? then StillIdle(s, now)
    else ConfirmIdle(s, observedAt, now)
  }

  function FoundBusy(s: State, now: int): State {
    var invalidatesIdle := s.idleCandidateSince.Some? || s.idleDeadlineAt.Some? || !s.phase.RunningBusy?;
    Answered(ClearIdleWindow(s), now).(
    phase := RunningBusy,
    revision := if invalidatesIdle then s.revision + 1 else s.revision,
    nextProbeAt := Some(now + BUSY_PROBE_INTERVAL_MS))
  }

  /** The snapshot is older than the last work, so it says nothing about idleness. */
  function FoundOutdated(s: State, now: int): State {
    Answered(ClearIdleWindow(s), now).(
    phase := RunningUnknown,
    nextProbeAt := Some(now + IDLE_CONFIRM_INTERVAL_MS))
  }

  function StillIdle(s: State, now: int): State {
    Answered(s, now).(nextProbeAt := Some(now + IDLE_PROBE_INTERVAL_MS))
  }

  /** One more idle snapshot. A candidate at instant 0 is kept but does not count
      as one, because the program tests it for truth and 0 is false. */
  function ConfirmIdle(s: State, observedAt: int, now: int): State {
    var candidate := s.idleCandidateSince.GetOr(observedAt);
    var confirmations :=
      if s.idleCandidateSince.Some? && s.idleCandidateSince.value != 0 then s.idleConfirmations + 1 else 1;
    if confirmations >= REQUIRED_IDLE_CONFIRMATIONS then
      Answered(s, now).(
      phase := RunningIdle,
      idleCandidateSince := Some(candidate),
      idleConfirmations := confirmations,
      idleSince := Some(candidate),
      idleDeadlineAt := Some(candidate + s.idleTimeout.GetOr(IDLE_TIMEOUT_MS)),
      nextProbeAt := Some(now + IDLE_PROBE_INTERVAL_MS))
    else
      Answered(s, now).(
      phase := RunningUnknown,
      idleCandidateSince := Some(candidate),
      idleConfirmations := confirmations,
      idleSince := None,
      idleDeadlineAt := None,
      nextProbeAt := Some(now + IDLE_CONFIRM_INTERVAL_MS))
  }
}
