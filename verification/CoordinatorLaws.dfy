/** How far one event can move the stored state: the facts about single steps
    from which the properties of whole runs follow. */
module CoordinatorLaws {
  import opened Wrappers
  import opened LifecycleState
  import opened CoordinatorSteps
  import opened CoordinatorInvariant

  /** What an event tells the coordinator about OpenCode's activity. */
  datatype Hearing = Silent | HeardIdle | HeardOther

  function Hears(s: State, snapshot: Snapshot, now: int): Hearing {
    if && snapshot.execution.Running? && !snapshot.active
       && ActiveLeases(s, now) == {}
       && (s.lastSemanticWorkAt.Some? ==> s.lastSemanticWorkAt.value <= ObservedAt(snapshot, now))
    then HeardIdle else HeardOther
  }

  function HearsAnswer(s: State, answer: Result<Snapshot>, now: int): Hearing {
    if answer.Ok? then Hears(s, answer.value, now) else HeardOther
  }

  /** Answers nobody waits for, or that were superseded, are not heard. */
  function Heard(m: Machine, e: Event, now: int): Hearing {
    if m.state.None? then Silent
    else
      match e
      case EObserve(epoch, snapshot) =>
        if ObserveExecution(m, epoch, snapshot, now) == m then Silent else Hears(m.state.value, snapshot, now)
      case EWakeReply(answer) =>
        if m.wake.Some? && WakeIsCurrent(m, m.wake.value) then HearsAnswer(m.state.value, answer, now) else Silent
      case EProbeReply(answer) =>
        if m.probe.Some? && ProbeIsCurrent(m, m.probe.value) then HearsAnswer(m.state.value, answer, now) else Silent
      case EStopReply(answer) =>
        if && m.stop.Some? && StopIsCurrent(m, m.stop.value)
           && answer.Ok? && answer.value.Busy? && answer.value.snapshot.Some?
        then Hears(m.state.value, answer.value.snapshot.value, now) else Silent
      case _ => Silent
  }

  /** The fresh identifiers an event brings. */
  function Drawn(e: Event): set<nat> {
    match e
    case EWake(op, epoch) => {op, epoch}
    case EWakeAfterStop(op, epoch) => {op, epoch}
    case EAlarm(op, epoch) => {op, epoch}
    case EBeginWork(_, _, lease) => {lease}
    case EForceStop(op) => {op}
    case EAlarmDecides(op) => {op}
    case EAlarmAfterProbe(op) => {op}
    case _ => {}
  }

  /** Work began or ended, or a lease expired: the leases of an epoch changed. */
  ghost predicate IsWork(s: State, r: State) {
    IsAdmission(s.phase) && IsAdmission(r.phase) && r.epoch == s.epoch && r.leases.Keys != s.leases.Keys
  }

  /** A container comes or goes, or a stop is over. */
  ghost predicate StartsAfresh(s: State, r: State) {
    r.epoch != s.epoch || (s.phase.Quiescing? && !r.phase.Quiescing?)
  }

  ghost predicate IdleStopBegins(s: State, r: State) {
    r.phase.Quiescing? && !s.phase.Quiescing? && r.operation.Some? && r.operation.value.kind.IdleStop?
  }

  ghost predicate Lawful(s: State, r: State, drawn: set<nat>, heard: Hearing, now: int) {
    && s.revision <= r.revision
    && (r.epoch == s.epoch || r.epoch.None? || r.epoch.value in drawn)
    && (r.epoch == s.epoch && s.epoch.Some? ==>
          (r.leases.Keys != s.leases.Keys || (s.phase.Quiescing? && !r.phase.Quiescing?)) ==> s.revision < r.revision)
    && r.leases.Keys <= s.leases.Keys + drawn
    && (r.operation.Some? ==>
          (s.operation.Some? && s.operation.value.id == r.operation.value.id) || r.operation.value.id in drawn)
    && r.lastSemanticWorkAt == (if IsWork(s, r) then Some(now) else s.lastSemanticWorkAt)
    && r.idleTimeout == s.idleTimeout
    && r.idleConfirmations <= (if IsWork(s, r) || heard.HeardOther? then 0
                               else (if StartsAfresh(s, r) then 0 else s.idleConfirmations)
                                    + (if heard.HeardIdle? then 1 else 0))
    && (IdleStopBegins(s, r) ==>
          && s.phase.RunningIdle?
          && s.idleDeadlineAt.Some? && s.idleDeadlineAt.value <= now
          && r.leases == map[])
  }

  /** The whole step: initialising and deleting are the only ways in and out. */
  ghost predicate LawfulStep(m: Machine, e: Event, now: int) {
    var r := Step(m, e, now);
    && (m.state.Some? && r.state.Some? ==> Lawful(m.state.value, r.state.value, Drawn(e), Heard(m, e, now), now))
    && (m.state.Some? && r.state.None? ==> e.EMarkDeleted?)
    && (m.state.None? && r.state.Some? ==> e.EInitialize? && r.state == Some(Initial(e.idleTimeout, now)))
  }

  // --- one event at a time ---------------------------------------------------

  lemma SnapshotIsLawful(s: State, snapshot: Snapshot, now: int)
    requires Sound(s) && IsAdmission(s.phase)
    ensures Lawful(s, ApplyExecutionSnapshot(s, snapshot, now), {}, Hears(s, snapshot, now), now)
  {
    ExecutionSnapshotIsSound(s, snapshot, now);
  }

  lemma UnknownIsLawful(s: State, now: int)
    requires Sound(s) && IsAdmission(s.phase)
    ensures Lawful(s, ApplyUnknownActivity(s, now), {}, HeardOther, now)
  {}

  lemma RemovalIsLawful(s: State, now: int)
    requires Sound(s)
    ensures var r := RemoveExpiredLeases(s, now); r.Some? ==> Lawful(s, r.value, {}, Silent, now)
  {
    RemovalIsSound(s, now);
  }

  lemma ProbeStartIsLawful(m: Machine, drawn: set<nat>, now: int)
    requires m.state.Some? && Sound(m.state.value)
    ensures var r := StartProbe(m, now); r.state.Some? && Lawful(m.state.value, r.state.value, drawn, Silent, now)
  {
    RemovalIsLawful(m.state.value, now);
  }

  lemma DecisionIsLawful(m: Machine, op: OperationId, firedAt: int, now: int)
    requires m.state.Some? && Sound(m.state.value) && firedAt <= now
    requires forall id | id in m.state.value.leases :: m.state.value.leases[id].expiresAt > firedAt
    ensures var r := Decide(m, op, firedAt, now);
            r.state.Some? && Lawful(m.state.value, r.state.value, {op}, Silent, now)
  {
    if InAdmission(m) {
      var s := m.state.value;
      assert forall id | id in s.leases :: id in ActiveLeases(s, firedAt);
      ProbeStartIsLawful(m, {op}, now);
    }
  }

  /** `r` is what an event made of the stored state `s`. */
  ghost predicate LawfulResult(s: State, r: Machine, drawn: set<nat>, heard: Hearing, now: int) {
    r.state.Some? && Lawful(s, r.state.value, drawn, heard, now)
  }

  lemma WakeReplyIsLawful(m: Machine, answer: Result<Snapshot>, now: int)
    requires m.state.Some? && Sound(m.state.value)
    ensures LawfulResult(m.state.value, WakeReply(m, answer, now), {}, Heard(m, EWakeReply(answer), now), now)
  {
    hide NextAlarmAt;
    if m.wake.Some? && WakeIsCurrent(m, m.wake.value) && answer.Ok? && !answer.value.execution.NotRunning? {
      var s := m.state.value;
      var woken := s.(phase := RunningUnknown, operation := None, nextProbeAt := Some(now), probeFailures := 0,
      probeFailingSince := None, updatedAt := now);
      assert ActiveLeases(woken, now) == ActiveLeases(s, now);
      SnapshotIsLawful(woken, answer.value, now);
    }
  }

  lemma ProbeReplyIsLawful(m: Machine, answer: Result<Snapshot>, now: int)
    requires m.state.Some? && Sound(m.state.value)
    ensures LawfulResult(m.state.value, ProbeReply(m, answer, now), {}, Heard(m, EProbeReply(answer), now), now)
  {
    hide NextAlarmAt;
    if m.probe.Some? && ProbeIsCurrent(m, m.probe.value) {
      UnknownIsLawful(m.state.value, now);
      if answer.Ok? { SnapshotIsLawful(m.state.value, answer.value, now); }
    }
  }

  lemma AfterStopIsLawful(s: State, call: StopCall, outcome: StopOutcome, now: int)
    requires Sound(s) && s.phase.Quiescing?
    ensures Lawful(s, AfterStop(s, call, outcome, now), {},
                   if outcome.Busy? && outcome.snapshot.Some? then Hears(s, outcome.snapshot.value, now) else Silent,
                     now)
  {
    if outcome.Busy? && outcome.snapshot.Some? {
      var reopened := ClearIdleWindow(s).(phase := RunningUnknown, revision := s.revision + 1, operation := None,
      wakeAfterStop := false, nextProbeAt := Some(now), updatedAt := now);
      assert ActiveLeases(reopened, now) == ActiveLeases(s, now);
      SnapshotIsLawful(reopened, outcome.snapshot.value, now);
    }
  }

  lemma StopReplyIsLawful(m: Machine, answer: Result<StopOutcome>, now: int)
    requires m.state.Some? && Sound(m.state.value)
    ensures LawfulResult(m.state.value, StopReply(m, answer, now), {}, Heard(m, EStopReply(answer), now), now)
  {
    hide NextAlarmAt;
    if m.stop.Some? && StopIsCurrent(m, m.stop.value) && answer.Ok? {
      AfterStopIsLawful(m.state.value, m.stop.value, answer.value, now);
    }
  }

  lemma AlarmIsLawful(m: Machine, op: OperationId, epoch: Epoch, now: int)
    requires m.state.Some? && Sound(m.state.value)
    ensures LawfulResult(m.state.value, AlarmFires(m, op, epoch, now), {op, epoch}, Silent, now)
  {
    hide NextAlarmAt, Decide, ContinueWake, RemoveExpiredLeases;
    var s := m.state.value;
    RemovalIsSound(s, now);
    RemovalIsLawful(s, now);
    if RemoveExpiredLeases(s, now).None? {
      DecisionIsLawful(m.(alarm := None), op, now, now);
    }
    WakeIsLawful(m.(alarm := None), false, op, epoch, now);
  }

  lemma ObserveIsLawful(m: Machine, epoch: Epoch, snapshot: Snapshot, now: int)
    requires m.state.Some? && Sound(m.state.value)
    ensures LawfulResult(m.state.value, ObserveExecution(m, epoch, snapshot, now), {},
              Heard(m, EObserve(epoch, snapshot), now), now)
  {
    if Admits(m.state.value, epoch) { SnapshotIsLawful(m.state.value, snapshot, now); }
  }

  lemma BeginWorkIsLawful(m: Machine, epoch: Epoch, ttl: Option<int>, id: LeaseId, now: int)
    requires m.state.Some? && Sound(m.state.value) && id !in m.state.value.leases
    ensures LawfulResult(m.state.value, BeginWork(m, epoch, ttl, id, now), {id}, Silent, now)
  {}

  lemma RenewWorkIsLawful(m: Machine, epoch: Epoch, ttl: Option<int>, id: LeaseId, now: int)
    requires m.state.Some? && Sound(m.state.value)
    ensures LawfulResult(m.state.value, RenewWork(m, epoch, ttl, id, now), {}, Silent, now)
  {
    if HoldsLease(m, epoch, id) && InAdmission(m) {
      assert RenewWork(m, epoch, ttl, id, now).state.value.leases.Keys == m.state.value.leases.Keys;
    }
  }

  lemma EndWorkIsLawful(m: Machine, epoch: Epoch, id: LeaseId, now: int)
    requires m.state.Some? && Sound(m.state.value)
    ensures LawfulResult(m.state.value, EndWork(m, epoch, id, now), {}, Silent, now)
  {}

  lemma WakeIsLawful(m: Machine, explicit: bool, op: OperationId, epoch: Epoch, now: int)
    requires m.state.Some? && Sound(m.state.value)
    ensures LawfulResult(m.state.value, ContinueWake(m, explicit, op, epoch, now), {op, epoch}, Silent, now)
  {}

  lemma ForceStopIsLawful(m: Machine, op: OperationId, now: int)
    requires m.state.Some? && Sound(m.state.value)
    requires !InPhase(m, Sleeping) && !InPhase(m, Deleting) && !InPhase(m, Quiescing)
    ensures LawfulResult(m.state.value, BeginForceStop(m, op, now), {op}, Silent, now)
  {}

  lemma DeletionIsLawful(m: Machine, now: int)
    requires m.state.Some? && Sound(m.state.value)
    ensures LawfulResult(m.state.value, BeginDelete(m, now), {}, Silent, now)
  {}

  lemma StepIsLawful(m: Machine, e: Event, clock: int, now: int)
    requires Inv(m, clock) && clock <= now
    requires m.state.Some? ==> Drawn(e) !! m.state.value.leases.Keys
    ensures LawfulStep(m, e, now)
  {
    if m.state.Some? && !e.EMarkDeleted? {
      StateIsLawful(m, e, clock, now);
    }
  }

  lemma StateIsLawful(m: Machine, e: Event, clock: int, now: int)
    requires Inv(m, clock) && clock <= now && m.state.Some? && !e.EMarkDeleted?
    requires Drawn(e) !! m.state.value.leases.Keys
    ensures LawfulResult(m.state.value, Step(m, e, now), Drawn(e), Heard(m, e, now), now)
  {
    hide NextAlarmAt, ContinueWake, BeginWork, RenewWork, EndWork, ObserveExecution, StartProbe, BeginForceStop,
      BeginDelete;
    hide WakeReply, ProbeReply, StopReply, AlarmFires, Decide, RemoveExpiredLeases, ApplyExecutionSnapshot,
      ApplyUnknownActivity, AfterStop;
    match e
    case EWake(op, epoch) => WakeIsLawful(m, true, op, epoch, now);
    case EWakeAfterStop(op, epoch) => WakeIsLawful(m, true, op, epoch, now);
    case EBeginWork(epoch, ttl, lease) => BeginWorkIsLawful(m, epoch, ttl, lease, now);
    case ERenewWork(epoch, ttl, lease) => RenewWorkIsLawful(m, epoch, ttl, lease, now);
    case EEndWork(epoch, lease) => EndWorkIsLawful(m, epoch, lease, now);
    case EObserve(epoch, snapshot) => ObserveIsLawful(m, epoch, snapshot, now);
    case EReconcile => ProbeStartIsLawful(m, {}, now);
    case EForceStop(op) =>
      if Step(m, e, now) != m { ForceStopIsLawful(m, op, now); }
    case EBeginDelete => DeletionIsLawful(m, now);
    case EWakeReply(answer) => WakeReplyIsLawful(m, answer, now);
    case EProbeReply(answer) => ProbeReplyIsLawful(m, answer, now);
    case EStopReply(answer) => StopReplyIsLawful(m, answer, now);
    case EAlarm(op, epoch) => AlarmIsLawful(m, op, epoch, now);
    case EAlarmDecides(op) =>
      if m.turn.Deciding? { DecisionIsLawful(m, op, m.turn.firedAt, now); }
    case EAlarmAfterProbe(op) =>
      if ProbeFailureWindowExpired(m.state.value, now) { ForceStopIsLawful(m, op, now); }
    case _ =>
  }
}
