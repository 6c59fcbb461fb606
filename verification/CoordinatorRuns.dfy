/** Whole runs of one coordinator: any events, at any non-decreasing instants,
    with identifiers nobody drew before. */
module CoordinatorRuns {
  import opened Wrappers
  import opened LifecycleState
  import opened CoordinatorSteps
  import opened CoordinatorInvariant
  import opened CoordinatorLaws

  /** What an observer of the run remembers. A fence is anything that makes an
      earlier probe worthless: work beginning or ending, a lease expiring, the
      epoch changing, a stop beginning or ending. */
  datatype History = History(
    used: set<nat>,
    lastWork: Option<int>,   // the last instant work began, ended or expired
    idleStreak: nat,         // idle snapshots since the last work, other answer, new epoch or end of a stop
    fences: nat,             // fences so far
    probeSentAfter: nat,     // fences passed when the last probe was sent
    probeSentAt: int)        // the instant it was sent

  datatype System = System(m: Machine, clock: int, h: History)

  datatype Tick = Tick(event: Event, at: int)

  const Start := System(Uninitialized, 0, History({}, None, 0, 0, 0, 0))

  ghost predicate IsFence(m: Machine, r: Machine) {
    || m.state.Some? != r.state.Some?
    || (m.state.Some? && r.state.Some? &&
        var s, t := m.state.value, r.state.value;
        s.epoch != t.epoch || s.leases.Keys != t.leases.Keys || s.phase.Quiescing? != t.phase.Quiescing?)
  }

  ghost predicate WorkHappens(m: Machine, r: Machine) {
    m.state.Some? && r.state.Some? && IsWork(m.state.value, r.state.value)
  }

  ghost predicate BeginsAgain(m: Machine, r: Machine) {
    m.state.None? || r.state.None? || StartsAfresh(m.state.value, r.state.value)
  }

  ghost predicate SendsProbe(m: Machine, r: Machine) {
    r.probe.Some? && r.probe.value.ProbeSent? && m.probe != r.probe
  }

  ghost function Remember(h: History, m: Machine, e: Event, now: int): History {
    var r := Step(m, e, now);
    var fences := if IsFence(m, r) then h.fences + 1 else h.fences;
    History(
      h.used + Drawn(e),
      if r.state.None? || m.state.None? then None else if WorkHappens(m, r) then Some(now) else h.lastWork,
      if WorkHappens(m, r) || Heard(m, e, now).HeardOther? then 0
      else (if BeginsAgain(m, r) then 0 else h.idleStreak) + (if Heard(m, e, now).HeardIdle? then 1 else 0),
      fences,
      if SendsProbe(m, r) then fences else h.probeSentAfter,
      if SendsProbe(m, r) then now else h.probeSentAt)
  }

  ghost function Next(sys: System, t: Tick): System {
    System(Step(sys.m, t.event, t.at), t.at, Remember(sys.h, sys.m, t.event, t.at))
  }

  ghost predicate CanTick(sys: System, t: Tick) {
    && sys.clock <= t.at
    && Drawn(t.event) !! sys.h.used
    && (t.event.EWake? || t.event.EWakeAfterStop? || t.event.EAlarm? ==> t.event.op != t.event.epoch)
  }

  /** A run lists the events and the system before, between and after them. */
  datatype Run = Run(ticks: seq<Tick>, states: seq<System>)

  ghost predicate IsRun(run: Run) {
    && |run.states| == |run.ticks| + 1
    && run.states[0] == Start
    && (forall k {:trigger run.ticks[k]} | 0 <= k < |run.ticks| ::
          CanTick(run.states[k], run.ticks[k]) && run.states[k + 1] == Next(run.states[k], run.ticks[k]))
  }

  /** A probe sent at this revision of this epoch can never be current again. */
  ghost predicate Outdated(m: Machine, call: ProbeCall)
    requires call.ProbeSent?
  {
    || m.state.None?
    || m.state.value.epoch != Some(call.epoch)
    || m.state.value.revision > call.revision
    || m.state.value.phase.Quiescing?
  }

  ghost predicate ProbeSound(sys: System) {
    var p := sys.m.probe;
    && sys.h.probeSentAfter <= sys.h.fences
    && (p.Some? && p.value.ProbeSent? ==>
          && p.value.epoch in sys.h.used
          && (sys.m.state.Some? && sys.m.state.value.epoch == Some(p.value.epoch) ==>
             p.value.revision <= sys.m.state.value.revision)
          && (sys.h.probeSentAfter < sys.h.fences ==> Outdated(sys.m, p.value)))
  }

  /** Every identifier the coordinator still holds has been drawn. */
  ghost predicate IdentifiersUsed(m: Machine, used: set<nat>) {
    && (m.state.Some? ==>
          && (m.state.value.epoch.Some? ==> m.state.value.epoch.value in used)
          && (m.state.value.operation.Some? ==> m.state.value.operation.value.id in used)
          && m.state.value.leases.Keys <= used)
    && (m.wake.Some? ==> m.wake.value.op in used && m.wake.value.epoch in used)
    && (m.stop.Some? ==> m.stop.value.op.id in used)
  }

  ghost predicate HistorySound(sys: System) {
    && (sys.m.state.Some? ==>
          && sys.h.lastWork == sys.m.state.value.lastSemanticWorkAt
          && sys.m.state.value.idleConfirmations <= sys.h.idleStreak)
    && (sys.m.state.None? ==> sys.h.lastWork == None)
    && ProbeSound(sys)
    && IdentifiersUsed(sys.m, sys.h.used)
  }

  /** While a request is in flight, the operation it names is still exactly what
      the stored state says, or the stored state has moved on from it. */
  ghost predicate CallsSound(m: Machine) {
    m.state.Some? && m.state.value.operation.Some? ==>
      && (m.wake.Some? && m.state.value.operation.value.id == m.wake.value.op ==>
            m.state.value.phase.Waking? && m.state.value.epoch == Some(m.wake.value.epoch))
      && (m.stop.Some? && m.state.value.operation.value.id == m.stop.value.op.id ==>
            && m.state.value.phase.Quiescing?
            && m.state.value.operation.value == m.stop.value.op && m.state.value.epoch == m.stop.value.epoch)
  }

  lemma DecisionKeepsCalls(m: Machine, op: OperationId, firedAt: int, now: int)
    requires CallsSound(m) && (m.state.Some? ==> Consistent(m.state.value))
    requires m.wake.Some? ==> m.wake.value.op != op
    requires m.stop.Some? ==> m.stop.value.op.id != op
    ensures CallsSound(Decide(m, op, firedAt, now))
  {
    hide NextAlarmAt;
  }

  lemma AlarmKeepsCalls(m: Machine, op: OperationId, epoch: Epoch, now: int)
    requires CallsSound(m) && (m.state.Some? ==> Consistent(m.state.value))
    requires m.wake.Some? ==> m.wake.value.op != op
    requires m.stop.Some? ==> m.stop.value.op.id != op
    ensures CallsSound(AlarmFires(m, op, epoch, now))
  {
    hide NextAlarmAt;
    DecisionKeepsCalls(m.(alarm := None), op, now, now);
  }

  lemma RepliesKeepCalls(m: Machine, wakeAnswer: Result<Snapshot>, stopAnswer: Result<StopOutcome>, now: int)
    requires CallsSound(m) && (m.state.Some? ==> Consistent(m.state.value))
    ensures CallsSound(WakeReply(m, wakeAnswer, now))
    ensures CallsSound(ProbeReply(m, wakeAnswer, now))
    ensures CallsSound(StopReply(m, stopAnswer, now))
  {
    hide NextAlarmAt;
  }

  lemma WakeKeepsCalls(m: Machine, explicit: bool, op: OperationId, epoch: Epoch, now: int)
    requires CallsSound(m) && (m.state.Some? ==> Consistent(m.state.value))
    requires m.stop.Some? ==> m.stop.value.op.id != op
    ensures CallsSound(ContinueWake(m, explicit, op, epoch, now))
  {
    hide NextAlarmAt;
  }

  lemma RemovalKeepsCalls(m: Machine, now: int)
    requires CallsSound(m) && (m.state.Some? ==> Consistent(m.state.value))
    ensures CallsSound(StartProbe(m, now))
  {
    hide NextAlarmAt;
  }

  lemma WorkKeepsCalls(m: Machine, epoch: Epoch, ttl: Option<int>, id: LeaseId, now: int)
    requires CallsSound(m) && (m.state.Some? ==> Consistent(m.state.value))
    ensures CallsSound(BeginWork(m, epoch, ttl, id, now))
    ensures CallsSound(RenewWork(m, epoch, ttl, id, now))
    ensures CallsSound(EndWork(m, epoch, id, now))
  {
    hide NextAlarmAt;
  }

  lemma ObservationKeepsCalls(m: Machine, epoch: Epoch, snapshot: Snapshot, now: int)
    requires CallsSound(m) && (m.state.Some? ==> Consistent(m.state.value))
    ensures CallsSound(ObserveExecution(m, epoch, snapshot, now))
  {
    hide NextAlarmAt;
  }

  lemma StepKeepsCalls(m: Machine, e: Event, now: int)
    requires CallsSound(m) && (m.state.Some? ==> Consistent(m.state.value))
    requires m.wake.Some? ==> m.wake.value.op !in Drawn(e)
    requires m.stop.Some? ==> m.stop.value.op.id !in Drawn(e)
    ensures CallsSound(Step(m, e, now))
  {
    hide NextAlarmAt, AlarmFires, Decide, WakeReply, ProbeReply, StopReply, ContinueWake, StartProbe, BeginWork,
      RenewWork, EndWork, ObserveExecution;
    match e
    case EAlarm(op, epoch) => AlarmKeepsCalls(m, op, epoch, now);
    case EAlarmDecides(op) =>
      if m.turn.Deciding? { DecisionKeepsCalls(m, op, m.turn.firedAt, now); }
    case EWakeReply(answer) => RepliesKeepCalls(m, answer, Failed, now);
    case EProbeReply(answer) => RepliesKeepCalls(m, answer, Failed, now);
    case EStopReply(answer) => RepliesKeepCalls(m, Failed, answer, now);
    case EWake(op, epoch) => WakeKeepsCalls(m, true, op, epoch, now);
    case EWakeAfterStop(op, epoch) => WakeKeepsCalls(m, true, op, epoch, now);
    case EReconcile => RemovalKeepsCalls(m, now);
    case EBeginWork(epoch, ttl, lease) => WorkKeepsCalls(m, epoch, ttl, lease, now);
    case ERenewWork(epoch, ttl, lease) => WorkKeepsCalls(m, epoch, ttl, lease, now);
    case EEndWork(epoch, lease) => WorkKeepsCalls(m, epoch, None, lease, now);
    case EObserve(epoch, snapshot) => ObservationKeepsCalls(m, epoch, snapshot, now);
    case _ =>
  }

  ghost predicate SystemInv(sys: System) {
    Inv(sys.m, sys.clock) && CallsSound(sys.m) && HistorySound(sys)
  }

  /** A request in flight was taken from the stored state that launched it. */
  ghost predicate WakeFromState(m: Machine, r: Machine) {
    r.wake.Some? ==>
      || (m.wake.Some? && m.wake.value.op == r.wake.value.op && m.wake.value.epoch == r.wake.value.epoch)
      || (&& r.state.Some? && r.state.value.operation.Some?
          && r.state.value.operation.value.id == r.wake.value.op
          && r.state.value.epoch == Some(r.wake.value.epoch))
  }

  ghost predicate StopFromState(m: Machine, r: Machine) {
    r.stop.Some? && r.stop != m.stop ==>
      && r.state.Some?
      && r.state.value.operation == Some(r.stop.value.op)
      && r.state.value.epoch == r.stop.value.epoch
  }

  ghost predicate ProbeFromState(m: Machine, r: Machine) {
    SendsProbe(m, r) ==>
      && r.state.Some?
      && r.state.value.epoch == Some(r.probe.value.epoch)
      && r.state.value.revision == r.probe.value.revision
      && m.state == r.state
  }

  lemma DecisionLaunches(m: Machine, op: OperationId, firedAt: int, now: int)
    ensures var r := Decide(m, op, firedAt, now); r.wake == m.wake && StopFromState(m, r) && ProbeFromState(m, r)
  {
    hide NextAlarmAt;
  }

  lemma AlarmLaunches(m: Machine, op: OperationId, epoch: Epoch, now: int)
    ensures var r := AlarmFires(m, op, epoch, now); WakeFromState(m, r) && StopFromState(m, r) && ProbeFromState(m, r)
  {
    hide NextAlarmAt;
    DecisionLaunches(m.(alarm := None), op, now, now);
  }

  lemma RepliesLaunch(m: Machine, answer: Result<Snapshot>, stopAnswer: Result<StopOutcome>, now: int)
    ensures var r := WakeReply(m, answer, now); WakeFromState(m, r) && r.stop == m.stop && r.probe == m.probe
    ensures var r := ProbeReply(m, answer, now);
            r.wake == m.wake && r.stop == m.stop && (r.probe == m.probe || r.probe.None?)
    ensures var r := StopReply(m, stopAnswer, now); r.wake == m.wake && r.stop.None? && r.probe == m.probe
  {
    hide NextAlarmAt, ApplyExecutionSnapshot, ApplyUnknownActivity, AfterStop, ClearIdleWindow;
  }

  lemma WorkLaunches(m: Machine, epoch: Epoch, ttl: Option<int>, id: LeaseId, snapshot: Snapshot, now: int)
    ensures var r := BeginWork(m, epoch, ttl, id, now); r.wake == m.wake && r.stop == m.stop && r.probe == m.probe
    ensures var r := RenewWork(m, epoch, ttl, id, now); r.wake == m.wake && r.stop == m.stop && r.probe == m.probe
    ensures var r := EndWork(m, epoch, id, now); r.wake == m.wake && r.stop == m.stop && r.probe == m.probe
    ensures var r := ObserveExecution(m, epoch, snapshot, now);
            r.wake == m.wake && r.stop == m.stop && r.probe == m.probe
  {
    hide NextAlarmAt, ApplyExecutionSnapshot, ClearIdleWindow, NormalizeLeaseTtl;
  }

  lemma RequestsComeFromState(m: Machine, e: Event, now: int)
    ensures var r := Step(m, e, now); WakeFromState(m, r) && StopFromState(m, r) && ProbeFromState(m, r)
  {
    hide NextAlarmAt, AlarmFires, Decide, WakeReply, ProbeReply, StopReply, BeginWork, RenewWork, EndWork,
      ObserveExecution;
    match e
    case EAlarm(op, epoch) => AlarmLaunches(m, op, epoch, now);
    case EAlarmDecides(op) =>
      if m.turn.Deciding? { DecisionLaunches(m, op, m.turn.firedAt, now); }
    case EWakeReply(answer) => RepliesLaunch(m, answer, Failed, now);
    case EProbeReply(answer) => RepliesLaunch(m, answer, Failed, now);
    case EStopReply(answer) => RepliesLaunch(m, Failed, answer, now);
    case EBeginWork(epoch, ttl, id) => WorkLaunches(m, epoch, ttl, id, Snapshot(Unknown, None, false), now);
    case ERenewWork(epoch, ttl, id) => WorkLaunches(m, epoch, ttl, id, Snapshot(Unknown, None, false), now);
    case EEndWork(epoch, id) => WorkLaunches(m, epoch, None, id, Snapshot(Unknown, None, false), now);
    case EObserve(epoch, snapshot) => WorkLaunches(m, epoch, None, 0, snapshot, now);
    case _ =>
  }

  lemma RevisionOutdates(sys: System, t: Tick)
    requires SystemInv(sys) && CanTick(sys, t)
    ensures ProbeSound(Next(sys, t))
  {
    hide Step;
    var m, e, now := sys.m, t.event, t.at;
    var r := Step(m, e, now);
    StepIsLawful(m, e, sys.clock, now);
    RequestsComeFromState(m, e, now);
  }

  lemma TickKeepsInv(sys: System, t: Tick)
    requires SystemInv(sys) && CanTick(sys, t)
    ensures SystemInv(Next(sys, t))
  {
    hide Step;
    StepKeepsInv(sys.m, t.event, sys.clock, t.at);
    StepIsLawful(sys.m, t.event, sys.clock, t.at);
    StepKeepsCalls(sys.m, t.event, t.at);
    RequestsComeFromState(sys.m, t.event, t.at);
    RevisionOutdates(sys, t);
  }

  // --- what holds in every run ---------------------------------------------

  lemma {:induction false} RunsAreSound(run: Run, i: nat)
    requires IsRun(run) && i <= |run.ticks|
    ensures SystemInv(run.states[i])
  {
    hide Step, Remember;
    if i > 0 {
      RunsAreSound(run, i - 1);
      TickKeepsInv(run.states[i - 1], run.ticks[i - 1]);
    }
  }

  /** Epochs, operations and leases fit the phase in every reachable state. */
  lemma EveryStateIsConsistent(run: Run, i: nat)
    requires IsRun(run) && i <= |run.ticks|
    requires run.states[i].m.state.Some?
    ensures Consistent(run.states[i].m.state.value)
  {
    RunsAreSound(run, i);
  }

  /** Whenever an idle stop begins, no lease is held, the idle timeout has passed
      since work last began, ended or expired, and at least two idle snapshots of
      this very epoch have come in since then, with no other answer, no stop and no
      wake in between. */
  lemma IdleStopIsEarned(run: Run, i: nat)
    requires IsRun(run) && i < |run.ticks|
    requires run.states[i].m.state.Some? && run.states[i + 1].m.state.Some?
    requires IdleStopBegins(run.states[i].m.state.value, run.states[i + 1].m.state.value)
    ensures var h, s := run.states[i].h, run.states[i + 1].m.state.value;
            && s.leases == map[]
            && (h.lastWork.Some? ==> h.lastWork.value + s.idleTimeout.GetOr(IDLE_TIMEOUT_MS) <= run.states[i + 1].clock)
            && h.idleStreak >= REQUIRED_IDLE_CONFIRMATIONS
  {
    hide Step;
    RunsAreSound(run, i);
    var t := run.ticks[i];
    StepIsLawful(run.states[i].m, t.event, run.states[i].clock, t.at);
  }

  /** An answer is applied only when nothing was fenced off since its probe was
      sent: no work, expiry, stop, deletion or wake came in between. */
  lemma AppliedProbesCrossNoFence(run: Run, i: nat)
    requires IsRun(run) && i <= |run.ticks|
    requires run.states[i].m.probe.Some? && ProbeIsCurrent(run.states[i].m, run.states[i].m.probe.value)
    ensures run.states[i].h.probeSentAfter == run.states[i].h.fences
  {
    RunsAreSound(run, i);
  }

  /** Between two deletions of the stored state the revision never decreases. */
  lemma {:induction false} RevisionNeverDecreases(run: Run, i: nat, j: nat)
    requires IsRun(run) && i <= j <= |run.ticks|
    requires forall k | i <= k < j :: !run.ticks[k].event.EMarkDeleted?
    requires run.states[i].m.state.Some?
    ensures run.states[j].m.state.Some?
    ensures run.states[i].m.state.value.revision <= run.states[j].m.state.value.revision
    decreases j
  {
    hide Step;
    if i < j {
      RevisionNeverDecreases(run, i, j - 1);
      RunsAreSound(run, j - 1);
      var t := run.ticks[j - 1];
      StepIsLawful(run.states[j - 1].m, t.event, run.states[j - 1].clock, t.at);
    }
  }

  ghost predicate HoldsEpoch(sys: System, epoch: Epoch) {
    sys.m.state.Some? && sys.m.state.value.epoch == Some(epoch)
  }

  /** Once an epoch has been given up it is never held, let alone admitted, again. */
  lemma {:induction false} GivenUpEpochsStayGivenUp(run: Run, epoch: Epoch, i: nat, j: nat, k: nat)
    requires IsRun(run) && i <= j <= k <= |run.ticks|
    requires HoldsEpoch(run.states[i], epoch) && !HoldsEpoch(run.states[j], epoch)
    ensures !HoldsEpoch(run.states[k], epoch)
    ensures run.states[k].m.state.Some? ==> !Admits(run.states[k].m.state.value, epoch)
    decreases k
  {
    hide Step;
    if j < k {
      GivenUpEpochsStayGivenUp(run, epoch, i, j, k - 1);
      RunsAreSound(run, i);
      UsedStaysUsed(run, i, k - 1);
      RunsAreSound(run, k - 1);
      var t := run.ticks[k - 1];
      StepIsLawful(run.states[k - 1].m, t.event, run.states[k - 1].clock, t.at);
    }
  }

  lemma {:induction false} UsedStaysUsed(run: Run, i: nat, j: nat)
    requires IsRun(run) && i <= j <= |run.ticks|
    ensures run.states[i].h.used <= run.states[j].h.used
    decreases j
  {
    hide Step;
    if i < j {
      UsedStaysUsed(run, i, j - 1);
      assert run.states[j] == Next(run.states[j - 1], run.ticks[j - 1]);
    }
  }

  // --- superseded replies ----------------------------------------------------

  ghost predicate WakeInFlight(m: Machine, op: OperationId) {
    m.wake.Some? && m.wake.value.op == op
  }

  ghost predicate StopInFlight(m: Machine, op: OperationId) {
    m.stop.Some? && m.stop.value.op.id == op
  }

  ghost predicate SupersededWake(m: Machine, op: OperationId) {
    WakeInFlight(m, op) && !WakeIsCurrent(m, m.wake.value)
  }

  ghost predicate SupersededStop(m: Machine, op: OperationId) {
    StopInFlight(m, op) && !StopIsCurrent(m, m.stop.value)
  }

  lemma SupersededStaysSuperseded(sys: System, t: Tick, op: OperationId)
    requires SystemInv(sys) && CanTick(sys, t)
    ensures var r := Next(sys, t).m;
            && (SupersededWake(sys.m, op) && WakeInFlight(r, op) ==> SupersededWake(r, op))
            && (SupersededStop(sys.m, op) && StopInFlight(r, op) ==> SupersededStop(r, op))
  {
    hide Step;
    StepIsLawful(sys.m, t.event, sys.clock, t.at);
    StepKeepsCalls(sys.m, t.event, t.at);
  }

  /** A wake request superseded at some point changes nothing by its reply,
      however much later that arrives. */
  lemma {:induction false} SupersededWakesAreInert(run: Run, i: nat, j: nat, op: OperationId, answer: Result<Snapshot>,
      now: int)
    requires IsRun(run) && i <= j <= |run.ticks|
    requires SupersededWake(run.states[i].m, op)
    requires forall k | i <= k <= j :: WakeInFlight(run.states[k].m, op)
    ensures SupersededWake(run.states[j].m, op)
    ensures WakeReply(run.states[j].m, answer, now).state == run.states[j].m.state
    decreases j
  {
    hide Step;
    if i < j {
      SupersededWakesAreInert(run, i, j - 1, op, answer, now);
      RunsAreSound(run, j - 1);
      SupersededStaysSuperseded(run.states[j - 1], run.ticks[j - 1], op);
    }
  }

  /** The same for a stop request. */
  lemma {:induction false} SupersededStopsAreInert(run: Run, i: nat, j: nat, op: OperationId,
      answer: Result<StopOutcome>, now: int)
    requires IsRun(run) && i <= j <= |run.ticks|
    requires SupersededStop(run.states[i].m, op)
    requires forall k | i <= k <= j :: StopInFlight(run.states[k].m, op)
    ensures SupersededStop(run.states[j].m, op)
    ensures StopReply(run.states[j].m, answer, now).state == run.states[j].m.state
    decreases j
  {
    hide Step;
    if i < j {
      SupersededStopsAreInert(run, i, j - 1, op, answer, now);
      RunsAreSound(run, j - 1);
      SupersededStaysSuperseded(run.states[j - 1], run.ticks[j - 1], op);
    }
  }
}
