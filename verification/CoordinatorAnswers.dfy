/** What calls and answers leave behind: the lifetime of every lease, and the state
    that each answer of a probe, a wake or a stop leads to. */
module CoordinatorAnswers {
  import opened Wrappers
  import opened LifecycleState
  import opened CoordinatorSteps
  import opened CoordinatorInvariant
  import opened CoordinatorLaws
  import opened CoordinatorRuns
  import opened CoordinatorAlarms

  // --- leases ------------------------------------------------------------------------

  /** A minute and a half if nothing sensible is asked for, else what is asked for,
      between five seconds and five minutes. */
  ghost predicate IsLifetime(ttl: Option<int>, lifetime: int) {
    match ttl
    case None => lifetime == 90_000
    case Some(v) =>
      && (v <= 5_000 ==> lifetime == 5_000)
      && (5_000 <= v <= 300_000 ==> lifetime == v)
      && (v >= 300_000 ==> lifetime == 300_000)
  }

  /** The call begins this lease, or renews it while it is held. */
  ghost predicate Grants(m: Machine, e: Event, id: LeaseId, epoch: Epoch) {
    && m.state.Some? && Admits(m.state.value, epoch)
    && (|| (e.EBeginWork? && e.lease == id && e.workEpoch == epoch)
        || (e.ERenewWork? && e.lease == id && e.workEpoch == epoch
            && id in m.state.value.leases && m.state.value.leases[id].epoch == epoch))
  }

  ghost predicate Holds(m: Machine, id: LeaseId, lease: WorkLease) {
    m.state.Some? && id in m.state.value.leases && m.state.value.leases[id] == lease
  }

  /** A grant sets the end of the lease, and nothing else moves it. */
  lemma GrantsSetTheEnd(m: Machine, e: Event, id: LeaseId, epoch: Epoch, now: int)
    requires Grants(m, e, id, epoch)
    ensures var r := Step(m, e, now);
            && r.state.Some? && id in r.state.value.leases && r.state.value.leases[id].epoch == epoch
            && IsLifetime(e.ttl, r.state.value.leases[id].expiresAt - now)
            && (forall other | other != id :: (other in m.state.value.leases <==> other in r.state.value.leases))
            && (forall other | other != id && other in m.state.value.leases ::
                  r.state.value.leases[other] == m.state.value.leases[other])
  {
    hide NextAlarmAt;
  }

  lemma SnapshotsKeepLeases(s: State, snapshot: Snapshot, now: int)
    ensures var r := ApplyExecutionSnapshot(s, snapshot, now); r.leases == s.leases || r.leases == map[]
  {
    hide ActiveLeases;
  }

  lemma RemovalKeepsLeases(s: State, now: int)
    ensures var r := RemoveExpiredLeases(s, now);
            r.Some? ==> forall id | id in r.value.leases :: id in s.leases && r.value.leases[id] == s.leases[id]
  {}

  ghost predicate LeasesStay(m: Machine, r: Machine) {
    r.state.Some? ==> forall id | id in r.state.value.leases ::
      m.state.Some? && id in m.state.value.leases && r.state.value.leases[id] == m.state.value.leases[id]
  }

  lemma AnswersKeepLeases(m: Machine, answer: Result<Snapshot>, stopAnswer: Result<StopOutcome>, epoch: Epoch,
      snapshot: Snapshot, now: int)
    ensures LeasesStay(m, WakeReply(m, answer, now)) && LeasesStay(m, ProbeReply(m, answer, now))
    ensures LeasesStay(m, StopReply(m, stopAnswer, now)) && LeasesStay(m, ObserveExecution(m, epoch, snapshot, now))
  {
    hide LeasesStay, WakeReply, ProbeReply, ObserveExecution, StopReply;
    WakeAnswersKeepLeases(m, answer, now);
    ProbeAnswersKeepLeases(m, answer, now);
    ObservationsKeepLeases(m, epoch, snapshot, now);
    StopAnswersKeepLeases(m, stopAnswer, now);
  }

  lemma WakeAnswersKeepLeases(m: Machine, answer: Result<Snapshot>, now: int)
    ensures LeasesStay(m, WakeReply(m, answer, now))
  {
    AllSnapshotsKeepLeases(now);
    hide NextAlarmAt, ApplyExecutionSnapshot;
  }

  lemma ProbeAnswersKeepLeases(m: Machine, answer: Result<Snapshot>, now: int)
    ensures LeasesStay(m, ProbeReply(m, answer, now))
  {
    AllSnapshotsKeepLeases(now);
    hide NextAlarmAt, ApplyExecutionSnapshot;
  }

  lemma AllSnapshotsKeepLeases(now: int)
    ensures forall s: State, x: Snapshot {:trigger ApplyExecutionSnapshot(s, x, now)} ::
              var r := ApplyExecutionSnapshot(s, x, now); r.leases == s.leases || r.leases == map[]
  {
    forall s: State, x: Snapshot {:trigger ApplyExecutionSnapshot(s, x, now)}
      ensures var r := ApplyExecutionSnapshot(s, x, now); r.leases == s.leases || r.leases == map[]
    {
      SnapshotsKeepLeases(s, x, now);
    }
  }

  lemma ObservationsKeepLeases(m: Machine, epoch: Epoch, snapshot: Snapshot, now: int)
    ensures LeasesStay(m, ObserveExecution(m, epoch, snapshot, now))
  {
    AllSnapshotsKeepLeases(now);
    hide NextAlarmAt, ApplyExecutionSnapshot;
  }

  lemma StopAnswersKeepLeases(m: Machine, answer: Result<StopOutcome>, now: int)
    ensures LeasesStay(m, StopReply(m, answer, now))
  {
    AllSnapshotsKeepLeases(now);
    hide NextAlarmAt, ApplyExecutionSnapshot;
  }

  lemma AlarmsKeepLeases(m: Machine, op: OperationId, epoch: Epoch, firedAt: int, now: int)
    ensures LeasesStay(m, AlarmFires(m, op, epoch, now)) && LeasesStay(m, Decide(m, op, firedAt, now))
    ensures LeasesStay(m, StartProbe(m, now)) && LeasesStay(m, ContinueWake(m, true, op, epoch, now))
  {
    hide NextAlarmAt, RemoveExpiredLeases, ActiveLeases;
    if m.state.Some? { RemovalKeepsLeases(m.state.value, now); }
  }

  lemma OthersLeaveLeases(m: Machine, e: Event, now: int)
    requires !e.EBeginWork? && !e.ERenewWork?
    ensures LeasesStay(m, Step(m, e, now))
  {
    hide NextAlarmAt, AlarmFires, Decide, WakeReply, ProbeReply, StopReply, ObserveExecution, StartProbe, ContinueWake,
      LeasesStay;
    match e
    case EAlarm(op, epoch) => AlarmsKeepLeases(m, op, epoch, now, now);
    case EAlarmDecides(op) =>
      StaysItself(m);
      if m.turn.Deciding? { AlarmsKeepLeases(m, op, 0, m.turn.firedAt, now); }
    case EReconcile => AlarmsKeepLeases(m, 0, 0, now, now);
    case EWake(op, epoch) => AlarmsKeepLeases(m, op, epoch, now, now); OthersKeepLeases(m, e, now);
    case EWakeReply(answer) => AnswersKeepLeases(m, answer, Failed, 0, Snapshot(Running, None, true), now);
    case EProbeReply(answer) => AnswersKeepLeases(m, answer, Failed, 0, Snapshot(Running, None, true), now);
    case EStopReply(answer) => AnswersKeepLeases(m, Failed, answer, 0, Snapshot(Running, None, true), now);
    case EObserve(epoch, snapshot) => AnswersKeepLeases(m, Failed, Failed, epoch, snapshot, now);
    case _ => OthersKeepLeases(m, e, now);
  }

  lemma StaysItself(m: Machine)
    ensures LeasesStay(m, m)
  {}

  lemma OthersKeepLeases(m: Machine, e: Event, now: int)
    requires !e.EBeginWork? && !e.ERenewWork? && !e.EAlarm? && !e.EAlarmDecides? && !e.EReconcile? && !e.EWakeReply?
    requires !e.EProbeReply? && !e.EStopReply? && !e.EObserve?
    ensures LeasesStay(m, Step(m, e, now))
  {
    hide NextAlarmAt;
  }

  lemma OnlyGrantsMoveTheEnd(m: Machine, e: Event, id: LeaseId, now: int)
    requires m.state.Some? ==> Consistent(m.state.value)
    requires var r := Step(m, e, now);
             && r.state.Some? && id in r.state.value.leases && !Grants(m, e, id, r.state.value.leases[id].epoch)
    ensures var r := Step(m, e, now); Holds(m, id, r.state.value.leases[id])
  {
    hide NextAlarmAt, NormalizeLeaseTtl;
    if !e.EBeginWork? && !e.ERenewWork? {
      hide Step;
      OthersLeaveLeases(m, e, now);
    }
  }

  /** In every run: a lease that is held was granted by a call that began or renewed it
      while its epoch was admitted, it ends the bounded lifetime that call asked for
      after it, and no later call has been granted for it. */
  lemma {:induction false} LeasesEndWhenGranted(run: Run, k: nat, id: LeaseId) returns (j: nat)
    requires IsRun(run) && k <= |run.ticks|
    requires run.states[k].m.state.Some? && id in run.states[k].m.state.value.leases
    ensures var lease := run.states[k].m.state.value.leases[id];
            && j < k && Grants(run.states[j].m, run.ticks[j].event, id, lease.epoch)
            && IsLifetime(run.ticks[j].event.ttl, lease.expiresAt - run.ticks[j].at)
            && (forall i | j < i < k :: !Grants(run.states[i].m, run.ticks[i].event, id, lease.epoch))
  {
    hide Step, Grants, IsLifetime, CanTick, Remember;
    if k == 0 {
      assert false;
    } else {
      var m, t := run.states[k - 1].m, run.ticks[k - 1];
      var lease := run.states[k].m.state.value.leases[id];
      RunsAreSound(run, k - 1);
      assert run.states[k].m == Step(m, t.event, t.at);
      if Grants(m, t.event, id, lease.epoch) {
        GrantsSetTheEnd(m, t.event, id, lease.epoch, t.at);
        j := k - 1;
      } else {
        OnlyGrantsMoveTheEnd(m, t.event, id, t.at);
        j := LeasesEndWhenGranted(run, k - 1, id);
      }
    }
  }

  // --- answers -----------------------------------------------------------------------

  /** Ten, twenty, forty seconds, and a minute from the fourth failure on. */
  ghost predicate IsBackoff(failures: nat, wait: int) {
    if failures == 1 then wait == 10_000
    else if failures == 2 then wait == 20_000
    else if failures == 3 then wait == 40_000
    else wait == 60_000
  }

  /** What the container reports of, at the latest now. */
  ghost predicate IsSeenAt(snapshot: Snapshot, at: int, now: int) {
    match snapshot.observedAt
    case None => at == now
    case Some(reported) => (reported <= now ==> at == reported) && (reported > now ==> at == now)
  }

  ghost predicate LeaseAlive(s: State, now: int) {
    exists id :: id in s.leases && s.epoch == Some(s.leases[id].epoch) && s.leases[id].expiresAt > now
  }

  ghost predicate WindowClosed(s: State) {
    s.idleCandidateSince.None? && s.idleConfirmations == 0 && s.idleSince.None? && s.idleDeadlineAt.None?
  }

  ghost predicate WindowOpen(s: State) {
    s.idleCandidateSince.Some? || s.idleDeadlineAt.Some?
  }

  /** Nobody knows: an error, with the next probe put off by the failures in a row. */
  ghost predicate LeavesUnknown(s: State, now: int, r: State) {
    && r.phase.ErrorRunning? && WindowClosed(r) && r.epoch == s.epoch && r.leases == s.leases
    && r.probeFailures == s.probeFailures + 1
    && r.probeFailingSince == (if s.probeFailingSince.Some? then s.probeFailingSince else Some(now))
    && r.nextProbeAt.Some? && IsBackoff(r.probeFailures, r.nextProbeAt.value - now)
    && r.revision == s.revision + (if WindowOpen(s) || !s.phase.ErrorRunning? then 1 else 0)
  }

  ghost predicate LeavesAsleep(s: State, reason: StopReason, r: State) {
    && r.phase.Sleeping? && WindowClosed(r) && r.epoch.None? && r.leases == map[] && r.operation.None?
    && r.nextProbeAt.None? && r.probeFailures == 0 && r.probeFailingSince.None? && !r.wakeAfterStop
    && r.lastStopReason == Some(reason) && r.revision == s.revision + 1
  }

  /** A first idle report opens the window, a second makes the instance idle. */
  ghost predicate LeavesQuieter(s: State, at: int, now: int, r: State) {
    if s.phase.RunningIdle? then
      && r.phase.RunningIdle? && r.idleSince == s.idleSince && r.idleDeadlineAt == s.idleDeadlineAt
      && r.idleCandidateSince == s.idleCandidateSince && r.nextProbeAt == Some(now + 60_000)
    else if s.idleCandidateSince.Some? && s.idleCandidateSince.value != 0 && s.idleConfirmations >= 1 then
      && r.phase.RunningIdle? && r.idleSince == s.idleCandidateSince && r.idleCandidateSince == s.idleCandidateSince
      && r.idleDeadlineAt == Some(s.idleCandidateSince.value + s.idleTimeout.GetOr(600_000))
      && r.nextProbeAt == Some(now + 60_000)
    else
      && r.phase.RunningUnknown? && r.idleConfirmations == 1 && r.idleSince.None? && r.idleDeadlineAt.None?
      && r.idleCandidateSince == (if s.idleCandidateSince.Some? then s.idleCandidateSince else Some(at))
      && r.nextProbeAt == Some(now + 3_000)
  }

  /** What a report of the container does to the stored state. */
  ghost predicate Leaves(s: State, snapshot: Snapshot, now: int, r: State) {
    match snapshot.execution
    case NotRunning => LeavesAsleep(s, UnexpectedReason, r)
    case Unknown => LeavesUnknown(s, now, r)
    case Running =>
      && r.epoch == s.epoch && r.leases == s.leases && r.operation.None?
      && r.probeFailures == 0 && r.probeFailingSince.None?
      && if snapshot.active || LeaseAlive(s, now) then
           && r.phase.RunningBusy? && WindowClosed(r) && r.nextProbeAt == Some(now + 10_000)
           && r.revision == s.revision + (if WindowOpen(s) || !s.phase.RunningBusy? then 1 else 0)
         else
           && r.revision == s.revision
           && forall at: int | IsSeenAt(snapshot, at, now) ::
             if s.lastSemanticWorkAt.Some? && at < s.lastSemanticWorkAt.value then
               r.phase.RunningUnknown? && WindowClosed(r) && r.nextProbeAt == Some(now + 3_000)
             else LeavesQuieter(s, at, now, r)
  }

  lemma AliveIsActive(s: State, now: int)
    ensures LeaseAlive(s, now) <==> ActiveLeases(s, now) != {}
  {
    if LeaseAlive(s, now) {
      var id :| id in s.leases && s.epoch == Some(s.leases[id].epoch) && s.leases[id].expiresAt > now;
      assert id in ActiveLeases(s, now);
    }
    if id :| id in ActiveLeases(s, now) { assert LeaseAlive(s, now); }
  }

  lemma ReportsLeave(s: State, snapshot: Snapshot, now: int)
    requires s.phase.RunningIdle? ==> s.idleSince.Some? && s.idleDeadlineAt.Some?
    ensures Leaves(s, snapshot, now, ApplyExecutionSnapshot(s, snapshot, now))
  {
    hide ActiveLeases, LeaseAlive, ApplyUnknownActivity, LeavesUnknown;
    if snapshot.execution.Running? {
      RunningReportsLeave(s, snapshot, now);
      hide Leaves, ApplyExecutionSnapshot;
    } else {
      FailuresLeaveUnknown(s, now);
    }
  }

  lemma RunningReportsLeave(s: State, snapshot: Snapshot, now: int)
    requires s.phase.RunningIdle? ==> s.idleSince.Some? && s.idleDeadlineAt.Some?
    requires snapshot.execution.Running?
    ensures Leaves(s, snapshot, now, ApplyExecutionSnapshot(s, snapshot, now))
  {
    hide ActiveLeases, LeaseAlive, ApplyUnknownActivity, LeavesUnknown, LeavesAsleep, LeavesQuieter, ConfirmIdle,
      StillIdle, ToSleeping;
    AliveIsActive(s, now);
    QuietReports(s, ObservedAt(snapshot, now), now);
  }

  lemma QuietReports(s: State, at: int, now: int)
    requires s.phase.RunningIdle? ==> s.idleSince.Some? && s.idleDeadlineAt.Some?
    ensures var r := if s.phase.RunningIdle? then StillIdle(s, now) else ConfirmIdle(s, at, now);
            && LeavesQuieter(s, at, now, r)
            && r.epoch == s.epoch && r.leases == s.leases && r.operation.None?
            && r.probeFailures == 0 && r.probeFailingSince.None? && r.revision == s.revision
  {}

  lemma FailuresLeaveUnknown(s: State, now: int)
    ensures LeavesUnknown(s, now, ApplyUnknownActivity(s, now))
  {}

  // --- what each answer does ---------------------------------------------------------

  /** A probe that is still current takes its answer, or counts as failed. */
  lemma ProbesAreAnswered(m: Machine, answer: Result<Snapshot>, clock: int, now: int)
    requires Inv(m, clock) && m.probe.Some? && ProbeIsCurrent(m, m.probe.value)
    ensures var r := Step(m, EProbeReply(answer), now);
            && r.state.Some? && r.probe.None? && r.turn == m.turn
            && match answer
               case Ok(snapshot) => Leaves(m.state.value, snapshot, now, r.state.value)
               case Failed => LeavesUnknown(m.state.value, now, r.state.value)
  {
    hide NextAlarmAt, ApplyExecutionSnapshot, ApplyUnknownActivity, Leaves, LeavesUnknown;
    FailuresLeaveUnknown(m.state.value, now);
    if answer.Ok? { ReportsLeave(m.state.value, answer.value, now); }
  }

  /** A report of the admitted epoch is taken like a probe's answer, but for one that
      says idle as of before the last work, which changes nothing; so does one of any
      other epoch. */
  lemma ReportsAreTaken(m: Machine, epoch: Epoch, snapshot: Snapshot, at: int, clock: int, now: int)
    requires Inv(m, clock) && IsSeenAt(snapshot, at, now)
    ensures var r := Step(m, EObserve(epoch, snapshot), now);
            if || m.state.None? || !Admits(m.state.value, epoch)
               || (&& snapshot.execution.Running? && !snapshot.active
                   && m.state.value.lastSemanticWorkAt.Some? && at < m.state.value.lastSemanticWorkAt.value)
            then r == m
            else
              && r.state.Some? && Leaves(m.state.value, snapshot, now, r.state.value)
              && r == m.(state := r.state, alarm := r.alarm)
  {
    hide NextAlarmAt, ApplyExecutionSnapshot, Leaves;
    if m.state.Some? && Admits(m.state.value, epoch) { ReportsLeave(m.state.value, snapshot, now); }
  }

  /** A wake that is still current: a container that is up opens admission for the
      epoch it was woken for, as its first report says; anything else is an error, put
      off by the failures in a row, that keeps epoch, operation and revision. */
  lemma WakesAreAnswered(m: Machine, answer: Result<Snapshot>, clock: int, now: int)
    requires Inv(m, clock) && m.wake.Some? && WakeIsCurrent(m, m.wake.value)
    ensures var r, s := Step(m, EWakeReply(answer), now), m.state.value;
            && r.state.Some? && r.wake.None?
            && if answer.Ok? && !answer.value.execution.NotRunning? then
                 && IsAdmission(r.state.value.phase)
                 && Leaves(s.(phase := RunningUnknown, operation := None, nextProbeAt := Some(now), probeFailures := 0,
                           probeFailingSince := None, updatedAt := now), answer.value, now, r.state.value)
               else
                 && r.state.value.phase.ErrorWaking? && r.state.value.epoch == s.epoch
                 && r.state.value.operation == s.operation && r.state.value.revision == s.revision
                 && r.state.value.probeFailures == s.probeFailures + 1
                 && r.state.value.nextProbeAt.Some?
                 && IsBackoff(s.probeFailures + 1, r.state.value.nextProbeAt.value - now)
  {
    hide NextAlarmAt, ApplyExecutionSnapshot, Leaves;
    if answer.Ok? {
      var woken := m.state.value.(phase := RunningUnknown, operation := None, nextProbeAt := Some(now),
        probeFailures := 0, probeFailingSince := None, updatedAt := now);
      ReportsLeave(woken, answer.value, now);
      if !answer.value.execution.NotRunning? { WokenIsUp(woken, answer.value, now); }
    }
  }

  lemma WokenIsUp(s: State, snapshot: Snapshot, now: int)
    requires !snapshot.execution.NotRunning?
    ensures IsAdmission(ApplyExecutionSnapshot(s, snapshot, now).phase)
  {
    hide ActiveLeases;
  }

  /** Open again, with nothing known yet and a probe due. */
  ghost function Reopened(s: State, now: int): State {
    s.(phase := RunningUnknown, revision := s.revision + 1, operation := None, wakeAfterStop := false,
    nextProbeAt := Some(now), idleCandidateSince := None, idleConfirmations := 0, idleSince := None,
    idleDeadlineAt := None, updatedAt := now)
  }

  /** A stop that is still current, by its outcome. */
  lemma StopsAreAnswered(m: Machine, answer: Result<StopOutcome>, clock: int, now: int)
    requires Inv(m, clock) && CallsSound(m) && m.stop.Some? && StopIsCurrent(m, m.stop.value)
    ensures var r, s := Step(m, EStopReply(answer), now), m.state.value;
            && r.state.Some? && r.stop.None?
            && var t := r.state.value;
            match answer
            case Failed =>
              && t.phase.Quiescing? && t.operation == s.operation && t.epoch == s.epoch && t.revision == s.revision
              && t.probeFailures == s.probeFailures + 1 && t.nextProbeAt.Some?
              && IsBackoff(s.probeFailures + 1, t.nextProbeAt.value - now)
            case Ok(TerminationPending) =>
              t == s.(nextProbeAt := Some(now + 30_000), updatedAt := now)
            case Ok(FailedRunning) =>
              && t.phase.ErrorRunning? && WindowClosed(t) && t.operation.None? && t.epoch == s.epoch
              && t.revision == s.revision + 1 && t.probeFailures == 1 && t.nextProbeAt == Some(now + 10_000)
              && !t.wakeAfterStop
            case Ok(Busy(snapshot)) =>
              var open := Reopened(s, now);
              if snapshot.Some? then Leaves(open, snapshot.value, now, t) else t == open
            case Ok(_) =>
              && LeavesAsleep(s, if s.operation.value.kind.ForceStop? then ManualReason else IdleReason, t)
              && (r.tail.OwesWake? <==> s.wakeAfterStop)
  {
    hide NextAlarmAt, ApplyExecutionSnapshot, Leaves;
    if answer.Ok? && answer.value.Busy? && answer.value.snapshot.Some? {
      ReportsLeave(Reopened(m.state.value, now), answer.value.snapshot.value, now);
    }
  }

  // --- what each call does -----------------------------------------------------------

  /** Work that is admitted makes the instance busy, closes its idle window and brings
      the next probe to ten seconds at most; work that is not changes nothing. */
  lemma WorkIsAdmitted(m: Machine, epoch: Epoch, ttl: Option<int>, id: LeaseId, now: int)
    ensures var r := Step(m, EBeginWork(epoch, ttl, id), now);
            if m.state.Some? && IsAdmission(m.state.value.phase) && m.state.value.epoch == Some(epoch) then
              && Grants(m, EBeginWork(epoch, ttl, id), id, epoch) && r.state.Some?
              && var s, t := m.state.value, r.state.value;
              && t.phase.RunningBusy? && WindowClosed(t) && t.revision == s.revision + 1 && t.epoch == s.epoch
              && t.lastSemanticWorkAt == Some(now) && t.nextProbeAt.Some? && t.nextProbeAt.value <= now + 10_000
              && (s.nextProbeAt.Some? ==> t.nextProbeAt.value <= s.nextProbeAt.value)
              && (t.nextProbeAt == s.nextProbeAt || t.nextProbeAt == Some(now + 10_000))
            else r == m
  {
    hide NextAlarmAt, NormalizeLeaseTtl;
  }

  /** Work that is given back: busy exactly if other work is held, and a probe is due at
      once; a lease nobody holds changes nothing. */
  lemma WorkIsGivenBack(m: Machine, epoch: Epoch, id: LeaseId, now: int)
    ensures var r := Step(m, EEndWork(epoch, id), now);
            if && m.state.Some? && m.state.value.epoch == Some(epoch)
               && id in m.state.value.leases && m.state.value.leases[id].epoch == epoch
            then
              && r.state.Some?
              && var s, t := m.state.value, r.state.value;
              && t.leases == s.leases - {id}
              && (if exists other :: other in s.leases && other != id then t.phase.RunningBusy?
                  else t.phase.RunningUnknown?)
              && WindowClosed(t) && t.revision == s.revision + 1 && t.epoch == s.epoch
              && t.lastSemanticWorkAt == Some(now) && t.nextProbeAt == Some(now) && r.alarm == Some(now)
            else r == m
  {
    if HoldsLease(m, epoch, id) {
      var s, t := m.state.value, Step(m, EEndWork(epoch, id), now).state.value;
      AlarmIsTheEarliest(t, now);
      if other :| other in s.leases && other != id {
        assert other in s.leases - {id};
      } else {
        assert s.leases - {id} == map[];
      }
    }
    hide NextAlarmAt;
  }

  /** A forced stop begins unless the instance sleeps, stops or is deleted already. */
  lemma ForcedStopsBegin(m: Machine, op: OperationId, now: int)
    ensures var r := Step(m, EForceStop(op), now);
            if && m.state.Some? && !m.state.value.phase.Sleeping? && !m.state.value.phase.Deleting?
               && !m.state.value.phase.Quiescing?
            then
              && r.state.Some?
              && var s, t := m.state.value, r.state.value;
              && t.phase.Quiescing? && t.operation == Some(Operation(op, ForceStop, now)) && t.epoch == s.epoch
              && t.leases == map[] && WindowClosed(t) && t.revision == s.revision + 1 && !t.wakeAfterStop
              && t.nextProbeAt == Some(now + 30_000)
              && r == m.(state := r.state, alarm := r.alarm)
            else r == m
  {
    hide NextAlarmAt;
  }

  ghost predicate WakeIsNew(m: Machine, r: Machine, op: OperationId, epoch: Epoch, now: int) {
    && m.state.Some? && r.state.Some?
    && var s, t := m.state.value, r.state.value;
    && t.phase.Waking? && t.epoch == Some(epoch) && t.operation == Some(Operation(op, WakeOperation, now))
    && t.revision == s.revision + 1 && t.leases == map[] && WindowClosed(t) && !t.wakeAfterStop
    && t.nextProbeAt == Some(now + 30_000) && r.wake == Some(WakeCall(op, epoch, false))
  }

  /** A wake that is asked for is refused while the instance is deleted or gone, nothing
      to do while it is up, remembered while it stops, and joined to one in flight;
      otherwise it begins, under a new operation for a new epoch. */
  lemma WakesAreAskedFor(m: Machine, op: OperationId, epoch: Epoch, clock: int, now: int)
    requires Inv(m, clock)
    ensures var r := Step(m, EWake(op, epoch), now);
            if m.state.None? || InPhase(m, Deleting) || InAdmission(m) then r == m
            else if InPhase(m, Quiescing) then
              && r.state == Some(m.state.value.(wakeAfterStop := true, updatedAt := now))
              && r == m.(state := r.state, alarm := r.alarm)
            else if m.wake.Some? then r == m
            else WakeIsNew(m, r, op, epoch, now)
  {
    hide NextAlarmAt;
  }

  /** The alarm tries a wake again under the same operation, for the same epoch. */
  lemma AlarmsWakeAgain(m: Machine, op: OperationId, epoch: Epoch, clock: int, now: int)
    requires Inv(m, clock) && (InPhase(m, Waking) || InPhase(m, ErrorWaking)) && m.wake.None? && m.turn.NoTurn?
    requires m.alarm.Some? && m.alarm.value <= now
    ensures var r, s := Step(m, EAlarm(op, epoch), now), m.state.value;
            && InPhase(r, Waking) && r.turn.AwaitingWake?
            && r.state.value.epoch == s.epoch && r.state.value.operation == s.operation
            && r.state.value.revision == s.revision && r.state.value.nextProbeAt == Some(now + 30_000)
            && r.wake == Some(WakeCall(s.operation.value.id, s.epoch.value, false))
  {
    hide NextAlarmAt;
  }

  /** A stop that has been stored is sent with what it is about, by whoever stored it
      and by the alarm again, unless one is in progress. */
  lemma StopsAreSent(m: Machine, e: Event, clock: int, now: int)
    requires Inv(m, clock) && InPhase(m, Quiescing) && m.stop.None? && m.tail.NoTail?
    requires e.ESendStop? || (e.EAlarm? && m.turn.NoTurn? && m.alarm.Some? && m.alarm.value <= now)
    ensures var r, s := Step(m, e, now), m.state.value;
            && r.stop == Some(StopCall(s.operation.value, s.epoch, s.revision)) && r.state == m.state
            && (e.EAlarm? ==> r.turn.AwaitingStop?)
  {
    hide NextAlarmAt;
  }

  /** A deletion gives everything up, and forgets the instance at its end. */
  lemma DeletionsBegin(m: Machine, now: int)
    requires m.state.Some?
    ensures var r, s := Step(m, EBeginDelete, now), m.state.value;
            && InPhase(r, Deleting) && r.state.value.epoch.None? && r.state.value.operation.None?
            && r.state.value.nextProbeAt.None?
            && r.state.value.leases == map[] && r.state.value.revision == s.revision + 1 && r.alarm.None?
            && !r.state.value.wakeAfterStop && WindowClosed(r.state.value)
    ensures Step(m, EMarkDeleted, now).state.None? && Step(m, EMarkDeleted, now).alarm.None?
  {
    hide AlarmCandidates;
  }

  /** A reload keeps what is stored, and sees to the alarm of an instance that needs
      one. */
  lemma ReloadsKeepTheState(m: Machine, now: int)
    ensures var r := Step(m, EReload, now);
            && r.state == m.state && r.wake.None? && r.probe.None? && r.stop.None? && r.turn.NoTurn? && r.tail.NoTail?
            && (if m.state.Some? && NeedsAlarm(m.state.value) then
                  r.alarm == (if m.alarm.Some? then m.alarm else Some(now))
                else r.alarm.None?)
  {}

  /** A new instance sleeps, and a known one is left as it is. */
  lemma InstancesBeginAsleep(m: Machine, idleTimeout: Option<nat>, now: int)
    ensures var r := Step(m, EInitialize(idleTimeout), now);
            if m.state.Some? then r == m
            else
              && r.state.Some? && r.alarm.None?
              && var s := r.state.value;
              && s.phase.Sleeping? && s.revision == 0 && s.epoch.None? && s.idleTimeout == idleTimeout
              && s.leases == map[] && s.operation.None? && !s.wakeAfterStop && WindowClosed(s)
              && s.lastSemanticWorkAt.None? && s.probeFailures == 0
  {
    hide AlarmCandidates;
  }

  // --- what the alarm and a reconciliation do --------------------------------------------

  ghost predicate IsAlive(s: State, id: LeaseId, now: int) {
    id in s.leases && s.epoch == Some(s.leases[id].epoch) && s.leases[id].expiresAt > now
  }

  ghost predicate SomeRunOut(s: State, now: int) {
    exists id :: id in s.leases && !IsAlive(s, id, now)
  }

  /** The leases that are alive stay, the others go, and that is as good as work. */
  ghost predicate LeavesTheLiving(s: State, now: int, r: State) {
    && (forall id :: id in r.leases <==> IsAlive(s, id, now))
    && (forall id | id in r.leases :: r.leases[id] == s.leases[id])
    && r.phase.RunningUnknown? && WindowClosed(r) && r.epoch == s.epoch && r.revision == s.revision + 1
    && r.lastSemanticWorkAt == Some(now) && r.nextProbeAt == Some(now)
  }

  lemma LeasesRunOut(s: State, now: int)
    requires IsAdmission(s.phase)
    ensures RemoveExpiredLeases(s, now).Some? <==> SomeRunOut(s, now)
    ensures SomeRunOut(s, now) ==> LeavesTheLiving(s, now, RemoveExpiredLeases(s, now).value)
  {
    var live := UnexpiredLeases(s, now);
    assert live.Keys <= s.leases.Keys;
    if SomeRunOut(s, now) {
      var id :| id in s.leases && !IsAlive(s, id, now);
      assert id !in live;
      if |live| == |s.leases| { SubsetOfEqualSize(live.Keys, s.leases.Keys); }
    } else {
      assert forall id | id in s.leases :: IsAlive(s, id, now);
      assert live == s.leases;
    }
  }

  /** A probe begins unless one is under way: with the request itself, for the revision
      and epoch of the moment, or by removing what has run out before the request. */
  lemma ReconciliationsProbe(m: Machine, clock: int, now: int)
    requires Inv(m, clock)
    ensures var r := Step(m, EReconcile, now);
            if !InAdmission(m) || m.probe.Some? then r == m
            else if SomeRunOut(m.state.value, now) then
              && r.state.Some? && LeavesTheLiving(m.state.value, now, r.state.value)
              && r == m.(state := r.state, alarm := r.alarm, probe := Some(ProbeStarting))
            else r == m.(probe := Some(ProbeSent(m.state.value.revision, m.state.value.epoch.value)))
  {
    hide NextAlarmAt, RemoveExpiredLeases, SomeRunOut, LeavesTheLiving;
    if InAdmission(m) { LeasesRunOut(m.state.value, now); }
  }

  /** A probe that removed leases first sends its request for what it finds then, or
      ends if admission has closed. */
  lemma ProbesAreSent(m: Machine, clock: int, now: int)
    requires Inv(m, clock) && m.probe == Some(ProbeStarting) && m.state.Some?
    ensures Step(m, ESendProbe, now) ==
            m.(probe := if InAdmission(m) then Some(ProbeSent(m.state.value.revision, m.state.value.epoch.value))
               else None)
  {
    hide NextAlarmAt;
  }

  /** The alarm of an instance that admits work removes what has run out and decides
      afterwards, by the instant it fired at; or else, if no idle stop is due, probes if
      a probe is due, and is set again if not. */
  lemma AlarmsLookAround(m: Machine, op: OperationId, epoch: Epoch, clock: int, now: int)
    requires Inv(m, clock) && InAdmission(m) && m.turn.NoTurn? && m.alarm.Some? && m.alarm.value <= now
    requires !(m.state.value.phase.RunningIdle? && m.state.value.idleDeadlineAt.value <= now)
    ensures var r, s := Step(m, EAlarm(op, epoch), now), m.state.value;
            if SomeRunOut(s, now) then
              && r.state.Some? && LeavesTheLiving(s, now, r.state.value)
              && r == m.(state := r.state, alarm := r.alarm, turn := Deciding(now))
            else if s.nextProbeAt.Some? && now < s.nextProbeAt.value then r == m.(alarm := NextAlarmAt(s, now))
            else
              r == m.(alarm := None, turn := AwaitingProbe,
                      probe := if m.probe.Some? then m.probe else Some(ProbeSent(s.revision, s.epoch.value)))
  {
    hide NextAlarmAt, RemoveExpiredLeases, SomeRunOut, LeavesTheLiving, ActiveLeases;
    LeasesRunOut(m.state.value, now);
  }

  /** The alarm of an instance that needs none does nothing. */
  lemma NeedlessAlarmsEnd(m: Machine, op: OperationId, epoch: Epoch, now: int)
    requires m.turn.NoTurn? && m.alarm.Some? && m.alarm.value <= now
    requires m.state.None? || m.state.value.phase.Sleeping? || m.state.value.phase.Deleting?
    ensures Step(m, EAlarm(op, epoch), now) == m.(alarm := None)
  {}

  /** A decision that was put off is taken by the instant the alarm fired at. */
  lemma DecisionsLookAround(m: Machine, op: OperationId, clock: int, now: int)
    requires Inv(m, clock) && m.turn.Deciding?
    requires m.state.Some? && m.state.value.phase.RunningIdle? ==>
               m.state.value.idleDeadlineAt.value > m.turn.firedAt
    ensures var r := Step(m, EAlarmDecides(op), now);
            if InAdmission(m) && (m.state.value.nextProbeAt.Some? ==> m.state.value.nextProbeAt.value <= m.turn.firedAt)
            then r == Step(m, EReconcile, now).(turn := AwaitingProbe)
            else
              && r.state == m.state && r.turn.NoTurn? && r.probe == m.probe
              && (r.alarm.Some? <==> m.state.Some? && NeedsAlarm(m.state.value))
  {
    hide NextAlarmAt, StartProbe, ActiveLeases, ComesFirst, ComesFor;
    if m.state.Some? { AlarmIsTheEarliest(m.state.value, now); }
  }

  /** After its probe the alarm handler begins a forced stop exactly if the container
      has not answered for an hour; else it is at rest. */
  lemma AlarmsEndWithTheirProbe(m: Machine, op: OperationId, now: int)
    requires m.turn.AwaitingProbe? && m.probe.None?
    ensures var r := Step(m, EAlarmAfterProbe(op), now);
            if && InPhase(m, ErrorRunning) && m.state.value.probeFailingSince.Some?
               && now - m.state.value.probeFailingSince.value >= 3_600_000
            then r == Step(m, EForceStop(op), now).(turn := AwaitingStop)
            else r == m.(turn := NoTurn)
  {
    hide NextAlarmAt;
  }
}
