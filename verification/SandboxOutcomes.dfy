/** What a lifecycle mutation does at each of its awaits, and what its answer tells
    about the gate and the container. */
module SandboxOutcomes {
  import opened Wrappers
  import opened LifecycleState
  import opened CoordinatorSteps
  import opened SandboxSteps
  import opened SandboxWorld
  import opened WorkspaceSafety

  /** A stop is resumed with this answer. */
  ghost predicate StopAdvances(w: World, a: Action) {
    w.job.Some? && !w.job.value.request.WakeRequest? && a.JobAdvances?
  }

  ghost predicate WakeAdvances(w: World, a: Action) {
    w.job.Some? && w.job.value.request.WakeRequest? && a.JobAdvances?
  }

  /** The answer the caller gets, if the mutation is over. */
  ghost function Told(w: World, a: Action): Option<Reply>
    requires w.job.Some? && a.JobAdvances?
  {
    var outcome := Advance(w.local, w.job.value, a.answer);
    if outcome.Return? then Some(outcome.reply) else None
  }

  /** The belief about the container as the host's answer leaves it. */
  ghost predicate StillBelieved(w: World, answer: Answer) {
    if answer.HostSays? then answer.running else w.local.believed
  }

  lemma AdvancingSettles(w: World, a: Action)
    requires Enabled(w, a) && a.JobAdvances?
    ensures var r, outcome := Next(w, a), Advance(w.local, w.job.value, a.answer);
            && r.local == outcome.local
            && r.job == (if outcome.Return? then None else Some(outcome.job))
            && (r.job.None? <==> Told(w, a).Some?)
            && r.container == (if AtPoint(w, StopTerminate) && a.answer == Terminated(true) then None else w.container)
  {
    MutationsSpare(w, a);
    hide Advance, Died;
  }

  // --- stops -------------------------------------------------------------------------

  /** The steps at which a stop puts the gate to sleep: the host denies the container
      at the start, it is believed gone when there is nothing left but to terminate it,
      the host confirms the termination, or it is gone after a failure. */
  ghost predicate FindsItGone(w: World, a: Action)
    requires StopAdvances(w, a)
  {
    || (AtPoint(w, StopRefresh) && !StillBelieved(w, a.answer))
    || (AtPoint(w, StopCheck) && !w.local.believed)
    || (AtPoint(w, StopTerminate) && a.answer == Terminated(true))
    || (AtPoint(w, StopCatch) && !StillBelieved(w, a.answer))
  }

  /** The caller hears that the container is stopped, or was not running, exactly when
      it has been found gone; then the gate sleeps and the container is believed gone,
      and after a confirmation it is. */
  lemma StopsEndAsleep(w: World, a: Action)
    requires Inv(w) && Enabled(w, a) && StopAdvances(w, a)
    ensures var r, told := Next(w, a), Told(w, a);
            && (told == Some(StopEnded(Stopped)) || told == Some(StopEnded(NotRunningOutcome)) <==> FindsItGone(w, a))
            && (FindsItGone(w, a) ==>
                  && (told == Some(StopEnded(NotRunningOutcome)) <==>
                        AtPoint(w, StopRefresh) && w.job.value.request.IdleStopRequest?)
                  && GateIs(r, GateSleeping) && r.local.gate.epoch.None? && r.local.gate.op.None? && !r.local.believed
                  && (AtPoint(w, StopTerminate) ==> r.container.None?)
                  && r.local.gate.revision ==
                     (if !AtPoint(w, StopRefresh) then w.job.value.revision
                      else match w.job.value.request
                      case IdleStopRequest(_, revision, _) => Max(revision, w.local.gate.revision)
                      case _ => w.local.gate.revision + 1))
  {
    hide Next, Enabled, Quiet, Saved, OwedKept, InOrder, CheckpointOwned, NonePassed;
    AdvancingSettles(w, a);
  }

  /** It hears that the termination is pending exactly when the host did not confirm
      it, with the gate still stopping; and that the stop has failed exactly when the
      container has survived a failure, with the gate open again for its epoch. */
  lemma StopsEndAwake(w: World, a: Action)
    requires Inv(w) && Enabled(w, a) && StopAdvances(w, a)
    ensures var r, told := Next(w, a), Told(w, a);
            && (told == Some(StopEnded(TerminationPending)) <==>
                  AtPoint(w, StopTerminate) && a.answer != Terminated(true))
            && (told == Some(StopEnded(TerminationPending)) ==> r.local == w.local && GateIs(r, GateStopping))
            && (told == Some(StopEnded(FailedRunning)) <==> AtPoint(w, StopCatch) && StillBelieved(w, a.answer))
            && (told == Some(StopEnded(FailedRunning)) ==>
                  r.local.gate == Gate(GateRunning, w.job.value.reopen, w.job.value.revision, None))
  {
    hide Next, Enabled, Quiet, Saved, OwedKept, InOrder, CheckpointOwned, NonePassed;
    AdvancingSettles(w, a);
  }

  /** A busy stop has seen something at work, and a refused one has changed nothing. */
  lemma StopRefusals(w: World, a: Action)
    requires Inv(w) && Enabled(w, a) && StopAdvances(w, a)
    ensures var r, job, told := Next(w, a), w.job.value, Told(w, a);
            && (forall x :: told == Some(StopEnded(Busy(x))) <==>
                  x.Some? && AtPoint(w, StopInspect) && a.answer == Inspected(x.value) && !SaysIdle(a.answer))
            && (told.Some? && told.value.StopEnded? && told.value.outcome.Busy? ==>
                  r.local.gate == Gate(GateRunning, job.reopen, job.revision, None))
            && (told == Some(Refused) <==>
                  && AtPoint(w, StopRefresh) && StillBelieved(w, a.answer)
                  && !IsRecovering(w.local.gate, job.request.op)
                  && (match job.request
                      case IdleStopRequest(epoch, _, _) => !IsRunningFor(w.local.gate, epoch)
                      case ForceStopRequest(epoch, _) =>
                        epoch.Some? && w.local.gate.epoch.Some? && epoch != w.local.gate.epoch
                      case _ => false))
            && (told == Some(Refused) ==> r.local.gate == w.local.gate)
  {
    hide Next, Enabled, Quiet, Saved, OwedKept, InOrder, CheckpointOwned, NonePassed;
    AdvancingSettles(w, a);
  }

  /** The gate a stop closes first: for the epoch it names at the revision it names, or,
      forced, for the epoch the gate had under the next revision. */
  ghost function QuiescingFor(gate: Gate, request: Request): Gate
    requires !request.WakeRequest?
  {
    match request
    case IdleStopRequest(epoch, revision, op) => Gate(GateQuiescing, Some(epoch), revision, Some(op))
    case ForceStopRequest(epoch, op) =>
      Gate(GateQuiescing, if gate.epoch.Some? then gate.epoch else epoch, gate.revision + 1, Some(op))
  }

  ghost function ClosedFor(job: Job, phase: GatePhase, epoch: Option<Epoch>): Gate
    requires !job.request.WakeRequest?
  {
    Gate(phase, epoch, job.revision, Some(job.request.op))
  }

  /** One step of a stop that goes on: where it goes on from, and with which gate. */
  lemma StopsGoOn(w: World, a: Action)
    requires Inv(w) && Enabled(w, a) && StopAdvances(w, a) && Next(w, a).job.Some?
    ensures var r, job, phase := Next(w, a), w.job.value, w.local.gate.phase;
            && r.job.value.request == job.request
            && (!job.point.StopRefresh? ==> r.job.value.revision == job.revision && r.job.value.reopen == job.reopen)
            && (match job.point
                case StopRefresh =>
                  && StillBelieved(w, a.answer)
                  && if IsRecovering(w.local.gate, job.request.op) then
                       && r.local.gate == w.local.gate
                       && AtPoint(r, if phase.GateQuiescing? then StopDrain
                                     else if phase.GateCheckpointing? then StopExport else StopCheck)
                       && (match job.request
                           case IdleStopRequest(epoch, revision, _) =>
                             && r.job.value.reopen == Some(epoch)
                             && r.job.value.revision == Max(revision, w.local.gate.revision)
                           case ForceStopRequest(epoch, _) =>
                             && r.job.value.revision == w.local.gate.revision
                             && r.job.value.reopen == (if w.local.gate.epoch.Some? then w.local.gate.epoch else epoch)
                           case _ => false)
                     else
                       && AtPoint(r, StopDrain)
                       && r.local.gate == QuiescingFor(w.local.gate, job.request)
                       && r.job.value.revision == r.local.gate.revision && r.job.value.reopen == r.local.gate.epoch
                case StopDrain =>
                  if job.request.IdleStopRequest? then AtPoint(r, StopInspect) && r.local == w.local
                  else
                    AtPoint(r, StopExport) && r.local == w.local.(gate := ClosedFor(job, GateCheckpointing, job.reopen))
                case StopInspect =>
                  if SaysIdle(a.answer) then
                    AtPoint(r, StopExport) && r.local == w.local.(gate := ClosedFor(job, GateCheckpointing, job.reopen))
                  else AtPoint(r, StopCatch) && r.local == w.local && !a.answer.Inspected?
                case StopExport => AtPoint(r, StopPersist) && r.local == w.local
                case StopPersist =>
                  if a.answer.Broke? then AtPoint(r, StopCatch) && r.local == w.local
                  else AtPoint(r, StopCheck) && r.local == w.local.(gate := ClosedFor(job, GateStopping, None))
                case StopCheck => AtPoint(r, StopTerminate) && w.local.believed && r.local == w.local
                case _ => false)
  {
    hide Next, Enabled, Quiet, Saved, OwedKept, InOrder, CheckpointOwned, NonePassed;
    AdvancingSettles(w, a);
  }

  // --- wakes ---------------------------------------------------------------------------

  /** A wake that only looks, looks at the gate that runs its epoch. */
  ghost predicate LooksAtItsOwn(w: World) {
    w.job.Some? && (AtPoint(w, WakeRefresh) || AtPoint(w, WakeAdopt) || AtPoint(w, WakeInspect)) ==>
      w.job.value.request.WakeRequest? && IsRunningFor(w.local.gate, w.job.value.request.wakeEpoch)
  }

  /** What the start of a mutation does: nothing once the instance is gone; a wake
      whose epoch runs looks at the host, any other boots under the next revision; a
      stop asks the host first. */
  lemma MutationsBegin(w: World, request: Request, active: bool)
    requires Enabled(w, JobBegins(request, active))
    ensures var r := Next(w, JobBegins(request, active));
            && (!active ==> r.job.None? && r.local == w.local)
            && (active ==>
                  && r.job.Some? && r.job.value.request == request && r.local.believed == w.local.believed
                  && (request.WakeRequest? ==> r.job.value.revision == r.local.gate.revision)
                  && match request
                     case WakeRequest(epoch) =>
                       if IsRunningFor(w.local.gate, epoch) then AtPoint(r, WakeRefresh) && r.local == w.local
                       else
                         && AtPoint(r, WakeBoot)
                         && r.local.gate == Gate(GateWaking, Some(epoch), w.local.gate.revision + 1, None)
                     case _ => AtPoint(r, StopRefresh) && r.local == w.local)
  {
    hide KindAgrees;
  }

  /** One step of a wake. It answers with what it saw exactly when it could look, with
      the gate running its epoch; and is refused with the gate asleep if a step of the
      boot failed, or untouched if it could not look at a container that was up. */
  lemma WakesAnswer(w: World, a: Action)
    requires Inv(w) && LooksAtItsOwn(w) && Enabled(w, a) && WakeAdvances(w, a)
    ensures var r, told, epoch := Next(w, a), Told(w, a), w.job.value.request.wakeEpoch;
            && (forall x :: told == Some(Woken(x)) <==>
                  (AtPoint(w, WakeAdopt) || AtPoint(w, WakeInspect)) && a.answer == Inspected(x))
            && (told.Some? && told.value.Woken? ==> r.local == w.local && IsRunningFor(r.local.gate, epoch))
            && (told == Some(Refused) <==>
                  || ((AtPoint(w, WakeAdopt) || AtPoint(w, WakeInspect)) && !a.answer.Inspected?)
                  || ((AtPoint(w, WakeBoot) || AtPoint(w, WakeRestore) || AtPoint(w, WakeServe)) && a.answer.Broke?))
            && (told == Some(Refused) ==>
                  if AtPoint(w, WakeAdopt) then r.local == w.local
                  else r.local.gate == Gate(GateSleeping, None, w.job.value.revision, None))
            && (told.Some? ==> told.value.Woken? || told.value.Refused?)
  {
    hide Next, Enabled, Quiet, Saved, OwedKept, InOrder, CheckpointOwned, NonePassed;
    AdvancingSettles(w, a);
  }

  lemma WakesGoOn(w: World, a: Action)
    requires Inv(w) && LooksAtItsOwn(w) && Enabled(w, a) && WakeAdvances(w, a) && Next(w, a).job.Some?
    ensures var r, job := Next(w, a), w.job.value;
            && r.job.value.request == job.request
            && (AtPoint(r, WakeBoot) ==> r.job.value.revision == r.local.gate.revision)
            && (!AtPoint(r, WakeBoot) ==> r.job.value.revision == job.revision)
            && (match job.point
                case WakeRefresh =>
                  && r.local.believed == StillBelieved(w, a.answer)
                  && if StillBelieved(w, a.answer) then AtPoint(r, WakeAdopt) && r.local.gate == w.local.gate
                     else
                       && AtPoint(r, WakeBoot)
                       && r.local.gate == Gate(GateWaking, Some(job.request.wakeEpoch), w.local.gate.revision + 1, None)
                case WakeBoot => AtPoint(r, WakeRestore) && r.local == w.local.(believed := true)
                case WakeRestore => AtPoint(r, WakeServe) && r.local == w.local
                case WakeServe =>
                  && AtPoint(r, WakeInspect)
                  && r.local == w.local.(gate := Gate(GateRunning, Some(job.request.wakeEpoch), job.revision, None))
                case _ => false)
  {
    hide Next, Enabled, Quiet, Saved, OwedKept, InOrder, CheckpointOwned, NonePassed;
    AdvancingSettles(w, a);
  }

  lemma ActionsLookOn(w: World, a: Action)
    requires Inv(w) && LooksAtItsOwn(w) && Enabled(w, a)
    ensures LooksAtItsOwn(Next(w, a))
  {
    hide Inv, Next, Enabled;
    if WakeAdvances(w, a) {
      AdvancingSettles(w, a);
      if Next(w, a).job.Some? { WakesGoOn(w, a); }
    } else if StopAdvances(w, a) {
      AdvancingSettles(w, a);
      if Next(w, a).job.Some? { StopsGoOn(w, a); }
    } else if a.JobBegins? {
      MutationsBegin(w, a.request, a.active);
    } else if a.Evicted? {
      EvictionsEndTheJob(w);
    } else {
      if a.JobAdvances? { JobsAreResumed(w, a); }
      OthersKeepTheJob(w, a);
    }
  }

  lemma JobsAreResumed(w: World, a: Action)
    requires Enabled(w, a) && a.JobAdvances?
    ensures w.job.Some?
  {}

  lemma EvictionsEndTheJob(w: World)
    ensures Next(w, Evicted).job.None? && Next(w, Evicted).local == w.local
  {}

  lemma {:induction false} WakesLookAtTheirOwnGate(run: Run, i: nat)
    requires IsRun(run) && i <= |run.actions|
    ensures LooksAtItsOwn(run.worlds[i])
  {
    if i > 0 {
      hide Inv, Next, Enabled, LooksAtItsOwn;
      WakesLookAtTheirOwnGate(run, i - 1);
      RunsKeepInv(run, i - 1);
      RunSteps(run, i - 1);
      ActionsLookOn(run.worlds[i - 1], run.actions[i - 1]);
    } else {
      NobodyLooksYet(run.worlds[0]);
    }
  }

  lemma NobodyLooksYet(w: World)
    requires IsStart(w)
    ensures LooksAtItsOwn(w)
  {}

  // --- over every run ------------------------------------------------------------------

  /** In every run: a stop puts a gate that is stopping to sleep exactly when the
      container is denied by the host, believed gone at its check, or confirmed
      terminated by that very step. It is believed gone then, and after the
      confirmation it is gone. */
  lemma StoppingSleepsExactlyWhen(run: Run, i: nat)
    requires IsRun(run) && i < |run.actions| && GateIs(run.worlds[i], GateStopping)
    ensures var w, r, a := run.worlds[i], run.worlds[i + 1], run.actions[i];
            && (GateIs(r, GateSleeping) <==>
                  && StopAdvances(w, a)
                  && (|| (AtPoint(w, StopRefresh) && !StillBelieved(w, a.answer))
                      || (AtPoint(w, StopCheck) && !w.local.believed)
                      || (AtPoint(w, StopTerminate) && a.answer == Terminated(true))))
            && (GateIs(r, GateSleeping) ==> !r.local.believed && r.job.None?)
            && (GateIs(r, GateSleeping) && AtPoint(w, StopTerminate) ==> r.container.None?)
  {
    hide Inv, Next, Enabled;
    RunsKeepInv(run, i);
    RunSteps(run, i);
    WakesLookAtTheirOwnGate(run, i);
    hide IsRun;
    var w, a := run.worlds[i], run.actions[i];
    if StopAdvances(w, a) {
      StoppingStops(w, a);
    } else if WakeAdvances(w, a) {
      NoWakeIsStopping(w, a);
    } else if a.JobBegins? {
      MutationsBegin(w, a.request, a.active);
    } else if a.Evicted? {
      EvictionsEndTheJob(w);
    } else {
      if a.JobAdvances? { JobsAreResumed(w, a); }
      OthersKeepTheJob(w, a);
    }
  }

  lemma StoppingStops(w: World, a: Action)
    requires Inv(w) && Enabled(w, a) && StopAdvances(w, a) && GateIs(w, GateStopping)
    ensures var r := Next(w, a);
            && (GateIs(r, GateSleeping) <==> FindsItGone(w, a)) && !AtPoint(w, StopCatch)
            && (FindsItGone(w, a) ==> !r.local.believed && r.job.None?)
            && (FindsItGone(w, a) && AtPoint(w, StopTerminate) ==> r.container.None?)
  {
    hide Next, Enabled, Quiet, Saved, OwedKept, InOrder, CheckpointOwned, NonePassed;
    AdvancingSettles(w, a);
    StopsEndAsleep(w, a);
    StopsEndAwake(w, a);
    StopRefusals(w, a);
    if Next(w, a).job.Some? { StopsGoOn(w, a); }
    hide Advance;
  }

  lemma NoWakeIsStopping(w: World, a: Action)
    requires Inv(w) && LooksAtItsOwn(w) && WakeAdvances(w, a)
    ensures !GateIs(w, GateStopping)
  {
    hide Quiet, Saved, OwedKept, InOrder, CheckpointOwned, NonePassed;
  }

  /** In every run: with the container believed up, a stop that has nothing left but to
      terminate it asks the host to, with the gate stopping all the while; it is not
      told that the container is stopped before the host has confirmed it. */
  lemma RunningContainersAreTerminated(run: Run, i: nat)
    requires IsRun(run) && i < |run.actions| && run.actions[i].JobAdvances?
    requires AtPoint(run.worlds[i], StopCheck) && run.worlds[i].local.believed
    ensures AtPoint(run.worlds[i + 1], StopTerminate) && run.worlds[i + 1].local == run.worlds[i].local
    ensures GateIs(run.worlds[i + 1], GateStopping)
  {
    hide Inv, Next, Enabled;
    RunsKeepInv(run, i);
    RunSteps(run, i);
    var w, a := run.worlds[i], run.actions[i];
    ChecksAreStops(w);
    StopsGoOnOrEnd(w, a);
  }

  lemma ChecksAreStops(w: World)
    requires Inv(w) && AtPoint(w, StopCheck)
    ensures !w.job.value.request.WakeRequest? && GateIs(w, GateStopping)
  {
    hide Quiet, Saved, OwedKept, InOrder, CheckpointOwned, NonePassed;
  }

  lemma StopsGoOnOrEnd(w: World, a: Action)
    requires Inv(w) && Enabled(w, a) && StopAdvances(w, a) && AtPoint(w, StopCheck) && w.local.believed
    ensures AtPoint(Next(w, a), StopTerminate) && Next(w, a).local == w.local
  {
    hide Next, Enabled, Quiet, Saved, OwedKept, InOrder, CheckpointOwned, NonePassed;
    AdvancingSettles(w, a);
  }

  /** In every run: a termination the host does not confirm leaves the gate stopping,
      and the stop says so; one it confirms takes the container and the gate down. */
  lemma TerminationsAreConfirmed(run: Run, i: nat)
    requires IsRun(run) && i < |run.actions| && run.actions[i].JobAdvances? && AtPoint(run.worlds[i], StopTerminate)
    ensures var w, r, a := run.worlds[i], run.worlds[i + 1], run.actions[i];
            if a.answer == Terminated(true) then
              && Told(w, a) == Some(StopEnded(Stopped))
              && GateIs(r, GateSleeping) && !r.local.believed && r.container.None?
            else
              && Told(w, a) == Some(StopEnded(TerminationPending))
              && r.local == w.local && GateIs(r, GateStopping) && r.container == w.container
  {
    hide Inv, Next, Enabled;
    RunsKeepInv(run, i);
    RunSteps(run, i);
    var w, a := run.worlds[i], run.actions[i];
    TerminationsAreStops(w);
    AdvancingSettles(w, a);
    StopsEndAsleep(w, a);
    StopsEndAwake(w, a);
    hide Advance, IsRun;
  }

  lemma TerminationsAreStops(w: World)
    requires Inv(w) && AtPoint(w, StopTerminate)
    ensures !w.job.value.request.WakeRequest?
  {
    hide Quiet, Saved, OwedKept, InOrder, CheckpointOwned, NonePassed;
  }
}
