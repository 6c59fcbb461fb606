/** What a stop owes: admission is closed before anything is persisted, nothing
    is terminated before it is persisted, and an idle stop loses no file. */
module WorkspaceSafety {
  import opened Wrappers
  import opened LifecycleState
  import opened CoordinatorSteps
  import opened SandboxSteps
  import opened SandboxWorld

  /** The gate phase a suspended stop has put the gate in. */
  predicate PhaseFits(gate: Gate, point: Point) {
    match point
    case StopDrain => gate.phase.GateQuiescing?
    case StopInspect => gate.phase.GateQuiescing?
    case StopExport => gate.phase.GateCheckpointing?
    case StopPersist => gate.phase.GateCheckpointing?
    case StopCheck => gate.phase.GateStopping?
    case StopTerminate => gate.phase.GateStopping?
    case StopCatch => gate.phase.GateQuiescing? || gate.phase.GateCheckpointing?
    case WakeBoot => gate.phase.GateWaking?
    case WakeRestore => gate.phase.GateWaking?
    case WakeServe => gate.phase.GateWaking?
    case _ => true
  }

  ghost predicate JobFits(gate: Gate, job: Job, kinds: map<OperationId, bool>) {
    && (job.request.WakeRequest? <==> IsWakePoint(job.point))
    && PhaseFits(gate, job.point)
    && (!job.request.WakeRequest? ==>
          && job.request.op in kinds && kinds[job.request.op] == job.request.IdleStopRequest?
          && (job.point.StopRefresh? || gate.op == Some(job.request.op))
          && (job.point.StopInspect? ==> job.request.IdleStopRequest?))
  }

  ghost predicate GateFits(gate: Gate, kinds: map<OperationId, bool>) {
    IsStopPhase(gate.phase) ==> gate.op.Some? && gate.op.value in kinds
  }

  predicate PastDrain(gate: Gate) {
    gate.phase.GateCheckpointing? || gate.phase.GateStopping?
  }

  ghost predicate NonePassed(w: World) {
    forall id | id in w.counted :: w.counted[id].None?
  }

  /** The drain was real: an operation that passed the gate is still counted, and
      none is left once the stop goes on. */
  ghost predicate Drained(w: World) {
    && (w.job.Some? ==> JobFits(w.local.gate, w.job.value, w.kinds))
    && GateFits(w.local.gate, w.kinds)
    && (AtPoint(w, StopDrain) && w.drained ==> NonePassed(w))
    && (AtPoint(w, StopInspect) ==> NonePassed(w))
    && (PastDrain(w.local.gate) ==> NonePassed(w))
  }

  /** A checkpoint belongs to an admitted operation or to the suspended stop, and
      a stop waits for no other than its own. */
  ghost predicate CheckpointOwned(w: World) {
    && (w.checkpoint.Some? ==>
          && w.snapshots
          && (if w.checkpoint.value.owner.Some? then Passed(w, w.checkpoint.value.owner.value)
              else AtPoint(w, StopPersist) && w.persisting.Waiting?))
    && (AtPoint(w, StopPersist) && w.persisting.Waiting? ==> w.checkpoint.Some? && w.checkpoint.value.owner.None?)
    && (w.persisting.Waiting? ==> AtPoint(w, StopPersist))
  }

  ghost predicate Quiet(w: World) {
    PastDrain(w.local.gate) && w.local.gate.op.Some? && IsIdleStop(w, w.local.gate.op.value) ==>
      w.container.Some? ==> !w.container.value.busy
  }

  predicate PastRestore(w: World) {
    w.checkpoint.Some? && (w.checkpoint.value.stage.Archiving? || w.checkpoint.value.stage.Recording?)
  }

  /** What an idle stop has archived is what the container holds. */
  ghost predicate Saved(w: World) {
    && (!w.snapshots && w.container.Some? ==> w.container.value.marked)
    && (AtPoint(w, StopPersist) && w.container.Some? && PastRestore(w) ==> w.container.value.marked)
    && (AtPoint(w, StopPersist) && w.job.value.request.IdleStopRequest? && w.container.Some? ==>
          && (w.checkpoint.Some? && w.checkpoint.value.stage.Recording? ==>
             w.container.value.files == w.checkpoint.value.stage.archived)
          && (w.persisting.Persisted? ==> w.container.value.marked && w.durable == Some(w.container.value.files)))
    && (IdleStopping(w) && w.container.Some? ==> w.container.value.marked && w.durable == Some(w.container.value.files))
  }

  ghost predicate OwedKept(w: World) {
    w.owed.Some? ==>
      && w.durable == w.owed
      && (w.container.Some? ==> w.snapshots && !w.container.value.marked)
      && !PastRestore(w)
  }

  ghost predicate InOrder(w: World) {
    && w.leftRunningAt < w.clock
    && (AtPoint(w, StopPersist) ==> w.leftRunningAt < w.exportedAt < w.clock)
    && (GateIs(w, GateStopping) ==> w.leftRunningAt < w.exportedAt < w.persistedAt < w.clock)
  }

  ghost predicate Inv(w: World) {
    Drained(w) && CheckpointOwned(w) && Quiet(w) && Saved(w) && OwedKept(w) && InOrder(w)
  }

  // --- the mutations -----------------------------------------------------------

  /** Everything a resumed mutation may do to the gate and to itself. */
  ghost predicate Progresses(local: Local, job: Job, answer: Answer, outcome: Outcome, kinds: map<OperationId, bool>) {
    var g, r := local.gate, outcome.local.gate;
    && GateFits(r, kinds)
    && (outcome.Continue? ==>
          && outcome.job.request == job.request && JobFits(r, outcome.job, kinds)
          && (outcome.job.point.StopDrain? ==> job.point.StopRefresh?)
          && (outcome.job.point.StopInspect? ==> job.point.StopDrain?)
          && (outcome.job.point.StopPersist? ==> job.point.StopExport?))
    && (PastDrain(r) ==>
          || (r.phase == g.phase && r.op == g.op)
          || (r.phase.GateCheckpointing? && !job.request.WakeRequest? && r.op == Some(job.request.op)
              && if job.request.IdleStopRequest? then job.point.StopInspect? && SaysIdle(answer)
                 else job.point.StopDrain?)
          || (r.phase.GateStopping? && job.point.StopPersist? && !answer.Broke? && r.op == g.op))
  }

  lemma WakeProgresses(local: Local, job: Job, answer: Answer, kinds: map<OperationId, bool>)
    requires JobFits(local.gate, job, kinds) && GateFits(local.gate, kinds) && job.request.WakeRequest?
    ensures Progresses(local, job, answer, AdvanceWake(local, job, job.request.wakeEpoch, answer), kinds)
  {}

  lemma StopStartProgresses(local: Local, job: Job, answer: Answer, kinds: map<OperationId, bool>)
    requires JobFits(local.gate, job, kinds) && GateFits(local.gate, kinds) && job.point.StopRefresh?
    ensures Progresses(local, job, answer, Advance(local, job, answer), kinds)
  {}

  lemma StopProgresses(local: Local, job: Job, answer: Answer, kinds: map<OperationId, bool>)
    requires JobFits(local.gate, job, kinds) && GateFits(local.gate, kinds)
    requires !job.request.WakeRequest? && !job.point.StopRefresh?
    ensures Progresses(local, job, answer, AdvanceStop(local, job, job.request.op, answer), kinds)
  {}

  lemma AdvanceProgresses(local: Local, job: Job, answer: Answer, kinds: map<OperationId, bool>)
    requires JobFits(local.gate, job, kinds) && GateFits(local.gate, kinds)
    ensures Progresses(local, job, answer, Advance(local, job, answer), kinds)
  {
    hide AdvanceWake, BeginIdle, BeginForce, AdvanceStop, JobFits, Progresses, GateFits;
    if job.request.WakeRequest? {
      WakeProgresses(local, job, answer, kinds);
    } else if job.point.StopRefresh? {
      StopStartProgresses(local, job, answer, kinds);
    } else {
      StopProgresses(local, job, answer, kinds);
    }
  }

  ghost function Advanced(w: World, answer: Answer, outcome: Outcome): World
    requires w.job.Some?
  {
    Observed(w, Settled(Reported(w, w.job.value, answer), outcome))
  }

  ghost predicate CanAdvance(w: World, answer: Answer, outcome: Outcome) {
    Inv(w) && Enabled(w, JobAdvances(answer)) && Progresses(w.local, w.job.value, answer, outcome, w.kinds)
  }

  lemma AdvancingKeepsDrained(w: World, answer: Answer, outcome: Outcome)
    requires CanAdvance(w, answer, outcome)
    ensures Drained(Advanced(w, answer, outcome))
  {
    hide Quiet, Saved, OwedKept, InOrder;
  }

  lemma AdvancingKeepsOwned(w: World, answer: Answer, outcome: Outcome)
    requires CanAdvance(w, answer, outcome)
    ensures CheckpointOwned(Advanced(w, answer, outcome))
  {
    hide Quiet, Saved, OwedKept, InOrder;
  }

  lemma AdvancingKeepsQuiet(w: World, answer: Answer, outcome: Outcome)
    requires CanAdvance(w, answer, outcome)
    ensures Quiet(Advanced(w, answer, outcome))
  {
    hide Saved, OwedKept, InOrder;
  }

  lemma AdvancingKeepsSaved(w: World, answer: Answer, outcome: Outcome)
    requires CanAdvance(w, answer, outcome)
    ensures Saved(Advanced(w, answer, outcome))
  {
    hide Quiet, OwedKept, InOrder;
  }

  lemma AdvancingKeepsOwed(w: World, answer: Answer, outcome: Outcome)
    requires CanAdvance(w, answer, outcome)
    ensures OwedKept(Advanced(w, answer, outcome))
  {
    hide Quiet, InOrder, Progresses;
  }

  lemma AdvancingKeepsOrder(w: World, answer: Answer, outcome: Outcome)
    requires CanAdvance(w, answer, outcome)
    ensures InOrder(Advanced(w, answer, outcome))
  {
    hide Quiet, Saved, OwedKept;
  }

  lemma AdvancingKeepsInv(w: World, answer: Answer)
    requires Inv(w) && Enabled(w, JobAdvances(answer))
    ensures Inv(Next(w, JobAdvances(answer)))
  {
    hide Advance, Drained, CheckpointOwned, Quiet, Saved, OwedKept, InOrder, Progresses;
    var outcome := Advance(w.local, w.job.value, answer);
    assert JobFits(w.local.gate, w.job.value, w.kinds) && GateFits(w.local.gate, w.kinds) by { DrainedFits(w); }
    AdvanceProgresses(w.local, w.job.value, answer, w.kinds);
    AdvancingKeepsDrained(w, answer, outcome);
    AdvancingKeepsOwned(w, answer, outcome);
    AdvancingKeepsQuiet(w, answer, outcome);
    AdvancingKeepsSaved(w, answer, outcome);
    AdvancingKeepsOwed(w, answer, outcome);
    AdvancingKeepsOrder(w, answer, outcome);
  }

  lemma DrainedFits(w: World)
    requires Drained(w) && w.job.Some?
    ensures JobFits(w.local.gate, w.job.value, w.kinds) && GateFits(w.local.gate, w.kinds)
  {}

  lemma BeginningKeepsInv(w: World, request: Request, active: bool)
    requires Inv(w) && Enabled(w, JobBegins(request, active))
    ensures Inv(Next(w, JobBegins(request, active)))
  {}

  // --- everything else -----------------------------------------------------------

  lemma CountingKeepsInv(w: World, a: Action)
    requires Inv(w) && Enabled(w, a)
    requires a.RequestCounts? || a.RequestPasses?
    ensures Inv(Next(w, a))
  {
    hide Quiet, Saved, OwedKept, InOrder;
    CountingSpares(w, a);
  }

  /** Counting an operation touches nothing but the counts. */
  lemma CountingSpares(w: World, a: Action)
    requires Quiet(w) && Saved(w) && OwedKept(w) && InOrder(w) && Enabled(w, a)
    requires a.RequestCounts? || a.RequestPasses? || a.RequestEnds?
    ensures Quiet(Next(w, a)) && Saved(Next(w, a)) && OwedKept(Next(w, a)) && InOrder(Next(w, a))
  {}

  lemma EndingKeepsInv(w: World, id: RequestId)
    requires Inv(w) && Enabled(w, RequestEnds(id))
    ensures Inv(Next(w, RequestEnds(id)))
  {
    hide Quiet, Saved, OwedKept, InOrder;
    CountingSpares(w, RequestEnds(id));
  }

  /** An operation past the gate works on the files of a container whose gate is
      not yet closed for good. */
  lemma ActingKeepsInv(w: World, id: RequestId, files: Workspace, busy: bool)
    requires Inv(w) && Enabled(w, RequestActs(id, files, busy))
    ensures Inv(Next(w, RequestActs(id, files, busy)))
  {
    assert !PastDrain(w.local.gate);
    assert !AtPoint(w, StopPersist);
    hide JobFits, GateFits, NonePassed;
  }

  lemma RequestsKeepInv(w: World, a: Action)
    requires Inv(w) && Enabled(w, a)
    requires a.RequestCounts? || a.RequestPasses? || a.RequestActs? || a.RequestEnds?
    ensures Inv(Next(w, a))
  {
    hide Inv, Next, Enabled;
    match a
    case RequestEnds(id) => EndingKeepsInv(w, id);
    case RequestActs(id, files, busy) => ActingKeepsInv(w, id, files, busy);
    case _ => CountingKeepsInv(w, a);
  }

  lemma CheckpointsKeepInv(w: World, a: Action)
    requires Inv(w) && Enabled(w, a)
    requires a.PersistCalls? || a.VolumeSyncs? || a.ManualCheckpoint? || a.CheckpointFails?
    ensures Inv(Next(w, a))
  {}

  lemma CheckpointFacts(w: World)
    requires Inv(w) && w.checkpoint.Some?
    ensures !GateIs(w, GateStopping)
    ensures AtPoint(w, StopPersist) ==> w.persisting.Waiting? && w.checkpoint.value.owner.None?
  {
    hide Quiet, Saved, OwedKept, InOrder;
  }

  lemma CheckpointEndKeepsInv(w: World)
    requires Inv(w) && Enabled(w, CheckpointProceeds) && w.checkpoint.value.stage.Recording?
    ensures Inv(Next(w, CheckpointProceeds))
  {
    CheckpointFacts(w);
    hide JobFits, GateFits, NonePassed;
  }

  /** Every other step of a checkpoint: its container is up, and restored once the
      checkpoint is past restoring. */
  lemma CheckpointStepKeepsFiles(w: World)
    requires Inv(w) && Enabled(w, CheckpointProceeds) && !w.checkpoint.value.stage.Recording?
    ensures Saved(Next(w, CheckpointProceeds)) && OwedKept(Next(w, CheckpointProceeds))
  {
    CheckpointFacts(w);
    hide Drained, CheckpointOwned, Quiet, InOrder;
  }

  lemma CheckpointStepKeepsRest(w: World, r: World)
    requires Drained(w) && CheckpointOwned(w) && Quiet(w) && InOrder(w) && w.checkpoint.Some?
    requires r == w.(checkpoint := r.checkpoint, local := r.local, container := r.container, clock := w.clock + 1)
    requires r.local.gate == w.local.gate && r.checkpoint.Some? && r.checkpoint.value.owner == w.checkpoint.value.owner
    requires r.container.Some? ==> w.container.Some? && r.container.value.busy == w.container.value.busy
    ensures Drained(r) && CheckpointOwned(r) && Quiet(r) && InOrder(r)
  {}

  lemma CheckpointStepKeepsInv(w: World)
    requires Inv(w) && Enabled(w, CheckpointProceeds) && !w.checkpoint.value.stage.Recording?
    ensures Inv(Next(w, CheckpointProceeds))
  {
    CheckpointStepKeepsFiles(w);
    hide Drained, CheckpointOwned, Quiet, InOrder, Saved, OwedKept;
    CheckpointStepKeepsRest(w, Next(w, CheckpointProceeds));
  }

  lemma CheckpointProgressKeepsInv(w: World)
    requires Inv(w) && Enabled(w, CheckpointProceeds)
    ensures Inv(Next(w, CheckpointProceeds))
  {
    hide Inv, Next;
    if w.checkpoint.value.stage.Recording? {
      CheckpointEndKeepsInv(w);
    } else {
      CheckpointStepKeepsInv(w);
    }
  }

  lemma ContainersKeepInv(w: World, a: Action)
    requires Inv(w) && Enabled(w, a)
    requires a.ContainerStarts? || a.ContainerDies?
    ensures Inv(Next(w, a))
  {
    if a.ContainerStarts? {
    } else {
      hide JobFits;
    }
  }

  lemma RestoresKeepInv(w: World, a: Action)
    requires Inv(w) && Enabled(w, a)
    requires a.RestoreFinishes? || a.RestoreBreaks?
    ensures Inv(Next(w, a))
  {
    hide JobFits;
  }

  lemma AgentsKeepInv(w: World, a: Action)
    requires Inv(w) && Enabled(w, a)
    requires a.ServerStarts? || a.AgentActs?
    ensures Inv(Next(w, a))
  {}

  lemma EvictionKeepsInv(w: World, a: Action)
    requires Inv(w) && Enabled(w, a)
    requires a.BeliefChanges? || a.Evicted?
    ensures Inv(Next(w, a))
  {}

  lemma ActionsKeepInv(w: World, a: Action)
    requires Inv(w) && Enabled(w, a)
    ensures Inv(Next(w, a))
  {
    hide Inv, Next, Enabled;
    match a
    case JobBegins(request, active) => BeginningKeepsInv(w, request, active);
    case JobAdvances(answer) => AdvancingKeepsInv(w, answer);
    case CheckpointProceeds => CheckpointProgressKeepsInv(w);
    case PersistCalls => CheckpointsKeepInv(w, a);
    case VolumeSyncs => CheckpointsKeepInv(w, a);
    case ManualCheckpoint(_) => CheckpointsKeepInv(w, a);
    case CheckpointFails(_) => CheckpointsKeepInv(w, a);
    case ContainerStarts => ContainersKeepInv(w, a);
    case ContainerDies => ContainersKeepInv(w, a);
    case RestoreFinishes => RestoresKeepInv(w, a);
    case RestoreBreaks(_) => RestoresKeepInv(w, a);
    case ServerStarts(_, _) => AgentsKeepInv(w, a);
    case AgentActs(_, _) => AgentsKeepInv(w, a);
    case BeliefChanges(_) => EvictionKeepsInv(w, a);
    case Evicted => EvictionKeepsInv(w, a);
    case _ => RequestsKeepInv(w, a);
  }

  lemma {:induction false} RunsKeepInv(run: Run, i: nat)
    requires IsRun(run) && i <= |run.actions|
    ensures Inv(run.worlds[i])
  {
    if i > 0 {
      hide Inv, Next, Enabled;
      RunsKeepInv(run, i - 1);
      ActionsKeepInv(run.worlds[i - 1], run.actions[i - 1]);
    }
  }

  lemma RunSteps(run: Run, k: nat)
    requires IsRun(run) && k < |run.actions|
    ensures |run.worlds| == |run.actions| + 1
    ensures Enabled(run.worlds[k], run.actions[k]) && run.worlds[k + 1] == Next(run.worlds[k], run.actions[k])
  {
    hide Enabled, Next;
    assert run.actions[k] == run.actions[k];
  }

  // --- what follows for every run ---------------------------------------------------

  /** Once a stop has closed the gate for good, no admitted operation is in
      flight, none can be admitted, and the only checkpoint in progress is the
      one the stop itself began. */
  lemma AdmissionIsClosed(run: Run, i: nat)
    requires IsRun(run) && i <= |run.actions| && PastDrain(run.worlds[i].local.gate)
    ensures NonePassed(run.worlds[i])
    ensures forall id, epoch :: !Enabled(run.worlds[i], RequestPasses(id, epoch))
    ensures run.worlds[i].checkpoint.Some? ==>
              run.worlds[i].checkpoint.value.owner.None? && AtPoint(run.worlds[i], StopPersist)
  {
    RunsKeepInv(run, i);
  }

  /** Past the gate at this epoch. */
  ghost predicate PassedAt(w: World, id: RequestId, epoch: Epoch) {
    id in w.counted && w.counted[id] == Some(epoch)
  }

  lemma PassingTakesTheGate(w: World, a: Action, id: RequestId, epoch: Epoch)
    requires Enabled(w, a) && PassedAt(Next(w, a), id, epoch) && !PassedAt(w, id, epoch)
    ensures a == RequestPasses(id, epoch) && IsRunningFor(w.local.gate, epoch)
  {
    if a.JobBegins? || a.JobAdvances? {
      MutationsSpare(w, a);
    } else {
      hide Begin, Advance, CanAnswer, KindAgrees, Settled, Reported, Noted;
    }
  }

  /** An operation past the gate passed it while it ran the operation's epoch, and
      has been counted for that epoch ever since. */
  lemma {:induction false} RequestsPassedARunningGate(run: Run, i: nat, id: RequestId, epoch: Epoch) returns (j: nat)
    requires IsRun(run) && i <= |run.actions| && PassedAt(run.worlds[i], id, epoch)
    ensures j < i && run.actions[j] == RequestPasses(id, epoch) && IsRunningFor(run.worlds[j].local.gate, epoch)
    ensures forall k | j < k <= i :: PassedAt(run.worlds[k], id, epoch)
  {
    if i == 0 {
      assert false;
    } else {
      RunSteps(run, i - 1);
      if PassedAt(run.worlds[i - 1], id, epoch) {
        j := RequestsPassedARunningGate(run, i - 1, id, epoch);
      } else {
        PassingTakesTheGate(run.worlds[i - 1], run.actions[i - 1], id, epoch);
        j := i - 1;
      }
      hide Next, Enabled, IsRun, PassedAt;
    }
  }

  /** When a stop asks for its checkpoint there is none in progress to join. */
  lemma StopsTakeTheirOwnCheckpoint(run: Run, i: nat)
    requires IsRun(run) && i < |run.actions| && run.actions[i].PersistCalls?
    ensures run.worlds[i].checkpoint.None?
    ensures run.worlds[i + 1].checkpoint == Some(Checkpoint(None, Ensuring))
  {
    RunsKeepInv(run, i);
    assert Enabled(run.worlds[i], run.actions[i]);
  }

  /** The host has been asked to terminate the container, whatever it answers and
      whether or not anybody is left to hear it, only while the gate is stopping,
      after an export was attempted and then a persist succeeded, both since the
      gate last left running. */
  lemma TerminationComesLast(run: Run, i: nat)
    requires IsRun(run) && i <= |run.actions| && AtPoint(run.worlds[i], StopTerminate)
    ensures GateIs(run.worlds[i], GateStopping)
    ensures run.worlds[i].leftRunningAt < run.worlds[i].exportedAt < run.worlds[i].persistedAt
  {
    RunsKeepInv(run, i);
  }

  lemma SettlingSpares(w: World, outcome: Outcome)
    ensures Settled(w, outcome).container == w.container && Settled(w, outcome).owed == w.owed
    ensures Settled(w, outcome).counted == w.counted
  {}

  lemma ReportsSpare(w: World, job: Job, answer: Answer)
    ensures var killed := job.point == StopTerminate && answer == Terminated(true);
            && Reported(w, job, answer).container == (if killed then None else w.container)
            && Reported(w, job, answer).owed == (if killed then Died(w).owed else w.owed)
            && Reported(w, job, answer).counted == w.counted
  {
    DyingSpares(w);
    hide Died;
  }

  lemma BeginningSpares(w: World, request: Request, active: bool)
    requires Enabled(w, JobBegins(request, active))
    ensures var r := Next(w, JobBegins(request, active));
            r.container == w.container && r.owed == w.owed && r.counted == w.counted
  {
    hide Settled, Begin, KindAgrees;
    SettlingSpares(Noted(w, request), Begin(w.local, request, active));
  }

  /** Of all a mutation does, only a termination the host confirms touches the
      container. */
  lemma MutationsSpare(w: World, a: Action)
    requires Enabled(w, a) && (a.JobBegins? || a.JobAdvances?)
    ensures var killed := AtPoint(w, StopTerminate) && a == JobAdvances(Terminated(true));
            && Next(w, a).container == (if killed then None else w.container)
            && Next(w, a).owed == (if killed then Died(w).owed else w.owed)
            && Next(w, a).counted == w.counted
  {
    if a.JobBegins? {
      BeginningSpares(w, a.request, a.active);
    } else {
      hide Settled, Advance, CanAnswer, Died, Reported;
      ReportsSpare(w, w.job.value, a.answer);
      SettlingSpares(Reported(w, w.job.value, a.answer), Advance(w.local, w.job.value, a.answer));
    }
  }

  lemma DyingSpares(w: World)
    ensures Died(w).container.None? && Died(w).counted == w.counted
  {}

  /** No other answer to a mutation takes the container away, and neither does
      the start of one. */
  lemma NothingElseTerminates(run: Run, i: nat)
    requires IsRun(run) && i < |run.actions|
    requires run.actions[i].JobBegins? || run.actions[i].JobAdvances?
    requires run.worlds[i].container.Some? && run.worlds[i + 1].container.None?
    ensures AtPoint(run.worlds[i], StopTerminate) && run.actions[i] == JobAdvances(Terminated(true))
  {
    hide Enabled, Next, IsRun;
    RunSteps(run, i);
    MutationsSpare(run.worlds[i], run.actions[i]);
  }

  // --- stops that come too late ---------------------------------------------------

  lemma OthersKeepTheJob(w: World, a: Action)
    requires Enabled(w, a) && !a.JobBegins? && !a.JobAdvances? && !a.Evicted?
    ensures Next(w, a).job == w.job && Next(w, a).local.gate == w.local.gate
  {
    hide IsIdleStop, IdleStopping, Begin, Advance, Settled, Reported, Noted, CanAnswer, KindAgrees, GateIs,
      IsRunningFor;
    if a.ContainerDies? {
      DyingKeepsTheJob(w);
      hide Died;
    } else if a.CheckpointProceeds? {
      ProceedingKeepsTheJob(w);
      hide Proceeded;
    }
  }

  lemma DyingKeepsTheJob(w: World)
    ensures Died(w).job == w.job && Died(w).local == w.local
  {}

  lemma ProceedingKeepsTheJob(w: World)
    requires Enabled(w, CheckpointProceeds)
    ensures var r := Proceeded(w, w.checkpoint.value); r.job == w.job && r.local.gate == w.local.gate
  {}

  /** A stop that names another epoch than the gate runs has begun. */
  ghost predicate StaleStopBegins(w: World, a: Action, running: Epoch) {
    && a.JobBegins? && a.active && IsRunningFor(w.local.gate, running)
    && StoppedEpoch(a.request).Some? && StoppedEpoch(a.request) != Some(running)
  }

  ghost predicate StaleStopWaits(w: World, gate: Gate, request: Request) {
    && w.local.gate == gate && w.job.Some? && w.job.value.request == request && w.job.value.point.StopRefresh?
  }

  lemma {:induction false} StaleStopsWaitForTheHost(run: Run, i: nat, j: nat, running: Epoch)
    requires IsRun(run) && i < j <= |run.actions| && StaleStopBegins(run.worlds[i], run.actions[i], running)
    requires forall k {:trigger run.actions[k]} | i < k < j :: !run.actions[k].JobAdvances? && !run.actions[k].Evicted?
    ensures StaleStopWaits(run.worlds[j], run.worlds[i].local.gate, run.actions[i].request)
  {
    RunSteps(run, j - 1);
    if i + 1 < j {
      StaleStopsWaitForTheHost(run, i, j - 1, running);
      var a := run.actions[j - 1];
      assert !a.JobBegins? && !a.JobAdvances? && !a.Evicted?;
      hide IsRun, Next, Enabled;
      OthersKeepTheJob(run.worlds[j - 1], a);
    } else {
      hide IsRun;
    }
  }

  lemma StaleStopsAreTurnedAway(local: Local, job: Job, answer: Answer, running: Epoch)
    requires IsRunningFor(local.gate, running) && job.point.StopRefresh?
    requires StoppedEpoch(job.request).Some? && StoppedEpoch(job.request) != Some(running)
    ensures var outcome := Advance(local, job, answer);
            && outcome.Return?
            && (outcome.local.gate == local.gate <==> Refreshed(local, answer).believed)
            && (!Refreshed(local, answer).believed ==> outcome.local.gate.phase.GateSleeping?)
  {
    hide AdvanceWake, AdvanceStop;
  }

  lemma StaleStopsEnd(w: World, answer: Answer, gate: Gate, request: Request, running: Epoch)
    requires StaleStopWaits(w, gate, request) && IsRunningFor(gate, running)
    requires StoppedEpoch(request).Some? && StoppedEpoch(request) != Some(running)
    requires Enabled(w, JobAdvances(answer))
    ensures var r := Next(w, JobAdvances(answer));
            && r.job.None? && r.container == w.container
            && (r.local.gate == gate <==> Refreshed(w.local, answer).believed)
            && (!Refreshed(w.local, answer).believed ==> GateIs(r, GateSleeping))
  {
    StaleStopsAreTurnedAway(w.local, w.job.value, answer, running);
    hide Advance, Refreshed, Died, IsRunningFor;
  }

  /** A stop that names another epoch than the one the gate runs ends as soon as the
      host has answered, and never touches the container, whatever happens
      meanwhile; the gate stays as it was exactly when the host does not deny the
      container. */
  lemma StaleStopsSpareTheContainer(run: Run, i: nat, j: nat, running: Epoch)
    requires IsRun(run) && i < j < |run.actions| && StaleStopBegins(run.worlds[i], run.actions[i], running)
    requires run.actions[j].JobAdvances?
    requires forall k {:trigger run.actions[k]} | i < k < j :: !run.actions[k].JobAdvances? && !run.actions[k].Evicted?
    ensures var before, after := run.worlds[j], run.worlds[j + 1];
            var told := Refreshed(before.local, run.actions[j].answer).believed;
            && run.worlds[i + 1].container == run.worlds[i].container
            && after.job.None? && after.container == before.container
            && (after.local.gate == run.worlds[i].local.gate <==> told)
            && (!told ==> GateIs(after, GateSleeping))
  {
    hide Next, Enabled;
    StaleStopsWaitForTheHost(run, i, j, running);
    RunSteps(run, i);
    RunSteps(run, j);
    hide IsRun, StaleStopWaits;
    MutationsSpare(run.worlds[i], run.actions[i]);
    StaleStopsEnd(run.worlds[j], run.actions[j].answer, run.worlds[i].local.gate, run.actions[i].request, running);
  }

  /** An idle stop archives only what is at rest: nothing admitted is in flight
      and nothing in the container is at work. */
  lemma IdleStopsPersistQuietly(run: Run, i: nat)
    requires IsRun(run) && i <= |run.actions|
    requires AtPoint(run.worlds[i], StopPersist) && run.worlds[i].job.value.request.IdleStopRequest?
    ensures NonePassed(run.worlds[i])
    ensures run.worlds[i].container.Some? ==> !run.worlds[i].container.value.busy
    ensures run.worlds[i].persisting.Persisted? && run.worlds[i].container.Some? ==>
              run.worlds[i].durable == Some(run.worlds[i].container.value.files)
  {
    RunsKeepInv(run, i);
  }

  // --- nothing is lost ----------------------------------------------------------------

  lemma OwedUntilRestored(w: World, a: Action)
    requires Inv(w) && Enabled(w, a) && w.owed.Some?
    ensures !CompletesRestore(w, a) ==> Next(w, a).owed == w.owed
    ensures CompletesRestore(w, a) ==> Next(w, a).container.Some? && Next(w, a).container.value.files == w.owed.value
  {
    hide Drained, CheckpointOwned, Quiet, Saved, InOrder;
    if a.JobBegins? || a.JobAdvances? {
      hide Enabled, Next;
      MutationsSpare(w, a);
    } else {
      hide Begin, Advance, Settled;
    }
  }

  lemma {:induction false} OwedStays(run: Run, i: nat, j: nat)
    requires IsRun(run) && i <= j <= |run.actions| && run.worlds[i].owed.Some?
    requires forall k {:trigger run.actions[k]} | i <= k < j :: !CompletesRestore(run.worlds[k], run.actions[k])
    ensures run.worlds[j].owed == run.worlds[i].owed
  {
    if i < j {
      hide Inv, Next, Enabled, CompletesRestore, IsRun;
      OwedStays(run, i, j - 1);
      RunsKeepInv(run, j - 1);
      RunSteps(run, j - 1);
      OwedUntilRestored(run.worlds[j - 1], run.actions[j - 1]);
    }
  }

  /** Whenever and however a container goes down in the last phase of an idle
      stop, the next workspace put in front of a container is the one that went
      down, on hosts with snapshots and on hosts with volumes. */
  lemma IdleStopsLoseNothing(run: Run, i: nat, j: nat)
    requires IsRun(run) && i < j < |run.actions|
    requires IdleStopping(run.worlds[i]) && run.worlds[i].container.Some? && run.worlds[i + 1].container.None?
    requires CompletesRestore(run.worlds[j], run.actions[j])
    requires forall k {:trigger run.actions[k]} | i < k < j :: !CompletesRestore(run.worlds[k], run.actions[k])
    ensures run.worlds[j + 1].container.Some?
    ensures run.worlds[j + 1].container.value.files == run.worlds[i].container.value.files
  {
    hide Inv, Next, Enabled, CompletesRestore, IsRun, IdleStopping;
    RunSteps(run, i);
    RunsKeepInv(run, i);
    GoingDownIsOwed(run.worlds[i], run.actions[i]);
    OwedStays(run, i + 1, j);
    RunsKeepInv(run, j);
    RunSteps(run, j);
    OwedUntilRestored(run.worlds[j], run.actions[j]);
  }

  lemma GoingDownIsOwed(w: World, a: Action)
    requires Inv(w) && Enabled(w, a)
    requires IdleStopping(w) && w.container.Some? && Next(w, a).container.None?
    ensures Next(w, a).owed == Some(w.container.value.files)
  {
    hide Drained, CheckpointOwned, Quiet, InOrder, OwedKept;
    if a.JobBegins? || a.JobAdvances? {
      MutationsSpare(w, a);
      hide Next, Enabled;
    } else {
      hide Begin, Advance, Settled;
    }
  }

  /** A wake goes on to serve only in front of a restored workspace; and when it
      does, no files of an idle stop are owed any more. */
  lemma WakesServeRestoredFiles(run: Run, i: nat)
    requires IsRun(run) && i < |run.actions| && AtPoint(run.worlds[i], WakeRestore)
    requires run.actions[i] == JobAdvances(Done)
    ensures run.worlds[i].container.Some? && run.worlds[i].container.value.marked && run.worlds[i].owed.None?
  {
    RunsKeepInv(run, i);
    assert Enabled(run.worlds[i], run.actions[i]);
  }
}
