/** One Sandbox, its container and its backups. Lifecycle mutations run one at a
    time; counted operations, manual checkpoints, the agent inside the container
    and the host run beside them. Anything may fail, the container may die and
    the object may be evicted at any time. */
module SandboxWorld {
  import opened Wrappers
  import opened LifecycleState
  import opened CoordinatorSteps
  import opened SandboxSteps

  type Workspace = int
  type RequestId = nat

  const EMPTY: Workspace := 0

  /** A running container: its files, whether the marker says they were restored,
      and whether anything in it is at work. */
  datatype Container = Container(files: Workspace, marked: bool, busy: bool)

  /** The checkpoint in progress. There is at most one; later callers join it. */
  datatype Stage = Ensuring | Restoring | Archiving | Recording(archived: Workspace)
  datatype Checkpoint = Checkpoint(owner: Option<RequestId>, stage: Stage)

  /** How far the persist of the suspended stop has got. */
  datatype Persisting = NotCalled | Waiting | Persisted | PersistFailed

  /** `counted` holds the operations the drain waits for; those past the gate
      carry the epoch they were admitted at. `durable` is what outlives the
      container: the latest backup, or the synced volume. `kinds` says of each
      stop operation whether it is an idle stop. The last four fields only
      observe: when the gate last stopped running, when an export was last
      attempted and a persist last succeeded, and the files a stop owes to the
      next restore. */
  datatype World = World(
    snapshots: bool,
    local: Local,
    job: Option<Job>,
    counted: map<RequestId, Option<Epoch>>,
    drained: bool,
    checkpoint: Option<Checkpoint>,
    persisting: Persisting,
    container: Option<Container>,
    durable: Option<Workspace>,
    kinds: map<OperationId, bool>,
    clock: nat,
    leftRunningAt: nat,
    exportedAt: nat,
    persistedAt: nat,
    owed: Option<Workspace>)

  datatype Action =
    | JobBegins(request: Request, active: bool)
    | JobAdvances(answer: Answer)
    | PersistCalls
    | VolumeSyncs
    | RequestCounts(id: RequestId)
    | RequestPasses(id: RequestId, epoch: Epoch)
    | RequestActs(id: RequestId, files: Workspace, busy: bool)
    | RequestEnds(id: RequestId)
    | ManualCheckpoint(id: RequestId)
    | CheckpointProceeds
    | CheckpointFails(recorded: bool)
    | ContainerStarts
    | RestoreFinishes
    | RestoreBreaks(files: Workspace)
    | ServerStarts(files: Workspace, busy: bool)
    | AgentActs(files: Workspace, busy: bool)
    | ContainerDies
    | BeliefChanges(believed: bool)
    | Evicted

  ghost predicate IsStart(w: World) {
    w == World(w.snapshots, NeverWritten, None, map[], false, None, NotCalled, None, None, map[], 1, 0, 0, 0, None)
  }

  predicate AtPoint(w: World, point: Point) {
    w.job.Some? && w.job.value.point == point
  }

  predicate Passed(w: World, id: RequestId) {
    id in w.counted && w.counted[id].Some?
  }

  predicate StageIs(w: World, stage: Stage) {
    w.checkpoint.Some? && w.checkpoint.value.stage == stage
  }

  predicate GateIs(w: World, phase: GatePhase) {
    w.local.gate.phase == phase
  }

  predicate IsIdleStop(w: World, op: OperationId) {
    op in w.kinds && w.kinds[op]
  }

  /** The gate is past the persist of an idle stop. */
  predicate IdleStopping(w: World) {
    GateIs(w, GateStopping) && w.local.gate.op.Some? && IsIdleStop(w, w.local.gate.op.value)
  }

  // --- which actions can happen ----------------------------------------------

  /** An operation identifier belongs to one kind of stop. */
  predicate KindAgrees(w: World, request: Request) {
    match request
    case WakeRequest(_) => true
    case IdleStopRequest(_, _, op) => op in w.kinds ==> w.kinds[op]
    case ForceStopRequest(_, op) => op in w.kinds ==> !w.kinds[op]
  }

  predicate CanAnswer(w: World, job: Job, answer: Answer) {
    match job.point
    case StopDrain => answer.Done? && w.drained
    case StopInspect => SaysIdle(answer) ==> w.container.Some? && !w.container.value.busy
    case StopPersist => if w.persisting.Persisted? then answer.Done?
                        else answer.Broke? && !w.persisting.Waiting?
    case WakeBoot => answer.Broke? || w.container.Some?
    case WakeRestore => answer.Broke? || (w.container.Some? && w.container.value.marked)
    case _ => true
  }

  /** An answer that every source of activity is idle. */
  predicate SaysIdle(answer: Answer) {
    answer.Inspected? && answer.snapshot.execution.Running? && !answer.snapshot.active
  }

  ghost predicate Enabled(w: World, a: Action) {
    match a
    case JobBegins(request, _) => w.job.None? && KindAgrees(w, request)
    case JobAdvances(answer) => w.job.Some? && CanAnswer(w, w.job.value, answer)
    case PersistCalls => AtPoint(w, StopPersist) && w.persisting.NotCalled? && w.snapshots
    case VolumeSyncs => AtPoint(w, StopPersist) && w.persisting.NotCalled? && !w.snapshots && w.container.Some?
    case RequestCounts(id) => id !in w.counted
    case RequestPasses(id, epoch) => id in w.counted && w.counted[id].None? && IsRunningFor(w.local.gate, epoch)
    case RequestActs(id, _, _) => Passed(w, id) && w.container.Some?
    case RequestEnds(id) => id in w.counted && (w.checkpoint.Some? ==> w.checkpoint.value.owner != Some(id))
    case ManualCheckpoint(id) => Passed(w, id) && w.snapshots && w.checkpoint.None?
    case CheckpointProceeds =>
      w.checkpoint.Some? &&
      (match w.checkpoint.value.stage
       case Restoring => w.container.Some? && w.container.value.marked
       case Recording(_) => true
       case _ => w.container.Some?)
    case CheckpointFails(recorded) => w.checkpoint.Some? && (recorded ==> w.checkpoint.value.stage.Recording?)
    case ContainerStarts => w.container.None? && (AtPoint(w, WakeBoot) || StageIs(w, Ensuring))
    case RestoreFinishes => CanRestore(w)
    case RestoreBreaks(_) => CanRestore(w)
    case ServerStarts(_, _) => AtPoint(w, WakeServe) && w.container.Some?
    case AgentActs(_, _) => w.container.Some? && w.container.value.busy
    case ContainerDies => w.container.Some?
    case BeliefChanges(_) => true
    case Evicted => true
  }

  predicate CanRestore(w: World) {
    && w.snapshots && w.container.Some? && !w.container.value.marked
    && (AtPoint(w, WakeRestore) || StageIs(w, Restoring))
  }

  // --- what they do --------------------------------------------------------------

  ghost function Next(w: World, a: Action): World
    requires Enabled(w, a)
  {
    Observed(w, Effect(w, a))
  }

  /** The gate has stopped running if it was and no longer is. */
  ghost function Observed(w: World, r: World): World {
    r.(clock := w.clock + 1,
       leftRunningAt := if GateIs(w, GateRunning) && !GateIs(r, GateRunning) then w.clock else w.leftRunningAt)
  }

  ghost function Effect(w: World, a: Action): World
    requires Enabled(w, a)
  {
    match a
    case JobBegins(request, active) => Settled(Noted(w, request), Begin(w.local, request, active))
    case JobAdvances(answer) => Settled(Reported(w, w.job.value, answer), Advance(w.local, w.job.value, answer))
    case PersistCalls =>
      w.(persisting := Waiting,
         checkpoint := if w.checkpoint.Some? then w.checkpoint else Some(Checkpoint(None, Ensuring)))
    case VolumeSyncs => w.(persisting := Persisted, durable := Some(w.container.value.files))
    case RequestCounts(id) => w.(counted := w.counted[id := None])
    case RequestPasses(id, epoch) => w.(counted := w.counted[id := Some(epoch)])
    case RequestActs(_, files, busy) => Works(w, files, busy)
    case RequestEnds(id) => w.(counted := w.counted - {id}, drained := w.drained || w.counted - {id} == map[])
    case ManualCheckpoint(id) => w.(checkpoint := Some(Checkpoint(Some(id), Ensuring)))
    case CheckpointProceeds => Proceeded(w, w.checkpoint.value)
    case CheckpointFails(recorded) =>
      w.(checkpoint := None,
         durable := if recorded then Some(w.checkpoint.value.stage.archived) else w.durable,
         persisting := if w.persisting.Waiting? then PersistFailed else w.persisting)
    case ContainerStarts => Started(w)
    case RestoreFinishes =>
      w.(container := Some(w.container.value.(files := w.durable.GetOr(w.container.value.files), marked := true)),
        owed := None)
    case RestoreBreaks(files) => w.(container := Some(w.container.value.(files := files)))
    case ServerStarts(files, busy) => Works(w, files, busy)
    case AgentActs(files, busy) => Works(w, files, busy)
    case ContainerDies => Died(w)
    case BeliefChanges(believed) => w.(local := w.local.(believed := believed))
    case Evicted => w.(job := None, counted := map[], drained := false, checkpoint := None, persisting := NotCalled)
  }

  ghost function Noted(w: World, request: Request): World {
    match request
    case WakeRequest(_) => w
    case IdleStopRequest(_, _, op) => w.(kinds := w.kinds[op := true])
    case ForceStopRequest(_, op) => w.(kinds := w.kinds[op := false])
  }

  /** What an answer says about the world: a container the host reports as
      stopped is gone. */
  ghost function Reported(w: World, job: Job, answer: Answer): World {
    match job.point
    case StopExport => w.(exportedAt := w.clock)
    case StopPersist => if answer.Done? then w.(persistedAt := w.clock) else w
    case StopTerminate => if answer == Terminated(true) then Died(w) else w
    case _ => w
  }

  ghost function Settled(w: World, outcome: Outcome): World {
    match outcome
    case Continue(local, job) =>
      w.(local := local, job := Some(job),
         drained := if job.point.StopDrain? then w.counted == map[] else w.drained,
         persisting := if job.point.StopPersist? then NotCalled else w.persisting)
    case Return(local, _) => w.(local := local, job := None)
  }

  ghost function Works(w: World, files: Workspace, busy: bool): World
    requires w.container.Some?
  {
    w.(container := Some(w.container.value.(files := files, busy := busy)))
  }

  ghost function Proceeded(w: World, c: Checkpoint): World
    requires w.checkpoint == Some(c) && Enabled(w, CheckpointProceeds)
  {
    match c.stage
    case Ensuring => w.(checkpoint := Some(c.(stage := Restoring)), local := w.local.(believed := true))
    case Restoring => w.(checkpoint := Some(c.(stage := Archiving)))
    case Archiving =>
      w.(checkpoint := Some(c.(stage := Recording(w.container.value.files))),
         container := Some(w.container.value.(marked := true)))
    case Recording(archived) =>
      w.(checkpoint := None, durable := Some(archived),
         persisting := if w.persisting.Waiting? then Persisted else w.persisting)
  }

  /** A container with snapshots starts empty; a volume brings its files along. */
  ghost function Started(w: World): World {
    if w.snapshots then w.(container := Some(Container(EMPTY, false, false)))
    else
      var files := w.durable.GetOr(EMPTY);
      w.(container := Some(Container(files, true, false)), durable := Some(files), owed := None)
  }

  /** Restored files that go down with an idle stop are owed to the next restore. */
  ghost function Died(w: World): World {
    if w.container.None? then w
    else
      w.(container := None,
         owed := if !w.container.value.marked then w.owed
                 else if IdleStopping(w) then Some(w.container.value.files) else None)
  }

  // --- runs -------------------------------------------------------------------------

  datatype Run = Run(actions: seq<Action>, worlds: seq<World>)

  ghost predicate IsRun(run: Run) {
    && |run.worlds| == |run.actions| + 1
    && IsStart(run.worlds[0])
    && (forall k {:trigger run.actions[k]} | 0 <= k < |run.actions| ::
          Enabled(run.worlds[k], run.actions[k]) && run.worlds[k + 1] == Next(run.worlds[k], run.actions[k]))
  }

  /** The action that puts a restored workspace in front of a container. */
  predicate CompletesRestore(w: World, a: Action) {
    a.RestoreFinishes? || (a.ContainerStarts? && !w.snapshots)
  }
}
