/** The Sandbox's side of the protocol: the persisted runtime gate, and the three
    lifecycle mutations cut at their awaits. `Begin` is the part before the first
    await; `Advance` resumes a mutation with the answer it was waiting for. */
module SandboxSteps {
  import opened Wrappers
  import opened LifecycleState
  import opened CoordinatorSteps

  datatype GatePhase =
    | GateWaking | GateRunning | GateQuiescing | GateCheckpointing | GateStopping | GateSleeping

  /** A gate that was never written behaves like a sleeping one of revision 0. */
  datatype Gate = Gate(phase: GatePhase, epoch: Option<Epoch>, revision: nat, op: Option<OperationId>)

  /** The gate, and what the object believes about its container. Both are stored. */
  datatype Local = Local(gate: Gate, believed: bool)

  const NeverWritten := Local(Gate(GateSleeping, None, 0, None), false)

  datatype Request =
    | WakeRequest(wakeEpoch: Epoch)
    | IdleStopRequest(idleEpoch: Epoch, revision: nat, op: OperationId)
    | ForceStopRequest(forceEpoch: Option<Epoch>, op: OperationId)

  /** The await a mutation is suspended at. */
  datatype Point =
    | WakeRefresh | WakeAdopt | WakeBoot | WakeRestore | WakeServe | WakeInspect
    | StopRefresh | StopDrain | StopInspect | StopExport | StopPersist | StopCheck | StopTerminate | StopCatch

  /** `reopen` is the epoch a failing stop reopens the gate for. */
  datatype Job = Job(request: Request, point: Point, revision: nat, reopen: Option<Epoch>)

  datatype Answer =
    | HostSays(running: bool)
    | HostUnreachable
    | Done
    | Broke
    | Inspected(snapshot: Snapshot)
    | Terminated(stopped: bool)

  datatype Reply =
    | Woken(woken: Snapshot)
    | StopEnded(outcome: StopOutcome)
    | Refused

  datatype Outcome = Continue(local: Local, job: Job) | Return(local: Local, reply: Reply)

  predicate IsStopPhase(phase: GatePhase) {
    phase.GateQuiescing? || phase.GateCheckpointing? || phase.GateStopping?
  }

  /** The epoch a stop is about. */
  function StoppedEpoch(request: Request): Option<Epoch> {
    match request
    case WakeRequest(_) => None
    case IdleStopRequest(epoch, _, _) => Some(epoch)
    case ForceStopRequest(epoch, _) => epoch
  }

  predicate IsWakePoint(point: Point) {
    || point.WakeRefresh? || point.WakeAdopt? || point.WakeBoot? || point.WakeRestore? || point.WakeServe?
    || point.WakeInspect?
  }

  predicate IsRunningFor(gate: Gate, epoch: Epoch) {
    gate.phase.GateRunning? && gate.epoch == Some(epoch)
  }

  /** An unreachable host is no evidence, so the belief stands. */
  function Refreshed(local: Local, answer: Answer): Local {
    if answer.HostSays? then local.(believed := answer.running) else local
  }

  function SetGate(local: Local, phase: GatePhase, epoch: Option<Epoch>, revision: nat, op: Option<OperationId>)
    : Local
  {
    local.(gate := Gate(phase, epoch, revision, op))
  }

  predicate IsRecovering(gate: Gate, op: OperationId) {
    gate.op == Some(op) && IsStopPhase(gate.phase)
  }

  function Begin(local: Local, request: Request, active: bool): Outcome {
    if !active then Return(local, Refused)
    else
      match request
      case WakeRequest(epoch) =>
        if IsRunningFor(local.gate, epoch) then
          Continue(local, Job(request, WakeRefresh, local.gate.revision, None))
        else BeginBoot(local, request, epoch)
      case _ => Continue(local, Job(request, StopRefresh, 0, None))
  }

  function BeginBoot(local: Local, request: Request, epoch: Epoch): Outcome {
    var revision := local.gate.revision + 1;
    Continue(SetGate(local, GateWaking, Some(epoch), revision, None), Job(request, WakeBoot, revision, None))
  }

  function Advance(local: Local, job: Job, answer: Answer): Outcome {
    match job.request
    case WakeRequest(epoch) => AdvanceWake(local, job, epoch, answer)
    case IdleStopRequest(epoch, revision, op) =>
      if job.point.StopRefresh? then BeginIdle(Refreshed(local, answer), job, epoch, revision, op)
      else AdvanceStop(local, job, op, answer)
    case ForceStopRequest(epoch, op) =>
      if job.point.StopRefresh? then BeginForce(Refreshed(local, answer), job, epoch, op)
      else AdvanceStop(local, job, op, answer)
  }

  function AdvanceWake(local: Local, job: Job, epoch: Epoch, answer: Answer): Outcome {
    var failed := Return(SetGate(local, GateSleeping, None, job.revision, None), Refused);
    match job.point
    case WakeRefresh =>
      var seen := Refreshed(local, answer);
      if seen.believed then Continue(seen, job.(point := WakeAdopt)) else BeginBoot(seen, job.request, epoch)
    case WakeAdopt =>
      Return(local, if answer.Inspected? then Woken(answer.snapshot) else Refused)
    case WakeBoot =>
      if answer.Broke? then failed else Continue(local.(believed := true), job.(point := WakeRestore))
    case WakeRestore =>
      if answer.Broke? then failed else Continue(local, job.(point := WakeServe))
    case WakeServe =>
      if answer.Broke? then failed
      else Continue(SetGate(local, GateRunning, Some(epoch), job.revision, None), job.(point := WakeInspect))
    case _ =>
      if answer.Inspected? then Return(local, Woken(answer.snapshot)) else failed
  }

  /** The stop after the host's own answer: `local` holds the refreshed belief. */
  function BeginIdle(local: Local, job: Job, epoch: Epoch, revision: nat, op: OperationId): Outcome {
    if !local.believed then
      var seen := if revision <= local.gate.revision then local.gate.revision else revision;
      Return(SetGate(local, GateSleeping, None, seen, None), StopEnded(NotRunningOutcome))
    else if IsRecovering(local.gate, op) then
      var seen := if revision <= local.gate.revision then local.gate.revision else revision;
      Continue(local, Resume(local.gate, job, seen, Some(epoch)))
    else if IsRunningFor(local.gate, epoch) then
      var quiescing := SetGate(local, GateQuiescing, Some(epoch), revision, Some(op));
      Continue(quiescing, Resume(quiescing.gate, job, revision, Some(epoch)))
    else Return(local, Refused)
  }

  function BeginForce(local: Local, job: Job, epoch: Option<Epoch>, op: OperationId): Outcome {
    var previous := if local.gate.epoch.Some? then local.gate.epoch else epoch;
    if !local.believed then
      Return(SetGate(local, GateSleeping, None, local.gate.revision + 1, None), StopEnded(Stopped))
    else if IsRecovering(local.gate, op) then
      Continue(local, Resume(local.gate, job, local.gate.revision, previous))
    else if epoch.Some? && local.gate.epoch.Some? && epoch != local.gate.epoch then
      Return(local, Refused)
    else
      var quiescing := SetGate(local, GateQuiescing, previous, local.gate.revision + 1, Some(op));
      Continue(quiescing, Resume(quiescing.gate, job, local.gate.revision + 1, previous))
  }

  /** A stop goes on from wherever the gate says it got to. */
  function Resume(gate: Gate, job: Job, revision: nat, reopen: Option<Epoch>): Job {
    var point := if gate.phase.GateQuiescing? then StopDrain
                 else if gate.phase.GateCheckpointing? then StopExport
                 else StopCheck;
    job.(point := point, revision := revision, reopen := reopen)
  }

  function AdvanceStop(local: Local, job: Job, op: OperationId, answer: Answer): Outcome {
    var stopped := Return(SetGate(local, GateSleeping, None, job.revision, None), StopEnded(Stopped));
    var checkpointing := Continue(SetGate(local, GateCheckpointing, job.reopen, job.revision, Some(op)),
      job.(point := StopExport));
    match job.point
    case StopDrain =>
      if job.request.IdleStopRequest? then Continue(local, job.(point := StopInspect)) else checkpointing
    case StopInspect =>
      if !answer.Inspected? then Continue(local, job.(point := StopCatch))
      else if !answer.snapshot.execution.Running? || answer.snapshot.active then
        Return(SetGate(local, GateRunning, job.reopen, job.revision, None), StopEnded(Busy(Some(answer.snapshot))))
      else checkpointing
    case StopExport =>
      Continue(local, job.(point := StopPersist))
    case StopPersist =>
      if answer.Broke? then Continue(local, job.(point := StopCatch))
      else Continue(SetGate(local, GateStopping, None, job.revision, Some(op)), job.(point := StopCheck))
    case StopCheck =>
      if local.believed then Continue(local, job.(point := StopTerminate)) else stopped
    case StopTerminate =>
      if answer == Terminated(true) then
        Return(SetGate(local.(believed := false), GateSleeping, None, job.revision, None), StopEnded(Stopped))
      else Return(local, StopEnded(TerminationPending))
    case _ =>
      var seen := Refreshed(local, answer);
      if seen.believed then
        Return(SetGate(seen, GateRunning, job.reopen, job.revision, None), StopEnded(FailedRunning))
      else Return(SetGate(seen, GateSleeping, None, job.revision, None), StopEnded(Stopped))
  }
}
