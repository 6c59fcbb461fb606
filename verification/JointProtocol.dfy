/** The coordinator and the Sandbox together. Requests travel first in, first
    out; replies, requests and everything volatile on either side can be lost at
    any time; probes may answer anything. */
module JointProtocol {
  import opened Wrappers
  import opened LifecycleState
  import opened CoordinatorSteps
  import opened CoordinatorInvariant
  import opened CoordinatorLaws
  import R = CoordinatorRuns
  import opened CoordinatorMoves
  import S = SandboxSteps

  /** A lifecycle request, numbered in the order of sending. */
  datatype Call = Call(seqNo: nat, request: S.Request)

  datatype Executing = Executing(seqNo: nat, job: S.Job)

  /** `wakeCall` and `stopCall` are the numbers of the requests whose replies the
      coordinator is waiting for. `overtaken` remembers the epochs whose wake
      request left after the coordinator had turned to something else, and
      `stopEpoch` the epoch each stop operation is about. */
  datatype World = World(
    c: R.System,
    s: S.Local,
    executing: Option<Executing>,
    queue: seq<Call>,
    lastSeq: nat,
    wakeCall: Option<nat>,
    stopCall: Option<nat>,
    replies: map<nat, S.Reply>,
    overtaken: set<Epoch>,
    stopEpoch: map<OperationId, Epoch>)

  datatype Action =
    | Coordinate(tick: R.Tick)
    | SandboxBegins(active: bool)
    | SandboxAdvances(answer: S.Answer)
    | SandboxCrashes
    | RequestLost(index: nat)
    | BeliefChanges(believed: bool)

  const Start := World(R.Start, S.NeverWritten, None, [], 0, None, None, map[], {}, map[])

  // --- what the coordinator does to the network -----------------------------

  ghost predicate SendsWake(m: Machine, r: Machine) {
    m.wake.Some? && r.wake.Some? && !m.wake.value.sent && r.wake.value.sent
  }

  ghost predicate SendsStop(m: Machine, r: Machine) {
    r.stop.Some? && r.stop != m.stop
  }

  ghost function StopRequestOf(call: StopCall): S.Request {
    if call.op.kind.ForceStop? then S.ForceStopRequest(call.epoch, call.op.id)
    else S.IdleStopRequest(call.epoch.GetOr(0), call.revision, call.op.id)
  }

  /** The reply the coordinator takes is the one to the call it waits for, or a
      failure of the connection. */
  ghost predicate Deliverable(w: World, e: Event) {
    match e
    case EWakeReply(answer) =>
      answer.Ok? ==>
        && w.wakeCall.Some? && w.wakeCall.value in w.replies
        && w.replies[w.wakeCall.value] == S.Woken(answer.value)
    case EStopReply(answer) =>
      answer.Ok? ==>
        && w.stopCall.Some? && w.stopCall.value in w.replies
        && w.replies[w.stopCall.value] == S.StopEnded(answer.value)
    case _ => true
  }

  ghost function Coordinated(w: World, t: R.Tick): World {
    Sent(w, R.Next(w.c, t))
  }

  /** The world once the coordinator has moved to `next`, sending what that sends. */
  ghost function Sent(w: World, next: R.System): World {
    var m, r := w.c.m, next.m;
    var moved := w.(c := next, stopEpoch := NoteStop(w.stopEpoch, r));
    if SendsWake(m, r) then
      moved.(lastSeq := w.lastSeq + 1,
             queue := w.queue + [Call(w.lastSeq + 1, S.WakeRequest(r.wake.value.epoch))],
             wakeCall := Some(w.lastSeq + 1),
             overtaken := if WakeIsCurrent(m, m.wake.value) then w.overtaken else w.overtaken + {r.wake.value.epoch})
    else if SendsStop(m, r) then
      moved.(lastSeq := w.lastSeq + 1,
             queue := w.queue + [Call(w.lastSeq + 1, StopRequestOf(r.stop.value))],
             wakeCall := if r.wake.None? || !r.wake.value.sent then None else w.wakeCall,
             stopCall := Some(w.lastSeq + 1))
    else
      moved.(wakeCall := if r.wake.None? || !r.wake.value.sent then None else w.wakeCall,
             stopCall := if r.stop.None? then None else w.stopCall)
  }

  ghost function NoteStop(stopEpoch: map<OperationId, Epoch>, r: Machine): map<OperationId, Epoch> {
    if InPhase(r, Quiescing) && r.state.value.operation.Some? && r.state.value.epoch.Some?
    then stopEpoch[r.state.value.operation.value.id := r.state.value.epoch.value]
    else stopEpoch
  }

  // --- what the Sandbox does --------------------------------------------------

  ghost function Settled(w: World, seqNo: nat, outcome: S.Outcome): World {
    match outcome
    case Continue(local, job) => w.(s := local, executing := Some(Executing(seqNo, job)))
    case Return(local, reply) => w.(s := local, executing := None, replies := w.replies[seqNo := reply])
  }

  ghost predicate Enabled(w: World, a: Action) {
    match a
    case Coordinate(t) => R.CanTick(w.c, t) && Deliverable(w, t.event)
    case SandboxBegins(_) => w.executing.None? && |w.queue| > 0
    case SandboxAdvances(_) => w.executing.Some?
    case SandboxCrashes => true
    case RequestLost(index) => index < |w.queue|
    case BeliefChanges(_) => true
  }

  ghost function Next(w: World, a: Action): World
    requires Enabled(w, a)
  {
    match a
    case Coordinate(t) => Coordinated(w, t)
    case SandboxBegins(active) =>
      Settled(w.(queue := w.queue[1..]), w.queue[0].seqNo, S.Begin(w.s, w.queue[0].request, active))
    case SandboxAdvances(answer) =>
      Settled(w, w.executing.value.seqNo, S.Advance(w.s, w.executing.value.job, answer))
    case SandboxCrashes => w.(executing := None)
    case RequestLost(index) => w.(queue := w.queue[..index] + w.queue[index + 1..])
    case BeliefChanges(believed) => w.(s := w.s.(believed := believed))
  }

  datatype Run = Run(actions: seq<Action>, worlds: seq<World>)

  ghost predicate IsRun(run: Run) {
    && |run.worlds| == |run.actions| + 1
    && run.worlds[0] == Start
    && (forall k {:trigger run.actions[k]} | 0 <= k < |run.actions| ::
          Enabled(run.worlds[k], run.actions[k]) && run.worlds[k + 1] == Next(run.worlds[k], run.actions[k]))
  }
}
