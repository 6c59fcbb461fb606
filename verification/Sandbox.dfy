/** The Sandbox object itself. Its lifecycle methods assign the stored gate and
    the belief about the container step by step; each is proved to end where the
    cut-up mutation ends on the same answers. */
module Sandbox {
  import opened Wrappers
  import opened LifecycleState
  import opened CoordinatorSteps
  import opened SandboxSteps

  /** `reply` is missing when the object was evicted before it could answer. */
  datatype Finished = Finished(local: Local, reply: Option<Reply>, unread: seq<Answer>)

  /** A mutation carried on for as long as the host answers. */
  function Finish(outcome: Outcome, answers: seq<Answer>): Finished
    decreases |answers|
  {
    match outcome
    case Return(local, reply) => Finished(local, Some(reply), answers)
    case Continue(local, job) =>
      if answers == [] then Finished(local, None, [])
      else Finish(Advance(local, job, answers[0]), answers[1..])
  }

  lemma FinishSteps(local: Local, job: Job, answers: seq<Answer>)
    requires answers != []
    ensures Finish(Continue(local, job), answers) == Finish(Advance(local, job, answers[0]), answers[1..])
  {}

  class SandboxObject {
    var gate: Gate
    var believed: bool
    var active: bool

    // What every await still to come will be answered with.
    var answers: seq<Answer>

    constructor (answers: seq<Answer>)
      ensures View() == NeverWritten && active && this.answers == answers
    {
      gate := NeverWritten.gate;
      believed := NeverWritten.believed;
      active := true;
      this.answers := answers;
    }

    ghost function View(): Local
      reads this
    {
      Local(gate, believed)
    }

    ghost function Ended(reply: Option<Reply>): Finished
      reads this
    {
      Finished(View(), reply, answers)
    }

    method Await() returns (answer: Option<Answer>)
      modifies this`answers
      ensures old(answers) == [] ==> answer.None? && answers == []
      ensures old(answers) != [] ==> answer == Some(old(answers)[0]) && answers == old(answers)[1..]
    {
      if answers == [] {
        return None;
      }
      answer := Some(answers[0]);
      answers := answers[1..];
    }

    /** Ask the host whether the container runs. An unreachable host is no
        evidence, so the belief stands. */
    method RefreshHostRuntime() returns (evicted: bool)
      modifies this`answers, this`believed
      ensures evicted <==> old(answers) == []
      ensures evicted ==> View() == old(View()) && answers == []
      ensures !evicted ==> View() == Refreshed(old(View()), old(answers)[0]) && answers == old(answers)[1..]
    {
      var answer := Await();
      if answer.None? {
        return true;
      }
      if answer.value.HostSays? {
        believed := answer.value.running;
      }
      return false;
    }

    method WakeForLifecycle(epoch: Epoch) returns (reply: Option<Reply>)
      modifies this
      ensures active == old(active)
      ensures Ended(reply) == Finish(Begin(old(View()), WakeRequest(epoch), active), old(answers))
    {
      if !active {
        return Some(Refused);
      }
      if gate.phase.GateRunning? && gate.epoch == Some(epoch) {
        var evicted := RefreshHostRuntime();
        if evicted {
          return None;
        }
        if believed {
          reply := Adopt(epoch);
          return;
        }
      }
      reply := Boot(epoch);
    }

    /** The container already runs this epoch: only look at it. */
    method Adopt(epoch: Epoch) returns (reply: Option<Reply>)
      modifies this`answers
      ensures Ended(reply) ==
              Finish(Continue(old(View()), Job(WakeRequest(epoch), WakeAdopt, gate.revision, None)), old(answers))
    {
      var inspected := Await();
      if inspected.None? {
        return None;
      }
      return Some(if inspected.value.Inspected? then Woken(inspected.value.snapshot) else Refused);
    }

    method Boot(epoch: Epoch) returns (reply: Option<Reply>)
      modifies this`gate, this`believed, this`answers
      ensures Ended(reply) == Finish(BeginBoot(old(View()), WakeRequest(epoch), epoch), old(answers))
    {
      var revision := gate.revision + 1;
      ghost var outcome, begun := BeginBoot(View(), WakeRequest(epoch), epoch), answers;
      gate := Gate(GateWaking, Some(epoch), revision, None);

      var started := Await();
      if started.None? {
        return None;
      }
      if started.value.Broke? {
        gate := Gate(GateSleeping, None, revision, None);
        return Some(Refused);
      }
      believed := true;
      ghost var local, restoring := View(), Job(WakeRequest(epoch), WakeRestore, revision, None);
      ghost var rest := answers;
      assert Finish(outcome, begun) == Finish(Continue(local, restoring), rest);

      var restored := Await();
      if restored.None? {
        return None;
      }
      FinishSteps(local, restoring, rest);
      if restored.value.Broke? {
        gate := Gate(GateSleeping, None, revision, None);
        return Some(Refused);
      }
      ghost var starting := restoring.(point := WakeServe);
      rest := answers;
      assert Finish(outcome, begun) == Finish(Continue(local, starting), rest);

      var serving := Await();
      if serving.None? {
        return None;
      }
      FinishSteps(local, starting, rest);
      if serving.value.Broke? {
        gate := Gate(GateSleeping, None, revision, None);
        return Some(Refused);
      }
      gate := Gate(GateRunning, Some(epoch), revision, None);
      assert Finish(outcome, begun) ==
             Finish(Continue(View(), Job(WakeRequest(epoch), WakeInspect, revision, None)), answers);

      var inspected := Await();
      if inspected.None? {
        return None;
      }
      if inspected.value.Inspected? {
        return Some(Woken(inspected.value.snapshot));
      }
      gate := Gate(GateSleeping, None, revision, None);
      return Some(Refused);
    }

    method QuiesceAndStopIfIdle(epoch: Epoch, revision: nat, op: OperationId) returns (reply: Option<Reply>)
      modifies this
      ensures active == old(active)
      ensures Ended(reply) == Finish(Begin(old(View()), IdleStopRequest(epoch, revision, op), active), old(answers))
    {
      if !active {
        return Some(Refused);
      }
      ghost var request := IdleStopRequest(epoch, revision, op);
      ghost var outcome, begun := Begin(View(), request, active), answers;
      var evicted := RefreshHostRuntime();
      if evicted {
        return None;
      }
      assert Finish(outcome, begun) ==
        Finish(BeginIdle(View(), Job(request, StopRefresh, 0, None), epoch, revision, op), answers);
      if !believed {
        gate := Gate(GateSleeping, None, if revision <= gate.revision then gate.revision else revision, None);
        return Some(StopEnded(NotRunningOutcome));
      }
      if !(gate.op == Some(op) && IsStopPhase(gate.phase)) {
        if !gate.phase.GateRunning? || gate.epoch != Some(epoch) {
          return Some(Refused);
        }
        gate := Gate(GateQuiescing, Some(epoch), revision, Some(op));
      }
      var current := if revision <= gate.revision then gate.revision else revision;
      ghost var resumed := Resume(gate, Job(request, StopRefresh, 0, None), current, Some(epoch));
      assert Finish(outcome, begun) == Finish(Continue(View(), resumed), answers);

      if gate.phase.GateQuiescing? {
        reply := DrainAndInspect(request, epoch, op, current);
      } else {
        reply := PersistAndTerminate(request, op, current, Some(epoch));
      }
    }

    /** Let admitted requests finish, and go on only if everything is idle. */
    method DrainAndInspect(ghost request: Request, epoch: Epoch, op: OperationId, revision: nat)
      returns (reply: Option<Reply>)
      requires request.IdleStopRequest? && request.op == op
      modifies this`gate, this`believed, this`answers
      ensures Ended(reply) == Finish(Continue(old(View()), Job(request, StopDrain, revision, Some(epoch))),
                old(answers))
    {
      ghost var outcome, begun := Continue(View(), Job(request, StopDrain, revision, Some(epoch))), answers;
      var drained := Await();
      if drained.None? {
        return None;
      }
      ghost var local, inspecting, rest := View(), Job(request, StopInspect, revision, Some(epoch)), answers;
      assert Finish(outcome, begun) == Finish(Continue(local, inspecting), rest);
      var inspected := Await();
      if inspected.None? {
        return None;
      }
      FinishSteps(local, inspecting, rest);
      if !inspected.value.Inspected? {
        reply := CatchStop(request, op, revision, Some(epoch));
        return;
      }
      var snapshot := inspected.value.snapshot;
      if !snapshot.execution.Running? || snapshot.active {
        gate := Gate(GateRunning, Some(epoch), revision, None);
        return Some(StopEnded(Busy(Some(snapshot))));
      }
      gate := Gate(GateCheckpointing, Some(epoch), revision, Some(op));
      reply := PersistAndTerminate(request, op, revision, Some(epoch));
    }

    method ForceStopForLifecycle(epoch: Option<Epoch>, op: OperationId) returns (reply: Option<Reply>)
      modifies this
      ensures active == old(active)
      ensures Ended(reply) == Finish(Begin(old(View()), ForceStopRequest(epoch, op), active), old(answers))
    {
      if !active {
        return Some(Refused);
      }
      ghost var request := ForceStopRequest(epoch, op);
      ghost var outcome, begun := Begin(View(), request, active), answers;
      var evicted := RefreshHostRuntime();
      if evicted {
        return None;
      }
      assert Finish(outcome, begun) ==
        Finish(BeginForce(View(), Job(request, StopRefresh, 0, None), epoch, op), answers);
      if !believed {
        gate := Gate(GateSleeping, None, gate.revision + 1, None);
        return Some(StopEnded(Stopped));
      }
      var recovering := gate.op == Some(op) && IsStopPhase(gate.phase);
      if !recovering && epoch.Some? && gate.epoch.Some? && epoch != gate.epoch {
        return Some(Refused);
      }
      var previous := if gate.epoch.Some? then gate.epoch else epoch;
      var revision := if recovering then gate.revision else gate.revision + 1;
      if !recovering {
        gate := Gate(GateQuiescing, previous, revision, Some(op));
      }
      ghost var resumed := Resume(gate, Job(request, StopRefresh, 0, None), revision, previous);
      assert Finish(outcome, begun) == Finish(Continue(View(), resumed), answers);

      if gate.phase.GateQuiescing? {
        reply := DrainForForce(request, previous, op, revision);
      } else {
        reply := PersistAndTerminate(request, op, revision, previous);
      }
    }

    /** Let admitted requests finish; a forced stop does not ask for more. */
    method DrainForForce(ghost request: Request, previous: Option<Epoch>, op: OperationId, revision: nat)
      returns (reply: Option<Reply>)
      requires request.ForceStopRequest? && request.op == op
      modifies this`gate, this`believed, this`answers
      ensures Ended(reply) == Finish(Continue(old(View()), Job(request, StopDrain, revision, previous)), old(answers))
    {
      ghost var local, draining, begun := View(), Job(request, StopDrain, revision, previous), answers;
      var drained := Await();
      if drained.None? {
        return None;
      }
      FinishSteps(local, draining, begun);
      gate := Gate(GateCheckpointing, previous, revision, Some(op));
      reply := PersistAndTerminate(request, op, revision, previous);
    }

    /** Both kinds of stop end alike: persist what is still to be persisted, then
        terminate what still runs. */
    method PersistAndTerminate(ghost request: Request, op: OperationId, revision: nat, reopen: Option<Epoch>)
      returns (reply: Option<Reply>)
      requires gate.phase.GateCheckpointing? || gate.phase.GateStopping?
      requires !request.WakeRequest? && request.op == op
      modifies this`gate, this`believed, this`answers
      ensures Ended(reply) ==
              Finish(
                Continue(old(View()),
                         Job(request, if old(gate).phase.GateCheckpointing? then StopExport else StopCheck, revision,
                           reopen)),
                old(answers))
    {
      if gate.phase.GateCheckpointing? {
        ghost var local, exporting, begun := View(), Job(request, StopExport, revision, reopen), answers;
        var exported := Await();
        if exported.None? {
          return None;
        }
        FinishSteps(local, exporting, begun);
        ghost var persisting, rest := exporting.(point := StopPersist), answers;
        var persisted := Await();
        if persisted.None? {
          return None;
        }
        FinishSteps(local, persisting, rest);
        if persisted.value.Broke? {
          reply := CatchStop(request, op, revision, reopen);
          return;
        }
        gate := Gate(GateStopping, None, revision, Some(op));
      }
      reply := Terminate(request, revision, reopen);
    }

    method Terminate(ghost request: Request, revision: nat, reopen: Option<Epoch>) returns (reply: Option<Reply>)
      requires !request.WakeRequest?
      modifies this`gate, this`believed, this`answers
      ensures Ended(reply) == Finish(Continue(old(View()), Job(request, StopCheck, revision, reopen)), old(answers))
    {
      ghost var local, checking, begun := View(), Job(request, StopCheck, revision, reopen), answers;
      var written := Await();
      if written.None? {
        return None;
      }
      FinishSteps(local, checking, begun);
      if believed {
        ghost var terminating, rest := checking.(point := StopTerminate), answers;
        var terminated := Await();
        if terminated.None? {
          return None;
        }
        FinishSteps(local, terminating, rest);
        if terminated.value != Terminated(true) {
          return Some(StopEnded(TerminationPending));
        }
        believed := false;
      }
      gate := Gate(GateSleeping, None, revision, None);
      return Some(StopEnded(Stopped));
    }

    /** A stop that failed opens the gate again if the container still runs. */
    method CatchStop(ghost request: Request, ghost op: OperationId, revision: nat, reopen: Option<Epoch>)
      returns (reply: Option<Reply>)
      requires !request.WakeRequest? && request.op == op
      modifies this`gate, this`believed, this`answers
      ensures Ended(reply) == Finish(Continue(old(View()), Job(request, StopCatch, revision, reopen)), old(answers))
    {
      var evicted := RefreshHostRuntime();
      if evicted {
        return None;
      }
      if believed {
        gate := Gate(GateRunning, reopen, revision, None);
        return Some(StopEnded(FailedRunning));
      }
      gate := Gate(GateSleeping, None, revision, None);
      return Some(StopEnded(Stopped));
    }
  }
}
