/** What the protocol keeps: an admitted epoch is the one the gate runs. */
module JointSafety {
  import opened Wrappers
  import opened LifecycleState
  import opened CoordinatorSteps
  import opened CoordinatorInvariant
  import opened CoordinatorLaws
  import R = CoordinatorRuns
  import opened CoordinatorMoves
  import S = SandboxSteps
  import opened JointProtocol

  // --- the Sandbox, whatever it is asked -------------------------------------

  ghost predicate OutcomeFits(gate: S.Gate, outcome: StopOutcome, epoch: Epoch) {
    match outcome
    case Stopped => gate.phase.GateSleeping?
    case NotRunningOutcome => gate.phase.GateSleeping?
    case TerminationPending => gate.phase.GateStopping?
    case FailedRunning => S.IsRunningFor(gate, epoch)
    case Busy(_) => S.IsRunningFor(gate, epoch)
  }

  /** A gate that names a stop operation names that operation's epoch, if any. */
  ghost predicate GateFits(gate: S.Gate, stopEpoch: map<OperationId, Epoch>) {
    gate.op.Some? && gate.epoch.Some? ==> gate.op.value in stopEpoch && stopEpoch[gate.op.value] == gate.epoch.value
  }

  ghost predicate RequestFits(request: S.Request, stopEpoch: map<OperationId, Epoch>) {
    match request
    case WakeRequest(_) => true
    case IdleStopRequest(epoch, _, op) => op in stopEpoch && stopEpoch[op] == epoch
    case ForceStopRequest(epoch, op) => op in stopEpoch && epoch == Some(stopEpoch[op])
  }

  ghost predicate JobFits(gate: S.Gate, job: S.Job, stopEpoch: map<OperationId, Epoch>) {
    && RequestFits(job.request, stopEpoch)
    && (job.request.WakeRequest? <==> S.IsWakePoint(job.point))
    && (job.point.WakeBoot? || job.point.WakeRestore? || job.point.WakeServe? ==> gate.phase.GateWaking?)
    && (job.request.WakeRequest? && (job.point.WakeRefresh? || job.point.WakeAdopt? || job.point.WakeInspect?) ==>
          S.IsRunningFor(gate, job.request.wakeEpoch))
    && (!job.request.WakeRequest? && !job.point.StopRefresh? ==> job.reopen == Some(stopEpoch[job.request.op]))
    && (job.point.StopCheck? || job.point.StopTerminate? ==> gate.phase.GateStopping?)
  }

  /** What a finished or suspended mutation leaves behind. */
  ghost predicate OutcomeSound(outcome: S.Outcome, request: S.Request, stopEpoch: map<OperationId, Epoch>)
    requires RequestFits(request, stopEpoch)
  {
    && GateFits(outcome.local.gate, stopEpoch)
    && match outcome
       case Continue(local, job) => job.request == request && JobFits(local.gate, job, stopEpoch)
       case Return(local, reply) =>
         if request.WakeRequest? then
           !reply.StopEnded? && (reply.Woken? ==> S.IsRunningFor(local.gate, request.wakeEpoch))
         else
           !reply.Woken? && (reply.StopEnded? ==> OutcomeFits(local.gate, reply.outcome, stopEpoch[request.op]))
  }

  lemma BeginIsSound(local: S.Local, request: S.Request, active: bool, stopEpoch: map<OperationId, Epoch>)
    requires GateFits(local.gate, stopEpoch) && RequestFits(request, stopEpoch)
    ensures OutcomeSound(S.Begin(local, request, active), request, stopEpoch)
  {}

  lemma AdvanceWakeIsSound(local: S.Local, job: S.Job, answer: S.Answer, stopEpoch: map<OperationId, Epoch>)
    requires GateFits(local.gate, stopEpoch) && JobFits(local.gate, job, stopEpoch) && job.request.WakeRequest?
    ensures OutcomeSound(S.AdvanceWake(local, job, job.request.wakeEpoch, answer), job.request, stopEpoch)
  {}

  lemma BeginStopIsSound(local: S.Local, job: S.Job, stopEpoch: map<OperationId, Epoch>)
    requires GateFits(local.gate, stopEpoch) && JobFits(local.gate, job, stopEpoch)
    requires job.point.StopRefresh?
    ensures job.request.IdleStopRequest? ==>
              OutcomeSound(S.BeginIdle(local, job, job.request.idleEpoch, job.request.revision, job.request.op),
                job.request, stopEpoch)
    ensures job.request.ForceStopRequest? ==>
              OutcomeSound(S.BeginForce(local, job, job.request.forceEpoch, job.request.op), job.request, stopEpoch)
  {}

  lemma AdvanceStopIsSound(local: S.Local, job: S.Job, answer: S.Answer, stopEpoch: map<OperationId, Epoch>)
    requires GateFits(local.gate, stopEpoch) && JobFits(local.gate, job, stopEpoch)
    requires !job.request.WakeRequest? && !job.point.StopRefresh?
    ensures OutcomeSound(S.AdvanceStop(local, job, job.request.op, answer), job.request, stopEpoch)
  {}

  lemma AdvanceIsSound(local: S.Local, job: S.Job, answer: S.Answer, stopEpoch: map<OperationId, Epoch>)
    requires GateFits(local.gate, stopEpoch) && JobFits(local.gate, job, stopEpoch)
    ensures OutcomeSound(S.Advance(local, job, answer), job.request, stopEpoch)
  {
    hide S.AdvanceWake, S.BeginIdle, S.BeginForce, S.AdvanceStop;
    if job.request.WakeRequest? {
      AdvanceWakeIsSound(local, job, answer, stopEpoch);
    } else if job.point.StopRefresh? {
      BeginStopIsSound(S.Refreshed(local, answer), job, stopEpoch);
    } else {
      AdvanceStopIsSound(local, job, answer, stopEpoch);
    }
  }

  // --- the network -------------------------------------------------------------

  ghost predicate InFlight(w: World, call: Call) {
    || (w.executing.Some? && call == Call(w.executing.value.seqNo, w.executing.value.job.request))
    || call in w.queue
  }

  ghost predicate Increasing(queue: seq<Call>) {
    forall i, j | 0 <= i < j < |queue| :: queue[i].seqNo < queue[j].seqNo
  }

  /** Requests are carried out in the order they were sent, each at most once. */
  ghost predicate Ordered(w: World) {
    && Increasing(w.queue)
    && (w.executing.Some? ==> forall i | 0 <= i < |w.queue| :: w.executing.value.seqNo < w.queue[i].seqNo)
    && (forall call :: InFlight(w, call) ==> call.seqNo <= w.lastSeq && call.seqNo !in w.replies)
    && (forall q :: q in w.replies ==> q <= w.lastSeq)
  }

  /** The calls the coordinator waits for are the requests it sent for them. */
  ghost predicate Named(w: World) {
    var m := w.c.m;
    && (w.wakeCall.Some? <==> m.wake.Some? && m.wake.value.sent)
    && (w.stopCall.Some? <==> m.stop.Some?)
    && (w.wakeCall.Some? ==> w.wakeCall.value <= w.lastSeq)
    && (w.stopCall.Some? ==> w.stopCall.value <= w.lastSeq)
    && (forall call :: InFlight(w, call) ==>
          && (w.wakeCall == Some(call.seqNo) ==> call.request == S.WakeRequest(m.wake.value.epoch))
          && (w.stopCall == Some(call.seqNo) ==> call.request == StopRequestOf(m.stop.value)))
  }

  ghost predicate StopEpochsFit(w: World) {
    var m := w.c.m;
    && w.stopEpoch.Keys <= w.c.h.used
    && (InPhase(m, Quiescing) ==>
          && m.state.value.operation.Some? && m.state.value.operation.value.id in w.stopEpoch
          && m.state.value.epoch == Some(w.stopEpoch[m.state.value.operation.value.id]))
    && (m.stop.Some? ==>
          && m.stop.value.op.id in w.stopEpoch
          && m.stop.value.epoch == Some(w.stopEpoch[m.stop.value.op.id]))
    && (forall call :: InFlight(w, call) ==> RequestFits(call.request, w.stopEpoch))
    && GateFits(w.s.gate, w.stopEpoch)
    && (w.executing.Some? ==> JobFits(w.s.gate, w.executing.value.job, w.stopEpoch))
  }

  // --- agreement -----------------------------------------------------------------

  ghost predicate OvertakenWake(w: World, call: Call, epoch: Epoch) {
    call.request == S.WakeRequest(epoch) && epoch in w.overtaken
  }

  ghost predicate WakeCallFits(m: Machine) {
    m.wake.Some? ==>
      && (EpochOf(m).Some? ==> EpochOf(m) == Some(m.wake.value.epoch))
      && (IsWaking(m) ==> WakeIsCurrent(m, m.wake.value))
  }

  ghost predicate OvertakenFits(w: World) {
    && w.overtaken <= w.c.h.used
    && (IsWaking(w.c.m) && EpochOf(w.c.m).Some? ==> EpochOf(w.c.m).value !in w.overtaken)
  }

  /** While an epoch is admitted nothing is on its way that could move the gate,
      except that epoch's own overtaken wake; without one the gate runs it. */
  ghost predicate AdmissionAgrees(w: World) {
    InAdmission(w.c.m) && EpochOf(w.c.m).Some? ==>
      var e := EpochOf(w.c.m).value;
      && (forall call :: InFlight(w, call) ==> OvertakenWake(w, call, e))
      && (e !in w.overtaken ==> S.IsRunningFor(w.s.gate, e))
  }

  ghost predicate WakeAgrees(w: World) {
    var m := w.c.m;
    w.wakeCall.Some? && m.wake.Some? && WakeIsCurrent(m, m.wake.value) ==>
      var q := w.wakeCall.value;
      && (forall call :: InFlight(w, call) ==> call.seqNo <= q)
      && (q in w.replies && w.replies[q].Woken? ==>
            && (forall call :: !InFlight(w, call))
            && S.IsRunningFor(w.s.gate, m.wake.value.epoch))
  }

  ghost predicate StopAgrees(w: World) {
    var m := w.c.m;
    w.stopCall.Some? && m.stop.Some? && StopIsCurrent(m, m.stop.value) && EpochOf(m).Some? ==>
      var q, e := w.stopCall.value, EpochOf(m).value;
      && (forall call :: InFlight(w, call) && call.seqNo > q ==> OvertakenWake(w, call, e))
      && (q in w.replies ==>
            && (forall call :: InFlight(w, call) ==> call.seqNo > q)
            && (e !in w.overtaken && w.replies[q].StopEnded? ==> OutcomeFits(w.s.gate, w.replies[q].outcome, e)))
  }

  ghost predicate Agreement(w: World) {
    WakeCallFits(w.c.m) && OvertakenFits(w) && AdmissionAgrees(w) && WakeAgrees(w) && StopAgrees(w)
  }

  ghost predicate Inv(w: World) {
    R.SystemInv(w.c) && Ordered(w) && Named(w) && StopEpochsFit(w) && Agreement(w)
  }

  // --- the Sandbox's actions keep it -------------------------------------------

  /** The head of the line was taken up, went on, or ended. */
  ghost predicate Proceeds(w: World, r: World, head: Call, outcome: S.Outcome) {
    && InFlight(w, head)
    && (forall call :: InFlight(w, call) && call != head ==> head.seqNo < call.seqNo)
    && r.c == w.c && r.lastSeq == w.lastSeq && r.wakeCall == w.wakeCall && r.stopCall == w.stopCall
    && r.overtaken == w.overtaken && r.stopEpoch == w.stopEpoch
    && r.s == outcome.local
    && match outcome
       case Continue(_, job) => r.replies == w.replies && (forall call :: InFlight(r, call) <==> InFlight(w, call))
       case Return(_, reply) =>
         && r.replies == w.replies[head.seqNo := reply]
         && (forall call :: InFlight(r, call) <==> InFlight(w, call) && call != head)
  }

  lemma ProceedingKeepsAgreement(w: World, r: World, head: Call, outcome: S.Outcome)
    requires Inv(w) && Proceeds(w, r, head, outcome)
    requires OutcomeSound(outcome, head.request, w.stopEpoch)
    ensures Agreement(r)
  {
    hide R.SystemInv, OutcomeFits;
    assert InFlight(w, head);
  }

  lemma ProceedingKeepsInv(w: World, r: World, head: Call, outcome: S.Outcome)
    requires Inv(w) && Proceeds(w, r, head, outcome)
    requires OutcomeSound(outcome, head.request, w.stopEpoch)
    requires Ordered(r)
    requires outcome.Continue? ==> r.executing == Some(Executing(head.seqNo, outcome.job))
    requires outcome.Return? ==> r.executing.None?
    ensures Inv(r)
  {
    ProceedingKeepsAgreement(w, r, head, outcome);
    hide R.SystemInv, Agreement, Ordered;
  }

  lemma QueueWithoutOne(queue: seq<Call>, index: nat, rest: seq<Call>)
    requires Increasing(queue) && index < |queue| && rest == queue[..index] + queue[index + 1..]
    ensures Increasing(rest) && queue[index] !in rest
    ensures forall call :: call in queue <==> call == queue[index] || call in rest
    ensures index == 0 ==> forall call | call in rest :: queue[0].seqNo < call.seqNo
  {
    assert forall i | 0 <= i < |rest| :: rest[i] == if i < index then queue[i] else queue[i + 1];
    forall call | call in queue && call != queue[index] ensures call in rest {
      var i :| 0 <= i < |queue| && queue[i] == call;
      assert rest[if i < index then i else i - 1] == call;
    }
  }

  /** The queue without one request is still in order. */
  lemma WithoutOne(w: World, index: nat, r: World)
    requires Ordered(w) && index < |w.queue|
    requires r == w.(queue := w.queue[..index] + w.queue[index + 1..])
    ensures Ordered(r)
    ensures forall call :: call in w.queue <==> call == w.queue[index] || call in r.queue
    ensures w.queue[index] !in r.queue
    ensures index == 0 ==> forall call | call in r.queue :: w.queue[0].seqNo < call.seqNo
  {
    QueueWithoutOne(w.queue, index, r.queue);
    if w.executing.Some? {
      forall i | 0 <= i < |r.queue| ensures w.executing.value.seqNo < r.queue[i].seqNo {
        assert r.queue[i] in r.queue;
      }
    }
    hide Increasing;
  }

  /** The head leaves the queue and is carried out, or is turned away. */
  lemma TakingTheHead(w: World, r: World, active: bool)
    requires Inv(w) && Enabled(w, SandboxBegins(active)) && r == Next(w, SandboxBegins(active))
    ensures r.queue == w.queue[1..] && r.lastSeq == w.lastSeq
    ensures r.executing.Some? ==>
              r.executing.value.seqNo == w.queue[0].seqNo && r.executing.value.job.request == w.queue[0].request
    ensures r.replies.Keys == w.replies.Keys + (if r.executing.Some? then {} else {w.queue[0].seqNo})
  {
    BeginKeepsRequest(w.s, w.queue[0].request, active);
    hide Inv, S.Begin;
  }

  lemma BeginningKeepsOrder(w: World, active: bool)
    requires Inv(w) && Enabled(w, SandboxBegins(active))
    ensures var head, r := w.queue[0], Next(w, SandboxBegins(active));
            && Ordered(r) && InFlight(w, head)
            && (forall call :: InFlight(w, call) && call != head ==> head.seqNo < call.seqNo)
            && (if r.executing.Some? then forall call :: InFlight(r, call) <==> InFlight(w, call)
                else forall call :: InFlight(r, call) <==> InFlight(w, call) && call != head)
  {
    hide R.SystemInv, Agreement, Named, StopEpochsFit, Next, Increasing;
    var head, r := w.queue[0], Next(w, SandboxBegins(active));
    TakingTheHead(w, r, active);
    var tail := w.(queue := w.queue[..0] + w.queue[1..]);
    assert tail.queue == w.queue[1..];
    WithoutOne(w, 0, tail);
    assert head in w.queue;
  }

  lemma BeginKeepsRequest(local: S.Local, request: S.Request, active: bool)
    ensures S.Begin(local, request, active).Continue? ==> S.Begin(local, request, active).job.request == request
  {}

  lemma BeginningProceeds(w: World, active: bool)
    requires Inv(w) && Enabled(w, SandboxBegins(active))
    ensures Inv(Next(w, SandboxBegins(active)))
  {
    hide S.Begin;
    var head := w.queue[0];
    var outcome := S.Begin(w.s, head.request, active);
    var r := Next(w, SandboxBegins(active));
    BeginningKeepsOrder(w, active);
    assert InFlight(w, head);
    BeginIsSound(w.s, head.request, active, w.stopEpoch);
    hide R.SystemInv, Agreement, Named, Ordered, InFlight, JobFits, RequestFits, GateFits;
    ProceedingKeepsInv(w, r, head, outcome);
  }

  lemma AdvancingProceeds(w: World, answer: S.Answer)
    requires Inv(w) && Enabled(w, SandboxAdvances(answer))
    ensures Inv(Next(w, SandboxAdvances(answer)))
  {
    hide R.SystemInv, Agreement, S.Advance;
    var executing := w.executing.value;
    var head := Call(executing.seqNo, executing.job.request);
    var outcome := S.Advance(w.s, executing.job, answer);
    var r := Next(w, SandboxAdvances(answer));
    assert InFlight(w, head);
    AdvanceIsSound(w.s, executing.job, answer, w.stopEpoch);
    if outcome.Return? {
      assert forall call :: InFlight(r, call) <==> call in r.queue;
      assert head !in r.queue;
    }
    ProceedingKeepsInv(w, r, head, outcome);
  }

  /** Losing requests, or the mutation in progress, leaves fewer of them. */
  lemma LosingKeepsInv(w: World, r: World)
    requires Inv(w) && Ordered(r)
    requires r == w.(queue := r.queue, executing := r.executing, s := r.s) && r.s.gate == w.s.gate
    requires forall call :: InFlight(r, call) ==> InFlight(w, call)
    requires r.executing.Some? ==> r.executing == w.executing
    ensures Inv(r)
  {
    hide R.SystemInv, OutcomeFits, RequestFits, JobFits, Ordered;
    assert Agreement(r) by {
      assert forall call, e :: OvertakenWake(w, call, e) ==> OvertakenWake(r, call, e);
    }
  }

  lemma LostRequestKeepsInv(w: World, index: nat)
    requires Inv(w) && index < |w.queue|
    ensures Inv(Next(w, RequestLost(index)))
  {
    hide R.SystemInv, Agreement, Named, StopEpochsFit, Ordered;
    var r := w.(queue := w.queue[..index] + w.queue[index + 1..]);
    WithoutOne(w, index, r);
    assert forall call :: InFlight(r, call) ==> InFlight(w, call);
    LosingKeepsInv(w, r);
    hide Inv;
  }

  lemma LossesKeepInv(w: World, a: Action)
    requires Inv(w) && Enabled(w, a) && (a.SandboxCrashes? || a.RequestLost? || a.BeliefChanges?)
    ensures Inv(Next(w, a))
  {
    if a.RequestLost? {
      LostRequestKeepsInv(w, a.index);
    } else {
      hide R.SystemInv, Agreement, Named, StopEpochsFit;
      LosingKeepsInv(w, Next(w, a));
    }
  }

  // --- the coordinator's actions keep it ---------------------------------------

  /** What one event of the coordinator can do, without saying how. */
  ghost predicate LegalMove(before: R.System, after: R.System, e: Event) {
    && R.SystemInv(before) && R.SystemInv(after)
    && Moves(before.m, after.m, e)
    && after.h.used == before.h.used + Drawn(e)
    && Drawn(e) !! before.h.used
    && (after.m.wake.Some? && before.m.wake.Some? && after.m.wake.value.op == before.m.wake.value.op ==>
          WakeIsCurrent(after.m, after.m.wake.value) ==> WakeIsCurrent(before.m, before.m.wake.value))
    && (after.m.stop.Some? && after.m.stop == before.m.stop ==>
          StopIsCurrent(after.m, after.m.stop.value) ==> StopIsCurrent(before.m, before.m.stop.value))
  }

  lemma TicksAreLegalMoves(c: R.System, t: R.Tick)
    requires R.SystemInv(c) && R.CanTick(c, t)
    ensures LegalMove(c, R.Next(c, t), t.event)
  {
    hide Step;
    R.TickKeepsInv(c, t);
    StepMoves(c.m, t.event, t.at);
    if c.m.wake.Some? { R.SupersededStaysSuperseded(c, t, c.m.wake.value.op); }
    if c.m.stop.Some? { R.SupersededStaysSuperseded(c, t, c.m.stop.value.op.id); }
  }

  lemma SendingKeepsOrder(w: World, next: R.System, e: Event)
    requires Inv(w) && LegalMove(w.c, next, e)
    ensures Ordered(Sent(w, next))
    ensures forall call :: InFlight(Sent(w, next), call) ==> InFlight(w, call) || call.seqNo == w.lastSeq + 1
  {
    hide R.SystemInv, Agreement, Named, StopEpochsFit, Moves;
  }

  lemma SendingKeepsNames(w: World, next: R.System, e: Event)
    requires Inv(w) && LegalMove(w.c, next, e)
    ensures Named(Sent(w, next))
  {
    hide R.SystemInv, Agreement, StopEpochsFit;
  }

  ghost predicate Extends(larger: map<OperationId, Epoch>, smaller: map<OperationId, Epoch>) {
    forall op | op in smaller :: op in larger && larger[op] == smaller[op]
  }

  lemma NotingExtends(w: World, next: R.System, e: Event)
    requires Inv(w) && LegalMove(w.c, next, e)
    ensures Extends(NoteStop(w.stopEpoch, next.m), w.stopEpoch)
    ensures NoteStop(w.stopEpoch, next.m).Keys <= next.h.used
  {
    hide Agreement, Named, Ordered, JobFits, RequestFits, GateFits;
  }

  lemma FitsExtend(w: World, stopEpoch: map<OperationId, Epoch>)
    requires StopEpochsFit(w) && Extends(stopEpoch, w.stopEpoch)
    ensures forall call :: InFlight(w, call) ==> RequestFits(call.request, stopEpoch)
    ensures GateFits(w.s.gate, stopEpoch)
    ensures w.executing.Some? ==> JobFits(w.s.gate, w.executing.value.job, stopEpoch)
  {}

  /** The stop that is stored, and the one in flight, are about a noted epoch. */
  lemma StopsAreNoted(w: World, next: R.System, e: Event)
    requires Inv(w) && LegalMove(w.c, next, e)
    ensures var m, stopEpoch := next.m, NoteStop(w.stopEpoch, next.m);
            && (InPhase(m, Quiescing) ==>
                  && m.state.value.operation.Some? && m.state.value.operation.value.id in stopEpoch
                  && m.state.value.epoch == Some(stopEpoch[m.state.value.operation.value.id]))
            && (m.stop.Some? ==>
                  && m.stop.value.op.id in stopEpoch
                  && m.stop.value.epoch == Some(stopEpoch[m.stop.value.op.id]))
  {
    NotingExtends(w, next, e);
    hide Agreement, Named, Ordered, JobFits, GateFits, RequestFits, InFlight;
  }

  lemma SendingKeepsStopEpochs(w: World, next: R.System, e: Event)
    requires Inv(w) && LegalMove(w.c, next, e)
    ensures StopEpochsFit(Sent(w, next))
  {
    NotingExtends(w, next, e);
    StopsAreNoted(w, next, e);
    FitsExtend(w, NoteStop(w.stopEpoch, next.m));
    SendingAdds(w, next);
    StopRequestsFit(w, next, e);
    hide Agreement, Named, Ordered, JobFits, GateFits, R.SystemInv, Moves, NoteStop, InFlight, InPhase, StopRequestOf,
      RequestFits;
  }

  lemma StopRequestsFit(w: World, next: R.System, e: Event)
    requires Inv(w) && LegalMove(w.c, next, e)
    ensures var stopEpoch := NoteStop(w.stopEpoch, next.m);
            && (next.m.stop.Some? ==> RequestFits(StopRequestOf(next.m.stop.value), stopEpoch))
            && forall epoch :: RequestFits(S.WakeRequest(epoch), stopEpoch)
  {
    StopsAreNoted(w, next, e);
    hide Agreement, Named, Ordered, JobFits, GateFits, InFlight, R.SystemInv, Moves, NoteStop;
  }

  lemma SendingKeepsCallFits(w: World, next: R.System, e: Event)
    requires Inv(w) && LegalMove(w.c, next, e)
    ensures WakeCallFits(next.m)
    ensures OvertakenFits(Sent(w, next))
  {
    hide StopEpochsFit, Ordered, AdmissionAgrees, WakeAgrees, StopAgrees;
  }

  lemma SendingAdds(w: World, next: R.System)
    ensures var m, r := w.c.m, next.m;
            forall call :: InFlight(Sent(w, next), call) ==>
              || InFlight(w, call)
              || (SendsWake(m, r) && call == Call(w.lastSeq + 1, S.WakeRequest(r.wake.value.epoch)))
              || (!SendsWake(m, r) && SendsStop(m, r) && call == Call(w.lastSeq + 1, StopRequestOf(r.stop.value)))
  {}

  lemma SendingKeepsAdmission(w: World, next: R.System, e: Event)
    requires Inv(w) && LegalMove(w.c, next, e) && Deliverable(w, e)
    ensures AdmissionAgrees(Sent(w, next))
  {
    hide StopEpochsFit, R.SystemInv;
    SendingAdds(w, next);
  }

  lemma SendingKeepsWake(w: World, next: R.System, e: Event)
    requires Inv(w) && LegalMove(w.c, next, e) && Deliverable(w, e)
    ensures WakeAgrees(Sent(w, next))
  {
    hide StopEpochsFit, R.SystemInv, AdmissionAgrees, StopAgrees, S.IsRunningFor;
    SendingAdds(w, next);
    if SendsWake(w.c.m, next.m) {
      assert w.lastSeq + 1 !in w.replies;
    } else {
      hide InFlight;
    }
  }

  lemma SendingKeepsStop(w: World, next: R.System, e: Event)
    requires Inv(w) && LegalMove(w.c, next, e) && Deliverable(w, e)
    ensures StopAgrees(Sent(w, next))
  {
    hide StopEpochsFit, R.SystemInv, AdmissionAgrees, WakeAgrees, OutcomeFits, Increasing, NoteStop;
  }

  lemma ActionsKeepInv(w: World, a: Action)
    requires Inv(w) && Enabled(w, a)
    ensures Inv(Next(w, a))
  {
    hide Inv, Sent, R.Next, Settled;
    match a
    case Coordinate(t) =>
      CoordinationKeepsInv(w, t);
    case SandboxBegins(active) => BeginningProceeds(w, active);
    case SandboxAdvances(answer) => AdvancingProceeds(w, answer);
    case _ => LossesKeepInv(w, a);
  }

  lemma CoordinationKeepsInv(w: World, t: R.Tick)
    requires Inv(w) && Enabled(w, Coordinate(t))
    ensures Inv(Next(w, Coordinate(t)))
  {
    hide R.Next, Step, Ordered, Named, StopEpochsFit, AdmissionAgrees, WakeAgrees, StopAgrees, Moves;
    var next, e := R.Next(w.c, t), t.event;
    TicksAreLegalMoves(w.c, t);
    SendingKeepsOrder(w, next, e);
    SendingKeepsNames(w, next, e);
    SendingKeepsStopEpochs(w, next, e);
    SendingKeepsCallFits(w, next, e);
    SendingKeepsAdmission(w, next, e);
    SendingKeepsWake(w, next, e);
    SendingKeepsStop(w, next, e);
  }

  // --- in every run --------------------------------------------------------------

  lemma {:induction false} RunsKeepInv(run: Run, i: nat)
    requires IsRun(run) && i <= |run.actions|
    ensures Inv(run.worlds[i])
  {
    if i > 0 {
      hide Inv, Next;
      RunsKeepInv(run, i - 1);
      ActionsKeepInv(run.worlds[i - 1], run.actions[i - 1]);
    }
  }

  lemma RunSteps(run: Run, k: nat)
    requires IsRun(run) && k < |run.actions|
    ensures |run.worlds| == |run.actions| + 1
    ensures Enabled(run.worlds[k], run.actions[k]) && run.worlds[k + 1] == Next(run.worlds[k], run.actions[k])
  {
    hide Enabled, Next;
    assert run.actions[k] == run.actions[k];
  }

  // --- when a wake disturbs the gate ---------------------------------------------

  /** The wake of an epoch finds the container it should adopt gone, or cannot
      inspect it, and takes the gate away from the epoch it runs. */
  ghost predicate ShutsTheGate(w: World, a: Action, epoch: Epoch) {
    && a.SandboxAdvances? && w.executing.Some?
    && var job := w.executing.value.job;
       && job.request == S.WakeRequest(epoch)
       && (|| (job.point.WakeRefresh? && !S.Refreshed(w.s, a.answer).believed)
           || (job.point.WakeInspect? && !a.answer.Inspected?))
  }

  /** The wake of an epoch begins at a gate that does not run it. */
  ghost predicate OpensTheGate(w: World, a: Action, epoch: Epoch) {
    && a == SandboxBegins(true) && w.executing.None? && |w.queue| > 0
    && w.queue[0].request == S.WakeRequest(epoch) && !S.IsRunningFor(w.s.gate, epoch)
  }

  /** The wake of the epoch moves the gate away from where a stop of it ended. */
  ghost predicate Unsettles(w: World, a: Action, outcome: StopOutcome, epoch: Epoch) {
    if outcome.FailedRunning? || outcome.Busy? then ShutsTheGate(w, a, epoch) else OpensTheGate(w, a, epoch)
  }

  /** What a stop said of the gate was undone by a wake of its epoch, and the gate
      has not been back there since. */
  ghost predicate Undone(run: Run, i: nat, outcome: StopOutcome, epoch: Epoch)
    requires IsRun(run) && i <= |run.actions|
  {
    i > 0 &&
    (|| Unsettles(run.worlds[i - 1], run.actions[i - 1], outcome, epoch)
     || (Undone(run, i - 1, outcome, epoch) && !OutcomeFits(run.worlds[i].s.gate, outcome, epoch)))
  }

  /** The epoch's own wake has shut the gate, which has not run the epoch since. */
  ghost predicate WasShut(run: Run, i: nat, epoch: Epoch)
    requires IsRun(run) && i <= |run.actions|
  {
    i > 0 &&
    (|| ShutsTheGate(run.worlds[i - 1], run.actions[i - 1], epoch)
     || (WasShut(run, i - 1, epoch) && !S.IsRunningFor(run.worlds[i].s.gate, epoch)))
  }

  /** Only the epoch's own wake is in flight. */
  ghost predicate OnlyWakes(w: World, epoch: Epoch) {
    forall call :: InFlight(w, call) ==> call.request == S.WakeRequest(epoch)
  }

  lemma BeginningUnsettles(w: World, a: Action, outcome: StopOutcome, epoch: Epoch)
    requires Inv(w) && Enabled(w, a) && a.SandboxBegins? && OnlyWakes(w, epoch)
    requires OutcomeFits(w.s.gate, outcome, epoch)
    ensures OutcomeFits(Next(w, a).s.gate, outcome, epoch) <==> !Unsettles(w, a, outcome, epoch)
  {
    assert InFlight(w, w.queue[0]);
    hide Inv;
  }

  lemma AdvancingUnsettles(w: World, a: Action, outcome: StopOutcome, epoch: Epoch)
    requires Inv(w) && Enabled(w, a) && a.SandboxAdvances? && OnlyWakes(w, epoch)
    requires OutcomeFits(w.s.gate, outcome, epoch)
    ensures OutcomeFits(Next(w, a).s.gate, outcome, epoch) <==> !Unsettles(w, a, outcome, epoch)
  {
    var executing := w.executing.value;
    assert InFlight(w, Call(executing.seqNo, executing.job.request));
    assert JobFits(w.s.gate, executing.job, w.stopEpoch);
    hide Inv, InFlight, S.AdvanceStop, S.BeginIdle, S.BeginForce;
  }

  /** While nothing but wakes of one epoch is in flight, the gate leaves the place
      a stop of that epoch said it was in exactly when one of them unsettles it. */
  lemma OwnWakesUnsettle(w: World, a: Action, outcome: StopOutcome, epoch: Epoch)
    requires Inv(w) && Enabled(w, a) && OnlyWakes(w, epoch)
    requires OutcomeFits(w.s.gate, outcome, epoch)
    ensures OutcomeFits(Next(w, a).s.gate, outcome, epoch) <==> !Unsettles(w, a, outcome, epoch)
  {
    match a
    case SandboxBegins(_) => BeginningUnsettles(w, a, outcome, epoch);
    case SandboxAdvances(_) => AdvancingUnsettles(w, a, outcome, epoch);
    case _ => hide Inv, R.Next, OutcomeFits, NoteStop;
  }

  /** The gate of an admitted epoch is shut by exactly those steps. */
  lemma AdmittedGatesShutExactlyWhen(w: World, a: Action, epoch: Epoch)
    requires Inv(w) && Enabled(w, a)
    requires w.c.m.state.Some? && Admits(w.c.m.state.value, epoch) && S.IsRunningFor(w.s.gate, epoch)
    ensures S.IsRunningFor(Next(w, a).s.gate, epoch) <==> !ShutsTheGate(w, a, epoch)
  {
    assert OnlyWakes(w, epoch);
    OwnWakesUnsettle(w, a, FailedRunning, epoch);
    hide Inv, Next;
  }

  /** Whatever a wake of the epoch unsettles is no longer as the stop said. */
  lemma UnsettlingMovesTheGate(w: World, a: Action, outcome: StopOutcome, epoch: Epoch)
    requires Inv(w) && Enabled(w, a) && Unsettles(w, a, outcome, epoch)
    ensures !OutcomeFits(Next(w, a).s.gate, outcome, epoch)
  {
    if a.SandboxAdvances? {
      var executing := w.executing.value;
      assert JobFits(w.s.gate, executing.job, w.stopEpoch);
      hide Inv, S.AdvanceStop, S.BeginIdle, S.BeginForce;
    } else {
      hide Inv;
    }
  }

  ghost predicate AdmitsNow(w: World, epoch: Epoch) {
    w.c.m.state.Some? && Admits(w.c.m.state.value, epoch)
  }

  /** The coordinator waits for a stop that has ended with `outcome`. */
  ghost predicate StopHasEnded(w: World, outcome: StopOutcome, epoch: Epoch) {
    var m := w.c.m;
    && w.stopCall.Some? && m.stop.Some? && StopIsCurrent(m, m.stop.value) && EpochOf(m) == Some(epoch)
    && w.stopCall.value in w.replies && w.replies[w.stopCall.value] == S.StopEnded(outcome)
  }

  lemma EndedStopsLeaveWakes(w: World, outcome: StopOutcome, epoch: Epoch)
    requires Inv(w) && StopHasEnded(w, outcome, epoch)
    ensures OnlyWakes(w, epoch)
  {
    hide R.SystemInv, Ordered, StopEpochsFit;
  }

  /** A stop waited for after an action of the coordinator was waited for before. */
  lemma EndedStopsAreNotNew(w: World, t: R.Tick, outcome: StopOutcome, epoch: Epoch)
    requires Inv(w) && Enabled(w, Coordinate(t)) && StopHasEnded(Next(w, Coordinate(t)), outcome, epoch)
    ensures StopHasEnded(w, outcome, epoch)
  {
    hide R.Next, Step;
    var next := R.Next(w.c, t);
    TicksAreLegalMoves(w.c, t);
    StopsAreNoted(w, next, t.event);
    NotingExtends(w, next, t.event);
    hide R.SystemInv, Agreement;
  }

  /** A stop that ends just now leaves the gate where it says. */
  lemma StopsEndAsTheySay(w: World, a: Action, outcome: StopOutcome, epoch: Epoch)
    requires Inv(w) && Enabled(w, a) && !a.Coordinate?
    requires StopHasEnded(Next(w, a), outcome, epoch) && !StopHasEnded(w, outcome, epoch)
    ensures OutcomeFits(Next(w, a).s.gate, outcome, epoch)
  {
    hide S.Begin, S.Advance, OutcomeFits;
    match a
    case SandboxBegins(active) =>
      assert InFlight(w, w.queue[0]);
      BeginIsSound(w.s, w.queue[0].request, active, w.stopEpoch);
    case SandboxAdvances(answer) =>
      var executing := w.executing.value;
      assert InFlight(w, Call(executing.seqNo, executing.job.request));
      AdvanceIsSound(w.s, executing.job, answer, w.stopEpoch);
    case _ =>
  }

  /** One action: an ended stop is right when it ends, and until it is undone. */
  lemma EndedStopsStep(w: World, a: Action, outcome: StopOutcome, epoch: Epoch)
    requires Inv(w) && Enabled(w, a) && StopHasEnded(Next(w, a), outcome, epoch)
    ensures Unsettles(w, a, outcome, epoch) ==> !OutcomeFits(Next(w, a).s.gate, outcome, epoch)
    ensures !Unsettles(w, a, outcome, epoch)
              && (StopHasEnded(w, outcome, epoch) ==> OutcomeFits(w.s.gate, outcome, epoch)) ==>
              OutcomeFits(Next(w, a).s.gate, outcome, epoch)
    ensures !StopHasEnded(w, outcome, epoch) ==> OutcomeFits(Next(w, a).s.gate, outcome, epoch)
  {
    hide Inv, Enabled, Next, StopHasEnded, OutcomeFits, Unsettles;
    if Unsettles(w, a, outcome, epoch) { UnsettlingMovesTheGate(w, a, outcome, epoch); }
    if !StopHasEnded(w, outcome, epoch) {
      if a.Coordinate? { EndedStopsAreNotNew(w, a.tick, outcome, epoch); }
      StopsEndAsTheySay(w, a, outcome, epoch);
    } else if OutcomeFits(w.s.gate, outcome, epoch) {
      EndedStopsLeaveWakes(w, outcome, epoch);
      OwnWakesUnsettle(w, a, outcome, epoch);
    }
  }

  lemma NothingYet(run: Run, outcome: StopOutcome, epoch: Epoch)
    requires IsRun(run)
    ensures !StopHasEnded(run.worlds[0], outcome, epoch) && !AdmitsNow(run.worlds[0], epoch)
  {
    hide Next, Enabled;
  }

  /** While the coordinator has yet to take the outcome of a stop, the gate is as
      it says exactly if no wake of the epoch has undone it. */
  lemma {:induction false} EndedStopsFit(run: Run, i: nat, outcome: StopOutcome, epoch: Epoch)
    requires IsRun(run) && i <= |run.actions| && StopHasEnded(run.worlds[i], outcome, epoch)
    ensures OutcomeFits(run.worlds[i].s.gate, outcome, epoch) <==> !Undone(run, i, outcome, epoch)
  {
    hide IsRun, Inv, Enabled, Next, StopHasEnded, OutcomeFits, Unsettles;
    if i == 0 {
      NothingYet(run, outcome, epoch);
    } else {
      RunsKeepInv(run, i - 1);
      RunSteps(run, i - 1);
      EndedStopsStep(run.worlds[i - 1], run.actions[i - 1], outcome, epoch);
      if StopHasEnded(run.worlds[i - 1], outcome, epoch) {
        EndedStopsFit(run, i - 1, outcome, epoch);
      }
    }
  }

  /** A stop that reopens the gate is undone by what shuts it. */
  lemma {:induction false} ReopeningIsUndoneByShutting(run: Run, i: nat, outcome: StopOutcome, epoch: Epoch)
    requires IsRun(run) && i <= |run.actions| && (outcome.FailedRunning? || outcome.Busy?)
    ensures Undone(run, i, outcome, epoch) <==> WasShut(run, i, epoch)
  {
    hide IsRun, ShutsTheGate;
    if i > 0 {
      ReopeningIsUndoneByShutting(run, i - 1, outcome, epoch);
    }
  }

  /** Admission opens on a reply that says the gate runs the epoch. */
  ghost predicate OpensOn(w: World, epoch: Epoch) {
    || S.IsRunningFor(w.s.gate, epoch)
    || (exists outcome: StopOutcome :: (outcome.FailedRunning? || outcome.Busy?) && StopHasEnded(w, outcome, epoch))
  }

  lemma AdmissionOpensOnReplies(w: World, t: R.Tick, epoch: Epoch)
    requires Inv(w) && Enabled(w, Coordinate(t)) && !AdmitsNow(w, epoch) && AdmitsNow(Next(w, Coordinate(t)), epoch)
    ensures OpensOn(w, epoch)
  {
    hide R.Next, Step, Ordered, StopEpochsFit;
    TicksAreLegalMoves(w.c, t);
    hide R.SystemInv;
    if t.event.EStopReply? {
      assert StopHasEnded(w, t.event.stopAnswer.value, epoch);
    }
  }

  lemma AdmissionLeavesWakes(w: World, epoch: Epoch)
    requires Inv(w) && AdmitsNow(w, epoch)
    ensures OnlyWakes(w, epoch)
    ensures epoch !in w.overtaken ==> w.executing.None? && w.queue == []
  {
    if w.executing.Some? {
      assert InFlight(w, Call(w.executing.value.seqNo, w.executing.value.job.request));
    }
    if |w.queue| > 0 {
      assert InFlight(w, w.queue[0]);
    }
    hide R.SystemInv, Ordered, StopEpochsFit;
  }

  /** Whatever crashes or gets lost: while the coordinator admits an epoch, the
      gate runs exactly that epoch unless the epoch's own wake has shut it and it
      has not reopened since. Nothing but such a wake is in flight; and unless it
      was overtaken there is none. */
  lemma AdmittedEpochsRun(run: Run, i: nat, epoch: Epoch)
    requires IsRun(run) && i <= |run.actions| && AdmitsNow(run.worlds[i], epoch)
    ensures S.IsRunningFor(run.worlds[i].s.gate, epoch) <==> !WasShut(run, i, epoch)
    ensures OnlyWakes(run.worlds[i], epoch)
    ensures epoch !in run.worlds[i].overtaken ==>
              !WasShut(run, i, epoch) && run.worlds[i].executing.None? && run.worlds[i].queue == []
  {
    RunsKeepInv(run, i);
    AdmissionLeavesWakes(run.worlds[i], epoch);
    AdmittedGatesAgree(run, i, epoch);
    hide IsRun, OnlyWakes, R.SystemInv, Ordered, StopEpochsFit, Named;
  }

  /** One action: a gate that is shut is closed, and only that closes it. */
  lemma AdmittedGatesStep(w: World, a: Action, epoch: Epoch)
    requires Inv(w) && Enabled(w, a) && AdmitsNow(Next(w, a), epoch)
    ensures ShutsTheGate(w, a, epoch) ==> !S.IsRunningFor(Next(w, a).s.gate, epoch)
    ensures S.IsRunningFor(w.s.gate, epoch) && !ShutsTheGate(w, a, epoch) ==> S.IsRunningFor(Next(w, a).s.gate, epoch)
    ensures !AdmitsNow(w, epoch) ==> !ShutsTheGate(w, a, epoch) && OpensOn(w, epoch)
  {
    hide Inv, Enabled, Next, ShutsTheGate, OpensOn;
    if ShutsTheGate(w, a, epoch) { UnsettlingMovesTheGate(w, a, FailedRunning, epoch); }
    if AdmitsNow(w, epoch) {
      if S.IsRunningFor(w.s.gate, epoch) { AdmittedGatesShutExactlyWhen(w, a, epoch); }
    } else {
      OtherActionsAdmitNothing(w, a, epoch);
      AdmissionOpensOnReplies(w, a.tick, epoch);
    }
  }

  lemma OtherActionsAdmitNothing(w: World, a: Action, epoch: Epoch)
    requires Enabled(w, a)
    ensures !a.Coordinate? ==> Next(w, a).c == w.c
    ensures a.Coordinate? ==> Next(w, a).s == w.s && !ShutsTheGate(w, a, epoch)
  {
    hide R.Next, S.Begin, S.Advance, NoteStop;
  }

  lemma OpeningGatesAgree(run: Run, i: nat, epoch: Epoch)
    requires IsRun(run) && i <= |run.actions|
    requires OpensOn(run.worlds[i], epoch) && !S.IsRunningFor(run.worlds[i].s.gate, epoch)
    ensures WasShut(run, i, epoch)
  {
    var outcome: StopOutcome :| (outcome.FailedRunning? || outcome.Busy?)
      && StopHasEnded(run.worlds[i], outcome, epoch);
    hide IsRun, StopHasEnded, Undone, WasShut;
    EndedStopsFit(run, i, outcome, epoch);
    ReopeningIsUndoneByShutting(run, i, outcome, epoch);
  }

  lemma {:induction false} AdmittedGatesAgree(run: Run, i: nat, epoch: Epoch)
    requires IsRun(run) && i <= |run.actions| && AdmitsNow(run.worlds[i], epoch)
    ensures S.IsRunningFor(run.worlds[i].s.gate, epoch) <==> !WasShut(run, i, epoch)
  {
    hide IsRun, Inv, Enabled, Next, AdmitsNow, ShutsTheGate, OpensOn, S.IsRunningFor;
    if i == 0 {
      NothingYet(run, FailedRunning, epoch);
    } else {
      RunsKeepInv(run, i - 1);
      RunSteps(run, i - 1);
      var w := run.worlds[i - 1];
      AdmittedGatesStep(w, run.actions[i - 1], epoch);
      if AdmitsNow(w, epoch) {
        AdmittedGatesAgree(run, i - 1, epoch);
      } else if !S.IsRunningFor(w.s.gate, epoch) {
        OpeningGatesAgree(run, i - 1, epoch);
      }
    }
  }

  /** A wake request leaves only while it is what the stored state asks for. */
  ghost predicate SendsCurrent(w: World, a: Action) {
    a.Coordinate? && SendsWake(w.c.m, R.Next(w.c, a.tick).m) ==> WakeIsCurrent(w.c.m, w.c.m.wake.value)
  }

  lemma {:induction false} CheckedWakesAreNotOvertaken(run: Run, i: nat)
    requires IsRun(run) && i <= |run.actions|
    requires forall k {:trigger run.actions[k]} | 0 <= k < i :: SendsCurrent(run.worlds[k], run.actions[k])
    ensures run.worlds[i].overtaken == {}
  {
    if i > 0 {
      hide R.Next, S.Begin, S.Advance, Deliverable, NoteStop;
      CheckedWakesAreNotOvertaken(run, i - 1);
      assert SendsCurrent(run.worlds[i - 1], run.actions[i - 1]);
    }
  }

  /** If wakes looked again before they are sent, every admitted epoch would be
      the one the gate runs, in every reachable state. */
  lemma CheckedWakesMakeAdmissionSafe(run: Run, i: nat, epoch: Epoch)
    requires IsRun(run) && i <= |run.actions|
    requires forall k {:trigger run.actions[k]} | 0 <= k < i :: SendsCurrent(run.worlds[k], run.actions[k])
    requires AdmitsNow(run.worlds[i], epoch)
    ensures S.IsRunningFor(run.worlds[i].s.gate, epoch)
  {
    hide IsRun, Inv, SendsCurrent, Admits;
    CheckedWakesAreNotOvertaken(run, i);
    AdmittedEpochsRun(run, i, epoch);
  }

  /** A stop outcome the coordinator takes is what the gate says at that moment --
      asleep after a stop, stopping while termination is pending, running the epoch
      again after a busy or failed one -- unless a wake of the epoch has undone it. */
  lemma TakenOutcomesMatchTheGate(run: Run, i: nat, t: R.Tick, outcome: StopOutcome, epoch: Epoch)
    requires IsRun(run) && i < |run.actions| && run.actions[i] == Coordinate(t)
    requires t.event == EStopReply(Ok(outcome))
    requires var m := run.worlds[i].c.m;
             m.stop.Some? && StopIsCurrent(m, m.stop.value) && m.stop.value.epoch == Some(epoch)
    ensures OutcomeFits(run.worlds[i].s.gate, outcome, epoch) <==> !Undone(run, i, outcome, epoch)
    ensures epoch !in run.worlds[i].overtaken ==> !Undone(run, i, outcome, epoch)
  {
    RunsKeepInv(run, i);
    RunSteps(run, i);
    assert Deliverable(run.worlds[i], t.event);
    assert StopHasEnded(run.worlds[i], outcome, epoch);
    EndedStopsFit(run, i, outcome, epoch);
    hide IsRun, R.SystemInv, Ordered, Named;
  }

  /** The coordinator takes a wake's success only when the gate runs that epoch. */
  lemma TakenWakesMatchTheGate(run: Run, i: nat, t: R.Tick, snapshot: Snapshot)
    requires IsRun(run) && i < |run.actions| && run.actions[i] == Coordinate(t)
    requires t.event == EWakeReply(Ok(snapshot))
    requires var m := run.worlds[i].c.m; m.wake.Some? && WakeIsCurrent(m, m.wake.value)
    ensures S.IsRunningFor(run.worlds[i].s.gate, run.worlds[i].c.m.wake.value.epoch)
  {
    RunsKeepInv(run, i);
  }
}
