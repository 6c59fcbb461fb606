/** What the queue keeps: order, no loss, no double delivery but of the head, and
    an alarm for whatever still waits. */
module SessionSafety {
  import opened Wrappers
  import opened SessionSteps

  // --- what the container has taken ----------------------------------------------

  /** Adjacent repeats count once. */
  function Collapse<T(==)>(s: seq<T>): seq<T> {
    if s == [] then []
    else
      var front, last := s[..|s| - 1], s[|s| - 1];
      if front != [] && front[|front| - 1] == last then Collapse(front) else Collapse(front) + [last]
  }

  lemma {:induction false} CollapseEndsAlike<T>(s: seq<T>)
    requires s != []
    ensures Collapse(s) != [] && Collapse(s)[|Collapse(s)| - 1] == s[|s| - 1]
  {
    var front := s[..|s| - 1];
    if front != [] && front[|front| - 1] == s[|s| - 1] {
      CollapseEndsAlike(front);
    }
  }

  lemma CollapseOneMore<T>(s: seq<T>, x: T)
    ensures Collapse(s + [x]) ==
            if s != [] && Collapse(s) != [] && Collapse(s)[|Collapse(s)| - 1] == x then Collapse(s)
              else Collapse(s) + [x]
  {
    assert (s + [x])[..|s|] == s;
    if s != [] {
      CollapseEndsAlike(s);
    }
  }

  // --- the queue ---------------------------------------------------------------------

  function Ids(prompts: seq<Prompt>): seq<PromptId> {
    seq(|prompts|, i requires 0 <= i < |prompts| => prompts[i].id)
  }

  ghost predicate Distinct(prompts: seq<Prompt>) {
    forall i, j | 0 <= i < j < |prompts| :: prompts[i].id != prompts[j].id
  }

  lemma {:induction false} WithoutAbsent(pending: seq<Prompt>, id: PromptId)
    requires !IsQueued(pending, id)
    ensures Without(pending, id) == pending
  {
    if pending != [] {
      assert pending[0].id != id;
      assert forall i | 0 <= i < |pending[1..]| :: pending[1..][i] == pending[i + 1];
      WithoutAbsent(pending[1..], id);
    }
  }

  /** With distinct identifiers, dropping the head's drops the head. */
  lemma WithoutHead(pending: seq<Prompt>)
    requires pending != [] && Distinct(pending)
    ensures Without(pending, pending[0].id) == pending[1..]
  {
    assert forall i | 0 <= i < |pending[1..]| :: pending[1..][i] == pending[i + 1];
    WithoutAbsent(pending[1..], pending[0].id);
  }

  /** Nothing is lost or reordered: what is recorded followed by what is pending
      is what was queued, and the newest recorded identifiers are remembered. */
  ghost predicate QueueKept(w: World) {
    w.state.Some? ==>
      var a := w.state.value;
      && w.queued == w.recorded + a.pending
      && a.delivered == LastOf(Ids(w.recorded), MAX_DELIVERED_PROMPT_IDS)
      && Distinct(a.pending)
      && (forall i | 0 <= i < |a.pending| :: a.pending[i].id !in a.delivered)
  }

  /** The container has taken what is recorded, and perhaps the head besides. */
  ghost predicate TakenFits(w: World) {
    w.state.Some? ==>
      var a := w.state.value;
      || Collapse(w.accepted) == w.recorded
      || (a.pending != [] && Collapse(w.accepted) == w.recorded + [a.pending[0]])
  }

  ghost predicate DispatchFits(w: World) {
    w.state.Some? && w.advance.Some? ==>
      var a, point := w.state.value, w.advance.value;
      && (point.Delivering? || point.Accepted? ==> a.pending != [] && a.pending[0] == point.prompt)
      && (point.Accepted? ==> Collapse(w.accepted) == w.recorded + [a.pending[0]])
  }

  ghost predicate StartFits(w: World) {
    && (w.state.Some? ==> w.started)
    && (!w.started ==> w.advance.None? && w.accepted == [] && w.recorded == [] && w.queued == [])
    && (!w.loaded ==> w.advance.None? && w.arming == 0 && w.retrying == 0 && w.losing == 0)
  }

  // --- the ladder and the alarm ---------------------------------------------------------

  ghost predicate LadderFits(w: World) {
    w.state.Some? ==>
      var a := w.state.value;
      && a.attempt <= RETRIES + 1
      && (a.attempt == RETRIES + 1 ==> a.phase.Failed? && w.advance.None?)
      && (a.phase.Failed? ==> w.advance.None?)
      && (w.advance.Some? && w.advance.value.BackingOff? ==> w.advance.value.delay in {5_000, 20_000, 60_000})
  }

  /** Somebody will see to the alarm. */
  ghost predicate BeingSeenTo(w: World) {
    w.alarm.Some? || w.arming > 0 || w.retrying > 0 || w.losing > 0 || !w.loaded || w.muted
  }

  ghost predicate AlarmFits(w: World) {
    w.state.Some? ==>
      && (AtPoint(w, Ending) && w.state.value.pending != [] ==> w.alarm.Some? || w.arming > 0 || w.muted)
      && (w.advance.None? && NeedsDispatch(w.state.value) ==> BeingSeenTo(w))
  }

  ghost predicate Inv(w: World) {
    QueueKept(w) && TakenFits(w) && DispatchFits(w) && StartFits(w) && LadderFits(w) && AlarmFits(w)
  }

  lemma QueueingKeepsQueue(w: World, prompt: Prompt, now: int)
    requires QueueKept(w) && StartFits(w)
    ensures Enabled(w, QueuePrompt(prompt), now) ==> QueueKept(Step(w, QueuePrompt(prompt), now))
    ensures Enabled(w, Start(prompt), now) ==> QueueKept(Step(w, Start(prompt), now))
  {
    hide LastOf;
    if w.state.Some? && !IsResend(w.state.value, prompt.id) {
      assert w.recorded + w.state.value.pending + [prompt] == w.recorded + (w.state.value.pending + [prompt]);
    }
    assert Ids([]) == [] && [] + [prompt] == [prompt];
    StartsEmpty();
  }

  lemma StartsEmpty()
    ensures LastOf<PromptId>([], MAX_DELIVERED_PROMPT_IDS) == []
  {}

  lemma DeliveredIsRemembered(recorded: seq<Prompt>, prompt: Prompt)
    ensures LastOf(LastOf(Ids(recorded), MAX_DELIVERED_PROMPT_IDS) + [prompt.id], MAX_DELIVERED_PROMPT_IDS) ==
            LastOf(Ids(recorded + [prompt]), MAX_DELIVERED_PROMPT_IDS)
  {
    assert Ids(recorded + [prompt]) == Ids(recorded) + [prompt.id];
  }

  lemma OnlyTheNewest(delivered: seq<PromptId>, id: PromptId)
    ensures forall x | x in LastOf(delivered + [id], MAX_DELIVERED_PROMPT_IDS) :: x in delivered || x == id
  {}

  /** The head moves from the queue to the record. */
  lemma RecordingKeepsQueue(w: World, now: int)
    requires QueueKept(w) && DispatchFits(w) && Enabled(w, Records, now) && w.state.Some?
    ensures var r := Step(w, Records, now);
            && QueueKept(r) && r.state.Some? && r.recorded == w.recorded + [w.state.value.pending[0]]
            && r.state.value.pending == w.state.value.pending[1..]
  {
    var a, prompt := w.state.value, w.advance.value.prompt;
    WithoutHead(a.pending);
    DeliveredIsRemembered(w.recorded, prompt);
    OnlyTheNewest(a.delivered, prompt.id);
    assert a.pending == [prompt] + a.pending[1..];
    ConcatAssociates(w.recorded, [prompt], a.pending[1..]);
    hide LastOf, Ids, Without;
  }

  lemma StepKeepsQueue(w: World, e: Event, now: int)
    requires Inv(w) && Enabled(w, e, now)
    ensures QueueKept(Step(w, e, now))
  {
    hide LastOf, Without, Ids, Distinct, IsQueued;
    match e
    case Records =>
      if w.state.Some? { RecordingKeepsQueue(w, now); }
    case Start(prompt) => QueueingKeepsQueue(w, prompt, now);
    case QueuePrompt(prompt) => QueueingKeepsQueue(w, prompt, now);
    case _ =>
  }

  lemma AcceptingKeepsTaken(w: World, now: int)
    requires QueueKept(w) && TakenFits(w) && DispatchFits(w) && Enabled(w, Accepts, now)
    ensures TakenFits(Step(w, Accepts, now)) && DispatchFits(Step(w, Accepts, now))
  {
    CollapseOneMore(w.accepted, w.advance.value.prompt);
    if w.state.Some? && w.recorded != [] {
      LastIsRemembered(w);
    }
    hide Collapse, LastOf, Ids, Distinct;
  }

  lemma StepKeepsTaken(w: World, e: Event, now: int)
    requires Inv(w) && Enabled(w, e, now)
    ensures TakenFits(Step(w, e, now))
  {
    assert Collapse<Prompt>([]) == [];
    hide Collapse, LastOf, Ids, Without, LadderFits, AlarmFits, IsQueued, AfterFailure;
    match e
    case Records =>
      if w.state.Some? { RecordingKeepsQueue(w, now); }
    case Accepts => AcceptingKeepsTaken(w, now);
    case _ => hide QueueKept, DispatchFits;
  }

  lemma StepKeepsDispatch(w: World, e: Event, now: int)
    requires Inv(w) && Enabled(w, e, now)
    ensures DispatchFits(Step(w, e, now))
  {
    hide Collapse, LastOf, Ids, Without, LadderFits, AlarmFits, IsQueued, AfterFailure;
    match e
    case Accepts => AcceptingKeepsTaken(w, now);
    case _ => hide QueueKept, TakenFits;
  }

  lemma LastIsRemembered(w: World)
    requires QueueKept(w) && w.state.Some? && w.recorded != []
    ensures w.recorded[|w.recorded| - 1].id in w.state.value.delivered
  {
    var delivered := w.state.value.delivered;
    assert delivered[|delivered| - 1] == Ids(w.recorded)[|w.recorded| - 1];
  }

  lemma StepKeepsRest(w: World, e: Event, now: int)
    requires Inv(w) && Enabled(w, e, now)
    ensures StartFits(Step(w, e, now)) && LadderFits(Step(w, e, now)) && AlarmFits(Step(w, e, now))
  {
    hide QueueKept, TakenFits, Without, LastOf;
  }

  lemma StepKeepsInv(w: World, e: Event, now: int)
    requires Inv(w) && Enabled(w, e, now)
    ensures Inv(Step(w, e, now))
  {
    hide QueueKept, TakenFits, DispatchFits, StartFits, LadderFits, AlarmFits, Step, Enabled;
    StepKeepsQueue(w, e, now);
    StepKeepsTaken(w, e, now);
    StepKeepsDispatch(w, e, now);
    StepKeepsRest(w, e, now);
  }

  lemma {:induction false} RunsKeepInv(run: Run, i: nat)
    requires IsRun(run) && i <= |run.ticks|
    ensures Inv(run.worlds[i])
  {
    if i > 0 {
      hide Inv, Step, Enabled;
      RunsKeepInv(run, i - 1);
      StepKeepsInv(run.worlds[i - 1], run.ticks[i - 1].event, run.ticks[i - 1].at);
    }
  }

  lemma RunSteps(run: Run, k: nat)
    requires IsRun(run) && k < |run.ticks|
    ensures |run.worlds| == |run.ticks| + 1
    ensures Enabled(run.worlds[k], run.ticks[k].event, run.ticks[k].at)
    ensures run.worlds[k + 1] == Step(run.worlds[k], run.ticks[k].event, run.ticks[k].at)
  {
    hide Enabled, Step;
    assert run.ticks[k] == run.ticks[k];
  }

  // --- delivery -------------------------------------------------------------------------

  /** Whatever fails, is evicted or is sent again: the prompts the container has
      taken, adjacent repeats counted once, followed by the pending ones are the
      prompts queued, in their order; only the head can have been taken already. */
  lemma PromptsArriveInOrder(run: Run, i: nat)
    requires IsRun(run) && i <= |run.ticks| && run.worlds[i].state.Some?
    ensures var w := run.worlds[i];
            var taken, pending := Collapse(w.accepted), w.state.value.pending;
            || w.queued == taken + pending
            || (pending != [] && taken != [] && taken[|taken| - 1] == pending[0] && w.queued == taken + pending[1..])
  {
    RunsKeepInv(run, i);
    var w := run.worlds[i];
    var pending := w.state.value.pending;
    if pending != [] {
      assert w.recorded + pending == w.recorded + [pending[0]] + pending[1..];
    }
  }

  /** Pending identifiers are distinct and none is among the remembered ones, of
      which there are at most 50. */
  lemma PendingIsNew(run: Run, i: nat)
    requires IsRun(run) && i <= |run.ticks| && run.worlds[i].state.Some?
    ensures var a := run.worlds[i].state.value;
            && Distinct(a.pending) && |a.delivered| <= MAX_DELIVERED_PROMPT_IDS
            && (forall k | 0 <= k < |a.pending| :: a.pending[k].id !in a.delivered)
  {
    RunsKeepInv(run, i);
  }

  ghost predicate FarApart(queued: seq<Prompt>) {
    forall j, k | 0 <= j < k < |queued| && queued[j].id == queued[k].id :: k - j > MAX_DELIVERED_PROMPT_IDS
  }

  lemma NewPromptsAreFarApart(w: World, prompt: Prompt)
    requires QueueKept(w) && FarApart(w.queued) && w.state.Some? && !IsResend(w.state.value, prompt.id)
    ensures FarApart(w.queued + [prompt])
  {
    var a, n := w.state.value, |w.recorded|;
    forall j | 0 <= j < |w.queued| && n - MAX_DELIVERED_PROMPT_IDS <= j
      ensures w.queued[j].id != prompt.id
    {
      if j >= n {
        assert w.queued[j] == a.pending[j - n];
      } else {
        assert a.delivered[j - (n - |a.delivered|)] == Ids(w.recorded)[j];
      }
    }
  }

  lemma StepKeepsFarApart(w: World, e: Event, now: int)
    requires Inv(w) && Enabled(w, e, now) && FarApart(w.queued)
    ensures FarApart(Step(w, e, now).queued)
  {
    hide LastOf, Without, Ids, Distinct, FarApart;
    match e
    case QueuePrompt(prompt) =>
      if w.state.Some? && !IsResend(w.state.value, prompt.id) {
        NewPromptsAreFarApart(w, prompt);
      }
    case Start(prompt) => OneIsFarApart(prompt);
    case _ =>
  }

  lemma OneIsFarApart(prompt: Prompt)
    ensures FarApart([prompt])
  {}

  /** An identifier sent again is taken for a new prompt only after at least 50
      others were queued in between. */
  lemma {:induction false} ResendsAreDropped(run: Run, i: nat)
    requires IsRun(run) && i <= |run.ticks|
    ensures FarApart(run.worlds[i].queued)
  {
    if i > 0 {
      hide Inv, Step, Enabled, FarApart, IsRun;
      RunSteps(run, i - 1);
      ResendsAreDropped(run, i - 1);
      RunsKeepInv(run, i - 1);
      StepKeepsFarApart(run.worlds[i - 1], run.ticks[i - 1].event, run.ticks[i - 1].at);
    }
  }

  // --- what the calls do -------------------------------------------------------------------

  /** Due for a dispatch from the foot of the ladder. */
  predicate IsDueAfresh(a: Agent) {
    a.phase.Queued? && a.attempt == 0 && a.pending != [] && NeedsDispatch(a)
  }

  /** In every run: a new session is due with its opening prompt. A prompt is queued, at
      the end, exactly if there is a session that is not lost and has not seen it, and
      the session is due afresh then, even one that had failed. A retry makes every
      session due afresh that is not lost and has prompts, and one without them works
      on. Each of these sees to the alarm; a call that is refused changes nothing. */
  lemma CallsMakeSessionsDue(run: Run, i: nat)
    requires IsRun(run) && i < |run.ticks|
    ensures var w, r, e := run.worlds[i], run.worlds[i + 1], run.ticks[i].event;
            && (e.Start? ==>
                  && r.state.Some? && IsDueAfresh(r.state.value) && r.state.value.pending == [e.prompt]
                  && r.arming == w.arming + 1)
            && (e.QueuePrompt? ==>
                  if w.state.Some? && !w.state.value.phase.Lost? && !IsResend(w.state.value, e.prompt.id) then
                    && r.state.Some? && IsDueAfresh(r.state.value)
                    && r.state.value.pending == w.state.value.pending + [e.prompt]
                    && r.queued == w.queued + [e.prompt] && r.arming == w.arming + 1
                  else r == w)
            && (e.Retry? ==>
                  if w.state.Some? && !w.state.value.phase.Lost? then
                    && r.state.Some? && r.state.value.pending == w.state.value.pending
                    && (if r.state.value.pending != [] then IsDueAfresh(r.state.value)
                        else r.state.value.phase.Working? && r.state.value.attempt == 0)
                    && r.retrying == w.retrying + 1
                  else r == w)
  {
    RunSteps(run, i);
    hide IsRun, IsResend;
  }

  /** In every run: the end of a dispatch leaves the session at work at the foot of the
      ladder; an alarm begins one exactly if the session needs it; a dispatch that has
      registered and woken the container goes on to deliver; and a loss that lands, or a
      deletion, ends the session. */
  lemma DispatchesGoOn(run: Run, i: nat)
    requires IsRun(run) && i < |run.ticks|
    ensures var w, r, e := run.worlds[i], run.worlds[i + 1], run.ticks[i].event;
            && (e.AlarmFires? ==>
                  && r.alarm.None? && r.state == w.state
                  && (AtPoint(r, Registering) <==> w.state.Some? && NeedsDispatch(w.state.value)))
            && (e.Registered? ==> AtPoint(r, Waking) && (w.state.Some? ==>
                                    r.state == Some(w.state.value.(registered := true, phase := Starting))))
            && (e.Woken? && w.state.Some? ==>
                  AtPoint(r, Picking) && r.state == Some(w.state.value.(hasSession := true)))
            && (e.Picks? ==>
                  && r.state == w.state
                  && (if w.state.Some? && w.state.value.pending != [] then
                        AtPoint(r, Delivering(w.state.value.pending[0]))
                      else AtPoint(r, Ending)))
            && (e.Accepts? ==> AtPoint(r, Accepted(w.advance.value.prompt))
                               && r.accepted == w.accepted + [w.advance.value.prompt])
            && (e.Records? && w.state.Some? ==> AtPoint(r, Picking))
            && (e.Ends? && w.state.Some? ==>
                  r.advance.None? && r.state == Some(w.state.value.(phase := Working, attempt := 0)))
            && (e.MarkLostLands? && w.state.Some? ==> r.state == Some(w.state.value.(phase := Lost, attempt := 0)))
            && (e.MarkDeleted? ==> r.state.None?)
            && (e.MarkLost? && w.state.Some? && !w.state.value.phase.Lost? ==>
                  r.alarm.None? && r.losing == w.losing + 1)
            && (e.Reloaded? ==>
                  && r.loaded && r.state == w.state
                  && (w.state.Some? && NeedsDispatch(w.state.value) && w.alarm.None? ==>
                     r.alarm == Some(run.ticks[i].at))
                  && (w.alarm.Some? ==> r.alarm == w.alarm))
            && (e.ArmAlarm? && w.state.Some? ==> r.alarm == Some(run.ticks[i].at))
            && (e.RetryArms? && w.state.Some? && NeedsDispatch(w.state.value) ==> r.alarm == Some(run.ticks[i].at))
  {
    RunSteps(run, i);
    hide IsRun, IsResend, Delivered;
  }

  // --- the ladder --------------------------------------------------------------------------

  /** Events that start the ladder over, or end the session. */
  predicate StartsOver(e: Event) {
    e.Start? || e.QueuePrompt? || e.Retry? || e.MarkLost? || e.MarkLostLands? || e.MarkDeleted? || e.Ends?
  }

  function Failures(ticks: seq<Tick>, i: nat, j: nat): nat
    requires i <= j <= |ticks|
  {
    if i == j then 0 else Failures(ticks, i, j - 1) + (if ticks[j - 1].event.Fails? then 1 else 0)
  }

  /** How far up the ladder a session is; the top is a verdict. */
  function Rung(a: Agent): nat {
    if a.phase.Lost? then RETRIES + 1 else a.attempt
  }

  /** Lost, with nothing in flight that could say otherwise. */
  predicate LostForGood(w: World) {
    w.state.Some? && w.state.value.phase.Lost? && w.advance.None?
  }

  ghost predicate Climbing(w: World) {
    w.state.Some? && (w.state.value.phase.Lost? ==> LostForGood(w))
  }

  lemma FailuresClimb(w: World, e: Event, now: int)
    requires Inv(w) && Enabled(w, e, now) && Climbing(w) && !StartsOver(e)
    ensures var r := Step(w, e, now);
            && Climbing(r)
            && Rung(w.state.value) + (if e.Fails? then 1 else 0) <= Rung(r.state.value) <= RETRIES + 1
            && (Rung(r.state.value) == RETRIES + 1 ==> r.state.value.phase.Failed? || r.state.value.phase.Lost?)
            && (!e.Records? ==> r.state.value.pending == w.state.value.pending)
  {
    hide TakenFits, AlarmFits, LastOf, Ids, Without, StartFits, QueueKept;
  }

  /** From any point on: as long as no call and no success starts the ladder over,
      at most four dispatches fail, and the fourth leaves the session failed or
      lost. */
  lemma {:induction false} FourFailuresAtMost(run: Run, i: nat, j: nat)
    requires IsRun(run) && i <= j <= |run.ticks| && Climbing(run.worlds[i])
    requires forall k {:trigger run.ticks[k]} | i <= k < j :: !StartsOver(run.ticks[k].event)
    ensures Climbing(run.worlds[j])
    ensures Rung(run.worlds[i].state.value) + Failures(run.ticks, i, j)
              <= Rung(run.worlds[j].state.value) <= RETRIES + 1
    ensures Failures(run.ticks, i, j) == RETRIES + 1 ==>
              run.worlds[j].state.value.phase.Failed? || run.worlds[j].state.value.phase.Lost?
  {
    hide Step, Enabled, StartsOver;
    RunsKeepInv(run, j);
    if i < j {
      FourFailuresAtMost(run, i, j - 1);
      RunsKeepInv(run, j - 1);
      hide IsRun, Inv;
      RunSteps(run, j - 1);
      FailuresClimb(run.worlds[j - 1], run.ticks[j - 1].event, run.ticks[j - 1].at);
    }
  }

  /** A failed dispatch leaves the queue as it is. The workspace known to be lost is
      a verdict at once; the fourth failure is one, lost if the session is missing
      and failed otherwise; any other comes back, queued, after 5, 20 or 60 seconds. */
  lemma FailuresKeepTheQueue(w: World, failure: Failure, now: int)
    requires Inv(w) && Enabled(w, Fails(failure), now) && w.state.Some?
    ensures var r, before := Step(w, Fails(failure), now), w.state.value;
            && r.state.Some? && r.queued == w.queued
            && var after := r.state.value;
            && after.pending == before.pending && after.delivered == before.delivered
            && (after.phase.Lost? <==> failure.StateLost? || (failure.SessionMissing? && before.attempt == 3))
            && (after.phase.Failed? <==> !failure.StateLost? && !failure.SessionMissing? && before.attempt == 3)
            && (!after.phase.Lost? && !after.phase.Failed? ==>
                  && after.phase.Queued? && after.attempt == before.attempt + 1
                  && (before.attempt == 0 ==> r.advance == Some(BackingOff(5_000)))
                  && (before.attempt == 1 ==> r.advance == Some(BackingOff(20_000)))
                  && (before.attempt == 2 ==> r.advance == Some(BackingOff(60_000))))
            && (after.phase.Lost? || after.phase.Failed? ==> r.advance.None?)
  {
    hide TakenFits, AlarmFits, Ids, StartFits, QueueKept;
  }

  /** A session on its way up, `n` failures after its ladder began. */
  ghost predicate OnRung(w: World, n: nat) {
    && w.state.Some? && n <= 4
    && var a := w.state.value;
    && (n < 4 ==> a.attempt == n && !a.phase.Failed? && !a.phase.Lost?)
    && (n == 4 ==> w.advance.None? && ((a.phase.Failed? && a.attempt == 4) || a.phase.Lost?))
  }

  lemma EventsClimbOneByOne(w: World, e: Event, n: nat, now: int)
    requires Inv(w) && Enabled(w, e, now) && OnRung(w, n) && !StartsOver(e) && e != Fails(StateLost)
    ensures OnRung(Step(w, e, now), if e.Fails? then n + 1 else n)
  {
    hide TakenFits, AlarmFits, LastOf, Ids, Without, StartFits, QueueKept;
  }

  /** In every run, from a session with a fresh ladder on, as long as nothing starts
      it over and its workspace is not known to be lost: it counts its failures, and
      the verdict falls with the fourth, neither sooner nor later. */
  lemma {:induction false} TheFourthFailureIsTheVerdict(run: Run, i: nat, j: nat)
    requires IsRun(run) && i <= j <= |run.ticks| && OnRung(run.worlds[i], 0)
    requires forall k {:trigger run.ticks[k]} | i <= k < j ::
               !StartsOver(run.ticks[k].event) && run.ticks[k].event != Fails(StateLost)
    ensures OnRung(run.worlds[j], Failures(run.ticks, i, j))
    ensures var a := run.worlds[j].state.value;
            a.phase.Failed? || a.phase.Lost? <==> Failures(run.ticks, i, j) == 4
  {
    hide Step, Enabled, StartsOver;
    if i < j {
      TheFourthFailureIsTheVerdict(run, i, j - 1);
      RunsKeepInv(run, j - 1);
      RunSteps(run, j - 1);
      hide IsRun, Inv;
      EventsClimbOneByOne(run.worlds[j - 1], run.ticks[j - 1].event, Failures(run.ticks, i, j - 1),
        run.ticks[j - 1].at);
    }
  }

  lemma BackoffsLast(w: World, e: Event, now: int)
    requires Enabled(w, e, now) && w.advance.Some? && w.advance.value.BackingOff? && !e.BacksOff? && !e.Evicted?
    ensures Step(w, e, now).advance == w.advance
  {}

  lemma {:induction false} BackingOffUntil(run: Run, i: nat, j: nat)
    requires IsRun(run) && i <= j <= |run.ticks|
    requires run.worlds[i].advance.Some? && run.worlds[i].advance.value.BackingOff?
    requires forall k {:trigger run.ticks[k]} | i <= k < j ::
               !run.ticks[k].event.BacksOff? && !run.ticks[k].event.Evicted?
    ensures run.worlds[j].advance == run.worlds[i].advance
  {
    if i < j {
      BackingOffUntil(run, i, j - 1);
      RunSteps(run, j - 1);
      BackoffsLast(run.worlds[j - 1], run.ticks[j - 1].event, run.ticks[j - 1].at);
      hide IsRun, Step, Enabled;
    }
  }

  /** In every run: a failure that is no verdict brings the dispatch back. When its
      backoff is stored, whatever calls came meanwhile, the alarm is set 5, 20 or 60
      seconds ahead, unless the object went away before. */
  lemma RetriesComeBack(run: Run, i: nat, j: nat)
    requires IsRun(run) && i < j < |run.ticks| && run.ticks[i].event.Fails? && run.worlds[i].state.Some?
    requires run.worlds[i + 1].advance.Some? && run.ticks[j].event.BacksOff?
    requires forall k {:trigger run.ticks[k]} | i < k < j ::
               !run.ticks[k].event.BacksOff? && !run.ticks[k].event.Evicted?
    ensures var failures := run.worlds[i].state.value.attempt;
            && run.worlds[j + 1].advance.None?
            && (failures == 0 ==> run.worlds[j + 1].alarm == Some(run.ticks[j].at + 5_000))
            && (failures == 1 ==> run.worlds[j + 1].alarm == Some(run.ticks[j].at + 20_000))
            && (failures == 2 ==> run.worlds[j + 1].alarm == Some(run.ticks[j].at + 60_000))
            && failures <= 2
  {
    hide Inv, Step, Enabled, IsRun;
    RunsKeepInv(run, i);
    RunSteps(run, i);
    RunSteps(run, j);
    FailuresKeepTheQueue(run.worlds[i], run.ticks[i].event.failure, run.ticks[i].at);
    LaddersEnd(run.worlds[i], run.ticks[i].event.failure, run.ticks[i].at);
    BackingOffUntil(run, i + 1, j);
    BackoffsSetTheAlarm(run.worlds[j], run.ticks[j].at);
  }

  lemma LaddersEnd(w: World, failure: Failure, now: int)
    requires Inv(w) && Enabled(w, Fails(failure), now) && w.state.Some?
    ensures w.state.value.attempt <= 3
  {
    hide QueueKept, TakenFits, DispatchFits, StartFits, AlarmFits;
  }

  lemma BackoffsSetTheAlarm(w: World, now: int)
    requires Enabled(w, BacksOff, now)
    ensures var r := Step(w, BacksOff, now); r.alarm == Some(now + w.advance.value.delay) && r.advance.None?
  {}

  // --- lost --------------------------------------------------------------------------------

  /** A lost session stays lost until it is deleted, when nothing is in flight. */
  lemma {:induction false} LostIsFinal(run: Run, i: nat, j: nat)
    requires IsRun(run) && i <= j <= |run.ticks| && LostForGood(run.worlds[i])
    requires forall k {:trigger run.ticks[k]} | i <= k < j :: !run.ticks[k].event.MarkDeleted?
    ensures LostForGood(run.worlds[j]) && run.worlds[j].queued == run.worlds[i].queued
    ensures run.worlds[j].accepted == run.worlds[i].accepted
  {
    if i < j {
      LostIsFinal(run, i, j - 1);
      RunsKeepInv(run, j - 1);
      RunSteps(run, j - 1);
      LostStays(run.worlds[j - 1], run.ticks[j - 1].event, run.ticks[j - 1].at);
      hide IsRun, Inv, Step, Enabled;
    }
  }

  lemma LostStays(w: World, e: Event, now: int)
    requires Inv(w) && Enabled(w, e, now) && LostForGood(w) && !e.MarkDeleted?
    ensures LostForGood(Step(w, e, now)) && Step(w, e, now).queued == w.queued && Step(w, e, now).accepted == w.accepted
  {
    hide TakenFits, AlarmFits, LastOf, Ids, Without, QueueKept, LadderFits;
  }

  // --- no lost wake-up -------------------------------------------------------------------------

  /** Prompts wait in a session that is neither failed nor lost, and nothing is
      left that would dispatch them. */
  predicate Forgotten(w: World) {
    && w.loaded && w.state.Some? && NeedsDispatch(w.state.value)
    && w.alarm.None? && w.advance.None? && w.arming == w.retrying == w.losing == 0
  }

  /** A dispatch ends beside a prompt it has not seen, with no alarm set and no
      call at work. */
  predicate DropsThePrompts(w: World, e: Event) {
    && e.Ends? && w.loaded && w.state.Some? && w.state.value.pending != []
    && w.alarm.None? && w.arming == w.retrying == w.losing == 0
  }

  /** A call that changes the session, or its object going away. */
  predicate Rouses(w: World, e: Event) {
    || e.Retry? || e.MarkLost? || e.MarkDeleted? || e.Evicted?
    || (e.QueuePrompt? && w.state.Some? && !IsResend(w.state.value, e.prompt.id))
  }

  /** Prompts were dropped, and nothing has roused the session since. */
  ghost predicate WereDropped(run: Run, i: nat)
    requires IsRun(run) && i <= |run.ticks|
  {
    i > 0 &&
    (|| DropsThePrompts(run.worlds[i - 1], run.ticks[i - 1].event)
     || (WereDropped(run, i - 1) && !Rouses(run.worlds[i - 1], run.ticks[i - 1].event)))
  }

  /** One event: forgetting begins at those ends of a dispatch and lasts until the
      session is roused. */
  lemma PromptsAreForgottenExactlyWhenDropped(w: World, e: Event, now: int)
    requires Inv(w) && Enabled(w, e, now)
    ensures Forgotten(Step(w, e, now)) <==> DropsThePrompts(w, e) || (Forgotten(w) && !Rouses(w, e))
  {
    hide QueueKept, TakenFits, DispatchFits, LadderFits, LastOf, Ids, Without, IsResend;
  }

  /** In every run prompts are forgotten exactly if the end of a dispatch dropped
      them and nothing has roused the session since. */
  lemma {:induction false} RunsForgetExactlyWhenDropped(run: Run, i: nat)
    requires IsRun(run) && i <= |run.ticks|
    ensures Forgotten(run.worlds[i]) <==> WereDropped(run, i)
  {
    if i > 0 {
      hide IsRun, Inv, Step, Enabled, Forgotten, DropsThePrompts, Rouses;
      RunSteps(run, i - 1);
      RunsForgetExactlyWhenDropped(run, i - 1);
      RunsKeepInv(run, i - 1);
      PromptsAreForgottenExactlyWhenDropped(run.worlds[i - 1], run.ticks[i - 1].event, run.ticks[i - 1].at);
    }
  }

  /** While prompts wait and neither verdict has fallen, an alarm is set, a
      dispatch is in flight, or a call or a reload that will set one is still at
      work, exactly if the prompts were not dropped. They never are but for a loss
      that was reported during a dispatch. */
  lemma WaitingPromptsAreSeenTo(run: Run, i: nat)
    requires IsRun(run) && i <= |run.ticks| && run.worlds[i].state.Some? && NeedsDispatch(run.worlds[i].state.value)
    ensures var w := run.worlds[i];
            (w.alarm.Some? || w.advance.Some? || w.arming > 0 || w.retrying > 0 || w.losing > 0 || !w.loaded)
            <==> !WereDropped(run, i)
    ensures !run.worlds[i].muted ==> !WereDropped(run, i)
  {
    RunsForgetExactlyWhenDropped(run, i);
    RunsKeepInv(run, i);
    hide IsRun, QueueKept, TakenFits, DispatchFits, LadderFits, WereDropped;
  }
}
