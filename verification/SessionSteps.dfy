/** The session agent between two yields: a durable queue of prompts, the alarm
    that dispatches it, and the calls that change both. `queuePrompt` and
    `register` are each one step here: nothing runs between their read of the
    state and their write. */
module SessionSteps {
  import opened Wrappers

  type PromptId = nat

  datatype Prompt = Prompt(id: PromptId, text: string)

  datatype Phase = Queued | Starting | Working | Failed | Lost

  datatype Agent = Agent(
    phase: Phase,
    pending: seq<Prompt>,
    delivered: seq<PromptId>,
    attempt: nat,
    hasSession: bool,
    registered: bool)

  /** Where the dispatch in flight is suspended. */
  datatype Point =
    | Registering | Waking | Picking | Delivering(prompt: Prompt) | Accepted(prompt: Prompt) | Ending
    | BackingOff(delay: int)

  /** Why a dispatch failed: the workspace is known to be lost, the container
      does not know the session, or anything else. */
  datatype Failure = StateLost | SessionMissing | OtherFailure

  /** `arming`, `retrying` and `losing` count the calls that have written the
      state and have yet to see to the alarm, or the other way round. `accepted`
      is what the container has taken. `queued`, `recorded` and `muted` only
      observe: every prompt ever queued, those the agent knows to be delivered,
      and whether a loss was reported during a dispatch since the alarm was last
      set. */
  datatype World = World(
    state: Option<Agent>,
    alarm: Option<int>,
    advance: Option<Point>,
    arming: nat,
    retrying: nat,
    losing: nat,
    loaded: bool,
    started: bool,
    accepted: seq<Prompt>,
    queued: seq<Prompt>,
    recorded: seq<Prompt>,
    muted: bool)

  const Fresh := World(None, None, None, 0, 0, 0, true, false, [], [], [], false)

  const MAX_DELIVERED_PROMPT_IDS := 50
  const RETRIES := 3

  function RetryBackoff(attempt: nat): int
    requires 1 <= attempt <= RETRIES
  {
    if attempt == 1 then 5_000 else if attempt == 2 then 20_000 else 60_000
  }

  predicate NeedsDispatch(a: Agent) {
    a.pending != [] && !a.phase.Failed? && !a.phase.Lost?
  }

  predicate IsQueued(pending: seq<Prompt>, id: PromptId) {
    exists i | 0 <= i < |pending| :: pending[i].id == id
  }

  function Without(pending: seq<Prompt>, id: PromptId): seq<Prompt> {
    if pending == [] then []
    else (if pending[0].id == id then [] else [pending[0]]) + Without(pending[1..], id)
  }

  function LastOf<T>(s: seq<T>, n: nat): seq<T> {
    if |s| <= n then s else s[|s| - n..]
  }

  // --- the calls -------------------------------------------------------------

  function Opened(prompt: Prompt): Agent {
    Agent(Queued, [prompt], [], 0, false, false)
  }

  /** A known identifier is the same prompt again, wherever it is by now. */
  predicate IsResend(a: Agent, id: PromptId) {
    IsQueued(a.pending, id) || id in a.delivered
  }

  function WithPrompt(a: Agent, prompt: Prompt): Agent {
    a.(pending := a.pending + [prompt], phase := Queued, attempt := 0)
  }

  function Retried(a: Agent): Agent {
    a.(phase := if a.pending != [] then Queued else Working, attempt := 0)
  }

  function Delivered(a: Agent, prompt: Prompt): Agent {
    a.(pending := Without(a.pending, prompt.id),
      delivered := LastOf(a.delivered + [prompt.id], MAX_DELIVERED_PROMPT_IDS))
  }

  /** What a failed dispatch leaves: lost at once when that is certain, lost at
      the end of the ladder when it is likely, else one more attempt or none. */
  function AfterFailure(a: Agent, failure: Failure): Agent {
    var attempt := a.attempt + 1;
    var exhausted := attempt > RETRIES;
    if failure.StateLost? || (exhausted && failure.SessionMissing?) then a.(phase := Lost, attempt := 0)
    else a.(phase := if exhausted then Phase.Failed else Queued, attempt := attempt)
  }

  // --- events ---------------------------------------------------------------

  datatype Event =
    | Start(prompt: Prompt)
    | QueuePrompt(prompt: Prompt)
    | ArmAlarm
    | Retry
    | RetryArms
    | MarkLost
    | MarkLostLands
    | MarkDeleted
    | AlarmFires
    | Registered
    | Woken
    | Picks
    | Accepts
    | Records
    | Ends
    | Fails(failure: Failure)
    | BacksOff
    | Evicted
    | Reloaded

  predicate AtPoint(w: World, point: Point) {
    w.advance == Some(point)
  }

  predicate Enabled(w: World, e: Event, now: int) {
    if !w.loaded then e.Reloaded?
    else
      match e
      case Start(_) => !w.started
      case ArmAlarm => w.arming > 0
      case RetryArms => w.retrying > 0
      case MarkLostLands => w.losing > 0
      case AlarmFires => w.alarm.Some? && w.alarm.value <= now && w.advance.None?
      case Registered => AtPoint(w, Registering)
      case Woken => AtPoint(w, Waking)
      case Picks => AtPoint(w, Picking)
      case Accepts => w.advance.Some? && w.advance.value.Delivering?
      case Records => w.advance.Some? && w.advance.value.Accepted?
      case Ends => AtPoint(w, Ending)
      case Fails(failure) =>
        && w.advance.Some? && !w.advance.value.BackingOff?
        && (failure.StateLost? ==> w.advance.value.Waking? && w.state.Some? && w.state.value.hasSession)
      case BacksOff => w.advance.Some? && w.advance.value.BackingOff?
      case Reloaded => false
      case _ => true
  }

  function Armed(w: World, at: int): World {
    w.(alarm := Some(at), muted := false)
  }

  function Step(w: World, e: Event, now: int): World
    requires Enabled(w, e, now)
  {
    match e
    case Start(prompt) =>
      w.(state := Some(Opened(prompt)), started := true, arming := w.arming + 1, queued := [prompt])
    case QueuePrompt(prompt) =>
      if w.state.None? || w.state.value.phase.Lost? || IsResend(w.state.value, prompt.id) then w
      else w.(state := Some(WithPrompt(w.state.value, prompt)), arming := w.arming + 1, queued := w.queued + [prompt])
    case ArmAlarm =>
      var done := w.(arming := w.arming - 1);
      if w.state.None? then done else Armed(done, now)
    case Retry =>
      if w.state.None? || w.state.value.phase.Lost? then w
      else w.(state := Some(Retried(w.state.value)), retrying := w.retrying + 1)
    case RetryArms =>
      var done := w.(retrying := w.retrying - 1);
      if w.state.None? || !NeedsDispatch(w.state.value) then done else Armed(done, now)
    case MarkLost =>
      if w.state.None? || w.state.value.phase.Lost? then w
      else w.(alarm := None, losing := w.losing + 1, muted := w.muted || w.advance.Some?)
    case MarkLostLands =>
      var done := w.(losing := w.losing - 1);
      if w.state.None? then done else done.(state := Some(w.state.value.(phase := Lost, attempt := 0)))
    case MarkDeleted => w.(state := None)
    case AlarmFires =>
      var fired := w.(alarm := None);
      if w.state.None? || !NeedsDispatch(w.state.value) then fired else fired.(advance := Some(Registering))
    case Registered =>
      var done := w.(advance := Some(Waking));
      if w.state.None? then done else done.(state := Some(w.state.value.(registered := true, phase := Starting)))
    case Woken =>
      if w.state.None? then w.(advance := None)
      else w.(state := Some(w.state.value.(hasSession := true)), advance := Some(Picking))
    case Picks =>
      var next := if w.state.Some? && w.state.value.pending != [] then Delivering(w.state.value.pending[0]) else Ending;
      w.(advance := Some(next))
    case Accepts =>
      var prompt := w.advance.value.prompt;
      w.(accepted := w.accepted + [prompt], advance := Some(Accepted(prompt)))
    case Records =>
      if w.state.None? then w.(advance := None)
      else
        var prompt := w.advance.value.prompt;
        w.(state := Some(Delivered(w.state.value, prompt)), advance := Some(Picking), recorded := w.recorded + [prompt])
    case Ends =>
      var done := w.(advance := None);
      if w.state.None? then done else done.(state := Some(w.state.value.(phase := Working, attempt := 0)))
    case Fails(failure) =>
      if w.state.None? then w.(advance := None)
      else
        var next := AfterFailure(w.state.value, failure);
        w.(state := Some(next),
           advance := if next.phase.Queued? then Some(BackingOff(RetryBackoff(next.attempt))) else None)
    case BacksOff => Armed(w.(advance := None), now + w.advance.value.delay)
    case Evicted => w.(loaded := false, advance := None, arming := 0, retrying := 0, losing := 0)
    case Reloaded =>
      var back := w.(loaded := true);
      if w.state.Some? && NeedsDispatch(w.state.value) && w.alarm.None? then Armed(back, now) else back
  }

  datatype Tick = Tick(event: Event, at: int)

  datatype Run = Run(ticks: seq<Tick>, worlds: seq<World>)

  ghost predicate IsRun(run: Run) {
    && |run.worlds| == |run.ticks| + 1
    && run.worlds[0] == Fresh
    && (forall k {:trigger run.ticks[k]} | 0 <= k < |run.ticks| ::
          && Enabled(run.worlds[k], run.ticks[k].event, run.ticks[k].at)
          && run.worlds[k + 1] == Step(run.worlds[k], run.ticks[k].event, run.ticks[k].at))
  }
}
