/** The registry rows as a queue: delete requests and sweeps claim them with a
    conditional write, one alarm worker takes the oldest claim and ends its
    attempt with a write fenced on the operation that claimed it. */
module HubQueue {
  import opened Wrappers

  type InstanceId = nat
  type OperationId = nat

  datatype Lifecycle = Ready | Deleting | DeleteFailed | Cleaning | Cleaned | CleanFailed

  /** `settled` stands for the rest of what makes a session eligible for cleanup:
      no prompt waits, the runtime has come to rest, the last prompt is old. */
  datatype Row = Row(lifecycle: Lifecycle, op: Option<OperationId>, updatedAt: int, settled: bool)

  // --- the conditional writes -------------------------------------------------

  predicate ClaimedFor(row: Row, lifecycle: Lifecycle) {
    row.lifecycle == lifecycle && row.op.Some?
  }

  predicate FencedOn(table: map<InstanceId, Row>, id: InstanceId, op: OperationId) {
    id in table && table[id].op == Some(op)
  }

  predicate CleanupEligible(row: Row, cutoff: int) {
    (row.lifecycle.Ready? || row.lifecycle.CleanFailed?) && row.settled && row.updatedAt < cutoff
  }

  /** A deletion already in flight is left to run. */
  function ClaimDelete(table: map<InstanceId, Row>, id: InstanceId, op: OperationId, now: int): map<InstanceId, Row> {
    if id !in table || ClaimedFor(table[id], Deleting) then table
    else table[id := table[id].(lifecycle := Deleting, op := Some(op), updatedAt := now)]
  }

  function ClaimCleanup(table: map<InstanceId, Row>, id: InstanceId, op: OperationId, cutoff: int)
    : map<InstanceId, Row>
  {
    if id !in table || !CleanupEligible(table[id], cutoff) then table
    else table[id := table[id].(lifecycle := Cleaning, op := Some(op))]
  }

  function MarkDeleteFailed(table: map<InstanceId, Row>, id: InstanceId, op: OperationId, now: int)
    : map<InstanceId, Row>
  {
    if !FencedOn(table, id, op) then table else table[id := table[id].(lifecycle := DeleteFailed, updatedAt := now)]
  }

  /** Deferring goes to the back of the queue, cleanups included. */
  function Defer(table: map<InstanceId, Row>, id: InstanceId, op: OperationId, now: int): map<InstanceId, Row> {
    if !FencedOn(table, id, op) then table else table[id := table[id].(updatedAt := now)]
  }

  function FinishDelete(table: map<InstanceId, Row>, id: InstanceId, op: OperationId): map<InstanceId, Row> {
    if !FencedOn(table, id, op) then table else table - {id}
  }

  function FinishClean(table: map<InstanceId, Row>, id: InstanceId, op: OperationId): map<InstanceId, Row> {
    if !FencedOn(table, id, op) then table else table[id := table[id].(lifecycle := Cleaned, op := None)]
  }

  function MarkCleanFailed(table: map<InstanceId, Row>, id: InstanceId, op: OperationId): map<InstanceId, Row> {
    if !FencedOn(table, id, op) then table else table[id := table[id].(lifecycle := CleanFailed)]
  }

  // --- the worker ----------------------------------------------------------------

  datatype Answer = Purged | TerminationPending | TimedOut | Broke

  /** `answer` is missing while the purge is under way. */
  datatype Attempt = Attempt(id: InstanceId, op: OperationId, deletes: bool, answer: Option<Answer>)

  /** The worker picks a deletion or else a cleanup, tries it, and looks whether
      deletions or cleanups are left. Each of its reads is a yield. */
  datatype Worker =
    | PickingDeletion | PickingCleanup | Trying(attempt: Attempt)
    | LookingForDeletions | LookingForCleanups | Rearming

  /** A delete request owes one poke, whether or not it claimed; a sweep owes one
      for all its claims. `deleters` and `sweepers` count those that have yet to
      poke. The last two fields only observe: the operations ever drawn, and those
      under which a purge reported success. */
  datatype World = World(
    table: map<InstanceId, Row>,
    alarm: bool,
    worker: Option<Worker>,
    deleters: nat,
    sweepers: nat,
    loaded: bool,
    drawn: set<OperationId>,
    purgedUnder: set<OperationId>)

  datatype Action =
    | Register(id: InstanceId, row: Row)
    | Touch(id: InstanceId, settled: bool, now: int)
    | DeleteRequested(id: InstanceId, op: OperationId, now: int)
    | SweepClaims(id: InstanceId, op: OperationId, cutoff: int, first: bool)
    | DeletePokes
    | SweepPokes
    | DeleterDies
    | SweeperDies
    | AlarmFires
    | WorkerPicks(id: InstanceId)
    | WorkerFindsNone
    | PurgeAnswers(answer: Answer)
    | AttemptWrites(now: int)
    | NoDeletionsLeft
    | NoCleanupsLeft
    | PendingFound
    | AlarmRearms
    | Evicted
    | Reloaded

  ghost predicate IsStart(w: World) {
    w == World(map[], false, None, 0, 0, true, {}, {})
  }

  predicate HasClaim(table: map<InstanceId, Row>, lifecycle: Lifecycle) {
    exists id | id in table :: ClaimedFor(table[id], lifecycle)
  }

  ghost predicate Pending(table: map<InstanceId, Row>) {
    HasClaim(table, Deleting) || HasClaim(table, Cleaning)
  }

  /** The oldest claim of its kind. */
  predicate IsOldest(table: map<InstanceId, Row>, id: InstanceId, lifecycle: Lifecycle) {
    && id in table && ClaimedFor(table[id], lifecycle)
    && (forall other | other in table && ClaimedFor(table[other], lifecycle) ::
       table[id].updatedAt <= table[other].updatedAt)
  }

  predicate Picking(w: World, lifecycle: Lifecycle) {
    w.worker == Some(if lifecycle.Deleting? then PickingDeletion else PickingCleanup)
  }

  ghost predicate Enabled(w: World, a: Action) {
    match a
    case Register(id, row) => id !in w.table && row.lifecycle.Ready? && row.op.None?
    case Touch(id, _, _) => id in w.table
    case DeleteRequested(_, op, _) => op !in w.drawn
    case SweepClaims(_, op, _, first) => op !in w.drawn && (first || w.sweepers > 0)
    case DeletePokes => w.loaded && w.deleters > 0
    case SweepPokes => w.loaded && w.sweepers > 0
    case DeleterDies => w.deleters > 0
    case SweeperDies => w.sweepers > 0
    case AlarmFires => w.loaded && w.alarm && w.worker.None?
    case WorkerPicks(id) =>
      (Picking(w, Deleting) && IsOldest(w.table, id, Deleting))
        || (Picking(w, Cleaning) && IsOldest(w.table, id, Cleaning))
    case WorkerFindsNone =>
      (Picking(w, Deleting) && !HasClaim(w.table, Deleting)) || (Picking(w, Cleaning) && !HasClaim(w.table, Cleaning))
    case PurgeAnswers(_) => w.worker.Some? && w.worker.value.Trying? && w.worker.value.attempt.answer.None?
    case AttemptWrites(_) => w.worker.Some? && w.worker.value.Trying? && w.worker.value.attempt.answer.Some?
    case NoDeletionsLeft => w.worker == Some(LookingForDeletions) && !HasClaim(w.table, Deleting)
    case NoCleanupsLeft => w.worker == Some(LookingForCleanups) && !HasClaim(w.table, Cleaning)
    case PendingFound =>
      || (w.worker == Some(LookingForDeletions) && HasClaim(w.table, Deleting))
      || (w.worker == Some(LookingForCleanups) && HasClaim(w.table, Cleaning))
    case AlarmRearms => w.worker == Some(Rearming)
    case Evicted => w.loaded
    case Reloaded => !w.loaded
  }

  /** The fenced write an attempt ends with. */
  ghost function Written(table: map<InstanceId, Row>, attempt: Attempt, now: int): map<InstanceId, Row>
    requires attempt.answer.Some?
  {
    match attempt.answer.value
    case Purged =>
      if attempt.deletes then FinishDelete(table, attempt.id, attempt.op)
      else FinishClean(table, attempt.id, attempt.op)
    case Broke => if attempt.deletes then MarkDeleteFailed(table, attempt.id, attempt.op, now)
                  else MarkCleanFailed(table, attempt.id, attempt.op)
    case _ => Defer(table, attempt.id, attempt.op, now)
  }

  /** The sweep's conditional write finds the row eligible. */
  predicate Claims(w: World, a: Action)
    requires a.SweepClaims?
  {
    a.id in w.table && CleanupEligible(w.table[a.id], a.cutoff)
  }

  ghost function Armed(w: World): World {
    w.(alarm := true)
  }

  ghost function Next(w: World, a: Action): World
    requires Enabled(w, a)
  {
    match a
    case Register(id, row) => w.(table := w.table[id := row])
    case Touch(id, settled, now) => w.(table := w.table[id := w.table[id].(settled := settled, updatedAt := now)])
    case DeleteRequested(id, op, now) =>
      w.(table := ClaimDelete(w.table, id, op, now), drawn := w.drawn + {op},
         deleters := if id in w.table then w.deleters + 1 else w.deleters)
    case SweepClaims(id, op, cutoff, first) =>
      w.(table := ClaimCleanup(w.table, id, op, cutoff), drawn := w.drawn + {op},
         sweepers := if first && Claims(w, a) then w.sweepers + 1 else w.sweepers)
    case DeletePokes => Armed(w.(deleters := w.deleters - 1))
    case SweepPokes => Armed(w.(sweepers := w.sweepers - 1))
    case DeleterDies => w.(deleters := w.deleters - 1)
    case SweeperDies => w.(sweepers := w.sweepers - 1)
    case AlarmFires => w.(alarm := false, worker := Some(PickingDeletion))
    case WorkerPicks(id) =>
      w.(worker := Some(Trying(Attempt(id, w.table[id].op.value, Picking(w, Deleting), None))))
    case WorkerFindsNone => w.(worker := Some(if Picking(w, Deleting) then PickingCleanup else LookingForDeletions))
    case PurgeAnswers(answer) =>
      var attempt := w.worker.value.attempt;
      w.(worker := Some(Trying(attempt.(answer := Some(answer)))),
         purgedUnder := if answer.Purged? then w.purgedUnder + {attempt.op} else w.purgedUnder)
    case AttemptWrites(now) =>
      w.(table := Written(w.table, w.worker.value.attempt, now), worker := Some(LookingForDeletions))
    case NoDeletionsLeft => w.(worker := Some(LookingForCleanups))
    case NoCleanupsLeft => w.(worker := None)
    case PendingFound => w.(worker := Some(Rearming))
    case AlarmRearms => Armed(w.(worker := None))
    // A handler cut off half-way is delivered again by the platform.
    case Evicted => w.(loaded := false, alarm := w.alarm || w.worker.Some?, worker := None)
    case Reloaded => if !w.alarm && Pending(w.table) then Armed(w.(loaded := true)) else w.(loaded := true)
  }

  datatype Run = Run(actions: seq<Action>, worlds: seq<World>)

  ghost predicate IsRun(run: Run) {
    && |run.worlds| == |run.actions| + 1
    && IsStart(run.worlds[0])
    && (forall k {:trigger run.actions[k]} | 0 <= k < |run.actions| ::
          Enabled(run.worlds[k], run.actions[k]) && run.worlds[k + 1] == Next(run.worlds[k], run.actions[k]))
  }
}
