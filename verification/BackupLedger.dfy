/** The backups of one instance: what is in the shared bucket, what the instance
    has on record, and the checkpoint and the purges that change both. A checkpoint
    runs for an operation or a mutation that the purge barrier counts; deleting the
    instance and cleaning it up are two purges, each let through by the barrier, and
    they may overlap. Every storage write, snapshot and deletion may fail, and the
    object may be evicted between any two of them. */
module BackupLedger {
  import opened Wrappers
  import B = PurgeBarrier

  type BackupId = nat
  type Instance = nat

  /** The latest backup, the ledger of those not yet deleted, and the list an
      older version kept instead of a ledger. */
  datatype Store = Store(latest: Option<BackupId>, ledger: set<BackupId>, legacy: set<BackupId>)

  datatype Task =
    | Idle
    | Archiving(known: set<BackupId>)
    | Recording(known: set<BackupId>, backup: BackupId)
    | Undoing(backup: BackupId)
    | Sweeping(backup: BackupId, todo: set<BackupId>, remaining: set<BackupId>)
    | Compacting(backup: BackupId, remaining: set<BackupId>)
    | Dropping(backup: BackupId, remaining: set<BackupId>, stale: set<BackupId>)

  /** How far a purge has got that the barrier has let through. `late` only
      observes: the backups that appeared after it had looked. */
  datatype Purge =
    | Reading
    | Discovering(known: set<BackupId>)
    | Removing(doomed: set<BackupId>, late: set<BackupId>)
    | Deleting(todo: set<BackupId>, late: set<BackupId>)
    | Forgetting(late: set<BackupId>)

  /** Who waits for the checkpoint. */
  datatype Holder = ByOperation(id: B.OperationId) | ByMutation(ticket: B.Ticket)

  datatype Outcome = Nothing | Checkpointed(backup: BackupId, remaining: set<BackupId>) | Purged

  /** `abandoned` counts the snapshots the host still takes for nobody. `purging`
      and the last two fields only observe: whether a purge has ever been let
      through, the backups that never got on record, and how the last checkpoint or
      purge ended. */
  datatype World = World(
    me: Instance,
    barrier: B.Barrier,
    bucket: map<BackupId, Instance>,
    issued: set<BackupId>,
    store: Store,
    task: Task,
    holder: Option<Holder>,
    purges: map<B.Kind, Purge>,
    purging: bool,
    hosted: bool,
    abandoned: nat,
    orphans: set<BackupId>,
    outcome: Outcome)

  datatype CheckpointStep =
    | Starts(holder: Holder)
    | SnapshotTaken(id: BackupId)
    | SnapshotFails
    | RecordSucceeds
    | RecordFails
    | DeleteSucceeds(id: BackupId)
    | DeleteFails(id: BackupId)
    | SweepEnds
    | CompactSucceeds
    | DropSucceeds
    | CompactingFails

  datatype PurgeStep =
    | Reads
    | Discovers
    | HostRemoves
    | Deletes(id: BackupId)
    | DeletionsEnd
    | Forgets(latestOnly: bool)
    | Breaks

  datatype Action =
    | CheckpointDoes(c: CheckpointStep)
    | PurgeDoes(kind: B.Kind, p: PurgeStep)
    | BarrierMoves(step: B.Action)
    | AbandonedAppears(id: BackupId)
    | OthersAdd(id: BackupId, owner: Instance)
    | OthersRemove(id: BackupId)
    | Evicted

  /** Nothing is going on, and whatever is on record was recorded in order. */
  ghost predicate IsStart(w: World) {
    && w == World(w.me, w.barrier, w.bucket, w.issued, w.store, Idle, None, map[], false, true, 0, {}, Nothing)
    && B.IsStart(w.barrier) && Mine(w) && LatestExists(w) && NoneForgotten(w)
  }

  function OnRecord(s: Store): set<BackupId> {
    s.ledger + s.legacy + (if s.latest.Some? then {s.latest.value} else {})
  }

  /** The objects whose name starts with this instance's. */
  function Owned(w: World): set<BackupId> {
    set id | id in w.bucket && w.bucket[id] == w.me
  }

  predicate IsOut(b: B.Barrier, holder: Holder) {
    match holder
    case ByOperation(id) => id in b.operations
    case ByMutation(ticket) => ticket in b.running
  }

  /** Whoever waits for a checkpoint does not end before it. */
  predicate Ends(step: B.Action, holder: Holder) {
    match holder
    case ByOperation(id) => step == B.OperationEnds(id)
    case ByMutation(ticket) => step == B.MutationEnds(ticket)
  }

  ghost predicate Enabled(w: World, a: Action) {
    match a
    case CheckpointDoes(c) => CanCheckpoint(w, c)
    case PurgeDoes(kind, p) => CanPurge(w, kind, p)
    case BarrierMoves(step) =>
      && B.Enabled(w.barrier, step) && !step.PurgeReturns? && !step.Evicted?
      && (!w.task.Idle? && w.holder.Some? ==> !Ends(step, w.holder.value))
    case AbandonedAppears(id) => w.abandoned > 0 && w.hosted && id !in w.issued
    case OthersAdd(id, owner) => id !in w.issued && owner != w.me
    case OthersRemove(id) => id in w.bucket && w.bucket[id] != w.me
    case Evicted => true
  }

  ghost predicate CanCheckpoint(w: World, c: CheckpointStep) {
    match c
    case Starts(holder) => w.task.Idle? && IsOut(w.barrier, holder)
    case SnapshotTaken(id) => w.task.Archiving? && id !in w.issued
    case SnapshotFails => w.task.Archiving?
    case RecordSucceeds => w.task.Recording?
    case RecordFails => w.task.Recording?
    case DeleteSucceeds(id) => CanDelete(w.task, id)
    case DeleteFails(id) => CanDelete(w.task, id)
    case SweepEnds => w.task.Sweeping? && w.task.todo == {}
    case CompactSucceeds => w.task.Compacting?
    case DropSucceeds => w.task.Dropping?
    case CompactingFails => w.task.Compacting? || w.task.Dropping?
  }

  predicate CanDelete(task: Task, id: BackupId) {
    || (task.Undoing? && id == task.backup)
    || (task.Sweeping? && id in task.todo)
  }

  ghost predicate CanPurge(w: World, kind: B.Kind, p: PurgeStep) {
    && kind in w.purges
    && match p
       case Reads => w.purges[kind].Reading?
       case Discovers => w.purges[kind].Discovering?
       case HostRemoves => w.purges[kind].Removing?
       case Deletes(id) => w.purges[kind].Deleting? && id in w.purges[kind].todo
       case DeletionsEnd => w.purges[kind].Deleting? && w.purges[kind].todo == {}
       case Forgets(_) => w.purges[kind].Forgetting? && CanReturn(w, kind)
       case Breaks => CanReturn(w, kind)
  }

  ghost predicate CanReturn(w: World, kind: B.Kind) {
    B.Enabled(w.barrier, B.PurgeReturns(kind, false))
  }

  ghost function Next(w: World, a: Action): World
    requires Enabled(w, a)
  {
    match a
    case CheckpointDoes(c) => Checkpointing(w, c)
    case PurgeDoes(kind, p) => PurgingOn(w, kind, p)
    case BarrierMoves(step) =>
      var moved := w.(barrier := B.Next(w.barrier, step));
      if step.PurgeDrained? then moved.(purges := w.purges[step.kind := Reading], purging := true) else moved
    case AbandonedAppears(id) =>
      Appeared(w, id).(abandoned := w.abandoned - 1, orphans := w.orphans + {id},
                       purges := map kind | kind in w.purges :: WithLate(w.purges[kind], id))
    case OthersAdd(id, owner) => w.(bucket := w.bucket[id := owner], issued := w.issued + {id})
    case OthersRemove(id) => w.(bucket := w.bucket - {id})
    case Evicted => GivenUp(w).(barrier := B.Next(w.barrier, B.Evicted), purges := map[])
  }

  ghost function Checkpointing(w: World, c: CheckpointStep): World
    requires CanCheckpoint(w, c)
  {
    match c
    case Starts(holder) => w.(task := Archiving(OnRecord(w.store)), holder := Some(holder))
    case SnapshotTaken(id) => Appeared(w, id).(task := Recording(w.task.known, id))
    case SnapshotFails => w.(task := Idle, abandoned := w.abandoned + 1)
    case RecordSucceeds =>
      var backup := w.task.backup;
      w.(store := w.store.(latest := Some(backup), ledger := w.store.ledger + {backup}),
         task := Sweeping(backup, w.task.known - {backup}, {backup}))
    case RecordFails => w.(task := Undoing(w.task.backup))
    case DeleteSucceeds(id) => w.(bucket := w.bucket - {id}, task := Deleted(w.task, id))
    case DeleteFails(id) =>
      if w.task.Sweeping? then w.(task := w.task.(todo := w.task.todo - {id}, remaining := w.task.remaining + {id}))
      else GivenUp(w)
    case SweepEnds => w.(task := Compacting(w.task.backup, w.task.remaining))
    case CompactSucceeds =>
      w.(store := w.store.(ledger := w.store.ledger + w.task.remaining),
         task := Dropping(w.task.backup, w.task.remaining, w.store.ledger - w.task.remaining))
    case DropSucceeds =>
      w.(store := w.store.(ledger := w.store.ledger - w.task.stale, legacy := {}),
         task := Idle, outcome := Checkpointed(w.task.backup, w.task.remaining))
    case CompactingFails => w.(task := Idle)
  }

  ghost function PurgingOn(w: World, kind: B.Kind, p: PurgeStep): World
    requires CanPurge(w, kind, p)
  {
    match p
    case Reads => w.(purges := w.purges[kind := Discovering(OnRecord(w.store))])
    case Discovers => w.(purges := w.purges[kind := Removing(w.purges[kind].known + Owned(w), {})])
    case HostRemoves =>
      w.(hosted := false, purges := w.purges[kind := Deleting(w.purges[kind].doomed, w.purges[kind].late)])
    case Deletes(id) =>
      var gone := map k | k in w.purges :: WithoutLate(w.purges[k], id);
      w.(bucket := w.bucket - {id}, purges := gone[kind := gone[kind].(todo := gone[kind].todo - {id})])
    case DeletionsEnd => w.(purges := w.purges[kind := Forgetting(w.purges[kind].late)])
    case Forgets(latestOnly) =>
      if latestOnly then w.(store := w.store.(latest := None))
      else Returned(w, kind, kind.Delete?).(store := Store(None, {}, {}), outcome := Purged)
    case Breaks => Returned(w, kind, false)
  }

  /** A purge is over; one that has deleted the instance has wiped its identity. */
  ghost function Returned(w: World, kind: B.Kind, wipes: bool): World
    requires CanReturn(w, kind)
  {
    w.(purges := w.purges - {kind}, barrier := B.Next(w.barrier, B.PurgeReturns(kind, wipes)))
  }

  ghost function Appeared(w: World, id: BackupId): World {
    w.(bucket := w.bucket[id := w.me], issued := w.issued + {id})
  }

  ghost function Deleted(task: Task, id: BackupId): Task
    requires CanDelete(task, id)
  {
    if task.Undoing? then Idle else task.(todo := task.todo - {id})
  }

  function WithLate(purge: Purge, id: BackupId): Purge {
    if purge.Reading? || purge.Discovering? then purge else purge.(late := purge.late + {id})
  }

  function WithoutLate(purge: Purge, id: BackupId): Purge {
    if purge.Reading? || purge.Discovering? then purge else purge.(late := purge.late - {id})
  }

  /** The checkpoint is over before its time; what it held in its hand is lost. */
  ghost function GivenUp(w: World): World {
    match w.task
    case Archiving(_) => w.(task := Idle, abandoned := w.abandoned + 1)
    case Recording(_, backup) => w.(task := Idle, orphans := w.orphans + {backup})
    case Undoing(backup) => w.(task := Idle, orphans := w.orphans + {backup})
    case _ => w.(task := Idle)
  }

  datatype Run = Run(actions: seq<Action>, worlds: seq<World>)

  ghost predicate IsRun(run: Run) {
    && |run.worlds| == |run.actions| + 1
    && IsStart(run.worlds[0])
    && (forall k {:trigger run.actions[k]} | 0 <= k < |run.actions| ::
          Enabled(run.worlds[k], run.actions[k]) && run.worlds[k + 1] == Next(run.worlds[k], run.actions[k]))
  }

  // --- what every step keeps ------------------------------------------------

  function InHand(task: Task): set<BackupId> {
    match task
    case Recording(_, backup) => {backup}
    case Undoing(backup) => {backup}
    case _ => {}
  }

  /** Every identifier the checkpoint deals with. */
  function Handled(task: Task): set<BackupId> {
    match task
    case Idle => {}
    case Archiving(known) => known
    case Recording(known, backup) => known + {backup}
    case Undoing(backup) => {backup}
    case Sweeping(backup, todo, remaining) => todo + remaining + {backup}
    case Compacting(backup, remaining) => remaining + {backup}
    case Dropping(backup, remaining, stale) => remaining + stale + {backup}
  }

  /** Every identifier a purge deals with. */
  function Doomed(w: World, kind: B.Kind): set<BackupId> {
    if kind !in w.purges then {}
    else
      match w.purges[kind]
      case Discovering(known) => known
      case Removing(doomed, _) => doomed
      case Deleting(todo, _) => todo
      case _ => {}
  }

  function Late(w: World, kind: B.Kind): set<BackupId> {
    if kind !in w.purges || w.purges[kind].Reading? || w.purges[kind].Discovering? then {} else w.purges[kind].late
  }

  predicate Known(w: World, id: BackupId) {
    || id in OnRecord(w.store) || id in Handled(w.task) || id in w.orphans
    || id in Doomed(w, B.Delete) || id in Doomed(w, B.Clean)
  }

  /** What is on record or being dealt with was made for this instance. */
  ghost predicate Mine(w: World) {
    && w.bucket.Keys <= w.issued
    && (forall id: BackupId :: Known(w, id) ==> id in w.issued && (id in w.bucket ==> w.bucket[id] == w.me))
    && Late(w, B.Delete) <= w.orphans && Late(w, B.Clean) <= w.orphans
  }

  ghost predicate LatestExists(w: World) {
    w.store.latest.Some? && !w.purging ==> w.store.latest.value in Owned(w)
  }

  ghost predicate NoneForgotten(w: World) {
    && Owned(w) <= OnRecord(w.store) + InHand(w.task) + w.orphans
    && (w.store.latest.Some? ==> w.store.latest.value in w.store.ledger + w.store.legacy)
  }

  ghost predicate TaskSound(w: World) {
    match w.task
    case Idle => true
    case Archiving(known) => known == OnRecord(w.store)
    case Recording(known, backup) => known == OnRecord(w.store) && backup in Owned(w) && backup !in known
    case Undoing(backup) => backup !in OnRecord(w.store)
    case Sweeping(backup, todo, remaining) =>
      && w.store.latest == Some(backup) && backup in remaining && backup !in todo && backup in w.store.ledger
      && Owned(w) <= todo + remaining + w.orphans
      && remaining + todo <= OnRecord(w.store)
    case Compacting(backup, remaining) =>
      w.store.latest == Some(backup) && backup in remaining && Owned(w) <= remaining + w.orphans
    case Dropping(backup, remaining, stale) =>
      && w.store.latest == Some(backup) && backup in remaining && Owned(w) <= remaining + w.orphans
      && w.store.ledger == remaining + stale && remaining !! stale
  }

  ghost predicate PurgeSound(w: World, kind: B.Kind) {
    kind in w.purges ==>
      match w.purges[kind]
      case Removing(doomed, late) => late <= Owned(w) <= doomed + late && late !! doomed
      case Deleting(todo, late) => late <= Owned(w) <= todo + late && late !! todo && !w.hosted
      case Forgetting(late) => Owned(w) == late && !w.hosted
      case _ => true
  }

  predicate IsSweeping(b: B.Barrier, kind: B.Kind) {
    kind in b.purges && b.purges[kind].Sweeping?
  }

  /** A checkpoint has somebody the barrier counts behind it, a purge has been let
      through by the barrier, and after one the instance is at rest for good. */
  ghost predicate Linked(w: World) {
    && B.Inv(w.barrier)
    && (!w.task.Idle? ==> w.holder.Some? && IsOut(w.barrier, w.holder.value))
    && (forall kind :: kind in w.purges <==> IsSweeping(w.barrier, kind))
    && (w.purges != map[] ==> w.purging)
    && (w.purging ==> B.AtRest(w.barrier) && !w.barrier.identity.ActiveInstance?)
  }

  ghost predicate Inv(w: World) {
    && Linked(w) && Mine(w) && LatestExists(w) && NoneForgotten(w) && TaskSound(w)
    && PurgeSound(w, B.Delete) && PurgeSound(w, B.Clean)
  }

  // --- the barrier keeps checkpoints and purges apart -----------------------------

  /** A barrier step ends nobody but whom it says. */
  lemma HoldersStay(b: B.Barrier, step: B.Action, holder: Holder)
    requires B.Enabled(b, step) && !step.Evicted? && IsOut(b, holder) && !Ends(step, holder)
    ensures IsOut(B.Next(b, step), holder)
  {
    hide B.IsResolved;
  }

  lemma CountingLeavesSweeping(b: B.Barrier, kind: B.Kind)
    ensures IsSweeping(B.OperationsCounted(b), kind) <==> IsSweeping(b, kind)
    ensures IsSweeping(B.LifecycleCounted(b), kind) <==> IsSweeping(b, kind)
  {}

  lemma CallsLeaveSweeping(b: B.Barrier, step: B.Action, kind: B.Kind)
    requires B.Enabled(b, step)
    requires step.OperationBegins? || step.OperationEnds? || step.ReadBegins? || step.ReadEnds?
             || step.MutationCalled? || step.MutationRuns? || step.MutationEnds?
    ensures IsSweeping(B.Next(b, step), kind) <==> IsSweeping(b, kind)
  {
    hide B.IsResolved, B.OperationsCounted, B.LifecycleCounted;
    match step
    case OperationEnds(id) =>
      CountingLeavesSweeping(b.(operations := b.operations - {id}, operationCount := b.operationCount - 1), kind);
    case ReadEnds(id) =>
      CountingLeavesSweeping(b.(inspections := b.inspections - {id}, lifecycleCount := b.lifecycleCount - 1), kind);
    case MutationRuns(t) => CountingLeavesSweeping(B.Released(b.(waiting := b.waiting - {t}), t), kind);
    case MutationEnds(t) => CountingLeavesSweeping(B.Released(b.(running := b.running - {t}), t), kind);
    case _ =>
  }

  lemma SweepingPurges(b: B.Barrier, step: B.Action, kind: B.Kind)
    requires B.Enabled(b, step) && !step.Evicted?
    ensures IsSweeping(B.Next(b, step), kind) <==>
              (IsSweeping(b, kind) && !(step.PurgeReturns? && step.kind == kind)) || step == B.PurgeDrained(kind)
  {
    if step.PurgeCalled? || step.PurgeMarked? || step.PurgeDrained? || step.PurgeReturns? {
      hide B.OperationsCounted, B.LifecycleCounted;
    } else {
      hide B.Next, B.Enabled;
      CallsLeaveSweeping(b, step, kind);
    }
  }

  lemma RestIsForGood(b: B.Barrier, step: B.Action)
    requires B.Inv(b) && B.Enabled(b, step) && !b.identity.ActiveInstance?
    requires B.AtRest(b) || step.PurgeDrained?
    ensures B.AtRest(B.Next(b, step)) && !B.Next(b, step).identity.ActiveInstance?
  {
    B.MarksStay(b, step);
    if step.PurgeDrained? {
      B.StepKeepsInv(b, step);
      B.AloneAtRest(B.Next(b, step), step.kind);
    } else {
      hide B.Counted, B.Chained, B.Exclusive, B.IsResolved;
    }
  }

  lemma DrainedInstancesAreMarked(b: B.Barrier, kind: B.Kind)
    requires B.Inv(b) && B.Enabled(b, B.PurgeDrained(kind))
    ensures !b.identity.ActiveInstance?
  {
    hide B.Counted, B.Chained, B.Exclusive;
  }

  /** The part of the world the barrier decides, after one of its steps. */
  lemma BarrierStepKeepsLinked(w: World, r: World, step: B.Action)
    requires Linked(w) && B.Enabled(w.barrier, step) && r.barrier == B.Next(w.barrier, step) && !step.Evicted?
    requires r.task == w.task && r.holder == w.holder
    requires !w.task.Idle? ==> !Ends(step, w.holder.value)
    requires step.PurgeDrained? ==> r.purging && r.purges.Keys == w.purges.Keys + {step.kind}
    requires step.PurgeReturns? ==> r.purging == w.purging && r.purges.Keys == w.purges.Keys - {step.kind}
    requires !step.PurgeDrained? && !step.PurgeReturns? ==> r.purging == w.purging && r.purges == w.purges
    ensures Linked(r)
  {
    hide B.Inv, B.Next, B.Enabled, B.AtRest;
    B.StepKeepsInv(w.barrier, step);
    if !w.task.Idle? { HoldersStay(w.barrier, step, w.holder.value); }
    forall kind ensures kind in r.purges <==> IsSweeping(r.barrier, kind) {
      SweepingPurges(w.barrier, step, kind);
    }
    if step.PurgeDrained? { DrainedInstancesAreMarked(w.barrier, step.kind); }
    if w.purging || step.PurgeDrained? { RestIsForGood(w.barrier, step); }
    if r.purges != map[] && w.purges == map[] {
      assert r.purges.Keys != {};
    }
  }

  lemma EvictionKeepsLinked(w: World, r: World)
    requires Linked(w) && r.barrier == B.Next(w.barrier, B.Evicted)
    requires r.task.Idle? && r.purges == map[] && r.purging == w.purging
    ensures Linked(r)
  {
    B.StepKeepsInv(w.barrier, B.Evicted);
    if w.purging { RestIsForGood(w.barrier, B.Evicted); }
    hide B.Inv;
  }

  /** No checkpoint runs once a purge has been let through. */
  lemma PurgesMeetNoCheckpoint(w: World)
    requires Linked(w) && w.purging
    ensures w.task.Idle?
  {
    hide B.Inv;
  }

  lemma CheckpointsLeaveTheBarrier(w: World, c: CheckpointStep)
    requires CanCheckpoint(w, c)
    ensures var r := Checkpointing(w, c);
            && r.barrier == w.barrier && r.purges == w.purges && r.purging == w.purging
            && (if c.Starts? then r.holder == Some(c.holder) && IsOut(w.barrier, c.holder)
                else r.holder == w.holder && !w.task.Idle?)
  {
    hide IsOut, OnRecord;
  }

  lemma PurgesKeepLinked(w: World, kind: B.Kind, p: PurgeStep)
    requires Linked(w) && CanPurge(w, kind, p)
    ensures Linked(PurgingOn(w, kind, p))
  {
    hide Linked, OnRecord, Owned, B.Next, B.Enabled;
    var r := PurgingOn(w, kind, p);
    if p == Forgets(false) {
      ReturningKeepsLinked(w, r, kind, kind.Delete?);
    } else if p == Breaks {
      ReturningKeepsLinked(w, r, kind, false);
    } else {
      UnmovedStaysLinked(w, r);
    }
  }

  lemma StepKeepsLinked(w: World, a: Action)
    requires Linked(w) && Enabled(w, a)
    ensures Linked(Next(w, a))
  {
    hide Linked, B.Next, B.Enabled, CanPurge, PurgingOn, CanCheckpoint, Checkpointing;
    match a
    case CheckpointDoes(c) =>
      CheckpointsLeaveTheBarrier(w, c);
      if c.Starts? { StartingKeepsLinked(w, Next(w, a)); } else { UnmovedStaysLinked(w, Next(w, a)); }
    case PurgeDoes(kind, p) => PurgesKeepLinked(w, kind, p);
    case BarrierMoves(step) => TaskHolders(w); BarrierStepKeepsLinked(w, Next(w, a), step);
    case Evicted => EvictionKeepsLinked(w, Next(w, a));
    case _ => UnmovedStaysLinked(w, Next(w, a));
  }

  lemma TaskHolders(w: World)
    requires Linked(w)
    ensures !w.task.Idle? ==> w.holder.Some?
  {}

  lemma StartingKeepsLinked(w: World, r: World)
    requires Linked(w) && r.barrier == w.barrier && r.purges.Keys == w.purges.Keys && r.purging == w.purging
    requires r.holder.Some? && IsOut(w.barrier, r.holder.value)
    ensures Linked(r)
  {
    hide B.Inv;
    assert r.purges != map[] ==> r.purges.Keys != {};
  }

  lemma ReturningKeepsLinked(w: World, r: World, kind: B.Kind, wipes: bool)
    requires Linked(w) && CanReturn(w, kind)
    requires r.barrier == B.Next(w.barrier, B.PurgeReturns(kind, wipes)) && r.purges == w.purges - {kind}
    requires r.task == w.task && r.holder == w.holder && r.purging == w.purging
    ensures Linked(r)
  {
    BarrierStepKeepsLinked(w, r, B.PurgeReturns(kind, wipes));
  }

  lemma UnmovedStaysLinked(w: World, r: World)
    requires Linked(w) && r.barrier == w.barrier && r.holder == w.holder && r.purges.Keys == w.purges.Keys
               && r.purging == w.purging
    requires w.task.Idle? ==> r.task.Idle?
    ensures Linked(r)
  {
    hide B.Inv, B.AtRest;
    assert r.purges != map[] ==> r.purges.Keys != {};
  }

  // --- the backups ---------------------------------------------------------------

  /** The objects of this instance, after any action. */
  lemma OwnedAfter(w: World, a: Action)
    requires Mine(w) && Enabled(w, a)
    ensures Owned(Next(w, a)) ==
            match a
            case CheckpointDoes(SnapshotTaken(id)) => Owned(w) + {id}
            case CheckpointDoes(DeleteSucceeds(id)) => Owned(w) - {id}
            case PurgeDoes(_, Deletes(id)) => Owned(w) - {id}
            case AbandonedAppears(id) => Owned(w) + {id}
            case _ => Owned(w)
  {
    hide B.Next, B.Enabled, OnRecord;
    if a.CheckpointDoes? {
      hide PurgingOn, CanPurge, Mine;
    } else if a.PurgeDoes? {
      hide Checkpointing, CanCheckpoint, Mine;
    } else {
      hide PurgingOn, CanPurge, Checkpointing, CanCheckpoint, Known;
    }
  }

  lemma NewIsUnknown(w: World, id: BackupId)
    requires Mine(w) && id !in w.issued
    ensures !Known(w, id) && id !in Owned(w)
  {}

  /** A purge deals with what is on record or in the bucket, and leaves the rest. */
  lemma PurgesLeaveCheckpoints(w: World, kind: B.Kind, p: PurgeStep)
    requires CanPurge(w, kind, p)
    ensures var r := PurgingOn(w, kind, p);
            && r.task == w.task && r.holder == w.holder && r.purging == w.purging && r.me == w.me
            && r.orphans == w.orphans && r.issued == w.issued && r.abandoned == w.abandoned
               && r.bucket.Keys <= w.bucket.Keys
            && (forall id | id in r.bucket :: r.bucket[id] == w.bucket[id])
            && OnRecord(r.store) <= OnRecord(w.store)
  {
    hide B.Next, B.Enabled, Owned;
  }

  lemma PurgesDealWithTheirOwn(w: World, kind: B.Kind, p: PurgeStep, k: B.Kind)
    requires CanPurge(w, kind, p)
    ensures Doomed(PurgingOn(w, kind, p), k) <= Doomed(w, k) + OnRecord(w.store) + Owned(w)
    ensures Late(PurgingOn(w, kind, p), k) <= Late(w, k)
  {
    hide B.Next, B.Enabled, Owned, OnRecord;
  }

  lemma CheckpointsLeaveDoomed(w: World, c: CheckpointStep, k: B.Kind)
    requires CanCheckpoint(w, c)
    ensures var r := Checkpointing(w, c);
            Doomed(r, k) == Doomed(w, k) && Late(r, k) == Late(w, k) && w.orphans <= r.orphans
  {
    CheckpointsLeaveTheBarrier(w, c);
    hide OnRecord;
  }

  lemma CheckpointsKeepMine(w: World, c: CheckpointStep)
    requires Mine(w) && TaskSound(w) && CanCheckpoint(w, c)
    ensures Mine(Checkpointing(w, c))
  {
    CheckpointsLeaveDoomed(w, c, B.Delete);
    CheckpointsLeaveDoomed(w, c, B.Clean);
    hide Doomed, Late;
  }

  lemma PurgesKeepMine(w: World, kind: B.Kind, p: PurgeStep)
    requires Mine(w) && CanPurge(w, kind, p)
    ensures Mine(PurgingOn(w, kind, p))
  {
    PurgesLeaveCheckpoints(w, kind, p);
    PurgesDealWithTheirOwn(w, kind, p, B.Delete);
    PurgesDealWithTheirOwn(w, kind, p, B.Clean);
    hide PurgingOn, CanPurge, Doomed, Late, OnRecord, Handled;
    var r := PurgingOn(w, kind, p);
    forall id: BackupId | Known(r, id) ensures Known(w, id) || id in Owned(w) {}
  }

  lemma OthersDealWithNothing(w: World, a: Action, kind: B.Kind)
    requires Enabled(w, a) && !a.CheckpointDoes? && !a.PurgeDoes?
    ensures var r := Next(w, a);
            && Doomed(r, kind) <= Doomed(w, kind)
            && Late(r, kind) <= Late(w, kind) + (if a.AbandonedAppears? then {a.id} else {})
  {
    hide B.Next, B.Enabled, CanCheckpoint, Checkpointing, CanPurge, PurgingOn;
  }

  lemma OthersKnowNothingNew(w: World, a: Action, id: BackupId)
    requires Enabled(w, a) && !a.CheckpointDoes? && !a.PurgeDoes? && Known(Next(w, a), id)
    ensures Known(w, id) || (a.AbandonedAppears? && id == a.id)
  {
    OthersDealWithNothing(w, a, B.Delete);
    OthersDealWithNothing(w, a, B.Clean);
    hide Doomed, Late, OnRecord, B.Next, B.Enabled, CanCheckpoint, Checkpointing, CanPurge, PurgingOn;
  }

  lemma OthersKeepMine(w: World, a: Action)
    requires Mine(w) && Enabled(w, a) && !a.CheckpointDoes? && !a.PurgeDoes?
    ensures Mine(Next(w, a))
  {
    var r := Next(w, a);
    OthersDealWithNothing(w, a, B.Delete);
    OthersDealWithNothing(w, a, B.Clean);
    hide Doomed, Late, Known, B.Next, B.Enabled, CanCheckpoint, Checkpointing, CanPurge, PurgingOn;
    forall id: BackupId | Known(r, id) ensures Known(w, id) || (a.AbandonedAppears? && id == a.id) {
      OthersKnowNothingNew(w, a, id);
    }
  }

  lemma StepKeepsMine(w: World, a: Action)
    requires Inv(w) && Enabled(w, a)
    ensures Mine(Next(w, a))
  {
    hide Mine, TaskSound, Linked, PurgeSound, NoneForgotten, LatestExists, B.Next, B.Enabled;
    hide CanCheckpoint, Checkpointing, CanPurge, PurgingOn;
    match a
    case CheckpointDoes(c) => CheckpointsKeepMine(w, c);
    case PurgeDoes(kind, p) => PurgesKeepMine(w, kind, p);
    case _ => OthersKeepMine(w, a);
  }

  lemma PurgesArePurging(w: World)
    requires Linked(w)
    ensures B.Delete in w.purges || B.Clean in w.purges ==> w.purging
    ensures w.purging ==> w.task.Idle?
  {
    hide B.Inv;
  }

  /** What is true of the record and the checkpoint, but for the barrier. */
  ghost predicate Recorded(w: World) {
    Mine(w) && LatestExists(w) && NoneForgotten(w) && TaskSound(w) && (w.purging ==> w.task.Idle?)
  }

  ghost predicate RecordKept(w: World) {
    LatestExists(w) && NoneForgotten(w) && TaskSound(w)
  }

  lemma CheckpointsKeepRecord(w: World, c: CheckpointStep)
    requires Recorded(w) && CanCheckpoint(w, c) && (w.purging ==> !c.Starts?)
    ensures RecordKept(Checkpointing(w, c))
  {
    OwnedAfter(w, CheckpointDoes(c));
    if c.SnapshotTaken? { NewIsUnknown(w, c.id); }
    hide Owned, Mine, Doomed, Late;
  }

  lemma PurgesKeepRecord(w: World, kind: B.Kind, p: PurgeStep)
    requires Recorded(w) && PurgeSound(w, B.Delete) && PurgeSound(w, B.Clean) && w.purging && CanPurge(w, kind, p)
    ensures RecordKept(PurgingOn(w, kind, p))
  {
    OwnedAfter(w, PurgeDoes(kind, p));
    hide Owned, B.Next, B.Enabled;
  }

  lemma OthersKeepRecord(w: World, a: Action)
    requires Recorded(w) && Enabled(w, a) && !a.CheckpointDoes? && !a.PurgeDoes?
    ensures RecordKept(Next(w, a))
  {
    OwnedAfter(w, a);
    if a.AbandonedAppears? { NewIsUnknown(w, a.id); }
    hide Owned, Mine, B.Next, B.Enabled, CanCheckpoint, Checkpointing, CanPurge, PurgingOn;
  }

  /** Only for who is out a checkpoint starts, and after a purge nobody is. */
  lemma NobodyStartsAtRest(w: World, c: CheckpointStep)
    requires Linked(w) && CanCheckpoint(w, c)
    ensures !w.purging
  {
    hide B.Inv;
  }

  lemma StepKeepsRecord(w: World, a: Action)
    requires Inv(w) && Enabled(w, a)
    ensures RecordKept(Next(w, a))
  {
    PurgesArePurging(w);
    if a.CheckpointDoes? { NobodyStartsAtRest(w, a.c); }
    if a.PurgeDoes? { assert a.kind in w.purges && (a.kind == B.Delete || a.kind == B.Clean); }
    hide Linked, Mine, LatestExists, NoneForgotten, TaskSound, PurgeSound, RecordKept, B.Next, B.Enabled;
    hide CanCheckpoint, Checkpointing, CanPurge, PurgingOn;
    match a
    case CheckpointDoes(c) => CheckpointsKeepRecord(w, c);
    case PurgeDoes(kind, p) => PurgesKeepRecord(w, kind, p);
    case _ => OthersKeepRecord(w, a);
  }

  lemma PurgesKeepPurge(w: World, kind: B.Kind, p: PurgeStep, k: B.Kind)
    requires Mine(w) && PurgeSound(w, k) && CanPurge(w, kind, p)
    ensures PurgeSound(PurgingOn(w, kind, p), k)
  {
    hide Owned, B.Next, B.Enabled, Mine, OnRecord, CanCheckpoint, Checkpointing, Deleted, Appeared, GivenUp, InHand;
    OwnedAfter(w, PurgeDoes(kind, p));
    if p.Deletes? {
      DeletingKeepsPurge(w, kind, p.id, k);
      hide PurgeSound, PurgingOn;
    }
  }

  lemma DeletingKeepsPurge(w: World, kind: B.Kind, id: BackupId, k: B.Kind)
    requires PurgeSound(w, k) && CanPurge(w, kind, Deletes(id))
    requires Owned(PurgingOn(w, kind, Deletes(id))) == Owned(w) - {id}
    ensures PurgeSound(PurgingOn(w, kind, Deletes(id)), k)
  {
    hide Owned, OnRecord, CanReturn, Returned;
  }

  lemma OthersKeepPurge(w: World, a: Action, k: B.Kind)
    requires Mine(w) && PurgeSound(w, k) && Enabled(w, a) && !a.CheckpointDoes? && !a.PurgeDoes?
    ensures PurgeSound(Next(w, a), k)
  {
    OwnedAfter(w, a);
    if a.AbandonedAppears? { NewIsDoomedNowhere(w, a.id, k); }
    hide Owned, B.Next, B.Enabled, Mine, OnRecord, CanCheckpoint, Checkpointing, CanPurge, PurgingOn;
  }

  lemma NewIsDoomedNowhere(w: World, id: BackupId, k: B.Kind)
    requires Mine(w) && id !in w.issued
    ensures id !in Doomed(w, k) && id !in Owned(w)
  {
    NewIsUnknown(w, id);
    assert k == B.Delete || k == B.Clean;
    hide Mine, Doomed, Owned;
  }

  lemma StepKeepsPurge(w: World, a: Action, k: B.Kind)
    requires Inv(w) && Enabled(w, a) && PurgeSound(w, k)
    ensures PurgeSound(Next(w, a), k)
  {
    PurgesArePurging(w);
    if a.CheckpointDoes? {
      NobodyStartsAtRest(w, a.c);
      CheckpointsLeaveTheBarrier(w, a.c);
      assert k !in w.purges by { assert k == B.Delete || k == B.Clean; }
    }
    hide Linked, Mine, LatestExists, NoneForgotten, TaskSound, B.Next, B.Enabled, CanCheckpoint, Checkpointing;
    hide CanPurge, PurgingOn;
    match a
    case CheckpointDoes(_) =>
    case PurgeDoes(kind, p) => hide PurgeSound; PurgesKeepPurge(w, kind, p, k);
    case _ => hide PurgeSound; OthersKeepPurge(w, a, k);
  }

  lemma StepKeepsInv(w: World, a: Action)
    requires Inv(w) && Enabled(w, a)
    ensures Inv(Next(w, a))
  {
    hide Linked, Mine, LatestExists, NoneForgotten, TaskSound, PurgeSound, Next, Enabled;
    StepKeepsLinked(w, a);
    StepKeepsMine(w, a);
    StepKeepsRecord(w, a);
    StepKeepsPurge(w, a, B.Delete);
    StepKeepsPurge(w, a, B.Clean);
  }

  lemma {:induction false} RunsKeepInv(run: Run, i: nat)
    requires IsRun(run) && i <= |run.actions|
    ensures Inv(run.worlds[i])
  {
    hide Inv, Next, Enabled, IsStart;
    if i > 0 {
      RunsKeepInv(run, i - 1);
      StepKeepsInv(run.worlds[i - 1], run.actions[i - 1]);
    } else {
      StartsSound(run.worlds[0]);
    }
  }

  lemma StartsSound(w: World)
    requires IsStart(w)
    ensures Inv(w)
  {}

  lemma RunsHaveWorlds(run: Run)
    requires IsRun(run)
    ensures |run.worlds| == |run.actions| + 1
  {
    hide Enabled, Next, IsStart;
  }

  lemma RunSteps(run: Run, k: nat)
    requires IsRun(run) && k < |run.actions|
    ensures |run.worlds| == |run.actions| + 1
    ensures Enabled(run.worlds[k], run.actions[k]) && run.worlds[k + 1] == Next(run.worlds[k], run.actions[k])
  {
    hide Enabled, Next, IsStart;
    assert run.actions[k] == run.actions[k];
  }

  // --- what follows for every run -----------------------------------------------

  /** A restore always finds its backup, however many deletions failed and
      wherever the object was evicted. */
  lemma TheLatestBackupExists(run: Run, i: nat)
    requires IsRun(run) && i <= |run.actions|
    requires !run.worlds[i].purging && run.worlds[i].store.latest.Some?
    ensures run.worlds[i].store.latest.value in Owned(run.worlds[i])
  {
    hide IsRun, Linked, Mine, NoneForgotten, TaskSound, PurgeSound, Owned;
    RunsKeepInv(run, i);
  }

  /** Every live backup is on record, in the hand of the running checkpoint, or an
      orphan that only its name still ties to the instance. */
  lemma NoBackupIsForgotten(run: Run, i: nat, id: BackupId)
    requires IsRun(run) && i <= |run.actions| && id in Owned(run.worlds[i])
    ensures var w := run.worlds[i]; id in w.store.ledger + w.store.legacy + InHand(w.task) + w.orphans
  {
    hide IsRun, Linked, Mine, LatestExists, TaskSound, PurgeSound, Owned;
    RunsKeepInv(run, i);
  }

  /** While a purge is at work no checkpoint is, whoever might have asked for one,
      and none begins. */
  lemma NoCheckpointDuringAPurge(run: Run, i: nat, kind: B.Kind)
    requires IsRun(run) && i <= |run.actions| && kind in run.worlds[i].purges
    ensures run.worlds[i].task.Idle?
    ensures i < |run.actions| ==> run.worlds[i + 1].task.Idle?
  {
    hide IsRun, Mine, LatestExists, NoneForgotten, TaskSound, PurgeSound, Next, Enabled, B.Inv;
    RunsHaveWorlds(run);
    RunsKeepInv(run, i);
    PurgesMeetNoCheckpoint(run.worlds[i]);
    if i < |run.actions| {
      RunSteps(run, i);
      RunsKeepInv(run, i + 1);
      PurgingStays(run.worlds[i], run.actions[i]);
      PurgesMeetNoCheckpoint(run.worlds[i + 1]);
    }
  }

  lemma PurgingStays(w: World, a: Action)
    requires Enabled(w, a) && w.purging
    ensures Next(w, a).purging
  {
    hide B.Next, B.Enabled;
  }

  /** A checkpoint that ends with every deletion done leaves its own backup as the
      only live one and the only one on record, but for orphans. In general it
      leaves exactly the ones whose deletion failed beside it. */
  lemma CheckpointsLeaveWhatTheyCouldNotDelete(run: Run, i: nat)
    requires IsRun(run) && i < |run.actions| && run.actions[i] == CheckpointDoes(DropSucceeds)
    ensures var w := run.worlds[i + 1];
            && w.outcome.Checkpointed? && w.store == Store(Some(w.outcome.backup), w.outcome.remaining, {})
            && w.outcome.backup in w.outcome.remaining
            && Owned(w) <= w.outcome.remaining + w.orphans
            && w.outcome.backup in Owned(w)
  {
    hide IsRun, Inv, Next, Enabled, Owned;
    RunSteps(run, i);
    RunsKeepInv(run, i);
    DroppingLeaves(run.worlds[i]);
  }

  lemma DroppingLeaves(w: World)
    requires Inv(w) && Enabled(w, CheckpointDoes(DropSucceeds))
    ensures var r := Next(w, CheckpointDoes(DropSucceeds));
            && r.outcome.Checkpointed? && r.store == Store(Some(r.outcome.backup), r.outcome.remaining, {})
            && r.outcome.backup in r.outcome.remaining
            && Owned(r) <= r.outcome.remaining + r.orphans
            && r.outcome.backup in Owned(r)
  {
    OwnedAfter(w, CheckpointDoes(DropSucceeds));
    PurgesArePurging(w);
    hide Linked, Owned, PurgeSound, Mine;
  }

  lemma CleanCheckpointsLeaveOne(run: Run, i: nat)
    requires IsRun(run) && i < |run.actions| && run.actions[i] == CheckpointDoes(DropSucceeds)
    requires run.worlds[i].task.Dropping? ==> run.worlds[i].task.remaining == {run.worlds[i].task.backup}
    ensures var w := run.worlds[i + 1];
            && w.store.latest.Some? && w.store.ledger == {w.store.latest.value} && w.store.legacy == {}
            && Owned(w) - w.orphans <= {w.store.latest.value} <= Owned(w)
  {
    RunSteps(run, i);
    CheckpointsLeaveWhatTheyCouldNotDelete(run, i);
    hide IsRun, Owned;
  }

  /** When a purge reports success, the backups left in the bucket are exactly
      those that appeared after it had looked and that no other purge has deleted. */
  lemma PurgesLeaveOnlyLateBackups(run: Run, i: nat, kind: B.Kind)
    requires IsRun(run) && i < |run.actions| && run.actions[i] == PurgeDoes(kind, Forgets(false))
    ensures run.worlds[i + 1].outcome.Purged?
    ensures Owned(run.worlds[i + 1]) == Late(run.worlds[i], kind)
  {
    RunsKeepInv(run, i);
    RunSteps(run, i);
    hide IsRun, Linked, NoneForgotten, LatestExists, TaskSound, Owned;
    OwnedAfter(run.worlds[i], run.actions[i]);
  }

  /** What a purge finds in its way after it has looked with nothing abandoned. */
  ghost predicate NothingLate(w: World, kind: B.Kind) {
    w.purging && w.abandoned == 0 && Late(w, kind) == {}
  }

  lemma {:induction false} NothingAppearsWhenNothingIsAbandoned(run: Run, i: nat, j: nat, kind: B.Kind)
    requires IsRun(run) && i < j <= |run.actions|
    requires run.actions[i] == PurgeDoes(kind, Discovers) && run.worlds[i].abandoned == 0
    ensures NothingLate(run.worlds[j], kind)
  {
    hide IsRun, Inv, Next, Enabled, NothingLate;
    RunsKeepInv(run, j - 1);
    RunSteps(run, j - 1);
    if i + 1 < j {
      NothingAppearsWhenNothingIsAbandoned(run, i, j - 1, kind);
      PurgingAbandonsNothing(run.worlds[j - 1], run.actions[j - 1], kind);
    } else {
      LookingFindsAll(run.worlds[i], kind);
    }
  }

  lemma LookingFindsAll(w: World, kind: B.Kind)
    requires Inv(w) && Enabled(w, PurgeDoes(kind, Discovers)) && w.abandoned == 0
    ensures NothingLate(Next(w, PurgeDoes(kind, Discovers)), kind)
  {
    PurgesArePurging(w);
    hide Inv;
  }

  lemma PurgingAbandonsNothing(w: World, a: Action, kind: B.Kind)
    requires Inv(w) && Enabled(w, a) && NothingLate(w, kind)
    ensures NothingLate(Next(w, a), kind)
  {
    PurgesArePurging(w);
    hide Linked, Mine, LatestExists, NoneForgotten, TaskSound, PurgeSound, B.Next, B.Enabled;
    match a
    case CheckpointDoes(c) => NobodyStartsAtRest(w, c);
    case PurgeDoes(k, p) =>
      PurgesLeaveCheckpoints(w, k, p);
      PurgesDealWithTheirOwn(w, k, p, kind);
      hide PurgingOn, Late;
    case _ =>
      OthersDealWithNothing(w, a, kind);
      hide Late, Checkpointing, PurgingOn;
  }

  /** With no snapshot still under way when a purge looked, nothing is left when one
      of that kind reports success, however often it was tried again and whatever the
      other purge does meanwhile. */
  lemma PurgesLeaveNothing(run: Run, i: nat, j: nat, kind: B.Kind)
    requires IsRun(run) && i < j < |run.actions|
    requires run.actions[i] == PurgeDoes(kind, Discovers) && run.worlds[i].abandoned == 0
    requires run.actions[j] == PurgeDoes(kind, Forgets(false))
    ensures run.worlds[j + 1].outcome.Purged? && Owned(run.worlds[j + 1]) == {}
  {
    hide IsRun, Owned;
    NothingAppearsWhenNothingIsAbandoned(run, i, j, kind);
    PurgesLeaveOnlyLateBackups(run, j, kind);
  }

  /** Nothing this instance does adds, takes or changes a backup of another. */
  lemma OthersAreSpared(run: Run, i: nat, id: BackupId)
    requires IsRun(run) && i < |run.actions| && !run.actions[i].OthersAdd? && !run.actions[i].OthersRemove?
    requires id in run.worlds[i].bucket && run.worlds[i].bucket[id] != run.worlds[i].me
    ensures id in run.worlds[i + 1].bucket && run.worlds[i + 1].bucket[id] == run.worlds[i].bucket[id]
  {
    RunsKeepInv(run, i);
    RunSteps(run, i);
    hide IsRun, Linked, NoneForgotten, LatestExists, PurgeSound;
    StepsSpareOthers(run.worlds[i], run.actions[i], id);
  }

  lemma StepsSpareOthers(w: World, a: Action, id: BackupId)
    requires Mine(w) && Enabled(w, a) && !a.OthersAdd? && !a.OthersRemove?
    requires id in w.bucket && w.bucket[id] != w.me
    ensures id in Next(w, a).bucket && Next(w, a).bucket[id] == w.bucket[id]
  {
    assert !Known(w, id) && id in w.issued;
    if a.PurgeDoes? && a.p.Deletes? {
      assert a.kind == B.Delete || a.kind == B.Clean;
      assert a.p.id in Doomed(w, a.kind) && Known(w, a.p.id);
    }
    if a.CheckpointDoes? && a.c.DeleteSucceeds? { assert a.c.id in Handled(w.task) && Known(w, a.c.id); }
    hide B.Next, B.Enabled, Known, Mine;
  }

  // --- where each step leads -----------------------------------------------------

  /** What the store and the bucket are told, and where the checkpoint goes on: a
      snapshot that failed may still appear; one that could not be recorded is to be
      deleted, and lost to the record if that fails too; whatever could not be deleted
      stays on record. */
  lemma CheckpointsGoOn(run: Run, i: nat)
    requires IsRun(run) && i < |run.actions| && run.actions[i].CheckpointDoes?
    ensures var w, r := run.worlds[i], run.worlds[i + 1];
            match run.actions[i].c
            case Starts(holder) =>
              r.task == Archiving(OnRecord(w.store)) && r.holder == Some(holder) && Stored(w, r) && r.bucket == w.bucket
            case SnapshotTaken(id) =>
              && r.task == Recording(w.task.known, id) && Stored(w, r) && r.bucket == w.bucket[id := w.me]
            case SnapshotFails => r == w.(task := Idle, abandoned := w.abandoned + 1)
            case RecordSucceeds =>
              && r.store.latest == Some(w.task.backup) && r.store.ledger == w.store.ledger + {w.task.backup}
              && r.store.legacy == w.store.legacy && r.bucket == w.bucket
              && r.task == Sweeping(w.task.backup, w.task.known - {w.task.backup}, {w.task.backup})
            case RecordFails => r == w.(task := Undoing(w.task.backup))
            case DeleteSucceeds(id) =>
              && r.bucket == w.bucket - {id} && Stored(w, r)
              && r.task == (if w.task.Undoing? then Idle else w.task.(todo := w.task.todo - {id}))
            case DeleteFails(id) =>
              && r.bucket == w.bucket && Stored(w, r)
              && if w.task.Sweeping? then
                   && r.task == w.task.(todo := w.task.todo - {id}, remaining := w.task.remaining + {id})
                   && r.orphans == w.orphans
                 else r.task.Idle? && r.orphans == w.orphans + {id}
            case SweepEnds => r == w.(task := Compacting(w.task.backup, w.task.remaining))
            case CompactSucceeds =>
              && r.store == w.store.(ledger := w.store.ledger + w.task.remaining) && r.bucket == w.bucket
              && r.task == Dropping(w.task.backup, w.task.remaining, w.store.ledger - w.task.remaining)
            case DropSucceeds =>
              && r.store == w.store.(ledger := w.store.ledger - w.task.stale, legacy := {}) && r.bucket == w.bucket
              && r.task.Idle? && r.outcome == Checkpointed(w.task.backup, w.task.remaining)
            case CompactingFails => r == w.(task := Idle)
  {
    RunSteps(run, i);
    hide IsRun, OnRecord;
  }

  ghost predicate Stored(w: World, r: World) {
    r.store == w.store
  }

  /** A purge dooms what is on record and what carries the instance's name, takes the
      host away before it deletes, deletes what it doomed, and then forgets; an
      instance that is deleted loses its identity by that, a cleaned one keeps it. */
  lemma PurgesGoOn(run: Run, i: nat)
    requires IsRun(run) && i < |run.actions| && run.actions[i].PurgeDoes?
    ensures var w, r, kind := run.worlds[i], run.worlds[i + 1], run.actions[i].kind;
            && kind in w.purges
            && match run.actions[i].p
               case Reads => kind in r.purges && r.purges[kind] == Discovering(OnRecord(w.store)) && Untouched(w, r)
               case Discovers =>
                 && kind in r.purges && Untouched(w, r)
                 && r.purges[kind] == Removing(w.purges[kind].known + Owned(w), {})
               case HostRemoves =>
                 && kind in r.purges && !r.hosted && Untouched(w, r)
                 && r.purges[kind] == Deleting(w.purges[kind].doomed, w.purges[kind].late)
               case Deletes(id) =>
                 && kind in r.purges && r.purges[kind].Deleting? && r.purges[kind].todo == w.purges[kind].todo - {id}
                 && r.bucket == w.bucket - {id} && r.store == w.store
               case DeletionsEnd =>
                 kind in r.purges && r.purges[kind] == Forgetting(w.purges[kind].late) && Untouched(w, r)
               case Forgets(latestOnly) =>
                 && r.bucket == w.bucket
                 && if latestOnly then r.store == w.store.(latest := None) && r.purges == w.purges
                    else
                      && r.store == Store(None, {}, {}) && r.outcome.Purged? && kind !in r.purges
                      && (kind.Delete? ==> r.barrier.identity.NoInstance?)
                      && (kind.Clean? ==> r.barrier.identity == w.barrier.identity)
               case Breaks => kind !in r.purges && Untouched(w, r) && r.outcome == w.outcome
  {
    RunSteps(run, i);
    hide IsRun, OnRecord, Owned;
  }

  ghost predicate Untouched(w: World, r: World) {
    r.store == w.store && r.bucket == w.bucket
  }

  /** A purge the barrier lets through begins to look, and evictions lose what was in
      hand: a snapshot under way may still appear, one taken is lost to the record. */
  lemma OthersGoOn(run: Run, i: nat)
    requires IsRun(run) && i < |run.actions|
    ensures var w, r, a := run.worlds[i], run.worlds[i + 1], run.actions[i];
            && (a.BarrierMoves? && a.step.PurgeDrained? ==>
                  && r.purges == w.purges[a.step.kind := Reading] && r.purging
                  && r.barrier == B.Next(w.barrier, a.step))
            && (a.Evicted? ==>
                  && r.task.Idle? && r.purges == map[] && Untouched(w, r)
                  && r.abandoned == w.abandoned + (if w.task.Archiving? then 1 else 0)
                  && r.orphans == w.orphans + InHand(w.task))
            && (a.AbandonedAppears? ==>
                  && r.bucket == w.bucket[a.id := w.me] && r.store == w.store && r.abandoned == w.abandoned - 1)
  {
    RunSteps(run, i);
    hide IsRun, OnRecord, Owned, B.Next, B.Enabled, Checkpointing, PurgingOn;
  }
}
