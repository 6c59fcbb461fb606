/** A backup that outlives the purge of its instance: the checkpoint that asked for
    it was evicted, and the host takes it after the purge has looked. */
module BackupExamples {
  import opened Wrappers
  import B = PurgeBarrier
  import opened BackupLedger

  const Quiet := B.Barrier(true, false, {}, {}, map[], {}, {}, B.Settled, 0, 0, 0, map[], true, false, B.ActiveInstance)
  const Busy := Quiet.(operations := {1}, operationCount := 1)
  const Called := Quiet.(purging := true, active := false, purges := map[B.Delete := B.Marking])
  const Marked :=
    Called.(purgeStored := true, identity := B.DeletingInstance, purges := map[B.Delete := B.Draining(true, true)])
  const Drained := Marked.(purges := map[B.Delete := B.PurgeAt.Sweeping])

  const Bare := World(1, Quiet, map[], {}, Store(None, {}, {}), Idle, None, map[], false, true, 0, {}, Nothing)
  const Operating := Bare.(barrier := Busy)
  const Checkpointing := Operating.(task := Archiving({}), holder := Some(ByOperation(1)))
  const Abandoned := Checkpointing.(barrier := Quiet, task := Idle, abandoned := 1)
  const Looking := Abandoned.(barrier := Drained, purges := map[B.Delete := Reading], purging := true)
  const Looked := Looking.(purges := map[B.Delete := Removing({}, {})])
  const Surprised :=
    Looked.(bucket := map[7 := 1], issued := {7}, abandoned := 0, orphans := {7},
      purges := map[B.Delete := Removing({}, {7})])

  ghost function Last(run: Run): World
    requires |run.worlds| > 0
  {
    run.worlds[|run.worlds| - 1]
  }

  lemma Extend(run: Run, a: Action) returns (r: Run)
    requires IsRun(run) && Enabled(Last(run), a)
    ensures IsRun(r) && |r.worlds| == |r.actions| + 1 && Last(r) == Next(Last(run), a)
  {
    hide Next, Enabled, IsStart;
    r := Run(run.actions + [a], run.worlds + [Next(Last(run), a)]);
    forall k | 0 <= k < |r.actions|
      ensures Enabled(r.worlds[k], r.actions[k]) && r.worlds[k + 1] == Next(r.worlds[k], r.actions[k])
    {
      if k < |run.actions| {
        assert r.actions[k] == run.actions[k] && r.worlds[k] == run.worlds[k] && r.worlds[k + 1] == run.worlds[k + 1];
      }
    }
  }

  lemma NothingYet()
    ensures IsRun(Run([], [Bare]))
  {
    assert OnRecord(Bare.store) == {} && Owned(Bare) == {};
  }

  lemma ACheckpointStarts() returns (run: Run)
    ensures IsRun(run) && Last(run) == Checkpointing
  {
    NothingYet();
    hide IsRun;
    run := Extend(Run([], [Bare]), BarrierMoves(B.OperationBegins(1)));
    run := Extend(run, CheckpointDoes(Starts(ByOperation(1))));
    assert OnRecord(Bare.store) == {};
  }

  lemma ItIsEvicted(before: Run) returns (run: Run)
    requires IsRun(before) && Last(before) == Checkpointing
    ensures IsRun(run) && Last(run) == Abandoned
  {
    hide IsRun;
    run := Extend(before, Evicted);
  }

  lemma APurgeIsLetThrough(before: Run) returns (run: Run)
    requires IsRun(before) && Last(before) == Abandoned
    ensures IsRun(run) && Last(run) == Looking
  {
    hide IsRun;
    run := Extend(before, BarrierMoves(B.PurgeCalled(B.Delete)));
    assert Last(run).barrier == Called;
    run := Extend(run, BarrierMoves(B.PurgeMarked(B.Delete)));
    assert Last(run).barrier == Marked;
    run := Extend(run, BarrierMoves(B.PurgeDrained(B.Delete)));
  }

  lemma ThePurgeLooks(before: Run) returns (run: Run)
    requires IsRun(before) && Last(before) == Looking
    ensures IsRun(run) && Last(run) == Surprised
  {
    hide IsRun;
    run := Extend(before, PurgeDoes(B.Delete, Reads));
    assert OnRecord(Looking.store) == {} && Owned(Last(run)) == {};
    run := Extend(run, PurgeDoes(B.Delete, Discovers));
    assert Last(run) == Looked;
    run := Extend(run, AbandonedAppears(7));
    var none: set<BackupId> := {};
    assert none + {7} == {7} && WithLate(Removing({}, {}), 7) == Removing({}, {7});
    assert Last(run).purges == Surprised.purges;
  }

  /** The backup the purge never saw is the one left when it reports success. */
  lemma AnAbandonedSnapshotOutlivesThePurge() returns (run: Run)
    ensures IsRun(run)
    ensures var w := run.worlds[|run.actions|]; w.outcome.Purged? && Owned(w) == {7}
  {
    run := ACheckpointStarts();
    run := ItIsEvicted(run);
    run := APurgeIsLetThrough(run);
    run := ThePurgeLooks(run);
    run := TheBackupStays(run);
    hide IsRun, Owned;
  }

  lemma TheBackupStays(before: Run) returns (run: Run)
    requires IsRun(before) && Last(before) == Surprised
    ensures IsRun(run)
    ensures |run.worlds| == |run.actions| + 1 && Last(run).outcome.Purged? && Owned(Last(run)) == {7}
  {
    hide IsRun;
    run := Extend(before, PurgeDoes(B.Delete, HostRemoves));
    run := Extend(run, PurgeDoes(B.Delete, DeletionsEnd));
    run := Extend(run, PurgeDoes(B.Delete, Forgets(false)));
  }
}
