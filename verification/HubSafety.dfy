/** What the deletion queue keeps. */
module HubSafety {
  import opened Wrappers
  import opened HubQueue

  predicate OnTheWayOut(row: Row) {
    row.lifecycle.Deleting? || row.lifecycle.DeleteFailed?
  }

  /** Operations are drawn once: two rows never share one, and what an attempt
      works on is still as it found it unless another operation claimed it. */
  ghost predicate OperationsFit(w: World) {
    && (forall id | id in w.table && w.table[id].op.Some? :: w.table[id].op.value in w.drawn)
    && (forall a, b | a in w.table && b in w.table && w.table[a].op.Some? && w.table[a].op == w.table[b].op :: a == b)
    && (forall id | id in w.table && OnTheWayOut(w.table[id]) :: w.table[id].op.Some?)
  }

  ghost predicate AttemptFits(w: World) {
    w.worker.Some? && w.worker.value.Trying? ==>
      var t := w.worker.value.attempt;
      && t.op in w.drawn
      && (forall id | id in w.table && w.table[id].op == Some(t.op) ::
            id == t.id && w.table[id].lifecycle == if t.deletes then Deleting else Cleaning)
      && (t.answer == Some(Purged) ==> t.op in w.purgedUnder)
  }

  ghost predicate Inv(w: World) {
    OperationsFit(w) && AttemptFits(w) && (w.worker.Some? ==> w.loaded)
  }

  ghost predicate DrawsFor(a: Action, id: InstanceId, op: OperationId) {
    (a.DeleteRequested? || a.SweepClaims?) && a.id == id && a.op == op
  }

  /** A row's operation is the one it had, or the one drawn for it just now. */
  lemma OperationsAfter(w: World, a: Action, id: InstanceId)
    requires Enabled(w, a) && id in Next(w, a).table
    ensures var row := Next(w, a).table[id];
            row.op.Some? ==> (id in w.table && w.table[id].op == row.op) || DrawsFor(a, id, row.op.value)
    ensures w.drawn <= Next(w, a).drawn
    ensures (a.DeleteRequested? || a.SweepClaims?) ==> a.op in Next(w, a).drawn && a.op !in w.drawn
  {
    hide HasClaim, IsOldest, Pending, CleanupEligible;
  }

  lemma WayOutAfter(w: World, a: Action, id: InstanceId)
    requires OperationsFit(w) && AttemptFits(w) && Enabled(w, a) && id in Next(w, a).table
    ensures OnTheWayOut(Next(w, a).table[id]) ==> Next(w, a).table[id].op.Some?
  {
    hide HasClaim, IsOldest, Pending, CleanupEligible;
  }

  lemma StepKeepsOperations(w: World, a: Action)
    requires Inv(w) && Enabled(w, a)
    ensures OperationsFit(Next(w, a))
  {
    var r := Next(w, a);
    hide Next, Enabled;
    forall id | id in r.table
      ensures r.table[id].op.Some? ==> r.table[id].op.value in r.drawn
      ensures OnTheWayOut(r.table[id]) ==> r.table[id].op.Some?
    {
      OperationsAfter(w, a, id);
      WayOutAfter(w, a, id);
    }
    forall x, y | x in r.table && y in r.table && r.table[x].op.Some? && r.table[x].op == r.table[y].op
      ensures x == y
    {
      OperationsAfter(w, a, x);
      OperationsAfter(w, a, y);
    }
  }

  lemma StepKeepsAttempt(w: World, a: Action)
    requires Inv(w) && Enabled(w, a)
    ensures AttemptFits(Next(w, a))
  {
    hide HasClaim, Pending;
  }

  lemma StepKeepsInv(w: World, a: Action)
    requires Inv(w) && Enabled(w, a)
    ensures Inv(Next(w, a))
  {
    StepKeepsOperations(w, a);
    StepKeepsAttempt(w, a);
    hide OperationsFit, AttemptFits, HasClaim, IsOldest, Pending, CleanupEligible;
  }

  lemma {:induction false} RunsKeepInv(run: Run, i: nat)
    requires IsRun(run) && i <= |run.actions|
    ensures Inv(run.worlds[i])
  {
    if i > 0 {
      hide Inv, Next, Enabled;
      RunsKeepInv(run, i - 1);
      StepKeepsInv(run.worlds[i - 1], run.actions[i - 1]);
    }
  }

  lemma RunSteps(run: Run, k: nat)
    requires IsRun(run) && k < |run.actions|
    ensures |run.worlds| == |run.actions| + 1
    ensures Enabled(run.worlds[k], run.actions[k]) && run.worlds[k + 1] == Next(run.worlds[k], run.actions[k])
  {
    hide Enabled, Next;
    assert run.actions[k] == run.actions[k];
  }

  // --- what follows for every run -----------------------------------------------

  /** However an attempt ends, its write changes at most the row it was made for,
      and that one only while the row still belongs to its operation and is still
      in the state the attempt is about. */
  lemma SupersededAttemptsChangeNothing(run: Run, i: nat, id: InstanceId)
    requires IsRun(run) && i < |run.actions| && run.actions[i].AttemptWrites? && id in run.worlds[i].table
    requires run.worlds[i].worker.Some? && run.worlds[i].worker.value.Trying?
    ensures var w, r, t := run.worlds[i], run.worlds[i + 1], run.worlds[i].worker.value.attempt;
            id !in r.table || r.table[id] != w.table[id] ==>
              && id == t.id && w.table[id].op == Some(t.op)
              && w.table[id].lifecycle == if t.deletes then Deleting else Cleaning
  {
    RunsKeepInv(run, i);
    RunSteps(run, i);
    hide OperationsFit, IsRun;
  }

  lemma DisappearingRow(w: World, a: Action, id: InstanceId)
    requires AttemptFits(w) && Enabled(w, a) && id in w.table && id !in Next(w, a).table
    ensures w.table[id].lifecycle.Deleting? && w.table[id].op.Some? && w.table[id].op.value in w.purgedUnder
  {
    hide HasClaim, IsOldest;
  }

  /** A row disappears only when a purge has reported success under the operation
      the row carries at that moment. */
  lemma RowsDisappearOnlyWhenPurged(run: Run, i: nat, id: InstanceId)
    requires IsRun(run) && i < |run.actions|
    requires id in run.worlds[i].table && id !in run.worlds[i + 1].table
    ensures run.worlds[i].table[id].lifecycle.Deleting? && run.worlds[i].table[id].op.Some?
    ensures run.worlds[i].table[id].op.value in run.worlds[i].purgedUnder
  {
    RunsKeepInv(run, i);
    RunSteps(run, i);
    hide OperationsFit, AttemptFits, IsRun, Next, Enabled;
    DisappearingRow(run.worlds[i], run.actions[i], id);
  }

  ghost predicate OnTheWayOutOrGone(w: World, id: InstanceId) {
    id in w.table ==> OnTheWayOut(w.table[id])
  }

  lemma DeletingMovesOn(w: World, a: Action, id: InstanceId)
    requires Inv(w) && Enabled(w, a) && id in w.table && OnTheWayOut(w.table[id])
    ensures id in Next(w, a).table ==> OnTheWayOut(Next(w, a).table[id])
  {
    hide HasClaim, IsOldest, OperationsFit;
  }

  /** Once a deletion has been requested there is no way back: as long as the row
      exists it is being deleted or waits to be deleted again. */
  lemma {:induction false} DeletionIsForGood(run: Run, i: nat, j: nat, id: InstanceId)
    requires IsRun(run) && i <= j <= |run.actions|
    requires id in run.worlds[i].table && OnTheWayOut(run.worlds[i].table[id])
    requires forall k {:trigger run.actions[k]} | i <= k < j :: !(run.actions[k].Register? && run.actions[k].id == id)
    ensures OnTheWayOutOrGone(run.worlds[j], id)
  {
    if i < j {
      DeletionIsForGood(run, i, j - 1, id);
      RunsKeepInv(run, j - 1);
      RunSteps(run, j - 1);
      hide IsRun, Inv;
      var w, a := run.worlds[j - 1], run.actions[j - 1];
      if id in w.table {
        hide Next, Enabled;
        DeletingMovesOn(w, a, id);
      } else {
        assert !(run.actions[j - 1].Register? && run.actions[j - 1].id == id);
        GoneStaysGone(w, a, id);
      }
    }
  }

  lemma GoneStaysGone(w: World, a: Action, id: InstanceId)
    requires Enabled(w, a) && id !in w.table && !(a.Register? && a.id == id)
    ensures id !in Next(w, a).table
  {
    hide HasClaim, IsOldest;
  }

  // --- what requests and attempts leave behind ------------------------------------

  /** Whoever asks for a deletion finds the row claimed for one afterwards: for the
      operation in flight if there is one, for the request's own otherwise. */
  lemma RequestsClaimDeletions(run: Run, i: nat, id: InstanceId)
    requires IsRun(run) && i < |run.actions| && run.actions[i].DeleteRequested? && id in run.worlds[i].table
    ensures var row, e := run.worlds[i].table[id], run.actions[i];
            && id in run.worlds[i + 1].table
            && var after := run.worlds[i + 1].table[id];
            && (id == e.id ==> after.lifecycle.Deleting? && after.op.Some?)
            && (id == e.id && !(row.lifecycle.Deleting? && row.op.Some?) ==>
                  after.op == Some(e.op) && after.updatedAt == e.now && after.settled == row.settled)
            && (id != e.id || (row.lifecycle.Deleting? && row.op.Some?) ==> after == row)
  {
    RunSteps(run, i);
    hide IsRun;
  }

  /** The write of an attempt is about a row that still belongs to its operation. */
  predicate StillHeld(w: World, t: Attempt) {
    w.worker == Some(Trying(t)) && t.answer.Some? && t.id in w.table && w.table[t.id].op == Some(t.op)
  }

  /** A cleanup that still holds its row leaves it cleaned, free and unclaimed after
      a success; failed, with no claim pending but eligible as before after an
      error; and in the queue, behind everything older, otherwise. */
  lemma CleanupsEnd(run: Run, i: nat, t: Attempt, cutoff: int)
    requires IsRun(run) && i < |run.actions| && run.actions[i].AttemptWrites? && StillHeld(run.worlds[i], t)
    requires !t.deletes
    ensures var row, now := run.worlds[i].table[t.id], run.actions[i].now;
            && row.lifecycle.Cleaning?
            && t.id in run.worlds[i + 1].table
            && var after := run.worlds[i + 1].table[t.id];
            && after.settled == row.settled
            && (after.lifecycle.Cleaned? <==> t.answer.value.Purged?)
            && (after.lifecycle.CleanFailed? <==> t.answer.value.Broke?)
            && (after.lifecycle.Cleaned? ==> after.op.None? && !CleanupEligible(after, cutoff))
            && (after.lifecycle.CleanFailed? ==>
                  && after.op == Some(t.op) && !ClaimedFor(after, Cleaning)
                  && (CleanupEligible(after, cutoff) <==> row.settled && row.updatedAt < cutoff))
            && (!t.answer.value.Purged? && !t.answer.value.Broke? ==>
                  after == row.(updatedAt := now) && ClaimedFor(after, Cleaning) && after.op == Some(t.op))
            && (t.answer.value.Purged? || t.answer.value.Broke? ==> after.updatedAt == row.updatedAt)
  {
    RunsKeepInv(run, i);
    RunSteps(run, i);
    hide OperationsFit, IsRun;
  }

  /** A deletion that still holds its row removes it after a success; leaves it
      failed, under its operation but unclaimed, after an error; and leaves it in the
      queue, behind everything older, otherwise. */
  lemma DeletionsEnd(run: Run, i: nat, t: Attempt)
    requires IsRun(run) && i < |run.actions| && run.actions[i].AttemptWrites? && StillHeld(run.worlds[i], t)
    requires t.deletes
    ensures var row, table, now := run.worlds[i].table[t.id], run.worlds[i + 1].table, run.actions[i].now;
            && row.lifecycle.Deleting?
            && (t.id !in table <==> t.answer.value.Purged?)
            && (t.id in table ==>
                  && table[t.id].op == Some(t.op) && table[t.id].updatedAt == now && table[t.id].settled == row.settled
                  && (table[t.id].lifecycle.DeleteFailed? <==> t.answer.value.Broke?)
                  && (ClaimedFor(table[t.id], Deleting) <==> !t.answer.value.Broke?))
  {
    RunsKeepInv(run, i);
    RunSteps(run, i);
    hide OperationsFit, IsRun;
  }

  ghost predicate CleanOrOut(w: World, id: InstanceId) {
    id in w.table ==> OnTheWayOut(w.table[id]) || (w.table[id].lifecycle.Cleaned? && w.table[id].op.None?)
  }

  lemma CleanRowsMoveOn(w: World, a: Action, id: InstanceId)
    requires Inv(w) && Enabled(w, a) && CleanOrOut(w, id) && !(a.Register? && a.id == id)
    ensures CleanOrOut(Next(w, a), id)
    ensures a.SweepClaims? && a.id == id ==> Next(w, a).table == w.table
  {
    hide HasClaim, IsOldest, OperationsFit;
  }

  /** A row once cleaned is never swept again: whatever happens it stays as it is
      until a deletion takes it, and every sweep that comes by leaves it alone. */
  lemma {:induction false} CleanedIsForGood(run: Run, i: nat, j: nat, id: InstanceId)
    requires IsRun(run) && i <= j <= |run.actions|
    requires id in run.worlds[i].table && run.worlds[i].table[id].lifecycle.Cleaned? && run.worlds[i].table[id].op.None?
    requires forall k {:trigger run.actions[k]} | i <= k < j :: !(run.actions[k].Register? && run.actions[k].id == id)
    ensures CleanOrOut(run.worlds[j], id)
    ensures j < |run.actions| && run.actions[j].SweepClaims? && run.actions[j].id == id ==>
              run.worlds[j + 1].table == run.worlds[j].table
  {
    hide Inv, Next, Enabled;
    if i < j {
      CleanedIsForGood(run, i, j - 1, id);
      RunsKeepInv(run, j - 1);
      RunSteps(run, j - 1);
      assert !(run.actions[j - 1].Register? && run.actions[j - 1].id == id);
      CleanRowsMoveOn(run.worlds[j - 1], run.actions[j - 1], id);
    }
    if j < |run.actions| && run.actions[j].SweepClaims? {
      RunsKeepInv(run, j);
      RunSteps(run, j);
      CleanRowsMoveOn(run.worlds[j], run.actions[j], id);
    }
    hide IsRun;
  }

  /** In every run: an alarm takes the oldest deletion, or else the oldest cleanup, for
      the operation that claimed it, and rests without one; after its attempt it is set
      again exactly if a claim is left of either kind. One that is cut off comes again. */
  lemma AlarmsTryOneClaim(run: Run, i: nat)
    requires IsRun(run) && i < |run.actions|
    ensures var w, r, a := run.worlds[i], run.worlds[i + 1], run.actions[i];
            && (a.AlarmFires? ==> !r.alarm && r.worker == Some(PickingDeletion))
            && (a.WorkerPicks? ==>
                  && IsOldest(w.table, a.id, if w.worker == Some(PickingDeletion) then Deleting else Cleaning)
                  && r.worker == Some(Trying(Attempt(a.id, w.table[a.id].op.value, w.worker == Some(PickingDeletion),
                                                     None))))
            && (a.WorkerFindsNone? && w.worker == Some(PickingDeletion) ==>
                  !HasClaim(w.table, Deleting) && r.worker == Some(PickingCleanup))
            && (a.WorkerFindsNone? && w.worker == Some(PickingCleanup) ==>
                  !HasClaim(w.table, Cleaning) && r.worker == Some(LookingForDeletions))
            && (a.AttemptWrites? ==> r.worker == Some(LookingForDeletions))
            && (a.NoDeletionsLeft? ==> !HasClaim(w.table, Deleting) && r.worker == Some(LookingForCleanups))
            && (a.NoCleanupsLeft? ==> !HasClaim(w.table, Cleaning) && r.worker.None? && r.alarm == w.alarm)
            && (a.PendingFound? ==> Pending(w.table) && r.worker == Some(Rearming))
            && (a.AlarmRearms? ==> r.alarm && r.worker.None?)
            && (a.Evicted? ==> !r.loaded && r.worker.None? && (r.alarm <==> w.alarm || w.worker.Some?))
            && (a.Reloaded? ==> r.loaded && (r.alarm <==> w.alarm || Pending(w.table)))
            && (!a.AttemptWrites? && !a.Register? && !a.Touch? && !a.DeleteRequested? && !a.SweepClaims? ==>
               r.table == w.table)
  {
    RunSteps(run, i);
    hide IsRun, HasClaim, IsOldest;
  }

  // --- stranded claims ----------------------------------------------------------

  /** A claim waits, and nothing is left that would look at it. */
  ghost predicate Stranded(w: World) {
    w.loaded && Pending(w.table) && !w.alarm && w.worker.None? && w.deleters + w.sweepers == 0
  }

  /** The last claimer that owes a poke dies with a claim waiting and no worker
      awake, or the worker goes to rest, having seen no cleanup, behind a deletion
      nobody will poke for. */
  ghost predicate Strands(w: World, a: Action) {
    && w.loaded && !w.alarm && Pending(w.table)
    && (|| ((a.DeleterDies? || a.SweeperDies?) && w.worker.None? && w.deleters + w.sweepers == 1)
        || (a.NoCleanupsLeft? && w.deleters + w.sweepers == 0))
  }

  /** A new claimer comes, or the object goes and will look when it loads again. */
  predicate Rescues(w: World, a: Action) {
    || a.Evicted?
    || (a.DeleteRequested? && a.id in w.table)
    || (a.SweepClaims? && a.first && Claims(w, a))
  }

  /** Claims were stranded, and nothing has rescued them since. */
  ghost predicate WereStranded(run: Run, i: nat)
    requires IsRun(run) && i <= |run.actions|
  {
    i > 0 &&
    (|| Strands(run.worlds[i - 1], run.actions[i - 1])
     || (WereStranded(run, i - 1) && !Rescues(run.worlds[i - 1], run.actions[i - 1])))
  }

  lemma RegisteringKeepsPending(w: World, a: Action)
    requires Enabled(w, a) && (a.Register? || a.Touch?)
    ensures Pending(Next(w, a).table) <==> Pending(w.table)
  {
    var table := Next(w, a).table;
    forall id | id in table
      ensures ClaimedFor(table[id], Deleting) <==> id in w.table && ClaimedFor(w.table[id], Deleting)
      ensures ClaimedFor(table[id], Cleaning) <==> id in w.table && ClaimedFor(w.table[id], Cleaning)
    {}
    forall id | id in w.table ensures id in table {}
  }

  /** One action: claims are stranded by exactly those, until they are rescued. */
  lemma ClaimsAreStrandedExactlyWhen(w: World, a: Action)
    requires Inv(w) && Enabled(w, a)
    ensures Stranded(Next(w, a)) <==> Strands(w, a) || (Stranded(w) && !Rescues(w, a))
  {
    hide OperationsFit, AttemptFits, IsOldest;
    if a.Register? || a.Touch? {
      RegisteringKeepsPending(w, a);
      hide HasClaim, ClaimedFor;
    }
  }

  /** In every run claims are stranded exactly if one of those actions stranded
      them and nothing has rescued them since. */
  lemma {:induction false} RunsStrandExactlyWhen(run: Run, i: nat)
    requires IsRun(run) && i <= |run.actions|
    ensures Stranded(run.worlds[i]) <==> WereStranded(run, i)
  {
    if i > 0 {
      hide IsRun, Inv, Next, Enabled, Stranded, Strands, Rescues;
      RunsKeepInv(run, i - 1);
      RunSteps(run, i - 1);
      RunsStrandExactlyWhen(run, i - 1);
      ClaimsAreStrandedExactlyWhen(run.worlds[i - 1], run.actions[i - 1]);
    }
  }

  /** While a claim waits an alarm is set, the worker is awake, a poke is coming,
      or the object is about to load and look, exactly if it was not stranded; and
      the load that follows finds even a stranded one. */
  lemma ClaimsAreSeenTo(run: Run, i: nat)
    requires IsRun(run) && i <= |run.actions| && Pending(run.worlds[i].table)
    ensures var w := run.worlds[i];
            (w.alarm || w.worker.Some? || w.deleters > 0 || w.sweepers > 0 || !w.loaded) <==> !WereStranded(run, i)
    ensures i > 0 && run.actions[i - 1].Reloaded? ==> run.worlds[i].alarm && !WereStranded(run, i)
  {
    if i > 0 { RunSteps(run, i - 1); }
    RunsStrandExactlyWhen(run, i);
    hide IsRun, WereStranded, Pending;
  }

  /** A claim has an alarm, a worker or a poke coming, and a deletion has them
      besides the worker that no longer looks for one. */
  ghost predicate QueueSeenTo(w: World) {
    && (Pending(w.table) ==> w.alarm || w.worker.Some? || w.deleters + w.sweepers > 0 || !w.loaded)
    && (w.worker == Some(LookingForCleanups) && HasClaim(w.table, Deleting) ==> w.alarm || w.deleters + w.sweepers > 0)
  }

  lemma LivingClaimersSeeToTheQueue(w: World, a: Action)
    requires Inv(w) && Enabled(w, a) && QueueSeenTo(w) && !a.DeleterDies? && !a.SweeperDies?
    ensures QueueSeenTo(Next(w, a))
  {
    hide OperationsFit, AttemptFits, IsOldest;
  }

  /** As long as no claimer dies before its poke, no claim is ever stranded. */
  lemma {:induction false} OnlyDeadClaimersStrand(run: Run, i: nat)
    requires IsRun(run) && i <= |run.actions|
    requires forall k {:trigger run.actions[k]} | 0 <= k < i :: !run.actions[k].DeleterDies?
               && !run.actions[k].SweeperDies?
    ensures QueueSeenTo(run.worlds[i]) && !Stranded(run.worlds[i])
  {
    if i > 0 {
      hide IsRun, Inv, Next, Enabled, Pending;
      RunsKeepInv(run, i - 1);
      RunSteps(run, i - 1);
      OnlyDeadClaimersStrand(run, i - 1);
      LivingClaimersSeeToTheQueue(run.worlds[i - 1], run.actions[i - 1]);
    }
  }

  /** A deferred deletion lets every older claim go first. */
  lemma DeferredGoesLast(table: map<InstanceId, Row>, id: InstanceId, op: OperationId, now: int, other: InstanceId)
    requires id in table && ClaimedFor(table[id], Deleting) && table[id].op == Some(op)
    requires other in table && ClaimedFor(table[other], Deleting) && table[other].updatedAt < now && other != id
    ensures !IsOldest(Defer(table, id, op, now), id, Deleting)
  {
    assert ClaimedFor(Defer(table, id, op, now)[other], Deleting);
  }
}
