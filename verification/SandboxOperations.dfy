/** The Sandbox's counters and its chain of mutations as an object: who is counted
    in and out, whose turn it is, and what a purge waits for. */
module SandboxOperations {
  import opened PurgeBarrier

  class Operations {
    var instanceActive: bool
    var purgeRequested: bool
    var activeOperations: int
    var lifecycleOperations: int

    // Who is counted, and the tickets of the chain.
    ghost var operations: set<OperationId>
    ghost var inspections: set<OperationId>
    ghost var waiting: map<Ticket, Promise>
    ghost var running: set<Ticket>
    ghost var released: set<Ticket>
    var lifecycleMutationTail: Promise
    var drawn: nat

    // The drains that wait, by purge.
    var purges: map<Kind, PurgeAt>
    var instanceKnown: bool
    var purgeStored: bool
    var identity: Identity

    ghost function View(): Barrier
      reads this
    {
      Barrier(instanceActive, purgeRequested, operations, inspections, waiting, running, released,
        lifecycleMutationTail, drawn,
              activeOperations, lifecycleOperations, purges, instanceKnown, purgeStored, identity)
    }

    constructor ()
      ensures IsStart(View())
    {
      instanceActive, purgeRequested, activeOperations, lifecycleOperations := true, false, 0, 0;
      operations, inspections, waiting, running, released := {}, {}, map[], {}, {};
      lifecycleMutationTail, drawn := Settled, 0;
      purges, instanceKnown, purgeStored, identity := map[], true, false, ActiveInstance;
    }

    /** `false` is the error a purge turns callers away with. */
    method BeginActiveOperation(ghost id: OperationId) returns (counted: bool)
      requires Enabled(View(), OperationBegins(id))
      modifies this
      ensures View() == Next(old(View()), OperationBegins(id)) && counted == IsActive(old(View()))
    {
      if !instanceActive || purgeRequested {
        return false;
      }
      activeOperations := activeOperations + 1;
      operations := operations + {id};
      return true;
    }

    method FinishActiveOperation(ghost id: OperationId)
      requires Enabled(View(), OperationEnds(id))
      modifies this
      ensures View() == Next(old(View()), OperationEnds(id))
    {
      activeOperations := activeOperations - 1;
      operations := operations - {id};
      if activeOperations == 0 {
        purges := map k | k in purges :: if purges[k].Draining? then purges[k].(operations := true) else purges[k];
      }
    }

    method BeginLifecycleRead(ghost id: OperationId) returns (counted: bool)
      requires Enabled(View(), ReadBegins(id))
      modifies this
      ensures View() == Next(old(View()), ReadBegins(id)) && counted == IsActive(old(View()))
    {
      if !instanceActive || purgeRequested {
        return false;
      }
      lifecycleOperations := lifecycleOperations + 1;
      inspections := inspections + {id};
      return true;
    }

    method FinishLifecycleRead(ghost id: OperationId)
      requires Enabled(View(), ReadEnds(id))
      modifies this
      ensures View() == Next(old(View()), ReadEnds(id))
    {
      inspections := inspections - {id};
      FinishLifecycleOperation();
    }

    /** What a read and a mutation have in common when they end. */
    method FinishLifecycleOperation()
      modifies this`lifecycleOperations, this`purges
      ensures View() == LifecycleCounted(old(View()).(lifecycleCount := old(lifecycleOperations) - 1))
    {
      lifecycleOperations := lifecycleOperations - 1;
      if lifecycleOperations == 0 {
        purges := map k | k in purges :: if purges[k].Draining? then purges[k].(lifecycle := true) else purges[k];
      }
    }

    /** A mutation takes its place at the end of the chain, and is to wait for the
        promise it found there. */
    method CallMutation() returns (ticket: Ticket, previous: Promise, counted: bool)
      modifies this
      ensures View() == Next(old(View()), MutationCalled) && counted == IsActive(old(View()))
      ensures counted ==> ticket == old(drawn) && previous == waiting[ticket] == old(lifecycleMutationTail)
    {
      ticket, previous := drawn, lifecycleMutationTail;
      if !instanceActive || purgeRequested {
        return ticket, previous, false;
      }
      lifecycleOperations := lifecycleOperations + 1;
      waiting := waiting[drawn := previous];
      lifecycleMutationTail := Then(previous, drawn);
      drawn := drawn + 1;
      return ticket, previous, true;
    }

    /** Its turn: a mutation that a purge has overtaken runs no body. */
    method RunMutation(ticket: Ticket) returns (runs: bool)
      requires Enabled(View(), MutationRuns(ticket))
      modifies this
      ensures View() == Next(old(View()), MutationRuns(ticket)) && runs == IsActive(old(View()))
    {
      waiting := waiting - {ticket};
      runs := instanceActive && !purgeRequested;
      if runs {
        running := running + {ticket};
      } else {
        released := released + {ticket};
        FinishLifecycleOperation();
      }
    }

    method FinishMutation(ticket: Ticket)
      requires Enabled(View(), MutationEnds(ticket))
      modifies this
      ensures View() == Next(old(View()), MutationEnds(ticket))
    {
      running := running - {ticket};
      released := released + {ticket};
      FinishLifecycleOperation();
    }

    /** A purge closes the instance in memory before it stores anything. */
    method RequestPurge(kind: Kind)
      requires Enabled(View(), PurgeCalled(kind))
      modifies this
      ensures View() == Next(old(View()), PurgeCalled(kind))
    {
      purgeRequested := true;
      instanceActive := false;
      if instanceKnown {
        purges := purges[kind := Marking];
      }
    }

    method MarkPurge(kind: Kind)
      requires Enabled(View(), PurgeMarked(kind))
      modifies this
      ensures View() == Next(old(View()), PurgeMarked(kind))
    {
      purgeStored := true;
      identity := DeletingInstance;
      purges := purges[kind := Draining(activeOperations == 0, lifecycleOperations == 0)];
    }
  }
}
