/** Who may still be at work in a Sandbox that is being purged. Mutations queue on
    a chain of promises, two counters say what a purge has to wait for, and the
    purge flag keeps anything new from being counted. */
module PurgeBarrier {
  import opened Wrappers

  type Ticket = nat
  type OperationId = nat

  /** Deleting the instance and cleaning it up are two purges that may overlap. */
  datatype Kind = Delete | Clean

  /** A drain is over once its counter has been zero. */
  datatype PurgeAt = Marking | Draining(operations: bool, lifecycle: bool) | Sweeping

  /** The stored identity of the instance only ever moves to the right. */
  datatype Identity = ActiveInstance | DeletingInstance | NoInstance

  /** The tail of the chain: what a mutation waits for. It resolves once the promise
      before it has and the mutation with the ticket has released its own. */
  datatype Promise = Settled | Then(previous: Promise, ticket: Ticket)

  /** A ticket is drawn when a mutation is called; its promise resolves when the
      mutation releases it. `waiting` is the promise each suspended mutation waits
      for. `known` is whether the object has an identity in memory;
      `purgeStored` and `identity` are what is in storage. */
  datatype Barrier = Barrier(
    active: bool,
    purging: bool,
    operations: set<OperationId>,
    inspections: set<OperationId>,
    waiting: map<Ticket, Promise>,
    running: set<Ticket>,
    released: set<Ticket>,
    tail: Promise,
    drawn: nat,
    operationCount: int,
    lifecycleCount: int,
    purges: map<Kind, PurgeAt>,
    known: bool,
    purgeStored: bool,
    identity: Identity)

  datatype Action =
    | OperationBegins(id: OperationId)
    | OperationEnds(id: OperationId)
    | ReadBegins(id: OperationId)
    | ReadEnds(id: OperationId)
    | MutationCalled
    | MutationRuns(ticket: Ticket)
    | MutationEnds(ticket: Ticket)
    | PurgeCalled(kind: Kind)
    | PurgeMarked(kind: Kind)
    | PurgeDrained(kind: Kind)
    | PurgeReturns(kind: Kind, wipes: bool)
    | Evicted

  ghost predicate IsStart(b: Barrier) {
    b == Barrier(true, false, {}, {}, map[], {}, {}, Settled, 0, 0, 0, map[], true, false, ActiveInstance)
  }

  predicate IsActive(b: Barrier) {
    b.active && !b.purging
  }

  predicate StillOut(b: Barrier, ticket: Ticket) {
    ticket in b.waiting || ticket in b.running
  }

  predicate IsResolved(promise: Promise, released: set<Ticket>) {
    promise.Then? ==> promise.ticket in released && IsResolved(promise.previous, released)
  }

  /** No earlier ticket is still out. */
  ghost predicate TurnHasCome(b: Barrier, ticket: Ticket) {
    forall t: Ticket :: StillOut(b, t) ==> ticket <= t
  }

  ghost predicate Enabled(b: Barrier, a: Action) {
    match a
    case OperationBegins(id) => id !in b.operations
    case OperationEnds(id) => id in b.operations
    case ReadBegins(id) => id !in b.inspections
    case ReadEnds(id) => id in b.inspections
    case MutationCalled => true
    case MutationRuns(t) => t in b.waiting && IsResolved(b.waiting[t], b.released)
    case MutationEnds(t) => t in b.running
    case PurgeCalled(kind) => kind !in b.purges
    case PurgeMarked(kind) => kind in b.purges && b.purges[kind].Marking?
    case PurgeDrained(kind) => kind in b.purges && b.purges[kind] == Draining(true, true)
    case PurgeReturns(kind, _) => kind in b.purges && b.purges[kind].Sweeping?
    case Evicted => true
  }

  ghost function Next(b: Barrier, a: Action): Barrier
    requires Enabled(b, a)
  {
    match a
    case OperationBegins(id) =>
      if !IsActive(b) then b
      else b.(operations := b.operations + {id}, operationCount := b.operationCount + 1)
    case OperationEnds(id) =>
      OperationsCounted(b.(operations := b.operations - {id}, operationCount := b.operationCount - 1))
    case ReadBegins(id) =>
      if !IsActive(b) then b
      else b.(inspections := b.inspections + {id}, lifecycleCount := b.lifecycleCount + 1)
    case ReadEnds(id) =>
      LifecycleCounted(b.(inspections := b.inspections - {id}, lifecycleCount := b.lifecycleCount - 1))
    case MutationCalled =>
      if !IsActive(b) then b
      else b.(waiting := b.waiting[b.drawn := b.tail], tail := Then(b.tail, b.drawn), drawn := b.drawn + 1,
              lifecycleCount := b.lifecycleCount + 1)
    case MutationRuns(t) =>
      // Looked at again when its turn comes: a refused mutation releases at once.
      if IsActive(b) then b.(waiting := b.waiting - {t}, running := b.running + {t})
      else LifecycleCounted(Released(b.(waiting := b.waiting - {t}), t))
    case MutationEnds(t) =>
      LifecycleCounted(Released(b.(running := b.running - {t}), t))
    case PurgeCalled(kind) =>
      var called := b.(purging := true, active := false);
      if b.known then called.(purges := b.purges[kind := Marking]) else called
    case PurgeMarked(kind) =>
      b.(purgeStored := true, identity := DeletingInstance,
         purges := b.purges[kind := Draining(b.operationCount == 0, b.lifecycleCount == 0)])
    case PurgeDrained(kind) => b.(purges := b.purges[kind := Sweeping])
    case PurgeReturns(kind, wipes) =>
      var returned := b.(purges := b.purges - {kind});
      if wipes then returned.(purgeStored := false, identity := NoInstance) else returned
    case Evicted =>
      b.(purging := b.purgeStored, active := b.identity.ActiveInstance? && !b.purgeStored,
         known := !b.identity.NoInstance?, operations := {}, inspections := {},
         waiting := map[], running := {}, tail := Settled, operationCount := 0, lifecycleCount := 0, purges := map[])
  }

  /** A mutation that is over, run or refused, resolves its promise and is counted out. */
  function Released(b: Barrier, ticket: Ticket): Barrier {
    b.(released := b.released + {ticket}, lifecycleCount := b.lifecycleCount - 1)
  }

  /** A counter that reaches zero resolves every drain that waits for it. */
  function OperationsCounted(b: Barrier): Barrier {
    if b.operationCount != 0 then b
    else
      b.(purges := map k | k in b.purges ::
                     if b.purges[k].Draining? then b.purges[k].(operations := true) else b.purges[k])
  }

  function LifecycleCounted(b: Barrier): Barrier {
    if b.lifecycleCount != 0 then b
    else
      b.(purges := map k | k in b.purges ::
                     if b.purges[k].Draining? then b.purges[k].(lifecycle := true) else b.purges[k])
  }

  datatype Run = Run(actions: seq<Action>, states: seq<Barrier>)

  ghost predicate IsRun(run: Run) {
    && |run.states| == |run.actions| + 1
    && IsStart(run.states[0])
    && (forall k {:trigger run.actions[k]} | 0 <= k < |run.actions| ::
          Enabled(run.states[k], run.actions[k]) && run.states[k + 1] == Next(run.states[k], run.actions[k]))
  }

  // --- what every step keeps -------------------------------------------------

  ghost predicate Counted(b: Barrier) {
    && b.operationCount == |b.operations|
    && b.lifecycleCount == |b.inspections| + |b.waiting| + |b.running|
  }

  predicate Holds(promise: Promise, ticket: Ticket) {
    promise.Then? && (promise.ticket == ticket || Holds(promise.previous, ticket))
  }

  /** Every ticket of the promise was drawn before `bound`, and is out or released. */
  ghost predicate HoldsOnly(b: Barrier, promise: Promise, bound: nat) {
    forall t: Ticket :: Holds(promise, t) ==> t < bound && (t in b.released || StillOut(b, t))
  }

  /** Whoever waits for a promise waits for the tickets still out before it, and
      for none but those and released ones. */
  ghost predicate Chained(b: Barrier) {
    && (forall t: Ticket :: StillOut(b, t) ==> Holds(b.tail, t) && t !in b.released)
    && (forall t, u: Ticket | t in b.waiting && StillOut(b, u) && u < t :: Holds(b.waiting[t], u))
    && HoldsOnly(b, b.tail, b.drawn)
    && (forall t | t in b.waiting :: HoldsOnly(b, b.waiting[t], t))
    && (forall t | t in b.released :: t < b.drawn)
  }

  /** At most one mutation runs, and it drew the lowest ticket still out. */
  ghost predicate Exclusive(b: Barrier) {
    && (forall t | t in b.running :: TurnHasCome(b, t))
    && (forall t: Ticket :: StillOut(b, t) ==> t < b.drawn)
    && b.running !! b.waiting.Keys
  }

  ghost predicate DrainsHold(b: Barrier) {
    && (forall k | k in b.purges ::
          && b.purging
          && (b.purges[k].Draining? ==>
                && (b.purges[k].operations ==> b.operationCount == 0)
                && (b.purges[k].lifecycle ==> b.lifecycleCount == 0))
          && (b.purges[k].Sweeping? ==> b.operationCount == 0 && b.lifecycleCount == 0)
          && (!b.purges[k].Marking? ==> !b.identity.ActiveInstance?))
    && (b.purgeStored ==> b.purging)
    && (!b.identity.ActiveInstance? ==> !IsActive(b))
  }

  ghost predicate Inv(b: Barrier) {
    Counted(b) && Chained(b) && Exclusive(b) && DrainsHold(b)
  }

  lemma CountingKeepsCounted(b: Barrier)
    requires Counted(b)
    ensures Counted(OperationsCounted(b)) && Counted(LifecycleCounted(b))
  {}

  lemma OperationsKeepCounted(b: Barrier, id: OperationId)
    requires Inv(b)
    ensures Enabled(b, OperationBegins(id)) ==> Counted(Next(b, OperationBegins(id)))
    ensures Enabled(b, OperationEnds(id)) ==> Counted(Next(b, OperationEnds(id)))
  {
    hide Chained, Exclusive, DrainsHold, TurnHasCome, OperationsCounted;
    if id in b.operations {
      CountingKeepsCounted(b.(operations := b.operations - {id}, operationCount := b.operationCount - 1));
    }
  }

  lemma ReadBeginsKeepCounted(b: Barrier, id: OperationId)
    requires Counted(b) && Enabled(b, ReadBegins(id))
    ensures Counted(Next(b, ReadBegins(id)))
  {
    assert |b.inspections + {id}| == |b.inspections| + 1;
  }

  lemma ReadEndsKeepCounted(b: Barrier, id: OperationId)
    requires Counted(b) && Enabled(b, ReadEnds(id))
    ensures Counted(Next(b, ReadEnds(id)))
  {
    assert |b.inspections - {id}| == |b.inspections| - 1;
    hide LifecycleCounted;
    CountingKeepsCounted(b.(inspections := b.inspections - {id}, lifecycleCount := b.lifecycleCount - 1));
  }

  lemma TurnsKeepCounted(b: Barrier, t: Ticket)
    requires Inv(b) && Enabled(b, MutationRuns(t))
    ensures Counted(Next(b, MutationRuns(t)))
  {
    assert t !in b.running;
    assert |b.waiting - {t}| == |b.waiting| - 1 && |b.running + {t}| == |b.running| + 1;
    hide Chained, Exclusive, DrainsHold, TurnHasCome, LifecycleCounted;
    CountingKeepsCounted(Released(b.(waiting := b.waiting - {t}), t));
  }

  lemma MutationEndsKeepCounted(b: Barrier, t: Ticket)
    requires Inv(b) && Enabled(b, MutationEnds(t))
    ensures Counted(Next(b, MutationEnds(t)))
  {
    hide Chained, Exclusive, DrainsHold, TurnHasCome, LifecycleCounted;
    assert |b.running - {t}| == |b.running| - 1;
    CountingKeepsCounted(Released(b.(running := b.running - {t}), t));
  }

  lemma StepKeepsCounted(b: Barrier, a: Action)
    requires Inv(b) && Enabled(b, a)
    ensures Counted(Next(b, a))
  {
    TicketsAreOld(b);
    match a
    case OperationBegins(id) => OperationsKeepCounted(b, id);
    case OperationEnds(id) => OperationsKeepCounted(b, id);
    case ReadBegins(id) => ReadBeginsKeepCounted(b, id);
    case ReadEnds(id) => ReadEndsKeepCounted(b, id);
    case MutationRuns(t) => TurnsKeepCounted(b, t);
    case MutationEnds(t) => MutationEndsKeepCounted(b, t);
    case _ => hide Chained, Exclusive, DrainsHold;
  }

  lemma TicketsAreOld(b: Barrier)
    requires Exclusive(b)
    ensures b.drawn !in b.waiting && b.drawn !in b.running
  {
    assert !StillOut(b, b.drawn);
  }

  lemma {:induction false} ResolvedHoldsReleased(promise: Promise, released: set<Ticket>, ticket: Ticket)
    requires IsResolved(promise, released) && Holds(promise, ticket)
    ensures ticket in released
  {
    if promise.ticket != ticket {
      ResolvedHoldsReleased(promise.previous, released, ticket);
    }
  }

  /** Once the promise a mutation waits for has resolved, nothing before it is out. */
  lemma ResolvedTurnsHaveCome(b: Barrier, ticket: Ticket)
    requires Chained(b) && ticket in b.waiting && IsResolved(b.waiting[ticket], b.released)
    ensures TurnHasCome(b, ticket)
  {
    forall u: Ticket | StillOut(b, u) && u < ticket ensures false {
      ResolvedHoldsReleased(b.waiting[ticket], b.released, u);
    }
  }

  lemma {:induction false} ReleasedResolves(promise: Promise, released: set<Ticket>)
    requires forall t: Ticket :: Holds(promise, t) ==> t in released
    ensures IsResolved(promise, released)
  {
    if promise.Then? {
      assert Holds(promise, promise.ticket);
      forall t: Ticket | Holds(promise.previous, t) ensures t in released {
        assert Holds(promise, t);
      }
      ReleasedResolves(promise.previous, released);
    }
  }

  /** And when nothing before is out, it has. */
  lemma TurnsThatHaveComeAreResolved(b: Barrier, ticket: Ticket)
    requires Chained(b) && ticket in b.waiting && TurnHasCome(b, ticket)
    ensures IsResolved(b.waiting[ticket], b.released)
  {
    forall u: Ticket | Holds(b.waiting[ticket], u) ensures u in b.released {
      assert HoldsOnly(b, b.waiting[ticket], ticket);
    }
    ReleasedResolves(b.waiting[ticket], b.released);
  }

  lemma StepKeepsChained(b: Barrier, a: Action)
    requires Inv(b) && Enabled(b, a)
    ensures Chained(Next(b, a))
  {
    hide Counted, DrainsHold, Chained, Next, Enabled;
    match a
    case MutationCalled => CallingKeepsChained(b);
    case MutationRuns(t) => TurnsKeepChained(b, t);
    case MutationEnds(t) => EndingKeepsChained(b, t);
    case Evicted => NothingIsChained(b);
    case _ => OthersKeepChained(b, a);
  }

  lemma TurnsKeepChained(b: Barrier, t: Ticket)
    requires Chained(b) && Exclusive(b) && Enabled(b, MutationRuns(t))
    ensures Chained(Next(b, MutationRuns(t)))
  {
    assert StillOut(b, t);
    hide Chained, IsResolved, TurnHasCome;
    FewerKeepChained(b, Next(b, MutationRuns(t)), t);
  }

  lemma EndingKeepsChained(b: Barrier, t: Ticket)
    requires Chained(b) && Exclusive(b) && Enabled(b, MutationEnds(t))
    ensures Chained(Next(b, MutationEnds(t)))
  {
    assert StillOut(b, t);
    hide Chained, TurnHasCome;
    FewerKeepChained(b, Next(b, MutationEnds(t)), t);
  }

  lemma OthersLeaveTickets(b: Barrier, a: Action)
    requires Enabled(b, a) && !a.MutationCalled? && !a.MutationRuns? && !a.MutationEnds? && !a.Evicted?
    ensures var r := Next(b, a);
            && r.waiting == b.waiting && r.running == b.running && r.released == b.released
            && r.tail == b.tail && r.drawn == b.drawn
  {}

  lemma OthersKeepChained(b: Barrier, a: Action)
    requires Chained(b) && Enabled(b, a)
    requires !a.MutationCalled? && !a.MutationRuns? && !a.MutationEnds? && !a.Evicted?
    ensures Chained(Next(b, a))
  {
    hide Chained, Next, Enabled;
    OthersLeaveTickets(b, a);
    FewerKeepChained(b, Next(b, a), b.drawn);
  }

  lemma NothingIsChained(b: Barrier)
    requires Chained(b)
    ensures Chained(Next(b, Evicted))
  {
    hide IsResolved, TurnHasCome;
  }

  lemma CallingKeepsChained(b: Barrier)
    requires Chained(b) && Exclusive(b)
    ensures Chained(Next(b, MutationCalled))
  {
    hide IsResolved, TurnHasCome;
    TicketsAreOld(b);
    var r := Next(b, MutationCalled);
    if IsActive(b) {
      forall t: Ticket ensures StillOut(r, t) <==> StillOut(b, t) || t == b.drawn {}
      assert StillOut(r, b.drawn) && HoldsOnly(b, b.tail, b.drawn);
      forall t: Ticket | Holds(r.tail, t) ensures t < r.drawn && (t in r.released || StillOut(r, t)) {
        assert t == b.drawn || Holds(b.tail, t);
      }
      forall t | t in r.waiting ensures HoldsOnly(r, r.waiting[t], t) {
        assert t == b.drawn || HoldsOnly(b, b.waiting[t], t);
      }
      forall t, u: Ticket | t in r.waiting && StillOut(r, u) && u < t ensures Holds(r.waiting[t], u) {
        assert t == b.drawn || t < b.drawn by { assert StillOut(r, t); }
      }
    }
  }

  /** With fewer tickets out, and one that is not out released, the chain holds. */
  lemma FewerKeepChained(b: Barrier, r: Barrier, t: Ticket)
    requires Chained(b) && r.tail == b.tail && r.drawn == b.drawn
    requires forall u | u in r.waiting :: u in b.waiting && r.waiting[u] == b.waiting[u]
    requires forall u | u in r.running :: u in b.running || u in b.waiting
    requires forall u | u in b.running || u in b.waiting :: u in r.running || u in r.waiting || u in r.released
    requires r.released == b.released
               || (r.released == b.released + {t} && t < b.drawn && t !in r.waiting && t !in r.running)
    ensures Chained(r)
  {
    hide IsResolved, TurnHasCome, Holds;
    forall u: Ticket
      ensures StillOut(r, u) ==> StillOut(b, u)
      ensures StillOut(b, u) ==> StillOut(r, u) || u in r.released
    {}
    forall u | u in r.waiting ensures HoldsOnly(r, r.waiting[u], u) {
      assert HoldsOnly(b, b.waiting[u], u);
    }
  }

  /** Where a ticket can have come from. */
  lemma TicketsAfter(b: Barrier, a: Action, t: Ticket)
    requires Enabled(b, a) && b.running !! b.waiting.Keys && b.drawn !in b.running
    ensures var r := Next(b, a);
            && (t in r.running ==> t in b.running || a == MutationRuns(t))
            && (t in r.waiting ==> t in b.waiting || (a.MutationCalled? && t == b.drawn && r.drawn == b.drawn + 1))
            && !(t in r.running && t in r.waiting)
            && b.drawn <= r.drawn
  {
    hide IsResolved;
    if !a.MutationRuns? && !a.MutationEnds? && !a.MutationCalled? && !a.Evicted? {
      OthersLeaveTickets(b, a);
      hide Next, Enabled;
    }
  }

  lemma StepKeepsExclusive(b: Barrier, a: Action)
    requires Inv(b) && Enabled(b, a)
    ensures Exclusive(Next(b, a))
  {
    if a.MutationRuns? {
      ResolvedTurnsHaveCome(b, a.ticket);
      assert StillOut(b, a.ticket);
    }
    TicketsAreOld(b);
    hide Counted, DrainsHold, Chained, IsResolved, Holds, Next, Enabled;
    var r := Next(b, a);
    forall t: Ticket
      ensures StillOut(r, t) ==> StillOut(b, t) || (a.MutationCalled? && t == b.drawn && r.drawn == b.drawn + 1)
      ensures t in r.running ==> TurnHasCome(b, t)
      ensures b.drawn <= r.drawn && !(t in r.running && t in r.waiting)
    {
      TicketsAfter(b, a, t);
    }
    forall t | t in r.running ensures TurnHasCome(r, t) {
      assert TurnHasCome(b, t) && StillOut(r, t);
    }
  }

  lemma CountingKeepsDrains(b: Barrier)
    requires DrainsHold(b)
    ensures DrainsHold(OperationsCounted(b)) && DrainsHold(LifecycleCounted(b))
  {}

  lemma StepKeepsDrains(b: Barrier, a: Action)
    requires Inv(b) && Enabled(b, a)
    ensures DrainsHold(Next(b, a))
  {
    hide Exclusive, OperationsCounted, LifecycleCounted, TurnHasCome;
    match a
    case OperationEnds(id) =>
      assert id in b.operations && |b.operations| > 0;
      CountingKeepsDrains(b.(operations := b.operations - {id}, operationCount := b.operationCount - 1));
    case ReadEnds(id) =>
      assert id in b.inspections && |b.inspections| > 0;
      CountingKeepsDrains(b.(inspections := b.inspections - {id}, lifecycleCount := b.lifecycleCount - 1));
    case MutationRuns(t) =>
      assert t in b.waiting && |b.waiting| > 0;
      CountingKeepsDrains(Released(b.(waiting := b.waiting - {t}), t));
    case MutationEnds(t) =>
      assert t in b.running && |b.running| > 0;
      CountingKeepsDrains(Released(b.(running := b.running - {t}), t));
    case _ =>
  }

  lemma StepKeepsInv(b: Barrier, a: Action)
    requires Inv(b) && Enabled(b, a)
    ensures Inv(Next(b, a))
  {
    hide Counted, Chained, Exclusive, DrainsHold;
    StepKeepsCounted(b, a);
    StepKeepsChained(b, a);
    StepKeepsExclusive(b, a);
    StepKeepsDrains(b, a);
  }

  lemma {:induction false} RunsKeepInv(run: Run, i: nat)
    requires IsRun(run) && i <= |run.actions|
    ensures Inv(run.states[i])
  {
    if i > 0 {
      hide Inv, Next, Enabled;
      RunsKeepInv(run, i - 1);
      StepKeepsInv(run.states[i - 1], run.actions[i - 1]);
    }
  }

  // --- what follows for every run ---------------------------------------------

  /** Each mutation waits only for the promise it found at the tail. Still their
      bodies are mutually exclusive and run in the order they were called: whatever
      ticket is still out is no lower than the running one; and a turn comes as soon
      as nothing earlier is out. */
  lemma MutationsTakeTurns(run: Run, i: nat, t: Ticket)
    requires IsRun(run) && i <= |run.actions| && StillOut(run.states[i], t)
    ensures t in run.states[i].running ==> TurnHasCome(run.states[i], t) && run.states[i].running == {t}
    ensures t in run.states[i].waiting ==>
              (IsResolved(run.states[i].waiting[t], run.states[i].released) <==> TurnHasCome(run.states[i], t))
  {
    RunsKeepInv(run, i);
    var b := run.states[i];
    if t in b.running {
      forall other | other in b.running ensures other == t {
        assert StillOut(b, other);
      }
    } else if IsResolved(b.waiting[t], b.released) {
      ResolvedTurnsHaveCome(b, t);
    } else if TurnHasCome(b, t) {
      TurnsThatHaveComeAreResolved(b, t);
    }
  }

  /** The counters count, so they are never negative, and nothing is counted any
      more once a purge has been called. */
  lemma CountersOnlyFall(run: Run, i: nat)
    requires IsRun(run) && i < |run.actions|
    ensures run.states[i].operationCount == |run.states[i].operations|
    ensures run.states[i].lifecycleCount ==
              |run.states[i].inspections| + |run.states[i].waiting| + |run.states[i].running|
    ensures !IsActive(run.states[i]) ==>
              && run.states[i + 1].operationCount <= run.states[i].operationCount
              && run.states[i + 1].lifecycleCount <= run.states[i].lifecycleCount
  {
    hide TurnHasCome, DrainsHold, Exclusive;
    RunsKeepInv(run, i);
    assert Enabled(run.states[i], run.actions[i]);
    if !IsActive(run.states[i]) {
      CountsFall(run.states[i], run.actions[i]);
    }
    hide Next, Enabled;
  }

  lemma CountsFall(b: Barrier, a: Action)
    requires Enabled(b, a) && Counted(b) && !IsActive(b)
    ensures Next(b, a).operationCount <= b.operationCount && Next(b, a).lifecycleCount <= b.lifecycleCount
  {
    hide TurnHasCome;
  }

  ghost predicate AtRest(b: Barrier) {
    b.operations == {} && b.inspections == {} && b.waiting == map[] && b.running == {}
  }

  /** Once the drains are over the purge is alone: no operation, inspection or
      mutation runs or waits, and none can start. */
  lemma ThePurgeIsAlone(run: Run, i: nat, kind: Kind)
    requires IsRun(run) && i <= |run.actions|
    requires kind in run.states[i].purges && run.states[i].purges[kind].Sweeping?
    ensures AtRest(run.states[i])
    ensures i < |run.actions| ==> AtRest(run.states[i + 1])
  {
    RunsKeepInv(run, i);
    AloneAtRest(run.states[i], kind);
    if i < |run.actions| {
      assert Enabled(run.states[i], run.actions[i]);
    }
  }

  lemma AloneAtRest(b: Barrier, kind: Kind)
    requires Inv(b) && kind in b.purges && b.purges[kind].Sweeping?
    ensures AtRest(b) && b.purging
  {
    hide Exclusive;
    assert |b.operations| == 0;
    assert |b.inspections| == 0 && |b.waiting| == 0 && |b.running| == 0;
  }

  lemma MarksStay(b: Barrier, a: Action)
    requires Enabled(b, a) && !b.identity.ActiveInstance?
    ensures !Next(b, a).identity.ActiveInstance?
  {}

  /** A purge that has stored its mark closes the instance for good, whatever is
      evicted or wiped afterwards. */
  lemma {:induction false} MarkedForGood(run: Run, i: nat, j: nat)
    requires IsRun(run) && i <= j <= |run.actions| && !run.states[i].identity.ActiveInstance?
    ensures !run.states[j].identity.ActiveInstance? && !IsActive(run.states[j])
  {
    RunsKeepInv(run, j);
    if i < j {
      MarkedForGood(run, i, j - 1);
      MarksStay(run.states[j - 1], run.actions[j - 1]);
      hide Inv, Next, Enabled;
      assert run.actions[j - 1] == run.actions[j - 1];
    }
  }

  // --- who gets in, and when the purge does -------------------------------------

  /** While the instance is active whoever comes is counted and let in, and a mutation
      whose turn has come runs; afterwards nobody is. */
  lemma ActiveInstancesAdmit(run: Run, i: nat)
    requires IsRun(run) && i < |run.actions|
    ensures var b, r, a := run.states[i], run.states[i + 1], run.actions[i];
            && (a.OperationBegins? ==> (a.id in r.operations <==> IsActive(b)))
            && (a.ReadBegins? ==> (a.id in r.inspections <==> IsActive(b)))
            && (a.MutationCalled? ==>
                  && (IsActive(b) <==> r.waiting.Keys == b.waiting.Keys + {b.drawn} && r.drawn == b.drawn + 1)
                  && (!IsActive(b) ==> r == b))
            && (a.MutationRuns? ==>
                  && (a.ticket in r.running <==> IsActive(b)) && a.ticket !in r.waiting
                  && (!IsActive(b) ==> a.ticket in r.released))
            && (a.MutationEnds? ==> a.ticket !in r.running && a.ticket in r.released)
  {
    RunsKeepInv(run, i);
    assert Enabled(run.states[i], run.actions[i]);
    Admitting(run.states[i], run.actions[i]);
    hide Next, Enabled, Inv;
  }

  lemma Admitting(b: Barrier, a: Action)
    requires Inv(b) && Enabled(b, a)
    ensures var r := Next(b, a);
            && (a.OperationBegins? ==> (a.id in r.operations <==> IsActive(b)))
            && (a.ReadBegins? ==> (a.id in r.inspections <==> IsActive(b)))
            && (a.MutationCalled? ==>
                  && (IsActive(b) <==> r.waiting.Keys == b.waiting.Keys + {b.drawn} && r.drawn == b.drawn + 1)
                  && (!IsActive(b) ==> r == b))
            && (a.MutationRuns? ==>
                  && (a.ticket in r.running <==> IsActive(b)) && a.ticket !in r.waiting
                  && (!IsActive(b) ==> a.ticket in r.released))
            && (a.MutationEnds? ==> a.ticket !in r.running && a.ticket in r.released)
  {
    hide Counted, DrainsHold, TurnHasCome, IsResolved;
  }

  /** A drain is over exactly when there is nothing left to wait for. */
  ghost predicate DrainsAreExact(b: Barrier) {
    forall k | k in b.purges && b.purges[k].Draining? ::
      && (b.purges[k].operations <==> b.operationCount == 0)
      && (b.purges[k].lifecycle <==> b.lifecycleCount == 0)
  }

  lemma CountingKeepsDrainsExact(b: Barrier, r: Barrier)
    requires DrainsAreExact(b) && r == b.(operationCount := r.operationCount, lifecycleCount := r.lifecycleCount,
      operations := r.operations, inspections := r.inspections, waiting := r.waiting, running := r.running,
      released := r.released)
    requires b.purges != map[] ==> r.operationCount <= b.operationCount && r.lifecycleCount <= b.lifecycleCount
    requires b.operationCount >= 0 && b.lifecycleCount >= 0 && r.operationCount >= 0 && r.lifecycleCount >= 0
    ensures r.lifecycleCount == b.lifecycleCount ==> DrainsAreExact(OperationsCounted(r))
    ensures r.operationCount == b.operationCount ==> DrainsAreExact(LifecycleCounted(r))
  {}

  lemma StepKeepsDrainsExact(b: Barrier, a: Action)
    requires Inv(b) && Enabled(b, a) && DrainsAreExact(b)
    ensures DrainsAreExact(Next(b, a))
  {
    hide Exclusive, Chained, OperationsCounted, LifecycleCounted, TurnHasCome, IsResolved;
    match a
    case OperationEnds(id) =>
      assert id in b.operations && |b.operations| > 0;
      CountingKeepsDrainsExact(b, b.(operations := b.operations - {id}, operationCount := b.operationCount - 1));
    case ReadEnds(id) =>
      assert id in b.inspections && |b.inspections| > 0;
      CountingKeepsDrainsExact(b, b.(inspections := b.inspections - {id}, lifecycleCount := b.lifecycleCount - 1));
    case MutationRuns(t) =>
      assert t in b.waiting && |b.waiting| > 0;
      CountingKeepsDrainsExact(b, Released(b.(waiting := b.waiting - {t}), t));
    case MutationEnds(t) =>
      assert t in b.running && |b.running| > 0;
      CountingKeepsDrainsExact(b, Released(b.(running := b.running - {t}), t));
    case _ =>
  }

  lemma {:induction false} RunsKeepDrainsExact(run: Run, i: nat)
    requires IsRun(run) && i <= |run.actions|
    ensures DrainsAreExact(run.states[i])
  {
    if i > 0 {
      hide Inv, Next, Enabled, DrainsAreExact;
      RunsKeepDrainsExact(run, i - 1);
      RunsKeepInv(run, i - 1);
      assert run.actions[i - 1] == run.actions[i - 1];
      StepKeepsDrainsExact(run.states[i - 1], run.actions[i - 1]);
    } else {
      NoDrainsYet(run.states[0]);
    }
  }

  lemma NoDrainsYet(b: Barrier)
    requires IsStart(b)
    ensures DrainsAreExact(b)
  {}

  /** In every run: a purge that has stored its mark is let through exactly when
      nothing is at work and nothing waits any more. */
  lemma PurgesPassExactlyWhenAlone(run: Run, i: nat, kind: Kind)
    requires IsRun(run) && i <= |run.actions|
    requires kind in run.states[i].purges && run.states[i].purges[kind].Draining?
    ensures Enabled(run.states[i], PurgeDrained(kind)) <==> AtRest(run.states[i])
  {
    RunsKeepInv(run, i);
    RunsKeepDrainsExact(run, i);
    var b := run.states[i];
    hide IsRun, Chained, Exclusive, DrainsHold, TurnHasCome, IsResolved;
    assert b.operations == {} <==> |b.operations| == 0;
    assert b.inspections == {} <==> |b.inspections| == 0;
    assert b.waiting == map[] <==> |b.waiting| == 0;
    assert b.running == {} <==> |b.running| == 0;
  }

  /** A call of a purge closes the instance at once; it stores its mark and waits if
      there is an instance to purge; and it ends with its identity gone exactly if it
      wiped it. */
  lemma PurgesClose(run: Run, i: nat)
    requires IsRun(run) && i < |run.actions|
    ensures var b, r, a := run.states[i], run.states[i + 1], run.actions[i];
            && (a.PurgeCalled? ==> !IsActive(r) && (a.kind in r.purges <==> b.known)
                                   && (a.kind in r.purges ==> r.purges[a.kind].Marking?))
            && (a.PurgeMarked? ==> r.purgeStored && r.identity.DeletingInstance? && r.purges[a.kind].Draining?)
            && (a.PurgeReturns? ==> a.kind !in r.purges && (a.wipes ==> r.identity.NoInstance? && !r.purgeStored)
                                    && (!a.wipes ==> r.identity == b.identity && r.purgeStored == b.purgeStored))
            && (a.Evicted? ==> (IsActive(r) <==> b.identity.ActiveInstance? && !b.purgeStored))
  {
    assert Enabled(run.states[i], run.actions[i]);
    hide TurnHasCome, IsResolved;
  }
}
