/** The registry's conditional writes and the sweep's claiming loop, as they
    change the table, and the alarm's one attempt. */
module HubStore {
  import opened Wrappers
  import opened HubQueue

  class Store {
    var rows: map<InstanceId, Row>

    // Operation identifiers drawn so far.
    var drawn: nat

    constructor (rows: map<InstanceId, Row>)
      ensures this.rows == rows && drawn == 0
    {
      this.rows, drawn := rows, 0;
    }

    method DrawOperation() returns (op: OperationId)
      modifies this`drawn
      ensures op == old(drawn) && drawn == old(drawn) + 1
    {
      op := drawn;
      drawn := drawn + 1;
    }

    /** `claimed` tells a fresh claim from an operation that was in flight. */
    method BeginDelete(id: InstanceId, now: int) returns (record: Option<Row>, claimed: bool)
      modifies this
      ensures rows == ClaimDelete(old(rows), id, old(drawn), now)
      ensures claimed <==> id in old(rows) && !ClaimedFor(old(rows)[id], Deleting)
      ensures record == if id in rows then Some(rows[id]) else None
      ensures record.Some? ==> ClaimedFor(record.value, Deleting)
    {
      var op := DrawOperation();
      claimed := id in rows && !(rows[id].lifecycle.Deleting? && rows[id].op.Some?);
      if claimed {
        rows := rows[id := rows[id].(lifecycle := Deleting, op := Some(op), updatedAt := now)];
      }
      record := if id in rows then Some(rows[id]) else None;
    }

    method MarkDeleteFailed(id: InstanceId, op: OperationId, now: int)
      modifies this`rows
      ensures rows == HubQueue.MarkDeleteFailed(old(rows), id, op, now)
    {
      if id in rows && rows[id].op == Some(op) {
        rows := rows[id := rows[id].(lifecycle := DeleteFailed, updatedAt := now)];
      }
    }

    method DeferDelete(id: InstanceId, op: OperationId, now: int)
      modifies this`rows
      ensures rows == Defer(old(rows), id, op, now)
    {
      if id in rows && rows[id].op == Some(op) {
        rows := rows[id := rows[id].(updatedAt := now)];
      }
    }

    method FinishDelete(id: InstanceId, op: OperationId)
      modifies this`rows
      ensures rows == HubQueue.FinishDelete(old(rows), id, op)
    {
      if id in rows && rows[id].op == Some(op) {
        rows := rows - {id};
      }
    }

    method FinishClean(id: InstanceId, op: OperationId)
      modifies this`rows
      ensures rows == HubQueue.FinishClean(old(rows), id, op)
    {
      if id in rows && rows[id].op == Some(op) {
        rows := rows[id := rows[id].(lifecycle := Cleaned, op := None)];
      }
    }

    method MarkCleanFailed(id: InstanceId, op: OperationId)
      modifies this`rows
      ensures rows == HubQueue.MarkCleanFailed(old(rows), id, op)
    {
      if id in rows && rows[id].op == Some(op) {
        rows := rows[id := rows[id].(lifecycle := CleanFailed)];
      }
    }

    /** The claim looks at the row again as it writes. */
    method ClaimCleanup(id: InstanceId, cutoff: int) returns (claimed: bool)
      modifies this
      ensures rows == HubQueue.ClaimCleanup(old(rows), id, old(drawn), cutoff) && drawn == old(drawn) + 1
      ensures claimed <==> id in Eligible(old(rows), cutoff)
    {
      var op := DrawOperation();
      claimed := id in rows && CleanupEligible(rows[id], cutoff);
      if claimed {
        rows := rows[id := rows[id].(lifecycle := Cleaning, op := Some(op))];
      }
    }

    /** The oldest claim of a kind, if there is one. */
    method NextPending(lifecycle: Lifecycle) returns (next: Option<InstanceId>)
      ensures next.Some? ==> IsOldest(rows, next.value, lifecycle)
      ensures next.None? <==> !HasClaim(rows, lifecycle)
    {
      next := None;
      var left := rows.Keys;
      while left != {}
        invariant left <= rows.Keys
        invariant next.Some? ==> next.value in rows && ClaimedFor(rows[next.value], lifecycle)
        invariant forall id | id in rows && id !in left && ClaimedFor(rows[id], lifecycle) ::
                    next.Some? && rows[next.value].updatedAt <= rows[id].updatedAt
        decreases |left|
      {
        var id :| id in left;
        left := left - {id};
        if ClaimedFor(rows[id], lifecycle) && (next.None? || rows[id].updatedAt < rows[next.value].updatedAt) {
          next := Some(id);
        }
      }
    }

    /** The scan lists the eligible rows in whatever order the store likes. */
    method Candidates(cutoff: int) returns (ids: seq<InstanceId>)
      ensures Lists(ids, Eligible(rows, cutoff))
    {
      var left := Eligible(rows, cutoff);
      ids := [];
      while left != {}
        invariant left <= Eligible(rows, cutoff) && Lists(ids, Eligible(rows, cutoff) - left)
        decreases |left|
      {
        var id :| id in left;
        left := left - {id};
        ids := ids + [id];
      }
    }

    /** Scan, then claim one by one. Every claim is a yield: `others(i, table)` is
        what others have made of the table by the turn of candidate `i`. */
    method SweepIdleSessions(cutoff: int, others: (nat, map<InstanceId, Row>) -> map<InstanceId, Row>)
      returns (ghost candidates: seq<InstanceId>, claimed: nat)
      modifies this
      ensures Lists(candidates, Eligible(old(rows), cutoff))
      ensures rows == Swept(others, old(rows), candidates, old(drawn), cutoff)
      ensures claimed == Hits(others, old(rows), candidates, old(drawn), cutoff)
    {
      var ids := Candidates(cutoff);
      candidates := ids;
      ghost var scanned, before := rows, drawn;
      claimed := 0;
      for i := 0 to |ids|
        invariant rows == Swept(others, scanned, ids[..i], before, cutoff) && drawn == before + i
        invariant claimed == Hits(others, scanned, ids[..i], before, cutoff)
      {
        assert ids[..i + 1][..i] == ids[..i];
        rows := others(i, rows);
        var hit := ClaimCleanup(ids[i], cutoff);
        if hit {
          claimed := claimed + 1;
        }
      }
      assert ids[..|ids|] == ids;
    }
  }

  /** The alarm worker, left alone for one attempt. `answer` is what the purge of
      the row it picks ends with. */
  class Hub {
    var alarmSet: bool

    constructor ()
      ensures !alarmSet
    {
      alarmSet := false;
    }

    /** Poking twice is poking once. */
    method Poke()
      modifies this
      ensures alarmSet
    {
      if !alarmSet {
        alarmSet := true;
      }
    }

    /** One attempt on the oldest deletion, or else on the oldest cleanup, ended by
        its fenced write; the alarm is set again exactly if a claim is left. */
    method Alarm(store: Store, answer: Answer, now: int) returns (ghost attempt: Option<Attempt>)
      modifies this, store`rows
      ensures attempt.None? <==> !Pending(old(store.rows))
      ensures attempt.None? ==> store.rows == old(store.rows)
      ensures attempt.Some? ==>
                var t := attempt.value;
                && IsOldest(old(store.rows), t.id, if t.deletes then Deleting else Cleaning)
                && (t.deletes <==> HasClaim(old(store.rows), Deleting))
                && t.answer == Some(answer) && old(store.rows)[t.id].op == Some(t.op)
                && store.rows == Written(old(store.rows), t, now)
      ensures alarmSet <==> Pending(store.rows)
    {
      alarmSet := false;
      var deletion := store.NextPending(Deleting);
      if deletion.Some? {
        var id := deletion.value;
        var op := store.rows[id].op.value;
        attempt := Some(Attempt(id, op, true, Some(answer)));
        match answer {
          case Purged => store.FinishDelete(id, op);
          case Broke => store.MarkDeleteFailed(id, op, now);
          case _ => store.DeferDelete(id, op, now);
        }
      } else {
        var cleanup := store.NextPending(Cleaning);
        if cleanup.Some? {
          var id := cleanup.value;
          var op := store.rows[id].op.value;
          attempt := Some(Attempt(id, op, false, Some(answer)));
          match answer {
            case Purged => store.FinishClean(id, op);
            case Broke => store.MarkCleanFailed(id, op);
            case _ => store.DeferDelete(id, op, now);
          }
        } else {
          attempt := None;
        }
      }
      var deletionsLeft := store.NextPending(Deleting);
      var cleanupsLeft := store.NextPending(Cleaning);
      if deletionsLeft.Some? || cleanupsLeft.Some? {
        alarmSet := true;
      }
    }
  }

  function Eligible(rows: map<InstanceId, Row>, cutoff: int): set<InstanceId> {
    set id | id in rows && CleanupEligible(rows[id], cutoff)
  }

  /** Every member once. */
  ghost predicate Lists(ids: seq<InstanceId>, members: set<InstanceId>) {
    && (forall id :: id in ids <==> id in members)
    && (forall i, j | 0 <= i < j < |ids| :: ids[i] != ids[j])
  }

  type Others = (nat, map<InstanceId, Row>) -> map<InstanceId, Row>

  /** The table after claiming the candidates in turn, each for an operation of
      its own. */
  ghost function Swept(others: Others, rows: map<InstanceId, Row>, ids: seq<InstanceId>, op: nat, cutoff: int)
    : map<InstanceId, Row>
  {
    if ids == [] then rows
    else
      var n := |ids| - 1;
      HubQueue.ClaimCleanup(others(n, Swept(others, rows, ids[..n], op, cutoff)), ids[n], op + n, cutoff)
  }

  /** The table the last candidate's turn finds. */
  ghost function Found(others: Others, rows: map<InstanceId, Row>, ids: seq<InstanceId>, op: nat, cutoff: int)
    : map<InstanceId, Row>
    requires ids != []
  {
    var n := |ids| - 1;
    others(n, Swept(others, rows, ids[..n], op, cutoff))
  }

  ghost function Hits(others: Others, rows: map<InstanceId, Row>, ids: seq<InstanceId>, op: nat, cutoff: int): nat {
    if ids == [] then 0
    else
      var n := |ids| - 1;
      Hits(others, rows, ids[..n], op, cutoff)
      + (if ids[n] in Eligible(Found(others, rows, ids, op, cutoff), cutoff) then 1 else 0)
  }

  ghost predicate EligibleAtItsTurn(others: Others, rows: map<InstanceId, Row>, ids: seq<InstanceId>, op: nat,
      cutoff: int, k: nat)
    requires k < |ids|
  {
    ids[k] in Eligible(Found(others, rows, ids[..k + 1], op, cutoff), cutoff)
  }

  /** The turns whose candidate was still eligible. */
  ghost function HitTurns(others: Others, rows: map<InstanceId, Row>, ids: seq<InstanceId>, op: nat, cutoff: int)
    : set<nat>
  {
    set k: nat | k < |ids| && EligibleAtItsTurn(others, rows, ids, op, cutoff, k)
  }

  lemma EarlierTurnsStay(others: Others, rows: map<InstanceId, Row>, ids: seq<InstanceId>, op: nat, cutoff: int,
      n: nat, k: nat)
    requires k < n <= |ids|
    ensures EligibleAtItsTurn(others, rows, ids[..n], op, cutoff, k) ==
              EligibleAtItsTurn(others, rows, ids, op, cutoff, k)
  {
    assert ids[..n][..k + 1] == ids[..k + 1];
    hide Found, Eligible;
  }

  lemma HitTurnsGrow(others: Others, rows: map<InstanceId, Row>, ids: seq<InstanceId>, op: nat, cutoff: int)
    requires ids != []
    ensures var n := |ids| - 1;
            && n !in HitTurns(others, rows, ids[..n], op, cutoff)
            && HitTurns(others, rows, ids, op, cutoff) ==
               HitTurns(others, rows, ids[..n], op, cutoff)
               + (if EligibleAtItsTurn(others, rows, ids, op, cutoff, n) then {n} else {})
  {
    hide EligibleAtItsTurn;
    var n := |ids| - 1;
    forall k: nat | k < n
      ensures k in HitTurns(others, rows, ids, op, cutoff) <==> k in HitTurns(others, rows, ids[..n], op, cutoff)
    {
      EarlierTurnsStay(others, rows, ids, op, cutoff, n, k);
    }
  }

  lemma {:induction false} HitsAreHitTurns(others: Others, rows: map<InstanceId, Row>, ids: seq<InstanceId>, op: nat,
      cutoff: int)
    ensures Hits(others, rows, ids, op, cutoff) == |HitTurns(others, rows, ids, op, cutoff)|
  {
    if ids == [] {
      assert HitTurns(others, rows, ids, op, cutoff) == {};
    } else {
      var n := |ids| - 1;
      assert ids[..n + 1] == ids;
      assert EligibleAtItsTurn(others, rows, ids, op, cutoff, n) <==>
        ids[n] in Eligible(Found(others, rows, ids, op, cutoff), cutoff);
      hide HitTurns, Found, Swept, Eligible, EligibleAtItsTurn;
      HitsAreHitTurns(others, rows, ids[..n], op, cutoff);
      HitTurnsGrow(others, rows, ids, op, cutoff);
    }
  }

  /** Whatever others write between any two claims: a turn changes its candidate's
      row exactly if that is eligible at this turn, then to a claim for the turn's
      own operation, and leaves every other row as the others left it; and the
      count is that of the turns that claimed. */
  lemma SweepsClaimTheEligible(others: Others, rows: map<InstanceId, Row>, ids: seq<InstanceId>, op: nat, cutoff: int,
      k: nat)
    requires k < |ids|
    ensures var found := Found(others, rows, ids[..k + 1], op, cutoff);
            var left := Swept(others, rows, ids[..k + 1], op, cutoff);
            && left.Keys == found.Keys
            && (k in HitTurns(others, rows, ids, op, cutoff) <==> ids[k] in left && left[ids[k]] != found[ids[k]])
            && (forall id | id in found ::
                  left[id] == if id == ids[k] && CleanupEligible(found[id], cutoff)
                              then found[id].(lifecycle := Cleaning, op := Some(op + k)) else found[id])
    ensures Hits(others, rows, ids, op, cutoff) == |HitTurns(others, rows, ids, op, cutoff)|
  {
    HitsAreHitTurns(others, rows, ids, op, cutoff);
    assert ids[..k + 1][k] == ids[k];
    var found := Found(others, rows, ids[..k + 1], op, cutoff);
    assert Swept(others, rows, ids[..k + 1], op, cutoff) == HubQueue.ClaimCleanup(found, ids[k], op + k, cutoff);
    assert k in HitTurns(others, rows, ids, op, cutoff) <==> ids[k] in Eligible(found, cutoff);
    hide Swept, Found, HitTurns, Hits;
  }

  const Nobody: Others := (_, table) => table

  lemma {:induction false} SweptElsewhere(rows: map<InstanceId, Row>, ids: seq<InstanceId>, op: nat, cutoff: int,
      id: InstanceId)
    ensures Swept(Nobody, rows, ids, op, cutoff).Keys == rows.Keys
    ensures id !in ids && id in rows ==> Swept(Nobody, rows, ids, op, cutoff)[id] == rows[id]
  {
    if ids != [] {
      SweptElsewhere(rows, ids[..|ids| - 1], op, cutoff, id);
    }
  }

  /** With nobody else at work the sweep claims every eligible row, each for its
      own operation, and touches no other. */
  lemma {:induction false} UndisturbedSweepsClaimAll(rows: map<InstanceId, Row>, ids: seq<InstanceId>, op: nat,
      cutoff: int, id: InstanceId)
    requires Lists(ids, Eligible(rows, cutoff)) && id in rows
    ensures var left := Swept(Nobody, rows, ids, op, cutoff);
            && left.Keys == rows.Keys
            && (id !in Eligible(rows, cutoff) ==> left[id] == rows[id])
            && (forall k | 0 <= k < |ids| && ids[k] == id ::
               left[id] == rows[id].(lifecycle := Cleaning, op := Some(op + k)))
  {
    SweptElsewhere(rows, ids, op, cutoff, id);
    if k: nat :| k < |ids| && ids[k] == id {
      ClaimedAtItsTurn(rows, ids, op, cutoff, k);
    }
  }

  lemma {:induction false} ClaimedAtItsTurn(rows: map<InstanceId, Row>, ids: seq<InstanceId>, op: nat, cutoff: int,
      k: nat)
    requires k < |ids| && (forall i, j | 0 <= i < j < |ids| :: ids[i] != ids[j])
    requires ids[k] in Eligible(rows, cutoff)
    ensures ids[k] in Swept(Nobody, rows, ids, op, cutoff)
    ensures Swept(Nobody, rows, ids, op, cutoff)[ids[k]] == rows[ids[k]].(lifecycle := Cleaning, op := Some(op + k))
  {
    var n := |ids| - 1;
    SweptElsewhere(rows, ids[..n], op, cutoff, ids[k]);
    if k < n {
      ClaimedAtItsTurn(rows, ids[..n], op, cutoff, k);
    }
  }
}
