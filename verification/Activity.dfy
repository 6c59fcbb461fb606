/** Whether an OpenCode server is at work, from what its two engines report. A
    JSON value is kept only as far as the classification looks at it. */
module Activity {
  import opened Wrappers

  /** The status one legacy session reports. */
  datatype Status = Busy | Retry | Idle | Unrecognized

  /** The body of the legacy engine's answer, session by session, and that of the
      newer engine's, which lists the active sessions. */
  datatype LegacyAnswer = NoObject | Statuses(sessions: seq<(string, Status)>)
  datatype ActiveAnswer = NoDataMap | ActiveSessions(ids: seq<string>)

  datatype State = ActiveState | IdleState | UnknownState

  datatype Classification = Classification(state: State, activeIds: seq<string>)

  /** A classification this module makes names a session exactly if it is active. */
  predicate WellFormed(c: Classification) {
    c.state.ActiveState? <==> c.activeIds != []
  }

  /** The real activity behind an answer, as far as the answer tells. */
  predicate SaysWork(status: Status) {
    status.Busy? || status.Retry?
  }

  /** Idle only if every session says so; active if any is known to work. */
  method ClassifyLegacy(answer: LegacyAnswer) returns (c: Classification)
    ensures WellFormed(c)
    ensures c.state.IdleState? <==>
              answer.Statuses? && forall i | 0 <= i < |answer.sessions| :: answer.sessions[i].1.Idle?
    ensures c.state.ActiveState? <==>
              answer.Statuses? && exists i | 0 <= i < |answer.sessions| :: SaysWork(answer.sessions[i].1)
    ensures forall id :: id in c.activeIds <==>
              answer.Statuses? &&
              exists i | 0 <= i < |answer.sessions| :: answer.sessions[i].0 == id && SaysWork(answer.sessions[i].1)
  {
    if answer.NoObject? {
      return Classification(UnknownState, []);
    }
    var active: seq<string>, unknown: seq<string> := [], [];
    for i := 0 to |answer.sessions|
      invariant forall id :: id in active <==>
                  exists j | 0 <= j < i :: answer.sessions[j].0 == id && SaysWork(answer.sessions[j].1)
      invariant active == [] <==> forall j | 0 <= j < i :: !SaysWork(answer.sessions[j].1)
      invariant unknown == [] <==> forall j | 0 <= j < i :: !answer.sessions[j].1.Unrecognized?
    {
      var (id, status) := answer.sessions[i];
      if status.Busy? || status.Retry? {
        active := active + [id];
      } else if status.Unrecognized? {
        unknown := unknown + [id];
      }
    }
    c := if |active| > 0 then Classification(ActiveState, active)
         else if |unknown| > 0 then Classification(UnknownState, [])
         else Classification(IdleState, []);
  }

  function ClassifyActive(answer: ActiveAnswer): (c: Classification)
    ensures WellFormed(c)
    ensures c.state.IdleState? <==> answer == ActiveSessions([])
    ensures answer.ActiveSessions? ==> c.activeIds == answer.ids
  {
    if answer.NoDataMap? then Classification(UnknownState, [])
    else if answer.ids != [] then Classification(ActiveState, answer.ids)
    else Classification(IdleState, [])
  }

  function ActiveIds(cs: seq<Classification>): seq<string> {
    if cs == [] then []
    else (if cs[0].state.ActiveState? then cs[0].activeIds else []) + ActiveIds(cs[1..])
  }

  /** Active beats unknown, unknown beats idle, and no source is not idle. */
  function Aggregate(cs: seq<Classification>): Classification {
    if cs == [] then Classification(UnknownState, [])
    else if ActiveIds(cs) != [] then Classification(ActiveState, ActiveIds(cs))
    else if exists i | 0 <= i < |cs| :: cs[i].state.UnknownState? then Classification(UnknownState, [])
    else Classification(IdleState, [])
  }

  lemma {:induction false} ActiveIdsAre(cs: seq<Classification>, id: string)
    ensures id in ActiveIds(cs) <==> exists i | 0 <= i < |cs| :: cs[i].state.ActiveState? && id in cs[i].activeIds
  {
    if cs != [] {
      ActiveIdsAre(cs[1..], id);
      if id in ActiveIds(cs[1..]) {
        var i :| 0 <= i < |cs[1..]| && cs[1..][i].state.ActiveState? && id in cs[1..][i].activeIds;
        assert cs[i + 1] == cs[1..][i];
      }
      if exists i | 0 <= i < |cs| :: cs[i].state.ActiveState? && id in cs[i].activeIds {
        var i :| 0 <= i < |cs| && cs[i].state.ActiveState? && id in cs[i].activeIds;
        assert i > 0 ==> cs[1..][i - 1] == cs[i];
      }
    }
  }

  /** The verdict a stop relies on: idle exactly when there is a source, none is
      unknown, and no active one names a session. */
  lemma IdleIsUnanimous(cs: seq<Classification>)
    ensures Aggregate(cs).state.IdleState? <==>
              && cs != []
              && (forall i | 0 <= i < |cs| :: !cs[i].state.UnknownState?)
              && (forall i | 0 <= i < |cs| :: cs[i].state.ActiveState? ==> cs[i].activeIds == [])
    ensures (forall i | 0 <= i < |cs| :: WellFormed(cs[i])) ==>
              (Aggregate(cs).state.IdleState? <==> cs != [] && forall i | 0 <= i < |cs| :: cs[i].state.IdleState?)
  {
    if exists i | 0 <= i < |cs| :: cs[i].state.ActiveState? && cs[i].activeIds != [] {
      var i :| 0 <= i < |cs| && cs[i].state.ActiveState? && cs[i].activeIds != [];
      ActiveIdsAre(cs, cs[i].activeIds[0]);
    }
    if ActiveIds(cs) != [] {
      ActiveIdsAre(cs, ActiveIds(cs)[0]);
    }
  }

  ghost predicate AllIdle(answer: LegacyAnswer) {
    answer.Statuses? && forall i | 0 <= i < |answer.sessions| :: answer.sessions[i].1.Idle?
  }

  ghost predicate LegacyAtWork(answer: LegacyAnswer, id: string) {
    answer.Statuses? &&
    exists i | 0 <= i < |answer.sessions| :: answer.sessions[i].0 == id && SaysWork(answer.sessions[i].1)
  }

  /** Some answer that was understood names this session at work. */
  ghost predicate AtWork(legacy: seq<LegacyAnswer>, active: ActiveAnswer, id: string) {
    || (exists k | 0 <= k < |legacy| :: LegacyAtWork(legacy[k], id))
    || (active.ActiveSessions? && id in active.ids)
  }

  /** The aggregate is active exactly if an active source names a session, and names
      exactly those that any of them names. */
  lemma ActiveIfAnySourceIs(cs: seq<Classification>, id: string)
    ensures var c := Aggregate(cs);
            && WellFormed(c)
            && (id in c.activeIds <==>
                  exists i | 0 <= i < |cs| :: cs[i].state.ActiveState? && id in cs[i].activeIds)
  {
    ActiveIdsAre(cs, id);
  }

  /** End to end: the snapshot says active exactly when some understood answer names
      a session at work, and names exactly those; it says idle exactly when some
      location is known, every location's answer was understood and lists only idle
      sessions, and the newer engine's answer was understood and lists none. An answer
      that never came is `NoObject` or `NoDataMap`. */
  method Observe(legacy: seq<LegacyAnswer>, active: ActiveAnswer) returns (c: Classification)
    ensures c.state.IdleState? <==>
              |legacy| > 0 && active == ActiveSessions([]) && forall k | 0 <= k < |legacy| :: AllIdle(legacy[k])
    ensures c.state.ActiveState? <==> exists id :: AtWork(legacy, active, id)
    ensures forall id :: id in c.activeIds <==> AtWork(legacy, active, id)
  {
    var cs: seq<Classification> := [];
    for k := 0 to |legacy|
      invariant |cs| == k && forall j | 0 <= j < k :: WellFormed(cs[j])
      invariant forall j | 0 <= j < k :: cs[j].state.IdleState? <==> AllIdle(legacy[j])
      invariant forall j, id | 0 <= j < k :: id in cs[j].activeIds <==> LegacyAtWork(legacy[j], id)
    {
      var one := ClassifyLegacy(legacy[k]);
      cs := cs + [one];
    }
    if |legacy| == 0 {
      cs := [Classification(UnknownState, [])];
    }
    ghost var before := cs;
    cs := cs + [ClassifyActive(active)];
    IdleIsUnanimous(cs);
    c := Aggregate(cs);
    assert cs[|before|] == ClassifyActive(active) && forall j | 0 <= j < |before| :: cs[j] == before[j];
    forall id ensures id in c.activeIds <==> AtWork(legacy, active, id) {
      ActiveIfAnySourceIs(cs, id);
    }
    ActiveIfAnySourceIs(cs, "");
    if c.activeIds != [] { assert AtWork(legacy, active, c.activeIds[0]); }
  }
}
