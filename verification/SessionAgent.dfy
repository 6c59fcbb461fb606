/** The session agent object: its calls assign the stored state and the alarm, and
    its dispatch empties the queue in a loop. */
module SessionAgent {
  import opened Wrappers
  import opened SessionSteps
  import opened SessionSafety

  /** The agent once the container has taken the first `n` pending prompts. */
  ghost function AfterDelivering(a: Agent, n: nat): Agent
    requires n <= |a.pending|
  {
    a.(pending := a.pending[n..], delivered := LastOf(a.delivered + Ids(a.pending[..n]), MAX_DELIVERED_PROMPT_IDS))
  }

  lemma LastOfLast<T>(s: seq<T>, t: seq<T>, n: nat)
    ensures LastOf(LastOf(s, n) + t, n) == LastOf(s + t, n)
  {}

  lemma OneMoreDelivered(a: Agent, n: nat)
    requires n < |a.pending| && Distinct(a.pending)
    ensures Delivered(AfterDelivering(a, n), a.pending[n]) == AfterDelivering(a, n + 1)
  {
    var rest := a.pending[n..];
    assert rest[0] == a.pending[n] && rest[1..] == a.pending[n + 1..];
    WithoutHead(rest);
    assert Ids(a.pending[..n + 1]) == Ids(a.pending[..n]) + [a.pending[n].id];
    LastOfLast(a.delivered + Ids(a.pending[..n]), [a.pending[n].id], MAX_DELIVERED_PROMPT_IDS);
    assert a.delivered + Ids(a.pending[..n + 1]) == a.delivered + Ids(a.pending[..n]) + [a.pending[n].id];
  }

  /** What a dispatch meets: whether the runtime wakes, how many prompts the
      container takes before something fails, and whether the next one was taken
      although its answer was lost. */
  datatype Luck = Luck(wake: Option<Failure>, takes: nat, unheard: bool, failure: Failure)

  class SessionAgent {
    var state: Option<Agent>
    var alarm: Option<int>

    // What the container has taken, in order.
    var accepted: seq<Prompt>

    constructor ()
      ensures state.None? && alarm.None? && accepted == []
    {
      state, alarm, accepted := None, None, [];
    }

    method StartSession(prompt: Prompt, now: int)
      modifies this`state, this`alarm
      ensures old(state).Some? ==> state == old(state) && alarm == old(alarm)
      ensures old(state).None? ==> state == Some(Opened(prompt)) && alarm == Some(now)
    {
      if state.Some? {
        return;
      }
      state := Some(Agent(Queued, [prompt], [], 0, false, false));
      alarm := Some(now);
    }

    /** Queue a prompt once: the session is then due, whatever it was before. */
    method QueuePrompt(prompt: Prompt, now: int) returns (queued: bool)
      modifies this`state, this`alarm
      ensures queued <==> old(state).Some? && !old(state).value.phase.Lost? && !IsResend(old(state).value, prompt.id)
      ensures !queued ==> state == old(state) && alarm == old(alarm)
      ensures queued ==>
                && state == Some(WithPrompt(old(state).value, prompt)) && alarm == Some(now)
                && NeedsDispatch(state.value)
    {
      if state.None? || state.value.phase.Lost? {
        return false;
      }
      var a := state.value;
      var known := prompt.id in a.delivered;
      for i := 0 to |a.pending|
        invariant state == old(state) && alarm == old(alarm)
        invariant known <==> prompt.id in a.delivered || IsQueued(a.pending[..i], prompt.id)
      {
        QueuedOneMore(a.pending, i, prompt.id);
        known := known || a.pending[i].id == prompt.id;
      }
      assert a.pending[..|a.pending|] == a.pending;
      if known {
        return false;
      }
      state := Some(a.(pending := a.pending + [prompt], phase := Queued, attempt := 0));
      alarm := Some(now);
      return true;
    }

    method RetrySession(now: int)
      modifies this`state, this`alarm
      ensures old(state).None? || old(state).value.phase.Lost? ==> state == old(state) && alarm == old(alarm)
      ensures old(state).Some? && !old(state).value.phase.Lost? ==>
                && state == Some(Retried(old(state).value))
                && alarm == if old(state).value.pending != [] then Some(now) else old(alarm)
    {
      if state.None? || state.value.phase.Lost? {
        return;
      }
      var a := state.value;
      state := Some(a.(phase := if |a.pending| > 0 then Queued else Working, attempt := 0));
      if NeedsDispatch(state.value) {
        alarm := Some(now);
      }
    }

    method MarkLost()
      modifies this`state, this`alarm
      ensures old(state).None? ==> state.None? && alarm == old(alarm)
      ensures old(state).Some? ==>
                && state.Some? && state.value.phase.Lost? && state.value.pending == old(state).value.pending
                && (old(state).value.phase.Lost? ==> state == old(state) && alarm == old(alarm))
                && (!old(state).value.phase.Lost? ==>
                   alarm.None? && state == Some(old(state).value.(phase := Lost, attempt := 0)))
    {
      if state.None? || state.value.phase.Lost? {
        return;
      }
      alarm := None;
      state := Some(state.value.(phase := Lost, attempt := 0));
    }

    /** Prompts leave the queue one at a time, each only once the container has
        taken it. */
    method DispatchPending(luck: Luck) returns (failed: bool)
      requires state.Some? && Distinct(state.value.pending) && |state.value.delivered| <= MAX_DELIVERED_PROMPT_IDS
      modifies this`state, this`accepted
      ensures var a := old(state).value;
              var n := if luck.takes < |a.pending| then luck.takes else |a.pending|;
              && (failed <==> luck.takes < |a.pending|)
              && state == Some(AfterDelivering(a, n))
              && accepted == old(accepted) + a.pending[..if failed && luck.unheard then n + 1 else n]
    {
      ghost var a := state.value;
      var sent := 0;
      assert AfterDelivering(a, 0) == a by {
        assert a.pending[0..] == a.pending && a.delivered + Ids(a.pending[..0]) == a.delivered;
      }
      while state.value.pending != [] && sent < luck.takes
        invariant sent <= |a.pending| && sent <= luck.takes
        invariant state == Some(AfterDelivering(a, sent))
        invariant accepted == old(accepted) + a.pending[..sent]
        decreases |a.pending| - sent
      {
        var prompt := state.value.pending[0];
        accepted := accepted + [prompt];
        state := Some(state.value.(
          pending := Without(state.value.pending, prompt.id),
          delivered := LastOf(state.value.delivered + [prompt.id], MAX_DELIVERED_PROMPT_IDS)));
        OneMoreDelivered(a, sent);
        sent := sent + 1;
      }
      failed := state.value.pending != [];
      if failed && luck.unheard {
        accepted := accepted + [state.value.pending[0]];
      }
    }
  }

  lemma QueuedOneMore(pending: seq<Prompt>, i: nat, id: PromptId)
    requires i < |pending|
    ensures IsQueued(pending[..i + 1], id) <==> IsQueued(pending[..i], id) || pending[i].id == id
  {
    if IsQueued(pending[..i], id) {
      var k :| 0 <= k < i && pending[..i][k].id == id;
      assert pending[..i + 1][k].id == id;
    }
    if pending[i].id == id {
      assert pending[..i + 1][i].id == id;
    }
  }
}
