/** A prompt nobody sees to. The loss is reported while a dispatch is ending: the
    report takes the alarm of the prompt that has just been queued, and the end
    of the dispatch overwrites the verdict. */
module SessionExamples {
  import opened Wrappers
  import opened SessionSteps
  import SessionSafety

  const First := Prompt(1, "first")
  const Second := Prompt(2, "second")

  const Sent := Agent(Starting, [First], [], 0, true, true)
  const Empty := Agent(Starting, [], [1], 0, true, true)
  const Refilled := Agent(Queued, [Second], [1], 0, true, true)

  const Waiting := Fresh.(state := Some(Opened(First)), alarm := Some(0), started := true, queued := [First])
  const Dispatching := Waiting.(alarm := None, state := Some(Sent), advance := Some(Picking))
  const Drained := Dispatching.(state := Some(Empty), accepted := [First], recorded := [First])
  const Joined := Drained.(state := Some(Refilled), advance := Some(Point.Ending), alarm := Some(7),
    queued := [First, Second])
  const Overwritten := Joined.(state := Some(Refilled.(phase := Working)), advance := None, alarm := None,
    muted := true)

  ghost function Last(run: Run): World
    requires |run.worlds| > 0
  {
    run.worlds[|run.worlds| - 1]
  }

  lemma Extend(run: Run, e: Event, now: int) returns (r: Run)
    requires IsRun(run) && Enabled(Last(run), e, now)
    ensures IsRun(r) && Last(r) == Step(Last(run), e, now)
  {
    hide Step, Enabled;
    r := Run(run.ticks + [Tick(e, now)], run.worlds + [Step(Last(run), e, now)]);
    forall k | 0 <= k < |r.ticks|
      ensures Enabled(r.worlds[k], r.ticks[k].event, r.ticks[k].at)
      ensures r.worlds[k + 1] == Step(r.worlds[k], r.ticks[k].event, r.ticks[k].at)
    {
      if k < |run.ticks| {
        assert r.ticks[k] == run.ticks[k] && r.worlds[k] == run.worlds[k] && r.worlds[k + 1] == run.worlds[k + 1];
      }
    }
  }

  lemma FirstIsQueued() returns (run: Run)
    ensures IsRun(run) && Last(run) == Waiting
  {
    hide Delivered, AfterFailure, IsResend;
    run := Run([], [Fresh]);
    run := Extend(run, Start(First), 0);
    run := Extend(run, ArmAlarm, 0);
  }

  lemma FirstIsDispatched(before: Run) returns (run: Run)
    requires IsRun(before) && Last(before) == Waiting
    ensures IsRun(run) && Last(run) == Dispatching
  {
    hide Delivered, AfterFailure, IsResend, IsRun;
    run := Extend(before, AlarmFires, 0);
    run := Extend(run, Registered, 1);
    run := Extend(run, Woken, 2);
  }

  lemma FirstIsRecorded()
    ensures Delivered(Sent, First) == Empty
  {
    assert [First][1..] == [] && Without([First], 1) == [];
    assert LastOf([] + [1], MAX_DELIVERED_PROMPT_IDS) == [1];
  }

  lemma FirstIsDelivered(before: Run) returns (run: Run)
    requires IsRun(before) && Last(before) == Dispatching
    ensures IsRun(run) && Last(run) == Drained
  {
    FirstIsRecorded();
    hide Delivered, AfterFailure, IsResend, IsRun;
    run := Extend(before, Picks, 3);
    run := Extend(run, Accepts, 4);
    run := Extend(run, Records, 5);
  }

  lemma SecondIsQueued(before: Run) returns (run: Run)
    requires IsRun(before) && Last(before) == Drained
    ensures IsRun(run) && Last(run) == Joined
  {
    assert !IsResend(Empty, 2) && Empty.pending + [Second] == [Second];
    hide Delivered, AfterFailure, IsResend, IsRun;
    run := Extend(before, Picks, 6);
    run := Extend(run, QueuePrompt(Second), 7);
    run := Extend(run, ArmAlarm, 7);
  }

  /** A prompt waits in a session that is neither failed nor lost, and nothing is
      left that would dispatch it. */
  lemma AQueuedPromptCanBeForgotten() returns (run: Run)
    ensures IsRun(run)
    ensures SessionSafety.Forgotten(run.worlds[|run.ticks|])
  {
    run := FirstIsQueued();
    run := FirstIsDispatched(run);
    run := FirstIsDelivered(run);
    run := SecondIsQueued(run);
    hide Delivered, AfterFailure, IsResend;
    run := Extend(run, MarkLost, 8);
    run := Extend(run, MarkLostLands, 9);
    run := Extend(run, Event.Ends, 10);
    assert Last(run) == Overwritten;
  }
}
