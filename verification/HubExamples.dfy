/** A claim nobody sees to: the sweep that made it dies before its poke. */
module HubExamples {
  import opened Wrappers
  import opened HubQueue
  import HubSafety

  const Idle := Row(Ready, None, 0, true)
  const Claimed := Row(Cleaning, Some(1), 0, true)

  const Empty := World(map[], false, None, 0, 0, true, {}, {})
  const Registered := Empty.(table := map[7 := Idle])
  const Sweeping := Registered.(table := map[7 := Claimed], sweepers := 1, drawn := {1})
  const Abandoned := Sweeping.(sweepers := 0)

  /** A reachable world in which a claim is stranded. */
  lemma AClaimCanBeStranded() returns (run: Run)
    ensures IsRun(run) && HubSafety.Stranded(run.worlds[|run.actions|])
  {
    run := Run([Register(7, Idle), SweepClaims(7, 1, 10, true), SweeperDies], [Empty, Registered, Sweeping, Abandoned]);
    assert Next(Empty, run.actions[0]) == Registered;
    assert Next(Registered, run.actions[1]) == Sweeping;
    assert Next(Sweeping, run.actions[2]) == Abandoned;
    assert ClaimedFor(Abandoned.table[7], Cleaning);
  }
}
