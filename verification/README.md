# Sleeping and waking containers: a verified model

This project models the control plane that puts containers to sleep and wakes them
again, and proves what its protocol keeps. Four objects talk to each other: the
lifecycle coordinator of an instance, its Sandbox, the agent of a session and the
Hub that drains deletions. Each may be evicted at any yield and comes back with what
it had stored; requests and replies may be lost; the container may die at any time.
Handlers are cut at their awaits, and a step is what runs between two of them.

## How it is laid out

| files | what they hold |
|---|---|
| `LifecycleState`, `CoordinatorSteps` | the coordinator's stored state and its handlers, piece by piece |
| `LifecycleCoordinator` | the coordinator as an object whose methods assign that state |
| `CoordinatorInvariant`, `CoordinatorLaws`, `CoordinatorRuns`, `CoordinatorAnswers`, `CoordinatorAlarms`, `CoordinatorIdles`, `CoordinatorGivesUp`, `CoordinatorExamples` | what every run of a coordinator keeps, and runs that show where it stops |
| `SandboxSteps`, `Sandbox` | the Sandbox's gate and its lifecycle mutations, cut at their awaits and as methods |
| `CoordinatorMoves`, `JointProtocol`, `JointSafety`, `JointExamples` | coordinator and Sandbox together |
| `SandboxWorld`, `WorkspaceSafety`, `SandboxOutcomes` | the Sandbox with its container, its operations and its backup |
| `PurgeBarrier`, `SandboxOperations` | counters, the chain of mutations and the purge |
| `BackupLedger`, `BackupExamples`, `BackupCheckpoint`, `BackupPaging` | backups in the bucket and on record, behind the purge barrier |
| `SessionSteps`, `SessionAgent`, `SessionSafety`, `SessionExamples` | the durable prompt queue |
| `HubQueue`, `HubStore`, `HubSafety`, `HubExamples` | the deletion and cleanup queue |
| `Activity`, `DiffRecut`, `Reconcile`, `SseFrames`, `SshKey`, `SshText`, `Utf8` | algorithms of their own |

A run is a sequence of events or actions together with the states before, between
and after them. Theorems about runs hold for all of them, of any length.

## What is taken for granted

- A state assignment and the storage write that follows it without a yield happen
  together; one multi-key write is atomic. Storage that throws has not written.
- Requests between two objects arrive in the order they were sent. Identifiers drawn
  at random are new. The clock does not go back.
- The platform runs one alarm handler of an object at a time and delivers one that was
  cut off again.
- A container starts only when the Sandbox asks its host for one. Eviction ends the
  operations that were in flight. Something idle in a container stays idle, and
  changes no file, until an admitted request or a starting server sets it to work;
  an inspection that says idle is right.
- A wake, a probe and a stop that owes no wake are over with their replies. In the code
  they are in progress a little longer, through the write that follows and its mirror to
  the session row (`src/lifecycle.ts:1253-1290`): a call that comes in that time joins them
  and begins nothing. It is taken for granted that this write is over before the alarm
  fires next, as the handler could be used up on joining it, and before a later stop is
  answered, so that "no older wake is in flight" and "in progress" mean the same in
  `OwedWakesBeginUnlessOneIsInFlight`.
- The paged look for backups of a purge (`src/sandbox.ts:2886-2934`) is one step of
  `BackupLedger`: a backup that appears behind its cursor while it is under way counts as
  one that appears after it.
- A gate that was never written is a sleeping gate of revision 0.
- `queuePrompt`, `register` and `startSession` of the session agent each run without
  interruption between their read of the state and their write, although the last awaits
  the model catalog there (`src/session-agent.ts:268-325`).

## What turned out not to hold

Each of these is kept as it is in the code, has a run or a condition in the model, and
the theorem beside it says when all is well.

- **An overtaken wake.** `performWake` stores its intent, yields, and sends its request
  without looking again (`src/lifecycle.ts:645-667`). A forced stop in that yield puts
  the wake request behind the stop; if the stop fails and the coordinator admits the
  epoch again, the late wake can close the gate of an admitted epoch
  (`JointExamples.AnOvertakenWakeClosesAnAdmittedGate`): it does exactly when it finds
  the container gone or cannot inspect it (`JointSafety.AdmittedGatesShutExactlyWhen`),
  and over whole runs an admitted epoch runs unless that has happened
  (`JointSafety.AdmittedEpochsRun`). A second look before sending would rule it out
  (`JointSafety.CheckedWakesMakeAdmissionSafe`).
- **A lost alarm.** The alarm handler joins what is in progress, and a superseded reply
  stores nothing; so an alarm can be used up on something older.
  `CoordinatorAlarms.AlarmIsForgottenExactlyWhenDropped` says for every event whether it
  loses the alarm, and two ways are open to calls and late replies alone
  (`OnlyJoinedHandlersLoseTheAlarm`). A superseded probe that fails returns without
  rescheduling (`src/lifecycle.ts:766-774`, `CoordinatorExamples.AnAlarmCanBeForgotten`);
  the handler can join a probe only if `reconcileNow` started it
  (`src/lifecycle.ts:449-455`), a call the object answers and nothing in the repository
  makes. And `performStop` awaits the wake it owes while it is still in progress
  (`src/lifecycle.ts:1033-1039`, `1105-1110`): a forced stop that begins meanwhile joins it
  and sends nothing (`src/lifecycle.ts:970-977`), its alarm does the same, and the wake is
  then superseded (`CoordinatorExamples.AForcedStopCanBeForgotten`). Without
  reconciliations this is the only way
  (`CoordinatorAlarms.WithoutReconciliationsOnlyJoinedStopsForget`), and without such a
  forced stop either the alarm is never lost
  (`CoordinatorAlarms.WithoutReconciliationsTheAlarmStays`).
- **A dropped wake.** A wake asked for during a stop is dropped if an older wake is still
  in flight when the stop is answered (`CoordinatorExamples.AnOwedWakeCanBeDropped`), and then
  only, unless another stop or a deletion has begun
  (`CoordinatorExamples.OwedWakesBeginUnlessOneIsInFlight`).
- **A stop put off.** An unreachable container is to be stopped after an hour, but only
  the alarm handler does so, and a failing probe of `reconcileNow` sets the alarm back by
  ten seconds to a minute (`src/lifecycle.ts:449-455`, `887-905`). Frequent ones put the
  stop off for ever (`CoordinatorExamples.ReconciliationsPostponeForever`); once they cease,
  it comes within a minute, one delay and one latency
  (`CoordinatorGivesUp.UnreachableContainersAreStopped`). Nothing in the repository makes
  that call, and without it the stop comes an hour and a minute, one delay and one latency
  after the first failure at the latest
  (`CoordinatorGivesUp.WithoutReconciliationsContainersAreStopped`).
- **A forgotten prompt.** A loss reported during a dispatch deletes the alarm and is then
  overwritten by the end of the dispatch; a prompt queued in between waits for nobody
  (`SessionExamples.AQueuedPromptCanBeForgotten`). `SessionSafety.RunsForgetExactlyWhenDropped`
  says when, for every run.
- **A snapshot that outlives a purge.** The host may finish a snapshot whose caller was
  evicted after the purge has looked for backups
  (`BackupExamples.AnAbandonedSnapshotOutlivesThePurge`). A successful purge leaves exactly
  such late backups.
- **A stranded claim.** A sweep whose call to a coordinator throws never pokes the Hub;
  its claims wait for the next claimer or load (`HubExamples.AClaimCanBeStranded`).
  `HubSafety.RunsStrandExactlyWhen` says when, for every run.
- An idle window that opened at instant 0 never counts a confirmation, because its start is
  tested for truth (`src/lifecycle.ts:855-858`); `CoordinatorIdles.QuietInstancesGoToSleep`
  is about reports with any other date.
- The comment on `sweepIdleSessions` says that cleanup does not touch `updated_at`; a
  deferred cleanup does (`src/hub-store.ts:530-543`). The model follows the code.
- `aggregateActivityClassifications` calls a source that is active without naming a
  session idle. The two classifiers never produce one (`Activity.IdleIsUnanimous`).

## Model

| member | source | states |
|---|---|---|
| `LifecycleCoordinator.Coordinator.Reload` | src/lifecycle.ts:207-230 | Eviction loses every handler in flight and nothing stored; an instance that needs an alarm and has none gets one for now, one that needs none loses it. |
| `LifecycleCoordinator.Coordinator.PersistAndSchedule` | src/lifecycle.ts:1253-1268 | The alarm is set to the earliest of the next probe, the idle deadline of an idle instance and the expiry of a live lease, never in the past, and dropped where none is needed. |
| `LifecycleCoordinator.Coordinator.InitializeInstance` | src/lifecycle.ts:232-267 | A first initialization starts asleep at revision 0; a later one changes nothing. |
| `LifecycleCoordinator.Coordinator.BeginWork` | src/lifecycle.ts:317-355 | Work is admitted exactly for the admitted epoch; it adds a lease with a bounded lifetime, ends the idle window, raises the revision and brings the next probe forward. |
| `LifecycleCoordinator.Coordinator.RenewWork` | src/lifecycle.ts:357-387 | Only a held lease of the current epoch in an admission phase is extended, and nothing else changes. |
| `LifecycleCoordinator.Coordinator.EndWork` | src/lifecycle.ts:389-418 | A held lease is given back: the phase follows the leases that are left, the idle window restarts and a probe is due at once. The phase is not looked at. |
| `LifecycleCoordinator.Coordinator.ObserveExecution` | src/lifecycle.ts:421-447 | An observation of the admitted epoch is applied unless it says idle as of before the last work. |
| `LifecycleCoordinator.Coordinator.ApplySnapshot` | src/lifecycle.ts:780-885 | The five answers of a probe: not running, outdated, busy, still idle and confirming idle. |
| `LifecycleCoordinator.Coordinator.ForceStop` | src/lifecycle.ts:458-492 | A forced stop begins only from a phase that can be stopped and takes all leases away. |
| `LifecycleCoordinator.Coordinator.BeginDelete` | src/lifecycle.ts:494-512 | Deletion gives up the epoch, the operation and the leases. |
| `LifecycleCoordinator.Coordinator.MarkDeleted` | src/lifecycle.ts:514-519 | The stored state and the alarm go. |
| `LifecycleCoordinator.Coordinator.Wake` | src/lifecycle.ts:273-305 | An explicit wake is refused while deleting, a no-op while admitted, remembered while quiescing, and otherwise stores the intent to wake. |
| `LifecycleCoordinator.Coordinator.ContinueWake` | src/lifecycle.ts:586-660 | A wake already in flight is joined; a retry reuses the stored operation and epoch, anything else draws new ones; leases go and the recovery alarm is set, before any request leaves. |
| `LifecycleCoordinator.Coordinator.SendWake` | src/lifecycle.ts:660-667 | The request leaves after a yield without a second look at the state. |
| `LifecycleCoordinator.Coordinator.WakeReply` | src/lifecycle.ts:667-722 | Only a reply to the stored operation and epoch counts: it opens admission, or sends the instance to error_waking with a backoff. |
| `LifecycleCoordinator.Coordinator.StartProbe` | src/lifecycle.ts:733-746 | A probe first removes expired leases; it is sent for the revision and epoch it saw. |
| `LifecycleCoordinator.Coordinator.ExpireLeases` | src/lifecycle.ts:1138-1162 | Exactly the leases that expired or belong to another epoch go; if any does, the idle window ends and the revision rises. |
| `LifecycleCoordinator.Coordinator.ProbeReply` | src/lifecycle.ts:755-778 | An answer for another revision or epoch changes nothing; a superseded failure does not even reschedule the alarm. |
| `LifecycleCoordinator.Coordinator.StopReply` | src/lifecycle.ts:994-1136 | Only the reply to the stored stop counts: asleep, still pending, open again because busy, or open with an error. A stop that owes a wake is still in progress then; any other is over. |
| `LifecycleCoordinator.Coordinator.WakeAfterStop` | src/lifecycle.ts:1033-1039 | The stop that owes a wake joins the one in flight or begins one, and stays in progress until that is over; if neither is to be, it is over at once. |
| `LifecycleCoordinator.Coordinator.Alarm` | src/lifecycle.ts:526-563 | The alarm resumes a wake or a stop, or removes leases and decides. |
| `LifecycleCoordinator.Coordinator.SendStop` | src/lifecycle.ts:970-993 | The stop request leaves unless a stop is in progress, be it unanswered or waiting for its owed wake, or the stop is over. |
| `LifecycleCoordinator.Coordinator.Decide` | src/lifecycle.ts:555-570 | With the idle deadline passed and no live lease an idle stop begins; otherwise a due probe is started; otherwise the alarm is set again. |
| `LifecycleCoordinator.Coordinator.AlarmAfterProbe` | src/lifecycle.ts:564-582 | After its probe the alarm begins a forced stop if the container has not answered for an hour. |
| `CoordinatorInvariant.StepKeepsInv` | src/lifecycle.ts:389-418 | Every event keeps: the epoch is present exactly outside sleeping and deleting, an operation of the matching kind exactly in waking, error_waking and quiescing, leases carry the current epoch and exist only in admission phases, idle candidate and deadline fit, and the alarm is in step. |
| `CoordinatorRuns.RunsAreSound` | src/lifecycle.ts:207-582 | The invariant holds in every state of every run of events, with reloads and lost replies. |
| `CoordinatorRuns.EveryStateIsConsistent` | src/lifecycle.ts:544-563 | In every reachable state epochs, operations and leases fit the phase, so ending work can never reopen a quiescing, waking or deleting instance. |
| `CoordinatorRuns.IdleStopIsEarned` | src/lifecycle.ts:943-968 | Whenever an idle stop begins: no lease is held, the idle timeout has passed since work last began, ended or expired, and at least two idle snapshots of this very epoch came in since, with no other answer and no other stop between. |
| `CoordinatorIdles.RunsBeginIdleStopsExactlyWhenDue` | src/lifecycle.ts:544-563 | In every run an event begins an idle stop if and only if the alarm handler decides then, the instance is running_idle, its deadline was past when the alarm fired and no lease was alive at that instant (an alarm that finds one run out removes it first and decides later); the stop is under a new operation, for the epoch that was admitted. |
| `CoordinatorIdles.IdleInstancesGoToSleep` | src/lifecycle.ts:544-563 | In every run: an idle instance that is left quiet begins its idle stop no later than one delay of the alarm, and one latency of a probe under way, after its deadline. |
| `CoordinatorIdles.QuietInstancesGoToSleep` | src/lifecycle.ts:780-885 | In every run: an instance that holds no work and has not been seen idle, left quiet, is found idle twice, three seconds apart, and begins its idle stop no later than its idle timeout, three delays and three latencies after its next probe is due. |
| `CoordinatorLaws.StepIsLawful` | src/lifecycle.ts:780-905 | What one event may do to the stored state: how revision, epoch, leases, idle confirmations and the work instant may move, given what was heard. |
| `CoordinatorRuns.AppliedProbesCrossNoFence` | src/lifecycle.ts:747-763 | An applied probe answer was asked for after the last work, expiry, stop, deletion or wake. |
| `CoordinatorRuns.RevisionNeverDecreases` | src/lifecycle.ts:1354-1379 | As long as the stored state is not deleted its revision never decreases. |
| `CoordinatorRuns.GivenUpEpochsStayGivenUp` | src/lifecycle.ts:1354-1379 | An epoch once given up is never held, let alone admitted, again. |
| `CoordinatorRuns.SupersededWakesAreInert` | src/lifecycle.ts:667-678 | A wake reply superseded at any point changes no state, however much later it arrives. |
| `CoordinatorRuns.SupersededStopsAreInert` | src/lifecycle.ts:1050-1056 | The same for a stop reply. |
| `CoordinatorAlarms.AlarmsAreSetWithinAMinute` | src/lifecycle.ts:1320-1342 | In every run an alarm is never set for more than 60 s ahead, nor is a probe. |
| `CoordinatorAlarms.AlarmIsTheEarliest` | src/lifecycle.ts:1320-1342 | The alarm is set exactly if the phase needs one: for the earliest of the next probe, the idle deadline of an idle instance and the end of a live lease, at once if that is past, and 30 s ahead for want of any. |
| `CoordinatorAnswers.LeasesEndWhenGranted` | src/lifecycle.ts:317-387 | In every run: a lease that is held was begun or renewed while its epoch was admitted, ends the lifetime asked for after the last such call, within five seconds and five minutes or ninety seconds by default, and no later call was granted. |
| `CoordinatorAnswers.ProbesAreAnswered` | src/lifecycle.ts:780-905 | A current probe: what each report of the container, or a failure, leaves, with every phase, window, revision and wait in numbers. |
| `CoordinatorAnswers.ReportsAreTaken` | src/lifecycle.ts:421-447 | A report of the admitted epoch is taken like a probe, but for an idle one dated before the last work; that one, and one of any other epoch, changes nothing. |
| `CoordinatorAnswers.WakesAreAnswered` | src/lifecycle.ts:667-722 | A current wake opens admission for its epoch exactly if the container is up; otherwise it stays a wake of the same operation, epoch and revision, to be tried again after 10, 20, 40 or 60 s. |
| `CoordinatorAnswers.StopsAreAnswered` | src/lifecycle.ts:994-1136 | A current stop by its outcome: asleep for the reason of its kind and owing a wake exactly if one was asked for; pending for 30 s more; open again with nothing known; in error for 10 s; or failed and to be tried again under the same operation. |
| `CoordinatorAnswers.WorkIsAdmitted` | src/lifecycle.ts:317-355 | Work is admitted exactly for the admitted epoch; then the instance is busy, its idle window closed and its next probe at most ten seconds away and no later than before. |
| `CoordinatorAnswers.WorkIsGivenBack` | src/lifecycle.ts:389-418 | Giving back a held lease leaves the instance busy exactly if others are held, with a probe and the alarm due at once; giving back any other changes nothing. |
| `CoordinatorAnswers.ForcedStopsBegin` | src/lifecycle.ts:458-492 | A forced stop begins exactly unless the instance sleeps, stops or is deleted, under its own operation, with no lease left. |
| `CoordinatorAnswers.WakesAreAskedFor` | src/lifecycle.ts:273-305 | A wake that is asked for does nothing while the instance is up, gone or being deleted, is remembered while it stops, joins one in flight, and otherwise begins under a new operation for a new epoch. |
| `CoordinatorAnswers.AlarmsWakeAgain` | src/lifecycle.ts:613-656 | The alarm tries a wake again under the same operation, for the same epoch and at the same revision. |
| `CoordinatorAnswers.StopsAreSent` | src/lifecycle.ts:970-993 | A stored stop is sent with its operation, epoch and revision, by whoever stored it or by the alarm, unless one is in progress. |
| `CoordinatorAnswers.ReconciliationsProbe` | src/lifecycle.ts:724-746 | A probe begins unless one is under way: with its request, for the revision and epoch of the moment, or by removing exactly the leases that have run out, which closes the idle window. |
| `CoordinatorAnswers.AlarmsLookAround` | src/lifecycle.ts:544-572 | The alarm of an instance that admits work removes exactly what has run out and decides afterwards; or, with no idle stop due, probes exactly if a probe is due, and is set again for the earliest thing to come. |
| `CoordinatorAnswers.AlarmsEndWithTheirProbe` | src/lifecycle.ts:564-575 | After its probe the alarm handler begins a forced stop if and only if the container has not answered for 3,600,000 ms. |
| `CoordinatorAnswers.ReloadsKeepTheState` | src/lifecycle.ts:207-230 | A reload keeps what is stored and loses every handler; an alarm is set afterwards exactly if the phase needs one. |
| `CoordinatorAlarms.AlarmIsForgottenExactlyWhenDropped` | src/lifecycle.ts:733-778 | An event makes an instance that still needs its alarm lose it if and only if it takes the last thing in progress away and stores nothing, while no alarm is set: a superseded failure of a probe, a probe that finds admission closed, a superseded answer of a wake or of a stop, or the end of a stop whose owed wake is not to be. |
| `CoordinatorAlarms.RunsForgetExactlyWhenDropped` | src/lifecycle.ts:526-778 | So it is in every run: an instance is forgotten at exactly those events. |
| `CoordinatorAlarms.OnlyJoinedHandlersLoseTheAlarm` | src/lifecycle.ts:526-582 | In a run without deletion of the stored state the alarm is lost in two ways only, both by a handler that joined something superseded: a probe that fails, and an answered stop whose owed wake is over. |
| `CoordinatorAlarms.WithoutReconciliationsOnlyJoinedStopsForget` | src/lifecycle.ts:970-977 | In every run without a reconciliation and without deletion, up to any event: it loses the alarm if and only if it ends an answered stop that the alarm handler has joined for a later one. |
| `CoordinatorAlarms.WithoutReconciliationsTheAlarmStays` | src/lifecycle.ts:458-492 | In every run without a reconciliation, without deletion of the stored state and without a forced stop that begins while an answered stop is still in progress, an instance that needs its alarm is attended in every state and never forgotten. |
| `CoordinatorExamples.ForcedStopsBehindAStopCanBeLost` | src/lifecycle.ts:970-977 | That last condition is needed: in whatever run an owed wake of an answered stop is in flight while no alarm handler, probe or other stop is at work, a forced stop that begins then has a continuation of four events in which, whatever the wake is answered, the alarm is lost. |
| `CoordinatorExamples.AForcedStopCanBeForgotten` | src/lifecycle.ts:1033-1039 | A reachable run, without reconciliation, deletion or reload, that loses the alarm in this way. |
| `CoordinatorExamples.AnAlarmCanBeForgotten` | src/lifecycle.ts:766-778 | A reachable run that loses the alarm: the alarm joins a probe, work supersedes it, the probe fails. |
| `CoordinatorExamples.OwedWakesBeginUnlessOneIsInFlight` | src/lifecycle.ts:1105-1110 | In every run: when a wake owed after a stop gets its turn, the instance is up or on its way if and only if no other stop or deletion has begun and, if it is asleep, no older wake is in flight; behind an older wake, which the stop joins, it stays asleep and that wake is superseded. |
| `CoordinatorExamples.AnOwedWakeCanBeDropped` | src/lifecycle.ts:586-600 | A reachable run in which a wake asked for during a stop is dropped behind an older one whose request the stop has overtaken: asleep, no alarm, nothing owed and nothing in progress. |
| `CoordinatorGivesUp.FirstFailureStartsTheClock` | src/lifecycle.ts:887-905 | The first failed probe starts the hour and sets the alarm between ten seconds and a minute ahead. |
| `CoordinatorGivesUp.GivesUpExactlyWhen` | src/lifecycle.ts:564-575 | Whatever wakes, reconciliations, reloads and refused calls come, an unanswered container is given up by one event only: the alarm handler going on after its probe, an hour or more after the first failure; until then it stays unanswered since the same instant. |
| `CoordinatorGivesUp.GivesUpInTime` | src/lifecycle.ts:887-941 | Over every stretch of a run without admitted work or an answer, from a coordinator that is on time: it stays on time, or a forced stop begins between the hour and the bound. |
| `CoordinatorGivesUp.UnreachableContainersAreStopped` | src/lifecycle.ts:564-575 | In every run: from the first failed probe, with every probe failing and no work admitted, a forced stop begins no sooner than 3,600,000 ms later, and no later than a minute, the delay of one alarm and the latency of one probe after the hour, or after the last reload or the last probe that failed without the alarm waiting for it. |
| `CoordinatorGivesUp.WithoutReconciliationsContainersAreStopped` | src/lifecycle.ts:564-575 | In every run without a reconciliation: from the first failed probe, with every probe failing, no work admitted and no reload after the hour, a forced stop begins between 3,600,000 ms and 3,660,000 ms plus the delay of one alarm and the latency of one probe after it. |
| `CoordinatorExamples.ReconciliationsPostponeForever` | src/lifecycle.ts:449-455 | However far the clock goes there is a run with every probe failing at once and every alarm on time in which the container is not given up, because each failing reconciliation sets the alarm back. |
| `Sandbox.SandboxObject.RefreshHostRuntime` | src/sandbox.ts:534-555 | The host's answer becomes the belief; an unreachable host leaves it. |
| `Sandbox.SandboxObject.WakeForLifecycle` | src/sandbox.ts:646-676 | The wake as one uninterrupted method ends where the mutation cut at its awaits ends on the same host answers, evictions included. |
| `Sandbox.SandboxObject.Boot` | src/sandbox.ts:668-779 | Gate to waking under the next revision; boot, restore, serve; running for the epoch, or asleep on any failure. |
| `Sandbox.SandboxObject.QuiesceAndStopIfIdle` | src/sandbox.ts:876-985 | The idle stop, likewise: not running, refused, resumed where its operation left the gate, or drained, inspected, persisted and terminated. |
| `Sandbox.SandboxObject.DrainAndInspect` | src/sandbox.ts:915-950 | Nothing goes on to the checkpoint unless the inspection after the drain says running and idle. |
| `Sandbox.SandboxObject.ForceStopForLifecycle` | src/sandbox.ts:987-1076 | The forced stop, likewise, without the inspection. |
| `Sandbox.SandboxObject.PersistAndTerminate` | src/sandbox.ts:952-970 | Export, then persist, then the stopping gate, then termination; a failed persist goes to the catch. |
| `Sandbox.SandboxObject.Terminate` | src/sandbox.ts:2475-2490 | The gate sleeps only when the container is believed gone or the host confirms it stopped. |
| `Sandbox.SandboxObject.CatchStop` | src/sandbox.ts:971-985 | A failed stop opens the gate for the old epoch if the container runs, and lets it sleep otherwise. |
| `WorkspaceSafety.StaleStopsSpareTheContainer` | src/sandbox.ts:890-916 | In every run a stop naming another epoch than the gate runs ends with the answer of the host and never touches the container, whatever happens meanwhile; the gate stays as it was if and only if the host does not deny the container. |
| `SandboxOutcomes.StoppingSleepsExactlyWhen` | src/sandbox.ts:885-985 | In every run a gate that is stopping goes to sleep if and only if the host denies the container at the start of a stop, or it is believed gone when there is nothing left but to terminate it, or that very step is the host's confirmation; it is believed gone then, and after a confirmation it is. |
| `SandboxOutcomes.RunningContainersAreTerminated` | src/sandbox.ts:958-965 | In every run: a stop with nothing left but to terminate a container believed up asks the host to, and the gate is still stopping. |
| `SandboxOutcomes.TerminationsAreConfirmed` | src/sandbox.ts:2475-2490 | In every run: a confirmed termination takes container and gate down and is answered stopped; any other leaves both as they are and is answered termination_pending. |
| `SandboxOutcomes.StopsEndAsleep` | src/sandbox.ts:885-985 | A stop is answered stopped or not_running if and only if it found the container gone, and the gate sleeps then. |
| `SandboxOutcomes.StopsEndAwake` | src/sandbox.ts:971-985 | It is answered termination_pending exactly for an unconfirmed termination and failed_running exactly for a container that survived a failure, with the gate open again for its epoch. |
| `SandboxOutcomes.StopRefusals` | src/sandbox.ts:890-950 | It is answered busy exactly with the report of something at work after the drain, with the gate open again; and refused, changing no gate, exactly if the gate neither is at this operation nor runs the epoch it names. |
| `SandboxOutcomes.StopsGoOn` | src/sandbox.ts:903-970 | Where each step of a stop goes on from, and with which gate: resumed where its operation had got to, drained, inspected, exported, persisted, checked, terminated. |
| `SandboxOutcomes.WakesAnswer` | src/sandbox.ts:646-779 | A wake answers with a report exactly if it could look, with the gate running its epoch; it is refused with the gate asleep if a step of its boot failed. |
| `SandboxOutcomes.WakesGoOn` | src/sandbox.ts:653-779 | Where each step of a wake goes on: adopt a container that is up, boot under the next revision otherwise, restore, serve, and only then open the gate. |
| `JointSafety.RunsKeepInv` | src/lifecycle.ts:597-722 | The joint invariant of coordinator, network and Sandbox holds through crashes of either side, lost requests and lost replies. |
| `JointSafety.AdmittedGatesShutExactlyWhen` | src/sandbox.ts:653-779 | From any state the invariant allows, with an epoch admitted and running: an action shuts its gate if and only if it is the epoch's own wake finding its container gone or failing to inspect it. |
| `JointSafety.AdmittedEpochsRun` | src/sandbox.ts:653-779 | In every reachable state an admitted epoch is the one the gate runs if and only if its own wake has not shut the gate since the gate last ran it; nothing but such a wake is in flight, and unless it was overtaken there is none and the gate runs. |
| `JointSafety.CheckedWakesMakeAdmissionSafe` | src/lifecycle.ts:645-667 | If every wake were still what the stored state asks for when its request leaves, every admitted epoch would be the one the gate runs. |
| `JointSafety.TakenOutcomesMatchTheGate` | src/lifecycle.ts:979-1136 | A stop outcome the coordinator takes is what the gate says then -- asleep, stopping, or running the epoch again -- if and only if no wake of that epoch has undone it since; only an overtaken one can. |
| `JointSafety.TakenWakesMatchTheGate` | src/lifecycle.ts:661-700 | A wake's success is taken only while the gate runs its epoch. |
| `JointExamples.AnOvertakenWakeClosesAnAdmittedGate` | src/lifecycle.ts:645-667 | A reachable run in which the coordinator admits an epoch and the gate is closed: a wake sent behind a forced stop. |
| `WorkspaceSafety.RunsKeepInv` | src/sandbox.ts:885-1075 | The invariant of gate, drain, checkpoint, container and backup holds in every run with evictions and dying containers. |
| `WorkspaceSafety.AdmissionIsClosed` | src/sandbox.ts:922-944 | Once the gate is checkpointing or stopping no admitted operation is in flight, none can be admitted, and a checkpoint in progress is the stop's own. |
| `WorkspaceSafety.RequestsPassedARunningGate` | src/sandbox.ts:1178-1213 | Whoever is past the gate passed it while it ran that epoch, and has been counted for it ever since. |
| `WorkspaceSafety.StopsTakeTheirOwnCheckpoint` | src/sandbox.ts:2706-2720 | The checkpoint a stop waits for is never an older one it joined. |
| `WorkspaceSafety.TerminationComesLast` | src/sandbox.ts:903-972 | Whenever the host has been asked to terminate a container, whatever it answers and whether or not anybody is left to hear it, the gate is stopping, after an export was attempted and then a persist succeeded, both since the gate last left running. |
| `WorkspaceSafety.NothingElseTerminates` | src/sandbox.ts:885-1075 | No other start or continuation of a mutation takes the container away. |
| `WorkspaceSafety.IdleStopsPersistQuietly` | src/sandbox.ts:921-968 | An idle stop archives only while nothing admitted is in flight and nothing in the container works, and what it has persisted is what the container holds. |
| `WorkspaceSafety.IdleStopsLoseNothing` | src/sandbox.ts:2575-2647 | However a container goes down in the last phase of an idle stop, the next restored workspace equals the one that went down, with snapshots and with volumes. |
| `WorkspaceSafety.WakesServeRestoredFiles` | src/sandbox.ts:653-779 | A wake goes on to start the server only in front of a restored workspace, and no files that went down with an idle stop are owed any more by then. |
| `SandboxOperations.Operations.BeginActiveOperation` | src/sandbox.ts:2501-2505 | An operation is counted exactly while the instance is active. |
| `SandboxOperations.Operations.FinishActiveOperation` | src/sandbox.ts:2506-2515 | Counting one out ends every drain that waits when the count reaches zero. |
| `SandboxOperations.Operations.BeginLifecycleRead` | src/sandbox.ts:2540-2548 | An inspection is counted exactly while the instance is active. |
| `SandboxOperations.Operations.FinishLifecycleRead` | src/sandbox.ts:2540-2548 | And counted out. |
| `SandboxOperations.Operations.CallMutation` | src/sandbox.ts:2549-2560 | A mutation is counted, finds the promise at the tail of the chain to wait for, and leaves one of its own there. |
| `SandboxOperations.Operations.RunMutation` | src/sandbox.ts:2560-2568 | When its turn comes it runs, or is turned away by a purge and releases its place. |
| `SandboxOperations.Operations.FinishMutation` | src/sandbox.ts:2564-2568 | Its end releases its place and its count. |
| `SandboxOperations.Operations.RequestPurge` | src/sandbox.ts:2387-2411 | A purge closes the instance before it stores anything. |
| `SandboxOperations.Operations.MarkPurge` | src/sandbox.ts:2413-2421 | The mark is stored and the two drains begin. |
| `PurgeBarrier.MutationsTakeTurns` | src/sandbox.ts:2549-2568 | Though each mutation waits only for the promise it found at the tail, bodies are mutually exclusive and run in the order of the calls, and a promise has resolved if and only if nothing called earlier is still out. |
| `PurgeBarrier.ActiveInstancesAdmit` | src/sandbox.ts:2492-2573 | In every run: operations, inspections and mutations are let in, and a mutation whose turn has come runs, if and only if the instance is active; a refused one releases its place. |
| `PurgeBarrier.PurgesPassExactlyWhenAlone` | src/sandbox.ts:2516-2539 | In every run a purge that waits is let through if and only if nothing is at work and nothing waits. |
| `PurgeBarrier.PurgesClose` | src/sandbox.ts:2387-2463 | In every run: a call of a purge closes the instance at once and waits exactly if there is one to purge; an instance that comes back is open exactly if no mark was stored. |
| `PurgeBarrier.CountersOnlyFall` | src/sandbox.ts:2492-2539 | Both counters count exactly what is in flight, so they are never negative, and never grow once a purge is called. |
| `PurgeBarrier.ThePurgeIsAlone` | src/sandbox.ts:2418-2421 | After the drains no operation, inspection or mutation runs, waits or can start. |
| `PurgeBarrier.MarkedForGood` | src/sandbox.ts:450-466 | Once the purge mark is stored nothing is ever counted again, whatever is evicted or wiped. |
| `BackupCheckpoint.Backups.SweepStale` | src/sandbox.ts:2783-2797 | The sweep deletes what it can and keeps exactly the rest. |
| `BackupCheckpoint.Backups.DoCreateCheckpoint` | src/sandbox.ts:2721-2807 | A recorded checkpoint leaves its backup as the latest and, beside it, exactly those whose deletion failed; an unrecorded one leaves the store alone. |
| `BackupPaging.Bucket.DeleteBackupObjects` | src/sandbox.ts:2867-2884 | Page by page, exactly the objects under the prefixes of the given backups go, whatever the page size. |
| `BackupPaging.BackupsDoNotOverlap` | src/sandbox.ts:2871-2872 | The prefix of one backup matches no object of another. |
| `BackupPaging.OwnersDoNotOverlap` | src/sandbox.ts:2919-2926 | The name prefix of one instance matches no backup of another. |
| `BackupPaging.ListBackupHandleLedger` | src/sandbox.ts:2822-2845 | Pages of 1000 add up to the whole ledger. |
| `BackupPaging.DiscoverOwnedBackups` | src/sandbox.ts:2886-2934 | Discovery finds exactly the backups that carry the owner's name, however the listing is paged. |
| `BackupLedger.TheLatestBackupExists` | src/sandbox.ts:2755-2807 | In every run with failures and evictions at any step, the recorded latest backup exists until the barrier lets a purge through. |
| `BackupLedger.NoBackupIsForgotten` | src/sandbox.ts:2755-2807 | Every live backup of the instance is on record, in the hand of the running checkpoint, or an orphan its name still identifies. |
| `BackupLedger.CheckpointsLeaveWhatTheyCouldNotDelete` | src/sandbox.ts:2783-2807 | A checkpoint that compacts its ledger leaves exactly its backup and those whose deletion failed on record, and nothing else alive but orphans. |
| `BackupLedger.CleanCheckpointsLeaveOne` | src/sandbox.ts:2783-2807 | With all deletions done that is one backup. |
| `BackupLedger.CheckpointsGoOn` | src/sandbox.ts:2695-2807 | In every run, step by step: what a checkpoint has on record, in the bucket and in hand afterwards; one that could not be recorded is deleted again, and what could not be deleted stays on record. |
| `BackupLedger.PurgesGoOn` | src/sandbox.ts:2413-2463 | In every run, step by step: a purge dooms what is on record and what carries the name, takes the host away before it deletes, and forgets at the end; a deleted instance loses its identity by that, a cleaned one does not. |
| `BackupLedger.NoCheckpointDuringAPurge` | src/sandbox.ts:2413-2435 | Whoever asks for a checkpoint, none is at work and none begins while a purge is at work: the barrier it waited at has let everybody out. |
| `BackupLedger.PurgesLeaveOnlyLateBackups` | src/sandbox.ts:2423-2463 | When a purge reports success, with a purge of the other kind at work beside it or not, the backups left are exactly those that appeared after it looked and that the other has not deleted. |
| `BackupLedger.PurgesLeaveNothing` | src/sandbox.ts:2423-2463 | With no snapshot under way when a purge looked, none is left when one of that kind reports success, however often it was tried again and whatever the other purge does meanwhile. |
| `BackupExamples.AnAbandonedSnapshotOutlivesThePurge` | src/sandbox.ts:2423-2463 | A reachable run, barrier included, in which the snapshot of an evicted checkpoint outlives the purge. |
| `BackupLedger.OthersAreSpared` | src/sandbox.ts:2867-2884 | No step adds, takes or changes a backup of another instance. |
| `SessionAgent.SessionAgent.StartSession` | src/session-agent.ts:268-325 | A new session holds its opening prompt and is due at once; an existing one is left alone. |
| `SessionAgent.SessionAgent.QueuePrompt` | src/session-agent.ts:392-456 | A new prompt goes to the end of the queue and makes the session due; a known identifier, queued or delivered, and a lost session change nothing. |
| `SessionAgent.SessionAgent.RetrySession` | src/session-agent.ts:459-485 | A retry clears the ladder and keeps the queue; a lost session stays as it is. |
| `SessionAgent.SessionAgent.MarkLost` | src/session-agent.ts:499-509 | A loss drops the alarm, ends the ladder and keeps the queue. |
| `SessionAgent.SessionAgent.DispatchPending` | src/session-agent.ts:662-712 | The loop takes the prompts one by one: what the container took leaves the queue in order, and a failure leaves the rest. |
| `SessionSafety.RunsKeepInv` | src/session-agent.ts:558-734 | The invariant of queue, ladder and alarm holds through failures, evictions and calls in any order. |
| `SessionSafety.PromptsArriveInOrder` | src/session-agent.ts:628-734 | In every run the prompts the container took, adjacent repeats counted once, followed by the pending ones, are the prompts queued, in order; only the head can have been taken already. |
| `SessionSafety.PendingIsNew` | src/session-agent.ts:412-420 | Pending identifiers are distinct and none is among the remembered ones, at most 50. |
| `SessionSafety.ResendsAreDropped` | src/session-agent.ts:398-420 | An identifier counts as a new prompt again only after at least 50 others were queued in between. |
| `SessionSafety.FourFailuresAtMost` | src/session-agent.ts:577-626 | From any point, with no call or success in between, at most four dispatches fail, and the fourth leaves the session failed or lost. |
| `SessionSafety.RetriesComeBack` | src/session-agent.ts:588-624 | In every run: after a failure that is no verdict, whatever calls come meanwhile, the backoff sets the alarm exactly 5, 20 or 60 s ahead, by the first, second or third failure, unless the object goes away before. |
| `SessionSafety.CallsMakeSessionsDue` | src/session-agent.ts:268-509 | In every run: a prompt is queued, at the end, if and only if there is a session that is not lost and has not seen it; a new session, one with a new prompt, even one that had failed, and one retried with prompts waiting is due afresh, from the foot of the ladder, with its alarm on the way; a refused call changes nothing. |
| `SessionSafety.DispatchesGoOn` | src/session-agent.ts:511-734 | In every run: an alarm begins a dispatch if and only if the session needs one; it registers, wakes, hands over the head while there is one, and ends at work at the foot of the ladder; a loss that lands and a deletion end the session; a reload sets the alarm exactly for one that needs it and has none. |
| `SessionSafety.TheFourthFailureIsTheVerdict` | src/session-agent.ts:558-626 | In every run, from a fresh ladder on, while nothing starts it over and the workspace is not known to be lost: the attempts count the failures, and the session is failed or lost if and only if there were four. |
| `SessionSafety.FailuresKeepTheQueue` | src/session-agent.ts:582-626 | A failed dispatch keeps the queue; it is lost exactly if the workspace is known to be, or for the fourth time missing; failed exactly for the fourth time otherwise; and else queued again, one attempt on, to come back after 5, 20 or 60 s. |
| `SessionSafety.LostIsFinal` | src/session-agent.ts:459-509 | Lost with no dispatch in flight is for good. |
| `SessionSafety.PromptsAreForgottenExactlyWhenDropped` | src/session-agent.ts:499-509 | One event: prompts are forgotten after it if and only if it is the end of a dispatch beside a pending prompt with no alarm set and no call at work, or they were before and nothing rouses the session. |
| `SessionSafety.RunsForgetExactlyWhenDropped` | src/session-agent.ts:499-509 | So it is in every run: prompts are forgotten exactly if the end of a dispatch dropped them and no call or eviction came since. |
| `SessionSafety.WaitingPromptsAreSeenTo` | src/session-agent.ts:242-256 | While prompts wait outside failed and lost, an alarm is set, a dispatch runs, or a call or a reload will set one, if and only if the prompts were not dropped; and none is dropped unless a loss was reported during a dispatch. |
| `SessionExamples.AQueuedPromptCanBeForgotten` | src/session-agent.ts:499-509 | A reachable run with a loss reported during a dispatch: a prompt waits and nothing will dispatch it. |
| `HubStore.Store.BeginDelete` | src/hub-store.ts:435-468 | A deletion claims the row for a fresh operation unless one is in flight, which it joins; either way the row is being deleted. |
| `HubStore.Store.MarkDeleteFailed` | src/hub-store.ts:514-528 | Fenced on the operation. |
| `HubStore.Store.DeferDelete` | src/hub-store.ts:530-543 | Fenced; the row goes to the back of the queue. |
| `HubStore.Store.FinishDelete` | src/hub-store.ts:545-552 | Fenced; the row goes. |
| `HubStore.Store.FinishClean` | src/hub-store.ts:654-668 | Fenced; the row is kept, marked cleaned and free. |
| `HubStore.Store.MarkCleanFailed` | src/hub-store.ts:670-680 | Fenced. |
| `HubStore.Store.ClaimCleanup` | src/hub-store.ts:578-589 | A cleanup claim looks at the row again as it writes. |
| `HubStore.Store.SweepIdleSessions` | src/hub-store.ts:564-599 | The claiming loop over the scanned candidates, with whatever others write between any two claims, and its count. |
| `HubStore.SweepsClaimTheEligible` | src/hub-store.ts:564-599 | Whatever others write before each turn: the turn changes its candidate exactly if that is eligible in the table it finds, to a claim of its own operation, leaves every other row alone, and the sweep counts exactly the turns that claimed. |
| `HubStore.UndisturbedSweepsClaimAll` | src/hub-store.ts:564-599 | With nobody else at work every eligible row is claimed, each for its own operation, and no other row is touched. |
| `HubStore.Store.NextPending` | src/hub-store.ts:472-483 | The oldest claim of a kind, or none exactly when there is none. |
| `HubStore.Hub.Poke` | src/hub.ts:52-57 | After a poke the alarm is set. |
| `HubStore.Hub.Alarm` | src/hub.ts:59-152 | One attempt: the oldest deletion, else the oldest cleanup, ended by its fenced write; the alarm is set again exactly if a claim is left. |
| `HubSafety.SupersededAttemptsChangeNothing` | src/hub-store.ts:502-552 | Over all interleavings an attempt's write changes at most its own row, and only while that row belongs to its operation. |
| `HubSafety.DeletionIsForGood` | src/hub-store.ts:435-468 | A row once deleting is deleting, delete_failed or gone ever after. |
| `HubSafety.RowsDisappearOnlyWhenPurged` | src/hub.ts:66-88 | A row disappears only after a purge reported success under the operation it carries. |
| `HubSafety.ClaimsAreStrandedExactlyWhen` | src/hub.ts:32-57 | One action: claims are stranded after it if and only if the last claimer owing a poke dies beside them with no worker awake, or the worker goes to rest behind a deletion nobody will poke for, or they were before and nothing rescues them. |
| `HubSafety.RunsStrandExactlyWhen` | src/hub-store.ts:564-599 | So it is in every run: claims are stranded exactly if such an action stranded them and no new claimer and no eviction came since. |
| `HubSafety.ClaimsAreSeenTo` | src/hub.ts:32-57 | A waiting claim has an alarm, a worker, a poke coming or a load ahead if and only if it was not stranded; and the load that comes sets the alarm even for a stranded one. |
| `HubSafety.OnlyDeadClaimersStrand` | src/hub.ts:32-57 | As long as no claimer dies before its poke no claim is ever stranded. |
| `HubExamples.AClaimCanBeStranded` | src/hub-store.ts:590-596 | A reachable run in which the sweep that claimed dies before its poke and its claim is stranded. |
| `HubSafety.RequestsClaimDeletions` | src/hub-store.ts:435-490 | In every run a deletion request leaves its row claimed for deletion: under the operation in flight if there is one, under its own otherwise, and touches no other row. |
| `HubSafety.CleanupsEnd` | src/hub.ts:59-152 | In every run a cleanup that still holds its row leaves it cleaned and free, never eligible again, exactly after a success; clean_failed, unclaimed and eligible as before, exactly after an error; and still claimed, behind everything older, otherwise. |
| `HubSafety.DeletionsEnd` | src/hub.ts:59-152 | In every run a deletion that still holds its row removes it exactly after a success, leaves it delete_failed and unclaimed exactly after an error, and still claimed, behind everything older, otherwise. |
| `HubSafety.CleanedIsForGood` | src/hub-store.ts:602-625 | In every run a cleaned row is left alone by every sweep, and stays cleaned until a deletion takes it. |
| `HubSafety.AlarmsTryOneClaim` | src/hub.ts:59-152 | In every run an alarm tries the oldest deletion, or else the oldest cleanup, under the operation that claimed it; afterwards it is set again exactly if a claim of either kind is left; one that is cut off comes again. |
| `HubSafety.DeferredGoesLast` | src/hub-store.ts:530-543 | A deferred deletion is not picked again before any older claim. |
| `DiffRecut.SplitHunks` | web/src/diff-recut.ts:33-49 | The loop splits the patch at its headers and loses nothing. |
| `DiffRecut.ParsingIsUndone` | web/src/diff-recut.ts:33-49 | Printing a parsed patch gives the patch back. |
| `DiffRecut.RecutPatch` | web/src/diff-recut.ts:58-137 | A patch is re-cut exactly if it has one hunk, from line 1, with a change; then its hunks are the cuts of the kept lines, and applying them to the old content gives the new. |
| `DiffRecut.Versions` | web/src/diff-recut.ts:77-95 | Both versions of the file and the number of every patch line in each. |
| `DiffRecut.MarkKept` | web/src/diff-recut.ts:97-111 | A line is flagged exactly if it is within the context width of a change. |
| `DiffRecut.CutKept` | web/src/diff-recut.ts:113-130 | One hunk for every run of flagged lines, with its starts and counts. |
| `DiffRecut.SignificantLinesAre` | web/src/diff-recut.ts:70-74 | The lines that count are exactly those that are neither empty nor the marker of a missing newline, each once, in order. |
| `DiffRecut.RecutAppliesToTheOldVersion` | web/src/diff-recut.ts:58-137 | For every patch body and context width, applying the hunks to the old version gives the new one, every start, count and old line being right on both sides. |
| `DiffRecut.CutsAreApart` | web/src/diff-recut.ts:113-130 | Successive hunks are at least one line apart in both versions. |
| `DiffRecut.CutsHoldTheKeptLines` | web/src/diff-recut.ts:97-130 | The hunks hold exactly the flagged lines in order, so every dropped line is unchanged and farther than the context width from any change. |
| `Reconcile.ReconcileOptimisticPrompts` | web/src/optimistic.ts:63-91 | The filter with its spliced list leaves what a pairing of prompts with the user's messages leaves over, in order, and no pairing that respects text, watermark and one-to-one clears more. |
| `Reconcile.GreedyClearsTheMost` | web/src/optimistic.ts:63-91 | No pairing of prompts with messages that respects text, watermark and one-to-one clears more prompts. |
| `Reconcile.GreedyIsAPairing` | web/src/optimistic.ts:63-91 | What is left is what a pairing leaves over, in the same order. |
| `Reconcile.CandidatesAreTheMessages` | web/src/optimistic.ts:67-71 | The candidates are exactly the user's messages, each once, in order. |
| `SseFrames.SseFrameBuffer.Push` | src/session-events.ts:87-100 | A push returns the frames that are complete by now and keeps the rest. |
| `SseFrames.SplittingLosesNothing` | src/session-events.ts:84-101 | The frames, each with the blank line that ended it, and the rest are the text; every separator is a blank line of LF or CRLF, and none is left in the rest. |
| `SseFrames.ChunksDoNotMatter` | src/session-events.ts:84-101 | However a text is cut into chunks, the frames and the remainder are those of the whole text. |
| `SseFrames.PrintedFramesAreRead` | src/session-events.ts:74-109 | A printed one-line frame is one frame, and its data is read back. |
| `SseFrames.DataLinesAreJoined` | src/session-events.ts:103-109 | Data that spans several field lines is read as those lines, joined by line feeds. |
| `SseFrames.StreamsAreRead` | src/session-events.ts:74-109 | So is a whole printed stream. |
| `SshText.AssembleKeyPair` | src/ssh-keygen.ts:47-93 | Both files of a pair of 32-byte keys, and an error for any other length. |
| `SshText.Concat` | src/ssh-keygen.ts:109-118 | The parts one after another in one buffer. |
| `SshText.Pad` | src/ssh-keygen.ts:68-74 | 1, 2, 3, … up to a multiple of 8 bytes. |
| `SshText.ToBase64` | src/ssh-keygen.ts:120-126 | The base64 of the bytes. |
| `SshText.Wrap` | src/ssh-keygen.ts:128-134 | The text in lines of the width. |
| `SshKey.Uint32IsRead` | src/ssh-keygen.ts:95-99 | Four bytes, most significant first, read back modulo 2^32. |
| `SshKey.BytesAreRead` | src/ssh-keygen.ts:101-103 | A length-prefixed string is read back. |
| `SshKey.ContainersAreRead` | src/ssh-keygen.ts:57-88 | A whole key container is read back field by field, with its padding. |
| `SshText.Base64IsRead` | src/ssh-keygen.ts:120-126 | Every byte string is read back from its base64. |
| `SshText.WrappingIsUndone` | src/ssh-keygen.ts:128-134 | Wrapping loses nothing. |
| `SshText.KeysAreWrapped` | src/ssh-keygen.ts:128-134 | The lines of a private key are 70 characters long, but for the last. |
| `SshText.LinesFit` | src/ssh-keygen.ts:128-134 | No line is empty or longer than the width, and only the last is shorter. |
| `SshText.AssembledKeysAreRead` | src/ssh-keygen.ts:47-93 | Both printed files give back everything that went in, the comment as text. |
| `Utf8.TextIsRead` | src/ssh-keygen.ts:105-107 | Whatever the text, its encoding as bytes gives it back. |
| `Activity.ClassifyLegacy` | src/opencode-activity.ts:174-210 | Idle exactly if every session says so, active exactly if one says busy or retry, with exactly those sessions named. |
| `Activity.ClassifyActive` | src/opencode-activity.ts:213-225 | Idle exactly for an understood, empty answer. |
| `Activity.IdleIsUnanimous` | src/opencode-activity.ts:231-258 | The aggregate is idle exactly if there is a source, none is unknown and no active one names a session; for classifications made here, exactly if all are idle. |
| `Activity.Observe` | src/opencode-activity.ts:264-300 | The snapshot says active exactly if some source that was understood names a session at work, and names exactly those; it says idle exactly if some location is known and every source was understood and reports no work. |

## Left out

- CoordinatorGivesUp.UnreachableContainersAreStopped: says nothing about stretches in which work is admitted or activity is reported, because work supersedes the probes in flight and its leases move the alarm.
- DiffRecut.RecutPatch: works on the lines of a patch; a hunk header is told from other lines before the model, its digits are not printed, and a joined file is its list of lines, so an empty file and one empty line are not told apart by the join.
- An object for the whole ledger: the checkpoint and the purge are steps on values, so that an eviction can fall between any two of them; `BackupCheckpoint` has the checkpoint as a method, uninterrupted.
- The parts of a restore: restoring a workspace is one step or a failure that leaves any files; the marker file is a flag. A checkpoint that archives a container which died and was booted again under it is in the model but no claim is made about it.
- Two interleaved calls of `queuePrompt`, or one beside `register`, each of which can lose the other's write; two of `startSession`, the later of which starts over.
- A coordinator's session counts, error texts, stop reasons beyond their kind, and the runtime status cache.
- Live event subscription, transcript contents, titles, unread marks, wake timings and logging; of the transcript only that an export was attempted.
- Credentials, git provisioning and shell commands: a starting server may change the files in any way.
- The host worker, its SDK, R2, D1 and OpenCode: replaced by environments that may fail at every call.
- Initialization of a second instance on the same object, and migration of older stored states.
- HTTP routing, cookies, settings, request checks, the web interface and its components.
- Text is characters: no JSON, no regular expressions, no unpaired surrogates. Message identifiers are numbers in their order.
- Printing SSE data of several lines, and lines ended by a bare CR, which the code does not promise.
- Reconciling twice against one transcript, which the code does not promise.
