# Supervision and distribution, modelled and proved

A Dafny model of two parts of the repository and proofs about it: the supervisor of the
`supervisor` crate, which starts, restarts and stops its children by one of three strategies, and
the parts of the `distr` crate in which nodes keep connections, follow who is in the cluster and
exchange messages. `dafny verify dfyconfig.toml` checks all of it.

## How it is built

Each component has two layers. Functions on values say what one step does: every handler of the
supervisor runs to its end between two polls, so a whole supervisor is a function
`Step(state, event)`, and the environment picks any event that the state of a child allows. Where
the repository's steps are finer than that (two nodes that register connections, writers and
subscribers under a reader-writer lock, sends that take several steps, the router and an actor that
share two counters) the model takes the finer steps and lets them interleave. Lemmas about these
functions say what holds in every run. Beside them, classes with the fields and loops of the source
are proved to do exactly what the functions say.

| file | what it holds |
|---|---|
| `Common`, `Bytes` | options, node names, numbers in bytes |
| `RestartBudget` | the sliding window of restarts and its agreement with the full history of grants |
| `BudgetLedger` | every restart that was ever granted, kept beside a run, and its agreement with the budgets |
| `Supervisee` | the life of one child and the protocol of its answers and reports |
| `Roster`, `SuperviseeMap` | the ordered children, as values and as entries with tokens over a store |
| `Supervision` | events, child specs, adding a child, polling one |
| `RestForOne` | the rest-for-one strategy as functions |
| `RestForOneSafety` | what every step keeps: no panic, and an end only with everyone dead |
| `RestForOneStopPhase` | the queues of a stop phase, merges included, and the hand-off to the restart |
| `RestForOneShutdown` | shutdown, whatever begins it |
| `RestForOneAnyEvents` | any events whatever, deregistration included: exactly when the strategy fails, and exactly when it loses its end |
| `RestForOneClosing` | shutdown over any events |
| `RestForOneRestart`, `RestForOneTidiness` | who is forgotten and when two restarts run at once, exactly |
| `RestForOneEnds` | stop and shutdown phases come to an end |
| `RestForOneRuns` | concrete runs on which documented behaviour does not happen |
| `RestForOneBudgets` | whom a step grants a restart, how often that can be, and exactly when the supervisor shuts down |
| `RestForOneSupervisor` | the strategy as a class |
| `GroupShutdown`, `OneForAll`, `OneForOne` | the shared shutdown and the two other strategies, with their classes |
| `OneForAllBudgets`, `OneForOneBudgets` | for these two, what the end of a child leads to, decided by all that was ever granted |
| `LinkRegistry`, `SimultaneousDial` | the table of connections, and two nodes that dial each other at once |
| `ClusterView`, `DepartureGrace` | the membership view with its events, and the grace before a failure is reported |
| `PendingCalls` | ids, the table of what is waited for, and sends in several steps |
| `Admission` | the bound on what waits for one actor |
| `FrameCodec`, `FrameStream` | the layout of messages and replies, and payloads on a stream |

## Where the code and its documentation part ways

Each of these is proved, with the exact condition for it.

- The comment at `crates/supervisor/src/actor/rest_for_one.rs:11` and the strategy's documentation
  say that a rest-for-one restart goes in start order. The queue starts out with the trigger and is
  reversed as a whole, so the trigger comes back after the siblings it stopped
  (`RestForOneRuns.QueueNotInStartOrder`). The siblings are in start order. The whole queue is just
  if every child in scope that may be restarted is a trigger (`RestForOneStopPhase.StopPhaseHandsOff`).
- An exit that interrupts a restart phase forgets the queued children placed before it: nothing
  brings them back (`RestForOneRuns.QueuedChildForgotten`). It also leaves a child in flight that is
  placed before it to itself, so two restarts run at a time (`RestForOneRuns.TwoRestartsAtOnce`).
  `RestForOneTidiness.StepTidies` and `RestForOneTidiness.TidyIff` say exactly who and when.
- Deregistering a child that waits to be stopped does not take it out of the queue, and the next
  merge may fail for it: `RestForOneAnyEvents.MergeFailsIff`, and over any run
  `RestForOneAnyEvents.FailsIff` and `RestForOneAnyEvents.RunFailsIff`. A run from the start that
  fails is in `RestForOneRuns.MergeFailsInRun`.
- Deregistering the child a cascade waits for drops the answer of what goes on next, and with it the
  end of the event loop: the supervisor is left exiting, with everyone dead and nobody to wait for.
  In the rest-for-one strategy this happens during a shutdown, and also while siblings are being
  stopped, if the budget of one still pending refuses and so begins a shutdown that is over at once
  (`RestForOneAnyEvents.DeregisterLosesBreakIff`, with runs in `RestForOneRuns.EndLostInShutdown` and
  `RestForOneRuns.EndLostWhileStopping`). In the two others it happens during a shutdown:
  `OneForOne.DeregisterLosesBreakIff`, `OneForAll.DeregisterLosesBreakIff`, with runs in
  `OneForOne.EndLostInShutdown`, `OneForAll.EndLostInShutdown`.
- Deregistering during a one-for-all shutdown can start children again, although the supervisor is
  shutting down: `OneForAll.DeregisterClosing`, with a run in `OneForAll.DeregisterRevives`.
- A connection that was closed from the other end and is replaced before its receive loop notices
  is never reported as lost, although `PeerEvent::Disconnected` is documented for every connection
  that is lost or replaced: `LinkRegistry.ReplacementMissedIff`, `LinkRegistry.LossNeverReported`.
- A rename that changed a node's name would leave subscribers with another view than the node's own:
  `ClusterView.RenameFollowsIff`. The failure detector never asks for one. A rename of a member to
  what it already is changes nothing and is published all the same: `ClusterView.SilentIffNoChange`.
- The comment at `crates/distr/src/messaging/receive.rs:40-42` says that one message is always let in
  and that checking and adding need not be one step. The router decides on what it counted, and the
  actor may be through with all of it by then, so a message can be refused although nothing waits
  any more (`Admission.RefusedWithNothingWaiting` for any counts, with a run of five messages within
  the size limit in `Admission.EmptiedQueueRefuses`). It is never refused if the queue was empty as
  the router counted, as long as its counts are up to date when it makes them
  (`Admission.EmptyQueueLetsIn`, `Admission.RefusalCountsThree`).

## Model

| member | source | states |
|---|---|---|
| RestartBudget.DequeRefinesHistory | crates/supervision/src/strategy.rs:31-52 | over any requests under a clock that never runs backwards, the pruned deque grants exactly what a limiter that remembers every grant would |
| RestartBudget.DequeIsRecentHistory | crates/supervision/src/strategy.rs:38-51 | the deque is a suffix of the history of grants, and what it forgot lies before the window of every request to come |
| RestartBudget.PermitFromHistory | crates/supervision/src/strategy.rs:31-52 | one request is granted just if fewer than the limit of all earlier grants lie in the closed window that ends with it |
| RestartBudget.NoWindowExceedsLimit | crates/supervision/src/strategy.rs:9-15 | no closed interval as long as the window holds more grants than the limit, in any run |
| RestartBudget.UnlimitedRecordsNothing | crates/supervision/src/strategy.rs:32-34 | the unlimited setting grants every request and records none |
| RestartBudget.PermitRemembers | crates/supervision/src/strategy.rs:31-52 | a deque that remembers a list of grants decides by how many of them lie in the closed window that ends now, goes on to remember them, and keeps every window within the limit |
| RestartBudget.RestartLimiter.AcquirePermit | crates/supervisor/src/strategy.rs:39-41 | the loop that pops the front of the deque decides and changes it as `Permit` does |
| Supervisees.Supervisee.Start | crates/supervisor/src/actor/supervisee.rs:93-120 | spawns from dead, refuses while shutting down, and otherwise leaves the child as it is |
| Supervisees.Supervisee.Stop | crates/supervisor/src/actor/supervisee.rs:122-157 | cancels a start at once, has nothing to do when dead, and else owes an exit |
| Supervisees.Supervisee.Supervise | crates/supervisor/src/actor/supervisee.rs:159-217 | one poll: which item is reported and where it leaves the child |
| Supervisees.StopOwesExit | crates/supervisor/src/actor/supervisee.rs:122-154 | after a stop that answers shutting down, until something is reported every start is refused, and what is reported is an exit |
| Supervisees.SilentUntilSpawned | crates/supervisor/src/actor/supervisee.rs:159-217 | once a child has ended or a stop found it dead, nothing is reported until a start spawns it |
| Supervisees.SpawnsMatchEndings | crates/supervisor/src/actor/supervisee.rs:93-217 | at every point of every run each spawned child has ended or is the one running |
| Supervisees.OneEndingBetweenSpawns | crates/supervisor/src/actor/supervisee.rs:93-217 | between one spawning start and the next there is exactly one cancellation or terminal item |
| Supervision.AddSpecJoins | crates/supervisor/src/actor/mod.rs:147-163 | a child whose name is free joins an open supervisor, starting and with a fresh budget, in its old place or the last; nobody else ever joins |
| Rosters.ReturnsToItsPlace | crates/supervisor/src/actor/map.rs:98-128 | a name that is removed and added again takes back its place in the order |
| Rosters.NamesAreKids | crates/supervisor/src/actor/map.rs:68-82 | the listed names are exactly the children present, in the order they were first added |
| SuperviseeMaps.SuperviseeMap.Insert | crates/supervisor/src/actor/map.rs:112-128 | refuses a name that is present, else the map gains the child, in its old place if it had one |
| SuperviseeMaps.SuperviseeMap.Take | crates/supervisor/src/actor/map.rs:98-110 | takes the child out of the store and leaves its entry, empty, in place |
| SuperviseeMaps.SuperviseeMap.ListNames | crates/supervisor/src/actor/map.rs:68-82 | lists the present children in order, by way of their tokens |
| SuperviseeMaps.SuperviseeMap.StartEveryone | crates/supervisor/src/actor/map.rs:39-50 | starts the children in order up to the first that refuses, and says which |
| SuperviseeMaps.SuperviseeMap.StopEveryone | crates/supervisor/src/actor/map.rs:54-66 | stops all children and lists in order those that owe an exit |
| RestForOneSafety.InitialGood | crates/supervisor/src/actor/runner.rs:42-54 | the state after starting everyone satisfies the invariant |
| RestForOneSafety.StepGood | crates/supervisor/src/actor/rest_for_one.rs:75-444 | any allowed event keeps the invariant of the current phase or ends the loop with every child dead, and no `expect`, `unreachable!` or debug assertion fails |
| RestForOneSafety.RunGood | crates/supervisor/src/actor/runner.rs:55-59 | the same over whole runs |
| RestForOneSafety.MergeGood | crates/supervisor/src/actor/rest_for_one.rs:160-210 | a merge leaves the one being waited for alone and keeps the queues in order, without repetition and apart |
| RestForOneSafety.HandleExitGood | crates/supervisor/src/actor/rest_for_one.rs:342-399 | the exit handler keeps the invariant from every phase, so its unreachable arm is not reached |
| RestForOneStopPhase.StepStrong | crates/supervisor/src/actor/rest_for_one.rs:143-280 | one step keeps: the three queues hold exactly the children at or after the lowest trigger, stops come in descending order, and every child queued for a restart is dead |
| RestForOneStopPhase.StopPhaseShape | crates/supervisor/src/actor/rest_for_one.rs:143-280 | in every undisturbed run, in the midst of a stop phase: the queues are without duplicates and disjoint and together exactly the names at or after the lowest trigger; the pending ones are in order and before the one being waited for, which alone is shutting down; all after it are dead |
| RestForOneStopPhase.StopPhaseHandsOff | crates/supervisor/src/actor/rest_for_one.rs:238-245 | the step that ends a stop phase queues each child in scope once, drops exactly those never restarted, leaves all but the first dead, touches nobody outside, and has told the siblings and only them to stop, in descending order; the queue is in start order just if every child in scope that may be restarted is a trigger |
| RestForOneStopPhase.LaunchFirst | crates/supervisor/src/actor/rest_for_one.rs:285-310 | from a queue of dead children the first is started and nobody is skipped |
| RestForOneShutdown.ShutdownFromAnyPhase | crates/supervisor/src/actor/rest_for_one.rs:406-419 | a signal begins a shutdown in any phase and starts nobody |
| RestForOneShutdown.ClosingStep | crates/supervisor/src/actor/rest_for_one.rs:312-334 | one step of a shutdown: nobody is started, stops go on in reverse start order, the loop ends only with everyone dead, and signalling again changes nothing |
| RestForOneShutdown.ClosingRun | crates/supervisor/src/actor/rest_for_one.rs:312-334 | the same over whole runs without deregistration |
| RestForOneShutdown.SignalledRun | crates/supervisor/src/actor/rest_for_one.rs:401-419 | the same from a signal in any phase on, over everything that follows but deregistration |
| RestForOneShutdown.ShutdownBegins | crates/supervisor/src/actor/rest_for_one.rs:401-419 | whatever begins a shutdown, a signal or a budget that refuses the restart of the one that exited, of a sibling to be stopped, or in place: the step starts nobody, and either everyone is dead and the loop ends, or all that is alive is to be stopped, in reverse start order |
| RestForOneShutdown.ShutdownRun | crates/supervisor/src/actor/rest_for_one.rs:312-334 | over everything that follows but deregistration, a shutdown that began in whatever way starts nobody, goes on in reverse start order and ends only with everyone dead |
| RestForOneClosing.EndingBegins | crates/supervisor/src/actor/rest_for_one.rs:406-419 | whatever event begins a shutdown, a deregistration during a stop phase included: nobody who was dead comes back, what was told to stop was told in reverse start order, and the shutdown is under way or everyone is dead |
| RestForOneClosing.EndingStep | crates/supervisor/src/actor/rest_for_one.rs:312-334 | one step of a shutdown over any event whatever: nobody joins or comes back, stops go on in reverse start order, nothing fails, and the loop ends only with everyone dead |
| RestForOneClosing.EndingRun | crates/supervisor/src/actor/runner.rs:55-59 | the same over whole runs, with registrations and deregistrations at any time |
| RestForOneClosing.WholeShutdown | crates/supervisor/src/actor/rest_for_one.rs:401-419 | from the event that begins it and over any events whatever, nobody who was dead comes back and the loop ends only with everyone dead |
| RestForOneTidiness.StepTidies | crates/supervisor/src/actor/rest_for_one.rs:369-387 | one step forgets exactly the queued children that an interruption passes over, and sets adrift exactly the child in flight if the interruption comes from after it |
| RestForOneTidiness.TidyIff | crates/supervisor/src/actor/rest_for_one.rs:379-388 | restarts stay one at a time with nobody forgotten just when no interruption leaves anybody behind |
| RestForOneTidiness.RestartsOneAtATime | crates/supervisor/src/actor/rest_for_one.rs:97-139 | over whole runs in which no interruption does: while restarting exactly one child is in flight, and at rest every child is up or on its way up |
| RestForOneEnds.StepDescends | crates/supervisor/src/actor/rest_for_one.rs:160-280 | whatever a child reports during a stop phase or a shutdown, the phase is over or comes earlier in a well-founded order, merges included |
| RestForOneEnds.PhasesEnd | crates/supervisor/src/actor/rest_for_one.rs:312-398 | no stop phase and no shutdown survives an endless stream of reports |
| RestForOneRuns.AllComeUp | crates/supervisor/src/actor/runner.rs:42-59 | from the start, reports alone bring any children up |
| RestForOneRuns.QueueNotInStartOrder | crates/supervisor/src/actor/rest_for_one.rs:243 | a run after which the restart queue is not in start order |
| RestForOneRuns.TwoRestartsAtOnce | crates/supervisor/src/actor/rest_for_one.rs:379-388 | a run with two restarts under way at once |
| RestForOneRuns.QueuedChildForgotten | crates/supervisor/src/actor/rest_for_one.rs:379-388 | a run that leaves a child dead with nothing to bring it back |
| RestForOneAnyEvents.MergeFailsIff | crates/supervisor/src/actor/rest_for_one.rs:174-199 | a merge fails just if a pending child is no longer known and there are two names or more to sort |
| RestForOneAnyEvents.FailsIff | crates/supervisor/src/actor/rest_for_one.rs:75-444 | over any event whatever the handlers fail just if an exit that both budgets let restart makes a merge sort a name that has been deregistered; otherwise the state stays sound or the loop ends with everyone dead |
| RestForOneAnyEvents.RunFailsIff | crates/supervisor/src/actor/runner.rs:42-59 | the same over whole runs from the start, with registrations and deregistrations at any time |
| RestForOneAnyEvents.DeregisterLosesBreakIff | crates/supervisor/src/actor/rest_for_one.rs:421-434 | deregistering loses the end of the loop just if the cascade waits for that child, nobody else would owe an exit, and either it is a shutdown or the budget of a pending sibling refuses |
| RestForOneRuns.MergeNeverFails | crates/supervisor/src/actor/rest_for_one.rs:160-210 | it does not, as long as the invariant holds |
| RestForOneRuns.DeregisterThenMergeFails | crates/supervisor/src/actor/rest_for_one.rs:421-434 | from any state of a stop phase with another child between the trigger and the one waited for, deregistering a pending child and a crash make the merge fail |
| RestForOneRuns.MergeFailsInRun | crates/supervisor/src/actor/rest_for_one.rs:192-199 | a run from the start of five children that fails so |
| RestForOneRuns.EndLostInShutdown | crates/supervisor/src/actor/rest_for_one.rs:426-431 | a run from the start that loses its end in a shutdown |
| RestForOneRuns.EndLostWhileStopping | crates/supervisor/src/actor/rest_for_one.rs:426-431 | a run from the start that loses its end though no shutdown was asked for, because a pending sibling has no restarts left |
| RestForOneBudgets.StepCharges | crates/supervisor/src/actor/rest_for_one.rs:342-399 | in any step of an open supervisor its own budget is charged just for a trigger, a child's just for each restart granted to it, as a trigger, as a sibling told to stop, or in place, and no budget is charged twice |
| RestForOneBudgets.EveryRateBounded | crates/supervision/src/strategy.rs:9-15 | over any run from the start no window of a child's own budget holds more restarts granted to it than the limit, nor one of the supervisor's more triggers |
| RestForOneBudgets.RetryInRun | crates/supervisor/src/actor/rest_for_one.rs:121-139 | at any point of any run a child the restart phase waits for that fails to come up leaves if it is gone for good, is tried again with nothing else changed just if fewer than its limit of its grants lie in the window that ends now, and else the supervisor shuts down |
| RestForOneBudgets.OutsiderInRun | crates/supervisor/src/actor/rest_for_one.rs:342-371 | a child that ends outside any cascade leaves, with nothing else changed, just if its restart mode and the way it ended say so; else it stays, and is granted a restart unless the supervisor shuts down |
| RestForOneBudgets.OutsideEnd | crates/supervisor/src/actor/rest_for_one.rs:342-399 | one such end: gone, or granted, or a shutdown just if the supervisor's budget refuses, or the child's, or that of a sibling the stop loop comes to |
| RestForOneBudgets.ShutsDownInRun | crates/supervisor/src/actor/rest_for_one.rs:406-419 | at any point of any run, over any event, the supervisor shuts down just if it is told to, or a restart is due for which a budget that is asked has granted its limit in the window that ends now |
| RestForOneBudgets.OtherOutcomes | crates/supervisor/src/actor/rest_for_one.rs:421-444 | children join, leave and come up one at a time, and nobody else is touched |
| RestForOneBudgets.CurrentComesUp | crates/supervisor/src/actor/rest_for_one.rs:436-444 | when the child a restart phase waits for is up, the phase goes on with those queued and touches nobody else |
| RestForOneSupervisors.RestForOneSupervisor.AdvanceStop | crates/supervisor/src/actor/rest_for_one.rs:232-280 | the stop loop over the three lists does what the recursive `AdvanceStop` says |
| RestForOneSupervisors.RestForOneSupervisor.AdvanceRestart | crates/supervisor/src/actor/rest_for_one.rs:285-310 | the restart loop does what the recursive `AdvanceRestart` says |
| RestForOneSupervisors.RestForOneSupervisor.AdvanceShutdown | crates/supervisor/src/actor/rest_for_one.rs:315-334 | the shutdown loop does what the recursive `AdvanceShutdown` says |
| RestForOneSupervisors.RestForOneSupervisor.MergeIntoStopping | crates/supervisor/src/actor/rest_for_one.rs:160-210 | collecting, sorting by position and dropping repetitions gives the pending names in start order, or fails just when a name is unknown |
| RestForOneSupervisors.SortAndDedup | crates/supervisor/src/actor/rest_for_one.rs:192-199 | insertion sort by position and removal of neighbours give the unique sorted list of the same names |
| RestForOneSupervisors.RestForOneSupervisor.HandleExit | crates/supervisor/src/actor/rest_for_one.rs:342-399 | the exit handler on the fields does what the function says, in every branch |
| RestForOneSupervisors.RestForOneSupervisor.Run | crates/supervisor/src/actor/runner.rs:55-59 | the event loop never fails and keeps the invariant or ends with everyone dead |
| GroupShutdown.StopGroupWinds | crates/supervisor/src/actor/mod.rs:171-181 | wherever it begins, a shutdown of all at once leaves exactly those shutting down owing an exit, all others dead, and revives nobody |
| GroupShutdown.StopGroupAgain | crates/supervisor/src/actor/mod.rs:171-181 | beginning it again changes nothing |
| GroupShutdown.OnlyExitsArrive | crates/supervisor/src/actor/supervisee.rs:206-215 | during it a child reports nothing but the exit it owes |
| OneForAll.OpenStep | crates/supervisor/src/actor/one_for_all.rs:105-139 | while the supervisor is open: exactly the cascade's members that are shutting down are waited for, its other members are dead, restart and drop sets are disjoint, every dead child is a member, and none of it outlives the cascade |
| OneForAll.TriggerTakesEveryone | crates/supervisor/src/actor/one_for_all.rs:38-79 | an exit that calls for a restart either shuts all down, exactly when is said by `OneForAllBudgets.ExitOutcome`, or makes every child a member, dead or waited for, by its restart mode, or restarts the group at once |
| OneForAll.LastMemberExits | crates/supervisor/src/actor/one_for_all.rs:113-118 | when the last member exits, those never restarted are dropped and every other member starts from being dead, so no start is refused, and nobody else is touched |
| OneForAll.FinishGood | crates/supervisor/src/actor/one_for_all.rs:83-97 | finishing a cascade with nobody waited for leaves no child dead |
| OneForAll.ClosingStep | crates/supervisor/src/actor/one_for_all.rs:105-111 | one step of a shutdown: nobody comes back, repeating it changes nothing, and the loop breaks just when the last exit owed arrives |
| OneForAll.ClosingRun | crates/supervisor/src/actor/one_for_all.rs:141-143 | the same over whole runs, even if a group restart was cut off |
| OneForAll.DeregisterClosing | crates/supervisor/src/actor/one_for_all.rs:145-160 | deregistering during a shutdown revives somebody just if it empties the set of a cut-off restart that has somebody dead to start |
| OneForAll.DeregisterRevives | crates/supervisor/src/actor/one_for_all.rs:150-153 | a run on which it does |
| OneForAll.DeregisterLosesBreakIff | crates/supervisor/src/actor/mod.rs:198-212 | deregistering during a shutdown leaves nobody to wait for and the loop running, exactly when |
| OneForAll.EndLostInShutdown | crates/supervisor/src/actor/mod.rs:198-212 | a run from the start on which that happens |
| OneForAll.RunGood | crates/supervisor/src/actor/runner.rs:42-63 | the books stay right over exits, registrations and deregistrations in any order, and the loop ends only with everyone dead |
| OneForAllBudgets.StepCharges | crates/supervisor/src/actor/one_for_all.rs:130-138 | a group restart charges the supervisor's budget and those of everyone who has to be asked, once each, and nothing else charges any |
| OneForAllBudgets.EveryRateBounded | crates/supervision/src/strategy.rs:9-15 | over any run from the start no window of the supervisor's budget holds more group restarts than the limit, nor one of a child's own more of its |
| OneForAllBudgets.ExitOutcome | crates/supervisor/src/actor/one_for_all.rs:105-139 | an end outside the cascade: the child alone leaves if it is gone for good; everyone is taken into a group restart if no budget that is asked has granted its limit in the window that ends now; or everyone is told to stop |
| OneForAllBudgets.EndInRun | crates/supervisor/src/actor/runner.rs:55-59 | the same at any point of any run from the start |
| OneForAllBudgets.OtherOutcomes | crates/supervisor/src/actor/one_for_all.rs:113-118 | what any other event does to an open supervisor: children join, leave, come up and end one at a time, and the last one waited for finishes the cascade |
| OneForAll.OneForAllSupervisor.CompleteCascade | crates/supervisor/src/actor/one_for_all.rs:83-97 | draining the sets one name at a time, in any order, gives what finishing a cascade says |
| OneForAll.OneForAllSupervisor.BeginCascade | crates/supervisor/src/actor/one_for_all.rs:38-79 | the loop over the siblings, with its early end when a budget refuses |
| OneForAll.OneForAllSupervisor.RunLoop | crates/supervisor/src/actor/runner.rs:55-59 | the event loop on the four sets |
| OneForOneBudgets.ExitOutcome | crates/supervisor/src/actor/one_for_one.rs:26-57 | an end while the supervisor is open: the child leaves if it is gone for good; it alone is started if fewer than the limit of all restarts, and of its own, lie in the windows that end now; or everyone is told to stop |
| OneForOneBudgets.EndInRun | crates/supervisor/src/actor/runner.rs:55-59 | the same at any point of any run from the start |
| OneForOneBudgets.EveryRateBounded | crates/supervision/src/strategy.rs:9-15 | over any run no window of a child's own budget sees more restarts of it than the limit, nor one of the supervisor's more of all |
| OneForOneBudgets.StepCharges | crates/supervisor/src/actor/one_for_one.rs:45-54 | both budgets are charged for a restart, the child's own if it has one, and for nothing else |
| OneForOneBudgets.OtherOutcomes | crates/supervisor/src/actor/one_for_one.rs:59-66 | what any other event does to an open supervisor: children join, leave and come up one at a time, and only a signal stops everyone |
| OneForOne.RestartRateBounded | crates/supervisor/src/actor/one_for_one.rs:45-54 | over any run no window as long as the supervisor's budget sees more restarts than it allows |
| OneForOne.ClosingStep | crates/supervisor/src/actor/one_for_one.rs:26-33 | one step of a shutdown, whatever arrives: nobody comes back, repeating it changes nothing, and the loop breaks just when the last exit owed arrives |
| OneForOne.ClosingRun | crates/supervisor/src/actor/one_for_one.rs:59-61 | once a shutdown has begun no child restarts, over any events |
| OneForOne.DeregisterLosesBreakIff | crates/supervisor/src/actor/one_for_one.rs:63-66 | deregistering leaves a shutdown with nobody to wait for just if it takes the last child that was waited for |
| OneForOne.EndLostInShutdown | crates/supervisor/src/actor/one_for_one.rs:63-66 | a run from the start on which that happens |
| OneForOne.RunGood | crates/supervisor/src/actor/runner.rs:42-63 | until it shuts down every child is up or on its way up, and the loop ends only with everyone dead |
| OneForOne.OneForOneSupervisor.OnExit | crates/supervisor/src/actor/one_for_one.rs:26-57 | the exit handler on the fields, in every branch |
| LinkRegistry.NothingLeaks | crates/distr/src/link/mod.rs:403-460 | over any run: of the connections kept for a peer at most one is open and it is the one in the table, and every other left the table once, reported, forgotten or missed |
| LinkRegistry.TableHoldsBest | crates/distr/src/link/mod.rs:403-446 | of any connections to one peer, registered in any order, the table ends up with one that no other outranks by incarnation and then by dialer, and it is open |
| LinkRegistry.KeepsBetter | crates/distr/src/link/mod.rs:416-434 | a connection is refused just if the open one there is of a later incarnation, or of the same and alone dialed by the smaller name |
| LinkRegistry.ReplacementMissedIff | crates/distr/src/link/mod.rs:415-444 | replacing a connection reports the loss just if the old one did not look closed already |
| LinkRegistry.LossNeverReported | crates/distr/src/link/mod.rs:450-460 | a run in which a kept connection is lost and no event ever says so |
| LinkRegistry.ForgetMeans | crates/distr/src/link/mod.rs:298-304 | afterwards no connection to the peer of that generation or an older one is in the table or open, a newer one stays, no other peer is affected and nothing is reported |
| LinkRegistry.EndMeans | crates/distr/src/link/mod.rs:450-460 | when a receive loop ends, its connection leaves the table and is reported once if it is still there, and else nothing changes |
| LinkRegistry.Links.Register | crates/distr/src/link/mod.rs:403-446 | keeps, replaces or refuses by generation and dialer, as the function says |
| LinkRegistry.Links.Forget | crates/distr/src/link/mod.rs:298-304 | closes and forgets the connection of that generation or an older one, without reporting it |
| SimultaneousDial.StepKeeps | crates/distr/src/link/mod.rs:403-460 | any step at either end keeps both tables in order and leaves less to do |
| SimultaneousDial.BothAgree | crates/distr/src/link/mod.rs:591-600 | in every interleaving, once each end has gone through both handshakes both hold the connection dialed by the smaller name, and it is open |
| SimultaneousDial.AlwaysSettles | crates/distr/src/link/mod.rs:622-645 | no interleaving has more than twelve steps, and when nothing is left the ends agree and the other connection is closed at both |
| SimultaneousDial.LateUnregisterHarmless | crates/distr/src/link/mod.rs:450-460 | the receive loop of the other connection ending late changes no table |
| ClusterView.MutateFollows | crates/distr/src/cluster/state.rs:249-310 | following a mutator's events gives the view it leaves, each event is news where it comes, and unreachable nodes stay members |
| ClusterView.MutateMeans | crates/distr/src/cluster/state.rs:249-310 | for each call: who is a member and who counts as reachable afterwards, what the event says, and that no other node is affected |
| ClusterView.SilentIffNoChange | crates/distr/src/cluster/state.rs:249-310 | a mutator publishes nothing just if it changes nothing and is no rename of a member |
| ClusterView.RenameFollowsIff | crates/distr/src/cluster/state.rs:302-310 | a rename's events lead to the right view just if it keeps the name |
| ClusterView.SnapshotPlusEvents | crates/distr/src/cluster/state.rs:141-153 | in every interleaving of writers and subscribers under the lock, a snapshot and the events since the subscription give the view as it is, each event being news |
| ClusterView.Cluster.Up | crates/distr/src/cluster/state.rs:249-256 | publishes just if this incarnation is not the one known |
| ClusterView.Cluster.Departed | crates/distr/src/cluster/state.rs:280-289 | removes the member just in the generation that said goodbye |
| ClusterView.Cluster.Renamed | crates/distr/src/cluster/state.rs:302-310 | replaces the incarnation before and publishes both events |
| DepartureGrace.HandleKeeps | crates/distr/src/cluster/membership/driver.rs:150-180 | keys and queue entries belong together one to one, and each pending member is the one the cluster knows |
| DepartureGrace.GoneOncePerUp | crates/distr/src/cluster/membership/driver.rs:212-236 | over any run an incarnation is reported gone at most once for each time it comes up |
| DepartureGrace.GoodbyeMeansLeft | crates/distr/src/cluster/membership/driver.rs:166-180 | a goodbye before the grace is over is reported as having left, and unless it comes up again the incarnation is never reported failed |
| DepartureGrace.SilenceMeansFailed | crates/distr/src/cluster/membership/driver.rs:80-84 | a grace that runs out reports the failure and clears both tables |
| DepartureGrace.BackCancels | crates/distr/src/cluster/membership/driver.rs:213-218 | after a node is up or renamed neither table has an entry for it, all others keep theirs, and the cluster knows its new incarnation |
| DepartureGrace.DownIsPending | crates/distr/src/cluster/membership/driver.rs:219-230 | declaring a known member down leaves exactly the new entry for its node and publishes nothing; of an unknown one nothing is noted |
| DepartureGrace.ReturnCancelsFailure | crates/distr/src/cluster/membership/driver.rs:213-218 | a member that comes back is not reported failed over any later run, unless it is declared down again, or renamed, while the cluster knows it |
| DepartureGrace.NoFailureUndeclared | crates/distr/src/cluster/membership/driver.rs:80-84 | nor is any member that is not pending |
| DepartureGrace.OtherInputs | crates/distr/src/cluster/membership/driver.rs:166-171 | a link changes only whether its node counts as reachable, and a goodbye ends just the incarnation it comes from |
| DepartureGrace.Driver.Notified | crates/distr/src/cluster/membership/driver.rs:212-236 | up, down and rename on the two tables, with keys that may be handed out again |
| DepartureGrace.Driver.OnDeparture | crates/distr/src/cluster/membership/driver.rs:166-171 | a goodbye cancels the report only if it was accepted |
| PendingCalls.StepKeeps | crates/distr/src/messaging/pending.rs:35-118 | any step of any send, reply, loss or timeout keeps the table and the ids in order |
| PendingCalls.CallsAreSound | crates/distr/src/messaging/send.rs:190-275 | until the counter wraps: no id is given out twice, within one send, between two, or to a monitor; no failed or abandoned send leaves an id in the table; and an id is answered at most once, by its own node if by any |
| PendingCalls.OnlyOwnEntriesGo | crates/distr/src/messaging/pending.rs:16-20 | when one send fails, is no longer waited for or has a request time out, every entry of every other send stays |
| PendingCalls.EntryStaysUntil | crates/distr/src/messaging/pending.rs:74-120 | an entry leaves the table just if its own node answers, that node is lost, everything ends, or its own send gives it up |
| PendingCalls.EntriesAndAnswers | crates/distr/src/messaging/pending.rs:35-95 | requests enter the table as they are exported and calls as they are expected, for the node they go to, and an answer is recorded just as it is taken |
| PendingCalls.SendsMoveOn | crates/distr/src/messaging/send.rs:190-275 | each step brings its own send on and no other |
| PendingCalls.SentCallsWait | crates/distr/src/messaging/send.rs:230-275 | in every interleaving, until the counter wraps, a call that was sent is in the table for its node until it is answered or no longer waited for |
| PendingCalls.RepliesArrive | crates/distr/src/messaging/pending.rs:74-95 | so its node's reply is recorded as its answer |
| PendingCalls.IdsRepeatIff | crates/distr/src/messaging/wire.rs:93-95 | two ids are equal just if the counter went all the way round in between |
| PendingCalls.Pending.Complete | crates/distr/src/messaging/pending.rs:74-95 | only the node a call went to answers it |
| PendingCalls.Pending.FailNode | crates/distr/src/messaging/pending.rs:98-110 | gives up exactly the calls to that node, each once |
| PendingCalls.Pending.FailAll | crates/distr/src/messaging/pending.rs:113-120 | gives up every call, each once |
| PendingCalls.Pending.SendMessage | crates/distr/src/messaging/send.rs:190-275 | wherever a send fails, in encoding, over the size limit or at the lane, the table ends up as it was; if it succeeds the table gains its requests and its call |
| Admission.WaitingIsBounded | crates/distr/src/messaging/receive.rs:39-59 | in every interleaving the counters stay at or above what waits, at most 100,000 messages wait, two or more never exceed 16 MiB, and none is lost or overtaken |
| Admission.StepKeeps | crates/distr/src/messaging/receive.rs:302-328 | one step of the router or the actor, with the router's loads out of date or not |
| Admission.ExactAtRest | crates/distr/src/messaging/receive.rs:55-58 | when both are at rest the counters are exact |
| Admission.SettledVerdict | crates/distr/src/messaging/receive.rs:40-52 | with the counters settled a message is let in just if nothing waits or both limits leave room for it |
| Admission.RefusedWithNothingWaiting | crates/distr/src/messaging/receive.rs:43-52 | with nothing waiting a message is refused just if some were counted and the counts, however old, are at a limit |
| Admission.EmptiedQueueRefuses | crates/distr/src/messaging/receive.rs:43-52 | a run from an unused queue, with messages within the size limit and every count up to date when made, on which a message is refused with nothing waiting and the actor at rest |
| Admission.RefusalCountsThree | crates/distr/src/messaging/receive.rs:43-52 | in every run with up-to-date counts and messages within the size limit, a refusal means that three messages or more were counted |
| Admission.EmptyQueueLetsIn | crates/distr/src/messaging/receive.rs:39-52 | in every such run, a message that finds the queue empty as the router counts is let in, whatever happens before it decides |
| Admission.Queued.Admit | crates/distr/src/messaging/receive.rs:43-52 | the verdict and the change of both counters |
| Bytes.PutTruncates | crates/distr/src/messaging/frame.rs:114 | a number put in too few bytes keeps only its lowest ones |
| FrameCodec.FrameBegins | crates/distr/src/messaging/frame.rs:10-77 | the bytes a frame begins with: its kind, whether a message is a call, a reply's call and outcome, and the code of its error |
| FrameCodec.UnknownCodes | crates/distr/src/messaging/frame.rs:174-190 | every code decodes to the error it stands for, and those not known to an unknown one |
| FrameCodec.RoundTripIff | crates/distr/src/messaging/frame.rs:40-106 | a frame survives encoding and decoding just if the lengths it sends in two bytes fit |
| FrameCodec.DecodedExactly | crates/distr/src/messaging/frame.rs:79-106 | what decodes to a message or a value is the only encoding of it |
| FrameCodec.CutHeaderNeverDecodes | crates/distr/src/messaging/frame.rs:123-139 | a message cut inside its header never decodes |
| FrameCodec.CutReplyNeverDecodes | crates/distr/src/messaging/frame.rs:95-103 | a reply cut before its answer never decodes |
| FrameCodec.WriteRequests | crates/distr/src/messaging/frame.rs:117-120 | the loop over the requests writes them as the layout says |
| FrameCodec.ReadRequests | crates/distr/src/messaging/frame.rs:133-138 | reads them back just if that many bytes are there |
| FrameStream.StreamRoundTripIff | crates/distr/src/link/wire.rs:15-45 | a list of payloads written and read back comes back whole just if each keeps to the limit |
| FrameStream.CutStream | crates/distr/src/link/wire.rs:26-45 | any prefix of the bytes yields a prefix of the list, and a clean end just if it stops between two frames |
| FrameStream.FramesRoundTrip | crates/distr/src/link/mod.rs:539-543 | frames within the limits come back from a stream in order and decode to what they were |
| FrameStream.Stream.ReadNext | crates/distr/src/link/wire.rs:26-45 | one read: the clean end, a broken stream, a length over the limit, or a payload and the stream after it |
| FrameStream.Stream.ReadMessages | crates/distr/src/link/mod.rs:539-543 | the reading loop delivers every payload up to the end and tells a clean end from a broken one |

## Left out

- RestForOneStopPhase.StopPhaseShape: nothing registers while siblings are being stopped and nothing is deregistered while a cascade runs, because a child that registers after the trigger is not part of the phase and deregistration does not clean the queues; `RestForOneSafety.RunGood` allows registration at any time.
- RestForOneSafety.StepGood: deregistration is left out while siblings are being stopped or all are shutting down, where it breaks this invariant; `RestForOneAnyEvents.FailsIff` has every event, with exactly when the handlers fail and what holds otherwise.
- RestForOneSafety.RunGood: the same events; `RestForOneAnyEvents.RunFailsIff` has all of them.
- RestForOneShutdown.ClosingStep: no deregistration, which may leave a name that is gone among those to be stopped; `RestForOneClosing.EndingStep` has every event.
- RestForOneShutdown.ClosingRun: the same events; `RestForOneClosing.EndingRun` has all of them.
- RestForOneShutdown.SignalledRun: the same events; `RestForOneClosing.WholeShutdown` has all of them, and every way a shutdown begins.
- RestForOneShutdown.ShutdownRun: the same events; `RestForOneClosing.WholeShutdown` has all of them.
- OneForAll.RunGood: a deregistration that revives children during a shutdown is left out; `OneForAll.DeregisterClosing` says exactly which one that is.
- PendingCalls.CallsAreSound: holds until the 64-bit counter has gone all the way round; `PendingCalls.IdsRepeatIff` says when ids repeat.
- PendingCalls.Pending.SendMessage: one send with nothing else in between, where whether the message can be encoded and whether the lane takes it are given from outside; the interleaved steps are those of `PendingCalls.StepKeeps`.
- Admission.SettledVerdict: needs the counters settled; `Admission.RefusedWithNothingWaiting` has any counts for an empty queue.
- One clock reading per handled event: the source reads the clock anew for each permit it asks for. Times are integers, and durations are not limited to what the clock can hold.
- The strategies hold their children as values in a roster; the map of entries and tokens is a class of its own, proved against the same roster operations.
- Sets are drained in any order, which covers the insertion order of the source's index sets.
- Which children are still initializing, and the status the supervisor reports from it.
- Loading children from a source, describing children and health requests: none of them changes what is modelled.
- Futures, wakers and the stream of supervisees: an item is handled at the moment it is produced.
- The start error path of the event loop: no child can be shutting down when everyone is started for the first time, so no start is refused there.
- The failure detector, gossip, seeds and rejoining: what it notifies is an input.
- Lanes, dialing locks, handshake timeouts and closings from outside: two nodes that dial each other exchange one connection from each side.
- Events that slow subscribers miss.
- Replacing malformed text in the reason of a decoded error is a parameter that leaves well-formed text alone.
- Sizes of messages and counters are unbounded numbers; the loads of the router may be out of date but subtraction is one step.
- The order of messages across an actor's queue that closes and its replacement.
- Handshake messages, datagrams, backpressure, health, monitors and the simulated network.
