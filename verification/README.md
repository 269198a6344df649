# WP-Motor runtime model

A Dafny model of the runtime core of WP-Motor, a log processing engine, with proofs of what the
runtime promises: its hot reload, its exit policies and bounded shutdown, its rate limits, quotas
and batching, its query cache and rule registry, and the resolution of its state directory.

Check everything with `dafny verify dfyconfig.toml`.

## Layout

| file | models |
|---|---|
| DeadlineLimiter, SourceLimiter | the per-task deadline limiter; the shared input limiter with leases |
| SharedQuota, BatchSplit | the compare-and-exchange quota; the greedy batch splitter and its budget |
| ReloadDrain, SinkDrain, ParserLoop | drain reporters and tracker; sink and parser loops |
| GracefulDrain, DrainProgress | an epoch of workers and its tracker: what quiesced means; that it gets there |
| ParseRouter | dispatch to parse workers |
| TaskManager, GroupShutdown, ExitPolicy | task groups and shutdown order; bounded group shutdown; exit policies |
| EngineRuntime, ReloadEngine | a reload as a machine of atomic steps; the runtime object whose calls are those steps |
| ReloadOutcome, DetachedGroups | how a reload ends and what it installs; how long a drained epoch is left alone |
| ReloadInvariant, ReloadConsequences | what all runs of reloads keep; graceful replacement and shutdown order |
| ReloadLosses, DaemonReload | what reloads can cost: groups, the picker, the daemon's own exit |
| GracefulReload, UnforcedLoss, EngineMoves | reloads over live workers: what an unforced replacement has handed on |
| RuntimeControl | the command bus that admits one reload at a time |
| QueryCache, RuleRegistry | the indexed structures |
| StateDir, StateDirBlanks, StateDirCases | the path normalisers; blanks around a value; inputs on which they part |
| Common, Roles | shared vocabulary |

Objects that the source updates in place are classes whose methods are proved against functions on
values; concurrent parts are step machines whose theorems range over every reachable state. What the
environment decides (clock readings, finished tasks, failing joins, refused sends, interference of
other threads) is a parameter of each method or step. Times are integers, in nanoseconds for the
limiters and milliseconds for shutdown and exit.

## Where the code does less than one might expect

Each of these is proved, with the exact condition.

- The skip count of the deadline limiter is cut to 32 bits. A limiter that is ever 2^32 periods late
  never delays a call again (`DeadlineLimiter.TruncationDisablesLimiter`).
- The shared quota is met exactly only if the last pipeline to end ends without an error
  (`SharedQuota.ExactTotal`).
- When the drained epoch's maintainer cannot be joined, a reload drops every group, the picker among
  them for good, falls back to the forced branch and reports success
  (`ReloadLosses.SuccessKeepsPickerIff`).  When an overdue detached group cannot be joined, the remaining
  detached groups are dropped and the picker stays; success is reported all the same
  (`ReloadLosses.SuccessLosesIff`).
- A parser that is told to stop leaves its queued batches behind and reports that it is drained
  (`ParserLoop.DrainedParserIff`).  If the reload that stopped it then fails, because the maintainer
  cannot be joined, the next reload takes the report for a graceful drain
  (`GracefulReload.UnforcedLosesNothingIff`, `UnforcedLoss.UnforcedCanLose`).
- Once a reload has installed an epoch, a shutdown stops the parsers before the picker that feeds them
  (`ReloadConsequences.PickerStopsFirstIff`).
- A reload that isolates after all pickers have ended removes them, and the daemon then never stops by
  itself; it can only end with an error, once a failed reload has left no group
  (`DaemonReload.ReloadFirstDisablesExit`).
- A caller cancelled while its request is being sent leaves the status "reloading"
  (`RuntimeControl.CancelLeavesStaleStatus`).
- The round-robin counter wraps at 64 bits, which is uneven unless the number of workers divides 2^64
  (`ParseRouter.RoundVisitsAllIff`).
- After a refused flush the generators skip the refused lines; the rule generator also drops the line
  it has just made (`BatchSplit.SendUnitSamples`, `BatchSplit.SendUnitRules`).
- The configuration's normaliser takes the root away on `..` at the top, although its comment says it
  does not, so a climbing state directory lands below the work root.  It also resolves before blanks are
  trimmed and placeholders are looked for (`StateDir.TwoStagesIff`, `StateDir.TrimmedStagesIff`,
  `StateDirBlanks.BlankStagesIff`, and one family of inputs for each guard in `StateDirCases`).

## Model

| member | source | states |
|---|---|---|
| `DeadlineLimiter.RateLimiter.constructor` | src/runtime/actor/limit.rs:33-59 | the period of a limiter, the floor of the nanoseconds between calls at its rate unless that is cut to 64 bits, and its first deadline, one period from now; a zero count means no limit |
| `DeadlineLimiter.RateLimiter.LimitSpeedTime` | src/runtime/actor/limit.rs:80-108 | deadline and wait after a call are those of the decision function, skip count cut to 32 bits included |
| `DeadlineLimiter.DepartureInSlot` | src/runtime/actor/limit.rs:80-108 | a call departs in [deadline, next deadline) if and only if the skip count fits 32 bits; then the deadline grows by at least a period and lies at most a period after the departure |
| `DeadlineLimiter.DeadlineStaysOnGrid` | src/runtime/actor/limit.rs:80-108 | over a whole run, truncated or not, every deadline is the first one plus a whole number of periods |
| `DeadlineLimiter.SecondCallWaits` | src/runtime/actor/limit.rs:80-108 | a second call at the same instant waits if and only if nothing was truncated |
| `DeadlineLimiter.SlotsOrdered` | src/runtime/actor/limit.rs:80-108 | over a whole run, departures lie in their own slots and slots never overlap |
| `DeadlineLimiter.WindowSpan` | src/runtime/actor/limit.rs:80-108 | the first and last departure inside k periods are at most k calls apart |
| `DeadlineLimiter.WindowBound` | src/runtime/actor/limit.rs:33-108 | any half-open window of k periods holds at most k + 1 departures |
| `DeadlineLimiter.TruncationKeepsLag` | src/runtime/actor/limit.rs:96-103 | a call 2^32 periods late leaves the next call 2^32 periods late again |
| `DeadlineLimiter.TruncationDisablesLimiter` | src/runtime/actor/limit.rs:96-103 | from the first such call on, no call of any later run is delayed |
| `DeadlineLimiter.TruncationBreaksWindow` | src/runtime/actor/limit.rs:96-103 | a concrete run in which the window bound fails |
| `DeadlineLimiter.UnlimitedIff` | src/runtime/actor/limit.rs:33-59 | exactly which configured rates switch the limiter off, the wrap of the period at 64 bits included |
| `DeadlineLimiter.PeriodIs` | src/runtime/actor/limit.rs:33-59 | the period is the floor of 10^9 * units / count up to a multiple of 2^64, and exactly that floor when it fits 64 bits |
| `DeadlineLimiter.CallsPerSecond` | src/runtime/actor/limit.rs:33-108 | for a limiter built for a number of calls in a number of seconds: all calls of a window but two fit it at this rate, up to a nanosecond of rounding for each |
| `DeadlineLimiter.WaitsForDeadline` | src/runtime/actor/limit.rs:80-108 | a call before its deadline departs exactly at it; a late or unlimited call does not wait |
| `DeadlineLimiter.BusyRunIsEven` | src/runtime/actor/limit.rs:80-108 | as long as no call comes late, departures are exactly a period apart: nobody is slowed down further |
| `SourceLimiter.SourceRateLimiter.WaitForEvents` | src/runtime/actor/limit.rs:206-230 | released at the shared deadline if that is later and at once otherwise; the new deadline is the charged duration after the release, and stays if nothing is asked for or there is no limit |
| `SourceLimiter.SourceRateLease.Consume` | src/runtime/actor/limit.rs:247-260 | at most one grant per call, of the size the lease lacked or the lease size; remaining + consumed = old remaining + granted |
| `SourceLimiter.DurationCovers` | src/runtime/actor/limit.rs:232-239 | a grant's duration pays for its events, up to a nanosecond, if and only if it is not capped at 64 bits |
| `SourceLimiter.DurationIs` | src/runtime/actor/limit.rs:232-239 | the charged duration is the time the events take at the rate, rounded down, between one nanosecond and 2^64 - 1 |
| `SourceLimiter.ReserveKeepsSpacing` | src/runtime/actor/limit.rs:206-230 | each release comes at least the previous grant's duration after the previous release |
| `SourceLimiter.StepKeepsInv` | src/runtime/actor/limit.rs:206-260 | every step of any lease, the clock and cancelled waits included, keeps the ledger and the spacing |
| `SourceLimiter.LeaseLedger` | src/runtime/actor/limit.rs:242-260 | in every reachable state each lease has granted - consumed = remaining, grants are spaced, and no more is consumed than was released |
| `SourceLimiter.RateBound` | src/runtime/actor/limit.rs:206-260 | global rate bound over all leases and interleavings: (consumed - last grant) * 10^9 <= rate * (now - first release + grants - 1) |
| `SourceLimiter.ReleasedPromptly` | src/runtime/actor/limit.rs:206-260 | nobody is held back longer: over all leases and interleavings a grant is released when it is asked for, or exactly when the previous grant is paid, and the latter only if that is later |
| `SharedQuota.SharedTotal.Reserve` | src/runtime/generator/sample.rs:123-147 | the exchange loop under interference takes min(desired, limit - seen), and nothing exactly if nothing was asked for or the limit was seen reached |
| `SharedQuota.SharedTotal.Release` | src/runtime/generator/sample.rs:149-154 | gives the amount back; the subtraction wraps at 64 bits, which `SharedQuota.CounterIsExact` shows never happens |
| `SharedQuota.StepKeepsInv` | src/runtime/generator/sample.rs:110-155 | every load, exchange, send and release of any pipeline keeps the counter exact |
| `SharedQuota.CounterIsExact` | src/runtime/generator/sample.rs:110-155 | over every interleaving the counter is completed units plus reservations, never above the limit, and giving back never underflows |
| `SharedQuota.FailedExchangeWasBeaten` | src/runtime/generator/sample.rs:128-146 | a failed exchange means some other pipeline wrote the counter since the load |
| `SharedQuota.ExchangeTakes` | src/runtime/generator/sample.rs:128-146 | a reservation that goes through is a whole unit or all that was left |
| `SharedQuota.ExactTotal` | src/runtime/generator/sample.rs:214-249 | when all pipelines have ended, the completed units sum to the limit if and only if the last one to end ended without an error |
| `SharedQuota.LastErrorFallsShort` | src/runtime/generator/sample.rs:232-238 | a run in which an error in the last pipeline loses units |
| `BatchSplit.BatchSizePolicy.ObserveLine` | src/runtime/generator/common.rs:65-73 | first line sets the average, later lines move it by 2 percent |
| `BatchSplit.BatchSizePolicy.BudgetBytes` | src/runtime/generator/common.rs:76-87 | budget from rate, average and time window, seed before the first line |
| `BatchSplit.Budget` | src/runtime/generator/common.rs:76-87 | the budget always lies between 8 KiB and 1 MiB |
| `BatchSplit.BudgetIs` | src/runtime/generator/common.rs:76-87 | 1 MiB without a rate, 256 KiB before the first line, otherwise what the rate sends in a tenth of a second at the average length, rounded down, within the limits |
| `BatchSplit.AverageConverges` | src/runtime/generator/common.rs:65-73 | on lines of one length the distance of the average from it decays by two percent a line |
| `BatchSplit.AverageInRange` | src/runtime/generator/common.rs:65-73 | the average never leaves the range of the lengths seen |
| `BatchSplit.SendUnitSamples` | src/runtime/generator/sample.rs:53-107 | sub-batches are the greedy cutting of the cyclic run; on success all of it is out, the count is returned and the index has gone round; after a sink error a greedy start is out and the refused lines are skipped |
| `BatchSplit.SendUnitRules` | src/runtime/generator/rule.rs:26-91 | the same for generated lines, with the rule indices asked for, generator errors, and the one more line dropped by a refused flush within the run |
| `BatchSplit.Take` | src/runtime/generator/sample.rs:72-91 | one line: flush first exactly when the budget or the line limit asks for it, then hold the line |
| `BatchSplit.GreedyPieces` | src/runtime/generator/sample.rs:72-91 | no sub-batch is empty or over 4096 lines, two or more lines stay within the budget at the last append, and every flush but the last was forced by one of the limits |
| `BatchSplit.PiecesJoin` | src/runtime/generator/sample.rs:53-107 | the sub-batches put together are the run, nothing lost, repeated or reordered |
| `BatchSplit.GreedyIsFewest` | src/runtime/generator/sample.rs:72-91 | no other cutting within the limits needs fewer sub-batches |
| `BatchSplit.GreedyIsUnique` | src/runtime/generator/sample.rs:72-91 | the greedy cutting is unique |
| `BatchSplit.TurnIs` | src/runtime/generator/sample.rs:91-91 | after k steps the index is (start + k) mod n |
| `ReloadDrain.ReloadDrainReporter.SendPending` | src/runtime/reload_drain.rs:52-57 | the pending event leaves at most once, with the outcome of whoever takes it |
| `ReloadDrain.ReloadDrainReporter.Notify` | src/runtime/reload_drain.rs:59-61 | reports Drained if nothing was reported yet |
| `ReloadDrain.ReloadDrainReporter.Drop` | src/runtime/reload_drain.rs:64-68 | reports Aborted if nothing was reported yet |
| `ReloadDrain.ReloadDrainTracker.Observe` | src/runtime/reload_drain.rs:136-185 | counts down exactly for a drained event of this epoch and a pending role; fails exactly for an aborted one; any other event changes nothing |
| `ReloadDrain.StepKeepsInv` | src/runtime/reload_drain.rs:51-185 | every notification, drop and reception keeps: pending = workers not observed as drained, one event per worker |
| `ReloadDrain.QuiescedIff` | src/runtime/reload_drain.rs:128-185 | in any order of events the tracker is quiesced if and only if every tracked worker's event was Drained and observed |
| `ReloadDrain.NoDuplicates` | src/runtime/reload_drain.rs:136-185 | the duplicate and stale branches are never taken for tracked workers |
| `ReloadDrain.ExactlyOneEvent` | src/runtime/reload_drain.rs:51-68 | a dropped worker has sent exactly one event, in the channel once or observed |
| `ReloadDrain.OutcomeIsFinal` | src/runtime/reload_drain.rs:51-68 | an outcome once sent is never revised |
| `ReloadDrain.AbortIsForever` | src/runtime/reload_drain.rs:136-185 | one aborted worker keeps the epoch unquiesced in every continuation |
| `ParseRouter.ParseDispatchRouter.Replace` | src/runtime/parser/workflow.rs:114-122 | new senders, counter at zero, not reloading |
| `ParseRouter.ParseDispatchRouter.BeginReload` | src/runtime/parser/workflow.rs:124-132 | no senders, reloading |
| `ParseRouter.ParseDispatchRouter.TrySendRoundRobin` | src/runtime/parser/workflow.rs:152-184 | a batch lands in exactly one queue or comes back with no queue changed and every queue closed or full; Sent iff some open queue has room, Full iff none has but one is open, Reloading iff cut off by a reload; no queue outgrows its capacity |
| `ParseRouter.StateFollowsLastChange` | src/runtime/parser/workflow.rs:114-184 | over any run of replacements, cut-offs and dispatches the last change decides senders and reload flag, and the counter counts the dispatches since |
| `ParseRouter.AnswerFollowsLastChange` | src/runtime/parser/workflow.rs:114-184 | over any such run a batch is told to wait for a reload if and only if the last change was a cut-off, and that there is nowhere to go if and only if it was a replacement none of whose queues is open |
| `ParseRouter.RoundVisitsAllIff` | src/runtime/parser/workflow.rs:159-163 | n dispatches start at n different workers if and only if the counter does not wrap meanwhile or n divides its range |
| `ParseRouter.UnevenStartsCollide` | src/runtime/parser/workflow.rs:159-163 | a wrap inside the round makes two dispatches start at the same worker |
| `ParseRouter.FairRound` | src/runtime/parser/workflow.rs:152-184 | n dispatches to n roomy workers give each exactly one batch |
| `TaskManager.TaskManager.Append` | src/runtime/actor/routine.rs:33-35 | a group goes to the end of the list |
| `TaskManager.TaskManager.DetachRole` | src/runtime/actor/routine.rs:41-53 | splits the list by role, in order |
| `TaskManager.TaskManager.PruneFinished` | src/runtime/actor/routine.rs:55-66 | joins ended groups, keeps the others in order |
| `TaskManager.TaskManager.StopRole` | src/runtime/actor/routine.rs:86-104 | stops and joins a role; a failing join drops everything not yet joined |
| `TaskManager.TaskManager.StopRoleGroups` | src/runtime/actor/routine.rs:331-359 | what is done is the shutdown trace, or exactly the part of it up to the first group that refuses a command or cannot be joined; complete if and only if there is none |
| `TaskManager.ShutdownShape` | src/runtime/actor/routine.rs:331-359 | all groups are isolated before any is stopped; stopped and joined one by one in reverse registration order; acceptors within the given time limit, all others without one |
| `TaskManager.StopConserves` | src/runtime/actor/routine.rs:86-104 | joined plus remaining or dropped groups are all groups |
| `TaskManager.StopOkSplits` | src/runtime/actor/routine.rs:86-104 | when no join fails exactly the role's groups are gone |
| `TaskManager.StopFailsAt` | src/runtime/actor/routine.rs:86-104 | a failing stop has joined the role's groups before the one that failed and touched nothing after it |
| `TaskManager.FiltersAppend` | src/runtime/actor/routine.rs:41-66 | detaching and pruning keep the order of the list |
| `GroupShutdown.TaskGroup.IsFinished` | src/runtime/actor/group.rs:223-230 | finished exactly if every task has ended |
| `GroupShutdown.TaskGroup.WaitGraceDownWithTimeout` | src/runtime/actor/group.rs:137-202 | clock, result, tasks left and tasks aborted of the waiting loop |
| `GroupShutdown.ShutdownIsBounded` | src/runtime/actor/group.rs:137-202 | waiting takes at most n * max(W, C) + min(W, C) |
| `GroupShutdown.BoundIsTight` | src/runtime/actor/group.rs:137-202 | for every number of tasks and every wait some tasks reach the bound |
| `GroupShutdown.AbortedExactly` | src/runtime/actor/group.rs:137-202 | success leaves no task; the tasks after the one that timed out had ended when the loop came to it and were not aborted, while it had its full wait from then on and did not end; an error leaves the tasks before the panicking one |
| `GroupShutdown.GraceOutcome` | src/runtime/actor/group.rs:137-202 | waiting fails if and only if the loop comes to a task that ends in its wait with a panic, and aborts if and only if it comes to one that overstays; otherwise it takes until the last task has ended |
| `GroupShutdown.UnwindsOverlap` | src/runtime/actor/group.rs:157-195 | aborted tasks unwind at the same time, so confirming them does not add up |
| `ExitPolicy.BuildSnapshot` | src/runtime/actor/routine.rs:243-272 | the counting loop says finished exactly for roles with groups that have all ended, present exactly for roles with groups |
| `ExitPolicy.CountsDecide` | src/runtime/actor/routine.rs:243-272 | ended count equals total exactly if all of a role's groups have ended |
| `ExitPolicy.TruthfulDecides` | src/runtime/actor/exit_policy.rs:112-192 | the three policies on a truthful snapshot, in terms of the groups |
| `ExitPolicy.ExitLoop.RequestRoleStop` | src/runtime/actor/routine.rs:322-329 | succeeds exactly if no running group of the role refuses |
| `ExitPolicy.ExitLoop.NextAction` | src/runtime/actor/routine.rs:218-232 | the action of the policy in terms of the groups, none without groups |
| `ExitPolicy.ExitLoop.ApplyAction` | src/runtime/actor/routine.rs:282-320 | phase, start time and status after an action; stopping isolates, stops and joins every group, acceptors within 5 s exactly on a quiescing timeout, and is complete if and only if no group refuses or fails |
| `ExitPolicy.ExitLoop.BatchRound` | src/facade/engine.rs:397-434 | a round of the batch engine: the parse router is cut off exactly in the quiescing phase |
| `ExitPolicy.ExitLoop.PollExitPolicy` | src/runtime/actor/routine.rs:205-320 | one poll: phase, start time and status; on a signal all groups are shut down without a time limit, and none is left unless one refuses or fails |
| `ExitPolicy.ExitLoop.AllDownWaitPolicy` | src/runtime/actor/routine.rs:156-203 | the waiting loop goes through exactly the polls of the run up to the one that ends it |
| `ExitPolicy.PhaseIsFinal` | src/runtime/actor/routine.rs:282-320 | no run returns to the running phase, and the phase start is never reset |
| `ExitPolicy.EndsIff` | src/runtime/actor/routine.rs:156-320 | for every policy and run: ended by an error if and only if a poll of the going loop found no group, or a daemon about to quiesce was refused by a running acceptor; ended by the signal if and only if one of its polls saw it with groups to stop |
| `ExitPolicy.BatchGoingIff` | src/runtime/actor/exit_policy.rs:112-135 | a batch run goes on if and only if no signal came and no poll saw all parsers ended after an earlier one saw all pickers ended |
| `ExitPolicy.BatchStopIsComplete` | src/runtime/actor/exit_policy.rs:112-135 | without a signal a batch run stops only with every picker and every parser ended |
| `ExitPolicy.DaemonGoingIff` | src/runtime/actor/exit_policy.rs:140-171 | a daemon run goes on if and only if no signal came and, since the first poll that saw all pickers ended, some acceptor ran and the maximum wait had not passed |
| `ExitPolicy.DaemonStopReason` | src/runtime/actor/exit_policy.rs:140-171 | without a signal a daemon stops only after all pickers ended, with acceptors ended or absent, or on the timeout |
| `ExitPolicy.DaemonTerminates` | src/runtime/actor/exit_policy.rs:154-168 | polling every gap, the quiescing phase is over once gap times the polls reaches the maximum wait |
| `ExitPolicy.GeneratorGoingIff` | src/runtime/actor/exit_policy.rs:176-192 | a generator run goes on if and only if no signal came and no poll saw all generators ended, and stops for one of these reasons |
| `DaemonReload.BlindForever` | src/facade/engine.rs:361-395 | a daemon whose pickers were removed never stops by itself, under any mix of polls and reloads: it goes on, or ends with an error once no group is left |
| `DaemonReload.IsolateBlindsIff` | src/orchestrator/engine/service.rs:137-140 | a reload removes the last picker if and only if all pickers have ended when it isolates |
| `DaemonReload.PollNotices` | src/runtime/actor/exit_policy.rs:144-153 | a poll that comes first does leave the running phase, and starts the clock of the wait |
| `DaemonReload.SignalStillStops` | src/runtime/actor/exit_policy.rs:140-147 | a signal stops the daemon with or without pickers, as long as a group is left |
| `DaemonReload.ReloadFirstDisablesExit` | src/facade/engine.rs:361-395 | if the reload isolates first, no run without a signal reaches the shutdown: the daemon goes on, or ends with an error once no group is left |
| `ReloadEngine.LiveRuntime.PruneFinished` | src/orchestrator/engine/service.rs:229-250 | ended groups joined, overdue detached ones stopped; a failing join drops the rest |
| `ReloadEngine.LiveRuntime.SweepDetached` | src/orchestrator/engine/service.rs:232-248 | the drain loop over the detached groups |
| `ReloadEngine.LiveRuntime.DetachRole` | src/orchestrator/engine/service.rs:215-227 | exactly the groups of a role move to the detached list, each with the given deadline |
| `ReloadEngine.LiveRuntime.DetachAll` | src/orchestrator/engine/service.rs:171-227 | parsers, sinks and infra sinks of the drained epoch are detached with a deadline one reload timeout away |
| `DetachedGroups.DetachedIff` | src/orchestrator/engine/service.rs:215-250 | over any run of reloads: a group is detached with a deadline if and only if the step that moved it set this deadline and every prune since succeeded, before the deadline and without finding the group ended |
| `DetachedGroups.KeptUntilDeadline` | src/orchestrator/engine/service.rs:229-250 | a detached group that has not ended is never stopped early |
| `DetachedGroups.DueIsJoined` | src/orchestrator/engine/service.rs:239-247 | one that has ended or is overdue is joined by the first prune that succeeds |
| `DetachedGroups.SweepFailsAt` | src/orchestrator/engine/service.rs:232-248 | a prune that fails has dealt with the detached groups before the one that failed and with no other |
| `ReloadEngine.LiveRuntime.Register` | src/orchestrator/engine/service.rs:50-58 | registration order infra, sinks, maintainer, parsers |
| `ReloadEngine.LiveRuntime.InstallProcessing` | src/orchestrator/engine/service.rs:147-150 | router, tracker and groups of the new epoch |
| `ReloadEngine.LiveRuntime.WaitEvents` | src/orchestrator/engine/service.rs:156-166 | the wait loop: quiesced, or given up at the first failed wait or aborted worker |
| `ReloadEngine.LiveRuntime.Retire` | src/orchestrator/engine/service.rs:167-173 | maintainer stopped, roles detached, pruned; or given up |
| `ReloadEngine.LiveRuntime.ForceStop` | src/orchestrator/engine/service.rs:175-190 | parsers, sinks, infra and maintainer stopped in this order, then pruned; or failed |
| `ReloadEngine.LiveRuntime.ReloadProcessing` | src/facade/engine.rs:234-300 | the reload as coded is a run of the reload machine that ends idle with the outcome reported: failed exactly if a step of it failed, else forced exactly if the drain was given up |
| `ReloadEngine.RunsCompose` | src/facade/engine.rs:302-347 | reloads one after the other make one run of the machine |
| `ReloadOutcome.OutcomeIs` | src/facade/engine.rs:234-300 | a reload fails if and only if loading, a command, a forced join or the last prune fails, and is reported as forced if and only if a wait failed, a worker aborted or the maintainer or a detached group could not be joined |
| `ReloadOutcome.InstalledIsRequested` | src/orchestrator/engine/service.rs:147-150 | over any run: after an installation router, tracker and registered groups are those of the latest epoch that was started, and router and tracker stay so after a success |
| `ReloadOutcome.TakenDownInOrder` | src/orchestrator/engine/service.rs:168-190 | an epoch is taken down parsers before sinks before infra sinks, with the maintainer last by force and first otherwise, and nothing is installed before all of it is gone |
| `ReloadInvariant.StepKeepsInv` | src/facade/engine.rs:234-300 | every step of a reload, failing or not, keeps the invariant |
| `ReloadInvariant.StepBalance` | src/orchestrator/engine/service.rs:147-250 | no step loses track of a group |
| `ReloadInvariant.OneEpochAlways` | src/facade/engine.rs:234-300 | after any number of reloads: at most one group per processing role, all of epoch 1 + installs; older groups are joined, detached or dropped by a failed join |
| `ReloadInvariant.EveryGroupAccounted` | src/orchestrator/engine/service.rs:147-250 | registered groups = in the manager + detached + joined + dropped, group by group |
| `ReloadInvariant.RouterFollowsEpoch` | src/facade/engine.rs:234-300 | after a successful reload the router feeds exactly the newest epoch's workers; from the drain to the installation it has no senders and is marked as reloading; the pending epoch exists throughout |
| `ReloadLosses.SuccessLosesIff` | src/facade/engine.rs:262-283 | a reload that reports success has dropped groups if and only if, with the old epoch drained, its maintainer or an overdue detached group could not be joined |
| `ReloadLosses.NothingLostIff` | src/runtime/actor/routine.rs:86-104 | a run of any number of reloads drops groups unjoined if and only if some join of it fails |
| `ReloadLosses.SupersededAccounted` | src/facade/engine.rs:234-300 | if every join of the run succeeds, nothing is lost and every group of a replaced epoch was joined or is detached |
| `ReloadLosses.PickersAfter` | src/orchestrator/engine/service.rs:137-250 | the pickers after any run of reloads: none if the stop of some role failed on the way, otherwise those that were there, in order, except the ones seen ended |
| `ReloadLosses.PickerSurvivesIff` | src/orchestrator/engine/service.rs:137-250 | a running picker survives a run of reloads if and only if no stop of the run failed |
| `ReloadLosses.SuccessKeepsPickerIff` | src/facade/engine.rs:262-283 | a reload that reports success keeps a running picker if and only if the maintainer could be joined |
| `ReloadLosses.AnyEngineCanLosePicker` | src/facade/engine.rs:234-300 | every engine can lose its picker in a first reload that reports success |
| `ReloadConsequences.UnforcedMeansQuiesced` | src/orchestrator/engine/service.rs:156-173 | an epoch is replaced without force only when its tracker is quiesced |
| `ReloadLosses.PickerNeverReturns` | src/orchestrator/engine/service.rs:147-250 | no run of reloads brings a lost picker back |
| `ReloadLosses.FailedMaintainerCostsPicker` | src/orchestrator/engine/service.rs:167-170 | a maintainer that cannot be joined costs every group, the picker for good |
| `ReloadLosses.SuccessWithoutPicker` | src/facade/engine.rs:234-300 | from any idle engine with any number of workers whose maintainer cannot be joined: a reload in which every worker drains, which reports success and leaves no picker |
| `ReloadConsequences.ShutdownOrder` | src/runtime/actor/routine.rs:331-359 | at any point of any run a shutdown joins every parser before it stops a sink and every sink before infra |
| `ReloadConsequences.PickerStopsFirstIff` | src/orchestrator/engine/service.rs:416-443 | the picker is stopped ahead of the parsers if and only if no reload has installed an epoch |
| `RuntimeControl.RuntimeControlState.MarkReloadSubmitted` | src/facade/runtime_ctrl.rs:249-253 | records the request as current |
| `RuntimeControl.RuntimeControlState.MarkReloadRunning` | src/facade/runtime_ctrl.rs:255-261 | the request is current afterwards; no change if it was already, else it begins now |
| `RuntimeControl.RuntimeControlState.FinishReload` | src/facade/runtime_ctrl.rs:263-268 | records the result, clears the current request |
| `RuntimeControl.RuntimeControlState.RollbackReloadSubmission` | src/facade/runtime_ctrl.rs:270-276 | takes back the submission of this request only |
| `RuntimeControl.StepKeepsInv` | src/facade/runtime_ctrl.rs:86-130 | every step of callers, bus and engine keeps the permit account and the status |
| `RuntimeControl.SingleReloadInFlight` | src/facade/runtime_ctrl.rs:86-130 | at most one reload holds the permit, is queued or handled |
| `RuntimeControl.StatusTruthfulIff` | src/facade/runtime_ctrl.rs:86-130 | the status names a live request if and only if, since the last submission or result, no call was cancelled mid-send and no receiver was dropped with a request queued |
| `RuntimeControl.RecordFollowsLastWrite` | src/facade/runtime_ctrl.rs:249-276 | over any run: request, times and last result are those of the last submission, rollback or end, and whether commands are accepted follows the last switch |
| `RuntimeControl.NotReadyIff` | src/facade/runtime_ctrl.rs:92-99 | a call is turned away as not ready exactly while commands are not accepted |
| `RuntimeControl.MarkRunningIsIdle` | src/facade/runtime_ctrl.rs:255-261 | marking a received request as running never changes the status |
| `RuntimeControl.AnsweredOnce` | src/facade/runtime_ctrl.rs:186-188 | each accepted request gets exactly one response, unless still under way or dropped with the receiver |
| `RuntimeControl.BusyIff` | src/facade/runtime_ctrl.rs:100-108 | a request is refused as busy exactly while another holds the permit |
| `RuntimeControl.ResponseReopensGate` | src/facade/engine.rs:302-347 | after the response the next request is admitted |
| `RuntimeControl.CancelLeavesStaleStatus` | src/facade/runtime_ctrl.rs:115-127 | a call cancelled while sending leaves the status reloading though nothing is in flight |
| `RuntimeControl.StaleStatusIsReachable` | src/facade/runtime_ctrl.rs:86-130 | a run that ends so |
| `SinkDrain.DrainState.ChannelClosedIsDrained` | src/runtime/sink/drain.rs:36-50 | count and event after a channel closed |
| `SinkDrain.DrainState.StartDraining` | src/runtime/sink/drain.rs:31-33 | draining is set, the count stays |
| `SinkDrain.SinkWorker.HandlePackage` | src/runtime/sink/act_sink.rs:100-139 | a package goes to the dispatcher, an end of stream closes the channel once and may end the loop |
| `SinkDrain.SinkWorker.Turn` | src/runtime/sink/act_sink.rs:178-209 | one turn on a data channel, with the report made on leaving |
| `SinkDrain.SinkWorker.OnStop` | src/runtime/sink/act_sink.rs:210-235 | draining starts and every channel is shut |
| `SinkDrain.StepKeepsInv` | src/runtime/sink/act_sink.rs:178-257 | open count = channels not ended; handed + queued = sent; the report matches how the loop was left |
| `SinkDrain.DrainedMeansConsumed` | src/runtime/sink/act_sink.rs:315-408 | Drained is reported if and only if every channel ended and no error came first; then all packages ever sent were handed on in order; every error exit reports Aborted |
| `SinkDrain.AbortedIff` | src/runtime/sink/act_sink.rs:178-257 | an aborted report is made if and only if some step of the run was an error |
| `SinkDrain.ReportIsFinal` | src/runtime/sink/act_sink.rs:178-257 | after the loop the report never changes and nothing more is taken in |
| `SinkDrain.DrainingTerminates` | src/runtime/sink/act_sink.rs:210-235 | after a stop command each receive uses up one unit of the work left, and nothing adds to it |
| `SinkDrain.DrainingNeverStuck` | src/runtime/sink/act_sink.rs:315-351 | a draining loop always has a package or an end of stream to receive |
| `GracefulDrain.StepKeepsInv` | src/runtime/sink/act_sink.rs:178-257 | whatever a sink or parser loop does, its reporter's event is out exactly if the loop has reported, with the same outcome |
| `GracefulDrain.QuiescedMeansEmptied` | src/runtime/reload_drain.rs:128-185 | end to end over all interleavings: in a quiesced epoch every sink worker has handed on every package it was ever sent, and every parser every batch unless it was told to stop |
| `DrainProgress.StepPays` | src/runtime/sink/act_sink.rs:178-257 | with all channels closed and no error, every receive of a worker or of the tracker uses up work, and no other step adds any |
| `DrainProgress.NeverStuck` | src/runtime/parser/act_parser.rs:56-123 | as long as work is left some receive is possible that does not fail |
| `DrainProgress.NothingRemainsIff` | src/runtime/reload_drain.rs:128-185 | no work is left if and only if the tracker is quiesced, as long as nobody left by an error |
| `DrainProgress.EpochDrains` | src/orchestrator/engine/service.rs:156-166 | a closed epoch drains: over all interleavings without an error there are no more receives than work left, one is always possible until the tracker is quiesced, and after as many as there was work it is |
| `GracefulReload.UnforcedLosesNothingIff` | src/facade/engine.rs:234-300 | at every installation without force, in any run of reloads over live workers: every package sent to the old epoch's sinks was handed on, and every batch sent to its parsers if and only if no stop command of the run reached one of them with batches queued, which takes an earlier forced stop of the same epoch |
| `UnforcedLoss.UnforcedCanLose` | src/facade/engine.rs:262-283 | from the start of any epoch with a parser and any number of other workers: a reload stops all by force, all report drained, and fails at a maintainer that cannot be joined; the next one takes the reports and replaces the epoch without force, a batch unhandled |
| `ParserLoop.StepKeepsInv` | src/runtime/parser/act_parser.rs:56-123 | handed + queued = sent; drained exactly after the end of the channel or a stop command |
| `ParserLoop.DrainedParserIff` | src/runtime/parser/workflow.rs:56-73 | a drained parser has handed on every batch it was sent if and only if no stop command of the run was taken with batches queued |
| `ParserLoop.ReportIff` | src/runtime/parser/act_parser.rs:56-123 | aborted if and only if an error occurred, drained if and only if the channel ended or a stop command came, without one |
| `ParserLoop.HaltLosesBatches` | src/runtime/parser/act_parser.rs:102-105 | a stop command ends the loop at once with a drained report and a batch left behind |
| `QueryCache.FieldQueryCache.constructor` | crates/wp-data-utils/src/cache.rs:30-40 | empty, with capacity at least one |
| `QueryCache.FieldQueryCache.GetIdx` | crates/wp-data-utils/src/cache.rs:197-205 | the number of a value, by its type |
| `QueryCache.FieldQueryCache.TryUpIdx` | crates/wp-data-utils/src/cache.rs:208-254 | numbers a supported value that has none |
| `QueryCache.FieldQueryCache.Save` | crates/wp-data-utils/src/cache.rs:56-194 | a save of supported values extends the history by itself; any other leaves it unchanged |
| `QueryCache.FieldQueryCache.Fetch` | crates/wp-data-utils/src/cache.rs:56-194 | the answer is the history's, and nothing changes |
| `QueryCache.DecimalInjective` | crates/wp-data-utils/src/cache.rs:12-13 | decimal text identifies a number, so it can be its key |
| `QueryCache.WithIdxInjective` | crates/wp-data-utils/src/cache.rs:208-254 | different values, also across types, keep different numbers between 1 and the counter |
| `QueryCache.CodedPut` | crates/wp-data-utils/src/cache.rs:56-194 | the store over numbers follows the store over values |
| `QueryCache.ReplayIsRecent` | crates/wp-data-utils/src/cache.rs:56-194 | the bounded store is the start of the full recency list |
| `QueryCache.AnswerIs` | crates/wp-data-utils/src/cache.rs:56-194 | the answer is the latest one saved for the tuple as long as fewer than the capacity of other tuples were saved since |
| `QueryCache.AnswerIff` | crates/wp-data-utils/src/cache.rs:56-194 | a tuple has answer v if and only if its latest save gave v and it is among the most recently saved distinct tuples |
| `RuleRegistry.SinkRuleMapping.Update` | src/resources/indexing/rule_index.rs:30-38 | adds a rule to a sink's set |
| `RuleRegistry.SinkRuleMapping.Remove` | src/resources/indexing/rule_index.rs:39-43 | removes a rule from a sink's set |
| `RuleRegistry.SinkRuleRegistry.Update` | src/resources/indexing/rule_index.rs:60-76 | both indexes keep agreeing with each other and with the history of updates |
| `RuleRegistry.OwnerIff` | src/resources/indexing/rule_index.rs:60-76 | the owner is the sink of the earliest update with the longest matcher |
| `RuleRegistry.OneSink` | src/resources/indexing/rule_index.rs:60-76 | a rule is in a sink's set if and only if that sink made the deciding update |
| `StateDir.Normalize` | crates/wp-config/src/state.rs:335-347 | the push and pop loop computes the normal form; `..` at the top goes nowhere |
| `StateDir.NormalizePath` | crates/wp-config/src/engine.rs:665-692 | the component stack computes a normal form in which `..` at the top takes the root away |
| `StateDir.NormalIsPlain` | crates/wp-config/src/state.rs:335-347 | a normal form has no empty, `.` or `..` component |
| `StateDir.RenderRoundTrip` | crates/wp-config/src/state.rs:335-347 | a normal form written out and read back is itself, for both normalisers |
| `StateDir.NormalIdempotent` | crates/wp-config/src/state.rs:335-347 | normalising twice is normalising once |
| `StateDir.NormalJoin` | crates/wp-config/src/state.rs:319-347 | normalising a directory before joining makes no difference, for any two path strings |
| `StateDir.AcceptedIff` | crates/wp-config/src/state.rs:91-130 | accepted if and only if neither the work root nor above it; then absolute and in normal form |
| `StateDir.RefusedEarlyIff` | crates/wp-config/src/state.rs:91-103 | a blank value is the default below the work root; a placeholder, or a work root without a current directory, is refused before anything else, each in exactly its case |
| `StateDir.RefusedIff` | crates/wp-config/src/state.rs:104-130 | refused as the work root exactly if it is the work root, and as an ancestor exactly if it lies strictly above |
| `StateDir.AbsolutizeIs` | crates/wp-config/src/state.rs:319-333 | a relative work root is walked to from the current directory |
| `StateDir.RejectInside` | crates/wp-config/src/state.rs:295-317 | accepted exactly if outside every managed directory |
| `StateDir.ManagedAt` | crates/wp-config/src/state.rs:295-317 | a managed directory is walked to from the work root unless it is absolute |
| `StateDir.ClimbedIntoRoot` | crates/wp-config/src/engine.rs:653-692 | a path that lost its root names a place below the work root |
| `StateDir.TwoStagesIff` | crates/wp-config/src/engine.rs:653-692 | for every value that is not blank: resolving after the configuration's own resolution gives the same answer if and only if the two trimmed texts meet the same fate: one place, both above the work root, or both with a placeholder |
| `StateDir.TrimmedStagesIff` | crates/wp-config/src/engine.rs:653-692 | for every value without blanks around it, the guards: absolute; a placeholder in both stages or in none; no climbing above the root; and no blank uncovered at the end unless both places are refused |
| `StateDirBlanks.BlankStagesIff` | crates/wp-config/src/engine.rs:604-607 | for values with blanks around them, the guards: blanks behind alone change nothing; blanks in front make a name that must be taken away again by `..`, before a slash, `.` or `..` together with everything up to the root, unless both places are refused as above the work root |
| `StateDirBlanks.SecondStageReads` | crates/wp-config/src/engine.rs:653-692 | blanks behind that the first stage keeps in the last name are cut off by the second, which then walks through the value without them, `.` and `..` included |
| `StateDirBlanks.LongerIsForgottenIff` | crates/wp-config/src/state.rs:335-347 | from two stacks of different height the normaliser ends in the same place if and only if the higher one is emptied on the way |
| `StateDirBlanks.NameIsForgottenIff` | crates/wp-config/src/state.rs:335-347 | from two stacks that differ in one name it does if and only if that name and all above it are taken away |
| `StateDir.TrimPlaceholder` | crates/wp-config/src/state.rs:92-96 | trimming neither makes nor removes a placeholder |
| `StateDir.NormalNotLonger` | crates/wp-config/src/state.rs:335-347 | normalising an absolute path never lengthens it |
| `StateDirCases.UncoveredBlank` | crates/wp-config/src/engine.rs:604-607 | `a /.`: a blank that the first stage uncovers is cut off by the second |
| `StateDirCases.PlaceholderInRoot` | crates/wp-config/src/state.rs:96-103 | a placeholder in the work root is seen by the second stage only |
| `StateDirCases.PlaceholderCancelled` | crates/wp-config/src/state.rs:96-103 | `${X}/../a`: a placeholder that the first stage removes is never reported |
| `StateDirCases.ClimbingLosesRoot` | crates/wp-config/src/engine.rs:665-692 | `../../b` below `/w`: `/b` in one stage, `/w/b` in two |
| `StateDirCases.LeadingBlankIsKept` | crates/wp-config/src/engine.rs:604-607 | blanks in front are cut off by one resolution and part of a name in the other |
| `StateDirCases.BlankHidesRoot` | crates/wp-config/src/engine.rs:653-657 | ` /a` below `/w`: with a blank in front the first stage does not recognise an absolute path; `/a` in one stage, `/w/ /a` in two |

## Left out

- Tokio channels, timers, signals, semaphores and the `lru` crate are modelled by their contracts only: queues with open counts, a clock, one permit, a recency list.
- Loading of resources and configuration, connectors, knowledge databases, monitoring and statistics, and the commands' delivery inside a task group: a failing load or command is one bit chosen by the environment.
- WPL and OML parsing and evaluation, sink dispatchers and tag stamping.
- Environment overrides of rates, lease sizes and limits: the resulting numbers are parameters.
- Speed profiles, `DynamicRateLimiter`, the unlimited quota and the even split of a total among pipelines: only easy members.
- Filesystem operations of the state directory (`ensure`, `clear`, `has_entries`) and symbolic links.
- `shutdown_unused`, `shutdown_detached_processing_groups`, `wait_role_groups_finished` and `all_down_force_policy`: compositions of modelled operations.
- ParseRouter.ParseDispatchRouter.TrySendRoundRobin: takes the sender snapshot and the reload flag in one step, where the source reads them one after the other.
- SourceLimiter.RateBound: for a fixed rate, and for grants whose duration is not capped at 64 bits of nanoseconds; changing the rate while running is not modelled.
- SharedQuota.StepKeepsInv: a pipeline's loop is a step machine over the counter; `SharedTotal.Reserve` covers the loop itself.
- BatchSplit.BatchSizePolicy.BudgetBytes: averages are real numbers, so rounding of 64-bit floats is not captured; byte and line counts do not overflow.
- BatchSplit.SendUnitSamples: needs a sample table with the start index inside, as indexing does in the source; statistics recording is left out.
- QueryCache.FieldQueryCache.Save: one method for the six arities, looping over the parameters; the value counter does not overflow.
- SinkDrain.SinkWorker.Turn: repair handles, statistics and flush ticks appear only as errors that leave the loop; the flushes after the loop, which may fail after Drained was reported, are left out.
- ParserLoop.StepKeepsInv: the parser loop is a step machine on values; statistics and idle ticks appear only as errors or stops.
- StateDir.TwoStagesIff: absolute work roots and Unix paths only.
- StateDirBlanks.BlankStagesIff: not for values that climb above the root, nor for those with blanks in front only whose first stage uncovers another blank; `StateDir.TwoStagesIff` covers these by comparing the two places.
- DrainProgress.EpochDrains: a channel whose senders are still alive may be refilled; that senders go away is a condition here.
- ReloadInvariant.OneEpochAlways: groups dropped by a failing join are counted as such, since the source drops their handles; `ReloadLosses.SupersededAccounted` says when there are none.
- SharedQuota.ExactTotal: counts completed units; what a failed unit had already sent is not counted, as in the source.
- ExitPolicy.DaemonTerminates: the distance between polls is a parameter; the source polls every 100 ms.
