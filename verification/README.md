# Verification of the ground-station software

A Dafny model of the two bodies of code in this repository, with proofs: the Waf 1.8.7 build engine it
carries (directory `.waf-1.8.7-e6b2961ae4a2b8021fcc5c4bba50704b/waflib`) and the exact arithmetic of the
ground-station program (`src`, `clients`).

`dafny verify dfyconfig.toml` checks everything.

## What is modelled

**Scheduling** (`TaskOrder`, `Schedule`, `ScheduleProofs`, `Deadlock`, `Runs`, `Runner`, over `Graphs`).
`Schedule.Sched` is a snapshot of `Parallel`: the lists and queues of the main thread and where each worker is
inside `Task.process`. Every atomic step is a function on snapshots, and a build is any interleaving of them.
`ScheduleProofs` shows that every step keeps one invariant, `Deadlock` what follows from it, and `Runs` what
whole runs say about failures. `Runner.Parallel` is the class itself: its methods make those steps and no
others, with any number of worker steps in between. What the status and the command of each task come to
is fixed beforehand by a `Will`, which a build asks at most once about each.
`Reach` builds runs of small plans that show the hypotheses of the theorems to be needed, and `Ends` runs of any
plan that lead to an end.

**Incremental builds** (`Signatures`, `Incremental`, `Sound`, `Replay`, `Rebuild`, `Stale`, `Careless`, `Interrupted`,
`Races`).
A signature is the term that was hashed. A `Session` is one build: a log of the scheduler and what every event did to
signatures and files. A history is any sequence of sessions, successful, failed or stopped, with edits to sources and to the
script and deletions of outputs in between. `Replay` shows which sessions there are, and `Rebuild` which tasks a
build runs again; `Stale`, `Careless`,
`Interrupted` and `Races` use it to show what a history must not contain, and that nothing less will do.

**Sorting** (`Worklist`, `MethodOrder`, `UseOrder`). The worklist loop shared by `task_gen.post` and
`process_use`, and the walk of `use_rec`.

**Dependency scanning** (`Preproc`, `Conditionals`, `PreprocExpr`). The line stack with its end-of-file markers
is first shown to be nested reading, for any files; nested reading of well-nested files is then shown to be
recursion over blocks (section 6.10.1 of ISO/IEC 9899:2011). The expression evaluator is compared with
precedence trees.

**Nodes** (`Glob`, `NodeTree`), **environments** (`ConfigSet`), **dates** (`Calendar`), **printing and packing**
(`Printing`, `Header`, `Position`).

## What the proofs turned up

- A command that ends well on the output of a failed command leaves a signature behind that later makes a stale
  file look current. The scheduler lets it happen with `keep`, and without it when a command starts between the
  moment a worker sets `hasrun` and the moment it sets `stop`; it never happens with one job and no `keep`.
  `Races.IncrementalExactlyAlone` shows for a producer and a consumer that one job and no `keep` is exactly when
  error-free builds are up to date in every history; `Sound.OneJobEqualsClean` is the theorem for all scripts, and
  `Careless.CarefulIsNeeded` shows that in every script in which one task feeds another such a command can do harm.
  An error-free build has none (`Incremental.ErrorFreeSound`), so nothing is asked of such builds.
- A script may change between builds, and so may the uid of an output. Going back to a uid used before a change
  leaves a stale output when a build in between fails, and nothing else about changes of uid does
  (`Stale.ReturnGoesStale`, `Stale.GoingBackIsExact`).
- An exception that escapes `start` can leave stale outputs, because `store` is then not reached
  (`Interrupted.LostStoreGoesStale`).
- `error_handler` sets `stop` before it records the error. With more than one job the main thread can leave
  its loops in between, with answers still to come and no error on record (`Reach.StopsUnexplained`); otherwise a
  build that stops has its error on record (`Runner.Parallel.Start`).
- With `keep` at 2 or more and without verbosity, a task whose `runnable_status` raises is marked as skipped, no
  error is recorded, and its `more_tasks` are lost; that is the only way for an unstopped build to end incomplete
  (`Ends.CompleteExactly`). The deadlock report is exact all the same, once a task that waits for a lost one is
  counted as stuck (`Deadlock.Outcome`).
- A task made to wait for one of a later group is reported as a deadlock although nothing waits in a circle
  (`Reach.LaterGroupDeadlocks`). Without `more_tasks` a circle and such a wait are the only causes there are, and
  each of them is always reported (`Deadlock.Outcome`, `Runner.Parallel.Start`).
- The group barrier holds without `more_tasks`. With them it can break: a task added by the last answer of a group
  is taken together with the next group (`Reach.BarrierBreaks`).
- A name repeated in a `use` list can make its user come out twice (`UseOrder.RepeatedUseListsTwice`) and need not
  (`UseOrder.RepeatedUseListsOnce`): it comes out as often as it repeats the target whose record is drained last
  (`UseOrder.ListedTimes`).
- `#pragma once` after an `#include` bans the file looked for last instead of its own; an unreadable include changes
  the directory later names are looked up in; a first condition that cannot be evaluated lets every arm through
  (`Conditionals`).
- `get_term` departs from operator precedence exactly when an operator that a looser one precedes is directly
  followed by a tighter one, so from three levels on (`PreprocExpr.FoldIsPrecedence`); `&&` and `||` give an operand
  rather than 0 or 1.
- `path_from` to a node whose only common ancestor is the root gives an absolute path, which `search_node` does
  not follow back (`NodeTree.ResolvesBack`).
- `revert` without a `stash` of its own takes the saved table of an ancestor (`ConfigSet.Env.Revert`).
- At the first second of a month the formatted date is one day past the end of the month before
  (`Calendar.SplitIsFaithful`), and still agrees with the Julian date.

## Model

| member | source | states |
|---|---|---|
| TaskOrder.SetFileConstraints | UHF_GS_CSP-term software_22May2025/.waf-1.8.7-e6b2961ae4a2b8021fcc5c4bba50704b/waflib/Task.py:472-483 | a task of the group is put after exactly the tasks of the group that output a file among its `inputs` or `dep_nodes`, and nothing else is touched |
| TaskOrder.IsBefore | UHF_GS_CSP-term software_22May2025/.waf-1.8.7-e6b2961ae4a2b8021fcc5c4bba50704b/waflib/Task.py:462-471 | yes exactly when an `ext_out` of the first class is an `ext_in` of the second, or one of the two names the other |
| TaskOrder.SetPrecedenceConstraints | UHF_GS_CSP-term software_22May2025/.waf-1.8.7-e6b2961ae4a2b8021fcc5c4bba50704b/waflib/Task.py:484-505 | although only one representative of each kind is compared: where `ext_out`, `ext_in`, `before` and `after` of two classes ask for an order one way, every task of the one is put after every task of the other; where they ask for none, or within one class, no task is; and where they ask for both ways exactly one way is put, by the arbitrary order of the dictionary |
| ScheduleProofs.WorkerStepKeeps | UHF_GS_CSP-term software_22May2025/.waf-1.8.7-e6b2961ae4a2b8021fcc5c4bba50704b/waflib/Task.py:98-132 | every step of every worker keeps the whole invariant: each task in exactly one place, `count` equal to the number in flight and at most numjobs*GAP+1, hasrun consistent with the place, done tasks closed under `run_after` and free of cycles, the log in order |
| ScheduleProofs.MainStepKeeps | UHF_GS_CSP-term software_22May2025/.waf-1.8.7-e6b2961ae4a2b8021fcc5c4bba50704b/waflib/Runner.py:62-200 | so does every step of the main thread, including taking the next group with its new constraints |
| ScheduleProofs.EveryRunKeepsInv | UHF_GS_CSP-term software_22May2025/.waf-1.8.7-e6b2961ae4a2b8021fcc5c4bba50704b/waflib/Runner.py:167-200 | conservation and bound at every point of every interleaving of workers and main thread |
| Runs.EveryBuildAccounts | UHF_GS_CSP-term software_22May2025/.waf-1.8.7-e6b2961ae4a2b8021fcc5c4bba50704b/waflib/Runner.py:144-166 | in every build at every moment: `stop` is set only because a task has failed and `keep` is 0, or a status has raised and `keep` is 1, and never without an error on record or about to be; every failed task is with the error handler or on record, nothing else is, and none twice |
| Runs.RecordIsExact | UHF_GS_CSP-term software_22May2025/.waf-1.8.7-e6b2961ae4a2b8021fcc5c4bba50704b/waflib/Runner.py:144-147 | once the error handlers are through, the tasks that failed are on record, and with `keep` 0 `stop` is set if and only if there is an error |
| ScheduleProofs.GroupPlaced | UHF_GS_CSP-term software_22May2025/.waf-1.8.7-e6b2961ae4a2b8021fcc5c4bba50704b/waflib/Build.py:400-422 | a group handed out by the iterator adds each of its tasks once, none of which was taken before |
| ScheduleProofs.GetOutKeeps | UHF_GS_CSP-term software_22May2025/.waf-1.8.7-e6b2961ae4a2b8021fcc5c4bba50704b/waflib/Runner.py:101-111 | retiring a task and adding its `more_tasks` conserves the tasks |
| ScheduleProofs.ExpandPlaced | UHF_GS_CSP-term software_22May2025/.waf-1.8.7-e6b2961ae4a2b8021fcc5c4bba50704b/waflib/Runner.py:101-104 | the `more_tasks` of a task that has not been expanded are tasks not seen before, and each of them gets one place |
| ScheduleProofs.ClearKeeps | UHF_GS_CSP-term software_22May2025/.waf-1.8.7-e6b2961ae4a2b8021fcc5c4bba50704b/waflib/Runner.py:180-181 | when the main thread finds `stop` unset, every task of every earlier group has `hasrun` |
| ScheduleProofs.ChosenReady | UHF_GS_CSP-term software_22May2025/.waf-1.8.7-e6b2961ae4a2b8021fcc5c4bba50704b/waflib/Task.py:307-310 | so a look at `run_after` is all a decision needs: with nothing left there, everything it has to wait for is done, earlier groups included |
| Deadlock.StuckHasCycle | UHF_GS_CSP-term software_22May2025/.waf-1.8.7-e6b2961ae4a2b8021fcc5c4bba50704b/waflib/Runner.py:71-100 | when every frozen task is blocked and nothing is in flight, unfinished tasks wait for each other in a circle, or one waits for a task that was lost, of a later group or unknown; without `more_tasks` the unfinished tasks are the frozen ones |
| Deadlock.Outcome | UHF_GS_CSP-term software_22May2025/.waf-1.8.7-e6b2961ae4a2b8021fcc5c4bba50704b/waflib/Runner.py:71-100 | without `more_tasks` an unstopped build is reported as deadlocked if and only if some tasks wait in a circle or some task waits for one of a later group or for one the build does not have. With them, the report follows from a circle among the tasks that can come into being or a wait for a lost one, and has no other cause but those and a wait for a later group; a build that is not reported has `hasrun` for all tasks that are not lost, which with `keep` below 2 are all |
| Deadlock.CompleteKnown | UHF_GS_CSP-term software_22May2025/.waf-1.8.7-e6b2961ae4a2b8021fcc5c4bba50704b/waflib/Runner.py:71-100 | without `more_tasks`, a build that has run everything had no task that waits for a later group: of two tasks that have to go before each other neither is ever decided |
| Deadlock.CompleteIffNothingLost | UHF_GS_CSP-term software_22May2025/.waf-1.8.7-e6b2961ae4a2b8021fcc5c4bba50704b/waflib/Runner.py:148-166 | an unstopped build that ends has handled every task of the plan if and only if no task whose status raised had `more_tasks` |
| Deadlock.EndIsComplete | UHF_GS_CSP-term software_22May2025/.waf-1.8.7-e6b2961ae4a2b8021fcc5c4bba50704b/waflib/Runner.py:167-200 | an unstopped build that ends has handled exactly the tasks that were not lost, and none of them waited in a circle |
| Deadlock.ProducerBeforeConsumer | UHF_GS_CSP-term software_22May2025/.waf-1.8.7-e6b2961ae4a2b8021fcc5c4bba50704b/waflib/Runner.py:182-197 | in every reachable state a task that has been decided, queued or started has done all tasks of its group that output a file among its inputs or further dependencies, or that the attributes of the two classes put first |
| Deadlock.ProducerEndsFirst | UHF_GS_CSP-term software_22May2025/.waf-1.8.7-e6b2961ae4a2b8021fcc5c4bba50704b/waflib/Task.py:307-310 | the same at every point of the history, for producers of the same group and, without `more_tasks`, for all tasks of earlier groups |
| Deadlock.GroupBarrierHolds | UHF_GS_CSP-term software_22May2025/.waf-1.8.7-e6b2961ae4a2b8021fcc5c4bba50704b/waflib/Runner.py:94-100 | without `more_tasks` no task of a later group is decided before every task of every earlier one is retired |
| Deadlock.LogObeys | UHF_GS_CSP-term software_22May2025/.waf-1.8.7-e6b2961ae4a2b8021fcc5c4bba50704b/waflib/Runner.py:182-197 | an ordered log never shows a task decided before one it has to wait for is done |
| Runner.Parallel.WorkerStep | UHF_GS_CSP-term software_22May2025/.waf-1.8.7-e6b2961ae4a2b8021fcc5c4bba50704b/waflib/Task.py:98-132 | one step of any worker is a step of the state machine, keeps the invariant, gives a task the status its command comes to, is invisible to the main thread but for `hasrun`, `stop` and the queues, and uses up work |
| Runner.Parallel.GetOut | UHF_GS_CSP-term software_22May2025/.waf-1.8.7-e6b2961ae4a2b8021fcc5c4bba50704b/waflib/Runner.py:105-111 | waits for an answer, which always comes, retires one task, adds its `more_tasks` unless stopping, and lowers `count` by one |
| Runner.Parallel.Advance | UHF_GS_CSP-term software_22May2025/.waf-1.8.7-e6b2961ae4a2b8021fcc5c4bba50704b/waflib/Build.py:410-422 | moves past empty groups to the next one with tasks, constrained; or to the end |
| Runner.Parallel.NextGroup | UHF_GS_CSP-term software_22May2025/.waf-1.8.7-e6b2961ae4a2b8021fcc5c4bba50704b/waflib/Runner.py:97-100 | hands out the next non-empty group in order, or nothing once all groups are consumed |
| Runner.Parallel.RefillTaskList | UHF_GS_CSP-term software_22May2025/.waf-1.8.7-e6b2961ae4a2b8021fcc5c4bba50704b/waflib/Runner.py:71-100 | ends; raises only when nothing is in flight and every frozen task is blocked; leaves the list empty only when every group is consumed and nothing is frozen or in flight; otherwise the build has come closer to its end |
| Runner.Parallel.GetNextTask | UHF_GS_CSP-term software_22May2025/.waf-1.8.7-e6b2961ae4a2b8021fcc5c4bba50704b/waflib/Runner.py:62-65 | takes the first outstanding task |
| Runner.Parallel.Postpone | UHF_GS_CSP-term software_22May2025/.waf-1.8.7-e6b2961ae4a2b8021fcc5c4bba50704b/waflib/Runner.py:66-70 | puts the task at either end of `frozen`; in the round after an idle one without progress it is blocked |
| Runner.Parallel.RunnableStatus | UHF_GS_CSP-term software_22May2025/.waf-1.8.7-e6b2961ae4a2b8021fcc5c4bba50704b/waflib/Task.py:307-310 | with workers active in between: the verdict of the task itself, and only when every predecessor has `hasrun`; ASK_LATER only if some predecessor had not |
| Runner.Parallel.StatusFailed | UHF_GS_CSP-term software_22May2025/.waf-1.8.7-e6b2961ae4a2b8021fcc5c4bba50704b/waflib/Runner.py:148-166 | what an exception in `runnable_status` does to `hasrun`, `stop` and `error`, by the three settings of `keep` and the verbosity |
| Runner.Parallel.Dispatch | UHF_GS_CSP-term software_22May2025/.waf-1.8.7-e6b2961ae4a2b8021fcc5c4bba50704b/waflib/Runner.py:112-117 | the task is queued, or with one job processed on the spot |
| Runner.Parallel.HandleTask | UHF_GS_CSP-term software_22May2025/.waf-1.8.7-e6b2961ae4a2b8021fcc5c4bba50704b/waflib/Runner.py:177-197 | one turn of the main loop goes by steps of the state machine, keeps the invariant and either brings the build closer to its end or postpones the task |
| Runner.Parallel.MainLoop | UHF_GS_CSP-term software_22May2025/.waf-1.8.7-e6b2961ae4a2b8021fcc5c4bba50704b/waflib/Runner.py:169-197 | ends with `stop` set, with nothing left to do, or stuck, whatever the workers do |
| Runner.Parallel.Drain | UHF_GS_CSP-term software_22May2025/.waf-1.8.7-e6b2961ae4a2b8021fcc5c4bba50704b/waflib/Runner.py:198-199 | with an error on record every answer still to come is collected |
| Runner.Parallel.Start | UHF_GS_CSP-term software_22May2025/.waf-1.8.7-e6b2961ae4a2b8021fcc5c4bba50704b/waflib/Runner.py:167-200 | for every interleaving and every postpone order the scheduler ends, after a run of the state machine. `stop` has one of its two causes. When nothing is in flight every failed task is an error, with `keep` 0 `stop` is set if and only if there is an error, and with `keep` below 2 there is none if and only if no task of the plan raises or fails; something is in flight only if the failure that stopped the build is not yet on record, never with one job. Unstopped, every task that has run has the status it was to have, whatever the schedule. Without `more_tasks` an unstopped build raises exactly when tasks wait in a circle or, as could be told before the call, some task waits for a later group, and otherwise every task has `hasrun`; with `more_tasks` and no such wait it raises exactly when, among the tasks that are not lost, some wait in a circle or one waits for a lost one, where with `keep` below 2 none is lost |
| Ends.CompleteExactly | UHF_GS_CSP-term software_22May2025/.waf-1.8.7-e6b2961ae4a2b8021fcc5c4bba50704b/waflib/Runner.py:148-166 | whatever the plan, all unstopped ends of all its builds are complete if and only if `keep` is below 2, or no task has `more_tasks`, or files and classes ask for a circle, so that there is no such end; for the converse every build without a circle is led to an end at which a task that raises has lost its `more_tasks` |
| Reach.LaterGroupDeadlocks | UHF_GS_CSP-term software_22May2025/.waf-1.8.7-e6b2961ae4a2b8021fcc5c4bba50704b/waflib/Runner.py:71-100 | a task made to wait for one of a later group ends in a deadlock report with nothing waiting in a circle |
| Reach.BarrierBreaks | UHF_GS_CSP-term software_22May2025/.waf-1.8.7-e6b2961ae4a2b8021fcc5c4bba50704b/waflib/Runner.py:94-104 | with `more_tasks` and any number of jobs, one included, a run in which a task of the second group is queued while one that belongs to the first has not run and is not yet known |
| Reach.StopsUnexplained | UHF_GS_CSP-term software_22May2025/.waf-1.8.7-e6b2961ae4a2b8021fcc5c4bba50704b/waflib/Runner.py:144-147 | on a plan of two tasks and with `keep` 0 the main thread can find `stop` set with no error on record if and only if there is more than one job |
| Signatures.BuildState.GetBldSig | UHF_GS_CSP-term software_22May2025/.waf-1.8.7-e6b2961ae4a2b8021fcc5c4bba50704b/waflib/Node.py:461-469 | the cached signature, the hash of a source file or the stored signature of a built one, remembered |
| Signatures.BuildState.ComputeSignature | UHF_GS_CSP-term software_22May2025/.waf-1.8.7-e6b2961ae4a2b8021fcc5c4bba50704b/waflib/Task.py:293-306 | the signature term of code, dependencies in order and variables, cached; none if a dependency has none |
| Signatures.BuildState.RunnableStatus | UHF_GS_CSP-term software_22May2025/.waf-1.8.7-e6b2961ae4a2b8021fcc5c4bba50704b/waflib/Task.py:307-331 | skips exactly when the new signature is both the one stored under class name, inputs and outputs and the one on the output node |
| Signatures.BuildState.DropSignature | UHF_GS_CSP-term software_22May2025/.waf-1.8.7-e6b2961ae4a2b8021fcc5c4bba50704b/waflib/Task.py:103-106 | the stored signature is gone before the command starts, whatever the command then leaves in its output |
| Signatures.BuildState.PostRun | UHF_GS_CSP-term software_22May2025/.waf-1.8.7-e6b2961ae4a2b8021fcc5c4bba50704b/waflib/Task.py:332-343 | output node and uid get the signature computed before the command; if the output is missing nothing is stored |
| Signatures.SignedKeeps | UHF_GS_CSP-term software_22May2025/.waf-1.8.7-e6b2961ae4a2b8021fcc5c4bba50704b/waflib/Task.py:344-351 | computing a signature changes neither files nor stored task signatures nor those of built nodes |
| Incremental.SessionKeepsInv | UHF_GS_CSP-term software_22May2025/.waf-1.8.7-e6b2961ae4a2b8021fcc5c4bba50704b/waflib/Task.py:98-132 | throughout a build in which no command ends well on the output of a failed one, what is stored stays trustworthy: where the signatures of a node and of its current uid agree, the file holds what the signature stands for |
| Incremental.HistoryCoherent | UHF_GS_CSP-term software_22May2025/.waf-1.8.7-e6b2961ae4a2b8021fcc5c4bba50704b/waflib/Build.py:119-167 | before every build of a history in which every build that is not error-free is of that kind, the same holds of what was kept, with edits in between and the script changing at will as long as no output goes back to a uid it had before; only uids of scripts built so far have a signature |
| Incremental.UidStayed | UHF_GS_CSP-term software_22May2025/.waf-1.8.7-e6b2961ae4a2b8021fcc5c4bba50704b/waflib/Build.py:119-167 | a uid in use before and in use again has been the latest one of its output all along |
| Incremental.ErrorFreeSound | UHF_GS_CSP-term software_22May2025/.waf-1.8.7-e6b2961ae4a2b8021fcc5c4bba50704b/waflib/Task.py:307-310 | in an error-free build no command has been given the output of a failed one, whatever `keep` and the number of jobs |
| Incremental.IncrementalIsUpToDate | UHF_GS_CSP-term software_22May2025/.waf-1.8.7-e6b2961ae4a2b8021fcc5c4bba50704b/waflib/Task.py:307-343 | in the last build of any such history every task that ran well or was skipped, on inputs that did too, has the output its command writes from the inputs as they are |
| Incremental.UpToDateUnique | UHF_GS_CSP-term software_22May2025/.waf-1.8.7-e6b2961ae4a2b8021fcc5c4bba50704b/waflib/Task.py:307-343 | files that are all up to date with the same sources are the same files |
| Incremental.IncrementalEqualsClean | UHF_GS_CSP-term software_22May2025/.waf-1.8.7-e6b2961ae4a2b8021fcc5c4bba50704b/waflib/Task.py:98-132 | an error-free build at the end of any such history leaves every output with the content any error-free from-scratch build gives |
| Incremental.SchedulerPutsInputsFirst | UHF_GS_CSP-term software_22May2025/.waf-1.8.7-e6b2961ae4a2b8021fcc5c4bba50704b/waflib/Runner.py:167-200 | every log the scheduler can produce meets the hypothesis of the incremental theorems on order |
| Sound.RunKeepsNone | UHF_GS_CSP-term software_22May2025/.waf-1.8.7-e6b2961ae4a2b8021fcc5c4bba50704b/waflib/Task.py:130-132 | in a build that stops at the first error and has not stopped, whatever is done is good, except failures whose handler has not yet been called |
| Sound.StoppingBuildIsSound | UHF_GS_CSP-term software_22May2025/.waf-1.8.7-e6b2961ae4a2b8021fcc5c4bba50704b/waflib/Task.py:98-132 | unless a command starts between a worker's recording a failure and its setting `stop`, such a build never uses the output of a failed task |
| Sound.OneJobIsSound | UHF_GS_CSP-term software_22May2025/.waf-1.8.7-e6b2961ae4a2b8021fcc5c4bba50704b/waflib/Runner.py:188-191 | with one job that never happens |
| Sound.OneJobEqualsClean | UHF_GS_CSP-term software_22May2025/.waf-1.8.7-e6b2961ae4a2b8021fcc5c4bba50704b/waflib/Runner.py:167-200 | end to end: when every build of a history that is not error-free is a run of the scheduler that stops at the first error and has one job, an error-free incremental build equals the clean one, these two with any settings |
| Races.SoundExactlyAlone | UHF_GS_CSP-term software_22May2025/.waf-1.8.7-e6b2961ae4a2b8021fcc5c4bba50704b/waflib/Task.py:98-132 | on a group of a producer and a consumer, no run of the scheduler lets a command end well on the output of a failed one exactly when it stops at the first error and has one job |
| Races.IncrementalExactlyAlone | UHF_GS_CSP-term software_22May2025/.waf-1.8.7-e6b2961ae4a2b8021fcc5c4bba50704b/waflib/Task.py:98-132 | and exactly then every history of builds the scheduler can run ends up to date whenever its last build is error-free |
| Careless.FedGoesStale | UHF_GS_CSP-term software_22May2025/.waf-1.8.7-e6b2961ae4a2b8021fcc5c4bba50704b/waflib/Task.py:98-132 | for any tool and script: where one task feeds another and what is written for the other depends on it, a change of variables and back, with one command run on the output of a failed one, ends in an error-free build with a stale file |
| Careless.CarefulIsNeeded | UHF_GS_CSP-term software_22May2025/.waf-1.8.7-e6b2961ae4a2b8021fcc5c4bba50704b/waflib/Task.py:98-132 | that can happen in a script, with some tool and some change of its variables and back, if and only if the script has one task feed another |
| Replay.WholeBuild | UHF_GS_CSP-term software_22May2025/.waf-1.8.7-e6b2961ae4a2b8021fcc5c4bba50704b/waflib/Task.py:98-132 | from any store with the sources in it there is a build of the whole script that ends without an error, so the histories the theorems speak of are there |
| Replay.BuildStep | UHF_GS_CSP-term software_22May2025/.waf-1.8.7-e6b2961ae4a2b8021fcc5c4bba50704b/waflib/Task.py:98-132 | one task brought up to date: run unless its signature is stored with node and uid, after which both have the signature of the inputs as they are |
| Rebuild.GoodIsCurrent | UHF_GS_CSP-term software_22May2025/.waf-1.8.7-e6b2961ae4a2b8021fcc5c4bba50704b/waflib/Task.py:307-343 | after any build, what is stored for a task that ended well is the signature of its inputs as they are |
| Rebuild.SettledIsSkipped | UHF_GS_CSP-term software_22May2025/.waf-1.8.7-e6b2961ae4a2b8021fcc5c4bba50704b/waflib/Task.py:307-331 | tasks whose stored signatures are those of their inputs as they are, and that no other tasks feed, are all skipped, whatever happens to the others |
| Rebuild.UntouchedIsSkipped | UHF_GS_CSP-term software_22May2025/.waf-1.8.7-e6b2961ae4a2b8021fcc5c4bba50704b/waflib/Task.py:307-331 | hence a build runs none of the tasks that, since a build in which they ended well, have kept their attributes, variables, sources, feeding tasks and the signatures of their outputs |
| Rebuild.NothingRunsAgain | UHF_GS_CSP-term software_22May2025/.waf-1.8.7-e6b2961ae4a2b8021fcc5c4bba50704b/waflib/Task.py:307-331 | a build right after an error-free one of the same script runs nothing |
| Rebuild.ChangeIsSeen | UHF_GS_CSP-term software_22May2025/.waf-1.8.7-e6b2961ae4a2b8021fcc5c4bba50704b/waflib/Task.py:293-331 | and no build skips a task of which a source, the code or the variables have changed since the build before, in which it ended well |
| Stale.ReturnGoesStale | UHF_GS_CSP-term software_22May2025/.waf-1.8.7-e6b2961ae4a2b8021fcc5c4bba50704b/waflib/Task.py:307-331 | for any tools and scripts: a task that gives up its uid and takes it up again, otherwise as it was with all that goes into it, can keep the garbage of a failed build in between in an error-free build |
| Stale.GoingBackIsExact | UHF_GS_CSP-term software_22May2025/.waf-1.8.7-e6b2961ae4a2b8021fcc5c4bba50704b/waflib/Task.py:307-331 | going from one script to another and back is safe in every history exactly when no output goes back to a uid it had before |
| Interrupted.LostStoreGoesStale | UHF_GS_CSP-term software_22May2025/.waf-1.8.7-e6b2961ae4a2b8021fcc5c4bba50704b/waflib/Build.py:148-167 | a build; one after an edit of source and script, whose log is that of a run of the scheduler, for any `keep` and number of jobs, that comes to where "Deadlock detected" is raised, so that nothing is stored; and an error-free one after both edits are taken back, which keeps the output of the second |
| Worklist.RoundKeeps | UHF_GS_CSP-term software_22May2025/.waf-1.8.7-e6b2961ae4a2b8021fcc5c4bba50704b/waflib/TaskGen.py:83-97 | one round keeps the worklist invariant: a name waits or has been taken exactly when no remaining list mentions it, and all that list a taken name were taken before |
| Worklist.DrainSorts | UHF_GS_CSP-term software_22May2025/.waf-1.8.7-e6b2961ae4a2b8021fcc5c4bba50704b/waflib/TaskGen.py:83-99 | the worklist gets through every list if and only if the lists hold no cycle, and then takes every name, after all that list it, and once if no list repeats a name |
| Worklist.DrainTimes | UHF_GS_CSP-term software_22May2025/.waf-1.8.7-e6b2961ae4a2b8021fcc5c4bba50704b/waflib/TaskGen.py:83-97 | a name is taken as often as the worklist held it at the start, and once more for every time it is in the last dropped of the lists that mention it; the same loop is in Tools/ccroot.py |
| MethodOrder.TaskGen.Post | UHF_GS_CSP-term software_22May2025/.waf-1.8.7-e6b2961ae4a2b8021fcc5c4bba50704b/waflib/TaskGen.py:59-112 | posts once; raises exactly when the rules between the methods to call contain a cycle; otherwise, when no rule is there twice, `meths` holds each key once, after the keys it is ruled to follow, and the methods are called in that order up to one that is missing |
| MethodOrder.PostSorts | UHF_GS_CSP-term software_22May2025/.waf-1.8.7-e6b2961ae4a2b8021fcc5c4bba50704b/waflib/TaskGen.py:83-102 | a sound and complete search for cycles, and a topological sort when no rule is there twice, as none is that the decorators add |
| MethodOrder.RulesCycle | UHF_GS_CSP-term software_22May2025/.waf-1.8.7-e6b2961ae4a2b8021fcc5c4bba50704b/waflib/TaskGen.py:70-74 | restricting the rules to the keys keeps exactly the cycles among the keys |
| MethodOrder.PostIsDeterministic | UHF_GS_CSP-term software_22May2025/.waf-1.8.7-e6b2961ae4a2b8021fcc5c4bba50704b/waflib/TaskGen.py:75-101 | the order does not depend on how sets and tables are enumerated |
| MethodOrder.NoRulesByName | UHF_GS_CSP-term software_22May2025/.waf-1.8.7-e6b2961ae4a2b8021fcc5c4bba50704b/waflib/TaskGen.py:75-102 | where there are no rules the methods run by name |
| UseOrder.WalkIsReach | UHF_GS_CSP-term software_22May2025/.waf-1.8.7-e6b2961ae4a2b8021fcc5c4bba50704b/waflib/Tools/ccroot.py:119-151 | `use_rec` ends on cyclic graphs too and meets exactly the reachable target generators, each once, and the reachable other names, each becoming one external library |
| UseOrder.VisitWalks | UHF_GS_CSP-term software_22May2025/.waf-1.8.7-e6b2961ae4a2b8021fcc5c4bba50704b/waflib/Tools/ccroot.py:119-151 | after each visit all that a finished target uses is met and recorded, and nothing else is recorded |
| UseOrder.VisitDupFree | UHF_GS_CSP-term software_22May2025/.waf-1.8.7-e6b2961ae4a2b8021fcc5c4bba50704b/waflib/Tools/ccroot.py:144-151 | users are recorded once for each target when no target in reach lists a target twice |
| UseOrder.LinkSorts | UHF_GS_CSP-term software_22May2025/.waf-1.8.7-e6b2961ae4a2b8021fcc5c4bba50704b/waflib/Tools/ccroot.py:155-192 | `process_use` lists every reachable target with all it uses after each of its places, or finds a cycle, and it finds one exactly when there is one; when no target in reach lists a target twice, each is listed once |
| UseOrder.VisitTallies | UHF_GS_CSP-term software_22May2025/.waf-1.8.7-e6b2961ae4a2b8021fcc5c4bba50704b/waflib/Tools/ccroot.py:144-151 | a target met is on record for each name as often as its `use` list holds the name, whatever else is visited |
| UseOrder.ListedTimes | UHF_GS_CSP-term software_22May2025/.waf-1.8.7-e6b2961ae4a2b8021fcc5c4bba50704b/waflib/Tools/ccroot.py:155-192 | how often a target is listed: once if it uses no target, and otherwise as often as its `use` list holds that one of its targets whose record is drained last |
| UseOrder.Target.UseRec | UHF_GS_CSP-term software_22May2025/.waf-1.8.7-e6b2961ae4a2b8021fcc5c4bba50704b/waflib/Tools/ccroot.py:119-151 | the recursive method leaves the fields as the walk above says |
| UseOrder.Target.ProcessUse | UHF_GS_CSP-term software_22May2025/.waf-1.8.7-e6b2961ae4a2b8021fcc5c4bba50704b/waflib/Tools/ccroot.py:155-192 | the order or the cycle, in terms of the use graph alone |
| UseOrder.LooseKeepOrder | UHF_GS_CSP-term software_22May2025/.waf-1.8.7-e6b2961ae4a2b8021fcc5c4bba50704b/waflib/Tools/ccroot.py:162-192 | targets that use nothing stay in the order in which they are given |
| UseOrder.RepeatedUseListsTwice | UHF_GS_CSP-term software_22May2025/.waf-1.8.7-e6b2961ae4a2b8021fcc5c4bba50704b/waflib/Tools/ccroot.py:146-150 | a name repeated in a `use` list can make its user come out twice |
| UseOrder.RepeatedUseListsOnce | UHF_GS_CSP-term software_22May2025/.waf-1.8.7-e6b2961ae4a2b8021fcc5c4bba50704b/waflib/Tools/ccroot.py:146-150 | and need not: with another target used before the repeated one, everything comes out once |
| Preproc.Parser.Tryfind | UHF_GS_CSP-term software_22May2025/.waf-1.8.7-e6b2961ae4a2b8021fcc5c4bba50704b/waflib/Tools/c_preproc.py:477-493 | finds the file in the first of the current directory and the include paths that has it; unless it is banned it is recorded and opened, and otherwise the name is noted once; a file that cannot be read or is one too many leaves its directory behind |
| Preproc.Parser.Addlines | UHF_GS_CSP-term software_22May2025/.waf-1.8.7-e6b2961ae4a2b8021fcc5c4bba50704b/waflib/Tools/c_preproc.py:494-520 | raises exactly beyond the recursion limit or for an unreadable file; otherwise the lines and their end marker go on top of the stack |
| Preproc.Parser.Execute | UHF_GS_CSP-term software_22May2025/.waf-1.8.7-e6b2961ae4a2b8021fcc5c4bba50704b/waflib/Tools/c_preproc.py:546-596 | one line has the effect the step function gives, whatever the marks are, errors dropped |
| Preproc.Parser.Turn | UHF_GS_CSP-term software_22May2025/.waf-1.8.7-e6b2961ae4a2b8021fcc5c4bba50704b/waflib/Tools/c_preproc.py:537-545 | one round of the flat line stack leaves the same result to come as reading the files one inside the other, and uses up work |
| Preproc.Parser.Start | UHF_GS_CSP-term software_22May2025/.waf-1.8.7-e6b2961ae4a2b8021fcc5c4bba50704b/waflib/Tools/c_preproc.py:521-596 | for any files, well nested or not, the scan ends and does what reading each included file where it is included does |
| Conditionals.Idle | UHF_GS_CSP-term software_22May2025/.waf-1.8.7-e6b2961ae4a2b8021fcc5c4bba50704b/waflib/Tools/c_preproc.py:547-552 | a part under marks that ignore or skip has no effect and leaves the marks as they were |
| Conditionals.Agrees | UHF_GS_CSP-term software_22May2025/.waf-1.8.7-e6b2961ae4a2b8021fcc5c4bba50704b/waflib/Tools/c_preproc.py:546-596 | under marks that let lines through, a well-nested part has exactly its recursive meaning, marks restored |
| Conditionals.StackIsRecursion | UHF_GS_CSP-term software_22May2025/.waf-1.8.7-e6b2961ae4a2b8021fcc5c4bba50704b/waflib/Tools/c_preproc.py:521-596 | on well-nested files the stack machine performs exactly the defines, undefs, includes and bans of recursion over files and blocks, and ends with no mark left; a first condition that cannot be evaluated lets every arm through |
| Conditionals.ChoosesByName | UHF_GS_CSP-term software_22May2025/.waf-1.8.7-e6b2961ae4a2b8021fcc5c4bba50704b/waflib/Tools/c_preproc.py:558-565 | reading `#ifdef n`, body, `#else`, other, `#endif` is reading the body if `n` is defined and otherwise the other part; `#ifndef` is the reverse |
| Conditionals.ChoosesByValue | UHF_GS_CSP-term software_22May2025/.waf-1.8.7-e6b2961ae4a2b8021fcc5c4bba50704b/waflib/Tools/c_preproc.py:554-581 | `#if` and `#elif` take the first part whose condition holds, `#else` what is left; an `#elif` that cannot be evaluated does not hold, and when the `#if` cannot be every part is read |
| Conditionals.PlainLines | UHF_GS_CSP-term software_22May2025/.waf-1.8.7-e6b2961ae4a2b8021fcc5c4bba50704b/waflib/Tools/c_preproc.py:582-593 | `#define`, `#undef` and `#pragma once` change the definitions and the bans as said and nothing else |
| Conditionals.GuardKeepsOut | UHF_GS_CSP-term software_22May2025/.waf-1.8.7-e6b2961ae4a2b8021fcc5c4bba50704b/waflib/Tools/c_preproc.py:562-565 | a file behind an include guard that is already defined has no effect |
| Conditionals.IncludeReads | UHF_GS_CSP-term software_22May2025/.waf-1.8.7-e6b2961ae4a2b8021fcc5c4bba50704b/waflib/Tools/c_preproc.py:477-520 | a file that is found, not banned, readable and not nested too deep is recorded and read where it is included, with its own directory on the stack |
| Conditionals.IncludeStaysOut | UHF_GS_CSP-term software_22May2025/.waf-1.8.7-e6b2961ae4a2b8021fcc5c4bba50704b/waflib/Tools/c_preproc.py:488-493 | a banned file is not entered again; its name, like one that is not found, is noted once |
| Conditionals.OnceBansTheIncluded | UHF_GS_CSP-term software_22May2025/.waf-1.8.7-e6b2961ae4a2b8021fcc5c4bba50704b/waflib/Tools/c_preproc.py:591-593 | for any file that can be read: a `#pragma once` after its include bans the file looked for last, which is the included one if that includes nothing itself |
| Conditionals.UnreadableMovesOn | UHF_GS_CSP-term software_22May2025/.waf-1.8.7-e6b2961ae4a2b8021fcc5c4bba50704b/waflib/Tools/c_preproc.py:494-520 | after an unreadable file later names are looked up from its directory |
| PreprocExpr.CloseOf | UHF_GS_CSP-term software_22May2025/.waf-1.8.7-e6b2961ae4a2b8021fcc5c4bba50704b/waflib/Tools/c_preproc.py:94-108 | the first place where as many parentheses have been closed as opened, and none if and only if there is no such place |
| PreprocExpr.ColonOf | UHF_GS_CSP-term software_22May2025/.waf-1.8.7-e6b2961ae4a2b8021fcc5c4bba50704b/waflib/Tools/c_preproc.py:138-152 | the first colon before which as many parentheses have been closed as opened, and none if and only if there is none |
| PreprocExpr.Parenthesised | UHF_GS_CSP-term software_22May2025/.waf-1.8.7-e6b2961ae4a2b8021fcc5c4bba50704b/waflib/Tools/c_preproc.py:94-110 | a balanced group in parentheses is an operand with the value of what is inside |
| PreprocExpr.Conditional | UHF_GS_CSP-term software_22May2025/.waf-1.8.7-e6b2961ae4a2b8021fcc5c4bba50704b/waflib/Tools/c_preproc.py:138-157 | `v ? t : e` is `t` if `v` is not 0 and otherwise `e` |
| PreprocExpr.Calculates | UHF_GS_CSP-term software_22May2025/.waf-1.8.7-e6b2961ae4a2b8021fcc5c4bba50704b/waflib/Tools/c_preproc.py:62-88 | the value of two numbers with each arithmetic, comparing or logical operator between them |
| PreprocExpr.Divides | UHF_GS_CSP-term software_22May2025/.waf-1.8.7-e6b2961ae4a2b8021fcc5c4bba50704b/waflib/Tools/c_preproc.py:68-72 | quotient and remainder: rounded down, with the sign of the divisor; by zero an error |
| PreprocExpr.InFront | UHF_GS_CSP-term software_22May2025/.waf-1.8.7-e6b2961ae4a2b8021fcc5c4bba50704b/waflib/Tools/c_preproc.py:111-121 | the value of each operator in front of a number |
| PreprocExpr.LevelsAsListed | UHF_GS_CSP-term software_22May2025/.waf-1.8.7-e6b2961ae4a2b8021fcc5c4bba50704b/waflib/Tools/c_preproc.py:51-56 | an operator has the level of the row that lists it |
| PreprocExpr.SumsOfProducts | UHF_GS_CSP-term software_22May2025/.waf-1.8.7-e6b2961ae4a2b8021fcc5c4bba50704b/waflib/Tools/c_preproc.py:156-171 | `a + b * c`, `a * b + c` and `a - b - c` have their usual values |
| PreprocExpr.TermIs | UHF_GS_CSP-term software_22May2025/.waf-1.8.7-e6b2961ae4a2b8021fcc5c4bba50704b/waflib/Tools/c_preproc.py:129-173 | `get_term`, which always ends, has the value of the tree that folding two operators at a time builds, and raises when that does |
| PreprocExpr.FoldIsPrecedence | UHF_GS_CSP-term software_22May2025/.waf-1.8.7-e6b2961ae4a2b8021fcc5c4bba50704b/waflib/Tools/c_preproc.py:156-171 | that tree is the left-associative precedence tree if and only if no operator with a looser one somewhere before it is directly followed by a tighter one |
| PreprocExpr.TwoLevelsOrderly | UHF_GS_CSP-term software_22May2025/.waf-1.8.7-e6b2961ae4a2b8021fcc5c4bba50704b/waflib/Tools/c_preproc.py:51-56 | operators of at most two levels always meet the condition |
| PreprocExpr.ShapedIsPrecedence | UHF_GS_CSP-term software_22May2025/.waf-1.8.7-e6b2961ae4a2b8021fcc5c4bba50704b/waflib/Tools/c_preproc.py:51-56 | a tree with looser operators above tighter ones is the precedence tree of its operands and operators |
| PreprocExpr.ConditionIsPrecedence | UHF_GS_CSP-term software_22May2025/.waf-1.8.7-e6b2961ae4a2b8021fcc5c4bba50704b/waflib/Tools/c_preproc.py:89-173 | a condition all of whose groups, at any depth, meet it has the value, or the error, of its precedence tree |
| PreprocExpr.TwoLevelsIsPrecedence | UHF_GS_CSP-term software_22May2025/.waf-1.8.7-e6b2961ae4a2b8021fcc5c4bba50704b/waflib/Tools/c_preproc.py:51-173 | hence a condition whose operators come, in each group, from at most two levels has its precedence value |
| PreprocExpr.TrueComesOutFalse | UHF_GS_CSP-term software_22May2025/.waf-1.8.7-e6b2961ae4a2b8021fcc5c4bba50704b/waflib/Tools/c_preproc.py:156-171 | `1 && 2 == 1 * 2` comes out as 0 |
| PreprocExpr.AndIsNotOne | UHF_GS_CSP-term software_22May2025/.waf-1.8.7-e6b2961ae4a2b8021fcc5c4bba50704b/waflib/Tools/c_preproc.py:72-78 | `&&` and `\|\|` give one of their operands |
| Glob.DeepSkips | UHF_GS_CSP-term software_22May2025/.waf-1.8.7-e6b2961ae4a2b8021fcc5c4bba50704b/waflib/Node.py:321-335 | a `**` that is not the last part matches any number of names, the last one at least one |
| Glob.PlainFits | UHF_GS_CSP-term software_22May2025/.waf-1.8.7-e6b2961ae4a2b8021fcc5c4bba50704b/waflib/Node.py:321-335 | a pattern without `**` matches name by name |
| Glob.Filtre | UHF_GS_CSP-term software_22May2025/.waf-1.8.7-e6b2961ae4a2b8021fcc5c4bba50704b/waflib/Node.py:321-335 | what is left of every pattern after a name |
| Glob.FilteredFit | UHF_GS_CSP-term software_22May2025/.waf-1.8.7-e6b2961ae4a2b8021fcc5c4bba50704b/waflib/Node.py:321-335 | some pattern matches a path exactly when something left of them after its first name matches the rest |
| Glob.BarredAfter | UHF_GS_CSP-term software_22May2025/.waf-1.8.7-e6b2961ae4a2b8021fcc5c4bba50704b/waflib/Node.py:336-341 | a path is excluded at some part exactly when its first name is, or the rest is by what is left |
| Glob.WalkSelects | UHF_GS_CSP-term software_22May2025/.waf-1.8.7-e6b2961ae4a2b8021fcc5c4bba50704b/waflib/Node.py:264-293 | the walk yields exactly the wanted entries within the depth that an include pattern matches and no exclude pattern matches, themselves or a directory on the way: pruning loses nothing |
| Glob.WalkOnce | UHF_GS_CSP-term software_22May2025/.waf-1.8.7-e6b2961ae4a2b8021fcc5c4bba50704b/waflib/Node.py:264-293 | nothing is yielded twice |
| Glob.AntIter | UHF_GS_CSP-term software_22May2025/.waf-1.8.7-e6b2961ae4a2b8021fcc5c4bba50704b/waflib/Node.py:264-293 | the walk in order, directory before content |
| Glob.AntGlob | UHF_GS_CSP-term software_22May2025/.waf-1.8.7-e6b2961ae4a2b8021fcc5c4bba50704b/waflib/Node.py:294-345 | the result holds exactly the directories, if `dir` is set, and the other entries, if `src` is, that lie within the depth, fit an include pattern, and fit no exclude pattern themselves or by a directory on the way, each once |
| NodeTree.NewNode | UHF_GS_CSP-term software_22May2025/.waf-1.8.7-e6b2961ae4a2b8021fcc5c4bba50704b/waflib/Node.py:63-69 | a new node hangs on its parent under its name; a name the parent has already is an error and changes nothing |
| NodeTree.Height | UHF_GS_CSP-term software_22May2025/.waf-1.8.7-e6b2961ae4a2b8021fcc5c4bba50704b/waflib/Node.py:112-118 | the number of ancestors |
| NodeTree.IsChildOf | UHF_GS_CSP-term software_22May2025/.waf-1.8.7-e6b2961ae4a2b8021fcc5c4bba50704b/waflib/Node.py:257-263 | true exactly for the node itself and its ancestors |
| NodeTree.SearchNode | UHF_GS_CSP-term software_22May2025/.waf-1.8.7-e6b2961ae4a2b8021fcc5c4bba50704b/waflib/Node.py:195-207 | follows the parts of the path, `..` at the root staying there |
| NodeTree.PartsAre | UHF_GS_CSP-term software_22May2025/.waf-1.8.7-e6b2961ae4a2b8021fcc5c4bba50704b/waflib/Node.py:195-197 | the parts of a path text are the pieces between its slashes, in order, without empty ones and dots |
| NodeTree.MakeNode | UHF_GS_CSP-term software_22May2025/.waf-1.8.7-e6b2961ae4a2b8021fcc5c4bba50704b/waflib/Node.py:179-194 | for any list of parts, makes what is missing, keeps every child there was and the tree's invariant, and afterwards following the parts leads to the result |
| NodeTree.MakeNodeAt | UHF_GS_CSP-term software_22May2025/.waf-1.8.7-e6b2961ae4a2b8021fcc5c4bba50704b/waflib/Node.py:179-194 | with the text of a path, `search_node` with the same text leads to the result, and every name stays one that a path can have |
| NodeTree.PathFrom | UHF_GS_CSP-term software_22May2025/.waf-1.8.7-e6b2961ae4a2b8021fcc5c4bba50704b/waflib/Node.py:208-235 | the text of the way up to where the two lines of ancestors meet and down again, or from the root when they meet there |
| NodeTree.MeetIsLast | UHF_GS_CSP-term software_22May2025/.waf-1.8.7-e6b2961ae4a2b8021fcc5c4bba50704b/waflib/Node.py:208-228 | the two lines agree exactly down to where the cursors meet |
| NodeTree.RouteParts | UHF_GS_CSP-term software_22May2025/.waf-1.8.7-e6b2961ae4a2b8021fcc5c4bba50704b/waflib/Node.py:229-235 | splitting the text gives the parts of the way back |
| NodeTree.ResolvesBack | UHF_GS_CSP-term software_22May2025/.waf-1.8.7-e6b2961ae4a2b8021fcc5c4bba50704b/waflib/Node.py:195-235 | in a tree made from path texts `base.search_node(n.path_from(base))` is `n` if and only if they have more than the root in common or the base is the root |
| ConfigSet.Env.GetItem | UHF_GS_CSP-term software_22May2025/.waf-1.8.7-e6b2961ae4a2b8021fcc5c4bba50704b/waflib/ConfigSet.py:29-37 | the first value on the way up the chain |
| ConfigSet.Env.GetListForModification | UHF_GS_CSP-term software_22May2025/.waf-1.8.7-e6b2961ae4a2b8021fcc5c4bba50704b/waflib/ConfigSet.py:76-90 | the table's own list, or a new one with the items a parent has |
| ConfigSet.Env.AppendValue | UHF_GS_CSP-term software_22May2025/.waf-1.8.7-e6b2961ae4a2b8021fcc5c4bba50704b/waflib/ConfigSet.py:91-95 | extends that list, in place when it is the table's own |
| ConfigSet.Env.PrependValue | UHF_GS_CSP-term software_22May2025/.waf-1.8.7-e6b2961ae4a2b8021fcc5c4bba50704b/waflib/ConfigSet.py:96-99 | puts a new list with the items in front |
| ConfigSet.Env.AppendUnique | UHF_GS_CSP-term software_22May2025/.waf-1.8.7-e6b2961ae4a2b8021fcc5c4bba50704b/waflib/ConfigSet.py:100-106 | the items that were there stay in front; behind them come those of the given ones that were missing, each once, in the order in which they first come, and nothing else |
| ConfigSet.Env.Stash | UHF_GS_CSP-term software_22May2025/.waf-1.8.7-e6b2961ae4a2b8021fcc5c4bba50704b/waflib/ConfigSet.py:145-150 | same contents on copied lists, the old table on the stack |
| ConfigSet.Env.Revert | UHF_GS_CSP-term software_22May2025/.waf-1.8.7-e6b2961ae4a2b8021fcc5c4bba50704b/waflib/ConfigSet.py:151-152 | the last table comes back; without a stash of its own the nearest ancestor's stack is popped, and nothing at all stashed is an error |
| ConfigSet.OthersStay | UHF_GS_CSP-term software_22May2025/.waf-1.8.7-e6b2961ae4a2b8021fcc5c4bba50704b/waflib/ConfigSet.py:76-106 | lists made for one environment are nothing to any other |
| ConfigSet.Do | UHF_GS_CSP-term software_22May2025/.waf-1.8.7-e6b2961ae4a2b8021fcc5c4bba50704b/waflib/ConfigSet.py:38-152 | on a family of environments without shared lists an operation, storing a text or a list among them, has its effect on the one it is called on and on no other |
| ConfigSet.RunOps | UHF_GS_CSP-term software_22May2025/.waf-1.8.7-e6b2961ae4a2b8021fcc5c4bba50704b/waflib/ConfigSet.py:38-152 | the same for any sequence of operations that reverts no further than it stashed |
| ConfigSet.Isolation | UHF_GS_CSP-term software_22May2025/.waf-1.8.7-e6b2961ae4a2b8021fcc5c4bba50704b/waflib/ConfigSet.py:29-106 | no lookup through an environment that does not inherit from the one changed is affected |
| ConfigSet.StashRevert | UHF_GS_CSP-term software_22May2025/.waf-1.8.7-e6b2961ae4a2b8021fcc5c4bba50704b/waflib/ConfigSet.py:145-152 | a stash and its revert around any balanced sequence, nested stashes included, restore everything |
| ConfigSet.DerivedJoins | UHF_GS_CSP-term software_22May2025/.waf-1.8.7-e6b2961ae4a2b8021fcc5c4bba50704b/waflib/ConfigSet.py:57-60 | a derived environment looks like its parent and keeps the family free of sharing |
| ConfigSet.SharedListLeaks | UHF_GS_CSP-term software_22May2025/.waf-1.8.7-e6b2961ae4a2b8021fcc5c4bba50704b/waflib/ConfigSet.py:38-39 | a list stored in two environments shows appends through one in the other |
| Calendar.CountYears | UHF_GS_CSP-term software_22May2025/src/get_timestamp.c:77-87 | the loop ends with the year whose last second is not yet passed |
| Calendar.CountMonths | UHF_GS_CSP-term software_22May2025/src/get_timestamp.c:88-95 | the loop ends with such a month, never past the twelfth |
| Calendar.GetFormatTimestamp | UHF_GS_CSP-term software_22May2025/src/get_timestamp.c:58-103 | the fields of the instant, seconds wrapped to 32 bits first; past the wrap they are the negative parts C's division leaves |
| Calendar.SplitUnique | UHF_GS_CSP-term software_22May2025/src/get_timestamp.c:77-103 | instants and fields determine each other |
| Calendar.SplitIsFaithful | UHF_GS_CSP-term software_22May2025/src/get_timestamp.c:77-103 | no second is lost; the fields are the Gregorian date if and only if the instant is not the first second of a month after the first, and there the day is one past the end of the month before |
| Calendar.GregorianUnique | UHF_GS_CSP-term software_22May2025/src/get_timestamp.c:64-65 | an instant has one Gregorian date |
| Calendar.JulianStep | UHF_GS_CSP-term software_22May2025/src/predict.c:428-450 | the closed form grows from year to year by the days of the calendar year |
| Calendar.DOY | UHF_GS_CSP-term software_22May2025/src/predict.c:475-496 | days before the month plus the day |
| Calendar.LoopsAgree | UHF_GS_CSP-term software_22May2025/src/predict.c:428-508 | at every instant, those with one day too many included, the closed form on the fields the loops leave equals `daynum` plus the epoch |
| Calendar.Tracker.JulianDateBothWays | UHF_GS_CSP-term software_22May2025/src/predict.c:1238-1307 | the Julian date by loops and closed form is the `jul_utc` that `set_calc_time` and `Calc` come to |
| Printing.ReverseString | UHF_GS_CSP-term software_22May2025/src/itoa.c:97-109 | every character trades places with its mirror image |
| Printing.Itoa | UHF_GS_CSP-term software_22May2025/src/itoa.c:53-95 | the buffer holds the text of the number; the returned pointer is the buffer only for zero |
| Printing.PrintedIsNumeral | UHF_GS_CSP-term software_22May2025/src/itoa.c:53-95 | for a number that is not negative the text is the one numeral without leading zeros that reads back as the number |
| Printing.NegativePrinted | UHF_GS_CSP-term software_22May2025/src/itoa.c:53-95 | a negative number has a minus sign in base ten; in another base its digits are the characters as far below '0' as their values |
| Header.Padded | UHF_GS_CSP-term software_22May2025/src/generate_csp_header.c:80-126 | zeros up to the width, then the text |
| Header.PrintedBits | UHF_GS_CSP-term software_22May2025/src/generate_csp_header.c:62-126 | the padded text of a number that fits is its bits |
| Header.GenerateBits | UHF_GS_CSP-term software_22May2025/src/generate_csp_header.c:60-129 | the 32 characters are priority, source, destination, destination port, source port and flags in bits |
| Header.FillHeader | UHF_GS_CSP-term software_22May2025/src/receive_packet.c:65-71 | for addresses below 32 and ports below 64 the first four bytes spell the number whose bits the header text shows, and the decoder finds both addresses and both ports in them |
| Header.TextIsBytes | UHF_GS_CSP-term software_22May2025/src/receive_packet.c:66-69 | text and bytes are the same 32 bits, and the text read in base two is the number the four bytes spell |
| Header.DecodeRecovers | UHF_GS_CSP-term software_22May2025/src/process_mcs_file.c:61-74 | decoding gives back the low bits of every field, hence every address below 32 and port below 64, and the lower byte of the length |
| Position.Compress | UHF_GS_CSP-term software_22May2025/clients/gatoss-uc/gatoss_common.c:13-28 | the seven bytes of the rounded and masked numbers |
| Position.OneNumber | UHF_GS_CSP-term software_22May2025/clients/gatoss-uc/gatoss_common.c:13-28 | the seven bytes are the 23, 22 and 11 bits side by side, the highest first |
| Position.Decompress | UHF_GS_CSP-term software_22May2025/clients/gatoss-uc/gatoss_common.c:30-41 | the position a code stands for |
| Position.ErrorBound | UHF_GS_CSP-term software_22May2025/clients/gatoss-uc/gatoss_common.c:13-41 | there and back an angle is off by at most 1/46600 degree, and the altitude is rounded down to a multiple of 25 |
| Position.BoundIsReached | UHF_GS_CSP-term software_22May2025/clients/gatoss-uc/gatoss_common.c:15-16 | the bound is attained |
| Position.CodesComeBack | UHF_GS_CSP-term software_22May2025/clients/gatoss-uc/gatoss_common.c:13-41 | compressing the position of any 56-bit code gives the code back |

## Left out

- Scheduler: tasks are numbers with their attributes in maps; `total`, `dirty` and `position` are display only; `free_task_pool`, and with it everything after line 200 of Runner.py, is not modelled.
- Scheduler: `more_tasks` and the constraints of a group are fixed by the plan before the build; `get_targets`, lazy posting and the three post modes of the iterator are not modelled.
- Deadlock.Outcome: with `more_tasks`, whether a wait for a task of a later group ends in a report is left open: it depends on whether an answer brings that group in together with tasks still to come.
- Incremental.IncrementalEqualsClean: assumes an injective hash, commands that are functions of code, variables and dependency contents, one output per task, the same build directory throughout, no output that goes back to a uid it had before, no writes from outside to outputs whose signature is stored, every build ending in `store`, and, in builds that are not error-free, no command ending well on the output of a failed one. Whether a return to an old uid does harm depends on what else has changed: it is shown to when the task and all that goes into it are as they were.
- Races.IncrementalExactlyAlone: the exact condition on `keep` and the number of jobs is given for a group of one producer and one consumer. For other scripts it is sufficient; that what it prevents does harm is shown for all of them, but not that every other setting lets it happen.
- Signatures.BuildState.ComputeSignature: leaves out the branch for tasks with a `scan` method.
- Signatures.BuildState.RunnableStatus: one output per task, and no `TaskNotReady`, which only scanning raises.
- Signatures: implicit dependencies (`scan`, `sig_implicit_deps`, TaskNotReady), `deps_man`, several outputs per task, `update_outputs`, a build directory equal to the source directory, and the pickle format.
- Hash of constraints and of environment variables: taken to be injective, so equal hashes mean equal attributes.
- MethodOrder.TaskGen.Post: a method name is its rank in string order; warnings and log output are left out, and a method that changes `meths` while it is called.
- UseOrder.Target.ProcessUse: the link flags set on each library (`tmp_use_var`, `tmp_use_stlib`) and everything after the reversal; `use` lists are those the targets have once posted.
- Preproc: comment removal, tokenising and macro expansion, so that the value of a condition and the name in an include line are what the surroundings say; `curfile`, which is never read; a file that is read but fails to split into lines; debug output.
- PreprocExpr.ConditionIsPrecedence: conditions with a comma or `?:` at the level of a group are evaluated by `GetTerm` but not compared with a tree; numbers are integers, and bitwise operators are a parameter.
- Glob: the translation of pattern text to parts (`to_pat`), eviction of vanished nodes, symbolic links; two `**` in a row, on which the code raises.
- NodeTree: files on disk (`find_node`, `mkdir`), Windows and Cygwin separators, `abspath`.
- ConfigSet: values other than text and lists of text, `None` among them; `detach`, `load`, `store`. The deep copy of the undo stack itself, whose copies never become current, is not made.
- ConfigSet.Env.Revert: what a table taken from an ancestor's stack does to isolation afterwards is not followed.
- Calendar: real numbers instead of doubles; the text produced by `sprintf` and the durations printed for other base years.
- Header: the hexadecimal output after line 129 of generate_csp_header.c, where the value is narrowed to a `char`; decimal text of decoded fields.
- Header.GenerateBits: needs addresses below 32 and ports below 64, since the padding loops do not end otherwise.
- Position: timestamps and their byte order (csp_hton32 is not part of this model); real numbers instead of doubles.
- Everything else is input and output, tables, or floating-point orbit computation: sockets, console commands, serial lines, SGP4, compiler and language tools of Waf.
