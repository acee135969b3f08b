# Verification of Spark Serve's workload ownership and capacity evidence

This project models, in Dafny, the parts of the repository whose properties span many
calls, processes or samples, and proves those properties.

**Workload ownership on two nodes.** `NodeFence.dfy` is the fencing protocol of the nodes:
commands that arrive late or never, child processes that outlive their parents, controllers
that die, and the capacity lease that takes the same lock. `Controller.dfy` is the controller
itself, a class whose methods follow `switch` and `reconcile_unreachable`; every remote call
may fail and every answer is arbitrary. Its effects go into a log that must obey the rules of
`TransitionLog.dfy`, where the ordering results are proved for every accepted log and every
prefix of one. `Ownership.dfy` holds the node records. `Benchmarks.dfy` is benchmark admission
against revocation, and `CapacityLease.dfy` the lease with any number of interleaved Docker jobs; `Readmission.dfy` joins
it with the node protocol.

**The AMD pair.** `StrixPair.dfy` follows `_pair`, `up` and `stop` over two boxes.

**The experiment and its evidence.** `Dispatcher.dfy` and `TrialOrder.dfy` cover the bounded
dispatcher and the order of levels. `Tilings.dfy`, `Intervals.dfy`, `Events.dfy` and `Sweeps.dfy`
give the two sweeps their pointwise meaning; `Coverage.dfy` measures a union of intervals;
`Throttle.dfy` compares online counter deltas with the offline account. `Trials.dfy`, `Figures.dfy`,
`Cohorts.dfy`, `NodeWindows.dfy` and `Verdict.dfy` follow the analysis from job rows to the
verdict: each check is proved equivalent to what it means, so both a verdict that is too bold and
one that is too shy would fail. `FasterRun.dfy` gives runs that falsify.

**Two small cores.** `E4M3.dfy` and `ScaleCorrection.dfy` are the scale correction over the whole E4M3
grid, and `Framing.dfy` the line reader of the app. `Plays.dfy`, `Sorting.dfy`, `Issues.dfy` and
`Wrappers.dfy` are shared by the others.

Imperative code is modelled by methods with loops, by classes where the source keeps an object,
and by step protocols where processes interleave. Times and rates are reals. Generation tokens
are natural numbers that are never reused; in the source they are random UUIDs. Run
`dafny verify dfyconfig.toml` to check everything.

Results worth knowing:

- The fencing guarantee is about the commands that wait for the acknowledgement of every
  selected node: container removals, restarts, admits and launches. A drain waits for nothing,
  and an old one can still run after a newer fence when the old fence lands late
  (`NodeFence.LateFenceRevivesDrain`).
- Benchmark exclusion can fail only through one step: a scan that finds the lease of a live
  client unreadable and replaces it by one that lacks some of the client's hosts
  (`Benchmarks.DamagedLeaseEscapes`). It holds in every run without that step, so in every run in
  which no lease file is damaged while its client holds its lock. Atomic replacement, which the
  source uses, never damages one, and files left over from earlier runs may hold anything.
- A trial can be complete although its overlap is unknown; the verdict still requires the overlap,
  because a cohort with an unknown overlap is never clean.
- With `max_latency_ratio` below 1 the baseline itself is not eligible, so a cohort can recommend
  a higher level without comparing it to an eligible C1. `Cohorts.BestIsHigher` states this case.
- The checks on the evidence do not rule out falsification: any run of four plain trials in which
  C2 takes half the time of C1 falsifies the hypothesis (`FasterRun.TwiceAsFastFalsifies`).

## Model

| member | source | states |
|---|---|---|
| `NodeFence.FencingSafety` | spark_serve_controller.py:116-162 | In every state of every execution, once the fence of a later transition has run on a node, no command that an earlier transition issued after its acknowledgements (removal, restart, admit or launch) runs there, with or without its parent process |
| `NodeFence.NoStaleCommandStarts` | spark_serve_controller.py:116-162 | Nor does such a command start: the only step that starts one is the token check, and then no later fence has run |
| `NodeFence.InvariantHolds` | spark_serve_controller.py:116-162 | The protocol invariant holds in every reachable state, over all delays, losses, kills and controller deaths |
| `NodeFence.StepKeepsFits` | spark_serve_controller.py:116-162 | Every step keeps: what runs or leases on a node matches the node's fence, tokens and ids are fresh |
| `NodeFence.StepKeepsFencesOnce` | spark_serve_controller.py:569-580 | Every step keeps: a pending fence has not run yet and is pending only once |
| `NodeFence.StepKeepsController` | spark_serve_controller.py:913-925 | Every step keeps: the running transition has the newest token, and its acknowledged fences have run |
| `NodeFence.StepKeepsConfirmed` | spark_serve_controller.py:925-931 | Every step keeps: a command that waits for acknowledgements was issued after its own fence ran, and a later fence makes its token unusable for good |
| `NodeFence.FenceKeepsConfirmed` | spark_serve_controller.py:569-580 | Writing a fence, however late, makes no token of a superseded waiting command current again |
| `NodeFence.IssueKeepsConfirmed` | spark_serve_controller.py:925-931 | A command that waits for acknowledgements is issued only after its own fence ran |
| `NodeFence.LeaseAdmitsOwnFence` | spark_bench/runtime.py:136-161 | The lease admits with the generation it read when it took the node lock, and that is still the node's fence |
| `NodeFence.LeaseHolds` | spark_bench/runtime.py:64-116 | A lease that holds the lock took it earlier, read the fence of that moment, and has not ended since |
| `NodeFence.LeaseKeepsGeneration` | spark_bench/runtime.py:64-161 | From taking the node lock until its release, the node's fence is the generation the lease read at entry |
| `NodeFence.PlayIsExecution` | spark_serve_controller.py:116-162 | A played step list is an execution of the protocol, so a witness built with it is a reachable run |
| `NodeFence.LateFenceRevivesDrain` | spark_serve_controller.py:569-580 | Witness: a late old fence lets an old drain run after a newer fence, so the safety result needs launches to wait for acknowledgements |
| `Ownership.RewritePhaseKeepsUnsplit` | spark_serve_controller.py:388-409 | Rewriting a selection that splits no allocation, without changing mode or hosts, keeps every two-host allocation described once |
| `Ownership.RewriteIdleKeepsUnsplit` | spark_serve_controller.py:388-409 | Rewriting a whole selection to idle leaves no spanning record behind |
| `Ownership.RewriteBothKeepsSame` | spark_serve_controller.py:388-409 | The same fields written to two equal descriptions leave them equal |
| `TransitionLog.EverySaveUnsplit` | spark_serve_controller.py:471-473 | Every persisted state describes a two-host allocation the same way on both hosts, or not at all |
| `TransitionLog.PersistedUnsplit` | spark_serve_controller.py:171-188 | What is on disk after any prefix of an accepted log is unsplit: a crash is a cut between atomic saves |
| `TransitionLog.PersistedAtHome` | spark_serve_controller.py:867-875 | A worker receipt is persisted only in the record of its own host |
| `TransitionLog.RemovalFollowsDrain` | spark_serve_controller.py:925-933 | An owned container is removed only after every selected host of that transition acknowledged its fence and was drained: it closed admission or has no factory, and in that reply or a later status of the same pass no job was active |
| `TransitionLog.ServiceStopFollowsDrain` | spark_serve_controller.py:721-787 | A factory service is stopped only after every selected host was drained in that same pass, and the pass belongs to that transition |
| `TransitionLog.PassAlwaysFits` | spark_serve_controller.py:721-731 | Before the first pass of a transition no host was asked, closed or resolved |
| `TransitionLog.ResolvedIsDrained` | spark_serve_controller.py:733-760 | A host resolved in the latest pass counts as drained in its transition |
| `TransitionLog.StartFollowsFenceAndIdle` | spark_serve_controller.py:925-962 | Nothing is started or admitted before every selected host acknowledged its fence and passed the idle audit after the last removal, and never during failure cleanup |
| `TransitionLog.CancelOnlyOnRequest` | spark_serve_controller.py:736-760 | A job is cancelled only when the transition was told to cancel jobs, and never by failure cleanup |
| `TransitionLog.PublishesOnlyReady` | spark_serve_controller.py:475-494 | Every write of the discovery file lists receipts that are persisted as ready, of distinct hosts and workers, all with the file's own generation |
| `TransitionLog.WithdrawnBeforeFence` | spark_serve_controller.py:917-925 | A discovery write made before the transition's first fence lists no selected host |
| `TransitionLog.FenceFollowsWithdrawal` | spark_serve_controller.py:924-925 | A fence is sent only after the transition has rewritten the discovery file |
| `TransitionLog.PersistedIsOnDisk` | spark_serve_controller.py:471-473 | The observer's persisted records are the last save in the log, or the first state before any save |
| `TransitionLog.AcceptedPrefix` | spark_serve_controller.py:171-188 | Every prefix of an accepted log is accepted, so all log results hold for crashed runs |
| `TransitionLog.AllowedAt` | spark_serve_controller.py:905-1010 | Acceptance, event by event: each event was allowed where it stands |
| `TransitionLog.AcceptedExtends` | spark_serve_controller.py:905-1010 | Appending an allowed event keeps a log accepted and the observer exact |
| `TransitionLog.TokensGrow` | spark_serve_controller.py:913-914 | Generation tokens only grow along a log |
| `Controllers.Session` | spark_serve_controller.py:882-1053 | Any sequence of switches and reconciliations, with failures at any call and crashes after any event, leaves an accepted log and unsplit records on disk |
| `Controllers.Controller.constructor` | spark_serve_controller.py:315-323 | A new controller starts from the saved records with an empty log |
| `Controllers.Controller.Switch` | spark_serve_controller.py:882-1010 | Refusals change nothing; a one-host request on a member of a spanning allocation is refused; other hosts' records stay; success leaves exactly the requested records with a fresh token, failure marks the selection failed |
| `Controllers.Controller.CheckScope` | spark_serve_controller.py:411-454 | A selection that passes splits no recorded allocation |
| `Controllers.Controller.Operate` | spark_serve_controller.py:911-1010 | Runs one transition under a fresh token and clears the operation fields however it ends |
| `Controllers.SelectHosts` | spark_serve_controller.py:883-890 | Accepts exactly non-empty duplicate-free host lists and keeps their set, in catalog order |
| `Controllers.RecordsAllowWhole` | spark_serve_controller.py:411-428 | Records that allow a one-host operation describe no spanning allocation |
| `Controllers.Controller.FenceNodes` | spark_serve_controller.py:569-580 | Every selected host is sent its fence whatever fails; without failure all of them have acknowledged |
| `Controllers.Controller.StopYue` | spark_serve_controller.py:721-787 | Every selected host is asked to drain whatever fails; normal return means each closed admission and has no unresolved job in this pass; cancels only when asked |
| `Controllers.Controller.DrainAll` | spark_serve_controller.py:722-731 | A new pass in which every host is asked, even when one is unreachable; normal return means every reply is known and recorded |
| `Controllers.Controller.DrainEach` | spark_serve_controller.py:722-731 | Within one pass every host is asked, and each reply is recorded exactly as it closes admission or resolves the host |
| `Controllers.Controller.Drain` | spark_serve_controller.py:725-729 | One drain request; the host closes or resolves exactly as its reply says, and not without one |
| `Controllers.Controller.ResolveJobs` | spark_serve_controller.py:732-766 | Normal return means every host closed admission and has no active job, after at most a requested cancel |
| `Controllers.Controller.ResolveJob` | spark_serve_controller.py:733-760 | A job is resolved only when admission is closed and nothing is active; a host that had a job was told to cancel it, on request, and answered a fresh status |
| `Controllers.Controller.StopServices` | spark_serve_controller.py:767-787 | Normal return means the service of every installed host was stopped; nothing else changes |
| `Controllers.Controller.StopVllm` | spark_serve_controller.py:672-692 | Audits before it removes; it may be called only once all selected hosts acknowledged their fence and were drained |
| `Controllers.Controller.StopOwned` | spark_serve_controller.py:672-692 | One host: owned containers are removed when an audit finds them, and audited again; success means none is left |
| `Controllers.Controller.Audit` | spark_serve_controller.py:622-657 | One audit request is sent; an unreachable host gives no answer and nothing else changes |
| `Controllers.Controller.VerifyHostIdle` | spark_serve_controller.py:698-712 | Success puts the host among those audited idle |
| `Controllers.Controller.VerifyIdle` | spark_serve_controller.py:694-696 | Success means every selected host is audited idle |
| `Controllers.Controller.Save` | spark_serve_controller.py:471-473 | Memory and disk agree after a save, and only an allowed record map is saved |
| `Controllers.Controller.SaveSelected` | spark_serve_controller.py:388-409 | Rewrites exactly the records of the given hosts with the given fields |
| `Controllers.Controller.Revoke` | spark_serve_controller.py:475-494 | Publishes only ready receipts of hosts outside the operation, or fails when their generations disagree |
| `Controllers.Controller.Empty` | spark_serve_controller.py:917-935 | Success leaves the whole selection drained, fenced, audited idle and recorded idle, with nothing started |
| `Controllers.Controller.Withdraw` | spark_serve_controller.py:917-924 | Records the selection as draining and then withdraws its discovery entries |
| `Controllers.Controller.FenceAndDrain` | spark_serve_controller.py:925-931 | Every selected host is fenced and asked to drain whatever fails; success means all acknowledged their fence, closed admission and have no unresolved job |
| `Controllers.Controller.Vacate` | spark_serve_controller.py:932-934 | Records stopping, removes owned containers, audits: success means every selected host is idle |
| `Controllers.Controller.MarkStopped` | spark_serve_controller.py:935 | Records the idle selection as stopped, with no allocation, worker or container |
| `Controllers.Controller.StartYue` | spark_serve_controller.py:806-880 | Success persists both workers ready with this generation and distinct ids; failure changes no record |
| `Controllers.Controller.AdmitAll` | spark_serve_controller.py:806-859 | Success gives one receipt per host, all with this generation, after both were started and admitted |
| `Controllers.Controller.AdmitWorker` | spark_serve_controller.py:808-852 | A receipt is given only for a restarted, admitted worker and carries this host and generation |
| `Controllers.Controller.PublishYue` | spark_serve_controller.py:864-879 | Receipts are persisted before they are published |
| `Controllers.Controller.Start` | spark_serve_controller.py:940-987 | Success reaches the records the target asks for; the selection stays whole whatever happens |
| `Controllers.Controller.BeginYue` | spark_serve_controller.py:940-960 | Marks both hosts as starting and then starts both workers; on failure that starting record is what stays |
| `Controllers.Controller.BeginLaunch` | spark_serve_controller.py:940-945 | All launch hosts record the same starting allocation under this generation |
| `Controllers.StartingRewrite` | spark_serve_controller.py:940-945 | Marking the launch hosts as starting leaves the records unsplit |
| `Controllers.Controller.LaunchModel` | spark_serve_controller.py:962-987 | Success leaves every launch host's record running the model under one allocation; no allocation is split on failure |
| `Controllers.Controller.SendLaunch` | spark_serve_controller.py:962 | Launch commands go only to hosts of an idle, fenced selection |
| `Controllers.Controller.RecordReceipt` | spark_serve_controller.py:963-979 | Invalid receipts are refused; a valid one is stored without splitting the allocation |
| `Controllers.Controller.StoreReceipt` | spark_serve_controller.py:975-979 | Stores each launch host's container and the served name, and nothing else |
| `Controllers.StoringIsAllowed` | spark_serve_controller.py:975-979 | Storing receipts on equal launch records is an allowed save |
| `Controllers.ContainersKeepLaunch` | spark_serve_controller.py:975-979 | Storing container receipts keeps the launch records equal |
| `Controllers.Controller.SaveRunning` | spark_serve_controller.py:980-987 | The final record of the launch hosts is the same on all of them |
| `Controllers.LaunchRewrite` | spark_serve_controller.py:980-987 | Rewriting the launch hosts alike keeps records unsplit |
| `Controllers.Controller.Transition` | spark_serve_controller.py:916-1010 | The try block with its handler: reaches the target or marks the whole selection failed |
| `Controllers.Controller.CleanUp` | spark_serve_controller.py:988-1006 | Failure cleanup attempts every step, leaves the selection failed and other records alone |
| `Controllers.Controller.RecordFailure` | spark_serve_controller.py:1005 | The whole selection is recorded as failed with its error and cleanup errors, and nothing else changes |
| `Controllers.Controller.Undo` | spark_serve_controller.py:991-1004 | After a partial start every host is asked to drain again and the container removal is tried, whatever failed before, without cancelling a job |
| `Controllers.Controller.StopPartial` | spark_serve_controller.py:996-1004 | Both steps of stopping a partial start are attempted, with cancellation off, whatever the first does |
| `Controllers.Controller.ReconcileUnreachable` | spark_serve_controller.py:1012-1053 | Clears exactly the failed idle records whose host was never reached and now passes the audit |
| `Controllers.ClearedKeepsUnsplit` | spark_serve_controller.py:1034-1042 | Clearing such records splits no allocation |
| `Controllers.Controller.Crash` | spark_serve_controller.py:171-188 | After a crash at any event the next controller continues from the records on disk then, with an accepted log |
| `Benchmarks.TransitionExcludesBenchmarks` | spark_serve_benchmarks.py:107-145 | Unless a scan replaces the unreadable lease of a live client by one that lacks some of its hosts, from the return of revoke_benchmarks until the transition drops the controller lock no client occupies its hosts |
| `Benchmarks.NoLiveDamageIsEnough` | spark_serve_benchmarks.py:124-129 | So it is in every run in which no lease file is damaged while its client holds its lock, whatever happens to the files of clients that are gone |
| `Benchmarks.UndamagedIsNotNarrowed` | spark_serve_benchmarks.py:124-129 | Without such damage the lease of every live client stays readable, so no scan replaces it |
| `Benchmarks.StepKeepsReadable` | spark_serve_benchmarks.py:380-409 | Every other step keeps the leases of live clients readable |
| `Benchmarks.InvariantHolds` | spark_serve_benchmarks.py:107-145 | The admission invariant holds in every reachable state as long as no live lease was narrowed |
| `Benchmarks.StepKeepsInv` | spark_serve_benchmarks.py:380-409 | Every step that narrows no live lease keeps: a running client's readable lease names its hosts and any revoker of them still scans or waits for it |
| `Benchmarks.WaitedClientCanFinish` | spark_serve_benchmarks.py:429-440 | A client a revoker waits for can send nothing new and reaches lock release by its own steps alone, so the wait is not circular |
| `Benchmarks.FinishedFreesLock` | spark_serve_benchmarks.py:515-523 | Answering what was sent and stopping releases the lease lock and leaves holder and files alone |
| `Benchmarks.DamagedLeaseEscapes` | spark_serve_benchmarks.py:124-129 | Witness: after a live lease file was damaged, a revoker that replaced it timed out, and a second revoker of another of its hosts begins while the client still runs |
| `CapacityLease.ReadmissionIsSound` | spark_bench/runtime.py:136-161 | admit is called only with the generation read at entry, after every job ended with its container seen absent, and then no container of the lease exists |
| `CapacityLease.InvariantHolds` | spark_bench/runtime.py:64-161 | The lease invariant holds in every reachable state for any number of interleaved jobs and Docker failures |
| `CapacityLease.StepKeepsInv` | spark_bench/runtime.py:173-323 | Every step of lease, jobs and Docker keeps the invariant |
| `CapacityLease.UncleanStaysDrained` | spark_bench/runtime.py:154-158 | Once cleanup is unverified the worker stays drained for good |
| `Readmission.AdmitsUnderOwnFence` | spark_bench/runtime.py:64-161 | Joined with the node protocol: the lease admits with the fence its node has at that moment, which is the generation it entered with, and leaves no container behind |
| `StrixPair.Session` | spark_serve_strix.py:523-622 | Over any sequence of up and stop, each failing at any call, from any exclusive start: in every state a box running the cluster is alone; and if pinned boxes run no engine at the start, no pinned box is ever sent a command |
| `StrixPair.PairUp` | spark_serve_strix.py:414-435 | The roles after pairing are exactly: master by its own report, worker by the other's mastery or a live RPC client, none otherwise |
| `StrixPair.MarkMasters` | spark_serve_strix.py:419-421 | Marks exactly the boxes that report a starting or ready cluster |
| `StrixPair.MarkTheirWorkers` | spark_serve_strix.py:422-425 | Marks the peer of each master unless it has a role |
| `StrixPair.MarkClients` | spark_serve_strix.py:426-429 | Marks a box without a role whose RPC worker is in use |
| `StrixPair.Site.Ctl` | spark_serve_strix.py:159-177 | A command changes only its own box and, when it succeeds, has its effect; a failed one may have had part of it |
| `StrixPair.Site.Probe` | spark_serve_strix.py:374-411 | A reachable box reports what it runs and whether a master holds its RPC worker |
| `StrixPair.Site.Status` | spark_serve_strix.py:451-475 | What a pair of reports still guarantees after both boxes were read and engines may have exited |
| `StrixPair.Site.WaitReady` | spark_serve_strix.py:497-520 | Success means the box served the wanted model at some moment of the wait |
| `StrixPair.Site.Up` | spark_serve_strix.py:523-592 | Success means the chosen box served the model; exclusivity and pins hold in every state on the way |
| `StrixPair.Site.UpCluster` | spark_serve_strix.py:558-580 | Sends nothing when the box already serves the model as master, else a stop to the other box exactly when it seems busy and then the cluster start; a failed call has sent a prefix of this, and a successful start leaves the cluster on the box and nothing on the other |
| `StrixPair.Site.UpSolo` | spark_serve_strix.py:581-591 | Stops the cluster that uses the box as worker first and then starts the engine; a failed call has sent a prefix of this, and success leaves the engine on the box and no cluster on the other |
| `StrixPair.Site.Stop` | spark_serve_strix.py:595-622 | Sends only stops; success leaves the asked box, if it is not pinned, or every box that is not pinned without an engine |
| `StrixPair.Site.StopAll` | spark_serve_strix.py:611-621 | Success leaves every target without an engine; pinned boxes are sent nothing and only stops are sent |
| `Dispatcher.Run.Execute` | spark_bench/experiment.py:155-266 | On return every job has exactly one record, launched exactly for the submitted prefix; when it raises, the trial is written as stopped with at most one record a job; at no point were more than the limit in flight or a job submitted after a stop was seen |
| `Dispatcher.DisciplineMeans` | spark_bench/experiment.py:231-234 | Submissions come in job order, never above the limit in flight, never after a stop was observed |
| `Dispatcher.RecordsCount` | spark_bench/experiment.py:253-257 | One record for each job means as many records as jobs |
| `Dispatcher.Run.SubmitMore` | spark_bench/experiment.py:231-234 | The next jobs in order join the pending ones, until all are submitted, every slot is taken, or a stop is seen |
| `Dispatcher.Run.Launch` | spark_bench/experiment.py:231-234 | Submits the next job within the limit and before any stop |
| `Dispatcher.Run.Collect` | spark_bench/experiment.py:238-252 | A finished job leaves the pending set with one record; the stop is raised exactly for an exception, OOM or timeout |
| `Dispatcher.Run.CollectDone` | spark_bench/experiment.py:238-252 | Exactly the done futures are collected; a record that cannot be written raises the stop |
| `Dispatcher.Run.Guard` | spark_bench/experiment.py:185-230 | A guard reason or unwritable evidence raises the stop, and nothing else does; unwritable evidence raises |
| `Dispatcher.Run.ObserveStop` | spark_bench/experiment.py:231 | A stop that is seen is recorded; one that is set is never unset |
| `Dispatcher.Run.Turn` | spark_bench/experiment.py:183-252 | One turn keeps the books; the loop ends with nothing pending and all submitted or stopped, and a turn that raises has raised the stop first |
| `Dispatcher.Run.RecordCancelled` | spark_bench/experiment.py:253-257 | One more unsubmitted job gets its cancelled record |
| `Dispatcher.Run.RecordUnlaunched` | spark_bench/experiment.py:253-257 | Exactly the unsubmitted suffix is recorded as cancelled and never launched; a write that fails raises the stop |
| `TrialOrder.BalancedOverBlock` | spark_bench/experiment.py:134-140 | Over any 2n rounds starting at a multiple of 2n each level stands at each position exactly twice, once in a forward and once in a backward round |
| `TrialOrder.RoundIsPermutation` | spark_bench/experiment.py:134-140 | Every round runs every level as often as it is listed |
| `TrialOrder.Order` | spark_bench/experiment.py:134-140 | The nested loops yield the rounds of the schedule in order, each numbered |
| `TrialOrder.YieldRound` | spark_bench/experiment.py:139-140 | The inner loop numbers one round's levels in order |
| `TrialOrder.ScheduleAt` | spark_bench/experiment.py:134-140 | Entry r * n + p of the whole order is round r's level at position p |
| `TrialOrder.StandsAt` | spark_bench/experiment.py:136-138 | A level stands at a position in a round of a block exactly for its two turns |
| `Sweeps.Overlap` | spark_bench/analysis.py:80-97 | The result is the greatest number of half-open intervals that share an instant; censored counts the jobs that never finished |
| `Sweeps.OverlapEvents` | spark_bench/analysis.py:81-91 | The event list changes by one and counts, at every instant, the intervals open there |
| `Sweeps.MaximumActive` | spark_bench/analysis.py:92-97 | The running maximum over sorted events, finishes first, is the greatest depth |
| `Sweeps.PrefixMaximumIsDepth` | spark_bench/analysis.py:92-97 | With finishes before starts at equal times, the greatest prefix count is a depth that occurs and no depth exceeds it |
| `Sweeps.InferenceOccupancy` | spark_bench/analysis.py:118-140 | Available exactly for complete proper intervals; then dwell[k] is the time at which exactly k run, window is last finish minus first start and job seconds the sum of durations |
| `Sweeps.OccupancyEvents` | spark_bench/analysis.py:118-131 | Events per distinct time represent the intervals, unless some interval is missing |
| `Sweeps.SweepDwell` | spark_bench/analysis.py:131-140 | The sweep's dwell map is the pointwise occupancy of the intervals |
| `Sweeps.EndOfSweep` | spark_bench/analysis.py:103-140 | Dwell sums to the window, level-weighted dwell to the job seconds, and the running count ends at zero |
| `Sweeps.CountIsDepth` | spark_bench/analysis.py:132-139 | The running count at an event equals the depth there: never negative, never above the number of jobs |
| `Sweeps.OverlapIsTopLevel` | spark_bench/analysis.py:80-140 | Run on the same jobs: where an occupancy is available, the greatest overlap is the largest level with positive dwell |
| `Sweeps.SameIntervals` | spark_bench/analysis.py:80-131 | For jobs that all have a proper interval the two sweeps consider the same intervals, and none is censored |
| `Coverage.CoveredTime` | spark_bench/analysis.py:220-227 | The loop computes the exact length of the union of the clipped half-interval supports |
| `Coverage.MetricCoverage` | spark_bench/analysis.py:208-240 | A metric is sufficient exactly when time never stands still and its valid offsets cover the fraction, are enough and leave no long gap |
| `Coverage.Judge` | spark_bench/analysis.py:220-240 | The verdict on one metric's offsets is exactly soundness of their coverage |
| `Coverage.ValidOffsets` | spark_bench/analysis.py:210-219 | The offsets are the distinct valid ones, in order |
| `Coverage.CoveredAtMostSamples` | spark_bench/analysis.py:220-227 | The union never exceeds samples times interval |
| `Coverage.CoverageAtMostDuration` | spark_bench/analysis.py:220-227 | The union never exceeds the duration |
| `Coverage.SoundNeedsSamples` | spark_bench/analysis.py:232-236 | Sufficient coverage takes samples times interval at least the policy fraction of the duration |
| `Coverage.FullCoverage` | spark_bench/analysis.py:220-236 | Coverage is complete exactly when inner gaps are at most one interval and end gaps at most half of one |
| `Coverage.CoverStep` | spark_bench/analysis.py:222-227 | One turn adds the part of a support not yet covered and skips an uncovered gap |
| `Coverage.NotSupportedBetween` | spark_bench/analysis.py:222-227 | Between neighbouring supports nothing is covered |
| `Coverage.LargestStepIsMaximum` | spark_bench/analysis.py:229-231 | The largest gap bounds every gap and occurs |
| `Throttle.ThrottleDeltas` | spark_bench/analysis.py:249-295 | The nested loops compute the account of the trial: each row compared with the row just before it, one entry per GPU |
| `Throttle.ThrottleRow` | spark_bench/analysis.py:258-285 | The inner loop accounts one row's GPUs against the row before and collects its samples |
| `Throttle.AvailableTelescopes` | spark_bench/analysis.py:249-295 | With distinct UUIDs per row, the delta of an account without reset, gap or missing value (as an available one is) is the sum over GPUs of last minus first value, over the same GPUs throughout: no gap was bridged |
| `Throttle.OfflineEqualsOnline` | spark_bench/telemetry.py:169-193 | For consecutive samples of one sampler with increasing time and non-negative counters, the offline delta equals the sum of the online delta fields |
| `Throttle.Sampler.Sample` | spark_bench/telemetry.py:169-193 | Each GPU gets its delta against the sampler's previous sample, and the new values replace the previous ones |
| `Throttle.CleanRowGains` | spark_bench/analysis.py:258-289 | A row without reset, gap or unavailable value adds exactly what its continuing GPUs gained |
| `Throttle.RowAgrees` | spark_bench/analysis.py:258-289 | Row by row, offline and online gains are equal for one sampler |
| `Throttle.CleanStep` | spark_bench/analysis.py:286-289 | A clean account loses no GPU at its last row |
| `Trials.Assess` | spark_bench/analysis.py:350-477 | A trial is complete exactly when its evidence is: header, distinct ids, every job, overlap equal to its level where known, and coverage of all four required metrics |
| `Trials.MeasuredJobs` | spark_bench/analysis.py:360-370 | No identity issue exactly when the measured rows have distinct ids, and then they are the jobs |
| `Trials.CheckHeader` | spark_bench/analysis.py:371-398 | No issue exactly for a readable, finished, unstopped trial with a positive interval, valid level and dispatchers, and the expected number of jobs |
| `Trials.CheckJobs` | spark_bench/analysis.py:399-422 | No issue exactly when every job passes; timing notes exactly where a clock was unusable |
| `Trials.CheckJob` | spark_bench/analysis.py:400-422 | No issue exactly for a conclusive, matching, timed and identified job with valid retries |
| `Trials.CheckTiming` | spark_bench/analysis.py:408-417 | No issue exactly for usable timing inside the trial |
| `Trials.InferenceOverlap` | spark_bench/analysis.py:424-431 | The overlap is known exactly when every success and no cut-off inference is timed; then it is the greatest number of inferences at one instant |
| `Trials.CheckOverlap` | spark_bench/analysis.py:433-436 | No issue exactly when a known overlap equals the level |
| `Trials.OverlapIsUnique` | spark_bench/analysis.py:428-431 | A set of inferences has one observed overlap |
| `Trials.InferenceOccupancy` | spark_bench/analysis.py:424-432 | The occupancy stored with a trial is available exactly for a known level and timed proper inferences, and then gives the time at each number of inferences |
| `Trials.OccupancyAgrees` | spark_bench/analysis.py:424-432 | The two figures stored with one trial agree: with an available occupancy the overlap is known and is the largest level with positive dwell |
| `Trials.CheckCoverage` | spark_bench/analysis.py:448-452 | No issue exactly when time never stands still and each required metric's coverage is sufficient |
| `Trials.Discontinuities` | spark_bench/analysis.py:207-208 | Zero exactly when the stamps strictly increase |
| `Verdict.AssessFile` | spark_bench/analysis.py:350-477 | An assessed trial that is complete has a level, dispatchers, a positive makespan and jobs; a known overlap equals its level; without timing notes its wall interval is proper |
| `Figures.P95Splits` | spark_bench/analysis.py:22-34 | For n latencies more than 0.95 (n - 1) are at most the p95, and at most 0.95 (n - 1) + 1 are below it |
| `Figures.PercentileSplits` | spark_bench/analysis.py:27-31 | The same for any fraction of sorted values |
| `Figures.MaximumObservedIs` | spark_bench/analysis.py:513-514 | The group's overlap is known exactly when every trial's is, and is the greatest of them |
| `Figures.MakespanPositive` | spark_bench/analysis.py:483-484 | Complete trials have a positive total makespan |
| `Figures.RateNonNegative` | spark_bench/analysis.py:486-487 | Complete trials have a rate |
| `Figures.FailureRate` | spark_bench/analysis.py:512 | Unknown exactly without jobs, always between 0 and 1, and 0 exactly when every job succeeded |
| `Figures.P95NonNegative` | spark_bench/analysis.py:489-494 | Latencies and their p95 are never negative |
| `Verdict.VerdictIsSound` | spark_bench/analysis.py:588-704 | A falsified hypothesis rests on no synthetic job, some cohort and level above 1 with rate at least min_speedup times C1's, p95 and failure rate within bound, and at least two complete trials for every requested level of every cohort, each with observed overlap exactly its level; trials do not overlap unless a clock jumped |
| `Verdict.Analyze` | spark_bench/analysis.py:561-704 | Invalid thresholds or policy are refused; otherwise evidence is complete, and the hypothesis falsified, exactly as the trial evidence says, and a falsified hypothesis is well founded |
| `Verdict.Judge` | spark_bench/analysis.py:588-704 | Evidence is complete exactly without a run or cohort issue; the hypothesis is falsified exactly when then some eligible higher level beats C1 |
| `Cohorts.BestIsHigher` | spark_bench/analysis.py:693-702 | A cohort's candidate is above 1 exactly when some eligible higher level has a greater rate than C1, or C1 is not eligible |
| `FasterRun.TwiceAsFastFalsifies` | spark_bench/analysis.py:588-704 | Any run of two trials at C1 and two at C2, of the same two plain jobs, in which the trials at C2 take half the time, falsifies the hypothesis |
| `FasterRun.FalsificationHappens` | spark_bench/analysis.py:350-704 | Witness: there is such a run, and its trials carry real jobs whose overlap is observed |
| `FasterRun.OneAfterAnother` | spark_bench/analysis.py:607-611 | Trials that follow one another do not overlap |
| `Cohorts.BestLevel` | spark_bench/analysis.py:655-693 | The candidate is eligible and outranks every eligible level: higher rate first, then the lower level |
| `Cohorts.Consider` | spark_bench/analysis.py:685-693 | One level replaces the best exactly when it is eligible and outranks it |
| `Verdict.BoardIsWellFormed` | spark_bench/analysis.py:590 | A comparison without issues has a level from 1 up and a rate |
| `Verdict.BoardIsBoard` | spark_bench/analysis.py:616-618 | The grouped dictionary gives each cohort the comparisons of exactly its own trials by level |
| `Verdict.GroupTrials` | spark_bench/analysis.py:587-589 | Groups hold exactly the trials of their cohort and level, in order |
| `Verdict.JudgeCohorts` | spark_bench/analysis.py:616-697 | No cohort issue exactly when every cohort is clean; every cohort gets its best level |
| `Cohorts.JudgeCohort` | spark_bench/analysis.py:620-697 | No issue exactly for a clean cohort |
| `Cohorts.LevelIssues` | spark_bench/analysis.py:625-637 | No issue exactly with a C1 baseline, all requested levels, two complete trials each and two workloads |
| `Cohorts.OverlapIssues` | spark_bench/analysis.py:632-635 | No issue exactly when every group's overlap is known and reaches its level |
| `Cohorts.RepetitionIssues` | spark_bench/analysis.py:638-650 | No issue exactly with enough repetitions, expected jobs and telemetry at every level |
| `Cohorts.ComparisonIssues` | spark_bench/analysis.py:651-684 | No issue exactly with a usable, acceptable C1 and no notably shortened output |
| `Verdict.RunIssues` | spark_bench/analysis.py:593-613 | No issue exactly for a finished run with C1 and a higher level, distinct complete trials, and trials apart in time |
| `Verdict.NeighboursOfTrials` | spark_bench/analysis.py:607-611 | For proper windows the adjacent check after sorting finds an overlap exactly when two trials share an instant |
| `Verdict.HigherCandidate` | spark_bench/analysis.py:701-702 | Some candidate is above 1 exactly when some cohort's higher level wins |
| `Verdict.JudgeGroup` | spark_bench/analysis.py:620-697 | One cohort's issues and candidate follow from the comparisons of its own trials |
| `Cohorts.WinnerBeats` | spark_bench/analysis.py:662-691 | A winning level beats C1 by the required factor within the latency and failure bounds |
| `Verdict.GroupIsWellObserved` | spark_bench/analysis.py:630-635 | Two complete trials with known overlap at a level mean each trial of the group is complete and had exactly the level's overlap |
| `Cohorts.RequestedIsExercised` | spark_bench/analysis.py:627-635 | In clean evidence every requested level has two complete trials and its overlap is known and reached |
| `Verdict.BaselineFigures` | spark_bench/analysis.py:486-494 | In complete trials C1 has a rate, and neither it nor its p95 is negative |
| `Verdict.LevelsAreWellObserved` | spark_bench/analysis.py:627-635 | In clean evidence every requested level of every cohort has two complete trials at least, each with overlap exactly the level |
| `Verdict.AssessAll` | spark_bench/analysis.py:585-587 | One assessed trial per measured directory, in order |
| `NodeWindows.NeighboursDecide` | spark_bench/analysis.py:607-611 | For proper windows in order, neighbours decide whether any two overlap |
| `NodeWindows.OrderKeepsApart` | spark_bench/analysis.py:607-608 | Sorting windows keeps whether they are apart |
| `NodeWindows.OrderIsOrdered` | spark_bench/analysis.py:607 | Sorting orders the windows |
| `ScaleCorrection.Reconcile` | recipes/glm53-nvfp4/nvfp4_scale_reconcile.py:18-66 | Errors exactly for bad shape, bad globals, bad scales, in that order; otherwise every cell is the per-element correction, shared is the larger global, changed counts unequal experts, and the input is returned itself when none is |
| `ScaleCorrection.CorrectScales` | recipes/glm53-nvfp4/nvfp4_scale_reconcile.py:44-65 | The chunk loop validates every scale and equals the per-element map for any number of experts |
| `ScaleCorrection.CorrectChunk` | recipes/glm53-nvfp4/nvfp4_scale_reconcile.py:53-65 | One chunk corrects exactly its experts and leaves the rest |
| `ScaleCorrection.ExactWhereDominant` | recipes/glm53-nvfp4/nvfp4_scale_reconcile.py:40-44 | Experts with equal globals, and the half whose global is the shared one, keep their exact codes |
| `ScaleCorrection.NoOverflow` | recipes/glm53-nvfp4/nvfp4_scale_reconcile.py:54-56 | A corrected code is a scale no larger than the original; a negative zero stays one |
| `ScaleCorrection.CorrectedIsNearest` | recipes/glm53-nvfp4/nvfp4_scale_reconcile.py:54-56 | The corrected code is the nearest to scale times own over shared, ties to even |
| `ScaleCorrection.ErrorBound` | recipes/glm53-nvfp4/nvfp4_scale_reconcile.py:54-56 | Corrected scale times shared global differs from scale times own global by at most the shared global times half the local grid step |
| `E4M3.ConvertIsNearestEven` | recipes/glm53-nvfp4/nvfp4_scale_reconcile.py:55-56 | The conversion gives the nearest code, the even one of two equally near |
| `E4M3.NearestEvenIsUnique` | recipes/glm53-nvfp4/nvfp4_scale_reconcile.py:55-56 | Nearest, ties to even, determines the code |
| `E4M3.ConvertWithinHalfStep` | recipes/glm53-nvfp4/nvfp4_scale_reconcile.py:55-56 | The conversion error is at most half the local step |
| `E4M3.ConvertKeepsGrid` | recipes/glm53-nvfp4/nvfp4_scale_reconcile.py:55-56 | A grid value converts to its own code |
| `E4M3.ConvertStaysBelow` | recipes/glm53-nvfp4/nvfp4_scale_reconcile.py:55-56 | Rounding never passes a grid point |
| `E4M3.StepIsRelative` | recipes/glm53-nvfp4/nvfp4_scale_reconcile.py:55-56 | From the first normal number on, a step is at most an eighth of the value |
| `E4M3.LargestNumber` | recipes/glm53-nvfp4/nvfp4_scale_reconcile.py:18-19 | The largest number is 448 and the grid point above it 480 |
| `Framing.Read` | gui/Observability.swift:27-56 | Whatever the chunks, the delivered lines are the non-empty newline-separated pieces of the stream of at most 1,048,576 bytes, in order |
| `Framing.TakeChunk` | gui/Observability.swift:31-48 | One chunk: its terminated lines leave, and a rest over the cap is dropped without its line being forgotten |
| `Framing.ChunkingDoesNotMatter` | gui/Observability.swift:27-56 | Two ways to cut the same bytes into non-empty chunks give the same lines |
| `Framing.TakeLines` | gui/Observability.swift:34-44 | The inner loop delivers every terminated line in the buffer, drops the end of an over-long one, and leaves the unterminated rest |
| `Framing.LineTaken` | gui/Observability.swift:35-43 | Taking one line delivers it exactly when it is whole, non-empty and within the cap |
| `Framing.EndOfStream` | gui/Observability.swift:50-56 | At the end the rest is delivered unless its line was being dropped |
| `Framing.JoinOfPieces` | gui/Observability.swift:34-36 | The pieces join to the stream |
| `Framing.PiecesArePlain` | gui/Observability.swift:34-36 | No piece contains a newline |
| `Framing.PiecesOfJoin` | gui/Observability.swift:34-36 | Newline-free pieces are recovered from their join, so splitting is unique |

## Left out

- SSH, Docker, systemd, HTTP, sockets, signals and file-system calls are steps or answers chosen by the environment, not modelled calls.
- The body of `start_vllm`, which is a callback: it is a fenced launch on each launch host that returns a receipt, returns none, or raises.
- The adaptation of state files without a node map (`node_states`, spark_serve_controller.py:354-386): the allocation results start from a node map or a fresh installation.
- Summary fields of controller.json other than the generation, the `target` and `legacy` fields, emitted events and error texts.
- Disk errors while controller.json or yue-workers.json is written: a save either happens or the process crashes before it.
- Wall-clock limits (node lock wait, lease wait, benchmark deadline, ready timeouts): each is a step that may fail at any time; no liveness is proved from them.
- More than two nodes or boxes: the repository's profiles configure two.
- Controllers.Controller.Switch: does not state when a switch succeeds, because every remote answer is arbitrary; it states what holds on success, refusal and failure.
- StrixPair.Site.Up: does not state when a start succeeds, for the same reason; the engines' token and context options are not modelled.
- StrixPair.Site.Probe: a reachable box reports its engine and its RPC connection accurately; reports shadowed by an always-on service are not modelled.
- StrixPair.Site.Stop: several always-on services on one box count as one pin.
- Benchmarks: identity and limit checks before admission, the expiry time of leases and the measurements of a run only decide whether a client asks for admission or stops, which may happen at any time here.
- CapacityLease: evidence files, inference itself and the wait for a production job are not modelled; their failures are steps.
- Dispatcher.Run.Execute: ends as still running after the given number of turns, because a job may run for ever; the telemetry collector and the guard's thresholds decide only between answers that are arbitrary here.
- TrialOrder.Order: requires at least one level; the command line refuses an empty list and the loop would divide by zero. `jobs_for_trial`, which repeats the corpus in order, is left out.
- Throttle.ThrottleDeltas: follows one counter field; the other four are counted by the same code. Combining trials is a sum of these accounts.
- Trials: request overlap, batch waves and display fields are not part of the record. The corpus id is the multiset of inputs itself in place of its hash.
- Figures: audio rates, per-workload tables, retries and the mean, p50, minimum and maximum of other quantities follow the same formulas and are not modelled.
- Verdict.Judge: the order of comparisons and recommendations, marginal and efficiency columns, the provisional flag and report texts; an issue is a named case that says whether its text makes the evidence incomplete.
- FasterRun.FalsificationHappens: builds assessed trials with their jobs, not the files they are read from; the occupancy a trial stores plays no part in the verdict and is not proved there.
- ScaleCorrection.Reconcile: scale factors and products are exact reals, so the rounding of FP32 intermediates before the E4M3 conversion is not modelled; dtype, device and rank checks are types here.
- Framing.Read: dispatching lines to the main queue and the check for a newer stream generation are not modelled; process handling is left out.
- Ranking, monitoring, plan validators, preparation scripts, reports and views.
