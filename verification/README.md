# agentic-delegator: a verified model of the orchestrator core

The orchestrator queues coding jobs, starts one runner container per job within concurrency caps, records how each job
ends, and guards its edges with a webhook replay cache, API keys, an egress firewall and GitHub sign-in. This project
models that core and proves what it guarantees. `dafny verify dfyconfig.toml` checks everything.

## The job lifecycle

Enqueue, cancel, completion and startup recovery are read-modify-write sequences over one jobs table. They are
modelled twice, and the two models are connected.

* `JobProtocol` is a step system. A step is one repository or runner call of one request, one container supervisor or
  the recovery loop; steps of all of them interleave freely, the process may die and restart at any point, storage
  calls may fail, and the clock moves forward. A supervisor may report before its request has written "running",
  because it is launched before `Start` returns (`core/adapter/docker/runner.go:102`). `JobInvariant` is the inductive
  invariant, `JobFrames` says what each step leaves alone, `JobTheorems` proves the caps, `JobLifecycle` what a row
  can go through, `JobOutcomes` what containers, reports and webhook calls can do, `JobSettled` when a row is final.
* `JobDomain`, `JobsRepo`, `UseCases` and `Recovery` hold the code as it is written: a `Job` object with its
  transitions, the map-backed repository, and the use cases as classes whose `Execute` methods run the same calls in
  the same order with the same early returns. Each is proved against a function from the world before to the world
  after. `Sequential` proves what these functions mean for a caller, and that every such execution, run alone, is a
  run of the step system.

Assumptions of the step system: repository calls are atomic; the clock does not go back; container ids are new; the
runner reports at most once per `Start`; the caps do not change across restarts and the store starts empty. Startup
recovery may overlap requests, which allows more runs than the program has.

What the code does not guarantee is proved as well, with the exact condition and a run from the empty store
(`JobRuns`) that shows the failure:

* A terminal status is not absorbing under interleaving. The last `Update` of an enqueue request writes the row it
  created earlier over whatever is stored: `RevivalExactly` says that this is the only way out of the terminal
  statuses, `RevivedAtMostOnce` how often it can happen. A terminal row can also be replaced by another terminal one:
  in `LateCancelRun` a job becomes cancelled after its success was stored and sent. `FinalExactly` says when a
  terminal row can still change: exactly when its own request has not ended, or a cancel, a report or the recovery
  loop holds an older copy that it has yet to write.
* The caps therefore bind the running rows that were never terminal. `RunningIsKeptAndRevived` and
  `AllRunningIsKeptAndRevived` count the running rows exactly as those plus the revived ones, and `OvershootRun`
  gives, for any setting of the caps and any k, a run that exceeds the smaller one by k.
* A successful report counts if and only if it finds its row running (`ReportDecides`); one that comes earlier is
  dropped for good (`EarlySuccessRun`). After a restart exactly those jobs can be recorded as succeeded that were so
  before it (`RestartDecides`), and a row changes only if its owner cancels it or an inspection by the recovery loop
  finds its container gone (`RestartFreezesRows`). In `SkippedRun` recovery passes over a live container that exits
  afterwards; the row stays running, and counted, for the life of the process (`SkippedStays`).
* A request that dies between `Start` and its last `Update` leaves a container that no row names: it runs until it
  exits or its supervisor, if the process still lives, kills it at the deadline, and its row, while queued, counts
  against the caps (`StrandedForEver`, `StrandedRun`).
* The runner is told the log path of the request, not the one stored in the row; they agree exactly when the request
  pinned one (`LogIsWhereTheRowSays`).
* A failed write of the secrets returns no directory name, so the caller's call to remove that directory
  (`core/adapter/docker/runner.go:85`) removes nothing; `WorkDir.StartDirs` says exactly when secrets stay behind, and
  `LeftoverIsSwept` that the next startup removes them.

## The rest

* `ReplayCache`: the evicting cache of webhook delivery ids decides as a log that never forgets, with the exact
  condition on the times at which deliveries enter it (the handler reads its clock before it takes the lock).
* `ApiKeys`: the prefix lookup decides as a scan over all keys, over whole histories of minting, revoking and use; a
  resolve that is overtaken by a revocation answers as of its lookup.
* `Firewall`: rules as data, chains as sequences under first match, CIDR blocks as arithmetic (section 3.1 of RFC
  4632, ranges of section 3 of RFC 1918); what `up` and `down` do to the chain and to the verdict of every packet, on
  every chain. When the list has grown since the last `up`, what was added lands above the RETURN for established
  traffic, against the order the script promises (`ChangedListVerdict`, `OptInDropsEstablished`).
* `LogText` and `EnvCsv`: splitting, joining and tailing logs; comma-separated settings.
* `SignIn`: the find-or-create part of the OAuth callback, alone and interleaved. Two first callbacks of one GitHub id
  can collide (`FirstCallbacksCanCollide`); `SessionsAreRight` says exactly which sessions are for the bound user.

## Model

| member | source | states |
|---|---|---|
| JobDomain.Job.constructor | core/domain/job.go:38-50 | A new job is queued, has no container, result or times but its creation time, and no log path. |
| JobDomain.Job.MarkRunning | core/domain/job.go:52-61 | Only a queued job starts running: status, container and start time are set and nothing else; otherwise an invalid-state error and no change. |
| JobDomain.Job.MarkSucceeded | core/domain/job.go:63-72 | Only a running job succeeds: status, PR URL and finish time are set and nothing else; otherwise an invalid-state error and no change. |
| JobDomain.Job.MarkFailed | core/domain/job.go:74-83 | Only a queued or running job fails: status, reason and finish time are set and nothing else; otherwise an invalid-state error and no change. |
| JobDomain.Job.MarkCancelled | core/domain/job.go:85-93 | Only a queued or running job is cancelled: status and finish time are set and nothing else; otherwise an invalid-state error and no change. |
| JobDomain.EachFieldHasItsRequest | core/domain/job.go:52-93 | Container and start time change only when a job starts running, the PR URL only on success, the error only on failure, and the finish time is that of the request that finished it. |
| JobDomain.TerminalIsAbsorbing | core/domain/job.go:52-101 | No list of transition requests changes a terminal row. |
| JobDomain.LifecycleStaysWellFormed | core/domain/job.go:38-101 | Any list of requests at non-decreasing times keeps a row well formed (finish time iff terminal, times in order, PR URL only when succeeded, error only when failed) and its identity fields. |
| JobInvariant.StepKeepsStructure | core/usecase/enqueue_job.go:72-139 | Every one of the 21 steps keeps the invariant tying rows, requests, containers, supervisors, cancels, recovery and webhook calls together. |
| JobInvariant.RunKeepsStructure | core/usecase/enqueue_job.go:51-140 | So does every run. |
| JobInvariant.OverwriteOk | core/usecase/handle_runner_completion.go:25-46 | Writing a finished version of an earlier copy over any current version of the row leaves a legal row, whatever happened since the copy was read. |
| JobFrames.StepRow | core/testutil/fake_jobs_repo.go:89-98 | A step changes a row only by storing a row of that id, and no step removes one. |
| JobFrames.CreatedRow | core/usecase/enqueue_job.go:55-74 | A new id is stored with exactly the requested fields, queued, at the time the request read; a known one changes nothing. |
| JobFrames.RequestSaves | core/usecase/enqueue_job.go:126-138 | The last Update of a request stores its own row, field by field, as running in its container or as failed for the reason of the start, at the time of that write. |
| JobFrames.CancelSaves | core/usecase/cancel_job.go:37-41 | A cancel stores the copy it read with only status and finish time changed. |
| JobFrames.SupervisorSaves | core/usecase/handle_runner_completion.go:30-46 | A supervisor stores the copy it read, succeeded with the reported PR URL or failed with the reported or the default reason, nothing else changed. |
| JobFrames.RecoverySaves | core/usecase/reattach_running_jobs.go:31-34 | Recovery stores the copy it listed as failed for its fixed reason at the time it read when it began, nothing else changed. |
| JobFrames.CompletionNotifies | core/usecase/handle_runner_completion.go:44-55 | A stored completion goes on to the webhook iff one is wired and a URL was reported, with the row that was stored and the reported end of the log; a failed write ends it. |
| JobFrames.NotifySends | core/usecase/handle_runner_completion.go:49-55 | The call is made once with exactly that. |
| JobFrames.FailedRequestEnds | core/usecase/enqueue_job.go:78-112 | A failing call of a request stores nothing, starts nothing and ends it. |
| JobFrames.FailedFinisherEnds | core/usecase/cancel_job.go:36-41 | A failing write ends a cancel, a failing stop does not; a failing call ends the recovery loop; none of them stores anything. |
| JobFrames.RequestsAreFree | core/usecase/enqueue_job.go:76-138 | Every call of a request may fail, and its clock may give any time between two calls; the process may die at any time. |
| JobFrames.SupervisorsAreFree | core/adapter/docker/runner.go:100-104 | A container may exit, be reported and be recorded at any time, also before its row is running. |
| JobTheorems.AdmittedAreCounted | core/usecase/enqueue_job.go:72-94 | Because a row is created before it is counted, every unfinished request is among the rows a later count sees. |
| JobTheorems.StepKeepsCaps | core/usecase/enqueue_job.go:77-94 | No step lets more unfinished requests past a cap check than the cap allows. |
| JobTheorems.FinishedIsEverTerminal | core/domain/job.go:95-101 | The history the caps are stated over is exactly the set of jobs that some state of the run stored as terminal. |
| JobTheorems.PerUserCapHolds | core/usecase/enqueue_job.go:72-138 | In every interleaving from an empty store, with a positive cap, the running rows of a user that were never terminal number at most MaxConcurrentPerUser. |
| JobTheorems.GlobalCapHolds | core/usecase/enqueue_job.go:72-138 | The same across all users for MaxConcurrentGlobal. |
| JobLifecycle.RowsAreWellFormed | core/domain/job.go:38-102 | In every reachable state every stored row is well formed, carries only times that have passed, in order, and is stored under its own id. |
| JobLifecycle.IdentityNeverChanges | core/usecase/enqueue_job.go:56-74 | No run removes a row or changes its id, owner, repo, branches, spec, model, log path or creation time. |
| JobLifecycle.RevivalExactly | core/usecase/enqueue_job.go:133-136 | A step takes a row from a terminal to another status if and only if it is the successful last Update of the request that created the row. |
| JobLifecycle.RevivedAtMostOnce | core/usecase/enqueue_job.go:126-139 | In any run a row leaves a terminal status at most once, and never after its request has ended. |
| JobLifecycle.UnrevivedStaysTerminal | core/domain/job.go:95-101 | A row that was terminal at some point of a run and was not revived is terminal at its end. |
| JobLifecycle.RunningIsKeptAndRevived | core/usecase/enqueue_job.go:77-86 | In every run the running rows of a user are the disjoint union of those never terminal, at most as many as the cap, and the revived ones; so the cap is exceeded iff the two counts together exceed it. |
| JobLifecycle.AllRunningIsKeptAndRevived | core/usecase/enqueue_job.go:87-94 | The same for all users and the global cap. |
| JobRuns.OvershootRun | core/usecase/enqueue_job.go:126-138 | Whatever the caps, if they leave room for n jobs then for every k some run from the empty store ends with n + k running rows of one user, k of them revived; with n the smaller of the positive caps that cap is exceeded by k. |
| JobOutcomes.HeldBackForEver | core/usecase/enqueue_job.go:82-112 | A request that ended before a container was started (over a cap, no credentials, an error, a restart) never gets one; its row stays queued, is cancelled, or failed if the start was refused. |
| JobOutcomes.OneContainerPerJob | core/usecase/enqueue_job.go:126-133 | No job has two containers, and a row that was started names the one that was started for it. |
| JobOutcomes.ContainersRunTheirRow | core/usecase/enqueue_job.go:114-124 | In every reachable state each container works on the repository, branches, spec and model of the stored row of its job, and logs where the request said. |
| JobOutcomes.LogIsWhereTheRowSays | core/usecase/enqueue_job.go:66-70 | The log path given to the runner is the one in the row if and only if the request pinned a path. |
| JobOutcomes.DerivedLogPathIsNotEmpty | core/usecase/enqueue_job.go:66-69 | The stored log path is never empty, and is the requested one exactly if one was requested. |
| JobOutcomes.DerivedLogPathsDiffer | core/usecase/enqueue_job.go:66-70 | A derived path is the job id with ".log" directly below the log directory, so two jobs never share one. |
| JobOutcomes.OnlySupervisorsSucceed | core/usecase/handle_runner_completion.go:31-46 | A row becomes succeeded only when the supervisor of that job's own container saves its report. |
| JobOutcomes.ReportDecides | core/adapter/docker/runner.go:100-104 | After a successful report is delivered, some continuation records the job as succeeded if and only if the report found the row running. |
| JobRuns.EarlySuccessRun | core/adapter/docker/runner.go:100-104 | For any settings a reachable state in which the container has exited and its success is there to be delivered while the row is still queued; delivered, the job can never succeed. |
| JobOutcomes.RestartDecides | core/usecase/reattach_running_jobs.go:23-35 | After a restart some continuation records a job as succeeded if and only if it was recorded so before the restart. |
| JobSettled.RestartFreezesRows | core/usecase/reattach_running_jobs.go:17-37 | After a restart, in every run and however often recovery runs in it, a row stays exactly as it was, and counts as active if it did, until its owner cancels it while it is active or an inspection by the recovery loop finds its container gone. |
| JobSettled.SkippedStays | core/usecase/reattach_running_jobs.go:28-30 | A row without anyone left to report on it, once recovery is over, stays exactly as it is in every run without another startup, unless its owner cancels it. |
| JobRuns.SkippedRun | core/usecase/reattach_running_jobs.go:28-30 | A run in which recovery finds the container of a running row alive and passes on, and the container exits afterwards: the row is running and nobody is left to look after it. |
| JobOutcomes.OneHookPerJob | core/usecase/handle_runner_completion.go:49-55 | In every interleaving a job gets at most one completion webhook call, carrying a terminal row and a non-empty URL. |
| JobOutcomes.HookRowsWereStored | core/usecase/handle_runner_completion.go:44-55 | Every row sent by a webhook call was the stored row of its job in an earlier state. |
| JobSettled.FinalExactly | core/usecase/cancel_job.go:28-41 | In every reachable state a terminal row can change in some continuation if and only if its request has not ended, or a cancel, a report or the recovery loop holds an older copy it has yet to write (for a loop past its clock read, one that differs from the stored row). |
| JobRuns.LateCancelRun | core/usecase/cancel_job.go:28-41 | A run in which the success of a job is stored and its webhook sent, and a cancel that read the row before then stores it as cancelled. |
| JobSettled.StrandedForEver | core/usecase/enqueue_job.go:126-138 | If a request dies or its last Update fails after its container was started, no cancel and no recovery ever stops that container, only its exit (which stands for its supervisor's kill at the deadline as well, core/adapter/docker/runner.go:157-165); its row names no container, never runs or succeeds, and is counted as active while it is queued. |
| JobRuns.StrandedRun | core/usecase/enqueue_job.go:126-138 | A run that reaches that situation by a restart, after which the job can never succeed. |
| JobsRepo.FakeJobsRepo.Create | core/testutil/fake_jobs_repo.go:26-35 | Stores a copy under a new id; a known id is a conflict and changes nothing. |
| JobsRepo.FakeJobsRepo.Get | core/testutil/fake_jobs_repo.go:37-46 | The stored copy, or not found. |
| JobsRepo.FakeJobsRepo.GetForUser | core/testutil/fake_jobs_repo.go:48-57 | The stored copy exactly for its owner; for anyone else not found. |
| JobsRepo.FakeJobsRepo.Update | core/testutil/fake_jobs_repo.go:89-98 | Replaces a known row by a copy; an unknown id is not found and changes nothing. |
| JobsRepo.FakeJobsRepo.ListForUser | core/testutil/fake_jobs_repo.go:59-74 | Only that user's rows, none twice, newest first, min(limit, total) of them for a positive limit and all otherwise, none left out newer than one returned. |
| JobsRepo.FakeJobsRepo.ListByStatus | core/testutil/fake_jobs_repo.go:76-87 | Every row with the status, each once, in any order. |
| JobsRepo.FakeJobsRepo.CountActiveForUser | core/testutil/fake_jobs_repo.go:100-110 | The number of the user's rows that are queued or running. |
| JobsRepo.FakeJobsRepo.CountActiveGlobal | core/testutil/fake_jobs_repo.go:112-122 | The number of all rows that are queued or running. |
| JobsRepo.CountsAddUp | core/testutil/fake_jobs_repo.go:100-122 | In every store the per-user counts of all owners add up to the global count. |
| UseCases.RunnerService.Start | core/testutil/fake_runner_service.go:35-49 | Records the spec under the new id and makes the container live, or returns the error and records nothing. |
| UseCases.RunnerService.Stop | core/adapter/docker/runner.go:225-228 | A container the runtime kills is no longer live; a failure to kill it is not reported and changes nothing. |
| UseCases.EnqueueJob.NewJob | core/usecase/enqueue_job.go:55-70 | The job as it is first stored: queued, from the request, with the pinned log path or the one derived from its id. |
| UseCases.EnqueueJob.Admit | core/usecase/enqueue_job.go:76-94 | The two checks, with their errors, decide as the function AdmissionMeans reasons about. |
| UseCases.EnqueueJob.Launch | core/usecase/enqueue_job.go:114-139 | Start and last Update, each of which can fail, have exactly the effect and answer of the launch function. |
| UseCases.EnqueueJob.Execute | core/usecase/enqueue_job.go:51-140 | The object code, with every early return and every failing storage call, has exactly the effect and answer of the enqueue function that the rows below reason about. |
| UseCases.CancelJob.Execute | core/usecase/cancel_job.go:24-42 | The same for cancel. |
| UseCases.HandleRunnerCompletion.Execute | core/usecase/handle_runner_completion.go:20-58 | The same for completion, the webhook call included. |
| Sequential.AdmissionMeans | core/usecase/enqueue_job.go:76-94 | The checks, made with the new row counted, admit it iff there was room under both caps before it came and every count that was asked for was answered; it is held back only without room. |
| Sequential.EnqueueRefused | core/usecase/enqueue_job.go:52-74 | A request is invalid iff user, repository, a branch or the spec value is empty or the spec kind is not inline, path or url; an invalid request, a refused write and a known id each get their own error and change nothing. |
| Sequential.EnqueueAnswer | core/usecase/enqueue_job.go:76-139 | The answer of a request that was stored, decided on the table before it came: which cap or count stops it first, which missing credential is reported as invalid input, and which later error is passed on. |
| Sequential.EnqueuedRow | core/usecase/enqueue_job.go:126-138 | Only a job that runs has a container and a start time, those of its start; only one whose start failed has an error and a finish time, and the error says why. |
| Sequential.EnqueueOutcome | core/usecase/enqueue_job.go:51-140 | A valid request for a new id is stored with all its inputs and its log path unless the storage refuses; its container is started, told exactly what was asked for, iff it was admitted and both credentials were there; the row ends running or failed by the start if the last Update succeeds and stays queued and counted in every other case. |
| Sequential.CancelOutcome | core/usecase/cancel_job.go:24-41 | Cancel succeeds iff the caller owns the job and it is queued or running; then only status and finish time of that row change and only the container it names is stopped, unless the runtime fails to; empty ids, a job that is not the caller's and a finished one each get their own error and change nothing. |
| Sequential.CompleteOutcome | core/usecase/handle_runner_completion.go:20-57 | A report is accepted iff the row can finish that way, and the error otherwise says why not; the new row is the old one with status, finish time and either the PR URL or a reason; only that row changes, and the webhook gets exactly the stored row and log tail iff wired and a URL was reported. |
| Sequential.FirstFinisherWins | core/usecase/cancel_job.go:28-41 | With use cases run one at a time, the first cancel or completion that succeeds decides the row; after any further operations each later attempt on that job gets an error and changes neither rows, containers nor webhook log. |
| Sequential.TerminalRowsStay | core/usecase/handle_runner_completion.go:30-43 | With use cases run one at a time, startup recovery among them, no list of operations changes a terminal row. |
| Sequential.EnqueueIsARun | core/usecase/enqueue_job.go:72-139 | The enqueue use case served alone, whichever call fails, is a run of the step system with the same visible outcome at whose end the request is over. |
| Sequential.CancelIsARun | core/usecase/cancel_job.go:28-41 | So is the cancel use case. |
| Sequential.CompletionIsARun | core/usecase/handle_runner_completion.go:25-56 | So is the completion use case, for a container that has not reported yet. |
| Recovery.ReattachRunningJobs.Execute | core/usecase/reattach_running_jobs.go:17-37 | The listing and the loop over the running rows, in whatever order they are listed, with the early returns on a failed list, Inspect and Update, are the recovery function of the rows below. |
| Recovery.ReattachRecoversPrefix | core/usecase/reattach_running_jobs.go:23-36 | The rows before the first one whose Inspect or Update fails are recovered, that row and every other one is untouched, and the loop succeeds iff no listed row fails either call. |
| Recovery.ReattachRecoversAll | core/usecase/reattach_running_jobs.go:17-37 | If no call fails the resulting table does not depend on the order of the listing. |
| Recovery.RecoveredRows | core/usecase/reattach_running_jobs.go:28-34 | Exactly the running rows without a live container change, in status, finish time and the fixed reason only, and recovering twice is recovering once. |
| Recovery.ReattachIsARun | core/usecase/reattach_running_jobs.go:17-37 | The recovery loop run alone, whichever call stops it, is a run of the step system. |
| Recovery.ListingsAgree | core/testutil/fake_jobs_repo.go:76-87 | What recovery may list in the step system is what the repository's query returns: every running row, each once. |
| Recovery.Startup | cmd/agentic-delegator/main.go:157-173 | Recovery, then a sweep that keeps the jobs recorded running afterwards, also when recovery stopped early; if the running rows cannot be listed again nothing is swept. |
| Recovery.StartupRecovers | cmd/agentic-delegator/main.go:157-159 | If every call of the loop succeeds, startup recovers the whole table and a second startup changes nothing. |
| Recovery.StartupSweeps | cmd/agentic-delegator/main.go:163-173 | If every removal succeeds, the secrets entries left are exactly the earlier ones whose job was recorded running with a live container; no other entry changes; sweeping again changes nothing. |
| Recovery.StartupIsIdempotent | cmd/agentic-delegator/main.go:157-173 | Recovery and sweep composed: if every call succeeds both results are as in the two rows above, and a second whole startup, with any listing, changes neither rows nor entries. |
| Recovery.StartupSpares | cmd/agentic-delegator/main.go:157-173 | Whatever failed before, the sweep removes only removable entries named by a job id and ".secrets" whose job is not recorded running, leaves none of those, never touches "logs", and does nothing if the running rows cannot be listed. |
| Recovery.WorkDir.SweepOrphanSecrets | core/adapter/docker/secrets.go:55-68 | Removes and reports exactly the "*.secrets" entries whose job is not kept and that can be removed. |
| Recovery.WorkDir.WriteSecrets | core/adapter/docker/secrets.go:25-40 | Any failure returns no name, and every failure but that of the first call leaves the directory behind. |
| Recovery.WorkDir.StartDirs | core/adapter/docker/runner.go:62-98 | A start that succeeds adds the two directories of the job; one that fails leaves the secrets directory exactly if writing it failed half-way, or if it was there before and writing it was not reached or failed at once. |
| Recovery.LeftoverIsSwept | core/adapter/docker/secrets.go:58-66 | A leftover secrets directory survives the sweep iff its job is recorded running. |
| Recovery.SecretsNames | core/adapter/docker/secrets.go:26 | The secrets entry of a job is its id with ".secrets", and exactly such names belong to one job each. |
| ReplayCache.WebhookHandler.AlreadyDelivered | core/adapter/ghapp/webhooks.go:35-51 | The eviction loop followed by the lookup, for any iteration order, is one call on the evicting cache. |
| ReplayCache.AskMeans | core/adapter/ghapp/webhooks.go:35-51 | A call is a replay iff it has an id remembered at most 600,000,000,000 nanoseconds ago; a call without an id leaves no trace; otherwise exactly the entries that recent and the id itself remain, old times kept. |
| ReplayCache.TenMinutes | core/adapter/ghapp/webhooks.go:16 | An id accepted at a time is a replay up to ten minutes after it and is accepted again one nanosecond later, in the cache and in the log. |
| ReplayCache.CacheDecidesAsLog | core/adapter/ghapp/webhooks.go:33-51 | For every call sequence at non-decreasing times the cache gives the same answers as a log that never forgets. |
| ReplayCache.SameAnswersExactly | core/adapter/ghapp/webhooks.go:35-68 | For calls entering at given times, every assignment of ids gets the same answers from cache and log if and only if no call k is followed by a call i more than the window later and then by a call j whose time is still inside the window of k; non-decreasing times always qualify. |
| ReplayCache.AcceptedAreApart | core/adapter/ghapp/webhooks.go:16-51 | Two accepted deliveries of one non-empty id are more than the window apart. |
| ReplayCache.OnlyTheWindowIsRemembered | core/adapter/ghapp/webhooks.go:41-50 | After a call with an id everything remembered lies inside the window, that id included. |
| ReplayCache.WebhookHandler.Handle | core/adapter/ghapp/webhooks.go:54-88 | A bad signature is refused and touches nothing; every signed request is answered alike, and deletes the named installation iff it asks for that, is no replay within ten minutes, and the store carries it out. |
| ReplayCache.WebhookHandler.Upsert | core/adapter/postgres/installations_repo.go:30-49 | A new installation is stored as given; storing a known one replaces all but its creation time. |
| ReplayCache.DeletesExactly | core/adapter/ghapp/webhooks.go:60-88 | An installation disappears iff a signed "installation deleted" delivery names it, its id is empty or not remembered within the window, and the store carries the deletion out; the id counts as seen either way. |
| ReplayCache.ReplayDeletesNothing | core/adapter/ghapp/webhooks.go:65-86 | After an accepted delivery, whether its deletion worked or not, and any installs and deliveries in any time order up to the end of its window, a replay of its id deletes nothing: an installation stored again survives, and a failed deletion is not made up for. |
| ReplayCache.StoredAgainSurvives | core/adapter/ghapp/webhooks.go:65-86 | An installation stored after an accepted delivery is there, as stored, after every sequence of replays of that delivery inside its window. |
| ApiKeys.FakeAPIKeysRepo.GetByPrefix | core/testutil/fake_api_keys_repo.go:35-46 | All keys with the prefix and no others, in any order. |
| ApiKeys.FakeAPIKeysRepo.Delete | core/testutil/fake_api_keys_repo.go:61-70 | Only the owner's key is removed; otherwise not found and no change. |
| ApiKeys.HashingRepo.Create | core/adapter/keyhash/keyhash.go:32-40 | What is stored is the key with its plaintext replaced by a digest; a digest error or a known id stores nothing. |
| ApiKeys.MintAPIKey.Execute | core/usecase/mint_api_key.go:27-47 | Returns the plaintext and stores, under the new id, the given user and name, the first eight characters of the plaintext, its digest, the time, and no last use; each error has its own answer and changes nothing. |
| ApiKeys.MintMeans | core/usecase/mint_api_key.go:38-45 | The same of the function the histories are made of, and that no other key changes. |
| ApiKeys.UseMeans | core/adapter/http/auth/resolver.go:55-59 | A use stamps the key that matched, if one does, and changes nothing else. |
| ApiKeys.Resolver.ResolveBearer | core/adapter/http/auth/resolver.go:46-62 | The prefix lookup succeeds iff a scan over all keys finds a match, returns the owner of a matching key, and changes only that key's last use. |
| ApiKeys.Resolver.Resolve | core/adapter/http/auth/resolver.go:31-44 | A bearer key that matches decides; any other request gets the session's answer. |
| ApiKeys.ResolvesAsTheBookSays | core/adapter/http/auth/resolver.go:46-62 | After any history of mints with fresh plaintexts, revocations and uses, a text matches iff some live key was minted with it, and then one key matches and belongs to that owner. |
| ApiKeys.StoreKeepsBook | core/usecase/mint_api_key.go:32-46 | Over every history the hashed, indexed store agrees with a plain record of who was given which plaintext, under which name and when. |
| ApiKeys.RevokedNeverResolves | core/usecase/revoke_api_key.go:20-25 | After a successful revocation the plaintext of that key never matches again, whatever follows. |
| ApiKeys.ResolveAnswersAsOfLookup | core/adapter/http/auth/resolver.go:51-60 | In every interleaving of mints, revocations and resolves, a resolve succeeds iff some key live at its lookup was minted with that text, for the owner of such a key, whatever is minted or revoked before it finishes. |
| ApiKeys.FinishStamps | core/adapter/http/auth/resolver.go:55-59 | A resolve that finishes stamps the key it found if it is still there, and changes nothing else. |
| ApiKeys.RevokedNeverAnswers | core/adapter/http/auth/resolver.go:51-60 | In every interleaving with fresh plaintexts, no resolve whose lookup comes after a successful revocation ever succeeds with the revoked plaintext. |
| ApiKeys.RevokedWhileResolving | core/adapter/http/auth/resolver.go:51-60 | A run in which a resolve succeeds although the key was revoked after its lookup and is gone. |
| Firewall.DockerUser.InsRule | deploy/firewall/runner-egress-firewall.sh:62-64 | A rule goes to the top of the chain unless a copy is present. |
| Firewall.DockerUser.DelRule | deploy/firewall/runner-egress-firewall.sh:67-71 | Terminates, and removes every copy of the rule and nothing else. |
| Firewall.DockerUser.Up | deploy/firewall/runner-egress-firewall.sh:73-99 | The loop of inserts and the final insert are the edit the rows below reason about. |
| Firewall.DockerUser.Down | deploy/firewall/runner-egress-firewall.sh:101-110 | The same for the deletes. |
| Firewall.UpIsIdempotent | deploy/firewall/runner-egress-firewall.sh:59-99 | For every chain and every CIDR list, duplicates included, applying the rules twice is applying them once. |
| Firewall.DownIsForeign | deploy/firewall/runner-egress-firewall.sh:101-107 | Removing gives exactly the chain without the script's rules, the rest in order. |
| Firewall.DownUndoesUp | deploy/firewall/runner-egress-firewall.sh:73-110 | Removing after applying is removing, from every chain. |
| Firewall.OnlyLastCallCounts | deploy/firewall/runner-egress-firewall.sh:73-110 | From a chain without the script's rules, any sequence of calls leaves what its last call alone would. |
| Firewall.CallsVerdict | deploy/firewall/runner-egress-firewall.sh:73-110 | After any sequence ending in `up`, an established runner packet returns, another runner packet is dropped if its destination is listed, and every other packet gets its original verdict; after any other sequence every packet does. |
| Firewall.UpVerdictAnywhere | deploy/firewall/runner-egress-firewall.sh:78-96 | The verdict of every packet after `up` on every chain: RETURN if it is established runner traffic and the chain lacked that rule; else DROP if it comes from a runner and some listed block whose rule the chain lacked holds its destination; else what the chain said before. |
| Firewall.UpVerdict | deploy/firewall/runner-egress-firewall.sh:78-96 | On a chain without the script's rules the inserted rules decide by membership in the listed blocks, whatever the order and duplicates of the list. |
| Firewall.ChangedListVerdict | deploy/firewall/runner-egress-firewall.sh:62-96 | The verdict of every packet after `up` with one list and again with another: the blocks the second list adds are dropped above the RETURN of the first call. |
| Firewall.UpAllVerdict | deploy/firewall/runner-egress-firewall.sh:62-96 | The verdict of every packet after any sequence of `up` calls, each with its own list: runner traffic to a block some later list added to all before it is dropped even if established; everything else is decided as by the first call alone. |
| Firewall.EstablishedReturnsExactly | deploy/firewall/runner-egress-firewall.sh:78-80 | After the second call established runner traffic returns if and only if no added block holds its destination. |
| Firewall.DownBeforeChange | deploy/firewall/runner-egress-firewall.sh:101-107 | Running `down` with the old list in between gives the chain the new list alone would give. |
| Firewall.OptInDropsEstablished | deploy/firewall/egress-filter.rules:18-20 | The offered opt-in to 100.64.0.0/10 followed by a second `up` drops established runner traffic to every address from 100.64.0.0 to 100.127.255.255; on a fresh chain the same list lets it return. |
| Firewall.CanonicalContains | deploy/firewall/runner-egress-firewall.sh:84-86 | Clearing the host bits, as iptables does when it stores a rule, does not change which addresses a block holds. |
| Firewall.DefaultRanges | deploy/firewall/egress-filter.rules:11-16 | The default list covers exactly the four ranges 10/8, 172.16/12, 192.168/16 and 169.254/16. |
| Firewall.RunnerRange | deploy/firewall/runner-egress-firewall.sh:14 | The rules' source block is the addresses 172.31.255.0 to 172.31.255.255, and no others. |
| Firewall.DefaultVerdict | deploy/firewall/runner-egress-firewall.sh:73-99 | In numeric addresses, after any calls ending in `up` with the default list: what a runner sends anew to a private, link-local or metadata address is dropped, its established traffic returns, and every other packet gets its original verdict. |
| Firewall.RunnersAreIsolated | deploy/firewall/egress-filter.rules:6-8 | With the default list, new traffic from any address of 172.31.255.0 to 172.31.255.255 to any of these or to the metadata service is dropped. |
| LogText.SplitLines | core/adapter/http/status_page.go:71-86 | The loop yields the lines of the text, a final newline ending the last one. |
| LogText.JoinLines | core/adapter/http/status_page.go:88-97 | The loop puts one newline between consecutive lines. |
| LogText.SplitThenJoin | core/adapter/http/status_page.go:71-97 | Joining the lines of a text gives the text without one final newline. |
| LogText.JoinThenSplit | core/adapter/http/status_page.go:71-97 | Splitting a joined list gives it back iff no line holds a newline and the list is empty or its last line is not. |
| LogText.ReadLogTail | core/adapter/http/status_page.go:62-68 | The page shows the joined last maxLines lines. |
| LogText.TailMeaning | core/adapter/http/status_page.go:62-68 | That is a suffix of the text starting at a line boundary, with fewer than maxLines newlines, and no shorter than the limit requires. |
| LogText.TailFile | core/adapter/docker/runner.go:238-251 | A suffix of at most max bytes: the whole file if it fits; else the longest suffix shorter than max that starts after a newline if the window has a newline before its final byte; else the window. |
| EnvCsv.GetEnvCSV | core/config/config.go:136-148 | The loop yields the kept pieces of the value, or of the default when the variable is unset or empty. |
| EnvCsv.TrimMeaning | core/config/config.go:143 | Trimming removes white space at both ends only, and leaves none there. |
| EnvCsv.SpacesByCode | core/config/config.go:143 | White space is code points 9 to 13, 32, 133, 160 and the further spaces and separators of Unicode, listed by code. |
| EnvCsv.EntriesAreGood | core/config/config.go:133-146 | Every entry is non-empty, trimmed and comma-free. |
| EnvCsv.CsvConcat | core/config/config.go:142-146 | A comma separates: the entries of `a,b` are those of `a` followed by those of `b`. |
| EnvCsv.CsvSingle | core/config/config.go:142-146 | A text without commas gives its trimmed form, or nothing if that is empty; with the row above this fixes the result for every text. |
| EnvCsv.RereadIsStable | core/config/config.go:133-148 | A non-empty result joined with commas reads back as itself, whatever the default. |
| SignIn.IdentitiesRepo.Upsert | core/adapter/postgres/identities_repo.go:27-40 | A known GitHub id gets a new login and email and keeps its user; a new one is bound to the given user. |
| SignIn.OAuth.Callback | core/adapter/http/auth/github_oauth.go:129-162 | Served alone, it opens the session for the user the GitHub id is bound to, the earlier one if there was one, and touches no other binding; each failing storage call ends it with what was done before it and no session. |
| SignIn.BindingIsForEver | core/adapter/postgres/identities_repo.go:34-38 | In every interleaving of callbacks a bound GitHub id stays bound to its user. |
| SignIn.SessionsAreRight | core/adapter/http/auth/github_oauth.go:129-158 | In every interleaving an opened session is for the bound user iff the callback found the binding or its own insert made it. |
| SignIn.LaterLookupsAreRight | core/adapter/http/auth/github_oauth.go:130-158 | A callback that looks up once the binding exists works for the bound user throughout, and opens its session for that user. |
| SignIn.FirstCallbacksCanCollide | core/adapter/http/auth/github_oauth.go:130-158 | A concrete interleaving of two first callbacks in which one opens a session for a user the GitHub id is not bound to. |

## Left out

- JobOutcomes.LogIsWhereTheRowSays: cleaning of the joined path (`filepath.Join`) is not modelled; the log directory
  is taken as already clean.
- UseCases.EnqueueJob.Execute: the credentials are only there or not there; the runner spec of the model does not
  carry them.
- UseCases.EnqueueJob.Launch: a failing call does nothing. A storage call that stores and still reports an error is
  not modelled, nor is a failing start that leaves a container behind, as `docker run` ended by a cancelled request
  can (`core/adapter/docker/runner.go:91`); the step system assumes the same of its failing start.
- UseCases.CancelJob.Execute: the storage of the object model does not fail beyond not found; failing calls are steps
  of the step system.
- UseCases.HandleRunnerCompletion.Execute: the storage of the object model does not fail beyond not found; failing
  calls are steps of the step system. Delivery over the network, whose outcome the code ignores, is one event.
- JobsRepo.FakeJobsRepo.ListForUser: the library sort is an insertion sort here; callers use only that the result is a
  sorted rearrangement.
- LogText.ReadLogTail: a negative limit would be an index out of range in the program; its callers pass 200. Opening
  the file, the seek to the last 256 KiB and the replacement of invalid UTF-8 are left out.
- Recovery.WorkDir.StartDirs: removals are taken to succeed; file contents and modes are left out.
- Recovery.WorkDir.SweepOrphanSecrets: names are compared as text; a work directory path with pattern characters is
  not modelled.
- Firewall.UpVerdictAnywhere: a jump to another chain is a verdict of its own, so what that chain decides is not
  followed; matches the script does not use are left open.
- Firewall.CallsVerdict: one CIDR list for all calls of a sequence of `up` and `down`; for lists that change,
  UpAllVerdict covers sequences of `up` and DownBeforeChange one `down` in between.
- Firewall.DockerUser.Up: creating the docker network, the root and chain checks and a failing iptables command are
  left out; a script that stops half-way is not modelled.
- ApiKeys.HashingRepo.Create: the digest is ideal, matching its own text and no other; bcrypt's limit of 72 bytes is
  not modelled (minted keys are shorter).
- ApiKeys.ResolvesAsTheBookSays: minted plaintexts are assumed fresh. A failing GetByPrefix and a failing RecordUsed,
  which the code ignores, are left out.
- SignIn.OAuth.Callback: state cookie, token exchange and profile fetch come before the modelled part; the user id is
  assumed fresh, so no binding stands in the way of the insert.
- JobProtocol.Do: the steps before Create touch no shared state and are folded into it; a clock read between two calls
  is any time between them; a restart keeps rows and containers and loses all threads.
- Liveness: nothing dequeues a waiting job, so no statement says that a queued job starts or a job ends.
- SQL, Docker, HTTP, JSON, templates, cryptography, GitHub calls and the webhook retry loop are outside the model; the
  map-backed repositories stand for the store, and for identities and installations the conflict rule of the insert.
- Argument lists of `docker run`, configuration validation and error-to-status mapping settle on a single reading and
  are left out.
