# agentops-core: a verified model of its controllers and helpers

The project models the parts of the operator whose behaviour spans several
functions or many steps, and proves what they promise for every input, every
reachable state or every execution. `dafny verify dfyconfig.toml` checks it.

## What is modelled

- **AgentRuns** (`agentrun_*.dfy`). A store of AgentRuns, Agents and Jobs.
  `agentrun_model.dfy` gives one Reconcile as a function on the store, with an
  `Env` saying which API calls succeed and what Job, prompt and status endpoint
  answer, and the environment's steps (runs created and deleted, agents changed,
  Jobs progressing or removed, the clock). `agentrun_controller.dfy` is the
  reconciler in its imperative form, proved equal to that function.
  `agentrun_safety.dfy` has the one-step facts, `agentrun_executions.dfy`,
  `agentrun_launch.dfy` and `agentrun_drain.dfy` the theorems over whole
  executions, `agentrun_outcomes.dfy` what one Reconcile reports.
- **The MCP stdio bridge** (`spawn_*.dfy`). Sends, the reader goroutine and the SSE
  handlers as interleaved atomic steps; the server as a class with one method per
  atomic action.
- **Providers and Integrations** (`dependency_*.dfy`). The finalizer protocol, the
  `boundAgents` counter with the work queue and watch that feed it, and the
  readiness gate of the Agent controller.
- **Smaller parts**: the OAuth2 token cache (`token_cache.dfy`), shell quoting and
  the crane command against a POSIX sh lexer (`shell.dfy`), the pod security floor
  (`security.dfy`), the permission rule language (`permissions.dfy`), and layered
  call defaults (`call_defaults.dfy`).

## Assumptions of the model

- A Reconcile is one atomic step: each controller has one worker, and reads see
  earlier writes. Any API call in it may still fail, leaving the writes made so far.
- Only the AgentRun controller writes run phases and the agent label after creation,
  and nobody changes a run's `spec.agentRef`; a run is created with an empty status,
  and a name is not used for two runs.
- Nobody but the Provider and Integration controllers adds or removes their
  protection finalizer.
- The concurrency policy is one of the three schema values in the environment's
  steps (the code itself is modelled for any value).
- "The limit of this agent is not lowered up to this state" (`NeverLowered`) is a
  hypothesis of exactly those theorems that state it. The concurrency bound itself is proved without it, against the
  highest limit an agent has had.
- The clock is monotone and counts whole seconds for AgentRuns, nanoseconds for
  tokens. A timeout is the already parsed duration, if any.
- The bridge is modelled with every step its code permits. That an id is used again
  only when its last use is over and answered, and that the subprocess answers each
  request at most once, is a hypothesis (`Disciplined`) of exactly those theorems
  that state it. `SpawnBridge.MisdeliversIff`, `RegisterKeepsIndexIff`,
  `ReadBlocksIff`, `UnblocksIff` and `OpenKeepsListeningIff` say what breaks without
  it, and when.

## Where the code differs from its description

- README.md:117 calls the queue policy FIFO; admission keeps no order
  (`AgentRunOutcomes.YoungerOvertakesIff`, `YoungerDaemonOvertakesIff`).
- Any error while fetching the Agent fails the run as "not found", also a transient
  one (`AgentRunOutcomes.ReportsAgentNotFoundIff`, `FalseNotFoundIff`).
- A Provider whose Agents cannot be listed is written with a count of zero, and
  nothing brings it back when that write changes nothing
  (`DependencySafety.ReconcileCoherentIff`).
- The gate of the Agent controller accepts a Ready dependency that has already been
  released and may leave the store at any time (`DependencySafety.BuiltOnStaysIff`,
  `UnprotectedPassesGate`).
- A Job removed before its run is terminal, for instance by its time to live of two
  minutes, can be created again, and only such a one (`AgentRunLaunch.RelaunchableIff`,
  `AgentRunOutcomes.LaunchedIff`).
- internal/resources/security.go:28-32 says every field that would weaken the
  restricted profile is clamped and reported. The unread ones (`procMount`, AppArmor,
  Windows `hostProcess`, a `capabilities.drop` without ALL, unsafe sysctls) are
  clamped without a report (`Security.SilentlyClampedIff`,
  `UnmaskedProcMountIsSilent`), and a seccomp type outside the documented values,
  which the Agent schema takes as well, is let through
  (`Security.WeakeningFieldFate`, `PodWeakeningFieldFate`).
- A token lifetime of 2^63 nanoseconds or more wraps around, and tokens are then
  fetched more often than their lifetime asks for (`TokenCache.AlwaysSpacedIff`).
- Two MCP clients of one gateway that use the same request id, or two SSE requests
  from one remote address, get in each other's way
  (`SpawnBridge.DuplicateIdLosesAnswer`, `DuplicateSessionOrphansBoth`).
- The seccomp floor refuses only the literal `Unconfined`, and /tmp is recognised by
  volume name (`Security.SecuredMeetsFloor`, `Security.TmpMounted`).
- `tool_name` rules are documented to match all calls to a tool; a tool whose name
  has a colon cannot be named (`Permissions.ToolIsNameableIff`).

## Model

| member | source | states |
|---|---|---|
| AgentRunController.AgentRunReconciler.Reconcile | internal/controller/agentrun_controller.go:66-219 | for every store and every pattern of failing calls, the new store and the work-queue result are those of the step function all theorems below are about, with a victim that is a legal choice |
| AgentRunController.AgentRunReconciler.EnsureLabel | internal/controller/agentrun_controller.go:124-134 | after it the stored run carries its agent's label, or the write failed and the store is unchanged |
| AgentRunController.AgentRunReconciler.LabelAndSchedule | internal/controller/agentrun_controller.go:124-219 | the label is written before anything is counted; a failed write ends the reconcile with the store unchanged |
| AgentRunController.AgentRunReconciler.ScheduleRun | internal/controller/agentrun_controller.go:139-169 | a daemon run that has not started waits while its agent is down; otherwise admission decides |
| AgentRunController.AgentRunReconciler.CheckConcurrency | internal/controller/agentrun_controller.go:223-281 | admits, queues, rejects or replaces by the number of other labelled Running runs; not allowed means the new status is already written |
| AgentRunController.AgentRunReconciler.CountActive | internal/controller/agentrun_controller.go:243-251 | the loop counts the distinct other Running runs of the listing |
| AgentRunController.AgentRunReconciler.ListRuns | internal/controller/agentrun_controller.go:235-241 | exactly the runs of the namespace with the agent's label, each once, in no particular order |
| AgentRunController.AgentRunReconciler.CancelOldestRun | internal/controller/agentrun_controller.go:283-314 | cancels one Running run other than the current one, none of which is older, and no other; nothing if there is none |
| AgentRunController.SortByCreation | internal/controller/agentrun_controller.go:296-298 | a permutation ordered by creation time |
| AgentRunController.AgentRunReconciler.ReconcileTaskRun | internal/controller/agentrun_controller.go:317-475 | creates the Job when none is seen and tolerates AlreadyExists; otherwise reports the Job's state |
| AgentRunController.AgentRunReconciler.ReconcileDaemonRun | internal/controller/agentrun_controller.go:478-572 | one prompt, then polling |
| AgentRunController.AgentRunReconciler.PollDaemonRunStatus | internal/controller/agentrun_controller.go:576-649 | times out before the endpoint is asked, and never fails a run on its answer |
| AgentRunController.AgentRunReconciler.DispatchRun | internal/controller/agentrun_controller.go:171-214 | the status left by the mode handler is written even when the handler reports an error |
| AgentRunController.AgentRunReconciler.PatchStatus | internal/controller/common.go:327-344 | no API call, hence no error, when nothing changed; otherwise the whole status is written or the call fails |
| AgentRunController.AgentRunReconciler.SetRunFailedStatus | internal/controller/agentrun_controller.go:702-713 | phase, completion time, output and Complete condition are set together |
| AgentRunSafety.ReconcileFrame | internal/controller/agentrun_controller.go:66-219 | one Reconcile changes only its own run's label and status, the victim's status, and Jobs |
| AgentRunSafety.StepKeepsInv | internal/controller/agentrun_controller.go:66-475 | every step, whatever fails, keeps label coherence and status bookkeeping |
| AgentRunSafety.StepBound | internal/controller/agentrun_controller.go:253-277 | no step raises an agent's Running count above the larger of its old count and its limit |
| AgentRunExecutions.ConcurrencyBound | internal/controller/agentrun_controller.go:223-281 | in every reachable state the Running runs naming an agent are at most the highest limit it has had, under all three policies and any failures |
| AgentRunExecutions.BoundByCurrentLimit | internal/controller/agentrun_controller.go:223-314 | at most the maxRuns now in force, or one where it says nothing positive, if the agent's limit has not been lowered so far |
| AgentRunExecutions.UnknownPolicyOverruns | internal/controller/agentrun_controller.go:253-280 | with a policy outside the schema the bound fails: a concrete state and Reconcile (when exactly, says AgentRunOutcomes.LetThroughIff) |
| AgentRunExecutions.LabelIndexAgrees | internal/controller/agentrun_controller.go:124-134 | whenever runs are counted, the label selector finds exactly the other Running runs whose spec names the agent |
| AgentRunExecutions.StatusBookkeeping | internal/controller/agentrun_controller.go:403-407 | terminal iff completion time set iff condition Complete is true; Running implies start time; start not after completion |
| AgentRunExecutions.RankRisesOnlyByDemotion | internal/controller/agentrun_controller.go:253-262 | a phase goes back exactly when a Running run is reconciled at a limit that others already fill under the queue policy |
| AgentRunExecutions.RunningIsAdmitted | internal/controller/agentrun_controller.go:243-280 | within the limit a Running run always passes admission again |
| AgentRunExecutions.PhasesOnlyAdvance | internal/controller/agentrun_controller.go:90-95 | between any two states ranks never rise, and Running only stays or ends, if the limit of the run's agent has not been lowered up to the second |
| AgentRunExecutions.TerminalIsFinal | internal/controller/agentrun_controller.go:90-95 | a terminal run's status never changes again, by any step, another run's replacement included |
| AgentRunExecutions.ReplaceCancelsOneOldest | internal/controller/agentrun_controller.go:283-314 | another run changes iff it is the victim of a replacement, a Running run of that agent with the earliest creation time; it is Failed now, with the replaced output and a Complete condition by cancellation, and nothing else of it changes |
| AgentRunExecutions.ReplaceKeepsBound | internal/controller/agentrun_controller.go:271-276 | a replacement happens only at exactly the limit, for a run that is not Running, and leaves the agent within it; other agents keep their Running runs |
| AgentRunExecutions.UnfinishedIsRequeued | internal/controller/agentrun_controller.go:66-219 | Reconcile reports nothing more to do only if the stored run is terminal or gone |
| AgentRunLaunch.ReconcileJobs | internal/controller/agentrun_controller.go:329-411 | exactly when a Reconcile brings the run's Job into being |
| AgentRunLaunch.SingleLaunch | internal/controller/agentrun_controller.go:385-411 | over any execution at most one Job is created for a run, despite failed status writes and stale reads, if its Job is removed only after the run ends |
| AgentRunLaunch.RelaunchableIff | internal/resources/agent_job.go:104-124 | a run whose Job is gone can get a Job again in some continuation iff it is live, in any phase |
| AgentRunLaunch.DaemonPollTimesOut | internal/controller/agentrun_controller.go:577-590 | a working Reconcile fails a Running daemon run iff more than spec.timeout, or half an hour, has passed, whatever the endpoint answers |
| AgentRunLaunch.ReconcileKeepsStart | internal/controller/agentrun_controller.go:481-485 | a daemon run's start time is not rewritten while it stays Running |
| AgentRunLaunch.DaemonDeadline | internal/controller/agentrun_controller.go:481-590 | a daemon run reconciled at least every d is terminal once start, timeout and d have passed |
| AgentRunDrain.RipeIsAdmitted | internal/controller/agentrun_controller.go:243-280 | no deadlock: a Running run, or any run while none is Running, is admitted |
| AgentRunDrain.Drain | internal/controller/agentrun_controller.go:66-475 | a fixed set of runs of one available agent is all terminal after an explicit number of rounds in any order and with any interleaving, if calls succeed, the agent's limit is not lowered, and each run's setbacks are bounded: unsuccessful polls, and removals of its Job while it is live (Jobs of ended runs may be removed freely) |
| AgentRunOutcomes.LetThroughIff | internal/controller/agentrun_controller.go:224-280 | let through without replacing iff no other run is Running, or fewer than maxRuns, or the policy is outside the schema; replacing iff there is no such room under replace |
| AgentRunOutcomes.PolicyAtLimit | internal/controller/agentrun_controller.go:254-269 | without room, queue (also by default) only turns the phase to Queued and reject fails the run at once; every other run and Job is untouched |
| AgentRunOutcomes.DaemonWaits | internal/controller/agentrun_controller.go:139-158 | a run that has not started waits as Pending, with the condition saying why, while its daemon agent is down; neither prompted nor queued |
| AgentRunOutcomes.TaskReportsJob | internal/controller/agentrun_controller.go:385-474 | every field of the status and the result: Succeeded iff the Job succeeded, Failed with its error or a default iff it only failed, otherwise going on; without a Job the run starts |
| AgentRunOutcomes.StaleReadRestarts | internal/controller/agentrun_controller.go:398-411 | a read that misses the Job restarts the run's clock and leaves the Job alone |
| AgentRunOutcomes.DaemonReportsAgent | internal/controller/agentrun_controller.go:513-564 | every field of the status and the result after a prompt: unreachable goes on, refused fails, answered succeeds, accepted starts |
| AgentRunOutcomes.DaemonPollReports | internal/controller/agentrun_controller.go:576-649 | every field of the status and the result after a poll: past the timeout Failed, else Succeeded iff the agent is idle, else going on unchanged |
| AgentRunOutcomes.UnknownModeFails | internal/controller/agentrun_controller.go:190-192 | a run of an agent in no known mode fails |
| AgentRunOutcomes.LaunchedIff | internal/controller/agentrun_controller.go:329-411 | a working Reconcile gives a live task run without a Job a fresh one iff there is room or the policy is replace, and touches no other Job |
| AgentRunOutcomes.NothingToDo | internal/controller/agentrun_controller.go:80-95 | a run that is gone or terminal is left alone and done with; one that cannot be read is tried again |
| AgentRunOutcomes.FailsBeforeExecution | internal/controller/agentrun_controller.go:124-134 | a failing label update, List or victim patch is an error that leaves all but the label as it was |
| AgentRunOutcomes.FailsInExecution | internal/controller/agentrun_controller.go:329-390 | a failing Job read, git step or Job creation is an error that changes no Job and leaves the run going on |
| AgentRunOutcomes.FailedStatusWrite | internal/controller/common.go:327-344 | a failing status write keeps the stored status, and is an error iff a write was due: the status differs, or the label has just been written |
| AgentRunOutcomes.ReportsAgentNotFoundIff | internal/controller/agentrun_controller.go:106-118 | a live run is failed, and done with, as "agent not found" iff run read and status write work and the fetch of the Agent fails for any reason |
| AgentRunOutcomes.FalseNotFoundIff | internal/controller/agentrun_controller.go:106-118 | that report is false iff the Agent is in the store and its fetch fails |
| AgentRunOutcomes.YoungerOvertakesIff | internal/controller/agentrun_controller.go:243-262 | of two queued runs of a task agent the younger starts when reconciled iff there is room, whatever the age of the other, which stays queued |
| AgentRunOutcomes.YoungerDaemonOvertakesIff | internal/controller/agentrun_controller.go:243-262 | of two queued runs of a daemon agent the younger leaves the queue when reconciled iff there is room and its prompt reaches the agent; the other is untouched |
| SpawnServer.Server.SendRegister | images/mcp-gateway/internal/spawn/spawn.go:151-156 | registration, under any id, is a step of the protocol |
| SpawnServer.Server.SendSelect | images/mcp-gateway/internal/spawn/spawn.go:168-173 | waits until the slot is filled or the context is done |
| SpawnServer.Server.SendCleanUp | images/mcp-gateway/internal/spawn/spawn.go:158-162 | clean-up deletes the entry of its id, whoever's it is, and is a step of the protocol |
| SpawnServer.Server.ReadResponse | images/mcp-gateway/internal/spawn/spawn.go:114-124 | looks the waiter of any message up by id; an unknown id is dropped |
| SpawnServer.Server.DeliverResponse | images/mcp-gateway/internal/spawn/spawn.go:120-121 | the delivery outside the mutex goes through iff the slot is free, which the correlation invariant guarantees |
| SpawnServer.Server.Broadcast | images/mcp-gateway/internal/spawn/spawn.go:125-136 | whatever the map order, each handler in the session table is offered the notification once and no other changes |
| SpawnServer.Server.ServeSSE | images/mcp-gateway/internal/spawn/spawn.go:270-284 | one queued notification moves to the client |
| SpawnServer.Server.RegisterSSE | images/mcp-gateway/internal/spawn/spawn.go:190-196 | a handler starts with an empty queue at the current end of the log, and takes the place of any other under its session id |
| SpawnServer.Server.UnregisterSSE | images/mcp-gateway/internal/spawn/spawn.go:198-203 | the entry of the handler's session id is deleted, whoever's it is |
| SpawnBridge.OwnId | images/mcp-gateway/internal/spawn/spawn.go:145-174 | in every execution, however ids are used, a completed Send returns a response carrying its own id (section 5 of the JSON-RPC 2.0 Specification) |
| SpawnBridge.StepKeepsInv | images/mcp-gateway/internal/spawn/spawn.go:112-174 | every orderly interleaved step keeps the correlation invariant |
| SpawnBridge.OwnResponse | images/mcp-gateway/internal/spawn/spawn.go:145-174 | a completed Send returns the answer to its own request, also where ids are used again after their last use is over and answered |
| SpawnBridge.ReceiveReturnsAnswer | images/mcp-gateway/internal/spawn/spawn.go:168-173 | a Send that receives takes the answer to its request as its result |
| SpawnBridge.ResultIsFinal | images/mcp-gateway/internal/spawn/spawn.go:158-173 | what a Send has received it keeps through clean-up and after |
| SpawnBridge.TablesAreLocked | images/mcp-gateway/internal/spawn/spawn.go:125-136 | while the reader broadcasts neither table changes |
| SpawnBridge.PendingIsInFlight | images/mcp-gateway/internal/spawn/spawn.go:151-162 | if no id is registered while in flight, the keys of pending are exactly the ids of the Sends between registration and clean-up |
| SpawnBridge.ReaderNeverBlocks | images/mcp-gateway/internal/spawn/spawn.go:114-124 | in no state of a disciplined execution would the reader's delivery block |
| SpawnBridge.AnswerReachesSend | images/mcp-gateway/internal/spawn/spawn.go:117-121 | an answer read while its Send waits is in its slot or in the reader's hand |
| SpawnBridge.RegisterKeepsIndexIff | images/mcp-gateway/internal/spawn/spawn.go:154-156 | registration keeps the index iff no Send in flight has the same id |
| SpawnBridge.MisdeliversIff | images/mcp-gateway/internal/spawn/spawn.go:117-121 | registering an id lets an answer to another request be delivered to the new Send iff an answer under that id is still due |
| SpawnBridge.DuplicateIdLosesAnswer | images/mcp-gateway/internal/spawn/spawn.go:158-162 | with a duplicate id the first clean-up makes the second Send's answer unknown |
| SpawnBridge.ReadBlocksIff | images/mcp-gateway/internal/spawn/spawn.go:117-121 | reading a message blocks the reader iff a Send in flight with its id has not emptied its slot |
| SpawnBridge.UnblocksIff | images/mcp-gateway/internal/spawn/spawn.go:120-121 | some continuation unblocks a blocked reader iff its Send has not yet left its select |
| SpawnBridge.StuckForever | images/mcp-gateway/internal/spawn/spawn.go:168-173 | a reader blocked on a Send that has left its select stays blocked in every continuation |
| SpawnBridge.SessionSeesBroadcasts | images/mcp-gateway/internal/spawn/spawn.go:126-136 | in every execution, the delivered and queued notifications of a handler in the session table are an ordered subsequence of those since it registered, at most 64 queued, none unaccounted for, all of them if none was dropped |
| SpawnBridge.NeverFullNeverDrops | images/mcp-gateway/internal/spawn/spawn.go:128-134 | a handler whose queue never holds 64 notifications drops nothing |
| SpawnBridge.RunningHandlersListen | images/mcp-gateway/internal/spawn/spawn.go:260-268 | while session ids of running handlers are distinct, every running handler is in the session table |
| SpawnBridge.OpenKeepsListeningIff | images/mcp-gateway/internal/spawn/spawn.go:190-196 | registering a handler keeps every running handler in the table iff none of them has its session id |
| SpawnBridge.DuplicateSessionOrphansBoth | images/mcp-gateway/internal/spawn/spawn.go:198-203 | a second handler under a live session id puts the first one out of the table, and the first one's end the second |
| SpawnBridge.OrphanHearsNothing | images/mcp-gateway/internal/spawn/spawn.go:126-136 | a handler out of the table is never offered a notification again |
| DependencyController.DependencyReconcilers.ProcessNext | internal/controller/provider_controller.go:50-116 | one turn of the worker, with the requests it puts back, is the step function the theorems are about |
| DependencyController.DependencyReconcilers.ReconcileObject | internal/controller/integration_controller.go:45-101 | finalizer first, then status, for both kinds |
| DependencyController.DependencyReconcilers.ReconcileDelete | internal/controller/provider_controller.go:121-156 | deletion is held up while Agents reference the object |
| DependencyController.DependencyReconcilers.CountBoundAgents | internal/controller/provider_controller.go:295-311 | the number of distinct Agents of the namespace that name the object, for repeated names too |
| DependencyController.DependencyReconcilers.AgentToProviderRequests | internal/controller/provider_controller.go:352-371 | one request per distinct Provider name, no more and no fewer |
| DependencyController.DependencyReconcilers.ReadinessGate | internal/controller/agent_controller.go:91-159 | passes iff every dependency of both kinds resolves and is Ready |
| DependencyController.DependencyReconcilers.Resolve | internal/controller/agent_controller.go:352-362 | all named objects in order, or nothing if one is missing |
| DependencySafety.ReconcileCoherentIff | internal/controller/provider_controller.go:87-113 | after a Reconcile the counter is right or the Provider is queued, except exactly when a failed List meets a stored zero and an unchanged phase |
| DependencySafety.AgentSetEnqueues | internal/controller/provider_controller.go:314-323 | an Agent change alters a Provider's count only if the watch enqueues that Provider |
| DependencySafety.AgentSetEnqueuesOnly | internal/controller/provider_controller.go:352-371 | the watch enqueues exactly the Providers of the namespace that the Agent names or named |
| DependencySafety.ReferrersIff | internal/controller/provider_controller.go:295-311 | an Agent counts for an object iff it is in its namespace and lists it under its kind |
| DependencySafety.LiveReconcile | internal/controller/integration_controller.go:66-101 | a working Reconcile of a live object of either kind adds the finalizer if it is missing, and otherwise writes Ready iff valid, Failed iff not, and a Provider's count; nothing else |
| DependencySafety.PhaseOnlyByValidity | internal/controller/integration_controller.go:74-83 | only a Reconcile of a protected live object changes a phase, to Ready if it found it valid and else to Failed |
| DependencySafety.FailedCallIsRepeated | internal/controller/integration_controller.go:49-61 | a Reconcile whose Get, List in a deletion, finalizer update or status patch fails changes nothing and is repeated |
| DependencySafety.NothingToDo | internal/controller/provider_controller.go:121-127 | an object that has left, or that waits for others' finalizers, is let be |
| DependencySafety.CountersAgree | internal/controller/provider_controller.go:87-113 | over every execution with List succeeding, each Provider not being deleted is queued or has the right count |
| DependencySafety.Settles | internal/controller/provider_controller.go:62-116 | three undisturbed reconciles leave a dependency of either kind out of the queue, protected, with the right phase and, a Provider, the right count |
| DependencySafety.ReadyOnlyWhenProtected | internal/controller/provider_controller.go:67-106 | Ready is only written to an object that carries the finalizer |
| DependencySafety.ReleasedOnlyUnreferenced | internal/controller/integration_controller.go:106-140 | finalizer or object disappear only in a state without referring Agents |
| DependencySafety.DeletionReleasesIff | internal/controller/provider_controller.go:124-155 | a working reconcile of an object being deleted releases it iff nobody references it, and else marks it in use and counts; nothing else changes |
| DependencySafety.StaysWhileReferenced | internal/controller/integration_controller.go:103-139 | a protected object stays protected over any stretch in which it is referenced |
| DependencySafety.GatePassesIff | internal/controller/agent_controller.go:91-159 | the gate passes iff every Integration and every Provider the Agent lists is stored and Ready |
| DependencySafety.BuiltOnStays | internal/controller/agent_controller.go:91-159 | what an Agent passed the gate with, if it carried the finalizer then, stays in the store while the Agent references it |
| DependencySafety.BuiltOnStaysIff | internal/controller/agent_controller.go:91-159 | from a gate passed, a dependency stays in every continuation that keeps the reference iff it carries the finalizer at that moment; else removals of foreign finalizers take it out under the Agent |
| DependencySafety.UnprotectedPassesGate | internal/controller/agent_controller.go:364-372 | an execution from the empty store in which an unprotected dependency passes the gate |
| TokenCache.TokenCacheObject.GetToken | images/token-injector/main.go:148-203 | reply and cache of one call, for any clock readings and any endpoint outcome |
| TokenCache.WrapIsCongruent | images/token-injector/main.go:199 | the 64-bit duration of a product differs from it by a multiple of 2^64 |
| TokenCache.HitHasLeewayLeft | images/token-injector/main.go:152-154 | every cached answer is the token fetched last and has more than the leeway left of its declared lifetime (expires_in, section 5.1 of RFC 6749), even where the duration wraps |
| TokenCache.FailedFetchKeepsCache | images/token-injector/main.go:175-192 | a failed fetch leaves the cache as it was |
| TokenCache.RefreshesAreSpaced | images/token-injector/main.go:194-199 | k refreshes with a constant lifetime of any size span at least (k - 1) times its 64-bit duration minus leeway |
| TokenCache.AlwaysSpacedIff | images/token-injector/main.go:199 | the granted lifetime minus leeway spaces the refreshes of every sequence of calls iff the lifetime is below 2^63 nanoseconds |
| TokenCache.LaterCallHitsIff | images/token-injector/main.go:152-199 | until the next refresh a call is answered from the cache iff more than the leeway is left of the expires_in seconds recorded (300 if not positive, as a 64-bit duration), and else gets what it fetches |
| TokenCache.FirstCallsFetch | images/token-injector/main.go:152-203 | before any refresh every call gets what it fetches |
| TokenCache.RefreshIsUsefulIff | images/token-injector/main.go:199 | some later moment is answered from the cache a refresh leaves iff its wrapped span exceeds the leeway |
| Shell.QuotedIsOneWord | internal/resources/common.go:154-158 | sh reads a quoted string as exactly one word equal to it, for every string |
| Shell.QuotedLineIsItsWords | internal/resources/common.go:154-158 | any list of quoted arguments lexes to that list |
| Shell.CraneCommandLexes | internal/resources/agent_deployment.go:194 | for every path and reference the command lexes to the intended tokens |
| Shell.BuildCraneInitContainer | internal/resources/agent_deployment.go:193-206 | the container's sh -c argument lexes to the intended tokens |
| Security.MergePodSecurityContext | internal/resources/security.go:168-222 | the loop-free merge equals the field-wise floor merge with its report |
| Security.MergeContainerSecurityContext | internal/resources/security.go:228-282 | the same for containers |
| Security.ComputeSecurityViolations | internal/resources/security.go:292-301 | the same list ApplySecurity returns |
| Security.ApplySecurity | internal/resources/security.go:319-391 | the pod in place becomes the secured pod, over any number of containers, with the violations of ComputeSecurityViolations |
| Security.SecuredMeetsFloor | internal/resources/security.go:319-391 | every container and the pod meet the restricted floor of the Pod Security Standards; its seccomp part iff the override's profile type is a documented value |
| Security.MergeIsFixpoint | internal/resources/security.go:168-282 | merging a merged context returns it without violations |
| Security.ReportedIff | internal/resources/security.go:228-282 | a container field is reported iff putting its value into the restricted context would break the floor and it is neither unread nor a seccomp type outside the documented values |
| Security.PodReportedIff | internal/resources/security.go:168-222 | the same for pod fields |
| Security.WeakeningFieldFate | internal/resources/security.go:28-32 | a field that would break the floor is clamped and reported, or clamped in silence iff it is unread, or let through iff it is a seccomp type outside the documented values |
| Security.PodWeakeningFieldFate | internal/resources/security.go:28-32 | the same for pod fields |
| Security.SilentlyClampedIff | internal/resources/security.go:28-32 | a container override is clamped with no report at all iff it has an unread weakening field and no weakening field that is reported |
| Security.UnmaskedProcMountIsSilent | internal/resources/security.go:228-282 | the input in point: an unmasked procMount alone |
| Security.NoViolationsIff | internal/resources/security.go:292-301 | the list of violations is empty iff every field that would break the floor is unread or a seccomp type outside the documented values |
| Security.KeptIff | internal/resources/security.go:228-282 | the main container gets a field as the override asks iff that is the restricted value, or it is user, group, seccomp or SELinux and keeps the floor (or is a seccomp type outside the documented values) |
| Security.PodKeptIff | internal/resources/security.go:168-222 | the pod gets a field as the override asks iff that is the restricted value, or it is one the merge reads and keeps the floor (or is a seccomp type outside the documented values) |
| Security.SecuredFrame | internal/resources/security.go:319-391 | containers keep number, order, names and mounts, with at most the /tmp mount behind them iff no mount was of the tmp volume; volumes alike; the main container gets the merged context, every other one the restricted one; the service account token only on request |
| Security.PodDefaults | internal/resources/security.go:96-108 | where the override says nothing, or something refused: user, group and fsGroup 65532, runtime default seccomp, the rest unset |
| Security.ContainerDefaults | internal/resources/security.go:70-84 | the same for the main container: no escalation, read-only root, non-root, ALL and NET_RAW dropped |
| Security.ViolationsInPlace | internal/resources/security.go:168-301 | a report names each refused field once, the pod's before the container's, in the order of the merges |
| Security.ApplyIsIdempotent | internal/resources/security.go:319-391 | securing a secured pod changes nothing |
| Security.TmpMounted | internal/resources/security.go:354-388 | the tmp volume is mounted in every main container; at /tmp iff no other mount of it was there alone |
| Security.TmpMountedInit | internal/resources/security.go:354-388 | the same for init containers |
| Permissions.TextMeaning | images/mcp-gateway/internal/permissions/permissions.go:73-115 | every rule text matches what the rule it parses to applies to |
| Permissions.ParsePrint | images/mcp-gateway/internal/permissions/permissions.go:3-8 | parsing a printed rule gives the rule back |
| Permissions.PrintParse | images/mcp-gateway/internal/permissions/permissions.go:73-115 | every well-formed text is the print of a printable rule |
| Permissions.PrintedRuleMatches | images/mcp-gateway/internal/permissions/permissions.go:73-124 | the matcher on a printed rule decides that rule |
| Permissions.ToolIsNameableIff | images/mcp-gateway/internal/permissions/permissions.go:75-81 | some rule matches a tool iff its name has no colon |
| Permissions.PoliciesAreMonotone | images/mcp-gateway/internal/permissions/permissions.go:45-70 | deny and allow are complements, monotone in the rules, indifferent to order and repetition |
| Permissions.OthersAllowAll | images/mcp-gateway/internal/permissions/permissions.go:45-60 | an absent policy and an unknown mode allow every call |
| Permissions.PolicyMeaning | images/mcp-gateway/internal/permissions/permissions.go:45-60 | a policy of printed rules is decided by the structured rules |
| CallDefaults.MergeBoth | internal/resources/configmap.go:670-727 | what the merged layer shares with its inputs: whole sections only one of them has, and the pointers and slice inside a section both have, in a new struct |
| CallDefaults.MergeCallDefaults | internal/resources/configmap.go:662-727 | the right-biased merge of both layers, without modifying any existing object, with exactly that sharing |
| CallDefaults.ConvertCallDefaults | internal/resources/configmap.go:627-658 | an equal value in new structs with a new slice, whose pointers are the source's own |
| CallDefaults.EntryCallDefaults | internal/resources/configmap.go:608-622 | the Provider's defaults overridden by the binding's, if there is one, inputs unmodified; each pointer is the binding's, or else the Provider's own |
| CallDefaults.MergeIsAssociative | internal/resources/configmap.go:660-727 | layers may be grouped either way |
| CallDefaults.NilIsIdentity | internal/resources/configmap.go:663-668 | an absent layer changes nothing |
| CallDefaults.SectionPresentIff | internal/resources/configmap.go:673-725 | a section is there iff one of the layers has it |
| CallDefaults.LastLayerWins | internal/resources/configmap.go:660-661 | in any stack of layers each setting comes from the last layer that sets it |

## Left out

- Interleaving inside one Reconcile, informer lag for AgentRun lists, JSON merge patches, optimistic locking and owner references: a reconcile is one step on an abstract store.
- A bound on live Jobs: `cancelOldestRun` does not delete the victim's Job, and a run whose status write failed after its Job was created is not counted as Running.
- AgentRunController.AgentRunReconciler.ReconcileTaskRun: does not keep the model, trace id and tool call fields, the Provider lookups, the Job's contents or the per-run ConfigMap, because they are copied or only built.
- AgentRunController.AgentRunReconciler.ReconcileDaemonRun: does not keep tool calls, tokens, cost, model and trace id, because they are copied from the answer.
- AgentRunController.AgentRunReconciler.PollDaemonRunStatus: does not keep the same copied fields.
- Status fields copied from results (model, tool calls, tokens, cost, trace id) and the wording of messages; messages are kept apart by constructor.
- Git workspace resolution, per-run ConfigMaps and Provider lookups of a task run: reduced to an outcome of the environment.
- HTTP, JSON, subprocess pipes and the blocking of writes to them, logging, tracing, signals: outcomes of the environment, or absent.
- Validation of Provider and Integration specs and Secrets: one boolean of the environment.
- DependencyController.DependencyReconcilers.ReconcileObject: does not keep the ConfigValid, SecretReady and Ready conditions, because they copy that boolean.
- DependencyController.DependencyReconcilers.ReadinessGate: decides only; the conditions, status patches and requeues of the Agent's reconcile around it are not kept.
- Shell.BuildCraneInitContainer: covers the branch without a pull secret; the other one inserts the secret's key unquoted. Volume mounts and the image are constants.
- The lexer of `shell.dfy` refuses double quotes, `$`, backquotes, comments, `;;`, here-documents and the other two-character redirections, does no pathname or tilde expansion, and does not join an operator split by a line continuation; the modelled commands have none of these unquoted.
- Fields of a security context with no part in the standard's floor (`supplementalGroupsPolicy`, `seLinuxChangePolicy`, the rest of `windowsOptions`): neither merged nor modelled.
- Security.ApplySecurity: contexts are values, so that several main containers share one context object is not visible; SELinux options pass through as in the source.
- ensureEphemeralStorage, SidecarResources and the resource builders, webhooks, channels, network policies, RBAC: they only fill in structures.
- The rest of buildProviderEntry and the rest of a provider entry: plain copies of fields.
- SpawnServer.Server.Broadcast: is the uninterrupted loop; with handlers taking notifications in between, the same pushes are the single steps of `SpawnBridge`.
