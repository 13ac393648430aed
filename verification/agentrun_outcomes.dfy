// What one Reconcile reports and writes, in terms of the true number of Running
// runs, of the specs, and of what the Job or the agent answered; first with working
// API calls, then for each call that may fail.
module AgentRunOutcomes {
  import opened Basics
  import opened AgentRunModel
  import opened AgentRunSafety
  import opened AgentRunExecutions
  import opened AgentRunLaunch

  // k is a live run of an agent in the store.
  predicate LiveRun(s: Cluster, k: Key) {
    k in s.runs && !Terminal(s.runs[k].status.phase) && AgentKey(k, s.runs[k]) in s.agents
  }

  function AgentOf(s: Cluster, k: Key): Agent
    requires k in s.runs && AgentKey(k, s.runs[k]) in s.agents
  {
    s.agents[AgentKey(k, s.runs[k])]
  }

  // ... and does not wait for its agent to come up: only a daemon agent that is down
  // is waited for, by runs that have not started.
  predicate Schedulable(s: Cluster, k: Key) {
    LiveRun(s, k) && (AgentOf(s, k).mode == Daemon ==> AgentOf(s, k).up || s.runs[k].status.phase == Running)
  }

  function OthersRunning(s: Cluster, k: Key): nat
    requires k in s.runs
  {
    |RunningOf(s, AgentKey(k, s.runs[k])) - {k}|
  }

  predicate HasRoom(s: Cluster, k: Key)
    requires LiveRun(s, k)
  {
    Room(OthersRunning(s, k), AgentOf(s, k).concurrency)
  }

  // ----- Admission -----

  // With room a run is let through and nobody is cancelled; without, it is let
  // through only by cancelling another run under the replace policy, or under a
  // policy outside the schema, and then the agent's limit is passed.
  lemma LetThroughIff(s: Cluster, k: Key, env: Env)
    requires Labelled(s) && Schedulable(s, k) && CallsWork(env)
    ensures Proceeds(s, k, env) && !Replaces(s, k, env) <==> HasRoom(s, k) || AsksOther(AgentOf(s, k).concurrency)
    ensures Replaces(s, k, env) <==> !HasRoom(s, k) && AsksReplace(AgentOf(s, k).concurrency)
  {
    LabelIndexIsTruth(s, k);
    LimitReadsSpec(OthersRunning(s, k), AgentOf(s, k));
  }

  lemma HeldStatus(s: Cluster, k: Key, env: Env, victim: Key)
    requires Inv(s) && LegalVictim(s, k, env, victim) && Schedulable(s, k) && CallsWork(env)
    requires !Proceeds(s, k, env)
    ensures k in Reconciled(s, k, env, victim).0.runs && Reconciled(s, k, env, victim).1 == RequeueAfter
    ensures var was, st := s.runs[k].status, Reconciled(s, k, env, victim).0.runs[k].status;
            && (if was.phase == Queued && AsksQueue(AgentOf(s, k).concurrency) then st == was
                else st.mode == Some(AgentOf(s, k).mode))
            && if AsksQueue(AgentOf(s, k).concurrency) then Continues(was, st, Queued)
               else Ended(was, st, Failed, LimitExceeded, ByFailure, s.now)
  {
    RelabelKeepsAdmission(s, k);
    StagedStatus(s, k, env, victim);
    CommitStatus(Intended(s, k, env, victim), k, NeedsLabel(s, k), true);
  }

  // Without room, queue waits and reject fails the run at once, each leaving every
  // other run and every Job alone.
  lemma PolicyAtLimit(s: Cluster, k: Key, env: Env, victim: Key)
    requires Inv(s) && LegalVictim(s, k, env, victim) && Schedulable(s, k) && CallsWork(env)
    requires !HasRoom(s, k) && !AsksReplace(AgentOf(s, k).concurrency)
    ensures var r := Reconciled(s, k, env, victim);
            && r.0.runs.Keys == s.runs.Keys && r.0.jobs == s.jobs && r.1 == RequeueAfter
            && (forall j :: j in s.runs && j != k ==> r.0.runs[j] == s.runs[j])
            && (AsksQueue(AgentOf(s, k).concurrency) ==> Continues(s.runs[k].status, r.0.runs[k].status, Queued))
            && (AsksQueue(AgentOf(s, k).concurrency) && s.runs[k].status.phase == Queued ==>
                  r.0.runs[k].status == s.runs[k].status)
            && (AsksReject(AgentOf(s, k).concurrency) ==>
                  Ended(s.runs[k].status, r.0.runs[k].status, Failed, LimitExceeded, ByFailure, s.now))
  {
    LetThroughIff(s, k, env);
    HeldStatus(s, k, env, victim);
    ReconcileEffect(s, k, env, victim);
    ReconcileJobs(s, k, env, victim);
  }

  // A run that has not started waits, Pending, for a daemon agent that is down: it
  // is not prompted and not counted in, and says so unless it was Pending already.
  lemma DaemonWaits(s: Cluster, k: Key, env: Env, victim: Key)
    requires Inv(s) && LegalVictim(s, k, env, victim) && LiveRun(s, k) && CallsWork(env)
    requires AgentOf(s, k).mode == Daemon && !AgentOf(s, k).up && s.runs[k].status.phase != Running
    ensures var r := Reconciled(s, k, env, victim);
            && r.0.runs.Keys == s.runs.Keys && r.0.jobs == s.jobs && r.1 == RequeueAfter
            && (forall j :: j in s.runs && j != k ==> r.0.runs[j] == s.runs[j])
            && var was, st := s.runs[k].status, r.0.runs[k].status;
               if was.phase == Pending then st == was
               else Continues(was.(conditions := st.conditions), st, Pending) && st.mode == Some(Daemon)
                    && AgentReady in st.conditions && st.conditions[AgentReady] == Condition(false, AgentNotRunning)
                    && (Complete in st.conditions <==> Complete in was.conditions)
                    && (Complete in was.conditions ==> st.conditions[Complete] == was.conditions[Complete])
  {
    StagedStatus(s, k, env, victim);
    CommitStatus(Intended(s, k, env, victim), k, NeedsLabel(s, k), true);
    ReconcileEffect(s, k, env, victim);
    ReconcileJobs(s, k, env, victim);
  }

  // ----- Execution -----

  // What is left by a run that was let through is what its execution gives.
  lemma Executed(s: Cluster, k: Key, env: Env, victim: Key)
    requires Inv(s) && LegalVictim(s, k, env, victim) && Schedulable(s, k) && env.patchStatus && Proceeds(s, k, env)
    ensures k in Reconciled(s, k, env, victim).0.runs && k in Staged(s, k, env, victim).runs
    ensures var x := Execute(Staged(s, k, env, victim), k, AgentOf(s, k), env);
            Reconciled(s, k, env, victim).0.runs[k].status == x.status && Reconciled(s, k, env, victim).1 == x.result
  {
    StatusIfProceeds(s, k, env, victim);
    StagedStatus(s, k, env, victim);
    CommitStatus(Intended(s, k, env, victim), k, NeedsLabel(s, k), true);
  }

  lemma StagedFacts(s: Cluster, k: Key, env: Env, victim: Key)
    requires LegalVictim(s, k, env, victim) && k in s.runs
    ensures var b := Staged(s, k, env, victim);
            && k in b.runs && b.jobs == s.jobs && b.now == s.now
            && b.runs[k].git == s.runs[k].git && b.runs[k].status == s.runs[k].status
  {
  }

  // The phase of a run that goes on: visible as Pending at least.
  function Visible(p: Phase): Phase { if p == Unset then Pending else p }

  // A task run let through reports its Job: success wins over failure, an
  // unfinished Job changes nothing, and without a Job one is started.
  lemma TaskReportsJob(s: Cluster, k: Key, env: Env, victim: Key)
    requires Inv(s) && LegalVictim(s, k, env, victim) && Schedulable(s, k) && CallsWork(env) && Proceeds(s, k, env)
    requires AgentOf(s, k).mode == Task
    ensures k in Reconciled(s, k, env, victim).0.runs
    ensures var was, st := s.runs[k].status, Reconciled(s, k, env, victim).0.runs[k].status;
            && st.mode == Some(Task)
            && (k in s.jobs && s.jobs[k].succeeded > 0 ==>
                  Ended(was, st, Succeeded, Text(s.jobs[k].output), BySuccess, s.now))
            && (k in s.jobs && s.jobs[k].succeeded == 0 && s.jobs[k].failed > 0 ==>
                  Ended(was, st, Failed, if s.jobs[k].error == "" then JobFailed else Text(s.jobs[k].error), ByFailure, s.now))
            && (k in s.jobs && s.jobs[k].succeeded == 0 && s.jobs[k].failed == 0 ==> Continues(was, st, Visible(was.phase)))
            && (k !in s.jobs && s.runs[k].git && env.git.GitRejected? ==>
                  Ended(was, st, Failed, Text(env.git.message), ByFailure, s.now))
            && (k !in s.jobs && !(s.runs[k].git && env.git.GitRejected?) ==> Started(was, st, Some(k.name), s.now))
    ensures Reconciled(s, k, env, victim).1
         == if Terminal(Reconciled(s, k, env, victim).0.runs[k].status.phase) then Done else RequeueAfter
  {
    Executed(s, k, env, victim);
    StagedFacts(s, k, env, victim);
  }

  // A read that misses the Job of a task run starts the run's clock again and leaves
  // the Job alone.
  lemma StaleReadRestarts(s: Cluster, k: Key, env: Env, victim: Key)
    requires Inv(s) && LegalVictim(s, k, env, victim) && Schedulable(s, k) && Proceeds(s, k, env)
    requires AgentOf(s, k).mode == Task && k in s.jobs && env.jobRead.Stale?
    requires env.patchStatus && env.createJob && (s.runs[k].git ==> env.git.GitReady?)
    ensures k in Reconciled(s, k, env, victim).0.runs && Reconciled(s, k, env, victim).1 == RequeueAfter
    ensures Started(s.runs[k].status, Reconciled(s, k, env, victim).0.runs[k].status, Some(k.name), s.now)
    ensures Reconciled(s, k, env, victim).0.jobs == s.jobs
  {
    Executed(s, k, env, victim);
    StagedFacts(s, k, env, victim);
    ReconcileJobs(s, k, env, victim);
  }

  // A daemon run let through before it has started reports what its prompt yields.
  lemma DaemonReportsAgent(s: Cluster, k: Key, env: Env, victim: Key)
    requires Inv(s) && LegalVictim(s, k, env, victim) && Schedulable(s, k) && CallsWork(env) && Proceeds(s, k, env)
    requires AgentOf(s, k).mode == Daemon && s.runs[k].status.phase != Running
    ensures k in Reconciled(s, k, env, victim).0.runs
    ensures var was, st := s.runs[k].status, Reconciled(s, k, env, victim).0.runs[k].status;
            && st.mode == Some(Daemon)
            && match env.prompt
               case PromptUnreachable => Continues(was, st, Visible(was.phase))
               case PromptRefused(message) => Ended(was, st, Failed, Text(message), ByFailure, s.now)
               case PromptAnswered(output) =>
                 if output == "" then Started(was, st, was.jobName, s.now)
                 else Ended(was, st, Succeeded, Text(output), BySuccess, s.now)
    ensures Reconciled(s, k, env, victim).1
         == if Terminal(Reconciled(s, k, env, victim).0.runs[k].status.phase) then Done else RequeueAfter
  {
    Executed(s, k, env, victim);
    StagedFacts(s, k, env, victim);
  }

  // A Running daemon run is timed out, whatever its agent says; before that it ends
  // exactly when the agent says it is idle, and otherwise nothing changes.
  lemma DaemonPollReports(s: Cluster, k: Key, env: Env, victim: Key)
    requires Inv(s) && LegalVictim(s, k, env, victim) && Schedulable(s, k) && CallsWork(env) && Proceeds(s, k, env)
    requires AgentOf(s, k).mode == Daemon && s.runs[k].status.phase == Running
    ensures s.runs[k].status.startTime.Some? && k in Reconciled(s, k, env, victim).0.runs
    ensures var was, st := s.runs[k].status, Reconciled(s, k, env, victim).0.runs[k].status;
            && st.mode == Some(Daemon)
            && (if Expired(s.now - was.startTime.value, AgentOf(s, k).timeout) then
                  Ended(was, st, Failed, TimedOut, ByFailure, s.now)
                else match env.poll
                  case PollIdle(output) => Ended(was, st, Succeeded, Text(output), BySuccess, s.now)
                  case PollBusy => Continues(was, st, Running)
                  case PollUnreachable => Continues(was, st, Running))
    ensures Reconciled(s, k, env, victim).1
         == if Terminal(Reconciled(s, k, env, victim).0.runs[k].status.phase) then Done else RequeueAfter
  {
    Executed(s, k, env, victim);
    StagedFacts(s, k, env, victim);
  }

  // A run of an agent in no known mode fails.
  lemma UnknownModeFails(s: Cluster, k: Key, env: Env, victim: Key)
    requires Inv(s) && LegalVictim(s, k, env, victim) && Schedulable(s, k) && CallsWork(env) && Proceeds(s, k, env)
    requires AgentOf(s, k).mode == OtherMode
    ensures k in Reconciled(s, k, env, victim).0.runs && Reconciled(s, k, env, victim).1 == Done
    ensures Ended(s.runs[k].status, Reconciled(s, k, env, victim).0.runs[k].status, Failed, UnknownMode, ByFailure, s.now)
  {
    Executed(s, k, env, victim);
    StagedFacts(s, k, env, victim);
  }

  // A live task run without a Job in the store is given one, unfinished, by a
  // working Reconcile exactly when it is let through, also when it had one before.
  lemma LaunchedIff(s: Cluster, k: Key, env: Env, victim: Key)
    requires Inv(s) && LegalVictim(s, k, env, victim) && Schedulable(s, k) && CallsWork(env)
    requires AgentOf(s, k).mode == Task && k !in s.jobs && !(s.runs[k].git && env.git.GitRejected?)
    ensures k in Reconciled(s, k, env, victim).0.jobs <==> HasRoom(s, k) || AsksReplace(AgentOf(s, k).concurrency)
    ensures forall j :: j != k ==>
              (j in Reconciled(s, k, env, victim).0.jobs <==> j in s.jobs)
              && (j in s.jobs ==> Reconciled(s, k, env, victim).0.jobs[j] == s.jobs[j])
    ensures k in Reconciled(s, k, env, victim).0.jobs ==>
              Reconciled(s, k, env, victim).0.jobs[k] == Job(0, 0, "(no output captured)", "")
  {
    LetThroughIff(s, k, env);
    ReconcileJobs(s, k, env, victim);
  }

  // ----- The Agent cannot be fetched -----

  // Reconcile reports "agent not found" exactly when it could read and write the
  // run, the run is live, and fetching the Agent failed for whatever reason.
  lemma ReportsAgentNotFoundIff(s: Cluster, k: Key, env: Env, victim: Key)
    requires Inv(s) && LegalVictim(s, k, env, victim)
    requires k in s.runs && s.runs[k].status.output != AgentNotFound
    ensures k in Reconciled(s, k, env, victim).0.runs
    ensures var st := Reconciled(s, k, env, victim).0.runs[k].status;
            && (st.output == AgentNotFound ==> Reconciled(s, k, env, victim).1 == Done)
            && (st.output == AgentNotFound
                <==> env.getRun && env.patchStatus && !Terminal(s.runs[k].status.phase)
                     && (!env.getAgent || AgentKey(k, s.runs[k]) !in s.agents))
            && (st.output == AgentNotFound ==> st.mode == s.runs[k].status.mode
                                               && Ended(s.runs[k].status, st, Failed, AgentNotFound, ByFailure, s.now))
  {
    StagedStatus(s, k, env, victim);
    CommitStatus(Intended(s, k, env, victim), k, Reaches(s, k, env) && NeedsLabel(s, k), env.patchStatus);
    if Proceeds(s, k, env) {
      StatusIfProceeds(s, k, env, victim);
      StagedFacts(s, k, env, victim);
      ExecuteOutput(Staged(s, k, env, victim), k, s.agents[AgentKey(k, s.runs[k])], env);
    } else if Reaches(s, k, env) {
      RelabelKeepsAdmission(s, k);
    }
  }

  // The report is false, for an Agent that is in the store, exactly when the fetch
  // failed for another reason than absence.
  lemma FalseNotFoundIff(s: Cluster, k: Key, env: Env, victim: Key)
    requires Inv(s) && LegalVictim(s, k, env, victim)
    requires k in s.runs && s.runs[k].status.output != AgentNotFound
    ensures k in Reconciled(s, k, env, victim).0.runs
    ensures Reconciled(s, k, env, victim).0.runs[k].status.output == AgentNotFound && AgentKey(k, s.runs[k]) in s.agents
            <==> env.getRun && env.patchStatus && !Terminal(s.runs[k].status.phase)
                 && !env.getAgent && AgentKey(k, s.runs[k]) in s.agents
  {
    ReportsAgentNotFoundIff(s, k, env, victim);
  }

  // No execution mode reports the agent as missing.
  lemma ExecuteOutput(s: Cluster, k: Key, a: Agent, env: Env)
    requires k in s.runs && s.runs[k].status.output != AgentNotFound
    ensures Execute(s, k, a, env).status.output != AgentNotFound
  {
  }

  // ----- Failing calls -----

  // A run that is gone or terminal is left alone; a run that cannot be read is tried
  // again.
  lemma NothingToDo(s: Cluster, k: Key, env: Env, victim: Key)
    requires LegalVictim(s, k, env, victim)
    ensures !env.getRun ==> Reconciled(s, k, env, victim) == (s, Error)
    ensures env.getRun && (k !in s.runs || Terminal(s.runs[k].status.phase)) ==> Reconciled(s, k, env, victim) == (s, Done)
  {
  }

  // Before anything is executed, a failing call ends the Reconcile with an error and
  // with the store as it was, but for the label once that has been written.
  lemma FailsBeforeExecution(s: Cluster, k: Key, env: Env, victim: Key)
    requires Inv(s) && LegalVictim(s, k, env, victim) && LiveRun(s, k) && env.getRun && env.getAgent
    ensures s.runs[k].agentLabel != Some(s.runs[k].agentRef) && !env.updateLabel ==>
              Reconciled(s, k, env, victim) == (s, Error)
    ensures (env.updateLabel || s.runs[k].agentLabel == Some(s.runs[k].agentRef)) && Schedulable(s, k)
            && (!env.listRuns || (!HasRoom(s, k) && AsksReplace(AgentOf(s, k).concurrency) && !env.patchVictim)) ==>
              Reconciled(s, k, env, victim)
              == (s.(runs := s.runs[k := s.runs[k].(agentLabel := Some(s.runs[k].agentRef))]), Error)
  {
    if Reaches(s, k, env) && Schedulable(s, k) && !env.listRuns {
      FailedList(s, k, env, victim);
    } else if Reaches(s, k, env) && Schedulable(s, k) && !env.patchVictim {
      NoRoomReplaces(s, k);
      if Admission(s, k) == Replace {
        FailedCancellation(s, k, env, victim);
      }
    }
  }

  lemma FailedList(s: Cluster, k: Key, env: Env, victim: Key)
    requires LegalVictim(s, k, env, victim) && Reaches(s, k, env) && Schedulable(s, k) && !env.listRuns
    ensures Reconciled(s, k, env, victim) == (Relabelled(s, k), Error)
  {
  }

  lemma FailedCancellation(s: Cluster, k: Key, env: Env, victim: Key)
    requires LegalVictim(s, k, env, victim) && Reaches(s, k, env) && !Waits(s, k) && Admission(s, k) == Replace
    requires env.listRuns && !env.patchVictim
    ensures Reconciled(s, k, env, victim) == (Relabelled(s, k), Error)
  {
    RelabelKeepsAdmission(s, k);
  }

  lemma NoRoomReplaces(s: Cluster, k: Key)
    requires Labelled(s) && LiveRun(s, k)
    ensures !HasRoom(s, k) && AsksReplace(AgentOf(s, k).concurrency) ==> Admission(s, k) == Replace
  {
    LabelIndexIsTruth(s, k);
    LimitReadsSpec(OthersRunning(s, k), AgentOf(s, k));
  }

  // A failing call of a task run's execution is an error too, and changes no Job; the
  // run goes on.
  lemma FailsInExecution(s: Cluster, k: Key, env: Env, victim: Key)
    requires Inv(s) && LegalVictim(s, k, env, victim) && Schedulable(s, k) && env.patchStatus && Proceeds(s, k, env)
    requires AgentOf(s, k).mode == Task
    requires || env.jobRead.ReadFails?
             || ((k !in s.jobs || env.jobRead.Stale?) && s.runs[k].git && env.git.GitFails?)
             || ((k !in s.jobs || env.jobRead.Stale?) && !(s.runs[k].git && env.git.GitRejected?) && !env.createJob)
    ensures k in Reconciled(s, k, env, victim).0.runs && Reconciled(s, k, env, victim).1 == Error
    ensures var was := s.runs[k].status; Continues(was, Reconciled(s, k, env, victim).0.runs[k].status, Visible(was.phase))
    ensures Reconciled(s, k, env, victim).0.jobs == s.jobs
  {
    Executed(s, k, env, victim);
    StagedFacts(s, k, env, victim);
    ReconcileJobs(s, k, env, victim);
  }

  // When the write of the status fails, the stored status stays. That is an error if
  // the same Reconcile with a working write would have changed it, or if a run let
  // through has just been given its label, since the copy compared with is older than
  // that. Otherwise no write is tried, and nothing differs.
  lemma FailedStatusWrite(s: Cluster, k: Key, env: Env, victim: Key)
    requires Inv(s) && LegalVictim(s, k, env, victim) && k in s.runs && !env.patchStatus
    requires LegalVictim(s, k, env.(patchStatus := true), victim)
    ensures var r, works := Reconciled(s, k, env, victim), Reconciled(s, k, env.(patchStatus := true), victim);
            && k in r.0.runs && k in works.0.runs && r.0.runs[k].status == s.runs[k].status
            && (works.0.runs[k].status != s.runs[k].status ==> r.1 == Error)
            && (Proceeds(s, k, env) && s.runs[k].agentLabel != Some(s.runs[k].agentRef) ==> r.1 == Error)
            && (works.0.runs[k].status == s.runs[k].status && s.runs[k].agentLabel == Some(s.runs[k].agentRef) ==>
                  r == works)
  {
    var works := env.(patchStatus := true);
    var relabelled := Reaches(s, k, env) && NeedsLabel(s, k);
    SameIntention(s, k, env, victim);
    StagedStatus(s, k, env, victim);
    StagedStatus(s, k, works, victim);
    CommitStatus(Intended(s, k, env, victim), k, relabelled, false);
    CommitStatus(Intended(s, k, works, victim), k, relabelled, true);
    if Proceeds(s, k, env) {
      ProceedsWrites(s, k, env, victim);
    }
    UnchangedCommit(Intended(s, k, env, victim), k, relabelled);
  }

  lemma ProceedsWrites(s: Cluster, k: Key, env: Env, victim: Key)
    requires LegalVictim(s, k, env, victim) && Proceeds(s, k, env)
    ensures Intended(s, k, env, victim).write.Some?
  {
    RelabelKeepsAdmission(s, k);
  }

  // Where nothing differs, a write that works and one that fails are the same.
  lemma UnchangedCommit(o: Outcome, k: Key, relabelled: bool)
    requires k in o.store.runs
    ensures o.write.Some? && (relabelled || o.write.value != o.store.runs[k].status) ==>
              Commit(o, k, relabelled, false).1 == Error
    ensures !relabelled && (o.write.None? || o.write.value == o.store.runs[k].status) ==>
              Commit(o, k, relabelled, false) == Commit(o, k, relabelled, true)
  {
  }

  // Whether the status write works matters only for that write.
  lemma SameDispatch(s: Cluster, k: Key, a: Agent, env: Env)
    requires k in s.runs
    ensures Dispatch(s, k, a, env.(patchStatus := true)) == Dispatch(s, k, a, env)
  {
  }

  lemma SameIntention(s: Cluster, k: Key, env: Env, victim: Key)
    requires LegalVictim(s, k, env, victim) && LegalVictim(s, k, env.(patchStatus := true), victim)
    ensures Intended(s, k, env.(patchStatus := true), victim) == Intended(s, k, env, victim)
    ensures Reaches(s, k, env.(patchStatus := true)) <==> Reaches(s, k, env)
  {
    if Reaches(s, k, env) {
      var a := s.agents[AgentKey(k, s.runs[k])];
      SameDispatch(Relabelled(s, k), k, a, env);
      SameDispatch(Cancel(Relabelled(s, k), victim), k, a, env);
    }
  }

  // ----- Queueing keeps no order -----

  // Of two queued runs of a task agent, the younger one overtakes when it is
  // reconciled exactly when there is room: the older one plays no part in the
  // decision, and stays queued.
  lemma YoungerOvertakesIff(s: Cluster, older: Key, younger: Key, env: Env, victim: Key)
    requires Inv(s) && LegalVictim(s, younger, env, victim) && Schedulable(s, younger) && CallsWork(env)
    requires AgentOf(s, younger).mode == Task && AsksQueue(AgentOf(s, younger).concurrency)
    requires older in s.runs && older != younger && AgentKey(older, s.runs[older]) == AgentKey(younger, s.runs[younger])
    requires s.runs[older].created < s.runs[younger].created
    requires s.runs[older].status.phase == Queued && s.runs[younger].status.phase == Queued
    requires younger !in s.jobs && !(s.runs[younger].git && env.git.GitRejected?)
    ensures var s' := Reconciled(s, younger, env, victim).0;
            && s'.runs.Keys == s.runs.Keys && s'.runs[older] == s.runs[older]
            && (s'.runs[younger].status.phase == Running <==> HasRoom(s, younger))
            && (s'.runs[younger].status.phase == Queued <==> !HasRoom(s, younger))
  {
    LetThroughIff(s, younger, env);
    ReconcileEffect(s, younger, env, victim);
    if Proceeds(s, younger, env) {
      TaskReportsJob(s, younger, env, victim);
    } else {
      HeldStatus(s, younger, env, victim);
    }
  }

  // The same for a daemon agent, where a run leaves the queue when its prompt
  // reaches the agent.
  lemma YoungerDaemonOvertakesIff(s: Cluster, older: Key, younger: Key, env: Env, victim: Key)
    requires Inv(s) && LegalVictim(s, younger, env, victim) && Schedulable(s, younger) && CallsWork(env)
    requires AgentOf(s, younger).mode == Daemon && AsksQueue(AgentOf(s, younger).concurrency)
    requires older in s.runs && older != younger && AgentKey(older, s.runs[older]) == AgentKey(younger, s.runs[younger])
    requires s.runs[older].created < s.runs[younger].created
    requires s.runs[older].status.phase == Queued && s.runs[younger].status.phase == Queued
    ensures var s' := Reconciled(s, younger, env, victim).0;
            && s'.runs.Keys == s.runs.Keys && s'.runs[older] == s.runs[older]
            && (s'.runs[younger].status.phase != Queued <==> HasRoom(s, younger) && !env.prompt.PromptUnreachable?)
  {
    LetThroughIff(s, younger, env);
    ReconcileEffect(s, younger, env, victim);
    if Proceeds(s, younger, env) {
      DaemonReportsAgent(s, younger, env, victim);
    } else {
      HeldStatus(s, younger, env, victim);
    }
  }
}
