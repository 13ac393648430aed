// At most one Job per AgentRun, and the daemon deadline, over whole executions.
module AgentRunLaunch {
  import opened Basics
  import opened AgentRunModel
  import opened AgentRunSafety
  import opened AgentRunExecutions

  // ----- Single launch -----

  // Reconcile(k) creates k's Job in the store.
  predicate Launches(s: Cluster, k: Key, env: Env) {
    && Proceeds(s, k, env) && s.agents[AgentKey(k, s.runs[k])].mode == Task
    && k !in s.jobs && !env.jobRead.ReadFails? && (s.runs[k].git ==> env.git.GitReady?) && env.createJob
  }

  lemma ReconcileJobs(s: Cluster, k: Key, env: Env, victim: Key)
    requires LegalVictim(s, k, env, victim)
    ensures Reconciled(s, k, env, victim).0.jobs
         == if Launches(s, k, env) then s.jobs[k := NEW_JOB] else s.jobs
  {
    if Proceeds(s, k, env) {
      RelabelKeepsAdmission(s, k);
      ExecuteLaunches(s, Staged(s, k, env, victim), k, s.agents[AgentKey(k, s.runs[k])], env);
    } else if Reaches(s, k, env) {
      RelabelKeepsAdmission(s, k);
    }
  }

  lemma ExecuteLaunches(s: Cluster, b: Cluster, k: Key, a: Agent, env: Env)
    requires k in s.runs && k in b.runs && b.jobs == s.jobs && b.runs[k].git == s.runs[k].git
    ensures Dispatch(b, k, a, env).store.jobs
         == if a.mode == Task && k !in s.jobs && !env.jobRead.ReadFails?
               && (s.runs[k].git ==> env.git.GitReady?) && env.createJob
            then s.jobs[k := NEW_JOB] else s.jobs
  {
  }

  // How often k's Job has come into being in the first n steps.
  function LaunchCount(t: Trace, k: Key, n: nat): nat
    requires n < |t.states|
  {
    if n == 0 then 0
    else LaunchCount(t, k, n - 1)
         + (if k !in t.states[n - 1].jobs && k in t.states[n].jobs then 1 else 0)
  }

  // k's Job is cleaned up only once the run is terminal or gone.
  ghost predicate JobOutlivesRun(t: Trace, k: Key) {
    forall i :: 0 <= i < |t.events| && i < |t.states| && t.events[i] == RemoveJob(k) ==>
      k in t.states[i].runs ==> Terminal(t.states[i].runs[k].status.phase)
  }

  predicate Finished(s: Cluster, k: Key) {
    k in s.used && (k in s.runs ==> Terminal(s.runs[k].status.phase))
  }

  lemma FinishedStays(s: Cluster, e: Event, s': Cluster, k: Key)
    requires Inv(s) && Next(s, e, s') && Finished(s, k)
    ensures Finished(s', k)
  {
    if e.Reconcile? {
      ReconcileFrame(s, e.key, e.env, e.victim);
    }
    if k in s'.runs && k in s.runs {
      RankRisesOnlyByDemotion(s, e, s', k);
    }
  }

  // Whatever API calls fail and however often Reconcile repeats, a run's Job is
  // created at most once.
  lemma {:induction false} SingleLaunch(t: Trace, k: Key, n: nat)
    requires Valid(t) && JobOutlivesRun(t, k) && n < |t.states|
    ensures LaunchCount(t, k, n) <= 1
    ensures LaunchCount(t, k, n) == 1 ==> k in t.states[n].jobs || Finished(t.states[n], k)
    ensures LaunchCount(t, k, n) == 0 ==> k !in t.states[n].jobs
    ensures k in t.states[n].jobs ==> k in t.states[n].used
  {
    if n > 0 {
      SingleLaunch(t, k, n - 1);
      InvAt(t, n - 1);
      StepOf(t, n - 1);
      LaunchStep(t.states[n - 1], t.events[n - 1], t.states[n], k);
      if Finished(t.states[n - 1], k) {
        FinishedStays(t.states[n - 1], t.events[n - 1], t.states[n], k);
      }
    }
  }

  lemma LaunchStep(s: Cluster, e: Event, s': Cluster, k: Key)
    requires Inv(s) && Next(s, e, s')
    ensures k !in s.jobs && k in s'.jobs ==> k in s.runs && !Terminal(s.runs[k].status.phase) && k in s'.used
    ensures k in s.jobs && k !in s'.jobs ==> e == RemoveJob(k) && s'.runs == s.runs && s'.used == s.used
    ensures s.used <= s'.used
  {
    if e.Reconcile? {
      ReconcileFrame(s, e.key, e.env, e.victim);
      ReconcileJobs(s, e.key, e.env, e.victim);
    }
  }

  // Some continuation of s has k's Job in the store.
  ghost predicate Relaunchable(s: Cluster, k: Key) {
    exists t: Trace :: Steps(t) && t.states[0] == s && k in t.states[|t.states| - 1].jobs
  }

  // Once a run is finished and its Job gone, no Job of that name comes back.
  lemma {:induction false} FinishedIsNotRelaunched(t: Trace, n: nat, k: Key)
    requires Steps(t) && n < |t.states| && Inv(t.states[0]) && Finished(t.states[0], k) && k !in t.states[0].jobs
    ensures Inv(t.states[n]) && Finished(t.states[n], k) && k !in t.states[n].jobs
  {
    if n > 0 {
      FinishedIsNotRelaunched(t, n - 1, k);
      StepOf(t, n - 1);
      StepKeepsInv(t.states[n - 1], t.events[n - 1], t.states[n]);
      FinishedStays(t.states[n - 1], t.events[n - 1], t.states[n], k);
      LaunchStep(t.states[n - 1], t.events[n - 1], t.states[n], k);
    }
  }

  const WORKS := Env(true, true, true, true, true, true, Fresh, true, GitReady, PromptUnreachable, PollBusy)

  // A live run without a Job: two steps give it one, whatever its phase.
  lemma RelaunchInTwo(s: Cluster, k: Key) returns (t: Trace)
    requires k in s.runs && !Terminal(s.runs[k].status.phase) && k !in s.jobs
    ensures Steps(t) && t.states[0] == s && k in t.states[|t.states| - 1].jobs
  {
    var a := AgentKey(k, s.runs[k]);
    var room := |ActiveOthers(s, k, s.runs[k].agentRef)| + 1;
    var s1 := s.(agents := s.agents[a := Agent(Task, true, Some(Concurrency(room, QueuePolicy)), None)]);
    assert ActiveOthers(s1, k, s1.runs[k].agentRef) == ActiveOthers(s, k, s.runs[k].agentRef);
    assert Reaches(s1, k, WORKS) && !Waits(s1, k) && Admission(s1, k) == Admit;
    ReconcileJobs(s1, k, WORKS, k);
    t := Trace([s, s1, Reconciled(s1, k, WORKS, k).0], [SetAgent(a, s1.agents[a]), Reconcile(k, WORKS, k)]);
  }

  // A Job that has been removed can come back exactly while its run is live: the
  // clean-up condition of SingleLaunch is what keeps a run at one Job.
  lemma RelaunchableIff(s: Cluster, k: Key)
    requires Inv(s) && k in s.used && k !in s.jobs
    ensures Relaunchable(s, k) <==> k in s.runs && !Terminal(s.runs[k].status.phase)
  {
    if k in s.runs && !Terminal(s.runs[k].status.phase) {
      var t := RelaunchInTwo(s, k);
    } else {
      forall t: Trace | Steps(t) && t.states[0] == s
        ensures k !in t.states[|t.states| - 1].jobs
      {
        FinishedIsNotRelaunched(t, |t.states| - 1, k);
      }
    }
  }

  // ----- The daemon deadline -----

  predicate CallsSucceed(env: Env) { env.getRun && env.getAgent && env.listRuns && env.patchStatus }

  predicate IsDaemonRun(s: Cluster, k: Key) {
    && k in s.runs && AgentKey(k, s.runs[k]) in s.agents
    && s.agents[AgentKey(k, s.runs[k])].mode == Daemon
    && s.runs[k].status.phase == Running && s.runs[k].status.startTime.Some?
  }

  // The intended status of a Running daemon run is that of one poll.
  lemma PollingRun(s: Cluster, k: Key, env: Env, victim: Key)
    requires Inv(s) && LegalVictim(s, k, env, victim) && IsDaemonRun(s, k) && Proceeds(s, k, env)
    ensures Intended(s, k, env, victim).write
         == Some(PollDaemon(s.runs[k].status.(mode := Some(Daemon)), s.agents[AgentKey(k, s.runs[k])], s.now, env).status)
  {
    StatusIfProceeds(s, k, env, victim);
  }

  // A Reconcile with working API calls ends a Running daemon run as timed out
  // exactly when more than the timeout has passed since its start, whatever the
  // agent's status endpoint answers; before that the run does not fail.
  lemma DaemonPollTimesOut(s: Cluster, k: Key, env: Env, victim: Key)
    requires Inv(s) && LegalVictim(s, k, env, victim) && IsDaemonRun(s, k) && CallsSucceed(env)
    requires |RunningOf(s, AgentKey(k, s.runs[k]))| <= LimitAt(s, AgentKey(k, s.runs[k]))
    ensures k in Reconciled(s, k, env, victim).0.runs
    ensures Reconciled(s, k, env, victim).0.runs[k].status.phase == Failed
            <==> Expired(s.now - s.runs[k].status.startTime.value, s.agents[AgentKey(k, s.runs[k])].timeout)
  {
    RunningIsAdmitted(s, k);
    assert Proceeds(s, k, env);
    PollingRun(s, k, env, victim);
    StagedStatus(s, k, env, victim);
    CommitStatus(Intended(s, k, env, victim), k, Reaches(s, k, env) && NeedsLabel(s, k), env.patchStatus);
  }

  // The start time of a daemon run is not rewritten while it stays Running.
  lemma ReconcileKeepsStart(s: Cluster, k: Key, env: Env, victim: Key)
    requires Inv(s) && LegalVictim(s, k, env, victim) && IsDaemonRun(s, k)
    ensures k in Reconciled(s, k, env, victim).0.runs
    ensures Reconciled(s, k, env, victim).0.runs[k].status.phase == Running ==>
              Reconciled(s, k, env, victim).0.runs[k].status.startTime == s.runs[k].status.startTime
  {
    StagedStatus(s, k, env, victim);
    CommitStatus(Intended(s, k, env, victim), k, Reaches(s, k, env) && NeedsLabel(s, k), env.patchStatus);
    IntendedKeepsStart(s, k, env, victim);
  }

  lemma IntendedKeepsStart(s: Cluster, k: Key, env: Env, victim: Key)
    requires Inv(s) && LegalVictim(s, k, env, victim) && IsDaemonRun(s, k)
    ensures var o := Intended(s, k, env, victim);
            o.write.Some? && o.write.value.phase == Running ==> o.write.value.startTime == s.runs[k].status.startTime
  {
    if Proceeds(s, k, env) {
      PollingRun(s, k, env, victim);
    } else if Reaches(s, k, env) {
      HeldRunningStatus(s, k, env, victim);
    }
  }

  lemma HeldRunningStatus(s: Cluster, k: Key, env: Env, victim: Key)
    requires Inv(s) && LegalVictim(s, k, env, victim) && IsDaemonRun(s, k) && Reaches(s, k, env) && !Proceeds(s, k, env)
    ensures Intended(s, k, env, victim).write.Some? ==> Intended(s, k, env, victim).write.value.phase != Running
  {
    RelabelKeepsAdmission(s, k);
  }

  lemma StepKeepsStart(s: Cluster, e: Event, s': Cluster, r: Key)
    requires Inv(s) && Next(s, e, s') && IsDaemonRun(s, r)
    requires r in s'.runs && s'.runs[r].status.phase == Running
    ensures s'.runs[r].status.startTime == s.runs[r].status.startTime
  {
    if e.Reconcile? {
      if e.key == r {
        ReconcileKeepsStart(s, r, e.env, e.victim);
      } else if e.key in s.runs {
        ReconcileEffect(s, e.key, e.env, e.victim);
      } else {
        ReconcileFrame(s, e.key, e.env, e.victim);
      }
    }
  }

  predicate TimesOutWithin(timeout: Option<int>, limit: int) {
    if timeout.Some? && timeout.value > 0 then timeout.value <= limit else 1800 <= limit
  }

  // From state i to state j, run r's agent is in the store, in daemon mode, with
  // a timeout of at most limit.
  ghost predicate DaemonThroughout(t: Trace, i: nat, j: nat, r: Key, limit: int) {
    forall m {:trigger t.states[m]} :: i <= m <= j && m < |t.states| && r in t.states[m].runs ==>
      var a := AgentKey(r, t.states[m].runs[r]);
      a in t.states[m].agents && t.states[m].agents[a].mode == Daemon
      && TimesOutWithin(t.states[m].agents[a].timeout, limit)
  }

  // Between states i and j there is a successful Reconcile of r later than `from`
  // and at most d later.
  ghost predicate ReconciledAfter(t: Trace, i: nat, j: nat, r: Key, from: int, d: int) {
    exists m {:trigger t.events[m]} :: i <= m < j && m < |t.events| && m < |t.states| && t.events[m].Reconcile?
      && t.events[m].key == r && CallsSucceed(t.events[m].env) && from < t.states[m].now <= from + d
  }

  ghost predicate ReconciledEvery(t: Trace, i: nat, j: nat, r: Key, d: int)
    requires i <= j < |t.states|
  {
    forall from: int :: t.states[i].now <= from && from + d < t.states[j].now ==> ReconciledAfter(t, i, j, r, from, d)
  }

  lemma StartKeptOnce(t: Trace, m: nat, r: Key)
    requires Valid(t) && m < |t.events| && IsDaemonRun(t.states[m], r)
    requires r in t.states[m + 1].runs && t.states[m + 1].runs[r].status.phase == Running
    ensures t.states[m + 1].runs[r].status.startTime == t.states[m].runs[r].status.startTime
  {
    InvAt(t, m);
    StepOf(t, m);
    StepKeepsStart(t.states[m], t.events[m], t.states[m + 1], r);
  }

  lemma {:induction false} StartKept(t: Trace, i: nat, m: nat, r: Key, limit: int)
    requires Valid(t) && i <= m < |t.states| && DaemonThroughout(t, i, m, r, limit)
    requires r in t.states[i].runs && t.states[i].runs[r].status.phase == Running
    requires NeverLowered(t, AgentKey(r, t.states[i].runs[r]), m)
    requires r in t.states[m].runs && t.states[m].runs[r].status.phase == Running
    ensures t.states[m].runs[r].status.startTime.Some?
    ensures t.states[m].runs[r].status.startTime == t.states[i].runs[r].status.startTime
  {
    if i < m {
      PresentThroughout(t, i, m - 1, m, r);
      PhasesOnlyAdvance(t, i, m - 1, r);
      AgentKept(t, i, m - 1, r);
      PhasesOnlyAdvance(t, m - 1, m, r);
      StartKept(t, i, m - 1, r, limit);
      StartKeptOnce(t, m - 1, r);
    } else {
      InvAt(t, m);
    }
  }

  lemma {:induction false} PresentThroughout(t: Trace, i: nat, m: nat, j: nat, r: Key)
    requires Valid(t) && i <= m <= j < |t.states| && r in t.states[i].runs && r in t.states[j].runs
    ensures r in t.states[m].runs
  {
    if m < j {
      InvAt(t, i);
      UsedGrows(t, i, j - 1);
      PresentBefore(t, j - 1, r);
      PresentThroughout(t, i, m, j - 1, r);
    }
  }

  // A successful Reconcile of a daemon run still Running past its deadline ends it.
  lemma LatePollEnds(t: Trace, m: nat, r: Key, limit: int)
    requires Valid(t) && m < |t.events| && IsDaemonRun(t.states[m], r)
    requires NeverLowered(t, AgentKey(r, t.states[m].runs[r]), m)
    requires t.events[m].Reconcile? && t.events[m].key == r && CallsSucceed(t.events[m].env)
    requires TimesOutWithin(t.states[m].agents[AgentKey(r, t.states[m].runs[r])].timeout, limit)
    requires t.states[m].now > t.states[m].runs[r].status.startTime.value + limit
    ensures r in t.states[m + 1].runs && Terminal(t.states[m + 1].runs[r].status.phase)
  {
    InvAt(t, m);
    StepOf(t, m);
    BoundByCurrentLimit(t, AgentKey(r, t.states[m].runs[r]), m);
    DaemonPollTimesOut(t.states[m], r, t.events[m].env, t.events[m].victim);
  }

  // A daemon run that is Running with start time t0 and is reconciled at least
  // every d is terminal once t0 + timeout + d has passed, whatever its agent
  // answers.
  lemma DaemonDeadline(t: Trace, i: nat, j: nat, r: Key, limit: int, d: int)
    requires Valid(t) && i <= j < |t.states|
    requires DaemonThroughout(t, i, j, r, limit) && ReconciledEvery(t, i, j, r, d)
    requires r in t.states[i].runs && t.states[i].runs[r].status.phase == Running
    requires NeverLowered(t, AgentKey(r, t.states[i].runs[r]), j)
    requires t.states[i].runs[r].status.startTime.Some?
    requires r in t.states[j].runs
    requires t.states[j].now > Max(t.states[i].runs[r].status.startTime.value + limit, t.states[i].now) + d
    ensures Terminal(t.states[j].runs[r].status.phase)
  {
    var from := Max(t.states[i].runs[r].status.startTime.value + limit, t.states[i].now);
    assert ReconciledAfter(t, i, j, r, from, d);
    var m: nat :| i <= m < j && m < |t.events| && m < |t.states| && t.events[m].Reconcile?
      && t.events[m].key == r && CallsSucceed(t.events[m].env) && from < t.states[m].now <= from + d;
    PresentThroughout(t, i, m, j, r);
    PhasesOnlyAdvance(t, i, m, r);
    if t.states[m].runs[r].status.phase == Running {
      StartKept(t, i, m, r, limit);
      AgentKept(t, i, m, r);
      LatePollEnds(t, m, r, limit);
      TerminalIsFinal(t, m + 1, j, r);
    } else {
      TerminalIsFinal(t, m, j, r);
    }
  }
}
