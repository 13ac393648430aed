// What every reachable state of the AgentRun system satisfies, and how a run's
// status may change over a whole execution.
module AgentRunSafety {
  import opened Basics
  import opened AgentRunModel

  // The Running runs of an agent by spec.agentRef: the truth the label index is
  // supposed to reflect.
  function RunningOf(s: Cluster, a: Key): set<Key> {
    set k | k in s.runs && AgentKey(k, s.runs[k]) == a && s.runs[k].status.phase == Running
  }

  predicate IsComplete(st: RunStatus) { Complete in st.conditions && st.conditions[Complete].isTrue }

  predicate StatusOk(st: RunStatus, now: int) {
    && (Terminal(st.phase) <==> st.completionTime.Some?)
    && (Terminal(st.phase) <==> IsComplete(st))
    && (st.phase == Running ==> st.startTime.Some?)
    && (st.startTime.Some? ==> st.startTime.value <= now)
    && (st.completionTime.Some? ==> st.completionTime.value <= now)
    && (st.startTime.Some? && st.completionTime.Some? ==> st.startTime.value <= st.completionTime.value)
  }

  // A Running run can be found by its agent's label.
  ghost predicate Labelled(s: Cluster) {
    forall k :: k in s.runs && s.runs[k].status.phase == Running
                ==> s.runs[k].agentLabel == Some(s.runs[k].agentRef)
  }

  ghost predicate Inv(s: Cluster) {
    && s.runs.Keys <= s.used
    && (forall k :: k in s.runs ==> StatusOk(s.runs[k].status, s.now))
    && Labelled(s)
    && (forall a :: a in s.agents ==> KnownPolicy(s.agents[a]))
  }

  // ----- What theorems say about a status and a spec, in their own fields -----

  // A run has ended between `was` and `st`, with nothing else changed but its mode.
  predicate Ended(was: RunStatus, st: RunStatus, phase: Phase, output: Output, reason: Reason, now: int) {
    && st.phase == phase && st.output == output && st.completionTime == Some(now)
    && Complete in st.conditions && st.conditions[Complete] == Condition(true, reason)
    && (AgentReady in st.conditions <==> AgentReady in was.conditions)
    && (AgentReady in was.conditions ==> st.conditions[AgentReady] == was.conditions[AgentReady])
    && st.startTime == was.startTime && st.jobName == was.jobName
  }

  // A run has started, with nothing else changed but its mode.
  predicate Started(was: RunStatus, st: RunStatus, jobName: Option<string>, now: int) {
    && st.phase == Running && st.startTime == Some(now) && st.jobName == jobName
    && st.completionTime == was.completionTime && st.output == was.output && st.conditions == was.conditions
  }

  // A run goes on as it was: only its mode may be recorded, and its phase.
  predicate Continues(was: RunStatus, st: RunStatus, phase: Phase) {
    && st.phase == phase && st.startTime == was.startTime && st.jobName == was.jobName
    && st.completionTime == was.completionTime && st.output == was.output && st.conditions == was.conditions
  }

  // spec.concurrency leaves room beside this many Running runs: beside none it
  // always does, otherwise maxRuns decides.
  predicate Room(running: nat, c: Option<Concurrency>) { running == 0 || (c.Some? && running < c.value.maxRuns) }

  lemma LimitReadsSpec(running: nat, a: Agent)
    ensures running < Limit(a) <==> Room(running, a.concurrency)
  {
  }

  // What spec.concurrency.policy asks for; nothing said means queue.
  predicate AsksQueue(c: Option<Concurrency>) { c.Some? ==> c.value.policy in {NoPolicy, QueuePolicy} }
  predicate AsksReject(c: Option<Concurrency>) { c.Some? && c.value.policy == RejectPolicy }
  predicate AsksReplace(c: Option<Concurrency>) { c.Some? && c.value.policy == ReplacePolicy }
  predicate AsksOther(c: Option<Concurrency>) { c.Some? && c.value.policy == OtherPolicy }

  // spec.timeout, half an hour where it says nothing, lies within `elapsed` seconds.
  predicate Expired(elapsed: int, timeout: Option<int>) {
    if timeout.Some? && timeout.value > 0 then elapsed > timeout.value else elapsed > 1800
  }

  // ----- What one Reconcile touches -----

  // Reconcile(k) reaches the point where it cancels another run.
  predicate Replaces(s: Cluster, k: Key, env: Env) {
    Reaches(s, k, env) && !Waits(s, k) && env.listRuns && Admission(s, k) == Replace && env.patchVictim
  }

  // The run is handed to its execution mode.
  predicate Proceeds(s: Cluster, k: Key, env: Env) {
    Replaces(s, k, env)
    || (Reaches(s, k, env) && !Waits(s, k) && env.listRuns && Admission(s, k) == Admit)
  }

  // The run is Running and the decision is to queue it: the one way back.
  predicate Demotes(s: Cluster, k: Key, env: Env) {
    && Reaches(s, k, env) && s.runs[k].status.phase == Running
    && env.listRuns && Admission(s, k) == Enqueue && env.patchStatus
  }

  // The store just before Reconcile(k) writes k's own status, jobs aside.
  function Staged(s: Cluster, k: Key, env: Env, victim: Key): Cluster
    requires LegalVictim(s, k, env, victim)
  {
    if !Reaches(s, k, env) then s
    else if Replaces(s, k, env) then Cancel(Relabelled(s, k), victim)
    else Relabelled(s, k)
  }

  lemma IntendedStore(s: Cluster, k: Key, env: Env, victim: Key)
    requires LegalVictim(s, k, env, victim)
    ensures var o := Intended(s, k, env, victim); o.store == Staged(s, k, env, victim).(jobs := o.store.jobs)
  {
    if Reaches(s, k, env) {
      RelabelKeepsAdmission(s, k);
    }
  }

  // s' differs from s at most in jobs and in the status of run k.
  predicate OnlyStatusOf(s: Cluster, s': Cluster, k: Key)
    requires k in s.runs
  {
    && k in s'.runs
    && s' == s.(runs := s.runs[k := s.runs[k].(status := s'.runs[k].status)], jobs := s'.jobs)
  }

  // The frame of one Reconcile: k's label and status, the victim's status, jobs.
  lemma ReconcileFrame(s: Cluster, k: Key, env: Env, victim: Key)
    requires LegalVictim(s, k, env, victim)
    ensures k !in s.runs ==> Reconciled(s, k, env, victim).0 == s
    ensures k in s.runs ==> OnlyStatusOf(Staged(s, k, env, victim), Reconciled(s, k, env, victim).0, k)
  {
    IntendedStore(s, k, env, victim);
    if k in s.runs {
      var b := Staged(s, k, env, victim);
      assert b.runs[k := b.runs[k].(status := b.runs[k].status)] == b.runs;
    }
  }

  // ----- The reconciled run's own status -----

  function Rank(p: Phase): nat {
    match p
    case Unset => 3
    case Pending => 2
    case Queued => 2
    case Running => 1
    case _ => 0
  }

  lemma RunTaskStatus(s: Cluster, k: Key, git: bool, st: RunStatus, env: Env)
    requires StatusOk(st, s.now) && !Terminal(st.phase) && st.phase != Unset
    ensures StatusOk(RunTask(s, k, git, st, env).status, s.now)
    ensures Rank(RunTask(s, k, git, st, env).status.phase) <= Rank(st.phase)
  {
  }

  lemma RunDaemonStatus(st: RunStatus, a: Agent, now: int, env: Env)
    requires StatusOk(st, now) && !Terminal(st.phase) && st.phase != Unset
    ensures StatusOk(RunDaemon(st, a, now, env).status, now)
    ensures Rank(RunDaemon(st, a, now, env).status.phase) <= Rank(st.phase)
  {
  }

  lemma ExecuteStatus(s: Cluster, k: Key, a: Agent, env: Env)
    requires k in s.runs && !Terminal(s.runs[k].status.phase)
    requires StatusOk(s.runs[k].status, s.now)
    ensures StatusOk(Execute(s, k, a, env).status, s.now)
    ensures Rank(Execute(s, k, a, env).status.phase) <= Rank(s.runs[k].status.phase)
  {
    var run := s.runs[k];
    var st := run.status.(mode := Some(a.mode), phase := if run.status.phase == Unset then Pending else run.status.phase);
    match a.mode
    case Task => RunTaskStatus(s, k, run.git, st, env);
    case Daemon => RunDaemonStatus(st, a, s.now, env);
    case OtherMode =>
  }

  // st may replace a status: it is well-formed, of a higher rank only by
  // demotion, and newly Running only when the run was let through.
  predicate StatusChange(was: RunStatus, st: RunStatus, now: int, demotes: bool, proceeds: bool) {
    && StatusOk(st, now)
    && (Terminal(was.phase) ==> st == was)
    && (Rank(st.phase) > Rank(was.phase) ==> demotes && st.phase == Queued)
    && (st.phase == Running && was.phase != Running ==> proceeds)
  }

  lemma StatusIfProceeds(s: Cluster, k: Key, env: Env, victim: Key)
    requires LegalVictim(s, k, env, victim) && Proceeds(s, k, env)
    requires StatusOk(s.runs[k].status, s.now)
    ensures Intended(s, k, env, victim)
         == Dispatch(Staged(s, k, env, victim), k, s.agents[AgentKey(k, s.runs[k])], env)
    ensures StatusChange(s.runs[k].status, Intended(s, k, env, victim).write.value, s.now, false, true)
  {
    RelabelKeepsAdmission(s, k);
    ExecuteStatus(Staged(s, k, env, victim), k, s.agents[AgentKey(k, s.runs[k])], env);
  }

  lemma StatusIfHeld(s: Cluster, k: Key, env: Env, victim: Key)
    requires LegalVictim(s, k, env, victim) && Reaches(s, k, env) && !Proceeds(s, k, env)
    requires StatusOk(s.runs[k].status, s.now)
    ensures var o := Intended(s, k, env, victim);
            o.write.Some? && env.patchStatus ==>
              StatusChange(s.runs[k].status, o.write.value, s.now, Demotes(s, k, env), false)
    ensures Demotes(s, k, env) ==> Intended(s, k, env, victim).write.Some?
                                   && Intended(s, k, env, victim).write.value.phase == Queued
  {
    RelabelKeepsAdmission(s, k);
  }

  // What the status patch leaves of an outcome.
  lemma CommitStatus(o: Outcome, k: Key, relabelled: bool, ok: bool)
    requires k in o.store.runs
    ensures k in Commit(o, k, relabelled, ok).0.runs
    ensures Commit(o, k, relabelled, ok).0.runs[k].status
         == if o.write.Some? && ok then o.write.value else o.store.runs[k].status
  {
  }

  lemma StagedStatus(s: Cluster, k: Key, env: Env, victim: Key)
    requires LegalVictim(s, k, env, victim) && k in s.runs
    ensures k in Intended(s, k, env, victim).store.runs
    ensures Intended(s, k, env, victim).store.runs[k].status == s.runs[k].status
  {
    IntendedStore(s, k, env, victim);
  }

  lemma IntendedChange(s: Cluster, k: Key, env: Env, victim: Key)
    requires LegalVictim(s, k, env, victim) && k in s.runs && StatusOk(s.runs[k].status, s.now)
    ensures var o := Intended(s, k, env, victim);
            o.write.Some? && env.patchStatus ==>
              StatusChange(s.runs[k].status, o.write.value, s.now, Demotes(s, k, env), Proceeds(s, k, env))
  {
    if Proceeds(s, k, env) {
      StatusIfProceeds(s, k, env, victim);
    } else if Reaches(s, k, env) {
      StatusIfHeld(s, k, env, victim);
    }
  }

  // The status Reconcile(k) leaves in the store.
  lemma ReconcileStatus(s: Cluster, k: Key, env: Env, victim: Key)
    requires LegalVictim(s, k, env, victim) && k in s.runs && StatusOk(s.runs[k].status, s.now)
    ensures k in Reconciled(s, k, env, victim).0.runs
    ensures StatusChange(s.runs[k].status, Reconciled(s, k, env, victim).0.runs[k].status, s.now,
                         Demotes(s, k, env), Proceeds(s, k, env))
    ensures Demotes(s, k, env) ==> Reconciled(s, k, env, victim).0.runs[k].status.phase == Queued
  {
    var o := Intended(s, k, env, victim);
    StagedStatus(s, k, env, victim);
    CommitStatus(o, k, Reaches(s, k, env) && NeedsLabel(s, k), env.patchStatus);
    IntendedChange(s, k, env, victim);
    if Demotes(s, k, env) {
      StatusIfHeld(s, k, env, victim);
    }
  }

  // ----- The effect of one Reconcile, with its decisions as plain booleans -----

  ghost predicate Effect(s: Cluster, s': Cluster, k: Key, victim: Key, cancels: bool, demotes: bool, proceeds: bool) {
    && k in s.runs
    && s'.runs.Keys == s.runs.Keys && s'.agents == s.agents && s'.used == s.used && s'.now == s.now
    && (s'.runs[k] == s.runs[k].(status := s'.runs[k].status)
        || s'.runs[k] == s.runs[k].(status := s'.runs[k].status, agentLabel := Some(s.runs[k].agentRef)))
    && StatusChange(s.runs[k].status, s'.runs[k].status, s.now, demotes, proceeds)
    && (proceeds ==> s'.runs[k].agentLabel == Some(s.runs[k].agentRef))
    && (cancels ==> victim in ActiveOthers(s, k, s.runs[k].agentRef))
    && (forall j :: j in s.runs && j != k ==>
          s'.runs[j] == if cancels && j == victim
                        then s.runs[j].(status := CancelledStatus(s.runs[j].status, s.now))
                        else s.runs[j])
  }

  lemma ReconcileEffect(s: Cluster, k: Key, env: Env, victim: Key)
    requires LegalVictim(s, k, env, victim) && k in s.runs && StatusOk(s.runs[k].status, s.now)
    ensures Effect(s, Reconciled(s, k, env, victim).0, k, victim,
                   Replaces(s, k, env), Demotes(s, k, env), Proceeds(s, k, env))
  {
    ReconcileFrame(s, k, env, victim);
    ReconcileStatus(s, k, env, victim);
    StagedRuns(s, k, env, victim);
  }

  lemma StagedRuns(s: Cluster, k: Key, env: Env, victim: Key)
    requires LegalVictim(s, k, env, victim) && k in s.runs
    ensures var b := Staged(s, k, env, victim);
            && b.runs.Keys == s.runs.Keys && b == s.(runs := b.runs)
            && (Replaces(s, k, env) ==> victim in ActiveOthers(s, k, s.runs[k].agentRef))
            && (Proceeds(s, k, env) ==> b.runs[k].agentLabel == Some(s.runs[k].agentRef))
            && (b.runs[k] == s.runs[k] || b.runs[k] == s.runs[k].(agentLabel := Some(s.runs[k].agentRef)))
            && forall j :: j in s.runs && j != k ==>
                 b.runs[j] == if Replaces(s, k, env) && j == victim
                              then s.runs[j].(status := CancelledStatus(s.runs[j].status, s.now))
                              else s.runs[j]
  {
  }

  // ----- Invariants of every step -----

  lemma EffectKeepsInv(s: Cluster, s': Cluster, k: Key, victim: Key, cancels: bool, demotes: bool, proceeds: bool)
    requires Inv(s) && Effect(s, s', k, victim, cancels, demotes, proceeds)
    ensures Inv(s')
  {
  }

  lemma StepKeepsInv(s: Cluster, e: Event, s': Cluster)
    requires Inv(s) && Next(s, e, s')
    ensures Inv(s')
  {
    match e
    case Reconcile(k, env, victim) =>
      ReconcileFrame(s, k, env, victim);
      if k in s.runs {
        ReconcileEffect(s, k, env, victim);
        EffectKeepsInv(s, s', k, victim, Replaces(s, k, env), Demotes(s, k, env), Proceeds(s, k, env));
      }
    case _ =>
  }

  // The label-filtered count is the true count of other Running runs.
  lemma LabelIndexIsTruth(s: Cluster, k: Key)
    requires Labelled(s) && k in s.runs
    ensures ActiveOthers(s, k, s.runs[k].agentRef) == RunningOf(s, AgentKey(k, s.runs[k])) - {k}
  {
  }

  // ----- The concurrency bound -----

  function Max(a: int, b: int): int { if a < b then b else a }

  // The limit in force for agent a in state s; 0 while a is not in the store.
  function LimitAt(s: Cluster, a: Key): int { if a in s.agents then Limit(s.agents[a]) else 0 }

  // Which runs of agent a are Running afterwards: at most k joins, and only if it
  // was let through; when replacing, the victim leaves.
  lemma EffectRunning(s: Cluster, s': Cluster, k: Key, victim: Key, cancels: bool, demotes: bool, proceeds: bool, a: Key)
    requires Inv(s) && Effect(s, s', k, victim, cancels, demotes, proceeds)
    ensures RunningOf(s', a) <= RunningOf(s, a) + {k}
    ensures k in RunningOf(s', a) && k !in RunningOf(s, a) ==>
              proceeds && a == AgentKey(k, s.runs[k])
              && (cancels ==> victim in RunningOf(s, a) && victim !in RunningOf(s', a))
  {
  }

  lemma EffectBound(s: Cluster, s': Cluster, k: Key, victim: Key, cancels: bool, demotes: bool, proceeds: bool, a: Key)
    requires Inv(s) && Effect(s, s', k, victim, cancels, demotes, proceeds)
    requires proceeds && !cancels ==> |RunningOf(s, AgentKey(k, s.runs[k])) - {k}| < LimitAt(s, AgentKey(k, s.runs[k]))
    ensures |RunningOf(s', a)| <= Max(|RunningOf(s, a)|, LimitAt(s, a))
  {
    EffectRunning(s, s', k, victim, cancels, demotes, proceeds, a);
    CountJoins(RunningOf(s, a), RunningOf(s', a), k, victim, cancels, LimitAt(s, a));
  }

  lemma CountJoins<T>(was: set<T>, now: set<T>, k: T, victim: T, cancels: bool, limit: int)
    requires now <= was + {k}
    requires k in now && k !in was ==> if cancels then victim in was && victim !in now else |was - {k}| < limit
    ensures |now| <= Max(|was|, limit)
  {
    if k in now && k !in was {
      if cancels {
        SwapSize(now, was, victim, k);
      } else {
        assert was - {k} == was;
        SubsetSize(now, was + {k});
      }
    } else {
      SubsetSize(now, was);
    }
  }

  lemma StepBound(s: Cluster, e: Event, s': Cluster, a: Key)
    requires Inv(s) && Next(s, e, s')
    ensures |RunningOf(s', a)| <= Max(|RunningOf(s, a)|, LimitAt(s, a))
  {
    match e
    case Reconcile(k, env, victim) =>
      ReconcileFrame(s, k, env, victim);
      if k in s.runs {
        ReconcileEffect(s, k, env, victim);
        AdmissionCounts(s, k, env);
        EffectBound(s, s', k, victim, Replaces(s, k, env), Demotes(s, k, env), Proceeds(s, k, env), a);
      }
    case _ => SubsetSize(RunningOf(s', a), RunningOf(s, a));
  }

  lemma AdmissionCounts(s: Cluster, k: Key, env: Env)
    requires Inv(s) && k in s.runs
    ensures Proceeds(s, k, env) && !Replaces(s, k, env) ==>
              |RunningOf(s, AgentKey(k, s.runs[k])) - {k}| < LimitAt(s, AgentKey(k, s.runs[k]))
  {
    LabelIndexIsTruth(s, k);
  }
}
