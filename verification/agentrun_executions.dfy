// Theorems about whole executions of the AgentRun system: any interleaving of
// reconciles (with any API call failing), creations, deletions, agent changes,
// Job progress and clock ticks.
module AgentRunExecutions {
  import opened Basics
  import opened AgentRunModel
  import opened AgentRunSafety

  lemma {:induction false} InvAt(t: Trace, i: nat)
    requires Valid(t) && i < |t.states|
    ensures Inv(t.states[i])
  {
    if i > 0 {
      InvAt(t, i - 1);
      StepOf(t, i - 1);
      StepKeepsInv(t.states[i - 1], t.events[i - 1], t.states[i]);
    }
  }

  // ----- Bookkeeping -----

  lemma StatusBookkeeping(t: Trace, i: nat, k: Key)
    requires Valid(t) && i < |t.states| && k in t.states[i].runs
    ensures var st := t.states[i].runs[k].status;
            && (Terminal(st.phase) <==> st.completionTime.Some?)
            && (Terminal(st.phase) <==> IsComplete(st))
            && (st.phase == Running ==> st.startTime.Some?)
            && (st.startTime.Some? && st.completionTime.Some? ==> st.startTime.value <= st.completionTime.value)
  {
    InvAt(t, i);
  }

  // Whenever checkConcurrency counts, its label selector finds exactly the other
  // Running runs whose spec names the agent.
  lemma LabelIndexAgrees(t: Trace, i: nat, k: Key)
    requires Valid(t) && i < |t.states| && k in t.states[i].runs
    ensures ActiveOthers(t.states[i], k, t.states[i].runs[k].agentRef)
         == RunningOf(t.states[i], AgentKey(k, t.states[i].runs[k])) - {k}
  {
    InvAt(t, i);
    LabelIndexIsTruth(t.states[i], k);
  }

  // ----- Concurrency bound -----

  // The highest limit that was ever in force for agent a, up to state i.
  function Peak(t: Trace, a: Key, i: nat): int
    requires i < |t.states|
  {
    if i == 0 then LimitAt(t.states[0], a) else Max(Peak(t, a, i - 1), LimitAt(t.states[i], a))
  }

  // However the limit moves, the Running runs of an agent never exceed the
  // highest limit it has had.
  lemma {:induction false} ConcurrencyBound(t: Trace, a: Key, i: nat)
    requires Valid(t) && i < |t.states|
    ensures |RunningOf(t.states[i], a)| <= Peak(t, a, i)
  {
    if i > 0 {
      ConcurrencyBound(t, a, i - 1);
      InvAt(t, i - 1);
      StepOf(t, i - 1);
      StepBound(t.states[i - 1], t.events[i - 1], t.states[i], a);
      LimitBelowPeak(t, a, i - 1);
    } else {
      assert RunningOf(t.states[0], a) == {};
    }
  }

  lemma LimitBelowPeak(t: Trace, a: Key, i: nat)
    requires i < |t.states|
    ensures 0 <= LimitAt(t.states[i], a) <= Peak(t, a, i)
  {
  }

  // Up to state j, agent a's limit does not go down.
  ghost predicate NeverLowered(t: Trace, a: Key, j: int) {
    forall m: int, n: int ::
      0 <= m <= n <= j && n < |t.states| && a in t.states[m].agents && a in t.states[n].agents
      ==> LimitAt(t.states[m], a) <= LimitAt(t.states[n], a)
  }

  lemma {:induction false} PeakIsLimit(t: Trace, a: Key, i: nat, j: nat)
    requires i <= j < |t.states| && NeverLowered(t, a, j) && a in t.states[j].agents
    ensures Peak(t, a, i) <= LimitAt(t.states[j], a)
  {
    if i > 0 {
      PeakIsLimit(t, a, i - 1, j);
    }
  }

  lemma BoundByCurrentLimit(t: Trace, a: Key, i: nat)
    requires Valid(t) && i < |t.states| && NeverLowered(t, a, i) && a in t.states[i].agents
    ensures |RunningOf(t.states[i], a)| <= Limit(t.states[i].agents[a])
    ensures var c := t.states[i].agents[a].concurrency;
            |RunningOf(t.states[i], a)| <= if c.Some? && c.value.maxRuns > 0 then c.value.maxRuns else 1
  {
    ConcurrencyBound(t, a, i);
    PeakIsLimit(t, a, i, i);
  }

  // The bound rests on the schema: at the limit, a policy outside its three values
  // admits the run, and the agent then exceeds its limit.
  lemma UnknownPolicyOverruns(first: Key, second: Key, env: Env)
    requires first.ns == second.ns && first != second
    requires env == Env(true, true, true, true, true, true, Fresh, true, GitReady, PromptUnreachable, PollBusy)
    ensures var a := Key(first.ns, "agent");
            var running := AgentRun("agent", Some("agent"), 0, false, StartedStatus(EMPTY_STATUS, 0));
            var waiting := AgentRun("agent", None, 0, false, EMPTY_STATUS);
            var agent := Agent(Task, true, Some(Concurrency(1, OtherPolicy)), None);
            var s := Cluster(map[first := running, second := waiting], map[a := agent], map[], {first, second}, 0);
            && LegalVictim(s, second, env, second)
            && RunningOf(s, a) == {first}
            && RunningOf(Reconciled(s, second, env, second).0, a) == {first, second}
            && LimitAt(s, a) == 1
  {
    var a := Key(first.ns, "agent");
    var running := AgentRun("agent", Some("agent"), 0, false, StartedStatus(EMPTY_STATUS, 0));
    var waiting := AgentRun("agent", None, 0, false, EMPTY_STATUS);
    var agent := Agent(Task, true, Some(Concurrency(1, OtherPolicy)), None);
    var s := Cluster(map[first := running, second := waiting], map[a := agent], map[], {first, second}, 0);
    assert RunningOf(s, a) == {first};
    assert Admission(s, second) == Admit && Reaches(s, second, env) && !Waits(s, second);
    var s' := Reconciled(s, second, env, second).0;
    RelabelKeepsAdmission(s, second);
    assert s'.runs[first] == running && s'.runs[second].status.phase == Running && s'.runs[second].agentRef == "agent";
    assert s'.runs.Keys == {first, second};
  }

  // ----- Monotone phases -----

  // A step raises a run's rank exactly when it is a Reconcile that queues that
  // run although it is Running.
  lemma RankRisesOnlyByDemotion(s: Cluster, e: Event, s': Cluster, r: Key)
    requires Inv(s) && Next(s, e, s') && r in s.runs && r in s'.runs
    ensures Rank(s'.runs[r].status.phase) > Rank(s.runs[r].status.phase)
            <==> e.Reconcile? && e.key == r && Demotes(s, r, e.env)
    ensures Terminal(s.runs[r].status.phase) ==> s'.runs[r].status == s.runs[r].status
  {
    match e
    case Reconcile(k, env, victim) =>
      ReconcileFrame(s, k, env, victim);
      if k in s.runs {
        ReconcileEffect(s, k, env, victim);
        ReconcileStatus(s, k, env, victim);
        EffectOnOthers(s, s', k, victim, Replaces(s, k, env), Demotes(s, k, env), Proceeds(s, k, env), r);
      }
    case _ =>
  }

  lemma EffectOnOthers(s: Cluster, s': Cluster, k: Key, victim: Key, cancels: bool, demotes: bool, proceeds: bool, r: Key)
    requires Inv(s) && Effect(s, s', k, victim, cancels, demotes, proceeds) && r in s.runs
    requires demotes ==> s'.runs[k].status.phase == Queued && s.runs[k].status.phase == Running
    ensures r != k ==> Rank(s'.runs[r].status.phase) <= Rank(s.runs[r].status.phase)
    ensures r == k ==> (Rank(s'.runs[r].status.phase) > Rank(s.runs[r].status.phase) <==> demotes)
    ensures Terminal(s.runs[r].status.phase) ==> s'.runs[r].status == s.runs[r].status
  {
  }

  // Within its limit, an agent's Running run always passes admission.
  lemma RunningIsAdmitted(s: Cluster, k: Key)
    requires Inv(s) && k in s.runs && AgentKey(k, s.runs[k]) in s.agents
    requires s.runs[k].status.phase == Running
    requires |RunningOf(s, AgentKey(k, s.runs[k]))| <= LimitAt(s, AgentKey(k, s.runs[k]))
    ensures Admission(s, k) == Admit
  {
    LabelIndexIsTruth(s, k);
    var a := RunningOf(s, AgentKey(k, s.runs[k]));
    assert a == (a - {k}) + {k};
  }

  lemma StepMonotone(t: Trace, i: nat, r: Key)
    requires Valid(t) && i < |t.events| && r in t.states[i].runs && r in t.states[i + 1].runs
    requires NeverLowered(t, AgentKey(r, t.states[i].runs[r]), i)
    ensures Rank(t.states[i + 1].runs[r].status.phase) <= Rank(t.states[i].runs[r].status.phase)
    ensures Terminal(t.states[i].runs[r].status.phase) ==> t.states[i + 1].runs[r].status == t.states[i].runs[r].status
  {
    var s := t.states[i];
    InvAt(t, i);
    StepOf(t, i);
    RankRisesOnlyByDemotion(s, t.events[i], t.states[i + 1], r);
    var a := AgentKey(r, s.runs[r]);
    if a in s.agents {
      BoundByCurrentLimit(t, a, i);
      if s.runs[r].status.phase == Running {
        RunningIsAdmitted(s, r);
      }
    }
  }

  // A run that has left the store does not come back.
  lemma PresentBefore(t: Trace, i: nat, r: Key)
    requires Valid(t) && i < |t.events| && r in t.states[i].used && r in t.states[i + 1].runs
    ensures r in t.states[i].runs
  {
    StepOf(t, i);
    match t.events[i]
    case Reconcile(k, env, victim) => ReconcileFrame(t.states[i], k, env, victim);
    case _ =>
  }

  lemma {:induction false} UsedGrows(t: Trace, i: nat, j: nat)
    requires Valid(t) && i <= j < |t.states|
    ensures t.states[i].used <= t.states[j].used
  {
    if i < j {
      UsedGrows(t, i, j - 1);
      StepOf(t, j - 1);
      match t.events[j - 1]
      case Reconcile(k, env, victim) => ReconcileFrame(t.states[j - 1], k, env, victim);
      case _ =>
    }
  }

  // A terminal run's status is final, whatever else happens in the system.
  lemma {:induction false} TerminalIsFinal(t: Trace, i: nat, j: nat, r: Key)
    requires Valid(t) && i <= j < |t.states|
    requires r in t.states[i].runs && r in t.states[j].runs && Terminal(t.states[i].runs[r].status.phase)
    ensures t.states[j].runs[r].status == t.states[i].runs[r].status
  {
    if i < j {
      InvAt(t, i);
      UsedGrows(t, i, j - 1);
      PresentBefore(t, j - 1, r);
      TerminalIsFinal(t, i, j - 1, r);
      InvAt(t, j - 1);
      StepOf(t, j - 1);
      RankRisesOnlyByDemotion(t.states[j - 1], t.events[j - 1], t.states[j], r);
    }
  }

  lemma StepKeepsAgent(s: Cluster, e: Event, s': Cluster, r: Key)
    requires Inv(s) && Next(s, e, s') && r in s.runs && r in s'.runs
    ensures AgentKey(r, s'.runs[r]) == AgentKey(r, s.runs[r])
  {
    match e
    case Reconcile(k, env, victim) =>
      ReconcileFrame(s, k, env, victim);
      if k in s.runs {
        ReconcileEffect(s, k, env, victim);
      }
    case _ =>
  }

  // The agent a run names does not change.
  lemma {:induction false} AgentKept(t: Trace, i: nat, j: nat, r: Key)
    requires Valid(t) && i <= j < |t.states| && r in t.states[i].runs && r in t.states[j].runs
    ensures AgentKey(r, t.states[j].runs[r]) == AgentKey(r, t.states[i].runs[r])
  {
    if i < j {
      InvAt(t, i);
      UsedGrows(t, i, j - 1);
      PresentBefore(t, j - 1, r);
      AgentKept(t, i, j - 1, r);
      InvAt(t, j - 1);
      StepOf(t, j - 1);
      StepKeepsAgent(t.states[j - 1], t.events[j - 1], t.states[j], r);
    }
  }

  // Phases only advance up to any state before which the limit of the run's agent
  // has not been lowered: a Running run stays Running or ends, and a terminal status
  // is final.
  lemma {:induction false} PhasesOnlyAdvance(t: Trace, i: nat, j: nat, r: Key)
    requires Valid(t) && i <= j < |t.states| && r in t.states[i].runs && r in t.states[j].runs
    requires NeverLowered(t, AgentKey(r, t.states[i].runs[r]), j)
    ensures var was, st := t.states[i].runs[r].status, t.states[j].runs[r].status;
            && Rank(st.phase) <= Rank(was.phase)
            && (was.phase == Running ==> st.phase == Running || Terminal(st.phase))
            && (Terminal(was.phase) ==> st == was)
  {
    if i < j {
      InvAt(t, i);
      UsedGrows(t, i, j - 1);
      PresentBefore(t, j - 1, r);
      PhasesOnlyAdvance(t, i, j - 1, r);
      AgentKept(t, i, j - 1, r);
      StepMonotone(t, j - 1, r);
    }
  }

  // ----- Replacing -----

  lemma CancelledEnds(st: RunStatus, now: int)
    ensures CancelledStatus(st, now).mode == st.mode
    ensures Ended(st, CancelledStatus(st, now), Failed, Replaced, ByCancellation, now)
  {
  }

  // Another run changes in a Reconcile exactly when that run is the victim of a
  // replacement: a Running run of the same agent, none of which is older.
  lemma ReplaceCancelsOneOldest(s: Cluster, k: Key, env: Env, victim: Key)
    requires Inv(s) && LegalVictim(s, k, env, victim) && k in s.runs
    ensures var s' := Reconciled(s, k, env, victim).0;
            && s'.runs.Keys == s.runs.Keys
            && (forall j :: j in s.runs && j != k ==>
                  (s'.runs[j] != s.runs[j] <==> Replaces(s, k, env) && j == victim))
            && (Replaces(s, k, env) ==>
                  var running := RunningOf(s, AgentKey(k, s.runs[k])) - {k};
                  && victim in running
                  && (forall w :: w in running ==> s.runs[victim].created <= s.runs[w].created)
                  && s'.runs[victim] == s.runs[victim].(status := s'.runs[victim].status)
                  && s'.runs[victim].status.mode == s.runs[victim].status.mode
                  && Ended(s.runs[victim].status, s'.runs[victim].status, Failed, Replaced, ByCancellation, s.now))
  {
    ReconcileEffect(s, k, env, victim);
    LabelIndexIsTruth(s, k);
    if Replaces(s, k, env) {
      CancelledEnds(s.runs[victim].status, s.now);
    }
  }

  // From within the limit, a replacement leaves the agent within the limit even
  // if the replacing run starts at once, and touches no other agent's runs.
  lemma ReplaceKeepsBound(s: Cluster, k: Key, env: Env, victim: Key, b: Key)
    requires Inv(s) && LegalVictim(s, k, env, victim) && Replaces(s, k, env)
    requires |RunningOf(s, AgentKey(k, s.runs[k]))| <= LimitAt(s, AgentKey(k, s.runs[k]))
    ensures var a, s' := AgentKey(k, s.runs[k]), Reconciled(s, k, env, victim).0;
            && |RunningOf(s, a)| == LimitAt(s, a)
            && s.runs[k].status.phase != Running
            && RunningOf(s', a) <= (RunningOf(s, a) - {victim}) + {k}
            && |RunningOf(s', a)| <= LimitAt(s, a)
            && (b != a ==> RunningOf(s', b) == RunningOf(s, b))
  {
    ReplaceStartsAtLimit(s, k);
    ReconcileEffect(s, k, env, victim);
    ReplaceCounts(s, Reconciled(s, k, env, victim).0, k, victim, Demotes(s, k, env), Proceeds(s, k, env), b);
  }

  lemma ReplaceStartsAtLimit(s: Cluster, k: Key)
    requires Inv(s) && k in s.runs && AgentKey(k, s.runs[k]) in s.agents && Admission(s, k) == Replace
    requires |RunningOf(s, AgentKey(k, s.runs[k]))| <= LimitAt(s, AgentKey(k, s.runs[k]))
    ensures |RunningOf(s, AgentKey(k, s.runs[k]))| == LimitAt(s, AgentKey(k, s.runs[k]))
    ensures s.runs[k].status.phase != Running
  {
    LabelIndexIsTruth(s, k);
    if s.runs[k].status.phase == Running {
      RunningIsAdmitted(s, k);
    } else {
      assert RunningOf(s, AgentKey(k, s.runs[k])) - {k} == RunningOf(s, AgentKey(k, s.runs[k]));
    }
  }

  lemma ReplaceCounts(s: Cluster, s': Cluster, k: Key, victim: Key, demotes: bool, proceeds: bool, b: Key)
    requires Inv(s) && Effect(s, s', k, victim, true, demotes, proceeds)
    ensures var a := AgentKey(k, s.runs[k]);
            && RunningOf(s', a) <= (RunningOf(s, a) - {victim}) + {k}
            && |RunningOf(s', a)| <= |RunningOf(s, a)|
            && (b != a ==> RunningOf(s', b) == RunningOf(s, b))
  {
    var a := AgentKey(k, s.runs[k]);
    assert victim in RunningOf(s, a);
    assert RunningOf(s', a) <= (RunningOf(s, a) - {victim}) + {k};
    SwapSize(RunningOf(s', a), RunningOf(s, a), victim, k);
  }

  // ----- The work queue never forgets a run -----

  lemma ExecuteDone(s: Cluster, k: Key, a: Agent, env: Env)
    requires k in s.runs && Execute(s, k, a, env).result == Done
    ensures Terminal(Execute(s, k, a, env).status.phase)
  {
  }

  lemma IntendedDone(s: Cluster, k: Key, env: Env, victim: Key)
    requires LegalVictim(s, k, env, victim) && k in s.runs && Intended(s, k, env, victim).result == Done
    ensures var o := Intended(s, k, env, victim);
            if o.write.Some? then Terminal(o.write.value.phase) else Terminal(s.runs[k].status.phase)
  {
    if Proceeds(s, k, env) {
      RelabelKeepsAdmission(s, k);
      ExecuteDone(Staged(s, k, env, victim), k, s.agents[AgentKey(k, s.runs[k])], env);
    } else if Reaches(s, k, env) {
      RelabelKeepsAdmission(s, k);
    }
  }

  // A run that is not finished is always reconciled again: Reconcile reports Done
  // only if the run is terminal in the store or gone from it.
  lemma UnfinishedIsRequeued(s: Cluster, k: Key, env: Env, victim: Key)
    requires LegalVictim(s, k, env, victim) && Reconciled(s, k, env, victim).1 == Done
    ensures k in Reconciled(s, k, env, victim).0.runs ==>
              Terminal(Reconciled(s, k, env, victim).0.runs[k].status.phase)
  {
    ReconcileFrame(s, k, env, victim);
    if k in s.runs {
      StagedStatus(s, k, env, victim);
      CommitStatus(Intended(s, k, env, victim), k, Reaches(s, k, env) && NeedsLabel(s, k), env.patchStatus);
      CommitDone(Intended(s, k, env, victim), k, Reaches(s, k, env) && NeedsLabel(s, k), env.patchStatus);
      IntendedDone(s, k, env, victim);
    }
  }

  lemma CommitDone(o: Outcome, k: Key, relabelled: bool, ok: bool)
    requires k in o.store.runs && Commit(o, k, relabelled, ok).1 == Done
    ensures o.result == Done
    ensures o.write.Some? ==> Commit(o, k, relabelled, ok).0.runs[k].status == o.write.value
  {
  }
}
