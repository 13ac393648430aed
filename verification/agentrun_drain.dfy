// Liveness: a fixed set of runs of one agent drains. If API calls succeed and no
// run is set back for ever (polled unsuccessfully, or deprived of its Job), enough rounds of Reconcile, in any order
// and interleaved with anything else in the cluster, make every run terminal.
module AgentRunDrain {
  import opened Basics
  import opened AgentRunModel
  import opened AgentRunSafety
  import opened AgentRunExecutions
  import opened AgentRunLaunch

  // The run is handed to execution and finds its Job or prompt unfinished.
  predicate Busy(s: Cluster, k: Key, env: Env) {
    Proceeds(s, k, env)
    && match s.agents[AgentKey(k, s.runs[k])].mode
       case Task => SeesJob(s, k, env) && s.jobs[k].succeeded == 0 && s.jobs[k].failed == 0
       case Daemon => if s.runs[k].status.phase == Running then !env.poll.PollIdle? else env.prompt.PromptUnreachable?
       case OtherMode => false
  }

  // k's Job is removed although the run has not ended.
  predicate LosesJob(s: Cluster, e: Event, k: Key) {
    e == RemoveJob(k) && k in s.jobs && k in s.runs && !Terminal(s.runs[k].status.phase)
  }

  // Step m sets k back, or at least does not bring it on: a Reconcile finds it
  // unfinished, or its Job is lost.
  ghost predicate Setback(t: Trace, k: Key, m: nat)
    requires m < |t.events| < |t.states|
  {
    || LosesJob(t.states[m], t.events[m], k)
    || exists env, victim {:trigger Reconcile(k, env, victim)} ::
         t.events[m] == Reconcile(k, env, victim) && Busy(t.states[m], k, env)
  }

  // How often k was set back in the first n steps.
  ghost function Setbacks(t: Trace, k: Key, n: nat): nat
    requires n <= |t.events| < |t.states|
  {
    if n == 0 then 0 else Setbacks(t, k, n - 1) + (if Setback(t, k, n - 1) then 1 else 0)
  }

  // How far a run is from its end.
  function Weight(s: Cluster, k: Key): nat
    requires k in s.runs
  {
    if Terminal(s.runs[k].status.phase) then 0
    else if s.runs[k].status.phase != Running then 3
    else if k in s.jobs then 1
    else 2
  }

  // Terminal, Running, or before that.
  function Standing(s: Cluster, k: Key): nat
    requires k in s.runs
  {
    if Terminal(s.runs[k].status.phase) then 0 else if s.runs[k].status.phase == Running then 1 else 2
  }

  // Reconciling k moves it on, or at least finds it unfinished: it is Running, or
  // no run of its agent is.
  predicate Ripe(s: Cluster, k: Key) {
    && k in s.runs && !Terminal(s.runs[k].status.phase)
    && (s.runs[k].status.phase == Running || RunningOf(s, AgentKey(k, s.runs[k])) == {})
  }

  predicate AgentAvailable(s: Cluster, a: Key) {
    a in s.agents && (s.agents[a].mode == Daemon ==> s.agents[a].up)
  }

  // No deadlock: a ripe run is admitted.
  lemma RipeIsAdmitted(s: Cluster, k: Key, env: Env)
    requires Inv(s) && Ripe(s, k) && CallsWork(env) && AgentAvailable(s, AgentKey(k, s.runs[k]))
    requires |RunningOf(s, AgentKey(k, s.runs[k]))| <= LimitAt(s, AgentKey(k, s.runs[k]))
    ensures Proceeds(s, k, env) && !Replaces(s, k, env)
  {
    if s.runs[k].status.phase == Running {
      RunningIsAdmitted(s, k);
    } else {
      LabelIndexIsTruth(s, k);
      assert ActiveOthers(s, k, s.runs[k].agentRef) == {};
    }
  }

  lemma ExecuteMovesOn(s: Cluster, k: Key, a: Agent, env: Env)
    requires k in s.runs && !Terminal(s.runs[k].status.phase) && CallsWork(env)
    ensures var o := Dispatch(s, k, a, env);
            && o.write.Some? && k in o.store.runs
            && (Terminal(o.write.value.phase)
                || (s.runs[k].status.phase != Running && o.write.value.phase == Running)
                || (s.runs[k].status.phase == Running && o.write.value.phase == Running && k !in s.jobs && k in o.store.jobs)
                || (match a.mode
                    case Task => SeesJob(s, k, env) && s.jobs[k].succeeded == 0 && s.jobs[k].failed == 0
                    case Daemon => if s.runs[k].status.phase == Running then !env.poll.PollIdle?
                                   else env.prompt.PromptUnreachable?
                    case OtherMode => false))
  {
  }

  lemma RipeMovesOn(s: Cluster, k: Key, env: Env, victim: Key)
    requires Inv(s) && LegalVictim(s, k, env, victim) && Ripe(s, k) && CallsWork(env)
    requires AgentAvailable(s, AgentKey(k, s.runs[k]))
    requires |RunningOf(s, AgentKey(k, s.runs[k]))| <= LimitAt(s, AgentKey(k, s.runs[k]))
    ensures k in Reconciled(s, k, env, victim).0.runs
    ensures Weight(Reconciled(s, k, env, victim).0, k) < Weight(s, k) || Busy(s, k, env)
  {
    RipeIsAdmitted(s, k, env);
    StatusIfProceeds(s, k, env, victim);
    StagedStatus(s, k, env, victim);
    ExecuteMovesOn(Staged(s, k, env, victim), k, s.agents[AgentKey(k, s.runs[k])], env);
    CommitStatus(Intended(s, k, env, victim), k, NeedsLabel(s, k), true);
    CommitJobs(Intended(s, k, env, victim), k, NeedsLabel(s, k), true);
  }

  lemma CommitJobs(o: Outcome, k: Key, relabelled: bool, ok: bool)
    requires k in o.store.runs
    ensures Commit(o, k, relabelled, ok).0.jobs == o.store.jobs
  {
  }

  // While its agent stays within its limit, only the loss of its Job makes a run
  // heavier, and by no more than one; its standing only improves, and with it the
  // weight.
  lemma WeightStep(t: Trace, i: nat, k: Key)
    requires Valid(t) && i < |t.events| && k in t.states[i].runs && k in t.states[i + 1].runs
    requires NeverLowered(t, AgentKey(k, t.states[i].runs[k]), i)
    ensures Standing(t.states[i + 1], k) <= Standing(t.states[i], k)
    ensures Standing(t.states[i + 1], k) < Standing(t.states[i], k) ==> Weight(t.states[i + 1], k) < Weight(t.states[i], k)
    ensures Weight(t.states[i + 1], k)
         <= Weight(t.states[i], k) + if LosesJob(t.states[i], t.events[i], k) then 1 else 0
  {
    StepMonotone(t, i, k);
    StepOf(t, i);
    match t.events[i]
    case Reconcile(r, env, victim) => ReconcileJobs(t.states[i], r, env, victim);
    case _ =>
  }

  // ----- Potential: weights plus setbacks still allowed -----

  ghost predicate Budgeted(t: Trace, ks: seq<Key>, budget: map<Key, nat>) {
    && |t.events| < |t.states|
    && (forall k :: k in ks ==> k in budget)
    && (forall k, n: nat :: k in ks && n <= |t.events| ==> Setbacks(t, k, n) <= budget[k])
  }

  // ks are exactly agent a's runs, and the agent is available.
  ghost predicate CalmState(s: Cluster, a: Key, ks: seq<Key>) {
    AgentAvailable(s, a) && forall k :: k in ks <==> k in s.runs && AgentKey(k, s.runs[k]) == a
  }

  // Reconciles of ks succeed in their API calls.
  predicate CalmEvent(e: Event, ks: seq<Key>) { e.Reconcile? && e.key in ks ==> CallsWork(e.env) }

  ghost predicate Calm(t: Trace, b: nat, a: Key, ks: seq<Key>) {
    && (forall m :: b <= m < |t.states| ==> CalmState(t.states[m], a, ks))
    && (forall m :: b <= m < |t.events| ==> CalmEvent(t.events[m], ks))
  }

  ghost function Potential(t: Trace, k: Key, n: nat, budget: map<Key, nat>): int
    requires n < |t.states| && n <= |t.events| < |t.states| && k in t.states[n].runs && k in budget
  {
    Weight(t.states[n], k) + budget[k] - Setbacks(t, k, n)
  }

  ghost predicate Tracked(t: Trace, ks: seq<Key>, n: nat, budget: map<Key, nat>) {
    n < |t.states| && n <= |t.events| < |t.states| && forall k :: k in ks ==> k in budget && k in t.states[n].runs
  }

  ghost function Total(t: Trace, ks: seq<Key>, n: nat, budget: map<Key, nat>): int
    requires Tracked(t, ks, n, budget)
  {
    if ks == [] then 0 else Potential(t, ks[0], n, budget) + Total(t, ks[1..], n, budget)
  }

  // Pointwise smaller potentials have a smaller total, strictly if one is.
  lemma {:induction false} TotalCompare(t: Trace, ks: seq<Key>, p: nat, q: nat, budget: map<Key, nat>)
    requires Tracked(t, ks, p, budget) && Tracked(t, ks, q, budget)
    requires forall k :: k in ks ==> Potential(t, k, q, budget) <= Potential(t, k, p, budget)
    ensures Total(t, ks, q, budget) <= Total(t, ks, p, budget)
    ensures (exists k :: k in ks && Potential(t, k, q, budget) < Potential(t, k, p, budget)) ==>
              Total(t, ks, q, budget) < Total(t, ks, p, budget)
  {
    if ks != [] {
      TotalCompare(t, ks[1..], p, q, budget);
      if k :| k in ks && Potential(t, k, q, budget) < Potential(t, k, p, budget) && k != ks[0] {
        assert k in ks[1..];
      }
    }
  }

  lemma {:induction false} TotalBounds(t: Trace, ks: seq<Key>, n: nat, budget: map<Key, nat>)
    requires Tracked(t, ks, n, budget) && Budgeted(t, ks, budget)
    ensures 0 <= Total(t, ks, n, budget) <= 3 * |ks| + BudgetSum(ks, budget)
  {
    if ks != [] {
      TotalBounds(t, ks[1..], n, budget);
    }
  }

  function BudgetSum(ks: seq<Key>, budget: map<Key, nat>): nat
    requires forall k :: k in ks ==> k in budget
  {
    if ks == [] then 0 else budget[ks[0]] + BudgetSum(ks[1..], budget)
  }

  lemma PotentialStep(t: Trace, b: nat, a: Key, ks: seq<Key>, budget: map<Key, nat>, i: nat, k: Key)
    requires Valid(t) && NeverLowered(t, a, |t.states| - 1) && Calm(t, b, a, ks) && Budgeted(t, ks, budget)
    requires b <= i < |t.events| && k in ks
    ensures k in t.states[i].runs && k in t.states[i + 1].runs
    ensures Potential(t, k, i + 1, budget) <= Potential(t, k, i, budget)
    ensures Ripe(t.states[i], k) && t.events[i].Reconcile? && t.events[i].key == k ==>
              Potential(t, k, i + 1, budget) < Potential(t, k, i, budget)
    ensures Standing(t.states[i + 1], k) <= Standing(t.states[i], k)
    ensures Standing(t.states[i + 1], k) < Standing(t.states[i], k) ==>
              Potential(t, k, i + 1, budget) < Potential(t, k, i, budget)
  {
    assert CalmState(t.states[i], a, ks) && CalmState(t.states[i + 1], a, ks) && CalmEvent(t.events[i], ks);
    WeightStep(t, i, k);
    InvAt(t, i);
    StepOf(t, i);
    BoundByCurrentLimit(t, a, i);
    if Ripe(t.states[i], k) && t.events[i].Reconcile? && t.events[i].key == k {
      RipeMovesOn(t.states[i], k, t.events[i].env, t.events[i].victim);
      assert t.events[i] == Reconcile(k, t.events[i].env, t.events[i].victim);
    }
  }

  lemma InStore(t: Trace, b: nat, a: Key, ks: seq<Key>, p: nat, k: Key)
    requires Calm(t, b, a, ks) && b <= p < |t.states| && k in ks
    ensures k in t.states[p].runs
  {
    assert CalmState(t.states[p], a, ks);
  }

  lemma {:induction false} PotentialMonotone(t: Trace, b: nat, a: Key, ks: seq<Key>, budget: map<Key, nat>, p: nat, q: nat, k: Key)
    requires Valid(t) && NeverLowered(t, a, |t.states| - 1) && Calm(t, b, a, ks) && Budgeted(t, ks, budget)
    requires b <= p <= q < |t.states| && k in ks
    ensures k in t.states[p].runs && k in t.states[q].runs
    ensures Potential(t, k, q, budget) <= Potential(t, k, p, budget)
    ensures Standing(t.states[q], k) <= Standing(t.states[p], k)
    ensures Standing(t.states[q], k) < Standing(t.states[p], k) ==>
              Potential(t, k, q, budget) < Potential(t, k, p, budget)
    decreases q - p
  {
    if p < q {
      PotentialStep(t, b, a, ks, budget, p, k);
      PotentialMonotone(t, b, a, ks, budget, p + 1, q, k);
    } else {
      InStore(t, b, a, ks, p, k);
    }
  }

  // ----- Rounds -----

  // Every run of ks is reconciled at least once between states p and q.
  ghost predicate Round(t: Trace, ks: seq<Key>, p: nat, q: nat) {
    p <= q <= |t.events|
    && forall k :: k in ks ==> exists m :: p <= m < q && t.events[m].Reconcile? && t.events[m].key == k
  }

  ghost predicate AllTerminal(s: Cluster, ks: seq<Key>) {
    forall k :: k in ks ==> k in s.runs && Terminal(s.runs[k].status.phase)
  }

  // While not every run is terminal, some run is ripe.
  lemma SomeRipe(t: Trace, b: nat, a: Key, ks: seq<Key>, p: nat) returns (r: Key)
    requires Calm(t, b, a, ks) && b <= p < |t.states| && !AllTerminal(t.states[p], ks)
    ensures r in ks && Ripe(t.states[p], r)
  {
    assert CalmState(t.states[p], a, ks);
    r :| r in ks && !Terminal(t.states[p].runs[r].status.phase);
    if RunningOf(t.states[p], a) != {} {
      r :| r in RunningOf(t.states[p], a);
    }
  }

  // A run that is ripe stays ripe while no standing among its agent's runs changes.
  lemma StaysRipe(t: Trace, b: nat, a: Key, ks: seq<Key>, p: nat, m: nat, r: Key)
    requires Calm(t, b, a, ks) && b <= p <= m < |t.states| && r in ks && Ripe(t.states[p], r)
    requires forall k :: k in ks ==> Standing(t.states[m], k) == Standing(t.states[p], k)
    ensures Ripe(t.states[m], r)
  {
    assert CalmState(t.states[p], a, ks) && CalmState(t.states[m], a, ks);
    assert AgentKey(r, t.states[m].runs[r]) == a && AgentKey(r, t.states[p].runs[r]) == a;
    if t.states[p].runs[r].status.phase != Running {
      forall k | k in RunningOf(t.states[m], a)
        ensures k in RunningOf(t.states[p], a)
      {
        assert k in ks;
      }
    }
  }

  lemma AllMonotone(t: Trace, b: nat, a: Key, ks: seq<Key>, budget: map<Key, nat>, p: nat, q: nat)
    requires Valid(t) && NeverLowered(t, a, |t.states| - 1) && Calm(t, b, a, ks) && Budgeted(t, ks, budget)
    requires b <= p <= q <= |t.events|
    ensures Tracked(t, ks, p, budget) && Tracked(t, ks, q, budget)
    ensures forall k :: k in ks ==> Potential(t, k, q, budget) <= Potential(t, k, p, budget)
  {
    forall k | k in ks
      ensures k in t.states[p].runs && k in t.states[q].runs
      ensures Potential(t, k, q, budget) <= Potential(t, k, p, budget)
    {
      PotentialMonotone(t, b, a, ks, budget, p, q, k);
    }
  }

  // By the time ripe run r has been reconciled, some potential has dropped.
  lemma FirstDrop(t: Trace, b: nat, a: Key, ks: seq<Key>, budget: map<Key, nat>, p: nat, m: nat, r: Key) returns (k: Key)
    requires Valid(t) && NeverLowered(t, a, |t.states| - 1) && Calm(t, b, a, ks) && Budgeted(t, ks, budget)
    requires b <= p <= m < |t.events| && r in ks && Ripe(t.states[p], r)
    requires t.events[m].Reconcile? && t.events[m].key == r
    ensures k in ks && k in t.states[p].runs && k in t.states[m + 1].runs
    ensures Potential(t, k, m + 1, budget) < Potential(t, k, p, budget)
  {
    forall j | j in ks
      ensures Potential(t, j, m, budget) <= Potential(t, j, p, budget)
      ensures Standing(t.states[m], j) <= Standing(t.states[p], j)
      ensures Standing(t.states[m], j) < Standing(t.states[p], j) ==>
                Potential(t, j, m, budget) < Potential(t, j, p, budget)
    {
      PotentialMonotone(t, b, a, ks, budget, p, m, j);
    }
    if j :| j in ks && Standing(t.states[m], j) < Standing(t.states[p], j) {
      k := j;
    } else {
      StaysRipe(t, b, a, ks, p, m, r);
      k := r;
    }
    PotentialStep(t, b, a, ks, budget, m, k);
  }

  lemma Turn(t: Trace, ks: seq<Key>, p: nat, q: nat, r: Key) returns (m: nat)
    requires Round(t, ks, p, q) && r in ks
    ensures p <= m < q <= |t.events| && t.events[m].Reconcile? && t.events[m].key == r
  {
    m :| p <= m < q && t.events[m].Reconcile? && t.events[m].key == r;
  }

  // In one round the potential of some run drops while a run is left.
  lemma RoundDrops(t: Trace, b: nat, a: Key, ks: seq<Key>, budget: map<Key, nat>, p: nat, q: nat) returns (k: Key)
    requires Valid(t) && NeverLowered(t, a, |t.states| - 1) && Calm(t, b, a, ks) && Budgeted(t, ks, budget)
    requires b <= p && Round(t, ks, p, q) && !AllTerminal(t.states[p], ks)
    ensures k in ks && k in t.states[p].runs && k in t.states[q].runs
    ensures Potential(t, k, q, budget) < Potential(t, k, p, budget)
  {
    var r := SomeRipe(t, b, a, ks, p);
    var m := Turn(t, ks, p, q, r);
    k := FirstDrop(t, b, a, ks, budget, p, m, r);
    PotentialMonotone(t, b, a, ks, budget, m + 1, q, k);
  }

  // So one round lowers the total while a run is left.
  lemma RoundLowersTotal(t: Trace, b: nat, a: Key, ks: seq<Key>, budget: map<Key, nat>, p: nat, q: nat)
    requires Valid(t) && NeverLowered(t, a, |t.states| - 1) && Calm(t, b, a, ks) && Budgeted(t, ks, budget)
    requires b <= p && Round(t, ks, p, q) && !AllTerminal(t.states[p], ks)
    ensures Tracked(t, ks, p, budget) && Tracked(t, ks, q, budget)
    ensures Total(t, ks, q, budget) < Total(t, ks, p, budget)
  {
    AllMonotone(t, b, a, ks, budget, p, q);
    var k := RoundDrops(t, b, a, ks, budget, p, q);
    TotalCompare(t, ks, p, q, budget);
  }

  ghost predicate Rounds(t: Trace, b: nat, ks: seq<Key>, marks: seq<nat>) {
    |marks| > 0 && marks[0] == b && marks[0] <= |t.events|
    && forall i :: 0 <= i < |marks| - 1 ==> Round(t, ks, marks[i], marks[i + 1])
  }

  lemma {:induction false} RoundsLowerTotal(t: Trace, b: nat, a: Key, ks: seq<Key>, budget: map<Key, nat>, marks: seq<nat>, n: nat)
    requires Valid(t) && NeverLowered(t, a, |t.states| - 1) && Calm(t, b, a, ks) && Budgeted(t, ks, budget)
    requires Rounds(t, b, ks, marks) && n < |marks|
    ensures b <= marks[n] <= |t.events|
    ensures AllTerminal(t.states[marks[n]], ks) || Total(t, ks, marks[n], budget) + n <= Total(t, ks, b, budget)
  {
    if n > 0 {
      RoundsLowerTotal(t, b, a, ks, budget, marks, n - 1);
      assert Round(t, ks, marks[n - 1], marks[n - 1 + 1]);
      if AllTerminal(t.states[marks[n - 1]], ks) {
        forall k | k in ks
          ensures Terminal(t.states[marks[n]].runs[k].status.phase)
        {
          PotentialMonotone(t, b, a, ks, budget, marks[n - 1], marks[n], k);
        }
      } else {
        RoundLowersTotal(t, b, a, ks, budget, marks[n - 1], marks[n]);
      }
    }
  }

  // The drain theorem, with an explicit number of rounds.
  lemma Drain(t: Trace, b: nat, a: Key, ks: seq<Key>, budget: map<Key, nat>, marks: seq<nat>)
    requires Valid(t) && NeverLowered(t, a, |t.states| - 1) && Calm(t, b, a, ks) && Budgeted(t, ks, budget)
    requires Rounds(t, b, ks, marks) && |marks| > 3 * |ks| + BudgetSum(ks, budget) + 1
    ensures marks[|marks| - 1] < |t.states|
    ensures AllTerminal(t.states[marks[|marks| - 1]], ks)
  {
    RoundsLowerTotal(t, b, a, ks, budget, marks, |marks| - 1);
    TotalBounds(t, ks, b, budget);
    TotalBounds(t, ks, marks[|marks| - 1], budget);
  }
}
