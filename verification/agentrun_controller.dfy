// The AgentRun reconciler in its imperative form, against a store of maps. Every
// method is proved against the step functions of AgentRunModel.
module AgentRunController {
  import opened Basics
  import opened AgentRunModel

  // One entry of a listing: a copy of a stored run under its key.
  datatype Item = Item(key: Key, run: AgentRun)

  // A fetched AgentRun: a copy that the reconciler edits in place and writes back.
  class RunObject {
    const key: Key
    const agentRef: string
    const created: int
    const git: bool
    var agentLabel: Option<string>
    var status: RunStatus

    constructor (k: Key, run: AgentRun)
      ensures key == k && Value() == run
    {
      key, agentRef, created, git := k, run.agentRef, run.created, run.git;
      agentLabel, status := run.agentLabel, run.status;
    }

    function Value(): AgentRun
      reads this
    {
      AgentRun(agentRef, agentLabel, created, git, status)
    }
  }

  predicate DistinctItems(items: seq<Item>) {
    forall i, j :: 0 <= i < j < |items| ==> items[i].key != items[j].key
  }

  predicate IsActive(x: Item, self: Key) { x.key != self && x.run.status.phase == Running }

  function ActiveKeys(items: seq<Item>, self: Key): set<Key> {
    set x | x in items && IsActive(x, self) :: x.key
  }

  // The stored runs of a namespace that carry an agent's label.
  predicate Lists(s: Cluster, items: seq<Item>, ns: string, agent: string) {
    && DistinctItems(items)
    && (forall x :: x in items ==> x.key in s.runs && x.run == s.runs[x.key])
    && (forall k :: k in s.runs ==>
          (Item(k, s.runs[k]) in items <==> k.ns == ns && s.runs[k].agentLabel == Some(agent)))
  }

  predicate SortedByCreation(items: seq<Item>) {
    forall i, j :: 0 <= i < j < |items| ==> items[i].run.created <= items[j].run.created
  }

  lemma InsertSorted(s: seq<Item>, i: nat, x: Item)
    requires SortedByCreation(s) && i <= |s|
    requires forall j :: i <= j < |s| ==> x.run.created <= s[j].run.created
    requires i > 0 ==> s[i - 1].run.created <= x.run.created
    ensures SortedByCreation(s[..i] + [x] + s[i..])
  {
    var r := s[..i] + [x] + s[i..];
    assert forall j :: 0 <= j < |r| ==> r[j] == if j < i then s[j] else if j == i then x else s[j - 1];
  }

  lemma InsertMultiset(s: seq<Item>, i: nat, x: Item)
    requires i <= |s|
    ensures multiset(s[..i] + [x] + s[i..]) == multiset(s) + multiset{x}
  {
    assert s == s[..i] + s[i..];
  }

  method InsertByCreation(sorted: seq<Item>, x: Item) returns (r: seq<Item>)
    requires SortedByCreation(sorted)
    ensures SortedByCreation(r) && multiset(r) == multiset(sorted) + multiset{x}
  {
    var i := |sorted|;
    while i > 0 && sorted[i - 1].run.created > x.run.created
      invariant 0 <= i <= |sorted|
      invariant forall j :: i <= j < |sorted| ==> x.run.created <= sorted[j].run.created
    {
      i := i - 1;
    }
    InsertSorted(sorted, i, x);
    InsertMultiset(sorted, i, x);
    r := sorted[..i] + [x] + sorted[i..];
  }

  // The library sort: some ordering by creation time, with ties in any order.
  method SortByCreation(items: seq<Item>) returns (sorted: seq<Item>)
    ensures multiset(sorted) == multiset(items) && SortedByCreation(sorted)
  {
    sorted := [];
    for n := 0 to |items|
      invariant multiset(sorted) == multiset(items[..n]) && SortedByCreation(sorted)
    {
      assert items[..n + 1] == items[..n] + [items[n]];
      sorted := InsertByCreation(sorted, items[n]);
    }
    assert items[..|items|] == items;
  }

  class AgentRunReconciler {
    var runs: map<Key, AgentRun>
    var agents: map<Key, Agent>
    var jobs: map<Key, Job>
    ghost var used: set<Key>
    var now: int

    constructor (s: Cluster)
      ensures State() == s
    {
      runs, agents, jobs, used, now := s.runs, s.agents, s.jobs, s.used, s.now;
    }

    ghost function State(): Cluster
      reads this
    {
      Cluster(runs, agents, jobs, used, now)
    }

    // ----- Client -----

    // Writes the metadata of a fetched run; the status subresource is not touched.
    method UpdateLabel(run: RunObject, ok: bool) returns (err: bool)
      requires run.key in runs
      modifies this`runs
      ensures err == !ok
      ensures runs == if ok then old(runs)[run.key := old(runs)[run.key].(agentLabel := run.agentLabel)] else old(runs)
    {
      if ok {
        runs := runs[run.key := runs[run.key].(agentLabel := run.agentLabel)];
      }
      err := !ok;
    }

    // Writes the status of a fetched run unless it equals the copy `base`.
    method PatchStatus(run: RunObject, base: AgentRun, ok: bool) returns (err: bool)
      requires run.key in runs
      modifies this`runs
      ensures err == (run.Value() != base && !ok)
      ensures runs == if run.Value() != base && ok
                      then old(runs)[run.key := old(runs)[run.key].(status := run.status)] else old(runs)
    {
      if run.Value() == base {
        return false;
      }
      if ok {
        runs := runs[run.key := runs[run.key].(status := run.status)];
      }
      err := !ok;
    }

    // Some enumeration of the runs with the agent label, in no particular order.
    method ListRuns(ns: string, agent: string) returns (items: seq<Item>)
      ensures Lists(State(), items, ns, agent)
    {
      items := [];
      var todo := runs.Keys;
      while todo != {}
        invariant todo <= runs.Keys
        invariant DistinctItems(items)
        invariant forall x :: x in items ==> x.key in runs && x.key !in todo && x.run == runs[x.key]
        invariant forall k :: k in runs && k !in todo ==>
                    (Item(k, runs[k]) in items <==> k.ns == ns && runs[k].agentLabel == Some(agent))
        invariant forall x :: x in items ==> x.key.ns == ns && x.run.agentLabel == Some(agent)
        decreases todo
      {
        var k :| k in todo;
        todo := todo - {k};
        if k.ns == ns && runs[k].agentLabel == Some(agent) {
          items := items + [Item(k, runs[k])];
        }
      }
    }

    // ----- Status edits -----

    method SetRunFailedStatus(run: RunObject, output: Output)
      modifies run`status
      ensures run.status == FailedStatus(old(run.status), output, now)
    {
      run.status := run.status.(phase := Failed);
      run.status := run.status.(completionTime := Some(now));
      run.status := run.status.(output := output);
      run.status := run.status.(conditions := run.status.conditions[Complete := Condition(true, ByFailure)]);
    }

    method SetRunSucceeded(run: RunObject, output: string)
      modifies run`status
      ensures run.status == SucceededStatus(old(run.status), Text(output), now)
    {
      run.status := run.status.(phase := Succeeded);
      run.status := run.status.(completionTime := Some(now));
      run.status := run.status.(output := Text(output));
      run.status := run.status.(conditions := run.status.conditions[Complete := Condition(true, BySuccess)]);
    }

    // ----- Concurrency -----

    method CountActive(items: seq<Item>, self: Key) returns (activeCount: nat)
      requires DistinctItems(items)
      ensures activeCount == |ActiveKeys(items, self)|
    {
      activeCount := 0;
      for i := 0 to |items|
        invariant activeCount == |ActiveKeys(items[..i], self)|
      {
        assert items[..i + 1] == items[..i] + [items[i]];
        assert items[i].key !in ActiveKeys(items[..i], self);
        if items[i].key == self || items[i].run.status.phase != Running {
          assert ActiveKeys(items[..i + 1], self) == ActiveKeys(items[..i], self);
        } else {
          assert ActiveKeys(items[..i + 1], self) == ActiveKeys(items[..i], self) + {items[i].key};
          activeCount := activeCount + 1;
        }
      }
      assert items[..|items|] == items;
    }

    // Fails one Running run, other than the current one, of earliest creation, if
    // there is one.
    method CancelOldestRun(current: RunObject, items: seq<Item>, ok: bool) returns (err: bool, ghost victim: Key)
      requires forall x :: x in items ==> x.key in runs && x.run == runs[x.key]
      modifies this`runs
      ensures ActiveKeys(items, current.key) == {} ==> !err && runs == old(runs)
      ensures ActiveKeys(items, current.key) != {} ==>
                && err == !ok
                && victim in ActiveKeys(items, current.key) && victim in old(runs)
                && (forall k :: k in ActiveKeys(items, current.key) ==>
                      k in old(runs) && old(runs)[victim].created <= old(runs)[k].created)
                && runs == if ok then Cancel(old(State()), victim).runs else old(runs)
    {
      var running: seq<Item> := [];
      for i := 0 to |items|
        invariant forall x :: x in running <==> x in items[..i] && IsActive(x, current.key)
      {
        if items[i].key != current.key && items[i].run.status.phase == Running {
          running := running + [items[i]];
        }
      }
      assert items[..|items|] == items;
      victim := current.key;
      if |running| == 0 {
        assert forall x :: x in items ==> x !in running;
        return false, victim;
      }
      assert running[0] in running && running[0] in items && running[0].key in ActiveKeys(items, current.key);
      var sorted := SortByCreation(running);
      assert forall x :: x in sorted <==> x in running by {
        assert forall x :: x in sorted <==> x in multiset(sorted);
        assert forall x :: x in running <==> x in multiset(running);
      }
      var oldest := new RunObject(sorted[0].key, sorted[0].run);
      assert sorted[0] in sorted;
      victim := oldest.key;
      oldest.status := oldest.status.(phase := Failed);
      oldest.status := oldest.status.(completionTime := Some(now));
      oldest.status := oldest.status.(output := Replaced);
      oldest.status := oldest.status.(conditions := oldest.status.conditions[Complete := Condition(true, ByCancellation)]);
      assert forall x :: x in running ==> sorted[0].run.created <= x.run.created by {
        forall x | x in running
          ensures sorted[0].run.created <= x.run.created
        {
          assert x in sorted;
        }
      }
      assert sorted[0].run.status.phase == Running;
      err := PatchStatus(oldest, sorted[0].run, ok);
    }

    method ReadLimits(agent: Agent) returns (maxRuns: int, policy: Policy)
      ensures maxRuns == Limit(agent) && policy == EffectivePolicy(agent)
    {
      maxRuns := 1;
      policy := QueuePolicy;
      if agent.concurrency.Some? {
        if agent.concurrency.value.maxRuns > 0 {
          maxRuns := agent.concurrency.value.maxRuns;
        }
        if agent.concurrency.value.policy != NoPolicy {
          policy := agent.concurrency.value.policy;
        }
      }
    }

    // Patches the run's edited status and reports what becomes of the reconcile.
    method PatchHeld(run: RunObject, base: AgentRun, ok: bool) returns (err: bool)
      requires run.key in runs && runs[run.key] == base.(agentLabel := run.agentLabel)
      requires run.Value() == runs[run.key].(status := run.status)
      modifies this`runs
      ensures (State(), if err then Error else RequeueAfter)
           == Commit(Outcome(old(State()), Some(run.status), RequeueAfter), run.key,
                     base.agentLabel != run.agentLabel, ok)
    {
      err := PatchStatus(run, base, ok);
    }

    // Decides whether the run may proceed; when it may not, its new status has
    // been written.
    method CheckConcurrency(run: RunObject, agent: Agent, env: Env, base: AgentRun)
      returns (allowed: bool, err: bool, ghost victim: Key)
      requires Prepared(State(), run, base) && agents[AgentKey(run.key, runs[run.key])] == agent
      requires !Waits(State(), run.key)
      modifies this`runs, run`status
      ensures victim in old(runs) && run.key in runs
      ensures allowed ==>
                && !err && env.listRuns && run.status == old(run.status)
                && ((Admission(old(State()), run.key) == Admit && runs == old(runs))
                    || (Admission(old(State()), run.key) == Replace && env.patchVictim
                        && runs == Cancel(old(State()), victim).runs))
      ensures !allowed ==>
                (State(), if err then Error else RequeueAfter)
                == Commit(Schedule(old(State()), run.key, env, victim), run.key,
                          base.agentLabel != run.agentLabel, env.patchStatus)
      ensures env.listRuns && Admission(old(State()), run.key) == Replace ==>
                IsOldest(old(State()), ActiveOthers(old(State()), run.key, run.agentRef), victim)
    {
      victim := run.key;
      if !env.listRuns {
        return false, true, victim;
      }
      var maxRuns, policy := ReadLimits(agent);
      var items := ListRuns(run.key.ns, run.agentRef);
      var activeCount := CountActive(items, run.key);
      ListedActive(State(), items, run.key, run.agentRef);
      if activeCount >= maxRuns {
        match policy {
          case QueuePolicy =>
            if run.status.phase != Queued {
              run.status := run.status.(phase := Queued);
              err := PatchHeld(run, base, env.patchStatus);
              return false, err, victim;
            }
            return false, false, victim;
          case RejectPolicy =>
            SetRunFailedStatus(run, LimitExceeded);
            err := PatchHeld(run, base, env.patchStatus);
            return false, err, victim;
          case ReplacePolicy =>
            err, victim := CancelOldestRun(run, items, env.patchVictim);
            return !err, err, victim;
          case _ =>
        }
      }
      return true, false, victim;
    }

    // ----- Execution -----

    // Task mode: create the Job, or read its status.
    method ReconcileTaskRun(run: RunObject, env: Env) returns (result: Result)
      requires run.key in runs
      modifies this`jobs, run`status
      ensures var x := RunTask(old(State()), run.key, run.git, old(run.status), env);
              run.status == x.status && result == x.result
              && State() == Launched(old(State()), run.key, x.launches)
    {
      if env.jobRead.ReadFails? {
        return Error;
      }
      if !env.jobRead.Fresh? || run.key !in jobs {
        if run.git {
          match env.git {
            case GitRejected(message) =>
              SetRunFailedStatus(run, Text(message));
              return Done;
            case GitFails => return Error;
            case GitReady =>
          }
        }
        if !env.createJob {
          return Error;
        }
        // Create answers AlreadyExists when a stale read missed the Job.
        if run.key !in jobs {
          jobs := jobs[run.key := NEW_JOB];
        }
        run.status := run.status.(phase := Running);
        run.status := run.status.(startTime := Some(now));
        run.status := run.status.(jobName := Some(run.key.name));
        return RequeueAfter;
      }
      var existing := jobs[run.key];
      if existing.succeeded > 0 {
        SetRunSucceeded(run, existing.output);
        return Done;
      }
      if existing.failed > 0 {
        SetRunFailedStatus(run, if existing.error != "" then Text(existing.error) else JobFailed);
        return Done;
      }
      return RequeueAfter;
    }

    // Daemon mode, Running: enforce the timeout, then ask the agent.
    method PollDaemonRunStatus(run: RunObject, agent: Agent, env: Env) returns (result: Result)
      modifies run`status
      ensures var x := PollDaemon(old(run.status), agent, now, env);
              run.status == x.status && result == x.result
    {
      if run.status.startTime.Some? {
        var timeout := DEFAULT_TIMEOUT;
        if agent.timeout.Some? && agent.timeout.value > 0 {
          timeout := agent.timeout.value;
        }
        var elapsed := now - run.status.startTime.value;
        if elapsed > timeout {
          SetRunFailedStatus(run, TimedOut);
          return Done;
        }
      }
      match env.poll {
        case PollUnreachable => return RequeueAfter;
        case PollBusy => return RequeueAfter;
        case PollIdle(output) =>
          SetRunSucceeded(run, output);
          return Done;
      }
    }

    // Daemon mode: send the prompt once, then poll.
    method ReconcileDaemonRun(run: RunObject, agent: Agent, env: Env) returns (result: Result)
      modifies run`status
      ensures var x := RunDaemon(old(run.status), agent, now, env);
              run.status == x.status && result == x.result
    {
      if run.status.phase == Running {
        result := PollDaemonRunStatus(run, agent, env);
        return;
      }
      match env.prompt {
        case PromptUnreachable => return RequeueAfter;
        case PromptRefused(message) =>
          SetRunFailedStatus(run, Text(message));
          return Done;
        case PromptAnswered(output) =>
          if output != "" {
            SetRunSucceeded(run, output);
          } else {
            run.status := run.status.(phase := Running);
            run.status := run.status.(startTime := Some(now));
          }
          return if run.status.phase == Running then RequeueAfter else Done;
      }
    }

    method ExecuteRun(run: RunObject, agent: Agent, env: Env) returns (result: Result)
      requires run.key in runs && run.git == runs[run.key].git
      requires run.status == runs[run.key].status.(mode := Some(agent.mode))
      modifies this`jobs, run`status
      ensures var x := Execute(old(State()), run.key, agent, env);
              run.status == x.status && result == x.result
              && State() == Launched(old(State()), run.key, x.launches)
    {
      if run.status.phase == Unset {
        run.status := run.status.(phase := Pending);
      }
      match agent.mode {
        case Task => result := ReconcileTaskRun(run, env);
        case Daemon => result := ReconcileDaemonRun(run, agent, env);
        case OtherMode =>
          SetRunFailedStatus(run, UnknownMode);
          result := Done;
      }
    }

    // Runs the mode's handler and writes the status it leaves, even on its errors.
    method DispatchRun(run: RunObject, agent: Agent, env: Env, base: AgentRun) returns (result: Result)
      requires run.key in runs && runs[run.key] == base.(agentLabel := run.agentLabel)
      requires run.Value() == runs[run.key].(status := run.status)
      requires run.status == runs[run.key].status.(mode := Some(agent.mode))
      modifies this`runs, this`jobs, run`status
      ensures (State(), result)
           == Commit(Dispatch(old(State()), run.key, agent, env), run.key,
                     base.agentLabel != run.agentLabel, env.patchStatus)
    {
      result := ExecuteRun(run, agent, env);
      var err := PatchStatus(run, base, env.patchStatus);
      if err {
        result := Error;
      }
    }

    // From the resolved agent on: wait for a daemon agent, ask for admission, run.
    method ScheduleRun(run: RunObject, agent: Agent, env: Env, base: AgentRun)
      returns (result: Result, ghost victim: Key)
      requires Prepared(State(), run, base) && agents[AgentKey(run.key, runs[run.key])] == agent
      modifies this`runs, this`jobs, run`status
      ensures victim in old(runs)
      ensures Admission(old(State()), run.key) == Replace && !Waits(old(State()), run.key) && env.listRuns ==>
                IsOldest(old(State()), ActiveOthers(old(State()), run.key, run.agentRef), victim)
      ensures (State(), result)
           == Commit(Schedule(old(State()), run.key, env, victim), run.key,
                     base.agentLabel != run.agentLabel, env.patchStatus)
    {
      victim := run.key;
      if agent.mode == Daemon && run.status.phase != Running {
        if !agent.up {
          if run.status.phase != Pending {
            run.status := run.status.(phase := Pending);
            run.status := run.status.(conditions := run.status.conditions[AgentReady := Condition(false, AgentNotRunning)]);
            var err := PatchHeld(run, base, env.patchStatus);
            return if err then Error else RequeueAfter, victim;
          }
          return RequeueAfter, victim;
        }
      }
      var allowed, err;
      allowed, err, victim := CheckConcurrency(run, agent, env, base);
      if err {
        return Error, victim;
      }
      if !allowed {
        return RequeueAfter, victim;
      }
      result := DispatchRun(run, agent, env, base);
    }

    // Makes the run findable by its agent's label.
    method EnsureLabel(run: RunObject, ok: bool) returns (err: bool)
      requires run.key in runs && run.Value() == runs[run.key]
      modifies this`runs, run`agentLabel
      ensures err == (NeedsLabel(old(State()), run.key) && !ok)
      ensures State() == if err then old(State()) else Relabelled(old(State()), run.key)
      ensures !err ==> run.Value() == State().runs[run.key]
    {
      SameLabel(State(), run.key);
      if run.agentLabel != Some(run.agentRef) {
        run.agentLabel := Some(run.agentRef);
        err := UpdateLabel(run, ok);
        return;
      }
      err := false;
    }

    // From the resolved agent on: make the run findable by its label, then schedule.
    method LabelAndSchedule(run: RunObject, agent: Agent, env: Env) returns (result: Result, ghost victim: Key)
      requires run.key in runs && run.Value() == runs[run.key] && !Terminal(run.status.phase)
      requires env.getRun && env.getAgent
      requires AgentKey(run.key, runs[run.key]) in agents && agents[AgentKey(run.key, runs[run.key])] == agent
      modifies this`runs, this`jobs, run
      ensures LegalVictim(old(State()), run.key, env, victim)
      ensures (State(), result) == Reconciled(old(State()), run.key, env, victim)
    {
      victim := run.key;
      var base := runs[run.key];
      RelabelKeepsAdmission(State(), run.key);
      var err := EnsureLabel(run, env.updateLabel);
      if err {
        return Error, victim;
      }
      run.status := run.status.(mode := Some(agent.mode));
      result, victim := ScheduleRun(run, agent, env, base);
    }

    method Reconcile(key: Key, env: Env) returns (result: Result, ghost victim: Key)
      modifies this`runs, this`jobs
      ensures LegalVictim(old(State()), key, env, victim)
      ensures (State(), result) == Reconciled(old(State()), key, env, victim)
    {
      victim := key;
      if !env.getRun {
        return Error, victim;
      }
      if key !in runs {
        return Done, victim;
      }
      var run := new RunObject(key, runs[key]);
      if run.status.phase == Succeeded || run.status.phase == Failed {
        return Done, victim;
      }
      if !env.getAgent || Key(key.ns, run.agentRef) !in agents {
        var base := runs[key];
        SetRunFailedStatus(run, AgentNotFound);
        var err := PatchStatus(run, base, env.patchStatus);
        return if err then Error else Done, victim;
      }
      result, victim := LabelAndSchedule(run, agents[Key(key.ns, run.agentRef)], env);
    }
  }

  // A fetched run agrees with the store except for the mode it has been given;
  // `base` is the stored run as it was before its label was updated.
  ghost predicate Prepared(s: Cluster, run: RunObject, base: AgentRun)
    reads run
  {
    && run.key in s.runs && AgentKey(run.key, s.runs[run.key]) in s.agents
    && run.Value() == s.runs[run.key].(status := run.status)
    && run.status == s.runs[run.key].status.(mode := Some(s.agents[AgentKey(run.key, s.runs[run.key])].mode))
    && s.runs[run.key] == base.(agentLabel := run.agentLabel)
  }

  // Setting a label that is already right changes nothing.
  lemma SameLabel(s: Cluster, k: Key)
    requires k in s.runs
    ensures !NeedsLabel(s, k) ==> Relabelled(s, k) == s
  {
    assert s.runs[k := s.runs[k]] == s.runs;
  }

  // The listed active runs are the ones the model counts.
  lemma ListedActive(s: Cluster, items: seq<Item>, self: Key, agent: string)
    requires Lists(s, items, self.ns, agent)
    ensures ActiveKeys(items, self) == ActiveOthers(s, self, agent)
  {
    forall k | k in ActiveOthers(s, self, agent)
      ensures k in ActiveKeys(items, self)
    {
      assert Item(k, s.runs[k]) in items;
    }
    forall k | k in ActiveKeys(items, self)
      ensures k in ActiveOthers(s, self, agent)
    {
      var x :| x in items && IsActive(x, self) && x.key == k;
      assert x == Item(k, s.runs[k]);
    }
  }
}
