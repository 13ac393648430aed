// The AgentRun controller on values: the stored objects, what one Reconcile does
// to the store, what the environment may do between two reconciles, and runs.
//
// One Reconcile is one atomic step (the controller has a single worker) that
// still fails at any of its API calls; `Env` says which calls succeed and what
// the outside world answers.
module AgentRunModel {
  import opened Basics

  datatype Phase = Unset | Pending | Queued | Running | Succeeded | Failed

  datatype Mode = Task | Daemon | OtherMode

  // Conditions are keyed by type: setting one replaces the entry of its type.
  datatype ConditionType = Complete | AgentReady
  datatype Reason = BySuccess | ByFailure | ByCancellation | AgentNotRunning
  datatype Condition = Condition(isTrue: bool, reason: Reason)

  // status.output: text from the agent, or one of the controller's own messages.
  datatype Output =
    | NoOutput
    | Text(text: string)
    | AgentNotFound
    | LimitExceeded
    | Replaced
    | TimedOut
    | JobFailed
    | UnknownMode

  datatype RunStatus = RunStatus(
    phase: Phase,
    mode: Option<Mode>,
    startTime: Option<int>,
    completionTime: Option<int>,
    jobName: Option<string>,
    output: Output,
    conditions: map<ConditionType, Condition>)

  // `agentLabel` is the value of the agent label; `git` says whether spec.git is set.
  datatype AgentRun = AgentRun(
    agentRef: string,
    agentLabel: Option<string>,
    created: int,
    git: bool,
    status: RunStatus)

  // spec.concurrency.policy: one of the values the schema admits, empty, or a
  // string the schema would refuse.
  datatype Policy = NoPolicy | QueuePolicy | RejectPolicy | ReplacePolicy | OtherPolicy

  datatype Concurrency = Concurrency(maxRuns: int, policy: Policy)

  // `up` is "status.phase is Running"; `timeout` is the parsed spec.timeout, or
  // None when it is empty or malformed.
  datatype Agent = Agent(mode: Mode, up: bool, concurrency: Option<Concurrency>, timeout: Option<int>)

  // `output` and `error` are what the pod's termination message yields.
  datatype Job = Job(succeeded: nat, failed: nat, output: string, error: string)

  // `used` collects every run name ever created: a name re-used after a deletion
  // would be a different run.
  datatype Cluster = Cluster(
    runs: map<Key, AgentRun>,
    agents: map<Key, Agent>,
    jobs: map<Key, Job>,
    used: set<Key>,
    now: int)

  datatype JobRead = Fresh | Stale | ReadFails
  datatype GitOutcome = GitReady | GitRejected(message: string) | GitFails
  datatype PromptOutcome = PromptUnreachable | PromptRefused(message: string) | PromptAnswered(output: string)
  datatype PollOutcome = PollUnreachable | PollBusy | PollIdle(output: string)

  // Which API calls of one Reconcile succeed, and what the agent answers. A stale
  // Job read misses a Job that is in the store.
  datatype Env = Env(
    getRun: bool, getAgent: bool, updateLabel: bool, listRuns: bool,
    patchVictim: bool, patchStatus: bool,
    jobRead: JobRead, createJob: bool, git: GitOutcome,
    prompt: PromptOutcome, poll: PollOutcome)

  // Every API call of the Reconcile succeeds and reads what is stored.
  predicate CallsWork(env: Env) {
    && env.getRun && env.getAgent && env.updateLabel && env.listRuns && env.patchVictim && env.patchStatus
    && env.jobRead.Fresh? && env.createJob && !env.git.GitFails?
  }

  // What Reconcile asks of the work queue.
  datatype Result = Done | RequeueAfter | Error

  const DEFAULT_TIMEOUT := 1800

  const EMPTY_STATUS := RunStatus(Unset, None, None, None, None, NoOutput, map[])

  predicate Terminal(p: Phase) { p == Succeeded || p == Failed }

  // ----- Status edits -----

  function FailedStatus(st: RunStatus, output: Output, now: int): RunStatus {
    st.(phase := Failed, completionTime := Some(now), output := output,
        conditions := st.conditions[Complete := Condition(true, ByFailure)])
  }

  function SucceededStatus(st: RunStatus, output: Output, now: int): RunStatus {
    st.(phase := Succeeded, completionTime := Some(now), output := output,
        conditions := st.conditions[Complete := Condition(true, BySuccess)])
  }

  function CancelledStatus(st: RunStatus, now: int): RunStatus {
    st.(phase := Failed, completionTime := Some(now), output := Replaced,
        conditions := st.conditions[Complete := Condition(true, ByCancellation)])
  }

  function StartedStatus(st: RunStatus, now: int): RunStatus {
    st.(phase := Running, startTime := Some(now))
  }

  function WaitingStatus(st: RunStatus): RunStatus {
    st.(phase := Pending, conditions := st.conditions[AgentReady := Condition(false, AgentNotRunning)])
  }

  // ----- Admission -----

  function Limit(a: Agent): (n: int)
    ensures n >= 1
  {
    if a.concurrency.Some? && a.concurrency.value.maxRuns > 0 then a.concurrency.value.maxRuns else 1
  }

  function EffectivePolicy(a: Agent): Policy {
    if a.concurrency.Some? && a.concurrency.value.policy != NoPolicy then a.concurrency.value.policy
    else QueuePolicy
  }

  // The policies the CRD schema admits.
  predicate KnownPolicy(a: Agent) { !EffectivePolicy(a).OtherPolicy? }

  datatype Decision = Admit | Enqueue | Reject | Replace

  function Decide(active: int, a: Agent): Decision {
    if active < Limit(a) then Admit
    else match EffectivePolicy(a)
      case QueuePolicy => Enqueue
      case RejectPolicy => Reject
      case ReplacePolicy => Replace
      case _ => Admit
  }

  function AgentKey(k: Key, run: AgentRun): Key { Key(k.ns, run.agentRef) }

  // The other runs that carry the agent's label and are Running: what
  // checkConcurrency counts and cancelOldestRun chooses from.
  function ActiveOthers(s: Cluster, self: Key, agent: string): set<Key> {
    set k | k in s.runs && k.ns == self.ns && k != self
            && s.runs[k].agentLabel == Some(agent) && s.runs[k].status.phase == Running
  }

  predicate IsOldest(s: Cluster, among: set<Key>, v: Key)
    requires among <= s.runs.Keys
  {
    v in among && forall w :: w in among ==> s.runs[v].created <= s.runs[w].created
  }

  // ----- Execution -----

  function EffectiveTimeout(a: Agent): (t: int)
    ensures t > 0
  {
    if a.timeout.Some? && a.timeout.value > 0 then a.timeout.value else DEFAULT_TIMEOUT
  }

  datatype Execution = Execution(status: RunStatus, launches: bool, result: Result)

  predicate SeesJob(s: Cluster, k: Key, env: Env) { env.jobRead.Fresh? && k in s.jobs }

  function JobMessage(j: Job): Output { if j.error != "" then Text(j.error) else JobFailed }

  function RunTask(s: Cluster, k: Key, git: bool, st: RunStatus, env: Env): Execution {
    if env.jobRead.ReadFails? then Execution(st, false, Error)
    else if SeesJob(s, k, env) then
      var j := s.jobs[k];
      if j.succeeded > 0 then Execution(SucceededStatus(st, Text(j.output), s.now), false, Done)
      else if j.failed > 0 then Execution(FailedStatus(st, JobMessage(j), s.now), false, Done)
      else Execution(st, false, RequeueAfter)
    else if git && env.git.GitRejected? then Execution(FailedStatus(st, Text(env.git.message), s.now), false, Done)
    else if git && env.git.GitFails? then Execution(st, false, Error)
    else if !env.createJob then Execution(st, false, Error)
    else Execution(StartedStatus(st, s.now).(jobName := Some(k.name)), true, RequeueAfter)
  }

  function PollDaemon(st: RunStatus, a: Agent, now: int, env: Env): Execution {
    if st.startTime.Some? && now - st.startTime.value > EffectiveTimeout(a) then
      Execution(FailedStatus(st, TimedOut, now), false, Done)
    else match env.poll
      case PollIdle(output) => Execution(SucceededStatus(st, Text(output), now), false, Done)
      case _ => Execution(st, false, RequeueAfter)
  }

  function RunDaemon(st: RunStatus, a: Agent, now: int, env: Env): Execution {
    if st.phase == Running then PollDaemon(st, a, now, env)
    else match env.prompt
      case PromptUnreachable => Execution(st, false, RequeueAfter)
      case PromptRefused(message) => Execution(FailedStatus(st, Text(message), now), false, Done)
      case PromptAnswered(output) =>
        if output != "" then Execution(SucceededStatus(st, Text(output), now), false, Done)
        else Execution(StartedStatus(st, now), false, RequeueAfter)
  }

  function Execute(s: Cluster, k: Key, a: Agent, env: Env): Execution
    requires k in s.runs
  {
    var run := s.runs[k];
    var st := run.status.(mode := Some(a.mode),
                          phase := if run.status.phase == Unset then Pending else run.status.phase);
    match a.mode
    case Task => RunTask(s, k, run.git, st, env)
    case Daemon => RunDaemon(st, a, s.now, env)
    case OtherMode => Execution(FailedStatus(st, UnknownMode, s.now), false, Done)
  }

  // ----- One Reconcile -----

  function WithStatus(s: Cluster, k: Key, st: RunStatus): Cluster
    requires k in s.runs
  {
    s.(runs := s.runs[k := s.runs[k].(status := st)])
  }

  // Where a Reconcile stands before its one write of the run's own status: the
  // store so far, the status to patch if any, and what to ask of the work queue.
  datatype Outcome = Outcome(store: Cluster, write: Option<RunStatus>, result: Result)

  // patchStatus: no API call, hence no failure, when nothing differs from the
  // copy taken before the label update.
  function Commit(o: Outcome, k: Key, relabelled: bool, ok: bool): (Cluster, Result)
    requires o.write.Some? ==> k in o.store.runs
  {
    if o.write.None? || (o.write.value == o.store.runs[k].status && !relabelled) then (o.store, o.result)
    else if ok then (WithStatus(o.store, k, o.write.value), o.result)
    else (o.store, Error)
  }

  const NEW_JOB := Job(0, 0, "(no output captured)", "")

  function Launched(s: Cluster, k: Key, launches: bool): Cluster {
    if launches && k !in s.jobs then s.(jobs := s.jobs[k := NEW_JOB]) else s
  }

  function Dispatch(s: Cluster, k: Key, a: Agent, env: Env): Outcome
    requires k in s.runs
  {
    var x := Execute(s, k, a, env);
    Outcome(Launched(s, k, x.launches), Some(x.status), x.result)
  }

  function Admission(s: Cluster, k: Key): Decision
    requires k in s.runs && AgentKey(k, s.runs[k]) in s.agents
  {
    Decide(|ActiveOthers(s, k, s.runs[k].agentRef)|, s.agents[AgentKey(k, s.runs[k])])
  }

  // A daemon run that has not started waits for its agent to be up.
  predicate Waits(s: Cluster, k: Key)
    requires k in s.runs && AgentKey(k, s.runs[k]) in s.agents
  {
    var a := s.agents[AgentKey(k, s.runs[k])];
    a.mode == Daemon && s.runs[k].status.phase != Running && !a.up
  }

  function Cancel(s: Cluster, victim: Key): Cluster
    requires victim in s.runs
  {
    WithStatus(s, victim, CancelledStatus(s.runs[victim].status, s.now))
  }

  function Schedule(s: Cluster, k: Key, env: Env, victim: Key): Outcome
    requires k in s.runs && AgentKey(k, s.runs[k]) in s.agents && victim in s.runs
  {
    var a := s.agents[AgentKey(k, s.runs[k])];
    var st := s.runs[k].status.(mode := Some(a.mode));
    if Waits(s, k) then
      Outcome(s, if st.phase == Pending then None else Some(WaitingStatus(st)), RequeueAfter)
    else if !env.listRuns then Outcome(s, None, Error)
    else match Admission(s, k)
      case Enqueue => Outcome(s, if st.phase == Queued then None else Some(st.(phase := Queued)), RequeueAfter)
      case Reject => Outcome(s, Some(FailedStatus(st, LimitExceeded, s.now)), RequeueAfter)
      case Replace => if env.patchVictim then Dispatch(Cancel(s, victim), k, a, env) else Outcome(s, None, Error)
      case Admit => Dispatch(s, k, a, env)
  }

  function NeedsLabel(s: Cluster, k: Key): bool
    requires k in s.runs
  {
    s.runs[k].agentLabel != Some(s.runs[k].agentRef)
  }

  function Relabelled(s: Cluster, k: Key): (r: Cluster)
    requires k in s.runs
  {
    s.(runs := s.runs[k := s.runs[k].(agentLabel := Some(s.runs[k].agentRef))])
  }

  // Reconcile(k) gets as far as the scheduling decision.
  predicate Reaches(s: Cluster, k: Key, env: Env) {
    && env.getRun && k in s.runs && !Terminal(s.runs[k].status.phase)
    && env.getAgent && AgentKey(k, s.runs[k]) in s.agents
    && (NeedsLabel(s, k) ==> env.updateLabel)
  }

  function Intended(s: Cluster, k: Key, env: Env, victim: Key): Outcome
    requires LegalVictim(s, k, env, victim)
  {
    if !env.getRun then Outcome(s, None, Error)
    else if k !in s.runs || Terminal(s.runs[k].status.phase) then Outcome(s, None, Done)
    else if !env.getAgent || AgentKey(k, s.runs[k]) !in s.agents then
      Outcome(s, Some(FailedStatus(s.runs[k].status, AgentNotFound, s.now)), Done)
    else if !Reaches(s, k, env) then Outcome(s, None, Error)
    else Schedule(Relabelled(s, k), k, env, victim)
  }

  function Reconciled(s: Cluster, k: Key, env: Env, victim: Key): (Cluster, Result)
    requires LegalVictim(s, k, env, victim)
  {
    var o := Intended(s, k, env, victim);
    if k in o.store.runs then Commit(o, k, Reaches(s, k, env) && NeedsLabel(s, k), env.patchStatus)
    else (o.store, o.result)
  }

  // The victim is some run with the earliest creation time among those counted:
  // the source sorts with an unstable sort, so ties may be broken either way. It
  // matters only when the decision is to replace.
  predicate LegalVictim(s: Cluster, k: Key, env: Env, victim: Key) {
    Reaches(s, k, env) ==>
      victim in s.runs
      && (!Waits(s, k) && env.listRuns && Admission(s, k) == Replace ==>
            IsOldest(s, ActiveOthers(s, k, s.runs[k].agentRef), victim))
  }

  lemma RelabelKeepsAdmission(s: Cluster, k: Key)
    requires k in s.runs && AgentKey(k, s.runs[k]) in s.agents
    ensures ActiveOthers(Relabelled(s, k), k, s.runs[k].agentRef) == ActiveOthers(s, k, s.runs[k].agentRef)
    ensures Admission(Relabelled(s, k), k) == Admission(s, k)
  {
  }

  // ----- The environment -----

  datatype Event =
    | Reconcile(key: Key, env: Env, victim: Key)
    | CreateRun(key: Key, run: AgentRun)
    | DeleteRun(key: Key)
    | SetAgent(key: Key, agent: Agent)
    | DeleteAgent(key: Key)
    | UpdateJob(key: Key, job: Job)
    | RemoveJob(key: Key)
    | Tick(time: int)

  ghost predicate Next(s: Cluster, e: Event, s': Cluster) {
    match e
    case Reconcile(k, env, victim) => LegalVictim(s, k, env, victim) && s' == Reconciled(s, k, env, victim).0
    case CreateRun(k, run) =>
      k !in s.used && k !in s.runs && run.status == EMPTY_STATUS && run.created == s.now
      && s' == s.(runs := s.runs[k := run], used := s.used + {k})
    case DeleteRun(k) => s' == s.(runs := s.runs - {k})
    case SetAgent(k, a) => KnownPolicy(a) && s' == s.(agents := s.agents[k := a])
    case DeleteAgent(k) => s' == s.(agents := s.agents - {k})
    case UpdateJob(k, j) => k in s.jobs && s' == s.(jobs := s.jobs[k := j])
    case RemoveJob(k) => s' == s.(jobs := s.jobs - {k})
    case Tick(t) => s.now <= t && s' == s.(now := t)
  }

  ghost predicate Init(s: Cluster) {
    s.runs == map[] && s.jobs == map[] && forall a :: a in s.agents ==> KnownPolicy(s.agents[a])
  }

  // A finite run of the system: states[i] --events[i]--> states[i+1].
  datatype Trace = Trace(states: seq<Cluster>, events: seq<Event>)

  // Marks the steps a proof looks at: the steps of a valid trace are unfolded only
  // where a proof names them through StepOf.
  predicate Index(i: int) { 0 <= i }

  // Each event leads from one state to the next.
  ghost predicate Steps(t: Trace) {
    && |t.states| == |t.events| + 1
    && forall i {:trigger Index(i)} ::
         Index(i) && i < |t.events| ==> Next(t.states[i], t.events[i], t.states[i + 1])
  }

  // An execution of the system from its start.
  ghost predicate Valid(t: Trace) { Steps(t) && Init(t.states[0]) }

  lemma StepOf(t: Trace, i: nat)
    requires Steps(t) && i < |t.events|
    ensures Next(t.states[i], t.events[i], t.states[i + 1])
  {
    assert Index(i);
  }
}
