// Providers and Integrations, the dependencies an Agent names: the finalizer
// protocol that keeps them while an Agent references them, and the bound-agents
// counter of Providers that watch events keep in step.
//
// One Reconcile, with its count and its write, is one step.
module DependencyModel {
  import opened Basics

  datatype Kind = ProviderKind | IntegrationKind

  // A dependency is named by kind, namespace and name.
  datatype DepKey = DepKey(kind: Kind, key: Key)

  datatype Finalizer = Protection | Foreign(name: string)

  datatype DepPhase = NoPhase | Ready | Failed

  datatype Dep = Dep(
    finalizers: set<Finalizer>,
    deleting: bool,
    phase: DepPhase,
    boundAgents: nat,
    inUse: bool)

  // The names an Agent lists in spec.providerRefs and spec.integrations.
  datatype AgentSpec = AgentSpec(providerRefs: seq<string>, integrations: seq<string>)

  // `queue` holds the dependencies whose controller still has a request for them.
  datatype World = World(deps: map<DepKey, Dep>, agents: map<Key, AgentSpec>, queue: set<DepKey>)

  // Which API calls succeed, and whether the spec (and Secret) validates.
  datatype Env = Env(get: bool, list: bool, update: bool, patch: bool, valid: bool)

  function Names(a: AgentSpec, kind: Kind): seq<string> {
    match kind
    case ProviderKind => a.providerRefs
    case IntegrationKind => a.integrations
  }

  predicate Refers(at: Key, a: AgentSpec, d: DepKey) {
    at.ns == d.key.ns && d.key.name in Names(a, d.kind)
  }

  function Referrers(w: World, d: DepKey): set<Key> {
    set k | k in w.agents && Refers(k, w.agents[k], d)
  }

  // ----- One Reconcile -----

  // The stored object after a Reconcile (None: it has left the store), and whether
  // the reconcile failed or asks to be repeated.
  datatype Effect = Effect(after: Option<Dep>, again: bool)

  function Released(x: Dep): Option<Dep> {
    var y := x.(finalizers := x.finalizers - {Protection});
    if y.deleting && y.finalizers == {} then None else Some(y)
  }

  function Deleting(x: Dep, kind: Kind, bound: nat, env: Env): Effect {
    if Protection !in x.finalizers then Effect(Some(x), false)
    else if !env.list then Effect(Some(x), true)
    else if bound > 0 then
      var y := (if kind == ProviderKind then x.(boundAgents := bound) else x).(inUse := true);
      Effect(Some(if env.patch then y else x), true)
    else if env.update then Effect(Released(x), false)
    else Effect(Some(x), true)
  }

  // A failed List is not fatal for a Provider: it counts as zero agents.
  function Counted(bound: nat, env: Env): nat { if env.list then bound else 0 }

  function WithStatus(x: Dep, kind: Kind, bound: nat, env: Env): Dep {
    var y := x.(phase := if env.valid then Ready else Failed);
    if kind == ProviderKind then y.(boundAgents := Counted(bound, env)) else y
  }

  function Living(x: Dep, kind: Kind, bound: nat, env: Env): Effect {
    if Protection !in x.finalizers then
      if env.update then Effect(Some(x.(finalizers := x.finalizers + {Protection})), false) else Effect(Some(x), true)
    else
      var y := WithStatus(x, kind, bound, env);
      if y == x then Effect(Some(x), false)
      else if env.patch then Effect(Some(y), false)
      else Effect(Some(x), true)
  }

  function EffectOf(w: World, d: DepKey, env: Env): Effect
    requires d in w.deps
  {
    var x := w.deps[d];
    var bound := |Referrers(w, d)|;
    if !env.get then Effect(Some(x), true)
    else if x.deleting then Deleting(x, d.kind, bound, env)
    else Living(x, d.kind, bound, env)
  }

  // The request is taken from the queue; it returns on an error, on a timed retry,
  // and through the watch event of any change to the object.
  function Reconciled(w: World, d: DepKey, env: Env): World {
    if d !in w.deps then w.(queue := if env.get then w.queue - {d} else w.queue + {d})
    else
      var e := EffectOf(w, d, env);
      match e.after
      case None => w.(deps := w.deps - {d}, queue := w.queue - {d})
      case Some(y) =>
        w.(deps := w.deps[d := y],
           queue := if e.again || y != w.deps[d] then w.queue + {d} else w.queue - {d})
  }

  // ----- Agents and their watch -----

  // The Providers a change of this Agent concerns.
  function Requests(at: Key, a: AgentSpec): set<DepKey> {
    set n | n in a.providerRefs :: DepKey(ProviderKind, Key(at.ns, n))
  }

  function AgentSet(w: World, at: Key, a: AgentSpec): World {
    w.(agents := w.agents[at := a],
       queue := w.queue + Requests(at, a) + (if at in w.agents then Requests(at, w.agents[at]) else {}))
  }

  function AgentGone(w: World, at: Key): World
    requires at in w.agents
  {
    w.(agents := w.agents - {at}, queue := w.queue + Requests(at, w.agents[at]))
  }

  // ----- Users and other controllers -----

  function DeletionAsked(w: World, d: DepKey): World
    requires d in w.deps
  {
    if w.deps[d].finalizers == {} then w.(deps := w.deps - {d}, queue := w.queue + {d})
    else w.(deps := w.deps[d := w.deps[d].(deleting := true)], queue := w.queue + {d})
  }

  // Somebody else's finalizer is taken off; the API server removes an object that
  // is being deleted and has none left.
  function ForeignRemoved(w: World, d: DepKey, name: string): World
    requires d in w.deps
  {
    var y := w.deps[d].(finalizers := w.deps[d].finalizers - {Foreign(name)});
    if y.deleting && y.finalizers == {} then w.(deps := w.deps - {d}, queue := w.queue + {d})
    else w.(deps := w.deps[d := y], queue := w.queue + {d})
  }

  datatype Event =
    | Reconcile(d: DepKey, env: Env)
    | SetAgent(at: Key, agent: AgentSpec)
    | DeleteAgent(at: Key)
    | CreateDep(d: DepKey, foreign: set<string>)
    | TouchDep(d: DepKey)
    | AskDeletion(d: DepKey)
    | AddForeign(d: DepKey, name: string)
    | RemoveForeign(d: DepKey, name: string)

  function NewDep(foreign: set<string>): Dep {
    Dep(set n | n in foreign :: Foreign(n), false, NoPhase, 0, false)
  }

  ghost predicate Next(w: World, e: Event, w': World) {
    match e
    case Reconcile(d, env) => d in w.queue && w' == Reconciled(w, d, env)
    case SetAgent(at, a) => w' == AgentSet(w, at, a)
    case DeleteAgent(at) => at in w.agents && w' == AgentGone(w, at)
    case CreateDep(d, foreign) =>
      d !in w.deps && w' == w.(deps := w.deps[d := NewDep(foreign)], queue := w.queue + {d})
    case TouchDep(d) => d in w.deps && w' == w.(queue := w.queue + {d})
    case AskDeletion(d) => d in w.deps && w' == DeletionAsked(w, d)
    case AddForeign(d, name) =>
      && d in w.deps && !w.deps[d].deleting
      && w' == w.(deps := w.deps[d := w.deps[d].(finalizers := w.deps[d].finalizers + {Foreign(name)})],
                  queue := w.queue + {d})
    case RemoveForeign(d, name) => d in w.deps && w' == ForeignRemoved(w, d, name)
  }

  const EMPTY := World(map[], map[], {})

  datatype Trace = Trace(states: seq<World>, events: seq<Event>)

  // Marks the steps a proof looks at.
  predicate Index(i: int) { 0 <= i }

  // Each event leads from one state to the next.
  ghost predicate Steps(t: Trace) {
    && |t.states| == |t.events| + 1
    && forall i {:trigger Index(i)} ::
         Index(i) && i < |t.events| ==> Next(t.states[i], t.events[i], t.states[i + 1])
  }

  // An execution from the empty store.
  ghost predicate Valid(t: Trace) { Steps(t) && t.states[0] == EMPTY }

  lemma StepOf(t: Trace, i: nat)
    requires Steps(t) && i < |t.events|
    ensures Next(t.states[i], t.events[i], t.states[i + 1])
  {
    assert Index(i);
  }

  // ----- The readiness gate of the Agent controller -----

  function Dependencies(at: Key, a: AgentSpec): set<DepKey> {
    (set n | n in a.providerRefs :: DepKey(ProviderKind, Key(at.ns, n)))
    + (set n | n in a.integrations :: DepKey(IntegrationKind, Key(at.ns, n)))
  }

  // Every dependency resolves and is Ready: the Agent's workload is built.
  predicate GatePasses(w: World, at: Key) {
    at in w.agents
    && forall d :: d in Dependencies(at, w.agents[at]) ==> d in w.deps && w.deps[d].phase == Ready
  }
}
