// The Provider and Integration reconcilers and the Agent readiness gate in their
// imperative form, proved against DependencyModel.
module DependencyController {
  import opened Basics
  import opened DependencyModel

  datatype AgentItem = AgentItem(key: Key, spec: AgentSpec)

  // The Agents of a namespace, each once, in no particular order.
  predicate ListsAgents(w: World, items: seq<AgentItem>, ns: string) {
    && (forall i, j :: 0 <= i < j < |items| ==> items[i].key != items[j].key)
    && (forall x :: x in items ==> x.key in w.agents && x.spec == w.agents[x.key] && x.key.ns == ns)
    && (forall k :: k in w.agents && k.ns == ns ==> AgentItem(k, w.agents[k]) in items)
  }

  function ReferringKeys(items: seq<AgentItem>, d: DepKey): set<Key> {
    set x | x in items && d.key.name in Names(x.spec, d.kind) :: x.key
  }

  lemma ListedReferrers(w: World, items: seq<AgentItem>, d: DepKey)
    requires ListsAgents(w, items, d.key.ns)
    ensures ReferringKeys(items, d) == Referrers(w, d)
  {
    forall k | k in Referrers(w, d)
      ensures k in ReferringKeys(items, d)
    {
      assert AgentItem(k, w.agents[k]) in items;
    }
  }

  class DependencyReconcilers {
    var deps: map<DepKey, Dep>
    var agents: map<Key, AgentSpec>
    var queue: set<DepKey>

    constructor (w: World)
      ensures Now() == w
    {
      deps, agents, queue := w.deps, w.agents, w.queue;
    }

    function Now(): World
      reads this
    {
      World(deps, agents, queue)
    }

    method ListAgents(ns: string) returns (items: seq<AgentItem>)
      ensures ListsAgents(Now(), items, ns)
    {
      items := [];
      var todo := agents.Keys;
      while todo != {}
        invariant todo <= agents.Keys
        invariant forall i, j :: 0 <= i < j < |items| ==> items[i].key != items[j].key
        invariant forall x :: x in items ==>
                    x.key in agents && x.key !in todo && x.spec == agents[x.key] && x.key.ns == ns
        invariant forall k :: k in agents && k !in todo && k.ns == ns ==> AgentItem(k, agents[k]) in items
        decreases todo
      {
        var k :| k in todo;
        todo := todo - {k};
        if k.ns == ns {
          items := items + [AgentItem(k, agents[k])];
        }
      }
    }

    // How many Agents reference d; an Agent listing it twice counts once.
    method CountBoundAgents(d: DepKey) returns (count: nat)
      ensures count == |Referrers(Now(), d)|
    {
      var items := ListAgents(d.key.ns);
      count := 0;
      for i := 0 to |items|
        invariant count == |ReferringKeys(items[..i], d)|
      {
        var names := Names(items[i].spec, d.kind);
        var found := false;
        for j := 0 to |names|
          invariant !found && d.key.name !in names[..j]
        {
          if names[j] == d.key.name {
            found := true;
            break;
          }
          assert names[..j + 1] == names[..j] + [names[j]];
        }
        assert found <==> d.key.name in names by {
          assert names[..|names|] == names;
        }
        CountOne(items, i, d);
        if found {
          count := count + 1;
        }
      }
      assert items[..|items|] == items;
      ListedReferrers(Now(), items, d);
    }

    // Deletion is held up while Agents reference the object.
    method ReconcileDelete(d: DepKey, env: Env) returns (again: bool)
      requires d in deps && deps[d].deleting && env.get
      modifies this`deps
      ensures var e := EffectOf(old(Now()), d, env);
              again == e.again && deps == if e.after.None? then old(deps) - {d} else old(deps)[d := e.after.value]
    {
      var x := deps[d];
      assert deps[d := x] == deps;
      if Protection !in x.finalizers {
        return false;
      }
      if !env.list {
        return true;
      }
      var boundAgents := CountBoundAgents(d);
      if boundAgents > 0 {
        if d.kind == ProviderKind {
          x := x.(boundAgents := boundAgents);
        }
        x := x.(inUse := true);
        if env.patch {
          deps := deps[d := x];
        }
        return true;
      }
      x := x.(finalizers := x.finalizers - {Protection});
      if !env.update {
        return true;
      }
      // The API server drops an object being deleted with its last finalizer.
      if x.finalizers == {} {
        deps := deps - {d};
      } else {
        deps := deps[d := x];
      }
      again := false;
    }

    method ReconcileObject(d: DepKey, env: Env) returns (again: bool)
      requires d in deps
      modifies this`deps
      ensures var e := EffectOf(old(Now()), d, env);
              again == e.again && deps == if e.after.None? then old(deps) - {d} else old(deps)[d := e.after.value]
    {
      var x := deps[d];
      assert deps[d := x] == deps;
      if !env.get {
        return true;
      }
      if x.deleting {
        again := ReconcileDelete(d, env);
        return;
      }
      if Protection !in x.finalizers {
        x := x.(finalizers := x.finalizers + {Protection});
        if env.update {
          deps := deps[d := x];
        }
        return !env.update;
      }
      if d.kind == ProviderKind {
        var boundAgents := 0;
        if env.list {
          boundAgents := CountBoundAgents(d);
        }
        x := x.(boundAgents := boundAgents);
      }
      x := x.(phase := if env.valid then Ready else Failed);
      if x == deps[d] {
        return false;
      }
      if env.patch {
        deps := deps[d := x];
      }
      again := !env.patch;
    }

    // One turn of the worker: take the request, reconcile, and let the outcome and
    // the watch on the object itself put it back.
    method ProcessNext(d: DepKey, env: Env)
      requires d in queue
      modifies this`deps, this`queue
      ensures Now() == Reconciled(old(Now()), d, env)
    {
      queue := queue - {d};
      if d !in deps {
        if !env.get {
          queue := queue + {d};
        }
        return;
      }
      var before := deps[d];
      var again := ReconcileObject(d, env);
      if again || (d in deps && deps[d] != before) {
        queue := queue + {d};
      }
    }

    // The requests a change of an Agent raises: one per distinct Provider name.
    method AgentToProviderRequests(at: Key, a: AgentSpec) returns (requests: seq<DepKey>)
      ensures forall i, j :: 0 <= i < j < |requests| ==> requests[i] != requests[j]
      ensures forall d :: d in requests <==> d in Requests(at, a)
    {
      var seen: set<string> := {};
      requests := [];
      for i := 0 to |a.providerRefs|
        invariant forall n :: n in seen <==> n in a.providerRefs[..i]
        invariant forall d :: d in requests <==> d.kind == ProviderKind && d.key.ns == at.ns && d.key.name in seen
        invariant forall j, k :: 0 <= j < k < |requests| ==> requests[j] != requests[k]
      {
        var name := a.providerRefs[i];
        assert a.providerRefs[..i + 1] == a.providerRefs[..i] + [name];
        if name !in seen {
          seen := seen + {name};
          requests := requests + [DepKey(ProviderKind, Key(at.ns, name))];
        }
      }
      assert a.providerRefs[..|a.providerRefs|] == a.providerRefs;
    }

    // xs holds the stored dependencies of the first n names.
    predicate Fetched(xs: seq<Dep>, ns: string, names: seq<string>, kind: Kind, n: nat)
      requires n <= |names|
      reads this
    {
      |xs| == n
      && forall i :: 0 <= i < n ==>
           DepKey(kind, Key(ns, names[i])) in deps && xs[i] == deps[DepKey(kind, Key(ns, names[i]))]
    }

    // Fetches every named dependency of one kind; None when one is missing.
    method Resolve(ns: string, names: seq<string>, kind: Kind) returns (found: Option<seq<Dep>>)
      ensures found.Some? <==> forall n :: n in names ==> DepKey(kind, Key(ns, n)) in deps
      ensures found.Some? ==> Fetched(found.value, ns, names, kind, |names|)
    {
      var result := [];
      for i := 0 to |names|
        invariant Fetched(result, ns, names, kind, i)
      {
        var d := DepKey(kind, Key(ns, names[i]));
        if d !in deps {
          return None;
        }
        result := result + [deps[d]];
      }
      found := Some(result);
    }

    method AllReady(xs: seq<Dep>) returns (ready: bool)
      ensures ready <==> forall i :: 0 <= i < |xs| ==> xs[i].phase == Ready
    {
      for i := 0 to |xs|
        invariant forall j :: 0 <= j < i ==> xs[j].phase == Ready
      {
        if xs[i].phase != Ready {
          return false;
        }
      }
      ready := true;
    }

    // The gate: Integrations first, then Providers; each must resolve and be Ready.
    method ReadinessGate(at: Key) returns (passes: bool)
      requires at in agents
      ensures passes <==> GatePasses(Now(), at)
    {
      var a := agents[at];
      var integrations := Resolve(at.ns, a.integrations, IntegrationKind);
      if integrations.None? {
        ghost var n :| n in a.integrations && DepKey(IntegrationKind, Key(at.ns, n)) !in deps;
        assert DepKey(IntegrationKind, Key(at.ns, n)) in Dependencies(at, a);
        return false;
      }
      var ready := AllReady(integrations.value);
      if !ready {
        ghost var i :| 0 <= i < |integrations.value| && integrations.value[i].phase != Ready;
        assert DepKey(IntegrationKind, Key(at.ns, a.integrations[i])) in Dependencies(at, a);
        return false;
      }
      var providers := Resolve(at.ns, a.providerRefs, ProviderKind);
      if providers.None? {
        ghost var n :| n in a.providerRefs && DepKey(ProviderKind, Key(at.ns, n)) !in deps;
        assert DepKey(ProviderKind, Key(at.ns, n)) in Dependencies(at, a);
        return false;
      }
      ready := AllReady(providers.value);
      if !ready {
        ghost var i :| 0 <= i < |providers.value| && providers.value[i].phase != Ready;
        assert DepKey(ProviderKind, Key(at.ns, a.providerRefs[i])) in Dependencies(at, a);
        return false;
      }
      forall d | d in Dependencies(at, a)
        ensures d in deps && deps[d].phase == Ready
      {
        var i :| 0 <= i < |Names(a, d.kind)| && Names(a, d.kind)[i] == d.key.name;
        assert d == DepKey(d.kind, Key(at.ns, Names(a, d.kind)[i]));
      }
      passes := true;
    }
  }

  lemma CountOne(items: seq<AgentItem>, i: nat, d: DepKey)
    requires i < |items| && forall j, k :: 0 <= j < k < |items| ==> items[j].key != items[k].key
    ensures |ReferringKeys(items[..i + 1], d)|
         == |ReferringKeys(items[..i], d)| + if d.key.name in Names(items[i].spec, d.kind) then 1 else 0
  {
    assert items[..i + 1] == items[..i] + [items[i]];
    assert items[i].key !in ReferringKeys(items[..i], d);
    if d.key.name in Names(items[i].spec, d.kind) {
      assert ReferringKeys(items[..i + 1], d) == ReferringKeys(items[..i], d) + {items[i].key};
    } else {
      assert ReferringKeys(items[..i + 1], d) == ReferringKeys(items[..i], d);
    }
  }
}
