// Deletion protection and counter coherence, over whole executions.
module DependencySafety {
  import opened Basics
  import opened DependencyModel

  // ----- Counter coherence -----

  // The counter is right, or the Provider is waiting in the work queue.
  predicate Coherent(w: World, d: DepKey)
    requires d in w.deps
  {
    d in w.queue || (Protection in w.deps[d].finalizers && w.deps[d].boundAgents == |Referrers(w, d)|)
  }

  ghost predicate CountersCoherent(w: World) {
    forall d :: d in w.deps && d.kind == ProviderKind && !w.deps[d].deleting ==> Coherent(w, d)
  }

  // What one Reconcile of a live Provider achieves. With List failing the counter
  // is written as zero, and only if that write changes the object does the watch
  // bring the Provider back: otherwise the wrong zero stays.
  lemma ReconcileCoherentIff(w: World, d: DepKey, env: Env)
    requires d in w.deps && d.kind == ProviderKind && !w.deps[d].deleting && d in w.queue
    ensures d in Reconciled(w, d, env).deps
    ensures Coherent(Reconciled(w, d, env), d)
            <==> !(env.get && !env.list && Protection in w.deps[d].finalizers && Referrers(w, d) != {}
                   && w.deps[d].boundAgents == 0 && w.deps[d].phase == (if env.valid then Ready else Failed))
  {
    assert Referrers(Reconciled(w, d, env), d) == Referrers(w, d);
  }

  // Changing one Agent changes a Provider's referrers only if the watch enqueues it.
  lemma AgentSetEnqueues(w: World, at: Key, a: AgentSpec, d: DepKey)
    requires d.kind == ProviderKind && d !in AgentSet(w, at, a).queue
    ensures Referrers(AgentSet(w, at, a), d) == Referrers(w, d)
  {
    if at.ns == d.key.ns {
      assert d == DepKey(ProviderKind, Key(at.ns, d.key.name));
      assert d !in Requests(at, a);
      assert at in w.agents ==> d !in Requests(at, w.agents[at]);
    }
  }

  // The watch enqueues the Providers the Agent names or named, and no others.
  lemma AgentSetEnqueuesOnly(w: World, at: Key, a: AgentSpec, d: DepKey)
    ensures d in AgentSet(w, at, a).queue
            <==> || d in w.queue
                 || (d.kind == ProviderKind && d.key.ns == at.ns
                     && (d.key.name in a.providerRefs || (at in w.agents && d.key.name in w.agents[at].providerRefs)))
    ensures at in w.agents ==>
              (d in AgentGone(w, at).queue
               <==> d in w.queue || (d.kind == ProviderKind && d.key.ns == at.ns && d.key.name in w.agents[at].providerRefs))
  {
    if d.kind == ProviderKind && d.key.ns == at.ns {
      assert d == DepKey(ProviderKind, Key(at.ns, d.key.name));
    }
  }

  lemma AgentGoneEnqueues(w: World, at: Key, d: DepKey)
    requires at in w.agents && d.kind == ProviderKind && d !in AgentGone(w, at).queue
    ensures Referrers(AgentGone(w, at), d) == Referrers(w, d)
  {
    if at.ns == d.key.ns {
      assert d == DepKey(ProviderKind, Key(at.ns, d.key.name));
      assert d !in Requests(at, w.agents[at]);
    }
  }

  // Reconciles of Providers in this step can list Agents.
  predicate CanList(e: Event) { e.Reconcile? && e.d.kind == ProviderKind ==> e.env.list }

  lemma StepKeepsCoherence(w: World, e: Event, w': World)
    requires CountersCoherent(w) && Next(w, e, w') && CanList(e)
    ensures CountersCoherent(w')
  {
    forall d | d in w'.deps && d.kind == ProviderKind && !w'.deps[d].deleting
      ensures Coherent(w', d)
    {
      match e
      case SetAgent(at, a) =>
        if d !in w'.queue { AgentSetEnqueues(w, at, a, d); }
      case DeleteAgent(at) =>
        if d !in w'.queue { AgentGoneEnqueues(w, at, d); }
      case Reconcile(r, env) =>
        assert Referrers(w', d) == Referrers(w, d);
        if r == d { ReconcileCoherentIff(w, d, env); }
      case _ =>
        assert Referrers(w', d) == Referrers(w, d);
    }
  }

  lemma {:induction false} CountersAgree(t: Trace, i: nat)
    requires Valid(t) && i < |t.states|
    requires forall j :: 0 <= j < i && j < |t.events| ==> CanList(t.events[j])
    ensures CountersCoherent(t.states[i])
  {
    if i > 0 {
      CountersAgree(t, i - 1);
      StepOf(t, i - 1);
      StepKeepsCoherence(t.states[i - 1], t.events[i - 1], t.states[i]);
    }
  }

  // A working Reconcile of a live dependency of either kind first protects it and
  // then, once it is protected, writes its phase by its validity, and a Provider's
  // counter; nothing else changes, and the work is over when nothing has changed.
  lemma LiveReconcile(w: World, d: DepKey, env: Env)
    requires d in w.deps && !w.deps[d].deleting && env.get && env.list && env.update && env.patch
    ensures var w' := Reconciled(w, d, env);
            && w'.agents == w.agents && w'.deps.Keys == w.deps.Keys
            && (forall e :: e in w.deps && e != d ==> w'.deps[e] == w.deps[e])
            && (forall e :: e != d ==> (e in w'.queue <==> e in w.queue))
            && (d in w'.queue <==> w'.deps[d] != w.deps[d])
            && (Protection !in w.deps[d].finalizers ==>
                  w'.deps[d] == w.deps[d].(finalizers := w.deps[d].finalizers + {Protection}))
            && (Protection in w.deps[d].finalizers ==>
                  && (w'.deps[d].phase == Ready <==> env.valid) && (w'.deps[d].phase == Failed <==> !env.valid)
                  && (d.kind == ProviderKind ==> w'.deps[d].boundAgents == |Referrers(w, d)|)
                  && (d.kind == IntegrationKind ==> w'.deps[d].boundAgents == w.deps[d].boundAgents)
                  && w'.deps[d].finalizers == w.deps[d].finalizers && !w'.deps[d].deleting
                  && w'.deps[d].inUse == w.deps[d].inUse)
  {
  }

  // A step newly makes a dependency Ready only as a Reconcile of it that finds it
  // valid, and newly Failed only as one that finds it invalid.
  lemma PhaseOnlyByValidity(w: World, e: Event, w': World, d: DepKey)
    requires Next(w, e, w') && d in w.deps && d in w'.deps && w'.deps[d].phase != w.deps[d].phase
    ensures e.Reconcile? && e.d == d && !w.deps[d].deleting && Protection in w.deps[d].finalizers
    ensures w'.deps[d].phase == if e.env.valid then Ready else Failed
  {
  }

  // A Reconcile in which a call it needs fails changes nothing and is repeated; a
  // failing List is such a call only in a deletion.
  lemma FailedCallIsRepeated(w: World, d: DepKey, env: Env)
    requires !env.get || d in w.deps
    requires !env.get ||
             var x := w.deps[d];
             || (x.deleting && Protection in x.finalizers
                 && (!env.list || (if Referrers(w, d) != {} then !env.patch else !env.update)))
             || (!x.deleting && Protection !in x.finalizers && !env.update)
             || (!x.deleting && Protection in x.finalizers && env.list && !env.patch
                 && (x.phase != (if env.valid then Ready else Failed)
                     || (d.kind == ProviderKind && x.boundAgents != |Referrers(w, d)|)))
    ensures Reconciled(w, d, env) == w.(queue := w.queue + {d})
  {
    assert d in w.deps ==> w.deps[d := w.deps[d]] == w.deps;
  }

  // What has left the store, or waits there for others to release it, is let be.
  lemma NothingToDo(w: World, d: DepKey, env: Env)
    requires env.get && (d in w.deps ==> w.deps[d].deleting && Protection !in w.deps[d].finalizers)
    ensures Reconciled(w, d, env) == w.(queue := w.queue - {d})
  {
    assert d in w.deps ==> w.deps[d := w.deps[d]] == w.deps;
  }

  // Left to itself with working API calls, a live dependency leaves the queue with
  // its finalizer, the right phase and, a Provider, the right counter after at most
  // three reconciles.
  lemma Settles(w: World, d: DepKey, env: Env)
    requires d in w.deps && !w.deps[d].deleting
    requires env.get && env.list && env.update && env.patch
    ensures var w3 := Reconciled(Reconciled(Reconciled(w, d, env), d, env), d, env);
            && d !in w3.queue && w3.agents == w.agents && d in w3.deps
            && Protection in w3.deps[d].finalizers
            && (d.kind == ProviderKind ==> w3.deps[d].boundAgents == |Referrers(w, d)|)
            && w3.deps[d].phase == (if env.valid then Ready else Failed)
  {
    var w1 := Reconciled(w, d, env);
    var w2 := Reconciled(w1, d, env);
    LiveReconcile(w, d, env);
    LiveReconcile(w1, d, env);
    LiveReconcile(w2, d, env);
    assert Referrers(w1, d) == Referrers(w, d) && Referrers(w2, d) == Referrers(w, d);
  }

  // ----- Finalizer protocol -----

  ghost predicate Protected(w: World, d: DepKey) { d in w.deps && Protection in w.deps[d].finalizers }

  // Ready objects carry the finalizer until their deletion releases them, and an
  // object being deleted still carries some finalizer.
  ghost predicate Inv(w: World) {
    forall d :: d in w.deps ==>
      && (w.deps[d].phase == Ready && !w.deps[d].deleting ==> Protection in w.deps[d].finalizers)
      && (w.deps[d].deleting ==> w.deps[d].finalizers != {})
  }

  lemma StepKeepsInv(w: World, e: Event, w': World)
    requires Inv(w) && Next(w, e, w')
    ensures Inv(w')
  {
  }

  lemma {:induction false} InvAt(t: Trace, i: nat)
    requires Valid(t) && i < |t.states|
    ensures Inv(t.states[i])
  {
    if i > 0 {
      InvAt(t, i - 1);
      StepOf(t, i - 1);
      StepKeepsInv(t.states[i - 1], t.events[i - 1], t.states[i]);
    }
  }

  // A dependency becomes Ready only once it carries the finalizer.
  lemma ReadyOnlyWhenProtected(w: World, e: Event, w': World, d: DepKey)
    requires Next(w, e, w') && d in w'.deps && w'.deps[d].phase == Ready
    requires d !in w.deps || w.deps[d].phase != Ready
    ensures Protected(w, d) && Protected(w', d)
  {
  }

  // A step takes the finalizer off a dependency, or the dependency out of the
  // store, only when no Agent references it.
  lemma ReleasedOnlyUnreferenced(w: World, e: Event, w': World, d: DepKey)
    requires Next(w, e, w') && Protected(w, d) && !Protected(w', d)
    ensures e.Reconcile? && e.d == d && w.deps[d].deleting
    ensures Referrers(w, d) == {} && Referrers(w', d) == {}
  {
    var name := if e.RemoveForeign? then e.name else "";
    assert Protection in w.deps[d].finalizers - {Foreign(name)};
    assert e.Reconcile? ==> Referrers(w', d) == Referrers(w, d);
  }

  // With working calls, reconciling a dependency that is being deleted releases it
  // exactly when no Agent references it; otherwise it is marked as in use, its
  // counter (for a Provider) is right, and the reconcile is repeated.
  lemma DeletionReleasesIff(w: World, d: DepKey, env: Env)
    requires Inv(w) && Protected(w, d) && w.deps[d].deleting
    requires env.get && env.list && env.update && env.patch
    ensures var w' := Reconciled(w, d, env);
            && (Protected(w', d) <==> Referrers(w, d) != {})
            && (Protected(w', d) ==>
                  && d in w'.queue
                  && w'.deps[d] == w.deps[d].(inUse := true,
                                              boundAgents := if d.kind == ProviderKind then |Referrers(w, d)|
                                                             else w.deps[d].boundAgents))
            && (d in w'.deps && !Protected(w', d) ==>
                  w'.deps[d] == w.deps[d].(finalizers := w.deps[d].finalizers - {Protection}))
            && (d in w'.deps <==> Referrers(w, d) != {} || w.deps[d].finalizers != {Protection})
            && (d in w'.queue <==> d in w'.deps)
  {
    if Referrers(w, d) == {} {
      var rest := w.deps[d].finalizers - {Protection};
      assert w.deps[d].finalizers == rest + {Protection};
    }
  }

  // The gate of an Agent passes exactly when each Integration and each Provider it
  // lists is stored and Ready.
  lemma GatePassesIff(w: World, at: Key)
    requires at in w.agents
    ensures GatePasses(w, at)
            <==> && (forall n :: n in w.agents[at].integrations ==>
                       var d := DepKey(IntegrationKind, Key(at.ns, n)); d in w.deps && w.deps[d].phase == Ready)
                 && (forall n :: n in w.agents[at].providerRefs ==>
                       var d := DepKey(ProviderKind, Key(at.ns, n)); d in w.deps && w.deps[d].phase == Ready)
  {
    var a := w.agents[at];
    forall n | n in a.integrations
      ensures DepKey(IntegrationKind, Key(at.ns, n)) in Dependencies(at, a)
    {
    }
    forall n | n in a.providerRefs
      ensures DepKey(ProviderKind, Key(at.ns, n)) in Dependencies(at, a)
    {
    }
  }

  // An Agent refers to exactly what it lists.
  lemma ReferrersIff(w: World, at: Key, d: DepKey)
    ensures at in Referrers(w, d)
            <==> && at in w.agents && at.ns == d.key.ns
                 && match d.kind
                    case ProviderKind => d.key.name in w.agents[at].providerRefs
                    case IntegrationKind => d.key.name in w.agents[at].integrations
  {
  }

  ghost predicate ReferencedThroughout(t: Trace, i: nat, j: nat, d: DepKey) {
    forall m :: i <= m <= j && m < |t.states| ==> Referrers(t.states[m], d) != {}
  }

  // A protected dependency stays, and stays protected, while it is referenced.
  lemma {:induction false} StaysWhileReferenced(t: Trace, i: nat, j: nat, d: DepKey)
    requires Steps(t) && i <= j < |t.states|
    requires Protected(t.states[i], d) && ReferencedThroughout(t, i, j, d)
    ensures Protected(t.states[j], d)
  {
    if i < j {
      StaysWhileReferenced(t, i, j - 1, d);
      StepOf(t, j - 1);
      assert Referrers(t.states[j - 1], d) != {};
      if !Protected(t.states[j], d) {
        ReleasedOnlyUnreferenced(t.states[j - 1], t.events[j - 1], t.states[j], d);
      }
    }
  }

  ghost predicate KeepsReferences(t: Trace, i: nat, j: nat, at: Key) {
    forall m {:trigger t.states[m]} :: i <= m <= j && i < |t.states| && m < |t.states| && at in t.states[i].agents ==>
      at in t.states[m].agents
      && Dependencies(at, t.states[i].agents[at]) <= Dependencies(at, t.states[m].agents[at])
  }

  lemma DependencyIsReferenced(w: World, at: Key, d: DepKey)
    requires at in w.agents && d in Dependencies(at, w.agents[at])
    ensures at in Referrers(w, d)
  {
  }

  // What an Agent's workload was built on, if it carried the finalizer then, stays
  // in the store for as long as the Agent keeps referencing it.
  lemma BuiltOnStays(t: Trace, i: nat, j: nat, at: Key, d: DepKey)
    requires Steps(t) && i <= j < |t.states|
    requires GatePasses(t.states[i], at) && KeepsReferences(t, i, j, at)
    requires d in Dependencies(at, t.states[i].agents[at]) && Protected(t.states[i], d)
    ensures Protected(t.states[j], d)
  {
    forall m | i <= m <= j && m < |t.states|
      ensures Referrers(t.states[m], d) != {}
    {
      DependencyIsReferenced(t.states[m], at, d);
    }
    StaysWhileReferenced(t, i, j, d);
  }

  // ----- Exactly when the gate protects what it lets through -----

  // t continues from w, and the Agent at `at` keeps the references it has in w.
  ghost predicate Continues(t: Trace, w: World, at: Key) {
    Steps(t) && t.states[0] == w && KeepsReferences(t, 0, |t.states| - 1, at)
  }

  // However things go on from w, d is in the store while the Agent references it.
  ghost predicate AlwaysStays(w: World, at: Key, d: DepKey) {
    forall t: Trace :: Continues(t, w, at) ==> d in t.states[|t.states| - 1].deps
  }

  // Other controllers take their finalizers off d, one after the other.
  lemma {:induction false} ForeignDrain(w: World, d: DepKey) returns (t: Trace)
    requires d in w.deps && w.deps[d].deleting && w.deps[d].finalizers != {} && Protection !in w.deps[d].finalizers
    ensures Steps(t) && t.states[0] == w && d !in t.states[|t.states| - 1].deps
    ensures forall m :: 0 <= m < |t.states| ==> t.states[m].agents == w.agents
    ensures forall m :: 0 <= m < |t.events| ==> t.events[m].RemoveForeign? && t.events[m].d == d
    decreases |w.deps[d].finalizers|
  {
    var f :| f in w.deps[d].finalizers;
    var e := RemoveForeign(d, f.name);
    var w1 := ForeignRemoved(w, d, f.name);
    assert Next(w, e, w1);
    if d in w1.deps {
      assert w1.deps[d].finalizers < w.deps[d].finalizers;
      SubsetSize(w1.deps[d].finalizers, w.deps[d].finalizers);
      var rest := ForeignDrain(w1, d);
      t := Trace([w] + rest.states, [e] + rest.events);
      forall i | Index(i) && i < |t.events|
        ensures Next(t.states[i], t.events[i], t.states[i + 1])
      {
        if i > 0 { StepOf(rest, i - 1); }
      }
    } else {
      t := Trace([w, w1], [e]);
    }
  }

  // A dependency that has passed the gate is safe under its Agent exactly when it
  // carries our finalizer at that moment. Ready alone does not say so.
  lemma BuiltOnStaysIff(w: World, at: Key, d: DepKey)
    requires Inv(w) && GatePasses(w, at) && d in Dependencies(at, w.agents[at])
    ensures AlwaysStays(w, at, d) <==> Protected(w, d)
  {
    if Protected(w, d) {
      forall t: Trace | Continues(t, w, at)
        ensures d in t.states[|t.states| - 1].deps
      {
        BuiltOnStays(t, 0, |t.states| - 1, at, d);
      }
    } else {
      var t := ForeignDrain(w, d);
      assert Continues(t, w, at);
    }
  }

  lemma Extended(t: Trace, e: Event, w: World) returns (x: Trace)
    requires Steps(t) && Next(t.states[|t.states| - 1], e, w)
    ensures Steps(x) && x.states == t.states + [w]
  {
    x := Trace(t.states + [w], t.events + [e]);
    forall i | Index(i) && i < |x.events|
      ensures Next(x.states[i], x.events[i], x.states[i + 1])
    {
      if i < |t.events| { StepOf(t, i); }
    }
  }

  const WORKS := Env(true, true, true, true, true)

  // Its deletion asked for, a Ready dependency nobody references is released, and stays
  // for somebody else's finalizer.
  lemma BecomesUnprotected(d: DepKey, other: string) returns (t: Trace)
    requires d.kind == ProviderKind
    ensures Valid(t)
    ensures var w := t.states[|t.states| - 1];
            w.agents == map[] && d in w.deps && w.deps[d] == Dep({Foreign(other)}, true, Ready, 0, false)
  {
    t := BecomesReady(d, other);
    var w3 := t.states[|t.states| - 1];
    var w4 := DeletionAsked(w3, d);
    t := Extended(t, AskDeletion(d), w4);
    var w5 := Reconciled(w4, d, WORKS);
    t := Extended(t, Reconcile(d, WORKS), w5);
    assert Referrers(w4, d) == {};
    assert {Foreign(other), Protection} - {Protection} == {Foreign(other)};
  }

  // Such a moment does come: a dependency is created with somebody else's
  // finalizer, becomes Ready, is released by its deletion, and an Agent that then
  // names it passes the gate.
  lemma UnprotectedPassesGate(ns: string, name: string, other: string, agent: string) returns (t: Trace)
    ensures Valid(t)
    ensures var d, at, w := DepKey(ProviderKind, Key(ns, name)), Key(ns, agent), t.states[|t.states| - 1];
            GatePasses(w, at) && d in Dependencies(at, w.agents[at]) && !Protected(w, d)
  {
    var d, at := DepKey(ProviderKind, Key(ns, name)), Key(ns, agent);
    t := BecomesUnprotected(d, other);
    var a := AgentSpec([name], []);
    t := Extended(t, SetAgent(at, a), AgentSet(t.states[|t.states| - 1], at, a));
    assert a.providerRefs[0] == name;
    assert Dependencies(at, a) == {d};
  }

  lemma BecomesReady(d: DepKey, other: string) returns (t: Trace)
    requires d.kind == ProviderKind
    ensures Valid(t)
    ensures var w := t.states[|t.states| - 1];
            w == World(map[d := Dep({Foreign(other), Protection}, false, Ready, 0, false)], map[], {d})
  {
    var w1 := EMPTY.(deps := EMPTY.deps[d := NewDep({other})], queue := EMPTY.queue + {d});
    t := Extended(Trace([EMPTY], []), CreateDep(d, {other}), w1);
    var w2 := Reconciled(w1, d, WORKS);
    t := Extended(t, Reconcile(d, WORKS), w2);
    var w3 := Reconciled(w2, d, WORKS);
    t := Extended(t, Reconcile(d, WORKS), w3);
    assert w1.deps[d].finalizers == {Foreign(other)};
    assert Referrers(w1, d) == {} && Referrers(w2, d) == {};
    assert {Foreign(other)} + {Protection} == {Foreign(other), Protection};
    assert w3.deps == map[d := Dep({Foreign(other), Protection}, false, Ready, 0, false)];
  }
}
