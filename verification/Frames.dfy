/** What each plan reads: worlds that agree on it have the same plan. */
module Frames {
  import opened Wrappers
  import opened Naming
  import opened Conditions
  import opened Backend
  import opened Api
  import opened Plans

  // ---- What a backend tells a reconciler ------------------------------------------------------------

  /** Agreement on all of a backend that the binding loop reads; roles, configs and entities are not. */
  predicate BackendsAgree(a: map<string, State>, b: map<string, State>) {
    && a.Keys == b.Keys
    && (forall n | n in a :: a[n].mounts == b[n].mounts && a[n].policies == b[n].policies
                             && a[n].policiesUnknown == b[n].policiesUnknown)
  }

  predicate BindingInputsAgree(w: World, v: World) {
    w.entities == v.entities && w.trusts == v.trusts && w.instances == v.instances
      && BackendsAgree(w.backends, v.backends)
  }

  lemma RefOutcomeFrame(w: World, v: World, env: Env, key: Key, spec: BindingSpec, ref: string)
    requires BindingInputsAgree(w, v)
    ensures RefOutcomeOf(w, env, key, spec, ref) == RefOutcomeOf(v, env, key, spec, ref)
  {
    hide RefOutcomeOf;
    RefOutcomeAt(w, v, env, key, spec, ref);
  }

  lemma OutcomesFrame(w: World, v: World, env: Env, key: Key, spec: BindingSpec, refs: seq<string>)
    requires BindingInputsAgree(w, v)
    ensures Outcomes(w, env, key, spec, refs) == Outcomes(v, env, key, spec, refs)
  {
    hide RefOutcomeOf;
    forall i | 0 <= i < |refs| ensures Outcomes(w, env, key, spec, refs)[i] == Outcomes(v, env, key, spec, refs)[i] {
      RefOutcomeFrame(w, v, env, key, spec, refs[i]);
    }
  }

  // ---- Writes that change no binding input -------------------------------------------------------------

  predicate KeepsBindingInputs(x: Write) {
    x.WriteRole? || x.RemoveRole? || x.PutBinding? || x.AddBindingFinalizer? || x.DropBindingFinalizer?
    || x.WriteConfig? || x.WriteEntity?
  }

  lemma CallKeepsBindingInputs(s: State, x: Write)
    requires KeepsBindingInputs(x)
    ensures var t := OnBackend(s, x);
            t.mounts == s.mounts && t.policies == s.policies && t.policiesUnknown == s.policiesUnknown
  {
  }

  lemma WriteKeepsBindingInputs(w: World, x: Write)
    requires KeepsBindingInputs(x)
    ensures BindingInputsAgree(w, Apply(w, x))
  {
    hide OnBackend, Apply;
    ApplyParts(w, x);
    if IsBackendWrite(x) && x.backend in w.backends {
      CallKeepsBindingInputs(w.backends[x.backend], x);
    }
  }

  lemma {:induction false} WritesKeepBindingInputs(w: World, xs: seq<Write>)
    requires forall x | x in xs :: KeepsBindingInputs(x)
    ensures BindingInputsAgree(w, ApplyAll(w, xs))
    decreases xs
  {
    if xs != [] {
      hide Apply;
      var v := Apply(w, xs[0]);
      WriteKeepsBindingInputs(w, xs[0]);
      WritesKeepBindingInputs(v, xs[1..]);
      BackendsAgreeTransitive(w.backends, v.backends, ApplyAll(w, xs).backends);
    }
  }

  lemma BackendsAgreeTransitive(a: map<string, State>, b: map<string, State>, c: map<string, State>)
    requires BackendsAgree(a, b) && BackendsAgree(b, c)
    ensures BackendsAgree(a, c)
  {
  }

  lemma {:induction false} LoopWritesAreRoles(outs: seq<RefOutcome>, x: Write)
    requires x in LoopWrites(outs)
    ensures x.WriteRole?
    ensures exists i | 0 <= i < |outs| :: RoleWriteOf(outs[i]) == [x]
  {
    var before := outs[..|outs| - 1];
    if x in LoopWrites(before) {
      LoopWritesAreRoles(before, x);
      var i :| 0 <= i < |before| && RoleWriteOf(before[i]) == [x];
      assert outs[i] == before[i];
    } else {
      assert x in RoleWriteOf(outs[|outs| - 1]);
      assert RoleWriteOf(outs[|outs| - 1]) == [x];
    }
  }

  lemma {:induction false} RemovalWritesAreRemovals(w: World, env: Env, namespace: string, entries: seq<RoleStatus>,
                                                    x: Write)
    requires x in RemovalWrites(w, env, namespace, entries)
    ensures x.RemoveRole?
    ensures exists i | 0 <= i < |entries| :: RemovalWrite(RemovalOf(w, env, namespace, entries[i])) == [x]
  {
    hide RemovalOf;
    var before, last := entries[..|entries| - 1], entries[|entries| - 1];
    if x in RemovalWrites(w, env, namespace, before) {
      RemovalWritesAreRemovals(w, env, namespace, before, x);
      var i :| 0 <= i < |before| && RemovalWrite(RemovalOf(w, env, namespace, before[i])) == [x];
      assert entries[i] == before[i];
    } else {
      assert x in RemovalWrite(RemovalOf(w, env, namespace, last));
      assert RemovalWrite(RemovalOf(w, env, namespace, last)) == [x];
    }
  }

  // ---- The other plans -----------------------------------------------------------------------------------

  ghost predicate SameAt<K, V>(a: map<K, V>, b: map<K, V>, k: K) {
    (k in a <==> k in b) && (k in a ==> a[k] == b[k])
  }

  lemma InstancePlanFrame(w: World, v: World, env: Env, n: string)
    requires SameAt(w.instances, v.instances, n) && SameAt(w.backends, v.backends, n)
    ensures InstancePlan(w, env, n) == InstancePlan(v, env, n)
  {
    hide InstanceFailed, InstanceProbed;
  }

  /** A project entity's plan reads its object, its instance, which backends there are, and the enrolled ID. */
  lemma ProjectEntityPlanFrame(w: World, v: World, env: Env, k: Key)
    requires SameAt(w.projectEntities, v.projectEntities, k) && w.backends.Keys == v.backends.Keys
    requires k in w.projectEntities ==>
               var n := w.projectEntities[k].spec.instance;
               && SameAt(w.instances, v.instances, n)
               && EntityID(BackendOf(w, n), EntityName(env.sha, k.namespace, k.name))
                  == EntityID(BackendOf(v, n), EntityName(env.sha, k.namespace, k.name))
    ensures ProjectEntityPlan(w, env, k) == ProjectEntityPlan(v, env, k)
  {
    hide ProjectEntityDone, ProjectEntityBlocked, Reachable, EntityID, EntityName, BackendOf;
  }

  /** A trust's plan reads the trust, its project entity, one instance, and which backends there are. */
  lemma TrustPlanFrame(w: World, v: World, env: Env, k: Key)
    requires SameAt(w.trusts, v.trusts, k) && w.backends.Keys == v.backends.Keys
    requires k in w.trusts && !w.trusts[k].meta.deleting ==>
               var pk := w.trusts[k].spec.projectEntity;
               && SameAt(w.projectEntities, v.projectEntities, pk)
               && (pk in w.projectEntities ==> SameAt(w.instances, v.instances, w.projectEntities[pk].spec.instance))
    requires k in w.trusts && w.trusts[k].meta.deleting ==>
               SameAt(w.instances, v.instances, w.trusts[k].status.resolved)
    ensures TrustPlan(w, env, k) == TrustPlan(v, env, k)
  {
    hide TrustBody, TrustTeardown;
    if k in w.trusts && env.mountPrefix.Some? {
      if w.trusts[k].meta.deleting {
        TrustTeardownFrame(w, v, env, k, w.trusts[k]);
      } else {
        TrustBodyAt(w, v, env, k, w.trusts[k]);
      }
    }
  }

  lemma TrustTeardownFrame(w: World, v: World, env: Env, k: Key, o: Trust)
    requires SameAt(w.instances, v.instances, o.status.resolved) && w.backends.Keys == v.backends.Keys
    ensures TrustTeardown(w, env, k, o) == TrustTeardown(v, env, k, o)
  {
    hide Reachable, TrustDrop;
  }

  lemma TrustGateAt(w: World, v: World, env: Env, k: Key, o: Trust)
    requires env.mountPrefix.Some? && SameAt(w.projectEntities, v.projectEntities, o.spec.projectEntity)
    requires o.spec.projectEntity in w.projectEntities ==>
               SameAt(w.instances, v.instances, w.projectEntities[o.spec.projectEntity].spec.instance)
    ensures TrustGateOf(w, env, k, o) == TrustGateOf(v, env, k, o)
  {
    hide TrustPastInstance, TrustBlocked, Reachable;
  }

  lemma TrustBodyAt(w: World, v: World, env: Env, k: Key, o: Trust)
    requires env.mountPrefix.Some? && w.backends.Keys == v.backends.Keys
    requires SameAt(w.projectEntities, v.projectEntities, o.spec.projectEntity)
    requires o.spec.projectEntity in w.projectEntities ==>
               SameAt(w.instances, v.instances, w.projectEntities[o.spec.projectEntity].spec.instance)
    ensures TrustBody(w, env, k, o) == TrustBody(v, env, k, o)
  {
    hide TrustGateOf, TrustDone, TrustFailed, TrustCallFailed;
    TrustGateAt(w, v, env, k, o);
  }

  lemma EntityPlanFrame(w: World, v: World, env: Env, k: Key)
    requires SameAt(w.entities, v.entities, k)
    requires k in w.entities ==> SameAt(w.trusts, v.trusts, Key(k.namespace, w.entities[k].spec.trust))
    ensures EntityPlan(w, env, k) == EntityPlan(v, env, k)
  {
    hide EntityBlocked, EntityPastTrust, IsTrue;
  }

  /** What the loop reads of the backend a trust sits on. */
  predicate SameBackendInputs(w: World, v: World, trust: Trust) {
    var n := trust.status.resolved;
    n in w.backends && n in v.backends ==>
      && w.backends[n].policies == v.backends[n].policies
      && w.backends[n].policiesUnknown == v.backends[n].policiesUnknown
      && (trust.status.authMountPath in w.backends[n].mounts <==> trust.status.authMountPath in v.backends[n].mounts)
  }

  lemma RefPastTrustAt(w: World, v: World, env: Env, spec: BindingSpec, ref: string, roleName: string, trust: Trust,
                       subject: string)
    requires w.backends.Keys == v.backends.Keys && SameAt(w.instances, v.instances, trust.status.resolved)
    requires SameBackendInputs(w, v, trust)
    ensures RefPastTrust(w, env, spec, ref, roleName, trust, subject)
            == RefPastTrust(v, env, spec, ref, roleName, trust, subject)
  {
    hide RefBlocked, Reachable, BoundRole, IsEmpty;
  }

  /** One iteration of the loop reads one entity, its trust, that one's instance and its backend. */
  lemma RefOutcomeAt(w: World, v: World, env: Env, key: Key, spec: BindingSpec, ref: string)
    requires SameAt(w.entities, v.entities, Key(key.namespace, ref)) && w.backends.Keys == v.backends.Keys
    requires Key(key.namespace, ref) in w.entities ==>
               var t := Key(key.namespace, w.entities[Key(key.namespace, ref)].spec.trust);
               && SameAt(w.trusts, v.trusts, t)
               && (t in w.trusts ==> SameAt(w.instances, v.instances, w.trusts[t].status.resolved)
                                     && SameBackendInputs(w, v, w.trusts[t]))
    ensures RefOutcomeOf(w, env, key, spec, ref) == RefOutcomeOf(v, env, key, spec, ref)
  {
    hide RefPastTrust, RefBlocked, BindingRoleName, IsTrue, TrustUsable, SameBackendInputs;
    var e := Key(key.namespace, ref);
    if e in w.entities && w.entities[e].status.identity.Some? {
      var t := Key(key.namespace, w.entities[e].spec.trust);
      if t in w.trusts {
        RefPastTrustAt(w, v, env, spec, ref, BindingRoleName(env, key, ref), w.trusts[t],
                       w.entities[e].status.identity.value.subject);
      }
    }
  }
}
