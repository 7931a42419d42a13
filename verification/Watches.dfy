/**
 The watch maps: which objects a change to a trust, an entity or a project entity enqueues, and that
 no live object they leave out is affected by the change.
 */
module Watches {
  import opened Wrappers
  import opened Identity
  import opened Conditions
  import opened Backend
  import opened Api
  import opened Plans
  import opened Frames
  import opened Webhook

  // ---- Who waits on whom -----------------------------------------------------------------------------

  predicate TrustWaitsOn(w: World, t: Key, p: Key) {
    t in w.trusts && w.trusts[t].spec.projectEntity == p
  }

  predicate EntityWaitsOn(w: World, e: Key, t: Key) {
    e in w.entities && e.namespace == t.namespace && w.entities[e].spec.trust == t.name
  }

  predicate BindingNames(w: World, b: Key, e: Key) {
    b in w.bindings && b.namespace == e.namespace && e.name in w.bindings[b].spec.refs
  }

  predicate BindingWaitsOn(w: World, b: Key, t: Key) {
    && b in w.bindings && b.namespace == t.namespace
    && exists ref | ref in w.bindings[b].spec.refs :: EntityWaitsOn(w, Key(t.namespace, ref), t)
  }

  // ---- The map functions; a listing is None when the list call fails -------------------------------------

  /** ControlPlaneTrustReconciler.enqueueForProjectEntity. */
  method EnqueueTrustsForProjectEntity(w: World, listing: Option<seq<Key>>, p: Key) returns (reqs: seq<Key>)
    requires listing.Some? ==> Lists(listing.value, w.trusts, None)
    ensures forall t :: t in reqs <==> listing.Some? && TrustWaitsOn(w, t, p)
  {
    if listing.None? {
      return [];
    }
    var items := listing.value;
    reqs := [];
    for i := 0 to |items|
      invariant forall t :: t in reqs <==> t in items[..i] && TrustWaitsOn(w, t, p)
    {
      assert items[i] in items && items[..i + 1] == items[..i] + [items[i]];
      var ref := w.trusts[items[i]].spec.projectEntity;
      if ref.namespace == p.namespace && ref.name == p.name {
        reqs := reqs + [items[i]];
      }
    }
    assert items[..|items|] == items;
  }

  /** ControlPlaneEntityReconciler.enqueueForTrust. */
  method EnqueueEntitiesForTrust(w: World, listing: Option<seq<Key>>, t: Key) returns (reqs: seq<Key>)
    requires listing.Some? ==> Lists(listing.value, w.entities, Some(t.namespace))
    ensures forall e :: e in reqs <==> listing.Some? && EntityWaitsOn(w, e, t)
  {
    if listing.None? {
      return [];
    }
    var items := listing.value;
    reqs := [];
    for i := 0 to |items|
      invariant forall e :: e in reqs <==> e in items[..i] && EntityWaitsOn(w, e, t)
    {
      assert items[i] in items && items[..i + 1] == items[..i] + [items[i]];
      if w.entities[items[i]].spec.trust == t.name {
        reqs := reqs + [items[i]];
      }
    }
    assert items[..|items|] == items;
  }

  /** policyBindingReferencesEntity. */
  method References(refs: seq<string>, name: string) returns (found: bool)
    ensures found <==> name in refs
  {
    for i := 0 to |refs|
      invariant name !in refs[..i]
    {
      if refs[i] == name {
        return true;
      }
    }
    assert refs[..|refs|] == refs;
    return false;
  }

  /** PolicyBindingReconciler.enqueueForEntity. */
  method EnqueueBindingsForEntity(w: World, listing: Option<seq<Key>>, e: Key) returns (reqs: seq<Key>)
    requires listing.Some? ==> Lists(listing.value, w.bindings, Some(e.namespace))
    ensures forall b :: b in reqs <==> listing.Some? && BindingNames(w, b, e)
  {
    if listing.None? {
      return [];
    }
    var items := listing.value;
    reqs := [];
    for i := 0 to |items|
      invariant forall b :: b in reqs <==> b in items[..i] && BindingNames(w, b, e)
    {
      assert items[i] in items && items[..i + 1] == items[..i] + [items[i]];
      var found := References(w.bindings[items[i]].spec.refs, e.name);
      if found {
        reqs := reqs + [items[i]];
      }
    }
    assert items[..|items|] == items;
  }

  /** The names of the listed entities on the trust. */
  method NamesOnTrust(w: World, items: seq<Key>, t: Key) returns (names: set<string>)
    requires Lists(items, w.entities, Some(t.namespace))
    ensures forall name :: name in names <==> EntityWaitsOn(w, Key(t.namespace, name), t)
  {
    names := {};
    for i := 0 to |items|
      invariant forall name ::
                  name in names <==> Key(t.namespace, name) in items[..i] && EntityWaitsOn(w, Key(t.namespace, name), t)
    {
      assert items[i] in items && items[..i + 1] == items[..i] + [items[i]];
      if w.entities[items[i]].spec.trust == t.name {
        names := names + {items[i].name};
      }
    }
    assert items[..|items|] == items;
  }

  /** PolicyBindingReconciler.enqueueForTrust: nested loops, each left at the first hit. */
  method EnqueueBindingsForTrust(w: World, entities: Option<seq<Key>>, bindings: Option<seq<Key>>, t: Key)
    returns (reqs: seq<Key>)
    requires entities.Some? ==> Lists(entities.value, w.entities, Some(t.namespace))
    requires bindings.Some? ==> Lists(bindings.value, w.bindings, Some(t.namespace))
    ensures forall b :: b in reqs <==> entities.Some? && bindings.Some? && BindingWaitsOn(w, b, t)
  {
    if entities.None? {
      return [];
    }
    var names := NamesOnTrust(w, entities.value, t);
    if |names| == 0 || bindings.None? {
      return [];
    }
    var items := bindings.value;
    reqs := [];
    for i := 0 to |items|
      invariant forall b :: b in reqs <==> b in items[..i] && BindingWaitsOn(w, b, t)
    {
      assert items[i] in items && items[..i + 1] == items[..i] + [items[i]];
      var refs := w.bindings[items[i]].spec.refs;
      var hit := false;
      for r := 0 to |refs|
        invariant !hit && forall ref | ref in refs[..r] :: ref !in names
      {
        if refs[r] in names {
          hit := true;
          break;
        }
      }
      assert refs[..|refs|] == refs;
      if hit {
        reqs := reqs + [items[i]];
      }
    }
    assert items[..|items|] == items;
  }

  // ---- Completeness ------------------------------------------------------------------------------------------

  ghost predicate AgreeOff<V>(a: map<Key, V>, b: map<Key, V>, k: Key) {
    forall j | j != k :: (j in a <==> j in b) && (j in a ==> a[j] == b[j])
  }

  lemma RefOffTrust(w: World, v: World, env: Env, key: Key, spec: BindingSpec, ref: string, t: Key)
    requires v == w.(trusts := v.trusts) && AgreeOff(w.trusts, v.trusts, t)
    requires !EntityWaitsOn(w, Key(key.namespace, ref), t)
    ensures RefOutcomeOf(w, env, key, spec, ref) == RefOutcomeOf(v, env, key, spec, ref)
  {
    hide RefBlocked, EntityUsable, TrustUsable, RefAtBackend, Reachable, BindingRoleName;
  }

  lemma BindingOffTrust(w: World, v: World, env: Env, b: Key, t: Key)
    requires v == w.(trusts := v.trusts) && AgreeOff(w.trusts, v.trusts, t)
    requires b in w.bindings ==> !w.bindings[b].meta.deleting && !BindingWaitsOn(w, b, t)
    ensures BindingPlan(w, env, b) == BindingPlan(v, env, b)
  {
    hide RefOutcomeOf, LoopWrites, BindingNext, Aborted, AgreeOff, EntityWaitsOn, BindingTeardown;
    if b in w.bindings {
      var o := w.bindings[b];
      forall ref | ref in o.spec.refs
        ensures RefOutcomeOf(w, env, b, o.spec, ref) == RefOutcomeOf(v, env, b, o.spec, ref)
      {
        NotWaitingVia(w, b, t, ref);
        RefOffTrust(w, v, env, b, o.spec, ref, t);
      }
      assert Outcomes(w, env, b, o.spec, o.spec.refs) == Outcomes(v, env, b, o.spec, o.spec.refs);
    }
  }

  lemma NotWaitingVia(w: World, b: Key, t: Key, ref: string)
    requires b in w.bindings && ref in w.bindings[b].spec.refs && !BindingWaitsOn(w, b, t)
    ensures !EntityWaitsOn(w, Key(b.namespace, ref), t)
  {
  }

  lemma RefOffEntity(w: World, v: World, env: Env, key: Key, spec: BindingSpec, ref: string, e: Key)
    requires v == w.(entities := v.entities) && AgreeOff(w.entities, v.entities, e) && Key(key.namespace, ref) != e
    ensures RefOutcomeOf(w, env, key, spec, ref) == RefOutcomeOf(v, env, key, spec, ref)
  {
    hide RefBlocked, EntityUsable, TrustUsable, RefAtBackend, Reachable, BindingRoleName;
  }

  lemma BindingOffEntity(w: World, v: World, env: Env, b: Key, e: Key)
    requires v == w.(entities := v.entities) && AgreeOff(w.entities, v.entities, e)
    requires b in w.bindings ==> !w.bindings[b].meta.deleting && !BindingNames(w, b, e)
    ensures BindingPlan(w, env, b) == BindingPlan(v, env, b)
  {
    hide RefOutcomeOf, LoopWrites, BindingNext, Aborted, AgreeOff, BindingTeardown;
    if b in w.bindings {
      var o := w.bindings[b];
      forall ref | ref in o.spec.refs
        ensures RefOutcomeOf(w, env, b, o.spec, ref) == RefOutcomeOf(v, env, b, o.spec, ref)
      {
        RefOffEntity(w, v, env, b, o.spec, ref, e);
      }
      assert Outcomes(w, env, b, o.spec, o.spec.refs) == Outcomes(v, env, b, o.spec, o.spec.refs);
    }
  }

  /** The change enqueues the object, or the object is terminating, or it is the changed object itself. */
  predicate Notices(w: World, ref: Ref, changed: Ref) {
    ref == changed ||
    match ref
    case TrustRef(t) => changed.ProjectEntityRef? && TrustWaitsOn(w, t, changed.key)
    case EntityRef(e) => changed.TrustRef? && EntityWaitsOn(w, e, changed.key)
    case BindingRef(b) =>
      || (b in w.bindings && w.bindings[b].meta.deleting)
      || (changed.EntityRef? && BindingNames(w, b, changed.key))
      || (changed.TrustRef? && BindingWaitsOn(w, b, changed.key))
    case _ => false
  }

  /** Two worlds that differ in one trust, entity or project entity at most. */
  ghost predicate DifferIn(w: World, v: World, changed: Ref) {
    match changed
    case TrustRef(t) => v == w.(trusts := v.trusts) && AgreeOff(w.trusts, v.trusts, t)
    case EntityRef(e) => v == w.(entities := v.entities) && AgreeOff(w.entities, v.entities, e)
    case ProjectEntityRef(p) => v == w.(projectEntities := v.projectEntities)
                                && AgreeOff(w.projectEntities, v.projectEntities, p)
    case _ => v == w
  }

  lemma TrustChange(w: World, v: World, env: Env, t: Key, ref: Ref)
    requires DifferIn(w, v, TrustRef(t)) && !Notices(w, ref, TrustRef(t))
    ensures Plan(w, env, ref) == Plan(v, env, ref)
  {
    hide InstancePlan, ProjectEntityPlan, TrustPlan, EntityPlan, BindingPlan, BindingWaitsOn;
    match ref
    case InstanceRef(n) => InstancePlanFrame(w, v, env, n);
    case ProjectEntityRef(k) => ProjectEntityPlanFrame(w, v, env, k);
    case TrustRef(k) => TrustPlanFrame(w, v, env, k);
    case EntityRef(k) => EntityPlanFrame(w, v, env, k);
    case BindingRef(k) => BindingOffTrust(w, v, env, k, t);
    case ControlPlaneRef(_) =>
  }

  lemma EntityChange(w: World, v: World, env: Env, e: Key, ref: Ref)
    requires DifferIn(w, v, EntityRef(e)) && !Notices(w, ref, EntityRef(e))
    ensures Plan(w, env, ref) == Plan(v, env, ref)
  {
    hide InstancePlan, ProjectEntityPlan, TrustPlan, EntityPlan, BindingPlan;
    match ref
    case InstanceRef(n) => InstancePlanFrame(w, v, env, n);
    case ProjectEntityRef(k) => ProjectEntityPlanFrame(w, v, env, k);
    case TrustRef(k) => TrustPlanFrame(w, v, env, k);
    case EntityRef(k) => EntityPlanFrame(w, v, env, k);
    case BindingRef(k) => BindingOffEntity(w, v, env, k, e);
    case ControlPlaneRef(_) =>
  }

  lemma ProjectEntityChange(w: World, v: World, env: Env, p: Key, ref: Ref)
    requires DifferIn(w, v, ProjectEntityRef(p)) && !Notices(w, ref, ProjectEntityRef(p))
    ensures Plan(w, env, ref) == Plan(v, env, ref)
  {
    hide InstancePlan, ProjectEntityPlan, TrustPlan, EntityPlan, BindingPlan;
    match ref
    case InstanceRef(n) => InstancePlanFrame(w, v, env, n);
    case ProjectEntityRef(k) => ProjectEntityPlanFrame(w, v, env, k);
    case TrustRef(k) => TrustPlanFrame(w, v, env, k);
    case EntityRef(k) => EntityPlanFrame(w, v, env, k);
    case BindingRef(k) => SameBindingPlan(w, v, env, k);
    case ControlPlaneRef(_) =>
  }

  lemma SameBindingPlan(w: World, v: World, env: Env, b: Key)
    requires v == w.(projectEntities := v.projectEntities)
    requires b in w.bindings ==> !w.bindings[b].meta.deleting
    ensures BindingPlan(w, env, b) == BindingPlan(v, env, b)
  {
    hide Outcomes, LoopWrites, BindingNext, Aborted, BindingTeardown;
    if b in w.bindings {
      OutcomesFrame(w, v, env, b, w.bindings[b].spec, w.bindings[b].spec.refs);
    }
  }

  /**
   The watch maps miss nothing: if a trust, an entity or a project entity is created, changed or
   removed, every live object that is not enqueued for it would do exactly what it would have done.
   */
  lemma WatchesComplete(w: World, v: World, env: Env, changed: Ref, ref: Ref)
    requires DifferIn(w, v, changed) && !Notices(w, ref, changed)
    ensures Plan(w, env, ref) == Plan(v, env, ref)
  {
    hide Plan, Notices;
    match changed
    case TrustRef(t) => TrustChange(w, v, env, t, ref);
    case EntityRef(e) => EntityChange(w, v, env, e, ref);
    case ProjectEntityRef(p) => ProjectEntityChange(w, v, env, p, ref);
    case _ =>
  }
}
