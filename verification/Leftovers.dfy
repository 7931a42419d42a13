/** Roles that outlive their binding: what the references have lost by the time of deletion is left behind. */
module Leftovers {
  import opened Wrappers
  import opened Naming
  import opened Identity
  import opened Conditions
  import opened Backend
  import opened Api
  import opened Plans
  import opened Frames
  import opened Webhook
  import opened Runs
  import opened BindingEffects
  import opened BindingLoop
  import opened BindingDeletion
  import opened Idempotence
  import opened Settling
  import opened Achievement

  // ---- What a reconcile leaves at a reference's slot --------------------------------------------------------

  function InstanceFor(w: World, env: Env, key: Key, ref: string): string
    requires Through(w, env, key, ref)
  {
    TrustFor(w, env, key, ref).status.resolved
  }

  function SlotFor(w: World, env: Env, key: Key, ref: string): string
    requires Through(w, env, key, ref)
  {
    Slot(TrustFor(w, env, key, ref).status.authMountPath, BindingRoleName(env, key, ref))
  }

  lemma BindableWrites(w: World, env: Env, key: Key, spec: BindingSpec, ref: string)
    requires Bindable(w, env, key, ref)
    ensures var out := RefOutcomeOf(w, env, key, spec, ref);
            && out.RefOutcome? && out.write.Some?
            && At(WriteRole(out.write.value.instance, out.write.value.mount, out.write.value.role),
                  InstanceFor(w, env, key, ref), SlotFor(w, env, key, ref))
  {
    hide RefOutcomeOf, BindingRoleName, Client, Through, TrustFor, Slot, CheckOf;
    ThroughOutcome(w, env, key, spec, ref);
  }

  /** The role of a reference that can be bound is there after a run of the loop. */
  lemma BoundRoleThere(w: World, env: Env, key: Key, ref: string)
    requires LiveBinding(w, env, key) && !Aborted(OutcomesOf(w, env, key))
    requires ref in w.bindings[key].spec.refs && Bindable(w, env, key, ref)
    ensures SlotFor(w, env, key, ref) in RolesIn(Reconcile(w, env, BindingRef(key)), InstanceFor(w, env, key, ref))
  {
    hide RefOutcomeOf, Reconcile, LoopWrites, LastAt, Through, SlotFor, InstanceFor, RolesIn, Aborted;
    var spec, outs := w.bindings[key].spec, OutcomesOf(w, env, key);
    var i :| 0 <= i < |spec.refs| && spec.refs[i] == ref;
    BindableWrites(w, env, key, spec, ref);
    EveryRefWrites(outs, i);
    var x := RoleWriteOf(outs[i])[0];
    assert x in RoleWriteOf(outs[i]);
    LastAtSome(LoopWrites(outs), InstanceFor(w, env, key, ref), SlotFor(w, env, key, ref));
    LoopRoles(w, env, key, InstanceFor(w, env, key, ref), SlotFor(w, env, key, ref));
  }

  lemma ReachesFrame(w: World, v: World, env: Env, key: Key, ref: string, n: string, slot: string)
    requires SameAt(w.entities, v.entities, Key(key.namespace, ref)) && w.trusts == v.trusts
    requires w.instances == v.instances && w.backends.Keys == v.backends.Keys
    ensures Reaches(w, env, key, ref, n, slot) <==> Reaches(v, env, key, ref, n, slot)
  {
    hide Slot, BindingRoleName, EntityUsable, TrustUsable, Reachable;
  }

  // ---- Edited away -----------------------------------------------------------------------------------------------

  /** The binding after its reconcile, pointed at other references. */
  function Repointed(w: World, env: Env, key: Key, spec: BindingSpec): World {
    Edit(Reconcile(w, env, BindingRef(key)), DraftBinding(key, spec))
  }

  lemma RepointedIs(w: World, env: Env, key: Key, spec: BindingSpec)
    requires LiveBinding(w, env, key)
    ensures var first, u := Reconcile(w, env, BindingRef(key)), Repointed(w, env, key, spec);
            && OnlyRoles(w.(bindings := u.bindings), u) && u.backends == first.backends
            && LiveBinding(u, env, key) && u.bindings[key].spec == spec
            && u.bindings[key].meta.finalizers == w.bindings[key].meta.finalizers + {OwnFinalizer}
  {
    hide Reconcile, OutcomesOf, BindingNext, Aborted, OnlyRoles;
    var first, u := Reconcile(w, env, BindingRef(key)), Repointed(w, env, key, spec);
    LoopKeepsRemovalInputs(w, env, key);
    assert u == first.(bindings := u.bindings);
    OtherBindings(w.(bindings := first.bindings), first, u.bindings);
    assert w.(bindings := first.bindings).(bindings := u.bindings) == w.(bindings := u.bindings);
  }

  /**
   A role left by a reference since edited away: the binding is reconciled, pointed at other references,
   reconciled again, deleted and finalized. The binding is gone, and the role its first reconcile left for
   a reference is still there, unchanged, exactly when no new reference gets through to its slot.
   */
  lemma EditedAwayRoleStays(w: World, env: Env, key: Key, spec: BindingSpec, ref: string)
    requires LiveBinding(w, env, key) && w.bindings[key].meta.finalizers <= {OwnFinalizer}
    requires CanFinalize(w, env, key.namespace)
    requires !Aborted(OutcomesOf(w, env, key)) && !Aborted(Outcomes(w, env, key, spec, spec.refs))
    requires ref in w.bindings[key].spec.refs && Bindable(w, env, key, ref)
    ensures var n, slot := InstanceFor(w, env, key, ref), SlotFor(w, env, key, ref);
            var first, v := Reconcile(w, env, BindingRef(key)), Undone(Repointed(w, env, key, spec), env, key);
            && slot in RolesIn(first, n) && key !in v.bindings
            && (slot in RolesIn(v, n) <==> forall s | s in spec.refs :: !Reaches(w, env, key, s, n, slot))
            && (slot in RolesIn(v, n) ==> RolesIn(v, n)[slot] == RolesIn(first, n)[slot])
  {
    hide Reconcile, Outcomes, Undone, Repointed, Reaches, Through, InstanceFor, SlotFor, RolesIn, Aborted,
      CanFinalize, OnlyRoles, BindingInputsAgree;
    var n, slot := InstanceFor(w, env, key, ref), SlotFor(w, env, key, ref);
    var u := Repointed(w, env, key, spec);
    BoundRoleThere(w, env, key, ref);
    RepointedIs(w, env, key, spec);
    OnlyRolesKeepInputs(w, u);
    OutcomesFrame(w, u, env, key, spec, spec.refs);
    FinalizableThere(w, u, env, key.namespace);
    DeleteUndoesReconcile(u, env, key, n, slot);
    SameBackendsRoles(Reconcile(w, env, BindingRef(key)), u, n);
    forall s | s in spec.refs ensures Reaches(w, env, key, s, n, slot) <==> Reaches(u, env, key, s, n, slot) {
      InputsReach(w, u, env, key, s, n, slot);
    }
  }

  lemma FinalizableThere(w: World, u: World, env: Env, namespace: string)
    requires CanFinalize(w, env, namespace) && BindingInputsAgree(w, u)
    ensures CanFinalize(u, env, namespace)
  {
  }

  lemma InputsReach(w: World, u: World, env: Env, key: Key, s: string, n: string, slot: string)
    requires BindingInputsAgree(w, u)
    ensures Reaches(w, env, key, s, n, slot) <==> Reaches(u, env, key, s, n, slot)
  {
    hide Reaches;
    ReachesFrame(w, u, env, key, s, n, slot);
  }

  // ---- References unchanged, but one lost its identity ------------------------------------------

  /** A live entity on a configured trust whose control plane mints no token. */
  predicate LosesIdentity(w: World, lost: Env, e: Key) {
    && e in w.entities && !w.entities[e].meta.deleting && EntityRef(e) !in lost.faults && lost.mountPrefix.Some?
    && (var t := Key(e.namespace, w.entities[e].spec.trust);
        && t in w.trusts && TrustRef(t) !in lost.faults && IsTrue(w.trusts[t].status.conditions, TrustConfigured)
        && (var c := Key(e.namespace, w.trusts[t].spec.controlPlane);
            c in lost.controlPlanes && ControlPlaneRef(c) !in lost.faults))
    && lost.tokens == map[]
  }

  lemma FailedNotResolved(st: EntityStatus, g: int, m: Message, summary: Message)
    ensures !IsTrue(EntityFailed(st, g, m, summary).conditions, IdentityResolved)
  {
  }

  lemma LostPastTrust(lost: Env, e: Key, o: Entity, st: EntityStatus, trust: Trust)
    requires var c := Key(e.namespace, trust.spec.controlPlane);
             c in lost.controlPlanes && ControlPlaneRef(c) !in lost.faults
    requires lost.tokens == map[]
    ensures var out := EntityPastTrust(lost, e, o, st, trust);
            out.Some? && !IsTrue(out.value.conditions, IdentityResolved)
  {
    hide EntityFailed, IsTrue, ControlPlaneIssuer, ResolveControlPlaneAudience;
    var out := EntityPastTrust(lost, e, o, st, trust);
    forall m, summary ensures !IsTrue(EntityFailed(st, o.meta.generation, m, summary).conditions, IdentityResolved) {
      FailedNotResolved(st, o.meta.generation, m, summary);
    }
  }

  lemma LostNext(w: World, lost: Env, e: Key)
    requires LosesIdentity(w, lost, e)
    ensures var out := EntityNext(w, lost, e, w.entities[e]);
            out.Some? && !IsTrue(out.value.conditions, IdentityResolved)
  {
    hide EntityPastTrust, IsTrue;
    var o := w.entities[e];
    LostPastTrust(lost, e, o, o.status.(observed := o.meta.generation), w.trusts[Key(e.namespace, o.spec.trust)]);
  }

  lemma LostIdentity(w: World, lost: Env, e: Key)
    requires LosesIdentity(w, lost, e)
    ensures var u := Reconcile(w, lost, EntityRef(e));
            && e in u.entities && u == w.(entities := w.entities[e := u.entities[e]])
            && u.entities[e].spec == w.entities[e].spec && !EntityUsable(u.entities[e])
  {
    hide ApplyAll, EntityNext, IsTrue;
    LostNext(w, lost, e);
    var st := EntityNext(w, lost, e, w.entities[e]);
    assert Plan(w, lost, EntityRef(e)) == [PutEntity(e, st.value)];
    ApplyOne(w, PutEntity(e, st.value));
  }

  /** The binding after its reconcile, and after one of its entities in surroundings without tokens. */
  function Deprived(w: World, env: Env, lost: Env, key: Key, ref: string): World {
    Reconcile(Reconcile(w, env, BindingRef(key)), lost, EntityRef(Key(key.namespace, ref)))
  }

  lemma DeprivedIs(w: World, env: Env, lost: Env, key: Key, ref: string)
    requires LiveBinding(w, env, key) && LosesIdentity(w, lost, Key(key.namespace, ref))
    ensures var first, u, e := Reconcile(w, env, BindingRef(key)), Deprived(w, env, lost, key, ref),
                               Key(key.namespace, ref);
            && u == first.(entities := u.entities) && LiveBinding(u, env, key)
            && u.bindings[key].spec == w.bindings[key].spec
            && u.bindings[key].meta.finalizers == w.bindings[key].meta.finalizers + {OwnFinalizer}
            && e in u.entities && u.entities == w.entities[e := u.entities[e]] && !EntityUsable(u.entities[e])
            && OnlyRoles(w.(bindings := first.bindings), first)
  {
    hide Reconcile, OutcomesOf, BindingNext, Aborted, EntityUsable;
    LoopKeepsRemovalInputs(w, env, key);
    LostIdentity(Reconcile(w, env, BindingRef(key)), lost, Key(key.namespace, ref));
  }

  lemma DeprivedOutcomes(w: World, env: Env, lost: Env, key: Key, ref: string)
    requires LiveBinding(w, env, key) && LosesIdentity(w, lost, Key(key.namespace, ref))
    requires !Aborted(OutcomesOf(w, env, key))
    ensures var u := Deprived(w, env, lost, key, ref);
            key in u.bindings && !Aborted(OutcomesOf(u, env, key))
  {
    hide Reconcile, RefOutcomeOf, LosesIdentity, Deprived, EntityUsable;
    var u, spec := Deprived(w, env, lost, key, ref), w.bindings[key].spec;
    DeprivedIs(w, env, lost, key, ref);
    forall i | 0 <= i < |spec.refs| ensures OutcomesOf(u, env, key)[i].RefOutcome? {
      assert OutcomesOf(w, env, key)[i].RefOutcome?;
      if spec.refs[i] == ref {
        UnusableBlocked(u, env, key, spec, ref);
      } else {
        RefOutcomeAt(w, u, env, key, spec, spec.refs[i]);
      }
    }
  }

  lemma UnusableBlocked(w: World, env: Env, key: Key, spec: BindingSpec, ref: string)
    requires Key(key.namespace, ref) in w.entities && !EntityUsable(w.entities[Key(key.namespace, ref)])
    ensures RefOutcomeOf(w, env, key, spec, ref).RefOutcome?
    ensures forall n, slot :: !Reaches(w, env, key, ref, n, slot)
  {
    hide EntityUsable, BindingRoleName;
  }

  lemma DeprivedReaches(w: World, env: Env, lost: Env, key: Key, ref: string, s: string, n: string, slot: string)
    requires LiveBinding(w, env, key) && LosesIdentity(w, lost, Key(key.namespace, ref))
    ensures Reaches(Deprived(w, env, lost, key, ref), env, key, s, n, slot)
            <==> s != ref && Reaches(w, env, key, s, n, slot)
  {
    hide Reconcile, LosesIdentity, Deprived, EntityUsable, Reaches;
    var u := Deprived(w, env, lost, key, ref);
    DeprivedIs(w, env, lost, key, ref);
    if s == ref {
      UnusableBlocked(u, env, key, w.bindings[key].spec, ref);
    } else {
      ReachesFrame(w, u, env, key, s, n, slot);
    }
  }

  /**
   The references need not change: the binding is reconciled, then one of its entities fails to resolve its
   identity, then the binding is reconciled again, deleted and finalized. It is gone, and the role of that
   entity is still there, unchanged, exactly when no other reference gets through to its slot: the second
   reconcile has overwritten the entry that recorded it.
   */
  lemma DeprivedRoleStays(w: World, env: Env, lost: Env, key: Key, ref: string)
    requires LiveBinding(w, env, key) && w.bindings[key].meta.finalizers <= {OwnFinalizer}
    requires CanFinalize(w, env, key.namespace) && !Aborted(OutcomesOf(w, env, key))
    requires ref in w.bindings[key].spec.refs && Bindable(w, env, key, ref)
    requires LosesIdentity(w, lost, Key(key.namespace, ref))
    ensures var n, slot := InstanceFor(w, env, key, ref), SlotFor(w, env, key, ref);
            var first, v := Reconcile(w, env, BindingRef(key)), Undone(Deprived(w, env, lost, key, ref), env, key);
            && slot in RolesIn(first, n) && key !in v.bindings
            && (slot in RolesIn(v, n) <==>
                forall s | s in w.bindings[key].spec.refs && s != ref :: !Reaches(w, env, key, s, n, slot))
            && (slot in RolesIn(v, n) ==> RolesIn(v, n)[slot] == RolesIn(first, n)[slot])
  {
    hide Reconcile, OutcomesOf, Undone, Deprived, Reaches, Through, InstanceFor, SlotFor, RolesIn, Aborted,
      CanFinalize, LosesIdentity, EntityUsable, OnlyRoles;
    var n, slot := InstanceFor(w, env, key, ref), SlotFor(w, env, key, ref);
    var first, u := Reconcile(w, env, BindingRef(key)), Deprived(w, env, lost, key, ref);
    BoundRoleThere(w, env, key, ref);
    DeprivedIs(w, env, lost, key, ref);
    DeprivedOutcomes(w, env, lost, key, ref);
    SameTrusts(w, first);
    FinalizableAfter(w, u, env, key.namespace);
    DeleteUndoesReconcile(u, env, key, n, slot);
    SameBackendsRoles(first, u, n);
    forall s | s in w.bindings[key].spec.refs
      ensures Reaches(u, env, key, s, n, slot) <==> s != ref && Reaches(w, env, key, s, n, slot)
    {
      DeprivedReaches(w, env, lost, key, ref, s, n, slot);
    }
  }

  lemma SameTrusts(w: World, first: World)
    requires OnlyRoles(w.(bindings := first.bindings), first)
    ensures first.trusts == w.trusts
  {
  }

  lemma FinalizableAfter(w: World, u: World, env: Env, namespace: string)
    requires CanFinalize(w, env, namespace) && w.trusts == u.trusts
    ensures CanFinalize(u, env, namespace)
  {
  }

  // ---- It happens to every reference of every healthy service -----------------------------------

  lemma ServedBindable(w: World, env: Env, key: Key, spec: BindingSpec, ref: string)
    requires Quiet(env) && RefServed(w, env, key, spec, ref)
    ensures Bindable(w, env, key, ref)
  {
    hide BindingRoleName, EntityUsable, TrustUsable, Reachable;
  }

  lemma QuietRunsThrough(w: World, env: Env, key: Key, spec: BindingSpec)
    requires Quiet(env)
    ensures !Aborted(Outcomes(w, env, key, spec, spec.refs))
  {
    hide RefOutcomeOf;
    forall i | 0 <= i < |spec.refs| ensures RefOutcomeOf(w, env, key, spec, spec.refs[i]).RefOutcome? {
      QuietOutcome(w, env, key, spec, spec.refs[i]);
    }
  }

  lemma QuietOutcome(w: World, env: Env, key: Key, spec: BindingSpec, ref: string)
    requires Quiet(env)
    ensures RefOutcomeOf(w, env, key, spec, ref).RefOutcome?
  {
    hide BindingRoleName, IsTrue, TrustUsable, RefPastTrust;
    forall roleName, trust, subject ensures RefPastTrust(w, env, spec, ref, roleName, trust, subject).RefOutcome? {
      QuietPastTrust(w, env, spec, ref, roleName, trust, subject);
    }
  }

  lemma QuietPastTrust(w: World, env: Env, spec: BindingSpec, ref: string, roleName: string, trust: Trust,
                       subject: string)
    requires Quiet(env)
    ensures RefPastTrust(w, env, spec, ref, roleName, trust, subject).RefOutcome?
  {
    hide BoundRole, CheckOf, CheckMessage, Reachable;
  }

  /** A reference with another role name does not get to the slot. */
  lemma OtherNameMisses(w: World, env: Env, key: Key, ref: string, s: string, n: string)
    requires Through(w, env, key, ref) && BindingRoleName(env, key, s) != BindingRoleName(env, key, ref)
    ensures !Reaches(w, env, key, s, n, SlotFor(w, env, key, ref))
  {
    hide Through, TrustFor, RoleName, Slot;
    RoleNameIsName(env.sha, key.namespace, key.name + "-" + ref);
    RoleNameIsName(env.sha, key.namespace, key.name + "-" + s);
    if Reaches(w, env, key, s, n, SlotFor(w, env, key, ref)) {
      SlotOfNames(TrustFor(w, env, key, ref).status.authMountPath, BindingRoleName(env, key, ref),
                  TrustFor(w, env, key, s).status.authMountPath, BindingRoleName(env, key, s));
    }
  }

  lemma HealthyBindable(w: World, f: Specs, env: Env, done: set<Ref>, b: Key, ref: string)
    requires Healthy(w, f, env) && Closed(f, done) && AllAchieved(w, f, done)
    requires b in f.bindings && DependsOn(f, BindingRef(b)) <= done && ref in f.bindings[b].refs
    ensures LiveBinding(w, env, b) && w.bindings[b].spec == f.bindings[b] && Quiet(env)
    ensures Bindable(w, env, b, ref)
  {
    hide Healthy, Closed, AllAchieved, DependsOn, RefServed, Bindable, LiveBinding, Quiet;
    HealthyBinding(w, f, env, b);
    AllServed(w, f, env, done, b);
    ServedBindable(w, env, b, f.bindings[b], ref);
  }

  lemma HealthyLosesIdentity(w: World, f: Specs, env: Env, done: set<Ref>, e: Key)
    requires Healthy(w, f, env) && Closed(f, done) && AllAchieved(w, f, done) && EntityRef(e) in done
    ensures LosesIdentity(w, env.(tokens := map[]), e)
  {
    hide Healthy, AllAchieved, Closed, Resolves, Quiet, IsTrue, TokenReady, PlaceMounted, TrustAchieved, TrustUsable,
      Achieved, IssuerKnown;
    HealthyResolves(w, f, env);
    BelowEntity(w, f, done, e);
    EntityFinds(w, f, env, e);
    QuietIs(env);
    AchievedConfigured(w, f, Key(e.namespace, f.entities[e].trust));
    KnownThere(env, Key(e.namespace, w.trusts[Key(e.namespace, f.entities[e].trust)].spec.controlPlane));
  }

  lemma AchievedConfigured(w: World, f: Specs, t: Key)
    requires t in w.trusts && TrustAchieved(w.trusts[t], f, t)
    ensures IsTrue(w.trusts[t].status.conditions, TrustConfigured)
  {
  }

  lemma KnownThere(env: Env, c: Key)
    requires IssuerKnown(env, c)
    ensures c in env.controlPlanes
  {
  }

  lemma QuietIs(env: Env)
    requires Quiet(env)
    ensures env.faults == {} && env.mountPrefix.Some?
  {
  }

  /** The binding is gone, and a role is still where the reference got through to. */
  predicate LeftBehind(w: World, env: Env, key: Key, ref: string, v: World) {
    && key !in v.bindings && Through(w, env, key, ref)
    && SlotFor(w, env, key, ref) in RolesIn(v, InstanceFor(w, env, key, ref))
  }

  /**
   In every healthy service that has come up, take any binding and any of its references with a role name of
   its own. Point the binding elsewhere, or let a token be refused once, before the next reconcile: when the
   binding has then been deleted and finalized without any failure, the role is still there.
   */
  lemma HealthyServiceKeepsRole(w: World, f: Specs, env: Env, done: set<Ref>, b: Key, ref: string, spec: BindingSpec)
    requires Healthy(w, f, env) && Closed(f, done) && AllAchieved(w, f, done)
    requires b in f.bindings && DependsOn(f, BindingRef(b)) <= done && ref in f.bindings[b].refs
    requires CanFinalize(w, env, b.namespace) && b in w.bindings && w.bindings[b].meta.finalizers <= {OwnFinalizer}
    requires forall s | s in f.bindings[b].refs && s != ref ::
               BindingRoleName(env, b, s) != BindingRoleName(env, b, ref)
    requires forall s | s in spec.refs :: BindingRoleName(env, b, s) != BindingRoleName(env, b, ref)
    ensures LeftBehind(w, env, b, ref, Undone(Repointed(w, env, b, spec), env, b))
    ensures LeftBehind(w, env, b, ref, Undone(Deprived(w, env, env.(tokens := map[]), b, ref), env, b))
  {
    hide Healthy, Closed, AllAchieved, DependsOn, Through, LiveBinding, Quiet, CanFinalize, OutcomesOf, Outcomes,
      Aborted, Reaches, Undone, Repointed, Deprived, InstanceFor, SlotFor, RolesIn, BindingRoleName, LosesIdentity;
    HealthyBindable(w, f, env, done, b, ref);
    QuietRunsThrough(w, env, b, f.bindings[b]);
    QuietRunsThrough(w, env, b, spec);
    ReferenceIn(f, done, b, ref);
    HealthyLosesIdentity(w, f, env, done, Key(b.namespace, ref));
    OutcomesOfSpec(w, env, b);
    var n := InstanceFor(w, env, b, ref);
    forall s | BindingRoleName(env, b, s) != BindingRoleName(env, b, ref)
      ensures !Reaches(w, env, b, s, n, SlotFor(w, env, b, ref))
    {
      OtherNameMisses(w, env, b, ref, s, n);
    }
    EditedAwayRoleStays(w, env, b, spec, ref);
    DeprivedRoleStays(w, env, env.(tokens := map[]), b, ref);
  }

  lemma OutcomesOfSpec(w: World, env: Env, b: Key)
    requires b in w.bindings
    ensures OutcomesOf(w, env, b) == Outcomes(w, env, b, w.bindings[b].spec, w.bindings[b].spec.refs)
  {
  }
}
