/** Settled objects in a healthy, frozen service, and that nothing any reconcile does unsettles them. */
module Settling {
  import opened Wrappers
  import opened Text
  import opened Naming
  import opened Identity
  import opened Conditions
  import opened Backend
  import opened Api
  import opened Plans
  import opened Frames
  import opened TrustSafety
  import opened BindingEffects
  import opened BindingLoop
  import opened Idempotence
  import opened Runs

  // ---- The frozen specs ---------------------------------------------------------------------------------

  datatype Specs = Specs(base: Frozen, entities: map<Key, EntitySpec>, bindings: map<Key, BindingSpec>)

  /** The world has exactly the objects of the specs, none marked for deletion. */
  predicate Matches(w: World, f: Specs) {
    && w.instances.Keys == f.base.instances.Keys && w.projectEntities.Keys == f.base.projectEntities.Keys
    && w.trusts.Keys == f.base.trusts.Keys && w.entities.Keys == f.entities.Keys && w.bindings.Keys == f.bindings.Keys
    && (forall n | n in w.instances :: w.instances[n].spec == f.base.instances[n] && !w.instances[n].meta.deleting)
    && (forall k | k in w.projectEntities ::
          w.projectEntities[k].spec == f.base.projectEntities[k] && !w.projectEntities[k].meta.deleting)
    && (forall k | k in w.trusts :: w.trusts[k].spec == f.base.trusts[k] && !w.trusts[k].meta.deleting)
    && (forall k | k in w.entities :: w.entities[k].spec == f.entities[k] && !w.entities[k].meta.deleting)
    && (forall k | k in w.bindings :: w.bindings[k].spec == f.bindings[k] && !w.bindings[k].meta.deleting)
  }

  /** Every reference in a spec names an object of the specs. */
  predicate Resolves(f: Specs) {
    && "" !in f.base.instances
    && (forall k | k in f.base.projectEntities :: f.base.projectEntities[k].instance in f.base.instances)
    && (forall k | k in f.base.trusts :: f.base.trusts[k].projectEntity in f.base.projectEntities)
    && (forall k | k in f.entities :: Key(k.namespace, f.entities[k].trust) in f.base.trusts)
    && (forall k, ref | k in f.bindings && ref in f.bindings[k].refs :: Key(k.namespace, ref) in f.entities)
  }

  predicate Present(f: Specs, ref: Ref) {
    match ref
    case InstanceRef(n) => n in f.base.instances
    case ProjectEntityRef(k) => k in f.base.projectEntities
    case TrustRef(k) => k in f.base.trusts
    case EntityRef(k) => k in f.entities
    case BindingRef(k) => k in f.bindings
    case ControlPlaneRef(_) => false
  }

  /** The objects whose status or spec an object's reconcile reads first. */
  function DependsOn(f: Specs, ref: Ref): set<Ref>
    requires Present(f, ref)
  {
    match ref
    case InstanceRef(_) => {}
    case ProjectEntityRef(k) => {InstanceRef(f.base.projectEntities[k].instance)}
    case TrustRef(k) => {ProjectEntityRef(f.base.trusts[k].projectEntity)}
    case EntityRef(k) => {TrustRef(Key(k.namespace, f.entities[k].trust))}
    case BindingRef(k) => set ref | ref in f.bindings[k].refs :: EntityRef(Key(k.namespace, ref))
  }

  predicate Closed(f: Specs, done: set<Ref>) {
    forall ref | ref in done :: Present(f, ref) && DependsOn(f, ref) <= done
  }

  function InstanceOf(f: Specs, t: Key): string {
    if t in f.base.trusts && f.base.trusts[t].projectEntity in f.base.projectEntities then
      f.base.projectEntities[f.base.trusts[t].projectEntity].instance
    else ""
  }

  // ---- Names ----------------------------------------------------------------------------------------------

  function RoleOf(f: Specs, b: Key, ref: string): string {
    RoleName(f.base.sha, b.namespace, b.name + "-" + ref)
  }

  /** No two references, of one binding or of two, share a role name, and none is listed twice. */
  predicate RolesApart(f: Specs) {
    && (forall b | b in f.bindings ::
          forall i, j | 0 <= i < j < |f.bindings[b].refs| :: f.bindings[b].refs[i] != f.bindings[b].refs[j])
    && (forall b, c, r, s | b in f.bindings && c in f.bindings && r in f.bindings[b].refs && s in f.bindings[c].refs
                            && (b != c || r != s) :: RoleOf(f, b, r) != RoleOf(f, c, s))
  }

  // ---- Writes that are done, and whose writes they are --------------------------------------------------------

  /** The world already is as the write would leave it. */
  predicate Done(w: World, x: Write) {
    match x
    case PutInstance(n, st) => n in w.instances && w.instances[n].status == st
    case PutProjectEntity(k, st) => k in w.projectEntities && w.projectEntities[k].status == st
    case PutTrust(k, st) => k in w.trusts && w.trusts[k].status == st
    case PutEntity(k, st) => k in w.entities && w.entities[k].status == st
    case PutBinding(k, st) => k in w.bindings && w.bindings[k].status == st
    case WriteEntity(n, name) => n in w.backends && name in w.backends[n].entities && w.backends[n].entities[name] != ""
    case WriteMount(n, path) => n in w.backends && path in w.backends[n].mounts
    case WriteConfig(n, path, c) =>
      n in w.backends && path in w.backends[n].mounts && path in w.backends[n].configs
        && w.backends[n].configs[path] == c
    case WriteRole(n, path, r) =>
      && n in w.backends && path in w.backends[n].mounts
      && Slot(path, r.name) in w.backends[n].roles && w.backends[n].roles[Slot(path, r.name)] == r
    case _ => false
  }

  /** The write is one the object's reconcile may make, at the places of its own specs. */
  predicate Owns(f: Specs, ref: Ref, x: Write) {
    match x
    case PutInstance(n, _) => ref == InstanceRef(n)
    case PutProjectEntity(k, _) => ref == ProjectEntityRef(k)
    case PutTrust(k, _) => ref == TrustRef(k)
    case PutEntity(k, _) => ref == EntityRef(k)
    case PutBinding(k, _) => ref == BindingRef(k)
    case AddTrustFinalizer(k) => ref == TrustRef(k)
    case AddBindingFinalizer(k) => ref == BindingRef(k)
    case WriteEntity(_, _) => ref.ProjectEntityRef?
    case WriteMount(_, _) => ref.TrustRef?
    case WriteConfig(n, path, _) => ref.TrustRef? && PlaceOf(f.base, ref.key) == Some(Place(n, path))
    case WriteRole(_, _, r) =>
      && ref.BindingRef? && ref.key in f.bindings && '/' !in r.name
      && exists s | s in f.bindings[ref.key].refs :: RoleOf(f, ref.key, s) == r.name
    case _ => false
  }

  // ---- What a foreign write leaves alone -------------------------------------------------------------------------

  /** What reconciles read of a backend stays, mounts and named entities are only added. */
  predicate Grows(s: State, t: State) {
    && t.health == s.health && t.healthErr == s.healthErr && t.policies == s.policies
    && t.policiesUnknown == s.policiesUnknown
    && s.mounts <= t.mounts
    && (forall name | name in s.entities && s.entities[name] != "" ::
          name in t.entities && t.entities[name] == s.entities[name])
  }

  predicate BackendsGrow(w: World, v: World) {
    w.backends.Keys == v.backends.Keys && forall n | n in w.backends :: Grows(w.backends[n], v.backends[n])
  }

  /** The object is the same in both worlds. */
  ghost predicate SameObject(w: World, v: World, ref: Ref) {
    match ref
    case InstanceRef(n) => SameAt(w.instances, v.instances, n)
    case ProjectEntityRef(k) => SameAt(w.projectEntities, v.projectEntities, k)
    case TrustRef(k) => SameAt(w.trusts, v.trusts, k)
    case EntityRef(k) => SameAt(w.entities, v.entities, k)
    case BindingRef(k) => SameAt(w.bindings, v.bindings, k)
    case ControlPlaneRef(_) => true
  }

  lemma EntityGrows(s: State, name: string)
    ensures Grows(s, WithEntity(s, name))
  {
  }

  lemma RestGrows(s: State, t: State)
    requires t == s.(mounts := t.mounts, configs := t.configs, roles := t.roles) && s.mounts <= t.mounts
    ensures Grows(s, t)
  {
  }

  lemma CallGrows(f: Specs, actor: Ref, s: State, x: Write)
    requires Owns(f, actor, x) && IsBackendWrite(x)
    ensures Grows(s, OnBackend(s, x))
  {
    hide RoleOf, PlaceOf, Slot, Grows;
    if x.WriteEntity? {
      EntityGrows(s, x.name);
    } else {
      RestGrows(s, OnBackend(s, x));
    }
  }

  lemma WriteGrows(f: Specs, actor: Ref, w: World, x: Write)
    requires Owns(f, actor, x)
    ensures BackendsGrow(w, Apply(w, x))
  {
    hide Apply, OnBackend, Owns, Grows;
    ApplyParts(w, x);
    forall n | n in w.backends ensures Grows(w.backends[n], Apply(w, x).backends[n]) {
      if IsBackendWrite(x) && x.backend == n {
        CallGrows(f, actor, w.backends[n], x);
      } else {
        GrowsItself(w.backends[n]);
      }
    }
  }

  lemma GrowsItself(s: State)
    ensures Grows(s, s)
  {
  }

  lemma PutSpares(w: World, x: Write, ref: Ref)
    requires x.PutInstance? || x.PutProjectEntity? || x.PutTrust? || x.PutEntity? || x.PutBinding?
    requires x.PutInstance? ==> ref.InstanceRef? && ref.name != x.instance
    requires x.PutProjectEntity? ==> ref.ProjectEntityRef? && ref.key != x.key
    requires x.PutTrust? ==> ref.TrustRef? && ref.key != x.key
    requires x.PutEntity? ==> ref.EntityRef? && ref.key != x.key
    requires x.PutBinding? ==> ref.BindingRef? && ref.key != x.key
    ensures SameObject(w, Apply(w, x), ref)
  {
    hide OnBackend, ReleasedTrust, ReleasedBinding, ApplyBackend, Held;
  }

  lemma HoldSpares(w: World, x: Write, k: Key)
    requires (x.AddTrustFinalizer? || x.AddBindingFinalizer?) && k != x.key
    ensures SameAt(w.trusts, Apply(w, x).trusts, k) && SameAt(w.bindings, Apply(w, x).bindings, k)
  {
    hide OnBackend, ReleasedTrust, ReleasedBinding, ApplyBackend, Held;
  }

  lemma ForeignWriteSpares(f: Specs, actor: Ref, ref: Ref, w: World, x: Write)
    requires Owns(f, actor, x) && ref != actor
    ensures SameObject(w, Apply(w, x), ref)
  {
    hide RoleOf, PlaceOf, Slot, Apply;
    ApplyParts(w, x);
    match x
    case PutInstance(_, _) => if ref.InstanceRef? { PutSpares(w, x, ref); }
    case PutProjectEntity(_, _) => if ref.ProjectEntityRef? { PutSpares(w, x, ref); }
    case PutTrust(_, _) => if ref.TrustRef? { PutSpares(w, x, ref); }
    case PutEntity(_, _) => if ref.EntityRef? { PutSpares(w, x, ref); }
    case PutBinding(_, _) => if ref.BindingRef? { PutSpares(w, x, ref); }
    case AddTrustFinalizer(_) => if ref.TrustRef? { HoldSpares(w, x, ref.key); }
    case AddBindingFinalizer(_) => if ref.BindingRef? { HoldSpares(w, x, ref.key); }
    case _ =>
  }

  lemma OwnWriteMatches(f: Specs, actor: Ref, w: World, x: Write)
    requires Owns(f, actor, x) && Matches(w, f)
    ensures Matches(Apply(w, x), f)
  {
    hide RoleOf, PlaceOf, Slot, OnBackend, ReleasedTrust, ReleasedBinding;
    if IsBackendWrite(x) {
      hide Apply;
      ApplyParts(w, x);
    } else if x.AddTrustFinalizer? || x.AddBindingFinalizer? {
      FinalizerMatches(f, w, x);
    } else {
      StatusMatches(f, w, x);
    }
  }

  lemma FinalizerMatches(f: Specs, w: World, x: Write)
    requires Matches(w, f) && (x.AddTrustFinalizer? || x.AddBindingFinalizer?)
    ensures Matches(Apply(w, x), f)
  {
    hide OnBackend, ReleasedTrust, ReleasedBinding, ApplyBackend;
  }

  lemma StatusMatches(f: Specs, w: World, x: Write)
    requires Matches(w, f)
    requires x.PutInstance? || x.PutProjectEntity? || x.PutTrust? || x.PutEntity? || x.PutBinding?
    ensures Matches(Apply(w, x), f)
  {
    hide Apply, Matches;
    if x.PutInstance? || x.PutProjectEntity? {
      UpperStatusMatches(f, w, x);
    } else {
      LowerStatusMatches(f, w, x);
    }
  }

  lemma UpperStatusMatches(f: Specs, w: World, x: Write)
    requires Matches(w, f) && (x.PutInstance? || x.PutProjectEntity?)
    ensures Matches(Apply(w, x), f)
  {
    hide OnBackend, ReleasedTrust, ReleasedBinding, ApplyBackend, Held;
  }

  lemma LowerStatusMatches(f: Specs, w: World, x: Write)
    requires Matches(w, f) && (x.PutTrust? || x.PutEntity? || x.PutBinding?)
    ensures Matches(Apply(w, x), f)
  {
    hide OnBackend, ReleasedTrust, ReleasedBinding, ApplyBackend, Held;
  }

  // ---- Done stays done ---------------------------------------------------------------------------------------------

  lemma PutStays(f: Specs, actor: Ref, ref: Ref, w: World, x: Write, y: Write)
    requires Owns(f, actor, x) && Owns(f, ref, y) && ref != actor && Done(w, y)
    requires !IsBackendWrite(y)
    ensures Done(Apply(w, x), y)
  {
    hide Apply, RoleOf, PlaceOf;
    ForeignWriteSpares(f, actor, ref, w, x);
  }

  lemma ConfigCallStays(s: State, x: Write, path: string, c: JWTAuthConfig)
    requires path in s.mounts && path in s.configs && s.configs[path] == c
    requires !x.RemoveMount? && (x.WriteConfig? ==> x.path != path)
    ensures var t := OnBackend(s, x); path in t.mounts && path in t.configs && t.configs[path] == c
  {
  }

  lemma ConfigStays(f: Specs, actor: Ref, ref: Ref, w: World, x: Write, y: Write)
    requires "" !in f.base.instances && Apart(f.base) && Owns(f, actor, x) && Owns(f, ref, y) && ref != actor
             && Done(w, y)
    requires y.WriteConfig?
    ensures Done(Apply(w, x), y)
  {
    hide Apply, RoleOf, PlaceOf, OnBackend, Apart;
    ApplyParts(w, x);
    if IsBackendWrite(x) && x.backend == y.backend {
      if x.WriteConfig? && x.path == y.path {
        PlacesDiffer(f.base, actor.key, ref.key);
      }
      ConfigCallStays(w.backends[y.backend], x, y.path, y.config);
    }
  }

  lemma PlacesDiffer(f: Frozen, j: Key, k: Key)
    requires "" !in f.instances && Apart(f) && j != k && PlaceOf(f, j).Some?
    ensures PlaceOf(f, j) != PlaceOf(f, k)
  {
  }

  lemma RoleCallStays(s: State, x: Write, path: string, r: JWTRole)
    requires path in s.mounts && Slot(path, r.name) in s.roles && s.roles[Slot(path, r.name)] == r
    requires !x.RemoveMount? && !x.RemoveRole?
    requires x.WriteRole? ==> Slot(x.path, x.role.name) != Slot(path, r.name)
    ensures var t := OnBackend(s, x);
            path in t.mounts && Slot(path, r.name) in t.roles && t.roles[Slot(path, r.name)] == r
  {
    hide Slot;
  }

  lemma RoleStays(f: Specs, actor: Ref, ref: Ref, w: World, x: Write, y: Write)
    requires RolesApart(f) && Owns(f, actor, x) && Owns(f, ref, y) && ref != actor && Done(w, y)
    requires y.WriteRole?
    ensures Done(Apply(w, x), y)
  {
    hide Apply, RoleOf, PlaceOf, OnBackend, Slot, RolesApart;
    ApplyParts(w, x);
    if IsBackendWrite(x) && x.backend == y.backend {
      if x.WriteRole? {
        RoleNamesDiffer(f, actor, ref, x, y);
        SlotOfNames(x.path, x.role.name, y.path, y.role.name);
      }
      RoleCallStays(w.backends[y.backend], x, y.path, y.role);
    }
  }

  lemma RoleNamesDiffer(f: Specs, actor: Ref, ref: Ref, x: Write, y: Write)
    requires RolesApart(f) && Owns(f, actor, x) && Owns(f, ref, y) && ref != actor && x.WriteRole? && y.WriteRole?
    ensures x.role.name != y.role.name
  {
    hide RoleOf;
    var r :| r in f.bindings[actor.key].refs && RoleOf(f, actor.key, r) == x.role.name;
    var s :| s in f.bindings[ref.key].refs && RoleOf(f, ref.key, s) == y.role.name;
    assert RoleOf(f, actor.key, r) != RoleOf(f, ref.key, s);
  }

  /** With places and role names apart, no object's write undoes what another's did. */
  lemma DoneStays(f: Specs, actor: Ref, ref: Ref, w: World, x: Write, y: Write)
    requires "" !in f.base.instances && Apart(f.base) && RolesApart(f)
    requires Owns(f, actor, x) && Owns(f, ref, y) && ref != actor && Done(w, y)
    ensures Done(Apply(w, x), y)
  {
    hide Apply, Owns, Apart, RolesApart, Grows;
    if !IsBackendWrite(y) {
      PutStays(f, actor, ref, w, x, y);
    } else if y.WriteConfig? {
      ConfigStays(f, actor, ref, w, x, y);
    } else if y.WriteRole? {
      RoleStays(f, actor, ref, w, x, y);
    } else {
      GrownStays(f, actor, w, x, y);
    }
  }

  lemma GrownStays(f: Specs, actor: Ref, w: World, x: Write, y: Write)
    requires Owns(f, actor, x) && Done(w, y) && (y.WriteEntity? || y.WriteMount?)
    ensures Done(Apply(w, x), y)
  {
    hide Apply, Owns;
    WriteGrows(f, actor, w, x);
  }

  // ---- A healthy service -----------------------------------------------------------------------------------------

  /** Nothing fails: no read, no call, and the configuration is there. */
  predicate Quiet(env: Env) {
    env.faults == {} && env.callErrors == map[] && env.accessErrors == map[] && env.mountPrefix.Some?
  }

  /** Nothing fails, every control plane has an issuer, every service account a token with a subject. */
  ghost predicate EnvHealthy(f: Specs, env: Env) {
    && EnvConforms(env, f.base) && Quiet(env)
    && (forall k | k in f.base.trusts :: IssuerKnown(env, Key(k.namespace, f.base.trusts[k].controlPlane)))
    && (forall k | k in f.entities && Key(k.namespace, f.entities[k].trust) in f.base.trusts ::
          TokenReady(env, k.namespace, f.entities[k], f.base.trusts[Key(k.namespace, f.entities[k].trust)]))
  }

  predicate IssuerKnown(env: Env, controlPlane: Key) {
    controlPlane in env.controlPlanes && ControlPlaneIssuer(env.controlPlanes[controlPlane]) != ""
  }

  predicate TokenReady(env: Env, namespace: string, spec: EntitySpec, trust: TrustSpec) {
    var req := TokenRequest(Key(namespace, trust.controlPlane), spec.saNamespace, spec.saName,
                            ResolveControlPlaneAudience(trust.audience));
    && TrimSpace(spec.saNamespace) != "" && TrimSpace(spec.saName) != ""
    && req in env.tokens && env.tokens[req].subject != ""
  }

  predicate Up(s: State) {
    s.healthErr == None && s.health.initialized && !s.health.sealed && !s.policiesUnknown
  }

  /** Each instance has an unsealed backend, and each binding's policy is in every backend it reaches. */
  predicate Operational(w: World, f: Specs) {
    && (forall n | n in f.base.instances :: n in w.backends && Up(w.backends[n]))
    && (forall b, ref | b in f.bindings && ref in f.bindings[b].refs :: PolicyThere(w, f, b, ref))
  }

  predicate PolicyThere(w: World, f: Specs, b: Key, ref: string) {
    b in f.bindings && Key(b.namespace, ref) in f.entities &&
    var n := InstanceOf(f, Key(b.namespace, f.entities[Key(b.namespace, ref)].trust));
    n in w.backends && f.bindings[b].policyName in w.backends[n].policies
  }

  ghost predicate Healthy(w: World, f: Specs, env: Env) {
    Resolves(f) && Matches(w, f) && EnvHealthy(f, env) && Operational(w, f)
  }

  lemma GrownOperational(w: World, v: World, f: Specs)
    requires Operational(w, f) && BackendsGrow(w, v)
    ensures Operational(v, f)
  {
    hide InstanceOf, Resolves;
    forall b, ref | b in f.bindings && ref in f.bindings[b].refs ensures PolicyThere(v, f, b, ref) {
      assert PolicyThere(w, f, b, ref);
    }
  }

  lemma OwnWriteHealthy(f: Specs, env: Env, actor: Ref, w: World, x: Write)
    requires Owns(f, actor, x) && Healthy(w, f, env)
    ensures Healthy(Apply(w, x), f, env)
  {
    hide Apply, Owns, Matches, EnvHealthy, Operational, BackendsGrow;
    OwnWriteMatches(f, actor, w, x);
    WriteGrows(f, actor, w, x);
    GrownOperational(w, Apply(w, x), f);
  }

  // ---- Settled objects -------------------------------------------------------------------------------------------

  /** Ready, and with the status that dependents need. */
  predicate Achieved(w: World, f: Specs, ref: Ref) {
    match ref
    case InstanceRef(n) => n in w.instances && IsTrue(w.instances[n].status.conditions, Ready)
                           && Reachable(w.instances[n])
    case ProjectEntityRef(k) => k in w.projectEntities && IsTrue(w.projectEntities[k].status.conditions, Ready)
    case TrustRef(k) => k in w.trusts && TrustAchieved(w.trusts[k], f, k) && PlaceMounted(w, f, k)
    case EntityRef(k) => k in w.entities && IsTrue(w.entities[k].status.conditions, Ready)
                         && EntityUsable(w.entities[k])
    case BindingRef(k) => k in w.bindings && IsTrue(w.bindings[k].status.conditions, Ready)
    case ControlPlaneRef(_) => false
  }

  predicate TrustAchieved(o: Trust, f: Specs, k: Key) {
    && k in f.base.trusts
    && IsTrue(o.status.conditions, Ready) && TrustUsable(o)
    && PlaceOf(f.base, k) == Some(Place(o.status.resolved, o.status.authMountPath))
    && o.status.audience == ResolveControlPlaneAudience(f.base.trusts[k].audience)
  }

  predicate PlaceMounted(w: World, f: Specs, k: Key) {
    var p := PlaceOf(f.base, k);
    p.Some? && p.value.instance in w.backends && p.value.path in w.backends[p.value.instance].mounts
  }

  /** The writes whose content others may overwrite. */
  predicate Content(x: Write) {
    x.WriteConfig? || x.WriteRole?
  }

  /**
   Nothing is left to report: the object is Ready, and but for configs and roles all its reconcile writes is
   there.
   */
  predicate Reported(w: World, f: Specs, env: Env, ref: Ref) {
    Achieved(w, f, ref) && forall x | x in Plan(w, env, ref) :: Content(x) || Done(w, x)
  }

  /** Nothing is left to do: the object is Ready and all its reconcile would write is there. */
  predicate Settled(w: World, f: Specs, env: Env, ref: Ref) {
    Achieved(w, f, ref) && forall x | x in Plan(w, env, ref) :: Done(w, x)
  }

  lemma SettledReported(w: World, f: Specs, env: Env, ref: Ref)
    requires Settled(w, f, env, ref)
    ensures Reported(w, f, env, ref)
  {
  }

  lemma AchievedStays(w: World, v: World, f: Specs, ref: Ref)
    requires SameObject(w, v, ref) && BackendsGrow(w, v) && Achieved(w, f, ref)
    ensures Achieved(v, f, ref)
  {
    hide IsTrue, Reachable, EntityUsable, TrustAchieved, PlaceOf;
  }

  /** What is done and is not content stays done while the object is the same and the backends grow. */
  lemma ReportStays(f: Specs, ref: Ref, w: World, v: World, y: Write)
    requires SameObject(w, v, ref) && BackendsGrow(w, v) && Owns(f, ref, y) && !Content(y) && Done(w, y)
    ensures Done(v, y)
  {
    hide PlaceOf, RoleOf;
  }

  // ---- The plan of a settled object over settled dependencies stays -----------------------------

  lemma InstancePlanStays(w: World, v: World, env: Env, n: string)
    requires SameAt(w.instances, v.instances, n) && BackendsGrow(w, v)
    ensures InstancePlan(w, env, n) == InstancePlan(v, env, n)
  {
    hide InstanceFailed, InstanceProbed;
  }

  lemma EnrolGate(w: World, env: Env, k: Key, o: ProjectEntity)
    requires Quiet(env) && o.spec.instance in w.instances && Reachable(w.instances[o.spec.instance])
             && o.spec.instance in w.backends
    ensures ProjectEntityGateOf(w, env, k, o)
            == ProjectEntityEnrols(o.spec.instance, EntityName(env.sha, k.namespace, k.name),
                                   o.status.(observed := o.meta.generation, resolved := o.spec.instance))
  {
    hide ProjectEntityBlocked, Reachable, EntityName;
  }

  lemma EnrolPlan(w: World, env: Env, k: Key)
    requires Quiet(env) && k in w.projectEntities && !w.projectEntities[k].meta.deleting
    requires var n := w.projectEntities[k].spec.instance;
             n in w.instances && Reachable(w.instances[n]) && n in w.backends
    ensures var o, name := w.projectEntities[k], EntityName(env.sha, k.namespace, k.name);
            var n, g := o.spec.instance, o.meta.generation;
            var st := ProjectEntityDone(o.status.(observed := g, resolved := n), g, EntityID(BackendOf(w, n), name));
            ProjectEntityPlan(w, env, k) == [WriteEntity(n, name), PutProjectEntity(k, st)]
  {
    hide ProjectEntityGateOf, ProjectEntityDone, EntityID, EntityName, Reachable, BackendOf;
    EnrolGate(w, env, k, w.projectEntities[k]);
  }

  lemma NamedStays(s: State, t: State, name: string)
    requires Grows(s, t) && name in s.entities && s.entities[name] != ""
    ensures EntityID(s, name) == EntityID(t, name)
  {
  }

  lemma EnrolledStays(w: World, v: World, env: Env, k: Key)
    requires Quiet(env) && k in w.projectEntities && !w.projectEntities[k].meta.deleting && BackendsGrow(w, v)
    requires var n := w.projectEntities[k].spec.instance;
             n in w.instances && Reachable(w.instances[n]) && n in w.backends
    requires forall x | x in ProjectEntityPlan(w, env, k) :: Content(x) || Done(w, x)
    ensures var n, name := w.projectEntities[k].spec.instance, EntityName(env.sha, k.namespace, k.name);
            EntityID(BackendOf(w, n), name) == EntityID(BackendOf(v, n), name)
  {
    hide ProjectEntityPlan, ProjectEntityDone, EntityID, EntityName, Reachable, Grows;
    var n, name := w.projectEntities[k].spec.instance, EntityName(env.sha, k.namespace, k.name);
    EnrolPlan(w, env, k);
    assert Done(w, WriteEntity(n, name));
    NamedStays(w.backends[n], v.backends[n], name);
  }

  /** The objects a settled object depends on, directly or not, are untouched; and they are achieved. */
  ghost predicate Grounded(w: World, v: World, f: Specs, ref: Ref) {
    && Present(f, ref)
    && SameObject(w, v, ref)
    && match ref
       case ProjectEntityRef(k) => GroundedInstance(w, v, f, f.base.projectEntities[k].instance)
       case TrustRef(k) => GroundedTrust(w, v, f, k)
       case EntityRef(k) => GroundedEntity(w, v, f, k)
       case BindingRef(k) => forall s | s in f.bindings[k].refs :: GroundedEntity(w, v, f, Key(k.namespace, s))
       case _ => true
  }

  ghost predicate GroundedInstance(w: World, v: World, f: Specs, n: string) {
    SameAt(w.instances, v.instances, n) && n in w.instances && Reachable(w.instances[n])
  }

  ghost predicate GroundedTrust(w: World, v: World, f: Specs, k: Key) {
    && k in f.base.trusts && SameAt(w.projectEntities, v.projectEntities, f.base.trusts[k].projectEntity)
    && GroundedInstance(w, v, f, InstanceOf(f, k))
  }

  ghost predicate GroundedEntity(w: World, v: World, f: Specs, k: Key) {
    k in f.entities &&
    var t := Key(k.namespace, f.entities[k].trust);
    && SameAt(w.entities, v.entities, k) && SameAt(w.trusts, v.trusts, t)
    && GroundedTrust(w, v, f, t) && t in w.trusts && TrustAchieved(w.trusts[t], f, t) && PlaceMounted(w, f, t)
  }

  lemma PlacedAt(f: Specs, t: Key)
    requires Resolves(f) && t in f.base.trusts
    ensures PlaceOf(f.base, t).Some? && PlaceOf(f.base, t).value.instance == InstanceOf(f, t)
  {
  }

  lemma AchievedInputs(w: World, v: World, f: Specs, t: Key)
    requires Resolves(f) && t in f.base.trusts && BackendsGrow(w, v) && t in w.trusts
    requires TrustAchieved(w.trusts[t], f, t) && PlaceMounted(w, f, t)
    ensures w.trusts[t].status.resolved == InstanceOf(f, t) && SameBackendInputs(w, v, w.trusts[t])
  {
    hide IsTrue, TrustUsable, PlaceOf, InstanceOf, Resolves;
    PlacedAt(f, t);
  }

  lemma EntitySpecOf(w: World, f: Specs, k: Key)
    requires Matches(w, f) && k in f.entities
    ensures k in w.entities && w.entities[k].spec == f.entities[k]
  {
  }

  lemma RefStays(w: World, v: World, f: Specs, env: Env, b: Key, ref: string)
    requires Resolves(f) && Matches(w, f) && BackendsGrow(w, v) && b in f.bindings && ref in f.bindings[b].refs
    requires GroundedEntity(w, v, f, Key(b.namespace, ref))
    ensures RefOutcomeOf(w, env, b, f.bindings[b], ref) == RefOutcomeOf(v, env, b, f.bindings[b], ref)
  {
    hide RefOutcomeOf, Reachable, TrustAchieved, PlaceMounted, InstanceOf, SameBackendInputs, Matches, Resolves, Grows;
    var e := Key(b.namespace, ref);
    EntitySpecOf(w, f, e);
    AchievedInputs(w, v, f, Key(b.namespace, f.entities[e].trust));
    RefOutcomeAt(w, v, env, b, f.bindings[b], ref);
  }

  lemma SameOutcomesSamePlan(w: World, v: World, env: Env, b: Key)
    requires SameAt(w.bindings, v.bindings, b) && b in w.bindings && !w.bindings[b].meta.deleting
    requires OutcomesOf(w, env, b) == Outcomes(v, env, b, w.bindings[b].spec, w.bindings[b].spec.refs)
    ensures BindingPlan(w, env, b) == BindingPlan(v, env, b)
  {
    hide Outcomes, LoopWrites, BindingNext, Aborted, BindingTeardown;
  }

  lemma BindingPlanStays(w: World, v: World, f: Specs, env: Env, b: Key)
    requires Resolves(f) && Matches(w, f) && BackendsGrow(w, v) && b in f.bindings && Grounded(w, v, f, BindingRef(b))
    ensures BindingPlan(w, env, b) == BindingPlan(v, env, b)
  {
    hide RefOutcomeOf, BindingPlan, GroundedEntity, BackendsGrow, Resolves;
    var spec := f.bindings[b];
    forall i | 0 <= i < |spec.refs|
      ensures RefOutcomeOf(w, env, b, spec, spec.refs[i]) == RefOutcomeOf(v, env, b, spec, spec.refs[i])
    {
      assert spec.refs[i] in spec.refs;
      RefStays(w, v, f, env, b, spec.refs[i]);
    }
    assert Outcomes(w, env, b, spec, spec.refs) == Outcomes(v, env, b, spec, spec.refs);
    SameOutcomesSamePlan(w, v, env, b);
  }

  lemma ProjectEntityStays(w: World, v: World, f: Specs, env: Env, k: Key)
    requires Healthy(w, f, env) && BackendsGrow(w, v) && Reported(w, f, env, ProjectEntityRef(k))
    requires Grounded(w, v, f, ProjectEntityRef(k))
    ensures ProjectEntityPlan(w, env, k) == ProjectEntityPlan(v, env, k)
  {
    hide ProjectEntityPlan, Grows, EntityID, EntityName, Reachable, Up, BackendOf, PolicyThere, Achieved, Done, Content;
    EnrolledStays(w, v, env, k);
    ProjectEntityPlanFrame(w, v, env, k);
  }

  lemma TrustStays(w: World, v: World, f: Specs, env: Env, k: Key)
    requires Resolves(f) && Matches(w, f) && BackendsGrow(w, v) && k in f.base.trusts && Grounded(w, v, f, TrustRef(k))
    ensures TrustPlan(w, env, k) == TrustPlan(v, env, k)
  {
    hide TrustPlan, Grows, Reachable;
    TrustPlanFrame(w, v, env, k);
  }

  lemma EntityStays(w: World, v: World, f: Specs, env: Env, k: Key)
    requires Matches(w, f) && Grounded(w, v, f, EntityRef(k))
    ensures EntityPlan(w, env, k) == EntityPlan(v, env, k)
  {
    hide EntityPlan, TrustAchieved, PlaceMounted, GroundedTrust, Matches, Resolves;
    EntitySpecOf(w, f, k);
    EntityPlanFrame(w, v, env, k);
  }

  /** A reported object whose ground is untouched has the same plan. */
  lemma PlanStays(w: World, v: World, f: Specs, env: Env, ref: Ref)
    requires Healthy(w, f, env) && BackendsGrow(w, v) && Reported(w, f, env, ref) && Grounded(w, v, f, ref)
    ensures Plan(w, env, ref) == Plan(v, env, ref)
  {
    hide InstancePlan, ProjectEntityPlan, TrustPlan, EntityPlan, BindingPlan, EnvHealthy, Operational, Matches,
      Resolves, GroundedEntity, GroundedTrust, GroundedInstance, BackendsGrow, Done, Reachable, IsTrue;
    match ref
    case InstanceRef(n) => InstancePlanStays(w, v, env, n);
    case ProjectEntityRef(k) => ProjectEntityStays(w, v, f, env, k);
    case TrustRef(k) => TrustStays(w, v, f, env, k);
    case EntityRef(k) => EntityStays(w, v, f, env, k);
    case BindingRef(k) => BindingPlanStays(w, v, f, env, k);
  }

  // ---- Every reconcile makes only its object's own writes ---------------------------------------

  lemma MatchesConforms(w: World, f: Specs)
    requires Matches(w, f)
    ensures Conforms(w, f.base)
  {
  }

  lemma BackendWritesOwned(w: World, f: Specs, env: Env, k: Key, g: int, gate: TrustGate, x: Write)
    requires gate.TrustConfigures? && PlaceOf(f.base, k) == Some(Place(gate.instance, gate.path))
    requires x in TrustBackendWrites(w, env, k, g, gate)
    ensures Owns(f, TrustRef(k), x)
  {
    hide PlaceOf, TrustDone, TrustFailed, TrustCallFailed, Client;
  }

  lemma TrustWritesOwned(w: World, f: Specs, env: Env, k: Key, x: Write)
    requires Matches(w, f) && EnvHealthy(f, env) && k in w.trusts && x in TrustBody(w, env, k, w.trusts[k])
    ensures Owns(f, TrustRef(k), x)
  {
    hide TrustGateOf, TrustMount, PlaceOf, TrustBackendWrites, Matches, Conforms, IssuerKnown, TokenReady;
    var o := w.trusts[k];
    var gate := TrustGateOf(w, env, k, o);
    MatchesConforms(w, f);
    if gate.TrustConfigures? {
      GateInstance(w, env, k, o);
      PlaceIsSpecs(w, env, f.base, k, o);
      BackendWritesOwned(w, f, env, k, o.meta.generation, gate, x);
    }
  }

  lemma BindingSpecOf(w: World, f: Specs, k: Key)
    requires Matches(w, f) && k in w.bindings
    ensures k in f.bindings && w.bindings[k].spec == f.bindings[k]
  {
  }

  lemma RoleWriteOwned(w: World, f: Specs, env: Env, k: Key, ref: string, x: Write)
    requires k in f.bindings && ref in f.bindings[k].refs && env.sha == f.base.sha
    requires x in RoleWriteOf(RefOutcomeOf(w, env, k, f.bindings[k], ref))
    ensures Owns(f, BindingRef(k), x)
  {
    hide RefOutcomeOf, RoleName;
    WrittenName(w, env, k, f.bindings[k], ref);
    assert RoleOf(f, k, ref) == x.role.name;
  }

  lemma BindingWritesOwned(w: World, f: Specs, env: Env, k: Key, x: Write)
    requires Matches(w, f) && env.sha == f.base.sha && k in w.bindings && x in BindingBody(w, env, k, w.bindings[k])
    ensures Owns(f, BindingRef(k), x)
  {
    hide RefOutcomeOf, LoopWrites, BindingNext, Aborted, Matches, RoleOf;
    BindingSpecOf(w, f, k);
    var spec := w.bindings[k].spec;
    var outs := Outcomes(w, env, k, spec, spec.refs);
    if x in LoopWrites(outs) {
      var i := ListedWrite(outs, x);
      assert spec.refs[i] in spec.refs;
      RoleWriteOwned(w, f, env, k, spec.refs[i], x);
    }
  }

  lemma NoneDeleting(w: World, f: Specs)
    requires Matches(w, f)
    ensures forall k | k in w.trusts :: !w.trusts[k].meta.deleting
    ensures forall k | k in w.bindings :: !w.bindings[k].meta.deleting
  {
  }

  lemma PlanOwned(w: World, f: Specs, env: Env, ref: Ref, x: Write)
    requires Matches(w, f) && EnvHealthy(f, env) && x in Plan(w, env, ref)
    ensures Owns(f, ref, x)
  {
    hide TrustBody, BindingBody, EnvHealthy, InstanceNext, ProjectEntityGateOf, ProjectEntityDone, EntityNext,
      Matches, RoleOf, PlaceOf;
    NoneDeleting(w, f);
    match ref
    case TrustRef(k) =>
      if x in TrustBody(w, env, k, w.trusts[k]) {
        TrustWritesOwned(w, f, env, k, x);
      }
    case BindingRef(k) =>
      if x in BindingBody(w, env, k, w.bindings[k]) {
        EnvSha(f, env);
        BindingWritesOwned(w, f, env, k, x);
      }
    case _ =>
  }

  lemma EnvSha(f: Specs, env: Env)
    requires EnvHealthy(f, env)
    ensures env.sha == f.base.sha
  {
  }

  // ---- Reported stays reported ------------------------------------------------------------------

  predicate AllSettled(w: World, f: Specs, env: Env, done: set<Ref>) {
    forall ref | ref in done :: Settled(w, f, env, ref)
  }

  ghost predicate Untouched(w: World, v: World, done: set<Ref>) {
    forall ref | ref in done :: SameObject(w, v, ref)
  }

  predicate AllAchieved(w: World, f: Specs, done: set<Ref>) {
    forall ref | ref in done :: Achieved(w, f, ref)
  }

  lemma InstanceGrounded(w: World, v: World, f: Specs, done: set<Ref>, n: string)
    requires Untouched(w, v, done) && AllAchieved(w, f, done) && InstanceRef(n) in done
    ensures GroundedInstance(w, v, f, n)
  {
    assert SameObject(w, v, InstanceRef(n)) && Achieved(w, f, InstanceRef(n));
  }

  lemma TrustGrounded(w: World, v: World, f: Specs, done: set<Ref>, k: Key)
    requires Resolves(f) && Closed(f, done) && Untouched(w, v, done) && AllAchieved(w, f, done) && TrustRef(k) in done
    ensures GroundedTrust(w, v, f, k) && SameAt(w.trusts, v.trusts, k)
    ensures k in w.trusts && TrustAchieved(w.trusts[k], f, k) && PlaceMounted(w, f, k)
  {
    hide TrustAchieved, PlaceMounted, Resolves, IsTrue, Reachable;
    var p := ProjectEntityRef(f.base.trusts[k].projectEntity);
    assert Achieved(w, f, TrustRef(k)) && SameObject(w, v, TrustRef(k));
    assert DependsOn(f, TrustRef(k)) <= done && p in DependsOn(f, TrustRef(k));
    assert SameObject(w, v, p);
    assert DependsOn(f, p) <= done && InstanceRef(InstanceOf(f, k)) in DependsOn(f, p);
    InstanceGrounded(w, v, f, done, InstanceOf(f, k));
  }

  lemma EntityGrounded(w: World, v: World, f: Specs, done: set<Ref>, k: Key)
    requires Resolves(f) && Closed(f, done) && Untouched(w, v, done) && AllAchieved(w, f, done) && EntityRef(k) in done
    ensures GroundedEntity(w, v, f, k)
  {
    hide TrustAchieved, PlaceMounted, Resolves, GroundedTrust, Achieved, Untouched, AllAchieved;
    var t := TrustRef(Key(k.namespace, f.entities[k].trust));
    assert SameObject(w, v, EntityRef(k)) by {
      UntouchedAt(w, v, done, EntityRef(k));
    }
    assert DependsOn(f, EntityRef(k)) <= done && t in DependsOn(f, EntityRef(k));
    TrustGrounded(w, v, f, done, t.key);
  }

  lemma UntouchedAt(w: World, v: World, done: set<Ref>, ref: Ref)
    requires Untouched(w, v, done) && ref in done
    ensures SameObject(w, v, ref)
  {
  }

  lemma DoneIsGrounded(w: World, v: World, f: Specs, done: set<Ref>, ref: Ref)
    requires Resolves(f) && Closed(f, done) && Untouched(w, v, done) && AllAchieved(w, f, done) && ref in done
    ensures Grounded(w, v, f, ref)
  {
    hide Resolves, GroundedTrust, GroundedEntity, GroundedInstance, Untouched, AllAchieved;
    UntouchedAt(w, v, done, ref);
    assert DependsOn(f, ref) <= done;
    match ref
    case ProjectEntityRef(k) => InstanceGrounded(w, v, f, done, f.base.projectEntities[k].instance);
    case TrustRef(k) => TrustGrounded(w, v, f, done, k);
    case EntityRef(k) => EntityGrounded(w, v, f, done, k);
    case BindingRef(k) =>
      forall s | s in f.bindings[k].refs ensures GroundedEntity(w, v, f, Key(k.namespace, s)) {
        assert EntityRef(Key(k.namespace, s)) in DependsOn(f, ref);
        EntityGrounded(w, v, f, done, Key(k.namespace, s));
      }
    case _ =>
  }

  predicate AllReported(w: World, f: Specs, env: Env, done: set<Ref>) {
    forall ref | ref in done :: Reported(w, f, env, ref)
  }

  lemma ReportedAchieved(w: World, f: Specs, env: Env, done: set<Ref>)
    requires AllReported(w, f, env, done)
    ensures AllAchieved(w, f, done)
  {
    hide Achieved, Plan, Done;
    forall ref | ref in done ensures Achieved(w, f, ref) {
      assert Reported(w, f, env, ref);
    }
  }

  lemma ReportedOne(w: World, f: Specs, env: Env, done: set<Ref>, ref: Ref)
    requires AllReported(w, f, env, done) && ref in done
    ensures Reported(w, f, env, ref)
  {
  }

  /** A reported object keeps its plan and stays reported while the closed set it belongs to is untouched. */
  lemma ReportedStays(w: World, v: World, f: Specs, env: Env, done: set<Ref>, ref: Ref)
    requires Healthy(w, f, env) && Closed(f, done) && AllReported(w, f, env, done) && ref in done
    requires BackendsGrow(w, v) && Untouched(w, v, done)
    ensures Plan(v, env, ref) == Plan(w, env, ref) && Reported(v, f, env, ref)
  {
    hide Plan, Owns, Done, Achieved, Matches, Resolves, EnvHealthy, Operational, Closed, BackendsGrow, Grounded,
      SameObject, Content, AllReported;
    ReportedAchieved(w, f, env, done);
    ReportedOne(w, f, env, done, ref);
    DoneIsGrounded(w, v, f, done, ref);
    PlanStays(w, v, f, env, ref);
    assert Achieved(w, f, ref) by {
      AllAchievedAt(w, f, done, ref);
    }
    AchievedStays(w, v, f, ref);
    forall y | y in Plan(w, env, ref) ensures Content(y) || Done(v, y) {
      PlanOwned(w, f, env, ref, y);
      if !Content(y) {
        ReportStays(f, ref, w, v, y);
      }
    }
  }

  lemma AllAchievedAt(w: World, f: Specs, done: set<Ref>, ref: Ref)
    requires AllAchieved(w, f, done) && ref in done
    ensures Achieved(w, f, ref)
  {
  }

  /** A write of configs or roles, or one that is done, touches no object. */
  lemma ContentSpares(f: Specs, actor: Ref, w: World, x: Write, ref: Ref)
    requires Owns(f, actor, x) && (Content(x) || Done(w, x))
    ensures SameObject(w, Apply(w, x), ref)
  {
    hide Apply, Owns, Done, Idle;
    if Content(x) {
      ApplyParts(w, x);
    } else {
      DoneIsIdle(w, x);
      assert Apply(w, x) == w by {
        IdleIs(w, x);
      }
    }
  }

  lemma IdleIs(w: World, x: Write)
    requires Idle(w, x)
    ensures Apply(w, x) == w
  {
  }

  /** The object of the write is not in the set, or the write changes no object. */
  predicate Spares(w: World, done: set<Ref>, actor: Ref, x: Write) {
    actor !in done || Content(x) || Done(w, x)
  }

  lemma SparingWrite(w: World, f: Specs, env: Env, done: set<Ref>, actor: Ref, x: Write)
    requires Healthy(w, f, env) && Closed(f, done) && AllReported(w, f, env, done) && Owns(f, actor, x)
             && Spares(w, done, actor, x)
    ensures var v := Apply(w, x);
            && Healthy(v, f, env) && BackendsGrow(w, v) && Untouched(w, v, done) && AllReported(v, f, env, done)
            && forall ref | ref in done :: Plan(v, env, ref) == Plan(w, env, ref)
  {
    hide Apply, Owns, Healthy, Closed, Plan, Reported, Done, SameObject, BackendsGrow;
    var v := Apply(w, x);
    OwnWriteHealthy(f, env, actor, w, x);
    WriteGrows(f, actor, w, x);
    forall ref | ref in done ensures SameObject(w, v, ref) {
      if actor in done {
        ContentSpares(f, actor, w, x, ref);
      } else {
        ForeignWriteSpares(f, actor, ref, w, x);
      }
    }
    forall ref | ref in done ensures Plan(v, env, ref) == Plan(w, env, ref) && Reported(v, f, env, ref) {
      ReportedStays(w, v, f, env, done, ref);
    }
  }

  /** The objects of both worlds are the same; backends may differ. */
  predicate SameObjects(w: World, v: World) {
    v == w.(backends := v.backends)
  }

  lemma ContentKeepsObjects(w: World, x: Write)
    requires Content(x) || Done(w, x)
    ensures SameObjects(w, Apply(w, x))
  {
    hide Apply, Done, Idle;
    if Content(x) {
      ApplyParts(w, x);
    } else {
      DoneIsIdle(w, x);
      IdleIs(w, x);
    }
  }

  /** The write is the object's own, and of an object in the set it is one of its plan. */
  predicate Planned(w: World, f: Specs, env: Env, done: set<Ref>, actor: Ref, x: Write) {
    Owns(f, actor, x) && (actor in done ==> x in Plan(w, env, actor))
  }

  lemma PlannedWriteReports(w: World, f: Specs, env: Env, done: set<Ref>, actor: Ref, x: Write)
    requires Healthy(w, f, env) && Closed(f, done) && AllReported(w, f, env, done) && Planned(w, f, env, done, actor, x)
    ensures var v := Apply(w, x);
            && Healthy(v, f, env) && AllReported(v, f, env, done) && (actor in done ==> SameObjects(w, v))
            && forall y | Planned(w, f, env, done, actor, y) :: Planned(v, f, env, done, actor, y)
  {
    hide Apply, Owns, Healthy, Reported, Closed, Plan, Done, BackendsGrow, Untouched, AllReported, Content;
    if actor in done {
      ReportedOne(w, f, env, done, actor);
      PlannedSpares(w, f, env, actor, x);
      ContentKeepsObjects(w, x);
    }
    SparingWrite(w, f, env, done, actor, x);
  }

  /** The writes of an object, one after the other, keep a closed set reported; those of one in it change no object. */
  lemma {:induction false} WritesKeepReported(w: World, f: Specs, env: Env, done: set<Ref>, actor: Ref, xs: seq<Write>)
    requires Healthy(w, f, env) && Closed(f, done) && AllReported(w, f, env, done)
    requires forall x | x in xs :: Planned(w, f, env, done, actor, x)
    ensures var v := ApplyAll(w, xs);
            && Healthy(v, f, env) && AllReported(v, f, env, done)
            && (actor in done ==> SameObjects(w, v))
    decreases xs
  {
    if xs != [] {
      hide Apply, Healthy, AllReported, Closed, Planned;
      assert xs[0] in xs;
      PlannedWriteReports(w, f, env, done, actor, xs[0]);
      WritesKeepReported(Apply(w, xs[0]), f, env, done, actor, xs[1..]);
    }
  }

  lemma PlannedSpares(w: World, f: Specs, env: Env, ref: Ref, x: Write)
    requires Reported(w, f, env, ref) && x in Plan(w, env, ref)
    ensures Content(x) || Done(w, x)
  {
    hide Plan, Achieved, Done;
  }

  /**
   No reconcile of any object, in whole or cut off, undoes what a closed set of objects reports; one of
   an object in the set changes no object at all.
   */
  lemma PartKeepsReported(w: World, f: Specs, env: Env, done: set<Ref>, ref: Ref, stop: nat)
    requires Healthy(w, f, env) && Closed(f, done) && AllReported(w, f, env, done)
    ensures var v := ReconcilePart(w, env, ref, stop);
            && Healthy(v, f, env) && AllReported(v, f, env, done) && (ref in done ==> SameObjects(w, v))
  {
    hide Plan, Reported, Healthy, Closed, Owns, AllReported;
    var plan := Plan(w, env, ref);
    var part := if stop < |plan| then plan[..stop] else plan;
    forall x | x in part ensures Planned(w, f, env, done, ref, x) {
      HealthyPlanOwned(w, f, env, ref, x);
    }
    WritesKeepReported(w, f, env, done, ref, part);
  }

  // ---- Settled stays settled --------------------------------------------------------------------

  /** A healthy service in which no two objects write one place. */
  ghost predicate Stable(w: World, f: Specs, env: Env) {
    Healthy(w, f, env) && Apart(f.base) && RolesApart(f)
  }

  lemma SettledStays(w: World, f: Specs, env: Env, done: set<Ref>, actor: Ref, x: Write, ref: Ref)
    requires Stable(w, f, env) && Closed(f, done) && AllSettled(w, f, env, done)
    requires Owns(f, actor, x) && actor !in done && ref in done
    ensures Settled(Apply(w, x), f, env, ref)
  {
    hide Apply, Plan, Owns, Done, Achieved, Matches, EnvHealthy, Operational, Apart, RolesApart, Closed, BackendsGrow,
      Grounded, SameObject, AllReported, Reported, Content;
    var v := Apply(w, x);
    WriteGrows(f, actor, w, x);
    forall r | r in done ensures SameObject(w, v, r) {
      ForeignWriteSpares(f, actor, r, w, x);
    }
    AllSettledReported(w, f, env, done);
    ReportedStays(w, v, f, env, done, ref);
    assert Settled(w, f, env, ref);
    AchievedStays(w, v, f, ref);
    forall y | y in Plan(w, env, ref) ensures Done(v, y) {
      PlanOwned(w, f, env, ref, y);
      DoneStays(f, actor, ref, w, x, y);
    }
  }

  lemma AllSettledReported(w: World, f: Specs, env: Env, done: set<Ref>)
    requires AllSettled(w, f, env, done)
    ensures AllReported(w, f, env, done)
  {
    hide Settled, Reported;
    forall ref | ref in done ensures Reported(w, f, env, ref) {
      SettledOne(w, f, env, done, ref);
      SettledReported(w, f, env, ref);
    }
  }

  lemma {:induction false} WritesKeepSettled(w: World, f: Specs, env: Env, done: set<Ref>, actor: Ref, xs: seq<Write>)
    requires Stable(w, f, env) && Closed(f, done) && AllSettled(w, f, env, done) && actor !in done
    requires forall x | x in xs :: Owns(f, actor, x)
    ensures var v := ApplyAll(w, xs); Stable(v, f, env) && AllSettled(v, f, env, done)
    decreases xs
  {
    if xs != [] {
      hide Apply, Owns, Healthy, Settled, Apart, RolesApart, Closed;
      assert xs[0] in xs;
      var v := Apply(w, xs[0]);
      forall ref | ref in done ensures Settled(v, f, env, ref) {
        SettledStays(w, f, env, done, actor, xs[0], ref);
      }
      OwnWriteHealthy(f, env, actor, w, xs[0]);
      WritesKeepSettled(v, f, env, done, actor, xs[1..]);
    }
  }

  lemma DoneIsIdle(w: World, x: Write)
    requires Done(w, x)
    ensures Idle(w, x)
  {
    hide Apply, Idle, Slot;
    match x
    case PutInstance(n, st) => PutIdle(w, x);
    case PutProjectEntity(k, st) => PutIdle(w, x);
    case PutTrust(k, st) => PutIdle(w, x);
    case PutEntity(k, st) => PutIdle(w, x);
    case PutBinding(k, st) => PutIdle(w, x);
    case WriteEntity(n, name) =>
      PutSame(w.backends[n].entities, name, w.backends[n].entities[name]);
      CallIdle(w, x);
    case WriteMount(n, path) =>
      MountIdle(w.backends[n], path);
      CallIdle(w, x);
    case WriteConfig(n, path, c) =>
      PutSame(w.backends[n].configs, path, c);
      CallIdle(w, x);
    case WriteRole(n, path, r) =>
      PutSame(w.backends[n].roles, Slot(path, r.name), r);
      CallIdle(w, x);
  }

  lemma PutIdle(w: World, x: Write)
    requires Done(w, x) && !IsBackendWrite(x)
    ensures Idle(w, x)
  {
    match x
    case PutInstance(n, st) => PutSame(w.instances, n, w.instances[n]);
    case PutProjectEntity(k, st) => PutSame(w.projectEntities, k, w.projectEntities[k]);
    case PutTrust(k, st) => PutSame(w.trusts, k, w.trusts[k]);
    case PutEntity(k, st) => PutSame(w.entities, k, w.entities[k]);
    case PutBinding(k, st) => PutSame(w.bindings, k, w.bindings[k]);
  }

  /** Reconciling a settled object, in whole or in part, changes nothing. */
  lemma SettledIsIdle(w: World, f: Specs, env: Env, ref: Ref, xs: seq<Write>)
    requires Settled(w, f, env, ref) && forall x | x in xs :: x in Plan(w, env, ref)
    ensures ApplyAll(w, xs) == w
  {
    hide Plan, Done, Achieved, Idle;
    forall x | x in xs ensures Idle(w, x) {
      DoneIsIdle(w, x);
    }
    IdleRun(w, xs);
  }

  /** No reconcile of any object, in whole or cut off, unsettles a closed set of settled objects. */
  lemma PartKeepsSettled(w: World, f: Specs, env: Env, done: set<Ref>, ref: Ref, stop: nat)
    requires Stable(w, f, env) && Closed(f, done) && AllSettled(w, f, env, done)
    ensures var v := ReconcilePart(w, env, ref, stop); Stable(v, f, env) && AllSettled(v, f, env, done)
    ensures ref in done ==> ReconcilePart(w, env, ref, stop) == w
  {
    hide Plan, Settled, Healthy, Apart, RolesApart, Closed, Owns, AllSettled;
    var plan := Plan(w, env, ref);
    var part := if stop < |plan| then plan[..stop] else plan;
    if ref in done {
      SettledOne(w, f, env, done, ref);
      SettledIsIdle(w, f, env, ref, part);
    } else {
      forall x | x in part ensures Owns(f, ref, x) {
        HealthyPlanOwned(w, f, env, ref, x);
      }
      WritesKeepSettled(w, f, env, done, ref, part);
    }
  }

  lemma SettledOne(w: World, f: Specs, env: Env, done: set<Ref>, ref: Ref)
    requires AllSettled(w, f, env, done) && ref in done
    ensures Settled(w, f, env, ref)
  {
  }

  lemma HealthyPlanOwned(w: World, f: Specs, env: Env, ref: Ref, x: Write)
    requires Healthy(w, f, env) && x in Plan(w, env, ref)
    ensures Owns(f, ref, x)
  {
    hide Plan, Owns, Matches, EnvHealthy;
    PlanOwned(w, f, env, ref, x);
  }
}
