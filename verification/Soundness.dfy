/**
 What is in the backends, over all runs: every role was written for one reference of a drafted
 binding and sits under a mount that is there, and every backend is the image of a nested table.
 */
module Soundness {
  import opened Wrappers
  import opened Naming
  import opened Conditions
  import opened Backend
  import opened Api
  import opened Plans
  import opened Frames
  import opened BindingLoop
  import opened Webhook
  import opened Runs

  type Drafts = set<(Key, BindingSpec)>

  /** The role is the one that some drafted binding asks for one of its references. */
  ghost predicate Justified(sha: Digest, drafts: Drafts, role: JWTRole) {
    exists d, ref | d in drafts && ref in d.1.refs :: AsksFor(sha, d.0, d.1, ref, role)
  }

  ghost predicate AsksFor(sha: Digest, k: Key, spec: BindingSpec, ref: string, role: JWTRole) {
    && role.name == RoleName(sha, k.namespace, k.name + "-" + ref)
    && role.tokenPolicies == [spec.policyName]
    && role.boundSubject != "" && role.userClaim == "sub"
    && |role.boundAudiences| == 1
    && role.tokenTTL == spec.ttl && role.tokenMaxTTL == spec.maxTTL
  }

  ghost predicate RoleAt(s: State, sha: Digest, drafts: Drafts, key: string) {
    && key in s.roles && Justified(sha, drafts, s.roles[key])
    && exists m | m in s.mounts :: '/' !in m && key == Slot(m, s.roles[key].name)
  }

  ghost predicate RolesSound(s: State, sha: Digest, drafts: Drafts) {
    forall key | key in s.roles :: RoleAt(s, sha, drafts, key)
  }

  /** The flat maps stand for a nested table. */
  ghost predicate Nested(s: State) {
    exists t :: Represents(s, t)
  }

  ghost predicate StateSound(s: State, sha: Digest, drafts: Drafts) {
    RolesSound(s, sha, drafts) && Nested(s)
  }

  predicate EntriesNamed(entries: seq<RoleStatus>) {
    forall i | 0 <= i < |entries| :: '/' !in entries[i].authMountPath
  }

  ghost predicate Inv(w: World, sha: Digest, drafts: Drafts) {
    && (forall n | n in w.backends :: StateSound(w.backends[n], sha, drafts))
    && (forall k | k in w.trusts :: '/' !in w.trusts[k].status.authMountPath)
    && (forall k | k in w.bindings :: (k, w.bindings[k].spec) in drafts && EntriesNamed(w.bindings[k].status.roles))
  }

  // ---- One write -------------------------------------------------------------------------------------

  ghost predicate Safe(sha: Digest, drafts: Drafts, x: Write) {
    match x
    case PutTrust(_, st) => '/' !in st.authMountPath
    case PutBinding(_, st) => EntriesNamed(st.roles)
    case WriteMount(_, path) => '/' !in path
    case WriteConfig(_, path, _) => '/' !in path
    case WriteRole(_, path, role) => '/' !in path && role.name != "" && Justified(sha, drafts, role)
    case RemoveRole(_, path, name) => '/' !in path && name != ""
    case RemoveMount(_, path) => '/' !in path
    case _ => true
  }

  lemma JustifiedIsNamed(sha: Digest, drafts: Drafts, role: JWTRole)
    requires Justified(sha, drafts, role)
    ensures role.name != ""
  {
    hide RoleName;
    var d, ref :| d in drafts && ref in d.1.refs && AsksFor(sha, d.0, d.1, ref, role);
    RoleNameIsName(sha, d.0.namespace, d.0.name + "-" + ref);
  }

  lemma CallKeepsNested(s: State, sha: Digest, drafts: Drafts, x: Write)
    requires Nested(s) && Safe(sha, drafts, x) && IsBackendWrite(x)
    ensures Nested(OnBackend(s, x))
  {
    hide FlatStep, TableStep, Represents, Justified, WithoutMount, WithoutRole;
    var t :| Represents(s, t);
    match x
    case WriteEntity(_, name) => EntityKeepsTable(s, t, name);
    case WriteMount(_, p) => OpKeepsNested(s, t, OpMount(p));
    case WriteConfig(_, p, c) => OpKeepsNested(s, t, OpConfigure(p, c));
    case WriteRole(_, p, r) => OpKeepsNested(s, t, OpRole(p, r));
    case RemoveRole(_, p, n) => OpKeepsNested(s, t, OpDeleteRole(p, n));
    case RemoveMount(_, p) => OpKeepsNested(s, t, OpDeleteMount(p));
  }

  lemma EntityKeepsTable(s: State, t: Table, name: string)
    requires Represents(s, t)
    ensures Represents(WithEntity(s, name), t)
  {
    hide NoStrayKey, EntriesPresent;
  }

  lemma OpKeepsNested(s: State, t: Table, op: Op)
    requires Represents(s, t) && OpNamed(op)
    ensures Nested(FlatStep(s, op).0)
    ensures op.OpMount? ==> FlatStep(s, op).0 == WithMount(s, op.path)
    ensures op.OpDeleteRole? ==> FlatStep(s, op).0 == WithoutRole(s, op.path, op.name)
    ensures op.OpDeleteMount? ==> FlatStep(s, op).0 == WithoutMount(s, op.path)
  {
    hide Represents, TableStep, WithoutMount, WithoutRole, WithMount;
    StepRepresents(s, t, op);
  }

  lemma CallKeepsRoles(s: State, sha: Digest, drafts: Drafts, x: Write)
    requires RolesSound(s, sha, drafts) && Safe(sha, drafts, x) && IsBackendWrite(x)
    ensures RolesSound(OnBackend(s, x), sha, drafts)
  {
    hide Justified;
    match x
    case WriteRole(_, p, r) =>
      if p in s.mounts {
        AddedRoleSound(s, sha, drafts, p, r);
      }
    case RemoveMount(_, p) => SweptRolesSound(s, sha, drafts, p);
    case WriteMount(_, p) => GrownRolesSound(s, WithMount(s, p), sha, drafts);
    case WriteConfig(_, p, c) => GrownRolesSound(s, OnBackend(s, x), sha, drafts);
    case WriteEntity(_, n) => GrownRolesSound(s, WithEntity(s, n), sha, drafts);
    case RemoveRole(_, p, n) => GrownRolesSound(s, WithoutRole(s, p, n), sha, drafts);
  }

  /** Fewer roles and more mounts do no harm. */
  lemma GrownRolesSound(s: State, v: State, sha: Digest, drafts: Drafts)
    requires RolesSound(s, sha, drafts)
    requires s.mounts <= v.mounts && forall key | key in v.roles :: key in s.roles && v.roles[key] == s.roles[key]
    ensures RolesSound(v, sha, drafts)
  {
    hide Justified;
    forall key | key in v.roles ensures RoleAt(v, sha, drafts, key) {
      assert RoleAt(s, sha, drafts, key);
    }
  }

  lemma AddedRoleSound(s: State, sha: Digest, drafts: Drafts, path: string, role: JWTRole)
    requires RolesSound(s, sha, drafts) && '/' !in path && Justified(sha, drafts, role) && path in s.mounts
    ensures RolesSound(s.(roles := s.roles[Slot(path, role.name) := role]), sha, drafts)
  {
    hide Justified, Slot;
    var v := s.(roles := s.roles[Slot(path, role.name) := role]);
    forall key | key in v.roles ensures RoleAt(v, sha, drafts, key) {
      if key != Slot(path, role.name) {
        assert RoleAt(s, sha, drafts, key);
      }
    }
  }

  lemma SweptRolesSound(s: State, sha: Digest, drafts: Drafts, path: string)
    requires RolesSound(s, sha, drafts) && '/' !in path
    ensures RolesSound(WithoutMount(s, path), sha, drafts)
  {
    hide Justified, Slot, Under;
    var v := WithoutMount(s, path);
    forall key | key in v.roles ensures RoleAt(v, sha, drafts, key) {
      assert RoleAt(s, sha, drafts, key);
      var m :| m in s.mounts && '/' !in m && key == Slot(m, s.roles[key].name);
      JustifiedIsNamed(sha, drafts, s.roles[key]);
      UnderIsOwnMount(m, s.roles[key].name, path);
    }
  }

  lemma SafeKeeps(w: World, sha: Digest, drafts: Drafts, x: Write)
    requires Inv(w, sha, drafts) && Safe(sha, drafts, x)
    ensures Inv(Apply(w, x), sha, drafts)
  {
    hide StateSound, EntriesNamed, Justified;
    if IsBackendWrite(x) {
      hide Apply, OnBackend;
      ApplyParts(w, x);
      if x.backend in w.backends {
        CallKeepsSound(w.backends[x.backend], sha, drafts, x);
      }
    } else {
      hide ApplyBackend, Gone, Held;
    }
  }

  lemma CallKeepsSound(s: State, sha: Digest, drafts: Drafts, x: Write)
    requires StateSound(s, sha, drafts) && Safe(sha, drafts, x) && IsBackendWrite(x)
    ensures StateSound(OnBackend(s, x), sha, drafts)
  {
    hide OnBackend, RolesSound, Nested, Safe;
    CallKeepsNested(s, sha, drafts, x);
    CallKeepsRoles(s, sha, drafts, x);
  }

  lemma {:induction false} SafeRunKeeps(w: World, sha: Digest, drafts: Drafts, xs: seq<Write>)
    requires Inv(w, sha, drafts) && forall x | x in xs :: Safe(sha, drafts, x)
    ensures Inv(ApplyAll(w, xs), sha, drafts)
    decreases xs
  {
    if xs != [] {
      hide Inv, Safe, Apply;
      assert xs[0] in xs;
      SafeKeeps(w, sha, drafts, xs[0]);
      SafeRunKeeps(Apply(w, xs[0]), sha, drafts, xs[1..]);
    }
  }

  // ---- Every plan makes safe writes ---------------------------------------------------------------------

  lemma GatePathNamed(w: World, env: Env, k: Key, o: Trust)
    requires env.mountPrefix.Some? && '/' !in o.status.authMountPath
    ensures var gate := TrustGateOf(w, env, k, o);
            && (gate.TrustReports? ==> '/' !in gate.status.authMountPath)
            && (gate.TrustConfigures? ==> '/' !in gate.path && '/' !in gate.status.authMountPath)
  {
    hide AuthMountPath, ResolveAuthMountPrefix, Reachable, FailWith, DependencyNotReady;
    forall prefix, cp ensures '/' !in AuthMountPath(env.sha, prefix, k.namespace, cp) {
      MountPathIsName(env.sha, prefix, k.namespace, cp);
    }
  }

  lemma BackendWritesSafe(w: World, env: Env, sha: Digest, drafts: Drafts, k: Key, g: int, gate: TrustGate, x: Write)
    requires gate.TrustConfigures? && '/' !in gate.path && '/' !in gate.status.authMountPath
    requires x in TrustBackendWrites(w, env, k, g, gate)
    ensures Safe(sha, drafts, x)
  {
    hide Justified, EntriesNamed, Upsert, MarkReady, FailWith, Client;
  }

  lemma TeardownSafe(w: World, env: Env, sha: Digest, drafts: Drafts, k: Key, o: Trust, x: Write)
    requires '/' !in o.status.authMountPath && x in TrustTeardown(w, env, k, o)
    ensures Safe(sha, drafts, x)
  {
    hide Justified, EntriesNamed, Reachable, Client;
  }

  lemma TrustPlanSafe(w: World, env: Env, drafts: Drafts, k: Key, x: Write)
    requires Inv(w, env.sha, drafts) && x in TrustPlan(w, env, k)
    ensures Safe(env.sha, drafts, x)
  {
    hide StateSound, EntriesNamed, Justified, TrustGateOf, TrustTeardown, TrustBackendWrites;
    var o := w.trusts[k];
    if o.meta.deleting {
      TeardownSafe(w, env, env.sha, drafts, k, o, x);
    } else if !x.AddTrustFinalizer? {
      GatePathNamed(w, env, k, o);
      var gate := TrustGateOf(w, env, k, o);
      if gate.TrustConfigures? {
        BackendWritesSafe(w, env, env.sha, drafts, k, o.meta.generation, gate, x);
      }
    }
  }

  /** The path of an entry is its trust's, or none. */
  lemma EntryPathNamed(w: World, env: Env, k: Key, spec: BindingSpec, ref: string)
    requires forall t | t in w.trusts :: '/' !in w.trusts[t].status.authMountPath
    ensures var out := RefOutcomeOf(w, env, k, spec, ref); out.RefOutcome? ==> '/' !in out.entry.authMountPath
  {
    hide CheckOf, CheckMessage, Reachable, BindingRoleName, Client, IsEmpty, EntityUsable, TrustUsable, BoundRole;
  }

  lemma OutcomeNamed(w: World, env: Env, drafts: Drafts, k: Key, spec: BindingSpec, ref: string)
    requires Inv(w, env.sha, drafts) && (k, spec) in drafts && ref in spec.refs
    ensures var out := RefOutcomeOf(w, env, k, spec, ref);
            && (out.RefOutcome? ==> '/' !in out.entry.authMountPath)
            && (forall x | x in RoleWriteOf(out) :: Safe(env.sha, drafts, x))
  {
    hide StateSound, EntriesNamed, RefOutcomeOf, RoleName, TrustUsable;
    var out := RefOutcomeOf(w, env, k, spec, ref);
    EntryPathNamed(w, env, k, spec, ref);
    if out.RefOutcome? && out.write.Some? {
      WriteShape(w, env, k, spec, ref);
      WrittenName(w, env, k, spec, ref);
      RoleNameIsName(env.sha, k.namespace, k.name + "-" + ref);
      assert AsksFor(env.sha, k, spec, ref, out.write.value.role);
      assert (k, spec).1.refs == spec.refs;
    }
  }

  lemma RemovalSafe(w: World, env: Env, sha: Digest, drafts: Drafts, namespace: string, entry: RoleStatus, x: Write)
    requires '/' !in entry.authMountPath && x in RemovalWrite(RemovalOf(w, env, namespace, entry))
    ensures Safe(sha, drafts, x)
  {
    hide FindTrustForAuthMount, Reachable, Client;
  }

  lemma LiveBindingSafe(w: World, env: Env, drafts: Drafts, k: Key, x: Write)
    requires Inv(w, env.sha, drafts) && k in w.bindings && x in BindingBody(w, env, k, w.bindings[k])
    ensures Safe(env.sha, drafts, x)
  {
    hide RefOutcomeOf, Justified, LoopWrites, StateSound, BindingConditions, PolicyVerdict;
    var o := w.bindings[k];
    var outs := Outcomes(w, env, k, o.spec, o.spec.refs);
    if x in LoopWrites(outs) {
      LoopWritesAreRoles(outs, x);
      var i :| 0 <= i < |outs| && RoleWriteOf(outs[i]) == [x];
      OutcomeNamed(w, env, drafts, k, o.spec, o.spec.refs[i]);
      assert x in RoleWriteOf(outs[i]);
    } else {
      forall i | 0 <= i < |outs| ensures outs[i].RefOutcome? ==> '/' !in outs[i].entry.authMountPath {
        OutcomeNamed(w, env, drafts, k, o.spec, o.spec.refs[i]);
      }
    }
  }

  lemma DyingBindingSafe(w: World, env: Env, drafts: Drafts, k: Key, x: Write)
    requires Inv(w, env.sha, drafts) && k in w.bindings && x in BindingTeardown(w, env, k, w.bindings[k])
    ensures Safe(env.sha, drafts, x)
  {
    hide Justified, RemovalOf, RemovalWrites, StateSound;
    var entries := w.bindings[k].status.roles;
    if x in RemovalWrites(w, env, k.namespace, entries) {
      RemovalWritesAreRemovals(w, env, k.namespace, entries, x);
      var i :| 0 <= i < |entries| && RemovalWrite(RemovalOf(w, env, k.namespace, entries[i])) == [x];
      RemovalSafe(w, env, env.sha, drafts, k.namespace, entries[i], x);
    }
  }

  lemma PlanSafe(w: World, env: Env, drafts: Drafts, ref: Ref, x: Write)
    requires Inv(w, env.sha, drafts) && x in Plan(w, env, ref)
    ensures Safe(env.sha, drafts, x)
  {
    hide Inv, Justified, TrustPlan, BindingBody, BindingTeardown, EntityNext, InstanceNext, ProjectEntityGateOf,
      ProjectEntityDone;
    match ref
    case TrustRef(k) => TrustPlanSafe(w, env, drafts, k, x);
    case BindingRef(k) =>
      if w.bindings[k].meta.deleting {
        DyingBindingSafe(w, env, drafts, k, x);
      } else if x in BindingBody(w, env, k, w.bindings[k]) {
        LiveBindingSafe(w, env, drafts, k, x);
      }
    case _ =>
  }

  // ---- Every step and every run ---------------------------------------------------------------------------

  /** The run hashes with sha throughout, and drafts holds every binding spec it ever writes. */
  ghost predicate StepWithin(s: Step, sha: Digest, drafts: Drafts) {
    match s
    case Reconciles(env, _, _) => env.sha == sha
    case Creates(d, _) => d.DraftBinding? ==> (d.key, d.binding) in drafts
    case Edits(d) => d.DraftBinding? ==> (d.key, d.binding) in drafts
    case _ => true
  }

  lemma PartKeeps(w: World, env: Env, drafts: Drafts, ref: Ref, stop: nat)
    requires Inv(w, env.sha, drafts)
    ensures Inv(ReconcilePart(w, env, ref, stop), env.sha, drafts)
  {
    hide Inv, Safe, Plan;
    var plan := Plan(w, env, ref);
    var part := if stop < |plan| then plan[..stop] else plan;
    forall x | x in part ensures Safe(env.sha, drafts, x) {
      PlanSafe(w, env, drafts, ref, x);
    }
    SafeRunKeeps(w, env.sha, drafts, part);
  }

  lemma CreateKeeps(w: World, sha: Digest, drafts: Drafts, d: Draft, meta: Meta)
    requires Inv(w, sha, drafts) && (d.DraftBinding? ==> (d.key, d.binding) in drafts)
    ensures Inv(Create(w, d, meta), sha, drafts)
  {
    hide StateSound;
  }

  lemma EditKeeps(w: World, sha: Digest, drafts: Drafts, d: Draft)
    requires Inv(w, sha, drafts) && (d.DraftBinding? ==> (d.key, d.binding) in drafts)
    ensures Inv(Edit(w, d), sha, drafts)
  {
    hide StateSound, EntriesNamed;
  }

  lemma DeleteKeeps(w: World, sha: Digest, drafts: Drafts, ref: Ref)
    requires Inv(w, sha, drafts)
    ensures Inv(Delete(w, ref), sha, drafts)
  {
    hide StateSound, EntriesNamed;
    if !ref.TrustRef? && !ref.BindingRef? {
      hide Delete;
      DeleteParts(w, ref);
    }
  }

  lemma OperatedStateSound(s: State, v: State, sha: Digest, drafts: Drafts)
    requires StateSound(s, sha, drafts)
    requires v.mounts == s.mounts && v.configs == s.configs && v.roles == s.roles
    ensures StateSound(v, sha, drafts)
  {
    hide Justified, NoStrayKey, EntriesPresent;
    GrownRolesSound(s, v, sha, drafts);
    var t :| Represents(s, t);
    assert Represents(v, t);
  }

  lemma FreshSound(sha: Digest, drafts: Drafts)
    ensures StateSound(FRESH, sha, drafts)
  {
    assert Represents(FRESH, map[]);
  }

  lemma OperateKeeps(w: World, sha: Digest, drafts: Drafts, n: string, health: HealthInfo, err: Option<string>,
                     policies: set<string>, unknown: bool)
    requires Inv(w, sha, drafts)
    ensures Inv(Operate(w, n, health, err, policies, unknown), sha, drafts)
  {
    hide StateSound, EntriesNamed;
    FreshSound(sha, drafts);
    var v := Operate(w, n, health, err, policies, unknown);
    OperatedStateSound(BackendOf(w, n), v.backends[n], sha, drafts);
  }

  lemma StepKeeps(w: World, sha: Digest, drafts: Drafts, s: Step)
    requires Inv(w, sha, drafts) && StepWithin(s, sha, drafts)
    ensures Inv(Do(w, s), sha, drafts)
  {
    hide ReconcilePart, Create, Edit, Delete, Operate, Admits, Inv;
    match s
    case Reconciles(env, ref, stop) => PartKeeps(w, env, drafts, ref, stop);
    case Creates(d, foreign) => CreateKeeps(w, sha, drafts, d, NewMeta(foreign));
    case Edits(d) => EditKeeps(w, sha, drafts, d);
    case Deletes(ref) => DeleteKeeps(w, sha, drafts, ref);
    case Operates(n, health, err, policies, unknown) => OperateKeeps(w, sha, drafts, n, health, err, policies, unknown);
  }

  lemma {:induction false} EveryRunKeeps(w: World, sha: Digest, drafts: Drafts, steps: seq<Step>)
    requires Inv(w, sha, drafts)
    requires forall s | s in steps :: StepWithin(s, sha, drafts)
    ensures Inv(Run(w, steps), sha, drafts)
    decreases steps
  {
    if steps != [] {
      hide Inv, StepWithin, Do;
      StepKeeps(w, sha, drafts, steps[0]);
      EveryRunKeeps(Do(w, steps[0]), sha, drafts, steps[1..]);
    }
  }

  /**
   After any run from the empty world, with any crashes: each role of each backend sits under a mount
   that is there, at its own name, and is the role some drafted binding asks for one of its references.
   */
  lemma EveryRoleIsSound(sha: Digest, drafts: Drafts, steps: seq<Step>, n: string, key: string)
    requires forall s | s in steps :: StepWithin(s, sha, drafts)
    ensures var w := Run(EMPTY_WORLD, steps);
            n in w.backends && key in w.backends[n].roles ==>
              var role := w.backends[n].roles[key];
              && (exists m | m in w.backends[n].mounts :: '/' !in m && key == Slot(m, role.name))
              && (exists d, ref | d in drafts && ref in d.1.refs :: AsksFor(sha, d.0, d.1, ref, role))
  {
    hide Run, Nested, AsksFor, StepWithin;
    EveryRunKeeps(EMPTY_WORLD, sha, drafts, steps);
    var w := Run(EMPTY_WORLD, steps);
    if n in w.backends && key in w.backends[n].roles {
      assert RoleAt(w.backends[n], sha, drafts, key);
    }
  }

  /** And each backend stands for a nested table, so a mount owns its config and its roles. */
  lemma EveryBackendIsNested(sha: Digest, drafts: Drafts, steps: seq<Step>, n: string)
    requires forall s | s in steps :: StepWithin(s, sha, drafts)
    ensures var w := Run(EMPTY_WORLD, steps);
            n in w.backends ==> exists t :: Represents(w.backends[n], t)
  {
    hide Run, RolesSound, StepWithin, Represents;
    EveryRunKeeps(EMPTY_WORLD, sha, drafts, steps);
  }
}
