/** Every reconcile is idempotent, in any unchanged surroundings, healthy or not. */
module Idempotence {
  import opened Wrappers
  import opened Identity
  import opened Naming
  import opened Conditions
  import opened Backend
  import opened Api
  import opened Plans
  import opened Frames
  import opened BindingReconciler
  import opened BindingEffects

  // ---- Idle writes -----------------------------------------------------------------------------------

  predicate Idle(w: World, x: Write) {
    Apply(w, x) == w
  }

  lemma {:induction false} IdleRun(w: World, xs: seq<Write>)
    requires forall x | x in xs :: Idle(w, x)
    ensures ApplyAll(w, xs) == w
    decreases xs
  {
    if xs != [] {
      hide Apply;
      assert Idle(w, xs[0]);
      IdleRun(w, xs[1..]);
    }
  }

  lemma PutSame<K, V>(m: map<K, V>, k: K, v: V)
    requires k in m && m[k] == v
    ensures m[k := v] == m
  {
  }

  /** A backend call that leaves its backend as it is. */
  lemma CallIdle(w: World, x: Write)
    requires IsBackendWrite(x)
    requires x.backend in w.backends ==> OnBackend(w.backends[x.backend], x) == w.backends[x.backend]
    ensures Idle(w, x)
  {
    hide OnBackend, Apply;
    ApplyParts(w, x);
    if x.backend in w.backends {
      PutSame(w.backends, x.backend, w.backends[x.backend]);
    }
  }

  lemma PutTrustAgain(w: World, k: Key)
    requires k in w.trusts
    ensures Idle(w, PutTrust(k, w.trusts[k].status))
  {
    PutSame(w.trusts, k, w.trusts[k]);
  }

  // ---- Condition updates absorb ----------------------------------------------------------------------

  lemma UpdatesAbsorb(cs: seq<Condition>, g: int, kind: Kind, reason: Reason, m: Message, summary: Message)
    ensures var r := DependencyNotReady(cs, g, reason, m); DependencyNotReady(r, g, reason, m) == r
    ensures kind != Ready ==> var r := FailWith(cs, g, kind, reason, m, summary);
            FailWith(r, g, kind, reason, m, summary) == r
  {
  }

  lemma ReadyAbsorbs(cs: seq<Condition>, c: Condition, g: int)
    requires c.kind != Ready && c.kind != DependencyReady
    ensures MarkReady(MarkReady(cs, g), g) == MarkReady(cs, g)
    ensures var r := MarkReady(Upsert(cs, c), g); MarkReady(Upsert(r, c), g) == r
  {
  }

  // ---- Instances ------------------------------------------------------------------------------------------

  lemma InstanceNextAbsorbs(w: World, v: World, env: Env, n: string, o: Instance)
    requires v.backends == w.backends
    ensures var st := InstanceNext(w, env, n, o); InstanceNext(v, env, n, o.(status := st)) == st
  {
    hide FailWith, MarkReady;
    var cs, g := o.status.conditions, o.meta.generation;
    forall m ensures var r := FailWith(cs, g, OpenBaoReachable, OpenBaoUnreachable, m, m);
                     FailWith(r, g, OpenBaoReachable, OpenBaoUnreachable, m, m) == r
    {
      UpdatesAbsorb(cs, g, OpenBaoReachable, OpenBaoUnreachable, m, m);
    }
    ReadyAbsorbs(cs, Condition(OpenBaoReachable, Yes, Reason.Reconciled, NoMessage, g), g);
  }

  lemma InstanceTwice(w: World, env: Env, n: string)
    ensures var v := Reconcile(w, env, InstanceRef(n)); Reconcile(v, env, InstanceRef(n)) == v
  {
    hide InstanceNext, ApplyAll;
    var v := Reconcile(w, env, InstanceRef(n));
    if InstancePlan(w, env, n) == [] {
      assert v == w by {
        IdleRun(w, []);
      }
    } else {
      var o := w.instances[n];
      var st := InstanceNext(w, env, n, o);
      ApplyOne(w, PutInstance(n, st));
      InstanceNextAbsorbs(w, v, env, n, o);
      PutSame(v.instances, n, o.(status := st));
      assert Plan(v, env, InstanceRef(n)) == [PutInstance(n, st)];
      IdleRun(v, Plan(v, env, InstanceRef(n)));
    }
  }

  // ---- Project entities -------------------------------------------------------------------------------------

  lemma EntityIDStays(s: State, name: string)
    ensures EntityID(WithEntity(s, name), name) == EntityID(s, name)
    ensures WithEntity(WithEntity(s, name), name) == WithEntity(s, name)
  {
  }

  /** What the gate says of an object that already carries what a run persists. */
  lemma ProjectEntityGateAbsorbs(w: World, v: World, env: Env, k: Key, o: ProjectEntity)
    requires w.instances == v.instances && w.backends.Keys == v.backends.Keys
    ensures match ProjectEntityGateOf(w, env, k, o)
            case ProjectEntityAborts => ProjectEntityGateOf(v, env, k, o) == ProjectEntityAborts
            case ProjectEntityReports(st) => ProjectEntityGateOf(v, env, k, o.(status := st))
                                             == ProjectEntityReports(st)
            case ProjectEntityEnrols(n, name, st) =>
              forall id :: var done := ProjectEntityDone(st, o.meta.generation, id);
                           ProjectEntityGateOf(v, env, k, o.(status := done)) == ProjectEntityEnrols(n, name, done)
  {
    hide DependencyNotReady, Reachable, MarkReady;
    var cs, g := o.status.conditions, o.meta.generation;
    forall reason, m ensures var r := DependencyNotReady(cs, g, reason, m); DependencyNotReady(r, g, reason, m) == r {
      UpdatesAbsorb(cs, g, Ready, reason, m, m);
    }
  }

  lemma ProjectEntityDoneAbsorbs(st: ProjectEntityStatus, g: int, id: string)
    ensures var done := ProjectEntityDone(st, g, id); ProjectEntityDone(done, g, id) == done
  {
    ReadyAbsorbs(st.conditions, Condition(TrustConfigured, Yes, Reason.Reconciled, NoMessage, g), g);
  }

  lemma EnrolIdle(w: World, k: Key, n: string, name: string, st: ProjectEntityStatus)
    requires k in w.projectEntities && n in w.backends
    ensures var v := ApplyAll(w, [WriteEntity(n, name), PutProjectEntity(k, st)]);
            && Idle(v, WriteEntity(n, name)) && Idle(v, PutProjectEntity(k, st))
            && v == w.(projectEntities := w.projectEntities[k := w.projectEntities[k].(status := st)],
                       backends := w.backends[n := WithEntity(w.backends[n], name)])
  {
    hide WithEntity;
    ApplyOne(w, WriteEntity(n, name));
    ApplySnoc(w, [WriteEntity(n, name)], PutProjectEntity(k, st));
    assert [WriteEntity(n, name)] + [PutProjectEntity(k, st)] == [WriteEntity(n, name), PutProjectEntity(k, st)];
    var v := ApplyAll(w, [WriteEntity(n, name), PutProjectEntity(k, st)]);
    EntityIDStays(w.backends[n], name);
    PutSame(v.backends, n, WithEntity(w.backends[n], name));
    PutSame(v.projectEntities, k, w.projectEntities[k].(status := st));
  }

  lemma EnrolTwice(w: World, env: Env, k: Key)
    requires k in w.projectEntities && !w.projectEntities[k].meta.deleting && env.mountPrefix.Some?
             && ProjectEntityRef(k) !in env.faults
    requires ProjectEntityGateOf(w, env, k, w.projectEntities[k]).ProjectEntityEnrols?
    ensures var v := Reconcile(w, env, ProjectEntityRef(k)); Reconcile(v, env, ProjectEntityRef(k)) == v
  {
    hide ProjectEntityGateOf, ProjectEntityDone, ApplyAll, WithEntity, EntityID, Idle;
    var o := w.projectEntities[k];
    var gate := ProjectEntityGateOf(w, env, k, o);
    var n, name := gate.instance, gate.name;
    var id := EntityID(w.backends[n], name);
    var done := ProjectEntityDone(gate.status, o.meta.generation, id);
    var v := Reconcile(w, env, ProjectEntityRef(k));
    EnrolIdle(w, k, n, name, done);
    ProjectEntityGateAbsorbs(w, v, env, k, o);
    ProjectEntityDoneAbsorbs(gate.status, o.meta.generation, id);
    EntityIDStays(w.backends[n], name);
    assert Plan(v, env, ProjectEntityRef(k)) == [WriteEntity(n, name), PutProjectEntity(k, done)];
    IdleRun(v, Plan(v, env, ProjectEntityRef(k)));
  }

  lemma ProjectEntityTwice(w: World, env: Env, k: Key)
    ensures var v := Reconcile(w, env, ProjectEntityRef(k)); Reconcile(v, env, ProjectEntityRef(k)) == v
  {
    hide ProjectEntityGateOf, ProjectEntityDone, ApplyAll, WithEntity, EntityID;
    var v := Reconcile(w, env, ProjectEntityRef(k));
    if ProjectEntityPlan(w, env, k) == [] {
      assert v == w by {
        IdleRun(w, []);
      }
    } else {
      var o := w.projectEntities[k];
      var gate := ProjectEntityGateOf(w, env, k, o);
      if gate.ProjectEntityEnrols? {
        EnrolTwice(w, env, k);
      } else {
        ApplyOne(w, PutProjectEntity(k, gate.status));
        ProjectEntityGateAbsorbs(w, v, env, k, o);
        PutSame(v.projectEntities, k, o.(status := gate.status));
        assert Plan(v, env, ProjectEntityRef(k)) == [PutProjectEntity(k, gate.status)];
        IdleRun(v, Plan(v, env, ProjectEntityRef(k)));
      }
    }
  }

  // ---- Entities ------------------------------------------------------------------------------------------------

  lemma EntityUpdatesAbsorb(st: EntityStatus, g: int, reason: Reason, m: Message, summary: Message,
                            identity: ServiceAccountIdentity, id: string)
    ensures var b := EntityBlocked(st, g, reason, m); EntityBlocked(b, g, reason, m) == b && b.observed == st.observed
    ensures var b := EntityFailed(st, g, m, summary); EntityFailed(b, g, m, summary) == b && b.observed == st.observed
    ensures var b := EntityDone(st, g, identity, id); EntityDone(b, g, identity, id) == b && b.observed == st.observed
  {
    UpdatesAbsorb(st.conditions, g, IdentityResolved, reason, m, summary);
    UpdatesAbsorb(st.conditions, g, IdentityResolved, ControlPlaneUnavailable, m, summary);
    ReadyAbsorbs(st.conditions, Condition(IdentityResolved, Yes, Reason.Reconciled, NoMessage, g), g);
  }

  lemma EntityPastTrustAbsorbs(env: Env, k: Key, o: Entity, st: EntityStatus, trust: Trust)
    requires st.observed == o.meta.generation
    ensures var next := EntityPastTrust(env, k, o, st, trust);
            next.Some? ==> && next.value.observed == o.meta.generation
                           && EntityPastTrust(env, k, o.(status := next.value), next.value, trust) == next
  {
    hide EntityBlocked, EntityFailed, EntityDone, ResolveIdentity, ControlPlaneIssuer, ResolveControlPlaneAudience,
      IdentityID;
    var g, ck := o.meta.generation, Key(k.namespace, trust.spec.controlPlane);
    var resolved := ResolveIdentity(env, ck, o.spec, ResolveControlPlaneAudience(trust.status.audience));
    var identity := if resolved.Some? then resolved.value else ServiceAccountIdentity("", "", "", []);
    EntityUpdatesAbsorb(st, g, DependencyNotFound, About(ck.name), About("issuer"), identity,
                        IdentityID(env.sha, resolved));
    EntityUpdatesAbsorb(st, g, DependencyNotFound, About(o.spec.saName), About("identity"), identity, "");
    if ck in env.accessErrors {
      EntityUpdatesAbsorb(st, g, DependencyNotFound, ErrorText(env.accessErrors[ck]), About("access"), identity, "");
    }
  }

  lemma EntityNextAbsorbs(w: World, v: World, env: Env, k: Key, o: Entity)
    requires w.trusts == v.trusts
    ensures var next := EntityNext(w, env, k, o);
            next.Some? ==> EntityNext(v, env, k, o.(status := next.value)) == next
  {
    hide EntityBlocked, EntityPastTrust, IsTrue;
    var g, tk := o.meta.generation, Key(k.namespace, o.spec.trust);
    var st := o.status.(observed := g);
    var none := ServiceAccountIdentity("", "", "", []);
    EntityUpdatesAbsorb(st, g, DependencyNotFound, About(tk.name), NoMessage, none, "");
    EntityUpdatesAbsorb(st, g, DependencyMissesReadiness, About(tk.name), NoMessage, none, "");
    if tk in w.trusts {
      EntityPastTrustAbsorbs(env, k, o, st, w.trusts[tk]);
      StatusUnread(env, k, o, st, w.trusts[tk]);
    }
  }

  lemma StatusUnread(env: Env, k: Key, o: Entity, st: EntityStatus, trust: Trust)
    ensures forall s :: EntityPastTrust(env, k, o.(status := s), st, trust) == EntityPastTrust(env, k, o, st, trust)
  {
  }

  lemma EntityTwice(w: World, env: Env, k: Key)
    ensures var v := Reconcile(w, env, EntityRef(k)); Reconcile(v, env, EntityRef(k)) == v
  {
    hide EntityNext, ApplyAll;
    var v := Reconcile(w, env, EntityRef(k));
    if EntityPlan(w, env, k) == [] {
      assert v == w by {
        IdleRun(w, []);
      }
    } else {
      var o := w.entities[k];
      var st := EntityNext(w, env, k, o).value;
      ApplyOne(w, PutEntity(k, st));
      EntityNextAbsorbs(w, v, env, k, o);
      PutSame(v.entities, k, o.(status := st));
      assert Plan(v, env, EntityRef(k)) == [PutEntity(k, st)];
      IdleRun(v, Plan(v, env, EntityRef(k)));
    }
  }

  // ---- Trusts --------------------------------------------------------------------------------------------------

  /** The statuses differ in conditions only. */
  predicate SameFields(a: TrustStatus, b: TrustStatus) {
    a == b.(conditions := a.conditions)
  }

  lemma TrustUpdatesAbsorb(st: TrustStatus, g: int, reason: Reason, m: Message, summary: Message, text: string)
    ensures var b := TrustBlocked(st, g, reason, m); TrustBlocked(b, g, reason, m) == b && SameFields(b, st)
    ensures var b := TrustFailed(st, g, reason, m, summary);
            TrustFailed(b, g, reason, m, summary) == b && SameFields(b, st)
    ensures var b := TrustDone(st, g); TrustDone(b, g) == b && SameFields(b, st)
    ensures var b := TrustCallFailed(st, g, text); TrustCallFailed(b, g, text) == b && SameFields(b, st)
  {
    UpdatesAbsorb(st.conditions, g, TrustConfigured, reason, m, summary);
    ReadyAbsorbs(st.conditions, Condition(TrustConfigured, Yes, Reason.Reconciled, NoMessage, g), g);
  }

  lemma TrustReportAbsorbs(w: World, v: World, env: Env, k: Key, o: Trust)
    requires env.mountPrefix.Some? && w.instances == v.instances && w.projectEntities == v.projectEntities
    requires TrustGateOf(w, env, k, o).TrustReports?
    ensures var gate := TrustGateOf(w, env, k, o); TrustGateOf(v, env, k, o.(status := gate.status)) == gate
  {
    hide TrustBlocked, TrustFailed, Reachable, TrustMount, TrustConfig, ControlPlaneIssuer, ResolveControlPlaneAudience;
    var pk, g := o.spec.projectEntity, o.meta.generation;
    var ck := Key(k.namespace, o.spec.controlPlane);
    var st := o.status.(observed := g);
    TrustUpdatesAbsorb(st, g, DependencyNotFound, About(pk.name), NoMessage, "");
    if pk in w.projectEntities {
      var n := w.projectEntities[pk].spec.instance;
      TrustUpdatesAbsorb(st, g, DependencyNotFound, About(n), NoMessage, "");
      TrustUpdatesAbsorb(st.(resolved := n), g, OpenBaoUnreachable, About(n), NoMessage, "");
      TrustUpdatesAbsorb(st.(resolved := n), g, DependencyNotFound, About(ck.name), NoMessage, "");
      TrustUpdatesAbsorb(st.(resolved := n), g, IssuerDiscoveryFailed, About(ck.name), About("issuer"), "");
    }
  }

  lemma TrustConfigureAbsorbs(w: World, v: World, env: Env, k: Key, o: Trust, st: TrustStatus)
    requires env.mountPrefix.Some? && w.instances == v.instances && w.projectEntities == v.projectEntities
    requires TrustGateOf(w, env, k, o).TrustConfigures? && SameFields(st, TrustGateOf(w, env, k, o).status)
    ensures var gate := TrustGateOf(w, env, k, o); TrustGateOf(v, env, k, o.(status := st)) == gate.(status := st)
  {
    hide TrustBlocked, TrustFailed, Reachable, TrustMount, TrustConfig, ControlPlaneIssuer, ResolveControlPlaneAudience;
  }

  /** The status the backend calls end with. */
  function CallsEnd(w: World, env: Env, g: int, gate: TrustGate): TrustStatus
    requires gate.TrustConfigures?
  {
    var n, st := gate.instance, gate.status;
    match Client(w, env, n)
    case Failure(text) => TrustFailed(st, g, OpenBaoUnreachable, ErrorText(text), ErrorText(text))
    case Success(_) =>
      if CallMount(n) in env.callErrors then TrustCallFailed(st, g, env.callErrors[CallMount(n)])
      else if CallConfig(n) in env.callErrors then TrustCallFailed(st, g, env.callErrors[CallConfig(n)])
      else TrustDone(st, g)
  }

  lemma CallsEndAbsorbs(w: World, v: World, env: Env, k: Key, g: int, gate: TrustGate)
    requires gate.TrustConfigures? && w.backends.Keys == v.backends.Keys
    ensures var st := CallsEnd(w, env, g, gate);
            && SameFields(st, gate.status)
            && TrustBackendWrites(v, env, k, g, gate.(status := st)) == TrustBackendWrites(w, env, k, g, gate)
  {
    hide TrustFailed, TrustCallFailed, TrustDone, SameFields;
    var n, st := gate.instance, gate.status;
    match Client(w, env, n)
    case Failure(text) => TrustUpdatesAbsorb(st, g, OpenBaoUnreachable, ErrorText(text), ErrorText(text), "");
    case Success(_) =>
      if CallMount(n) in env.callErrors {
        TrustUpdatesAbsorb(st, g, OpenBaoUnreachable, NoMessage, NoMessage, env.callErrors[CallMount(n)]);
      } else if CallConfig(n) in env.callErrors {
        TrustUpdatesAbsorb(st, g, OpenBaoUnreachable, NoMessage, NoMessage, env.callErrors[CallConfig(n)]);
      } else {
        TrustUpdatesAbsorb(st, g, OpenBaoUnreachable, NoMessage, NoMessage, "");
      }
  }

  /** After the calls each of them is idle, and only the trust's status and the backends have changed. */
  lemma BackendWritesIdle(w: World, env: Env, k: Key, g: int, gate: TrustGate)
    requires gate.TrustConfigures? && k in w.trusts
    ensures var xs := TrustBackendWrites(w, env, k, g, gate); var v := ApplyAll(w, xs);
            && (forall x | x in xs :: Idle(v, x)) && v.backends.Keys == w.backends.Keys
            && v == w.(trusts := w.trusts[k := w.trusts[k].(status := CallsEnd(w, env, g, gate))],
                       backends := v.backends)
  {
    hide TrustFailed, TrustCallFailed, TrustDone, ApplyAll;
    var n, path := gate.instance, gate.path;
    var st := CallsEnd(w, env, g, gate);
    var xs := TrustBackendWrites(w, env, k, g, gate);
    if Client(w, env, n).Failure? || CallMount(n) in env.callErrors {
      PutTrustIdle(w, k, st);
    } else if CallConfig(n) in env.callErrors {
      MountPutIdle(w, k, n, path, st);
    } else {
      MountConfigPutIdle(w, k, n, path, gate.config, st);
    }
  }

  lemma PutTrustIdle(w: World, k: Key, st: TrustStatus)
    requires k in w.trusts
    ensures var v := ApplyAll(w, [PutTrust(k, st)]);
            Idle(v, PutTrust(k, st)) && v == w.(trusts := w.trusts[k := w.trusts[k].(status := st)])
  {
    ApplyOne(w, PutTrust(k, st));
    var v := Apply(w, PutTrust(k, st));
    PutSame(v.trusts, k, w.trusts[k].(status := st));
  }

  lemma MountIdle(s: State, path: string)
    requires path in s.mounts
    ensures WithMount(s, path) == s
  {
    assert s.mounts + {path} == s.mounts;
  }

  lemma MountPutIdle(w: World, k: Key, n: string, path: string, st: TrustStatus)
    requires k in w.trusts && n in w.backends
    ensures var v := ApplyAll(w, [WriteMount(n, path), PutTrust(k, st)]);
            && Idle(v, WriteMount(n, path)) && Idle(v, PutTrust(k, st))
            && v == w.(trusts := w.trusts[k := w.trusts[k].(status := st)],
                       backends := w.backends[n := WithMount(w.backends[n], path)])
  {
    hide ApplyAll;
    ApplyOne(w, WriteMount(n, path));
    ApplySnoc(w, [WriteMount(n, path)], PutTrust(k, st));
    assert [WriteMount(n, path)] + [PutTrust(k, st)] == [WriteMount(n, path), PutTrust(k, st)];
    var v := ApplyAll(w, [WriteMount(n, path), PutTrust(k, st)]);
    MountIdle(v.backends[n], path);
    PutSame(v.backends, n, v.backends[n]);
    PutSame(v.trusts, k, v.trusts[k]);
  }

  function Trusting(s: State, path: string, config: JWTAuthConfig): State {
    s.(mounts := s.mounts + {path}, configs := s.configs[path := config])
  }

  lemma TrustingAgain(s: State, path: string, config: JWTAuthConfig)
    ensures var r := Trusting(s, path, config); WithMount(r, path) == r && WithConfig(r, path, config) == Some(r)
  {
    var r := Trusting(s, path, config);
    MountIdle(r, path);
    PutSame(r.configs, path, config);
  }

  lemma AppliedCall(w: World, x: Write)
    requires IsBackendWrite(x) && x.backend in w.backends
    ensures Apply(w, x) == w.(backends := w.backends[x.backend := OnBackend(w.backends[x.backend], x)])
  {
    hide Apply, OnBackend;
    ApplyParts(w, x);
  }

  lemma MountConfig(w: World, n: string, path: string, config: JWTAuthConfig)
    requires n in w.backends
    ensures ApplyAll(w, [WriteMount(n, path), WriteConfig(n, path, config)])
            == w.(backends := w.backends[n := Trusting(w.backends[n], path, config)])
  {
    hide ApplyAll, Apply, OnBackend, Trusting;
    var u := Apply(w, WriteMount(n, path));
    ApplyOne(w, WriteMount(n, path));
    ApplySnoc(w, [WriteMount(n, path)], WriteConfig(n, path, config));
    assert [WriteMount(n, path)] + [WriteConfig(n, path, config)]
           == [WriteMount(n, path), WriteConfig(n, path, config)];
    AppliedCall(w, WriteMount(n, path));
    AppliedCall(u, WriteConfig(n, path, config));
    MountThenTrust(w.backends[n], n, path, config);
  }

  lemma MountThenTrust(s: State, n: string, path: string, config: JWTAuthConfig)
    ensures OnBackend(OnBackend(s, WriteMount(n, path)), WriteConfig(n, path, config)) == Trusting(s, path, config)
  {
  }

  lemma MountConfigPut(w: World, k: Key, n: string, path: string, config: JWTAuthConfig, st: TrustStatus)
    requires k in w.trusts && n in w.backends
    ensures ApplyAll(w, [WriteMount(n, path), WriteConfig(n, path, config), PutTrust(k, st)])
            == w.(trusts := w.trusts[k := w.trusts[k].(status := st)],
                  backends := w.backends[n := Trusting(w.backends[n], path, config)])
  {
    hide ApplyAll, Trusting;
    var calls := [WriteMount(n, path), WriteConfig(n, path, config)];
    MountConfig(w, n, path, config);
    ApplySnoc(w, calls, PutTrust(k, st));
    assert calls + [PutTrust(k, st)] == [WriteMount(n, path), WriteConfig(n, path, config), PutTrust(k, st)];
  }

  lemma MountConfigPutIdle(w: World, k: Key, n: string, path: string, config: JWTAuthConfig, st: TrustStatus)
    requires k in w.trusts && n in w.backends
    ensures var v := ApplyAll(w, [WriteMount(n, path), WriteConfig(n, path, config), PutTrust(k, st)]);
            && Idle(v, WriteMount(n, path)) && Idle(v, WriteConfig(n, path, config)) && Idle(v, PutTrust(k, st))
            && v.backends.Keys == w.backends.Keys
            && v == w.(trusts := w.trusts[k := w.trusts[k].(status := st)], backends := v.backends)
  {
    hide ApplyAll, Trusting, WithMount, WithConfig, Apply, Idle;
    MountConfigPut(w, k, n, path, config, st);
    var v := ApplyAll(w, [WriteMount(n, path), WriteConfig(n, path, config), PutTrust(k, st)]);
    TrustingAgain(w.backends[n], path, config);
    CallIdle(v, WriteMount(n, path));
    CallIdle(v, WriteConfig(n, path, config));
    PutTrustAgain(v, k);
  }

  predicate LiveTrust(w: World, env: Env, k: Key) {
    k in w.trusts && TrustRef(k) !in env.faults && env.mountPrefix.Some? && !w.trusts[k].meta.deleting
  }

  function HeldTrust(w: World, k: Key): World
    requires k in w.trusts
  {
    w.(trusts := w.trusts[k := w.trusts[k].(meta := Held(w.trusts[k].meta, true))])
  }

  /** The finalizer first, then the body on the held trust. */
  lemma LiveTrustResult(w: World, env: Env, k: Key)
    requires LiveTrust(w, env, k)
    ensures var h := HeldTrust(w, k); Reconcile(w, env, TrustRef(k)) == ApplyAll(h, TrustBody(h, env, k, h.trusts[k]))
    ensures OwnFinalizer in w.trusts[k].meta.finalizers ==> HeldTrust(w, k) == w
  {
    hide TrustBackendWrites, TrustPastInstance, TrustBlocked, Reachable, ApplyAll;
    var o, h := w.trusts[k], HeldTrust(w, k);
    assert TrustBody(h, env, k, h.trusts[k]) == TrustBody(w, env, k, o) by {
      HeldBody(w, env, k);
    }
    if OwnFinalizer in o.meta.finalizers {
      assert o.meta.finalizers + {OwnFinalizer} == o.meta.finalizers;
      PutSame(w.trusts, k, o);
      assert [] + TrustBody(w, env, k, o) == TrustBody(w, env, k, o);
    } else {
      ApplyOne(w, AddTrustFinalizer(k));
      ApplyAppend(w, [AddTrustFinalizer(k)], TrustBody(w, env, k, o));
    }
  }

  lemma HeldBody(w: World, env: Env, k: Key)
    requires LiveTrust(w, env, k)
    ensures var h := HeldTrust(w, k); TrustBody(h, env, k, h.trusts[k]) == TrustBody(w, env, k, w.trusts[k])
  {
    hide TrustBody;
    var o, h := w.trusts[k], HeldTrust(w, k);
    TrustBodyAt(w, h, env, k, o);
    MetaUnread(h, env, k, o, Held(o.meta, true));
  }

  lemma MetaUnread(w: World, env: Env, k: Key, o: Trust, meta: Meta)
    requires env.mountPrefix.Some? && meta.generation == o.meta.generation
    ensures TrustBody(w, env, k, o) == TrustBody(w, env, k, o.(meta := meta))
  {
    hide TrustBackendWrites, TrustBlocked, Reachable;
  }

  /** A body run on the world its own first run left is the same list, all of it idle. */
  lemma BodyTwice(w: World, env: Env, k: Key)
    requires LiveTrust(w, env, k)
    ensures var xs := TrustBody(w, env, k, w.trusts[k]); var v := ApplyAll(w, xs);
            && k in v.trusts && v.trusts[k].meta == w.trusts[k].meta
            && TrustBody(v, env, k, v.trusts[k]) == xs && (forall x | x in xs :: Idle(v, x))
  {
    hide TrustGateOf, TrustBackendWrites, CallsEnd, ApplyAll, Idle, SameFields;
    var o := w.trusts[k];
    var gate, g := TrustGateOf(w, env, k, o), o.meta.generation;
    match gate
    case TrustAborts => IdleRun(w, []);
    case TrustReports(st) =>
      PutTrustIdle(w, k, st);
      TrustReportAbsorbs(w, ApplyAll(w, [PutTrust(k, st)]), env, k, o);
    case TrustConfigures(_, _, _, _) =>
      BackendWritesIdle(w, env, k, g, gate);
      var v := ApplyAll(w, TrustBackendWrites(w, env, k, g, gate));
      CallsEndAbsorbs(w, v, env, k, g, gate);
      TrustConfigureAbsorbs(w, v, env, k, o, CallsEnd(w, env, g, gate));
  }

  lemma LiveTrustTwice(w: World, env: Env, k: Key)
    requires LiveTrust(w, env, k)
    ensures var v := Reconcile(w, env, TrustRef(k)); Reconcile(v, env, TrustRef(k)) == v
  {
    hide TrustBody, ApplyAll, Reconcile, Idle;
    var h := HeldTrust(w, k);
    var v := ApplyAll(h, TrustBody(h, env, k, h.trusts[k]));
    LiveTrustResult(w, env, k);
    BodyTwice(h, env, k);
    LiveTrustResult(v, env, k);
    IdleRun(v, TrustBody(v, env, k, v.trusts[k]));
  }

  // ---- Terminating trusts ---------------------------------------------------------------------------------------

  lemma WithoutMountTwice(s: State, path: string)
    ensures WithoutMount(WithoutMount(s, path), path) == WithoutMount(s, path)
  {
    var r := WithoutMount(s, path);
    assert r.mounts - {path} == r.mounts && r.configs - {path} == r.configs;
    assert Swept(r.roles, path) == r.roles;
  }

  lemma RemovedMount(w: World, n: string, path: string)
    requires n in w.backends
    ensures var v := ApplyAll(w, [RemoveMount(n, path)]);
            Idle(v, RemoveMount(n, path)) && v == w.(backends := w.backends[n := WithoutMount(w.backends[n], path)])
  {
    hide WithoutMount, ApplyAll, Idle;
    ApplyOne(w, RemoveMount(n, path));
    WithoutMountTwice(w.backends[n], path);
    CallIdle(ApplyAll(w, [RemoveMount(n, path)]), RemoveMount(n, path));
  }

  lemma ReleasedKeepsRest(w: World, k: Key)
    ensures ReleasedTrust(w, k) == w.(trusts := ReleasedTrust(w, k).trusts)
    ensures k in ReleasedTrust(w, k).trusts ==>
              k in w.trusts && ReleasedTrust(w, k).trusts[k] == w.trusts[k].(meta := Held(w.trusts[k].meta, false))
  {
  }

  lemma IdleElsewhere(w: World, trusts: map<Key, Trust>, x: Write)
    requires Idle(w, x) && x.RemoveMount?
    ensures Idle(w.(trusts := trusts), x)
  {
    hide OnBackend;
    ApplyParts(w, x);
    ApplyParts(w.(trusts := trusts), x);
  }

  datatype Teardown = Teardown(remove: seq<Write>, drop: seq<Write>)

  /** The two halves of a teardown's list. */
  lemma TeardownHalves(w: World, env: Env, k: Key, o: Trust) returns (h: Teardown)
    ensures TrustTeardown(w, env, k, o) == h.remove + h.drop
    ensures h.remove == []
            || (h.remove == [RemoveMount(o.status.resolved, o.status.authMountPath)] && o.status.resolved in w.backends)
    ensures h.drop == [] || (h.drop == [DropTrustFinalizer(k)] && OwnFinalizer in o.meta.finalizers)
    ensures h.drop == [] && OwnFinalizer in o.meta.finalizers ==> h.remove == []
  {
    hide Reachable;
    var xs := TrustTeardown(w, env, k, o);
    if xs != [] && xs[0].RemoveMount? {
      h := Teardown([xs[0]], xs[1..]);
    } else {
      h := Teardown([], xs);
      assert [] + xs == xs;
    }
  }

  lemma TeardownWithoutFinalizer(w: World, v: World, env: Env, k: Key, o: Trust, p: Trust)
    requires w.instances == v.instances && w.backends.Keys == v.backends.Keys
    requires p.status == o.status && OwnFinalizer !in p.meta.finalizers
    ensures forall x | x in TrustTeardown(v, env, k, p) :: x in TrustTeardown(w, env, k, o) && x.RemoveMount?
  {
    hide Reachable;
  }

  /** What a finalizing run leaves: every mount removal idle, and the trust, if still there, without the finalizer. */
  predicate Finalized(w: World, v: World, k: Key, xs: seq<Write>)
    requires k in w.trusts
  {
    && (forall x | x in xs && x.RemoveMount? :: Idle(v, x))
    && v.instances == w.instances && v.backends.Keys == w.backends.Keys
    && (v == w || k !in v.trusts
        || (v.trusts[k].status == w.trusts[k].status && v.trusts[k].meta.deleting
            && OwnFinalizer !in v.trusts[k].meta.finalizers))
  }

  lemma RemovedThenReleased(w: World, k: Key, n: string, path: string, drop: seq<Write>)
    requires k in w.trusts && w.trusts[k].meta.deleting && n in w.backends
    requires drop == [DropTrustFinalizer(k)] || (drop == [] && OwnFinalizer !in w.trusts[k].meta.finalizers)
    ensures Finalized(w, ApplyAll(w, [RemoveMount(n, path)] + drop), k, [RemoveMount(n, path)] + drop)
  {
    hide ApplyAll, ReleasedTrust, Idle, Apply, WithoutMount;
    ApplyAppend(w, [RemoveMount(n, path)], drop);
    RemovedMount(w, n, path);
    var u := ApplyAll(w, [RemoveMount(n, path)]);
    if drop == [] {
      IdleRun(u, []);
    } else {
      ReleaseAfter(u, k);
      IdleElsewhere(u, ReleasedTrust(u, k).trusts, RemoveMount(n, path));
    }
  }

  lemma DyingTrustResult(w: World, env: Env, k: Key)
    requires k in w.trusts && TrustRef(k) !in env.faults && env.mountPrefix.Some? && w.trusts[k].meta.deleting
    ensures Finalized(w, Reconcile(w, env, TrustRef(k)), k, TrustTeardown(w, env, k, w.trusts[k]))
  {
    hide ApplyAll, TrustTeardown, ReleasedTrust, Idle, Apply;
    var o := w.trusts[k];
    var h := TeardownHalves(w, env, k, o);
    assert Plan(w, env, TrustRef(k)) == h.remove + h.drop;
    if h.remove != [] {
      RemovedThenReleased(w, k, o.status.resolved, o.status.authMountPath, h.drop);
    } else {
      assert h.remove + h.drop == h.drop;
      if h.drop == [] {
        IdleRun(w, []);
      } else {
        ReleaseAfter(w, k);
      }
    }
  }

  lemma ReleaseAfter(u: World, k: Key)
    ensures ApplyAll(u, [DropTrustFinalizer(k)]) == u.(trusts := ReleasedTrust(u, k).trusts)
    ensures k in ReleasedTrust(u, k).trusts ==>
              k in u.trusts && ReleasedTrust(u, k).trusts[k] == u.trusts[k].(meta := Held(u.trusts[k].meta, false))
  {
    hide ApplyAll, ReleasedTrust;
    ApplyOne(u, DropTrustFinalizer(k));
    ReleasedKeepsRest(u, k);
  }

  lemma DyingTrustTwice(w: World, env: Env, k: Key)
    requires k in w.trusts && TrustRef(k) !in env.faults && env.mountPrefix.Some? && w.trusts[k].meta.deleting
    ensures var v := Reconcile(w, env, TrustRef(k)); Reconcile(v, env, TrustRef(k)) == v
  {
    hide ApplyAll, TrustTeardown, Idle;
    var v := Reconcile(w, env, TrustRef(k));
    DyingTrustResult(w, env, k);
    if v != w {
      if k in v.trusts {
        TeardownWithoutFinalizer(w, v, env, k, w.trusts[k], v.trusts[k]);
      }
      IdleRun(v, Plan(v, env, TrustRef(k)));
    }
  }

  lemma TrustTwice(w: World, env: Env, k: Key)
    ensures var v := Reconcile(w, env, TrustRef(k)); Reconcile(v, env, TrustRef(k)) == v
  {
    hide TrustBody, TrustTeardown, ApplyAll;
    if LiveTrust(w, env, k) {
      LiveTrustTwice(w, env, k);
    } else if k in w.trusts && TrustRef(k) !in env.faults && env.mountPrefix.Some? {
      DyingTrustTwice(w, env, k);
    } else {
      assert Plan(w, env, TrustRef(k)) == [];
      IdleRun(w, []);
    }
  }

  // ---- Bindings ---------------------------------------------------------------------------------------------------

  lemma BindingNextAbsorbs(o: Binding, outs: seq<RefOutcome>, meta: Meta)
    requires !Aborted(outs) && meta.generation == o.meta.generation
    ensures var st := BindingNext(o, outs); BindingNext(Binding(meta, o.spec, st), outs) == st
  {
    hide Aborted, Entries, Blocking, SomeMissing, AllPresent, PolicyVerdict;
  }

  lemma ResultAfter(w: World, env: Env, key: Key)
    requires LiveBinding(w, env, key)
    ensures var v := Reconcile(w, env, BindingRef(key));
            && key in v.bindings && v.bindings[key] == BindingAfter(w.bindings[key], OutcomesOf(w, env, key))
            && v.backends == ApplyAll(w, LoopWrites(OutcomesOf(w, env, key))).backends
            && OnlyRoles(w.(bindings := v.bindings), v)
  {
    hide Reconcile, LoopWrites, ApplyAll, Lands, LastAt, OutcomesOf, BindingAfter, Aborted, RolesIn;
    LiveBindingResult(w, env, key);
    LoopLands(w, env, key);
    RolesAfter(w, LoopWrites(OutcomesOf(w, env, key)), "", "");
  }

  lemma OnlyRolesKeepInputs(w: World, v: World)
    requires OnlyRoles(w.(bindings := v.bindings), v)
    ensures BindingInputsAgree(w, v)
  {
  }

  lemma SameOutcomesAfter(w: World, env: Env, key: Key)
    requires LiveBinding(w, env, key)
    ensures var v := Reconcile(w, env, BindingRef(key));
            && LiveBinding(v, env, key) && v.bindings[key] == BindingAfter(w.bindings[key], OutcomesOf(w, env, key))
            && v.backends == ApplyAll(w, LoopWrites(OutcomesOf(w, env, key))).backends
            && OutcomesOf(v, env, key) == OutcomesOf(w, env, key)
  {
    hide Reconcile, LoopWrites, ApplyAll, Outcomes, BindingNext, Aborted, OnlyRoles, BindingInputsAgree;
    var v := Reconcile(w, env, BindingRef(key));
    ResultAfter(w, env, key);
    OnlyRolesKeepInputs(w, v);
    OutcomesFrame(w, v, env, key, w.bindings[key].spec, w.bindings[key].spec.refs);
  }

  /** The writes of the loop, made once more, leave every role as the first time. */
  lemma LoopAgain(w: World, v: World, env: Env, key: Key)
    requires key in w.bindings && v == ApplyAll(w, LoopWrites(OutcomesOf(w, env, key)))
    ensures ApplyAll(v, LoopWrites(OutcomesOf(w, env, key))) == v
  {
    hide LoopWrites, ApplyAll, Lands, LastAt, OutcomesOf, OnlyRoles, RolesIn;
    var xs := LoopWrites(OutcomesOf(w, env, key));
    LoopLands(w, env, key);
    RolesAfter(w, xs, "", "");
    forall x | x in xs ensures Lands(v, x) {
      LandsKept(w, v, x);
    }
    RolesAfter(v, xs, "", "");
    var u := ApplyAll(v, xs);
    forall n ensures RolesIn(u, n) == RolesIn(v, n) {
      forall slot ensures (slot in RolesIn(u, n) <==> slot in RolesIn(v, n))
                       && (slot in RolesIn(u, n) ==> RolesIn(u, n)[slot] == RolesIn(v, n)[slot])
      {
        RolesAfter(w, xs, n, slot);
        RolesAfter(v, xs, n, slot);
      }
    }
    OnlyRolesTransitive(w, v, u);
    SameRolesSameBackends(w, u, v);
    BackendsOnly(v, u);
  }

  lemma BackendsOnly(v: World, u: World)
    requires OnlyRoles(v, u) && u.backends == v.backends
    ensures u == v
  {
  }

  lemma LiveBindingTwice(w: World, env: Env, key: Key)
    requires LiveBinding(w, env, key)
    ensures var v := Reconcile(w, env, BindingRef(key)); Reconcile(v, env, BindingRef(key)) == v
  {
    hide Reconcile, LoopWrites, ApplyAll, OutcomesOf, BindingNext, Aborted, OnlyRoles;
    var v, outs := Reconcile(w, env, BindingRef(key)), OutcomesOf(w, env, key);
    var xs := LoopWrites(outs);
    SameOutcomesAfter(w, env, key);
    LiveBindingResult(w, env, key);
    LiveBindingResult(v, env, key);
    var u := ApplyAll(w, xs);
    LoopAgain(w, u, env, key);
    assert v == u.(bindings := v.bindings);
    LoopLands(w, env, key);
    LoopWritesOnResult(w, u, v, env, key);
    AfterTwice(w.bindings[key], outs);
    PutSame(v.bindings, key, v.bindings[key]);
  }

  lemma LoopWritesOnResult(w: World, u: World, v: World, env: Env, key: Key)
    requires key in w.bindings && u == ApplyAll(w, LoopWrites(OutcomesOf(w, env, key)))
             && v == u.(bindings := v.bindings)
    requires ApplyAll(u, LoopWrites(OutcomesOf(w, env, key))) == u
    ensures ApplyAll(v, LoopWrites(OutcomesOf(w, env, key))) == v
  {
    hide LoopWrites, ApplyAll, Lands, LastAt, OutcomesOf, OnlyRoles;
    var xs := LoopWrites(OutcomesOf(w, env, key));
    LoopLands(w, env, key);
    RolesAfter(w, xs, "", "");
    forall x | x in xs ensures Lands(u, x) {
      LandsKept(w, u, x);
    }
    RoleWritesCommute(u, v.bindings, xs);
  }

  lemma AfterTwice(o: Binding, outs: seq<RefOutcome>)
    ensures var p := BindingAfter(o, outs); BindingAfter(p, outs) == p
  {
    hide BindingNext, Aborted;
    var p := BindingAfter(o, outs);
    assert p.meta.finalizers + {OwnFinalizer} == p.meta.finalizers;
    if !Aborted(outs) {
      BindingNextAbsorbs(o, outs, p.meta);
    }
  }

  lemma RoleRemovalIdle(w: World, x: Write)
    requires x.RemoveRole? && Slot(x.path, x.name) !in RolesIn(w, x.backend)
    ensures Idle(w, x)
  {
    hide Idle, Slot;
    if x.backend in w.backends {
      assert w.backends[x.backend].roles - {Slot(x.path, x.name)} == w.backends[x.backend].roles;
    }
    CallIdle(w, x);
  }

  /** After a list of removals each of them is idle, whatever becomes of the bindings. */
  lemma RemovalsIdle(w: World, xs: seq<Write>, bindings: map<Key, Binding>)
    requires forall x | x in xs :: x.RemoveRole?
    ensures forall x | x in xs :: Idle(ApplyAll(w, xs).(bindings := bindings), x)
  {
    hide ApplyAll, Idle, Slot, OnlyRoles;
    var v := ApplyAll(w, xs);
    forall x | x in xs ensures Idle(v.(bindings := bindings), x) {
      RolesLeft(w, xs, x.backend, Slot(x.path, x.name));
      assert At(x, x.backend, Slot(x.path, x.name));
      RoleRemovalIdle(v.(bindings := bindings), x);
    }
  }

  lemma SameRemovals(w: World, v: World, env: Env, namespace: string, entries: seq<RoleStatus>)
    requires RemovalInputsAgree(v, w)
    ensures RemovalWrites(v, env, namespace, entries) == RemovalWrites(w, env, namespace, entries)
    ensures SomeRemovalFails(v, env, namespace, entries) <==> SomeRemovalFails(w, env, namespace, entries)
  {
    hide RemovalOf, RemovalInputsAgree;
    forall i | 0 <= i < |entries|
      ensures RemovalOf(v, env, namespace, entries[i]) == RemovalOf(w, env, namespace, entries[i])
    {
      RemovalFrame(v, w, env, namespace, entries[i]);
    }
    if entries != [] {
      SameRemovals(w, v, env, namespace, entries[..|entries| - 1]);
    }
  }

  lemma ReleasedBindingRest(w: World, k: Key)
    ensures ReleasedBinding(w, k) == w.(bindings := ReleasedBinding(w, k).bindings)
    ensures k in ReleasedBinding(w, k).bindings ==>
              var p := ReleasedBinding(w, k).bindings[k];
              && k in w.bindings && p.status == w.bindings[k].status && p.meta.deleting == w.bindings[k].meta.deleting
              && OwnFinalizer !in p.meta.finalizers
  {
  }

  predicate DyingKept(w: World, env: Env, key: Key) {
    key in w.bindings && BindingRef(key) !in env.faults && env.mountPrefix.Some? && w.bindings[key].meta.deleting
  }

  /** What a finalizing run leaves: the removals' backends, and the binding as it was or without the finalizer. */
  lemma DyingBindingResult(w: World, env: Env, key: Key)
    requires DyingKept(w, env, key)
    ensures var v := Reconcile(w, env, BindingRef(key));
            var entries := w.bindings[key].status.roles;
            && v == ApplyAll(w, RemovalWrites(w, env, key.namespace, entries)).(bindings := v.bindings)
            && RemovalInputsAgree(v, w)
            && (key in v.bindings ==>
                  && v.bindings[key].status == w.bindings[key].status && v.bindings[key].meta.deleting
                  && (SomeRemovalFails(w, env, key.namespace, entries)
                      || OwnFinalizer !in v.bindings[key].meta.finalizers))
  {
    hide RemovalWrites, ApplyAll, SomeRemovalFails, ReleasedBinding;
    var entries := w.bindings[key].status.roles;
    var xs := RemovalWrites(w, env, key.namespace, entries);
    RemovalsKeepInputs(w, env, key.namespace, entries);
    var u := ApplyAll(w, xs);
    if SomeRemovalFails(w, env, key.namespace, entries) || OwnFinalizer !in w.bindings[key].meta.finalizers {
      assert Plan(w, env, BindingRef(key)) == xs + [] == xs;
    } else {
      assert Plan(w, env, BindingRef(key)) == xs + [DropBindingFinalizer(key)];
      ApplySnoc(w, xs, DropBindingFinalizer(key));
      ReleasedBindingRest(u, key);
    }
  }

  lemma DyingBindingTwice(w: World, env: Env, key: Key)
    requires DyingKept(w, env, key)
    ensures var v := Reconcile(w, env, BindingRef(key)); Reconcile(v, env, BindingRef(key)) == v
  {
    hide RemovalWrites, ApplyAll, SomeRemovalFails, Idle, RemovalInputsAgree;
    var v, entries := Reconcile(w, env, BindingRef(key)), w.bindings[key].status.roles;
    var xs := RemovalWrites(w, env, key.namespace, entries);
    DyingBindingResult(w, env, key);
    SameRemovals(w, v, env, key.namespace, entries);
    forall x | x in xs ensures x.RemoveRole? {
      RemovalWritesAreRemovals(w, env, key.namespace, entries, x);
    }
    RemovalsIdle(w, xs, v.bindings);
    IdleRun(v, Plan(v, env, BindingRef(key)));
  }

  lemma BindingTwice(w: World, env: Env, key: Key)
    ensures var v := Reconcile(w, env, BindingRef(key)); Reconcile(v, env, BindingRef(key)) == v
  {
    hide BindingBody, BindingTeardown, ApplyAll;
    if LiveBinding(w, env, key) {
      LiveBindingTwice(w, env, key);
    } else if DyingKept(w, env, key) {
      DyingBindingTwice(w, env, key);
    } else {
      assert Plan(w, env, BindingRef(key)) == [];
      IdleRun(w, []);
    }
  }

  /**
   Reconciling any object twice in one environment, whatever fails in it, leaves exactly what
   reconciling it once leaves: every status, condition list, finalizer and backend.
   */
  lemma ReconcileTwice(w: World, env: Env, ref: Ref)
    ensures Reconcile(Reconcile(w, env, ref), env, ref) == Reconcile(w, env, ref)
  {
    hide Reconcile;
    match ref
    case InstanceRef(n) => InstanceTwice(w, env, n);
    case ProjectEntityRef(k) => ProjectEntityTwice(w, env, k);
    case TrustRef(k) => TrustTwice(w, env, k);
    case EntityRef(k) => EntityTwice(w, env, k);
    case BindingRef(k) => BindingTwice(w, env, k);
    case ControlPlaneRef(_) => NoPlan(w, env, ref);
  }

  lemma NoPlan(w: World, env: Env, ref: Ref)
    requires ref.ControlPlaneRef?
    ensures Reconcile(w, env, ref) == w
  {
    assert Plan(w, env, ref) == [];
    IdleRun(w, []);
  }
}
