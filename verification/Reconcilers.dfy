/**
 The five reconcilers as methods on the clusters and the backend clients. Each is proved to make
 exactly the writes of its plan, in that order, and to leave the world those writes lead to.
 */
module Reconcilers {
  import opened Wrappers
  import opened Naming
  import opened Identity
  import opened Conditions
  import opened Backend
  import opened Api
  import opened SystemState
  import opened Plans
  import opened Frames

  /** The run so far has made exactly the writes xs. */
  ghost predicate Wrote(was: World, now: World, logWas: seq<Write>, logNow: seq<Write>, xs: seq<Write>) {
    logNow == logWas + xs && now == ApplyAll(was, xs)
  }

  lemma WroteNothing(w: World, log: seq<Write>)
    ensures Wrote(w, w, log, log, [])
  {
    assert log + [] == log;
  }

  lemma WroteMore(w0: World, w1: World, w2: World, l0: seq<Write>, l1: seq<Write>, l2: seq<Write>, xs: seq<Write>,
                  x: Write)
    requires Wrote(w0, w1, l0, l1, xs) && w2 == Apply(w1, x) && l2 == l1 + [x]
    ensures Wrote(w0, w2, l0, l2, xs + [x])
  {
    ApplySnoc(w0, xs, x);
    assert l0 + (xs + [x]) == (l0 + xs) + [x];
  }

  lemma WroteOne(w0: World, w1: World, l0: seq<Write>, l1: seq<Write>, x: Write)
    requires w1 == Apply(w0, x) && l1 == l0 + [x]
    ensures Wrote(w0, w1, l0, l1, [x])
  {
    WroteNothing(w0, l0);
    WroteMore(w0, w0, w1, l0, l0, l1, [], x);
    assert [] + [x] == [x];
  }

  lemma WroteTwo(w0: World, w1: World, w2: World, l0: seq<Write>, l1: seq<Write>, l2: seq<Write>, x: Write, y: Write)
    requires Wrote(w0, w1, l0, l1, [x]) && w2 == Apply(w1, y) && l2 == l1 + [y]
    ensures Wrote(w0, w2, l0, l2, [x, y])
  {
    WroteMore(w0, w1, w2, l0, l1, l2, [x], y);
    assert [x] + [y] == [x, y];
  }

  lemma WroteThree(w0: World, w1: World, w2: World, l0: seq<Write>, l1: seq<Write>, l2: seq<Write>, x: Write, y: Write,
                   z: Write)
    requires Wrote(w0, w1, l0, l1, [x, y]) && w2 == Apply(w1, z) && l2 == l1 + [z]
    ensures Wrote(w0, w2, l0, l2, [x, y, z])
  {
    WroteMore(w0, w1, w2, l0, l1, l2, [x, y], z);
    assert [x, y] + [z] == [x, y, z];
  }

  lemma WroteThen(w0: World, w1: World, w2: World, l0: seq<Write>, l1: seq<Write>, l2: seq<Write>, xs: seq<Write>,
                  ys: seq<Write>)
    requires Wrote(w0, w1, l0, l1, xs) && Wrote(w1, w2, l1, l2, ys)
    ensures Wrote(w0, w2, l0, l2, xs + ys)
  {
    ApplyAppend(w0, xs, ys);
    assert l0 + (xs + ys) == (l0 + xs) + ys;
  }

  // ---- OpenBaoInstance ----------------------------------------------------------------------------

  method ProbeInstance(sys: System, env: Env, name: string, o: Instance) returns (st: InstanceStatus)
    ensures st == InstanceNext(sys.View(), env, name, o)
  {
    var g := o.meta.generation;
    st := o.status.(observed := g);
    var conds := new ConditionList(st.conditions);
    var failure := NoMessage;
    if CallFactory(name) in env.callErrors {
      failure := ErrorText(env.callErrors[CallFactory(name)]);
    } else if name !in sys.backends {
      failure := ErrorText("no backend");
    } else {
      var client := new FakeClient.On(sys.backends[name]);
      var probe := client.Health();
      match probe {
        case Failure(text) =>
          failure := ErrorText(text);
        case Success(info) =>
          st := st.(version := info.version, initialized := Some(info.initialized), sealed := Some(info.sealed));
          if !info.sealed && info.initialized {
            conds.SetCondition(g, OpenBaoReachable, Yes, Reason.Reconciled, NoMessage);
            conds.SetReady(g);
            return st.(conditions := conds.items);
          }
          failure := About("backend");
      }
    }
    conds.SetCondition(g, OpenBaoReachable, No, OpenBaoUnreachable, failure);
    conds.SetCondition(g, Ready, No, OpenBaoUnreachable, failure);
    st := st.(conditions := conds.items);
  }

  method ReconcileInstance(sys: System, env: Env, name: string)
    modifies sys
    ensures Wrote(old(sys.View()), sys.View(), old(sys.log), sys.log, InstancePlan(old(sys.View()), env, name))
  {
    ghost var w, log := sys.View(), sys.log;
    WroteNothing(w, log);
    if InstanceRef(name) in env.faults || name !in sys.instances {
      return;
    }
    var o := sys.instances[name];
    if o.meta.deleting || env.mountPrefix.None? {
      return;
    }
    var st := ProbeInstance(sys, env, name, o);
    sys.UpdateInstanceStatus(name, st);
    WroteOne(w, sys.View(), log, sys.log, PutInstance(name, st));
  }

  // ---- ProjectEntity --------------------------------------------------------------------------------

  method ReconcileProjectEntity(sys: System, env: Env, key: Key)
    modifies sys
    ensures Wrote(old(sys.View()), sys.View(), old(sys.log), sys.log, ProjectEntityPlan(old(sys.View()), env, key))
  {
    ghost var w, log := sys.View(), sys.log;
    WroteNothing(w, log);
    if ProjectEntityRef(key) in env.faults || key !in sys.projectEntities {
      return;
    }
    var o := sys.projectEntities[key];
    if o.meta.deleting || env.mountPrefix.None? {
      return;
    }
    ReconcileLiveProjectEntity(sys, env, key, o);
  }

  method PassProjectEntityGates(sys: System, env: Env, key: Key, o: ProjectEntity) returns (gate: ProjectEntityGate)
    ensures gate == ProjectEntityGateOf(sys.View(), env, key, o)
  {
    var g, n := o.meta.generation, o.spec.instance;
    var st := o.status.(observed := g);
    var conds := new ConditionList(st.conditions);
    if InstanceRef(n) in env.faults {
      return ProjectEntityAborts;
    }
    if n !in sys.instances {
      conds.SetDependencyNotReady(g, DependencyNotFound, About(n));
    } else {
      st := st.(resolved := n);
      if !Reachable(sys.instances[n]) {
        conds.SetDependencyNotReady(g, OpenBaoUnreachable, About(n));
      } else if CallFactory(n) in env.callErrors {
        conds.SetDependencyNotReady(g, OpenBaoUnreachable, ErrorText(env.callErrors[CallFactory(n)]));
      } else if n !in sys.backends {
        conds.SetDependencyNotReady(g, OpenBaoUnreachable, ErrorText("no backend"));
      } else if CallEntity(n) in env.callErrors {
        conds.SetDependencyNotReady(g, ReconcileError, ErrorText(env.callErrors[CallEntity(n)]));
      } else {
        return ProjectEntityEnrols(n, EntityName(env.sha, key.namespace, key.name), st);
      }
    }
    return ProjectEntityReports(st.(conditions := conds.items));
  }

  method ReconcileLiveProjectEntity(sys: System, env: Env, key: Key, o: ProjectEntity)
    requires key in sys.projectEntities
    modifies sys
    ensures Wrote(old(sys.View()), sys.View(), old(sys.log), sys.log, ProjectEntityBody(old(sys.View()), env, key, o))
  {
    hide Wrote, Apply, ApplyAll, ProjectEntityGateOf, MarkReady, EntityID;
    ghost var w, log := sys.View(), sys.log;
    WroteNothing(w, log);
    var gate := PassProjectEntityGates(sys, env, key, o);
    match gate {
      case ProjectEntityAborts =>
      case ProjectEntityReports(st) =>
        sys.UpdateProjectEntityStatus(key, st);
        WroteOne(w, sys.View(), log, sys.log, PutProjectEntity(key, st));
      case ProjectEntityEnrols(n, name, st) =>
        var id := sys.EnsureEntity(n, name);
        ghost var w1, log1 := sys.View(), sys.log;
        WroteOne(w, w1, log, log1, WriteEntity(n, name));
        var conds := new ConditionList(st.conditions);
        conds.SetReady(o.meta.generation);
        var done := st.(entityID := id, conditions := conds.items);
        sys.UpdateProjectEntityStatus(key, done);
        WroteTwo(w, w1, sys.View(), log, log1, sys.log, WriteEntity(n, name), PutProjectEntity(key, done));
    }
  }

  // ---- ControlPlaneTrust ------------------------------------------------------------------------------

  method PassTrustGates(sys: System, env: Env, key: Key, o: Trust) returns (gate: TrustGate)
    requires env.mountPrefix.Some?
    ensures gate == TrustGateOf(sys.View(), env, key, o)
  {
    var g, pk := o.meta.generation, o.spec.projectEntity;
    var st := o.status.(observed := g);
    var conds := new ConditionList(st.conditions);
    if ProjectEntityRef(pk) in env.faults {
      return TrustAborts;
    }
    if pk !in sys.projectEntities {
      conds.SetDependencyNotReady(g, DependencyNotFound, About(pk.name));
      return TrustReports(st.(conditions := conds.items));
    }
    var n := sys.projectEntities[pk].spec.instance;
    if InstanceRef(n) in env.faults {
      return TrustAborts;
    }
    if n !in sys.instances {
      conds.SetDependencyNotReady(g, DependencyNotFound, About(n));
      return TrustReports(st.(conditions := conds.items));
    }
    st := st.(resolved := n);
    if !Reachable(sys.instances[n]) {
      conds.SetDependencyNotReady(g, OpenBaoUnreachable, About(n));
      return TrustReports(st.(conditions := conds.items));
    }
    gate := PassControlPlaneGates(env, key, o, st, sys.instances[n]);
  }

  method PassControlPlaneGates(env: Env, key: Key, o: Trust, st: TrustStatus, inst: Instance) returns (gate: TrustGate)
    requires env.mountPrefix.Some?
    ensures gate == TrustPastInstance(env, key, o, st, inst)
  {
    var g, ck := o.meta.generation, Key(key.namespace, o.spec.controlPlane);
    var conds := new ConditionList(st.conditions);
    if ControlPlaneRef(ck) in env.faults {
      return TrustAborts;
    }
    if ck !in env.controlPlanes {
      conds.SetDependencyNotReady(g, DependencyNotFound, About(ck.name));
      return TrustReports(st.(conditions := conds.items));
    }
    var issuer := FindControlPlaneIssuer(env.controlPlanes[ck]);
    if issuer == "" {
      conds.SetCondition(g, TrustConfigured, No, IssuerDiscoveryFailed, About(ck.name));
      conds.SetCondition(g, Ready, No, IssuerDiscoveryFailed, About("issuer"));
      return TrustReports(st.(conditions := conds.items));
    }
    var path := TrustMount(env, key, o.spec, inst);
    return TrustConfigures(st.resolved, path, JWTAuthConfig(issuer + "/jwks", issuer),
                           st.(issuer := issuer, audience := ResolveControlPlaneAudience(o.spec.audience),
                               authMountPath := path));
  }

  method ConfigureTrust(sys: System, env: Env, key: Key, g: int, gate: TrustGate)
    requires gate.TrustConfigures? && key in sys.trusts
    modifies sys
    ensures Wrote(old(sys.View()), sys.View(), old(sys.log), sys.log,
                  TrustBackendWrites(old(sys.View()), env, key, g, gate))
  {
    hide Wrote, Apply, ApplyAll;
    ghost var w, log := sys.View(), sys.log;
    var n, path, st := gate.instance, gate.path, gate.status;
    var conds := new ConditionList(st.conditions);
    if CallFactory(n) in env.callErrors || n !in sys.backends {
      var failure := ErrorText(if CallFactory(n) in env.callErrors then env.callErrors[CallFactory(n)]
                               else "no backend");
      conds.SetCondition(g, TrustConfigured, No, OpenBaoUnreachable, failure);
      conds.SetCondition(g, Ready, No, OpenBaoUnreachable, failure);
      st := st.(conditions := conds.items);
      sys.UpdateTrustStatus(key, st);
      WroteOne(w, sys.View(), log, sys.log, PutTrust(key, st));
      return;
    }
    if CallMount(n) in env.callErrors {
      conds.SetCondition(g, TrustConfigured, No, ReconcileError, ErrorText(env.callErrors[CallMount(n)]));
      st := st.(conditions := conds.items);
      sys.UpdateTrustStatus(key, st);
      WroteOne(w, sys.View(), log, sys.log, PutTrust(key, st));
      return;
    }
    sys.EnsureJWTAuthMount(n, path);
    ghost var w1, log1 := sys.View(), sys.log;
    WroteOne(w, w1, log, log1, WriteMount(n, path));
    if CallConfig(n) in env.callErrors {
      conds.SetCondition(g, TrustConfigured, No, ReconcileError, ErrorText(env.callErrors[CallConfig(n)]));
      st := st.(conditions := conds.items);
      sys.UpdateTrustStatus(key, st);
      WroteTwo(w, w1, sys.View(), log, log1, sys.log, WriteMount(n, path), PutTrust(key, st));
      return;
    }
    var found := sys.ConfigureJWTTrust(n, path, gate.config);
    assert found;
    ghost var w2, log2 := sys.View(), sys.log;
    WroteTwo(w, w1, w2, log, log1, log2, WriteMount(n, path), WriteConfig(n, path, gate.config));
    conds.SetCondition(g, TrustConfigured, Yes, Reason.Reconciled, NoMessage);
    conds.SetReady(g);
    st := st.(conditions := conds.items);
    sys.UpdateTrustStatus(key, st);
    WroteThree(w, w2, sys.View(), log, log2, sys.log, WriteMount(n, path), WriteConfig(n, path, gate.config),
               PutTrust(key, st));
  }

  method ReconcileLiveTrust(sys: System, env: Env, key: Key, o: Trust)
    requires env.mountPrefix.Some? && key in sys.trusts
    modifies sys
    ensures Wrote(old(sys.View()), sys.View(), old(sys.log), sys.log, TrustBody(old(sys.View()), env, key, o))
  {
    hide Wrote, Apply, ApplyAll, TrustGateOf, TrustBackendWrites;
    ghost var w, log := sys.View(), sys.log;
    WroteNothing(w, log);
    var gate := PassTrustGates(sys, env, key, o);
    match gate {
      case TrustAborts =>
      case TrustReports(st) =>
        sys.UpdateTrustStatus(key, st);
        WroteOne(w, sys.View(), log, sys.log, PutTrust(key, st));
      case TrustConfigures(_, _, _, _) =>
        ConfigureTrust(sys, env, key, o.meta.generation, gate);
    }
  }

  method FinalizeTrust(sys: System, env: Env, key: Key, o: Trust)
    requires key in sys.trusts && sys.trusts[key] == o
    modifies sys
    ensures Wrote(old(sys.View()), sys.View(), old(sys.log), sys.log, TrustTeardown(old(sys.View()), env, key, o))
  {
    hide Wrote, Apply, ApplyAll;
    ghost var w, log := sys.View(), sys.log;
    WroteNothing(w, log);
    var n, path := o.status.resolved, o.status.authMountPath;
    ghost var xs: seq<Write> := [];
    if path != "" && n != "" {
      if InstanceRef(n) in env.faults {
        return;
      }
      if n in sys.instances && Reachable(sys.instances[n]) && CallFactory(n) !in env.callErrors && n in sys.backends {
        if CallRemoveMount(n) in env.callErrors {
          return;
        }
        sys.DeleteAuthMount(n, path);
        xs := [RemoveMount(n, path)];
        WroteOne(w, sys.View(), log, sys.log, RemoveMount(n, path));
      }
    }
    assert TrustTeardown(w, env, key, o) == xs + TrustDrop(key, o);
    if OwnFinalizer in o.meta.finalizers {
      ghost var w1, log1 := sys.View(), sys.log;
      sys.ReleaseTrust(key);
      WroteMore(w, w1, sys.View(), log, log1, sys.log, xs, DropTrustFinalizer(key));
    } else {
      assert xs + [] == xs;
    }
  }

  lemma HoldKeepsTrustInputs(w: World, key: Key)
    ensures var v := Apply(w, AddTrustFinalizer(key));
            v.instances == w.instances && v.projectEntities == w.projectEntities && v.backends == w.backends
  {
  }

  method ReconcileTrust(sys: System, env: Env, key: Key)
    modifies sys
    ensures Wrote(old(sys.View()), sys.View(), old(sys.log), sys.log, TrustPlan(old(sys.View()), env, key))
  {
    hide Wrote, Apply, ApplyAll, TrustBody, TrustTeardown;
    ghost var w, log := sys.View(), sys.log;
    WroteNothing(w, log);
    if TrustRef(key) in env.faults || key !in sys.trusts || env.mountPrefix.None? {
      return;
    }
    var o := sys.trusts[key];
    if o.meta.deleting {
      FinalizeTrust(sys, env, key, o);
      return;
    }
    if OwnFinalizer in o.meta.finalizers {
      ReconcileLiveTrust(sys, env, key, o);
      assert [] + TrustBody(w, env, key, o) == TrustBody(w, env, key, o);
    } else {
      sys.HoldTrust(key);
      ghost var w1, log1 := sys.View(), sys.log;
      WroteOne(w, w1, log, log1, AddTrustFinalizer(key));
      ReconcileLiveTrust(sys, env, key, o);
      HoldKeepsTrustInputs(w, key);
      TrustBodyAt(w1, w, env, key, o);
      WroteThen(w, w1, sys.View(), log, log1, sys.log, [AddTrustFinalizer(key)], TrustBody(w, env, key, o));
    }
  }

  // ---- ControlPlaneEntity -----------------------------------------------------------------------------

  method PassEntityGates(sys: System, env: Env, key: Key, o: Entity) returns (next: Option<EntityStatus>)
    ensures next == EntityNext(sys.View(), env, key, o)
  {
    var g, tk := o.meta.generation, Key(key.namespace, o.spec.trust);
    var st := o.status.(observed := g);
    var conds := new ConditionList(st.conditions);
    if TrustRef(tk) in env.faults {
      return None;
    }
    if tk !in sys.trusts {
      conds.SetDependencyNotReady(g, DependencyNotFound, About(tk.name));
      return Some(st.(conditions := conds.items));
    }
    if !IsTrue(sys.trusts[tk].status.conditions, TrustConfigured) {
      conds.SetDependencyNotReady(g, DependencyMissesReadiness, About(tk.name));
      return Some(st.(conditions := conds.items));
    }
    next := ResolveEntity(env, key, o, st, sys.trusts[tk]);
  }

  method RecordIdentity(sha: Digest, g: int, status: EntityStatus, identity: ServiceAccountIdentity)
    returns (st: EntityStatus)
    ensures st == EntityDone(status, g, identity, IdentityID(sha, Some(identity)))
  {
    hide IdentityID;
    var conds := new ConditionList(status.conditions);
    var audiences := new string[|identity.audiences|](
      i requires 0 <= i < |identity.audiences| => identity.audiences[i]);
    assert audiences[..] == identity.audiences;
    var id := DeterministicIdentityID(sha, identity.alias, identity.subject, identity.issuer, audiences);
    st := status.(identity := Some(identity), identityID := id);
    conds.SetCondition(g, IdentityResolved, Yes, Reason.Reconciled, NoMessage);
    conds.SetReady(g);
    st := st.(conditions := conds.items);
  }

  method ResolveEntity(env: Env, key: Key, o: Entity, status: EntityStatus, trust: Trust)
    returns (next: Option<EntityStatus>)
    ensures next == EntityPastTrust(env, key, o, status, trust)
  {
    var g, ck, st := o.meta.generation, Key(key.namespace, trust.spec.controlPlane), status;
    var conds := new ConditionList(st.conditions);
    if ControlPlaneRef(ck) in env.faults {
      return None;
    }
    if ck !in env.controlPlanes {
      conds.SetDependencyNotReady(g, DependencyNotFound, About(ck.name));
      return Some(st.(conditions := conds.items));
    }
    var issuer := FindControlPlaneIssuer(env.controlPlanes[ck]);
    var failure, summary := About(ck.name), About("issuer");
    if issuer != "" {
      if ck in env.accessErrors {
        failure, summary := ErrorText(env.accessErrors[ck]), About("access");
      } else {
        var identity := ResolveIdentity(env, ck, o.spec, ResolveControlPlaneAudience(trust.status.audience));
        if identity.Some? {
          var done := RecordIdentity(env.sha, g, st, identity.value);
          return Some(done);
        }
        failure, summary := About(o.spec.saName), About("identity");
      }
    }
    conds.SetCondition(g, IdentityResolved, No, ControlPlaneUnavailable, failure);
    conds.SetCondition(g, Ready, No, ControlPlaneUnavailable, summary);
    return Some(st.(conditions := conds.items));
  }

  method ReconcileEntity(sys: System, env: Env, key: Key)
    modifies sys
    ensures Wrote(old(sys.View()), sys.View(), old(sys.log), sys.log, EntityPlan(old(sys.View()), env, key))
  {
    hide Wrote, Apply, ApplyAll, EntityNext;
    ghost var w, log := sys.View(), sys.log;
    WroteNothing(w, log);
    if EntityRef(key) in env.faults || key !in sys.entities {
      return;
    }
    var o := sys.entities[key];
    if o.meta.deleting || env.mountPrefix.None? {
      return;
    }
    var next := PassEntityGates(sys, env, key, o);
    if next.Some? {
      sys.UpdateEntityStatus(key, next.value);
      WroteOne(w, sys.View(), log, sys.log, PutEntity(key, next.value));
    }
  }
}
