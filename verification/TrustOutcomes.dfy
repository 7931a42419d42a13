/**
 What one reconcile of a trust does, from its inputs: the gates it must pass, what it reports where it
 stops, which backend calls it has made by then, and what its finalizer removes or waits for.
 */
module TrustOutcomes {
  import opened Wrappers
  import opened Naming
  import opened Identity
  import opened Conditions
  import opened Reporting
  import opened Backend
  import opened Api
  import opened Plans
  import opened Idempotence
  import opened ObjectOutcomes

  // ---- The gates, over the inputs ----------------------------------------------------------------------

  function ControlPlaneOf(w: World, k: Key): Key
    requires k in w.trusts
  {
    Key(k.namespace, w.trusts[k].spec.controlPlane)
  }

  predicate OnProjectEntity(w: World, k: Key)
    requires k in w.trusts
  {
    w.trusts[k].spec.projectEntity in w.projectEntities
  }

  function InstanceBelow(w: World, k: Key): string
    requires k in w.trusts && OnProjectEntity(w, k)
  {
    w.projectEntities[w.trusts[k].spec.projectEntity].spec.instance
  }

  predicate OnInstance(w: World, k: Key)
    requires k in w.trusts
  {
    OnProjectEntity(w, k) && InstanceBelow(w, k) in w.instances
  }

  predicate OnReachable(w: World, k: Key)
    requires k in w.trusts
  {
    OnInstance(w, k) && SeenReachable(w.instances[InstanceBelow(w, k)])
  }

  /** One of the reads the run gets to fails with an API error. */
  predicate ReadFails(w: World, env: Env, k: Key)
    requires k in w.trusts
  {
    || ProjectEntityRef(w.trusts[k].spec.projectEntity) in env.faults
    || (OnProjectEntity(w, k) && InstanceRef(InstanceBelow(w, k)) in env.faults)
    || (OnReachable(w, k) && ControlPlaneRef(ControlPlaneOf(w, k)) in env.faults)
  }

  predicate DependenciesThere(w: World, env: Env, k: Key)
    requires k in w.trusts
  {
    OnReachable(w, k) && ControlPlaneOf(w, k) in env.controlPlanes
  }

  predicate IssuerThere(w: World, env: Env, k: Key)
    requires k in w.trusts
  {
    DependenciesThere(w, env, k) && ControlPlaneIssuer(env.controlPlanes[ControlPlaneOf(w, k)]) != ""
  }

  /** The run gets to its first backend call, and that is answered. */
  predicate MountAnswered(w: World, env: Env, k: Key)
    requires k in w.trusts
  {
    IssuerThere(w, env, k) && ClientUp(w, env, InstanceBelow(w, k)) && CallMount(InstanceBelow(w, k)) !in env.callErrors
  }

  predicate AllGates(w: World, env: Env, k: Key)
    requires k in w.trusts
  {
    MountAnswered(w, env, k) && CallConfig(InstanceBelow(w, k)) !in env.callErrors
  }

  // ---- What changes --------------------------------------------------------------------------------------

  /** Of the objects only the trust changes: it holds its finalizer, and has a status that observes the generation. */
  predicate TrustReported(w: World, v: World, k: Key)
    requires k in w.trusts
  {
    var o := w.trusts[k];
    && k in v.trusts && v == w.(trusts := w.trusts[k := v.trusts[k]], backends := v.backends)
    && v.trusts[k] == Trust(o.meta.(finalizers := o.meta.finalizers + {OwnFinalizer}), o.spec, v.trusts[k].status)
    && v.trusts[k].status.observed == o.meta.generation
  }

  /** What the status records once the issuer is known. */
  predicate TrustRecorded(w: World, env: Env, k: Key, st: TrustStatus)
    requires k in w.trusts && IssuerThere(w, env, k) && env.mountPrefix.Some?
  {
    var n, own := InstanceBelow(w, k), w.instances[InstanceBelow(w, k)].spec.mountPrefix;
    var prefix := if own.Some? && own.value != "" then own.value else env.mountPrefix.value;
    && st.resolved == n
    && st.issuer == ControlPlaneIssuer(env.controlPlanes[ControlPlaneOf(w, k)])
    && st.audience == ResolveControlPlaneAudience(w.trusts[k].spec.audience)
    && st.authMountPath == AuthMountPath(env.sha, prefix, k.namespace, w.trusts[k].spec.controlPlane)
  }

  // ---- From plans to worlds ---------------------------------------------------------------------------------

  lemma BodyResult(w: World, env: Env, k: Key)
    requires LiveTrust(w, env, k)
    ensures Reconcile(w, env, TrustRef(k)) == ApplyAll(HeldTrust(w, k), TrustBody(w, env, k, w.trusts[k]))
  {
    hide Reconcile, TrustBody, ApplyAll, HeldTrust;
    LiveTrustResult(w, env, k);
    HeldBody(w, env, k);
  }

  lemma StatusPut(w: World, k: Key, st: TrustStatus)
    requires k in w.trusts
    ensures Apply(HeldTrust(w, k), PutTrust(k, st))
            == w.(trusts := w.trusts[k := w.trusts[k].(meta := Held(w.trusts[k].meta, true), status := st)])
  {
    var h := HeldTrust(w, k);
    assert h.trusts[k := h.trusts[k].(status := st)]
        == w.trusts[k := w.trusts[k].(meta := Held(w.trusts[k].meta, true), status := st)];
  }

  lemma ReportWrites(w: World, env: Env, k: Key, st: TrustStatus)
    requires LiveTrust(w, env, k) && TrustGateOf(w, env, k, w.trusts[k]) == TrustReports(st)
    requires st.observed == w.trusts[k].meta.generation
    ensures var v := Reconcile(w, env, TrustRef(k));
            TrustReported(w, v, k) && v.trusts[k].status == st && v.backends == w.backends
  {
    hide Reconcile, TrustGateOf, ApplyAll, HeldTrust, Apply;
    BodyResult(w, env, k);
    ApplyOne(HeldTrust(w, k), PutTrust(k, st));
    StatusPut(w, k, st);
  }

  /** The run stops on an API error: nothing but the finalizer. */
  lemma TrustReadFails(w: World, env: Env, k: Key)
    requires LiveTrust(w, env, k) && ReadFails(w, env, k)
    ensures var o := w.trusts[k];
            Reconcile(w, env, TrustRef(k))
            == w.(trusts := w.trusts[k := o.(meta := o.meta.(finalizers := o.meta.finalizers + {OwnFinalizer}))])
  {
    hide Reconcile, IsTrue, TrustBlocked, TrustFailed;
    BodyResult(w, env, k);
    assert TrustBody(w, env, k, w.trusts[k]) == [];
  }

  // ---- Where a run stops before the backend --------------------------------------------------------------------

  /** A dependency is missing or not reachable: the run waits for the first such, and calls no backend. */
  lemma TrustWaits(w: World, env: Env, k: Key)
    requires LiveTrust(w, env, k) && !ReadFails(w, env, k) && !DependenciesThere(w, env, k)
    ensures var v, was, g := Reconcile(w, env, TrustRef(k)), w.trusts[k].status, w.trusts[k].meta.generation;
            && TrustReported(w, v, k) && v.backends == w.backends
            && (var st := v.trusts[k].status;
                && st.resolved == (if OnInstance(w, k) then InstanceBelow(w, k) else was.resolved)
                && st.issuer == was.issuer && st.audience == was.audience && st.authMountPath == was.authMountPath
                && if !OnProjectEntity(w, k)
                   then Waits(was.conditions, st.conditions, DependencyNotFound,
                              About(w.trusts[k].spec.projectEntity.name), g)
                   else if !OnInstance(w, k)
                   then Waits(was.conditions, st.conditions, DependencyNotFound, About(InstanceBelow(w, k)), g)
                   else if !OnReachable(w, k)
                   then Waits(was.conditions, st.conditions, OpenBaoUnreachable, About(InstanceBelow(w, k)), g)
                   else Waits(was.conditions, st.conditions, DependencyNotFound, About(w.trusts[k].spec.controlPlane),
                              g))
  {
    hide Reconcile, IsTrue, DependencyNotReady, Waits, TrustReported;
    var o, gate := w.trusts[k], TrustGateOf(w, env, k, w.trusts[k]);
    if !OnProjectEntity(w, k) {
      WaitsIs(o.status.conditions, o.meta.generation, DependencyNotFound, About(o.spec.projectEntity.name));
    } else if !OnInstance(w, k) {
      WaitsIs(o.status.conditions, o.meta.generation, DependencyNotFound, About(InstanceBelow(w, k)));
    } else if !OnReachable(w, k) {
      WaitsIs(o.status.conditions, o.meta.generation, OpenBaoUnreachable, About(InstanceBelow(w, k)));
    } else {
      WaitsIs(o.status.conditions, o.meta.generation, DependencyNotFound, About(o.spec.controlPlane));
    }
    ReportWrites(w, env, k, gate.status);
  }

  /** The control plane shows no issuer: reported as such, and no backend is called. */
  lemma TrustWithoutIssuer(w: World, env: Env, k: Key)
    requires LiveTrust(w, env, k) && !ReadFails(w, env, k) && DependenciesThere(w, env, k) && !IssuerThere(w, env, k)
    ensures var v, was, g := Reconcile(w, env, TrustRef(k)), w.trusts[k].status, w.trusts[k].meta.generation;
            && TrustReported(w, v, k) && v.backends == w.backends
            && (var st := v.trusts[k].status;
                && st.resolved == InstanceBelow(w, k)
                && st.issuer == was.issuer && st.audience == was.audience && st.authMountPath == was.authMountPath
                && Fails(was.conditions, st.conditions, TrustConfigured, IssuerDiscoveryFailed,
                         About(w.trusts[k].spec.controlPlane), About("issuer"), g))
  {
    hide Reconcile, IsTrue, FailWith, Fails, TrustReported, ControlPlaneIssuer;
    var o := w.trusts[k];
    FailsIs(o.status.conditions, o.meta.generation, TrustConfigured, IssuerDiscoveryFailed, About(o.spec.controlPlane),
            About("issuer"));
    ReportWrites(w, env, k, TrustGateOf(w, env, k, o).status);
  }

  // ---- At the backend ---------------------------------------------------------------------------------------------

  /** The status with which a run comes to the backend. */
  lemma GateOpens(w: World, env: Env, k: Key) returns (st: TrustStatus)
    requires LiveTrust(w, env, k) && !ReadFails(w, env, k) && IssuerThere(w, env, k)
    ensures TrustRecorded(w, env, k, st) && st.observed == w.trusts[k].meta.generation
    ensures st.conditions == w.trusts[k].status.conditions
    ensures TrustGateOf(w, env, k, w.trusts[k])
            == TrustConfigures(st.resolved, st.authMountPath, JWTAuthConfig(st.issuer + "/jwks", st.issuer), st)
  {
    hide IsTrue, ControlPlaneIssuer, ResolveControlPlaneAudience, AuthMountPath, TrustBlocked, TrustFailed;
    st := TrustGateOf(w, env, k, w.trusts[k]).status;
  }

  lemma BackendResult(w: World, env: Env, k: Key, st: TrustStatus)
    requires LiveTrust(w, env, k)
    requires TrustGateOf(w, env, k, w.trusts[k])
             == TrustConfigures(st.resolved, st.authMountPath, JWTAuthConfig(st.issuer + "/jwks", st.issuer), st)
    ensures var gate := TrustGateOf(w, env, k, w.trusts[k]);
            Reconcile(w, env, TrustRef(k))
            == ApplyAll(HeldTrust(w, k), TrustBackendWrites(w, env, k, w.trusts[k].meta.generation, gate))
  {
    hide Reconcile, TrustGateOf, TrustBackendWrites, ApplyAll, HeldTrust;
    BodyResult(w, env, k);
  }

  lemma WritesAtBackend(w: World, env: Env, k: Key, g: int, gate: TrustGate)
    requires gate.TrustConfigures?
    ensures var n, st, xs := gate.instance, gate.status, TrustBackendWrites(w, env, k, g, gate);
            var text := ErrorText(ClientText(env, n));
            && (!ClientUp(w, env, n) ==> xs == [PutTrust(k, TrustFailed(st, g, OpenBaoUnreachable, text, text))])
            && (ClientUp(w, env, n) && CallMount(n) in env.callErrors ==>
                  xs == [PutTrust(k, TrustCallFailed(st, g, env.callErrors[CallMount(n)]))])
            && (ClientUp(w, env, n) && CallMount(n) !in env.callErrors && CallConfig(n) in env.callErrors ==>
                  xs == [WriteMount(n, gate.path), PutTrust(k, TrustCallFailed(st, g, env.callErrors[CallConfig(n)]))])
  {
    hide TrustFailed, TrustCallFailed, TrustDone;
  }

  lemma EndsReported(w: World, env: Env, k: Key, st: TrustStatus, end: TrustStatus, v: World)
    requires k in w.trusts && IssuerThere(w, env, k) && env.mountPrefix.Some? && TrustRecorded(w, env, k, st)
    requires st.observed == w.trusts[k].meta.generation && end == st.(conditions := end.conditions)
    requires v == w.(trusts := w.trusts[k := w.trusts[k].(meta := Held(w.trusts[k].meta, true), status := end)],
                     backends := v.backends)
    ensures TrustReported(w, v, k) && TrustRecorded(w, env, k, end) && v.trusts[k].status == end
  {
    hide IssuerThere;
  }

  lemma FailedFields(st: TrustStatus, g: int, reason: Reason, m: Message)
    ensures var end := TrustFailed(st, g, reason, m, m);
            && end == st.(conditions := end.conditions)
            && Fails(st.conditions, end.conditions, TrustConfigured, reason, m, m, g)
  {
    hide FailWith, Fails;
    FailsIs(st.conditions, g, TrustConfigured, reason, m, m);
  }

  /** No client: unreachable for its text; what was found out is recorded. */
  lemma TrustWithoutClient(w: World, env: Env, k: Key)
    requires LiveTrust(w, env, k) && !ReadFails(w, env, k) && IssuerThere(w, env, k)
             && !ClientUp(w, env, InstanceBelow(w, k))
    ensures var v, was, g := Reconcile(w, env, TrustRef(k)), w.trusts[k].status, w.trusts[k].meta.generation;
            var text := ErrorText(ClientText(env, InstanceBelow(w, k)));
            && TrustReported(w, v, k) && v.backends == w.backends
            && TrustRecorded(w, env, k, v.trusts[k].status)
            && Fails(was.conditions, v.trusts[k].status.conditions, TrustConfigured, OpenBaoUnreachable, text, text, g)
  {
    hide Reconcile, TrustGateOf, TrustFailed, Fails, ApplyAll, HeldTrust, Apply, IssuerThere, ReadFails,
      TrustBackendWrites, TrustReported, TrustRecorded, ClientUp;
    var st := GateOpens(w, env, k);
    GateInstance(w, env, k, st);
    var g, text := w.trusts[k].meta.generation, ErrorText(ClientText(env, InstanceBelow(w, k)));
    BackendResult(w, env, k, st);
    WritesAtBackend(w, env, k, g, TrustGateOf(w, env, k, w.trusts[k]));
    FailedFields(st, g, OpenBaoUnreachable, text);
    var end := TrustFailed(st, g, OpenBaoUnreachable, text, text);
    ApplyOne(HeldTrust(w, k), PutTrust(k, end));
    StatusPut(w, k, end);
    EndsReported(w, env, k, st, end, Reconcile(w, env, TrustRef(k)));
  }

  lemma GateInstance(w: World, env: Env, k: Key, st: TrustStatus)
    requires k in w.trusts && IssuerThere(w, env, k) && env.mountPrefix.Some? && TrustRecorded(w, env, k, st)
    ensures OnProjectEntity(w, k) && st.resolved == InstanceBelow(w, k)
  {
  }

  /** A refused call turns TrustConfigured False with its text, and no other condition. */
  predicate CallRefused(w: World, v: World, k: Key, text: string)
    requires k in w.trusts && k in v.trusts
  {
    var was, st := w.trusts[k].status.conditions, v.trusts[k].status.conditions;
    && Says(st, TrustConfigured, No, ReconcileError, ErrorText(text), w.trusts[k].meta.generation)
    && forall kind | kind != TrustConfigured :: Find(st, kind) == Find(was, kind)
  }

  lemma CallFailedSays(st: TrustStatus, g: int, text: string)
    ensures var end := TrustCallFailed(st, g, text);
            && end == st.(conditions := end.conditions)
            && Says(end.conditions, TrustConfigured, No, ReconcileError, ErrorText(text), g)
            && forall kind | kind != TrustConfigured :: Find(end.conditions, kind) == Find(st.conditions, kind)
  {
  }

  /** The mount call is refused: no backend has changed. */
  lemma TrustMountRefused(w: World, env: Env, k: Key)
    requires LiveTrust(w, env, k) && !ReadFails(w, env, k) && IssuerThere(w, env, k)
    requires ClientUp(w, env, InstanceBelow(w, k)) && CallMount(InstanceBelow(w, k)) in env.callErrors
    ensures var v := Reconcile(w, env, TrustRef(k));
            && TrustReported(w, v, k) && v.backends == w.backends
            && TrustRecorded(w, env, k, v.trusts[k].status)
            && CallRefused(w, v, k, env.callErrors[CallMount(InstanceBelow(w, k))])
  {
    hide Reconcile, TrustGateOf, ApplyAll, HeldTrust, Apply, IssuerThere, ReadFails, TrustCallFailed, Says,
      TrustBackendWrites, TrustReported, TrustRecorded, ClientUp;
    var st := GateOpens(w, env, k);
    GateInstance(w, env, k, st);
    var g, text := w.trusts[k].meta.generation, env.callErrors[CallMount(InstanceBelow(w, k))];
    BackendResult(w, env, k, st);
    WritesAtBackend(w, env, k, g, TrustGateOf(w, env, k, w.trusts[k]));
    CallFailedSays(st, g, text);
    ApplyOne(HeldTrust(w, k), PutTrust(k, TrustCallFailed(st, g, text)));
    StatusPut(w, k, TrustCallFailed(st, g, text));
    EndsReported(w, env, k, st, TrustCallFailed(st, g, text), Reconcile(w, env, TrustRef(k)));
  }

  lemma ClientThere(w: World, env: Env, n: string)
    requires ClientUp(w, env, n)
    ensures n in w.backends
  {
  }

  lemma MountPut(w: World, k: Key, n: string, path: string, end: TrustStatus)
    requires k in w.trusts && n in w.backends
    ensures ApplyAll(HeldTrust(w, k), [WriteMount(n, path), PutTrust(k, end)])
            == w.(trusts := w.trusts[k := w.trusts[k].(meta := Held(w.trusts[k].meta, true), status := end)],
                  backends := w.backends[n := w.backends[n].(mounts := w.backends[n].mounts + {path})])
  {
    hide ApplyAll;
    var h, x, y := HeldTrust(w, k), WriteMount(n, path), PutTrust(k, end);
    assert [x, y] == [x] + [y];
    ApplyOne(h, x);
    ApplySnoc(h, [x], y);
    StatusPut(w, k, end);
  }

  /** The config call is refused: the mount is there by then, and nothing else is new in the backend. */
  lemma TrustConfigRefused(w: World, env: Env, k: Key)
    requires LiveTrust(w, env, k) && !ReadFails(w, env, k) && MountAnswered(w, env, k)
    requires CallConfig(InstanceBelow(w, k)) in env.callErrors
    ensures var v, n := Reconcile(w, env, TrustRef(k)), InstanceBelow(w, k);
            && TrustReported(w, v, k)
            && TrustRecorded(w, env, k, v.trusts[k].status)
            && v.backends
               == w.backends[n := w.backends[n].(mounts := w.backends[n].mounts + {v.trusts[k].status.authMountPath})]
            && CallRefused(w, v, k, env.callErrors[CallConfig(n)])
  {
    hide Reconcile, TrustGateOf, ApplyAll, HeldTrust, Apply, IssuerThere, ReadFails, TrustCallFailed, Says,
      TrustBackendWrites, TrustReported, TrustRecorded, ClientUp;
    var st := GateOpens(w, env, k);
    GateInstance(w, env, k, st);
    var g, text := w.trusts[k].meta.generation, env.callErrors[CallConfig(InstanceBelow(w, k))];
    BackendResult(w, env, k, st);
    WritesAtBackend(w, env, k, g, TrustGateOf(w, env, k, w.trusts[k]));
    CallFailedSays(st, g, text);
    ClientThere(w, env, st.resolved);
    MountPut(w, k, st.resolved, st.authMountPath, TrustCallFailed(st, g, text));
    EndsReported(w, env, k, st, TrustCallFailed(st, g, text), Reconcile(w, env, TrustRef(k)));
  }

  lemma MountConfigPut(w: World, k: Key, n: string, path: string, config: JWTAuthConfig, end: TrustStatus)
    requires k in w.trusts && n in w.backends
    ensures var s := w.backends[n];
            ApplyAll(HeldTrust(w, k), [WriteMount(n, path), WriteConfig(n, path, config), PutTrust(k, end)])
            == w.(trusts := w.trusts[k := w.trusts[k].(meta := Held(w.trusts[k].meta, true), status := end)],
                  backends := w.backends[n := s.(mounts := s.mounts + {path}, configs := s.configs[path := config])])
  {
    hide ApplyAll, Apply, HeldTrust, Trusting;
    var h, x, y, z := HeldTrust(w, k), WriteMount(n, path), WriteConfig(n, path, config), PutTrust(k, end);
    assert [x, y, z] == [x, y] + [z];
    ApplySnoc(h, [x, y], z);
    HeldBackends(w, k);
    MountConfig(h, n, path, config);
    TrustingAdds(w.backends[n], path, config);
    PutOver(w, k, end, w.backends[n := Trusting(w.backends[n], path, config)]);
  }

  lemma HeldBackends(w: World, k: Key)
    requires k in w.trusts
    ensures HeldTrust(w, k).backends == w.backends
  {
  }

  lemma TrustingAdds(s: State, path: string, config: JWTAuthConfig)
    ensures Trusting(s, path, config) == s.(mounts := s.mounts + {path}, configs := s.configs[path := config])
  {
  }

  lemma PutOver(w: World, k: Key, end: TrustStatus, backends: map<string, State>)
    requires k in w.trusts
    ensures Apply(HeldTrust(w, k).(backends := backends), PutTrust(k, end))
            == w.(trusts := w.trusts[k := w.trusts[k].(meta := Held(w.trusts[k].meta, true), status := end)],
                  backends := backends)
  {
    var h := HeldTrust(w, k);
    assert h.trusts[k := h.trusts[k].(status := end)]
        == w.trusts[k := w.trusts[k].(meta := Held(w.trusts[k].meta, true), status := end)];
  }

  /** Past all gates: mount and config of the issuer and its key set are there, and all is reported well. */
  lemma TrustIsConfigured(w: World, env: Env, k: Key)
    requires LiveTrust(w, env, k) && !ReadFails(w, env, k) && AllGates(w, env, k)
    ensures var v, n, was := Reconcile(w, env, TrustRef(k)), InstanceBelow(w, k), w.trusts[k].status;
            && TrustReported(w, v, k)
            && TrustRecorded(w, env, k, v.trusts[k].status)
            && (var st, s := v.trusts[k].status, w.backends[n];
                var config := JWTAuthConfig(st.issuer + "/jwks", st.issuer);
                && v.backends == w.backends[n := s.(mounts := s.mounts + {st.authMountPath},
                                                    configs := s.configs[st.authMountPath := config])]
                && Succeeds(was.conditions, st.conditions, {TrustConfigured}, w.trusts[k].meta.generation))
  {
    hide Reconcile, TrustGateOf, ApplyAll, HeldTrust, Apply, IssuerThere, ReadFails, MarkReady, Succeeds;
    var st := GateOpens(w, env, k);
    var g := w.trusts[k].meta.generation;
    BackendResult(w, env, k, st);
    SucceedsIs(st.conditions, g, TrustConfigured);
    MountConfigPut(w, k, st.resolved, st.authMountPath, JWTAuthConfig(st.issuer + "/jwks", st.issuer),
                   TrustDone(st, g));
  }

  // ---- The gates are exact ----------------------------------------------------------------------

  /**
   A run whose reads do not fail ends with the trust Ready and configured exactly when every gate holds, and
   changes a backend only after the issuer, the client and the mount call.
   */
  lemma ConfiguredIffAllGates(w: World, env: Env, k: Key)
    requires LiveTrust(w, env, k) && !ReadFails(w, env, k)
    ensures var v := Reconcile(w, env, TrustRef(k));
            && TrustReported(w, v, k)
            && (IsTrue(v.trusts[k].status.conditions, Ready) && IsTrue(v.trusts[k].status.conditions, TrustConfigured)
                <==> AllGates(w, env, k))
            && (v.backends != w.backends ==> MountAnswered(w, env, k))
  {
    hide Reconcile, SeenReachable, ClientUp, TrustReported, TrustRecorded, ReadFails;
    if !DependenciesThere(w, env, k) {
      TrustWaits(w, env, k);
    } else if !IssuerThere(w, env, k) {
      TrustWithoutIssuer(w, env, k);
    } else if !ClientUp(w, env, InstanceBelow(w, k)) {
      TrustWithoutClient(w, env, k);
    } else if !MountAnswered(w, env, k) {
      TrustMountRefused(w, env, k);
    } else if !AllGates(w, env, k) {
      TrustConfigRefused(w, env, k);
    } else {
      TrustIsConfigured(w, env, k);
    }
  }

  // ---- The finalizer ----------------------------------------------------------------------------

  predicate DyingTrust(w: World, env: Env, k: Key) {
    k in w.trusts && TrustRef(k) !in env.faults && env.mountPrefix.Some? && w.trusts[k].meta.deleting
  }

  /** The status records a mount. */
  predicate MountRecorded(st: TrustStatus) {
    st.authMountPath != "" && st.resolved != ""
  }

  /** Its instance is there and reachable, and a client comes up: the mount can be asked away. */
  predicate Removable(w: World, env: Env, st: TrustStatus) {
    && MountRecorded(st) && InstanceRef(st.resolved) !in env.faults
    && st.resolved in w.instances && SeenReachable(w.instances[st.resolved]) && ClientUp(w, env, st.resolved)
  }

  /** The finalizer must try again: its read fails, or the removal is refused. */
  predicate MustRetry(w: World, env: Env, st: TrustStatus) {
    || (MountRecorded(st) && InstanceRef(st.resolved) in env.faults)
    || (Removable(w, env, st) && CallRemoveMount(st.resolved) in env.callErrors)
  }

  /** A refused removal or a failed read holds the trust, and changes nothing at all. */
  lemma TrustRetries(w: World, env: Env, k: Key)
    requires DyingTrust(w, env, k) && MustRetry(w, env, w.trusts[k].status)
    ensures Reconcile(w, env, TrustRef(k)) == w
  {
    hide IsTrue;
    assert Plan(w, env, TrustRef(k)) == [];
  }

  /**
   Else the finalizer goes, and with it the trust if it was the last; the mount goes first if it can be asked
   away.
   */
  lemma TrustIsReleased(w: World, env: Env, k: Key)
    requires DyingTrust(w, env, k) && !MustRetry(w, env, w.trusts[k].status)
    ensures var v, o := Reconcile(w, env, TrustRef(k)), w.trusts[k];
            var m := o.meta.(finalizers := o.meta.finalizers - {OwnFinalizer});
            && v == w.(trusts := v.trusts, backends := v.backends)
            && (OwnFinalizer in o.meta.finalizers ==>
                  v.trusts == if m.finalizers == {} then w.trusts - {k} else w.trusts[k := o.(meta := m)])
            && (OwnFinalizer !in o.meta.finalizers ==> v.trusts == w.trusts)
            && v.backends == (if Removable(w, env, o.status)
                              then w.backends[o.status.resolved := WithoutMount(w.backends[o.status.resolved],
                                                                                o.status.authMountPath)]
                              else w.backends)
  {
    hide Reconcile, IsTrue, ReleasedTrust, ApplyAll, WithoutMount;
    var o, drop := w.trusts[k], TrustDrop(k, w.trusts[k]);
    var n, path := o.status.resolved, o.status.authMountPath;
    PlanOfDying(w, env, k);
    if Removable(w, env, o.status) {
      var u := Apply(w, RemoveMount(n, path));
      ApplyAppend(w, [RemoveMount(n, path)], drop);
      ApplyOne(w, RemoveMount(n, path));
      Dropped(u, k, drop);
    } else {
      Dropped(w, k, drop);
    }
  }

  lemma PlanOfDying(w: World, env: Env, k: Key)
    requires DyingTrust(w, env, k) && !MustRetry(w, env, w.trusts[k].status)
    ensures var o := w.trusts[k];
            Reconcile(w, env, TrustRef(k))
            == ApplyAll(w, if Removable(w, env, o.status)
                           then [RemoveMount(o.status.resolved, o.status.authMountPath)] + TrustDrop(k, o)
                           else TrustDrop(k, o))
  {
    hide IsTrue, ApplyAll, TrustDrop;
  }

  lemma Dropped(w: World, k: Key, drop: seq<Write>)
    requires k in w.trusts && drop == TrustDrop(k, w.trusts[k]) && w.trusts[k].meta.deleting
    ensures var v, o := ApplyAll(w, drop), w.trusts[k];
            var m := o.meta.(finalizers := o.meta.finalizers - {OwnFinalizer});
            v == if OwnFinalizer !in o.meta.finalizers then w
                 else w.(trusts := if m.finalizers == {} then w.trusts - {k} else w.trusts[k := o.(meta := m)])
  {
    hide ApplyBackend, ReleasedBinding;
    if drop != [] {
      ApplyOne(w, DropTrustFinalizer(k));
    }
  }

  lemma TrustUntouched(w: World, env: Env, k: Key)
    requires k !in w.trusts || TrustRef(k) in env.faults || env.mountPrefix.None?
    ensures Reconcile(w, env, TrustRef(k)) == w
  {
  }
}
