/**
 What one reconcile achieves in a healthy service: an object whose dependencies are settled becomes
 Ready, with every write of its next reconcile already in place.
 */
module Achievement {
  import opened Wrappers
  import opened Text
  import opened Naming
  import opened Identity
  import opened Conditions
  import opened Backend
  import opened Api
  import opened Plans
  import opened Frames
  import opened Runs
  import opened TrustSafety
  import opened BindingEffects
  import opened BindingLoop
  import opened Idempotence
  import opened Settling

  // ---- Instances ----------------------------------------------------------------------------------------

  /** A probe leaves the instance Ready, and reachable, exactly when a client came up and saw it unsealed. */
  lemma ReadyIffUnsealed(w: World, env: Env, n: string, o: Instance)
    ensures var st := InstanceNext(w, env, n, o);
            && (IsTrue(st.conditions, Ready) <==>
                && CallFactory(n) !in env.callErrors && n in w.backends && w.backends[n].healthErr == None
                && w.backends[n].health.initialized && !w.backends[n].health.sealed)
            && (IsTrue(st.conditions, OpenBaoReachable) <==> IsTrue(st.conditions, Ready))
  {
  }

  /** So a backend as NewFakeClient makes it, though documented as healthy, leaves its instance unreachable. */
  lemma FreshBackendUnreachable(w: World, env: Env, n: string, o: Instance)
    requires n in w.backends && w.backends[n] == FRESH
    ensures !IsTrue(InstanceNext(w, env, n, o).conditions, OpenBaoReachable)
  {
    hide InstanceNext, IsTrue;
    ReadyIffUnsealed(w, env, n, o);
  }

  lemma UpIsReady(w: World, env: Env, n: string, o: Instance)
    requires Quiet(env) && n in w.backends && Up(w.backends[n])
    ensures var st := InstanceNext(w, env, n, o);
            IsTrue(st.conditions, Ready) && IsTrue(st.conditions, OpenBaoReachable)
  {
    hide InstanceNext, IsTrue;
    ReadyIffUnsealed(w, env, n, o);
  }

  lemma InstanceSettles(w: World, f: Specs, env: Env, n: string)
    requires Healthy(w, f, env) && Present(f, InstanceRef(n))
    ensures Settled(Reconcile(w, env, InstanceRef(n)), f, env, InstanceRef(n))
  {
    hide InstanceNext, ApplyAll, PolicyThere, Apart, RolesApart, Resolves, IsTrue, Up;
    var o, v := w.instances[n], Reconcile(w, env, InstanceRef(n));
    var st := InstanceNext(w, env, n, o);
    ApplyOne(w, PutInstance(n, st));
    UpIsReady(w, env, n, o);
    InstanceNextAbsorbs(w, v, env, n, o);
    assert Plan(v, env, InstanceRef(n)) == [PutInstance(n, st)];
  }

  // ---- Project entities -----------------------------------------------------------------------------------

  /** The object's instance is reachable, in a stable service. */
  lemma EnrolmentDone(w: World, env: Env, k: Key)
    requires Quiet(env) && k in w.projectEntities && !w.projectEntities[k].meta.deleting
    requires var n := w.projectEntities[k].spec.instance;
             n in w.instances && Reachable(w.instances[n]) && n in w.backends
    ensures var v := Reconcile(w, env, ProjectEntityRef(k));
            && k in v.projectEntities && IsTrue(v.projectEntities[k].status.conditions, Ready)
            && forall x | x in Plan(v, env, ProjectEntityRef(k)) :: Done(v, x)
  {
    hide ApplyAll, Reachable, EntityName, ProjectEntityPlan, EntityID, WithEntity, MarkReady, IsTrue, Idle;
    var o, name := w.projectEntities[k], EntityName(env.sha, k.namespace, k.name);
    var n, g := o.spec.instance, o.meta.generation;
    var st := ProjectEntityDone(o.status.(observed := g, resolved := n), g, EntityID(w.backends[n], name));
    EnrolPlan(w, env, k);
    EnrolIdle(w, k, n, name, st);
    var v := ApplyAll(w, [WriteEntity(n, name), PutProjectEntity(k, st)]);
    EntityIDStays(w.backends[n], name);
    NameKept(w.backends[n], name);
    ProjectEntityDoneAbsorbs(o.status.(observed := g, resolved := n), g, EntityID(w.backends[n], name));
    EnrolPlan(v, env, k);
    MarkedReady(o.status.conditions, g);
    assert Plan(v, env, ProjectEntityRef(k)) == [WriteEntity(n, name), PutProjectEntity(k, st)];
  }

  lemma MarkedReady(cs: seq<Condition>, g: int)
    ensures IsTrue(MarkReady(cs, g), Ready)
  {
  }

  lemma NameKept(s: State, name: string)
    ensures name in WithEntity(s, name).entities && WithEntity(s, name).entities[name] != ""
  {
  }

  lemma ProjectEntitySettles(w: World, f: Specs, env: Env, k: Key)
    requires Healthy(w, f, env) && Present(f, ProjectEntityRef(k))
    requires Achieved(w, f, InstanceRef(f.base.projectEntities[k].instance))
    ensures Settled(Reconcile(w, env, ProjectEntityRef(k)), f, env, ProjectEntityRef(k))
  {
    hide Reconcile, Plan, Reachable, IsTrue, PolicyThere, Apart, RolesApart, Up, Done;
    EnrolmentDone(w, env, k);
  }

  // ---- Trusts -------------------------------------------------------------------------------------------------

  lemma IssuerThere(env: Env, k: Key)
    requires k in env.controlPlanes && env.controlPlanes[k] == [Endpoint(ISSUER_ENDPOINT, "i")]
    ensures IssuerKnown(env, k)
  {
    assert RightEdge("i", {'/'}, 0, 1) == 1;
  }

  lemma ConfigureGate(w: World, env: Env, k: Key, o: Trust)
    requires Quiet(env) && o.spec.projectEntity in w.projectEntities
    requires var n := w.projectEntities[o.spec.projectEntity].spec.instance;
             n in w.instances && Reachable(w.instances[n])
    requires IssuerKnown(env, Key(k.namespace, o.spec.controlPlane))
    ensures var n := w.projectEntities[o.spec.projectEntity].spec.instance;
            var issuer := ControlPlaneIssuer(env.controlPlanes[Key(k.namespace, o.spec.controlPlane)]);
            var path := TrustMount(env, k, o.spec, w.instances[n]);
            TrustGateOf(w, env, k, o) == TrustConfigures(n, path, TrustConfig(issuer),
              o.status.(observed := o.meta.generation, resolved := n, issuer := issuer,
                        audience := ResolveControlPlaneAudience(o.spec.audience), authMountPath := path))
  {
    hide Reachable, TrustMount, TrustConfig, ControlPlaneIssuer, ResolveControlPlaneAudience, TrustBlocked, TrustFailed;
  }

  /** The full body of a trust that nothing stops. */
  lemma ConfigureBody(w: World, env: Env, k: Key, o: Trust)
    requires Quiet(env) && TrustGateOf(w, env, k, o).TrustConfigures?
             && TrustGateOf(w, env, k, o).instance in w.backends
    ensures var gate := TrustGateOf(w, env, k, o);
            TrustBody(w, env, k, o)
              == [WriteMount(gate.instance, gate.path), WriteConfig(gate.instance, gate.path, gate.config),
                                        PutTrust(k, TrustDone(gate.status, o.meta.generation))]
  {
    hide TrustGateOf, TrustDone;
  }

  lemma TrustingIs(w: World, k: Key, n: string, path: string, config: JWTAuthConfig, st: TrustStatus)
    requires k in w.trusts && n in w.backends
    ensures var v := ApplyAll(w, [WriteMount(n, path), WriteConfig(n, path, config), PutTrust(k, st)]);
            && Done(v, WriteMount(n, path)) && Done(v, WriteConfig(n, path, config)) && Done(v, PutTrust(k, st))
            && k in v.trusts && v.trusts[k] == w.trusts[k].(status := st)
            && v.instances == w.instances && v.projectEntities == w.projectEntities
  {
    hide ApplyAll;
    MountConfigPut(w, k, n, path, config, st);
  }

  lemma DoneTrust(st: TrustStatus, g: int)
    ensures var d := TrustDone(st, g);
            && IsTrue(d.conditions, Ready) && IsTrue(d.conditions, TrustConfigured)
            && d.resolved == st.resolved && d.authMountPath == st.authMountPath && d.audience == st.audience
  {
  }

  lemma HeldTrustLive(w: World, env: Env, k: Key)
    requires LiveTrust(w, env, k)
    ensures var h := HeldTrust(w, k);
            && LiveTrust(h, env, k) && OwnFinalizer in h.trusts[k].meta.finalizers
            && h.trusts[k].spec == w.trusts[k].spec && h == w.(trusts := h.trusts)
  {
  }

  /** The plan of a live trust that holds its finalizer is its body. */
  lemma HeldPlan(w: World, env: Env, k: Key)
    requires LiveTrust(w, env, k) && OwnFinalizer in w.trusts[k].meta.finalizers
    ensures Plan(w, env, TrustRef(k)) == TrustBody(w, env, k, w.trusts[k])
  {
    hide TrustBody;
    assert [] + TrustBody(w, env, k, w.trusts[k]) == TrustBody(w, env, k, w.trusts[k]);
  }

  /** A run on a held trust that nothing stops ends configured, with all it would write again in place. */
  lemma ConfiguringRun(h: World, env: Env, k: Key)
    requires Quiet(env) && LiveTrust(h, env, k) && OwnFinalizer in h.trusts[k].meta.finalizers
    requires h.trusts[k].spec.projectEntity in h.projectEntities
    requires var n := h.projectEntities[h.trusts[k].spec.projectEntity].spec.instance;
             n in h.instances && Reachable(h.instances[n]) && n in h.backends
    requires IssuerKnown(env, Key(k.namespace, h.trusts[k].spec.controlPlane))
    ensures var v := ApplyAll(h, TrustBody(h, env, k, h.trusts[k]));
            var n := h.projectEntities[h.trusts[k].spec.projectEntity].spec.instance;
            && k in v.trusts && IsTrue(v.trusts[k].status.conditions, Ready)
            && IsTrue(v.trusts[k].status.conditions, TrustConfigured)
            && v.trusts[k].status.resolved == n
            && v.trusts[k].status.authMountPath == TrustMount(env, k, h.trusts[k].spec, h.instances[n])
            && v.trusts[k].status.audience == ResolveControlPlaneAudience(h.trusts[k].spec.audience)
            && Done(v, WriteMount(n, v.trusts[k].status.authMountPath))
            && forall x | x in Plan(v, env, TrustRef(k)) :: Done(v, x)
  {
    hide TrustBody, TrustGateOf, TrustDone, Reachable, IssuerKnown, TrustMount, TrustConfig, ControlPlaneIssuer,
      ResolveControlPlaneAudience, ApplyAll, Plan, Done, Idle;
    var o := h.trusts[k];
    ConfigureGate(h, env, k, o);
    ConfigureBody(h, env, k, o);
    var gate := TrustGateOf(h, env, k, o);
    var st := TrustDone(gate.status, o.meta.generation);
    DoneTrust(gate.status, o.meta.generation);
    TrustingIs(h, k, gate.instance, gate.path, gate.config, st);
    BodyTwice(h, env, k);
    HeldPlan(ApplyAll(h, TrustBody(h, env, k, o)), env, k);
  }

  /** What a trust finds in a stable service once its instance is achieved. */
  lemma TrustFinds(w: World, f: Specs, env: Env, k: Key)
    requires Healthy(w, f, env) && Present(f, TrustRef(k)) && Achieved(w, f, InstanceRef(InstanceOf(f, k)))
    ensures LiveTrust(w, env, k) && Quiet(env) && Conforms(w, f.base) && EnvConforms(env, f.base)
    ensures var spec := w.trusts[k].spec;
            && spec == f.base.trusts[k] && spec.projectEntity in w.projectEntities
            && w.projectEntities[spec.projectEntity].spec.instance == InstanceOf(f, k)
            && InstanceOf(f, k) in w.instances && Reachable(w.instances[InstanceOf(f, k)])
            && InstanceOf(f, k) in w.backends
            && InstanceOf(f, k) != "" && IssuerKnown(env, Key(k.namespace, spec.controlPlane))
  {
    hide Reachable, IsTrue, PolicyThere, Apart, RolesApart, Up, IssuerKnown, TokenReady;
    MatchesConforms(w, f);
  }

  lemma TrustSettles(w: World, f: Specs, env: Env, k: Key)
    requires Healthy(w, f, env) && Present(f, TrustRef(k)) && Achieved(w, f, InstanceRef(InstanceOf(f, k)))
    ensures Settled(Reconcile(w, env, TrustRef(k)), f, env, TrustRef(k))
  {
    hide Reconcile, Plan, TrustBody, Reachable, IsTrue, Healthy, ApplyAll, TrustMount, PlaceOf, InstanceOf,
      ResolveControlPlaneAudience, IssuerKnown, HeldTrust, Conforms, EnvConforms, Quiet;
    TrustFinds(w, f, env, k);
    var h := HeldTrust(w, k);
    HeldTrustLive(w, env, k);
    LiveTrustResult(w, env, k);
    ConfiguringRun(h, env, k);
    PlaceIsSpecs(w, env, f.base, k, w.trusts[k]);
  }

  // ---- Entities ---------------------------------------------------------------------------------------------------

  lemma TokenResolves(env: Env, controlPlane: Key, spec: EntitySpec, audience: string)
    requires var req := TokenRequest(controlPlane, spec.saNamespace, spec.saName, audience);
             TrimSpace(spec.saNamespace) != "" && TrimSpace(spec.saName) != "" && req in env.tokens
               && env.tokens[req].subject != ""
    ensures ResolveIdentity(env, controlPlane, spec, audience).Some?
    ensures ResolveIdentity(env, controlPlane, spec, audience).value.subject != ""
  {
    hide TrimSpace, ControlPlaneEntityAlias, NormalizedAudiences;
  }

  lemma DoneEntity(st: EntityStatus, g: int, identity: ServiceAccountIdentity, id: string)
    ensures var d := EntityDone(st, g, identity, id);
            IsTrue(d.conditions, Ready) && IsTrue(d.conditions, IdentityResolved) && d.identity == Some(identity)
  {
  }

  /** An entity on a configured trust whose service account has its token resolves its identity. */
  lemma IdentityResolves(w: World, env: Env, k: Key, o: Entity)
    requires Quiet(env)
    requires var t := Key(k.namespace, o.spec.trust);
             && t in w.trusts && IsTrue(w.trusts[t].status.conditions, TrustConfigured)
             && w.trusts[t].status.audience == ResolveControlPlaneAudience(w.trusts[t].spec.audience)
             && IssuerKnown(env, Key(k.namespace, w.trusts[t].spec.controlPlane))
             && TokenReady(env, k.namespace, o.spec, w.trusts[t].spec)
    ensures var next := EntityNext(w, env, k, o);
            next.Some? && IsTrue(next.value.conditions, Ready) && IsTrue(next.value.conditions, IdentityResolved)
            && next.value.identity.Some? && next.value.identity.value.subject != ""
  {
    hide IsTrue, EntityDone, EntityBlocked, EntityFailed, ResolveIdentity, ControlPlaneIssuer,
      ResolveControlPlaneAudience, IdentityID, TrimSpace;
    var trust := w.trusts[Key(k.namespace, o.spec.trust)];
    var ck, g := Key(k.namespace, trust.spec.controlPlane), o.meta.generation;
    AudienceResolvesOnce(trust.spec.audience);
    var audience := ResolveControlPlaneAudience(trust.spec.audience);
    TokenResolves(env, ck, o.spec, audience);
    var id := ResolveIdentity(env, ck, o.spec, audience);
    DoneEntity(o.status.(observed := g), g, id.value, IdentityID(env.sha, id));
  }

  lemma EntityRun(w: World, env: Env, k: Key)
    requires k in w.entities && Quiet(env) && !w.entities[k].meta.deleting && EntityNext(w, env, k, w.entities[k]).Some?
    ensures var v, st := Reconcile(w, env, EntityRef(k)), EntityNext(w, env, k, w.entities[k]).value;
            && k in v.entities && v.entities[k].status == st
            && forall x | x in Plan(v, env, EntityRef(k)) :: Done(v, x)
  {
    hide EntityNext, ApplyAll;
    var o, v := w.entities[k], Reconcile(w, env, EntityRef(k));
    var st := EntityNext(w, env, k, o).value;
    ApplyOne(w, PutEntity(k, st));
    EntityNextAbsorbs(w, v, env, k, o);
    assert Plan(v, env, EntityRef(k)) == [PutEntity(k, st)];
  }

  lemma EntityAt(w: World, f: Specs, k: Key)
    requires Matches(w, f) && k in f.entities
    ensures k in w.entities && !w.entities[k].meta.deleting && w.entities[k].spec == f.entities[k]
  {
  }

  lemma TrustAt(w: World, f: Specs, k: Key)
    requires Matches(w, f) && k in f.base.trusts
    ensures k in w.trusts && w.trusts[k].spec == f.base.trusts[k]
  {
  }

  lemma EntityFinds(w: World, f: Specs, env: Env, k: Key)
    requires Healthy(w, f, env) && Present(f, EntityRef(k))
             && Achieved(w, f, TrustRef(Key(k.namespace, f.entities[k].trust)))
    ensures k in w.entities && !w.entities[k].meta.deleting && Quiet(env) && w.entities[k].spec == f.entities[k]
    ensures var t := Key(k.namespace, f.entities[k].trust);
            && t in w.trusts && TrustAchieved(w.trusts[t], f, t) && w.trusts[t].spec == f.base.trusts[t]
            && IssuerKnown(env, Key(k.namespace, w.trusts[t].spec.controlPlane))
            && TokenReady(env, k.namespace, w.entities[k].spec, w.trusts[t].spec)
  {
    hide IsTrue, Matches, Operational, Apart, RolesApart, IssuerKnown, TokenReady, TrustUsable, PlaceMounted, PlaceOf,
      EnvConforms, Quiet, ResolveControlPlaneAudience;
    EntityAt(w, f, k);
    TrustAt(w, f, Key(k.namespace, f.entities[k].trust));
  }

  lemma EntityAchieved(v: World, f: Specs, k: Key)
    requires k in v.entities && IsTrue(v.entities[k].status.conditions, Ready)
    requires IsTrue(v.entities[k].status.conditions, IdentityResolved)
    requires v.entities[k].status.identity.Some? && v.entities[k].status.identity.value.subject != ""
    ensures Achieved(v, f, EntityRef(k))
  {
  }

  lemma EntitySettles(w: World, f: Specs, env: Env, k: Key)
    requires Healthy(w, f, env) && Present(f, EntityRef(k))
             && Achieved(w, f, TrustRef(Key(k.namespace, f.entities[k].trust)))
    ensures Settled(Reconcile(w, env, EntityRef(k)), f, env, EntityRef(k))
  {
    hide Reconcile, Plan, EntityNext, Healthy, IsTrue, IssuerKnown, TokenReady, ResolveControlPlaneAudience, Quiet,
      Achieved, Done, PlaceOf;
    EntityFinds(w, f, env, k);
    IdentityResolves(w, env, k, w.entities[k]);
    EntityRun(w, env, k);
    EntityAchieved(Reconcile(w, env, EntityRef(k)), f, k);
  }

  // ---- Bindings ---------------------------------------------------------------------------------

  /** The reference is served: everything it needs is there. */
  predicate RefServed(w: World, env: Env, key: Key, spec: BindingSpec, ref: string) {
    var e := Key(key.namespace, ref);
    && e in w.entities && EntityUsable(w.entities[e])
    && (var t := Key(key.namespace, w.entities[e].spec.trust);
        && t in w.trusts && TrustUsable(w.trusts[t])
        && (var n := w.trusts[t].status.resolved;
            && n in w.instances && Reachable(w.instances[n])
            && n in w.backends && w.trusts[t].status.authMountPath in w.backends[n].mounts
            && !w.backends[n].policiesUnknown && spec.policyName in w.backends[n].policies))
  }

  lemma ServedOutcome(w: World, env: Env, key: Key, spec: BindingSpec, ref: string)
    requires Quiet(env) && RefServed(w, env, key, spec, ref)
    ensures var out := RefOutcomeOf(w, env, key, spec, ref);
            out.RefOutcome? && out.entry.ready && out.blocking == [] && out.check == CheckPresent
  {
    hide BindingRoleName, EntityUsable, TrustUsable, Reachable, BoundRole;
  }

  lemma ServedOutcomes(w: World, env: Env, key: Key)
    requires Quiet(env) && key in w.bindings
    requires forall ref | ref in w.bindings[key].spec.refs :: RefServed(w, env, key, w.bindings[key].spec, ref)
    ensures var outs := OutcomesOf(w, env, key);
            && !Aborted(outs)
            && forall i | 0 <= i < |outs| ::
                 outs[i].RefOutcome? && outs[i].entry.ready && outs[i].check != CheckFailed
  {
    hide RefOutcomeOf, RefServed;
    var spec := w.bindings[key].spec;
    forall i | 0 <= i < |spec.refs|
      ensures var out := OutcomesOf(w, env, key)[i]; out.RefOutcome? && out.entry.ready && out.check != CheckFailed
    {
      assert spec.refs[i] in spec.refs;
      ServedOutcome(w, env, key, spec, spec.refs[i]);
    }
  }

  lemma LoopWriteDone(w: World, v: World, env: Env, key: Key, x: Write)
    requires LiveBinding(w, env, key) && !Aborted(OutcomesOf(w, env, key)) && NoClash(OutcomesOf(w, env, key))
    requires v == Reconcile(w, env, BindingRef(key)) && x in LoopWrites(OutcomesOf(w, env, key))
    ensures Done(v, x)
  {
    hide Reconcile, LoopWrites, OutcomesOf, NoClash, Aborted, Slot;
    AllInPlaceIffNoClash(w, env, key);
    var i := ListedWrite(OutcomesOf(w, env, key), x);
    ResultAfter(w, env, key);
    LoopLands(w, env, key);
    assert InPlace(v, OutcomesOf(w, env, key)[i].write.value);
    LandsKept(w.(bindings := v.bindings), v, x);
  }

  /** With distinct references, every outcome has its own role name. */
  lemma ApartNoClash(w: World, f: Specs, env: Env, key: Key)
    requires RolesApart(f) && env.sha == f.base.sha && key in f.bindings && key in w.bindings
             && w.bindings[key].spec == f.bindings[key]
    ensures NoClash(OutcomesOf(w, env, key))
  {
    hide OutcomesOf, RoleName;
    var outs, refs := OutcomesOf(w, env, key), f.bindings[key].refs;
    OutcomesCount(w, env, key);
    forall i, j | 0 <= i < j < |outs| ensures Agree(outs, i, j) {
      NamedWrite(w, env, key, i);
      NamedWrite(w, env, key, j);
      assert refs[i] in refs && refs[j] in refs && refs[i] != refs[j];
      assert RoleOf(f, key, refs[i]) != RoleOf(f, key, refs[j]);
    }
  }

  lemma BindingPlanAgain(w: World, env: Env, key: Key)
    requires LiveBinding(w, env, key) && !Aborted(OutcomesOf(w, env, key))
    ensures var v := Reconcile(w, env, BindingRef(key));
            && key in v.bindings && v.bindings[key].status == BindingNext(w.bindings[key], OutcomesOf(w, env, key))
            && forall x | x in Plan(v, env, BindingRef(key)) ::
                 x in LoopWrites(OutcomesOf(w, env, key)) || x == PutBinding(key, v.bindings[key].status)
  {
    hide Reconcile, OutcomesOf, LoopWrites, BindingNext, Aborted, Plan;
    var o, outs, v := w.bindings[key], OutcomesOf(w, env, key), Reconcile(w, env, BindingRef(key));
    SameOutcomesAfter(w, env, key);
    LivePlan(v, env, key);
    BindingNextAbsorbs(o, outs, Held(o.meta, true));
  }

  lemma ServedBindingRun(w: World, env: Env, key: Key)
    requires LiveBinding(w, env, key) && Quiet(env) && NoClash(OutcomesOf(w, env, key))
    requires forall ref | ref in w.bindings[key].spec.refs :: RefServed(w, env, key, w.bindings[key].spec, ref)
    ensures var v := Reconcile(w, env, BindingRef(key));
            && key in v.bindings && IsTrue(v.bindings[key].status.conditions, Ready)
            && forall x | x in Plan(v, env, BindingRef(key)) :: Done(v, x)
  {
    hide Reconcile, OutcomesOf, LoopWrites, BindingNext, Aborted, Plan, NoClash, RefServed, Quiet;
    var outs, v := OutcomesOf(w, env, key), Reconcile(w, env, BindingRef(key));
    ServedOutcomes(w, env, key);
    OutcomesCount(w, env, key);
    BindingPlanAgain(w, env, key);
    NextAggregates(w, env, key);
    forall x | x in LoopWrites(outs) ensures Done(v, x) {
      LoopWriteDone(w, v, env, key, x);
    }
  }

  /** Even where references clash, a served binding reports Ready, and its next run would report the same. */
  lemma ServedBindingReports(w: World, env: Env, key: Key)
    requires LiveBinding(w, env, key) && Quiet(env)
    requires forall ref | ref in w.bindings[key].spec.refs :: RefServed(w, env, key, w.bindings[key].spec, ref)
    ensures var v := Reconcile(w, env, BindingRef(key));
            && key in v.bindings && IsTrue(v.bindings[key].status.conditions, Ready)
            && forall x | x in Plan(v, env, BindingRef(key)) :: Content(x) || Done(v, x)
  {
    hide Reconcile, OutcomesOf, LoopWrites, BindingNext, Aborted, Plan, RefServed, Quiet;
    var outs, v := OutcomesOf(w, env, key), Reconcile(w, env, BindingRef(key));
    ServedOutcomes(w, env, key);
    OutcomesCount(w, env, key);
    BindingPlanAgain(w, env, key);
    NextAggregates(w, env, key);
    forall x | x in LoopWrites(outs) ensures Content(x) {
      LoopWritesAreRoles(outs, x);
    }
  }

  lemma RefFinds(w: World, f: Specs, env: Env, b: Key, ref: string)
    requires Healthy(w, f, env) && b in f.bindings && ref in f.bindings[b].refs
    requires var e := Key(b.namespace, ref); var t := Key(b.namespace, f.entities[e].trust);
             Achieved(w, f, EntityRef(e)) && Achieved(w, f, TrustRef(t))
               && Achieved(w, f, InstanceRef(InstanceOf(f, t)))
    ensures RefServed(w, env, b, f.bindings[b], ref)
  {
    hide IsTrue, Matches, EnvHealthy, Apart, RolesApart, Reachable, EntityUsable, TrustUsable, PlaceOf, InstanceOf,
      Resolves;
    var e := Key(b.namespace, ref);
    var t := Key(b.namespace, f.entities[e].trust);
    RefResolves(f, b, ref);
    EntityAt(w, f, e);
    PlacedAt(f, t);
    assert PolicyThere(w, f, b, ref);
    InstanceUp(w, f, InstanceOf(f, t));
  }

  lemma RefResolves(f: Specs, b: Key, ref: string)
    requires Resolves(f) && b in f.bindings && ref in f.bindings[b].refs
    ensures Key(b.namespace, ref) in f.entities
    ensures var t := Key(b.namespace, f.entities[Key(b.namespace, ref)].trust);
            t in f.base.trusts && InstanceOf(f, t) in f.base.instances
  {
  }

  lemma InstanceUp(w: World, f: Specs, n: string)
    requires Operational(w, f) && n in f.base.instances
    ensures n in w.backends && !w.backends[n].policiesUnknown
  {
  }

  lemma BindingAt(w: World, f: Specs, env: Env, k: Key)
    requires Matches(w, f) && EnvHealthy(f, env) && k in f.bindings
    ensures LiveBinding(w, env, k) && w.bindings[k].spec == f.bindings[k] && Quiet(env) && env.sha == f.base.sha
  {
  }

  lemma ReferenceIn(f: Specs, done: set<Ref>, b: Key, ref: string)
    requires b in f.bindings && ref in f.bindings[b].refs && DependsOn(f, BindingRef(b)) <= done
    ensures EntityRef(Key(b.namespace, ref)) in done
  {
    assert EntityRef(Key(b.namespace, ref)) in DependsOn(f, BindingRef(b));
  }

  /** Every reference of a binding over a closed achieved set is served. */
  lemma AllServed(w: World, f: Specs, env: Env, done: set<Ref>, b: Key)
    requires Healthy(w, f, env) && Closed(f, done) && AllAchieved(w, f, done)
    requires b in f.bindings && DependsOn(f, BindingRef(b)) <= done
    ensures forall ref | ref in f.bindings[b].refs ::
              EntityRef(Key(b.namespace, ref)) in done && RefServed(w, env, b, f.bindings[b], ref)
  {
    hide RefServed, Healthy, Achieved, AllAchieved, Resolves, Closed, DependsOn;
    HealthyResolves(w, f, env);
    forall ref | ref in f.bindings[b].refs
      ensures EntityRef(Key(b.namespace, ref)) in done && RefServed(w, env, b, f.bindings[b], ref)
    {
      ReferenceIn(f, done, b, ref);
      BelowEntity(w, f, done, Key(b.namespace, ref));
      RefFinds(w, f, env, b, ref);
    }
  }

  lemma HealthyBinding(w: World, f: Specs, env: Env, k: Key)
    requires Healthy(w, f, env) && k in f.bindings
    ensures LiveBinding(w, env, k) && w.bindings[k].spec == f.bindings[k] && Quiet(env) && env.sha == f.base.sha
  {
    hide Matches, EnvHealthy, Operational, LiveBinding, Quiet;
    BindingAt(w, f, env, k);
  }

  lemma BindingReports(w: World, f: Specs, env: Env, done: set<Ref>, k: Key)
    requires Healthy(w, f, env) && Closed(f, done) && AllAchieved(w, f, done)
    requires Present(f, BindingRef(k)) && DependsOn(f, BindingRef(k)) <= done
    ensures Reported(Reconcile(w, env, BindingRef(k)), f, env, BindingRef(k))
  {
    hide Reconcile, Plan, RefServed, Healthy, Done, IsTrue, Closed, Quiet, LiveBinding, AllAchieved, Content;
    HealthyBinding(w, f, env, k);
    AllServed(w, f, env, done, k);
    ServedBindingReports(w, env, k);
  }

  lemma BindingSettles(w: World, f: Specs, env: Env, done: set<Ref>, k: Key)
    requires Healthy(w, f, env) && RolesApart(f) && Closed(f, done) && AllAchieved(w, f, done)
    requires Present(f, BindingRef(k)) && DependsOn(f, BindingRef(k)) <= done
    ensures Settled(Reconcile(w, env, BindingRef(k)), f, env, BindingRef(k))
  {
    hide Reconcile, Plan, OutcomesOf, NoClash, RefServed, Healthy, RolesApart, Done, IsTrue, Closed, Quiet, AllAchieved;
    HealthyBinding(w, f, env, k);
    AllServed(w, f, env, done, k);
    ApartNoClash(w, f, env, k);
    ServedBindingRun(w, env, k);
  }

  /** What an entity of a closed set rests on is in the set. */
  lemma BelowEntity(w: World, f: Specs, done: set<Ref>, e: Key)
    requires Resolves(f) && Closed(f, done) && AllAchieved(w, f, done) && EntityRef(e) in done
    ensures e in f.entities
    ensures var t := Key(e.namespace, f.entities[e].trust);
            Achieved(w, f, EntityRef(e)) && Achieved(w, f, TrustRef(t)) && Achieved(w, f, InstanceRef(InstanceOf(f, t)))
  {
    hide Achieved;
    assert DependsOn(f, EntityRef(e)) <= done;
    BelowTrust(w, f, done, Key(e.namespace, f.entities[e].trust));
  }

  lemma BelowTrust(w: World, f: Specs, done: set<Ref>, t: Key)
    requires Resolves(f) && Closed(f, done) && AllAchieved(w, f, done) && TrustRef(t) in done
    ensures t in f.base.trusts && Achieved(w, f, TrustRef(t)) && Achieved(w, f, InstanceRef(InstanceOf(f, t)))
  {
    hide Achieved;
    assert DependsOn(f, TrustRef(t)) <= done;
    BelowProjectEntity(w, f, done, f.base.trusts[t].projectEntity);
  }

  lemma BelowProjectEntity(w: World, f: Specs, done: set<Ref>, p: Key)
    requires Closed(f, done) && AllAchieved(w, f, done) && ProjectEntityRef(p) in done
    ensures p in f.base.projectEntities && Achieved(w, f, InstanceRef(f.base.projectEntities[p].instance))
  {
    hide Achieved;
    assert DependsOn(f, ProjectEntityRef(p)) <= done;
  }

  // ---- One turn ---------------------------------------------------------------------------------

  /** Above the bindings, reconciling an object whose dependencies are achieved settles it. */
  lemma UpperSettles(w: World, f: Specs, env: Env, done: set<Ref>, ref: Ref)
    requires Healthy(w, f, env) && Closed(f, done) && AllAchieved(w, f, done)
    requires Present(f, ref) && DependsOn(f, ref) <= done && !ref.BindingRef?
    ensures Settled(Reconcile(w, env, ref), f, env, ref)
  {
    hide Reconcile, Settled, Healthy, Closed, AllAchieved, Achieved;
    HealthyResolves(w, f, env);
    match ref
    case InstanceRef(n) => InstanceSettles(w, f, env, n);
    case ProjectEntityRef(k) =>
      AllAchievedAt(w, f, done, InstanceRef(f.base.projectEntities[k].instance));
      ProjectEntitySettles(w, f, env, k);
    case TrustRef(k) =>
      BelowProjectEntity(w, f, done, f.base.trusts[k].projectEntity);
      TrustSettles(w, f, env, k);
    case EntityRef(k) =>
      AllAchievedAt(w, f, done, TrustRef(Key(k.namespace, f.entities[k].trust)));
      EntitySettles(w, f, env, k);
  }

  /**
   Reconciling an object whose dependencies are achieved makes it Ready, whatever its state was, and all
   its next reconcile would write, but for configs and roles that others may overwrite, is there.
   */
  lemma ReconcileReports(w: World, f: Specs, env: Env, done: set<Ref>, ref: Ref)
    requires Healthy(w, f, env) && Closed(f, done) && AllAchieved(w, f, done)
    requires Present(f, ref) && DependsOn(f, ref) <= done
    ensures Reported(Reconcile(w, env, ref), f, env, ref)
  {
    hide Reconcile, Settled, Reported, Healthy, Closed, AllAchieved, DependsOn;
    if ref.BindingRef? {
      BindingReports(w, f, env, done, ref.key);
    } else {
      UpperSettles(w, f, env, done, ref);
      SettledReported(Reconcile(w, env, ref), f, env, ref);
    }
  }

  /** With role names apart it leaves nothing to do at all. */
  lemma ReconcileSettles(w: World, f: Specs, env: Env, done: set<Ref>, ref: Ref)
    requires Healthy(w, f, env) && RolesApart(f) && Closed(f, done) && AllAchieved(w, f, done)
    requires Present(f, ref) && DependsOn(f, ref) <= done
    ensures Settled(Reconcile(w, env, ref), f, env, ref)
  {
    hide Reconcile, Settled, Healthy, RolesApart, Closed, AllAchieved, DependsOn;
    if ref.BindingRef? {
      BindingSettles(w, f, env, done, ref.key);
    } else {
      UpperSettles(w, f, env, done, ref);
    }
  }

  lemma HealthyResolves(w: World, f: Specs, env: Env)
    requires Healthy(w, f, env)
    ensures Resolves(f)
  {
  }
}
