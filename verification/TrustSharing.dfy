/** Two trusts on one place: a run from the empty world in which a live configured trust loses its mount. */
module TrustSharing {
  import opened Wrappers
  import opened Naming
  import opened Identity
  import opened Conditions
  import opened Backend
  import opened Api
  import opened Plans
  import opened Frames
  import opened Webhook
  import opened Runs
  import opened TrustSafety
  import opened Idempotence
  import opened Settling
  import opened Achievement
  import opened Convergence
  import Teardown

  // ---- The promise, over all runs ----------------------------------------------------------------------------------

  /** Every live trust that reports itself configured has mount and config where it says. */
  predicate ConfiguredStand(w: World) {
    forall k | k in w.trusts && !w.trusts[k].meta.deleting && Configured(w.trusts[k].status) ::
      Stands(w.backends, w.trusts[k].status.resolved, w.trusts[k].status.authMountPath)
  }

  ghost predicate Conforming(steps: seq<Step>, f: Frozen) {
    forall s | s in steps :: StepConforms(s, f)
  }

  /** At most one trust is live: live trusts are as far apart as can be. */
  predicate OneLive(w: World) {
    forall j, k | j in w.trusts && k in w.trusts && !w.trusts[j].meta.deleting && !w.trusts[k].meta.deleting :: j == k
  }

  predicate OneLiveThroughout(w: World, steps: seq<Step>)
    decreases steps
  {
    OneLive(w) && (steps == [] || OneLiveThroughout(Do(w, steps[0]), steps[1..]))
  }

  // ---- Building the run ---------------------------------------------------------------------------------------------

  lemma {:induction false} RunSnoc(w: World, steps: seq<Step>, s: Step)
    ensures Run(w, steps + [s]) == Do(Run(w, steps), s)
    decreases steps
  {
    hide Do;
    if steps == [] {
      assert [] + [s] == [s] && [s][1..] == [];
    } else {
      assert (steps + [s])[1..] == steps[1..] + [s];
      RunSnoc(Do(w, steps[0]), steps[1..], s);
    }
  }

  lemma {:induction false} ThroughoutSnoc(w: World, steps: seq<Step>, s: Step)
    requires OneLiveThroughout(w, steps) && OneLive(Do(Run(w, steps), s))
    ensures OneLiveThroughout(w, steps + [s])
    decreases steps
  {
    hide Do, OneLive;
    if steps == [] {
      assert [] + [s] == [s] && [s][1..] == [];
      assert OneLiveThroughout(Do(w, s), []);
    } else {
      assert (steps + [s])[1..] == steps[1..] + [s];
      ThroughoutSnoc(Do(w, steps[0]), steps[1..], s);
    }
  }

  /** A conforming run from the empty world with never more than one live trust. */
  ghost predicate Trail(steps: seq<Step>, f: Frozen) {
    Conforming(steps, f) && OneLiveThroughout(EMPTY_WORLD, steps)
  }

  lemma Further(steps: seq<Step>, f: Frozen, s: Step)
    requires Trail(steps, f) && StepConforms(s, f) && OneLive(Do(Run(EMPTY_WORLD, steps), s))
    ensures Trail(steps + [s], f) && Run(EMPTY_WORLD, steps + [s]) == Do(Run(EMPTY_WORLD, steps), s)
  {
    hide Do, Run, OneLive, StepConforms, OneLiveThroughout;
    RunSnoc(EMPTY_WORLD, steps, s);
    ThroughoutSnoc(EMPTY_WORLD, steps, s);
  }

  lemma {:induction false} WritesKeepOneLive(w: World, xs: seq<Write>)
    requires OneLive(w)
    ensures OneLive(ApplyAll(w, xs))
    decreases xs
  {
    if xs != [] {
      hide Apply;
      Teardown.WriteFollowsTrusts(w, xs[0]);
      WritesKeepOneLive(Apply(w, xs[0]), xs[1..]);
    }
  }

  function Whole(w: World, env: Env, ref: Ref): Step {
    Reconciles(env, ref, |Plan(w, env, ref)|)
  }

  lemma FurtherReconcile(steps: seq<Step>, f: Frozen, env: Env, ref: Ref)
    requires Trail(steps, f) && EnvConforms(env, f) && OneLive(Run(EMPTY_WORLD, steps))
    ensures var s := Whole(Run(EMPTY_WORLD, steps), env, ref);
            Trail(steps + [s], f) && Run(EMPTY_WORLD, steps + [s]) == Reconcile(Run(EMPTY_WORLD, steps), env, ref)
  {
    hide Plan, Run, OneLive, Trail, EnvConforms, ApplyAll;
    var w := Run(EMPTY_WORLD, steps);
    WritesKeepOneLive(w, Plan(w, env, ref));
    Further(steps, f, Whole(w, env, ref));
  }

  // ---- The surroundings -------------------------------------------------------------------------

  /** The specs put the trusts, or the one trust, on one place of an instance with a name. */
  predicate OnePlace(f: Frozen, j: Key, k: Key) {
    && j in f.trusts && k in f.trusts && PlaceOf(f, j).Some? && PlaceOf(f, j) == PlaceOf(f, k)
    && PlaceOf(f, j).value.instance != ""
  }

  predicate Shared(f: Frozen, j: Key, k: Key) {
    OnePlace(f, j, k) && j != k
  }

  /** Nothing fails and both control planes have an issuer. */
  function SharingEnv(f: Frozen, j: Key, k: Key): Env
    requires j in f.trusts && k in f.trusts
  {
    var issuer := [Endpoint(ISSUER_ENDPOINT, "i")];
    Env(f.sha, Some(f.prefix), {}, map[],
        map[Key(j.namespace, f.trusts[j].controlPlane) := issuer, Key(k.namespace, f.trusts[k].controlPlane) := issuer],
        map[], map[], None)
  }

  /**
   The ground both trusts stand on: a reachable instance with a backend, both project entities, and nothing
   below trusts.
   */
  predicate Ground(w: World, f: Frozen, n: string, j: Key, k: Key) {
    && Conforms(w, f) && j in f.trusts && k in f.trusts
    && n in w.instances && Reachable(w.instances[n]) && n in w.backends
    && f.trusts[j].projectEntity in w.projectEntities && f.trusts[k].projectEntity in w.projectEntities
    && w.entities == map[] && w.bindings == map[]
  }

  lemma EmptyTrail(f: Frozen)
    ensures Trail([], f) && Run(EMPTY_WORLD, []) == EMPTY_WORLD
  {
  }

  lemma GroundTrail(f: Frozen, j: Key, k: Key, env: Env) returns (steps: seq<Step>)
    requires OnePlace(f, j, k) && env == SharingEnv(f, j, k)
    ensures Trail(steps, f)
    ensures var w := Run(EMPTY_WORLD, steps); Ground(w, f, PlaceOf(f, j).value.instance, j, k) && w.trusts == map[]
  {
    hide Run, Trail, AuthMountPath, InstanceNext, Plan;
    var n := PlaceOf(f, j).value.instance;
    var pj, pk := f.trusts[j].projectEntity, f.trusts[k].projectEntity;
    EmptyTrail(f);
    var s1 := Operates(n, HealthInfo(true, false, ""), None, {}, false);
    Further([], f, s1);
    var w1 := Run(EMPTY_WORLD, [] + [s1]);
    var s2 := Creates(DraftInstance(n, f.instances[n]), {});
    Further([] + [s1], f, s2);
    var w2 := Run(EMPTY_WORLD, [] + [s1] + [s2]);
    var s3 := Creates(DraftProjectEntity(pj, f.projectEntities[pj]), {});
    Further([] + [s1] + [s2], f, s3);
    var w3 := Run(EMPTY_WORLD, [] + [s1] + [s2] + [s3]);
    var s4 := Creates(DraftProjectEntity(pk, f.projectEntities[pk]), {});
    Further([] + [s1] + [s2] + [s3], f, s4);
    var trail := [] + [s1] + [s2] + [s3] + [s4];
    var w4 := Run(EMPTY_WORLD, trail);
    FurtherReconcile(trail, f, env, InstanceRef(n));
    steps := trail + [Whole(w4, env, InstanceRef(n))];
    ProbedInstance(w4, env, n);
  }

  lemma ProbedInstance(w: World, env: Env, n: string)
    requires Quiet(env) && n in w.instances && !w.instances[n].meta.deleting && n in w.backends && Up(w.backends[n])
    ensures var v := Reconcile(w, env, InstanceRef(n));
            && n in v.instances && Reachable(v.instances[n]) && v.instances[n].spec == w.instances[n].spec
            && v == w.(instances := w.instances[n := v.instances[n]])
  {
    hide InstanceNext, ApplyAll;
    var st := InstanceNext(w, env, n, w.instances[n]);
    UpIsReady(w, env, n, w.instances[n]);
    assert Plan(w, env, InstanceRef(n)) == [PutInstance(n, st)];
    ApplyOne(w, PutInstance(n, st));
  }

  // ---- One trust comes up -----------------------------------------------------------------------

  /** A trust that stands live and configured at its place, with the finalizer held. */
  predicate UpAt(w: World, f: Frozen, k: Key) {
    && k in w.trusts && !w.trusts[k].meta.deleting && OwnFinalizer in w.trusts[k].meta.finalizers
    && Configured(w.trusts[k].status)
    && PlaceOf(f, k) == Some(Place(w.trusts[k].status.resolved, w.trusts[k].status.authMountPath))
    && Teardown.Mounted(w, w.trusts[k].status.resolved, w.trusts[k].status.authMountPath)
  }

  lemma BodyTouchesOne(h: World, env: Env, k: Key)
    requires LiveTrust(h, env, k) && TrustGateOf(h, env, k, h.trusts[k]).TrustConfigures?
    ensures var v := ApplyAll(h, TrustBody(h, env, k, h.trusts[k]));
            && k in v.trusts && v.trusts[k] == h.trusts[k].(status := v.trusts[k].status)
            && v.backends.Keys == h.backends.Keys
            && v == h.(trusts := h.trusts[k := v.trusts[k]], backends := v.backends)
  {
    hide TrustGateOf, TrustBackendWrites, CallsEnd, ApplyAll, Idle;
    BackendWritesIdle(h, env, k, h.trusts[k].meta.generation, TrustGateOf(h, env, k, h.trusts[k]));
  }

  /** An undisturbed reconcile of a trust over a reachable instance configures it and touches nothing else. */
  lemma ConfiguredAlone(w: World, env: Env, t: Key)
    requires LiveTrust(w, env, t) && Quiet(env) && w.trusts[t].spec.projectEntity in w.projectEntities
    requires var n := w.projectEntities[w.trusts[t].spec.projectEntity].spec.instance;
             n in w.instances && Reachable(w.instances[n]) && n in w.backends
    requires IssuerKnown(env, Key(t.namespace, w.trusts[t].spec.controlPlane))
    ensures var v := Reconcile(w, env, TrustRef(t));
            var n := w.projectEntities[w.trusts[t].spec.projectEntity].spec.instance;
            && t in v.trusts && v == w.(trusts := w.trusts[t := v.trusts[t]], backends := v.backends)
            && v.backends.Keys == w.backends.Keys
            && v.trusts[t].spec == w.trusts[t].spec && !v.trusts[t].meta.deleting
            && OwnFinalizer in v.trusts[t].meta.finalizers && Configured(v.trusts[t].status)
            && v.trusts[t].status.resolved == n
            && v.trusts[t].status.authMountPath == TrustMount(env, t, w.trusts[t].spec, w.instances[n])
            && Teardown.Mounted(v, n, v.trusts[t].status.authMountPath)
  {
    hide Reconcile, TrustBody, ApplyAll, TrustGateOf, Reachable, IssuerKnown, TrustMount, ResolveControlPlaneAudience,
      TrustConfig, ControlPlaneIssuer, HeldTrust, Plan, Quiet;
    LiveTrustResult(w, env, t);
    HeldTrustLive(w, env, t);
    HeldOthers(w, t);
    var h := HeldTrust(w, t);
    ConfigureGate(h, env, t, h.trusts[t]);
    ConfiguringRun(h, env, t);
    BodyTouchesOne(h, env, t);
  }

  lemma TrustComesUp(w: World, f: Frozen, j: Key, k: Key, t: Key, n: string, env: Env)
    requires Ground(w, f, n, j, k) && (t == j || t == k) && EnvConforms(env, f) && Quiet(env)
    requires t in w.trusts && !w.trusts[t].meta.deleting && n == f.projectEntities[f.trusts[t].projectEntity].instance
    requires IssuerKnown(env, Key(t.namespace, f.trusts[t].controlPlane))
    ensures var v := Reconcile(w, env, TrustRef(t));
            && Ground(v, f, n, j, k) && UpAt(v, f, t) && v.trusts == w.trusts[t := v.trusts[t]]
  {
    hide Reconcile, Reachable, IssuerKnown, TrustMount, PlaceOf, Configured;
    ConfiguredAlone(w, env, t);
    PlaceIsSpecs(w, env, f, t, w.trusts[t]);
  }

  lemma HeldOthers(w: World, k: Key)
    requires k in w.trusts
    ensures HeldTrust(w, k).trusts == w.trusts[k := HeldTrust(w, k).trusts[k]]
    ensures OwnFinalizer in HeldTrust(w, k).trusts[k].meta.finalizers
    ensures HeldTrust(w, k).trusts[k].meta.deleting == w.trusts[k].meta.deleting
  {
  }

  // ---- The whole run ----------------------------------------------------------------------------

  lemma CreatedTrust(w: World, f: Frozen, n: string, j: Key, k: Key, t: Key)
    requires Ground(w, f, n, j, k) && t in f.trusts && t !in w.trusts
    ensures var v := Do(w, Creates(DraftTrust(t, f.trusts[t]), {}));
            && Ground(v, f, n, j, k) && t in v.trusts && !v.trusts[t].meta.deleting
            && v.trusts == w.trusts[t := v.trusts[t]]
  {
    hide Reachable;
  }

  /** From a ground with no live trust, one of the two is created and comes up. */
  lemma UpTrail(steps: seq<Step>, f: Frozen, j: Key, k: Key, t: Key, env: Env) returns (more: seq<Step>)
    requires OnePlace(f, j, k) && env == SharingEnv(f, j, k) && (t == j || t == k) && Trail(steps, f)
    requires var w := Run(EMPTY_WORLD, steps);
             && Ground(w, f, PlaceOf(f, j).value.instance, j, k) && t !in w.trusts
             && forall u | u in w.trusts :: w.trusts[u].meta.deleting
    ensures Trail(more, f)
    ensures var w, v := Run(EMPTY_WORLD, steps), Run(EMPTY_WORLD, more);
            && Ground(v, f, PlaceOf(f, j).value.instance, j, k) && UpAt(v, f, t)
            && v.trusts == w.trusts[t := v.trusts[t]]
  {
    hide Run, Trail, AuthMountPath, Plan, Ground, Do, Reconcile, IssuerKnown, UpAt;
    var n, w := PlaceOf(f, j).value.instance, Run(EMPTY_WORLD, steps);
    var s := Creates(DraftTrust(t, f.trusts[t]), {});
    CreatedTrust(w, f, n, j, k, t);
    Further(steps, f, s);
    var u := Run(EMPTY_WORLD, steps + [s]);
    FurtherReconcile(steps + [s], f, env, TrustRef(t));
    IssuerThere(env, Key(t.namespace, f.trusts[t].controlPlane));
    TrustComesUp(u, f, j, k, t, n, env);
    more := steps + [s] + [Whole(u, env, TrustRef(t))];
  }

  lemma MarkKeeps(w: World, f: Frozen, t: Key)
    requires t in w.trusts && w.trusts[t].meta.finalizers != {} && Conforms(w, f)
    ensures var v := Delete(w, TrustRef(t));
            && v == w.(trusts := w.trusts[t := w.trusts[t].(meta := Terminating(w.trusts[t].meta))])
            && Conforms(v, f)
  {
  }

  lemma MarkedTrust(w: World, f: Frozen, n: string, j: Key, k: Key, t: Key)
    requires Ground(w, f, n, j, k) && UpAt(w, f, t)
    ensures var v := Do(w, Deletes(TrustRef(t)));
            && Ground(v, f, n, j, k) && t in v.trusts && v.trusts == w.trusts[t := v.trusts[t]]
            && v.backends == w.backends
            && v.trusts[t].meta.deleting && v.trusts[t].status == w.trusts[t].status
  {
    hide Reachable, PlaceOf, Configured, Delete, Conforms;
    assert Admits(w, TrustRef(t));
    assert w.trusts[t].meta.finalizers != {};
    MarkKeeps(w, f, t);
  }

  /**
   If two trusts of the specs share a place on an instance with a name, then a conforming run from the
   empty world, in which never two trusts are live at a time, ends with a live trust that reports itself
   configured and has no mount: the finalizer of the other has just deleted it.
   */
  lemma SharedPlaceFails(f: Frozen, j: Key, k: Key) returns (steps: seq<Step>)
    requires Shared(f, j, k)
    ensures Conforming(steps, f) && OneLiveThroughout(EMPTY_WORLD, steps)
    ensures var w := Run(EMPTY_WORLD, steps);
            && k in w.trusts && !w.trusts[k].meta.deleting && Configured(w.trusts[k].status)
            && !Stands(w.backends, w.trusts[k].status.resolved, w.trusts[k].status.authMountPath)
  {
    hide Run, OneLiveThroughout, Conforming, AuthMountPath, Plan, Ground, Do, Reconcile, UpAt;
    var env, n := SharingEnv(f, j, k), PlaceOf(f, j).value.instance;
    var ground := GroundTrail(f, j, k, env);
    var up := UpTrail(ground, f, j, k, j, env);
    var w1 := Run(EMPTY_WORLD, up);
    MarkedTrust(w1, f, n, j, k, j);
    UpIs(w1, f, j);
    var s := Deletes(TrustRef(j));
    Further(up, f, s);
    var both := UpTrail(up + [s], f, j, k, k, env);
    var w2 := Run(EMPTY_WORLD, both);
    UpIs(w2, f, k);
    FurtherReconcile(both, f, env, TrustRef(j));
    GroundIs(w2, f, n, j, k);
    PlaceHasPath(f, j);
    SharedPlaceBreaks(w2, env, j, k);
    steps := both + [Whole(w2, env, TrustRef(j))];
  }

  lemma PlaceHasPath(f: Frozen, k: Key)
    requires PlaceOf(f, k).Some?
    ensures PlaceOf(f, k).value.path != ""
  {
    hide AuthMountPath;
    var n := f.projectEntities[f.trusts[k].projectEntity].instance;
    MountPathIsName(f.sha, ResolveAuthMountPrefix(f.prefix, f.instances[n]), k.namespace, f.trusts[k].controlPlane);
  }

  lemma UpIs(w: World, f: Frozen, k: Key)
    requires UpAt(w, f, k)
    ensures k in w.trusts && !w.trusts[k].meta.deleting && Configured(w.trusts[k].status)
    ensures PlaceOf(f, k) == Some(Place(w.trusts[k].status.resolved, w.trusts[k].status.authMountPath))
    ensures Teardown.Mounted(w, w.trusts[k].status.resolved, w.trusts[k].status.authMountPath)
  {
  }

  lemma GroundIs(w: World, f: Frozen, n: string, j: Key, k: Key)
    requires Ground(w, f, n, j, k)
    ensures n in w.instances && Reachable(w.instances[n]) && n in w.backends
    ensures w.entities == map[] && w.bindings == map[]
  {
  }

  /**
   Over all conforming runs from the empty world: configured trusts stand exactly when no two trusts share a
   place.
   */
  lemma StandIffApart(f: Frozen)
    ensures Apart(f) <==>
            forall steps: seq<Step> :: Conforming(steps, f) ==> ConfiguredStand(Run(EMPTY_WORLD, steps))
  {
    hide Run, PlaceOf, Stands, Configured;
    if Apart(f) {
      forall steps: seq<Step> | Conforming(steps, f) ensures ConfiguredStand(Run(EMPTY_WORLD, steps)) {
        RunStands(f, steps);
      }
    } else {
      var j, k :| j in f.trusts && k in f.trusts && j != k && PlaceOf(f, j).Some? && PlaceOf(f, j).value.instance != ""
                  && PlaceOf(f, j) == PlaceOf(f, k);
      var steps := SharedPlaceFails(f, j, k);
      assert !ConfiguredStand(Run(EMPTY_WORLD, steps));
    }
  }

  lemma RunStands(f: Frozen, steps: seq<Step>)
    requires Apart(f) && Conforming(steps, f)
    ensures ConfiguredStand(Run(EMPTY_WORLD, steps))
  {
    hide Run, Apart, PlaceOf, StepConforms, IsTrue;
    var w := Run(EMPTY_WORLD, steps);
    forall k | k in w.trusts && !w.trusts[k].meta.deleting && Configured(w.trusts[k].status)
      ensures Stands(w.backends, w.trusts[k].status.resolved, w.trusts[k].status.authMountPath)
    {
      ConfiguredTrustsStand(f, steps, k);
    }
  }
}
