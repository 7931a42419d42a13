/**
 The safety of configured trusts over all runs: whoever crashes where, a live trust that reports
 itself configured has its mount and its JWT configuration.
 */
module TrustSafety {
  import opened Wrappers
  import opened Naming
  import opened Identity
  import opened Conditions
  import opened Backend
  import opened Api
  import opened Plans
  import opened Frames
  import opened Webhook
  import opened Runs

  // ---- Frozen specs -------------------------------------------------------------------------------

  /** The specs every creation and edit keeps to, whenever and however often an object exists. */
  datatype Frozen = Frozen(sha: Digest, prefix: string, instances: map<string, InstanceSpec>,
                           projectEntities: map<Key, ProjectEntitySpec>, trusts: map<Key, TrustSpec>)

  predicate DraftConforms(d: Draft, f: Frozen) {
    match d
    case DraftInstance(n, spec) => n in f.instances && f.instances[n] == spec
    case DraftProjectEntity(k, spec) => k in f.projectEntities && f.projectEntities[k] == spec
    case DraftTrust(k, spec) => k in f.trusts && f.trusts[k] == spec
    case _ => true
  }

  ghost predicate EnvConforms(env: Env, f: Frozen) {
    env.sha == f.sha && (env.mountPrefix.Some? ==> env.mountPrefix.value == f.prefix)
  }

  ghost predicate StepConforms(s: Step, f: Frozen) {
    match s
    case Reconciles(env, _, _) => EnvConforms(env, f)
    case Creates(d, _) => DraftConforms(d, f)
    case Edits(d) => DraftConforms(d, f)
    case _ => true
  }

  predicate Conforms(w: World, f: Frozen) {
    && (forall n | n in w.instances :: n in f.instances && w.instances[n].spec == f.instances[n])
    && (forall k | k in w.projectEntities ::
          k in f.projectEntities && w.projectEntities[k].spec == f.projectEntities[k])
    && (forall k | k in w.trusts :: k in f.trusts && w.trusts[k].spec == f.trusts[k])
  }

  datatype Place = Place(instance: string, path: string)

  /** Where the specs put a trust's mount. */
  function PlaceOf(f: Frozen, k: Key): Option<Place> {
    if k !in f.trusts || f.trusts[k].projectEntity !in f.projectEntities then None
    else
      var n := f.projectEntities[f.trusts[k].projectEntity].instance;
      if n !in f.instances then None
      else
        Some(Place(n, AuthMountPath(f.sha, ResolveAuthMountPrefix(f.prefix, f.instances[n]), k.namespace,
                                    f.trusts[k].controlPlane)))
  }

  /** No two trusts on one place. A place on an instance without a name is never torn down and does not matter. */
  predicate Apart(f: Frozen) {
    forall j, k | j in f.trusts && k in f.trusts && j != k && PlaceOf(f, j).Some?
           && PlaceOf(f, j).value.instance != "" ::
      PlaceOf(f, j) != PlaceOf(f, k)
  }

  // ---- The invariant ------------------------------------------------------------------------------

  predicate Configured(st: TrustStatus) {
    IsTrue(st.conditions, TrustConfigured)
  }

  predicate Stands(backends: map<string, State>, n: string, path: string) {
    n in backends && path in backends[n].mounts && path in backends[n].configs
  }

  /** A recorded path is the specs' own; a live configured trust has mount and config there. */
  predicate TrustHolds(backends: map<string, State>, f: Frozen, k: Key, deleting: bool, st: TrustStatus) {
    && (st.authMountPath != "" ==> PlaceOf(f, k) == Some(Place(st.resolved, st.authMountPath)))
    && (!deleting && Configured(st) ==> st.authMountPath != "" && Stands(backends, st.resolved, st.authMountPath))
  }

  predicate TrustsHold(w: World, f: Frozen) {
    forall k | k in w.trusts :: TrustHolds(w.backends, f, k, w.trusts[k].meta.deleting, w.trusts[k].status)
  }

  predicate Inv(w: World, f: Frozen) {
    Conforms(w, f) && TrustsHold(w, f)
  }

  // ---- One write -----------------------------------------------------------------------------------

  /** What a write must meet, in the world it meets, to keep the invariant. */
  predicate Good(w: World, f: Frozen, x: Write) {
    match x
    case PutTrust(k, st) => k in w.trusts ==> TrustHolds(w.backends, f, k, w.trusts[k].meta.deleting, st)
    case RemoveMount(n, path) =>
      forall k | k in w.trusts && !w.trusts[k].meta.deleting && Configured(w.trusts[k].status) ::
        w.trusts[k].status.resolved != n || w.trusts[k].status.authMountPath != path
    case _ => true
  }

  lemma CallKeepsStanding(s: State, x: Write, path: string)
    requires path in s.mounts && path in s.configs
    requires x.RemoveMount? ==> x.path != path
    ensures path in OnBackend(s, x).mounts && path in OnBackend(s, x).configs
  {
  }

  lemma WriteKeepsStanding(w: World, x: Write, n: string, path: string)
    requires Stands(w.backends, n, path)
    requires x.RemoveMount? ==> x.backend != n || x.path != path
    ensures Stands(Apply(w, x).backends, n, path)
  {
    hide OnBackend, Apply;
    ApplyParts(w, x);
    if IsBackendWrite(x) && x.backend in w.backends && x.backend == n {
      CallKeepsStanding(w.backends[n], x, path);
    }
  }

  lemma WriteConforms(w: World, f: Frozen, x: Write)
    requires Conforms(w, f)
    ensures Conforms(Apply(w, x), f)
  {
    hide OnBackend, Held, Gone;
  }

  lemma ReleasedOthers(w: World, j: Key, k: Key)
    requires k in ReleasedTrust(w, j).trusts
    ensures k in w.trusts && ReleasedTrust(w, j).trusts[k].meta.deleting == w.trusts[k].meta.deleting
    ensures ReleasedTrust(w, j).trusts[k].status == w.trusts[k].status
  {
    hide Gone;
  }

  lemma PutTrusts(w: World, j: Key, st: TrustStatus)
    ensures Apply(w, PutTrust(j, st)).trusts
            == if j in w.trusts then w.trusts[j := w.trusts[j].(status := st)] else w.trusts
  {
  }

  lemma HeldTrusts(w: World, j: Key)
    ensures Apply(w, AddTrustFinalizer(j)).trusts
            == if j in w.trusts then w.trusts[j := w.trusts[j].(meta := Held(w.trusts[j].meta, true))] else w.trusts
  {
    hide Held;
  }

  lemma ReleasedTrusts(w: World, j: Key)
    ensures Apply(w, DropTrustFinalizer(j)) == ReleasedTrust(w, j)
  {
    hide ReleasedTrust;
  }

  /** A trust a write leaves behind was there before, no less deleting, with its own or the put status. */
  lemma WriteOnTrust(w: World, x: Write, k: Key)
    requires k in Apply(w, x).trusts
    ensures k in w.trusts && Apply(w, x).trusts[k].meta.deleting == w.trusts[k].meta.deleting
    ensures Apply(w, x).trusts[k].status == if x.PutTrust? && x.key == k then x.trustStatus else w.trusts[k].status
  {
    hide Apply, ReleasedTrust;
    match x
    case PutTrust(j, st) => PutTrusts(w, j, st);
    case AddTrustFinalizer(j) => HeldTrusts(w, j);
    case DropTrustFinalizer(j) =>
      ReleasedTrusts(w, j);
      ReleasedOthers(w, j, k);
    case _ => ApplyParts(w, x);
  }

  lemma GoodKeeps(w: World, f: Frozen, x: Write)
    requires Inv(w, f) && Good(w, f, x)
    ensures Inv(Apply(w, x), f)
  {
    hide Apply, Conforms, PlaceOf, Configured;
    WriteConforms(w, f, x);
    var v := Apply(w, x);
    forall k | k in v.trusts ensures TrustHolds(v.backends, f, k, v.trusts[k].meta.deleting, v.trusts[k].status) {
      WriteOnTrust(w, x, k);
      var st := v.trusts[k].status;
      assert TrustHolds(w.backends, f, k, w.trusts[k].meta.deleting, st);
      if !w.trusts[k].meta.deleting && Configured(st) {
        WriteKeepsStanding(w, x, st.resolved, st.authMountPath);
      }
    }
  }

  predicate GoodRun(w: World, f: Frozen, xs: seq<Write>)
    decreases xs
  {
    xs == [] || (Good(w, f, xs[0]) && GoodRun(Apply(w, xs[0]), f, xs[1..]))
  }

  /** Wherever a good list of writes is cut off, the invariant holds. */
  lemma {:induction false} GoodRunKeeps(w: World, f: Frozen, xs: seq<Write>, stop: nat)
    requires Inv(w, f) && GoodRun(w, f, xs) && stop <= |xs|
    ensures Inv(ApplyAll(w, xs[..stop]), f)
    decreases xs
  {
    hide Inv, Good, Apply;
    if stop > 0 {
      GoodKeeps(w, f, xs[0]);
      GoodRunKeeps(Apply(w, xs[0]), f, xs[1..], stop - 1);
      assert xs[..stop][1..] == xs[1..][..stop - 1];
    }
  }

  lemma {:induction false} HarmlessRun(w: World, f: Frozen, xs: seq<Write>)
    requires forall x | x in xs :: !x.PutTrust? && !x.RemoveMount?
    ensures GoodRun(w, f, xs)
    decreases xs
  {
    hide Apply;
    if xs != [] {
      assert xs[0] in xs;
      HarmlessRun(Apply(w, xs[0]), f, xs[1..]);
    }
  }

  // ---- The trust plan ---------------------------------------------------------------------------------

  /** A run that stops before the backend keeps the path and does not turn TrustConfigured True. */
  lemma ReportKeepsPlace(w: World, env: Env, k: Key, o: Trust)
    requires env.mountPrefix.Some? && TrustGateOf(w, env, k, o).TrustReports?
    ensures var st := TrustGateOf(w, env, k, o).status;
            && st.authMountPath == o.status.authMountPath
            && (Configured(st) ==> Configured(o.status))
            && (st.resolved == o.status.resolved || (o.spec.projectEntity in w.projectEntities
                                                     && st.resolved
                                                        == w.projectEntities[o.spec.projectEntity].spec.instance
                                                     && st.resolved in w.instances))
  {
    hide TrustMount, Reachable, TrustConfig, ControlPlaneIssuer, Upsert;
  }

  lemma GateInstance(w: World, env: Env, k: Key, o: Trust)
    requires env.mountPrefix.Some? && TrustGateOf(w, env, k, o).TrustConfigures?
    ensures var gate := TrustGateOf(w, env, k, o);
            && o.spec.projectEntity in w.projectEntities && gate.instance in w.instances
            && gate.instance == w.projectEntities[o.spec.projectEntity].spec.instance == gate.status.resolved
            && gate.path == TrustMount(env, k, o.spec, w.instances[gate.instance]) == gate.status.authMountPath
  {
    hide TrustBlocked, TrustFailed, TrustMount, Reachable, TrustConfig, ControlPlaneIssuer;
  }

  lemma PlaceIsSpecs(w: World, env: Env, f: Frozen, k: Key, o: Trust)
    requires Conforms(w, f) && EnvConforms(env, f) && env.mountPrefix.Some? && k in w.trusts && w.trusts[k] == o
    requires o.spec.projectEntity in w.projectEntities
    requires w.projectEntities[o.spec.projectEntity].spec.instance in w.instances
    ensures var n := w.projectEntities[o.spec.projectEntity].spec.instance;
            var path := TrustMount(env, k, o.spec, w.instances[n]);
            PlaceOf(f, k) == Some(Place(n, path)) && path != ""
  {
    hide AuthMountPath;
    var n := w.projectEntities[o.spec.projectEntity].spec.instance;
    MountPathIsName(env.sha, ResolveAuthMountPrefix(env.mountPrefix.value, w.instances[n].spec), k.namespace,
                    o.spec.controlPlane);
  }

  lemma GateHolds(w: World, env: Env, f: Frozen, k: Key, o: Trust)
    requires Inv(w, f) && EnvConforms(env, f) && env.mountPrefix.Some? && k in w.trusts && w.trusts[k] == o
    ensures var gate := TrustGateOf(w, env, k, o);
            && (gate.TrustReports? ==> TrustHolds(w.backends, f, k, o.meta.deleting, gate.status))
            && (gate.TrustConfigures? ==>
                  && PlaceOf(f, k) == Some(Place(gate.instance, gate.path)) && gate.path != ""
                  && gate.status.resolved == gate.instance && gate.status.authMountPath == gate.path)
  {
    hide TrustGateOf, TrustMount, Stands, Configured, PlaceOf, Conforms;
    var gate := TrustGateOf(w, env, k, o);
    assert TrustHolds(w.backends, f, k, o.meta.deleting, o.status);
    if gate.TrustReports? {
      ReportKeepsPlace(w, env, k, o);
      if gate.status.resolved != o.status.resolved {
        PlaceIsSpecs(w, env, f, k, o);
      }
    } else if gate.TrustConfigures? {
      GateInstance(w, env, k, o);
      PlaceIsSpecs(w, env, f, k, o);
    }
  }

  lemma DoneAndFailed(st: TrustStatus, g: int, text: string, m: Message)
    ensures !Configured(TrustCallFailed(st, g, text)) && !Configured(TrustFailed(st, g, OpenBaoUnreachable, m, m))
    ensures Configured(TrustDone(st, g))
    ensures forall s | s in {TrustCallFailed(st, g, text), TrustFailed(st, g, OpenBaoUnreachable, m, m),
                             TrustDone(st, g)} ::
              s.resolved == st.resolved && s.authMountPath == st.authMountPath
  {
  }

  /** Mount, then config, then the status: every cut of the list is good. */
  lemma BackendWritesGood(w: World, env: Env, f: Frozen, k: Key, g: int, gate: TrustGate)
    requires gate.TrustConfigures? && PlaceOf(f, k) == Some(Place(gate.instance, gate.path)) && gate.path != ""
    requires gate.status.resolved == gate.instance && gate.status.authMountPath == gate.path
    ensures GoodRun(w, f, TrustBackendWrites(w, env, k, g, gate))
  {
    hide TrustCallFailed, TrustFailed, TrustDone, Configured, PlaceOf, Apply, Stands;
    var n, path, st := gate.instance, gate.path, gate.status;
    var xs := TrustBackendWrites(w, env, k, g, gate);
    match Client(w, env, n)
    case Failure(text) =>
      DoneAndFailed(st, g, text, ErrorText(text));
      GoodOne(w, f, xs[0]);
    case Success(_) =>
      var w1 := Apply(w, WriteMount(n, path));
      if CallMount(n) in env.callErrors {
        DoneAndFailed(st, g, env.callErrors[CallMount(n)], NoMessage);
        GoodOne(w, f, xs[0]);
      } else if CallConfig(n) in env.callErrors {
        DoneAndFailed(st, g, env.callErrors[CallConfig(n)], NoMessage);
        GoodOne(w1, f, xs[1]);
        GoodMore(w, f, xs);
      } else {
        var w2 := Apply(w1, WriteConfig(n, path, gate.config));
        DoneAndFailed(st, g, "", NoMessage);
        MountThenConfig(w, n, path, gate.config);
        GoodOne(w2, f, xs[2]);
        GoodMore(w1, f, xs[1..]);
        GoodMore(w, f, xs);
      }
  }

  lemma GoodOne(w: World, f: Frozen, x: Write)
    requires Good(w, f, x)
    ensures GoodRun(w, f, [x])
  {
    hide Good, Apply;
    assert GoodRun(Apply(w, x), f, [x][1..]);
  }

  lemma GoodMore(w: World, f: Frozen, xs: seq<Write>)
    requires xs != [] && Good(w, f, xs[0]) && GoodRun(Apply(w, xs[0]), f, xs[1..])
    ensures GoodRun(w, f, xs)
  {
  }

  lemma MountThenConfig(w: World, n: string, path: string, config: JWTAuthConfig)
    requires n in w.backends
    ensures Stands(Apply(Apply(w, WriteMount(n, path)), WriteConfig(n, path, config)).backends, n, path)
  {
  }

  /** A teardown deletes at most the mount its trust records, first. */
  lemma TeardownShape(w: World, env: Env, k: Key, o: Trust)
    ensures var xs := TrustTeardown(w, env, k, o);
            && (xs != [] && xs[0].RemoveMount? ==>
                  && xs[0] == RemoveMount(o.status.resolved, o.status.authMountPath)
                  && o.status.resolved != "" && o.status.authMountPath != "")
            && (forall x | x in xs && x != xs[0] :: x.DropTrustFinalizer?)
            && (xs != [] ==> xs[0].RemoveMount? || xs[0].DropTrustFinalizer?)
            && (xs != [] ==> forall x | x in xs[1..] :: x.DropTrustFinalizer?)
  {
    hide Reachable, Client;
  }

  lemma RemoveMountGood(w: World, f: Frozen, k: Key)
    requires Inv(w, f) && Apart(f) && k in w.trusts && w.trusts[k].meta.deleting
    requires w.trusts[k].status.resolved != "" && w.trusts[k].status.authMountPath != ""
    ensures Good(w, f, RemoveMount(w.trusts[k].status.resolved, w.trusts[k].status.authMountPath))
  {
    hide Inv, Apart, Configured;
    var n, path := w.trusts[k].status.resolved, w.trusts[k].status.authMountPath;
    forall j | j in w.trusts && !w.trusts[j].meta.deleting && Configured(w.trusts[j].status)
      ensures w.trusts[j].status.resolved != n || w.trusts[j].status.authMountPath != path
    {
      ApartHolds(w, f, j, k);
    }
  }

  lemma TeardownGood(w: World, env: Env, f: Frozen, k: Key, o: Trust)
    requires Inv(w, f) && Apart(f) && k in w.trusts && w.trusts[k] == o && o.meta.deleting
    ensures GoodRun(w, f, TrustTeardown(w, env, k, o))
  {
    hide Inv, Apart, Apply, Good, GoodRun, TrustTeardown;
    var xs := TrustTeardown(w, env, k, o);
    TeardownShape(w, env, k, o);
    if xs != [] && xs[0].RemoveMount? {
      RemoveMountGood(w, f, k);
      HarmlessRun(Apply(w, xs[0]), f, xs[1..]);
      GoodMore(w, f, xs);
    } else {
      HarmlessRun(w, f, xs);
    }
  }

  lemma ApartHolds(w: World, f: Frozen, j: Key, k: Key)
    requires Inv(w, f) && Apart(f) && j in w.trusts && k in w.trusts && j != k
    requires w.trusts[k].status.resolved != "" && w.trusts[k].status.authMountPath != ""
    ensures w.trusts[j].status.resolved != w.trusts[k].status.resolved
            || w.trusts[j].status.authMountPath != w.trusts[k].status.authMountPath
  {
    hide Stands, PlaceOf, Configured;
    assert TrustHolds(w.backends, f, j, w.trusts[j].meta.deleting, w.trusts[j].status);
    assert TrustHolds(w.backends, f, k, w.trusts[k].meta.deleting, w.trusts[k].status);
    assert j in f.trusts && k in f.trusts;
  }

  lemma TrustBodyGood(w: World, env: Env, f: Frozen, k: Key, o: Trust)
    requires Inv(w, f) && EnvConforms(env, f) && env.mountPrefix.Some? && k in w.trusts && w.trusts[k] == o
    ensures GoodRun(w, f, TrustBody(w, env, k, o))
  {
    hide Inv, TrustGateOf, TrustHolds, PlaceOf, TrustBackendWrites, Apply, GoodRun, EnvConforms;
    GateHolds(w, env, f, k, o);
    var gate := TrustGateOf(w, env, k, o);
    match gate
    case TrustAborts => HarmlessRun(w, f, []);
    case TrustReports(st) => GoodOne(w, f, PutTrust(k, st));
    case TrustConfigures(_, _, _, _) => BackendWritesGood(w, env, f, k, o.meta.generation, gate);
  }

  lemma HoldKeepsInv(w: World, f: Frozen, k: Key)
    requires Inv(w, f) && k in w.trusts
    ensures var v := Apply(w, AddTrustFinalizer(k));
            && Inv(v, f) && k in v.trusts && v.trusts[k].meta.generation == w.trusts[k].meta.generation
            && v.trusts[k].spec == w.trusts[k].spec && v.trusts[k].status == w.trusts[k].status
            && v.projectEntities == w.projectEntities && v.instances == w.instances && v.backends == w.backends
  {
    hide Inv;
    GoodKeeps(w, f, AddTrustFinalizer(k));
  }

  lemma TrustPlanGood(w: World, env: Env, f: Frozen, k: Key)
    requires Inv(w, f) && Apart(f) && EnvConforms(env, f)
    ensures GoodRun(w, f, TrustPlan(w, env, k))
  {
    hide Inv, Apart, Apply, TrustBody, TrustTeardown, GoodRun, Good, EnvConforms;
    var xs := TrustPlan(w, env, k);
    if xs == [] {
      HarmlessRun(w, f, xs);
    } else {
      var o := w.trusts[k];
      if o.meta.deleting {
        TeardownGood(w, env, f, k, o);
      } else if OwnFinalizer in o.meta.finalizers {
        assert xs == TrustBody(w, env, k, o);
        TrustBodyGood(w, env, f, k, o);
      } else {
        HeldBodyGood(w, env, f, k, o);
      }
    }
  }

  lemma HeldBodyGood(w: World, env: Env, f: Frozen, k: Key, o: Trust)
    requires Inv(w, f) && EnvConforms(env, f) && env.mountPrefix.Some? && k in w.trusts && w.trusts[k] == o
    ensures GoodRun(w, f, [AddTrustFinalizer(k)] + TrustBody(w, env, k, o))
  {
    hide Inv, Apply, TrustBody, GoodRun, EnvConforms, Held;
    var v := Apply(w, AddTrustFinalizer(k));
    var xs := [AddTrustFinalizer(k)] + TrustBody(w, env, k, o);
    HoldKeepsInv(w, f, k);
    TrustBodyGood(v, env, f, k, v.trusts[k]);
    TrustBodyAt(w, v, env, k, o);
    TrustBodyOfHeld(v, env, k, o, v.trusts[k]);
    assert xs[1..] == TrustBody(w, env, k, o);
    GoodMore(w, f, xs);
  }

  /** The body reads nothing of a trust but its generation, spec and status. */
  lemma TrustBodyOfHeld(w: World, env: Env, k: Key, o: Trust, p: Trust)
    requires env.mountPrefix.Some? && o.meta.generation == p.meta.generation && o.spec == p.spec && o.status == p.status
    ensures TrustBody(w, env, k, o) == TrustBody(w, env, k, p)
  {
    hide TrustBackendWrites;
  }

  // ---- Every plan ---------------------------------------------------------------------------------------

  lemma OtherPlansHarmless(w: World, env: Env, ref: Ref, x: Write)
    requires x in Plan(w, env, ref) && !ref.TrustRef?
    ensures !x.PutTrust? && !x.RemoveMount?
  {
    hide LoopWrites, RemovalWrites, BindingNext, Outcomes, Aborted, SomeRemovalFails, EntityNext, InstanceNext,
      ProjectEntityGateOf, ProjectEntityDone;
    match ref
    case BindingRef(k) =>
      var o := w.bindings[k];
      var outs := Outcomes(w, env, k, o.spec, o.spec.refs);
      if !o.meta.deleting && x in LoopWrites(outs) {
        LoopWritesAreRoles(outs, x);
      } else if o.meta.deleting && x in RemovalWrites(w, env, k.namespace, o.status.roles) {
        RemovalWritesAreRemovals(w, env, k.namespace, o.status.roles, x);
      }
    case _ =>
  }

  lemma PlanGood(w: World, env: Env, f: Frozen, ref: Ref)
    requires Inv(w, f) && Apart(f) && EnvConforms(env, f)
    ensures GoodRun(w, f, Plan(w, env, ref))
  {
    hide Inv, Apart, GoodRun, EnvConforms;
    if ref.TrustRef? {
      TrustPlanGood(w, env, f, ref.key);
    } else {
      hide Plan;
      forall x | x in Plan(w, env, ref) ensures !x.PutTrust? && !x.RemoveMount? {
        OtherPlansHarmless(w, env, ref, x);
      }
      HarmlessRun(w, f, Plan(w, env, ref));
    }
  }

  // ---- Every step and every run -----------------------------------------------------------------------------

  lemma PartKeeps(w: World, env: Env, f: Frozen, ref: Ref, stop: nat)
    requires Inv(w, f) && Apart(f) && EnvConforms(env, f)
    ensures Inv(ReconcilePart(w, env, ref, stop), f)
  {
    hide Inv, Apart, GoodRun, EnvConforms, Plan;
    var plan := Plan(w, env, ref);
    PlanGood(w, env, f, ref);
    GoodRunKeeps(w, f, plan, if stop < |plan| then stop else |plan|);
    assert plan[..|plan|] == plan;
  }

  lemma CreateKeeps(w: World, f: Frozen, d: Draft, meta: Meta)
    requires Inv(w, f) && DraftConforms(d, f)
    ensures Inv(Create(w, d, meta), f)
  {
    hide PlaceOf, Stands;
  }

  lemma EditKeeps(w: World, f: Frozen, d: Draft)
    requires Inv(w, f) && DraftConforms(d, f)
    ensures Inv(Edit(w, d), f)
  {
    hide PlaceOf, Stands, Configured;
  }

  lemma DeleteConforms(w: World, f: Frozen, ref: Ref)
    requires Conforms(w, f)
    ensures Conforms(Delete(w, ref), f)
  {
    if ref.EntityRef? || ref.BindingRef? {
      hide Delete;
      DeleteParts(w, ref);
    }
  }

  lemma DeleteTrustsHold(w: World, f: Frozen, ref: Ref)
    requires TrustsHold(w, f)
    ensures TrustsHold(Delete(w, ref), f)
  {
    hide PlaceOf, Stands, Configured;
    if !ref.TrustRef? {
      hide Delete;
      DeleteParts(w, ref);
    }
  }

  lemma OperateKeepsStanding(w: World, n: string, health: HealthInfo, err: Option<string>, policies: set<string>,
                             unknown: bool,
                             m: string, path: string)
    requires Stands(w.backends, m, path)
    ensures Stands(Operate(w, n, health, err, policies, unknown).backends, m, path)
  {
  }

  lemma OperateKeeps(w: World, f: Frozen, n: string, health: HealthInfo, err: Option<string>, policies: set<string>,
                     unknown: bool)
    requires Inv(w, f)
    ensures Inv(Operate(w, n, health, err, policies, unknown), f)
  {
    hide PlaceOf, Configured, Stands;
    var v := Operate(w, n, health, err, policies, unknown);
    forall k | k in v.trusts ensures TrustHolds(v.backends, f, k, v.trusts[k].meta.deleting, v.trusts[k].status) {
      var st := w.trusts[k].status;
      assert TrustHolds(w.backends, f, k, w.trusts[k].meta.deleting, st);
      if !w.trusts[k].meta.deleting && Configured(st) {
        OperateKeepsStanding(w, n, health, err, policies, unknown, st.resolved, st.authMountPath);
      }
    }
  }

  lemma StepKeeps(w: World, f: Frozen, s: Step)
    requires Inv(w, f) && Apart(f) && StepConforms(s, f)
    ensures Inv(Do(w, s), f)
  {
    hide ReconcilePart, Create, Edit, Delete, Operate, Admits, Conforms, TrustsHold, Apart, EnvConforms, DraftConforms;
    match s
    case Reconciles(env, ref, stop) => PartKeeps(w, env, f, ref, stop);
    case Creates(d, foreign) => CreateKeeps(w, f, d, NewMeta(foreign));
    case Edits(d) => EditKeeps(w, f, d);
    case Deletes(ref) =>
      DeleteConforms(w, f, ref);
      DeleteTrustsHold(w, f, ref);
    case Operates(n, health, err, policies, unknown) => OperateKeeps(w, f, n, health, err, policies, unknown);
  }

  lemma {:induction false} EveryRunKeeps(w: World, f: Frozen, steps: seq<Step>)
    requires Inv(w, f) && Apart(f)
    requires forall s | s in steps :: StepConforms(s, f)
    ensures Inv(Run(w, steps), f)
    decreases steps
  {
    if steps != [] {
      hide Inv, Apart, StepConforms, Do;
      StepKeeps(w, f, steps[0]);
      EveryRunKeeps(Do(w, steps[0]), f, steps[1..]);
    }
  }

  /**
   From the empty world, with the specs frozen and no two trusts on the same place: after any run,
   with any crashes, a live trust that reports TrustConfigured has mount and config where it says.
   */
  lemma ConfiguredTrustsStand(f: Frozen, steps: seq<Step>, k: Key)
    requires Apart(f)
    requires forall s | s in steps :: StepConforms(s, f)
    ensures var w := Run(EMPTY_WORLD, steps);
            k in w.trusts && !w.trusts[k].meta.deleting && IsTrue(w.trusts[k].status.conditions, TrustConfigured) ==>
              var n, path := w.trusts[k].status.resolved, w.trusts[k].status.authMountPath;
              && PlaceOf(f, k) == Some(Place(n, path))
              && n in w.backends && path in w.backends[n].mounts && path in w.backends[n].configs
  {
    hide Apart, StepConforms, Run, PlaceOf;
    EveryRunKeeps(EMPTY_WORLD, f, steps);
  }

  // ---- When places are apart ---------------------------------------------------------------------------------

  /** What the names of the specs must meet: DNS labels, hashes that do not collide, and no two trusts
      of one instance with the same namespace-controlPlane join. */
  ghost predicate NamesApart(f: Frozen) {
    && (forall k | k in f.trusts :: Label(k.namespace) && Label(f.trusts[k].controlPlane))
    && (forall j, k | j in f.trusts && k in f.trusts && PlaceOf(f, j).Some? && PlaceOf(f, k).Some?
                      && PlaceOf(f, j).value.instance == PlaceOf(f, k).value.instance ::
          var prefix := ResolveAuthMountPrefix(f.prefix, f.instances[PlaceOf(f, j).value.instance]);
          CollisionFree(f.sha, {MountFull(prefix, j.namespace, f.trusts[j].controlPlane),
                                MountFull(prefix, k.namespace, f.trusts[k].controlPlane)}))
  }

  lemma ApartIffJoinsDiffer(f: Frozen)
    requires NamesApart(f)
    ensures Apart(f) <==>
            forall j, k | j in f.trusts && k in f.trusts && j != k && PlaceOf(f, j).Some? && PlaceOf(f, k).Some?
                          && PlaceOf(f, j).value.instance == PlaceOf(f, k).value.instance != "" ::
              j.namespace + "-" + f.trusts[j].controlPlane != k.namespace + "-" + f.trusts[k].controlPlane
  {
    hide AuthMountPath, CollisionFree, Label;
    forall j, k | j in f.trusts && k in f.trusts && PlaceOf(f, j).Some? && PlaceOf(f, k).Some?
                  && PlaceOf(f, j).value.instance == PlaceOf(f, k).value.instance
      ensures PlaceOf(f, j) == PlaceOf(f, k) <==>
              j.namespace + "-" + f.trusts[j].controlPlane == k.namespace + "-" + f.trusts[k].controlPlane
    {
      var prefix := ResolveAuthMountPrefix(f.prefix, f.instances[PlaceOf(f, j).value.instance]);
      MountPathsSeparate(f.sha, prefix, j.namespace, f.trusts[j].controlPlane, k.namespace, f.trusts[k].controlPlane);
    }
  }

  /** Two trusts on one place break it: the teardown of the one takes the mount from under the other. */
  lemma SharedPlaceBreaks(w: World, env: Env, j: Key, k: Key)
    requires j in w.trusts && k in w.trusts && j != k
    requires w.trusts[j].meta.deleting && !w.trusts[k].meta.deleting && Configured(w.trusts[k].status)
    requires w.trusts[j].status.authMountPath == w.trusts[k].status.authMountPath != ""
    requires w.trusts[j].status.resolved == w.trusts[k].status.resolved != ""
    requires var n := w.trusts[j].status.resolved;
             n in w.instances && Reachable(w.instances[n]) && n in w.backends
             && env.callErrors == map[] && env.faults == {} && env.mountPrefix.Some?
    ensures var v := Reconcile(w, env, TrustRef(j));
            && k in v.trusts && v.trusts[k] == w.trusts[k]
            && !Stands(v.backends, w.trusts[k].status.resolved, w.trusts[k].status.authMountPath)
  {
    hide Reachable, Configured, Gone, Held, ReleasedTrust, WithoutMount;
    var n, path := w.trusts[j].status.resolved, w.trusts[j].status.authMountPath;
    var v := Apply(w, RemoveMount(n, path));
    var drop := TrustDrop(j, w.trusts[j]);
    assert Plan(w, env, TrustRef(j)) == [RemoveMount(n, path)] + drop;
    RemoveThenDrop(w, n, path, j, drop);
    NoMountLeft(w.backends[n], path);
    OtherStays(v, j, k);
  }

  lemma NoMountLeft(s: State, path: string)
    ensures path !in WithoutMount(s, path).mounts
  {
  }

  lemma OtherStays(w: World, j: Key, k: Key)
    requires k in w.trusts && j != k
    ensures k in ReleasedTrust(w, j).trusts && ReleasedTrust(w, j).trusts[k] == w.trusts[k]
    ensures ReleasedTrust(w, j).backends == w.backends
  {
    hide Gone;
  }

  lemma RemoveThenDrop(w: World, n: string, path: string, j: Key, drop: seq<Write>)
    requires drop == [] || drop == [DropTrustFinalizer(j)]
    ensures var v := Apply(w, RemoveMount(n, path));
            ApplyAll(w, [RemoveMount(n, path)] + drop) == if drop == [] then v else ReleasedTrust(v, j)
  {
    hide ReleasedTrust, ApplyBackend;
    ApplyAppend(w, [RemoveMount(n, path)], drop);
    ApplyOne(w, RemoveMount(n, path));
    if drop != [] {
      ApplyOne(Apply(w, RemoveMount(n, path)), drop[0]);
    }
  }
}
