/**
 Teardown order over all runs: what a present binding reaches is neither gone nor going, so the
 finalizer of a trust never takes a mount from under a binding.
 */
module Teardown {
  import opened Wrappers
  import opened Conditions
  import opened Backend
  import opened Api
  import opened Plans
  import opened Frames
  import opened Webhook
  import opened Runs
  import TrustSafety

  // ---- The invariant -------------------------------------------------------------------------------

  predicate LiveProjectEntity(w: World, k: Key) {
    k in w.projectEntities && !w.projectEntities[k].meta.deleting
  }

  predicate LiveTrust(w: World, k: Key) {
    k in w.trusts && !w.trusts[k].meta.deleting
  }

  predicate LiveEntity(w: World, k: Key) {
    k in w.entities && !w.entities[k].meta.deleting
  }

  predicate RefsLive(w: World, namespace: string, refs: seq<string>) {
    forall ref | ref in refs :: LiveEntity(w, Key(namespace, ref))
  }

  /** The target of every present object, terminating or not, is present and live. */
  predicate Anchored(w: World) {
    && (forall k | k in w.trusts :: LiveProjectEntity(w, w.trusts[k].spec.projectEntity))
    && (forall k | k in w.entities :: LiveTrust(w, Key(k.namespace, w.entities[k].spec.trust)))
    && (forall k | k in w.bindings :: RefsLive(w, k.namespace, w.bindings[k].spec.refs))
  }

  // ---- Steps that keep to the rules: an object is created on, and pointed at, live targets ------------

  predicate Taken(w: World, d: Draft) {
    match d
    case DraftInstance(n, _) => n in w.instances
    case DraftProjectEntity(k, _) => k in w.projectEntities
    case DraftTrust(k, _) => k in w.trusts
    case DraftEntity(k, _) => k in w.entities
    case DraftBinding(k, _) => k in w.bindings
  }

  predicate TargetsLive(w: World, d: Draft) {
    match d
    case DraftTrust(_, spec) => LiveProjectEntity(w, spec.projectEntity)
    case DraftEntity(k, spec) => LiveTrust(w, Key(k.namespace, spec.trust))
    case DraftBinding(k, spec) => RefsLive(w, k.namespace, spec.refs)
    case _ => true
  }

  /** A creation under a free name and an edit of a present object name live targets; nothing else is asked. */
  predicate Orderly(w: World, s: Step) {
    match s
    case Creates(d, _) => Taken(w, d) || TargetsLive(w, d)
    case Edits(d) => Taken(w, d) ==> TargetsLive(w, d)
    case _ => true
  }

  predicate OrderlyRun(w: World, steps: seq<Step>)
    decreases steps
  {
    steps == [] || (Orderly(w, steps[0]) && OrderlyRun(Do(w, steps[0]), steps[1..]))
  }

  // ---- Reconciles ---------------------------------------------------------------------------------------

  predicate TrustsFollow(w: World, v: World) {
    && v.trusts.Keys <= w.trusts.Keys
    && (forall k | k in v.trusts :: v.trusts[k].meta.deleting == w.trusts[k].meta.deleting
                                    && v.trusts[k].spec == w.trusts[k].spec)
    && (forall k | k in w.trusts && k !in v.trusts :: w.trusts[k].meta.deleting)
  }

  predicate BindingsFollow(w: World, v: World) {
    && v.bindings.Keys <= w.bindings.Keys
    && (forall k | k in v.bindings :: v.bindings[k].spec == w.bindings[k].spec)
  }

  /** Same specs and deletion marks where both have an object; of trusts only terminating ones may go. */
  predicate Follows(w: World, v: World) {
    && v.projectEntities.Keys == w.projectEntities.Keys && v.entities.Keys == w.entities.Keys
    && (forall k | k in w.projectEntities :: v.projectEntities[k].meta == w.projectEntities[k].meta)
    && (forall k | k in w.entities ::
          v.entities[k].meta == w.entities[k].meta && v.entities[k].spec == w.entities[k].spec)
    && TrustsFollow(w, v) && BindingsFollow(w, v)
  }

  lemma FollowsKeeps(w: World, v: World)
    requires Anchored(w) && Follows(w, v)
    ensures Anchored(v)
  {
    forall k | k in v.trusts ensures LiveProjectEntity(v, v.trusts[k].spec.projectEntity) {
      assert LiveProjectEntity(w, w.trusts[k].spec.projectEntity);
    }
    forall k | k in v.entities ensures LiveTrust(v, Key(k.namespace, v.entities[k].spec.trust)) {
      assert LiveTrust(w, Key(k.namespace, w.entities[k].spec.trust));
    }
    forall k | k in v.bindings ensures RefsLive(v, k.namespace, v.bindings[k].spec.refs) {
      assert RefsLive(w, k.namespace, w.bindings[k].spec.refs);
      forall ref | ref in v.bindings[k].spec.refs ensures LiveEntity(v, Key(k.namespace, ref)) {
        assert LiveEntity(w, Key(k.namespace, ref));
      }
    }
  }

  lemma ReleasedTrustFollows(w: World, k: Key)
    ensures TrustsFollow(w, ReleasedTrust(w, k))
  {
    hide Gone, Held;
    if k in w.trusts {
      HeldKeepsMark(w.trusts[k].meta);
    }
  }

  lemma HeldKeepsMark(m: Meta)
    ensures Held(m, false).deleting == m.deleting
    ensures Gone(Held(m, false)) ==> m.deleting
  {
  }

  lemma ReleasedBindingFollows(w: World, k: Key)
    ensures BindingsFollow(w, ReleasedBinding(w, k))
  {
    hide Gone, Held;
  }

  lemma WriteFollowsTrusts(w: World, x: Write)
    ensures TrustsFollow(w, Apply(w, x))
  {
    hide Apply, ReleasedTrust;
    match x
    case PutTrust(k, st) => TrustSafety.PutTrusts(w, k, st);
    case AddTrustFinalizer(k) => TrustSafety.HeldTrusts(w, k);
    case DropTrustFinalizer(k) =>
      TrustSafety.ReleasedTrusts(w, k);
      ReleasedTrustFollows(w, k);
    case _ => ApplyParts(w, x);
  }

  lemma WriteFollowsBindings(w: World, x: Write)
    ensures BindingsFollow(w, Apply(w, x))
  {
    if x.PutBinding? || x.AddBindingFinalizer? || x.DropBindingFinalizer? {
      hide ReleasedTrust, ReleasedBinding, ApplyBackend;
      if x.DropBindingFinalizer? {
        ReleasedBindingFollows(w, x.key);
      }
    } else {
      hide Apply;
      ApplyParts(w, x);
    }
  }

  lemma PutProjectEntities(w: World, k: Key, st: ProjectEntityStatus)
    ensures Apply(w, PutProjectEntity(k, st)).projectEntities
            == if k in w.projectEntities then w.projectEntities[k := w.projectEntities[k].(status := st)]
               else w.projectEntities
  {
  }

  lemma PutEntities(w: World, k: Key, st: EntityStatus)
    ensures Apply(w, PutEntity(k, st)).entities
            == if k in w.entities then w.entities[k := w.entities[k].(status := st)] else w.entities
  {
  }

  lemma WriteFollowsRest(w: World, x: Write)
    ensures var v := Apply(w, x);
            && v.projectEntities.Keys == w.projectEntities.Keys && v.entities.Keys == w.entities.Keys
            && (forall k | k in w.projectEntities :: v.projectEntities[k].meta == w.projectEntities[k].meta)
            && (forall k | k in w.entities ::
                  v.entities[k].meta == w.entities[k].meta && v.entities[k].spec == w.entities[k].spec)
  {
    hide Apply;
    ApplyParts(w, x);
    match x
    case PutProjectEntity(k, st) => PutProjectEntities(w, k, st);
    case PutEntity(k, st) => PutEntities(w, k, st);
    case _ =>
  }

  lemma WriteFollows(w: World, x: Write)
    ensures Follows(w, Apply(w, x))
  {
    hide Apply;
    WriteFollowsTrusts(w, x);
    WriteFollowsBindings(w, x);
    WriteFollowsRest(w, x);
  }

  lemma {:induction false} WritesKeep(w: World, xs: seq<Write>)
    requires Anchored(w)
    ensures Anchored(ApplyAll(w, xs))
    decreases xs
  {
    if xs != [] {
      hide Anchored, Follows, Apply;
      WriteFollows(w, xs[0]);
      FollowsKeeps(w, Apply(w, xs[0]));
      WritesKeep(Apply(w, xs[0]), xs[1..]);
    }
  }

  // ---- Users ----------------------------------------------------------------------------------------------

  /** What is live in the one world is live in the other. */
  ghost predicate KeepsLive(w: World, v: World) {
    && (forall k | LiveProjectEntity(w, k) :: LiveProjectEntity(v, k))
    && (forall k | LiveTrust(w, k) :: LiveTrust(v, k))
    && (forall k | LiveEntity(w, k) :: LiveEntity(v, k))
  }

  /** The targets of the second world's objects are live in the first. */
  predicate AnchoredIn(w: World, v: World) {
    && (forall k | k in v.trusts :: LiveProjectEntity(w, v.trusts[k].spec.projectEntity))
    && (forall k | k in v.entities :: LiveTrust(w, Key(k.namespace, v.entities[k].spec.trust)))
    && (forall k | k in v.bindings :: RefsLive(w, k.namespace, v.bindings[k].spec.refs))
  }

  lemma AnchoredThere(w: World, v: World)
    requires AnchoredIn(w, v) && KeepsLive(w, v)
    ensures Anchored(v)
  {
    hide LiveProjectEntity, LiveTrust, LiveEntity, RefsLive;
    Widens(w, v);
  }

  lemma CreateKeepsLive(w: World, d: Draft, meta: Meta)
    ensures KeepsLive(w, Create(w, d, meta))
  {
  }

  /** The spec of each object is the old one, or the draft's. */
  predicate SpecsFrom(w: World, v: World, d: Draft) {
    && (forall k | k in v.trusts ::
          (k in w.trusts && v.trusts[k].spec == w.trusts[k].spec)
            || (d.DraftTrust? && d.key == k && v.trusts[k].spec == d.trust))
    && (forall k | k in v.entities ::
          (k in w.entities && v.entities[k].spec == w.entities[k].spec)
            || (d.DraftEntity? && d.key == k && v.entities[k].spec == d.entity))
    && (forall k | k in v.bindings ::
          (k in w.bindings && v.bindings[k].spec == w.bindings[k].spec)
            || (d.DraftBinding? && d.key == k && v.bindings[k].spec == d.binding))
  }

  lemma CreateSpecs(w: World, d: Draft, meta: Meta)
    ensures SpecsFrom(w, Create(w, d, meta), d)
  {
    hide Create;
    CreateParts(w, d, meta);
    if d.DraftTrust? || d.DraftEntity? || d.DraftBinding? {
      CreatedSpec(w, d, meta);
    }
  }

  lemma CreatedSpec(w: World, d: Draft, meta: Meta)
    ensures var v := Create(w, d, meta);
            && (d.DraftTrust? ==>
                  forall k | k in v.trusts ::
                    (k in w.trusts && v.trusts[k] == w.trusts[k]) || (k == d.key && v.trusts[k].spec == d.trust))
            && (d.DraftEntity? ==>
                  forall k | k in v.entities ::
                    (k in w.entities && v.entities[k] == w.entities[k])
                      || (k == d.key && v.entities[k].spec == d.entity))
            && (d.DraftBinding? ==>
                  forall k | k in v.bindings ::
                    (k in w.bindings && v.bindings[k] == w.bindings[k])
                      || (k == d.key && v.bindings[k].spec == d.binding))
  {
  }

  lemma CreateAnchored(w: World, d: Draft, meta: Meta)
    requires Anchored(w) && TargetsLive(w, d)
    ensures AnchoredIn(w, Create(w, d, meta))
  {
    hide LiveProjectEntity, LiveTrust, RefsLive, Create;
    CreateSpecs(w, d, meta);
  }

  lemma CreateKeeps(w: World, d: Draft, meta: Meta)
    requires Anchored(w) && TargetsLive(w, d)
    ensures Anchored(Create(w, d, meta))
  {
    hide Create, KeepsLive, AnchoredIn, Anchored, TargetsLive;
    CreateKeepsLive(w, d, meta);
    CreateAnchored(w, d, meta);
    AnchoredThere(w, Create(w, d, meta));
  }

  /** Liveness in a world that only has more, or other, objects beside the live ones. */
  lemma Widens(w: World, v: World)
    requires forall k | LiveEntity(w, k) :: LiveEntity(v, k)
    ensures forall ns, refs :: RefsLive(w, ns, refs) ==> RefsLive(v, ns, refs)
  {
  }

  lemma EditKeepsLive(w: World, d: Draft)
    ensures KeepsLive(w, Edit(w, d))
  {
  }

  lemma EditSpecs(w: World, d: Draft)
    ensures var v := Edit(w, d);
            && SpecsFrom(w, v, d)
            && v.trusts.Keys == w.trusts.Keys && v.entities.Keys == w.entities.Keys
            && v.bindings.Keys == w.bindings.Keys
  {
    hide Edit;
    EditParts(w, d);
    if d.DraftTrust? || d.DraftEntity? || d.DraftBinding? {
      EditedSpec(w, d);
    }
  }

  lemma EditedSpec(w: World, d: Draft)
    ensures d.DraftTrust? ==>
              var v := Edit(w, d).trusts;
              v.Keys == w.trusts.Keys && forall k | k in v ::
                  v[k] == w.trusts[k] || (k == d.key && v[k].spec == d.trust)
    ensures d.DraftEntity? ==>
              var v := Edit(w, d).entities;
              v.Keys == w.entities.Keys && forall k | k in v ::
                  v[k] == w.entities[k] || (k == d.key && v[k].spec == d.entity)
    ensures d.DraftBinding? ==>
              var v := Edit(w, d).bindings;
              v.Keys == w.bindings.Keys && forall k | k in v ::
                  v[k] == w.bindings[k] || (k == d.key && v[k].spec == d.binding)
  {
    hide EditedInstance, EditedProjectEntity, Edited;
  }

  lemma EditAnchored(w: World, d: Draft)
    requires Anchored(w) && TargetsLive(w, d)
    ensures AnchoredIn(w, Edit(w, d))
  {
    hide LiveProjectEntity, LiveTrust, RefsLive, Edit;
    EditSpecs(w, d);
  }

  lemma EditKeeps(w: World, d: Draft)
    requires Anchored(w) && TargetsLive(w, d)
    ensures Anchored(Edit(w, d))
  {
    hide Edit, KeepsLive, AnchoredIn, Anchored, TargetsLive;
    EditKeepsLive(w, d);
    EditAnchored(w, d);
    AnchoredThere(w, Edit(w, d));
  }

  lemma DeleteProjectEntityKeeps(w: World, k: Key)
    requires Anchored(w) && Admits(w, ProjectEntityRef(k))
    ensures Anchored(DeleteProjectEntity(w, k))
  {
    hide RefsLive;
    Widens(w, DeleteProjectEntity(w, k));
  }

  lemma DeleteTrustKeeps(w: World, k: Key)
    requires Anchored(w) && Admits(w, TrustRef(k))
    ensures Anchored(DeleteTrust(w, k))
  {
    hide RefsLive;
    Widens(w, DeleteTrust(w, k));
  }

  lemma DeleteEntityKeeps(w: World, k: Key)
    requires Anchored(w) && Admits(w, EntityRef(k))
    ensures Anchored(DeleteEntity(w, k))
  {
    var v := DeleteEntity(w, k);
    forall b | b in v.bindings ensures RefsLive(v, b.namespace, v.bindings[b].spec.refs) {
      assert RefsLive(w, b.namespace, w.bindings[b].spec.refs);
      forall ref | ref in v.bindings[b].spec.refs ensures LiveEntity(v, Key(b.namespace, ref)) {
        assert LiveEntity(w, Key(b.namespace, ref));
      }
    }
  }

  lemma DeleteBindingKeeps(w: World, k: Key)
    requires Anchored(w)
    ensures Anchored(DeleteBinding(w, k))
  {
    hide RefsLive;
    Widens(w, DeleteBinding(w, k));
  }

  lemma DeleteKeeps(w: World, ref: Ref)
    requires Anchored(w) && Admits(w, ref)
    ensures Anchored(Delete(w, ref))
  {
    hide Anchored, Admits, DeleteProjectEntity, DeleteTrust, DeleteEntity, DeleteBinding;
    match ref
    case InstanceRef(n) => SameObjects(w, DeleteInstance(w, n));
    case ProjectEntityRef(k) => DeleteProjectEntityKeeps(w, k);
    case TrustRef(k) => DeleteTrustKeeps(w, k);
    case EntityRef(k) => DeleteEntityKeeps(w, k);
    case BindingRef(k) => DeleteBindingKeeps(w, k);
    case ControlPlaneRef(_) =>
  }

  lemma SameObjects(w: World, v: World)
    requires Anchored(w)
    requires v.projectEntities == w.projectEntities && v.trusts == w.trusts && v.entities == w.entities
             && v.bindings == w.bindings
    ensures Anchored(v)
  {
    hide RefsLive;
    Widens(w, v);
  }

  // ---- Every step and every run -------------------------------------------------------------------------------

  lemma TakenCreateIdles(w: World, d: Draft, meta: Meta)
    requires Taken(w, d)
    ensures Create(w, d, meta) == w
  {
  }

  lemma AbsentEditIdles(w: World, d: Draft)
    requires !Taken(w, d)
    ensures Edit(w, d) == w
  {
  }

  lemma CreateNeeds(w: World, d: Draft, meta: Meta)
    requires !Taken(w, d) && Anchored(Create(w, d, meta))
    ensures TargetsLive(w, d)
  {
    var v := Create(w, d, meta);
    match d
    case DraftBinding(k, spec) =>
      assert v.bindings[k].spec == spec && v.entities == w.entities;
      assert RefsLive(v, k.namespace, spec.refs);
    case DraftEntity(k, spec) => assert v.entities[k].spec == spec && v.trusts == w.trusts;
    case DraftTrust(k, spec) => assert v.trusts[k].spec == spec && v.projectEntities == w.projectEntities;
    case _ =>
  }

  lemma EditNeeds(w: World, d: Draft)
    requires Taken(w, d) && Anchored(Edit(w, d))
    ensures TargetsLive(w, d)
  {
    var v := Edit(w, d);
    match d
    case DraftBinding(k, spec) =>
      assert v.bindings[k].spec == spec && v.entities == w.entities;
      assert RefsLive(v, k.namespace, spec.refs);
    case DraftEntity(k, spec) => assert v.entities[k].spec == spec && v.trusts == w.trusts;
    case DraftTrust(k, spec) => assert v.trusts[k].spec == spec && v.projectEntities == w.projectEntities;
    case _ =>
  }

  lemma CreateKeepsIff(w: World, d: Draft, meta: Meta)
    requires Anchored(w)
    ensures Anchored(Create(w, d, meta)) <==> Taken(w, d) || TargetsLive(w, d)
  {
    hide Anchored, Create, Taken, TargetsLive;
    if Taken(w, d) {
      TakenCreateIdles(w, d, meta);
    } else if TargetsLive(w, d) {
      CreateKeeps(w, d, meta);
    } else if Anchored(Create(w, d, meta)) {
      CreateNeeds(w, d, meta);
    }
  }

  lemma EditKeepsIff(w: World, d: Draft)
    requires Anchored(w)
    ensures Anchored(Edit(w, d)) <==> (Taken(w, d) ==> TargetsLive(w, d))
  {
    hide Anchored, Edit, Taken, TargetsLive;
    if !Taken(w, d) {
      AbsentEditIdles(w, d);
    } else if TargetsLive(w, d) {
      EditKeeps(w, d);
    } else if Anchored(Edit(w, d)) {
      EditNeeds(w, d);
    }
  }

  /** A step keeps every target live exactly when it is orderly: deletions, reconciles and operators always do. */
  lemma StepKeepsIff(w: World, s: Step)
    requires Anchored(w)
    ensures Anchored(Do(w, s)) <==> Orderly(w, s)
  {
    hide Anchored, Plan, Create, Edit, Delete, Admits, TargetsLive, Taken;
    match s
    case Reconciles(env, ref, stop) =>
      var plan := Plan(w, env, ref);
      WritesKeep(w, if stop < |plan| then plan[..stop] else plan);
    case Creates(d, foreign) => CreateKeepsIff(w, d, NewMeta(foreign));
    case Edits(d) => EditKeepsIff(w, d);
    case Deletes(ref) =>
      if Admits(w, ref) {
        DeleteKeeps(w, ref);
      }
    case Operates(n, health, err, policies, unknown) => SameObjects(w, Operate(w, n, health, err, policies, unknown));
  }

  predicate AnchoredThroughout(w: World, steps: seq<Step>)
    decreases steps
  {
    Anchored(w) && (steps == [] || AnchoredThroughout(Do(w, steps[0]), steps[1..]))
  }

  /**
   In every run the target of every present object stays present and live throughout, exactly when the run is
   orderly.
   */
  lemma {:induction false} EveryOrderlyRunAnchored(w: World, steps: seq<Step>)
    requires Anchored(w)
    ensures AnchoredThroughout(w, steps) <==> OrderlyRun(w, steps)
    ensures OrderlyRun(w, steps) ==> Anchored(Run(w, steps))
    decreases steps
  {
    if steps != [] {
      hide Anchored, Orderly, Do;
      StepKeepsIff(w, steps[0]);
      if Orderly(w, steps[0]) {
        EveryOrderlyRunAnchored(Do(w, steps[0]), steps[1..]);
      }
    }
  }

  // ---- Consequences ------------------------------------------------------------------------------------------

  /** The binding has a reference whose entity sits on the trust. */
  predicate ReachesVia(w: World, b: Key, ref: string, t: Key) {
    && b in w.bindings && ref in w.bindings[b].spec.refs && Key(b.namespace, ref) in w.entities
    && t == Key(b.namespace, w.entities[Key(b.namespace, ref)].spec.trust)
  }

  /**
   After an orderly run from the empty world, a present binding's references lead through live entities
   to a live trust on a live project entity, none of which can be deleted now.
   */
  lemma ReachedStaysLive(steps: seq<Step>, b: Key, ref: string)
    requires OrderlyRun(EMPTY_WORLD, steps)
    requires var w := Run(EMPTY_WORLD, steps); b in w.bindings && ref in w.bindings[b].spec.refs
    ensures var w := Run(EMPTY_WORLD, steps); var e := Key(b.namespace, ref);
            && LiveEntity(w, e) && !Admits(w, EntityRef(e))
            && (var t := Key(b.namespace, w.entities[e].spec.trust);
                && LiveTrust(w, t) && !Admits(w, TrustRef(t))
                && LiveProjectEntity(w, w.trusts[t].spec.projectEntity)
                && !Admits(w, ProjectEntityRef(w.trusts[t].spec.projectEntity)))
  {
    hide Run, OrderlyRun;
    EveryOrderlyRunAnchored(EMPTY_WORLD, steps);
    var w := Run(EMPTY_WORLD, steps);
    assert RefsLive(w, b.namespace, w.bindings[b].spec.refs);
  }

  lemma RemovalIsTeardown(w: World, env: Env, ref: Ref, x: Write)
    requires x in Plan(w, env, ref) && x.RemoveMount?
    ensures ref.TrustRef? && ref.key in w.trusts && w.trusts[ref.key].meta.deleting
    ensures x.backend == w.trusts[ref.key].status.resolved != ""
            && x.path == w.trusts[ref.key].status.authMountPath != ""
  {
    hide InstancePlan, ProjectEntityPlan, TrustPlan, EntityPlan, BindingPlan;
    if !ref.TrustRef? {
      TrustSafety.OtherPlansHarmless(w, env, ref, x);
    } else {
      TrustRemoval(w, env, ref.key, x);
    }
  }

  lemma TrustRemoval(w: World, env: Env, k: Key, x: Write)
    requires x in TrustPlan(w, env, k) && x.RemoveMount?
    ensures k in w.trusts && w.trusts[k].meta.deleting
    ensures x.backend == w.trusts[k].status.resolved != "" && x.path == w.trusts[k].status.authMountPath != ""
  {
    hide TrustGateOf, TrustTeardown, TrustDone, TrustFailed, TrustCallFailed;
    TrustSafety.TeardownShape(w, env, k, w.trusts[k]);
  }

  lemma RemovalSpares(w: World, f: TrustSafety.Frozen, env: Env, ref: Ref, x: Write, t: Key)
    requires TrustSafety.Inv(w, f) && TrustSafety.Apart(f) && LiveTrust(w, t)
    requires x in Plan(w, env, ref) && x.RemoveMount?
    ensures x.backend != w.trusts[t].status.resolved || x.path != w.trusts[t].status.authMountPath
  {
    hide Plan, TrustSafety.Inv, TrustSafety.Apart;
    RemovalIsTeardown(w, env, ref, x);
    TrustSafety.ApartHolds(w, f, t, ref.key);
  }

  /** The mount is there. */
  predicate Mounted(w: World, n: string, path: string) {
    n in w.backends && path in w.backends[n].mounts
  }

  lemma CallKeepsMount(s: State, x: Write, path: string)
    requires path in s.mounts && (x.RemoveMount? ==> x.path != path)
    ensures path in OnBackend(s, x).mounts
  {
  }

  lemma {:induction false} MountStays(w: World, xs: seq<Write>, n: string, path: string)
    requires Mounted(w, n, path)
    requires forall x | x in xs && x.RemoveMount? :: x.backend != n || x.path != path
    ensures Mounted(ApplyAll(w, xs), n, path)
    decreases xs
  {
    if xs != [] {
      hide OnBackend, Apply;
      ApplyParts(w, xs[0]);
      if IsBackendWrite(xs[0]) && xs[0].backend == n {
        CallKeepsMount(w.backends[n], xs[0], path);
      }
      assert xs[0] in xs;
      MountStays(Apply(w, xs[0]), xs[1..], n, path);
    }
  }

  lemma NothingToHold(f: TrustSafety.Frozen)
    ensures TrustSafety.Inv(EMPTY_WORLD, f)
  {
  }

  /**
   After an orderly run from the empty world with no two trusts on one place, no reconcile of any object,
   cut off anywhere, takes the mount recorded by a trust that a present binding reaches: the finalizers
   that delete mounts belong to other trusts, and those sit elsewhere.
   */
  lemma NoMountGoesUnderABinding(f: TrustSafety.Frozen, steps: seq<Step>, env: Env, ref: Ref, stop: nat, b: Key,
                                 via: string, t: Key)
    requires TrustSafety.Apart(f) && OrderlyRun(EMPTY_WORLD, steps)
    requires forall s | s in steps :: TrustSafety.StepConforms(s, f)
    requires ReachesVia(Run(EMPTY_WORLD, steps), b, via, t)
    ensures var w := Run(EMPTY_WORLD, steps);
            && LiveTrust(w, t)
            && (var n, path := w.trusts[t].status.resolved, w.trusts[t].status.authMountPath;
                Mounted(w, n, path) ==> Mounted(ReconcilePart(w, env, ref, stop), n, path))
  {
    hide Run, OrderlyRun, TrustSafety.Apart, TrustSafety.StepConforms, TrustSafety.Inv, Plan, ApplyAll;
    EveryOrderlyRunAnchored(EMPTY_WORLD, steps);
    NothingToHold(f);
    TrustSafety.EveryRunKeeps(EMPTY_WORLD, f, steps);
    var w := Run(EMPTY_WORLD, steps);
    assert RefsLive(w, b.namespace, w.bindings[b].spec.refs);
    assert LiveTrust(w, t);
    var n, path := w.trusts[t].status.resolved, w.trusts[t].status.authMountPath;
    var plan := Plan(w, env, ref);
    var xs := if stop < |plan| then plan[..stop] else plan;
    forall x | x in xs && x.RemoveMount? ensures x.backend != n || x.path != path {
      assert x in plan;
      RemovalSpares(w, f, env, ref, x, t);
    }
    if Mounted(w, n, path) {
      MountStays(w, xs, n, path);
    }
  }

  /** The world with an entity on the trust, and a binding on the entity. */
  function LateComers(w: World, b: Key, via: string, e: EntitySpec, spec: BindingSpec): World {
    Do(Do(w, Creates(DraftEntity(Key(b.namespace, via), e), {})), Creates(DraftBinding(b, spec), {}))
  }

  lemma LateComersReach(w: World, b: Key, via: string, e: EntitySpec, spec: BindingSpec)
    requires spec.refs == [via] && b !in w.bindings && Key(b.namespace, via) !in w.entities
    ensures var v := LateComers(w, b, via, e, spec);
            && ReachesVia(v, b, via, Key(b.namespace, e.trust))
            && v == w.(entities := v.entities, bindings := v.bindings)
  {
    hide NewMeta;
  }

  /** A terminating trust whose mount stands on a reachable instance. */
  predicate Removable(w: World, t: Key) {
    && t in w.trusts && w.trusts[t].meta.deleting
    && w.trusts[t].status.authMountPath != "" && w.trusts[t].status.resolved != ""
    && w.trusts[t].status.resolved in w.instances && Reachable(w.instances[w.trusts[t].status.resolved])
    && Mounted(w, w.trusts[t].status.resolved, w.trusts[t].status.authMountPath)
  }

  lemma RemovablePlan(w: World, env: Env, t: Key)
    requires Removable(w, t) && env.callErrors == map[] && env.faults == {} && env.mountPrefix.Some?
    ensures var o := w.trusts[t];
            Plan(w, env, TrustRef(t)) == [RemoveMount(o.status.resolved, o.status.authMountPath)] + TrustDrop(t, o)
  {
    hide Reachable;
  }

  /** The finalizer of such a trust takes the mount, and no entity and no binding. */
  lemma RemovableLosesMount(w: World, env: Env, t: Key)
    requires Removable(w, t) && env.callErrors == map[] && env.faults == {} && env.mountPrefix.Some?
    ensures var v, o := Reconcile(w, env, TrustRef(t)), w.trusts[t];
            && !Mounted(v, o.status.resolved, o.status.authMountPath)
            && v.entities == w.entities && v.bindings == w.bindings
  {
    hide Plan, ApplyAll, ReleasedTrust, WithoutMount, Reachable;
    var o := w.trusts[t];
    var n, path := o.status.resolved, o.status.authMountPath;
    RemovablePlan(w, env, t);
    TrustSafety.RemoveThenDrop(w, n, path, t, TrustDrop(t, o));
    TrustSafety.NoMountLeft(w.backends[n], path);
    ReleaseKeepsRest(Apply(w, RemoveMount(n, path)), t);
  }

  lemma ReleaseKeepsRest(w: World, t: Key)
    ensures var v := ReleasedTrust(w, t);
            v.backends == w.backends && v.entities == w.entities && v.bindings == w.bindings
  {
    hide Gone, Held;
  }

  /**
   Creation is not validated. An entity and a binding created on a trust that is already terminating do not
   hold it: its next reconcile deletes the mount, and the binding stays without it.
   */
  lemma LateCreationLosesMount(w: World, env: Env, b: Key, via: string, e: EntitySpec, spec: BindingSpec)
    requires var t := Key(b.namespace, e.trust);
             Removable(w, t) && env.callErrors == map[] && env.faults == {} && env.mountPrefix.Some?
    requires spec.refs == [via] && b !in w.bindings && Key(b.namespace, via) !in w.entities
    ensures var t := Key(b.namespace, e.trust);
            var v := LateComers(w, b, via, e, spec);
            var u := Reconcile(v, env, TrustRef(t));
            var n, path := w.trusts[t].status.resolved, w.trusts[t].status.authMountPath;
            && ReachesVia(v, b, via, t) && t in v.trusts && v.trusts[t] == w.trusts[t] && Mounted(v, n, path)
            && ReachesVia(u, b, via, t) && !Mounted(u, n, path)
  {
    hide Reachable, LateComers, Reconcile;
    LateComersReach(w, b, via, e, spec);
    RemovableLosesMount(LateComers(w, b, via, e, spec), env, Key(b.namespace, e.trust));
  }
}
