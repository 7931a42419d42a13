/** Objects created too late: a run from the empty world in which a mount goes from under a present binding. */
module LateCreation {
  import opened Wrappers
  import opened Conditions
  import opened Backend
  import opened Api
  import opened Plans
  import opened Runs
  import opened TrustSafety
  import opened Settling
  import opened TrustSharing
  import opened Teardown

  lemma {:induction false} ThroughoutEnd(w: World, steps: seq<Step>)
    requires OneLiveThroughout(w, steps)
    ensures OneLive(Run(w, steps))
    decreases steps
  {
    hide OneLive, Do;
    if steps != [] {
      ThroughoutEnd(Do(w, steps[0]), steps[1..]);
    }
  }

  lemma TrailOneLive(steps: seq<Step>, f: Frozen)
    requires Trail(steps, f)
    ensures OneLive(Run(EMPTY_WORLD, steps))
  {
    hide OneLive, Run, OneLiveThroughout;
    ThroughoutEnd(EMPTY_WORLD, steps);
  }

  /** A run that brings the trust up and then marks it for deletion. */
  lemma MarkedTrail(f: Frozen, t: Key, env: Env) returns (steps: seq<Step>)
    requires OnePlace(f, t, t) && env == SharingEnv(f, t, t)
    ensures Trail(steps, f)
    ensures var w := Run(EMPTY_WORLD, steps); Removable(w, t) && w.entities == map[] && w.bindings == map[]
  {
    hide Run, Trail, Plan, Ground, Do, UpAt, PlaceOf, Reachable, Mounted;
    var n := PlaceOf(f, t).value.instance;
    var ground := GroundTrail(f, t, t, env);
    var up := UpTrail(ground, f, t, t, t, env);
    var w := Run(EMPTY_WORLD, up);
    UpIs(w, f, t);
    PlaceHasPath(f, t);
    MarkedTrust(w, f, n, t, t, t);
    TrailOneLive(up, f);
    Further(up, f, Deletes(TrustRef(t)));
    GroundIs(Do(w, Deletes(TrustRef(t))), f, n, t, t);
    SameMounts(w, Do(w, Deletes(TrustRef(t))), n, PlaceOf(f, t).value.path);
    steps := up + [Deletes(TrustRef(t))];
  }

  lemma SameMounts(w: World, v: World, n: string, path: string)
    requires w.backends == v.backends && Mounted(w, n, path)
    ensures Mounted(v, n, path)
  {
  }

  /** A creation below trusts leaves the trusts, and so the trail, as they are. */
  lemma FurtherBelow(steps: seq<Step>, f: Frozen, d: Draft)
    requires Trail(steps, f) && (d.DraftEntity? || d.DraftBinding?) && OneLive(Run(EMPTY_WORLD, steps))
    ensures Trail(steps + [Creates(d, {})], f)
    ensures Run(EMPTY_WORLD, steps + [Creates(d, {})]) == Do(Run(EMPTY_WORLD, steps), Creates(d, {}))
    ensures OneLive(Run(EMPTY_WORLD, steps + [Creates(d, {})]))
  {
    hide Run, Trail;
    Further(steps, f, Creates(d, {}));
  }

  /**
   For all specs, every trust on a named instance and every binding name of its namespace: a conforming run
   from the empty world, in which entity and binding are created on the trust once its deletion is marked,
   ends with the binding leading to the trust and the mount gone that stood there before the last reconcile.
   */
  lemma MountGoesUnderABinding(f: Frozen, t: Key, b: Key, via: string, e: EntitySpec, spec: BindingSpec)
    returns (steps: seq<Step>, last: Step)
    requires OnePlace(f, t, t) && b.namespace == t.namespace && e.trust == t.name && spec.refs == [via]
    ensures Trail(steps + [last], f)
    ensures var w, v := Run(EMPTY_WORLD, steps), Run(EMPTY_WORLD, steps + [last]);
            && ReachesVia(w, b, via, t) && t in w.trusts && ReachesVia(v, b, via, t)
            && (var n, path := w.trusts[t].status.resolved, w.trusts[t].status.authMountPath;
                Mounted(w, n, path) && !Mounted(v, n, path))
  {
    hide Run, Trail, OneLive, Plan, Removable, ReachesVia, Mounted, Reconcile, PlaceOf, Do;
    var env := SharingEnv(f, t, t);
    var marked := MarkedTrail(f, t, env);
    var w0 := Run(EMPTY_WORLD, marked);
    TrailOneLive(marked, f);
    var d1, d2 := DraftEntity(Key(b.namespace, via), e), DraftBinding(b, spec);
    FurtherBelow(marked, f, d1);
    FurtherBelow(marked + [Creates(d1, {})], f, d2);
    steps := marked + [Creates(d1, {})] + [Creates(d2, {})];
    LateCreationLosesMount(w0, env, b, via, e, spec);
    last := Whole(Run(EMPTY_WORLD, steps), env, TrustRef(t));
    FurtherReconcile(steps, f, env, TrustRef(t));
  }
}
