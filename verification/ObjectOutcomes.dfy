/**
 What one reconcile of an instance or of a project entity does, from its inputs: which gate it stops at,
 what it then reports, and what it leaves in the backend.
 */
module ObjectOutcomes {
  import opened Wrappers
  import opened Naming
  import opened Conditions
  import opened Reporting
  import opened Backend
  import opened Api
  import opened Plans

  /** The client factory answers. */
  predicate ClientUp(w: World, env: Env, n: string) {
    CallFactory(n) !in env.callErrors && n in w.backends
  }

  /** What it answers otherwise. */
  function ClientText(env: Env, n: string): string {
    if CallFactory(n) in env.callErrors then env.callErrors[CallFactory(n)] else "no backend"
  }

  /** The instance's own reconciles have seen it reachable. */
  predicate SeenReachable(o: Instance) {
    IsTrue(o.status.conditions, OpenBaoReachable)
  }

  // ---- Instances --------------------------------------------------------------------------------------

  predicate LiveInstance(w: World, env: Env, n: string) {
    n in w.instances && !w.instances[n].meta.deleting && InstanceRef(n) !in env.faults && env.mountPrefix.Some?
  }

  /** Only the instance's status changes, and it observes the generation. */
  predicate InstanceReported(w: World, v: World, n: string)
    requires n in w.instances
  {
    && n in v.instances && v == w.(instances := w.instances[n := w.instances[n].(status := v.instances[n].status)])
    && v.instances[n].status.observed == w.instances[n].meta.generation
  }

  lemma NextObserves(w: World, env: Env, n: string, o: Instance)
    ensures InstanceNext(w, env, n, o).observed == o.meta.generation
  {
    hide FailWith, MarkReady;
  }

  lemma ProbeWrites(w: World, env: Env, n: string)
    requires LiveInstance(w, env, n)
    ensures var v := Reconcile(w, env, InstanceRef(n));
            && InstanceReported(w, v, n) && v.instances[n].status == InstanceNext(w, env, n, w.instances[n])
  {
    hide InstanceFailed, InstanceProbed, ApplyAll;
    var st := InstanceNext(w, env, n, w.instances[n]);
    NextObserves(w, env, n, w.instances[n]);
    assert Plan(w, env, InstanceRef(n)) == [PutInstance(n, st)];
    ApplyOne(w, PutInstance(n, st));
  }

  /** Without a client or an answer: unreachable for that text, and nothing new is known of the backend. */
  lemma ProbeUnanswered(w: World, env: Env, n: string)
    requires LiveInstance(w, env, n) && (!ClientUp(w, env, n) || w.backends[n].healthErr.Some?)
    ensures var v, was := Reconcile(w, env, InstanceRef(n)), w.instances[n].status;
            var text := ErrorText(if ClientUp(w, env, n) then w.backends[n].healthErr.value else ClientText(env, n));
            && InstanceReported(w, v, n)
            && (var st := v.instances[n].status;
                && Fails(was.conditions, st.conditions, OpenBaoReachable, OpenBaoUnreachable, text, text,
                         w.instances[n].meta.generation)
                && st.version == was.version && st.initialized == was.initialized && st.sealed == was.sealed)
  {
    hide Reconcile, FailWith, Fails;
    ProbeWrites(w, env, n);
    var text := ErrorText(if ClientUp(w, env, n) then w.backends[n].healthErr.value else ClientText(env, n));
    FailsIs(w.instances[n].status.conditions, w.instances[n].meta.generation, OpenBaoReachable, OpenBaoUnreachable,
            text, text);
  }

  /**
   An answer is recorded as it is; the instance is reachable and Ready exactly if it is initialized and not
   sealed.
   */
  lemma ProbeAnswered(w: World, env: Env, n: string)
    requires LiveInstance(w, env, n) && ClientUp(w, env, n) && w.backends[n].healthErr.None?
    ensures var v, was, info := Reconcile(w, env, InstanceRef(n)), w.instances[n].status, w.backends[n].health;
            && InstanceReported(w, v, n)
            && (var st, g := v.instances[n].status, w.instances[n].meta.generation;
                && st.version == info.version && st.initialized == Some(info.initialized)
                && st.sealed == Some(info.sealed)
                && (if info.initialized && !info.sealed
                    then Succeeds(was.conditions, st.conditions, {OpenBaoReachable}, g)
                    else Fails(was.conditions, st.conditions, OpenBaoReachable, OpenBaoUnreachable, About("backend"),
                               About("backend"), g)))
  {
    hide Reconcile, FailWith, MarkReady, Fails, Succeeds;
    ProbeWrites(w, env, n);
    var cs, g := w.instances[n].status.conditions, w.instances[n].meta.generation;
    FailsIs(cs, g, OpenBaoReachable, OpenBaoUnreachable, About("backend"), About("backend"));
    SucceedsIs(cs, g, OpenBaoReachable);
  }

  lemma InstanceUntouched(w: World, env: Env, n: string)
    requires !LiveInstance(w, env, n)
    ensures Reconcile(w, env, InstanceRef(n)) == w
  {
  }

  // ---- Project entities ------------------------------------------------------------------------------------

  predicate LiveProjectEntity(w: World, env: Env, k: Key) {
    && k in w.projectEntities && !w.projectEntities[k].meta.deleting
    && ProjectEntityRef(k) !in env.faults && env.mountPrefix.Some?
  }

  /** Of the objects only this one's status changes; it observes the generation. */
  predicate ProjectEntityReported(w: World, v: World, k: Key)
    requires k in w.projectEntities
  {
    && k in v.projectEntities
    && v == w.(projectEntities := w.projectEntities[k := w.projectEntities[k].(status := v.projectEntities[k].status)],
               backends := v.backends)
    && v.projectEntities[k].status.observed == w.projectEntities[k].meta.generation
  }

  lemma ReportWrites(w: World, env: Env, k: Key, st: ProjectEntityStatus)
    requires LiveProjectEntity(w, env, k)
             && ProjectEntityGateOf(w, env, k, w.projectEntities[k]) == ProjectEntityReports(st)
    ensures Reconcile(w, env, ProjectEntityRef(k))
            == w.(projectEntities := w.projectEntities[k := w.projectEntities[k].(status := st)])
  {
    hide ProjectEntityGateOf, ApplyAll;
    assert Plan(w, env, ProjectEntityRef(k)) == [PutProjectEntity(k, st)];
    ApplyOne(w, PutProjectEntity(k, st));
  }

  lemma EnrolWrites(w: World, env: Env, k: Key, n: string, name: string, st: ProjectEntityStatus)
    requires LiveProjectEntity(w, env, k) && n in w.backends
    requires ProjectEntityGateOf(w, env, k, w.projectEntities[k]) == ProjectEntityEnrols(n, name, st)
    ensures var o := w.projectEntities[k];
            var done := ProjectEntityDone(st, o.meta.generation, EntityID(w.backends[n], name));
            Reconcile(w, env, ProjectEntityRef(k))
            == w.(projectEntities := w.projectEntities[k := o.(status := done)],
                  backends := w.backends[n := WithEntity(w.backends[n], name)])
  {
    hide ProjectEntityGateOf, ProjectEntityDone, ApplyAll, EntityID, WithEntity;
    var o := w.projectEntities[k];
    var x, y := WriteEntity(n, name),
                PutProjectEntity(k, ProjectEntityDone(st, o.meta.generation, EntityID(w.backends[n], name)));
    assert Plan(w, env, ProjectEntityRef(k)) == [x] + [y];
    ApplyOne(w, x);
    ApplySnoc(w, [x], y);
  }

  /** Stopped before the client: the instance is not there, or not reachable. */
  lemma ProjectEntityWaits(w: World, env: Env, k: Key)
    requires LiveProjectEntity(w, env, k) && InstanceRef(w.projectEntities[k].spec.instance) !in env.faults
    requires var n := w.projectEntities[k].spec.instance; n !in w.instances || !SeenReachable(w.instances[n])
    ensures var v, was, n := Reconcile(w, env, ProjectEntityRef(k)), w.projectEntities[k].status,
                             w.projectEntities[k].spec.instance;
            && ProjectEntityReported(w, v, k) && v.backends == w.backends
            && (var st := v.projectEntities[k].status;
                && st.entityID == was.entityID && st.resolved == (if n in w.instances then n else was.resolved)
                && Waits(was.conditions, st.conditions,
                         if n in w.instances then OpenBaoUnreachable else DependencyNotFound,
                         About(n), w.projectEntities[k].meta.generation))
  {
    hide Reconcile, DependencyNotReady, Waits, IsTrue;
    var o, n := w.projectEntities[k], w.projectEntities[k].spec.instance;
    WaitsIs(o.status.conditions, o.meta.generation, DependencyNotFound, About(n));
    WaitsIs(o.status.conditions, o.meta.generation, OpenBaoUnreachable, About(n));
    ReportWrites(w, env, k, ProjectEntityGateOf(w, env, k, o).status);
  }

  /** Stopped at the backend: no client, or the enrolment is refused. */
  lemma ProjectEntityRefused(w: World, env: Env, k: Key)
    requires LiveProjectEntity(w, env, k)
    requires var n := w.projectEntities[k].spec.instance;
             && n in w.instances && InstanceRef(n) !in env.faults && SeenReachable(w.instances[n])
             && (!ClientUp(w, env, n) || CallEntity(n) in env.callErrors)
    ensures var v, was, n := Reconcile(w, env, ProjectEntityRef(k)), w.projectEntities[k].status,
                             w.projectEntities[k].spec.instance;
            && ProjectEntityReported(w, v, k) && v.backends == w.backends
            && (var st, g := v.projectEntities[k].status, w.projectEntities[k].meta.generation;
                && st.entityID == was.entityID && st.resolved == n
                && if ClientUp(w, env, n)
                   then Waits(was.conditions, st.conditions, ReconcileError,
                              ErrorText(env.callErrors[CallEntity(n)]), g)
                   else Waits(was.conditions, st.conditions, OpenBaoUnreachable, ErrorText(ClientText(env, n)), g))
  {
    hide Reconcile, DependencyNotReady, Waits, IsTrue;
    var o, n := w.projectEntities[k], w.projectEntities[k].spec.instance;
    if ClientUp(w, env, n) {
      WaitsIs(o.status.conditions, o.meta.generation, ReconcileError, ErrorText(env.callErrors[CallEntity(n)]));
    } else {
      WaitsIs(o.status.conditions, o.meta.generation, OpenBaoUnreachable, ErrorText(ClientText(env, n)));
    }
    ReportWrites(w, env, k, ProjectEntityGateOf(w, env, k, o).status);
  }

  /**
   Past all gates: the entity is enrolled under its name, a known ID kept, and the status records the ID
   that the backend now holds; nothing else changes there.
   */
  lemma ProjectEntityEnrolled(w: World, env: Env, k: Key)
    requires LiveProjectEntity(w, env, k)
    requires var n := w.projectEntities[k].spec.instance;
             && n in w.instances && InstanceRef(n) !in env.faults && SeenReachable(w.instances[n])
             && ClientUp(w, env, n) && CallEntity(n) !in env.callErrors
    ensures var v, was, n := Reconcile(w, env, ProjectEntityRef(k)), w.projectEntities[k].status,
                             w.projectEntities[k].spec.instance;
            var name := EntityName(env.sha, k.namespace, k.name);
            var ids := w.backends[n].entities;
            && ProjectEntityReported(w, v, k)
            && (var st := v.projectEntities[k].status;
                && v.backends == w.backends[n := w.backends[n].(entities := ids[name := st.entityID])]
                && st.entityID == (if name in ids && ids[name] != "" then ids[name] else "entity-" + name)
                && st.resolved == n
                && Succeeds(was.conditions, st.conditions, {}, w.projectEntities[k].meta.generation))
  {
    hide Reconcile, MarkReady, Succeeds, IsTrue, EntityName;
    var o, n := w.projectEntities[k], w.projectEntities[k].spec.instance;
    ReadyAlone(o.status.conditions, o.meta.generation);
    EnrolWrites(w, env, k, n, EntityName(env.sha, k.namespace, k.name),
                o.status.(observed := o.meta.generation, resolved := n));
  }

  /** An absent or terminating object, an API error, or no service configuration: nothing happens. */
  lemma ProjectEntityUntouched(w: World, env: Env, k: Key)
    requires !LiveProjectEntity(w, env, k) || InstanceRef(w.projectEntities[k].spec.instance) in env.faults
    ensures Reconcile(w, env, ProjectEntityRef(k)) == w
  {
  }
}
