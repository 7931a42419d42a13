/** What every persisted status keeps to, over all runs and crashes. */
module ConditionInvariants {
  import opened Wrappers
  import opened Identity
  import opened Conditions
  import opened Backend
  import opened Api
  import opened Plans
  import opened Frames
  import opened Webhook
  import opened Runs

  // ---- The invariant --------------------------------------------------------------------------------

  ghost predicate ReadyHasDependencies(cs: seq<Condition>) {
    OnePerKind(cs) && (IsTrue(cs, Ready) ==> IsTrue(cs, DependencyReady))
  }

  ghost predicate InstanceSound(st: InstanceStatus) {
    && ReadyHasDependencies(st.conditions)
    && (IsTrue(st.conditions, Ready) <==> IsTrue(st.conditions, OpenBaoReachable))
  }

  ghost predicate EntitySound(st: EntityStatus) {
    && ReadyHasDependencies(st.conditions)
    && (IsTrue(st.conditions, Ready) ==> IsTrue(st.conditions, IdentityResolved))
    && (IsTrue(st.conditions, IdentityResolved) ==> st.identity.Some?)
  }

  ghost predicate BindingSound(st: BindingStatus) {
    && ReadyHasDependencies(st.conditions)
    && (IsTrue(st.conditions, Ready) ==> st.policyExists != No)
    && (Find(st.conditions, PolicyResolved).Some? ==>
          Find(st.conditions, PolicyResolved).value.status == st.policyExists)
    && (IsTrue(st.conditions, Ready) ==> Find(st.conditions, PolicyResolved).Some?)
  }

  ghost predicate Sound(w: World) {
    && (forall n | n in w.instances :: InstanceSound(w.instances[n].status))
    && (forall k | k in w.projectEntities :: ReadyHasDependencies(w.projectEntities[k].status.conditions))
    && (forall k | k in w.trusts :: ReadyHasDependencies(w.trusts[k].status.conditions))
    && (forall k | k in w.entities :: EntitySound(w.entities[k].status))
    && (forall k | k in w.bindings :: BindingSound(w.bindings[k].status))
  }

  ghost predicate SoundWrite(x: Write) {
    match x
    case PutInstance(_, st) => InstanceSound(st)
    case PutProjectEntity(_, st) => ReadyHasDependencies(st.conditions)
    case PutTrust(_, st) => ReadyHasDependencies(st.conditions)
    case PutEntity(_, st) => EntitySound(st)
    case PutBinding(_, st) => BindingSound(st)
    case _ => true
  }

  lemma SoundWriteKeeps(w: World, x: Write)
    requires Sound(w) && SoundWrite(x)
    ensures Sound(Apply(w, x))
  {
    hide InstanceSound, EntitySound, BindingSound, ReadyHasDependencies, OnBackend, Held, Gone;
  }

  lemma {:induction false} SoundWritesKeep(w: World, xs: seq<Write>)
    requires Sound(w) && forall x | x in xs :: SoundWrite(x)
    ensures Sound(ApplyAll(w, xs))
    decreases xs
  {
    if xs != [] {
      hide Sound, SoundWrite, Apply;
      assert xs[0] in xs;
      SoundWriteKeeps(w, xs[0]);
      SoundWritesKeep(Apply(w, xs[0]), xs[1..]);
    }
  }

  // ---- The condition updates of the reconcilers -----------------------------------------------------------

  lemma UpdatesKeepOnePerKind(cs: seq<Condition>, g: int, kind: Kind, reason: Reason, m: Message, summary: Message)
    requires OnePerKind(cs)
    ensures OnePerKind(DependencyNotReady(cs, g, reason, m))
    ensures OnePerKind(MarkReady(cs, g))
    ensures OnePerKind(FailWith(cs, g, kind, reason, m, summary))
  {
    hide OnePerKind, Upsert;
    UpsertKeepsOnePerKind(cs, Condition(DependencyReady, No, reason, m, g));
    UpsertKeepsOnePerKind(Upsert(cs, Condition(DependencyReady, No, reason, m, g)), Condition(Ready, No, reason, m, g));
    UpsertKeepsOnePerKind(cs, Condition(DependencyReady, Yes, Reason.Reconciled, NoMessage, g));
    UpsertKeepsOnePerKind(Upsert(cs, Condition(DependencyReady, Yes, Reason.Reconciled, NoMessage, g)),
                          Condition(Ready, Yes, Reason.Reconciled, NoMessage, g));
    UpsertKeepsOnePerKind(cs, Condition(kind, No, reason, m, g));
    UpsertKeepsOnePerKind(Upsert(cs, Condition(kind, No, reason, m, g)), Condition(Ready, No, reason, summary, g));
  }

  lemma BlockedSound(cs: seq<Condition>, g: int, reason: Reason, m: Message)
    requires ReadyHasDependencies(cs)
    ensures ReadyHasDependencies(DependencyNotReady(cs, g, reason, m))
    ensures !IsTrue(DependencyNotReady(cs, g, reason, m), Ready)
  {
    hide OnePerKind;
    UpdatesKeepOnePerKind(cs, g, Ready, reason, m, m);
  }

  lemma ReadySound(cs: seq<Condition>, c: Condition, g: int)
    requires OnePerKind(cs)
    ensures ReadyHasDependencies(MarkReady(cs, g)) && ReadyHasDependencies(MarkReady(Upsert(cs, c), g))
  {
    hide OnePerKind;
    UpdatesKeepOnePerKind(cs, g, Ready, c.reason, c.message, c.message);
    UpsertKeepsOnePerKind(cs, c);
    UpdatesKeepOnePerKind(Upsert(cs, c), g, Ready, c.reason, c.message, c.message);
  }

  lemma FailedSound(cs: seq<Condition>, g: int, kind: Kind, reason: Reason, m: Message, summary: Message)
    requires OnePerKind(cs) && kind != Ready
    ensures ReadyHasDependencies(FailWith(cs, g, kind, reason, m, summary))
    ensures !IsTrue(FailWith(cs, g, kind, reason, m, summary), Ready)
            && !IsTrue(FailWith(cs, g, kind, reason, m, summary), kind)
  {
    hide OnePerKind;
    UpdatesKeepOnePerKind(cs, g, kind, reason, m, summary);
  }

  // ---- Every plan writes sound statuses -----------------------------------------------------------------------

  lemma InstancePlanSound(w: World, env: Env, name: string, x: Write)
    requires Sound(w) && x in InstancePlan(w, env, name)
    ensures SoundWrite(x)
  {
    hide OnePerKind, FailWith, MarkReady, Upsert;
    var o := w.instances[name];
    var cs, g := o.status.conditions, o.meta.generation;
    match Client(w, env, name) {
      case Failure(text) => FailedSound(cs, g, OpenBaoReachable, OpenBaoUnreachable, ErrorText(text), ErrorText(text));
      case Success(b) =>
        var m := if b.healthErr.Some? then ErrorText(b.healthErr.value) else About("backend");
        FailedSound(cs, g, OpenBaoReachable, OpenBaoUnreachable, m, m);
        InstanceReadySound(cs, g);
    }
  }

  lemma InstanceReadySound(cs: seq<Condition>, g: int)
    requires OnePerKind(cs)
    ensures var c := Condition(OpenBaoReachable, Yes, Reason.Reconciled, NoMessage, g);
            var r := MarkReady(Upsert(cs, c), g);
            ReadyHasDependencies(r) && IsTrue(r, Ready) && IsTrue(r, OpenBaoReachable)
  {
    hide OnePerKind;
    ReadySound(cs, Condition(OpenBaoReachable, Yes, Reason.Reconciled, NoMessage, g), g);
  }

  lemma ProjectEntityGateSound(w: World, env: Env, key: Key, o: ProjectEntity)
    requires ReadyHasDependencies(o.status.conditions)
    ensures match ProjectEntityGateOf(w, env, key, o)
            case ProjectEntityAborts => true
            case ProjectEntityReports(st) => ReadyHasDependencies(st.conditions)
            case ProjectEntityEnrols(_, _, st) => OnePerKind(st.conditions)
  {
    hide OnePerKind, DependencyNotReady;
    forall reason, m
      ensures ReadyHasDependencies(DependencyNotReady(o.status.conditions, o.meta.generation, reason, m))
    {
      BlockedSound(o.status.conditions, o.meta.generation, reason, m);
    }
  }

  lemma ProjectEntityPlanSound(w: World, env: Env, key: Key, x: Write)
    requires Sound(w) && x in ProjectEntityPlan(w, env, key)
    ensures SoundWrite(x)
  {
    hide OnePerKind, MarkReady, ReadyHasDependencies, ProjectEntityGateOf;
    var o := w.projectEntities[key];
    ProjectEntityGateSound(w, env, key, o);
    match ProjectEntityGateOf(w, env, key, o) {
      case ProjectEntityEnrols(_, _, st) =>
        ReadySound(st.conditions, Condition(Ready, No, ReconcileError, NoMessage, 0), o.meta.generation);
      case _ =>
    }
  }

  lemma TrustGateSound(w: World, env: Env, key: Key, o: Trust)
    requires env.mountPrefix.Some? && ReadyHasDependencies(o.status.conditions)
    ensures match TrustGateOf(w, env, key, o)
            case TrustAborts => true
            case TrustReports(st) => ReadyHasDependencies(st.conditions)
            case TrustConfigures(_, _, _, st) => ReadyHasDependencies(st.conditions)
  {
    hide OnePerKind, DependencyNotReady, FailWith, TrustMount;
    var cs, g := o.status.conditions, o.meta.generation;
    forall reason, m ensures ReadyHasDependencies(DependencyNotReady(cs, g, reason, m)) {
      BlockedSound(cs, g, reason, m);
    }
    forall m, summary
      ensures ReadyHasDependencies(FailWith(cs, g, TrustConfigured, IssuerDiscoveryFailed, m, summary))
    {
      FailedSound(cs, g, TrustConfigured, IssuerDiscoveryFailed, m, summary);
    }
  }

  lemma TrustCallFailedSound(cs: seq<Condition>, c: Condition)
    requires ReadyHasDependencies(cs) && c.kind == TrustConfigured
    ensures ReadyHasDependencies(Upsert(cs, c))
  {
    hide OnePerKind;
    UpsertKeepsOnePerKind(cs, c);
  }

  lemma TrustBackendWritesSound(w: World, env: Env, key: Key, g: int, gate: TrustGate, x: Write)
    requires gate.TrustConfigures? && ReadyHasDependencies(gate.status.conditions)
    requires x in TrustBackendWrites(w, env, key, g, gate)
    ensures SoundWrite(x)
  {
    hide OnePerKind, MarkReady, FailWith, Upsert, IsTrue;
    var cs := gate.status.conditions;
    ReadySound(cs, Condition(TrustConfigured, Yes, Reason.Reconciled, NoMessage, g), g);
    forall m ensures ReadyHasDependencies(FailWith(cs, g, TrustConfigured, OpenBaoUnreachable, m, m)) {
      FailedSound(cs, g, TrustConfigured, OpenBaoUnreachable, m, m);
    }
    forall m ensures ReadyHasDependencies(Upsert(cs, Condition(TrustConfigured, No, ReconcileError, m, g))) {
      TrustCallFailedSound(cs, Condition(TrustConfigured, No, ReconcileError, m, g));
    }
  }

  lemma TeardownPutsNothing(w: World, env: Env, key: Key, o: Trust, x: Write)
    requires x in TrustTeardown(w, env, key, o)
    ensures x.RemoveMount? || x.DropTrustFinalizer?
  {
    hide Reachable, Client;
  }

  lemma TrustPlanSound(w: World, env: Env, key: Key, x: Write)
    requires Sound(w) && x in TrustPlan(w, env, key)
    ensures SoundWrite(x)
  {
    hide ReadyHasDependencies, InstanceSound, EntitySound, BindingSound, TrustGateOf, TrustBackendWrites, TrustTeardown;
    var o := w.trusts[key];
    if o.meta.deleting {
      TeardownPutsNothing(w, env, key, o, x);
    } else if x in TrustBody(w, env, key, o) {
      TrustGateSound(w, env, key, o);
      var gate := TrustGateOf(w, env, key, o);
      if gate.TrustConfigures? {
        TrustBackendWritesSound(w, env, key, o.meta.generation, gate, x);
      }
    }
  }

  lemma EntityUpdatesSound(st: EntityStatus, o: EntityStatus, g: int)
    requires EntitySound(o) && st == o.(observed := g)
    ensures forall reason, m :: EntitySound(EntityBlocked(st, g, reason, m))
    ensures forall m, summary :: EntitySound(EntityFailed(st, g, m, summary))
    ensures forall identity, id :: EntitySound(EntityDone(st, g, identity, id))
  {
    hide OnePerKind;
    forall reason, m ensures EntitySound(EntityBlocked(st, g, reason, m)) {
      BlockedSound(st.conditions, g, reason, m);
    }
    forall m, summary ensures EntitySound(EntityFailed(st, g, m, summary)) {
      FailedSound(st.conditions, g, IdentityResolved, ControlPlaneUnavailable, m, summary);
    }
    forall identity, id ensures EntitySound(EntityDone(st, g, identity, id)) {
      ReadySound(st.conditions, Condition(IdentityResolved, Yes, Reason.Reconciled, NoMessage, g), g);
    }
  }

  ghost predicate NextSound(next: Option<EntityStatus>) {
    next.Some? ==> EntitySound(next.value)
  }

  lemma EntityPastTrustSound(env: Env, key: Key, o: Entity, st: EntityStatus, trust: Trust)
    requires EntitySound(o.status) && st == o.status.(observed := o.meta.generation)
    ensures NextSound(EntityPastTrust(env, key, o, st, trust))
  {
    hide EntitySound, EntityBlocked, EntityFailed, EntityDone, ResolveIdentity, ControlPlaneIssuer,
      ResolveControlPlaneAudience, IdentityID;
    var g, ck := o.meta.generation, Key(key.namespace, trust.spec.controlPlane);
    EntityUpdatesSound(st, o.status, g);
    assert EntitySound(EntityBlocked(st, g, DependencyNotFound, About(ck.name)));
    assert EntitySound(EntityFailed(st, g, About(o.spec.saName), About("identity")));
  }

  lemma EntityPlanSound(w: World, env: Env, key: Key, x: Write)
    requires Sound(w) && x in EntityPlan(w, env, key)
    ensures SoundWrite(x)
  {
    hide EntitySound, EntityBlocked, EntityPastTrust;
    var o := w.entities[key];
    var st := o.status.(observed := o.meta.generation);
    EntityUpdatesSound(st, o.status, o.meta.generation);
    var tk := Key(key.namespace, o.spec.trust);
    if tk in w.trusts {
      EntityPastTrustSound(env, key, o, st, w.trusts[tk]);
    }
  }

  lemma BindingNextSound(o: Binding, outs: seq<RefOutcome>)
    requires !Aborted(outs) && ReadyHasDependencies(o.status.conditions)
    ensures BindingSound(BindingNext(o, outs))
  {
    hide OnePerKind, Aborted, Entries, Blocking, SomeMissing, SomeChecked, AllKnown, AllPresent;
    var cs, g := o.status.conditions, o.meta.generation;
    var cs1 := Upsert(cs, PolicyCondition(PolicyVerdict(outs), o.spec.policyName, g));
    UpsertKeepsOnePerKind(cs, PolicyCondition(PolicyVerdict(outs), o.spec.policyName, g));
    UpdatesKeepOnePerKind(cs1, g, Ready, if SomeMissing(outs) then DependencyNotFound else DependencyMissesReadiness,
                          Joined(Blocking(outs)), NoMessage);
    UpsertKeepsOnePerKind(cs1, Condition(Ready, No, WaitingForPolicy, About(o.spec.policyName), g));
  }

  lemma SoundBindingAt(w: World, key: Key)
    requires Sound(w) && key in w.bindings
    ensures ReadyHasDependencies(w.bindings[key].status.conditions)
  {
    hide ReadyHasDependencies, InstanceSound, EntitySound;
  }

  /** A live binding writes roles and, if nothing aborts, the status its outcomes call for. */
  lemma LiveBindingWrites(w: World, env: Env, key: Key, o: Binding, x: Write)
    requires x in BindingBody(w, env, key, o)
    ensures x.WriteRole? || (!Aborted(Outcomes(w, env, key, o.spec, o.spec.refs))
                             && x == PutBinding(key, BindingNext(o, Outcomes(w, env, key, o.spec, o.spec.refs))))
  {
    hide BindingNext, Outcomes, LoopWrites, Aborted;
    var outs := Outcomes(w, env, key, o.spec, o.spec.refs);
    if x in LoopWrites(outs) {
      LoopWritesAreRoles(outs, x);
    }
  }

  lemma LiveBindingSound(w: World, env: Env, key: Key, o: Binding, x: Write)
    requires ReadyHasDependencies(o.status.conditions) && x in BindingBody(w, env, key, o)
    ensures SoundWrite(x)
  {
    hide BindingNext, BindingBody, Outcomes, Aborted, ReadyHasDependencies, InstanceSound, EntitySound, BindingSound;
    LiveBindingWrites(w, env, key, o, x);
    if x.PutBinding? {
      BindingNextSound(o, Outcomes(w, env, key, o.spec, o.spec.refs));
    }
  }

  lemma DyingBindingSound(w: World, env: Env, key: Key, o: Binding, x: Write)
    requires x in BindingTeardown(w, env, key, o)
    ensures SoundWrite(x)
  {
    hide RemovalWrites, SomeRemovalFails;
    if x in RemovalWrites(w, env, key.namespace, o.status.roles) {
      RemovalWritesAreRemovals(w, env, key.namespace, o.status.roles, x);
    }
  }

  lemma BindingPlanSound(w: World, env: Env, key: Key, x: Write)
    requires Sound(w) && x in BindingPlan(w, env, key)
    ensures SoundWrite(x)
  {
    hide Sound, BindingSound, ReadyHasDependencies, BindingBody, BindingTeardown;
    var o := w.bindings[key];
    if o.meta.deleting {
      DyingBindingSound(w, env, key, o, x);
    } else if x in BindingBody(w, env, key, o) {
      SoundBindingAt(w, key);
      LiveBindingSound(w, env, key, o, x);
    }
  }

  lemma PlanSound(w: World, env: Env, ref: Ref, x: Write)
    requires Sound(w) && x in Plan(w, env, ref)
    ensures SoundWrite(x)
  {
    hide Sound, SoundWrite, InstancePlan, ProjectEntityPlan, TrustPlan, EntityPlan, BindingPlan;
    match ref
    case InstanceRef(n) => InstancePlanSound(w, env, n, x);
    case ProjectEntityRef(k) => ProjectEntityPlanSound(w, env, k, x);
    case TrustRef(k) => TrustPlanSound(w, env, k, x);
    case EntityRef(k) => EntityPlanSound(w, env, k, x);
    case BindingRef(k) => BindingPlanSound(w, env, k, x);
    case ControlPlaneRef(_) =>
  }

  // ---- All runs ----------------------------------------------------------------------------------------------

  lemma EmptyConditionsSound()
    ensures InstanceSound(InstanceStatus(0, "", None, None, [])) && EntitySound(EntityStatus(0, None, "", []))
    ensures BindingSound(BindingStatus(0, [], "", Unknown, [])) && ReadyHasDependencies([])
  {
  }

  lemma CreateSound(w: World, d: Draft, meta: Meta)
    requires Sound(w)
    ensures Sound(Create(w, d, meta))
  {
    hide InstanceSound, EntitySound, BindingSound, ReadyHasDependencies;
    EmptyConditionsSound();
  }

  lemma EditSound(w: World, d: Draft)
    requires Sound(w)
    ensures Sound(Edit(w, d))
  {
    hide InstanceSound, EntitySound, BindingSound, ReadyHasDependencies;
  }

  /** Every object of the second world is in the first, with the same status. */
  predicate StatusesFrom(w: World, v: World) {
    && (forall n | n in v.instances :: n in w.instances && v.instances[n].status == w.instances[n].status)
    && (forall k | k in v.projectEntities ::
          k in w.projectEntities && v.projectEntities[k].status == w.projectEntities[k].status)
    && (forall k | k in v.trusts :: k in w.trusts && v.trusts[k].status == w.trusts[k].status)
    && (forall k | k in v.entities :: k in w.entities && v.entities[k].status == w.entities[k].status)
    && (forall k | k in v.bindings :: k in w.bindings && v.bindings[k].status == w.bindings[k].status)
  }

  lemma DeleteInstanceKeeps(w: World, n: string)
    ensures StatusesFrom(w, DeleteInstance(w, n))
  {
  }

  lemma DeleteProjectEntityKeeps(w: World, k: Key)
    ensures StatusesFrom(w, DeleteProjectEntity(w, k))
  {
  }

  lemma DeleteTrustKeeps(w: World, k: Key)
    ensures StatusesFrom(w, DeleteTrust(w, k))
  {
  }

  lemma DeleteEntityKeeps(w: World, k: Key)
    ensures StatusesFrom(w, DeleteEntity(w, k))
  {
  }

  lemma DeleteBindingKeeps(w: World, k: Key)
    ensures StatusesFrom(w, DeleteBinding(w, k))
  {
  }

  lemma DeleteKeepsStatuses(w: World, ref: Ref)
    ensures StatusesFrom(w, Delete(w, ref))
  {
    hide StatusesFrom, DeleteInstance, DeleteProjectEntity, DeleteTrust, DeleteEntity, DeleteBinding;
    match ref
    case InstanceRef(n) => DeleteInstanceKeeps(w, n);
    case ProjectEntityRef(k) => DeleteProjectEntityKeeps(w, k);
    case TrustRef(k) => DeleteTrustKeeps(w, k);
    case EntityRef(k) => DeleteEntityKeeps(w, k);
    case BindingRef(k) => DeleteBindingKeeps(w, k);
    case ControlPlaneRef(_) => SameStatuses(w);
  }

  lemma SameStatuses(w: World)
    ensures StatusesFrom(w, w)
  {
  }

  lemma DeleteSound(w: World, ref: Ref)
    requires Sound(w)
    ensures Sound(Delete(w, ref))
  {
    hide InstanceSound, EntitySound, BindingSound, ReadyHasDependencies, Delete;
    DeleteKeepsStatuses(w, ref);
  }

  lemma ReconcileSound(w: World, env: Env, ref: Ref, stop: nat)
    requires Sound(w)
    ensures Sound(ReconcilePart(w, env, ref, stop))
  {
    hide Sound, SoundWrite, Plan;
    var plan := Plan(w, env, ref);
    var part := if stop < |plan| then plan[..stop] else plan;
    forall x | x in part ensures SoundWrite(x) {
      PlanSound(w, env, ref, x);
    }
    SoundWritesKeep(w, part);
  }

  lemma StepSound(w: World, s: Step)
    requires Sound(w)
    ensures Sound(Do(w, s))
  {
    hide ReconcilePart, Create, Edit, Delete, Admits, InstanceSound, EntitySound, BindingSound, ReadyHasDependencies;
    match s
    case Reconciles(env, ref, stop) => ReconcileSound(w, env, ref, stop);
    case Creates(d, foreign) => CreateSound(w, d, NewMeta(foreign));
    case Edits(d) => EditSound(w, d);
    case Deletes(ref) => DeleteSound(w, ref);
    case Operates(_, _, _, _, _) =>
  }

  /** From the empty world, whatever users, operators, reconciles and crashes do, every status stays sound. */
  lemma {:induction false} EveryRunSound(w: World, steps: seq<Step>)
    requires Sound(w)
    ensures Sound(Run(w, steps))
    decreases steps
  {
    if steps != [] {
      hide Sound, Do;
      StepSound(w, steps[0]);
      EveryRunSound(Do(w, steps[0]), steps[1..]);
    }
  }

  /** In particular every world the service can reach is sound. */
  lemma ReachableSound(steps: seq<Step>)
    ensures Sound(Run(EMPTY_WORLD, steps))
  {
    hide InstanceSound, EntitySound, BindingSound, Run;
    EveryRunSound(EMPTY_WORLD, steps);
  }
}
