/** The configs and roles the specs ask for, and that these are what the reconciles of a reported service write. */
module Contents {
  import opened Wrappers
  import opened Text
  import opened Naming
  import opened Identity
  import opened Conditions
  import opened Backend
  import opened Api
  import opened Plans
  import opened Frames
  import opened Runs
  import opened TrustSafety
  import opened BindingEffects
  import opened BindingLoop
  import opened Idempotence
  import opened Settling
  import opened Achievement

  // ---- What the specs ask for -------------------------------------------------------------------

  predicate TrustKnown(f: Specs, env: Env, k: Key) {
    && k in f.base.trusts && PlaceOf(f.base, k).Some?
    && Key(k.namespace, f.base.trusts[k].controlPlane) in env.controlPlanes
  }

  /** At the trust's place, the JWT configuration of its control plane's issuer. */
  function ConfigAsked(f: Specs, env: Env, k: Key): Write
    requires TrustKnown(f, env, k)
  {
    var p, issuer := PlaceOf(f.base, k).value,
                     ControlPlaneIssuer(env.controlPlanes[Key(k.namespace, f.base.trusts[k].controlPlane)]);
    WriteConfig(p.instance, p.path, JWTAuthConfig(issuer + "/jwks", issuer))
  }

  function TrustOf(f: Specs, b: Key, ref: string): Key
    requires Key(b.namespace, ref) in f.entities
  {
    Key(b.namespace, f.entities[Key(b.namespace, ref)].trust)
  }

  /** The token that an entity's reconcile requests, by the specs alone. */
  function RequestFor(f: Specs, e: Key): TokenRequest
    requires e in f.entities && Key(e.namespace, f.entities[e].trust) in f.base.trusts
  {
    var trust := f.base.trusts[Key(e.namespace, f.entities[e].trust)];
    TokenRequest(Key(e.namespace, trust.controlPlane), f.entities[e].saNamespace, f.entities[e].saName,
                 ResolveControlPlaneAudience(trust.audience))
  }

  predicate RefKnown(f: Specs, env: Env, b: Key, ref: string) {
    && b in f.bindings && ref in f.bindings[b].refs && Key(b.namespace, ref) in f.entities
    && TrustOf(f, b, ref) in f.base.trusts && PlaceOf(f.base, TrustOf(f, b, ref)).Some?
    && RequestFor(f, Key(b.namespace, ref)) in env.tokens
  }

  /**
   At the trust's place, a role with the token's subject, the trust's audience, the binding's policy and
   lifetimes.
   */
  function RoleAsked(f: Specs, env: Env, b: Key, ref: string): Write
    requires RefKnown(f, env, b, ref)
  {
    var p, spec, req := PlaceOf(f.base, TrustOf(f, b, ref)).value, f.bindings[b], RequestFor(f, Key(b.namespace, ref));
    WriteRole(p.instance, p.path, JWTRole(RoleOf(f, b, ref), "jwt", [req.audience], env.tokens[req].subject, "sub",
                                          [spec.policyName], spec.ttl, spec.maxTTL))
  }

  /** The backends hold what the specs ask for: every trust's mount and config, every reference's role. */
  predicate Configuration(w: World, f: Specs, env: Env) {
    && (forall k | k in f.base.trusts :: TrustKnown(f, env, k) && Done(w, ConfigAsked(f, env, k)))
    && (forall b, ref | b in f.bindings && ref in f.bindings[b].refs ::
          RefKnown(f, env, b, ref) && Done(w, RoleAsked(f, env, b, ref)))
  }

  // ---- Trusts: the plan's config ----------------------------------------------------------------

  /** The only content in the plan of a trust that nothing stops. */
  lemma BodyContent(w: World, env: Env, k: Key)
    requires LiveTrust(w, env, k) && Quiet(env) && w.trusts[k].spec.projectEntity in w.projectEntities
    requires var n := w.projectEntities[w.trusts[k].spec.projectEntity].spec.instance;
             n in w.instances && Reachable(w.instances[n]) && n in w.backends
    requires IssuerKnown(env, Key(k.namespace, w.trusts[k].spec.controlPlane))
    ensures var n := w.projectEntities[w.trusts[k].spec.projectEntity].spec.instance;
            var issuer := ControlPlaneIssuer(env.controlPlanes[Key(k.namespace, w.trusts[k].spec.controlPlane)]);
            forall x :: x in TrustBody(w, env, k, w.trusts[k]) && Content(x) <==>
              x == WriteConfig(n, TrustMount(env, k, w.trusts[k].spec, w.instances[n]), TrustConfig(issuer))
  {
    hide TrustBody, TrustGateOf, Reachable, Quiet, TrustMount, ControlPlaneIssuer, TrustDone, TrustConfig;
    ConfigureGate(w, env, k, w.trusts[k]);
    ConfigureBody(w, env, k, w.trusts[k]);
  }

  lemma PlanContent(w: World, env: Env, k: Key, x: Write)
    requires LiveTrust(w, env, k) && Content(x)
    ensures x in Plan(w, env, TrustRef(k)) <==> x in TrustBody(w, env, k, w.trusts[k])
  {
    hide TrustBody;
  }

  lemma ConfigPlanned(w: World, f: Specs, env: Env, done: set<Ref>, k: Key)
    requires Healthy(w, f, env) && Closed(f, done) && AllAchieved(w, f, done) && TrustRef(k) in done
    ensures TrustKnown(f, env, k)
    ensures forall x :: x in Plan(w, env, TrustRef(k)) && Content(x) <==> x == ConfigAsked(f, env, k)
  {
    hide Healthy, Closed, AllAchieved, Plan, TrustBody, Reachable, Achieved, Conforms, EnvConforms, Quiet, PlaceOf,
      TrustMount, ControlPlaneIssuer, Resolves;
    HealthyResolves(w, f, env);
    BelowTrust(w, f, done, k);
    TrustFinds(w, f, env, k);
    BodyContent(w, env, k);
    PlaceIsSpecs(w, env, f.base, k, w.trusts[k]);
    forall x | Content(x) ensures x in Plan(w, env, TrustRef(k)) <==> x in TrustBody(w, env, k, w.trusts[k]) {
      PlanContent(w, env, k, x);
    }
  }

  // ---- Entities: the subject --------------------------------------------------------------------

  lemma ResolvedSubject(env: Env, controlPlane: Key, spec: EntitySpec, audience: string)
    requires ResolveIdentity(env, controlPlane, spec, audience).Some?
    ensures var req := TokenRequest(controlPlane, spec.saNamespace, spec.saName, audience);
            req in env.tokens
              && ResolveIdentity(env, controlPlane, spec, audience).value.subject == env.tokens[req].subject
  {
    hide TrimSpace, ControlPlaneEntityAlias, NormalizedAudiences;
  }

  /** The subject of a settled entity is the one its service account's token carries. */
  lemma NextSubject(w: World, env: Env, k: Key, o: Entity)
    requires Quiet(env)
    requires var t := Key(k.namespace, o.spec.trust);
             && t in w.trusts && IsTrue(w.trusts[t].status.conditions, TrustConfigured)
             && w.trusts[t].status.audience == ResolveControlPlaneAudience(w.trusts[t].spec.audience)
             && IssuerKnown(env, Key(k.namespace, w.trusts[t].spec.controlPlane))
             && TokenReady(env, k.namespace, o.spec, w.trusts[t].spec)
    ensures var next := EntityNext(w, env, k, o);
            var spec := w.trusts[Key(k.namespace, o.spec.trust)].spec;
            var req := TokenRequest(Key(k.namespace, spec.controlPlane), o.spec.saNamespace, o.spec.saName,
                                    ResolveControlPlaneAudience(spec.audience));
            && next.Some? && next.value.identity.Some? && req in env.tokens
            && next.value.identity.value.subject == env.tokens[req].subject
  {
    hide IsTrue, EntityDone, EntityBlocked, EntityFailed, ResolveIdentity, ControlPlaneIssuer,
      ResolveControlPlaneAudience, IdentityID, TrimSpace;
    var trust := w.trusts[Key(k.namespace, o.spec.trust)];
    var ck, g := Key(k.namespace, trust.spec.controlPlane), o.meta.generation;
    AudienceResolvesOnce(trust.spec.audience);
    var audience := ResolveControlPlaneAudience(trust.spec.audience);
    TokenResolves(env, ck, o.spec, audience);
    ResolvedSubject(env, ck, o.spec, audience);
    var id := ResolveIdentity(env, ck, o.spec, audience);
    DoneEntity(o.status.(observed := g), g, id.value, IdentityID(env.sha, id));
  }

  lemma ReportedStatus(w: World, f: Specs, env: Env, k: Key)
    requires Reported(w, f, env, EntityRef(k)) && Quiet(env) && k in w.entities && !w.entities[k].meta.deleting
    requires EntityNext(w, env, k, w.entities[k]).Some?
    ensures w.entities[k].status == EntityNext(w, env, k, w.entities[k]).value
  {
    hide EntityNext, Achieved;
    assert PutEntity(k, EntityNext(w, env, k, w.entities[k]).value) in Plan(w, env, EntityRef(k));
  }

  /** A reported entity carries the subject of the token that the specs request. */
  lemma ReportedSubject(w: World, f: Specs, env: Env, done: set<Ref>, k: Key)
    requires Healthy(w, f, env) && Closed(f, done) && AllReported(w, f, env, done) && EntityRef(k) in done
    ensures k in w.entities && k in f.entities && w.entities[k].status.identity.Some?
            && w.entities[k].spec == f.entities[k]
    ensures Key(k.namespace, f.entities[k].trust) in f.base.trusts && RequestFor(f, k) in env.tokens
    ensures w.entities[k].status.identity.value.subject == env.tokens[RequestFor(f, k)].subject
  {
    hide Healthy, AllReported, Closed, AllAchieved, EntityNext, Achieved, IsTrue, IssuerKnown, TokenReady, PlaceOf,
      Reported, ResolveControlPlaneAudience, Quiet, Resolves;
    HealthyResolves(w, f, env);
    ReportedAchieved(w, f, env, done);
    BelowEntity(w, f, done, k);
    PresentIn(f, done, EntityRef(k));
    EntityFinds(w, f, env, k);
    NextSubject(w, env, k, w.entities[k]);
    ReportedOne(w, f, env, done, EntityRef(k));
    ReportedStatus(w, f, env, k);
  }

  lemma PresentIn(f: Specs, done: set<Ref>, ref: Ref)
    requires Closed(f, done) && ref in done
    ensures Present(f, ref) && DependsOn(f, ref) <= done
  {
  }

  // ---- Bindings: the roles ----------------------------------------------------------------------

  lemma LoopInPlan(w: World, env: Env, key: Key)
    requires LiveBinding(w, env, key)
    ensures forall x | x in LoopWrites(OutcomesOf(w, env, key)) :: x in Plan(w, env, BindingRef(key))
  {
    hide Plan, OutcomesOf, LoopWrites;
    LivePlan(w, env, key);
  }

  /** The plan of a binding whose references are all served has the role write of each. */
  lemma ServedRolePlanned(w: World, env: Env, key: Key, i: nat)
    requires LiveBinding(w, env, key) && Quiet(env) && i < |w.bindings[key].spec.refs|
    requires forall ref | ref in w.bindings[key].spec.refs :: RefServed(w, env, key, w.bindings[key].spec, ref)
    ensures var spec := w.bindings[key].spec; var e := Key(key.namespace, spec.refs[i]);
            && e in w.entities && w.entities[e].status.identity.Some?
            && (var t := Key(key.namespace, w.entities[e].spec.trust);
                && t in w.trusts
                && WriteRole(w.trusts[t].status.resolved, w.trusts[t].status.authMountPath,
                             BoundRole(spec, BindingRoleName(env, key, spec.refs[i]),
                                       w.entities[e].status.identity.value.subject,
                                       w.trusts[t].status.audience)) in Plan(w, env, BindingRef(key)))
  {
    hide Plan, OutcomesOf, LoopWrites, RefServed, RefOutcomeOf, BoundRole, BindingRoleName, IsTrue, TrustUsable,
      Aborted, Quiet;
    var spec, outs := w.bindings[key].spec, OutcomesOf(w, env, key);
    ServedOutcomes(w, env, key);
    OutcomesCount(w, env, key);
    OutcomeShapes(w, env, key, i);
    OutcomeAt(w, env, key, i);
    WriteShape(w, env, key, spec, spec.refs[i]);
    var x := outs[i].write.value;
    assert WriteRole(x.instance, x.mount, x.role) in RoleWriteOf(outs[i]);
    EveryRefWrites(outs, i);
    LoopInPlan(w, env, key);
  }

  lemma OutcomeAt(w: World, env: Env, key: Key, i: nat)
    requires key in w.bindings && i < |w.bindings[key].spec.refs|
    ensures i < |OutcomesOf(w, env, key)|
    ensures OutcomesOf(w, env, key)[i] == RefOutcomeOf(w, env, key, w.bindings[key].spec, w.bindings[key].spec.refs[i])
  {
    hide RefOutcomeOf;
  }

  /** The role write of a served reference, as its entity and its trust stand. */
  lemma ListedRole(w: World, env: Env, key: Key, i: nat)
    requires LiveBinding(w, env, key) && i < |OutcomesOf(w, env, key)| && i < |w.bindings[key].spec.refs|
    requires OutcomesOf(w, env, key)[i].RefOutcome? && OutcomesOf(w, env, key)[i].write.Some?
    ensures var spec, x := w.bindings[key].spec, OutcomesOf(w, env, key)[i].write.value;
            var e := Key(key.namespace, spec.refs[i]);
            && e in w.entities && w.entities[e].status.identity.Some?
            && (var t := Key(key.namespace, w.entities[e].spec.trust);
                && t in w.trusts && x.instance == w.trusts[t].status.resolved
                && x.mount == w.trusts[t].status.authMountPath
                && x.role == BoundRole(spec, BindingRoleName(env, key, spec.refs[i]),
                                       w.entities[e].status.identity.value.subject,
                                       w.trusts[t].status.audience))
  {
    hide RefOutcomeOf, BoundRole, BindingRoleName, IsTrue, TrustUsable;
    OutcomeAt(w, env, key, i);
    WriteShape(w, env, key, w.bindings[key].spec, w.bindings[key].spec.refs[i]);
  }

  /** Over a reported set, that is the role the specs ask for. */
  lemma RoleIsAsked(w: World, f: Specs, env: Env, done: set<Ref>, b: Key, ref: string)
    requires Healthy(w, f, env) && Closed(f, done) && AllReported(w, f, env, done)
    requires b in f.bindings && ref in f.bindings[b].refs && EntityRef(Key(b.namespace, ref)) in done
    ensures RefKnown(f, env, b, ref)
    ensures var e := Key(b.namespace, ref);
            && e in w.entities && w.entities[e].status.identity.Some? && w.entities[e].spec == f.entities[e]
            && (var t := TrustOf(f, b, ref);
                && t in w.trusts
                && RoleAsked(f, env, b, ref) ==
                   WriteRole(w.trusts[t].status.resolved, w.trusts[t].status.authMountPath,
                             BoundRole(f.bindings[b], BindingRoleName(env, b, ref),
                                       w.entities[e].status.identity.value.subject,
                                       w.trusts[t].status.audience)))
  {
    hide Healthy, Closed, AllReported, AllAchieved, Achieved, IsTrue, TrustUsable, PlaceOf,
      ResolveControlPlaneAudience, RoleName, Resolves;
    HealthyResolves(w, f, env);
    ReportedAchieved(w, f, env, done);
    ReportedSubject(w, f, env, done, Key(b.namespace, ref));
    BelowEntity(w, f, done, Key(b.namespace, ref));
    AchievedTrust(w, f, TrustOf(f, b, ref));
    HealthySha(w, f, env);
  }

  lemma HealthySha(w: World, f: Specs, env: Env)
    requires Healthy(w, f, env)
    ensures env.sha == f.base.sha
  {
    hide Matches, Operational, Resolves, Quiet;
  }

  lemma AchievedTrust(w: World, f: Specs, k: Key)
    requires Achieved(w, f, TrustRef(k))
    ensures k in w.trusts && TrustAchieved(w.trusts[k], f, k)
  {
  }

  lemma BindingContent(w: World, env: Env, key: Key, x: Write)
    requires LiveBinding(w, env, key) && Content(x) && x in Plan(w, env, BindingRef(key))
    ensures x in LoopWrites(OutcomesOf(w, env, key))
  {
    hide Plan, OutcomesOf, LoopWrites, Aborted, BindingNext;
    LivePlan(w, env, key);
  }

  /** The one asks and the other gives: each role asked of a binding is in its plan. */
  lemma AskedRolePlanned(w: World, f: Specs, env: Env, done: set<Ref>, b: Key, ref: string)
    requires Healthy(w, f, env) && Closed(f, done) && AllReported(w, f, env, done) && BindingRef(b) in done
    requires b in f.bindings && ref in f.bindings[b].refs
    ensures RefKnown(f, env, b, ref) && RoleAsked(f, env, b, ref) in Plan(w, env, BindingRef(b))
  {
    hide Healthy, Closed, AllReported, AllAchieved, Plan, RefServed, Quiet, RoleAsked, BoundRole, BindingRoleName,
      LiveBinding, RefKnown, DependsOn;
    PresentIn(f, done, BindingRef(b));
    ReportedAchieved(w, f, env, done);
    HealthyBinding(w, f, env, b);
    AllServed(w, f, env, done, b);
    RoleIsAsked(w, f, env, done, b, ref);
    var i :| 0 <= i < |f.bindings[b].refs| && f.bindings[b].refs[i] == ref;
    BindingThere(w, env, b);
    ServedRolePlanned(w, env, b, i);
  }

  lemma BindingThere(w: World, env: Env, key: Key)
    requires LiveBinding(w, env, key)
    ensures key in w.bindings
  {
  }

  /** And each content write of the plan is a role asked. */
  lemma PlannedRoleAsked(w: World, f: Specs, env: Env, done: set<Ref>, b: Key, x: Write) returns (ref: string)
    requires Healthy(w, f, env) && Closed(f, done) && AllReported(w, f, env, done) && BindingRef(b) in done
    requires b in f.bindings && x in Plan(w, env, BindingRef(b)) && Content(x)
    ensures ref in f.bindings[b].refs && RefKnown(f, env, b, ref) && x == RoleAsked(f, env, b, ref)
  {
    hide Healthy, Closed, AllReported, Plan, OutcomesOf, LoopWrites, RoleAsked, BoundRole, BindingRoleName, RefKnown,
      RefServed, AllAchieved, DependsOn;
    PresentIn(f, done, BindingRef(b));
    ReportedAchieved(w, f, env, done);
    HealthyBinding(w, f, env, b);
    BindingContent(w, env, b, x);
    OutcomesCount(w, env, b);
    var i := ListedWrite(OutcomesOf(w, env, b), x);
    ref := f.bindings[b].refs[i];
    AllServed(w, f, env, done, b);
    ListedRole(w, env, b, i);
    RoleIsAsked(w, f, env, done, b, ref);
  }

  // ---- All content of all plans -----------------------------------------------------------------

  /** The specs ask for the write. */
  predicate Asked(f: Specs, env: Env, x: Write) {
    || (exists k | k in f.base.trusts :: TrustKnown(f, env, k) && x == ConfigAsked(f, env, k))
    || (exists b, ref | b in f.bindings && ref in f.bindings[b].refs ::
          RefKnown(f, env, b, ref) && x == RoleAsked(f, env, b, ref))
  }

  lemma NoOtherContent(w: World, env: Env, ref: Ref, x: Write)
    requires x in Plan(w, env, ref) && Content(x)
    ensures ref.TrustRef? || ref.BindingRef?
  {
    hide InstanceNext, ProjectEntityGateOf, ProjectEntityDone, EntityNext, TrustPlan, BindingPlan;
  }

  /** In a reported service the content of the plans is what the specs ask for. */
  lemma ContentIsAsked(w: World, f: Specs, env: Env, done: set<Ref>, ref: Ref, x: Write)
    requires Healthy(w, f, env) && Closed(f, done) && AllReported(w, f, env, done) && ref in done
    requires x in Plan(w, env, ref) && Content(x)
    ensures Asked(f, env, x)
  {
    hide Healthy, Closed, AllReported, AllAchieved, Plan, ConfigAsked, RoleAsked, TrustKnown, RefKnown, Content;
    NoOtherContent(w, env, ref, x);
    PresentIn(f, done, ref);
    if ref.TrustRef? {
      ReportedAchieved(w, f, env, done);
      ConfigPlanned(w, f, env, done, ref.key);
    } else {
      var r := PlannedRoleAsked(w, f, env, done, ref.key, x);
    }
  }

  lemma AskedIsContent(f: Specs, env: Env, x: Write)
    requires Asked(f, env, x)
    ensures Content(x)
  {
    hide TrustKnown, RefKnown, RoleOf;
  }

  /** And all of it is in some plan. */
  lemma AskedIsPlanned(w: World, f: Specs, env: Env, done: set<Ref>, x: Write) returns (ref: Ref)
    requires Healthy(w, f, env) && Closed(f, done) && AllReported(w, f, env, done)
    requires forall r | Present(f, r) :: r in done
    requires Asked(f, env, x)
    ensures ref in done && x in Plan(w, env, ref)
  {
    hide Healthy, Closed, AllReported, AllAchieved, Plan, ConfigAsked, RoleAsked, TrustKnown, RefKnown, Content;
    ReportedAchieved(w, f, env, done);
    if k :| k in f.base.trusts && TrustKnown(f, env, k) && x == ConfigAsked(f, env, k) {
      ref := TrustRef(k);
      assert Present(f, ref);
      ConfigPlanned(w, f, env, done, k);
    } else {
      var b, r :| b in f.bindings && r in f.bindings[b].refs && RefKnown(f, env, b, r) && x == RoleAsked(f, env, b, r);
      ref := BindingRef(b);
      assert Present(f, ref);
      AskedRolePlanned(w, f, env, done, b, r);
    }
  }

  /** A settled service holds its configuration. */
  lemma SettledConfiguration(w: World, f: Specs, env: Env, done: set<Ref>)
    requires Healthy(w, f, env) && Closed(f, done) && AllSettled(w, f, env, done)
    requires forall r | Present(f, r) :: r in done
    ensures Configuration(w, f, env)
  {
    hide Healthy, Closed, AllReported, AllSettled, AllAchieved, Plan, ConfigAsked, RoleAsked, TrustKnown, RefKnown,
      Settled, Done;
    AllSettledReported(w, f, env, done);
    ReportedAchieved(w, f, env, done);
    forall k | k in f.base.trusts ensures TrustKnown(f, env, k) && Done(w, ConfigAsked(f, env, k)) {
      assert Present(f, TrustRef(k));
      ConfigPlanned(w, f, env, done, k);
      SettledOne(w, f, env, done, TrustRef(k));
      PlannedIsDone(w, f, env, TrustRef(k), ConfigAsked(f, env, k));
    }
    forall b, ref | b in f.bindings && ref in f.bindings[b].refs
      ensures RefKnown(f, env, b, ref) && Done(w, RoleAsked(f, env, b, ref))
    {
      assert Present(f, BindingRef(b));
      AskedRolePlanned(w, f, env, done, b, ref);
      SettledOne(w, f, env, done, BindingRef(b));
      PlannedIsDone(w, f, env, BindingRef(b), RoleAsked(f, env, b, ref));
    }
  }

  lemma PlannedIsDone(w: World, f: Specs, env: Env, ref: Ref, x: Write)
    requires Settled(w, f, env, ref) && x in Plan(w, env, ref)
    ensures Done(w, x)
  {
    hide Plan, Achieved, Done;
  }
}
