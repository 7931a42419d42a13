/** When a trust is Ready although it is not configured. */
module TrustReadiness {
  import opened Wrappers
  import opened Naming
  import opened Identity
  import opened Conditions
  import opened Backend
  import opened Api
  import opened Plans
  import opened Frames
  import opened TrustSafety
  import opened Idempotence
  import opened Settling
  import opened Achievement
  import opened Convergence

  predicate ReadyUnconfigured(st: TrustStatus) {
    IsTrue(st.conditions, Ready) && !IsTrue(st.conditions, TrustConfigured)
  }

  // ---- What the ends of a run leave of both conditions -----------------------------------------------------------

  lemma BlockedNotReady(st: TrustStatus, g: int, reason: Reason, m: Message, summary: Message)
    ensures !IsTrue(TrustBlocked(st, g, reason, m).conditions, Ready)
    ensures !IsTrue(TrustFailed(st, g, reason, m, summary).conditions, Ready)
  {
  }

  lemma ReportNotReady(w: World, env: Env, k: Key, o: Trust)
    requires env.mountPrefix.Some? && TrustGateOf(w, env, k, o).TrustReports?
    ensures !IsTrue(TrustGateOf(w, env, k, o).status.conditions, Ready)
  {
    hide TrustBlocked, TrustFailed, Reachable, TrustMount, TrustConfig, ControlPlaneIssuer,
      ResolveControlPlaneAudience, IsTrue;
    var pk, g := o.spec.projectEntity, o.meta.generation;
    var ck := Key(k.namespace, o.spec.controlPlane);
    var st := o.status.(observed := g);
    BlockedNotReady(st, g, DependencyNotFound, About(pk.name), NoMessage);
    if pk in w.projectEntities {
      var n := w.projectEntities[pk].spec.instance;
      BlockedNotReady(st, g, DependencyNotFound, About(n), NoMessage);
      BlockedNotReady(st.(resolved := n), g, OpenBaoUnreachable, About(n), NoMessage);
      BlockedNotReady(st.(resolved := n), g, DependencyNotFound, About(ck.name), NoMessage);
      BlockedNotReady(st.(resolved := n), g, IssuerDiscoveryFailed, About(ck.name), About("issuer"));
    }
  }

  lemma GateKeepsConditions(w: World, env: Env, k: Key, o: Trust)
    requires env.mountPrefix.Some? && TrustGateOf(w, env, k, o).TrustConfigures?
    ensures TrustGateOf(w, env, k, o).status.conditions == o.status.conditions
  {
    hide TrustBlocked, TrustFailed, Reachable, TrustMount, TrustConfig, ControlPlaneIssuer, ResolveControlPlaneAudience;
  }

  /** A client came up, and the call for the mount or for the config then failed. */
  predicate CallFails(w: World, env: Env, n: string) {
    Client(w, env, n).Success? && (CallMount(n) in env.callErrors || CallConfig(n) in env.callErrors)
  }

  lemma EndReadyUnconfigured(w: World, env: Env, g: int, gate: TrustGate)
    requires gate.TrustConfigures?
    ensures ReadyUnconfigured(CallsEnd(w, env, g, gate)) <==>
            CallFails(w, env, gate.instance) && IsTrue(gate.status.conditions, Ready)
  {
    var st := gate.status;
    DoneTrust(st, g);
    match Client(w, env, gate.instance)
    case Failure(text) => BlockedNotReady(st, g, OpenBaoUnreachable, ErrorText(text), ErrorText(text));
    case Success(_) =>
  }

  lemma BodyReadyUnconfigured(w: World, env: Env, k: Key)
    requires LiveTrust(w, env, k)
    ensures var o := w.trusts[k];
            var gate, v := TrustGateOf(w, env, k, o), ApplyAll(w, TrustBody(w, env, k, o));
            k in v.trusts &&
            (ReadyUnconfigured(v.trusts[k].status) <==>
             || (gate.TrustAborts? && ReadyUnconfigured(o.status))
             || (gate.TrustConfigures? && CallFails(w, env, gate.instance) && IsTrue(o.status.conditions, Ready)))
  {
    hide TrustGateOf, TrustBackendWrites, CallsEnd, ApplyAll, Idle, IsTrue, CallFails;
    var o := w.trusts[k];
    var gate := TrustGateOf(w, env, k, o);
    match gate
    case TrustAborts => IdleRun(w, []);
    case TrustReports(st) =>
      PutTrustIdle(w, k, st);
      ReportNotReady(w, env, k, o);
    case TrustConfigures(_, _, _, _) =>
      BackendWritesIdle(w, env, k, o.meta.generation, gate);
      GateKeepsConditions(w, env, k, o);
      EndReadyUnconfigured(w, env, o.meta.generation, gate);
  }

  lemma HeldGate(w: World, env: Env, k: Key)
    requires LiveTrust(w, env, k)
    ensures var h := HeldTrust(w, k);
            && LiveTrust(h, env, k) && h.trusts[k].status == w.trusts[k].status && h.backends == w.backends
            && TrustGateOf(h, env, k, h.trusts[k]) == TrustGateOf(w, env, k, w.trusts[k])
  {
    hide TrustPastInstance, TrustBlocked, Reachable;
    var o, h := w.trusts[k], HeldTrust(w, k);
    PastInstanceIgnoresMeta(env, k, o, Held(o.meta, true));
  }

  lemma PastInstanceIgnoresMeta(env: Env, k: Key, o: Trust, meta: Meta)
    requires env.mountPrefix.Some? && meta.generation == o.meta.generation
    ensures forall st, inst ::
              TrustPastInstance(env, k, o, st, inst) == TrustPastInstance(env, k, o.(meta := meta), st, inst)
  {
  }

  /**
   A reconcile leaves a live trust Ready but not configured exactly when it stopped on an API error and
   the trust already was so, or when a client came up, the mount or the config call failed, and the trust
   had been Ready: that exit writes TrustConfigured and leaves Ready as it was.
   */
  lemma ReadyUnconfiguredIff(w: World, env: Env, k: Key)
    requires LiveTrust(w, env, k)
    ensures var o, v := w.trusts[k], Reconcile(w, env, TrustRef(k));
            var gate := TrustGateOf(w, env, k, o);
            k in v.trusts &&
            (ReadyUnconfigured(v.trusts[k].status) <==>
             || (gate.TrustAborts? && ReadyUnconfigured(o.status))
             || (gate.TrustConfigures? && CallFails(w, env, gate.instance) && IsTrue(o.status.conditions, Ready)))
  {
    hide Reconcile, TrustGateOf, TrustBody, ApplyAll, HeldTrust, IsTrue, ReadyUnconfigured;
    LiveTrustResult(w, env, k);
    HeldGate(w, env, k);
    BodyReadyUnconfigured(HeldTrust(w, k), env, k);
  }

  // ---- It happens to every trust of every healthy service ----------------------------------------------------------

  lemma GateIgnoresCalls(w: World, env: Env, k: Key, o: Trust, errors: map<Call, string>)
    requires env.mountPrefix.Some?
    ensures TrustGateOf(w, env.(callErrors := errors), k, o) == TrustGateOf(w, env, k, o)
  {
    hide TrustBlocked, TrustFailed, Reachable, AuthMountPath, TrustConfig, ControlPlaneIssuer,
      ResolveControlPlaneAudience;
  }

  lemma FailingMountCall(w: World, env: Env, k: Key, text: string)
    requires LiveTrust(w, env, k) && Quiet(env) && IsTrue(w.trusts[k].status.conditions, Ready)
    requires w.trusts[k].spec.projectEntity in w.projectEntities
    requires var n := w.projectEntities[w.trusts[k].spec.projectEntity].spec.instance;
             n in w.instances && Reachable(w.instances[n]) && n in w.backends
    requires IssuerKnown(env, Key(k.namespace, w.trusts[k].spec.controlPlane))
    ensures var n := w.projectEntities[w.trusts[k].spec.projectEntity].spec.instance;
            var v := Reconcile(w, env.(callErrors := map[CallMount(n) := text]), TrustRef(k));
            k in v.trusts && ReadyUnconfigured(v.trusts[k].status)
  {
    hide Reconcile, TrustGateOf, IsTrue, Reachable, IssuerKnown, TrustMount, TrustConfig, ControlPlaneIssuer,
      ResolveControlPlaneAudience, ReadyUnconfigured;
    var n := w.projectEntities[w.trusts[k].spec.projectEntity].spec.instance;
    var errors := map[CallMount(n) := text];
    ConfigureGate(w, env, k, w.trusts[k]);
    GateIgnoresCalls(w, env, k, w.trusts[k], errors);
    ReadyUnconfiguredIff(w, env.(callErrors := errors), k);
  }

  /**
   Take any healthy service that has been brought up: each of its trusts is Ready and configured, and one
   reconcile whose mount call fails leaves it Ready and not configured.
   */
  lemma ReadyOutlivesConfigured(w: World, f: Specs, env: Env, turns: seq<Turn>, k: Key, text: string)
    requires Healthy(w, f, env) && k in f.base.trusts
    requires forall ref | Present(f, ref) :: ref in ServedAll(f, {}, turns)
    ensures var u := TakeAll(w, env, turns);
            var v := Reconcile(u, env.(callErrors := map[CallMount(InstanceOf(f, k)) := text]), TrustRef(k));
            && k in u.trusts && IsTrue(u.trusts[k].status.conditions, Ready)
            && IsTrue(u.trusts[k].status.conditions, TrustConfigured)
            && k in v.trusts && ReadyUnconfigured(v.trusts[k].status)
  {
    hide Reconcile, TakeAll, ServedAll, Healthy, Closed, AllReported, AllAchieved, IsTrue, Reachable, Conforms,
      EnvConforms, Quiet, InstanceOf, IssuerKnown, PlaceOf, ReadyUnconfigured, Achieved;
    var u, done := TakeAll(w, env, turns), ServedAll(f, {}, turns);
    NothingReported(w, f, env);
    ScheduleReports(w, f, env, {}, turns);
    ReportedAchieved(u, f, env, done);
    HealthyResolves(u, f, env);
    assert Present(f, TrustRef(k));
    BelowTrust(u, f, done, k);
    TrustFinds(u, f, env, k);
    TrustIsUp(u, f, k);
    FailingMountCall(u, env, k, text);
  }

  lemma TrustIsUp(w: World, f: Specs, k: Key)
    requires Achieved(w, f, TrustRef(k))
    ensures k in w.trusts && IsTrue(w.trusts[k].status.conditions, Ready)
            && IsTrue(w.trusts[k].status.conditions, TrustConfigured)
  {
  }
}
