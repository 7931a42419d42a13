/** The PolicyBinding reconciler as a method: the reference loop, its accumulators, and the finalizer. */
module BindingReconciler {
  import opened Wrappers
  import opened Naming
  import opened Conditions
  import opened Backend
  import opened Api
  import opened SystemState
  import opened Plans
  import opened Frames
  import opened Reconcilers

  // ---- The loop body --------------------------------------------------------------------------------

  /** The part of the loop body behind the last gate: policy check, then the role. */
  method BindAtBackend(sys: System, env: Env, spec: BindingSpec, ref: string, roleName: string, trust: Trust,
                       subject: string)
    returns (out: RefOutcome)
    requires trust.status.resolved in sys.backends
    modifies sys
    ensures out == RefAtBackend(env, spec, ref, roleName, trust, subject, old(sys.backends)[trust.status.resolved])
    ensures Wrote(old(sys.View()), sys.View(), old(sys.log), sys.log, RoleWriteOf(out))
  {
    hide Wrote, Apply, ApplyAll, System.View;
    ghost var w, log := sys.View(), sys.log;
    WroteNothing(w, log);
    var n, mount := trust.status.resolved, trust.status.authMountPath;
    var message, blocking, check := NoMessage, [], CheckPresent;
    if CallPolicy(n) in env.callErrors {
      check, message := CheckFailed, ErrorText(env.callErrors[CallPolicy(n)]);
      blocking := [message];
    } else {
      var client := new FakeClient.On(sys.backends[n]);
      var e := client.PolicyExists(spec.policyName);
      if !e.known {
        check := CheckUnknown;
      } else if !e.present {
        check, message := CheckMissing, About(spec.policyName);
        blocking := [message];
      }
    }
    var role := JWTRole(roleName, "jwt", [trust.status.audience], subject, "sub", [spec.policyName], spec.ttl,
                        spec.maxTTL);
    var call := CallRole(n, mount, roleName);
    var failure := ErrorText(if call in env.callErrors then env.callErrors[call] else "not found");
    if call !in env.callErrors {
      var found := sys.EnsureJWTRole(n, mount, role);
      if found {
        WroteOne(w, sys.View(), log, sys.log, WriteRole(n, mount, role));
        return RefOutcome(RoleStatus(ref, roleName, mount, IsEmpty(message), message), false, blocking, check,
                          Some(RoleWrite(n, mount, role)));
      }
    }
    return RefOutcome(RoleStatus(ref, roleName, mount, false, failure), false, blocking + [failure], check, None);
  }

  method BindPastTrust(sys: System, env: Env, spec: BindingSpec, ref: string, roleName: string, trust: Trust,
                       subject: string)
    returns (out: RefOutcome)
    modifies sys
    ensures out == RefPastTrust(old(sys.View()), env, spec, ref, roleName, trust, subject)
    ensures Wrote(old(sys.View()), sys.View(), old(sys.log), sys.log, RoleWriteOf(out))
  {
    hide Wrote, Apply, ApplyAll, RefAtBackend;
    WroteNothing(sys.View(), sys.log);
    var n, mount := trust.status.resolved, trust.status.authMountPath;
    if InstanceRef(n) in env.faults {
      return RefAborts;
    }
    if n !in sys.instances || !Reachable(sys.instances[n]) {
      return RefBlocked(ref, roleName, mount, false, About(n));
    }
    if CallFactory(n) in env.callErrors {
      return RefBlocked(ref, roleName, mount, false, ErrorText(env.callErrors[CallFactory(n)]));
    }
    if n !in sys.backends {
      return RefBlocked(ref, roleName, mount, false, ErrorText("no backend"));
    }
    out := BindAtBackend(sys, env, spec, ref, roleName, trust, subject);
  }

  method BindOne(sys: System, env: Env, key: Key, spec: BindingSpec, ref: string) returns (out: RefOutcome)
    modifies sys
    ensures out == RefOutcomeOf(old(sys.View()), env, key, spec, ref)
    ensures Wrote(old(sys.View()), sys.View(), old(sys.log), sys.log, RoleWriteOf(out))
  {
    hide Wrote, Apply, ApplyAll, RefPastTrust;
    WroteNothing(sys.View(), sys.log);
    var roleName, ek := BindingRoleName(env, key, ref), Key(key.namespace, ref);
    if EntityRef(ek) in env.faults || ek !in sys.entities {
      return RefBlocked(ref, roleName, "", true, About(ref));
    }
    var entity := sys.entities[ek];
    if !EntityUsable(entity) {
      return RefBlocked(ref, roleName, "", false, About(ref));
    }
    var tk := Key(key.namespace, entity.spec.trust);
    if TrustRef(tk) in env.faults || tk !in sys.trusts {
      return RefBlocked(ref, roleName, "", true, About(tk.name));
    }
    if !TrustUsable(sys.trusts[tk]) {
      return RefBlocked(ref, roleName, "", false, About(tk.name));
    }
    out := BindPastTrust(sys, env, spec, ref, roleName, sys.trusts[tk], entity.status.identity.value.subject);
  }

  // ---- The loop ------------------------------------------------------------------------------------------

  /** The accumulators of the loop, after some references. */
  datatype Accumulators = Accumulators(
    roles: seq<RoleStatus>, allRolesReady: bool, dependencyMissing: bool, blocking: seq<Message>,
    policyKnown: bool, policyExists: bool, policyChecked: bool)

  ghost predicate Accumulates(acc: Accumulators, outs: seq<RefOutcome>)
    requires !Aborted(outs)
  {
    && acc.roles == Entries(outs)
    && acc.blocking == Blocking(outs)
    && acc.allRolesReady == (Blocking(outs) == [])
    && acc.dependencyMissing == SomeMissing(outs)
    && acc.policyKnown == AllKnown(outs)
    && acc.policyExists == AllPresent(outs)
    && acc.policyChecked == SomeChecked(outs)
  }

  function Accumulate(acc: Accumulators, out: RefOutcome): Accumulators
    requires out.RefOutcome?
  {
    Accumulators(
      acc.roles + [out.entry],
      acc.allRolesReady && out.blocking == [],
      acc.dependencyMissing || out.missing,
      acc.blocking + out.blocking,
      acc.policyKnown && out.check != CheckFailed && out.check != CheckUnknown,
      acc.policyExists && out.check != CheckMissing,
      acc.policyChecked || out.check != NotChecked)
  }

  lemma VerdictsOne(outs: seq<RefOutcome>, out: RefOutcome)
    requires out.RefOutcome?
    ensures SomeMissing(outs + [out]) <==> SomeMissing(outs) || out.missing
    ensures SomeChecked(outs + [out]) <==> SomeChecked(outs) || out.check != NotChecked
  {
    var next := outs + [out];
    assert next[|outs|] == out;
    assert forall i | 0 <= i < |outs| :: next[i] == outs[i];
  }

  lemma UniversalsOne(outs: seq<RefOutcome>, out: RefOutcome)
    requires out.RefOutcome?
    ensures AllKnown(outs + [out]) <==> AllKnown(outs) && out.check != CheckFailed && out.check != CheckUnknown
    ensures AllPresent(outs + [out]) <==> AllPresent(outs) && out.check != CheckMissing
    ensures Aborted(outs + [out]) <==> Aborted(outs)
  {
    var next := outs + [out];
    assert next[|outs|] == out;
    assert forall i | 0 <= i < |outs| :: next[i] == outs[i];
  }

  lemma ListsOne(outs: seq<RefOutcome>, out: RefOutcome)
    requires !Aborted(outs) && out.RefOutcome? && !Aborted(outs + [out])
    ensures Entries(outs + [out]) == Entries(outs) + [out.entry]
    ensures Blocking(outs + [out]) == Blocking(outs) + out.blocking
  {
    var next := outs + [out];
    assert next[..|next| - 1] == outs;
  }

  lemma AccumulateOne(acc: Accumulators, outs: seq<RefOutcome>, out: RefOutcome)
    requires !Aborted(outs) && Accumulates(acc, outs) && out.RefOutcome?
    ensures !Aborted(outs + [out]) && Accumulates(Accumulate(acc, out), outs + [out])
  {
    hide Aborted, Entries, Blocking, SomeMissing, SomeChecked, AllKnown, AllPresent;
    VerdictsOne(outs, out);
    UniversalsOne(outs, out);
    ListsOne(outs, out);
  }

  lemma LoopWritesOne(outs: seq<RefOutcome>, out: RefOutcome)
    requires !Aborted(outs)
    ensures LoopWrites(outs + [out]) == LoopWrites(outs) + RoleWriteOf(out)
  {
    assert (outs + [out])[..|outs|] == outs;
  }

  /** After the first aborting outcome nothing more is written. */
  lemma {:induction false} LoopWritesStop(outs: seq<RefOutcome>, i: nat)
    requires i < |outs| && !Aborted(outs[..i]) && outs[i].RefAborts?
    ensures LoopWrites(outs) == LoopWrites(outs[..i]) && Aborted(outs)
  {
    var before := outs[..|outs| - 1];
    if i < |before| {
      assert before[..i] == outs[..i];
      LoopWritesStop(before, i);
    } else {
      assert before == outs[..i];
    }
  }

  /** The loop's role writes leave every outcome still to come as it was. */
  lemma LoopKeepsInputs(w: World, outs: seq<RefOutcome>)
    ensures BindingInputsAgree(ApplyAll(w, LoopWrites(outs)), w)
  {
    forall x | x in LoopWrites(outs) ensures KeepsBindingInputs(x) {
      LoopWritesAreRoles(outs, x);
    }
    WritesKeepBindingInputs(w, LoopWrites(outs));
  }

  lemma AccumulateNothing()
    ensures !Aborted([]) && Accumulates(Accumulators([], true, false, [], true, true, false), [])
  {
  }

  method BindAll(sys: System, env: Env, key: Key, spec: BindingSpec) returns (acc: Accumulators, aborted: bool)
    modifies sys
    ensures var outs := Outcomes(old(sys.View()), env, key, spec, spec.refs);
            && Wrote(old(sys.View()), sys.View(), old(sys.log), sys.log, LoopWrites(outs))
            && aborted == Aborted(outs)
            && (!aborted ==> Accumulates(acc, outs))
  {
    hide RefOutcomeOf, Apply, ApplyAll, Wrote, Aborted, Accumulates, LoopWrites, BindingInputsAgree, System.View;
    ghost var w, log := sys.View(), sys.log;
    ghost var outs := Outcomes(w, env, key, spec, spec.refs);
    var roles: seq<RoleStatus>, blocking: seq<Message> := [], [];
    var allRolesReady, dependencyMissing := true, false;
    var policyKnown, policyExists, policyChecked := true, true, false;
    aborted := false;
    WroteNothing(w, log);
    AccumulateNothing();
    assert LoopWrites([]) == [] by {
      LoopWritesNothing();
    }
    for i := 0 to |spec.refs|
      invariant !Aborted(outs[..i])
      invariant Accumulates(Accumulators(roles, allRolesReady, dependencyMissing, blocking, policyKnown, policyExists,
                                         policyChecked), outs[..i])
      invariant Wrote(w, sys.View(), log, sys.log, LoopWrites(outs[..i]))
    {
      ghost var w1, log1 := sys.View(), sys.log;
      ghost var soFar := Accumulators(roles, allRolesReady, dependencyMissing, blocking, policyKnown, policyExists,
                                      policyChecked);
      var out := BindOne(sys, env, key, spec, spec.refs[i]);
      SameOutcome(w, w1, log, log1, env, key, spec, outs, i);
      assert out == outs[i];
      if out.RefAborts? {
        LoopWritesStop(outs, i);
        WroteThen(w, w1, sys.View(), log, log1, sys.log, LoopWrites(outs[..i]), []);
        assert LoopWrites(outs[..i]) + [] == LoopWrites(outs[..i]);
        acc := Accumulators(roles, allRolesReady, dependencyMissing, blocking, policyKnown, policyExists,
                            policyChecked);
        aborted := true;
        return;
      }
      roles := roles + [out.entry];
      blocking := blocking + out.blocking;
      if out.blocking != [] {
        allRolesReady := false;
      }
      if out.missing {
        dependencyMissing := true;
      }
      match out.check {
        case NotChecked =>
        case CheckFailed => policyChecked, policyKnown := true, false;
        case CheckUnknown => policyChecked, policyKnown := true, false;
        case CheckMissing => policyChecked, policyExists := true, false;
        case CheckPresent => policyChecked := true;
      }
      assert Accumulators(roles, allRolesReady, dependencyMissing, blocking, policyKnown, policyExists, policyChecked)
          == Accumulate(soFar, out);
      assert outs[..i + 1] == outs[..i] + [out];
      LoopWritesOne(outs[..i], out);
      AccumulateOne(soFar, outs[..i], out);
      WroteThen(w, w1, sys.View(), log, log1, sys.log, LoopWrites(outs[..i]), RoleWriteOf(out));
    }
    assert outs[..|spec.refs|] == outs;
    acc := Accumulators(roles, allRolesReady, dependencyMissing, blocking, policyKnown, policyExists, policyChecked);
  }

  lemma LoopWritesNothing()
    ensures LoopWrites([]) == []
  {
  }

  /** The outcome of a reference in the world the loop has reached is its outcome in the first one. */
  lemma SameOutcome(w: World, v: World, log: seq<Write>, log1: seq<Write>, env: Env, key: Key, spec: BindingSpec,
                    outs: seq<RefOutcome>, i: nat)
    requires outs == Outcomes(w, env, key, spec, spec.refs) && i < |spec.refs|
    requires Wrote(w, v, log, log1, LoopWrites(outs[..i]))
    ensures RefOutcomeOf(v, env, key, spec, spec.refs[i]) == outs[i]
  {
    hide RefOutcomeOf, Apply, ApplyAll;
    LoopKeepsInputs(w, outs[..i]);
    RefOutcomeFrame(v, w, env, key, spec, spec.refs[i]);
  }

  // ---- Status ------------------------------------------------------------------------------------------------

  method ConcludeBinding(o: Binding, acc: Accumulators, ghost outs: seq<RefOutcome>) returns (st: BindingStatus)
    requires !Aborted(outs) && Accumulates(acc, outs)
    ensures st == BindingNext(o, outs)
  {
    hide Aborted, Entries, Blocking, SomeMissing, SomeChecked, AllKnown, AllPresent, FailWith;
    var g, policy := o.meta.generation, o.spec.policyName;
    var conds := new ConditionList(o.status.conditions);
    var policyExists := Yes;
    if !acc.policyChecked || !acc.policyKnown {
      conds.SetCondition(g, PolicyResolved, Unknown, PolicyCheckSkipped, NoMessage);
      policyExists := Unknown;
    } else if !acc.policyExists {
      conds.SetCondition(g, PolicyResolved, No, PolicyNotFound, About(policy));
      policyExists := No;
    } else {
      conds.SetCondition(g, PolicyResolved, Yes, PolicyFound, NoMessage);
    }
    if !acc.policyExists {
      conds.SetCondition(g, Ready, No, WaitingForPolicy, About(policy));
    } else if !acc.allRolesReady {
      var reason := DependencyMissesReadiness;
      if acc.dependencyMissing {
        reason := DependencyNotFound;
      }
      conds.SetDependencyNotReady(g, reason, Joined(acc.blocking));
    } else {
      conds.SetReady(g);
    }
    st := BindingStatus(g, acc.roles, policy, policyExists, conds.items);
  }

  method ReconcileLiveBinding(sys: System, env: Env, key: Key, o: Binding)
    requires key in sys.bindings
    modifies sys
    ensures Wrote(old(sys.View()), sys.View(), old(sys.log), sys.log, BindingBody(old(sys.View()), env, key, o))
  {
    hide Wrote, Apply, ApplyAll, Outcomes, LoopWrites, Aborted, BindingNext, Accumulates;
    ghost var w, log := sys.View(), sys.log;
    ghost var outs := Outcomes(w, env, key, o.spec, o.spec.refs);
    var acc, aborted := BindAll(sys, env, key, o.spec);
    if aborted {
      assert LoopWrites(outs) + [] == LoopWrites(outs);
      return;
    }
    ghost var w1, log1 := sys.View(), sys.log;
    BindingStays(w, w1, log, log1, outs, key);
    var st := ConcludeBinding(o, acc, outs);
    sys.UpdateBindingStatus(key, st);
    WroteMore(w, w1, sys.View(), log, log1, sys.log, LoopWrites(outs), PutBinding(key, st));
  }

  lemma BindingStays(w: World, v: World, log: seq<Write>, log1: seq<Write>, outs: seq<RefOutcome>, key: Key)
    requires Wrote(w, v, log, log1, LoopWrites(outs))
    ensures v.bindings == w.bindings
  {
    hide LoopWrites;
    forall x | x in LoopWrites(outs) ensures x.WriteRole? {
      LoopWritesAreRoles(outs, x);
    }
    RoleWritesKeepBindings(w, LoopWrites(outs));
  }

  lemma {:induction false} RoleWritesKeepBindings(w: World, xs: seq<Write>)
    requires forall x | x in xs :: x.WriteRole? || x.RemoveRole?
    ensures ApplyAll(w, xs).bindings == w.bindings
    decreases xs
  {
    if xs != [] {
      assert xs[0] in xs;
      RoleWritesKeepBindings(Apply(w, xs[0]), xs[1..]);
    }
  }

  lemma HoldKeepsBindingInputs(w: World, key: Key)
    ensures BindingInputsAgree(Apply(w, AddBindingFinalizer(key)), w)
  {
  }

  lemma BindingBodyFrame(w: World, v: World, env: Env, key: Key, o: Binding)
    requires BindingInputsAgree(w, v)
    ensures BindingBody(w, env, key, o) == BindingBody(v, env, key, o)
  {
    hide Outcomes, LoopWrites, Aborted, BindingNext;
    OutcomesFrame(w, v, env, key, o.spec, o.spec.refs);
  }

  // ---- Teardown ------------------------------------------------------------------------------------------------

  method LookUpTrust(sys: System, listing: seq<Key>, namespace: string, path: string) returns (found: Option<Trust>)
    ensures found == FindTrustForAuthMount(sys.View(), listing, namespace, path)
  {
    for i := 0 to |listing|
      invariant FindTrustForAuthMount(sys.View(), listing, namespace, path)
             == FindTrustForAuthMount(sys.View(), listing[i..], namespace, path)
    {
      var k := listing[i];
      assert listing[i..][0] == k && listing[i..][1..] == listing[i + 1..];
      if k.namespace == namespace && k in sys.trusts && sys.trusts[k].status.authMountPath == path {
        return Some(sys.trusts[k]);
      }
    }
    return None;
  }

  method RemoveOne(sys: System, env: Env, namespace: string, entry: RoleStatus) returns (r: Removal)
    modifies sys
    ensures r == RemovalOf(old(sys.View()), env, namespace, entry)
    ensures Wrote(old(sys.View()), sys.View(), old(sys.log), sys.log, RemovalWrite(r))
  {
    hide Wrote, Apply, ApplyAll, FindTrustForAuthMount;
    ghost var w, log := sys.View(), sys.log;
    WroteNothing(w, log);
    if entry.roleName == "" || entry.authMountPath == "" {
      return RemovalSkipped;
    }
    if env.trustListing.None? {
      return RemovalFails;
    }
    var found := LookUpTrust(sys, env.trustListing.value, namespace, entry.authMountPath);
    if found.None? || found.value.status.resolved == "" {
      return RemovalSkipped;
    }
    var n := found.value.status.resolved;
    if InstanceRef(n) in env.faults {
      return RemovalFails;
    }
    if n !in sys.instances || !Reachable(sys.instances[n]) || CallFactory(n) in env.callErrors || n !in sys.backends {
      return RemovalSkipped;
    }
    if CallRemoveRole(n, entry.authMountPath, entry.roleName) in env.callErrors {
      return RemovalFails;
    }
    sys.DeleteJWTRole(n, entry.authMountPath, entry.roleName);
    WroteOne(w, sys.View(), log, sys.log, RemoveRole(n, entry.authMountPath, entry.roleName));
    return Removes(n, entry.authMountPath, entry.roleName);
  }

  predicate RemovalInputsAgree(w: World, v: World) {
    w.trusts == v.trusts && w.instances == v.instances && w.backends.Keys == v.backends.Keys
  }

  lemma {:induction false} FindTrustFrame(w: World, v: World, listing: seq<Key>, namespace: string, path: string)
    requires w.trusts == v.trusts
    ensures FindTrustForAuthMount(w, listing, namespace, path) == FindTrustForAuthMount(v, listing, namespace, path)
  {
    if listing != [] {
      FindTrustFrame(w, v, listing[1..], namespace, path);
    }
  }

  lemma RemovalFrame(w: World, v: World, env: Env, namespace: string, entry: RoleStatus)
    requires RemovalInputsAgree(w, v)
    ensures RemovalOf(w, env, namespace, entry) == RemovalOf(v, env, namespace, entry)
  {
    hide FindTrustForAuthMount;
    if env.trustListing.Some? {
      FindTrustFrame(w, v, env.trustListing.value, namespace, entry.authMountPath);
    }
  }

  lemma RemovalsKeepInputs(w: World, env: Env, namespace: string, entries: seq<RoleStatus>)
    ensures var v := ApplyAll(w, RemovalWrites(w, env, namespace, entries));
            RemovalInputsAgree(v, w) && v.bindings == w.bindings
  {
    hide RemovalOf, RemovalWrites, ApplyAll;
    var xs := RemovalWrites(w, env, namespace, entries);
    forall x | x in xs ensures x.RemoveRole? {
      RemovalWritesAreRemovals(w, env, namespace, entries, x);
    }
    WritesKeepBindingInputs(w, xs);
    RoleWritesKeepBindings(w, xs);
  }

  lemma RemovalOne(w: World, env: Env, namespace: string, entries: seq<RoleStatus>, i: nat)
    requires i < |entries| && !SomeRemovalFails(w, env, namespace, entries[..i])
    ensures var r := RemovalOf(w, env, namespace, entries[i]);
            && RemovalWrites(w, env, namespace, entries[..i + 1])
               == RemovalWrites(w, env, namespace, entries[..i]) + RemovalWrite(r)
            && (SomeRemovalFails(w, env, namespace, entries[..i + 1]) <==> r.RemovalFails?)
  {
    hide RemovalOf;
    var next := entries[..i + 1];
    assert next[..|next| - 1] == entries[..i];
    assert next[i] == entries[i];
    assert forall j | 0 <= j < i :: next[j] == entries[..i][j];
  }

  lemma {:induction false} RemovalStops(w: World, env: Env, namespace: string, entries: seq<RoleStatus>, i: nat)
    requires i <= |entries| && SomeRemovalFails(w, env, namespace, entries[..i])
    ensures SomeRemovalFails(w, env, namespace, entries)
    ensures RemovalWrites(w, env, namespace, entries) == RemovalWrites(w, env, namespace, entries[..i])
  {
    hide RemovalOf;
    if i == |entries| {
      assert entries[..i] == entries;
    } else {
      var before := entries[..|entries| - 1];
      assert before[..i] == entries[..i];
      RemovalStops(w, env, namespace, before, i);
      var j :| 0 <= j < |before| && RemovalOf(w, env, namespace, before[j]).RemovalFails?;
      assert entries[j] == before[j];
    }
  }

  method RemoveAll(sys: System, env: Env, namespace: string, entries: seq<RoleStatus>) returns (failed: bool)
    modifies sys
    ensures failed == SomeRemovalFails(old(sys.View()), env, namespace, entries)
    ensures Wrote(old(sys.View()), sys.View(), old(sys.log), sys.log,
                  RemovalWrites(old(sys.View()), env, namespace, entries))
  {
    hide Wrote, RemovalOf, RemovalWrites, SomeRemovalFails, RemovalWrite, System.View;
    ghost var w, log := sys.View(), sys.log;
    WroteNothing(w, log);
    NoRemovals(w, env, namespace);
    for i := 0 to |entries|
      invariant !SomeRemovalFails(w, env, namespace, entries[..i])
      invariant Wrote(w, sys.View(), log, sys.log, RemovalWrites(w, env, namespace, entries[..i]))
    {
      ghost var w1, log1 := sys.View(), sys.log;
      RemovalAfter(w, w1, log, log1, env, namespace, entries[..i], entries[i]);
      var r := RemoveOne(sys, env, namespace, entries[i]);
      RemovalOne(w, env, namespace, entries, i);
      WroteThen(w, w1, sys.View(), log, log1, sys.log, RemovalWrites(w, env, namespace, entries[..i]), RemovalWrite(r));
      if r.RemovalFails? {
        RemovalStops(w, env, namespace, entries, i + 1);
        return true;
      }
    }
    assert entries[..|entries|] == entries;
    return false;
  }

  lemma NoRemovals(w: World, env: Env, namespace: string)
    ensures RemovalWrites(w, env, namespace, []) == [] && !SomeRemovalFails(w, env, namespace, [])
  {
  }

  lemma RemovalAfter(w: World, v: World, log: seq<Write>, log1: seq<Write>, env: Env, namespace: string,
                     done: seq<RoleStatus>, entry: RoleStatus)
    requires Wrote(w, v, log, log1, RemovalWrites(w, env, namespace, done))
    ensures RemovalOf(v, env, namespace, entry) == RemovalOf(w, env, namespace, entry)
  {
    hide RemovalOf, RemovalWrites, ApplyAll;
    RemovalsKeepInputs(w, env, namespace, done);
    RemovalFrame(v, w, env, namespace, entry);
  }

  method FinalizeBinding(sys: System, env: Env, key: Key, o: Binding)
    requires key in sys.bindings
    modifies sys
    ensures Wrote(old(sys.View()), sys.View(), old(sys.log), sys.log, BindingTeardown(old(sys.View()), env, key, o))
  {
    hide Wrote, Apply, ApplyAll, RemovalWrites, SomeRemovalFails;
    ghost var w, log := sys.View(), sys.log;
    ghost var xs := RemovalWrites(w, env, key.namespace, o.status.roles);
    var failed := RemoveAll(sys, env, key.namespace, o.status.roles);
    if failed || OwnFinalizer !in o.meta.finalizers {
      assert xs + [] == xs;
      return;
    }
    ghost var w1, log1 := sys.View(), sys.log;
    BindingOutlives(w, w1, log, log1, env, key.namespace, o.status.roles);
    sys.ReleaseBinding(key);
    WroteMore(w, w1, sys.View(), log, log1, sys.log, xs, DropBindingFinalizer(key));
  }

  lemma BindingOutlives(w: World, v: World, log: seq<Write>, log1: seq<Write>, env: Env, namespace: string,
                        entries: seq<RoleStatus>)
    requires Wrote(w, v, log, log1, RemovalWrites(w, env, namespace, entries))
    ensures v.bindings == w.bindings
  {
    hide RemovalOf, RemovalWrites, ApplyAll;
    RemovalsKeepInputs(w, env, namespace, entries);
  }

  method ReconcileBinding(sys: System, env: Env, key: Key)
    modifies sys
    ensures Wrote(old(sys.View()), sys.View(), old(sys.log), sys.log, BindingPlan(old(sys.View()), env, key))
  {
    hide Wrote, Apply, ApplyAll, BindingBody, BindingTeardown;
    ghost var w, log := sys.View(), sys.log;
    WroteNothing(w, log);
    if BindingRef(key) in env.faults || key !in sys.bindings || env.mountPrefix.None? {
      return;
    }
    var o := sys.bindings[key];
    if o.meta.deleting {
      FinalizeBinding(sys, env, key, o);
      return;
    }
    if OwnFinalizer in o.meta.finalizers {
      ReconcileLiveBinding(sys, env, key, o);
      assert [] + BindingBody(w, env, key, o) == BindingBody(w, env, key, o);
    } else {
      sys.HoldBinding(key);
      ghost var w1, log1 := sys.View(), sys.log;
      WroteOne(w, w1, log, log1, AddBindingFinalizer(key));
      ReconcileLiveBinding(sys, env, key, o);
      HoldKeepsBindingInputs(w, key);
      BindingBodyFrame(w1, w, env, key, o);
      WroteThen(w, w1, sys.View(), log, log1, sys.log, [AddBindingFinalizer(key)], BindingBody(w, env, key, o));
    }
  }
}
