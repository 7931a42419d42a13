/** The outcome of the reference loop: its aggregation, what is in the backends after it, its independence of order. */
module BindingLoop {
  import opened Wrappers
  import opened Naming
  import opened Conditions
  import opened Backend
  import opened Api
  import opened Plans
  import opened Frames
  import opened BindingEffects

  // ---- Aggregation is exact ----------------------------------------------------------------------------

  lemma AtBackendShape(env: Env, spec: BindingSpec, ref: string, roleName: string, trust: Trust, subject: string,
                       b: State)
    ensures OutcomeMade(RefAtBackend(env, spec, ref, roleName, trust, subject, b), ref, roleName)
  {
    hide BoundRole, CheckPolicy;
  }

  /** What the outcome of one reference is made of. */
  predicate OutcomeMade(out: RefOutcome, ref: string, roleName: string) {
    out.RefOutcome? ==>
      && out.entry.ref == ref && out.entry.roleName == roleName
      && (out.entry.ready ==> out.write.Some?)
      && (out.blocking == [] <==> out.entry.ready && out.check != CheckFailed)
      && (out.check == CheckMissing ==> out.blocking != [])
      && (out.write.Some? ==> out.entry.authMountPath == out.write.value.mount)
  }

  lemma OutcomeShape(w: World, env: Env, key: Key, spec: BindingSpec, ref: string)
    ensures OutcomeMade(RefOutcomeOf(w, env, key, spec, ref), ref, BindingRoleName(env, key, ref))
  {
    hide BindingRoleName, RefAtBackend, Reachable, IsTrue;
    forall trust, subject, b
      ensures OutcomeMade(RefAtBackend(env, spec, ref, BindingRoleName(env, key, ref), trust, subject, b),
                                                 ref, BindingRoleName(env, key, ref))
    {
      AtBackendShape(env, spec, ref, BindingRoleName(env, key, ref), trust, subject, b);
    }
  }

  lemma OutcomeShapes(w: World, env: Env, key: Key, i: nat)
    requires key in w.bindings && !Aborted(OutcomesOf(w, env, key)) && i < |w.bindings[key].spec.refs|
    ensures var out := OutcomesOf(w, env, key)[i];
            && out.RefOutcome? && out.entry.ref == w.bindings[key].spec.refs[i]
            && out.entry.roleName == BindingRoleName(env, key, out.entry.ref)
            && (out.entry.ready ==> out.write.Some?)
            && (out.blocking == [] <==> out.entry.ready && out.check != CheckFailed)
            && (out.check == CheckMissing ==> out.blocking != [])
            && (out.write.Some? ==> out.entry.authMountPath == out.write.value.mount)
  {
    hide RefOutcomeOf;
    OutcomeShape(w, env, key, w.bindings[key].spec, w.bindings[key].spec.refs[i]);
  }

  lemma ReadyIs(o: Binding, outs: seq<RefOutcome>)
    requires !Aborted(outs)
    ensures IsTrue(BindingNext(o, outs).conditions, Ready) <==> AllPresent(outs) && Blocking(outs) == []
    ensures Find(BindingNext(o, outs).conditions, PolicyResolved) ==
            Some(PolicyCondition(PolicyVerdict(outs), o.spec.policyName, o.meta.generation))
  {
    hide Aborted, AllPresent, Blocking, SomeMissing, PolicyVerdict;
  }

  /**
   One entry per reference, in order; Ready is True exactly when every entry is ready and no policy
   check failed; PolicyExists is True exactly when a check ran and every check that ran found the policy.
   */
  predicate Aggregates(st: BindingStatus, refs: seq<string>, outs: seq<RefOutcome>)
    requires |outs| == |refs| && !Aborted(outs)
  {
    && |st.roles| == |refs|
    && (forall i | 0 <= i < |refs| :: st.roles[i].ref == refs[i] && st.roles[i] == outs[i].entry)
    && (IsTrue(st.conditions, Ready) <==>
        forall i | 0 <= i < |refs| :: st.roles[i].ready && outs[i].check != CheckFailed)
    && (st.policyExists == Yes <==>
        && (exists i | 0 <= i < |refs| :: outs[i].check != NotChecked)
        && (forall i | 0 <= i < |refs| :: outs[i].check == NotChecked || outs[i].check == CheckPresent))
    && (IsTrue(st.conditions, PolicyResolved) <==> st.policyExists == Yes)
  }

  lemma VerdictIs(outs: seq<RefOutcome>)
    requires !Aborted(outs)
    ensures PolicyVerdict(outs) == Yes <==>
            && (exists i | 0 <= i < |outs| :: outs[i].check != NotChecked)
            && (forall i | 0 <= i < |outs| :: outs[i].check == NotChecked || outs[i].check == CheckPresent)
  {
    assert forall i | 0 <= i < |outs| :: outs[i].RefOutcome?;
  }

  /** Nothing blocks and nothing is missing exactly when all is ready and no check failed. */
  lemma NothingBlocks(outs: seq<RefOutcome>)
    requires !Aborted(outs)
    requires forall i | 0 <= i < |outs| ::
               && (outs[i].blocking == [] <==> outs[i].entry.ready && outs[i].check != CheckFailed)
               && (outs[i].check == CheckMissing ==> outs[i].blocking != [])
    ensures AllPresent(outs) && Blocking(outs) == [] <==>
            forall i | 0 <= i < |outs| :: outs[i].entry.ready && outs[i].check != CheckFailed
  {
    assert forall i | 0 <= i < |outs| :: outs[i].RefOutcome?;
  }

  lemma NextAggregates(w: World, env: Env, key: Key)
    requires key in w.bindings && !Aborted(OutcomesOf(w, env, key))
    ensures Aggregates(BindingNext(w.bindings[key], OutcomesOf(w, env, key)), w.bindings[key].spec.refs,
                       OutcomesOf(w, env, key))
  {
    hide OutcomesOf, BindingConditions, AllPresent, Blocking, PolicyVerdict, PolicyCondition, Aborted;
    var o, outs := w.bindings[key], OutcomesOf(w, env, key);
    OutcomesCount(w, env, key);
    ReadyIs(o, outs);
    VerdictIs(outs);
    VerdictShows(PolicyVerdict(outs), o.spec.policyName, o.meta.generation);
    forall i | 0 <= i < |o.spec.refs|
      ensures outs[i].RefOutcome? && outs[i].entry.ref == o.spec.refs[i]
      ensures outs[i].blocking == [] <==> outs[i].entry.ready && outs[i].check != CheckFailed
      ensures outs[i].check == CheckMissing ==> outs[i].blocking != []
    {
      OutcomeShapes(w, env, key, i);
    }
    NothingBlocks(outs);
  }

  lemma VerdictShows(verdict: Status, policyName: string, g: int)
    ensures PolicyCondition(verdict, policyName, g).kind == PolicyResolved
    ensures PolicyCondition(verdict, policyName, g).status == verdict
  {
  }

  lemma OutcomesCount(w: World, env: Env, key: Key)
    requires key in w.bindings
    ensures |OutcomesOf(w, env, key)| == |w.bindings[key].spec.refs|
  {
  }

  /** What a run of the loop to its end persists aggregates its outcomes exactly. */
  lemma LoopAggregates(w: World, env: Env, key: Key)
    requires LiveBinding(w, env, key) && !Aborted(OutcomesOf(w, env, key))
    ensures var v := Reconcile(w, env, BindingRef(key));
            key in v.bindings && Aggregates(v.bindings[key].status, w.bindings[key].spec.refs, OutcomesOf(w, env, key))
  {
    hide Reconcile, OutcomesOf, BindingNext, Aggregates, ApplyAll, Held;
    LiveBindingResult(w, env, key);
    NextAggregates(w, env, key);
  }

  /** With non-empty error texts, Ready is True exactly when every entry is ready. */
  lemma ReadyIffEveryEntryReady(w: World, env: Env, key: Key)
    requires LiveBinding(w, env, key) && !Aborted(OutcomesOf(w, env, key))
    requires forall n | CallPolicy(n) in env.callErrors :: env.callErrors[CallPolicy(n)] != ""
    ensures var v := Reconcile(w, env, BindingRef(key));
            key in v.bindings && (IsTrue(v.bindings[key].status.conditions, Ready) <==>
                                  forall i | 0 <= i < |v.bindings[key].status.roles| ::
                                           v.bindings[key].status.roles[i].ready)
  {
    hide Reconcile, OutcomesOf;
    OutcomesCount(w, env, key);
    LoopAggregates(w, env, key);
    forall i | 0 <= i < |w.bindings[key].spec.refs| && OutcomesOf(w, env, key)[i].RefOutcome?
      ensures OutcomesOf(w, env, key)[i].check == CheckFailed ==> !OutcomesOf(w, env, key)[i].entry.ready
    {
      FailedCheckShows(w, env, key, i);
    }
    forall i | 0 <= i < |w.bindings[key].spec.refs| ensures OutcomesOf(w, env, key)[i].RefOutcome? {
    }
  }

  lemma FailedCheckShows(w: World, env: Env, key: Key, i: nat)
    requires key in w.bindings && i < |w.bindings[key].spec.refs|
    requires forall n | CallPolicy(n) in env.callErrors :: env.callErrors[CallPolicy(n)] != ""
    ensures var outs := OutcomesOf(w, env, key);
            i < |outs| && (outs[i].RefOutcome? && outs[i].check == CheckFailed ==> !outs[i].entry.ready)
  {
    hide BindingRoleName, BoundRole, Reachable, IsTrue, CheckPolicy, Client;
  }

  /**
   The reference gets through to a backend: its entity and that one's trust are there and usable, the
   trust's instance is there and reachable, and a client for it comes up.
   */
  predicate Through(w: World, env: Env, key: Key, ref: string) {
    var e := Key(key.namespace, ref);
    && e in w.entities && EntityRef(e) !in env.faults && EntityUsable(w.entities[e])
    && (var t := Key(key.namespace, w.entities[e].spec.trust);
        && t in w.trusts && TrustRef(t) !in env.faults && TrustUsable(w.trusts[t])
        && (var n := w.trusts[t].status.resolved;
            n in w.instances && InstanceRef(n) !in env.faults && Reachable(w.instances[n])
              && Client(w, env, n).Success?))
  }

  function TrustFor(w: World, env: Env, key: Key, ref: string): Trust
    requires Through(w, env, key, ref)
  {
    w.trusts[Key(key.namespace, w.entities[Key(key.namespace, ref)].spec.trust)]
  }

  /** It gets through, and its role call is answered. */
  predicate Bindable(w: World, env: Env, key: Key, ref: string) {
    && Through(w, env, key, ref)
    && (var n, mount := TrustFor(w, env, key, ref).status.resolved, TrustFor(w, env, key, ref).status.authMountPath;
        && mount in Client(w, env, n).value.mounts
        && CallRole(n, mount, BindingRoleName(env, key, ref)) !in env.callErrors)
  }

  /** The policy check of the reference fails with an empty error text. */
  predicate FailsSilently(w: World, env: Env, key: Key, ref: string)
    requires Through(w, env, key, ref)
  {
    var call := CallPolicy(TrustFor(w, env, key, ref).status.resolved);
    call in env.callErrors && env.callErrors[call] == ""
  }

  /** The policy check of the reference is answered, and does not find the policy missing. */
  predicate PolicyPasses(w: World, env: Env, key: Key, policyName: string, ref: string)
    requires Through(w, env, key, ref)
  {
    var n := TrustFor(w, env, key, ref).status.resolved;
    var b := Client(w, env, n).value;
    CallPolicy(n) !in env.callErrors && (b.policiesUnknown || policyName in b.policies)
  }

  lemma ThroughOutcome(w: World, env: Env, key: Key, spec: BindingSpec, ref: string)
    requires Through(w, env, key, ref)
    ensures var t, n := TrustFor(w, env, key, ref), TrustFor(w, env, key, ref).status.resolved;
            RefOutcomeOf(w, env, key, spec, ref)
            == RefAtBackend(env, spec, ref, BindingRoleName(env, key, ref), t,
                            w.entities[Key(key.namespace, ref)].status.identity.value.subject, Client(w, env, n).value)
  {
    hide RefAtBackend, BindingRoleName, Reachable, Client, IsTrue;
  }

  /** A reference that does not get through has an entry that is not ready, or ends the run. */
  lemma StoppedOutcome(w: World, env: Env, key: Key, spec: BindingSpec, ref: string)
    requires !Through(w, env, key, ref)
    ensures var out := RefOutcomeOf(w, env, key, spec, ref);
            out.RefOutcome? ==> !out.entry.ready && out.write.None?
  {
    hide RefAtBackend, BindingRoleName, Reachable, Client, EntityUsable, TrustUsable;
  }

  /** What makes an entry ready, whether or not its check went well. */
  predicate EntryReady(w: World, env: Env, key: Key, policyName: string, ref: string) {
    && Bindable(w, env, key, ref)
    && (FailsSilently(w, env, key, ref) || PolicyPasses(w, env, key, policyName, ref))
  }

  lemma EntryReadyIff(w: World, env: Env, key: Key, spec: BindingSpec, ref: string)
    requires RefOutcomeOf(w, env, key, spec, ref).RefOutcome?
    ensures var out := RefOutcomeOf(w, env, key, spec, ref);
            && (out.entry.ready <==> EntryReady(w, env, key, spec.policyName, ref))
            && (out.entry.ready ==>
                  Through(w, env, key, ref) && (out.check == CheckFailed <==> FailsSilently(w, env, key, ref)))
  {
    hide RefOutcomeOf, BindingRoleName, Client, Through, TrustFor, BoundRole;
    if Through(w, env, key, ref) {
      ThroughOutcome(w, env, key, spec, ref);
    } else {
      StoppedOutcome(w, env, key, spec, ref);
    }
  }

  lemma EntriesReadyIff(w: World, env: Env, key: Key)
    requires key in w.bindings && !Aborted(OutcomesOf(w, env, key))
    ensures var outs, spec := OutcomesOf(w, env, key), w.bindings[key].spec;
            forall i | 0 <= i < |spec.refs| ::
              && (outs[i].entry.ready <==> EntryReady(w, env, key, spec.policyName, spec.refs[i]))
              && (outs[i].entry.ready ==> Through(w, env, key, spec.refs[i])
                                          && (outs[i].check == CheckFailed
                                              <==> FailsSilently(w, env, key, spec.refs[i])))
  {
    hide RefOutcomeOf, Through, FailsSilently, EntryReady;
    var spec := w.bindings[key].spec;
    forall i | 0 <= i < |spec.refs|
      ensures var out := OutcomesOf(w, env, key)[i];
              && (out.entry.ready <==> EntryReady(w, env, key, spec.policyName, spec.refs[i]))
              && (out.entry.ready ==> Through(w, env, key, spec.refs[i])
                                      && (out.check == CheckFailed <==> FailsSilently(w, env, key, spec.refs[i])))
    {
      assert OutcomesOf(w, env, key)[i].RefOutcome?;
      EntryReadyIff(w, env, key, spec, spec.refs[i]);
    }
  }

  /**
   A reconcile ends with every entry ready and Ready not True exactly when every reference gets its role,
   some policy check fails with an empty text and every other one passes: the text is all an entry keeps
   of a failed check.
   */
  lemma EmptyTextHidesFailure(w: World, env: Env, key: Key)
    requires LiveBinding(w, env, key) && !Aborted(OutcomesOf(w, env, key))
    ensures var v, spec := Reconcile(w, env, BindingRef(key)), w.bindings[key].spec;
            key in v.bindings &&
            ((forall i | 0 <= i < |v.bindings[key].status.roles| :: v.bindings[key].status.roles[i].ready)
             && !IsTrue(v.bindings[key].status.conditions, Ready)
             <==>
             && (forall ref | ref in spec.refs :: EntryReady(w, env, key, spec.policyName, ref))
             && (exists ref | ref in spec.refs :: Through(w, env, key, ref) && FailsSilently(w, env, key, ref)))
  {
    hide Reconcile, OutcomesOf, EntryReady, Through, FailsSilently, IsTrue;
    EntriesReadyIff(w, env, key);
    OutcomesCount(w, env, key);
    LoopAggregates(w, env, key);
  }

  // ---- What is in the backends ------------------------------------------------------------------------------

  /** Role names hold no slash, so a flat key determines mount and name. */
  lemma SlotOfNames(m1: string, n1: string, m2: string, n2: string)
    requires '/' !in n1 && '/' !in n2
    ensures Slot(m1, n1) == Slot(m2, n2) <==> m1 == m2 && n1 == n2
  {
    var k, l := Slot(m1, n1), Slot(m2, n2);
    assert k[|m1|] == '/' && l[|m2|] == '/';
    if k == l {
      assert forall i | |m1| < i < |k| :: k[i] == n1[i - |m1| - 1];
      assert forall i | |m2| < i < |l| :: l[i] == n2[i - |m2| - 1];
      assert |m1| == |m2|;
      assert m1 == k[..|m1|] && m2 == l[..|m2|] && n1 == k[|m1| + 1..] && n2 == l[|m2| + 1..];
    }
  }

  /** The written role is in its place. */
  predicate InPlace(v: World, x: RoleWrite) {
    var key := Slot(x.mount, x.role.name);
    key in RolesIn(v, x.instance) && RolesIn(v, x.instance)[key] == x.role
  }

  predicate SamePlace(x: RoleWrite, y: RoleWrite) {
    x.instance == y.instance && x.mount == y.mount && x.role.name == y.role.name
  }

  predicate Agree(outs: seq<RefOutcome>, i: nat, j: nat)
    requires i < |outs| && j < |outs|
  {
    (&& outs[i].RefOutcome? && outs[i].write.Some? && outs[j].RefOutcome? && outs[j].write.Some?
     && SamePlace(outs[i].write.value, outs[j].write.value))
    ==> outs[i].write.value == outs[j].write.value
  }

  /** No two references write different roles to one place. */
  predicate NoClash(outs: seq<RefOutcome>) {
    forall i, j | 0 <= i < j < |outs| :: Agree(outs, i, j)
  }

  lemma WriteShape(w: World, env: Env, key: Key, spec: BindingSpec, ref: string)
    ensures var out := RefOutcomeOf(w, env, key, spec, ref);
            out.RefOutcome? && out.write.Some? ==>
              var e := Key(key.namespace, ref);
              && e in w.entities && EntityUsable(w.entities[e])
              && (var t := Key(key.namespace, w.entities[e].spec.trust);
                  && t in w.trusts && TrustUsable(w.trusts[t])
                  && out.write.value == RoleWrite(w.trusts[t].status.resolved, w.trusts[t].status.authMountPath,
                                                  BoundRole(spec, BindingRoleName(env, key, ref),
                                                            w.entities[e].status.identity.value.subject,
                                                            w.trusts[t].status.audience)))
  {
    hide BindingRoleName, BoundRole, Reachable, IsTrue, CheckOf, CheckMessage, IsEmpty;
  }

  lemma WrittenName(w: World, env: Env, key: Key, spec: BindingSpec, ref: string)
    ensures var out := RefOutcomeOf(w, env, key, spec, ref);
            out.RefOutcome? && out.write.Some? ==>
              '/' !in out.write.value.role.name && out.write.value.role.name == BindingRoleName(env, key, ref)
  {
    hide RefOutcomeOf, RoleName, EntityUsable, TrustUsable;
    WriteShape(w, env, key, spec, ref);
    RoleNameIsName(env.sha, key.namespace, key.name + "-" + ref);
  }

  /** The list position of each write. */
  lemma WriteListed(w: World, env: Env, key: Key, i: nat)
    requires key in w.bindings && !Aborted(OutcomesOf(w, env, key)) && i < |OutcomesOf(w, env, key)|
    requires OutcomesOf(w, env, key)[i].write.Some?
    ensures var x := OutcomesOf(w, env, key)[i].write.value;
            && WriteRole(x.instance, x.mount, x.role) in LoopWrites(OutcomesOf(w, env, key))
            && '/' !in x.role.name
  {
    hide Outcomes, LoopWrites;
    OutcomesCount(w, env, key);
    var outs, spec := OutcomesOf(w, env, key), w.bindings[key].spec;
    var x := outs[i].write.value;
    assert WriteRole(x.instance, x.mount, x.role) in RoleWriteOf(outs[i]);
    EveryRefWrites(outs, i);
    NamedWrite(w, env, key, i);
  }

  lemma NamedWrite(w: World, env: Env, key: Key, i: nat)
    requires key in w.bindings && i < |w.bindings[key].spec.refs|
    ensures var outs := OutcomesOf(w, env, key);
            i < |outs| && (outs[i].RefOutcome? && outs[i].write.Some? ==>
              '/' !in outs[i].write.value.role.name
              && outs[i].write.value.role.name == BindingRoleName(env, key, w.bindings[key].spec.refs[i]))
  {
    hide RefOutcomeOf, BindingRoleName;
    WrittenName(w, env, key, w.bindings[key].spec, w.bindings[key].spec.refs[i]);
  }

  /** And each listed write is one reference's. */
  lemma ListedWrite(outs: seq<RefOutcome>, x: Write) returns (i: nat)
    requires x in LoopWrites(outs)
    ensures x.WriteRole? && i < |outs| && outs[i].RefOutcome?
            && outs[i].write == Some(RoleWrite(x.backend, x.path, x.role))
  {
    hide LoopWrites;
    LoopWritesAreRoles(outs, x);
    i :| 0 <= i < |outs| && RoleWriteOf(outs[i]) == [x];
  }

  lemma NoClashAny(outs: seq<RefOutcome>, i: nat, j: nat)
    requires NoClash(outs) && i < |outs| && j < |outs|
    ensures Agree(outs, i, j)
  {
    if i < j {
      assert Agree(outs, i, j);
    } else if j < i {
      assert Agree(outs, j, i);
    }
  }

  lemma SameRoleThere(w: World, env: Env, key: Key, i: nat, x: Write)
    requires key in w.bindings && !Aborted(OutcomesOf(w, env, key)) && i < |OutcomesOf(w, env, key)|
    requires OutcomesOf(w, env, key)[i].write.Some? && NoClash(OutcomesOf(w, env, key))
    requires x in LoopWrites(OutcomesOf(w, env, key))
    requires var y := OutcomesOf(w, env, key)[i].write.value; At(x, y.instance, Slot(y.mount, y.role.name))
    ensures x.WriteRole? && x.role == OutcomesOf(w, env, key)[i].write.value.role
  {
    hide OutcomesOf, LoopWrites, Slot, NoClash, BindingRoleName;
    var outs := OutcomesOf(w, env, key);
    OutcomesCount(w, env, key);
    var j := ListedWrite(outs, x);
    NamedWrite(w, env, key, i);
    NamedWrite(w, env, key, j);
    var y := outs[i].write.value;
    assert Slot(x.path, x.role.name) == Slot(y.mount, y.role.name);
    SlotOfNames(x.path, x.role.name, y.mount, y.role.name);
    NoClashAny(outs, i, j);
  }

  lemma NoClashInPlace(w: World, env: Env, key: Key, i: nat)
    requires key in w.bindings && !Aborted(OutcomesOf(w, env, key)) && i < |OutcomesOf(w, env, key)|
    requires OutcomesOf(w, env, key)[i].write.Some? && NoClash(OutcomesOf(w, env, key))
    ensures InPlace(ApplyAll(w, LoopWrites(OutcomesOf(w, env, key))), OutcomesOf(w, env, key)[i].write.value)
  {
    hide OutcomesOf, LoopWrites, Slot, ApplyAll, RolesIn, At, NoClash, Lands, LastAt;
    var outs := OutcomesOf(w, env, key);
    var y := outs[i].write.value;
    var xs, slot := LoopWrites(outs), Slot(y.mount, y.role.name);
    LoopLands(w, env, key);
    RolesAfter(w, xs, y.instance, slot);
    LastAtSome(xs, y.instance, slot);
    WriteListed(w, env, key, i);
    AtItself(y);
    var x :| x in xs && x.WriteRole? && At(x, y.instance, slot) && Some(x.role) == LastAt(xs, y.instance, slot);
    SameRoleThere(w, env, key, i, x);
  }

  lemma AtItself(y: RoleWrite)
    ensures At(WriteRole(y.instance, y.mount, y.role), y.instance, Slot(y.mount, y.role.name))
  {
  }

  predicate AllInPlace(v: World, outs: seq<RefOutcome>) {
    forall i | 0 <= i < |outs| && outs[i].RefOutcome? && outs[i].write.Some? :: InPlace(v, outs[i].write.value)
  }

  lemma ClashMissing(v: World, outs: seq<RefOutcome>)
    requires AllInPlace(v, outs)
    ensures NoClash(outs)
  {
    hide Slot, RolesIn;
    forall i, j | 0 <= i < j < |outs| ensures Agree(outs, i, j) {
      if outs[i].RefOutcome? && outs[i].write.Some? && outs[j].RefOutcome? && outs[j].write.Some? {
        assert InPlace(v, outs[i].write.value) && InPlace(v, outs[j].write.value);
      }
    }
  }

  /**
   After the loop every written role is in its place at once, exactly when no two references write
   different roles to one place.
   */
  lemma AllInPlaceIffNoClash(w: World, env: Env, key: Key)
    requires LiveBinding(w, env, key) && !Aborted(OutcomesOf(w, env, key))
    ensures AllInPlace(Reconcile(w, env, BindingRef(key)), OutcomesOf(w, env, key))
            <==> NoClash(OutcomesOf(w, env, key))
  {
    hide OutcomesOf, LoopWrites, ApplyAll, NoClash, Reconcile, InPlace, BindingAfter;
    LiveBindingResult(w, env, key);
    var outs, v, u := OutcomesOf(w, env, key), Reconcile(w, env, BindingRef(key)),
                      ApplyAll(w, LoopWrites(OutcomesOf(w, env, key)));
    if NoClash(outs) {
      forall i | 0 <= i < |outs| && outs[i].RefOutcome? && outs[i].write.Some? ensures InPlace(v, outs[i].write.value) {
        NoClashInPlace(w, env, key, i);
        SameRolesInPlace(u, v, outs[i].write.value);
      }
    }
    if AllInPlace(v, outs) {
      ClashMissing(v, outs);
    }
  }

  lemma SameRolesInPlace(u: World, v: World, x: RoleWrite)
    requires u.backends == v.backends && InPlace(u, x)
    ensures InPlace(v, x)
  {
  }

  /** DNS-label names, references listed once, and hash prefixes that do not collide. */
  ghost predicate NamesDistinct(env: Env, key: Key, refs: seq<string>) {
    && Label(key.namespace) && Label(key.name)
    && (forall i | 0 <= i < |refs| :: Label(refs[i]))
    && (forall i, j | 0 <= i < j < |refs| :: refs[i] != refs[j])
    && (forall i, j | 0 <= i < j < |refs| ::
          CollisionFree(env.sha, {RoleFull(key.namespace, key.name + "-" + refs[i]),
                                  RoleFull(key.namespace, key.name + "-" + refs[j])}))
  }

  lemma DistinctRoleNames(env: Env, key: Key, refs: seq<string>, i: nat, j: nat)
    requires NamesDistinct(env, key, refs) && i < j < |refs|
    ensures BindingRoleName(env, key, refs[i]) != BindingRoleName(env, key, refs[j])
  {
    hide RoleName, CollisionFree, RoleFull, Label;
    var a, b := key.name + "-" + refs[i], key.name + "-" + refs[j];
    LabelJoin(key.name, refs[i]);
    LabelJoin(key.name, refs[j]);
    RoleNamesSeparate(env.sha, key.namespace, a, b);
    JoinCancels(key.name, refs[i], refs[j]);
  }

  lemma JoinCancels(p: string, a: string, b: string)
    ensures p + "-" + a == p + "-" + b <==> a == b
  {
    var x, y := p + "-" + a, p + "-" + b;
    assert x[|p| + 1..] == a && y[|p| + 1..] == b;
  }

  lemma DistinctNamesNoClash(w: World, env: Env, key: Key)
    requires key in w.bindings && NamesDistinct(env, key, w.bindings[key].spec.refs)
    ensures NoClash(OutcomesOf(w, env, key))
  {
    hide OutcomesOf, NamesDistinct, BindingRoleName;
    var outs, refs := OutcomesOf(w, env, key), w.bindings[key].spec.refs;
    OutcomesCount(w, env, key);
    forall i, j | 0 <= i < j < |outs| ensures Agree(outs, i, j) {
      DistinctRoleNames(env, key, refs, i, j);
      NamedWrite(w, env, key, i);
      NamedWrite(w, env, key, j);
    }
  }

  /** A role for the reference is where its trust says, with the entity's subject and the trust's audience. */
  predicate BoundFor(w: World, v: World, env: Env, key: Key, policyName: string, ref: string) {
    var e := Key(key.namespace, ref);
    && e in w.entities && w.entities[e].status.identity.Some?
    && (var t := Key(key.namespace, w.entities[e].spec.trust);
        && t in w.trusts
        && (var slot := Slot(w.trusts[t].status.authMountPath, BindingRoleName(env, key, ref));
            var roles := RolesIn(v, w.trusts[t].status.resolved);
            && slot in roles
            && roles[slot].boundSubject == w.entities[e].status.identity.value.subject != ""
            && roles[slot].boundAudiences == [w.trusts[t].status.audience]
            && roles[slot].tokenPolicies == [policyName]))
  }

  lemma InPlaceIsBound(w: World, v: World, env: Env, key: Key, i: nat)
    requires key in w.bindings && i < |OutcomesOf(w, env, key)| && OutcomesOf(w, env, key)[i].RefOutcome?
    requires OutcomesOf(w, env, key)[i].write.Some? && InPlace(v, OutcomesOf(w, env, key)[i].write.value)
    ensures i < |w.bindings[key].spec.refs|
    ensures BoundFor(w, v, env, key, w.bindings[key].spec.policyName, w.bindings[key].spec.refs[i])
  {
    hide RefOutcomeOf, BindingRoleName, TrustUsable, RolesIn, Slot, IsTrue;
    WriteShape(w, env, key, w.bindings[key].spec, w.bindings[key].spec.refs[i]);
  }

  /**
   Ready means configured: a run that ends Ready has left, for every listed reference at once, its role
   with its own subject, its trust's audience and exactly the binding's policy.
   */
  lemma ReadyMeansConfigured(w: World, env: Env, key: Key)
    requires LiveBinding(w, env, key) && !Aborted(OutcomesOf(w, env, key))
    requires NamesDistinct(env, key, w.bindings[key].spec.refs)
    requires key in Reconcile(w, env, BindingRef(key)).bindings
    requires IsTrue(Reconcile(w, env, BindingRef(key)).bindings[key].status.conditions, Ready)
    ensures forall i | 0 <= i < |w.bindings[key].spec.refs| ::
              BoundFor(w, Reconcile(w, env, BindingRef(key)), env, key, w.bindings[key].spec.policyName,
                       w.bindings[key].spec.refs[i])
  {
    hide OutcomesOf, Reconcile, NoClash, NamesDistinct, InPlace, BoundFor;
    OutcomesCount(w, env, key);
    LoopAggregates(w, env, key);
    DistinctNamesNoClash(w, env, key);
    AllInPlaceIffNoClash(w, env, key);
    forall i | 0 <= i < |w.bindings[key].spec.refs|
      ensures BoundFor(w, Reconcile(w, env, BindingRef(key)), env, key, w.bindings[key].spec.policyName,
                       w.bindings[key].spec.refs[i])
    {
      OutcomeShapes(w, env, key, i);
      InPlaceIsBound(w, Reconcile(w, env, BindingRef(key)), env, key, i);
    }
  }

  /** A binding's run changes nothing but roles at its own names, and its own finalizer and status. */
  lemma OnlyOwnRolesChange(w: World, env: Env, key: Key, n: string, slot: string)
    requires LiveBinding(w, env, key)
    requires forall ref, m | ref in w.bindings[key].spec.refs :: slot != Slot(m, BindingRoleName(env, key, ref))
    ensures var v := Reconcile(w, env, BindingRef(key));
            && OnlyRoles(w.(bindings := v.bindings), v)
            && (slot in RolesIn(v, n) <==> slot in RolesIn(w, n))
            && (slot in RolesIn(v, n) ==> RolesIn(v, n)[slot] == RolesIn(w, n)[slot])
            && v.bindings.Keys == w.bindings.Keys
            && (forall k | k in w.bindings && k != key :: v.bindings[k] == w.bindings[k])
  {
    hide OutcomesOf, Reconcile, LoopWrites, ApplyAll, Lands, LastAt, Slot, BindingRoleName, BindingAfter;
    LiveBindingResult(w, env, key);
    LoopLands(w, env, key);
    var outs := OutcomesOf(w, env, key);
    OutcomesCount(w, env, key);
    RolesAfter(w, LoopWrites(outs), n, slot);
    LastAtSome(LoopWrites(outs), n, slot);
    forall x | x in LoopWrites(outs) ensures !At(x, n, slot) {
      var i := ListedWrite(outs, x);
      NamedWrite(w, env, key, i);
      assert w.bindings[key].spec.refs[i] in w.bindings[key].spec.refs;
    }
  }

  /**
   Without the label names it fails: of two references that differ in a dot for a dash, on one trust,
   with different subjects, only one can have its role.
   */
  lemma DottedReferencesClash(w: World, env: Env, key: Key, x: string, y: string, i: nat, j: nat)
    requires LiveBinding(w, env, key) && !Aborted(OutcomesOf(w, env, key))
    requires Label(key.namespace) && Label(key.name) && Label(x) && Label(y)
    requires i < j < |w.bindings[key].spec.refs|
    requires w.bindings[key].spec.refs[i] == x + "." + y && w.bindings[key].spec.refs[j] == x + "-" + y
    requires var outs := OutcomesOf(w, env, key);
             && j < |outs| && outs[i].write.Some? && outs[j].write.Some?
             && outs[i].write.value.instance == outs[j].write.value.instance
             && outs[i].write.value.mount == outs[j].write.value.mount
             && outs[i].write.value.role.boundSubject != outs[j].write.value.role.boundSubject
    ensures !AllInPlace(Reconcile(w, env, BindingRef(key)), OutcomesOf(w, env, key))
  {
    hide OutcomesOf, RoleName, Label, Reconcile, AllInPlace;
    AllInPlaceIffNoClash(w, env, key);
    NamedWrite(w, env, key, i);
    NamedWrite(w, env, key, j);
    LabelJoin(key.name, x);
    assert key.name + "-" + (x + "." + y) == (key.name + "-" + x) + "." + y;
    assert key.name + "-" + (x + "-" + y) == (key.name + "-" + x) + "-" + y;
    DotMeetsDash(env.sha, key.namespace, key.name + "-" + x, y);
    assert !Agree(OutcomesOf(w, env, key), i, j);
  }
}
