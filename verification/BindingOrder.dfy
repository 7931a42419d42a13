/** The reference loop computes a function of the collection of references, not of their order. */
module BindingOrder {
  import opened Wrappers
  import opened Conditions
  import opened Backend
  import opened Api
  import opened Plans
  import opened Frames
  import opened BindingEffects
  import opened BindingLoop

  // ---- Permuted lists ---------------------------------------------------------------------------------

  function Mapped<A, B>(f: A -> B, xs: seq<A>): (ys: seq<B>)
    ensures |ys| == |xs| && forall i | 0 <= i < |xs| :: ys[i] == f(xs[i])
  {
    seq(|xs|, i requires 0 <= i < |xs| => f(xs[i]))
  }

  lemma SplitAt<A>(b: seq<A>, j: nat)
    requires j < |b|
    ensures multiset(b) == multiset(b[..j] + b[j + 1..]) + multiset{b[j]}
  {
    assert b == b[..j] + [b[j]] + b[j + 1..];
  }

  lemma MappedSplit<A, B>(f: A -> B, b: seq<A>, j: nat)
    requires j < |b|
    ensures multiset(Mapped(f, b)) == multiset(Mapped(f, b[..j] + b[j + 1..])) + multiset{f(b[j])}
  {
    var ys := Mapped(f, b);
    SplitAt(ys, j);
    assert ys[..j] + ys[j + 1..] == Mapped(f, b[..j] + b[j + 1..]);
  }

  lemma RestPermutes<A>(a: seq<A>, b: seq<A>, j: nat)
    requires multiset(a) == multiset(b) && j < |b| && a != [] && a[0] == b[j]
    ensures multiset(a[1..]) == multiset(b[..j] + b[j + 1..])
  {
    var x, tail, rest := a[0], multiset(a[1..]), multiset(b[..j] + b[j + 1..]);
    SplitAt(b, j);
    assert a == [x] + a[1..];
    assert multiset(a) == tail + multiset{x} && multiset(b) == rest + multiset{x};
    assert tail == multiset(a) - multiset{x} && rest == multiset(b) - multiset{x};
  }

  lemma {:induction false} MappedPermutes<A, B>(f: A -> B, a: seq<A>, b: seq<A>)
    requires multiset(a) == multiset(b)
    ensures multiset(Mapped(f, a)) == multiset(Mapped(f, b))
    decreases |a|
  {
    if a != [] {
      assert a[0] in multiset(b);
      var j :| 0 <= j < |b| && b[j] == a[0];
      var rest := b[..j] + b[j + 1..];
      RestPermutes(a, b, j);
      MappedPermutes(f, a[1..], rest);
      MappedSplit(f, b, j);
      assert Mapped(f, a) == [f(a[0])] + Mapped(f, a[1..]);
    } else {
      assert |multiset(b)| == |b|;
    }
  }

  /** Every outcome of the one list is one of the other. */
  predicate Covers(a: seq<RefOutcome>, b: seq<RefOutcome>) {
    forall i | 0 <= i < |a| :: exists j | 0 <= j < |b| :: a[i] == b[j]
  }

  lemma PermutedCovers(a: seq<RefOutcome>, b: seq<RefOutcome>)
    requires multiset(a) == multiset(b)
    ensures Covers(a, b) && Covers(b, a)
  {
    forall i | 0 <= i < |a| ensures exists j | 0 <= j < |b| :: a[i] == b[j] {
      assert a[i] in multiset(b);
    }
    forall i | 0 <= i < |b| ensures exists j | 0 <= j < |a| :: b[i] == a[j] {
      assert b[i] in multiset(a);
    }
  }

  // ---- The verdicts -------------------------------------------------------------------------------------

  lemma SameVerdicts(a: seq<RefOutcome>, b: seq<RefOutcome>)
    requires Covers(a, b) && Covers(b, a)
    ensures Aborted(a) <==> Aborted(b)
    ensures SomeMissing(a) <==> SomeMissing(b)
    ensures AllPresent(a) <==> AllPresent(b)
    ensures PolicyVerdict(a) == PolicyVerdict(b)
    ensures !Aborted(a) ==> !Aborted(b) && (Blocking(a) == [] <==> Blocking(b) == [])
  {
    hide Covers, Aborted, SomeMissing, SomeChecked, AllPresent, AllKnown, Blocking;
    VerdictsCarry(a, b);
    VerdictsCarry(b, a);
  }

  lemma VerdictsCarry(a: seq<RefOutcome>, b: seq<RefOutcome>)
    requires Covers(a, b)
    ensures Aborted(a) ==> Aborted(b)
    ensures SomeMissing(a) ==> SomeMissing(b)
    ensures SomeChecked(a) ==> SomeChecked(b)
    ensures AllPresent(b) ==> AllPresent(a)
    ensures AllKnown(b) ==> AllKnown(a)
    ensures !Aborted(a) && !Aborted(b) && Blocking(b) == [] ==> Blocking(a) == []
  {
  }

  /** The same kinds, with the same status and reason; messages may list things in another order. */
  ghost predicate SameConditions(a: seq<Condition>, b: seq<Condition>) {
    forall k :: Similar(Find(a, k), Find(b, k))
  }

  predicate Similar(a: Option<Condition>, b: Option<Condition>) {
    && (a.Some? <==> b.Some?)
    && (a.Some? ==> a.value.status == b.value.status && a.value.reason == b.value.reason
                    && a.value.generation == b.value.generation)
  }

  lemma SameNextConditions(cs: seq<Condition>, g: int, policyName: string, a: seq<RefOutcome>, b: seq<RefOutcome>)
    requires Covers(a, b) && Covers(b, a) && !Aborted(a)
    ensures !Aborted(b)
            && SameConditions(BindingConditions(cs, g, policyName, a), BindingConditions(cs, g, policyName, b))
  {
    hide Aborted, AllPresent, Blocking, SomeMissing, PolicyVerdict, Covers;
    SameVerdicts(a, b);
  }

  // ---- The backends ----------------------------------------------------------------------------------------

  lemma SameLast(xs: seq<Write>, ys: seq<Write>, n: string, slot: string)
    requires forall x :: x in xs <==> x in ys
    requires forall x, y | x in xs && y in xs && x.WriteRole? && y.WriteRole? && At(x, n, slot) && At(y, n, slot) ::
               x.role == y.role
    ensures LastAt(xs, n, slot) == LastAt(ys, n, slot)
  {
    hide At;
    LastAtSome(xs, n, slot);
    LastAtSome(ys, n, slot);
  }

  lemma SameLoopMembers(a: seq<RefOutcome>, b: seq<RefOutcome>, x: Write)
    requires Covers(a, b) && !Aborted(b) && x in LoopWrites(a)
    ensures x in LoopWrites(b)
  {
    hide LoopWrites;
    var i := ListedWrite(a, x);
    var j :| 0 <= j < |b| && a[i] == b[j];
    assert x in RoleWriteOf(b[j]);
    EveryRefWrites(b, j);
  }

  lemma OneRolePerPlace(w: World, env: Env, key: Key, x: Write, y: Write, n: string, slot: string)
    requires key in w.bindings && NoClash(OutcomesOf(w, env, key))
    requires x in LoopWrites(OutcomesOf(w, env, key)) && y in LoopWrites(OutcomesOf(w, env, key))
    requires At(x, n, slot) && At(y, n, slot)
    ensures x.WriteRole? && y.WriteRole? && x.role == y.role
  {
    hide OutcomesOf, LoopWrites, Slot, NoClash, BindingRoleName;
    var outs := OutcomesOf(w, env, key);
    OutcomesCount(w, env, key);
    var i := ListedWrite(outs, x);
    var j := ListedWrite(outs, y);
    NamedWrite(w, env, key, i);
    NamedWrite(w, env, key, j);
    assert Slot(x.path, x.role.name) == Slot(y.path, y.role.name);
    SlotOfNames(x.path, x.role.name, y.path, y.role.name);
    NoClashAny(outs, i, j);
  }

  function Reordered(w: World, key: Key, refs: seq<string>): World
    requires key in w.bindings
  {
    w.(bindings := w.bindings[key := w.bindings[key].(spec := w.bindings[key].spec.(refs := refs))])
  }

  lemma OutcomesMapped(w: World, env: Env, key: Key, refs: seq<string>)
    requires key in w.bindings
    ensures var f := (ref: string) => RefOutcomeOf(w, env, key, w.bindings[key].spec, ref);
            && OutcomesOf(w, env, key) == Mapped(f, w.bindings[key].spec.refs)
            && OutcomesOf(Reordered(w, key, refs), env, key) == Mapped(f, refs)
  {
    hide RefOutcomeOf;
    var u, spec := Reordered(w, key, refs), w.bindings[key].spec;
    var f := (ref: string) => RefOutcomeOf(w, env, key, spec, ref);
    forall i | 0 <= i < |refs| ensures OutcomesOf(u, env, key)[i] == f(refs[i]) {
      RefOutcomeFrame(w, u, env, key, spec, refs[i]);
      OtherRefsUnread(u, env, key, spec, refs, refs[i]);
    }
  }

  lemma OtherRefsUnread(w: World, env: Env, key: Key, spec: BindingSpec, refs: seq<string>, ref: string)
    ensures RefOutcomeOf(w, env, key, spec, ref) == RefOutcomeOf(w, env, key, spec.(refs := refs), ref)
  {
    hide BindingRoleName, Reachable, IsTrue, CheckPolicy;
  }

  lemma ReorderedOutcomes(w: World, env: Env, key: Key, refs: seq<string>)
    requires key in w.bindings && multiset(refs) == multiset(w.bindings[key].spec.refs)
    ensures multiset(OutcomesOf(w, env, key)) == multiset(OutcomesOf(Reordered(w, key, refs), env, key))
  {
    hide OutcomesOf, RefOutcomeOf, Mapped;
    OutcomesMapped(w, env, key, refs);
    MappedPermutes((ref: string) => RefOutcomeOf(w, env, key, w.bindings[key].spec, ref), refs,
                   w.bindings[key].spec.refs);
  }

  lemma ReorderedRoles(w: World, env: Env, key: Key, refs: seq<string>, n: string, slot: string)
    requires key in w.bindings && multiset(refs) == multiset(w.bindings[key].spec.refs)
    requires !Aborted(OutcomesOf(w, env, key)) && NoClash(OutcomesOf(w, env, key))
    ensures LastAt(LoopWrites(OutcomesOf(w, env, key)), n, slot)
            == LastAt(LoopWrites(OutcomesOf(Reordered(w, key, refs), env, key)), n, slot)
  {
    hide OutcomesOf, LoopWrites, NoClash, Aborted, At, Covers, LastAt, SomeMissing, AllPresent, PolicyVerdict, Blocking;
    var a, b := OutcomesOf(w, env, key), OutcomesOf(Reordered(w, key, refs), env, key);
    ReorderedOutcomes(w, env, key, refs);
    PermutedCovers(a, b);
    SameVerdicts(a, b);
    forall x | x in LoopWrites(a) || x in LoopWrites(b) ensures x in LoopWrites(a) && x in LoopWrites(b) {
      if x in LoopWrites(a) {
        SameLoopMembers(a, b, x);
      } else {
        SameLoopMembers(b, a, x);
      }
    }
    forall x, y | x in LoopWrites(a) && y in LoopWrites(a) && x.WriteRole? && y.WriteRole? && At(x, n, slot)
           && At(y, n, slot)
      ensures x.role == y.role
    {
      OneRolePerPlace(w, env, key, x, y, n, slot);
    }
    SameLast(LoopWrites(a), LoopWrites(b), n, slot);
  }

  lemma ReorderedBackends(w: World, env: Env, key: Key, refs: seq<string>)
    requires key in w.bindings && multiset(refs) == multiset(w.bindings[key].spec.refs)
    requires !Aborted(OutcomesOf(w, env, key)) && NoClash(OutcomesOf(w, env, key))
    ensures ApplyAll(w, LoopWrites(OutcomesOf(w, env, key))).backends
            == ApplyAll(Reordered(w, key, refs), LoopWrites(OutcomesOf(Reordered(w, key, refs), env, key))).backends
  {
    hide OutcomesOf, LoopWrites, NoClash, Aborted, ApplyAll, LastAt, Lands, OnlyRoles;
    var r := Reordered(w, key, refs);
    var xs, ys := LoopWrites(OutcomesOf(w, env, key)), LoopWrites(OutcomesOf(r, env, key));
    LoopLands(w, env, key);
    LoopLands(r, env, key);
    forall y | y in ys ensures Lands(w, y) {
      SameBackendsLand(r, w, y);
    }
    RoleWritesCommute(w, r.bindings, ys);
    var u, v := ApplyAll(w, xs), ApplyAll(w, ys);
    RolesAfter(w, xs, "", "");
    RolesAfter(w, ys, "", "");
    forall n ensures RolesIn(u, n) == RolesIn(v, n) {
      forall slot ensures (slot in RolesIn(u, n) <==> slot in RolesIn(v, n))
                       && (slot in RolesIn(u, n) ==> RolesIn(u, n)[slot] == RolesIn(v, n)[slot])
      {
        ReorderedRoles(w, env, key, refs, n, slot);
        RolesAfter(w, xs, n, slot);
        RolesAfter(w, ys, n, slot);
      }
    }
    SameRolesSameBackends(w, u, v);
  }

  lemma SameBackendsLand(w: World, v: World, x: Write)
    requires w.backends == v.backends && Lands(w, x)
    ensures Lands(v, x)
  {
  }

  lemma ReorderedStatus(w: World, env: Env, key: Key, refs: seq<string>)
    requires key in w.bindings && multiset(refs) == multiset(w.bindings[key].spec.refs)
             && !Aborted(OutcomesOf(w, env, key))
    ensures var r := Reordered(w, key, refs);
            !Aborted(OutcomesOf(r, env, key)) &&
            var a, b := BindingNext(w.bindings[key], OutcomesOf(w, env, key)),
                        BindingNext(r.bindings[key], OutcomesOf(r, env, key));
            && multiset(a.roles) == multiset(b.roles)
            && a.policyExists == b.policyExists && SameConditions(a.conditions, b.conditions)
  {
    hide OutcomesOf, BindingConditions, PolicyVerdict, Aborted, SameConditions;
    var r := Reordered(w, key, refs);
    var o, a, b := w.bindings[key], OutcomesOf(w, env, key), OutcomesOf(r, env, key);
    ReorderedOutcomes(w, env, key, refs);
    PermutedCovers(a, b);
    SameVerdicts(a, b);
    SameNextConditions(o.status.conditions, o.meta.generation, o.spec.policyName, a, b);
    EntriesPermute(a, b);
  }

  lemma EntriesPermute(a: seq<RefOutcome>, b: seq<RefOutcome>)
    requires multiset(a) == multiset(b) && !Aborted(a) && !Aborted(b)
    ensures multiset(Entries(a)) == multiset(Entries(b))
  {
    var f := (out: RefOutcome) => if out.RefOutcome? then out.entry else RoleStatus("", "", "", false, NoMessage);
    MappedPermutes(f, a, b);
    assert Entries(a) == Mapped(f, a) && Entries(b) == Mapped(f, b);
  }

  /** What a run leaves that may not depend on the order of the references. */
  ghost predicate SameUpToOrder(u: World, v: World, key: Key) {
    && key in u.bindings && key in v.bindings
    && (var a, b := u.bindings[key].status, v.bindings[key].status;
        && multiset(a.roles) == multiset(b.roles)
        && a.policyExists == b.policyExists && SameConditions(a.conditions, b.conditions))
    && u.backends == v.backends
  }

  /**
   Permuting the references permutes the reported roles and leaves PolicyExists, the status and reason
   of every condition, and all backends as they are.
   */
  lemma OrderDoesNotMatter(w: World, env: Env, key: Key, refs: seq<string>)
    requires LiveBinding(w, env, key) && multiset(refs) == multiset(w.bindings[key].spec.refs)
    requires !Aborted(OutcomesOf(w, env, key)) && NoClash(OutcomesOf(w, env, key))
    ensures SameUpToOrder(Reconcile(w, env, BindingRef(key)), Reconcile(Reordered(w, key, refs), env, BindingRef(key)),
                          key)
  {
    hide OutcomesOf, Reconcile, LoopWrites, NoClash, Aborted, ApplyAll, BindingNext, SameConditions, Held;
    LiveBindingResult(w, env, key);
    LiveBindingResult(Reordered(w, key, refs), env, key);
    ReorderedBackends(w, env, key, refs);
    ReorderedStatus(w, env, key, refs);
  }
}
