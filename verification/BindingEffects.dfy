/** What the role writes and removals of a binding do to the backends, as a function of the list. */
module BindingEffects {
  import opened Wrappers
  import opened Naming
  import opened Conditions
  import opened Backend
  import opened Api
  import opened Plans
  import opened Frames
  import opened BindingReconciler

  // ---- Role writes -----------------------------------------------------------------------------------

  function RolesIn(w: World, n: string): map<string, JWTRole> {
    if n in w.backends then w.backends[n].roles else map[]
  }

  /** The write finds its mount. */
  predicate Lands(w: World, x: Write) {
    x.WriteRole? && x.backend in w.backends && x.path in w.backends[x.backend].mounts
  }

  predicate At(x: Write, n: string, key: string) {
    || (x.WriteRole? && x.backend == n && Slot(x.path, x.role.name) == key)
    || (x.RemoveRole? && x.backend == n && Slot(x.path, x.name) == key)
  }

  /** The role the last write to the slot leaves there. */
  function LastAt(xs: seq<Write>, n: string, key: string): Option<JWTRole> {
    if xs == [] then None
    else if xs[|xs| - 1].WriteRole? && At(xs[|xs| - 1], n, key) then Some(xs[|xs| - 1].role)
    else LastAt(xs[..|xs| - 1], n, key)
  }

  /** The worlds differ in roles of backends only. */
  predicate OnlyRoles(w: World, v: World) {
    && v == w.(backends := v.backends)
    && v.backends.Keys == w.backends.Keys
    && (forall n | n in w.backends :: v.backends[n] == w.backends[n].(roles := v.backends[n].roles))
  }

  lemma OnlyRolesTransitive(u: World, v: World, w: World)
    requires OnlyRoles(u, v) && OnlyRoles(v, w)
    ensures OnlyRoles(u, w)
  {
  }

  lemma SameRolesSameBackends(w: World, u: World, v: World)
    requires OnlyRoles(w, u) && OnlyRoles(w, v)
    requires forall n :: RolesIn(u, n) == RolesIn(v, n)
    ensures u.backends == v.backends
  {
    forall n | n in w.backends ensures u.backends[n] == v.backends[n] {
      assert RolesIn(u, n) == RolesIn(v, n);
    }
  }

  /** One backend's state replaced by one that differs in roles. */
  lemma ReplacedRoles(w: World, v: World, n: string, roles: map<string, JWTRole>)
    requires n in w.backends && v == w.(backends := w.backends[n := w.backends[n].(roles := roles)])
    ensures OnlyRoles(w, v) && RolesIn(v, n) == roles
    ensures forall m | m != n :: RolesIn(v, m) == RolesIn(w, m)
  {
  }

  lemma RoleWriteIs(w: World, x: Write)
    requires Lands(w, x)
    ensures var n := x.backend; var s := w.backends[n];
            Apply(w, x) == w.(backends := w.backends[n := s.(roles := s.roles[Slot(x.path, x.role.name) := x.role])])
  {
    hide Slot, Apply;
    ApplyParts(w, x);
  }

  lemma RoleWriteStep(w: World, x: Write, n: string, key: string)
    requires Lands(w, x)
    ensures OnlyRoles(w, Apply(w, x))
    ensures var v := Apply(w, x);
            && (key in RolesIn(v, n) <==> key in RolesIn(w, n) || At(x, n, key))
            && (key in RolesIn(v, n) ==> RolesIn(v, n)[key] == if At(x, n, key) then x.role else RolesIn(w, n)[key])
  {
    hide Slot, Apply, OnlyRoles;
    RoleWriteIs(w, x);
    ReplacedRoles(w, Apply(w, x), x.backend, w.backends[x.backend].roles[Slot(x.path, x.role.name) := x.role]);
  }

  lemma LandsKept(w: World, v: World, x: Write)
    requires OnlyRoles(w, v) && Lands(w, x)
    ensures Lands(v, x)
  {
  }

  lemma {:induction false} RolesAfter(w: World, xs: seq<Write>, n: string, key: string)
    requires forall x | x in xs :: Lands(w, x)
    ensures var v := ApplyAll(w, xs); var last := LastAt(xs, n, key);
            && OnlyRoles(w, v)
            && (key in RolesIn(v, n) <==> key in RolesIn(w, n) || last.Some?)
            && (key in RolesIn(v, n) ==> RolesIn(v, n)[key] == if last.Some? then last.value else RolesIn(w, n)[key])
  {
    if xs != [] {
      hide Apply, At, Slot, OnlyRoles, Lands, RolesIn;
      var before, x := xs[..|xs| - 1], xs[|xs| - 1];
      assert xs == before + [x] && x in xs;
      forall y | y in before ensures Lands(w, y) {
        assert y in xs;
      }
      RolesAfter(w, before, n, key);
      ApplySnoc(w, before, x);
      var u := ApplyAll(w, before);
      LandsKept(w, u, x);
      LandsIsRole(u, x);
      RoleWriteStep(u, x, n, key);
      OnlyRolesTransitive(w, u, Apply(u, x));
    } else {
      assert ApplyAll(w, xs) == w;
    }
  }

  lemma LandsIsRole(w: World, x: Write)
    requires Lands(w, x)
    ensures x.WriteRole?
  {
  }

  lemma {:induction false} LastAtSome(xs: seq<Write>, n: string, key: string)
    ensures LastAt(xs, n, key).Some? <==> exists x | x in xs :: x.WriteRole? && At(x, n, key)
    ensures LastAt(xs, n, key).Some? ==>
              exists x | x in xs :: x.WriteRole? && At(x, n, key) && x.role == LastAt(xs, n, key).value
  {
    if xs != [] {
      hide At;
      var before, x := xs[..|xs| - 1], xs[|xs| - 1];
      assert xs == before + [x] && x in xs;
      LastAtSome(before, n, key);
    }
  }

  // ---- Role removals ---------------------------------------------------------------------------------------

  lemma RoleRemovalStep(w: World, x: Write, n: string, key: string)
    requires x.RemoveRole?
    ensures OnlyRoles(w, Apply(w, x))
    ensures var v := Apply(w, x);
            && (key in RolesIn(v, n) <==> key in RolesIn(w, n) && !At(x, n, key))
            && (key in RolesIn(v, n) ==> RolesIn(v, n)[key] == RolesIn(w, n)[key])
  {
    hide Slot, Apply;
    ApplyParts(w, x);
    if x.backend in w.backends {
      hide OnlyRoles;
      ReplacedRoles(w, Apply(w, x), x.backend, w.backends[x.backend].roles - {Slot(x.path, x.name)});
    }
  }

  lemma {:induction false} RolesLeft(w: World, xs: seq<Write>, n: string, key: string)
    requires forall x | x in xs :: x.RemoveRole?
    ensures var v := ApplyAll(w, xs);
            && OnlyRoles(w, v)
            && (key in RolesIn(v, n) <==> key in RolesIn(w, n) && forall x | x in xs :: !At(x, n, key))
            && (key in RolesIn(v, n) ==> RolesIn(v, n)[key] == RolesIn(w, n)[key])
  {
    if xs != [] {
      hide Apply, At, Slot, OnlyRoles, RolesIn;
      var before, x := xs[..|xs| - 1], xs[|xs| - 1];
      assert xs == before + [x] && x in xs;
      RolesLeft(w, before, n, key);
      ApplySnoc(w, before, x);
      var u := ApplyAll(w, before);
      RoleRemovalStep(u, x, n, key);
      OnlyRolesTransitive(w, u, Apply(u, x));
    } else {
      assert ApplyAll(w, xs) == w;
    }
  }

  // ---- The writes of the loop -------------------------------------------------------------------------------

  lemma WrittenRefLands(w: World, env: Env, key: Key, spec: BindingSpec, ref: string)
    ensures forall x | x in RoleWriteOf(RefOutcomeOf(w, env, key, spec, ref)) :: Lands(w, x)
  {
    hide BoundRole, CheckOf, CheckMessage, IsEmpty, Reachable, BindingRoleName, IsTrue;
  }

  lemma LoopWritesLand(w: World, env: Env, key: Key, spec: BindingSpec)
    ensures forall x | x in LoopWrites(Outcomes(w, env, key, spec, spec.refs)) :: Lands(w, x)
  {
    hide RefOutcomeOf, LoopWrites, RoleWriteOf;
    var outs := Outcomes(w, env, key, spec, spec.refs);
    forall x | x in LoopWrites(outs) ensures Lands(w, x) {
      LoopWritesAreRoles(outs, x);
      var i :| 0 <= i < |outs| && RoleWriteOf(outs[i]) == [x];
      WrittenRefLands(w, env, key, spec, spec.refs[i]);
      assert x in RoleWriteOf(outs[i]);
    }
  }

  /** Without an abort every reference's write is made. */
  lemma {:induction false} EveryRefWrites(outs: seq<RefOutcome>, i: nat)
    requires !Aborted(outs) && i < |outs|
    ensures forall x | x in RoleWriteOf(outs[i]) :: x in LoopWrites(outs)
  {
    hide RoleWriteOf;
    var before := outs[..|outs| - 1];
    assert !Aborted(before) by {
      if j :| 0 <= j < |before| && before[j].RefAborts? {
        assert outs[j].RefAborts?;
      }
    }
    if i < |before| {
      EveryRefWrites(before, i);
      assert outs[i] == before[i];
    }
  }

  // ---- One whole reconcile of a live binding --------------------------------------------------------------------

  predicate LiveBinding(w: World, env: Env, key: Key) {
    key in w.bindings && BindingRef(key) !in env.faults && env.mountPrefix.Some? && !w.bindings[key].meta.deleting
  }

  function OutcomesOf(w: World, env: Env, key: Key): seq<RefOutcome>
    requires key in w.bindings
  {
    Outcomes(w, env, key, w.bindings[key].spec, w.bindings[key].spec.refs)
  }

  function BindingAfter(o: Binding, outs: seq<RefOutcome>): Binding {
    Binding(Held(o.meta, true), o.spec, if Aborted(outs) then o.status else BindingNext(o, outs))
  }

  lemma RoleWriteCommutes(w: World, bindings: map<Key, Binding>, x: Write)
    requires Lands(w, x)
    ensures Apply(w.(bindings := bindings), x) == Apply(w, x).(bindings := bindings)
  {
    hide Slot, Apply;
    RoleWriteIs(w, x);
    RoleWriteIs(w.(bindings := bindings), x);
  }

  lemma {:induction false} RoleWritesCommute(w: World, bindings: map<Key, Binding>, xs: seq<Write>)
    requires forall x | x in xs :: Lands(w, x)
    ensures ApplyAll(w.(bindings := bindings), xs) == ApplyAll(w, xs).(bindings := bindings)
    decreases xs
  {
    if xs != [] {
      hide Lands, Apply, OnlyRoles;
      assert xs[0] in xs;
      var v := Apply(w, xs[0]);
      RoleWriteCommutes(w, bindings, xs[0]);
      RoleWriteStep(w, xs[0], "", "");
      forall x | x in xs[1..] ensures Lands(v, x) {
        assert x in xs;
        LandsKept(w, v, x);
      }
      RoleWritesCommute(v, bindings, xs[1..]);
    }
  }

  function HoldWrites(o: Binding, key: Key): seq<Write> {
    if OwnFinalizer in o.meta.finalizers then [] else [AddBindingFinalizer(key)]
  }

  function PutWrites(o: Binding, key: Key, outs: seq<RefOutcome>): seq<Write> {
    if Aborted(outs) then [] else [PutBinding(key, BindingNext(o, outs))]
  }

  lemma LivePlan(w: World, env: Env, key: Key)
    requires LiveBinding(w, env, key)
    ensures var o, outs := w.bindings[key], OutcomesOf(w, env, key);
            Plan(w, env, BindingRef(key)) == HoldWrites(o, key) + (LoopWrites(outs) + PutWrites(o, key, outs))
  {
    hide Outcomes, LoopWrites, BindingNext, Aborted;
  }

  lemma PutIs(w: World, key: Key, o: Binding, outs: seq<RefOutcome>)
    requires key in w.bindings
    ensures ApplyAll(w, PutWrites(o, key, outs))
            == if Aborted(outs) then w
               else w.(bindings := w.bindings[key := w.bindings[key].(status := BindingNext(o, outs))])
  {
    hide BindingNext, Aborted;
    if !Aborted(outs) {
      ApplyOne(w, PutBinding(key, BindingNext(o, outs)));
    }
  }

  lemma LiveBindingResult(w: World, env: Env, key: Key)
    requires LiveBinding(w, env, key)
    ensures var o, outs := w.bindings[key], OutcomesOf(w, env, key);
            Reconcile(w, env, BindingRef(key))
            == ApplyAll(w, LoopWrites(outs)).(bindings := w.bindings[key := BindingAfter(o, outs)])
  {
    hide OutcomesOf, LoopWrites, BindingNext, Aborted, Lands, Plan, ApplyAll, HoldWrites, PutWrites;
    var o, outs := w.bindings[key], OutcomesOf(w, env, key);
    var bs := w.bindings[key := o.(meta := Held(o.meta, true))];
    var xs := LoopWrites(outs);
    LivePlan(w, env, key);
    ApplyAppend(w, HoldWrites(o, key), xs + PutWrites(o, key, outs));
    HoldIs(w, key);
    ApplyAppend(w.(bindings := bs), xs, PutWrites(o, key, outs));
    LoopLands(w, env, key);
    RoleWritesCommute(w, bs, xs);
    PutIs(ApplyAll(w, xs).(bindings := bs), key, o, outs);
    assert bs[key := BindingAfter(o, outs)] == w.bindings[key := BindingAfter(o, outs)];
  }

  lemma LoopLands(w: World, env: Env, key: Key)
    requires key in w.bindings
    ensures forall x | x in LoopWrites(OutcomesOf(w, env, key)) :: Lands(w, x)
  {
    LoopWritesLand(w, env, key, w.bindings[key].spec);
  }

  lemma HoldIs(w: World, key: Key)
    requires key in w.bindings
    ensures var o := w.bindings[key];
            ApplyAll(w, HoldWrites(o, key)) == w.(bindings := w.bindings[key := o.(meta := Held(o.meta, true))])
  {
    var o := w.bindings[key];
    if OwnFinalizer in o.meta.finalizers {
      assert o.meta.finalizers + {OwnFinalizer} == o.meta.finalizers;
      assert w.bindings[key := o] == w.bindings;
    } else {
      ApplyOne(w, AddBindingFinalizer(key));
    }
  }
}
