/** Deleting a binding undoes what its reconcile wrote. */
module BindingDeletion {
  import opened Wrappers
  import opened Naming
  import opened Conditions
  import opened Backend
  import opened Api
  import opened Plans
  import opened Frames
  import opened BindingReconciler
  import opened BindingEffects
  import opened BindingLoop
  import opened Webhook
  import opened Runs

  // ---- The trust behind a recorded path -----------------------------------------------------------------

  /** No two trusts of the namespace record one mount path. */
  predicate PathsUnique(w: World, namespace: string) {
    forall j, k | j in w.trusts && k in w.trusts && j != k && j.namespace == k.namespace == namespace ::
      w.trusts[j].status.authMountPath == "" || w.trusts[j].status.authMountPath != w.trusts[k].status.authMountPath
  }

  /** The finalizer can list the trusts, finds at most one for a path, and no role deletion is refused. */
  ghost predicate CanFinalize(w: World, env: Env, namespace: string) {
    && env.trustListing.Some? && Lists(env.trustListing.value, w.trusts, Some(namespace))
    && PathsUnique(w, namespace)
    && (forall n, m, r :: CallRemoveRole(n, m, r) !in env.callErrors)
  }

  lemma {:induction false} FindUnique(w: World, listing: seq<Key>, namespace: string, k: Key)
    requires PathsUnique(w, namespace) && k in listing && k in w.trusts && k.namespace == namespace
    requires w.trusts[k].status.authMountPath != ""
    ensures FindTrustForAuthMount(w, listing, namespace, w.trusts[k].status.authMountPath) == Some(w.trusts[k])
  {
    var path := w.trusts[k].status.authMountPath;
    if !(listing[0].namespace == namespace && listing[0] in w.trusts
         && w.trusts[listing[0]].status.authMountPath == path) {
      FindUnique(w, listing[1..], namespace, k);
    }
  }

  /** An entry with a path names a usable trust; a written one, a reachable instance with a client. */
  lemma EntryShape(w: World, env: Env, key: Key, spec: BindingSpec, ref: string)
    ensures var out := RefOutcomeOf(w, env, key, spec, ref);
            out.RefOutcome? && out.entry.authMountPath != "" ==>
              && Key(key.namespace, ref) in w.entities
              && (var t := Key(key.namespace, w.entities[Key(key.namespace, ref)].spec.trust);
                  && t in w.trusts && w.trusts[t].status.authMountPath == out.entry.authMountPath
                  && w.trusts[t].status.resolved != ""
                  && (var n := w.trusts[t].status.resolved;
                      && InstanceRef(n) !in env.faults
                      && (out.write.Some? ==>
                            n in w.instances && Reachable(w.instances[n]) && Client(w, env, n).Success?
                                              && out.write.value.instance == n)))
  {
    hide BindingRoleName, BoundRole, Reachable, IsTrue, CheckOf, CheckMessage, IsEmpty;
  }

  lemma WriteHasPath(w: World, env: Env, key: Key, spec: BindingSpec, ref: string)
    ensures var out := RefOutcomeOf(w, env, key, spec, ref);
            out.RefOutcome? ==>
              && out.entry.roleName == BindingRoleName(env, key, ref) != ""
              && (out.write.Some? ==> out.entry.authMountPath == out.write.value.mount != ""
                                      && out.write.value.role.name == out.entry.roleName)
  {
    hide RefOutcomeOf, EntityUsable, RoleName;
    OutcomeShape(w, env, key, spec, ref);
    WriteShape(w, env, key, spec, ref);
    RoleNameIsName(env.sha, key.namespace, key.name + "-" + ref);
  }

  /** The finalizer's work on an entry: it never fails, removes what was written, and only at the own name. */
  lemma EntryFinalizes(w: World, env: Env, key: Key, spec: BindingSpec, ref: string)
    requires CanFinalize(w, env, key.namespace)
    ensures var out := RefOutcomeOf(w, env, key, spec, ref);
            out.RefOutcome? ==>
              var r := RemovalOf(w, env, key.namespace, out.entry);
              && !r.RemovalFails?
              && (out.write.Some? ==>
                    r == Removes(out.write.value.instance, out.write.value.mount, out.write.value.role.name))
              && (r.Removes? ==> r.name == BindingRoleName(env, key, ref))
  {
    hide RefOutcomeOf, BindingRoleName, FindTrustForAuthMount, PathsUnique, Reachable;
    var out := RefOutcomeOf(w, env, key, spec, ref);
    WriteHasPath(w, env, key, spec, ref);
    EntryShape(w, env, key, spec, ref);
    if out.RefOutcome? && out.entry.authMountPath != "" {
      var t := Key(key.namespace, w.entities[Key(key.namespace, ref)].spec.trust);
      FindUnique(w, env.trustListing.value, key.namespace, t);
    }
  }

  // ---- The list of removals -------------------------------------------------------------------------------

  lemma {:induction false} EveryRemovalListed(w: World, env: Env, namespace: string, entries: seq<RoleStatus>, i: nat)
    requires i < |entries| && !SomeRemovalFails(w, env, namespace, entries)
    ensures forall x | x in RemovalWrite(RemovalOf(w, env, namespace, entries[i])) ::
              x in RemovalWrites(w, env, namespace, entries)
  {
    hide RemovalOf;
    var before := entries[..|entries| - 1];
    assert forall j | 0 <= j < |before| :: before[j] == entries[j];
    if i < |before| {
      EveryRemovalListed(w, env, namespace, before, i);
    }
  }

  /** The slot of the instance is one the finalizer clears for these entries. */
  ghost predicate Cleared(w: World, env: Env, namespace: string, entries: seq<RoleStatus>, n: string, slot: string) {
    exists i | 0 <= i < |entries| :: ClearedBy(RemovalOf(w, env, namespace, entries[i]), n, slot)
  }

  predicate ClearedBy(r: Removal, n: string, slot: string) {
    r.Removes? && r.instance == n && Slot(r.mount, r.name) == slot
  }

  lemma ClearedIffListed(w: World, env: Env, namespace: string, entries: seq<RoleStatus>, n: string, slot: string)
    requires !SomeRemovalFails(w, env, namespace, entries)
    ensures Cleared(w, env, namespace, entries, n, slot) <==>
            exists x | x in RemovalWrites(w, env, namespace, entries) :: At(x, n, slot)
  {
    hide RemovalOf, RemovalWrites, Slot, SomeRemovalFails;
    var xs := RemovalWrites(w, env, namespace, entries);
    if Cleared(w, env, namespace, entries, n, slot) {
      var i :| 0 <= i < |entries| && ClearedBy(RemovalOf(w, env, namespace, entries[i]), n, slot);
      var r := RemovalOf(w, env, namespace, entries[i]);
      EveryRemovalListed(w, env, namespace, entries, i);
      var x := RemoveRole(r.instance, r.mount, r.name);
      assert x in RemovalWrite(r) && At(x, n, slot);
    }
    if x :| x in xs && At(x, n, slot) {
      RemovalWritesAreRemovals(w, env, namespace, entries, x);
      var i :| 0 <= i < |entries| && RemovalWrite(RemovalOf(w, env, namespace, entries[i])) == [x];
      assert ClearedBy(RemovalOf(w, env, namespace, entries[i]), n, slot);
    }
  }

  // ---- One finalizing run -------------------------------------------------------------------------------------

  predicate DyingBinding(w: World, env: Env, key: Key) {
    && key in w.bindings && BindingRef(key) !in env.faults && env.mountPrefix.Some? && w.bindings[key].meta.deleting
    && OwnFinalizer in w.bindings[key].meta.finalizers
  }

  lemma FinalizerResult(w: World, env: Env, key: Key)
    requires DyingBinding(w, env, key) && !SomeRemovalFails(w, env, key.namespace, w.bindings[key].status.roles)
    ensures Reconcile(w, env, BindingRef(key))
            == ReleasedBinding(ApplyAll(w, RemovalWrites(w, env, key.namespace, w.bindings[key].status.roles)), key)
  {
    hide RemovalWrites, SomeRemovalFails, ReleasedBinding;
    var xs := RemovalWrites(w, env, key.namespace, w.bindings[key].status.roles);
    assert Plan(w, env, BindingRef(key)) == xs + [DropBindingFinalizer(key)];
    ApplySnoc(w, xs, DropBindingFinalizer(key));
  }

  lemma RemovalsAre(w: World, env: Env, namespace: string, entries: seq<RoleStatus>)
    ensures forall x | x in RemovalWrites(w, env, namespace, entries) :: x.RemoveRole?
  {
    hide RemovalWrites, RemovalOf;
    forall x | x in RemovalWrites(w, env, namespace, entries) ensures x.RemoveRole? {
      RemovalWritesAreRemovals(w, env, namespace, entries, x);
    }
  }

  lemma ReleaseKeepsRest(w: World, key: Key)
    ensures ReleasedBinding(w, key) == w.(bindings := ReleasedBinding(w, key).bindings)
    ensures key in w.bindings && Gone(Held(w.bindings[key].meta, false)) ==> key !in ReleasedBinding(w, key).bindings
    ensures forall k | k != key :: (k in ReleasedBinding(w, key).bindings <==> k in w.bindings)
                                   && (k in w.bindings ==> ReleasedBinding(w, key).bindings[k] == w.bindings[k])
  {
  }

  /** A finalizing run clears exactly the slots of its recorded entries and lets the binding go. */
  lemma FinalizerClears(w: World, env: Env, key: Key, n: string, slot: string)
    requires DyingBinding(w, env, key) && !SomeRemovalFails(w, env, key.namespace, w.bindings[key].status.roles)
    ensures var v := Reconcile(w, env, BindingRef(key));
            && OnlyRoles(w.(bindings := v.bindings), v)
            && (slot in RolesIn(v, n) <==>
                slot in RolesIn(w, n) && !Cleared(w, env, key.namespace, w.bindings[key].status.roles, n, slot))
            && (slot in RolesIn(v, n) ==> RolesIn(v, n)[slot] == RolesIn(w, n)[slot])
            && (w.bindings[key].meta.finalizers == {OwnFinalizer} ==> key !in v.bindings)
            && (forall k | k != key ::
                  (k in v.bindings <==> k in w.bindings) && (k in w.bindings ==> v.bindings[k] == w.bindings[k]))
  {
    hide RemovalWrites, SomeRemovalFails, ReleasedBinding, Reconcile, ApplyAll, At, Cleared;
    var entries := w.bindings[key].status.roles;
    var xs := RemovalWrites(w, env, key.namespace, entries);
    FinalizerResult(w, env, key);
    RemovalsAre(w, env, key.namespace, entries);
    RolesLeft(w, xs, n, slot);
    ClearedIffListed(w, env, key.namespace, entries, n, slot);
    ReleaseKeepsRest(ApplyAll(w, xs), key);
  }

  /** The entry records a role under a path that a trust records for the reachable instance, and a client comes up. */
  predicate Finalizable(w: World, env: Env, namespace: string, entry: RoleStatus, n: string, slot: string) {
    && entry.roleName != "" && entry.authMountPath != "" && slot == Slot(entry.authMountPath, entry.roleName)
    && (exists t | t in w.trusts && t.namespace == namespace ::
          w.trusts[t].status.authMountPath == entry.authMountPath && w.trusts[t].status.resolved == n)
    && n != "" && n in w.instances && Reachable(w.instances[n]) && Client(w, env, n).Success?
  }

  lemma {:induction false} FindFinds(w: World, listing: seq<Key>, namespace: string, path: string)
    ensures var found := FindTrustForAuthMount(w, listing, namespace, path);
            found.Some? ==> exists t | t in w.trusts && t.namespace == namespace ::
                              w.trusts[t] == found.value && w.trusts[t].status.authMountPath == path
  {
    if listing != [] {
      FindFinds(w, listing[1..], namespace, path);
    }
  }

  lemma RemovesFinalizable(w: World, env: Env, namespace: string, entry: RoleStatus, n: string, slot: string)
    requires CanFinalize(w, env, namespace) && !RemovalOf(w, env, namespace, entry).RemovalFails?
    ensures ClearedBy(RemovalOf(w, env, namespace, entry), n, slot) <==> Finalizable(w, env, namespace, entry, n, slot)
  {
    hide FindTrustForAuthMount, PathsUnique, Reachable, Client, Slot;
    var path := entry.authMountPath;
    FindFinds(w, env.trustListing.value, namespace, path);
    if path != "" {
      if t :| t in w.trusts && t.namespace == namespace && w.trusts[t].status.authMountPath == path {
        FindUnique(w, env.trustListing.value, namespace, t);
        forall k | k in w.trusts && k.namespace == namespace && w.trusts[k].status.authMountPath == path
          ensures k == t
        {
          OneTrustForPath(w, namespace, k, t);
        }
      }
    }
  }

  lemma OneTrustForPath(w: World, namespace: string, j: Key, k: Key)
    requires PathsUnique(w, namespace) && j in w.trusts && k in w.trusts && j.namespace == k.namespace == namespace
    requires w.trusts[j].status.authMountPath == w.trusts[k].status.authMountPath != ""
    ensures j == k
  {
  }

  /**
   What a finalizing run removes, whatever came before it: exactly the roles recorded in the status under a
   path that some trust of the namespace still records, on its instance, if that is reachable and a client up.
   */
  lemma FinalizerRemovesRecorded(w: World, env: Env, key: Key, n: string, slot: string)
    requires DyingBinding(w, env, key) && CanFinalize(w, env, key.namespace)
    requires !SomeRemovalFails(w, env, key.namespace, w.bindings[key].status.roles)
    ensures var v, entries := Reconcile(w, env, BindingRef(key)), w.bindings[key].status.roles;
            && (slot in RolesIn(v, n) <==>
                && slot in RolesIn(w, n)
                && forall i | 0 <= i < |entries| :: !Finalizable(w, env, key.namespace, entries[i], n, slot))
            && (slot in RolesIn(v, n) ==> RolesIn(v, n)[slot] == RolesIn(w, n)[slot])
            && (w.bindings[key].meta.finalizers == {OwnFinalizer} ==> key !in v.bindings)
  {
    hide Reconcile, RemovalOf, Finalizable, CanFinalize, ClearedBy, OnlyRoles;
    var entries := w.bindings[key].status.roles;
    FinalizerClears(w, env, key, n, slot);
    forall i | 0 <= i < |entries|
      ensures ClearedBy(RemovalOf(w, env, key.namespace, entries[i]), n, slot)
              <==> Finalizable(w, env, key.namespace, entries[i], n, slot)
    {
      RemovesFinalizable(w, env, key.namespace, entries[i], n, slot);
    }
  }

  // ---- Reconcile, delete, finalize --------------------------------------------------------------------------------

  /** The binding reconciled, then deleted by its user, then finalized, nothing else happening. */
  function Undone(w: World, env: Env, key: Key): World {
    Reconcile(Delete(Reconcile(w, env, BindingRef(key)), BindingRef(key)), env, BindingRef(key))
  }

  lemma MarkedForDeletion(u: World, v: World, key: Key)
    requires key in u.bindings && OwnFinalizer in u.bindings[key].meta.finalizers && v == Delete(u, BindingRef(key))
    ensures v == u.(bindings := v.bindings) && key in v.bindings && v.bindings[key].meta.deleting
    ensures v.bindings[key].meta.finalizers == u.bindings[key].meta.finalizers
            && v.bindings[key].status == u.bindings[key].status
  {
  }

  lemma LoopKeepsRemovalInputs(w: World, env: Env, key: Key)
    requires LiveBinding(w, env, key)
    ensures var v := Reconcile(w, env, BindingRef(key));
            && OnlyRoles(w.(bindings := v.bindings), v) && RemovalInputsAgree(v, w)
            && key in v.bindings && v.bindings[key] == BindingAfter(w.bindings[key], OutcomesOf(w, env, key))
  {
    hide OutcomesOf, Reconcile, LoopWrites, ApplyAll, Lands, LastAt, BindingAfter;
    LiveBindingResult(w, env, key);
    LoopLands(w, env, key);
    RolesAfter(w, LoopWrites(OutcomesOf(w, env, key)), "", "");
  }

  /** The world between deletion and finalizer. */
  lemma MarkedBinding(w: World, env: Env, key: Key)
    requires LiveBinding(w, env, key) && !Aborted(OutcomesOf(w, env, key))
    ensures var v := Delete(Reconcile(w, env, BindingRef(key)), BindingRef(key));
            && OnlyRoles(w.(bindings := v.bindings), v) && RemovalInputsAgree(v, w)
            && v.backends == Reconcile(w, env, BindingRef(key)).backends
            && DyingBinding(v, env, key)
            && v.bindings[key].meta.finalizers == w.bindings[key].meta.finalizers + {OwnFinalizer}
            && v.bindings[key].status.roles == Entries(OutcomesOf(w, env, key))
  {
    hide OutcomesOf, Reconcile, Delete, BindingConditions, OnlyRoles;
    var u := Reconcile(w, env, BindingRef(key));
    var v := Delete(u, BindingRef(key));
    LoopKeepsRemovalInputs(w, env, key);
    MarkedForDeletion(u, v, key);
    assert w.(bindings := v.bindings) == w.(bindings := u.bindings).(bindings := v.bindings);
    OtherBindings(w.(bindings := u.bindings), u, v.bindings);
  }

  lemma OtherBindings(w: World, v: World, bindings: map<Key, Binding>)
    requires OnlyRoles(w, v)
    ensures OnlyRoles(w.(bindings := bindings), v.(bindings := bindings))
  {
  }

  lemma NoRemovalFails(w: World, v: World, env: Env, key: Key)
    requires key in w.bindings && !Aborted(OutcomesOf(w, env, key)) && CanFinalize(w, env, key.namespace)
    requires RemovalInputsAgree(v, w)
    ensures !SomeRemovalFails(v, env, key.namespace, Entries(OutcomesOf(w, env, key)))
  {
    hide RefOutcomeOf, RemovalOf, RemovalInputsAgree;
    var outs, spec := OutcomesOf(w, env, key), w.bindings[key].spec;
    forall i | 0 <= i < |outs| ensures !RemovalOf(v, env, key.namespace, outs[i].entry).RemovalFails? {
      EntryFinalizes(w, env, key, spec, spec.refs[i]);
      RemovalFrame(v, w, env, key.namespace, outs[i].entry);
    }
  }

  lemma ClearedFrame(w: World, v: World, env: Env, namespace: string, entries: seq<RoleStatus>, n: string, slot: string)
    requires RemovalInputsAgree(v, w)
    ensures Cleared(v, env, namespace, entries, n, slot) <==> Cleared(w, env, namespace, entries, n, slot)
  {
    hide RemovalOf, RemovalInputsAgree;
    forall i | 0 <= i < |entries|
      ensures RemovalOf(v, env, namespace, entries[i]) == RemovalOf(w, env, namespace, entries[i])
    {
      RemovalFrame(v, w, env, namespace, entries[i]);
    }
  }

  /** The reference gets through to the instance, and the slot is that of its role there. */
  predicate Reaches(w: World, env: Env, key: Key, ref: string, n: string, slot: string) {
    && Through(w, env, key, ref)
    && n == TrustFor(w, env, key, ref).status.resolved
    && slot == Slot(TrustFor(w, env, key, ref).status.authMountPath, BindingRoleName(env, key, ref))
  }

  /** The finalizer removes the role recorded for a reference exactly where the reference got through. */
  lemma EntryClearsReached(w: World, env: Env, key: Key, spec: BindingSpec, ref: string, n: string, slot: string)
    requires CanFinalize(w, env, key.namespace) && RefOutcomeOf(w, env, key, spec, ref).RefOutcome?
    ensures ClearedBy(RemovalOf(w, env, key.namespace, RefOutcomeOf(w, env, key, spec, ref).entry), n, slot)
            <==> Reaches(w, env, key, ref, n, slot)
  {
    hide RefOutcomeOf, BindingRoleName, FindTrustForAuthMount, PathsUnique, Reachable, Slot, EntityUsable, Client;
    var out := RefOutcomeOf(w, env, key, spec, ref);
    WriteHasPath(w, env, key, spec, ref);
    EntryShape(w, env, key, spec, ref);
    StoppedAtInstance(w, env, key, spec, ref);
    if Through(w, env, key, ref) {
      ThroughEntry(w, env, key, spec, ref);
    }
    if out.entry.authMountPath != "" {
      var t := Key(key.namespace, w.entities[Key(key.namespace, ref)].spec.trust);
      FindUnique(w, env.trustListing.value, key.namespace, t);
    }
  }

  /** An entry with a path whose reference does not get through was stopped at the instance. */
  lemma StoppedAtInstance(w: World, env: Env, key: Key, spec: BindingSpec, ref: string)
    ensures var out := RefOutcomeOf(w, env, key, spec, ref);
            out.RefOutcome? && out.entry.authMountPath != "" && !Through(w, env, key, ref) ==>
              && Key(key.namespace, ref) in w.entities
              && (var t := Key(key.namespace, w.entities[Key(key.namespace, ref)].spec.trust);
                  && t in w.trusts
                  && (var n := w.trusts[t].status.resolved;
                      n !in w.instances || !Reachable(w.instances[n]) || Client(w, env, n).Failure?))
  {
    hide RefAtBackend, BindingRoleName, Reachable, Client, IsTrue;
  }

  lemma ThroughEntry(w: World, env: Env, key: Key, spec: BindingSpec, ref: string)
    requires Through(w, env, key, ref)
    ensures var out := RefOutcomeOf(w, env, key, spec, ref);
            out.RefOutcome? && out.entry.authMountPath == TrustFor(w, env, key, ref).status.authMountPath != ""
  {
    hide RefOutcomeOf, BindingRoleName, Reachable, Client, EntityUsable, BoundRole, CheckOf;
    ThroughOutcome(w, env, key, spec, ref);
  }

  /** The slots the finalizer clears after a run of the loop are those its references reach. */
  lemma ClearedIffReached(w: World, env: Env, key: Key, n: string, slot: string)
    requires key in w.bindings && !Aborted(OutcomesOf(w, env, key)) && CanFinalize(w, env, key.namespace)
    ensures Cleared(w, env, key.namespace, Entries(OutcomesOf(w, env, key)), n, slot) <==>
            exists ref | ref in w.bindings[key].spec.refs :: Reaches(w, env, key, ref, n, slot)
  {
    hide RefOutcomeOf, RemovalOf, ClearedBy, Reaches, CanFinalize;
    var outs, spec := OutcomesOf(w, env, key), w.bindings[key].spec;
    var entries := Entries(outs);
    forall i | 0 <= i < |spec.refs|
      ensures ClearedBy(RemovalOf(w, env, key.namespace, entries[i]), n, slot)
              <==> Reaches(w, env, key, spec.refs[i], n, slot)
    {
      EntryClearsReached(w, env, key, spec, spec.refs[i], n, slot);
    }
    if ref :| ref in spec.refs && Reaches(w, env, key, ref, n, slot) {
      var i :| 0 <= i < |spec.refs| && spec.refs[i] == ref;
      assert ClearedBy(RemovalOf(w, env, key.namespace, entries[i]), n, slot);
    }
  }

  /** What the references reach is all the loop wrote, and lies at the binding's own names. */
  lemma ReachedSlots(w: World, env: Env, key: Key, n: string, slot: string)
    requires key in w.bindings && !Aborted(OutcomesOf(w, env, key))
    ensures LastAt(LoopWrites(OutcomesOf(w, env, key)), n, slot).Some? ==>
              exists ref | ref in w.bindings[key].spec.refs :: Reaches(w, env, key, ref, n, slot)
    ensures forall ref | Reaches(w, env, key, ref, n, slot) ::
              exists m :: slot == Slot(m, BindingRoleName(env, key, ref))
  {
    hide RefOutcomeOf, LoopWrites, Slot, BindingRoleName, LastAt, Through, TrustFor;
    var outs, spec := OutcomesOf(w, env, key), w.bindings[key].spec;
    if LastAt(LoopWrites(outs), n, slot).Some? {
      LastAtSome(LoopWrites(outs), n, slot);
      var x :| x in LoopWrites(outs) && x.WriteRole? && At(x, n, slot);
      var i := ListedWrite(outs, x);
      WrittenReached(w, env, key, spec, spec.refs[i]);
      assert spec.refs[i] in spec.refs;
    }
  }

  lemma WrittenReached(w: World, env: Env, key: Key, spec: BindingSpec, ref: string)
    ensures var out := RefOutcomeOf(w, env, key, spec, ref);
            out.RefOutcome? && out.write.Some? ==>
              Reaches(w, env, key, ref, out.write.value.instance,
                      Slot(out.write.value.mount, out.write.value.role.name))
  {
    hide RefOutcomeOf, BindingRoleName, Client, Through, TrustFor, Slot, CheckOf;
    if Through(w, env, key, ref) {
      ThroughOutcome(w, env, key, spec, ref);
    } else {
      StoppedOutcome(w, env, key, spec, ref);
    }
  }

  /**
   Delete undoes reconcile, up to this: a role that was there is still there afterwards, unchanged, exactly
   when no reference the binding now lists gets through to its slot; and nothing else in any backend changes.
   */
  lemma DeleteUndoesReconcile(w: World, env: Env, key: Key, n: string, slot: string)
    requires LiveBinding(w, env, key) && !Aborted(OutcomesOf(w, env, key)) && CanFinalize(w, env, key.namespace)
    ensures var v := Undone(w, env, key);
            && OnlyRoles(w.(bindings := v.bindings), v)
            && (slot in RolesIn(v, n) <==>
                && slot in RolesIn(w, n)
                && forall ref | ref in w.bindings[key].spec.refs :: !Reaches(w, env, key, ref, n, slot))
            && (slot in RolesIn(v, n) ==> RolesIn(v, n)[slot] == RolesIn(w, n)[slot])
            && (w.bindings[key].meta.finalizers <= {OwnFinalizer} ==> key !in v.bindings)
  {
    hide OutcomesOf, Reconcile, Delete, Cleared, CanFinalize, LoopWrites, LastAt, SomeRemovalFails, ApplyAll, Aborted,
      Lands, Reaches;
    var ref, outs := BindingRef(key), OutcomesOf(w, env, key);
    var u := Reconcile(w, env, ref);
    var m := Delete(u, ref);
    var v := Reconcile(m, env, ref);
    MarkedBinding(w, env, key);
    NoRemovalFails(w, m, env, key);
    FinalizerClears(m, env, key, n, slot);
    ClearedFrame(w, m, env, key.namespace, Entries(outs), n, slot);
    ClearedIffReached(w, env, key, n, slot);
    ReachedSlots(w, env, key, n, slot);
    LoopRoles(w, env, key, n, slot);
    OtherBindings(w.(bindings := m.bindings), m, v.bindings);
    OnlyRolesTransitive(w.(bindings := v.bindings), m.(bindings := v.bindings), v);
    SameBackendsRoles(u, m, n);
  }

  lemma SameBackendsRoles(u: World, v: World, n: string)
    requires u.backends == v.backends
    ensures RolesIn(u, n) == RolesIn(v, n)
  {
  }

  lemma LoopRoles(w: World, env: Env, key: Key, n: string, slot: string)
    requires LiveBinding(w, env, key)
    ensures var v := Reconcile(w, env, BindingRef(key));
            var last := LastAt(LoopWrites(OutcomesOf(w, env, key)), n, slot);
            && (slot in RolesIn(v, n) <==> slot in RolesIn(w, n) || last.Some?)
            && (slot in RolesIn(v, n) ==> RolesIn(v, n)[slot] == if last.Some? then last.value else RolesIn(w, n)[slot])
  {
    hide OutcomesOf, Reconcile, LoopWrites, ApplyAll, Lands, LastAt, BindingAfter, OnlyRoles;
    LiveBindingResult(w, env, key);
    LoopLands(w, env, key);
    RolesAfter(w, LoopWrites(OutcomesOf(w, env, key)), n, slot);
  }

  /** Where none of the binding's names was in use, creating and deleting it leaves the backends as they were. */
  lemma UndoneIsIdentity(w: World, env: Env, key: Key)
    requires LiveBinding(w, env, key) && !Aborted(OutcomesOf(w, env, key)) && CanFinalize(w, env, key.namespace)
    requires forall n, m, ref | ref in w.bindings[key].spec.refs ::
               Slot(m, BindingRoleName(env, key, ref)) !in RolesIn(w, n)
    ensures Undone(w, env, key).backends == w.backends
  {
    hide OutcomesOf, Undone, Reaches, CanFinalize, OnlyRoles, Slot, BindingRoleName, RolesIn, LastAt, LoopWrites,
      Aborted;
    var v := Undone(w, env, key);
    DeleteUndoesReconcile(w, env, key, "", "");
    forall n ensures RolesIn(v, n) == RolesIn(w, n) {
      forall slot ensures (slot in RolesIn(v, n) <==> slot in RolesIn(w, n))
                       && (slot in RolesIn(v, n) ==> RolesIn(v, n)[slot] == RolesIn(w, n)[slot])
      {
        DeleteUndoesReconcile(w, env, key, n, slot);
        ReachedSlots(w, env, key, n, slot);
      }
    }
    var u := w.(bindings := v.bindings);
    forall n ensures RolesIn(v, n) == RolesIn(u, n) {
      SameBackendsRoles(w, u, n);
    }
    OnlyRolesItself(u);
    SameRolesSameBackends(u, v, u);
  }

  lemma OnlyRolesItself(w: World)
    ensures OnlyRoles(w, w)
  {
  }
}
