/**
 What one finalizing run of a binding does, from its inputs and for every listing of trusts: which roles it
 removes, and when it keeps the binding for another try.
 */
module BindingFinalizer {
  import opened Wrappers
  import opened Naming
  import opened Conditions
  import opened Backend
  import opened Api
  import opened Plans
  import opened Frames
  import opened BindingEffects
  import opened BindingDeletion
  import opened ObjectOutcomes

  // ---- The trust a recorded path leads to ----------------------------------------------------------------

  /** The listed trust is of the namespace, is there, and records the path. */
  predicate Hits(w: World, k: Key, namespace: string, path: string) {
    k.namespace == namespace && k in w.trusts && w.trusts[k].status.authMountPath == path
  }

  predicate FirstHit(w: World, listing: seq<Key>, namespace: string, path: string, i: int) {
    && 0 <= i < |listing| && Hits(w, listing[i], namespace, path)
    && forall j | 0 <= j < i :: !Hits(w, listing[j], namespace, path)
  }

  /** The lookup gives the first trust of the listing that records the path, and nothing if none does. */
  lemma {:induction false} LookupIsFirst(w: World, listing: seq<Key>, namespace: string, path: string) returns (i: int)
    ensures var found := FindTrustForAuthMount(w, listing, namespace, path);
            && (found.Some? ==> FirstHit(w, listing, namespace, path, i) && found.value == w.trusts[listing[i]])
            && (found.None? ==> forall j | 0 <= j < |listing| :: !Hits(w, listing[j], namespace, path))
  {
    i := 0;
    if listing != [] && !Hits(w, listing[0], namespace, path) {
      var r := LookupIsFirst(w, listing[1..], namespace, path);
      i := r + 1;
      assert forall j | 0 < j < |listing| :: listing[j] == listing[1..][j - 1];
    }
  }

  // ---- One recorded entry -----------------------------------------------------------------------------------

  predicate Named(entry: RoleStatus) {
    entry.roleName != "" && entry.authMountPath != ""
  }

  /** The entry's path leads to a trust on the instance. */
  ghost predicate LeadsTo(w: World, env: Env, namespace: string, entry: RoleStatus, n: string) {
    && Named(entry) && n != "" && env.trustListing.Some?
    && exists i :: FirstHit(w, env.trustListing.value, namespace, entry.authMountPath, i)
                   && w.trusts[env.trustListing.value[i]].status.resolved == n
  }

  /** The instance is read, there and reachable, and a client comes up. */
  predicate Asked(w: World, env: Env, n: string) {
    InstanceRef(n) !in env.faults && n in w.instances && SeenReachable(w.instances[n]) && ClientUp(w, env, n)
  }

  /**
   The finalizer cannot get past the entry: the listing or the read of the instance fails, or the deletion is
   refused.
   */
  ghost predicate Blocks(w: World, env: Env, namespace: string, entry: RoleStatus) {
    Named(entry) &&
    (|| env.trustListing.None?
     || exists n :: LeadsTo(w, env, namespace, entry, n)
                    && (InstanceRef(n) in env.faults
                        || (Asked(w, env, n)
                            && CallRemoveRole(n, entry.authMountPath, entry.roleName) in env.callErrors)))
  }

  /** The entry's role is deleted at the slot of the instance. */
  ghost predicate DeletesAt(w: World, env: Env, namespace: string, entry: RoleStatus, n: string, slot: string) {
    && LeadsTo(w, env, namespace, entry, n) && Asked(w, env, n)
    && CallRemoveRole(n, entry.authMountPath, entry.roleName) !in env.callErrors
    && slot == Slot(entry.authMountPath, entry.roleName)
  }

  lemma LeadsIs(w: World, env: Env, namespace: string, entry: RoleStatus, n: string)
    requires Named(entry) && env.trustListing.Some? && n != ""
    ensures var found := FindTrustForAuthMount(w, env.trustListing.value, namespace, entry.authMountPath);
            LeadsTo(w, env, namespace, entry, n) <==> found.Some? && found.value.status.resolved == n
  {
    hide FindTrustForAuthMount;
    var listing, path := env.trustListing.value, entry.authMountPath;
    var i := LookupIsFirst(w, listing, namespace, path);
    if j :| FirstHit(w, listing, namespace, path, j) && w.trusts[listing[j]].status.resolved == n {
      OneFirstHit(w, listing, namespace, path, i, j);
    }
  }

  lemma OneFirstHit(w: World, listing: seq<Key>, namespace: string, path: string, i: int, j: int)
    requires FirstHit(w, listing, namespace, path, j)
    ensures FirstHit(w, listing, namespace, path, i) ==> i == j
    ensures !forall k | 0 <= k < |listing| :: !Hits(w, listing[k], namespace, path)
  {
    hide Hits;
  }

  lemma EntryIs(w: World, env: Env, namespace: string, entry: RoleStatus, n: string, slot: string)
    ensures var r := RemovalOf(w, env, namespace, entry);
            && (r.RemovalFails? <==> Blocks(w, env, namespace, entry))
            && (ClearedBy(r, n, slot) <==> DeletesAt(w, env, namespace, entry, n, slot))
  {
    hide FindTrustForAuthMount, LeadsTo, IsTrue, Slot;
    if Named(entry) && env.trustListing.Some? {
      forall m | m != "" ensures LeadsTo(w, env, namespace, entry, m) <==>
                                 var found := FindTrustForAuthMount(w, env.trustListing.value, namespace,
                                                                    entry.authMountPath);
                                 found.Some? && found.value.status.resolved == m
      {
        LeadsIs(w, env, namespace, entry, m);
      }
    }
    forall m | LeadsTo(w, env, namespace, entry, m) ensures m != "" && Named(entry) && env.trustListing.Some? {
      LeadsNamed(w, env, namespace, entry, m);
    }
  }

  lemma LeadsNamed(w: World, env: Env, namespace: string, entry: RoleStatus, n: string)
    requires LeadsTo(w, env, namespace, entry, n)
    ensures n != "" && Named(entry) && env.trustListing.Some?
  {
  }

  // ---- All recorded entries -------------------------------------------------------------------------------------

  ghost predicate NoneBlocks(w: World, env: Env, namespace: string, entries: seq<RoleStatus>) {
    forall j | 0 <= j < |entries| :: !Blocks(w, env, namespace, entries[j])
  }

  lemma BlocksIs(w: World, env: Env, namespace: string, entries: seq<RoleStatus>)
    ensures SomeRemovalFails(w, env, namespace, entries) <==> !NoneBlocks(w, env, namespace, entries)
  {
    hide RemovalOf, Blocks;
    forall j | 0 <= j < |entries|
      ensures RemovalOf(w, env, namespace, entries[j]).RemovalFails? <==> Blocks(w, env, namespace, entries[j])
    {
      EntryIs(w, env, namespace, entries[j], "", "");
    }
  }

  /** The removals made are those of the entries before the first one that blocks. */
  lemma {:induction false} RemovalsUpToBlock(w: World, env: Env, namespace: string, entries: seq<RoleStatus>, x: Write)
    ensures x in RemovalWrites(w, env, namespace, entries) <==>
            exists i | 0 <= i < |entries| ::
              RemovalWrite(RemovalOf(w, env, namespace, entries[i])) == [x]
                && NoneBlocks(w, env, namespace, entries[..i])
    decreases entries
  {
    hide RemovalOf, Blocks, NoneBlocks, RemovalWrite;
    if entries != [] {
      var before, last := entries[..|entries| - 1], |entries| - 1;
      BlocksIs(w, env, namespace, before);
      RemovalsUpToBlock(w, env, namespace, before, x);
      forall i | 0 <= i < |before| ensures entries[..i] == before[..i] && entries[i] == before[i] {
      }
      OneRemoval(RemovalOf(w, env, namespace, entries[last]), x);
      if !NoneBlocks(w, env, namespace, before) {
        assert entries[..last] == before;
      } else if x in RemovalWrite(RemovalOf(w, env, namespace, entries[last])) {
        assert entries[..last] == before;
      }
    }
  }

  lemma OneRemoval(r: Removal, x: Write)
    ensures x in RemovalWrite(r) <==> RemovalWrite(r) == [x]
  {
  }

  /** The slot is that of an entry that the finalizer gets to and whose role it deletes. */
  ghost predicate Swept(w: World, env: Env, namespace: string, entries: seq<RoleStatus>, n: string, slot: string) {
    exists i | 0 <= i < |entries| ::
      DeletesAt(w, env, namespace, entries[i], n, slot) && NoneBlocks(w, env, namespace, entries[..i])
  }

  lemma SweptIffListed(w: World, env: Env, namespace: string, entries: seq<RoleStatus>, n: string, slot: string)
    ensures Swept(w, env, namespace, entries, n, slot) <==>
            exists x | x in RemovalWrites(w, env, namespace, entries) :: At(x, n, slot)
  {
    hide RemovalOf, Blocks, NoneBlocks, DeletesAt, RemovalWrites, Slot;
    if Swept(w, env, namespace, entries, n, slot) {
      var i :| 0 <= i < |entries| && DeletesAt(w, env, namespace, entries[i], n, slot)
               && NoneBlocks(w, env, namespace, entries[..i]);
      EntryIs(w, env, namespace, entries[i], n, slot);
      var r := RemovalOf(w, env, namespace, entries[i]);
      var x := RemoveRole(r.instance, r.mount, r.name);
      RemovalsUpToBlock(w, env, namespace, entries, x);
      assert At(x, n, slot);
    }
    if x :| x in RemovalWrites(w, env, namespace, entries) && At(x, n, slot) {
      RemovalsUpToBlock(w, env, namespace, entries, x);
      var i :| 0 <= i < |entries| && RemovalWrite(RemovalOf(w, env, namespace, entries[i])) == [x]
               && NoneBlocks(w, env, namespace, entries[..i]);
      EntryIs(w, env, namespace, entries[i], n, slot);
    }
  }

  // ---- The run ------------------------------------------------------------------------------------------------------

  predicate TerminatingBinding(w: World, env: Env, key: Key) {
    key in w.bindings && BindingRef(key) !in env.faults && env.mountPrefix.Some? && w.bindings[key].meta.deleting
  }

  lemma TeardownResult(w: World, env: Env, key: Key)
    requires TerminatingBinding(w, env, key)
    ensures var entries := w.bindings[key].status.roles;
            var u := ApplyAll(w, RemovalWrites(w, env, key.namespace, entries));
            Reconcile(w, env, BindingRef(key))
            == if NoneBlocks(w, env, key.namespace, entries) && OwnFinalizer in w.bindings[key].meta.finalizers
               then ReleasedBinding(u, key) else u
  {
    hide RemovalWrites, SomeRemovalFails, ReleasedBinding, NoneBlocks, ApplyAll;
    var entries := w.bindings[key].status.roles;
    var xs := RemovalWrites(w, env, key.namespace, entries);
    BlocksIs(w, env, key.namespace, entries);
    if NoneBlocks(w, env, key.namespace, entries) && OwnFinalizer in w.bindings[key].meta.finalizers {
      assert Plan(w, env, BindingRef(key)) == xs + [DropBindingFinalizer(key)];
      ApplySnoc(w, xs, DropBindingFinalizer(key));
    } else {
      assert Plan(w, env, BindingRef(key)) == xs + [];
      assert xs + [] == xs;
    }
  }

  lemma ReleasedIs(w: World, key: Key)
    requires key in w.bindings && w.bindings[key].meta.deleting
    ensures var o := w.bindings[key]; var m := o.meta.(finalizers := o.meta.finalizers - {OwnFinalizer});
            ReleasedBinding(w, key)
            == w.(bindings := if m.finalizers == {} then w.bindings - {key} else w.bindings[key := o.(meta := m)])
  {
  }

  /**
   A terminating binding keeps its finalizer, and stays as it is, exactly when some recorded entry meets a
   failed listing, an instance read error or a refused deletion; else the finalizer goes, and the binding with
   it if that was the last. The roles deleted are those of the entries before the first that blocks; every
   other role and all else in the backends stays.
   */
  lemma FinalizerIsExact(w: World, env: Env, key: Key, n: string, slot: string)
    requires TerminatingBinding(w, env, key)
    ensures var v, o := Reconcile(w, env, BindingRef(key)), w.bindings[key];
            var entries, m := o.status.roles, o.meta.(finalizers := o.meta.finalizers - {OwnFinalizer});
            && OnlyRoles(w.(bindings := v.bindings), v)
            && v.bindings
               == (if !NoneBlocks(w, env, key.namespace, entries) || OwnFinalizer !in o.meta.finalizers then w.bindings
                              else if m.finalizers == {} then w.bindings - {key} else w.bindings[key := o.(meta := m)])
            && (slot in RolesIn(v, n) <==>
                slot in RolesIn(w, n) && !Swept(w, env, key.namespace, entries, n, slot))
            && (slot in RolesIn(v, n) ==> RolesIn(v, n)[slot] == RolesIn(w, n)[slot])
  {
    hide RemovalWrites, Reconcile, ApplyAll, At, Swept, NoneBlocks, ReleasedBinding;
    var entries := w.bindings[key].status.roles;
    var xs := RemovalWrites(w, env, key.namespace, entries);
    var u := ApplyAll(w, xs);
    TeardownResult(w, env, key);
    RemovalsAre(w, env, key.namespace, entries);
    RolesLeft(w, xs, n, slot);
    SweptIffListed(w, env, key.namespace, entries, n, slot);
    ReleasedIs(u, key);
  }

  /** An absent object, a failing read, or no service configuration: nothing happens. */
  lemma BindingUntouched(w: World, env: Env, key: Key)
    requires key !in w.bindings || BindingRef(key) in env.faults || env.mountPrefix.None?
    ensures Reconcile(w, env, BindingRef(key)) == w
  {
  }
}
