/** What one reconcile of an entity does, from its inputs: what it waits for, and which identity it stores. */
module EntityOutcomes {
  import opened Wrappers
  import opened Text
  import opened Naming
  import opened Identity
  import opened IdentityLaws
  import opened Conditions
  import opened Reporting
  import opened Backend
  import opened Api
  import opened Plans

  predicate LiveEntity(w: World, env: Env, k: Key) {
    k in w.entities && !w.entities[k].meta.deleting && EntityRef(k) !in env.faults && env.mountPrefix.Some?
  }

  function TrustKey(w: World, k: Key): Key
    requires k in w.entities
  {
    Key(k.namespace, w.entities[k].spec.trust)
  }

  predicate OnTrust(w: World, k: Key)
    requires k in w.entities
  {
    TrustKey(w, k) in w.trusts
  }

  predicate OnConfigured(w: World, k: Key)
    requires k in w.entities
  {
    OnTrust(w, k) && IsTrue(w.trusts[TrustKey(w, k)].status.conditions, TrustConfigured)
  }

  function ControlPlaneKey(w: World, k: Key): Key
    requires k in w.entities && OnTrust(w, k)
  {
    Key(k.namespace, w.trusts[TrustKey(w, k)].spec.controlPlane)
  }

  /** One of the reads the run gets to fails with an API error. */
  predicate ReadFails(w: World, env: Env, k: Key)
    requires k in w.entities
  {
    || TrustRef(TrustKey(w, k)) in env.faults
    || (OnConfigured(w, k) && ControlPlaneRef(ControlPlaneKey(w, k)) in env.faults)
  }

  predicate DependenciesThere(w: World, env: Env, k: Key)
    requires k in w.entities
  {
    OnConfigured(w, k) && ControlPlaneKey(w, k) in env.controlPlanes
  }

  predicate Accessible(w: World, env: Env, k: Key)
    requires k in w.entities
  {
    && DependenciesThere(w, env, k)
    && ControlPlaneIssuer(env.controlPlanes[ControlPlaneKey(w, k)]) != "" && ControlPlaneKey(w, k) !in env.accessErrors
  }

  /** The token asked for: the entity's account, for the audience the trust has resolved. */
  function Request(w: World, k: Key): TokenRequest
    requires k in w.entities && OnTrust(w, k)
  {
    var e := w.entities[k].spec;
    TokenRequest(ControlPlaneKey(w, k), e.saNamespace, e.saName,
                 ResolveControlPlaneAudience(w.trusts[TrustKey(w, k)].status.audience))
  }

  predicate Blank(s: string) {
    Only(s, WHITE_SPACE)
  }

  /** Everything needed is there: a configured trust, the control plane, access to it, named account, token. */
  predicate Resolvable(w: World, env: Env, k: Key)
    requires k in w.entities
  {
    && Accessible(w, env, k) && !Blank(w.entities[k].spec.saNamespace) && !Blank(w.entities[k].spec.saName)
    && Request(w, k) in env.tokens
  }

  /** Only this object's status changes; it observes the generation. */
  predicate EntityReported(w: World, v: World, k: Key)
    requires k in w.entities
  {
    && k in v.entities && v == w.(entities := w.entities[k := w.entities[k].(status := v.entities[k].status)])
    && v.entities[k].status.observed == w.entities[k].meta.generation
  }

  predicate SameIdentityFields(st: EntityStatus, was: EntityStatus) {
    st.identity == was.identity && st.identityID == was.identityID
  }

  // ---- From plans to worlds -------------------------------------------------------------------------------

  lemma NextWrites(w: World, env: Env, k: Key, st: EntityStatus)
    requires LiveEntity(w, env, k) && EntityNext(w, env, k, w.entities[k]) == Some(st)
    requires st.observed == w.entities[k].meta.generation
    ensures var v := Reconcile(w, env, EntityRef(k)); EntityReported(w, v, k) && v.entities[k].status == st
  {
    hide EntityNext, ApplyAll;
    assert Plan(w, env, EntityRef(k)) == [PutEntity(k, st)];
    ApplyOne(w, PutEntity(k, st));
  }

  lemma BlankIsTrimmed(s: string)
    ensures TrimSpace(s) == "" <==> Blank(s)
  {
    var a, b := TrimCuts(s, WHITE_SPACE);
    if Blank(s) {
      assert s == s + "" + "";
      TrimPadded(s, "", "", WHITE_SPACE);
    }
  }

  /** An absent or terminating object, a failing read, or no service configuration: nothing happens. */
  lemma EntityUntouched(w: World, env: Env, k: Key)
    requires !LiveEntity(w, env, k) || ReadFails(w, env, k)
    ensures Reconcile(w, env, EntityRef(k)) == w
  {
    hide EntityBlocked, EntityFailed, EntityDone, ResolveIdentity, ControlPlaneIssuer, ResolveControlPlaneAudience,
      IsTrue;
    assert Plan(w, env, EntityRef(k)) == [];
  }

  // ---- Where a run stops ------------------------------------------------------------------------------------

  /** A dependency is missing or not configured: the run waits for it, and keeps what it knew of the identity. */
  lemma EntityWaits(w: World, env: Env, k: Key)
    requires LiveEntity(w, env, k) && !ReadFails(w, env, k) && !DependenciesThere(w, env, k)
    ensures var v, was, g := Reconcile(w, env, EntityRef(k)), w.entities[k].status, w.entities[k].meta.generation;
            && EntityReported(w, v, k)
            && (var st := v.entities[k].status;
                && SameIdentityFields(st, was)
                && if !OnTrust(w, k)
                   then Waits(was.conditions, st.conditions, DependencyNotFound, About(w.entities[k].spec.trust), g)
                   else if !OnConfigured(w, k)
                   then Waits(was.conditions, st.conditions, DependencyMissesReadiness,
                              About(w.entities[k].spec.trust), g)
                   else Waits(was.conditions, st.conditions, DependencyNotFound, About(ControlPlaneKey(w, k).name), g))
  {
    hide Reconcile, DependencyNotReady, Waits, EntityReported, IsTrue;
    var o := w.entities[k];
    if !OnTrust(w, k) {
      WaitsIs(o.status.conditions, o.meta.generation, DependencyNotFound, About(o.spec.trust));
    } else if !OnConfigured(w, k) {
      WaitsIs(o.status.conditions, o.meta.generation, DependencyMissesReadiness, About(o.spec.trust));
    } else {
      WaitsIs(o.status.conditions, o.meta.generation, DependencyNotFound, About(ControlPlaneKey(w, k).name));
    }
    NextWrites(w, env, k, EntityNext(w, env, k, o).value);
  }

  /** What is said of IdentityResolved when the control plane or the account does not give an identity. */
  function Complaint(w: World, env: Env, k: Key): Message
    requires k in w.entities && DependenciesThere(w, env, k)
  {
    var c := ControlPlaneKey(w, k);
    if ControlPlaneIssuer(env.controlPlanes[c]) == "" then About(c.name)
    else if c in env.accessErrors then ErrorText(env.accessErrors[c])
    else About(w.entities[k].spec.saName)
  }

  function Summary(w: World, env: Env, k: Key): Message
    requires k in w.entities && DependenciesThere(w, env, k)
  {
    var c := ControlPlaneKey(w, k);
    if ControlPlaneIssuer(env.controlPlanes[c]) == "" then About("issuer")
    else if c in env.accessErrors then About("access")
    else About("identity")
  }

  lemma NextFails(w: World, env: Env, k: Key)
    requires LiveEntity(w, env, k) && !ReadFails(w, env, k) && DependenciesThere(w, env, k) && !Resolvable(w, env, k)
    ensures var o := w.entities[k];
            EntityNext(w, env, k, o)
            == Some(EntityFailed(o.status.(observed := o.meta.generation), o.meta.generation,
                                 Complaint(w, env, k), Summary(w, env, k)))
  {
    hide EntityFailed, EntityDone, ControlPlaneIssuer, ResolveControlPlaneAudience, IsTrue, ControlPlaneEntityAlias,
      TrimSpace, Blank;
    BlankIsTrimmed(w.entities[k].spec.saNamespace);
    BlankIsTrimmed(w.entities[k].spec.saName);
  }

  /** No issuer, no access, no named account or no token: reported as such, and the identity known before is kept. */
  lemma EntityUnresolved(w: World, env: Env, k: Key)
    requires LiveEntity(w, env, k) && !ReadFails(w, env, k) && DependenciesThere(w, env, k) && !Resolvable(w, env, k)
    ensures var v, was, g := Reconcile(w, env, EntityRef(k)), w.entities[k].status, w.entities[k].meta.generation;
            && EntityReported(w, v, k) && SameIdentityFields(v.entities[k].status, was)
            && Fails(was.conditions, v.entities[k].status.conditions, IdentityResolved, ControlPlaneUnavailable,
                     Complaint(w, env, k), Summary(w, env, k), g)
  {
    hide Reconcile, EntityNext, FailWith, Fails, EntityReported, Resolvable, DependenciesThere, ReadFails, Complaint,
      Summary;
    var o := w.entities[k];
    NextFails(w, env, k);
    FailsIs(o.status.conditions, o.meta.generation, IdentityResolved, ControlPlaneUnavailable, Complaint(w, env, k),
            Summary(w, env, k));
    NextWrites(w, env, k, EntityNext(w, env, k, o).value);
  }

  // ---- The identity -----------------------------------------------------------------------------------------------

  /** Subject, issuer and audiences of the token, and the alias of control plane and account. */
  function Minted(w: World, env: Env, k: Key): ServiceAccountIdentity
    requires k in w.entities && Resolvable(w, env, k)
  {
    var c, e, claims := ControlPlaneKey(w, k), w.entities[k].spec, env.tokens[Request(w, k)];
    ServiceAccountIdentity(ControlPlaneEntityAlias(c.namespace, c.name, e.saNamespace, e.saName),
                           claims.subject, claims.issuer, NormalizedAudiences(claims.audience))
  }

  lemma NextResolves(w: World, env: Env, k: Key)
    requires LiveEntity(w, env, k) && !ReadFails(w, env, k) && Resolvable(w, env, k)
    ensures var o, id := w.entities[k], Minted(w, env, k);
            EntityNext(w, env, k, o)
            == Some(EntityDone(o.status.(observed := o.meta.generation), o.meta.generation, id,
                               IdentityID(env.sha, Some(id))))
  {
    hide EntityFailed, EntityDone, ControlPlaneIssuer, ResolveControlPlaneAudience, IsTrue, ControlPlaneEntityAlias,
      TrimSpace, Blank, IdentityID, NormalizedAudiences;
    BlankIsTrimmed(w.entities[k].spec.saNamespace);
    BlankIsTrimmed(w.entities[k].spec.saName);
  }

  /**
   With everything there the stored identity is that of the token just minted for the account: its subject,
   its issuer, its non-empty audiences in order, and the alias; the stored ID is the ID of that identity.
   */
  lemma EntityIsResolved(w: World, env: Env, k: Key)
    requires LiveEntity(w, env, k) && !ReadFails(w, env, k) && Resolvable(w, env, k)
    ensures var v, was, g := Reconcile(w, env, EntityRef(k)), w.entities[k].status, w.entities[k].meta.generation;
            var c, e, claims := ControlPlaneKey(w, k), w.entities[k].spec, env.tokens[Request(w, k)];
            && EntityReported(w, v, k)
            && (var st := v.entities[k].status;
                && st.identity.Some?
                && st.identity.value.subject == claims.subject && st.identity.value.issuer == claims.issuer
                && st.identity.value.audiences == NormalizedAudiences(claims.audience)
                && st.identity.value.alias == ControlPlaneEntityAlias(c.namespace, c.name, e.saNamespace, e.saName)
                && st.identityID == IdentityID(env.sha, st.identity)
                && Succeeds(was.conditions, st.conditions, {IdentityResolved}, g))
  {
    hide Reconcile, EntityNext, MarkReady, Succeeds, EntityReported, ReadFails, IdentityID, ControlPlaneEntityAlias,
      NormalizedAudiences;
    var o := w.entities[k];
    NextResolves(w, env, k);
    SucceedsIs(o.status.conditions, o.meta.generation, IdentityResolved);
    NextWrites(w, env, k, EntityNext(w, env, k, o).value);
  }

  /** In a workspace namespace the alias reads mark, project, workspace, control plane, account namespace, account. */
  lemma ResolvedInWorkspace(w: World, env: Env, k: Key, project: string, workspace: string)
    requires LiveEntity(w, env, k) && !ReadFails(w, env, k) && Resolvable(w, env, k)
    requires k.namespace == "project-" + project + "--ws-" + workspace
    requires project != "" && Alphanumeric(project[0]) && ProjectCuttable(project)
    ensures var v, e := Reconcile(w, env, EntityRef(k)), w.entities[k].spec;
            && k in v.entities && v.entities[k].status.identity.Some?
            && v.entities[k].status.identity.value.alias
               == "ocp" + ":" + project + ":" + workspace + ":" + w.trusts[TrustKey(w, k)].spec.controlPlane
                  + ":" + e.saNamespace + ":" + e.saName
  {
    hide Reconcile, Resolvable, ReadFails, ControlPlaneEntityAlias, ProjectCuttable, Succeeds, IdentityID,
      NormalizedAudiences;
    ResolvableOnTrust(w, env, k);
    EntityIsResolved(w, env, k);
    AliasInWorkspace(project, workspace, w.trusts[TrustKey(w, k)].spec.controlPlane, w.entities[k].spec.saNamespace,
                     w.entities[k].spec.saName);
  }

  lemma ResolvableOnTrust(w: World, env: Env, k: Key)
    requires k in w.entities && Resolvable(w, env, k)
    ensures OnTrust(w, k)
  {
  }

  /**
   A run whose reads do not fail ends Ready exactly when the identity can be resolved; then IdentityResolved is
   True, and otherwise identity and ID are what they were.
   */
  lemma ReadyIffResolvable(w: World, env: Env, k: Key)
    requires LiveEntity(w, env, k) && !ReadFails(w, env, k)
    ensures var v := Reconcile(w, env, EntityRef(k));
            && EntityReported(w, v, k)
            && (IsTrue(v.entities[k].status.conditions, Ready) <==> Resolvable(w, env, k))
            && (Resolvable(w, env, k) ==> IsTrue(v.entities[k].status.conditions, IdentityResolved))
            && (!Resolvable(w, env, k) ==> SameIdentityFields(v.entities[k].status, w.entities[k].status))
  {
    hide Reconcile, EntityReported, ReadFails, OnConfigured, IdentityID, ControlPlaneEntityAlias, NormalizedAudiences,
      ControlPlaneIssuer, Blank;
    if !DependenciesThere(w, env, k) {
      EntityWaits(w, env, k);
    } else if !Resolvable(w, env, k) {
      EntityUnresolved(w, env, k);
    } else {
      EntityIsResolved(w, env, k);
    }
  }
}
