/**
 Each reconciler as the list of external writes one undisturbed run makes, in order. A run that
 crashes, or whose next write is refused, has made a prefix of that list.
 */
module Plans {
  import opened Wrappers
  import opened Text
  import opened Naming
  import opened Identity
  import opened Conditions
  import opened Backend
  import opened Api

  // ---- OpenBaoInstance (openbaoinstance_controller.go) ------------------------------------------

  function InstanceFailed(st: InstanceStatus, generation: int, message: Message): InstanceStatus {
    st.(conditions := FailWith(st.conditions, generation, OpenBaoReachable, OpenBaoUnreachable, message, message))
  }

  function InstanceProbed(st: InstanceStatus, generation: int, info: HealthInfo): InstanceStatus {
    var s := st.(version := info.version, initialized := Some(info.initialized), sealed := Some(info.sealed));
    if info.sealed || !info.initialized then InstanceFailed(s, generation, About("backend"))
    else
      s.(conditions := MarkReady(Upsert(s.conditions,
                                        Condition(OpenBaoReachable, Yes, Reconciled, NoMessage, generation)),
                                 generation))
  }

  function InstanceNext(w: World, env: Env, name: string, o: Instance): InstanceStatus {
    var st := o.status.(observed := o.meta.generation);
    match Client(w, env, name)
    case Failure(text) => InstanceFailed(st, o.meta.generation, ErrorText(text))
    case Success(b) =>
      if b.healthErr.Some? then InstanceFailed(st, o.meta.generation, ErrorText(b.healthErr.value))
      else InstanceProbed(st, o.meta.generation, b.health)
  }

  function InstancePlan(w: World, env: Env, name: string): seq<Write> {
    match Get(w.instances, name, InstanceRef(name) in env.faults)
    case Found(o) =>
      if o.meta.deleting || env.mountPrefix.None? then [] else [PutInstance(name, InstanceNext(w, env, name, o))]
    case _ => []
  }

  // ---- ProjectEntity (projectentity_controller.go) ----------------------------------------------

  function ProjectEntityBlocked(st: ProjectEntityStatus, generation: int, reason: Reason, message: Message)
    : ProjectEntityStatus
  {
    st.(conditions := DependencyNotReady(st.conditions, generation, reason, message))
  }

  function ProjectEntityDone(st: ProjectEntityStatus, generation: int, id: string): ProjectEntityStatus {
    st.(entityID := id, conditions := MarkReady(st.conditions, generation))
  }

  datatype ProjectEntityGate =
    | ProjectEntityAborts
    | ProjectEntityReports(status: ProjectEntityStatus)
    | ProjectEntityEnrols(instance: string, name: string, status: ProjectEntityStatus)

  function ProjectEntityGateOf(w: World, env: Env, key: Key, o: ProjectEntity): (gate: ProjectEntityGate)
    ensures gate.ProjectEntityEnrols? ==> gate.instance in w.backends
  {
    var g, n := o.meta.generation, o.spec.instance;
    var st := o.status.(observed := g);
    match Get(w.instances, n, InstanceRef(n) in env.faults)
    case ApiError => ProjectEntityAborts
    case NotFound => ProjectEntityReports(ProjectEntityBlocked(st, g, DependencyNotFound, About(n)))
    case Found(inst) =>
      var st1 := st.(resolved := n);
      if !Reachable(inst) then ProjectEntityReports(ProjectEntityBlocked(st1, g, OpenBaoUnreachable, About(n)))
      else
        match Client(w, env, n)
        case Failure(text) => ProjectEntityReports(ProjectEntityBlocked(st1, g, OpenBaoUnreachable, ErrorText(text)))
        case Success(_) =>
          if CallEntity(n) in env.callErrors then
            ProjectEntityReports(ProjectEntityBlocked(st1, g, ReconcileError, ErrorText(env.callErrors[CallEntity(n)])))
          else
            ProjectEntityEnrols(n, EntityName(env.sha, key.namespace, key.name), st1)
  }

  function ProjectEntityBody(w: World, env: Env, key: Key, o: ProjectEntity): seq<Write> {
    match ProjectEntityGateOf(w, env, key, o)
    case ProjectEntityAborts => []
    case ProjectEntityReports(st) => [PutProjectEntity(key, st)]
    case ProjectEntityEnrols(n, name, st) =>
      [WriteEntity(n, name),
       PutProjectEntity(key, ProjectEntityDone(st, o.meta.generation, EntityID(BackendOf(w, n), name)))]
  }

  function ProjectEntityPlan(w: World, env: Env, key: Key): seq<Write> {
    match Get(w.projectEntities, key, ProjectEntityRef(key) in env.faults)
    case Found(o) => if o.meta.deleting || env.mountPrefix.None? then [] else ProjectEntityBody(w, env, key, o)
    case _ => []
  }

  // ---- ControlPlaneTrust (controlplanetrust_controller.go) ----------------------------------------

  function ResolveAuthMountPrefix(configured: string, spec: InstanceSpec): string {
    if spec.mountPrefix.Some? && spec.mountPrefix.value != "" then spec.mountPrefix.value else configured
  }

  function TrustMount(env: Env, key: Key, spec: TrustSpec, inst: Instance): string
    requires env.mountPrefix.Some?
  {
    AuthMountPath(env.sha, ResolveAuthMountPrefix(env.mountPrefix.value, inst.spec), key.namespace, spec.controlPlane)
  }

  function TrustBlocked(st: TrustStatus, generation: int, reason: Reason, message: Message): TrustStatus {
    st.(conditions := DependencyNotReady(st.conditions, generation, reason, message))
  }

  function TrustFailed(st: TrustStatus, generation: int, reason: Reason, message: Message, summary: Message)
    : TrustStatus
  {
    st.(conditions := FailWith(st.conditions, generation, TrustConfigured, reason, message, summary))
  }

  /** A backend call failed: only TrustConfigured turns False, Ready is left as it was. */
  function TrustCallFailed(st: TrustStatus, generation: int, text: string): TrustStatus {
    st.(conditions := Upsert(st.conditions,
                             Condition(TrustConfigured, No, ReconcileError, ErrorText(text), generation)))
  }

  function TrustDone(st: TrustStatus, generation: int): TrustStatus {
    st.(conditions := MarkReady(Upsert(st.conditions,
                                       Condition(TrustConfigured, Yes, Reconciled, NoMessage, generation)),
                                generation))
  }

  /** How far the gates before the first backend call let a run come. */
  datatype TrustGate =
    | TrustAborts
    | TrustReports(status: TrustStatus)
    | TrustConfigures(instance: string, path: string, config: JWTAuthConfig, status: TrustStatus)

  function TrustConfig(issuer: string): JWTAuthConfig {
    JWTAuthConfig(issuer + "/jwks", issuer)
  }

  function TrustGateOf(w: World, env: Env, key: Key, o: Trust): TrustGate
    requires env.mountPrefix.Some?
  {
    var g, pk := o.meta.generation, o.spec.projectEntity;
    var st := o.status.(observed := g);
    match Get(w.projectEntities, pk, ProjectEntityRef(pk) in env.faults)
    case ApiError => TrustAborts
    case NotFound => TrustReports(TrustBlocked(st, g, DependencyNotFound, About(pk.name)))
    case Found(pe) =>
      var n := pe.spec.instance;
      match Get(w.instances, n, InstanceRef(n) in env.faults)
      case ApiError => TrustAborts
      case NotFound => TrustReports(TrustBlocked(st, g, DependencyNotFound, About(n)))
      case Found(inst) =>
        var st1 := st.(resolved := n);
        if !Reachable(inst) then TrustReports(TrustBlocked(st1, g, OpenBaoUnreachable, About(n)))
        else TrustPastInstance(env, key, o, st1, inst)
  }

  function TrustPastInstance(env: Env, key: Key, o: Trust, st: TrustStatus, inst: Instance): TrustGate
    requires env.mountPrefix.Some?
  {
    var g, ck := o.meta.generation, Key(key.namespace, o.spec.controlPlane);
    match Get(env.controlPlanes, ck, ControlPlaneRef(ck) in env.faults)
    case ApiError => TrustAborts
    case NotFound => TrustReports(TrustBlocked(st, g, DependencyNotFound, About(ck.name)))
    case Found(endpoints) =>
      var issuer := ControlPlaneIssuer(endpoints);
      if issuer == "" then TrustReports(TrustFailed(st, g, IssuerDiscoveryFailed, About(ck.name), About("issuer")))
      else
        var path := TrustMount(env, key, o.spec, inst);
        TrustConfigures(st.resolved, path, TrustConfig(issuer),
                        st.(issuer := issuer, audience := ResolveControlPlaneAudience(o.spec.audience),
                            authMountPath := path))
  }

  function TrustBackendWrites(w: World, env: Env, key: Key, generation: int, gate: TrustGate): seq<Write>
    requires gate.TrustConfigures?
  {
    var n, st := gate.instance, gate.status;
    match Client(w, env, n)
    case Failure(text) =>
      [PutTrust(key, TrustFailed(st, generation, OpenBaoUnreachable, ErrorText(text), ErrorText(text)))]
    case Success(_) =>
      if CallMount(n) in env.callErrors then
        [PutTrust(key, TrustCallFailed(st, generation, env.callErrors[CallMount(n)]))]
      else if CallConfig(n) in env.callErrors then
        [WriteMount(n, gate.path), PutTrust(key, TrustCallFailed(st, generation, env.callErrors[CallConfig(n)]))]
      else
        [WriteMount(n, gate.path), WriteConfig(n, gate.path, gate.config), PutTrust(key, TrustDone(st, generation))]
  }

  function TrustBody(w: World, env: Env, key: Key, o: Trust): seq<Write>
    requires env.mountPrefix.Some?
  {
    match TrustGateOf(w, env, key, o)
    case TrustAborts => []
    case TrustReports(st) => [PutTrust(key, st)]
    case TrustConfigures(n, path, config, st) =>
      TrustBackendWrites(w, env, key, o.meta.generation, TrustConfigures(n, path, config, st))
  }

  function TrustDrop(key: Key, o: Trust): seq<Write> {
    if OwnFinalizer in o.meta.finalizers then [DropTrustFinalizer(key)] else []
  }

  /** The finalizer: an unreachable instance or a missing client does not hold the object back. */
  function TrustTeardown(w: World, env: Env, key: Key, o: Trust): seq<Write> {
    var n, path := o.status.resolved, o.status.authMountPath;
    if path == "" || n == "" then TrustDrop(key, o)
    else
      match Get(w.instances, n, InstanceRef(n) in env.faults)
      case ApiError => []
      case NotFound => TrustDrop(key, o)
      case Found(inst) =>
        if !Reachable(inst) || Client(w, env, n).Failure? then TrustDrop(key, o)
        else if CallRemoveMount(n) in env.callErrors then []
        else [RemoveMount(n, path)] + TrustDrop(key, o)
  }

  function TrustPlan(w: World, env: Env, key: Key): seq<Write> {
    match Get(w.trusts, key, TrustRef(key) in env.faults)
    case Found(o) =>
      if env.mountPrefix.None? then []
      else if o.meta.deleting then TrustTeardown(w, env, key, o)
      else (if OwnFinalizer in o.meta.finalizers then [] else [AddTrustFinalizer(key)]) + TrustBody(w, env, key, o)
    case _ => []
  }

  // ---- ControlPlaneEntity (controlplaneentity_controller.go) --------------------------------------

  /** resolveServiceAccountIdentity, the token's claims being given. */
  function ResolveIdentity(env: Env, controlPlane: Key, spec: EntitySpec, audience: string)
    : Option<ServiceAccountIdentity>
  {
    var req := TokenRequest(controlPlane, spec.saNamespace, spec.saName, audience);
    if TrimSpace(spec.saNamespace) == "" || TrimSpace(spec.saName) == "" || req !in env.tokens then None
    else
      var c := env.tokens[req];
      Some(ServiceAccountIdentity(
             ControlPlaneEntityAlias(controlPlane.namespace, controlPlane.name, spec.saNamespace, spec.saName),
             c.subject, c.issuer, NormalizedAudiences(c.audience)))
  }

  function EntityBlocked(st: EntityStatus, generation: int, reason: Reason, message: Message): EntityStatus {
    st.(conditions := DependencyNotReady(st.conditions, generation, reason, message))
  }

  function EntityFailed(st: EntityStatus, generation: int, message: Message, summary: Message): EntityStatus {
    st.(conditions := FailWith(st.conditions, generation, IdentityResolved, ControlPlaneUnavailable, message, summary))
  }

  function EntityDone(st: EntityStatus, generation: int, identity: ServiceAccountIdentity, id: string): EntityStatus {
    st.(identity := Some(identity), identityID := id,
        conditions := MarkReady(Upsert(st.conditions,
                                       Condition(IdentityResolved, Yes, Reconciled, NoMessage, generation)),
                                generation))
  }

  /** The status a run persists; None when it stops on an API error. */
  function EntityNext(w: World, env: Env, key: Key, o: Entity): Option<EntityStatus> {
    var g, tk := o.meta.generation, Key(key.namespace, o.spec.trust);
    var st := o.status.(observed := g);
    match Get(w.trusts, tk, TrustRef(tk) in env.faults)
    case ApiError => None
    case NotFound => Some(EntityBlocked(st, g, DependencyNotFound, About(tk.name)))
    case Found(trust) =>
      if !IsTrue(trust.status.conditions, TrustConfigured) then
        Some(EntityBlocked(st, g, DependencyMissesReadiness, About(tk.name)))
      else EntityPastTrust(env, key, o, st, trust)
  }

  function EntityPastTrust(env: Env, key: Key, o: Entity, st: EntityStatus, trust: Trust): Option<EntityStatus> {
    var g, ck := o.meta.generation, Key(key.namespace, trust.spec.controlPlane);
    match Get(env.controlPlanes, ck, ControlPlaneRef(ck) in env.faults)
    case ApiError => None
    case NotFound => Some(EntityBlocked(st, g, DependencyNotFound, About(ck.name)))
    case Found(endpoints) =>
      if ControlPlaneIssuer(endpoints) == "" then Some(EntityFailed(st, g, About(ck.name), About("issuer")))
      else if ck in env.accessErrors then Some(EntityFailed(st, g, ErrorText(env.accessErrors[ck]), About("access")))
      else
        var id := ResolveIdentity(env, ck, o.spec, ResolveControlPlaneAudience(trust.status.audience));
        match id
        case None => Some(EntityFailed(st, g, About(o.spec.saName), About("identity")))
        case Some(identity) => Some(EntityDone(st, g, identity, IdentityID(env.sha, id)))
  }

  function EntityPlan(w: World, env: Env, key: Key): seq<Write> {
    match Get(w.entities, key, EntityRef(key) in env.faults)
    case Found(o) =>
      if o.meta.deleting || env.mountPrefix.None? then []
      else
        (match EntityNext(w, env, key, o)
         case None => []
         case Some(st) => [PutEntity(key, st)])
    case _ => []
  }

  // ---- PolicyBinding (policybinding_controller.go) ------------------------------------------------

  datatype Check = NotChecked | CheckFailed | CheckUnknown | CheckMissing | CheckPresent

  datatype RoleWrite = RoleWrite(instance: string, mount: string, role: JWTRole)

  /** What the loop body does for one reference; allRolesReady falls exactly when something blocks. */
  datatype RefOutcome =
    | RefAborts
    | RefOutcome(entry: RoleStatus, missing: bool, blocking: seq<Message>, check: Check, write: Option<RoleWrite>)

  function BindingRoleName(env: Env, key: Key, ref: string): string {
    RoleName(env.sha, key.namespace, key.name + "-" + ref)
  }

  function RefBlocked(ref: string, roleName: string, mount: string, missing: bool, message: Message): RefOutcome {
    RefOutcome(RoleStatus(ref, roleName, mount, false, message), missing, [message], NotChecked, None)
  }

  predicate EntityUsable(o: Entity) {
    IsTrue(o.status.conditions, IdentityResolved) && o.status.identity.Some? && o.status.identity.value.subject != ""
  }

  predicate TrustUsable(o: Trust) {
    o.status.authMountPath != "" && o.status.resolved != "" && IsTrue(o.status.conditions, TrustConfigured)
  }

  function BoundRole(spec: BindingSpec, roleName: string, subject: string, audience: string): JWTRole {
    JWTRole(roleName, "jwt", [audience], subject, "sub", [spec.policyName], spec.ttl, spec.maxTTL)
  }

  function CheckOf(env: Env, instance: string, b: State, policyName: string): Check {
    if CallPolicy(instance) in env.callErrors then CheckFailed
    else
      var e := CheckPolicy(b, policyName);
      if !e.known then CheckUnknown else if !e.present then CheckMissing else CheckPresent
  }

  function CheckMessage(env: Env, instance: string, check: Check, policyName: string): Message {
    match check
    case CheckFailed =>
      if CallPolicy(instance) in env.callErrors then ErrorText(env.callErrors[CallPolicy(instance)]) else NoMessage
    case CheckMissing => About(policyName)
    case _ => NoMessage
  }

  /** The loop body from the policy check on. */
  function RefAtBackend(env: Env, spec: BindingSpec, ref: string, roleName: string, trust: Trust, subject: string,
                        b: State)
    : RefOutcome
  {
    var n, mount := trust.status.resolved, trust.status.authMountPath;
    var check := CheckOf(env, n, b, spec.policyName);
    var message := CheckMessage(env, n, check, spec.policyName);
    var blocking := if check.CheckFailed? || check.CheckMissing? then [message] else [];
    var call := CallRole(n, mount, roleName);
    if call in env.callErrors || mount !in b.mounts then
      var failure := ErrorText(if call in env.callErrors then env.callErrors[call] else "not found");
      RefOutcome(RoleStatus(ref, roleName, mount, false, failure), false, blocking + [failure], check, None)
    else
      RefOutcome(RoleStatus(ref, roleName, mount, IsEmpty(message), message), false, blocking, check,
                 Some(RoleWrite(n, mount, BoundRole(spec, roleName, subject, trust.status.audience))))
  }

  function RefPastTrust(w: World, env: Env, spec: BindingSpec, ref: string, roleName: string, trust: Trust,
                        subject: string)
    : RefOutcome
  {
    var n, mount := trust.status.resolved, trust.status.authMountPath;
    match Get(w.instances, n, InstanceRef(n) in env.faults)
    case ApiError => RefAborts
    case NotFound => RefBlocked(ref, roleName, mount, false, About(n))
    case Found(inst) =>
      if !Reachable(inst) then RefBlocked(ref, roleName, mount, false, About(n))
      else
        match Client(w, env, n)
        case Failure(text) => RefBlocked(ref, roleName, mount, false, ErrorText(text))
        case Success(b) => RefAtBackend(env, spec, ref, roleName, trust, subject, b)
  }

  function RefOutcomeOf(w: World, env: Env, key: Key, spec: BindingSpec, ref: string): RefOutcome {
    var roleName, ek := BindingRoleName(env, key, ref), Key(key.namespace, ref);
    match Get(w.entities, ek, EntityRef(ek) in env.faults)
    case Found(entity) =>
      if !EntityUsable(entity) then RefBlocked(ref, roleName, "", false, About(ref))
      else
        var tk := Key(key.namespace, entity.spec.trust);
        (match Get(w.trusts, tk, TrustRef(tk) in env.faults)
         case Found(trust) =>
           if !TrustUsable(trust) then RefBlocked(ref, roleName, "", false, About(tk.name))
           else RefPastTrust(w, env, spec, ref, roleName, trust, entity.status.identity.value.subject)
         case _ => RefBlocked(ref, roleName, "", true, About(tk.name)))
    case _ => RefBlocked(ref, roleName, "", true, About(ref))
  }

  function Outcomes(w: World, env: Env, key: Key, spec: BindingSpec, refs: seq<string>): (outs: seq<RefOutcome>)
    ensures |outs| == |refs|
    ensures forall i | 0 <= i < |refs| :: outs[i] == RefOutcomeOf(w, env, key, spec, refs[i])
  {
    seq(|refs|, i requires 0 <= i < |refs| => RefOutcomeOf(w, env, key, spec, refs[i]))
  }

  predicate Aborted(outs: seq<RefOutcome>) {
    exists i | 0 <= i < |outs| :: outs[i].RefAborts?
  }

  function RoleWriteOf(out: RefOutcome): seq<Write> {
    if out.RefOutcome? && out.write.Some? then
      [WriteRole(out.write.value.instance, out.write.value.mount, out.write.value.role)]
    else []
  }

  /** The role writes of a loop over these outcomes: all before the first aborting one. */
  function LoopWrites(outs: seq<RefOutcome>): seq<Write> {
    if outs == [] then []
    else
      var before := outs[..|outs| - 1];
      if Aborted(before) then LoopWrites(before) else LoopWrites(before) + RoleWriteOf(outs[|outs| - 1])
  }

  function Entries(outs: seq<RefOutcome>): (entries: seq<RoleStatus>)
    requires !Aborted(outs)
    ensures |entries| == |outs| && forall i | 0 <= i < |outs| :: entries[i] == outs[i].entry
  {
    seq(|outs|, i requires 0 <= i < |outs| => outs[i].entry)
  }

  function Blocking(outs: seq<RefOutcome>): (messages: seq<Message>)
    requires !Aborted(outs)
    ensures messages == [] <==> forall i | 0 <= i < |outs| :: outs[i].blocking == []
  {
    if outs == [] then [] else Blocking(outs[..|outs| - 1]) + outs[|outs| - 1].blocking
  }

  predicate SomeMissing(outs: seq<RefOutcome>) {
    exists i | 0 <= i < |outs| :: outs[i].RefOutcome? && outs[i].missing
  }

  predicate SomeChecked(outs: seq<RefOutcome>) {
    exists i | 0 <= i < |outs| :: outs[i].RefOutcome? && outs[i].check != NotChecked
  }

  predicate AllKnown(outs: seq<RefOutcome>) {
    forall i | 0 <= i < |outs| :: outs[i].RefOutcome? ==> outs[i].check != CheckFailed && outs[i].check != CheckUnknown
  }

  predicate AllPresent(outs: seq<RefOutcome>) {
    forall i | 0 <= i < |outs| :: outs[i].RefOutcome? ==> outs[i].check != CheckMissing
  }

  function PolicyVerdict(outs: seq<RefOutcome>): Status {
    if !SomeChecked(outs) || !AllKnown(outs) then Unknown else if !AllPresent(outs) then No else Yes
  }

  function PolicyCondition(verdict: Status, policyName: string, generation: int): Condition {
    match verdict
    case Unknown => Condition(PolicyResolved, Unknown, PolicyCheckSkipped, NoMessage, generation)
    case No => Condition(PolicyResolved, No, PolicyNotFound, About(policyName), generation)
    case Yes => Condition(PolicyResolved, Yes, PolicyFound, NoMessage, generation)
  }

  function BindingConditions(cs: seq<Condition>, generation: int, policyName: string, outs: seq<RefOutcome>)
    : seq<Condition>
    requires !Aborted(outs)
  {
    var cs1 := Upsert(cs, PolicyCondition(PolicyVerdict(outs), policyName, generation));
    if !AllPresent(outs) then
      Upsert(cs1, Condition(Ready, No, WaitingForPolicy, About(policyName), generation))
    else if Blocking(outs) != [] then
      DependencyNotReady(cs1, generation, if SomeMissing(outs) then DependencyNotFound else DependencyMissesReadiness,
                         Joined(Blocking(outs)))
    else MarkReady(cs1, generation)
  }

  function BindingNext(o: Binding, outs: seq<RefOutcome>): BindingStatus
    requires !Aborted(outs)
  {
    BindingStatus(o.meta.generation, Entries(outs), o.spec.policyName, PolicyVerdict(outs),
                  BindingConditions(o.status.conditions, o.meta.generation, o.spec.policyName, outs))
  }

  function BindingBody(w: World, env: Env, key: Key, o: Binding): seq<Write> {
    var outs := Outcomes(w, env, key, o.spec, o.spec.refs);
    LoopWrites(outs) + if Aborted(outs) then [] else [PutBinding(key, BindingNext(o, outs))]
  }

  // ---- PolicyBinding teardown -----------------------------------------------------------------------

  /** findTrustForAuthMount: the first listed trust of the namespace whose status carries the path. */
  function FindTrustForAuthMount(w: World, listing: seq<Key>, namespace: string, path: string): Option<Trust> {
    if listing == [] then None
    else if listing[0].namespace == namespace && listing[0] in w.trusts
            && w.trusts[listing[0]].status.authMountPath == path
    then Some(w.trusts[listing[0]])
    else FindTrustForAuthMount(w, listing[1..], namespace, path)
  }

  datatype Removal = RemovalSkipped | RemovalFails | Removes(instance: string, mount: string, name: string)

  function RemovalOf(w: World, env: Env, namespace: string, entry: RoleStatus): Removal {
    if entry.roleName == "" || entry.authMountPath == "" then RemovalSkipped
    else if env.trustListing.None? then RemovalFails
    else
      var found := FindTrustForAuthMount(w, env.trustListing.value, namespace, entry.authMountPath);
      if found.None? || found.value.status.resolved == "" then RemovalSkipped
      else
        var n := found.value.status.resolved;
        match Get(w.instances, n, InstanceRef(n) in env.faults)
        case ApiError => RemovalFails
        case NotFound => RemovalSkipped
        case Found(inst) =>
          if !Reachable(inst) || Client(w, env, n).Failure? then RemovalSkipped
          else if CallRemoveRole(n, entry.authMountPath, entry.roleName) in env.callErrors then RemovalFails
          else Removes(n, entry.authMountPath, entry.roleName)
  }

  predicate SomeRemovalFails(w: World, env: Env, namespace: string, entries: seq<RoleStatus>) {
    exists i | 0 <= i < |entries| :: RemovalOf(w, env, namespace, entries[i]).RemovalFails?
  }

  function RemovalWrite(r: Removal): seq<Write> {
    match r
    case Removes(n, mount, name) => [RemoveRole(n, mount, name)]
    case _ => []
  }

  function RemovalWrites(w: World, env: Env, namespace: string, entries: seq<RoleStatus>): seq<Write> {
    if entries == [] then []
    else
      var before := entries[..|entries| - 1];
      if SomeRemovalFails(w, env, namespace, before) then RemovalWrites(w, env, namespace, before)
      else
        RemovalWrites(w, env, namespace, before) + RemovalWrite(RemovalOf(w, env, namespace, entries[|entries| - 1]))
  }

  function BindingTeardown(w: World, env: Env, key: Key, o: Binding): seq<Write> {
    RemovalWrites(w, env, key.namespace, o.status.roles)
    + if SomeRemovalFails(w, env, key.namespace, o.status.roles) || OwnFinalizer !in o.meta.finalizers then []
      else [DropBindingFinalizer(key)]
  }

  function BindingPlan(w: World, env: Env, key: Key): seq<Write> {
    match Get(w.bindings, key, BindingRef(key) in env.faults)
    case Found(o) =>
      if env.mountPrefix.None? then []
      else if o.meta.deleting then BindingTeardown(w, env, key, o)
      else (if OwnFinalizer in o.meta.finalizers then [] else [AddBindingFinalizer(key)]) + BindingBody(w, env, key, o)
    case _ => []
  }

  // ---- All five -----------------------------------------------------------------------------------

  function Plan(w: World, env: Env, ref: Ref): seq<Write> {
    match ref
    case InstanceRef(name) => InstancePlan(w, env, name)
    case ProjectEntityRef(key) => ProjectEntityPlan(w, env, key)
    case TrustRef(key) => TrustPlan(w, env, key)
    case EntityRef(key) => EntityPlan(w, env, key)
    case BindingRef(key) => BindingPlan(w, env, key)
    case ControlPlaneRef(_) => []
  }

  /** One whole reconcile of one object. */
  function Reconcile(w: World, env: Env, ref: Ref): World {
    ApplyAll(w, Plan(w, env, ref))
  }
}
