/**
 The five resource kinds, the cluster that stores them beside the backends, what a reconcile reads
 from outside, and the external writes it can make.
 */
module Api {
  import opened Wrappers
  import opened Naming
  import opened Identity
  import opened Conditions
  import opened Backend

  datatype Key = Key(namespace: string, name: string)

  /** An API object; of these, control planes belong to another service and are only read. */
  datatype Ref =
    | InstanceRef(name: string)
    | ProjectEntityRef(key: Key)
    | TrustRef(key: Key)
    | EntityRef(key: Key)
    | BindingRef(key: Key)
    | ControlPlaneRef(key: Key)

  datatype Finalizer = OwnFinalizer | Foreign(name: string)

  datatype Meta = Meta(generation: int, deleting: bool, finalizers: set<Finalizer>)

  // ---- OpenBaoInstance ------------------------------------------------------------------------

  datatype InstanceSpec = InstanceSpec(mountPrefix: Option<string>)
  datatype InstanceStatus = InstanceStatus(observed: int, version: string, initialized: Option<bool>,
                                           sealed: Option<bool>, conditions: seq<Condition>)
  datatype Instance = Instance(meta: Meta, spec: InstanceSpec, status: InstanceStatus)

  // ---- ProjectEntity --------------------------------------------------------------------------

  datatype ProjectEntitySpec = ProjectEntitySpec(instance: string)
  datatype ProjectEntityStatus = ProjectEntityStatus(observed: int, entityID: string, resolved: string,
                                                     conditions: seq<Condition>)
  datatype ProjectEntity = ProjectEntity(meta: Meta, spec: ProjectEntitySpec, status: ProjectEntityStatus)

  // ---- ControlPlaneTrust ----------------------------------------------------------------------

  datatype TrustSpec = TrustSpec(projectEntity: Key, controlPlane: string, audience: string)
  datatype TrustStatus = TrustStatus(observed: int, authMountPath: string, issuer: string, audience: string,
                                     resolved: string, conditions: seq<Condition>)
  datatype Trust = Trust(meta: Meta, spec: TrustSpec, status: TrustStatus)

  // ---- ControlPlaneEntity ---------------------------------------------------------------------

  datatype EntitySpec = EntitySpec(trust: string, saNamespace: string, saName: string)
  datatype EntityStatus = EntityStatus(observed: int, identity: Option<ServiceAccountIdentity>, identityID: string,
                                       conditions: seq<Condition>)
  datatype Entity = Entity(meta: Meta, spec: EntitySpec, status: EntityStatus)

  // ---- PolicyBinding --------------------------------------------------------------------------

  datatype BindingSpec = BindingSpec(policyName: string, refs: seq<string>, ttl: string, maxTTL: string)
  datatype RoleStatus = RoleStatus(ref: string, roleName: string, authMountPath: string, ready: bool, message: Message)
  datatype BindingStatus = BindingStatus(observed: int, roles: seq<RoleStatus>, policyName: string,
                                         policyExists: Status, conditions: seq<Condition>)
  datatype Binding = Binding(meta: Meta, spec: BindingSpec, status: BindingStatus)

  // ---- The world ------------------------------------------------------------------------------

  datatype World = World(
    instances: map<string, Instance>,
    projectEntities: map<Key, ProjectEntity>,
    trusts: map<Key, Trust>,
    entities: map<Key, Entity>,
    bindings: map<Key, Binding>,
    backends: map<string, State>)

  datatype Call =
    | CallFactory(instance: string)
    | CallEntity(instance: string)
    | CallMount(instance: string)
    | CallConfig(instance: string)
    | CallPolicy(instance: string)
    | CallRole(instance: string, mount: string, name: string)
    | CallRemoveRole(instance: string, mount: string, name: string)
    | CallRemoveMount(instance: string)

  datatype TokenRequest = TokenRequest(controlPlane: Key, saNamespace: string, saName: string, audience: string)
  datatype Claims = Claims(issuer: string, subject: string, audience: RawAudience)

  /**
   What one reconcile meets outside the world: the service configuration (None when it cannot be
   fetched or is invalid), reads that fail with an API error, backend calls that answer an error
   text and write nothing, the control planes, and the claims of the tokens it can obtain.
   */
  datatype Env = Env(
    sha: Digest,
    mountPrefix: Option<string>,
    faults: set<Ref>,
    callErrors: map<Call, string>,
    controlPlanes: map<Key, seq<Endpoint>>,
    accessErrors: map<Key, string>,
    tokens: map<TokenRequest, Claims>,
    trustListing: Option<seq<Key>>)

  function Get<K, V>(objects: map<K, V>, key: K, faulty: bool): Lookup<V> {
    if faulty then ApiError else if key in objects then Found(objects[key]) else NotFound
  }

  /** The client factory: a client is the backend of its instance. */
  function Client(w: World, env: Env, instance: string): Result<State, string> {
    if CallFactory(instance) in env.callErrors then Failure(env.callErrors[CallFactory(instance)])
    else if instance in w.backends then Success(w.backends[instance])
    else Failure("no backend")
  }

  function BackendOf(w: World, instance: string): State {
    if instance in w.backends then w.backends[instance] else FRESH
  }

  predicate Reachable(o: Instance) {
    IsTrue(o.status.conditions, OpenBaoReachable)
  }

  // ---- External writes ------------------------------------------------------------------------

  datatype Write =
    | PutInstance(instance: string, instanceStatus: InstanceStatus)
    | PutProjectEntity(key: Key, projectEntityStatus: ProjectEntityStatus)
    | PutTrust(key: Key, trustStatus: TrustStatus)
    | PutEntity(key: Key, entityStatus: EntityStatus)
    | PutBinding(key: Key, bindingStatus: BindingStatus)
    | AddTrustFinalizer(key: Key)
    | DropTrustFinalizer(key: Key)
    | AddBindingFinalizer(key: Key)
    | DropBindingFinalizer(key: Key)
    | WriteEntity(backend: string, name: string)
    | WriteMount(backend: string, path: string)
    | WriteConfig(backend: string, path: string, config: JWTAuthConfig)
    | WriteRole(backend: string, path: string, role: JWTRole)
    | RemoveRole(backend: string, path: string, name: string)
    | RemoveMount(backend: string, path: string)

  function Held(meta: Meta, present: bool): Meta {
    meta.(finalizers := if present then meta.finalizers + {OwnFinalizer} else meta.finalizers - {OwnFinalizer})
  }

  /** An object marked for deletion goes once its last finalizer does. */
  predicate Gone(meta: Meta) {
    meta.deleting && meta.finalizers == {}
  }

  function OnBackend(s: State, x: Write): State {
    match x
    case WriteEntity(_, name) => WithEntity(s, name)
    case WriteMount(_, path) => WithMount(s, path)
    case WriteConfig(_, path, config) => FlatStep(s, OpConfigure(path, config)).0
    case WriteRole(_, path, role) => FlatStep(s, OpRole(path, role)).0
    case RemoveRole(_, path, name) => WithoutRole(s, path, name)
    case RemoveMount(_, path) => WithoutMount(s, path)
    case _ => s
  }

  predicate IsBackendWrite(x: Write) {
    x.WriteEntity? || x.WriteMount? || x.WriteConfig? || x.WriteRole? || x.RemoveRole? || x.RemoveMount?
  }

  function ApplyBackend(w: World, x: Write): World
    requires IsBackendWrite(x)
  {
    if x.backend in w.backends then w.(backends := w.backends[x.backend := OnBackend(w.backends[x.backend], x)]) else w
  }

  function ReleasedTrust(w: World, k: Key): World {
    if k !in w.trusts then w
    else
      var m := Held(w.trusts[k].meta, false);
      w.(trusts := if Gone(m) then w.trusts - {k} else w.trusts[k := w.trusts[k].(meta := m)])
  }

  function ReleasedBinding(w: World, k: Key): World {
    if k !in w.bindings then w
    else
      var m := Held(w.bindings[k].meta, false);
      w.(bindings := if Gone(m) then w.bindings - {k} else w.bindings[k := w.bindings[k].(meta := m)])
  }

  function Apply(w: World, x: Write): World {
    match x
    case PutInstance(n, st) =>
      if n in w.instances then w.(instances := w.instances[n := w.instances[n].(status := st)]) else w
    case PutProjectEntity(k, st) =>
      if k in w.projectEntities
      then w.(projectEntities := w.projectEntities[k := w.projectEntities[k].(status := st)])
      else w
    case PutTrust(k, st) =>
      if k in w.trusts then w.(trusts := w.trusts[k := w.trusts[k].(status := st)]) else w
    case PutEntity(k, st) =>
      if k in w.entities then w.(entities := w.entities[k := w.entities[k].(status := st)]) else w
    case PutBinding(k, st) =>
      if k in w.bindings then w.(bindings := w.bindings[k := w.bindings[k].(status := st)]) else w
    case AddTrustFinalizer(k) =>
      if k in w.trusts then w.(trusts := w.trusts[k := w.trusts[k].(meta := Held(w.trusts[k].meta, true))]) else w
    case DropTrustFinalizer(k) => ReleasedTrust(w, k)
    case AddBindingFinalizer(k) =>
      if k in w.bindings
      then w.(bindings := w.bindings[k := w.bindings[k].(meta := Held(w.bindings[k].meta, true))])
      else w
    case DropBindingFinalizer(k) => ReleasedBinding(w, k)
    case _ => ApplyBackend(w, x)
  }

  function ApplyAll(w: World, xs: seq<Write>): World
    decreases xs
  {
    if xs == [] then w else ApplyAll(Apply(w, xs[0]), xs[1..])
  }

  lemma {:induction false} ApplyAppend(w: World, xs: seq<Write>, ys: seq<Write>)
    ensures ApplyAll(w, xs + ys) == ApplyAll(ApplyAll(w, xs), ys)
    decreases xs
  {
    if xs == [] {
      assert xs + ys == ys;
    } else {
      assert (xs + ys)[1..] == xs[1..] + ys;
      ApplyAppend(Apply(w, xs[0]), xs[1..], ys);
    }
  }

  lemma ApplyOnBackends(w: World, x: Write)
    ensures IsBackendWrite(x) ==> Apply(w, x) == ApplyBackend(w, x)
    ensures !IsBackendWrite(x) ==> Apply(w, x).backends == w.backends
  {
    hide OnBackend, Held, Gone;
  }

  lemma ApplyOnUpperObjects(w: World, x: Write)
    ensures var v := Apply(w, x);
            && (!x.PutInstance? ==> v.instances == w.instances)
            && (!x.PutProjectEntity? ==> v.projectEntities == w.projectEntities)
  {
    hide OnBackend, Held, Gone;
  }

  lemma ApplyOnTrusts(w: World, x: Write)
    requires !x.PutTrust? && !x.AddTrustFinalizer? && !x.DropTrustFinalizer?
    ensures Apply(w, x).trusts == w.trusts
  {
    hide OnBackend, Held, Gone;
  }

  lemma ApplyOnLowerObjects(w: World, x: Write)
    ensures var v := Apply(w, x);
            && (!x.PutEntity? ==> v.entities == w.entities)
            && (!x.PutBinding? && !x.AddBindingFinalizer? && !x.DropBindingFinalizer? ==> v.bindings == w.bindings)
  {
    hide OnBackend, Held, Gone;
  }

  /** Each write touches one of the six maps. */
  lemma ApplyParts(w: World, x: Write)
    ensures var v := Apply(w, x);
            && (IsBackendWrite(x) ==> v == ApplyBackend(w, x))
            && (!IsBackendWrite(x) ==> v.backends == w.backends)
            && (!x.PutInstance? ==> v.instances == w.instances)
            && (!x.PutProjectEntity? ==> v.projectEntities == w.projectEntities)
            && (!x.PutTrust? && !x.AddTrustFinalizer? && !x.DropTrustFinalizer? ==> v.trusts == w.trusts)
            && (!x.PutEntity? ==> v.entities == w.entities)
            && (!x.PutBinding? && !x.AddBindingFinalizer? && !x.DropBindingFinalizer? ==> v.bindings == w.bindings)
  {
    hide Apply, ApplyBackend;
    ApplyOnBackends(w, x);
    ApplyOnUpperObjects(w, x);
    if !x.PutTrust? && !x.AddTrustFinalizer? && !x.DropTrustFinalizer? {
      ApplyOnTrusts(w, x);
    }
    ApplyOnLowerObjects(w, x);
  }

  lemma ApplyOne(w: World, x: Write)
    ensures ApplyAll(w, [x]) == Apply(w, x)
  {
    assert ApplyAll(w, [x]) == ApplyAll(Apply(w, x), []);
  }

  lemma ApplySnoc(w: World, xs: seq<Write>, x: Write)
    ensures ApplyAll(w, xs + [x]) == Apply(ApplyAll(w, xs), x)
  {
    ApplyAppend(w, xs, [x]);
    ApplyOne(ApplyAll(w, xs), x);
  }
}
