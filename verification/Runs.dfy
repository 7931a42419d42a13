/**
 Runs of the whole service: users create, edit and delete objects, operators change backends, and
 reconciles happen in any order, each in its own surroundings and possibly cut off after any number
 of its external writes.
 */
module Runs {
  import opened Wrappers
  import opened Conditions
  import opened Backend
  import opened Api
  import opened Plans
  import opened Webhook

  datatype Draft =
    | DraftInstance(name: string, instance: InstanceSpec)
    | DraftProjectEntity(key: Key, projectEntity: ProjectEntitySpec)
    | DraftTrust(key: Key, trust: TrustSpec)
    | DraftEntity(key: Key, entity: EntitySpec)
    | DraftBinding(key: Key, binding: BindingSpec)

  datatype Step =
    | Reconciles(env: Env, ref: Ref, stop: nat)
    | Creates(draft: Draft, foreign: set<string>)
    | Edits(draft: Draft)
    | Deletes(ref: Ref)
    | Operates(backend: string, health: HealthInfo, healthErr: Option<string>, policies: set<string>,
               policiesUnknown: bool)

  /** A reconcile that stops after at most stop external writes. */
  function ReconcilePart(w: World, env: Env, ref: Ref, stop: nat): World {
    var plan := Plan(w, env, ref);
    ApplyAll(w, if stop < |plan| then plan[..stop] else plan)
  }

  function NewMeta(foreign: set<string>): Meta {
    Meta(1, false, set f | f in foreign :: Foreign(f))
  }

  function Edited(meta: Meta): Meta {
    meta.(generation := meta.generation + 1)
  }

  /** A creation under a name that is taken is refused. */
  function Added<K, V>(objects: map<K, V>, key: K, o: V): map<K, V> {
    if key in objects then objects else objects[key := o]
  }

  function Create(w: World, d: Draft, meta: Meta): World {
    match d
    case DraftInstance(n, spec) =>
      w.(instances := Added(w.instances, n, Instance(meta, spec, InstanceStatus(0, "", None, None, []))))
    case DraftProjectEntity(k, spec) =>
      w.(projectEntities := Added(w.projectEntities, k, ProjectEntity(meta, spec, ProjectEntityStatus(0, "", "", []))))
    case DraftTrust(k, spec) =>
      w.(trusts := Added(w.trusts, k, Trust(meta, spec, TrustStatus(0, "", "", "", "", []))))
    case DraftEntity(k, spec) =>
      w.(entities := Added(w.entities, k, Entity(meta, spec, EntityStatus(0, None, "", []))))
    case DraftBinding(k, spec) =>
      w.(bindings := Added(w.bindings, k, Binding(meta, spec, BindingStatus(0, [], "", Unknown, []))))
  }

  function EditedInstance(o: Instance, spec: InstanceSpec): Instance {
    Instance(Edited(o.meta), spec, o.status)
  }

  function EditedProjectEntity(o: ProjectEntity, spec: ProjectEntitySpec): ProjectEntity {
    ProjectEntity(Edited(o.meta), spec, o.status)
  }

  function EditedTrust(o: Trust, spec: TrustSpec): Trust {
    Trust(Edited(o.meta), spec, o.status)
  }

  function EditedEntity(o: Entity, spec: EntitySpec): Entity {
    Entity(Edited(o.meta), spec, o.status)
  }

  function EditedBinding(o: Binding, spec: BindingSpec): Binding {
    Binding(Edited(o.meta), spec, o.status)
  }

  /** An edit of an object that is not there does nothing. */
  function Edit(w: World, d: Draft): World {
    match d
    case DraftInstance(n, spec) =>
      if n in w.instances then w.(instances := w.instances[n := EditedInstance(w.instances[n], spec)]) else w
    case DraftProjectEntity(k, spec) =>
      if k in w.projectEntities then
        w.(projectEntities := w.projectEntities[k := EditedProjectEntity(w.projectEntities[k], spec)])
      else w
    case DraftTrust(k, spec) =>
      if k in w.trusts then w.(trusts := w.trusts[k := EditedTrust(w.trusts[k], spec)]) else w
    case DraftEntity(k, spec) =>
      if k in w.entities then w.(entities := w.entities[k := EditedEntity(w.entities[k], spec)]) else w
    case DraftBinding(k, spec) =>
      if k in w.bindings then w.(bindings := w.bindings[k := EditedBinding(w.bindings[k], spec)]) else w
  }

  /** The objects of a world are those of another, or of the draft's kind. */
  predicate OnlyKind(w: World, v: World, d: Draft) {
    && v.backends == w.backends
    && (!d.DraftInstance? ==> v.instances == w.instances)
    && (!d.DraftProjectEntity? ==> v.projectEntities == w.projectEntities)
    && (!d.DraftTrust? ==> v.trusts == w.trusts)
    && (!d.DraftEntity? ==> v.entities == w.entities)
    && (!d.DraftBinding? ==> v.bindings == w.bindings)
  }

  lemma CreateParts(w: World, d: Draft, meta: Meta)
    ensures OnlyKind(w, Create(w, d, meta), d)
  {
    hide Added;
  }

  lemma EditParts(w: World, d: Draft)
    ensures OnlyKind(w, Edit(w, d), d)
  {
    hide EditedInstance, EditedProjectEntity, EditedTrust, EditedEntity, EditedBinding;
  }

  function Terminating(meta: Meta): Meta {
    meta.(deleting := true)
  }

  /** What is left of a deleted object: itself marked when a finalizer holds it, nothing otherwise. */
  function Left<K, V>(objects: map<K, V>, key: K, held: bool, marked: V): map<K, V> {
    if held then objects[key := marked] else objects - {key}
  }

  function DeleteInstance(w: World, n: string): World {
    if n !in w.instances then w
    else
      var o := w.instances[n];
      w.(instances := Left(w.instances, n, o.meta.finalizers != {}, o.(meta := Terminating(o.meta))))
  }

  function DeleteProjectEntity(w: World, k: Key): World {
    if k !in w.projectEntities then w
    else
      var o := w.projectEntities[k];
      w.(projectEntities := Left(w.projectEntities, k, o.meta.finalizers != {}, o.(meta := Terminating(o.meta))))
  }

  function DeleteTrust(w: World, k: Key): World {
    if k !in w.trusts then w
    else
      var o := w.trusts[k];
      w.(trusts := Left(w.trusts, k, o.meta.finalizers != {}, o.(meta := Terminating(o.meta))))
  }

  function DeleteEntity(w: World, k: Key): World {
    if k !in w.entities then w
    else
      var o := w.entities[k];
      w.(entities := Left(w.entities, k, o.meta.finalizers != {}, o.(meta := Terminating(o.meta))))
  }

  function DeleteBinding(w: World, k: Key): World {
    if k !in w.bindings then w
    else
      var o := w.bindings[k];
      w.(bindings := Left(w.bindings, k, o.meta.finalizers != {}, o.(meta := Terminating(o.meta))))
  }

  /** A delete call the validators have admitted: gone at once without finalizers, else marked. */
  function Delete(w: World, ref: Ref): World {
    match ref
    case InstanceRef(n) => DeleteInstance(w, n)
    case ProjectEntityRef(k) => DeleteProjectEntity(w, k)
    case TrustRef(k) => DeleteTrust(w, k)
    case EntityRef(k) => DeleteEntity(w, k)
    case BindingRef(k) => DeleteBinding(w, k)
    case ControlPlaneRef(_) => w
  }

  lemma DeleteParts(w: World, ref: Ref)
    ensures var v := Delete(w, ref);
            && v.backends == w.backends
            && (!ref.InstanceRef? ==> v.instances == w.instances)
            && (!ref.ProjectEntityRef? ==> v.projectEntities == w.projectEntities)
            && (!ref.TrustRef? ==> v.trusts == w.trusts)
            && (!ref.EntityRef? ==> v.entities == w.entities)
            && (!ref.BindingRef? ==> v.bindings == w.bindings)
  {
    hide Left;
  }

  function Operate(w: World, n: string, health: HealthInfo, healthErr: Option<string>, policies: set<string>,
                   unknown: bool)
    : World
  {
    w.(backends := w.backends[n := BackendOf(w, n).(health := health, healthErr := healthErr, policies := policies,
                                                     policiesUnknown := unknown)])
  }

  function Do(w: World, s: Step): World {
    match s
    case Reconciles(env, ref, stop) => ReconcilePart(w, env, ref, stop)
    case Creates(d, foreign) => Create(w, d, NewMeta(foreign))
    case Edits(d) => Edit(w, d)
    case Deletes(ref) => if Admits(w, ref) then Delete(w, ref) else w
    case Operates(n, health, healthErr, policies, unknown) => Operate(w, n, health, healthErr, policies, unknown)
  }

  function Run(w: World, steps: seq<Step>): World
    decreases steps
  {
    if steps == [] then w else Run(Do(w, steps[0]), steps[1..])
  }

  const EMPTY_WORLD := World(map[], map[], map[], map[], map[], map[])
}
