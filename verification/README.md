# OpenBao platform service: the reconcilers, the backend and their names

A Dafny 4.11 model of the platform service that configures OpenBao from Kubernetes objects, with
proofs. `dafny verify dfyconfig.toml` checks everything.

Five kinds of objects form a pipeline: OpenBaoInstance, ProjectEntity, ControlPlaneTrust,
ControlPlaneEntity, PolicyBinding. Each has a controller whose reconcile reads the objects upstream,
writes auth mounts, JWT configurations and roles to an OpenBao backend, and persists a status with
conditions. Trusts and bindings hold finalizers that undo their backend writes, three delete
validators order the teardown, and watch maps decide what is reconciled again when something changes.

How the model is laid out:

- `Text`, `Naming`, `Identity`: the string code. SHA-256 is a parameter of type `Digest`;
  collision-freeness of its ten-digit prefix is an explicit hypothesis over the names in use.
- `Backend`: the in-memory backend as the class `FakeClient`, its state as a value, and the nested
  table of mounts and roles that its flat maps stand for.
- `Conditions`, `Api`: condition lists, the five kinds, the world (all objects and all backends), the
  surroundings of one reconcile (`Env`), and the external writes (`Write`).
- `Plans`: what each reconcile writes, as a list. A crash after any write is a prefix of that list.
- `SystemState`, `Reconcilers`, `BindingReconciler`, `Webhook`, `Watches`: the controllers, validators
  and watch maps as methods with their loops and in-place updates. Each reconciler's `ensures` says
  that the calls it makes, in order, and the world it leaves are those of its plan.
- `Runs`: runs of the whole service, with users, operators, reconciles in any order, and crashes.
- The outcome of one reconcile, from its inputs alone: `Reporting` (what conditions read), `ObjectOutcomes`
  (instances, project entities), `TrustOutcomes`, `EntityOutcomes`, `BindingOutcomes`, `BindingFinalizer`;
  and the laws of the strings, `NameShape` and `IdentityLaws`.
- The theorems: `TrustSafety`, `TrustSharing`, `Soundness`, `Teardown`, `LateCreation`,
  `ConditionInvariants` (every run), `BindingEffects`, `BindingLoop`, `BindingOrder` (the reference
  loop), `BindingDeletion`, `Leftovers` (its undoing), `Watches` (two worlds), `Idempotence`,
  `Settling`, `Achievement`, `Convergence` (repetition and liveness), `Contents`, `Resting` (what the
  backends end with), `TrustReadiness`.

Where a promised property is false of the code, the module holds the failing situation beside the exact
condition under which the property holds:

- A live configured trust has its mount: false of two trusts on one place, with a run from the empty world
  (`TrustSharing.SharedPlaceFails`); true of all runs exactly when no two share one
  (`TrustSharing.StandIffApart`).
- A service that is up leaves its backends alone: false of binding `a-b` with reference `c` beside binding
  `a` with `b-c` (`Resting.HealthyServiceWithoutRest`); true exactly when the specs do not contradict each
  other (`Resting.RestsIffAgree`).
- A Ready trust is configured: false after one reconcile with a failing mount call, for every trust of every
  healthy service (`TrustReadiness.ReadyOutlivesConfigured`); exactly when is `TrustReadiness.ReadyUnconfiguredIff`.
- What a binding reaches stays: false of creation on a terminating trust, with a run from the empty world
  (`LateCreation.MountGoesUnderABinding`); a step keeps it exactly when it creates objects on, and points
  them at, live targets (`Teardown.StepKeepsIff`).
- Every listed reference of a binding has its role: false of references that differ in a dot for a dash
  (`BindingLoop.DottedReferencesClash`); true exactly when no two clash (`BindingLoop.AllInPlaceIffNoClash`).
- Ready says that every entry is ready: exactly when it fails is `BindingLoop.EmptyTextHidesFailure`.
- Deletion removes what the binding's reconciles wrote: false of a reference edited away
  (`Leftovers.EditedAwayRoleStays`) and of an unchanged reference whose entity lost its identity before the
  last reconcile (`Leftovers.DeprivedRoleStays`), in every healthy service (`Leftovers.HealthyServiceKeepsRole`).
  A role goes exactly when some reference listed now gets through to its slot: its entity and trust usable,
  the trust's instance reachable, a client up (`BindingDeletion.DeleteUndoesReconcile`).
- Names are distinct: false of joined names that meet (`Naming.DashMeetsDash`); exactly when is
  `Naming.RoleNamesSeparate` and `Naming.MountPathsSeparate`.
- Identity IDs tell identities apart: false of an audience with a comma (`IdentityLaws.CommaMeetsComma`); true of
  the hashed texts when no part holds its separator (`IdentityLaws.IdentityTextInjective`).

Where code and documentation disagree the model follows the code: `internal/openbao/fake.go:18-19`
and `:37` call the zero `HealthResult` healthy, while the probe treats an uninitialized backend as
unreachable (`Achievement.FreshBackendUnreachable`).

## Model

| member | source | states |
|---|---|---|
| Convergence.Converges | internal/controller/policybinding_controller.go:65-250 | In a healthy service with frozen specs, from any statuses, finalizers and backend contents: every schedule that serves each object after all it depends on, with any other reconciles and crashes in between, ends with every object Ready, and no further turns, in any order and cut off anywhere, change any object |
| Convergence.FiveStagesConverge | internal/controller/openbaoinstance_controller.go:54-138 | A schedule in five parts, the i-th holding a whole reconcile of each object of stage i, in any order and among anything else, does that |
| Resting.OnePassRests | internal/controller/controlplanetrust_controller.go:147-213 | With no two objects writing one place: where such a schedule ends, each trust's mount holds the JWT config of its control plane's issuer and its key set, and each reference of each binding has its role with the subject of its service account's token, its trust's resolved audience, exactly the binding's policy and its lifetimes, all read off specs and surroundings; and no further turn changes anything, in the backends either |
| Resting.RestsIffAgree | internal/controller/policybinding_controller.go:94-200 | In every healthy service: after all objects were first served and then, in any order among anything else, reconciled once more, the service rests for good, holding that configuration, exactly when the specs agree: trusts on one place have one config, references with one role at one place the same role content |
| Resting.ClashNeverRests | internal/controller/policybinding_controller.go:181-199 | In no world, healthy or not, do two objects both rest whose reconciles write different content to one spot under a mount that is there |
| Resting.TwoBindingsNeverRest | internal/controller/policybinding_controller.go:94-200 | If the last roles that two live bindings leave at one slot differ, the whole reconcile of one of them always changes the world |
| Resting.JoinedReferencesDisagree | internal/openbao/naming.go:95-98 | Bindings `x-y` with reference `z` and `x` with reference `y-z`, on one place with different subjects or policies, are specs that do not agree |
| Resting.HealthyServiceWithoutRest | internal/controller/policybinding_controller.go:94-200 | For every hash function a healthy service with valid names that comes up Ready and never rests |
| Resting.StableServiceExists | internal/controller/policybinding_controller.go:65-250 | The hypotheses of these theorems are met by a service with one fresh object of each kind, for every hash function |
| Achievement.ReconcileReports | internal/controller/shared.go:77-116 | Reconciling an object whose dependencies are achieved makes it Ready, whatever its state was, and all its next reconcile would write is in place but for configs and roles that other objects may overwrite |
| Achievement.ReconcileSettles | internal/controller/controlplaneentity_controller.go:52-166 | With role names apart, reconciling an object whose dependencies are achieved makes it Ready with every write of its next reconcile already in place, whatever its state was |
| Achievement.ReadyIffUnsealed | internal/controller/openbaoinstance_controller.go:77-137 | A probe leaves an instance Ready, and OpenBaoReachable, exactly when a client came up, the probe answered and the backend is initialized and unsealed |
| Achievement.FreshBackendUnreachable | internal/openbao/fake.go:37-45 | A backend as NewFakeClient makes it leaves its instance unreachable, against the comment |
| Resting.RoleNamesApartIff | internal/openbao/naming.go:95-98 | For DNS-label names without hash collision the role names of two references, of any bindings and namespaces, differ exactly when the joined names do |
| Settling.PartKeepsReported | internal/controller/projectentity_controller.go:54-114 | In a healthy service no reconcile of any object, in whole or cut off anywhere, undoes what a dependency-closed set of objects reports, and one of an object in the set changes no object at all |
| Settling.PartKeepsSettled | internal/controller/projectentity_controller.go:54-114 | With places and role names apart, no reconcile of any object, in whole or cut off anywhere, unsettles a dependency-closed set of settled objects, and one of an object in the set changes nothing at all |
| Settling.DoneStays | internal/openbao/fake.go:67-93 | With places and role names apart, no object's write undoes a write of another object |
| ObjectOutcomes.ProbeAnswered | internal/controller/openbaoinstance_controller.go:115-137 | An answered probe records version, initialized and sealed as answered; OpenBaoReachable, DependencyReady and Ready turn True exactly if initialized and not sealed, else OpenBaoReachable and Ready turn False for OpenBaoUnreachable; nothing else changes |
| ObjectOutcomes.ProbeUnanswered | internal/controller/openbaoinstance_controller.go:79-113 | Without a client or an answer, OpenBaoReachable and Ready turn False with the text, and what was known of the backend stays |
| ObjectOutcomes.InstanceUntouched | internal/controller/openbaoinstance_controller.go:54-76 | An absent or terminating instance, a failing read or no service configuration: nothing happens |
| ObjectOutcomes.ProjectEntityWaits | internal/controller/projectentity_controller.go:76-93 | A missing or unreachable instance: DependencyReady and Ready False for that reason, the recorded ID kept, no backend call |
| ObjectOutcomes.ProjectEntityRefused | internal/controller/projectentity_controller.go:95-110 | No client, or a refused enrolment: DependencyReady and Ready False for OpenBaoUnreachable or ReconcileError with its text, no backend change |
| ObjectOutcomes.ProjectEntityEnrolled | internal/controller/projectentity_controller.go:101-113 | Past all gates: the entity is enrolled under its name, a known non-empty ID kept, the status records the very ID the backend now holds, DependencyReady and Ready are True, and nothing else changes |
| ObjectOutcomes.ProjectEntityUntouched | internal/controller/projectentity_controller.go:58-79 | The same of project entities |
| TrustOutcomes.ConfiguredIffAllGates | internal/controller/controlplanetrust_controller.go:95-213 | A reconcile whose reads do not fail ends Ready and TrustConfigured exactly when project entity, reachable instance, control plane, issuer and client are there and both calls are answered; a backend changes only after issuer, client and mount call |
| TrustOutcomes.TrustWaits | internal/controller/controlplanetrust_controller.go:95-137 | The first missing or unreachable dependency is waited for with its reason, and no backend is called |
| TrustOutcomes.TrustWithoutIssuer | internal/controller/controlplanetrust_controller.go:138-153 | Without an issuer TrustConfigured and Ready turn False for IssuerDiscoveryFailed, and no backend is called |
| TrustOutcomes.TrustWithoutClient | internal/controller/controlplanetrust_controller.go:154-182 | Without a client they turn False for OpenBaoUnreachable with its text; issuer, audience and mount path are recorded |
| TrustOutcomes.TrustMountRefused | internal/controller/controlplanetrust_controller.go:184-192 | A refused mount call turns TrustConfigured False for ReconcileError and no other condition; no backend has changed |
| TrustOutcomes.TrustConfigRefused | internal/controller/controlplanetrust_controller.go:194-205 | A refused config call does the same, with the mount there |
| TrustOutcomes.TrustIsConfigured | internal/controller/controlplanetrust_controller.go:154-212 | Past all gates mount and config of the issuer and its key set are in the backend at the recorded path, of the own or else the configured prefix, namespace and control plane, and TrustConfigured, DependencyReady and Ready are True |
| TrustOutcomes.TrustRetries | internal/controller/controlplanetrust_controller.go:217-232 | A refused removal or a failing read holds a terminating trust and changes nothing |
| TrustOutcomes.TrustIsReleased | internal/controller/controlplanetrust_controller.go:217-239 | Else its finalizer goes, and the trust with it if that was the last; the mount, with config and roles, goes exactly if one is recorded and its instance is reachable with a client |
| TrustOutcomes.TrustReadFails | internal/controller/controlplanetrust_controller.go:87-134 | An API error on the way leaves nothing but the finalizer |
| TrustOutcomes.TrustUntouched | internal/controller/controlplanetrust_controller.go:61-77 | An absent trust, a failing read or no service configuration: nothing happens |
| EntityOutcomes.ReadyIffResolvable | internal/controller/controlplaneentity_controller.go:76-165 | A reconcile whose reads do not fail ends Ready exactly when the trust is configured, control plane, issuer and access are there, the account is named and its token exists; otherwise identity and ID stay as they were |
| EntityOutcomes.EntityIsResolved | internal/controller/controlplaneentity_controller.go:137-165 | Then the stored identity has the subject, the issuer and the non-empty audiences in order of the token minted for the account and the trust's audience, and the alias of control plane and account; the stored ID is that of this identity |
| EntityOutcomes.ResolvedInWorkspace | internal/controller/controlplane_access.go:198-210 | In a workspace namespace its alias reads ocp, project, workspace, control plane, account namespace, account name |
| EntityOutcomes.EntityWaits | internal/controller/controlplaneentity_controller.go:76-102 | A missing or unconfigured trust or a missing control plane is waited for with its reason |
| EntityOutcomes.EntityUnresolved | internal/controller/controlplaneentity_controller.go:103-158 | No issuer, access, account or token: IdentityResolved and Ready False for ControlPlaneUnavailable, each with its own message |
| EntityOutcomes.EntityUntouched | internal/controller/controlplaneentity_controller.go:56-102 | An absent or terminating entity, a failing read or no service configuration: nothing happens |
| BindingOutcomes.StatusIsExact | internal/controller/policybinding_controller.go:94-249 | The status after a run of the loop to its end: one entry per reference in order with role name, mount, last complaint and readiness; PolicyExists and PolicyResolved with its reason; Ready and DependencyReady with reason and the complaints of all references in order; nothing else of the status changes |
| BindingOutcomes.PolicyIsReported | internal/controller/policybinding_controller.go:204-249 | PolicyExists is Unknown exactly when no reference gets to the check or a check failed or could not tell, No exactly when all that ran were told and one misses the policy; Ready is False for WaitingForPolicy exactly when a check misses it, and True exactly when nothing is to complain about |
| BindingOutcomes.RolesAreExact | internal/controller/policybinding_controller.go:102-200 | Every slot of every backend after a reconcile, run to its end or stopped by an API error: the role of the last reference got to that has one there, with the entity's subject, the trust's audience, the policy and both lifetimes, or what was there before |
| BindingOutcomes.BrokenRunKeepsStatus | internal/controller/policybinding_controller.go:142-147 | A run that an API error stops leaves the status as it was |
| BindingOutcomes.PassesIsThrough | internal/controller/policybinding_controller.go:102-200 | The gates spelled out here are those of the loop |
| BindingFinalizer.FinalizerIsExact | internal/controller/policybinding_controller.go:254-300 | For every listing of trusts: a terminating binding stays as it is exactly when some recorded entry meets a failed listing, an instance read error or a refused deletion; the roles deleted are those of the entries before the first such, and all else in the backends stays |
| BindingFinalizer.LookupIsFirst | internal/controller/policybinding_controller.go:289-300 | The lookup gives the first listed trust that records the path, and nothing if none does |
| BindingFinalizer.BindingUntouched | internal/controller/policybinding_controller.go:65-81 | An absent binding, a failing read or no service configuration: nothing happens |
| Idempotence.ReconcileTwice | internal/controller/shared.go:77-116 | Reconciling any object twice in one environment, healthy or failing, live or terminating, leaves exactly the world that reconciling it once leaves |
| Idempotence.LiveBindingTwice | internal/controller/policybinding_controller.go:79-249 | The same for a live binding, even when its references overwrite each other's roles |
| Idempotence.TrustTwice | internal/controller/controlplanetrust_controller.go:61-239 | The same for a trust, live or in teardown |
| TrustSafety.ConfiguredTrustsStand | internal/controller/controlplanetrust_controller.go:79-239 | After any run from the empty world with frozen specs and no two trusts on one place of a named instance, reconciles stopping after any write: a live trust whose TrustConfigured is True has a mount and a JWT config at its recorded instance and path, which are those of its specs |
| TrustSafety.EveryRunKeeps | internal/controller/controlplanetrust_controller.go:61-239 | The invariant behind it is kept by every step of every run |
| TrustSafety.BackendWritesGood | internal/controller/controlplanetrust_controller.go:167-212 | Mount, then config, then status: wherever this list is cut off the invariant stands |
| TrustSafety.ApartIffJoinsDiffer | internal/openbao/naming.go:82-90 | For label names without hash collision, no two trusts share a place exactly when on each instance their namespace-controlPlane joins differ |
| TrustSharing.SharedPlaceFails | internal/controller/controlplanetrust_controller.go:217-239 | If two trusts of the specs share a place, a conforming run from the empty world, with never two trusts live at a time, ends with a live trust that reports itself configured and has no mount: the teardown of the other has just deleted it |
| TrustSharing.StandIffApart | internal/controller/controlplanetrust_controller.go:79-239 | Over all conforming runs from the empty world, configured trusts stand exactly when no two trusts share a place on an instance with a name |
| Soundness.EveryRoleIsSound | internal/controller/policybinding_controller.go:181-199 | After any run from the empty world, with crashes and with bindings edited: every role of every backend sits under a mount that is there, at its own name, and is what some spec that binding ever had asks for one of its references: exactly its policy, a non-empty subject, one audience |
| Soundness.EveryBackendIsNested | internal/openbao/fake.go:67-114 | After any run every backend's flat maps are the image of a nested mount to role table |
| Soundness.PlanSafe | internal/controller/policybinding_controller.go:102-200 | Every backend call of every reconcile names a slash-free mount and a non-empty role |
| Teardown.EveryOrderlyRunAnchored | internal/webhook/delete_validation.go:41-53 | In every run, with deletions admitted atomically, reconciles cut off anywhere and operators at work, the target of every present object, terminating or not, is present and live throughout, exactly when the run is orderly: objects are created on, and edited to point at, live targets |
| Teardown.StepKeepsIff | internal/webhook/delete_validation.go:41-53 | From a world whose targets are all live, a step keeps them so exactly when it is orderly: a creation under a free name, or an edit of a present object, names live targets; admitted deletions, reconciles and operators always do |
| Teardown.ReachedStaysLive | internal/webhook/delete_validation.go:77-88 | After such a run a present binding leads through live entities to live trusts on live project entities, none of which the validators let go |
| Teardown.NoMountGoesUnderABinding | internal/controller/controlplanetrust_controller.go:217-239 | After every orderly run from the empty world with frozen upper specs and no two trusts on one place: no reconcile of any object, cut off anywhere, takes away the mount recorded by a trust that a present binding reaches |
| Teardown.LateCreationLosesMount | internal/webhook/delete_validation.go:104-110 | In any world: an entity and a binding created on a terminating trust with a standing mount do not hold it; the next reconcile of the trust deletes the mount, and the binding still leads there |
| LateCreation.MountGoesUnderABinding | internal/webhook/delete_validation.go:104-110 | For all specs and every trust on a named instance, a conforming run from the empty world comes to that: the mount stands before its last step, and is gone after it from under a present binding |
| ConditionInvariants.ReachableSound | internal/controller/shared.go:77-116 | In every reachable world: one condition per kind; Ready implies DependencyReady; instances are Ready exactly when OpenBaoReachable; Ready entities have IdentityResolved and an identity; Ready bindings have PolicyResolved, not False, and equal to PolicyExists |
| ConditionInvariants.PlanSound | internal/controller/controlplaneentity_controller.go:73-166 | Every status any reconcile writes keeps these conditions, from any sound world |
| TrustReadiness.ReadyUnconfiguredIff | internal/controller/controlplanetrust_controller.go:184-205 | A reconcile leaves a live trust Ready but not TrustConfigured exactly when it stops on an API error and the trust already was so, or when a client comes up, the mount or the config call fails, and the trust was Ready before |
| TrustReadiness.ReadyOutlivesConfigured | internal/controller/controlplanetrust_controller.go:184-205 | In every healthy service brought up by a serving schedule every trust is Ready and configured, and one reconcile whose mount call fails leaves it Ready and not configured |
| BindingLoop.LoopAggregates | internal/controller/policybinding_controller.go:94-249 | A run of the loop to its end persists one entry per reference in order; Ready exactly when every entry is ready and no policy check failed; PolicyExists True exactly when a check ran and all that ran found the policy; PolicyResolved agrees |
| BindingLoop.ReadyIffEveryEntryReady | internal/controller/policybinding_controller.go:94-249 | With non-empty error texts Ready is True exactly when every entry is ready |
| BindingLoop.EmptyTextHidesFailure | internal/controller/policybinding_controller.go:164-199 | A reconcile of the loop to its end leaves every entry ready and Ready not True exactly when every reference gets its role, some policy check fails with an empty text, and every other one passes |
| BindingLoop.AllInPlaceIffNoClash | internal/controller/policybinding_controller.go:181-199 | After the loop all written roles are in place at once exactly when no two references write different roles to one place |
| BindingLoop.ReadyMeansConfigured | internal/controller/policybinding_controller.go:94-249 | For label names, distinct references and no hash collision: a run that ends Ready leaves for every reference at once its role with its entity's subject, its trust's audience and exactly the binding's policy |
| BindingLoop.OnlyOwnRolesChange | internal/controller/policybinding_controller.go:102-200 | A binding's reconcile changes no mount, config or foreign role, and no other object |
| BindingLoop.DottedReferencesClash | internal/openbao/naming.go:47-52 | Of two references that differ in a dot for a dash, on one trust with different subjects, only one can have its role |
| BindingOrder.OrderDoesNotMatter | internal/controller/policybinding_controller.go:94-249 | Permuting the references permutes the reported roles and leaves PolicyExists, status and reason of every condition, and all backends unchanged (no abort, no clash) |
| BindingDeletion.DeleteUndoesReconcile | internal/controller/policybinding_controller.go:254-300 | Reconcile, delete and finalize: a role that was there is still there, unchanged, exactly when no reference now listed gets through to its slot (entity and trust there and usable, the instance that trust records reachable, a client up, the slot that of its mount and role name); nothing else in any backend changes, and the binding is gone |
| BindingDeletion.FinalizerRemovesRecorded | internal/controller/policybinding_controller.go:254-300 | Whatever came before: a finalizing run removes exactly the roles recorded in the status under a path that some trust of the namespace still records, on the instance that trust records, if it is reachable and a client comes up; every other role stays as it was |
| BindingDeletion.ClearedIffReached | internal/controller/policybinding_controller.go:254-287 | The slots the finalizer clears for the entries the loop recorded are exactly those its references get through to |
| BindingDeletion.ReachedSlots | internal/controller/policybinding_controller.go:102-200 | These slots hold everything the loop wrote and lie only at the binding's own names |
| BindingDeletion.UndoneIsIdentity | internal/controller/policybinding_controller.go:254-287 | Where none of the binding's names was in use, all backends are as before |
| BindingDeletion.FindUnique | internal/controller/policybinding_controller.go:289-300 | With paths unique in the namespace, the trust found for a path is the one that records it |
| Leftovers.EditedAwayRoleStays | internal/controller/policybinding_controller.go:202-202 | Reconcile, edit the references, reconcile, delete, finalize: the binding is gone, and the role its first reconcile left for a reference is still there, unchanged, exactly when no new reference gets through to its slot |
| Leftovers.DeprivedRoleStays | internal/controller/policybinding_controller.go:117-141 | The same with the references unchanged, the reference's entity failing to resolve its identity in between: the role is still there exactly when no other reference gets through to its slot |
| Leftovers.HealthyServiceKeepsRole | internal/controller/policybinding_controller.go:254-287 | Both happen to every reference with a role name of its own of every binding of every healthy service that has come up |
| Watches.WatchesComplete | internal/controller/policybinding_controller.go:319-381 | If two worlds differ in one trust, entity or project entity, every live object that the watch maps do not enqueue for it would write exactly the same in both |
| Watches.EnqueueBindingsForEntity | internal/controller/policybinding_controller.go:319-336 | Enqueues exactly the bindings of the namespace that name the entity; none if the list call fails |
| Watches.EnqueueBindingsForTrust | internal/controller/policybinding_controller.go:338-372 | Enqueues exactly the bindings that name an entity on the trust |
| Watches.EnqueueEntitiesForTrust | internal/controller/controlplaneentity_controller.go:184-201 | Enqueues exactly the entities of the namespace on the trust |
| Watches.EnqueueTrustsForProjectEntity | internal/controller/controlplanetrust_controller.go:257-275 | Enqueues exactly the trusts that refer to the project entity |
| Watches.References | internal/controller/policybinding_controller.go:374-381 | True exactly when the name is among the references |
| Webhook.ValidateProjectEntityDelete | internal/webhook/delete_validation.go:41-53 | Admits exactly when no trust of any namespace refers to it |
| Webhook.ValidateTrustDelete | internal/webhook/delete_validation.go:77-88 | Admits exactly when no entity of the namespace is on it |
| Webhook.ValidateEntityDelete | internal/webhook/delete_validation.go:112-125 | Admits exactly when no binding of the namespace lists it |
| Reconcilers.ReconcileInstance | internal/controller/openbaoinstance_controller.go:54-138 | Makes exactly the writes of the instance plan, in order |
| Reconcilers.ReconcileProjectEntity | internal/controller/projectentity_controller.go:54-114 | Makes exactly the writes of the project entity plan, in order |
| Reconcilers.ReconcileTrust | internal/controller/controlplanetrust_controller.go:61-239 | Makes exactly the writes of the trust plan, in order, live or in teardown |
| Reconcilers.ReconcileEntity | internal/controller/controlplaneentity_controller.go:52-166 | Makes exactly the writes of the entity plan |
| BindingReconciler.ReconcileBinding | internal/controller/policybinding_controller.go:65-287 | Makes exactly the writes of the binding plan, in order, live or in teardown |
| BindingReconciler.BindAll | internal/controller/policybinding_controller.go:94-200 | The loop with its accumulators: they are the verdicts over the outcomes of the references seen, and its role writes those of the outcomes before the first abort |
| BindingReconciler.ConcludeBinding | internal/controller/policybinding_controller.go:202-249 | From the accumulators, the status the outcomes call for |
| BindingReconciler.RemoveAll | internal/controller/policybinding_controller.go:254-281 | The removals of the recorded entries up to the first failure |
| Backend.FlatRefinesNested | internal/openbao/fake.go:67-114 | Over every sequence of calls with slash-free mounts and non-empty role names the flat maps answer as the nested table does and keep representing it |
| Backend.FlatLookups | internal/openbao/fake.go:102-148 | From a fresh client: a role is found exactly when the table has it, with the same value; no config and no role outlives its mount |
| Backend.UnderIsOwnMount | internal/openbao/fake.go:107-112 | For slash-free mounts the prefix scan singles out exactly the roles of the deleted mount |
| Backend.FakeClient.DeleteAuthMount | internal/openbao/fake.go:102-114 | Removes the mount, its config and every role under its prefix, and nothing else |
| Backend.FakeClient.EnsureEntity | internal/openbao/fake.go:58-65 | Keeps a known entity's ID, else enrols it under a derived one |
| Backend.FakeClient.EnsureJWTAuthMount | internal/openbao/fake.go:67-72 | Adds the mount and changes nothing else |
| Backend.FakeClient.ConfigureJWTTrust | internal/openbao/fake.go:74-83 | Overwrites the config of a known mount, else reports it missing and changes nothing |
| Backend.FakeClient.EnsureJWTRole | internal/openbao/fake.go:85-93 | Overwrites the role at mount and name under a known mount, else reports it missing and changes nothing |
| Backend.FakeClient.DeleteJWTRole | internal/openbao/fake.go:95-100 | Removes at most that role |
| Backend.FakeClient.PolicyExists | internal/openbao/fake.go:116-121 | Unknown when so configured, else membership |
| Backend.EmptyNameOutlivesMount | internal/openbao/fake.go:107-112 | A role with an empty name survives the deletion of its mount |
| Backend.SlashedMountLosesRoles | internal/openbao/fake.go:107-112 | Deleting a mount takes a role of a mount whose name extends it with a slash, while that mount itself stands |
| Naming.MountPathIsName | internal/openbao/naming.go:82-90 | For every input a non-empty name over [a-z0-9-], at most 60 long, no dash at either end, no slash |
| Naming.RoleNameIsName | internal/openbao/naming.go:95-98 | The same for role names |
| Naming.EntityNameIsName | internal/openbao/naming.go:103-106 | The same for entity names |
| Naming.TruncatedEndsInHash | internal/openbao/naming.go:57-74 | Every generated name ends in ten hex digits of the hash of the full name |
| NameShape.NameReads | internal/openbao/naming.go:57-74 | For every text: of what there is room for only dashes at its ends are lost, then come a dash and ten digits of the hash; the digits alone if nothing is left |
| NameShape.NoRoomForHead | internal/openbao/naming.go:63-65 | With no room for a head, the digits alone |
| NameShape.LongNameReads | internal/openbao/naming.go:57-74 | Of a label too long a non-empty start is read, and only dashes are missing between its end and the room |
| NameShape.MountPathReads | internal/openbao/naming.go:82-90 | For labels a mount path reads prefix, namespace, control plane in this order, in full if it fits, else up to the room, then the digits |
| NameShape.RoleNameReads | internal/openbao/naming.go:95-98 | The same of role names: namespace, binding name |
| NameShape.EntityNameReads | internal/openbao/naming.go:103-106 | The same of entity names: openbao, namespace, name |
| NameShape.RunBecomesDash | internal/openbao/naming.go:47-52 | Every maximal run of other characters becomes one dash and the legal text around it stays |
| NameShape.SanitizeFoldsCase | internal/openbao/naming.go:47-52 | Upper and lower case ASCII letters sanitize alike |
| NameShape.SanitizeTrims | internal/openbao/naming.go:47-52 | At the ends dashes are cut off, and nothing else |
| NameShape.SuffixIsDigest | internal/openbao/naming.go:57-59 | The ten digits are the first five bytes of the digest, two digits each, the high one first |
| Naming.TruncationInjective | internal/openbao/naming.go:57-74 | Without hash collision, equal names exactly when the full names are equal |
| Naming.SanitizeIdempotent | internal/openbao/naming.go:47-52 | Sanitizing twice is sanitizing once, and its fixed points are exactly the trimmed legal strings |
| Naming.SanitizeGivesSegment | internal/openbao/naming.go:47-52 | The result is over [a-z0-9-] without a dash at either end, for every input |
| Naming.JoinedLabels | internal/openbao/naming.go:47-52 | Sanitizing is the identity on dash-joined DNS labels (section 2.1 of RFC 1123) |
| Naming.RoleNamesSeparate | internal/openbao/naming.go:95-98 | In one namespace, for label names without collision, role names are equal exactly when the binding parts are |
| Naming.MountPathsSeparate | internal/openbao/naming.go:82-90 | For one prefix mount paths are equal exactly when the namespace-controlPlane joins are |
| Naming.DotMeetsDash | internal/openbao/naming.go:47-52 | Names that differ in a dot for a dash get one role name |
| Naming.DashMeetsDash | internal/openbao/naming.go:82-98 | Different splits of one joined name get one role name and one mount path |
| Identity.CutRecovers | internal/controller/controlplane_access.go:203-210 | For P starting alphanumeric, the cut recovers (P, W) from project-P--ws-W exactly when P does not contain `--ws-` and does not end in `--ws` |
| Identity.AliasInjective | internal/controller/controlplane_access.go:198-201 | On such namespaces with colon-free names equal aliases mean equal namespace, control plane and service account |
| IdentityLaws.AudienceIsTrimmed | internal/controller/controlplane_access.go:43-48 | An audience loses the white space around it, and a blank one stands for the service's own |
| IdentityLaws.IssuerOfFirst | internal/controller/controlplane_access.go:61-71 | The first endpoint of the name gives its URL without exactly the slashes at its end |
| IdentityLaws.NoEndpointNoIssuer | internal/controller/controlplane_access.go:61-71 | Without such an endpoint there is no issuer |
| IdentityLaws.TextsInOrder | internal/controller/controlplane_access.go:178-196 | The audiences of a list are those of its front followed by those of its rest |
| IdentityLaws.ClaimForms | internal/controller/controlplane_access.go:178-196 | A text stands for a list of one, anything else for nothing |
| IdentityLaws.AliasInWorkspace | internal/controller/controlplane_access.go:198-210 | In a workspace namespace the alias is ocp, project, workspace, control plane, account namespace and name, joined by colons |
| IdentityLaws.AliasElsewhere | internal/controller/controlplane_access.go:198-210 | Without the marker the whole namespace stands for the project and the workspace is empty |
| IdentityLaws.AliasUnprefixed | internal/controller/controlplane_access.go:198-210 | With the marker but without the project prefix, what is before the first marker and what is after it |
| IdentityLaws.IdentityTextInjective | internal/controller/controlplane_access.go:212-220 | For parts without their separators the hashed texts are equal exactly when alias, issuer, subject and audiences, in any order, are |
| IdentityLaws.IdentityIDInjective | internal/controller/controlplane_access.go:212-220 | So are the IDs, when the sixteen digits tell the two texts apart |
| IdentityLaws.IDIsDigest | internal/controller/controlplane_access.go:212-220 | The ID is the first eight bytes of the digest of that text, two digits each |
| IdentityLaws.CommaMeetsComma | internal/controller/controlplane_access.go:212-220 | An audience with a comma and the two audiences it reads as share an ID |
| Identity.IdentityIDIgnoresOrder | internal/controller/controlplane_access.go:212-220 | The identity ID is the same for every permutation of the audiences |
| Identity.DeterministicIdentityID | internal/controller/controlplane_access.go:212-220 | Sorts a copy: computes that ID and leaves the identity's list as it was |
| Identity.AscendingUnique | internal/controller/controlplane_access.go:212-220 | Sorted permutations of one list are one list |
| Identity.NormalizeAudiences | internal/controller/controlplane_access.go:178-196 | The non-empty strings of the claim, in order |
| Identity.FindControlPlaneIssuer | internal/controller/controlplane_access.go:61-71 | The URL of the first issuer endpoint without trailing slashes, or empty; only the first endpoint of that name counts |
| Identity.AudienceResolvesOnce | internal/controller/controlplane_access.go:43-48 | Resolving a resolved audience changes nothing |
| Conditions.UpsertKeepsOnePerKind | internal/controller/shared.go:77-83 | Setting a condition keeps one condition per kind |
| Conditions.Upsert | internal/controller/shared.go:77-83 | Afterwards the kind reads as set, every other kind as before, and setting what is there changes nothing |
| Reporting.FindIsFirst | internal/controller/shared.go:159-162 | The condition that counts is the first of its kind |
| Conditions.ConditionList.SetReady | internal/controller/shared.go:105-116 | DependencyReady, then Ready, both True |

## Left out

- The HTTP client, TLS and JWT login to OpenBao: the in-memory client's semantics stand for the backend; a call that is made to fail writes nothing.
- Kubernetes plumbing: caches, resource versions, queues and rate limits, AccessRequests; a read gives the object, its absence or an API error.
- The finalizer Update changes metadata only: that the response may reset status fields set in memory just before is not modelled.
- Interleaving finer than one reconcile: a reconcile runs on one world, but may stop after any of its writes; another reconcile sees only what was written.
- The mutex of the in-memory client, and its read-only inspection helpers.
- Each backend call opens a client on the backend's state and stores the state back; long-lived client objects are not modelled.
- Token minting and the decoding of JWTs: the claims (sections 4.1.1 to 4.1.3 of RFC 7519) are inputs.
- Config and role fields the controllers never set; entity metadata.
- SHA-256 (section 6.2 of FIPS 180-4) is an uninterpreted function from strings to byte strings.
- Unicode lower-casing and white space beyond ASCII: every other character counts as illegal in a name and as non-space.
- Message texts: kept only as what they are about and whether they are empty; probe and transition times and requeue durations.
- Invalid and missing service configuration are one case: the reconcile stops before any write.
- sort.Strings is the library's: an insertion sort stands for it, only its result matters.
- Conversion, defaulting and the validators' constant create and update methods; deepcopy, scheme, command line, YAML and end-to-end tests.
- BindingDeletion.DeleteUndoesReconcile: the last reconcile and the finalizer run in one set of surroundings; other surroundings, and an instance lost in between, are covered by `BindingFinalizer.FinalizerIsExact`, a refused role deletion and a failed listing included.
- Backend objects that survive the deletion of a trust whose instance is unreachable or has no client: its finalizer goes without cleanup.
- TrustSafety.ConfiguredTrustsStand: frozen are the specs of instances, project entities and trusts and the configured prefix, since re-pointing a project entity moves the recorded instance before the mount follows; bindings and entities may be edited.
- Resting.OnePassRests: role names are required distinct over all bindings, not only per mount, since starting statuses are arbitrary and may send a first role write to any mount; after a second pass `Resting.RestsIffAgree` needs agreement on one place only.
- Instances are not watched by the controllers below them; they are picked up by periodic requeue, which the watch theorem does not cover.
