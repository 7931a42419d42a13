/**
 What one reconcile of a live binding does, from its inputs: what each reference has to complain about, what
 the status says of it, of the policy and of Ready, and which roles are there afterwards.
 */
module BindingOutcomes {
  import opened Wrappers
  import opened Naming
  import opened Conditions
  import opened Reporting
  import opened Backend
  import opened Api
  import opened Plans
  import opened Frames
  import opened BindingEffects
  import opened BindingLoop
  import opened BindingDeletion
  import opened ObjectOutcomes

  // ---- How far a reference comes --------------------------------------------------------------------------

  function EntityKey(key: Key, ref: string): Key {
    Key(key.namespace, ref)
  }

  predicate EntityRead(w: World, env: Env, key: Key, ref: string) {
    EntityKey(key, ref) in w.entities && EntityRef(EntityKey(key, ref)) !in env.faults
  }

  /** The entity's identity is resolved and has a subject. */
  predicate SubjectKnown(w: World, env: Env, key: Key, ref: string) {
    EntityRead(w, env, key, ref) &&
    var st := w.entities[EntityKey(key, ref)].status;
    IsTrue(st.conditions, IdentityResolved) && st.identity.Some? && st.identity.value.subject != ""
  }

  function TrustKeyOf(w: World, env: Env, key: Key, ref: string): Key
    requires EntityRead(w, env, key, ref)
  {
    Key(key.namespace, w.entities[EntityKey(key, ref)].spec.trust)
  }

  predicate TrustRead(w: World, env: Env, key: Key, ref: string) {
    && SubjectKnown(w, env, key, ref)
    && TrustKeyOf(w, env, key, ref) in w.trusts && TrustRef(TrustKeyOf(w, env, key, ref)) !in env.faults
  }

  /** The trust is configured and records where. */
  predicate PlaceKnown(w: World, env: Env, key: Key, ref: string) {
    TrustRead(w, env, key, ref) &&
    var st := w.trusts[TrustKeyOf(w, env, key, ref)].status;
    st.authMountPath != "" && st.resolved != "" && IsTrue(st.conditions, TrustConfigured)
  }

  function InstanceAt(w: World, env: Env, key: Key, ref: string): string
    requires PlaceKnown(w, env, key, ref)
  {
    w.trusts[TrustKeyOf(w, env, key, ref)].status.resolved
  }

  function MountAt(w: World, env: Env, key: Key, ref: string): string
    requires PlaceKnown(w, env, key, ref)
  {
    w.trusts[TrustKeyOf(w, env, key, ref)].status.authMountPath
  }

  /** The read of the trust's instance fails: the whole run ends here. */
  predicate EndsRun(w: World, env: Env, key: Key, ref: string) {
    PlaceKnown(w, env, key, ref) && InstanceRef(InstanceAt(w, env, key, ref)) in env.faults
  }

  predicate InstanceUp(w: World, env: Env, key: Key, ref: string) {
    PlaceKnown(w, env, key, ref) && !EndsRun(w, env, key, ref) &&
    var n := InstanceAt(w, env, key, ref);
    n in w.instances && SeenReachable(w.instances[n])
  }

  /** The reference gets to the policy check. */
  predicate Passes(w: World, env: Env, key: Key, ref: string) {
    InstanceUp(w, env, key, ref) && ClientUp(w, env, InstanceAt(w, env, key, ref))
  }

  function BackendAt(w: World, env: Env, key: Key, ref: string): State
    requires Passes(w, env, key, ref)
  {
    w.backends[InstanceAt(w, env, key, ref)]
  }

  predicate CheckRefused(w: World, env: Env, key: Key, ref: string) {
    Passes(w, env, key, ref) && CallPolicy(InstanceAt(w, env, key, ref)) in env.callErrors
  }

  predicate CheckAnswered(w: World, env: Env, key: Key, ref: string) {
    Passes(w, env, key, ref) && CallPolicy(InstanceAt(w, env, key, ref)) !in env.callErrors
  }

  predicate PolicyNotKnown(w: World, env: Env, key: Key, ref: string) {
    CheckAnswered(w, env, key, ref) && BackendAt(w, env, key, ref).policiesUnknown
  }

  predicate PolicyMissing(w: World, env: Env, key: Key, policyName: string, ref: string) {
    && CheckAnswered(w, env, key, ref) && !BackendAt(w, env, key, ref).policiesUnknown
    && policyName !in BackendAt(w, env, key, ref).policies
  }

  function RoleCall(w: World, env: Env, key: Key, ref: string): Call
    requires Passes(w, env, key, ref)
  {
    CallRole(InstanceAt(w, env, key, ref), MountAt(w, env, key, ref),
             RoleName(env.sha, key.namespace, key.name + "-" + ref))
  }

  /** The role call is answered: its mount is there and nothing refuses it. */
  predicate GetsRole(w: World, env: Env, key: Key, ref: string) {
    && Passes(w, env, key, ref) && RoleCall(w, env, key, ref) !in env.callErrors
    && MountAt(w, env, key, ref) in BackendAt(w, env, key, ref).mounts
  }

  /** These are the gates of the loop. */
  lemma PassesIsThrough(w: World, env: Env, key: Key, ref: string)
    ensures Passes(w, env, key, ref) <==> Through(w, env, key, ref)
    ensures GetsRole(w, env, key, ref) <==> Bindable(w, env, key, ref)
  {
    hide RoleName, IsTrue;
  }

  // ---- What it has to complain about, and what is recorded of it ---------------------------------------------

  function PolicyComplaint(w: World, env: Env, key: Key, policyName: string, ref: string): seq<Message> {
    if CheckRefused(w, env, key, ref) then [ErrorText(env.callErrors[CallPolicy(InstanceAt(w, env, key, ref))])]
    else if PolicyMissing(w, env, key, policyName, ref) then [About(policyName)]
    else []
  }

  function RoleComplaint(w: World, env: Env, key: Key, ref: string): seq<Message>
    requires Passes(w, env, key, ref)
  {
    if RoleCall(w, env, key, ref) in env.callErrors then [ErrorText(env.callErrors[RoleCall(w, env, key, ref)])]
    else if MountAt(w, env, key, ref) !in BackendAt(w, env, key, ref).mounts then [ErrorText("not found")]
    else []
  }

  /** In the order in which they are noticed. */
  function Complaints(w: World, env: Env, key: Key, policyName: string, ref: string): seq<Message> {
    if !SubjectKnown(w, env, key, ref) then [About(ref)]
    else if !PlaceKnown(w, env, key, ref) then [About(TrustKeyOf(w, env, key, ref).name)]
    else if !InstanceUp(w, env, key, ref) then [About(InstanceAt(w, env, key, ref))]
    else if !Passes(w, env, key, ref) then [ErrorText(ClientText(env, InstanceAt(w, env, key, ref)))]
    else PolicyComplaint(w, env, key, policyName, ref) + RoleComplaint(w, env, key, ref)
  }

  /** The entity, or the usable entity's trust, is not there or cannot be read. */
  predicate DependencyGone(w: World, env: Env, key: Key, ref: string) {
    !EntityRead(w, env, key, ref) || (SubjectKnown(w, env, key, ref) && !TrustRead(w, env, key, ref))
  }

  /** Role name, the mount once it is known, the last complaint; ready if there is a role and nothing to say. */
  function EntryFor(w: World, env: Env, key: Key, policyName: string, ref: string): RoleStatus {
    var cs := Complaints(w, env, key, policyName, ref);
    var last := if cs == [] then NoMessage else cs[|cs| - 1];
    RoleStatus(ref, RoleName(env.sha, key.namespace, key.name + "-" + ref),
               if PlaceKnown(w, env, key, ref) then MountAt(w, env, key, ref) else "",
               GetsRole(w, env, key, ref) && (last == NoMessage || last == ErrorText("")), last)
  }

  /** The role a reference is given. */
  function RoleFor(w: World, env: Env, key: Key, spec: BindingSpec, ref: string): JWTRole
    requires GetsRole(w, env, key, ref)
  {
    JWTRole(RoleName(env.sha, key.namespace, key.name + "-" + ref), "jwt",
            [w.trusts[TrustKeyOf(w, env, key, ref)].status.audience],
            w.entities[EntityKey(key, ref)].status.identity.value.subject, "sub",
            [spec.policyName], spec.ttl, spec.maxTTL)
  }

  // ---- One iteration -------------------------------------------------------------------------------------------

  lemma StoppedBeforeTrust(w: World, env: Env, key: Key, spec: BindingSpec, ref: string)
    requires !PlaceKnown(w, env, key, ref)
    ensures RefOutcomeOf(w, env, key, spec, ref)
            == RefOutcome(EntryFor(w, env, key, spec.policyName, ref), DependencyGone(w, env, key, ref),
                          Complaints(w, env, key, spec.policyName, ref), NotChecked, None)
  {
    hide RoleName, IsTrue, RefPastTrust, IsEmpty;
  }

  lemma ComesToInstance(w: World, env: Env, key: Key, spec: BindingSpec, ref: string)
    requires PlaceKnown(w, env, key, ref)
    ensures RefOutcomeOf(w, env, key, spec, ref)
            == RefPastTrust(w, env, spec, ref, RoleName(env.sha, key.namespace, key.name + "-" + ref),
                            w.trusts[TrustKeyOf(w, env, key, ref)],
                            w.entities[EntityKey(key, ref)].status.identity.value.subject)
  {
    hide RoleName, IsTrue, RefPastTrust;
  }

  lemma StoppedAtInstance(w: World, env: Env, key: Key, spec: BindingSpec, ref: string)
    requires PlaceKnown(w, env, key, ref) && !EndsRun(w, env, key, ref) && !Passes(w, env, key, ref)
    ensures RefOutcomeOf(w, env, key, spec, ref)
            == RefOutcome(EntryFor(w, env, key, spec.policyName, ref), false,
                          Complaints(w, env, key, spec.policyName, ref), NotChecked, None)
  {
    hide RoleName, IsTrue, RefOutcomeOf, RefAtBackend;
    ComesToInstance(w, env, key, spec, ref);
  }

  function CheckFor(w: World, env: Env, key: Key, policyName: string, ref: string): Check {
    if !Passes(w, env, key, ref) then NotChecked
    else if CheckRefused(w, env, key, ref) then CheckFailed
    else if PolicyNotKnown(w, env, key, ref) then CheckUnknown
    else if PolicyMissing(w, env, key, policyName, ref) then CheckMissing
    else CheckPresent
  }

  lemma ComesToBackend(w: World, env: Env, key: Key, spec: BindingSpec, ref: string)
    requires Passes(w, env, key, ref)
    ensures RefOutcomeOf(w, env, key, spec, ref)
            == RefAtBackend(env, spec, ref, RoleName(env.sha, key.namespace, key.name + "-" + ref),
                            w.trusts[TrustKeyOf(w, env, key, ref)],
                            w.entities[EntityKey(key, ref)].status.identity.value.subject, BackendAt(w, env, key, ref))
  {
    hide RoleName, IsTrue, RefOutcomeOf, RefAtBackend;
    ComesToInstance(w, env, key, spec, ref);
  }

  lemma CheckIs(w: World, env: Env, key: Key, policyName: string, ref: string)
    requires Passes(w, env, key, ref)
    ensures var n := InstanceAt(w, env, key, ref);
            var check := CheckOf(env, n, BackendAt(w, env, key, ref), policyName);
            && check == CheckFor(w, env, key, policyName, ref)
            && PolicyComplaint(w, env, key, policyName, ref)
               == (if check.CheckFailed? || check.CheckMissing? then [CheckMessage(env, n, check, policyName)] else [])
            && (!check.CheckFailed? && !check.CheckMissing? ==> CheckMessage(env, n, check, policyName) == NoMessage)
  {
    hide Passes;
  }

  lemma ComplaintsThere(w: World, env: Env, key: Key, policyName: string, ref: string)
    requires Passes(w, env, key, ref)
    ensures Complaints(w, env, key, policyName, ref)
            == PolicyComplaint(w, env, key, policyName, ref) + RoleComplaint(w, env, key, ref)
    ensures !DependencyGone(w, env, key, ref)
  {
    hide PolicyComplaint, RoleComplaint;
    PassesKnown(w, env, key, ref);
  }

  lemma AtBackend(w: World, env: Env, key: Key, spec: BindingSpec, ref: string)
    requires Passes(w, env, key, ref)
    ensures RefOutcomeOf(w, env, key, spec, ref)
            == RefOutcome(EntryFor(w, env, key, spec.policyName, ref), DependencyGone(w, env, key, ref),
                          Complaints(w, env, key, spec.policyName, ref),
                          CheckFor(w, env, key, spec.policyName, ref),
                          if GetsRole(w, env, key, ref)
                          then Some(RoleWrite(InstanceAt(w, env, key, ref), MountAt(w, env, key, ref),
                                              RoleFor(w, env, key, spec, ref)))
                          else None)
  {
    hide RoleName, Passes, PlaceKnown, RefOutcomeOf, Complaints, CheckOf, CheckMessage, CheckFor, PolicyComplaint,
      DependencyGone;
    PassesKnown(w, env, key, ref);
    ComesToBackend(w, env, key, spec, ref);
    CheckIs(w, env, key, spec.policyName, ref);
    ComplaintsThere(w, env, key, spec.policyName, ref);
  }

  lemma PassesKnown(w: World, env: Env, key: Key, ref: string)
    requires Passes(w, env, key, ref)
    ensures SubjectKnown(w, env, key, ref) && PlaceKnown(w, env, key, ref) && InstanceUp(w, env, key, ref)
  {
  }

  lemma OutcomeIs(w: World, env: Env, key: Key, spec: BindingSpec, ref: string)
    ensures var out := RefOutcomeOf(w, env, key, spec, ref);
            if EndsRun(w, env, key, ref) then out == RefAborts
            else out == RefOutcome(EntryFor(w, env, key, spec.policyName, ref), DependencyGone(w, env, key, ref),
                                   Complaints(w, env, key, spec.policyName, ref),
                                   CheckFor(w, env, key, spec.policyName, ref),
                                   if GetsRole(w, env, key, ref)
                                   then Some(RoleWrite(InstanceAt(w, env, key, ref), MountAt(w, env, key, ref),
                                                       RoleFor(w, env, key, spec, ref)))
                                   else None)
  {
    hide RefOutcomeOf, EntryFor, Complaints, RoleName, IsTrue, ClientUp;
    if !PlaceKnown(w, env, key, ref) {
      StoppedBeforeTrust(w, env, key, spec, ref);
    } else if EndsRun(w, env, key, ref) {
      ComesToInstance(w, env, key, spec, ref);
    } else if !Passes(w, env, key, ref) {
      StoppedAtInstance(w, env, key, spec, ref);
    } else {
      AtBackend(w, env, key, spec, ref);
    }
  }

  // ---- A run of the loop to its end --------------------------------------------------------------------------------

  predicate Unbroken(w: World, env: Env, key: Key, refs: seq<string>) {
    forall i | 0 <= i < |refs| :: !EndsRun(w, env, key, refs[i])
  }

  lemma AbortsIff(w: World, env: Env, key: Key, spec: BindingSpec, refs: seq<string>)
    ensures Aborted(Outcomes(w, env, key, spec, refs)) <==> !Unbroken(w, env, key, refs)
  {
    hide RefOutcomeOf, EndsRun;
    forall i | 0 <= i < |refs|
      ensures RefOutcomeOf(w, env, key, spec, refs[i]).RefAborts? <==> EndsRun(w, env, key, refs[i])
    {
      OutcomeIs(w, env, key, spec, refs[i]);
    }
  }

  /** What all references have to complain about, in the order of the list. */
  function AllComplaints(w: World, env: Env, key: Key, policyName: string, refs: seq<string>): seq<Message> {
    if refs == [] then []
    else AllComplaints(w, env, key, policyName, refs[..|refs| - 1])
         + Complaints(w, env, key, policyName, refs[|refs| - 1])
  }

  lemma {:induction false} BlockingIs(w: World, env: Env, key: Key, spec: BindingSpec, refs: seq<string>)
    requires Unbroken(w, env, key, refs)
    ensures !Aborted(Outcomes(w, env, key, spec, refs))
    ensures Blocking(Outcomes(w, env, key, spec, refs)) == AllComplaints(w, env, key, spec.policyName, refs)
    decreases refs
  {
    hide RefOutcomeOf, EndsRun, Complaints;
    AbortsIff(w, env, key, spec, refs);
    if refs != [] {
      var before, outs := refs[..|refs| - 1], Outcomes(w, env, key, spec, refs);
      assert outs[..|outs| - 1] == Outcomes(w, env, key, spec, before);
      BlockingIs(w, env, key, spec, before);
      OutcomeIs(w, env, key, spec, refs[|refs| - 1]);
    }
  }

  lemma OutcomeAt(w: World, env: Env, key: Key, spec: BindingSpec, refs: seq<string>, i: nat)
    requires Unbroken(w, env, key, refs) && i < |refs|
    ensures var out := Outcomes(w, env, key, spec, refs)[i];
            && out.RefOutcome? && out.entry == EntryFor(w, env, key, spec.policyName, refs[i])
            && out.check == CheckFor(w, env, key, spec.policyName, refs[i])
            && out.missing == DependencyGone(w, env, key, refs[i])
  {
    hide RefOutcomeOf, EndsRun, EntryFor, Complaints, CheckFor, DependencyGone, GetsRole;
    OutcomeIs(w, env, key, spec, refs[i]);
  }

  // ---- What is said of the policy ---------------------------------------------------------------

  /** No check ran, or one failed or could not tell. */
  predicate PolicyOpen(w: World, env: Env, key: Key, refs: seq<string>) {
    || (forall ref | ref in refs :: !Passes(w, env, key, ref))
    || (exists ref | ref in refs :: CheckRefused(w, env, key, ref) || PolicyNotKnown(w, env, key, ref))
  }

  predicate SomewhereMissing(w: World, env: Env, key: Key, policyName: string, refs: seq<string>) {
    exists ref | ref in refs :: PolicyMissing(w, env, key, policyName, ref)
  }

  lemma CheckMeans(w: World, env: Env, key: Key, policyName: string, ref: string)
    ensures var check := CheckFor(w, env, key, policyName, ref);
            && (check == NotChecked <==> !Passes(w, env, key, ref))
            && (check == CheckFailed || check == CheckUnknown
                <==> CheckRefused(w, env, key, ref) || PolicyNotKnown(w, env, key, ref))
            && (check == CheckMissing <==> PolicyMissing(w, env, key, policyName, ref))
  {
    hide Passes;
  }

  lemma VerdictIs(w: World, env: Env, key: Key, spec: BindingSpec, refs: seq<string>)
    requires Unbroken(w, env, key, refs)
    ensures var outs := Outcomes(w, env, key, spec, refs);
            && (AllPresent(outs) <==> !SomewhereMissing(w, env, key, spec.policyName, refs))
            && PolicyVerdict(outs) == if PolicyOpen(w, env, key, refs) then Unknown
                                      else if SomewhereMissing(w, env, key, spec.policyName, refs) then No else Yes
  {
    hide Outcomes, EndsRun, Passes, CheckRefused, PolicyNotKnown, PolicyMissing, CheckFor, Unbroken;
    var outs := Outcomes(w, env, key, spec, refs);
    forall i | 0 <= i < |refs|
      ensures outs[i].RefOutcome?
      ensures outs[i].check == NotChecked <==> !Passes(w, env, key, refs[i])
      ensures outs[i].check == CheckFailed || outs[i].check == CheckUnknown
              <==> CheckRefused(w, env, key, refs[i]) || PolicyNotKnown(w, env, key, refs[i])
      ensures outs[i].check == CheckMissing <==> PolicyMissing(w, env, key, spec.policyName, refs[i])
    {
      OutcomeAt(w, env, key, spec, refs, i);
      CheckMeans(w, env, key, spec.policyName, refs[i]);
    }
    OfRefs(w, env, key, spec, refs, outs);
  }

  lemma OfRefs(w: World, env: Env, key: Key, spec: BindingSpec, refs: seq<string>, outs: seq<RefOutcome>)
    requires |outs| == |refs| && forall i | 0 <= i < |refs| ::
               && outs[i].RefOutcome?
               && (outs[i].check == NotChecked <==> !Passes(w, env, key, refs[i]))
               && (outs[i].check == CheckFailed || outs[i].check == CheckUnknown
                   <==> CheckRefused(w, env, key, refs[i]) || PolicyNotKnown(w, env, key, refs[i]))
               && (outs[i].check == CheckMissing <==> PolicyMissing(w, env, key, spec.policyName, refs[i]))
    ensures AllPresent(outs) <==> !SomewhereMissing(w, env, key, spec.policyName, refs)
    ensures !SomeChecked(outs) || !AllKnown(outs) <==> PolicyOpen(w, env, key, refs)
  {
    hide Passes, CheckRefused, PolicyNotKnown, PolicyMissing;
    if ref :| ref in refs && PolicyMissing(w, env, key, spec.policyName, ref) {
      var i :| 0 <= i < |refs| && refs[i] == ref;
      assert outs[i].check == CheckMissing;
    }
    if ref :| ref in refs && (CheckRefused(w, env, key, ref) || PolicyNotKnown(w, env, key, ref)) {
      var i :| 0 <= i < |refs| && refs[i] == ref;
      assert outs[i].check == CheckFailed || outs[i].check == CheckUnknown;
    }
    if ref :| ref in refs && Passes(w, env, key, ref) {
      var i :| 0 <= i < |refs| && refs[i] == ref;
      assert outs[i].check != NotChecked;
    }
  }

  /** PolicyExists and PolicyResolved say one thing, with its reason. */
  predicate PolicySays(st: BindingStatus, policyName: string, verdict: Status, g: int) {
    && st.policyExists == verdict
    && match verdict
       case Unknown => Says(st.conditions, PolicyResolved, Unknown, PolicyCheckSkipped, NoMessage, g)
       case No => Says(st.conditions, PolicyResolved, No, PolicyNotFound, About(policyName), g)
       case Yes => Says(st.conditions, PolicyResolved, Yes, PolicyFound, NoMessage, g)
  }

  lemma PolicyConditionSays(o: Binding, outs: seq<RefOutcome>)
    requires !Aborted(outs)
    ensures PolicySays(BindingNext(o, outs), o.spec.policyName, PolicyVerdict(outs), o.meta.generation)
  {
    hide Aborted, AllPresent, Blocking, SomeMissing, PolicyVerdict, Entries;
  }

  // ---- What is said of Ready --------------------------------------------------------------------

  /** A missing policy comes first, then any complaint, a gone dependency named before others; else all is well. */
  ghost predicate ReadySays(w: World, env: Env, key: Key, policyName: string, refs: seq<string>, cs: seq<Condition>,
                            ds: seq<Condition>, g: int)
  {
    if SomewhereMissing(w, env, key, policyName, refs) then
      && Says(ds, Ready, No, WaitingForPolicy, About(policyName), g)
      && Find(ds, DependencyReady) == Find(cs, DependencyReady)
    else if AllComplaints(w, env, key, policyName, refs) != [] then
      var reason := if exists ref | ref in refs :: DependencyGone(w, env, key, ref)
                    then DependencyNotFound else DependencyMissesReadiness;
      var message := Joined(AllComplaints(w, env, key, policyName, refs));
      Says(ds, DependencyReady, No, reason, message, g) && Says(ds, Ready, No, reason, message, g)
    else
      Says(ds, DependencyReady, Yes, Reconciled, NoMessage, g) && Says(ds, Ready, Yes, Reconciled, NoMessage, g)
  }

  lemma MissingIs(w: World, env: Env, key: Key, spec: BindingSpec, refs: seq<string>)
    requires Unbroken(w, env, key, refs)
    ensures SomeMissing(Outcomes(w, env, key, spec, refs))
            <==> exists ref | ref in refs :: DependencyGone(w, env, key, ref)
  {
    hide Outcomes, EndsRun, DependencyGone, Unbroken, EntryFor, CheckFor;
    var outs := Outcomes(w, env, key, spec, refs);
    forall i | 0 <= i < |refs| ensures outs[i].RefOutcome? && outs[i].missing == DependencyGone(w, env, key, refs[i]) {
      OutcomeAt(w, env, key, spec, refs, i);
    }
    if ref :| ref in refs && DependencyGone(w, env, key, ref) {
      var i :| 0 <= i < |refs| && refs[i] == ref;
      assert outs[i].missing;
    }
  }

  lemma ReadyConditions(cs: seq<Condition>, g: int, policyName: string, outs: seq<RefOutcome>)
    requires !Aborted(outs)
    ensures var ds := BindingConditions(cs, g, policyName, outs);
            && Kept(cs, ds, {PolicyResolved, DependencyReady, Ready})
            && if !AllPresent(outs) then
                 Says(ds, Ready, No, WaitingForPolicy, About(policyName), g)
                   && Find(ds, DependencyReady) == Find(cs, DependencyReady)
               else if Blocking(outs) != [] then
                 var reason := if SomeMissing(outs) then DependencyNotFound else DependencyMissesReadiness;
                 && Says(ds, DependencyReady, No, reason, Joined(Blocking(outs)), g)
                 && Says(ds, Ready, No, reason, Joined(Blocking(outs)), g)
               else Says(ds, DependencyReady, Yes, Reconciled, NoMessage, g)
                    && Says(ds, Ready, Yes, Reconciled, NoMessage, g)
  {
    hide Aborted, AllPresent, Blocking, SomeMissing, PolicyVerdict;
    PolicyKind(PolicyVerdict(outs), policyName, g);
  }

  lemma PolicyKind(verdict: Status, policyName: string, g: int)
    ensures PolicyCondition(verdict, policyName, g).kind == PolicyResolved
  {
  }

  // ---- The run ----------------------------------------------------------------------------------

  /** Of the objects only the binding changes: it holds its finalizer; in the backends only roles do. */
  predicate BindingTouched(w: World, v: World, key: Key)
    requires key in w.bindings
  {
    var o := w.bindings[key];
    && key in v.bindings && v.bindings == w.bindings[key := v.bindings[key]]
    && OnlyRoles(w.(bindings := v.bindings), v)
    && v.bindings[key]
       == Binding(o.meta.(finalizers := o.meta.finalizers + {OwnFinalizer}), o.spec, v.bindings[key].status)
  }

  lemma Touched(w: World, env: Env, key: Key)
    requires LiveBinding(w, env, key)
    ensures var v := Reconcile(w, env, BindingRef(key));
            BindingTouched(w, v, key) && v.bindings[key] == BindingAfter(w.bindings[key], OutcomesOf(w, env, key))
  {
    hide Reconcile, OutcomesOf, LoopWrites, ApplyAll, BindingNext, Aborted, OnlyRoles;
    LoopKeepsRemovalInputs(w, env, key);
    LiveBindingResult(w, env, key);
  }

  /** An API error on the way keeps the status as it was. */
  lemma BrokenRunKeepsStatus(w: World, env: Env, key: Key)
    requires LiveBinding(w, env, key) && !Unbroken(w, env, key, w.bindings[key].spec.refs)
    ensures var v := Reconcile(w, env, BindingRef(key));
            BindingTouched(w, v, key) && v.bindings[key].status == w.bindings[key].status
  {
    hide Reconcile, Outcomes, BindingNext, Aborted, Unbroken, OnlyRoles;
    AbortsIff(w, env, key, w.bindings[key].spec, w.bindings[key].spec.refs);
    Touched(w, env, key);
  }

  /**
   The status after a run of the loop to its end: one entry per reference, in order, each saying how far the
   reference came; of the policy Unknown if no check ran or one failed or could not tell, else No if a backend
   misses it, else Yes; and Ready accordingly.
   */
  lemma StatusIsExact(w: World, env: Env, key: Key)
    requires LiveBinding(w, env, key) && Unbroken(w, env, key, w.bindings[key].spec.refs)
    ensures var v, o := Reconcile(w, env, BindingRef(key)), w.bindings[key];
            var spec, g := o.spec, o.meta.generation;
            && BindingTouched(w, v, key)
            && (var st := v.bindings[key].status;
                && st.observed == g && st.policyName == spec.policyName
                && |st.roles| == |spec.refs|
                && (forall i | 0 <= i < |spec.refs| ::
                      st.roles[i] == EntryFor(w, env, key, spec.policyName, spec.refs[i]))
                && PolicySays(st, spec.policyName,
                              if PolicyOpen(w, env, key, spec.refs) then Unknown
                              else if SomewhereMissing(w, env, key, spec.policyName, spec.refs) then No else Yes, g)
                && ReadySays(w, env, key, spec.policyName, spec.refs, o.status.conditions, st.conditions, g)
                && Kept(o.status.conditions, st.conditions, {PolicyResolved, DependencyReady, Ready}))
  {
    hide Reconcile, OutcomesOf, Aborted, Unbroken, PolicyOpen, SomewhereMissing, EntryFor, ReadySays, Kept,
      PolicySays, BindingTouched, BindingNext;
    var o, outs := w.bindings[key], OutcomesOf(w, env, key);
    AbortsHere(w, env, key);
    Touched(w, env, key);
    TouchedHas(w, Reconcile(w, env, BindingRef(key)), key);
    NextEntries(w, env, key);
    NextPolicy(w, env, key);
    NextReady(w, env, key);
  }

  /**
   So, read backwards: PolicyExists is Unknown exactly when no reference gets to the check or some check failed or
   could not tell, and No exactly when all that ran were told and one was told no; Ready is False for a missing
   policy exactly when some check was told no, and True exactly when nobody has anything to complain about.
   */
  lemma PolicyIsReported(w: World, env: Env, key: Key)
    requires LiveBinding(w, env, key) && Unbroken(w, env, key, w.bindings[key].spec.refs)
    ensures var v, spec := Reconcile(w, env, BindingRef(key)), w.bindings[key].spec;
            var missing := exists ref | ref in spec.refs :: PolicyMissing(w, env, key, spec.policyName, ref);
            && key in v.bindings
            && (var st := v.bindings[key].status;
                && (st.policyExists == Unknown <==>
                    (forall ref | ref in spec.refs :: !Passes(w, env, key, ref))
                    || exists ref | ref in spec.refs ::
                         CheckRefused(w, env, key, ref) || PolicyNotKnown(w, env, key, ref))
                && (st.policyExists == No <==> missing && st.policyExists != Unknown)
                && (Find(st.conditions, Ready).Some? && Find(st.conditions, Ready).value.reason == WaitingForPolicy
                    <==> missing)
                && (IsTrue(st.conditions, Ready) <==>
                    !missing && AllComplaints(w, env, key, spec.policyName, spec.refs) == []))
  {
    hide Reconcile, Unbroken, Passes, CheckRefused, PolicyNotKnown, PolicyMissing, AllComplaints, DependencyGone,
      EntryFor, Kept, BindingTouched;
    StatusIsExact(w, env, key);
    TouchedHas(w, Reconcile(w, env, BindingRef(key)), key);
  }

  lemma TouchedHas(w: World, v: World, key: Key)
    requires key in w.bindings && BindingTouched(w, v, key)
    ensures key in v.bindings
  {
  }

  lemma AbortsHere(w: World, env: Env, key: Key)
    requires key in w.bindings
    ensures Aborted(OutcomesOf(w, env, key)) <==> !Unbroken(w, env, key, w.bindings[key].spec.refs)
  {
    AbortsIff(w, env, key, w.bindings[key].spec, w.bindings[key].spec.refs);
  }

  lemma NextFields(o: Binding, outs: seq<RefOutcome>)
    requires !Aborted(outs)
    ensures var st := BindingNext(o, outs);
            && st.observed == o.meta.generation && st.policyName == o.spec.policyName && st.roles == Entries(outs)
            && st.conditions == BindingConditions(o.status.conditions, o.meta.generation, o.spec.policyName, outs)
  {
    hide Aborted, BindingConditions, PolicyVerdict, Entries;
  }

  lemma EntriesAre(w: World, env: Env, key: Key, spec: BindingSpec, refs: seq<string>)
    requires Unbroken(w, env, key, refs) && !Aborted(Outcomes(w, env, key, spec, refs))
    ensures var entries := Entries(Outcomes(w, env, key, spec, refs));
            |entries| == |refs| && forall i | 0 <= i < |refs| ::
                entries[i] == EntryFor(w, env, key, spec.policyName, refs[i])
  {
    hide RefOutcomeOf, Aborted, Unbroken, EntryFor, CheckFor, DependencyGone;
    forall i | 0 <= i < |refs|
      ensures var out := Outcomes(w, env, key, spec, refs)[i];
              out.RefOutcome? && out.entry == EntryFor(w, env, key, spec.policyName, refs[i])
    {
      OutcomeAt(w, env, key, spec, refs, i);
    }
  }

  lemma NextEntries(w: World, env: Env, key: Key)
    requires key in w.bindings && Unbroken(w, env, key, w.bindings[key].spec.refs) && !Aborted(OutcomesOf(w, env, key))
    ensures var o, st := w.bindings[key], BindingNext(w.bindings[key], OutcomesOf(w, env, key));
            && st.observed == o.meta.generation && st.policyName == o.spec.policyName
            && |st.roles| == |o.spec.refs|
            && (forall i | 0 <= i < |o.spec.refs| ::
                  st.roles[i] == EntryFor(w, env, key, o.spec.policyName, o.spec.refs[i]))
  {
    hide Outcomes, Aborted, Unbroken, BindingNext, EntryFor, Entries;
    NextFields(w.bindings[key], OutcomesOf(w, env, key));
    EntriesAre(w, env, key, w.bindings[key].spec, w.bindings[key].spec.refs);
  }

  lemma NextPolicy(w: World, env: Env, key: Key)
    requires key in w.bindings && Unbroken(w, env, key, w.bindings[key].spec.refs) && !Aborted(OutcomesOf(w, env, key))
    ensures var o := w.bindings[key];
            var refs, policyName := o.spec.refs, o.spec.policyName;
            PolicySays(BindingNext(o, OutcomesOf(w, env, key)), policyName,
                       if PolicyOpen(w, env, key, refs) then Unknown
                       else if SomewhereMissing(w, env, key, policyName, refs) then No else Yes, o.meta.generation)
  {
    hide Outcomes, Aborted, Unbroken, BindingNext, PolicyVerdict, PolicyOpen, SomewhereMissing, PolicySays;
    VerdictIs(w, env, key, w.bindings[key].spec, w.bindings[key].spec.refs);
    PolicyConditionSays(w.bindings[key], OutcomesOf(w, env, key));
  }

  lemma ReadyParts(w: World, env: Env, key: Key, policyName: string, refs: seq<string>, cs: seq<Condition>, g: int,
                   outs: seq<RefOutcome>)
    requires !Aborted(outs) && (AllPresent(outs) <==> !SomewhereMissing(w, env, key, policyName, refs))
    requires Blocking(outs) == AllComplaints(w, env, key, policyName, refs)
    requires SomeMissing(outs) <==> exists ref | ref in refs :: DependencyGone(w, env, key, ref)
    ensures var ds := BindingConditions(cs, g, policyName, outs);
            && ReadySays(w, env, key, policyName, refs, cs, ds, g)
            && Kept(cs, ds, {PolicyResolved, DependencyReady, Ready})
  {
    hide Aborted, BindingConditions, AllPresent, Blocking, SomeMissing, SomewhereMissing, AllComplaints,
      DependencyGone, Says, Kept;
    ReadyConditions(cs, g, policyName, outs);
  }

  lemma NextReady(w: World, env: Env, key: Key)
    requires key in w.bindings && Unbroken(w, env, key, w.bindings[key].spec.refs) && !Aborted(OutcomesOf(w, env, key))
    ensures var o := w.bindings[key];
            var cs, ds := o.status.conditions, BindingNext(o, OutcomesOf(w, env, key)).conditions;
            && ReadySays(w, env, key, o.spec.policyName, o.spec.refs, cs, ds, o.meta.generation)
            && Kept(cs, ds, {PolicyResolved, DependencyReady, Ready})
  {
    hide Outcomes, Aborted, Unbroken, BindingNext, BindingConditions, AllPresent, Blocking, SomeMissing,
      PolicyVerdict, SomewhereMissing, AllComplaints, DependencyGone, ReadySays, Kept;
    var o, outs := w.bindings[key], OutcomesOf(w, env, key);
    VerdictIs(w, env, key, o.spec, o.spec.refs);
    BlockingIs(w, env, key, o.spec, o.spec.refs);
    MissingIs(w, env, key, o.spec, o.spec.refs);
    NextFields(o, outs);
    ReadyParts(w, env, key, o.spec.policyName, o.spec.refs, o.status.conditions, o.meta.generation, outs);
  }

  // ---- The roles --------------------------------------------------------------------------------

  /** The reference gets a role at the slot of the instance. */
  predicate WritesAt(w: World, env: Env, key: Key, ref: string, n: string, slot: string) {
    && GetsRole(w, env, key, ref) && n == InstanceAt(w, env, key, ref)
    && slot == Slot(MountAt(w, env, key, ref), RoleName(env.sha, key.namespace, key.name + "-" + ref))
  }

  lemma WriteIs(w: World, env: Env, key: Key, spec: BindingSpec, ref: string, n: string, slot: string)
    requires !EndsRun(w, env, key, ref)
    ensures var xs := RoleWriteOf(RefOutcomeOf(w, env, key, spec, ref));
            && |xs| <= 1 && (forall x | x in xs :: x.WriteRole?)
            && (WritesAt(w, env, key, ref, n, slot) <==> xs != [] && At(xs[0], n, slot))
            && (WritesAt(w, env, key, ref, n, slot) ==> xs[0].role == RoleFor(w, env, key, spec, ref))
  {
    hide RefOutcomeOf, EndsRun, EntryFor, Complaints, CheckFor, DependencyGone, RoleName, Passes, PlaceKnown, Slot;
    OutcomeIs(w, env, key, spec, ref);
    GetsPlace(w, env, key, ref);
  }

  lemma GetsPlace(w: World, env: Env, key: Key, ref: string)
    ensures GetsRole(w, env, key, ref) ==> PlaceKnown(w, env, key, ref) && SubjectKnown(w, env, key, ref)
  {
  }

  /** The reference is the last of the first few to get a role at the slot. */
  predicate LastWriter(w: World, env: Env, key: Key, refs: seq<string>, cut: int, n: string, slot: string, i: int) {
    && 0 <= i < cut <= |refs| && WritesAt(w, env, key, refs[i], n, slot)
    && forall j | i < j < cut :: !WritesAt(w, env, key, refs[j], n, slot)
  }

  lemma LoopSnoc(w: World, env: Env, key: Key, spec: BindingSpec, refs: seq<string>)
    requires refs != [] && Unbroken(w, env, key, refs)
    ensures LoopWrites(Outcomes(w, env, key, spec, refs))
            == LoopWrites(Outcomes(w, env, key, spec, refs[..|refs| - 1]))
               + RoleWriteOf(RefOutcomeOf(w, env, key, spec, refs[|refs| - 1]))
  {
    hide RefOutcomeOf, EndsRun, Aborted, RoleWriteOf;
    var before, outs := refs[..|refs| - 1], Outcomes(w, env, key, spec, refs);
    assert outs[..|outs| - 1] == Outcomes(w, env, key, spec, before);
    AbortsIff(w, env, key, spec, before);
  }

  lemma LastWriterSnoc(w: World, env: Env, key: Key, refs: seq<string>, n: string, slot: string, h: int)
    requires refs != []
    ensures var last, i := |refs| - 1, if WritesAt(w, env, key, refs[|refs| - 1], n, slot) then |refs| - 1 else h;
            LastWriter(w, env, key, refs, |refs|, n, slot, i) <==>
            WritesAt(w, env, key, refs[last], n, slot) || LastWriter(w, env, key, refs[..last], last, n, slot, h)
  {
    hide WritesAt;
  }

  lemma {:induction false} LastWritten(w: World, env: Env, key: Key, spec: BindingSpec, refs: seq<string>, n: string,
                                       slot: string)
    returns (i: int)
    requires Unbroken(w, env, key, refs)
    ensures var last := LastAt(LoopWrites(Outcomes(w, env, key, spec, refs)), n, slot);
            if LastWriter(w, env, key, refs, |refs|, n, slot, i) then last == Some(RoleFor(w, env, key, spec, refs[i]))
            else last == None && forall j | 0 <= j < |refs| :: !WritesAt(w, env, key, refs[j], n, slot)
    decreases refs
  {
    hide RefOutcomeOf, EndsRun, WritesAt, At, RoleFor, GetsRole, Outcomes, LoopWrites, RoleWriteOf;
    i := -1;
    if refs == [] {
      NothingWritten(w, env, key, spec, n, slot);
    } else {
      var before, ref := refs[..|refs| - 1], refs[|refs| - 1];
      var h := LastWritten(w, env, key, spec, before, n, slot);
      WriteIs(w, env, key, spec, ref, n, slot);
      LoopSnoc(w, env, key, spec, refs);
      LastOfSum(LoopWrites(Outcomes(w, env, key, spec, before)), RoleWriteOf(RefOutcomeOf(w, env, key, spec, ref)), n,
                slot);
      LastWriterSnoc(w, env, key, refs, n, slot, h);
      i := if WritesAt(w, env, key, ref, n, slot) then |refs| - 1 else h;
    }
  }

  lemma NothingWritten(w: World, env: Env, key: Key, spec: BindingSpec, n: string, slot: string)
    ensures LastAt(LoopWrites(Outcomes(w, env, key, spec, [])), n, slot) == None
  {
  }

  lemma LastOfSum(xs: seq<Write>, ys: seq<Write>, n: string, slot: string)
    requires |ys| <= 1 && forall y | y in ys :: y.WriteRole?
    ensures LastAt(xs + ys, n, slot) == if ys != [] && At(ys[0], n, slot) then Some(ys[0].role) else LastAt(xs, n, slot)
  {
    hide At;
    if ys == [] {
      assert xs + ys == xs;
    } else {
      assert ys[0] in ys && (xs + ys)[..|xs + ys| - 1] == xs;
    }
  }

  /** What the loop writes it writes before the first reference that ends the run. */
  lemma {:induction false} WritesBeforeEnd(outs: seq<RefOutcome>, cut: nat)
    requires cut <= |outs| && !Aborted(outs[..cut]) && (cut < |outs| ==> outs[cut].RefAborts?)
    ensures LoopWrites(outs) == LoopWrites(outs[..cut])
    decreases outs
  {
    if cut < |outs| {
      var before := outs[..|outs| - 1];
      assert before[..cut] == outs[..cut];
      if cut < |before| {
        WritesBeforeEnd(before, cut);
        assert before[cut].RefAborts?;
      } else {
        assert before == outs[..cut];
        assert RoleWriteOf(outs[cut]) == [];
      }
    } else {
      assert outs[..cut] == outs;
    }
  }

  /** The loop gets this far: to its end, or to the first reference that ends the run. */
  predicate EndsAt(w: World, env: Env, key: Key, refs: seq<string>, cut: int) {
    0 <= cut <= |refs| && Unbroken(w, env, key, refs[..cut]) && (cut < |refs| ==> EndsRun(w, env, key, refs[cut]))
  }

  lemma LoopLast(w: World, env: Env, key: Key, spec: BindingSpec, refs: seq<string>, cut: int, n: string, slot: string)
    returns (i: int)
    requires EndsAt(w, env, key, refs, cut)
    ensures var last := LastAt(LoopWrites(Outcomes(w, env, key, spec, refs)), n, slot);
            if LastWriter(w, env, key, refs, cut, n, slot, i) then last == Some(RoleFor(w, env, key, spec, refs[i]))
            else last == None && forall j | 0 <= j < cut :: !WritesAt(w, env, key, refs[j], n, slot)
  {
    hide RefOutcomeOf, EndsRun, WritesAt, RoleFor, GetsRole, LoopWrites, LastAt, Unbroken, Aborted;
    var outs := Outcomes(w, env, key, spec, refs);
    assert outs[..cut] == Outcomes(w, env, key, spec, refs[..cut]);
    AbortsIff(w, env, key, spec, refs[..cut]);
    if cut < |refs| {
      OutcomeIs(w, env, key, spec, refs[cut]);
    }
    WritesBeforeEnd(outs, cut);
    i := LastWritten(w, env, key, spec, refs[..cut], n, slot);
  }

  /**
   Every slot of every backend after a reconcile, whether the loop ran to its end or not: the role of the last
   reference it got to that has one there, with the entity's subject, the trust's audience, the policy and the
   lifetimes; and what was there before if no reference has.
   */
  lemma RolesAreExact(w: World, env: Env, key: Key, cut: int, n: string, slot: string) returns (i: int)
    requires LiveBinding(w, env, key) && EndsAt(w, env, key, w.bindings[key].spec.refs, cut)
    ensures var v, spec := Reconcile(w, env, BindingRef(key)), w.bindings[key].spec;
            if LastWriter(w, env, key, spec.refs, cut, n, slot, i)
            then slot in RolesIn(v, n) && RolesIn(v, n)[slot] == RoleFor(w, env, key, spec, spec.refs[i])
            else
              && (forall j | 0 <= j < cut :: !WritesAt(w, env, key, spec.refs[j], n, slot))
              && (slot in RolesIn(v, n) <==> slot in RolesIn(w, n))
              && (slot in RolesIn(v, n) ==> RolesIn(v, n)[slot] == RolesIn(w, n)[slot])
  {
    hide Reconcile, Outcomes, WritesAt, RoleFor, GetsRole, LoopWrites, LastAt, EndsAt, RolesIn;
    i := LoopLast(w, env, key, w.bindings[key].spec, w.bindings[key].spec.refs, cut, n, slot);
    LoopRoles(w, env, key, n, slot);
  }
}
