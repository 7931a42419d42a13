/**
 Convergence: in a healthy service with frozen specs, from any statuses and any backend contents,
 every schedule that serves the objects in dependency order makes all of them Ready, for good.
 */
module Convergence {
  import opened Wrappers
  import opened Text
  import opened Naming
  import opened Identity
  import opened Conditions
  import opened Backend
  import opened Api
  import opened Plans
  import opened Frames
  import opened Runs
  import opened TrustSafety
  import opened BindingEffects
  import opened BindingLoop
  import opened Idempotence
  import opened Settling
  import opened Achievement

  // ---- Schedules --------------------------------------------------------------------------------

  /** One reconcile of one object, cut off after some writes or run to its end. */
  datatype Turn = Turn(ref: Ref, stop: Option<nat>)

  function Take(w: World, env: Env, t: Turn): World {
    if t.stop.Some? then ReconcilePart(w, env, t.ref, t.stop.value) else Reconcile(w, env, t.ref)
  }

  function TakeAll(w: World, env: Env, turns: seq<Turn>): World
    decreases turns
  {
    if turns == [] then w else TakeAll(Take(w, env, turns[0]), env, turns[1..])
  }

  /** The objects a schedule has served in dependency order: each after all it depends on. */
  function Served(f: Specs, done: set<Ref>, t: Turn): set<Ref> {
    if t.stop.None? && Present(f, t.ref) && DependsOn(f, t.ref) <= done then done + {t.ref} else done
  }

  function ServedAll(f: Specs, done: set<Ref>, turns: seq<Turn>): set<Ref>
    decreases turns
  {
    if turns == [] then done else ServedAll(f, Served(f, done, turns[0]), turns[1..])
  }

  lemma WholeIsPart(w: World, env: Env, ref: Ref)
    ensures Reconcile(w, env, ref) == ReconcilePart(w, env, ref, |Plan(w, env, ref)|)
  {
  }

  /** A turn keeps what is reported and adds its object if that is its turn in the order. */
  lemma TurnReports(w: World, f: Specs, env: Env, done: set<Ref>, t: Turn)
    requires Healthy(w, f, env) && Closed(f, done) && AllReported(w, f, env, done)
    ensures var v := Take(w, env, t);
            && Healthy(v, f, env) && Closed(f, Served(f, done, t)) && AllReported(v, f, env, Served(f, done, t))
            && (t.ref in done ==> SameObjects(w, v))
  {
    hide Reconcile, ReconcilePart, Reported, Healthy, Plan, AllAchieved;
    WholeIsPart(w, env, t.ref);
    PartKeepsReported(w, f, env, done, t.ref, if t.stop.Some? then t.stop.value else |Plan(w, env, t.ref)|);
    if Served(f, done, t) != done {
      ReportedAchieved(w, f, env, done);
      ReconcileReports(w, f, env, done, t.ref);
    }
  }

  lemma {:induction false} ScheduleReports(w: World, f: Specs, env: Env, done: set<Ref>, turns: seq<Turn>)
    requires Healthy(w, f, env) && Closed(f, done) && AllReported(w, f, env, done)
    ensures var v, all := TakeAll(w, env, turns), ServedAll(f, done, turns);
            Healthy(v, f, env) && Closed(f, all) && AllReported(v, f, env, all)
    decreases turns
  {
    if turns != [] {
      hide Take, Served, Reported, Healthy, Closed, AllReported;
      TurnReports(w, f, env, done, turns[0]);
      ScheduleReports(Take(w, env, turns[0]), f, env, Served(f, done, turns[0]), turns[1..]);
    }
  }

  lemma AbsentIsIdle(w: World, f: Specs, env: Env, ref: Ref)
    requires Healthy(w, f, env) && !Present(f, ref)
    ensures Plan(w, env, ref) == []
  {
    hide InstanceNext, ProjectEntityBody, TrustBody, TrustTeardown, EntityNext, BindingBody, BindingTeardown,
      EnvHealthy, Operational, Resolves;
  }

  lemma NothingToDo(w: World, env: Env, t: Turn)
    requires Plan(w, env, t.ref) == []
    ensures Take(w, env, t) == w
  {
    hide Plan;
    IdleRun(w, []);
  }

  lemma NothingReported(w: World, f: Specs, env: Env)
    ensures Closed(f, {}) && AllReported(w, f, env, {})
  {
  }

  lemma ServedKept(f: Specs, done: set<Ref>, t: Turn)
    requires forall ref | Present(f, ref) :: ref in done
    ensures Served(f, done, t) == done
  {
    hide Present, DependsOn;
  }

  /** Once all are reported no turn changes an object. */
  lemma {:induction false} AllReportedIsFrozen(w: World, f: Specs, env: Env, done: set<Ref>, turns: seq<Turn>)
    requires Healthy(w, f, env) && Closed(f, done) && AllReported(w, f, env, done)
    requires forall ref | Present(f, ref) :: ref in done
    ensures var v := TakeAll(w, env, turns);
            && Healthy(v, f, env) && AllReported(v, f, env, done) && SameObjects(w, v)
    decreases turns
  {
    if turns != [] {
      hide Take, Served, Reported, Healthy, Closed, AllReported, Present;
      var t := turns[0];
      TurnReports(w, f, env, done, t);
      ServedKept(f, done, t);
      if t.ref !in done {
        AbsentIsIdle(w, f, env, t.ref);
        NothingToDo(w, env, t);
      }
      AllReportedIsFrozen(Take(w, env, t), f, env, done, turns[1..]);
    }
  }

  // ---- The theorem ------------------------------------------------------------------------------

  predicate EveryoneReady(w: World) {
    && (forall n | n in w.instances :: IsTrue(w.instances[n].status.conditions, Ready))
    && (forall k | k in w.projectEntities :: IsTrue(w.projectEntities[k].status.conditions, Ready))
    && (forall k | k in w.trusts :: IsTrue(w.trusts[k].status.conditions, Ready))
    && (forall k | k in w.entities :: IsTrue(w.entities[k].status.conditions, Ready))
    && (forall k | k in w.bindings :: IsTrue(w.bindings[k].status.conditions, Ready))
  }

  /** Every one of the object's kind carries Ready, the object being any of them. */
  predicate ReadyAt(w: World, ref: Ref) {
    match ref
    case InstanceRef(n) => n in w.instances ==> IsTrue(w.instances[n].status.conditions, Ready)
    case ProjectEntityRef(k) => k in w.projectEntities ==> IsTrue(w.projectEntities[k].status.conditions, Ready)
    case TrustRef(k) => k in w.trusts ==> IsTrue(w.trusts[k].status.conditions, Ready)
    case EntityRef(k) => k in w.entities ==> IsTrue(w.entities[k].status.conditions, Ready)
    case BindingRef(k) => k in w.bindings ==> IsTrue(w.bindings[k].status.conditions, Ready)
    case ControlPlaneRef(_) => true
  }

  lemma AchievedIsReady(w: World, f: Specs, done: set<Ref>, ref: Ref)
    requires Matches(w, f) && AllAchieved(w, f, done) && forall r | Present(f, r) :: r in done
    ensures ReadyAt(w, ref)
  {
    hide IsTrue, Reachable, EntityUsable, PlaceMounted, AllAchieved;
    if Present(f, ref) {
      AllAchievedAt(w, f, done, ref);
    }
  }

  lemma AllAchievedReady(w: World, f: Specs, done: set<Ref>)
    requires Matches(w, f) && AllAchieved(w, f, done) && forall ref | Present(f, ref) :: ref in done
    ensures EveryoneReady(w)
  {
    hide IsTrue, Matches, AllAchieved, Present;
    forall ref ensures ReadyAt(w, ref) {
      AchievedIsReady(w, f, done, ref);
    }
    assert forall n | n in w.instances :: ReadyAt(w, InstanceRef(n));
    assert forall k | k in w.projectEntities :: ReadyAt(w, ProjectEntityRef(k));
    assert forall k | k in w.trusts :: ReadyAt(w, TrustRef(k));
    assert forall k | k in w.entities :: ReadyAt(w, EntityRef(k));
    assert forall k | k in w.bindings :: ReadyAt(w, BindingRef(k));
  }

  /**
   From any statuses, finalizers and backend contents, every schedule that serves each object after all
   it depends on, with any other reconciles and crashes in between, ends with every object Ready; from
   then on no reconcile of any object, in any order, changes an object.
   */
  lemma Converges(w: World, f: Specs, env: Env, turns: seq<Turn>, more: seq<Turn>)
    requires Healthy(w, f, env)
    requires forall ref | Present(f, ref) :: ref in ServedAll(f, {}, turns)
    ensures EveryoneReady(TakeAll(w, env, turns))
    ensures SameObjects(TakeAll(w, env, turns), TakeAll(TakeAll(w, env, turns), env, more))
  {
    hide TakeAll, ServedAll, Reported, Present, AllAchieved, EveryoneReady;
    var v, all := TakeAll(w, env, turns), ServedAll(f, {}, turns);
    ScheduleReports(w, f, env, {}, turns);
    ReportedAchieved(v, f, env, all);
    AllAchievedReady(v, f, all);
    AllReportedIsFrozen(v, f, env, all, more);
  }

  // ---- Schedules by stages ----------------------------------------------------------------------

  lemma {:induction false} ServedAllAppend(f: Specs, done: set<Ref>, a: seq<Turn>, b: seq<Turn>)
    ensures ServedAll(f, done, a + b) == ServedAll(f, ServedAll(f, done, a), b)
    decreases a
  {
    if a == [] {
      assert a + b == b;
    } else {
      assert (a + b)[1..] == a[1..] + b;
      ServedAllAppend(f, Served(f, done, a[0]), a[1..], b);
    }
  }

  lemma {:induction false} ServedAllGrows(f: Specs, done: set<Ref>, turns: seq<Turn>)
    ensures done <= ServedAll(f, done, turns)
    decreases turns
  {
    if turns != [] {
      ServedAllGrows(f, Served(f, done, turns[0]), turns[1..]);
    }
  }

  /** A whole reconcile anywhere in the list serves its object, if all it depends on was served before the list. */
  lemma {:induction false} ServedInTurn(f: Specs, done: set<Ref>, turns: seq<Turn>, ref: Ref)
    requires Turn(ref, None) in turns && Present(f, ref) && DependsOn(f, ref) <= done
    ensures ref in ServedAll(f, done, turns)
    decreases turns
  {
    if turns[0] == Turn(ref, None) {
      ServedAllGrows(f, Served(f, done, turns[0]), turns[1..]);
    } else {
      ServedInTurn(f, Served(f, done, turns[0]), turns[1..], ref);
    }
  }

  function StageOf(ref: Ref): nat {
    match ref
    case InstanceRef(_) => 1
    case ProjectEntityRef(_) => 2
    case TrustRef(_) => 3
    case EntityRef(_) => 4
    case BindingRef(_) => 5
    case ControlPlaneRef(_) => 0
  }

  ghost predicate StageServed(f: Specs, done: set<Ref>, stage: nat) {
    forall ref | Present(f, ref) && StageOf(ref) == stage :: ref in done
  }

  lemma DependsOnStageBefore(f: Specs, ref: Ref, d: Ref)
    requires Resolves(f) && Present(f, ref) && d in DependsOn(f, ref)
    ensures Present(f, d) && StageOf(d) == StageOf(ref) - 1 && StageOf(ref) > 1
  {
  }

  lemma StageServes(f: Specs, done: set<Ref>, turns: seq<Turn>, stage: nat)
    requires Resolves(f) && 1 <= stage <= 5
    requires forall s | 1 <= s < stage :: StageServed(f, done, s)
    requires forall ref | Present(f, ref) && StageOf(ref) == stage :: Turn(ref, None) in turns
    ensures forall s | 1 <= s <= stage :: StageServed(f, ServedAll(f, done, turns), s)
  {
    hide ServedAll, Resolves, DependsOn, Present, StageOf;
    ServedAllGrows(f, done, turns);
    forall ref | Present(f, ref) && StageOf(ref) == stage ensures ref in ServedAll(f, done, turns) {
      forall d | d in DependsOn(f, ref) ensures d in done {
        DependsOnStageBefore(f, ref, d);
        assert StageServed(f, done, stage - 1);
      }
      ServedInTurn(f, done, turns, ref);
    }
    forall s | 1 <= s <= stage ensures StageServed(f, ServedAll(f, done, turns), s) {
      assert s < stage ==> StageServed(f, done, s);
    }
  }

  /** The first n parts, one after the other. */
  function FirstParts(parts: seq<seq<Turn>>, n: nat): seq<Turn>
    requires n <= |parts|
  {
    if n == 0 then [] else FirstParts(parts, n - 1) + parts[n - 1]
  }

  /** A schedule in five parts, the i-th holding a whole reconcile of each object of stage i, serves all. */
  lemma StagesServe(f: Specs, parts: seq<seq<Turn>>, n: nat)
    requires Resolves(f) && |parts| == 5 && n <= 5
    requires forall ref | Present(f, ref) :: Turn(ref, None) in parts[StageOf(ref) - 1]
    ensures forall s | 1 <= s <= n :: StageServed(f, ServedAll(f, {}, FirstParts(parts, n)), s)
    decreases n
  {
    hide ServedAll;
    if n > 0 {
      StagesServe(f, parts, n - 1);
      ServedAllAppend(f, {}, FirstParts(parts, n - 1), parts[n - 1]);
      StageServes(f, ServedAll(f, {}, FirstParts(parts, n - 1)), parts[n - 1], n);
    }
  }

  lemma StagesServeAll(f: Specs, parts: seq<seq<Turn>>)
    requires Resolves(f) && |parts| == 5
    requires forall ref | Present(f, ref) :: Turn(ref, None) in parts[StageOf(ref) - 1]
    ensures forall ref | Present(f, ref) :: ref in ServedAll(f, {}, FirstParts(parts, 5))
  {
    hide ServedAll, Resolves, FirstParts;
    StagesServe(f, parts, 5);
    forall ref | Present(f, ref) ensures ref in ServedAll(f, {}, FirstParts(parts, 5)) {
      assert StageServed(f, ServedAll(f, {}, FirstParts(parts, 5)), StageOf(ref));
    }
  }

  /** So the five controllers, each having its turn with every object of its kind, bring the service up. */
  lemma FiveStagesConverge(w: World, f: Specs, env: Env, parts: seq<seq<Turn>>, more: seq<Turn>)
    requires Healthy(w, f, env) && |parts| == 5
    requires forall ref | Present(f, ref) :: Turn(ref, None) in parts[StageOf(ref) - 1]
    ensures var v := TakeAll(w, env, FirstParts(parts, 5)); EveryoneReady(v) && SameObjects(v, TakeAll(v, env, more))
  {
    hide TakeAll, ServedAll, Healthy, EveryoneReady, FirstParts, Present, StageOf;
    HealthyResolves(w, f, env);
    StagesServeAll(f, parts);
    Converges(w, f, env, FirstParts(parts, 5), more);
  }
}
