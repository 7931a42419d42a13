/** When a service that is up also leaves its backends alone: exactly when the specs do not contradict each other. */
module Resting {
  import opened Wrappers
  import opened Text
  import opened Naming
  import opened Identity
  import opened Conditions
  import opened Backend
  import opened Api
  import opened Plans
  import opened Frames
  import opened Runs
  import opened TrustSafety
  import opened BindingEffects
  import opened BindingLoop
  import opened BindingDeletion
  import opened Idempotence
  import opened Settling
  import opened Achievement
  import opened Contents
  import opened Convergence

  // ---- A settled service rests ------------------------------------------------------------------

  lemma SettledTurnIsIdle(w: World, f: Specs, env: Env, t: Turn)
    requires Settled(w, f, env, t.ref)
    ensures Take(w, env, t) == w
  {
    hide Plan, Settled;
    var plan := Plan(w, env, t.ref);
    SettledIsIdle(w, f, env, t.ref, plan);
    if t.stop.Some? && t.stop.value < |plan| {
      SettledIsIdle(w, f, env, t.ref, plan[..t.stop.value]);
    }
  }

  lemma {:induction false} SettledRests(w: World, f: Specs, env: Env, done: set<Ref>, more: seq<Turn>)
    requires Healthy(w, f, env) && AllSettled(w, f, env, done) && forall ref | Present(f, ref) :: ref in done
    ensures TakeAll(w, env, more) == w
    decreases more
  {
    if more != [] {
      hide Take, Settled, Healthy, AllSettled, Plan, Present;
      var t := more[0];
      if t.ref in done {
        SettledOne(w, f, env, done, t.ref);
        SettledTurnIsIdle(w, f, env, t);
      } else {
        AbsentIsIdle(w, f, env, t.ref);
        NothingToDo(w, env, t);
      }
      SettledRests(w, f, env, done, more[1..]);
    }
  }

  // ---- With places and role names apart one pass is enough --------------------------------------

  lemma TurnSettles(w: World, f: Specs, env: Env, done: set<Ref>, t: Turn)
    requires Stable(w, f, env) && Closed(f, done) && AllSettled(w, f, env, done)
    ensures var v := Take(w, env, t);
            Stable(v, f, env) && Closed(f, Served(f, done, t)) && AllSettled(v, f, env, Served(f, done, t))
  {
    hide Reconcile, ReconcilePart, Settled, Healthy, Apart, RolesApart, Plan, AllAchieved;
    WholeIsPart(w, env, t.ref);
    PartKeepsSettled(w, f, env, done, t.ref, if t.stop.Some? then t.stop.value else |Plan(w, env, t.ref)|);
    if Served(f, done, t) != done {
      AllSettledReported(w, f, env, done);
      ReportedAchieved(w, f, env, done);
      ReconcileSettles(w, f, env, done, t.ref);
    }
  }

  lemma {:induction false} ScheduleSettles(w: World, f: Specs, env: Env, done: set<Ref>, turns: seq<Turn>)
    requires Stable(w, f, env) && Closed(f, done) && AllSettled(w, f, env, done)
    ensures var v, all := TakeAll(w, env, turns), ServedAll(f, done, turns);
            Stable(v, f, env) && Closed(f, all) && AllSettled(v, f, env, all)
    decreases turns
  {
    if turns != [] {
      hide Take, Served, Settled, Stable, Closed, AllSettled;
      TurnSettles(w, f, env, done, turns[0]);
      ScheduleSettles(Take(w, env, turns[0]), f, env, Served(f, done, turns[0]), turns[1..]);
    }
  }

  /**
   With no two objects writing one place, where a serving schedule ends the backends hold the whole
   configuration and no reconcile of any object changes anything, whatever was in them before.
   */
  lemma OnePassRests(w: World, f: Specs, env: Env, turns: seq<Turn>, more: seq<Turn>)
    requires Stable(w, f, env)
    requires forall ref | Present(f, ref) :: ref in ServedAll(f, {}, turns)
    ensures Configuration(TakeAll(w, env, turns), f, env)
    ensures TakeAll(TakeAll(w, env, turns), env, more) == TakeAll(w, env, turns)
  {
    hide TakeAll, ServedAll, Settled, Healthy, Apart, RolesApart, Present, Configuration;
    var v, all := TakeAll(w, env, turns), ServedAll(f, {}, turns);
    ScheduleSettles(w, f, env, {}, turns);
    SettledConfiguration(v, f, env, all);
    SettledRests(v, f, env, all, more);
  }

  // ---- Writes to one spot -----------------------------------------------------------------------

  predicate SameSpot(x: Write, y: Write) {
    || (x.WriteConfig? && y.WriteConfig? && x.backend == y.backend && x.path == y.path)
    || (x.WriteRole? && y.WriteRole? && x.backend == y.backend && x.path == y.path && x.role.name == y.role.name)
  }

  /**
   The specs do not contradict each other: trusts on one place have one issuer, references with one role one
   role content.
   */
  predicate Agree(f: Specs, env: Env) {
    && (forall j, k | j in f.base.trusts && k in f.base.trusts :: TrustKnown(f, env, j) && TrustKnown(f, env, k) ==>
          SameSpot(ConfigAsked(f, env, j), ConfigAsked(f, env, k)) ==> ConfigAsked(f, env, j) == ConfigAsked(f, env, k))
    && (forall b, c, r, s | b in f.bindings && c in f.bindings && r in f.bindings[b].refs && s in f.bindings[c].refs ::
          RefKnown(f, env, b, r) && RefKnown(f, env, c, s) ==>
          SameSpot(RoleAsked(f, env, b, r), RoleAsked(f, env, c, s)) ==>
              RoleAsked(f, env, b, r) == RoleAsked(f, env, c, s))
  }

  ghost predicate AskedAgree(f: Specs, env: Env) {
    forall x, y | Asked(f, env, x) && Asked(f, env, y) && SameSpot(x, y) :: x == y
  }

  lemma AgreeIffAsked(f: Specs, env: Env)
    ensures Agree(f, env) <==> AskedAgree(f, env)
  {
    hide TrustKnown, RefKnown, SameSpot;
    if Agree(f, env) {
      forall x, y | Asked(f, env, x) && Asked(f, env, y) && SameSpot(x, y) ensures x == y {
        AskedPair(f, env, x, y);
      }
    }
    if AskedAgree(f, env) {
      forall j, k | j in f.base.trusts && k in f.base.trusts && TrustKnown(f, env, j) && TrustKnown(f, env, k)
        && SameSpot(ConfigAsked(f, env, j), ConfigAsked(f, env, k))
        ensures ConfigAsked(f, env, j) == ConfigAsked(f, env, k)
      {
        assert Asked(f, env, ConfigAsked(f, env, j)) && Asked(f, env, ConfigAsked(f, env, k));
      }
      forall b, c, r, s | b in f.bindings && c in f.bindings && r in f.bindings[b].refs && s in f.bindings[c].refs
        && RefKnown(f, env, b, r) && RefKnown(f, env, c, s)
        && SameSpot(RoleAsked(f, env, b, r), RoleAsked(f, env, c, s))
        ensures RoleAsked(f, env, b, r) == RoleAsked(f, env, c, s)
      {
        assert Asked(f, env, RoleAsked(f, env, b, r)) && Asked(f, env, RoleAsked(f, env, c, s));
      }
    }
  }

  lemma AskedPair(f: Specs, env: Env, x: Write, y: Write)
    requires Agree(f, env) && Asked(f, env, x) && Asked(f, env, y) && SameSpot(x, y)
    ensures x == y
  {
    hide TrustKnown, RefKnown, RoleOf;
    if x.WriteConfig? {
      var j :| j in f.base.trusts && TrustKnown(f, env, j) && x == ConfigAsked(f, env, j);
      var k :| k in f.base.trusts && TrustKnown(f, env, k) && y == ConfigAsked(f, env, k);
    } else {
      var b, r :| b in f.bindings && r in f.bindings[b].refs && RefKnown(f, env, b, r) && x == RoleAsked(f, env, b, r);
      var c, s :| c in f.bindings && s in f.bindings[c].refs && RefKnown(f, env, c, s) && y == RoleAsked(f, env, c, s);
    }
  }

  /** A content write that finds its mount has its content in place, and leaves other spots alone. */
  predicate MountThere(w: World, x: Write) {
    Content(x) ==> x.backend in w.backends && x.path in w.backends[x.backend].mounts
  }

  lemma ContentWritten(w: World, x: Write)
    requires Content(x) && MountThere(w, x)
    ensures Done(Apply(w, x), x)
  {
    hide Apply, Slot;
    ApplyParts(w, x);
  }

  predicate RoleNamed(x: Write) {
    x.WriteRole? ==> '/' !in x.role.name
  }

  lemma ContentElsewhere(w: World, x: Write, y: Write)
    requires Content(x) && Content(y) && Done(w, y) && !SameSpot(x, y) && RoleNamed(x) && RoleNamed(y)
    ensures Done(Apply(w, x), y)
  {
    hide Apply, OnBackend, Slot;
    ApplyParts(w, x);
    if x.backend == y.backend {
      if y.WriteConfig? {
        ConfigCallStays(w.backends[y.backend], x, y.path, y.config);
      } else {
        if x.WriteRole? {
          SlotOfNames(x.path, x.role.name, y.path, y.role.name);
        }
        RoleCallStays(w.backends[y.backend], x, y.path, y.role);
      }
    }
  }

  lemma DoneAgrees(w: World, x: Write, y: Write)
    requires Content(x) && Content(y) && Done(w, x) && Done(w, y) && SameSpot(x, y)
    ensures x == y
  {
  }

  lemma AskedNamed(f: Specs, env: Env, x: Write)
    requires Asked(f, env, x)
    ensures RoleNamed(x)
  {
    hide TrustKnown, RefKnown, RoleName;
    if x.WriteRole? {
      var b, r :| b in f.bindings && r in f.bindings[b].refs && RefKnown(f, env, b, r) && x == RoleAsked(f, env, b, r);
      RoleNameIsName(f.base.sha, b.namespace, b.name + "-" + r);
    }
  }

  lemma PlaceThere(w: World, f: Specs, done: set<Ref>, k: Key)
    requires k in f.base.trusts && AllAchieved(w, f, done) && forall r | Present(f, r) :: r in done
    ensures PlaceMounted(w, f, k)
  {
    hide AllAchieved, PlaceMounted, TrustAchieved;
    assert Present(f, TrustRef(k));
    AllAchievedAt(w, f, done, TrustRef(k));
  }

  lemma AskedMounted(w: World, f: Specs, env: Env, done: set<Ref>, x: Write)
    requires Asked(f, env, x) && AllAchieved(w, f, done) && forall r | Present(f, r) :: r in done
    ensures MountThere(w, x)
  {
    hide RoleOf, PlaceOf, AllAchieved, RequestFor, Present;
    if x.WriteConfig? {
      var k :| k in f.base.trusts && TrustKnown(f, env, k) && x == ConfigAsked(f, env, k);
      PlaceThere(w, f, done, k);
    } else if x.WriteRole? {
      var b, r :| b in f.bindings && r in f.bindings[b].refs && RefKnown(f, env, b, r) && x == RoleAsked(f, env, b, r);
      PlaceThere(w, f, done, TrustOf(f, b, r));
    }
  }

  // ---- A second pass ----------------------------------------------------------------------------

  ghost predicate FromPlan(w: World, env: Env, done: set<Ref>, y: Write) {
    exists ref | ref in done :: y in Plan(w, env, ref)
  }

  /** A reported service in which these planned writes are done. */
  ghost predicate Progress(w: World, f: Specs, env: Env, done: set<Ref>, made: seq<Write>) {
    && Healthy(w, f, env) && AllReported(w, f, env, done)
    && forall y | y in made :: FromPlan(w, env, done, y) && Done(w, y)
  }

  ghost predicate SamePlans(w: World, v: World, env: Env, done: set<Ref>) {
    forall ref | ref in done :: Plan(v, env, ref) == Plan(w, env, ref)
  }

  lemma FromSamePlans(w: World, v: World, env: Env, done: set<Ref>, y: Write)
    requires SamePlans(w, v, env, done) && FromPlan(w, env, done, y)
    ensures FromPlan(v, env, done, y)
  {
    hide Plan;
  }

  /** A planned write on a reported service is done afterwards and undoes no planned write, if what is asked agrees. */
  lemma MadeStays(w: World, f: Specs, env: Env, done: set<Ref>, ref: Ref, x: Write, y: Write)
    requires Healthy(w, f, env) && Closed(f, done) && AllReported(w, f, env, done) && AskedAgree(f, env)
    requires forall r | Present(f, r) :: r in done
    requires ref in done && x in Plan(w, env, ref) && FromPlan(w, env, done, y) && (y == x || Done(w, y))
    requires SamePlans(w, Apply(w, x), env, done) && AllReported(Apply(w, x), f, env, done)
    ensures Done(Apply(w, x), y)
  {
    hide Apply, Healthy, Closed, AllReported, AllAchieved, Plan, Done, Asked, AskedAgree, Content, SameSpot, Present,
      RoleNamed, MountThere, Reported;
    var v := Apply(w, x);
    var s :| s in done && y in Plan(w, env, s);
    ReportedOne(w, f, env, done, ref);
    PlannedSpares(w, f, env, ref, x);
    if !Content(y) {
      ReportedOne(v, f, env, done, s);
      PlannedSpares(v, f, env, s, y);
    } else {
      ContentIsAsked(w, f, env, done, s, y);
      if !Content(x) {
        DoneIsIdle(w, x);
        IdleIs(w, x);
      } else {
        ContentIsAsked(w, f, env, done, ref, x);
        AskedNamed(f, env, x);
        AskedNamed(f, env, y);
        ReportedAchieved(w, f, env, done);
        AskedMounted(w, f, env, done, x);
        if SameSpot(x, y) {
          AskedSame(f, env, x, y);
          ContentWritten(w, x);
        } else if y == x {
          ContentWritten(w, x);
        } else {
          ContentElsewhere(w, x, y);
        }
      }
    }
  }

  lemma AskedSame(f: Specs, env: Env, x: Write, y: Write)
    requires AskedAgree(f, env) && Asked(f, env, x) && Asked(f, env, y) && SameSpot(x, y)
    ensures x == y
  {
    hide Asked, SameSpot;
  }

  lemma AgreedWrite(w: World, f: Specs, env: Env, done: set<Ref>, made: seq<Write>, ref: Ref, x: Write)
    requires Progress(w, f, env, done, made) && Closed(f, done) && AskedAgree(f, env)
    requires forall r | Present(f, r) :: r in done
    requires ref in done && x in Plan(w, env, ref)
    ensures var v := Apply(w, x); Progress(v, f, env, done, made + [x]) && SamePlans(w, v, env, done)
  {
    hide Apply, Healthy, Closed, AllReported, Plan, Done, AskedAgree, Content, Present, BackendsGrow, Untouched, Owns;
    var v := Apply(w, x);
    ReportedOne(w, f, env, done, ref);
    PlannedSpares(w, f, env, ref, x);
    HealthyPlanOwned(w, f, env, ref, x);
    SparingWrite(w, f, env, done, ref, x);
    assert FromPlan(w, env, done, x);
    forall y | y in made + [x] ensures FromPlan(v, env, done, y) && Done(v, y) {
      FromSamePlans(w, v, env, done, y);
      MadeStays(w, f, env, done, ref, x, y);
    }
  }

  lemma SamePlansTransitive(u: World, v: World, w: World, env: Env, done: set<Ref>)
    requires SamePlans(u, v, env, done) && SamePlans(v, w, env, done)
    ensures SamePlans(u, w, env, done)
  {
    hide Plan;
  }

  lemma SamePlanAt(w: World, v: World, env: Env, done: set<Ref>, ref: Ref)
    requires SamePlans(w, v, env, done) && ref in done
    ensures Plan(v, env, ref) == Plan(w, env, ref)
  {
    hide Plan;
  }

  predicate InPlan(w: World, env: Env, ref: Ref, xs: seq<Write>) {
    forall x | x in xs :: x in Plan(w, env, ref)
  }

  lemma {:induction false} AgreedRun(w: World, f: Specs, env: Env, done: set<Ref>, made: seq<Write>, ref: Ref,
                                     xs: seq<Write>)
    requires Progress(w, f, env, done, made) && Closed(f, done) && AskedAgree(f, env)
    requires forall r | Present(f, r) :: r in done
    requires ref in done && InPlan(w, env, ref, xs)
    ensures var v := ApplyAll(w, xs); Progress(v, f, env, done, made + xs) && SamePlans(w, v, env, done)
    decreases xs
  {
    hide Apply, Progress, Closed, AskedAgree, Present, Plan, SamePlans;
    if xs != [] {
      assert xs[0] in xs;
      var v := Apply(w, xs[0]);
      AgreedWrite(w, f, env, done, made, ref, xs[0]);
      SamePlanAt(w, v, env, done, ref);
      AgreedRun(v, f, env, done, made + [xs[0]], ref, xs[1..]);
      SamePlansTransitive(w, v, ApplyAll(v, xs[1..]), env, done);
      assert made + [xs[0]] + xs[1..] == made + xs;
    } else {
      assert made + xs == made;
      SamePlansItself(w, env, done);
    }
  }

  lemma SamePlansItself(w: World, env: Env, done: set<Ref>)
    ensures SamePlans(w, w, env, done)
  {
    hide Plan;
  }

  lemma AgreedTurn(w: World, f: Specs, env: Env, done: set<Ref>, made: seq<Write>, t: Turn)
    requires Progress(w, f, env, done, made) && Closed(f, done) && AskedAgree(f, env)
    requires forall r | Present(f, r) :: r in done
    ensures var v := Take(w, env, t);
            && SamePlans(w, v, env, done)
            && Progress(v, f, env, done, made + if t.stop.None? && t.ref in done then Plan(w, env, t.ref) else [])
  {
    hide Progress, Healthy, Closed, AskedAgree, Present, Plan;
    var plan := Plan(w, env, t.ref);
    if t.ref in done {
      var part := if t.stop.Some? && t.stop.value < |plan| then plan[..t.stop.value] else plan;
      AgreedRun(w, f, env, done, made, t.ref, part);
      if t.stop.Some? {
        FewerMade(Take(w, env, t), f, env, done, made, part);
      }
    } else {
      ProgressHealthy(w, f, env, done, made);
      AbsentIsIdle(w, f, env, t.ref);
      NothingToDo(w, env, t);
      assert made + [] == made;
    }
  }

  lemma ProgressHealthy(w: World, f: Specs, env: Env, done: set<Ref>, made: seq<Write>)
    requires Progress(w, f, env, done, made)
    ensures Healthy(w, f, env) && AllReported(w, f, env, done)
  {
  }

  lemma FewerMade(w: World, f: Specs, env: Env, done: set<Ref>, made: seq<Write>, more: seq<Write>)
    requires Progress(w, f, env, done, made + more)
    ensures Progress(w, f, env, done, made + [])
  {
    hide Healthy, AllReported, FromPlan, Done;
    assert forall y | y in made + [] :: y in made + more;
  }

  /** A pass over agreeing content: every whole reconcile in it leaves its writes done to the end. */
  lemma {:induction false} AgreedPass(w: World, f: Specs, env: Env, done: set<Ref>, made: seq<Write>, turns: seq<Turn>)
    requires Progress(w, f, env, done, made) && Closed(f, done) && AskedAgree(f, env)
    requires forall r | Present(f, r) :: r in done
    ensures var v := TakeAll(w, env, turns);
            && SamePlans(w, v, env, done) && Progress(v, f, env, done, made)
            && forall ref, x | ref in done && Turn(ref, None) in turns && x in Plan(w, env, ref) :: Done(v, x)
    decreases turns
  {
    if turns != [] {
      hide Progress, Closed, AskedAgree, Present, Plan, Take, Done, FromPlan;
      var t, u := turns[0], Take(w, env, turns[0]);
      var plan := if t.stop.None? && t.ref in done then Plan(w, env, t.ref) else [];
      AgreedTurn(w, f, env, done, made, t);
      AgreedPass(u, f, env, done, made + plan, turns[1..]);
      var v := TakeAll(u, env, turns[1..]);
      FewerMade(v, f, env, done, made, plan);
      assert made + [] == made;
      forall ref, x | ref in done && Turn(ref, None) in turns && x in Plan(w, env, ref) ensures Done(v, x) {
        if Turn(ref, None) == t {
          assert x in made + plan;
          ProgressDone(v, f, env, done, made + plan, x);
        } else {
          assert Turn(ref, None) in turns[1..];
        }
      }
    }
  }

  lemma ProgressDone(w: World, f: Specs, env: Env, done: set<Ref>, made: seq<Write>, x: Write)
    requires Progress(w, f, env, done, made) && x in made
    ensures Done(w, x)
  {
    hide Healthy, AllReported, FromPlan, Done;
  }

  lemma AgreedPassSettles(w: World, f: Specs, env: Env, done: set<Ref>, turns: seq<Turn>)
    requires Healthy(w, f, env) && AllReported(w, f, env, done) && Closed(f, done) && AskedAgree(f, env)
    requires forall r | Present(f, r) :: r in done
    requires forall ref | ref in done :: Turn(ref, None) in turns
    ensures var v := TakeAll(w, env, turns); Healthy(v, f, env) && AllSettled(v, f, env, done)
  {
    hide Healthy, AllReported, Closed, AskedAgree, Present, Plan, Done, TakeAll, Achieved;
    AgreedPass(w, f, env, done, [], turns);
    var v := TakeAll(w, env, turns);
    ProgressHealthy(v, f, env, done, []);
    ReportedAchieved(v, f, env, done);
    forall ref | ref in done ensures Settled(v, f, env, ref) {
      AllAchievedAt(v, f, done, ref);
      assert Plan(v, env, ref) == Plan(w, env, ref);
    }
  }

  // ---- No rest while writes contradict each other -----------------------------------------------

  /** Whatever its object's turns, whole or cut off, nothing changes. */
  ghost predicate IdleAt(w: World, env: Env, ref: Ref) {
    forall t: Turn | t.ref == ref :: Take(w, env, t) == w
  }

  /** Then each single write of its plan changes nothing. */
  lemma IdleAtEachWrite(w: World, env: Env, ref: Ref, x: Write)
    requires IdleAt(w, env, ref) && x in Plan(w, env, ref)
    ensures Apply(w, x) == w
  {
    hide Plan, Apply, ApplyAll;
    var plan := Plan(w, env, ref);
    var i :| 0 <= i < |plan| && plan[i] == x;
    CutIsIdle(w, env, ref, i);
    CutIsIdle(w, env, ref, i + 1);
    assert plan[..i + 1] == plan[..i] + [x];
    ApplySnoc(w, plan[..i], x);
  }

  lemma CutIsIdle(w: World, env: Env, ref: Ref, i: nat)
    requires IdleAt(w, env, ref) && i <= |Plan(w, env, ref)|
    ensures ApplyAll(w, Plan(w, env, ref)[..i]) == w
  {
    hide Plan, ApplyAll;
    var plan := Plan(w, env, ref);
    assert Take(w, env, Turn(ref, Some(i))) == w;
    assert plan[..|plan|] == plan;
  }

  lemma IdleContentDone(w: World, x: Write)
    requires Content(x) && MountThere(w, x) && Apply(w, x) == w
    ensures Done(w, x)
  {
    hide Apply, Done, Content, MountThere;
    ContentWritten(w, x);
  }

  /**
   In no world at all, healthy or not, do two objects both rest whose reconciles write different content
   to one spot under a mount that is there.
   */
  lemma ClashNeverRests(w: World, env: Env, r: Ref, s: Ref, x: Write, y: Write)
    requires x in Plan(w, env, r) && y in Plan(w, env, s) && Content(x) && Content(y) && SameSpot(x, y) && x != y
    requires MountThere(w, x)
    ensures !IdleAt(w, env, r) || !IdleAt(w, env, s)
  {
    hide Plan, Apply, IdleAt, Done;
    if IdleAt(w, env, r) && IdleAt(w, env, s) {
      IdleAtEachWrite(w, env, r, x);
      IdleAtEachWrite(w, env, s, y);
      IdleContentDone(w, x);
      IdleContentDone(w, y);
      DoneAgrees(w, x, y);
    }
  }

  /**
   Nor do two bindings, already by whole reconciles: if the last role each leaves at some slot differs, one
   of the two always rewrites it.
   */
  lemma TwoBindingsNeverRest(w: World, env: Env, b: Key, c: Key, n: string, slot: string)
    requires LiveBinding(w, env, b) && LiveBinding(w, env, c)
    requires var last := LastAt(LoopWrites(OutcomesOf(w, env, b)), n, slot);
             last.Some? && LastAt(LoopWrites(OutcomesOf(w, env, c)), n, slot).Some?
             && last != LastAt(LoopWrites(OutcomesOf(w, env, c)), n, slot)
    ensures Reconcile(w, env, BindingRef(b)) != w || Reconcile(w, env, BindingRef(c)) != w
  {
    hide Reconcile, OutcomesOf, LoopWrites, LastAt;
    LoopRoles(w, env, b, n, slot);
    LoopRoles(w, env, c, n, slot);
  }

  /** A reported service that rests has specs that agree. */
  lemma RestingServiceAgrees(w: World, f: Specs, env: Env, done: set<Ref>)
    requires Healthy(w, f, env) && Closed(f, done) && AllReported(w, f, env, done)
    requires forall r | Present(f, r) :: r in done
    requires forall ref | ref in done :: IdleAt(w, env, ref)
    ensures AskedAgree(f, env)
  {
    hide Healthy, Closed, AllReported, AllAchieved, Plan, Asked, Content, SameSpot, Present, MountThere, IdleAt;
    ReportedAchieved(w, f, env, done);
    forall x, y | Asked(f, env, x) && Asked(f, env, y) && SameSpot(x, y) ensures x == y {
      var r := AskedIsPlanned(w, f, env, done, x);
      var s := AskedIsPlanned(w, f, env, done, y);
      AskedIsContent(f, env, x);
      AskedIsContent(f, env, y);
      AskedMounted(w, f, env, done, x);
      if x != y {
        ClashNeverRests(w, env, r, s, x, y);
      }
    }
  }

  ghost predicate Rests(w: World, env: Env) {
    forall more: seq<Turn> :: TakeAll(w, env, more) == w
  }

  lemma RestsIdle(w: World, env: Env, ref: Ref)
    requires Rests(w, env)
    ensures IdleAt(w, env, ref)
  {
    hide Take;
    forall t: Turn | t.ref == ref ensures Take(w, env, t) == w {
      assert TakeAll(w, env, [t]) == TakeAll(Take(w, env, t), env, [t][1..]) == Take(w, env, t);
    }
  }

  /**
   In a healthy service, whatever it started from and however often and in whatever order its objects have
   been reconciled since all were first served: one more whole reconcile of each, in any order, and it rests
   for good, holding the whole configuration, exactly when the specs agree.
   */
  lemma RestsIffAgree(w: World, f: Specs, env: Env, first: seq<Turn>, second: seq<Turn>)
    requires Healthy(w, f, env)
    requires forall ref | Present(f, ref) :: ref in ServedAll(f, {}, first)
    requires forall ref | Present(f, ref) :: Turn(ref, None) in second
    ensures var v := TakeAll(TakeAll(w, env, first), env, second);
            && (Rests(v, env) <==> Agree(f, env))
            && (Rests(v, env) ==> Configuration(v, f, env))
  {
    hide Healthy, TakeAll, ServedAll, Present, Closed, AllReported, AllSettled, Agree, AskedAgree, Rests, IdleAt,
      Configuration;
    var u, done := TakeAll(w, env, first), ServedAll(f, {}, first);
    var v := TakeAll(u, env, second);
    NothingReported(w, f, env);
    ScheduleReports(w, f, env, {}, first);
    AllReportedIsFrozen(u, f, env, done, second);
    AgreeIffAsked(f, env);
    if Agree(f, env) {
      forall ref | ref in done ensures Turn(ref, None) in second {
        PresentIn(f, done, ref);
      }
      AgreedPassSettles(u, f, env, done, second);
      SettledConfiguration(v, f, env, done);
      forall more: seq<Turn> ensures TakeAll(v, env, more) == v {
        SettledRests(v, f, env, done, more);
      }
      assert Rests(v, env) by {
        RestsIs(v, env);
      }
    }
    if Rests(v, env) {
      forall ref | ref in done ensures IdleAt(v, env, ref) {
        RestsIdle(v, env, ref);
      }
      RestingServiceAgrees(v, f, env, done);
    }
  }

  lemma RestsIs(w: World, env: Env)
    requires forall more: seq<Turn> :: TakeAll(w, env, more) == w
    ensures Rests(w, env)
  {
    hide TakeAll;
  }

  lemma JoinedRoles(f: Specs, namespace: string, x: string, y: string, z: string)
    ensures RoleOf(f, Key(namespace, x + "-" + y), z) == RoleOf(f, Key(namespace, x), y + "-" + z)
  {
    hide RoleName;
    DashMeetsDash(f.base.sha, "", namespace, x, y, z);
  }

  /**
   Contradicting specs with valid names: binding "x-y" with reference "z" and binding "x" with reference
   "y-z" share a role name. On one trust, with different subjects or policies, they never come to rest.
   */
  lemma JoinedReferencesDisagree(f: Specs, env: Env, namespace: string, x: string, y: string, z: string)
    requires var b, c := Key(namespace, x + "-" + y), Key(namespace, x);
             && RefKnown(f, env, b, z) && RefKnown(f, env, c, y + "-" + z)
             && PlaceOf(f.base, TrustOf(f, b, z)) == PlaceOf(f.base, TrustOf(f, c, y + "-" + z))
             && (env.tokens[RequestFor(f, Key(namespace, z))].subject
                 != env.tokens[RequestFor(f, Key(namespace, y + "-" + z))].subject
                 || f.bindings[b].policyName != f.bindings[c].policyName)
    ensures !Agree(f, env)
  {
    hide PlaceOf, RequestFor, RoleOf;
    var b, c := Key(namespace, x + "-" + y), Key(namespace, x);
    JoinedRoles(f, namespace, x, y, z);
    assert SameSpot(RoleAsked(f, env, b, z), RoleAsked(f, env, c, y + "-" + z));
    assert RoleAsked(f, env, b, z) != RoleAsked(f, env, c, y + "-" + z);
  }

  // ---- When role names are apart ----------------------------------------------------------------

  /** With DNS-label names and no hash collision, role names are apart when the joined names are. */
  lemma RoleNamesApartIff(f: Specs, b: Key, r: string, c: Key, s: string)
    requires Label(b.namespace) && Label(b.name) && Label(r) && Label(c.namespace) && Label(c.name) && Label(s)
    requires CollisionFree(f.base.sha,
                           {RoleFull(b.namespace, b.name + "-" + r), RoleFull(c.namespace, c.name + "-" + s)})
    ensures RoleOf(f, b, r) == RoleOf(f, c, s) <==>
            b.namespace + "-" + (b.name + "-" + r) == c.namespace + "-" + (c.name + "-" + s)
  {
    hide CollisionFree, Label, TruncateWithHash;
    LabelJoin(b.name, r);
    LabelJoin(c.name, s);
    JoinedLabels(b.namespace, b.name + "-" + r);
    JoinedLabels(c.namespace, c.name + "-" + s);
    TruncationInjective(f.base.sha, RoleFull(b.namespace, b.name + "-" + r), RoleFull(c.namespace, c.name + "-" + s),
                        60);
  }

  // ---- The hypotheses can be met ----------------------------------------------------------------

  /** A service with one object of each kind, all freshly created, and an empty unsealed backend. */
  function ExampleSpecs(sha: Digest, k: Key): Specs {
    Specs(Frozen(sha, "", map["bao" := InstanceSpec(None)], map[k := ProjectEntitySpec("bao")],
                 map[k := TrustSpec(k, "cp", "")]),
          map[k := EntitySpec(k.name, "a", "b")], map[k := BindingSpec("policy", [k.name], "", "")])
  }

  function ExampleWorld(sha: Digest, k: Key): World {
    var f := ExampleSpecs(sha, k);
    World(map["bao" := Instance(NewMeta({}), f.base.instances["bao"], InstanceStatus(0, "", None, None, []))],
          map[k := ProjectEntity(NewMeta({}), f.base.projectEntities[k], ProjectEntityStatus(0, "", "", []))],
          map[k := Trust(NewMeta({}), f.base.trusts[k], TrustStatus(0, "", "", "", "", []))],
          map[k := Entity(NewMeta({}), f.entities[k], EntityStatus(0, None, "", []))],
          map[k := Binding(NewMeta({}), f.bindings[k], BindingStatus(0, [], "", Unknown, []))],
          map["bao" := FRESH.(health := HealthInfo(true, false, ""), policies := {"policy"})])
  }

  function ExampleEnv(sha: Digest, k: Key): Env {
    Env(sha, Some(""), {}, map[], map[Key(k.namespace, "cp") := [Endpoint(ISSUER_ENDPOINT, "i")]], map[],
        map[TokenRequest(Key(k.namespace, "cp"), "a", "b", ResolveControlPlaneAudience("")) :=
              Claims("i", "s", RawText("s"))], None)
  }

  lemma ExampleToken(env: Env, k: Key, trust: TrustSpec)
    requires var req := TokenRequest(Key(k.namespace, trust.controlPlane), "a", "b",
                                     ResolveControlPlaneAudience(trust.audience));
             req in env.tokens && env.tokens[req].subject != ""
    ensures TokenReady(env, k.namespace, EntitySpec(k.name, "a", "b"), trust)
  {
    hide ResolveControlPlaneAudience;
    assert LeftEdge("a", WHITE_SPACE, 0) == 0 && RightEdge("a", WHITE_SPACE, 0, 1) == 1;
    assert LeftEdge("b", WHITE_SPACE, 0) == 0 && RightEdge("b", WHITE_SPACE, 0, 1) == 1;
  }

  lemma ExampleResolves(sha: Digest, k: Key)
    ensures Resolves(ExampleSpecs(sha, k))
  {
    assert Key(k.namespace, k.name) == k;
  }

  lemma ExampleMatches(sha: Digest, k: Key)
    ensures Matches(ExampleWorld(sha, k), ExampleSpecs(sha, k))
  {
  }

  lemma ExampleOperational(sha: Digest, k: Key)
    ensures var f := ExampleSpecs(sha, k); Operational(ExampleWorld(sha, k), f)
  {
    assert Key(k.namespace, k.name) == k;
  }

  lemma ExampleHealthy(sha: Digest, k: Key)
    ensures EnvHealthy(ExampleSpecs(sha, k), ExampleEnv(sha, k))
  {
    hide TokenReady, IssuerKnown, ResolveControlPlaneAudience;
    var f, env := ExampleSpecs(sha, k), ExampleEnv(sha, k);
    IssuerThere(env, Key(k.namespace, "cp"));
    ExampleToken(env, k, f.base.trusts[k]);
    assert Key(k.namespace, k.name) == k;
  }

  lemma ExampleApart(sha: Digest, k: Key)
    ensures Apart(ExampleSpecs(sha, k).base) && RolesApart(ExampleSpecs(sha, k))
  {
    hide RoleOf, PlaceOf;
  }

  /** So the theorems above speak of something: such a service is healthy, and its places are apart. */
  lemma StableServiceExists(sha: Digest, k: Key)
    ensures var f := ExampleSpecs(sha, k); Stable(ExampleWorld(sha, k), f, ExampleEnv(sha, k))
  {
    hide Resolves, Matches, Operational, EnvHealthy, Apart, RolesApart, ExampleSpecs, ExampleWorld, ExampleEnv;
    ExampleResolves(sha, k);
    ExampleMatches(sha, k);
    ExampleOperational(sha, k);
    ExampleHealthy(sha, k);
    ExampleApart(sha, k);
  }

  // ---- A healthy service that never rests -------------------------------------------------------

  /** Bindings "a-b" on "c" and "a" on "b-c", both references on one trust. */
  function ClashSpecs(sha: Digest): Specs {
    var k := Key("n", "t");
    Specs(Frozen(sha, "", map["bao" := InstanceSpec(None)], map[k := ProjectEntitySpec("bao")],
                 map[k := TrustSpec(k, "cp", "")]),
          map[Key("n", "c") := EntitySpec("t", "a", "b"), Key("n", "b-c") := EntitySpec("t", "a", "d")],
          map[Key("n", "a-b") := BindingSpec("policy", ["c"], "", ""),
              Key("n", "a") := BindingSpec("policy", ["b-c"], "", "")])
  }

  function ClashWorld(sha: Digest): World {
    var f, k := ClashSpecs(sha), Key("n", "t");
    World(map["bao" := Instance(NewMeta({}), f.base.instances["bao"], InstanceStatus(0, "", None, None, []))],
          map[k := ProjectEntity(NewMeta({}), f.base.projectEntities[k], ProjectEntityStatus(0, "", "", []))],
          map[k := Trust(NewMeta({}), f.base.trusts[k], TrustStatus(0, "", "", "", "", []))],
          map e | e in f.entities :: Entity(NewMeta({}), f.entities[e], EntityStatus(0, None, "", [])),
          map b | b in f.bindings :: Binding(NewMeta({}), f.bindings[b], BindingStatus(0, [], "", Unknown, [])),
          map["bao" := FRESH.(health := HealthInfo(true, false, ""), policies := {"policy"})])
  }

  /** The two service accounts' tokens carry the subjects "s" and "u". */
  function ClashEnv(sha: Digest): Env {
    var ck, audience := Key("n", "cp"), ResolveControlPlaneAudience("");
    Env(sha, Some(""), {}, map[], map[ck := [Endpoint(ISSUER_ENDPOINT, "i")]], map[],
        map[TokenRequest(ck, "a", "b", audience) := Claims("i", "s", RawText("s")),
            TokenRequest(ck, "a", "d", audience) := Claims("i", "u", RawText("u"))], None)
  }

  lemma ClashResolves(sha: Digest)
    ensures Resolves(ClashSpecs(sha))
  {
  }

  lemma ClashMatches(sha: Digest)
    ensures Matches(ClashWorld(sha), ClashSpecs(sha))
  {
  }

  lemma ClashOperational(sha: Digest)
    ensures Operational(ClashWorld(sha), ClashSpecs(sha))
  {
  }

  lemma LetterIsNoSpace(s: string)
    requires |s| == 1 && s[0] !in WHITE_SPACE
    ensures TrimSpace(s) != ""
  {
    assert LeftEdge(s, WHITE_SPACE, 0) == 0 && RightEdge(s, WHITE_SPACE, 0, 1) == 1;
  }

  lemma ClashTokens(sha: Digest)
    ensures var f, env, trust := ClashSpecs(sha), ClashEnv(sha), TrustSpec(Key("n", "t"), "cp", "");
            TokenReady(env, "n", EntitySpec("t", "a", "b"), trust)
              && TokenReady(env, "n", EntitySpec("t", "a", "d"), trust)
  {
    hide ResolveControlPlaneAudience, TrimSpace;
    LetterIsNoSpace("a");
    LetterIsNoSpace("b");
    LetterIsNoSpace("d");
  }

  lemma ClashHealthy(sha: Digest)
    ensures EnvHealthy(ClashSpecs(sha), ClashEnv(sha))
  {
    hide TokenReady, IssuerKnown, ResolveControlPlaneAudience;
    IssuerThere(ClashEnv(sha), Key("n", "cp"));
    ClashTokens(sha);
  }

  lemma ClashDisagrees(sha: Digest)
    ensures !Agree(ClashSpecs(sha), ClashEnv(sha))
  {
    hide AuthMountPath, ResolveControlPlaneAudience, Agree;
    var f, env := ClashSpecs(sha), ClashEnv(sha);
    assert "a" + "-" + "b" == "a-b" && "b" + "-" + "c" == "b-c";
    JoinedReferencesDisagree(f, env, "n", "a", "b", "c");
  }

  /** So there is a healthy service with valid names that comes up Ready and never rests. */
  lemma HealthyServiceWithoutRest(sha: Digest, first: seq<Turn>, second: seq<Turn>)
    requires forall ref | Present(ClashSpecs(sha), ref) :: ref in ServedAll(ClashSpecs(sha), {}, first)
    requires forall ref | Present(ClashSpecs(sha), ref) :: Turn(ref, None) in second
    ensures var v := TakeAll(TakeAll(ClashWorld(sha), ClashEnv(sha), first), ClashEnv(sha), second);
            Healthy(ClashWorld(sha), ClashSpecs(sha), ClashEnv(sha)) && !Rests(v, ClashEnv(sha))
  {
    hide Resolves, Matches, Operational, EnvHealthy, ClashSpecs, ClashWorld, ClashEnv, Agree, Rests, Present,
      ServedAll, TakeAll;
    ClashResolves(sha);
    ClashMatches(sha);
    ClashOperational(sha);
    ClashHealthy(sha);
    ClashDisagrees(sha);
    RestsIffAgree(ClashWorld(sha), ClashSpecs(sha), ClashEnv(sha), first, second);
  }
}
