/** What the migration does when it is run again: exactly when there is nothing left to plan, and nothing left to move. */
module MigrationRepeat {
  import opened Wrappers
  import opened Migration

  ghost predicate Decided(w: World, steps: seq<Step>) {
    forall s :: s in steps ==> Decide(w, s.at) == Some(s.to)
  }

  lemma PlanDecided(w: World)
    requires Tree(w.fs) && Lists(w.order)
    ensures Decided(w, Plan(w))
  {
    hide Tree, Lists, Plan, Decide;
    forall s | s in Plan(w) ensures Decide(w, s.at) == Some(s.to) {
      PlanIsDecided(w, s);
    }
  }

  lemma AllSound(w: World, steps: seq<Step>)
    requires Tree(w.fs) && Decided(w, steps)
    ensures forall s :: s in steps ==> Sound(s)
  {
    hide Tree, Decide, Sound;
    forall s | s in steps ensures Sound(s) {
      DecidedIsSound(w, s);
    }
  }

  /** No directory of a plan lies inside another. */
  lemma SourcesAreApart(w: World, s: Place, t: Place)
    requires Decide(w, s).Some? && Decide(w, t).Some? && PathOf(s) <= PathOf(t)
    ensures s == t
  {
    hide HasSkill, IsAgent, IsDir;
    var p, q := PathOf(s), PathOf(t);
    assert p[0] == q[0] && p[1] == q[1];
    assert |p| == 3 ==> p[2] == q[2];
    assert !IsTenant(NATIVE) by { assert NATIVE[0] != TENANT[0]; }
  }

  // ---- One run, place by place ----

  predicate Made(fs: Files, s: Step) {
    StatusOf(fs, PathOf(s.at), PathTo(s.to)) == Moved
  }

  /** A run with one step more. */
  lemma LastStep(fs: Files, steps: seq<Step>)
    requires steps != []
    ensures
      var before, s := Apply(fs, steps[..|steps| - 1]), steps[|steps| - 1];
      && (before.stopped ==> Apply(fs, steps) == before)
      && (!before.stopped && Made(before.fs, s) ==>
            Apply(fs, steps) == Applied(AfterMove(before.fs, PathOf(s.at), PathTo(s.to)), false))
      && (!before.stopped && !Made(before.fs, s) ==> Apply(fs, steps).fs == before.fs)
      && (!before.stopped && StatusOf(before.fs, PathOf(s.at), PathTo(s.to)) != Blocked ==> !Apply(fs, steps).stopped)
  {
    hide AfterMove, StatusOf;
  }

  /** What lies under no moved directory stays as it is. */
  lemma MoveLeaves(fs: Files, s: Step, q: Path)
    requires Tree(fs) && Sound(s) && Made(fs, s) && q in fs && !(PathOf(s.at) <= q)
    ensures var g := AfterMove(fs, PathOf(s.at), PathTo(s.to)); q in g && g[q] == fs[q]
  {
    hide Tree, AfterMove, Sound, StatusOf, PathOf, PathTo;
    SoundIsMovable(fs, s);
    MoveKeeps(fs, PathOf(s.at), PathTo(s.to), q);
  }

  lemma {:induction false} UntouchedStays(w: World, steps: seq<Step>, q: Path)
    requires Tree(w.fs) && Decided(w, steps) && q in w.fs
    requires forall s :: s in steps ==> !(PathOf(s.at) <= q)
    ensures q in Apply(w.fs, steps).fs && Apply(w.fs, steps).fs[q] == w.fs[q]
  {
    hide Tree, Decide, Apply, PathOf, PathTo, Sound, Made;
    AllSound(w, steps);
    if steps == [] {
      ApplyNothing(w.fs);
    } else {
      var init, last := steps[..|steps| - 1], steps[|steps| - 1];
      UntouchedStays(w, init, q);
      ApplyKeeps(w.fs, init);
      LastStep(w.fs, steps);
      if !Apply(w.fs, init).stopped && Made(Apply(w.fs, init).fs, last) {
        MoveLeaves(Apply(w.fs, init).fs, last, q);
      }
    }
  }

  /** Nothing of the new layout lies under a directory of the old one. */
  lemma NewIsNotUnderOld(at: Place, to: Target, k: nat)
    requires Zone(PathOf(at)) && k <= |PathTo(to)|
    ensures !(PathOf(at) <= PathTo(to)[..k])
  {
    hide PathTo, PathOf;
    TargetsAreOutside(to);
    assert k >= 2 ==> PathTo(to)[..k][1] == PathTo(to)[1];
  }

  lemma DestinationStays(w: World, steps: seq<Step>, to: Target)
    requires Tree(w.fs) && Decided(w, steps) && PathTo(to) in w.fs
    ensures PathTo(to) in Apply(w.fs, steps).fs
  {
    hide Tree, Decide, Apply, PathOf, PathTo, Zone;
    AllSound(w, steps);
    forall s | s in steps ensures !(PathOf(s.at) <= PathTo(to)) {
      NewIsNotUnderOld(s.at, to, |PathTo(to)|);
      assert PathTo(to)[..|PathTo(to)|] == PathTo(to);
    }
    UntouchedStays(w, steps, PathTo(to));
  }

  /** Below a directory whose destination is taken or obstructed nothing changes, and it stays that way. */
  lemma {:induction false} ObstructedStays(w: World, steps: seq<Step>, s: Step, q: Path)
    requires Tree(w.fs) && Decided(w, steps) && Decide(w, s.at) == Some(s.to)
    requires !Unobstructed(w.fs, s.to) && q in w.fs && PathOf(s.at) <= q
    ensures q in Apply(w.fs, steps).fs && Apply(w.fs, steps).fs[q] == w.fs[q]
    ensures !Unobstructed(Apply(w.fs, steps).fs, s.to)
  {
    hide Tree, Decide, Apply, PathOf, PathTo, Sound, Unobstructed, Made;
    AllSound(w, steps);
    if steps == [] {
      ApplyNothing(w.fs);
    } else {
      var init, last := steps[..|steps| - 1], steps[|steps| - 1];
      ObstructedStays(w, init, s, q);
      ApplyKeeps(w.fs, init);
      LastStep(w.fs, steps);
      var now := Apply(w.fs, init).fs;
      if !Apply(w.fs, init).stopped && Made(now, last) {
        MadeIsUnobstructed(now, last);
        assert last != s;
        if PathOf(last.at) <= q {
          Comparable(PathOf(last.at), PathOf(s.at), q);
          if PathOf(last.at) <= PathOf(s.at) {
            SourcesAreApart(w, last.at, s.at);
          } else {
            SourcesAreApart(w, s.at, last.at);
          }
        }
        MoveLeaves(now, last, q);
        ObstructionStays(now, last, s.to);
      }
    }
  }

  lemma Comparable(a: Path, b: Path, q: Path)
    requires a <= q && b <= q
    ensures a <= b || b <= a
  {
    assert q[..|a|] == a && q[..|b|] == b;
  }

  lemma MadeIsUnobstructed(fs: Files, s: Step)
    requires Made(fs, s)
    ensures Unobstructed(fs, s.to)
  {
  }

  lemma ObstructionStays(fs: Files, s: Step, to: Target)
    requires Tree(fs) && Sound(s) && Made(fs, s) && !Unobstructed(fs, to)
    ensures !Unobstructed(AfterMove(fs, PathOf(s.at), PathTo(s.to)), to)
  {
    hide Tree, AfterMove, StatusOf, PathOf, PathTo, Zone, Made;
    var p := PathTo(to);
    if p in fs {
      assert p[..|p|] == p;
      NewIsNotUnderOld(s.at, to, |p|);
      MoveLeaves(fs, s, p);
    } else {
      var k :| 0 <= k < |p| && p[..k] in fs && fs[p[..k]].File?;
      NewIsNotUnderOld(s.at, to, k);
      MoveLeaves(fs, s, p[..k]);
    }
  }

  // ---- The second plan ----

  /** A directory that is still there with its `skill.md` still has a destination. */
  lemma StillDecided(w: World, after: World, at: Place)
    requires after == w.(fs := after.fs) && Decide(w, at).Some?
    requires forall q :: q in w.fs && PathOf(at) <= q ==> q in after.fs && after.fs[q] == w.fs[q]
    ensures Decide(after, at).Some?
  {
    assert PathOf(at) <= PathOf(at) + [SKILL_FILE];
  }

  /**
   When no two destinations clash, a second inventory is empty exactly when every destination was
   free and nothing stood in its way; otherwise the directories concerned are planned again.
   */
  lemma SecondPlanIsEmptyExactly(w: World)
    requires Tree(w.fs) && Lists(w.order) && NoClashes(Plan(w))
    ensures Plan(w.(fs := Apply(w.fs, Plan(w)).fs)) == [] <==>
      forall s :: s in Plan(w) ==> Unobstructed(w.fs, s.to)
  {
    hide Tree, PathTo, PathOf, Decide, Lists, Plan, Unobstructed, Apply, NoClashes;
    var steps := Plan(w);
    if forall s :: s in steps ==> Unobstructed(w.fs, s.to) {
      SecondRunIsEmpty(w);
    } else {
      var s :| s in steps && !Unobstructed(w.fs, s.to);
      ObstructedIsPlannedAgain(w, s);
    }
  }

  lemma ObstructedIsPlannedAgain(w: World, s: Step)
    requires Tree(w.fs) && Lists(w.order) && s in Plan(w) && !Unobstructed(w.fs, s.to)
    ensures Plan(w.(fs := Apply(w.fs, Plan(w)).fs)) != []
  {
    hide Tree, PathTo, PathOf, Decide, Lists, Plan, Unobstructed, Apply, Sound;
    var steps := Plan(w);
    var after := w.(fs := Apply(w.fs, steps).fs);
    PlanDecided(w);
    AllSound(w, steps);
    ApplyKeeps(w.fs, steps);
    forall q | q in w.fs && PathOf(s.at) <= q ensures q in after.fs && after.fs[q] == w.fs[q] {
      ObstructedStays(w, steps, s, q);
    }
    StillDecided(w, after, s.at);
    PlanIsDecided(after, Step(s.at, Decide(after, s.at).value));
  }

  // ---- What one run achieves ----

  /** No move makes a file appear above another destination. */
  lemma {:induction false} WayStays(w: World, steps: seq<Step>, to: Target)
    requires Tree(w.fs) && Decided(w, steps) && !InTheWay(w.fs, PathTo(to))
    requires forall s :: s in steps ==> !(PathTo(s.to) < PathTo(to))
    ensures !InTheWay(Apply(w.fs, steps).fs, PathTo(to))
  {
    hide Tree, Decide, Apply, PathOf, PathTo, Sound, Made, InTheWay;
    AllSound(w, steps);
    if steps == [] {
      ApplyNothing(w.fs);
    } else {
      var init, last := steps[..|steps| - 1], steps[|steps| - 1];
      WayStays(w, init, to);
      ApplyKeeps(w.fs, init);
      LastStep(w.fs, steps);
      var now := Apply(w.fs, init).fs;
      if !Apply(w.fs, init).stopped && Made(now, last) {
        MadeIsMovable(now, last);
        WayStaysClear(now, PathOf(last.at), PathTo(last.to), PathTo(to));
      }
    }
  }

  lemma MadeIsMovable(fs: Files, s: Step)
    requires Tree(fs) && Sound(s) && Made(fs, s)
    ensures Movable(fs, PathOf(s.at), PathTo(s.to))
  {
    hide Tree, Sound;
    SoundIsMovable(fs, s);
  }

  /** No move makes a path appear that its destination does not lead to. */
  lemma {:induction false} NotCreated(w: World, steps: seq<Step>, p: Path)
    requires Tree(w.fs) && Decided(w, steps) && p !in w.fs
    requires forall s :: s in steps ==> !(PathTo(s.to) <= p) && !(p < PathTo(s.to))
    ensures p !in Apply(w.fs, steps).fs
  {
    hide Tree, Decide, Apply, PathOf, PathTo, Sound, Made, AfterMove;
    AllSound(w, steps);
    if steps == [] {
      ApplyNothing(w.fs);
    } else {
      var init, last := steps[..|steps| - 1], steps[|steps| - 1];
      NotCreated(w, init, p);
      ApplyKeeps(w.fs, init);
      LastStep(w.fs, steps);
      var now := Apply(w.fs, init).fs;
      if !Apply(w.fs, init).stopped && Made(now, last) {
        MadeIsMovable(now, last);
        if p in AfterMove(now, PathOf(last.at), PathTo(last.to)) {
          MoveAddsDirsOnly(now, PathOf(last.at), PathTo(last.to), p);
        }
      }
    }
  }

  /** No file stands above a destination of the plan. */
  ghost predicate ClearWays(fs: Files, steps: seq<Step>) {
    forall s :: s in steps ==> !InTheWay(fs, PathTo(s.to))
  }

  lemma {:induction false} NeverStops(w: World, steps: seq<Step>)
    requires Tree(w.fs) && Decided(w, steps) && NoClashes(steps) && ClearWays(w.fs, steps)
    ensures !Apply(w.fs, steps).stopped
  {
    hide Tree, Decide, Apply, PathOf, PathTo, Sound, Made, InTheWay, Clash;
    if steps == [] {
      ApplyNothing(w.fs);
    } else {
      var init, last := steps[..|steps| - 1], steps[|steps| - 1];
      NeverStops(w, init);
      LastStep(w.fs, steps);
      forall s | s in init ensures !(PathTo(s.to) < PathTo(last.to)) {
        NestedExactly(w, s, last);
      }
      WayStays(w, init, last.to);
      NotBlocked(Apply(w.fs, init).fs, last);
    }
  }

  lemma NotBlocked(fs: Files, s: Step)
    requires !InTheWay(fs, PathTo(s.to))
    ensures StatusOf(fs, PathOf(s.at), PathTo(s.to)) != Blocked
  {
  }

  /** Afterwards every planned destination exists; a directory is gone if its destination was free. */
  lemma {:induction false} StepOutcome(w: World, steps: seq<Step>, s: Step)
    requires Tree(w.fs) && Decided(w, steps) && NoClashes(steps) && ClearWays(w.fs, steps) && s in steps
    ensures PathTo(s.to) in Apply(w.fs, steps).fs
    ensures PathTo(s.to) !in w.fs ==> PathOf(s.at) !in Apply(w.fs, steps).fs
  {
    hide Tree, Decide, Apply, PathOf, PathTo, Sound, Made, InTheWay, Clash, AfterMove, Zone;
    var init, last := steps[..|steps| - 1], steps[|steps| - 1];
    assert steps == init + [last];
    AllSound(w, steps);
    NeverStops(w, init);
    ApplyKeeps(w.fs, init);
    LastStep(w.fs, steps);
    var now := Apply(w.fs, init).fs;
    if s in init {
      StepOutcome(w, init, s);
      if Made(now, last) {
        OutcomeStays(now, last, s);
      }
    } else {
      FreshStep(w, init, s);
      if Made(now, s) {
        MovedAway(now, s);
      }
    }
  }

  /** The state a step finds when its turn comes for the first time. */
  lemma FreshStep(w: World, init: seq<Step>, s: Step)
    requires Tree(w.fs) && Decided(w, init + [s]) && NoClashes(init + [s]) && ClearWays(w.fs, init + [s]) && s !in init
    ensures
      var now := Apply(w.fs, init).fs;
      && (PathTo(s.to) in w.fs ==> PathTo(s.to) in now)
      && (PathTo(s.to) !in w.fs ==> Made(now, s))
  {
    hide Tree, Decide, Apply, PathOf, PathTo, Sound, InTheWay, Clash;
    assert s in init + [s];
    assert forall t :: t in init ==> t in init + [s];
    if PathTo(s.to) in w.fs {
      DestinationStays(w, init, s.to);
    } else {
      forall t | t in init
        ensures !(PathTo(t.to) <= PathTo(s.to)) && !(PathTo(s.to) < PathTo(t.to)) && !(PathOf(t.at) <= PathOf(s.at))
      {
        NestedExactly(w, t, s);
        NestedExactly(w, s, t);
        if PathOf(t.at) <= PathOf(s.at) {
          SourcesAreApart(w, t.at, s.at);
        }
      }
      NotCreated(w, init, PathTo(s.to));
      DecidedExists(w, s.at);
      UntouchedStays(w, init, PathOf(s.at));
      WayStays(w, init, s.to);
    }
  }

  lemma MovedAway(fs: Files, s: Step)
    requires Tree(fs) && Sound(s) && Made(fs, s)
    ensures
      var g := AfterMove(fs, PathOf(s.at), PathTo(s.to));
      PathTo(s.to) in g && PathOf(s.at) !in g
  {
    hide Tree, PathOf, PathTo, Zone, AfterMove;
    MadeIsMovable(fs, s);
    MoveKeeps(fs, PathOf(s.at), PathTo(s.to), PathOf(s.at));
    ShiftSelf(PathOf(s.at), PathTo(s.to));
    if PathOf(s.at) in AfterMove(fs, PathOf(s.at), PathTo(s.to)) {
      ZoneShrinks(fs, s, PathOf(s.at));
    }
  }

  lemma OutcomeStays(fs: Files, last: Step, s: Step)
    requires Tree(fs) && Sound(last) && Sound(s) && Made(fs, last) && PathTo(s.to) in fs
    ensures
      var g := AfterMove(fs, PathOf(last.at), PathTo(last.to));
      PathTo(s.to) in g && (PathOf(s.at) !in fs ==> PathOf(s.at) !in g)
  {
    hide Tree, PathOf, PathTo, Zone, AfterMove;
    NewIsNotUnderOld(last.at, s.to, |PathTo(s.to)|);
    assert PathTo(s.to)[..|PathTo(s.to)|] == PathTo(s.to);
    MoveLeaves(fs, last, PathTo(s.to));
    if PathOf(s.at) in AfterMove(fs, PathOf(last.at), PathTo(last.to)) {
      ZoneShrinks(fs, last, PathOf(s.at));
    }
  }

  // ---- When a run changes nothing ----

  lemma {:induction false} NothingToMove(fs: Files, steps: seq<Step>)
    requires forall s :: s in steps ==> PathTo(s.to) in fs
    ensures Apply(fs, steps) == Applied(fs, false)
  {
    hide PathTo, PathOf, AfterMove;
    if steps != [] {
      NothingToMove(fs, steps[..|steps| - 1]);
    }
  }

  /** A run whose ways are clear changes nothing exactly when every planned destination exists. */
  lemma RunChangesNothingExactly(w: World)
    requires Tree(w.fs) && Lists(w.order) && NoClashes(Plan(w)) && ClearWays(w.fs, Plan(w))
    ensures Apply(w.fs, Plan(w)).fs == w.fs <==> forall s :: s in Plan(w) ==> PathTo(s.to) in w.fs
  {
    hide Tree, Decide, Apply, PathOf, PathTo, Plan, Lists, NoClashes, ClearWays;
    PlanDecided(w);
    if forall s :: s in Plan(w) ==> PathTo(s.to) in w.fs {
      NothingToMove(w.fs, Plan(w));
    } else {
      var s :| s in Plan(w) && PathTo(s.to) !in w.fs;
      StepOutcome(w, Plan(w), s);
      DecidedExists(w, s.at);
    }
  }

  // ---- When a second run changes nothing ----

  /** No file stands where the new layout needs a directory. */
  ghost predicate Roomy(fs: Files) {
    forall to :: Named(to) ==> !InTheWay(fs, PathTo(to))
  }

  /**
   A top-level directory that the first run can neither archive, its place being taken, nor promote,
   as long as its twin under `native` is there; but the twin moves, to the other side, and the
   second run promotes it.
   */
  predicate Relapses(w: World, name: string) {
    var twin := Decide(w, Native(name));
    var promoted := Bundled(IsAgent(w, Top(name)), name);
    && Decide(w, Top(name)) == Some(Duplicate(name)) && PathTo(Duplicate(name)) in w.fs
    && twin.Some? && PathTo(twin.value) !in w.fs
    && twin.value != promoted && PathTo(promoted) !in w.fs
  }

  /** The files after a run. */
  function AfterRun(w: World): World {
    w.(fs := Apply(w.fs, Plan(w)).fs)
  }

  /** What the first run guarantees to the second. */
  ghost predicate Ordinary(w: World) {
    Tree(w.fs) && Lists(w.order) && NoClashes(Plan(w)) && Roomy(w.fs)
  }

  lemma RunFacts(w: World)
    requires Ordinary(w)
    ensures Decided(w, Plan(w)) && ClearWays(w.fs, Plan(w)) && Tree(AfterRun(w).fs)
    ensures forall q :: Zone(q) && q in AfterRun(w).fs ==> q in w.fs && AfterRun(w).fs[q] == w.fs[q]
  {
    hide Tree, Decide, Apply, PathTo, Lists, Plan, NoClashes, Zone, Sound, InTheWay, Named;
    PlanDecided(w);
    AllSound(w, Plan(w));
    ApplyKeeps(w.fs, Plan(w));
    forall s | s in Plan(w) ensures !InTheWay(w.fs, PathTo(s.to)) {
      NamesAreNotEmpty(w, s);
    }
    forall q | Zone(q) && q in AfterRun(w).fs ensures q in w.fs && AfterRun(w).fs[q] == w.fs[q] {
      OldLayoutShrinks(w, Plan(w), q);
    }
  }

  /** A directory planned again was there before, with its destination taken. */
  lemma PlannedAgain(w: World, at: Place)
    requires Ordinary(w) && Decide(AfterRun(w), at).Some?
    ensures Decide(w, at).Some? && PathTo(Decide(w, at).value) in w.fs
    ensures forall q :: q in w.fs && PathOf(at) <= q ==> q in AfterRun(w).fs && AfterRun(w).fs[q] == w.fs[q]
  {
    hide Tree, Decide, Apply, PathTo, PathOf, Lists, Plan, NoClashes, Zone, Roomy, ClearWays, Unobstructed, InTheWay;
    RunFacts(w);
    NothingNewToMove(w, AfterRun(w), at);
    var s := Step(at, Decide(w, at).value);
    PlanIsDecided(w, s);
    StepOutcome(w, Plan(w), s);
    DecidedExists(AfterRun(w), at);
    TakenIsObstructed(w.fs, s.to);
    forall q | q in w.fs && PathOf(at) <= q ensures q in AfterRun(w).fs && AfterRun(w).fs[q] == w.fs[q] {
      ObstructedStays(w, Plan(w), s, q);
    }
  }

  lemma TakenIsObstructed(fs: Files, to: Target)
    requires PathTo(to) in fs
    ensures !Unobstructed(fs, to)
  {
  }

  /** Its new destination is the old one, unless it was a duplicate whose twin has moved. */
  lemma NewDestination(w: World, after: World, at: Place)
    requires after == w.(fs := after.fs) && Decide(w, at).Some? && Decide(after, at).Some?
    requires forall q :: q in w.fs && PathOf(at) <= q ==> q in after.fs && after.fs[q] == w.fs[q]
    requires forall q :: Zone(q) && q in after.fs ==> q in w.fs && after.fs[q] == w.fs[q]
    ensures Decide(after, at) == Decide(w, at) ||
      (at.Top? && Decide(w, at) == Some(Duplicate(at.name)) && Decide(after, at) == Some(Bundled(IsAgent(w, at), at.name))
       && !IsDir(after.fs, PathOf(Native(at.name))))
  {
    OldPlaces(w, at);
    assert PathOf(at) <= PathOf(at) + [SKILL_FILE];
    assert at.Top? ==> Zone(PathOf(Native(at.name)));
  }

  /** The twin of a duplicate goes only if it had a free destination of its own. */
  lemma TwinMoved(w: World, name: string)
    requires Ordinary(w) && Decide(w, Top(name)) == Some(Duplicate(name))
    requires !IsDir(AfterRun(w).fs, PathOf(Native(name)))
    ensures Decide(w, Native(name)).Some? && Decide(w, Native(name)).value.Bundled?
    ensures Decide(w, Native(name)).value.slug == name && PathTo(Decide(w, Native(name)).value) !in w.fs
  {
    hide Tree, Apply, PathTo, Lists, Plan, NoClashes, Roomy, Unobstructed, InTheWay, HasSkill, IsAgent, ClearWays;
    RunFacts(w);
    var q := PathOf(Native(name));
    if Decide(w, Native(name)) == None {
      forall s | s in Plan(w) ensures !(PathOf(s.at) <= q) {
        if PathOf(s.at) <= q {
          NotAboveNative(w, s.at, name);
        }
      }
      UntouchedStays(w, Plan(w), q);
    } else {
      var s := Step(Native(name), Decide(w, Native(name)).value);
      if PathTo(s.to) in w.fs {
        TakenIsObstructed(w.fs, s.to);
        ObstructedStays(w, Plan(w), s, q);
      }
    }
  }

  lemma NotAboveNative(w: World, at: Place, name: string)
    requires Decide(w, at).Some? && PathOf(at) <= PathOf(Native(name))
    ensures Decide(w, Native(name)).Some?
  {
    hide HasSkill, IsAgent, IsDir;
    var p := PathOf(at);
    assert p[1] == NATIVE && (|p| == 3 ==> p[2] == name);
    assert !IsTenant(NATIVE) by { assert NATIVE[0] != TENANT[0]; }
  }

  /** No step of the first run leads to the place where a relapsing directory would be promoted. */
  lemma PromotionIsApart(w: World, name: string, s: Step)
    requires Tree(w.fs) && Decide(w, s.at) == Some(s.to) && name != ""
    requires Decide(w, Top(name)) == Some(Duplicate(name))
    requires Decide(w, Native(name)) != Some(Bundled(IsAgent(w, Top(name)), name))
    ensures
      var p := PathTo(Bundled(IsAgent(w, Top(name)), name));
      !(PathTo(s.to) <= p) && !(p < PathTo(s.to))
  {
    hide Tree, PathTo, HasSkill, IsAgent, IsDir;
    var to := Bundled(IsAgent(w, Top(name)), name);
    NamesAreNotEmpty(w, s);
    PathsNest(s.to, to);
    PathsNest(to, s.to);
  }

  lemma WaysStayClear(w: World, s: Step)
    requires Ordinary(w) && Decide(AfterRun(w), s.at) == Some(s.to)
    ensures !InTheWay(AfterRun(w).fs, PathTo(s.to))
  {
    hide Tree, Decide, Apply, PathOf, PathTo, Lists;
    hide Plan, NoClashes, Zone, ClearWays, Unobstructed, InTheWay, IsAgent, Clash;
    RunFacts(w);
    PlannedAgain(w, s.at);
    NewDestination(w, AfterRun(w), s.at);
    NamesAreNotEmpty(AfterRun(w), s);
    var first := Step(s.at, Decide(w, s.at).value);
    PlanIsDecided(w, first);
    forall t | t in Plan(w) ensures !(PathTo(t.to) < PathTo(s.to)) {
      if s.to == first.to {
        NoClashAmong(w, t, first);
        NestedExactly(w, t, first);
      } else {
        ShortestTargets(t.to, s.to);
      }
    }
    WayStays(w, Plan(w), s.to);
  }

  lemma NoClashAmong(w: World, s: Step, t: Step)
    requires NoClashes(Plan(w)) && s in Plan(w) && t in Plan(w)
    ensures !Clash(s, t) && !Clash(t, s)
  {
    hide Plan, Clash;
  }

  lemma ShortestTargets(a: Target, b: Target)
    requires b.Bundled?
    ensures !(PathTo(a) < PathTo(b))
  {
  }

  /** The second run meets the conditions of the first. */
  lemma SecondIsOrdinary(w: World)
    requires Ordinary(w)
    ensures
      var after := AfterRun(w);
      Tree(after.fs) && Lists(after.order) && NoClashes(Plan(after)) && ClearWays(after.fs, Plan(after))
  {
    hide Tree, Decide, Apply, PathOf, PathTo, Lists, Plan, Zone, Unobstructed, InTheWay, IsAgent, Roomy;
    var after := AfterRun(w);
    RunFacts(w);
    PlanDecided(after);
    forall s | s in Plan(after) ensures !InTheWay(after.fs, PathTo(s.to)) {
      WaysStayClear(w, s);
    }
    forall s, t | s in Plan(after) && t in Plan(after) ensures !Clash(s, t) {
      if Clash(s, t) {
        PlannedAgain(w, s.at);
        PlannedAgain(w, t.at);
        NewDestination(w, after, s.at);
        NewDestination(w, after, t.at);
        PlanIsDecided(w, s);
        PlanIsDecided(w, t);
      }
    }
  }

  /** What a relapse comes to in the second plan. */
  lemma RelapseIsPlanned(w: World, name: string)
    requires Ordinary(w) && Relapses(w, name)
    ensures
      var s := Step(Top(name), Bundled(IsAgent(w, Top(name)), name));
      s in Plan(AfterRun(w)) && PathTo(s.to) !in AfterRun(w).fs
  {
    hide Tree, Decide, Apply, PathOf, PathTo, Lists;
    hide Plan, NoClashes, Zone, Unobstructed, InTheWay, IsAgent, Roomy, ClearWays;
    var after := AfterRun(w);
    RunFacts(w);
    var s := Step(Top(name), Duplicate(name));
    var twin := Step(Native(name), Decide(w, Native(name)).value);
    PlanIsDecided(w, twin);
    StepOutcome(w, Plan(w), twin);
    TakenIsObstructed(w.fs, s.to);
    forall q | q in w.fs && PathOf(s.at) <= q ensures q in after.fs && after.fs[q] == w.fs[q] {
      ObstructedStays(w, Plan(w), s, q);
    }
    NowPromoted(w, after, name);
    var again := Step(Top(name), Bundled(IsAgent(w, Top(name)), name));
    PlanIsDecided(after, again);
    NamesAreNotEmpty(w, s);
    forall t | t in Plan(w)
      ensures !(PathTo(t.to) <= PathTo(again.to)) && !(PathTo(again.to) < PathTo(t.to))
    {
      PromotionIsApart(w, name, t);
    }
    NotCreated(w, Plan(w), PathTo(again.to));
  }

  lemma NowPromoted(w: World, after: World, name: string)
    requires after == w.(fs := after.fs) && Decide(w, Top(name)) == Some(Duplicate(name))
    requires PathOf(Native(name)) !in after.fs
    requires forall q :: q in w.fs && PathOf(Top(name)) <= q ==> q in after.fs && after.fs[q] == w.fs[q]
    requires forall q :: Zone(q) && q in after.fs ==> q in w.fs && after.fs[q] == w.fs[q]
    ensures Decide(after, Top(name)) == Some(Bundled(IsAgent(w, Top(name)), name))
  {
    var p := PathOf(Top(name));
    assert p <= p + [SKILL_FILE];
  }

  /**
   When no file obstructs the new layout and no destinations clash, a second run changes nothing
   exactly when no directory relapses.
   */
  lemma SecondRunChangesNothingExactly(w: World)
    requires Ordinary(w)
    ensures
      var after := AfterRun(w);
      Apply(after.fs, Plan(after)).fs == after.fs <==> forall name :: !Relapses(w, name)
  {
    hide Tree, Decide, Apply, PathOf, PathTo, Lists, Plan, NoClashes, Relapses, IsAgent, Roomy, ClearWays, Zone;
    var after := AfterRun(w);
    SecondIsOrdinary(w);
    RunChangesNothingExactly(after);
    if name :| Relapses(w, name) {
      RelapseIsPlanned(w, name);
    } else if s :| s in Plan(after) && PathTo(s.to) !in after.fs {
      PlanIsDecided(after, s);
      RelapseFound(w, s);
    }
  }

  /** A destination that is free on the second run comes from a relapse. */
  lemma RelapseFound(w: World, s: Step)
    requires Ordinary(w) && Decide(AfterRun(w), s.at) == Some(s.to) && PathTo(s.to) !in AfterRun(w).fs
    ensures s.at.Top? && Relapses(w, s.at.name)
  {
    hide Tree, Decide, Apply, PathOf, PathTo, Lists;
    hide Plan, NoClashes, Zone, Unobstructed, InTheWay, IsAgent, Roomy, ClearWays;
    var after := AfterRun(w);
    RunFacts(w);
    PlannedAgain(w, s.at);
    NewDestination(w, after, s.at);
    DestinationsStay(w);
    var name := s.at.name;
    TwinMoved(w, name);
    var twin := Step(Native(name), Decide(w, Native(name)).value);
    PlanIsDecided(w, twin);
    StepOutcome(w, Plan(w), twin);
  }

  lemma DestinationsStay(w: World)
    requires Ordinary(w)
    ensures forall to :: PathTo(to) in w.fs ==> PathTo(to) in AfterRun(w).fs
  {
    hide Tree, Decide, Apply, PathOf, PathTo, Lists, Plan, NoClashes, Roomy;
    PlanDecided(w);
    forall to | PathTo(to) in w.fs ensures PathTo(to) in AfterRun(w).fs {
      DestinationStays(w, Plan(w), to);
    }
  }

  // ---- A relapse ----

  const LUNA: Files := map[
    [] := Dir,
    [SKILLS] := Dir,
    [SKILLS, NATIVE] := Dir,
    [SKILLS, NATIVE, "luna"] := Dir,
    [SKILLS, NATIVE, "luna", SKILL_FILE] := File("a skill"),
    [SKILLS, "luna"] := Dir,
    [SKILLS, "luna", SKILL_FILE] := File("a skill"),
    [SKILLS, "_archive"] := Dir,
    [SKILLS, "_archive", "_top_level_dups"] := Dir,
    [SKILLS, "_archive", "_top_level_dups", "luna"] := Dir]

  /** The parent of every path is there. */
  ghost predicate HasParents(fs: Files) {
    forall p :: p in fs && p != [] ==> IsDir(fs, p[..|p| - 1]) && p[|p| - 1] != ""
  }

  lemma {:induction false} ParentsAreEnough(fs: Files, p: Path, k: nat)
    requires HasParents(fs) && p in fs && k < |p|
    ensures p[..k] in fs && fs[p[..k]] == Dir && p[k] != ""
    decreases |p|
  {
    var parent := p[..|p| - 1];
    assert IsDir(fs, parent);
    if k < |parent| {
      ParentsAreEnough(fs, parent, k);
      assert parent[..k] == p[..k];
    }
  }

  lemma TreeOfParents(fs: Files)
    requires HasParents(fs)
    ensures Tree(fs)
  {
    forall p, k | p in fs && 0 <= k < |p| ensures p[..k] in fs && fs[p[..k]] == Dir && p[k] != "" {
      ParentsAreEnough(fs, p, k);
    }
  }

  lemma LunaIsTree()
    ensures Tree(LUNA)
  {
    hide Tree;
    forall p | p in LUNA && p != [] ensures IsDir(LUNA, p[..|p| - 1]) && p[|p| - 1] != "" {
      var parent := p[..|p| - 1];
      assert |p| == 1 ==> parent == [];
      assert |p| == 2 ==> parent == [p[0]];
      assert |p| == 3 ==> parent == [p[0], p[1]];
      assert |p| == 4 ==> parent == [p[0], p[1], p[2]];
    }
    TreeOfParents(LUNA);
  }

  lemma LunaIsOrdinary(w: World)
    requires w.fs == LUNA && Lists(w.order)
    ensures Ordinary(w)
  {
    hide Plan, Lists, NoClashes, Tree;
    LunaIsTree();
    forall to ensures !InTheWay(LUNA, PathTo(to)) {
      LunaIsRoomy(to);
    }
    assert [SKILLS, TENANT] !in LUNA by {
      assert TENANT[0] == 't';
    }
    NamedTenantsDoNotClash(w);
  }

  lemma LunaIsRoomy(to: Target)
    ensures !InTheWay(LUNA, PathTo(to))
  {
    hide PathTo;
    TargetsAreOutside(to);
    var p := PathTo(to);
    forall k | 0 <= k < |p| && p[..k] in LUNA ensures LUNA[p[..k]] == Dir {
      assert k >= 2 ==> p[..k][1] == p[1];
    }
  }

  /**
   With `luna` both at the top and under `native`, and its place in the archive taken, the first run
   moves one and the second run the other.
   */
  lemma LunaMovesTwice(w: World)
    requires w.fs == LUNA && Lists(w.order) && !w.agent("a skill")
    ensures Relapses(w, "luna")
    ensures Apply(AfterRun(w).fs, Plan(AfterRun(w))).fs != AfterRun(w).fs
  {
    LunaRelapses(w);
    LunaIsOrdinary(w);
    hide Ordinary, Relapses, Plan, Apply;
    SecondRunChangesNothingExactly(w);
  }

  lemma LunaRelapses(w: World)
    requires w.fs == LUNA && !w.agent("a skill")
    ensures Relapses(w, "luna")
  {
    assert "luna"[0] == 'l';
    assert PathOf(Top("luna")) + [SKILL_FILE] == [SKILLS, "luna", SKILL_FILE];
    assert PathOf(Native("luna")) + [SKILL_FILE] == [SKILLS, NATIVE, "luna", SKILL_FILE];
    assert AGENTS[0] == 'a' && "_bundled"[1] == 'b';
  }

  // ---- A run that stops ----

  const STALLED: Files := map[
    [] := Dir,
    [SKILLS] := Dir,
    [SKILLS, NATIVE] := Dir,
    [SKILLS, NATIVE, "luna"] := Dir,
    [SKILLS, NATIVE, "luna", SKILL_FILE] := File("a skill"),
    [SKILLS, "luna"] := Dir,
    [SKILLS, "luna", SKILL_FILE] := File("a skill"),
    [SKILLS, "_archive"] := File("")]

  const TWIN := Step(Native("luna"), Bundled(true, "luna"))
  const SPARE := Step(Top("luna"), Duplicate("luna"))
  const PROMOTED := Step(Top("luna"), Bundled(false, "luna"))

  lemma StalledIsTree()
    ensures Tree(STALLED)
  {
    hide Tree;
    forall p | p in STALLED && p != [] ensures IsDir(STALLED, p[..|p| - 1]) && p[|p| - 1] != "" {
      var parent := p[..|p| - 1];
      assert |p| == 1 ==> parent == [];
      assert |p| == 2 ==> parent == [p[0]];
      assert |p| == 3 ==> parent == [p[0], p[1]];
      assert |p| == 4 ==> parent == [p[0], p[1], p[2]];
    }
    TreeOfParents(STALLED);
  }

  lemma StalledDecisions(w: World, at: Place)
    requires w.fs == STALLED && !w.agent("a skill")
    ensures Decide(w, at) ==
      if at == TWIN.at then Some(TWIN.to) else if at == SPARE.at then Some(SPARE.to) else None
  {
    assert "luna"[0] == 'l' && AGENTS[0] == 'a' && TENANT[0] == 't' && NATIVE[0] == 'n' && SKILL_FILE[0] == 's';
    assert PathOf(SPARE.at) + [SKILL_FILE] == [SKILLS, "luna", SKILL_FILE];
    assert PathOf(TWIN.at) + [SKILL_FILE] == [SKILLS, NATIVE, "luna", SKILL_FILE];
  }

  lemma StalledMoves()
    ensures Made(STALLED, TWIN) && PathTo(PROMOTED.to) !in STALLED
  {
    assert AGENTS[0] == 'a' && SKILLS[0] == 's' && "_bundled"[1] == 'b';
    var dst := PathTo(TWIN.to);
    assert dst[..0] == [] && dst[..1] == [AGENTS] && dst[..2] == [AGENTS, "_bundled"];
  }

  lemma StillInTheWay()
    ensures var g := AfterMove(STALLED, PathOf(TWIN.at), PathTo(TWIN.to));
      [SKILLS, "_archive"] in g && g[[SKILLS, "_archive"]] == File("")
  {
    hide Tree, AfterMove, STALLED;
    StalledHolds();
    StalledIsTree();
    StalledMoves();
    assert PathOf(TWIN.at)[1] == NATIVE && "_archive"[0] == '_' && NATIVE[0] == 'n';
    SoundTwin();
    MoveLeaves(STALLED, TWIN, [SKILLS, "_archive"]);
  }

  lemma StalledHolds()
    ensures [SKILLS, "_archive"] in STALLED && STALLED[[SKILLS, "_archive"]] == File("")
  {
  }

  lemma SoundTwin()
    ensures Sound(TWIN)
  {
    assert NATIVE[0] == 'n';
  }

  /** Making the same move again and again is making it once. */
  lemma {:induction false} SameMove(fs: Files, steps: seq<Step>, s: Step)
    requires Tree(fs) && Sound(s) && Made(fs, s) && steps != [] && forall k :: 0 <= k < |steps| ==> steps[k] == s
    ensures Apply(fs, steps) == Applied(AfterMove(fs, PathOf(s.at), PathTo(s.to)), false)
  {
    hide Tree, Sound, AfterMove, PathOf, PathTo;
    var init := steps[..|steps| - 1];
    MovedAway(fs, s);
    if init == [] {
      ApplyNothing(fs);
    } else {
      SameMove(fs, init, s);
    }
  }

  lemma {:induction false} StopsAtOnce(fs: Files, steps: seq<Step>, s: Step)
    requires StatusOf(fs, PathOf(s.at), PathTo(s.to)) == Blocked
    requires steps != [] && forall k :: 0 <= k < |steps| ==> steps[k] == s
    ensures Apply(fs, steps) == Applied(fs, true)
  {
    hide StatusOf, PathOf, PathTo;
    var init := steps[..|steps| - 1];
    if init == [] {
      ApplyNothing(fs);
    } else {
      StopsAtOnce(fs, init, s);
    }
  }

  lemma {:induction false} ApplyAppend(fs: Files, a: seq<Step>, b: seq<Step>)
    ensures Apply(fs, a + b) == if Apply(fs, a).stopped then Apply(fs, a) else Apply(Apply(fs, a).fs, b)
  {
    hide StatusOf, AfterMove;
    if b == [] {
      assert a + b == a;
    } else {
      assert (a + b)[..|a + b| - 1] == a + b[..|b| - 1];
      ApplyAppend(fs, a, b[..|b| - 1]);
    }
  }

  lemma KindIsDecided(w: World, kind: Kind, s: Step)
    requires Tree(w.fs) && Lists(w.order)
    ensures s in OfKind(kind, Found(w)) <==> Decide(w, s.at) == Some(s.to) && KindOf(s.to) == kind
  {
    hide Tree, Decide, Found, OfKind, KindOf;
    PlanIsDecided(w, s);
    InKind(Agents, Found(w), s);
    InKind(Skills, Found(w), s);
    InKind(Archives, Found(w), s);
  }

  /** A kind to which one directory is decided consists of that step. */
  lemma OneOfKind(w: World, s: Step)
    requires Tree(w.fs) && Lists(w.order) && Decide(w, s.at) == Some(s.to)
    requires forall x: Step :: Decide(w, x.at) == Some(x.to) && KindOf(x.to) == KindOf(s.to) ==> x == s
    ensures OfKind(KindOf(s.to), Found(w)) != []
    ensures forall k :: 0 <= k < |OfKind(KindOf(s.to), Found(w))| ==> OfKind(KindOf(s.to), Found(w))[k] == s
  {
    hide Tree, Decide, Found, OfKind, KindOf, Lists;
    var steps := OfKind(KindOf(s.to), Found(w));
    KindIsDecided(w, KindOf(s.to), s);
    forall k | 0 <= k < |steps| ensures steps[k] == s {
      assert steps[k] in steps;
      KindIsDecided(w, KindOf(s.to), steps[k]);
    }
  }

  lemma NoneOfKind(w: World, kind: Kind)
    requires Tree(w.fs) && Lists(w.order)
    requires forall x: Step :: Decide(w, x.at) == Some(x.to) ==> KindOf(x.to) != kind
    ensures OfKind(kind, Found(w)) == []
  {
    hide Tree, Decide, Found, OfKind, KindOf, Lists;
    var steps := OfKind(kind, Found(w));
    if steps != [] {
      assert steps[0] in steps;
      KindIsDecided(w, kind, steps[0]);
    }
  }

  /** The first run moves the twin and stops at the archive. */
  lemma StalledRun(w: World)
    requires w.fs == STALLED && Lists(w.order) && !w.agent("a skill")
    ensures Apply(w.fs, Plan(w)) == Applied(AfterMove(STALLED, PathOf(TWIN.at), PathTo(TWIN.to)), true)
  {
    hide Tree, STALLED, Decide, Apply, OfKind, Found, AfterMove;
    StalledIsTree();
    StalledMoves();
    SoundTwin();
    forall x: Step ensures Decide(w, x.at) == Some(x.to) ==> x == TWIN || x == SPARE {
      StalledDecisions(w, x.at);
    }
    StalledDecisions(w, TWIN.at);
    StalledDecisions(w, SPARE.at);
    OneOfKind(w, TWIN);
    OneOfKind(w, SPARE);
    NoneOfKind(w, Skills);
    var a, c := OfKind(Agents, Found(w)), OfKind(Archives, Found(w));
    assert Plan(w) == a + c;
    SameMove(STALLED, a, TWIN);
    SpareIsBlocked();
    StopsAtOnce(AfterMove(STALLED, PathOf(TWIN.at), PathTo(TWIN.to)), c, SPARE);
    ApplyAppend(STALLED, a, c);
  }

  lemma SpareIsBlocked()
    ensures StatusOf(AfterMove(STALLED, PathOf(TWIN.at), PathTo(TWIN.to)), PathOf(SPARE.at), PathTo(SPARE.to)) == Blocked
  {
    hide Tree, AfterMove;
    var g := AfterMove(STALLED, PathOf(TWIN.at), PathTo(TWIN.to));
    StalledIsTree();
    StalledMoves();
    SoundTwin();
    StillInTheWay();
    assert NATIVE[0] == 'n' && "luna"[0] == 'l';
    MoveLeaves(STALLED, TWIN, PathOf(SPARE.at));
    MoveKeepsTree(STALLED, PathOf(TWIN.at), PathTo(TWIN.to)) by { SoundIsMovable(STALLED, TWIN); }
    var dst := PathTo(SPARE.to);
    assert dst[..2] == [SKILLS, "_archive"];
    if dst in g {
      NoFileAbove(g, dst, 2);
    }
  }

  lemma NoFileAbove(fs: Files, p: Path, k: nat)
    requires Tree(fs) && p in fs && k < |p|
    ensures p[..k] in fs && fs[p[..k]] == Dir
  {
  }

  /** What the second run finds: one directory to promote, and room for it. */
  lemma StalledAfter(w: World)
    requires w.fs == STALLED && Lists(w.order) && !w.agent("a skill")
    ensures Tree(AfterRun(w).fs) && Sound(PROMOTED) && Made(AfterRun(w).fs, PROMOTED)
    ensures forall x: Step :: Decide(AfterRun(w), x.at) == Some(x.to) <==> x == PROMOTED
  {
    hide Tree, Apply, AfterMove, Plan, Decide;
    StalledIsTree();
    StalledRun(w);
    StalledMoves();
    SoundTwin();
    SoundIsMovable(STALLED, TWIN);
    MoveKeepsTree(STALLED, PathOf(TWIN.at), PathTo(TWIN.to));
    PlanDecided(w);
    AllSound(w, Plan(w));
    StalledPromotes(w);
    assert "luna"[0] == 'l';
    PromotedHasRoom(w);
    forall at | at != PROMOTED.at ensures Decide(AfterRun(w), at) == None {
      StalledElsewhere(w, at);
    }
    forall x: Step ensures Decide(AfterRun(w), x.at) == Some(x.to) <==> x == PROMOTED {
    }
  }

  lemma StalledPromotes(w: World)
    requires w.fs == STALLED && Lists(w.order) && !w.agent("a skill")
    ensures Decide(AfterRun(w), PROMOTED.at) == Some(PROMOTED.to) && PathOf(TWIN.at) !in AfterRun(w).fs
  {
    hide Tree, Apply, AfterMove, Plan, Decide, STALLED;
    StalledIsTree();
    StalledRun(w);
    StalledMoves();
    SoundTwin();
    MovedAway(STALLED, TWIN);
    PlanDecided(w);
    AllSound(w, Plan(w));
    StalledDecisions(w, SPARE.at);
    assert NATIVE[0] == 'n' && "luna"[0] == 'l';
    forall q | q in STALLED && PathOf(Top("luna")) <= q
      ensures q in AfterRun(w).fs && AfterRun(w).fs[q] == STALLED[q]
    {
      assert q[1] == "luna" && PathOf(TWIN.at)[1] == NATIVE;
      MoveLeaves(STALLED, TWIN, q);
    }
    forall q | Zone(q) && q in AfterRun(w).fs ensures q in w.fs && AfterRun(w).fs[q] == w.fs[q] {
      OldLayoutShrinks(w, Plan(w), q);
    }
    NowPromoted(w, AfterRun(w), "luna");
    LunaIsNoAgent(w);
  }

  lemma LunaIsNoAgent(w: World)
    requires w.fs == STALLED && !w.agent("a skill")
    ensures !IsAgent(w, Top("luna"))
  {
    assert PathOf(Top("luna")) + [SKILL_FILE] == [SKILLS, "luna", SKILL_FILE];
    assert NATIVE[0] == 'n' && "luna"[0] == 'l';
  }

  lemma StalledElsewhere(w: World, at: Place)
    requires w.fs == STALLED && Lists(w.order) && !w.agent("a skill") && at != PROMOTED.at
    ensures Decide(AfterRun(w), at) == None
  {
    hide Tree, Apply, AfterMove, Plan, Decide, STALLED;
    var after := AfterRun(w);
    StalledIsTree();
    PlanDecided(w);
    AllSound(w, Plan(w));
    if Decide(after, at).Some? {
      OldPlaces(after, at);
      DecidedPath(after, at);
      OldLayoutShrinks(w, Plan(w), PathOf(at));
      if PathOf(at) + [SKILL_FILE] in after.fs {
        OldLayoutShrinks(w, Plan(w), PathOf(at) + [SKILL_FILE]);
      }
      StalledPlaces(w, after, at);
      StalledPromotes(w);
    }
  }

  lemma DecidedPath(w: World, at: Place)
    requires Decide(w, at).Some?
    ensures IsDir(w.fs, PathOf(at))
  {
  }

  lemma StalledPlaces(w: World, after: World, at: Place)
    requires w.fs == STALLED && Decide(after, at).Some? && IsDir(w.fs, PathOf(at))
    requires PathOf(at) + [SKILL_FILE] in after.fs ==> PathOf(at) + [SKILL_FILE] in w.fs
    ensures at == TWIN.at || at == PROMOTED.at
  {
    assert "luna"[0] == 'l' && AGENTS[0] == 'a' && TENANT[0] == 't' && NATIVE[0] == 'n' && SKILL_FILE[0] == 's';
  }

  /** Neither of the first run's destinations lies on the way to the promotion. */
  lemma OffPromotion(s: Step)
    requires s == TWIN || s == SPARE
    ensures
      var p, dst := PathTo(s.to), PathTo(PROMOTED.to);
      && !(p <= dst) && !(dst < p) && !(p <= dst[..2]) && !(dst[..2] < p)
  {
    var p, dst := PathTo(s.to), PathTo(PROMOTED.to);
    if s == TWIN {
      assert p[0][0] == 'a' && dst[0][0] == 's';
    } else {
      assert p[1][1] == 'a' && dst[1][1] == 'b';
    }
    assert |p| >= 3 && (p[0] != dst[0] || p[1] != dst[1]) && dst[..2][0] == dst[0] && dst[..2][1] == dst[1];
  }

  lemma PromotedHasRoom(w: World)
    requires w.fs == STALLED && Lists(w.order) && !w.agent("a skill")
    ensures Made(AfterRun(w).fs, PROMOTED)
  {
    hide Tree, Apply, AfterMove, Plan, Decide;
    StalledIsTree();
    StalledRun(w);
    StalledMoves();
    SoundTwin();
    assert "luna"[0] == 'l' && AGENTS[0] == 'a' && NATIVE[0] == 'n' && SKILLS[0] == 's' && "_archive"[1] != "_bundled"[1];
    var dst := PathTo(PROMOTED.to);
    assert dst[..0] == [] && dst[..1] == [SKILLS] && dst[..2] == [SKILLS, "_bundled"];
    MoveLeaves(STALLED, TWIN, PathOf(PROMOTED.at));
    MoveLeaves(STALLED, TWIN, []);
    MoveLeaves(STALLED, TWIN, [SKILLS]);
    PlanDecided(w);
    forall s | s in Plan(w)
      ensures !(PathTo(s.to) <= dst) && !(dst < PathTo(s.to))
      ensures !(PathTo(s.to) <= dst[..2]) && !(dst[..2] < PathTo(s.to))
    {
      StalledDecisions(w, s.at);
      assert s == TWIN || s == SPARE;
      OffPromotion(s);
    }
    NotCreated(w, Plan(w), dst);
    NotCreated(w, Plan(w), dst[..2]);
  }

  /**
   A file in the place of the archive stops the first run after one move; the second run then
   promotes the directory that could not be archived.
   */
  lemma StalledMovesAgain(w: World)
    requires w.fs == STALLED && Lists(w.order) && !w.agent("a skill")
    ensures Apply(w.fs, Plan(w)).stopped
    ensures Apply(AfterRun(w).fs, Plan(AfterRun(w))).fs != AfterRun(w).fs
  {
    hide Tree, STALLED, Decide, Apply, OfKind, Found, AfterMove;
    StalledRun(w);
    StalledIsTree();
    StalledAfter(w);
    var after := AfterRun(w);
    OneOfKind(after, PROMOTED);
    NoneOfKind(after, Agents);
    NoneOfKind(after, Archives);
    var b := OfKind(Skills, Found(after));
    assert Plan(after) == b;
    SameMove(after.fs, b, PROMOTED);
    MovedAway(after.fs, PROMOTED);
  }
}
