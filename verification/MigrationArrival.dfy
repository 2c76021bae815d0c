/** Where a run leaves the objects of every directory, path by path, and in which order it moves. */
module MigrationArrival {
  import opened Wrappers
  import opened Migration
  import opened MigrationRepeat

  // ---- Two places ----

  /** The object `w` has at `from` is at `to`. */
  predicate Holds(w: World, fs: Files, from: Path, to: Path) {
    from in w.fs && to in fs && fs[to] == w.fs[from]
  }

  lemma NewIsNotOld(at: Place, to: Target, q: Path)
    requires Zone(PathOf(at))
    ensures !(PathOf(at) <= PathTo(to) + q)
  {
    hide PathTo, PathOf;
    TargetsAreOutside(to);
    assert (PathTo(to) + q)[1] == PathTo(to)[1];
  }

  /** A directory is where it was or, with all that is in it, at its destination. */
  predicate OneOfTwo(w: World, fs: Files, s: Step, q: Path) {
    var p := PathOf(s.at) + q;
    if PathOf(s.at) in fs then Holds(w, fs, p, p) else Holds(w, fs, p, PathTo(s.to) + q)
  }

  /** The directory's own move. */
  lemma OwnMove(w: World, fs: Files, s: Step, q: Path)
    requires Tree(fs) && Sound(s) && Made(fs, s) && OneOfTwo(w, fs, s, q)
    ensures OneOfTwo(w, AfterMove(fs, PathOf(s.at), PathTo(s.to)), s, q)
  {
    hide Tree, AfterMove, Sound, PathOf, PathTo, Zone;
    var src, dst := PathOf(s.at), PathTo(s.to);
    SoundIsMovable(fs, s);
    MoveKeeps(fs, src, dst, src + q);
    assert Shift(src, dst, src + q) == dst + q;
    SourceGoes(fs, s);
  }

  lemma SourceGoes(fs: Files, s: Step)
    requires Tree(fs) && Sound(s) && Made(fs, s)
    ensures PathOf(s.at) !in AfterMove(fs, PathOf(s.at), PathTo(s.to))
  {
    hide Tree, AfterMove, PathOf, PathTo, Zone, StatusOf;
    if PathOf(s.at) in AfterMove(fs, PathOf(s.at), PathTo(s.to)) {
      SoundIsInZone(s);
      ZoneShrinks(fs, s, PathOf(s.at));
    }
  }

  lemma SoundIsInZone(s: Step)
    requires Sound(s)
    ensures Zone(PathOf(s.at))
  {
  }

  lemma OthersAreNotUnder(w: World, s: Place, t: Place, q: Path)
    requires Decide(w, s).Some? && Decide(w, t).Some? && s != t
    ensures !(PathOf(t) <= PathOf(s) + q)
  {
    hide Decide, PathOf;
    if PathOf(t) <= PathOf(s) + q {
      Comparable(PathOf(t), PathOf(s), PathOf(s) + q);
      if PathOf(t) <= PathOf(s) {
        SourcesAreApart(w, t, s);
      } else {
        SourcesAreApart(w, s, t);
      }
    }
  }

  /** Another directory's move. */
  lemma OtherMove(w: World, fs: Files, s: Step, t: Step, q: Path)
    requires Tree(w.fs) && Tree(fs) && Decide(w, s.at) == Some(s.to) && Decide(w, t.at) == Some(t.to) && s.at != t.at
    requires Made(fs, t) && OneOfTwo(w, fs, s, q)
    ensures OneOfTwo(w, AfterMove(fs, PathOf(t.at), PathTo(t.to)), s, q)
  {
    hide Tree, AfterMove, Sound, PathOf, PathTo, Zone, Decide, Made;
    DecidedIsSound(w, t);
    DecidedIsSound(w, s);
    SoundIsInZone(s);
    SoundIsInZone(t);
    var g := AfterMove(fs, PathOf(t.at), PathTo(t.to));
    if PathOf(s.at) in fs {
      OthersAreNotUnder(w, s.at, t.at, []);
      OthersAreNotUnder(w, s.at, t.at, q);
      assert PathOf(s.at) + [] == PathOf(s.at);
      MoveLeaves(fs, t, PathOf(s.at));
      MoveLeaves(fs, t, PathOf(s.at) + q);
    } else {
      NewIsNotOld(t.at, s.to, q);
      MoveLeaves(fs, t, PathTo(s.to) + q);
      NotBack(fs, t, PathOf(s.at));
    }
  }

  lemma NotBack(fs: Files, t: Step, p: Path)
    requires Tree(fs) && Sound(t) && Made(fs, t) && Zone(p) && p !in fs
    ensures p !in AfterMove(fs, PathOf(t.at), PathTo(t.to))
  {
    hide Tree, AfterMove, Sound, PathOf, PathTo, Zone, StatusOf;
    if p in AfterMove(fs, PathOf(t.at), PathTo(t.to)) {
      ZoneShrinks(fs, t, p);
    }
  }

  lemma {:induction false} TwoPlaces(w: World, steps: seq<Step>, s: Step, q: Path)
    requires Tree(w.fs) && Decided(w, steps) && Decide(w, s.at) == Some(s.to) && PathOf(s.at) + q in w.fs
    ensures OneOfTwo(w, Apply(w.fs, steps).fs, s, q)
  {
    hide Tree, Decide, Apply, Sound, Made, PathTo, PathOf, AfterMove, OneOfTwo, Decided;
    AllSound(w, steps);
    if steps == [] {
      ApplyNothing(w.fs);
      HereAtFirst(w, s, q);
    } else {
      var init, last := steps[..|steps| - 1], steps[|steps| - 1];
      var before := Apply(w.fs, init);
      Fewer(w, steps);
      TwoPlaces(w, init, s, q);
      ApplyKeeps(w.fs, init);
      LastStep(w.fs, steps);
      if !before.stopped && Made(before.fs, last) {
        if last.at == s.at {
          OwnMove(w, before.fs, s, q);
        } else {
          OtherMove(w, before.fs, s, last, q);
        }
      }
    }
  }

  lemma Fewer(w: World, steps: seq<Step>)
    requires Decided(w, steps) && steps != []
    ensures Decided(w, steps[..|steps| - 1])
    ensures var last := steps[|steps| - 1]; Decide(w, last.at) == Some(last.to)
  {
    hide Decide;
  }

  lemma HereAtFirst(w: World, s: Step, q: Path)
    requires Tree(w.fs) && Decide(w, s.at) == Some(s.to) && PathOf(s.at) + q in w.fs
    ensures OneOfTwo(w, w.fs, s, q)
  {
    hide Tree, HasSkill, IsAgent;
    DecidedExists(w, s.at);
  }

  /**
   Whatever exists already and whatever raises, a run leaves every object of a directory with a
   destination either where it was or at the same place below the destination: the former if and
   only if the directory itself is still there, and never when all destinations were free, nothing
   stood in their way and none clash.
   */
  lemma DirectoriesArrive(w: World, at: Place, dest: Path, q: Path)
    requires Tree(w.fs) && Lists(w.order) && (at.Tenant? ==> IsTenant(at.name))
    requires Destination(w, PathOf(at)) == Some(dest) && PathOf(at) + q in w.fs
    ensures
      var dir, end := PathOf(at), Apply(w.fs, Plan(w)).fs;
      && (dir in end ==> dir + q in end && end[dir + q] == w.fs[dir + q])
      && (dir !in end ==> dest + q in end && end[dest + q] == w.fs[dir + q])
      && (NoClashes(Plan(w)) && (forall s :: s in Plan(w) ==> Unobstructed(w.fs, s.to)) ==> dir !in end)
  {
    hide Tree, Lists, Plan, Decide, Apply, PathTo, PathOf, Destination, Clash, Unobstructed, Decided;
    DestinationsSpelledOut(w, at);
    var to := Decide(w, at).value;
    var s := Step(at, to);
    PlanDecided(w);
    TwoPlaces(w, Plan(w), s, q);
    if NoClashes(Plan(w)) && forall t :: t in Plan(w) ==> Unobstructed(w.fs, t.to) {
      IsFresh(w);
      EveryStepIsMade(w, Plan(w), |Plan(w)|);
      assert Plan(w)[..|Plan(w)|] == Plan(w);
      PlanIsDecided(w, s);
    }
  }

  lemma IsFresh(w: World)
    requires Tree(w.fs) && Lists(w.order) && NoClashes(Plan(w)) && forall s :: s in Plan(w) ==> Unobstructed(w.fs, s.to)
    ensures FreshPlan(w, Plan(w))
  {
    hide Tree, Lists, Plan, Decide, Unobstructed, Clash;
    PlanDecided(w);
  }

  /** Whatever lies in no directory with a destination stays as it is. */
  lemma TheRestStays(w: World, q: Path)
    requires Tree(w.fs) && Lists(w.order) && q in w.fs
    requires forall p :: p <= q ==> Destination(w, p) == None
    ensures var end := Apply(w.fs, Plan(w)).fs; q in end && end[q] == w.fs[q]
  {
    hide Tree, Lists, Plan, Decide, Apply, PathTo, PathOf, Destination;
    PlanDecided(w);
    forall s | s in Plan(w) ensures !(PathOf(s.at) <= q) {
      TenantsAreTenants(w, s.at);
      DestinationsSpelledOut(w, s.at);
    }
    UntouchedStays(w, Plan(w), q);
  }

  lemma TenantsAreTenants(w: World, at: Place)
    requires Decide(w, at).Some?
    ensures at.Tenant? ==> IsTenant(at.name)
  {
  }

  // ---- The order of the moves ----

  /** Agents come first and archives last. */
  function Rank(dest: Path): nat {
    if |dest| > 0 && dest[0] == "agents" then 0 else if |dest| > 1 && dest[1] == "_archive" then 2 else 1
  }

  lemma RankIsKind(to: Target)
    ensures Rank(PathTo(to)) == match KindOf(to) case Agents => 0 case Skills => 1 case Archives => 2
  {
    assert "agents"[0] == 'a' && "skills"[0] == 's' && "_archive"[1] == 'a' && "_bundled"[1] == 'b' && "_tenant"[1] == 't';
  }

  lemma PlanOrder(w: World, i: nat, j: nat)
    requires i < j < |Plan(w)|
    ensures Rank(PathTo(Plan(w)[i].to)) <= Rank(PathTo(Plan(w)[j].to))
  {
    hide Found, OfKind, PathTo, KindOf;
    var found := Found(w);
    var a, b, c := OfKind(Agents, found), OfKind(Skills, found), OfKind(Archives, found);
    assert Plan(w) == a + b + c;
    RankAt(w, i);
    RankAt(w, j);
  }

  lemma RankAt(w: World, i: nat)
    requires i < |Plan(w)|
    ensures
      var a, b := |OfKind(Agents, Found(w))|, |OfKind(Skills, Found(w))|;
      Rank(PathTo(Plan(w)[i].to)) == if i < a then 0 else if i < a + b then 1 else 2
  {
    hide Found, OfKind, PathTo, KindOf, Rank;
    var found := Found(w);
    var a, b, c := OfKind(Agents, found), OfKind(Skills, found), OfKind(Archives, found);
    var s := Plan(w)[i];
    RankIsKind(s.to);
    if i < |a| {
      assert s == a[i];
      InKind(Agents, found, s);
    } else if i < |a| + |b| {
      assert s == b[i - |a|];
      InKind(Skills, found, s);
    } else {
      assert s == c[i - |a| - |b|];
      InKind(Archives, found, s);
    }
  }
}
