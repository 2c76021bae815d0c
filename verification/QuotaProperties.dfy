/** What every quota enforcement run guarantees. */
module QuotaProperties {
  import opened Wrappers
  import opened FileTree
  import opened HomePruner
  import opened HomeQuota
  import opened QuotaWalk

  // ---- Conservation ----

  ghost predicate NoSizeFaultsIn(envs: nat -> Env) {
    forall k :: NoSizeFaults(envs(k)) && SeesAll(envs(k))
  }

  /** A scan that sees everything finds the size of the tree. */
  lemma ScansAreSizes(envs: nat -> Env, cutoff: int, root: Node, k: nat)
    requires SeesAll(envs(k))
    ensures Measured(envs, cutoff, root, k) == Reported(envs, cutoff, root, k) == Size(Tiers(envs, cutoff, root, k).root)
  {
    hide Tiers, Size, Seen;
    SeenIsSize(CLEAR, [], Tiers(envs, cutoff, root, k).root);
  }

  lemma TierShrinks(k: nat, env: Env, cutoff: int, root: Node)
    requires WellFormed(root) && LinkFree(root) && NoSizeFaults(env)
    ensures var t := Tier(k, env, cutoff, root); Shrinks([], root, t.root, t.pruned, t.freed)
  {
    hide Shrinks, PruneCache, PruneSitePackages, PruneOtherLib, PruneStaleLocal, WellFormed, LinkFree;
    CacheShrinks(env, root);
    SitePackagesShrinks(env, cutoff, root);
    OtherLibShrinks(env, cutoff, root);
    StaleLocalShrinks(env, cutoff, root);
  }

  lemma {:induction false} TiersShrink(envs: nat -> Env, cutoff: int, root: Node, k: nat)
    requires WellFormed(root) && LinkFree(root) && NoSizeFaultsIn(envs)
    ensures var t := Tiers(envs, cutoff, root, k); Shrinks([], root, t.root, t.pruned, t.freed)
  {
    hide Shrinks, Tier, WellFormed, LinkFree, NoSizeFaults;
    if k == 0 {
      ShrinksNothing([], root);
    } else {
      TiersShrink(envs, cutoff, root, k - 1);
      var t := Tiers(envs, cutoff, root, k - 1);
      ShrinksKeepsShape([], root, t.root, t.pruned, t.freed);
      var u := Tier(k, envs(k), cutoff, t.root);
      TierShrinks(k, envs(k), cutoff, t.root);
      ShrinksTwice([], root, t.root, u.root, t.pruned, u.pruned, t.freed, u.freed);
    }
  }

  lemma OpenedAddsNothing(now: int, root: Node, lock: Lock)
    requires root.Dir? && WellFormed(root) && LinkFree(root)
    ensures
      var start := Opened(now, root, lock);
      WellFormed(start) && LinkFree(start) && Size(start) == Size(root)
  {
    var e := Entry(LOCK_FILE, File(0, now));
    SizeAllAppend(root.entries, [e]);
    OpenedWellFormed(now, root, lock);
    LinkFreeEntries(root);
    LinkFreeEntries(Opened(now, root, lock));
  }

  /**
   With no symbolic links, no failing size lookups and scans that see everything, whatever else
   fails: the difference between the reported sizes is the total size of the reported files, and the
   report names every non-empty file that is gone exactly once and nothing else; every file that is
   left is unchanged.
   */
  lemma EnforceConserves(envs: nat -> Env, cutoff: int, budget: nat, root: Node, lock: Lock)
    requires root.Dir? && WellFormed(root) && LinkFree(root) && NoSizeFaultsIn(envs) && lock != Busy
    ensures
      var start := Opened(envs(0).now, root, lock);
      var e := Enforce(envs, cutoff, budget, root, lock);
      && e.report.before == Size(root) && e.report.after == Size(e.root)
      && e.report.before - e.report.after == Total(start, 0, e.report.pruned)
      && NoRepeats(e.report.pruned)
      && (forall q :: q in e.report.pruned <==> NonEmptyFile(At(start, q)) && At(e.root, q) == None)
      && (forall q :: At(e.root, q).Some? && !At(e.root, q).value.Dir? ==> At(e.root, q) == At(start, q))
      && (e.report.after > budget ==> TiersNeeded(envs, cutoff, budget, start, 0) == 4)
  {
    hide Tiers, WellFormed, LinkFree, Opened, Total, Measured, Reported;
    var start := Opened(envs(0).now, root, lock);
    OpenedAddsNothing(envs(0).now, root, lock);
    var k := TiersNeeded(envs, cutoff, budget, start, 0);
    TiersShrink(envs, cutoff, start, k);
    NeededFits(envs, cutoff, budget, start, 0);
    ScansAreSizes(envs, cutoff, start, 0);
    ScansAreSizes(envs, cutoff, start, k);
    NoTiers(envs, cutoff, start);
    var e := Enforce(envs, cutoff, budget, root, lock);
    forall q
      ensures q in e.report.pruned <==> NonEmptyFile(At(start, q)) && At(e.root, q) == None
      ensures At(e.root, q).Some? && !At(e.root, q).value.Dir? ==> At(e.root, q) == At(start, q)
    {
      assert [] + q == q;
      ShrinksAt([], start, e.root, e.report.pruned, e.report.before - e.report.after, q);
    }
  }

  lemma {:induction false} NeededFits(envs: nat -> Env, cutoff: int, budget: nat, root: Node, k: nat)
    requires k <= 4
    ensures
      var n := TiersNeeded(envs, cutoff, budget, root, k);
      k <= n <= 4 && (n < 4 ==> Measured(envs, cutoff, root, n) <= budget)
      && forall j :: k <= j < n ==> Measured(envs, cutoff, root, j) > budget
    decreases 4 - k
  {
    hide Measured;
    if k < 4 && Measured(envs, cutoff, root, k) > budget {
      NeededFits(envs, cutoff, budget, root, k + 1);
    }
  }

  // ---- The tree never grows, whatever fails ----

  lemma {:induction false} PruneNeverGrows(env: Env, cutoff: int, path: Path, dir: Node)
    requires dir.Dir?
    ensures Size(Prune(env, cutoff, path, dir).root) <= Size(dir)
    decreases dir, 1
  {
    BelowNeverGrows(env, cutoff, path, dir.entries);
  }

  lemma {:induction false} BelowNeverGrows(env: Env, cutoff: int, path: Path, es: seq<Entry>)
    ensures SizeAll(PruneBelow(env, cutoff, path, es).left) <= SizeAll(es)
    decreases es, 0
  {
    hide RmTree, Prune;
    if es != [] {
      var e := es[0];
      var p := path + [e.name];
      var rest := PruneBelow(env, cutoff, path, es[1..]).left;
      BelowNeverGrows(env, cutoff, path, es[1..]);
      SizeShrinks(env, p, e.node);
      if Descends(env, path, cutoff, e) {
        PruneNeverGrows(env, cutoff, p, e.node);
      }
      var after := EntryAfter(env, cutoff, path, e);
      if after.Some? {
        SizeAllAppend([Entry(e.name, after.value)], rest);
      }
    }
  }

  lemma WithinNeverGrows(root: Node, path: Path, t: Tiering)
    requires At(root, path).Some? && Size(t.root) <= Size(At(root, path).value)
    ensures Size(Within(root, path, t).root) <= Size(root)
  {
    SizePut(root, path, t.root);
  }

  lemma SweepDirNeverGrows(env: Env, path: Path, dir: Node, pick: Entry -> bool)
    requires dir.Dir?
    ensures Size(SweepDir(env, path, dir, pick).root) <= Size(dir)
  {
    SweepSizeShrinks(env, path, dir.entries, pick);
  }

  lemma {:induction false} PythonsNeverGrow(env: Env, cutoff: int, root: Node, names: seq<string>)
    ensures Size(PrunePythons(env, cutoff, root, names).root) <= Size(root)
    decreases |names|
  {
    hide Size, PrunePackages;
    if names != [] {
      var path := LIB + [names[0]];
      if HasDir(root, path) && PYTHON <= names[0] {
        var py := At(root, path).value;
        PackagesNeverGrow(env, cutoff, names[0], py);
        WithinNeverGrows(root, path, PrunePackages(env, cutoff, names[0], py));
        PythonsNeverGrow(env, cutoff, Within(root, path, PrunePackages(env, cutoff, names[0], py)).root, names[1..]);
      } else {
        PythonsNeverGrow(env, cutoff, root, names[1..]);
      }
    }
  }

  lemma PackagesNeverGrow(env: Env, cutoff: int, name: string, py: Node)
    ensures Size(PrunePackages(env, cutoff, name, py).root) <= Size(py)
  {
    hide Size, SweepDir;
    if HasDir(py, [SITE_PACKAGES]) {
      var path := LIB + [name] + [SITE_PACKAGES];
      var dir := At(py, [SITE_PACKAGES]).value;
      SweepDirNeverGrows(env, path, dir, StalePick(env, path, cutoff));
      WithinNeverGrows(py, [SITE_PACKAGES], SweepDir(env, path, dir, StalePick(env, path, cutoff)));
    }
  }

  lemma TierNeverGrows(k: nat, env: Env, cutoff: int, root: Node)
    ensures Size(Tier(k, env, cutoff, root).root) <= Size(root)
  {
    hide Size, SweepDir, Prune, PrunePythons;
    var rel := if k == 1 then CACHE else if k == 3 then LIB else LOCAL;
    if k == 2 {
      if HasDir(root, LIB) {
        PythonsNeverGrow(env, cutoff, root, Names(At(root, LIB).value.entries));
      }
    } else if HasDir(root, rel) {
      var dir := At(root, rel).value;
      if k == 1 {
        SweepDirNeverGrows(env, CACHE, dir, Everything);
        WithinNeverGrows(root, CACHE, SweepDir(env, CACHE, dir, Everything));
      } else if k == 3 {
        SweepDirNeverGrows(env, LIB, dir, LibPick(env, cutoff));
        WithinNeverGrows(root, LIB, SweepDir(env, LIB, dir, LibPick(env, cutoff)));
      } else {
        PruneNeverGrows(env, cutoff, LOCAL, dir);
        WithinNeverGrows(root, LOCAL, Prune(env, cutoff, LOCAL, dir));
      }
    }
  }

  lemma {:induction false} TiersNeverGrow(envs: nat -> Env, cutoff: int, root: Node, k: nat)
    ensures Size(Tiers(envs, cutoff, root, k).root) <= Size(root)
  {
    hide Tier, Size;
    if k > 0 {
      TiersNeverGrow(envs, cutoff, root, k - 1);
      TierNeverGrows(k, envs(k), cutoff, Tiers(envs, cutoff, root, k - 1).root);
    }
  }

  /**
   Under every pattern of faults, with or without symbolic links, the size reported after a run is
   at most the size of the tree before it, and so at most the size reported before it if the first
   scan saw everything.
   */
  lemma AfterIsNotMore(envs: nat -> Env, cutoff: int, budget: nat, root: Node, lock: Lock)
    requires root.Dir? && lock != Busy
    ensures
      var e := Enforce(envs, cutoff, budget, root, lock);
      && e.report.after <= Size(Opened(envs(0).now, root, lock))
      && (Seen(envs(0).sight, [], Opened(envs(0).now, root, lock)) == Size(Opened(envs(0).now, root, lock)) ==>
            e.report.after <= e.report.before)
  {
    hide Tiers, Size, Opened, Seen;
    var start := Opened(envs(0).now, root, lock);
    var k := TiersNeeded(envs, cutoff, budget, start, 0);
    TiersNeverGrow(envs, cutoff, start, k);
    NoTiers(envs, cutoff, start);
    SeenIsSize(if 0 < k < 4 then envs(k).again else envs(k).sight, [], Tiers(envs, cutoff, start, k).root);
  }

  /** A tier that can list nothing does nothing. */
  lemma FaultyTier(k: nat, env: Env, cutoff: int, root: Node)
    requires forall op, p :: env.fails(op, p)
    ensures Tier(k, env, cutoff, root) == Tiering(root, [], 0)
  {
    hide Sweep, Put, At;
    var rel := if k == 1 then CACHE else if k == 3 then LIB else LOCAL;
    if HasDir(root, rel) {
      PutSelf(root, rel);
    }
  }

  lemma {:induction false} FaultyTiers(envs: nat -> Env, cutoff: int, root: Node, k: nat)
    requires forall i, op, p :: envs(i).fails(op, p)
    ensures Tiers(envs, cutoff, root, k) == Tiering(root, [], 0)
  {
    hide Tier;
    if k > 0 {
      FaultyTiers(envs, cutoff, root, k - 1);
      FaultyTier(k, envs(k), cutoff, root);
    }
  }

  /** What is reported is never more than what was reported before, whatever happens later. */
  ghost predicate NeverReportsMore(now: int, first: Sight, cutoff: int, root: Node, lock: Lock) {
    forall envs: nat -> Env, budget: nat :: envs(0).now == now && envs(0).sight == first ==>
      Enforce(envs, cutoff, budget, root, lock).report.after <= Enforce(envs, cutoff, budget, root, lock).report.before
  }

  /**
   A first scan that misses something can make the report grow: it is sure not to exactly when the
   scan found the whole size or nothing at all.
   */
  lemma AfterIsNotMoreExactly(now: int, first: Sight, cutoff: int, root: Node, lock: Lock)
    requires root.Dir? && lock != Busy
    ensures
      var start := Opened(now, root, lock);
      var seen := Seen(first, [], start);
      NeverReportsMore(now, first, cutoff, root, lock) <==> seen == Size(start) || seen == 0
  {
    hide Tiers, Size, Opened, Seen, Enforce;
    var start := Opened(now, root, lock);
    var seen := Seen(first, [], start);
    SeenIsSize(first, [], start);
    if seen == Size(start) || seen == 0 {
      forall envs: nat -> Env, budget: nat | envs(0).now == now && envs(0).sight == first
        ensures var r := Enforce(envs, cutoff, budget, root, lock).report; r.after <= r.before
      {
        if seen == 0 {
          NothingSeen(envs, cutoff, budget, root, lock);
        } else {
          AfterIsNotMore(envs, cutoff, budget, root, lock);
        }
      }
    } else {
      var envs := (k: nat) => Env(now, (op, p) => true, if k == 0 then first else CLEAR, CLEAR);
      BlindStart(envs, cutoff, seen - 1, root, lock);
      assert envs(0).now == now && envs(0).sight == first;
    }
  }

  const TWO_FILES := Dir(0, [Entry("a", File(1, 0)), Entry("b", File(1, 0))])

  /** A home with two files of one byte, of which the first scan cannot examine the second: the report can grow. */
  lemma HiddenFileGrowsTheReport(now: int, cutoff: int)
    ensures !NeverReportsMore(now, Sight(_ => None, p => p == ["b"]), cutoff, TWO_FILES, Broken)
  {
    hide NeverReportsMore;
    var first := Sight(_ => None, p => p == ["b"]);
    var es := TWO_FILES.entries;
    assert SizeAll(es[1..][1..]) == 0 && es[1..][0] == es[1];
    assert ([] + ["a"])[0][0] == 'a' && [] + ["b"] == ["b"] && "b"[0] == 'b';
    assert SeenAll(first, [], es, 1) == 1;
    AfterIsNotMoreExactly(now, first, cutoff, TWO_FILES, Broken);
  }

  lemma NothingSeen(envs: nat -> Env, cutoff: int, budget: nat, root: Node, lock: Lock)
    requires root.Dir? && lock != Busy && Seen(envs(0).sight, [], Opened(envs(0).now, root, lock)) == 0
    ensures var r := Enforce(envs, cutoff, budget, root, lock).report; r.after == r.before
  {
    hide Tiers, Opened, Seen;
    var start := Opened(envs(0).now, root, lock);
    NoTiers(envs, cutoff, start);
    assert TiersNeeded(envs, cutoff, budget, start, 0) == 0;
  }

  /** A home the first scan sees only part of, and of which nothing can be deleted. */
  lemma BlindStart(envs: nat -> Env, cutoff: int, budget: nat, root: Node, lock: Lock)
    requires root.Dir? && lock != Busy && (forall i, op, p :: envs(i).fails(op, p))
    requires forall i :: i > 0 ==> SeesAll(envs(i))
    requires budget < Seen(envs(0).sight, [], Opened(envs(0).now, root, lock)) < Size(Opened(envs(0).now, root, lock))
    ensures var r := Enforce(envs, cutoff, budget, root, lock).report; r.after > r.before
  {
    hide Tiers, Opened, Seen, Size;
    var start := Opened(envs(0).now, root, lock);
    NoTiers(envs, cutoff, start);
    FaultyTiers(envs, cutoff, start, 1);
    FaultyTiers(envs, cutoff, start, 2);
    FaultyTiers(envs, cutoff, start, 3);
    FaultyTiers(envs, cutoff, start, 4);
    SeenIsSize(CLEAR, [], start);
    FewTiers(envs, cutoff, budget, start);
  }

  // ---- What is never touched ----

  lemma SweepKeeps(env: Env, path: Path, dir: Node, pick: Entry -> bool, q: Path)
    requires dir.Dir? && WellFormed(dir) && q != [] && At(dir, q).Some? && NeverTouch(path + q)
    ensures At(SweepDir(env, path, dir, pick).root, q) == At(dir, q)
  {
    hide NeverTouch, Sweep, RmTree;
    if !env.fails(Scan, path) {
      var e := dir.entries[Find(dir.entries, q[0]).value];
      SweepFind(env, path, dir.entries, pick, q[0]);
      assert path + q == (path + [q[0]]) + q[1..];
      NeverTouchSurvives(env, path + [q[0]], e.node, q[1..]);
    }
  }

  /** Acting inside the directory at `rel` keeps what its own action keeps. */
  lemma WithinKeeps(root: Node, rel: Path, m: Node, q: Path)
    requires At(root, rel).Some? && At(root, q).Some? && !(q <= rel)
    requires rel < q ==> At(m, q[|rel|..]) == At(At(root, rel).value, q[|rel|..])
    ensures At(Put(root, rel, m), q) == At(root, q)
  {
    if rel < q {
      assert q == rel + q[|rel|..];
      AtPut(root, rel, m, q[|rel|..]);
      AtAppend(root, rel, q[|rel|..]);
    } else {
      AtPutApart(root, rel, m, q);
    }
  }

  /** None of the fixed directories the tiers act on is itself never-touch. */
  lemma AnchorsAreOrdinary(q: Path)
    requires q <= CACHE || q <= LIB || q <= LOCAL
    ensures !NeverTouch(q)
  {
    assert !EndsWith(".cache", LOCK_SUFFIX) && !EndsWith(".local", LOCK_SUFFIX) && !EndsWith("lib", LOCK_SUFFIX) by {
      assert ".cache"[1] == 'c' && ".local"[5] == 'l' && "lib"[0] == 'l';
      assert LOCK_SUFFIX[0] == '.' && LOCK_SUFFIX[4] == 'k';
      assert ".cache"[1..][0] == 'c' && ".local"[1..][4] == 'l';
    }
  }

  lemma {:induction false} PruneKeeps(env: Env, cutoff: int, path: Path, dir: Node, q: Path)
    requires dir.Dir? && WellFormed(dir) && q != [] && At(dir, q).Some? && NeverTouch(path + q)
    ensures At(Prune(env, cutoff, path, dir).root, q) == At(dir, q)
    decreases |q|
  {
    if !env.fails(Scan, path) {
      var es := dir.entries;
      var e := es[Find(es, q[0]).value];
      BelowFind(env, cutoff, path, es, q[0]);
      assert path + q == (path + [q[0]]) + q[1..];
      assert q[1..] == [] ==> q == [q[0]];
      if Descends(env, path, cutoff, e) {
        PruneKeeps(env, cutoff, path + [q[0]], e.node, q[1..]);
      } else {
        NeverTouchSurvives(env, path + [q[0]], e.node, q[1..]);
      }
    }
  }

  /** A python directory that is never-touch by name: the one place a tier enters without asking. */
  predicate LockedPython(q: Path) {
    |q| == 3 && LIB < q && PYTHON <= q[2]
  }

  lemma PackagesKeep(env: Env, cutoff: int, name: string, py: Node, q: Path)
    requires WellFormed(py) && q != [] && At(py, q).Some? && NeverTouch(LIB + [name] + q)
    requires q != [SITE_PACKAGES]
    ensures At(PrunePackages(env, cutoff, name, py).root, q) == At(py, q)
  {
    hide NeverTouch, WellFormed, SweepDir;
    if HasDir(py, [SITE_PACKAGES]) {
      var path := LIB + [name] + [SITE_PACKAGES];
      var dir := At(py, [SITE_PACKAGES]).value;
      var t := SweepDir(env, path, dir, StalePick(env, path, cutoff));
      WellFormedAt(py, [SITE_PACKAGES]);
      if [SITE_PACKAGES] < q {
        var r := q[1..];
        assert q == [SITE_PACKAGES] + r && LIB + [name] + q == path + r;
        AtAppend(py, [SITE_PACKAGES], r);
        SweepKeeps(env, path, dir, StalePick(env, path, cutoff), r);
      }
      WithinKeeps(py, [SITE_PACKAGES], t.root, q);
    }
  }

  lemma {:induction false} PythonsKeep(env: Env, cutoff: int, root: Node, names: seq<string>, q: Path)
    requires WellFormed(root) && At(root, q).Some? && NeverTouch(q) && !LockedPython(q)
    ensures At(PrunePythons(env, cutoff, root, names).root, q) == At(root, q)
    decreases |names|
  {
    hide PrunePackages, WellFormed, NeverTouch, At, Put;
    if names != [] {
      var path := LIB + [names[0]];
      if HasDir(root, path) && PYTHON <= names[0] {
        OnePythonKeeps(env, cutoff, root, names[0], q);
        OnePythonWellFormed(env, cutoff, root, names[0]);
        var t := Within(root, path, PrunePackages(env, cutoff, names[0], At(root, path).value));
        PythonsKeep(env, cutoff, t.root, names[1..], q);
      } else {
        PythonsKeep(env, cutoff, root, names[1..], q);
      }
    }
  }

  lemma OnePythonWellFormed(env: Env, cutoff: int, root: Node, name: string)
    requires WellFormed(root) && HasDir(root, LIB + [name])
    ensures
      var path := LIB + [name];
      WellFormed(Within(root, path, PrunePackages(env, cutoff, name, At(root, path).value)).root)
  {
    hide WellFormed, SweepDir;
    var path := LIB + [name];
    var py := At(root, path).value;
    WellFormedAt(root, path);
    if HasDir(py, [SITE_PACKAGES]) {
      var inner := path + [SITE_PACKAGES];
      WithinWellFormed(env, py, [SITE_PACKAGES], inner, StalePick(env, inner, cutoff));
    }
    WellFormedPut(root, path, PrunePackages(env, cutoff, name, py).root);
  }

  lemma OnePythonKeeps(env: Env, cutoff: int, root: Node, name: string, q: Path)
    requires WellFormed(root) && HasDir(root, LIB + [name]) && PYTHON <= name
    requires At(root, q).Some? && NeverTouch(q) && !LockedPython(q)
    ensures
      var path := LIB + [name];
      At(Within(root, path, PrunePackages(env, cutoff, name, At(root, path).value)).root, q) == At(root, q)
  {
    hide PrunePackages, WellFormed;
    var path := LIB + [name];
    var py := At(root, path).value;
    WellFormedAt(root, path);
    if q <= path {
      if q != path {
        assert q <= LIB;
        AnchorsAreOrdinary(q);
      }
    } else {
      if path < q {
        var r := q[|path|..];
        assert q == path + r;
        AtAppend(root, path, r);
        SitePackagesIsOrdinary(name);
        PackagesKeep(env, cutoff, name, py, r);
      }
      WithinKeeps(root, path, PrunePackages(env, cutoff, name, py).root, q);
    }
  }

  lemma SitePackagesIsOrdinary(name: string)
    requires PYTHON <= name
    ensures !NeverTouch(LIB + [name] + [SITE_PACKAGES])
  {
    var p := LIB + [name] + [SITE_PACKAGES];
    assert p == [".local", "lib", name, SITE_PACKAGES];
    assert SITE_PACKAGES[|SITE_PACKAGES| - 5..][4] == 's' && LOCK_SUFFIX[4] == 'k';
    assert name[0] == 'p' && name[1] == 'y';
    assert "projects"[1] == 'r';
    assert |SITE_PACKAGES| == 13;
  }

  /** One anchored tier: its own action on the anchor decides. */
  lemma AnchorKeeps(root: Node, rel: Path, m: Node, q: Path)
    requires HasDir(root, rel) && At(root, q).Some? && NeverTouch(q) && (rel == CACHE || rel == LIB || rel == LOCAL)
    requires rel < q ==> At(m, q[|rel|..]) == At(At(root, rel).value, q[|rel|..])
    ensures At(Put(root, rel, m), q) == At(root, q)
  {
    hide NeverTouch;
    if q <= rel {
      AnchorsAreOrdinary(q);
    } else {
      WithinKeeps(root, rel, m, q);
    }
  }

  /** Whatever fails, a tier keeps every never-touch node as it is, tier 2 with its one exception. */
  lemma TierKeeps(k: nat, env: Env, cutoff: int, root: Node, q: Path)
    requires WellFormed(root) && At(root, q).Some? && NeverTouch(q) && (k == 2 ==> !LockedPython(q))
    ensures At(Tier(k, env, cutoff, root).root, q) == At(root, q)
  {
    hide WellFormed, NeverTouch, SweepDir, Prune, PrunePythons;
    var rel := if k == 1 then CACHE else if k == 3 then LIB else LOCAL;
    if k == 2 {
      if HasDir(root, LIB) {
        PythonsKeep(env, cutoff, root, Names(At(root, LIB).value.entries), q);
      }
    } else if HasDir(root, rel) {
      var dir := At(root, rel).value;
      WellFormedAt(root, rel);
      if rel < q {
        var r := q[|rel|..];
        assert q == rel + r && r != [];
        AtAppend(root, rel, r);
        if k == 1 {
          SweepKeeps(env, CACHE, dir, Everything, r);
        } else if k == 3 {
          SweepKeeps(env, LIB, dir, LibPick(env, cutoff), r);
        } else {
          PruneKeeps(env, cutoff, LOCAL, dir, r);
        }
      }
      if k == 1 {
        AnchorKeeps(root, CACHE, SweepDir(env, CACHE, dir, Everything).root, q);
      } else if k == 3 {
        AnchorKeeps(root, LIB, SweepDir(env, LIB, dir, LibPick(env, cutoff)).root, q);
      } else {
        AnchorKeeps(root, LOCAL, Prune(env, cutoff, LOCAL, dir).root, q);
      }
    }
  }

  lemma {:induction false} TiersKeep(envs: nat -> Env, cutoff: int, root: Node, k: nat, q: Path)
    requires WellFormed(root) && At(root, q).Some? && NeverTouch(q) && !LockedPython(q)
    ensures var t := Tiers(envs, cutoff, root, k); WellFormed(t.root) && At(t.root, q) == At(root, q)
  {
    hide Tier, WellFormed, NeverTouch, At;
    if k > 0 {
      TiersKeep(envs, cutoff, root, k - 1, q);
      var t := Tiers(envs, cutoff, root, k - 1);
      TierKeeps(k, envs(k), cutoff, t.root, q);
      TierWellFormed(k, envs(k), cutoff, t.root);
    }
  }

  lemma OpenedKeeps(now: int, root: Node, lock: Lock, q: Path)
    requires root.Dir? && WellFormed(root) && At(root, q).Some? && q != []
    ensures At(Opened(now, root, lock), q) == At(root, q)
  {
    var start := Opened(now, root, lock);
    var i := Find(root.entries, q[0]).value;
    if start != root {
      assert start.entries[i] == root.entries[i];
      OpenedWellFormed(now, root, lock);
      FindUnique(start.entries, i);
    }
  }

  /**
   Under every pattern of faults, with or without symbolic links, an enforcement run keeps every
   never-touch node exactly as it was, with everything under it. The one exception is a directory
   `.local/lib/python*.lock`, which tier 2 enters without asking (see `LockedPythonKeptExactly`).
   */
  lemma NeverTouchIsKept(envs: nat -> Env, cutoff: int, budget: nat, root: Node, lock: Lock, q: Path)
    requires root.Dir? && WellFormed(root) && At(root, q).Some? && NeverTouch(q) && !LockedPython(q)
    ensures At(Enforce(envs, cutoff, budget, root, lock).root, q) == At(root, q)
  {
    hide WellFormed, Opened, Tiers, At;
    assert q != [];
    OpenedKeeps(envs(0).now, root, lock, q);
    OpenedWellFormed(envs(0).now, root, lock);
    var start := Opened(envs(0).now, root, lock);
    TiersKeep(envs, cutoff, start, TiersNeeded(envs, cutoff, budget, start, 0), q);
  }

  /** Every stale package that can be examined is held: nothing of it can be deleted. */
  predicate PackagesHeld(env: Env, cutoff: int, name: string, py: Node) {
    var path := LIB + [name] + [SITE_PACKAGES];
    HasDir(py, [SITE_PACKAGES]) && !env.fails(Scan, path) ==>
      forall e :: e in At(py, [SITE_PACKAGES]).value.entries && Stale(env, path, cutoff, e) ==>
        Held(env, path + [e.name], e.node)
  }

  /** Every stale package consists of never-touch paths and what leads to them. */
  predicate StaleAreSkeletons(cutoff: int, name: string, py: Node) {
    HasDir(py, [SITE_PACKAGES]) ==>
      forall e :: e in At(py, [SITE_PACKAGES]).value.entries && e.node.mtime <= cutoff ==>
        Skeleton(LIB + [name] + [SITE_PACKAGES] + [e.name], e.node)
  }

  /**
   Whatever fails, tier 2 leaves a python directory alone exactly when each stale package in it is
   held, which without faults means that it consists of never-touch paths; the directory's own name,
   `.lock` or not, plays no part.
   */
  lemma LockedPythonKeptExactly(env: Env, cutoff: int, name: string, py: Node)
    ensures PrunePackages(env, cutoff, name, py).root == py <==> PackagesHeld(env, cutoff, name, py)
    ensures NoFaults(env) ==> (PackagesHeld(env, cutoff, name, py) <==> StaleAreSkeletons(cutoff, name, py))
  {
    hide NeverTouch, Skeleton, Held, NoFaults, StaleAreSkeletons;
    if HasDir(py, [SITE_PACKAGES]) {
      var path := LIB + [name] + [SITE_PACKAGES];
      var dir := At(py, [SITE_PACKAGES]).value;
      var pick := StalePick(env, path, cutoff);
      PutSelf(py, [SITE_PACKAGES]);
      AtPut(py, [SITE_PACKAGES], SweepDir(env, path, dir, pick).root, []);
      assert [SITE_PACKAGES] + [] == [SITE_PACKAGES];
      HeldSweep(env, path, dir.entries, pick);
    }
    if NoFaults(env) {
      HeldPackagesAreSkeletons(env, cutoff, name, py);
    }
  }

  lemma HeldPackagesAreSkeletons(env: Env, cutoff: int, name: string, py: Node)
    requires NoFaults(env)
    ensures PackagesHeld(env, cutoff, name, py) <==> StaleAreSkeletons(cutoff, name, py)
  {
    hide NeverTouch, Skeleton, Held, At;
    var path := LIB + [name] + [SITE_PACKAGES];
    forall e: Entry ensures Held(env, path + [e.name], e.node) == Skeleton(path + [e.name], e.node) {
      HeldWithoutFaults(env, path + [e.name], e.node);
    }
  }

  // ---- A locked python directory in a whole run ----

  predicate DistinctStrings(names: seq<string>) {
    forall i, j :: 0 <= i < j < |names| ==> names[i] != names[j]
  }

  lemma SiblingsAreApart(name: string, other: string)
    requires name != other
    ensures Apart(LIB + [other], LIB + [name])
  {
    assert (LIB + [name])[2] == name && (LIB + [other])[2] == other;
  }

  lemma {:induction false} OtherPythonsKeep(env: Env, cutoff: int, root: Node, names: seq<string>, name: string)
    requires name !in names
    ensures At(PrunePythons(env, cutoff, root, names).root, LIB + [name]) == At(root, LIB + [name])
    decreases |names|
  {
    hide PrunePackages, At, Put;
    if names != [] {
      var path := LIB + [names[0]];
      if HasDir(root, path) && PYTHON <= names[0] {
        var m := PrunePackages(env, cutoff, names[0], At(root, path).value).root;
        SiblingsAreApart(name, names[0]);
        AtPutApart(root, path, m, LIB + [name]);
        OtherPythonsKeep(env, cutoff, Put(root, path, m), names[1..], name);
      } else {
        OtherPythonsKeep(env, cutoff, root, names[1..], name);
      }
    }
  }

  /** The loop over the python directories prunes each of them once. */
  lemma {:induction false} PythonsPruneOnce(env: Env, cutoff: int, root: Node, names: seq<string>, name: string)
    requires DistinctStrings(names) && name in names && PYTHON <= name && HasDir(root, LIB + [name])
    ensures
      var py := At(root, LIB + [name]).value;
      At(PrunePythons(env, cutoff, root, names).root, LIB + [name]) == Some(PrunePackages(env, cutoff, name, py).root)
    decreases |names|
  {
    hide PrunePackages, At, Put;
    var path := LIB + [names[0]];
    assert names == [names[0]] + names[1..];
    if HasDir(root, path) && PYTHON <= names[0] {
      var m := PrunePackages(env, cutoff, names[0], At(root, path).value).root;
      if names[0] == name {
        AtPut(root, path, m, []);
        assert path + [] == path;
        AtSelf(m);
        assert name !in names[1..];
        OtherPythonsKeep(env, cutoff, Put(root, path, m), names[1..], name);
      } else {
        SiblingsAreApart(name, names[0]);
        AtPutApart(root, path, m, LIB + [name]);
        PythonsPruneOnce(env, cutoff, Put(root, path, m), names[1..], name);
      }
    } else {
      PythonsPruneOnce(env, cutoff, root, names[1..], name);
    }
  }

  lemma SitePackagesOnPython(env: Env, cutoff: int, root: Node, name: string)
    requires WellFormed(root) && PYTHON <= name && HasDir(root, LIB + [name])
    ensures
      var py := At(root, LIB + [name]).value;
      At(PruneSitePackages(env, cutoff, root).root, LIB + [name])
        == Some(if env.fails(Scan, LIB) then py else PrunePackages(env, cutoff, name, py).root)
  {
    hide WellFormed, PrunePythons, PrunePackages;
    AtAppend(root, LIB, [name]);
    var es := At(root, LIB).value.entries;
    WellFormedAt(root, LIB);
    WellFormedEntries(At(root, LIB).value);
    assert Names(es)[Find(es, name).value] == name;
    if !env.fails(Scan, LIB) {
      PythonsPruneOnce(env, cutoff, root, Names(es), name);
    }
  }

  /** What a run makes of a never-touch python directory `py` under `.local/lib`. */
  function LockedAfter(envs: nat -> Env, cutoff: int, name: string, py: Node, tiers: nat): Node {
    if tiers < 2 || envs(2).fails(Scan, LIB) then py else PrunePackages(envs(2), cutoff, name, py).root
  }

  lemma {:induction false} TiersOnLockedPython(envs: nat -> Env, cutoff: int, root: Node, name: string, k: nat)
    requires WellFormed(root) && PYTHON <= name && HasDir(root, LIB + [name]) && NeverTouch(LIB + [name]) && k <= 4
    ensures
      var t := Tiers(envs, cutoff, root, k);
      && WellFormed(t.root)
      && At(t.root, LIB + [name]) == Some(LockedAfter(envs, cutoff, name, At(root, LIB + [name]).value, k))
  {
    hide WellFormed, NeverTouch, At, PruneCache, PruneSitePackages, PruneOtherLib, PruneStaleLocal, PrunePackages;
    if k > 0 {
      TiersOnLockedPython(envs, cutoff, root, name, k - 1);
      var r := Tiers(envs, cutoff, root, k - 1).root;
      TierWellFormed(k, envs(k), cutoff, r);
      if k == 2 {
        SitePackagesOnPython(envs(2), cutoff, r, name);
      } else {
        TierKeeps(k, envs(k), cutoff, r, LIB + [name]);
      }
    }
  }

  /** How many tiers a run works through. */
  function TiersRun(envs: nat -> Env, cutoff: int, budget: nat, root: Node, lock: Lock): nat
    requires root.Dir?
  {
    if lock == Busy then 0 else TiersNeeded(envs, cutoff, budget, Opened(envs(0).now, root, lock), 0)
  }

  lemma EnforceOnLockedPython(envs: nat -> Env, cutoff: int, budget: nat, root: Node, lock: Lock, name: string)
    requires root.Dir? && WellFormed(root) && PYTHON <= name
    requires HasDir(root, LIB + [name]) && NeverTouch(LIB + [name])
    ensures
      var py := At(root, LIB + [name]).value;
      var tiers := TiersRun(envs, cutoff, budget, root, lock);
      At(Enforce(envs, cutoff, budget, root, lock).root, LIB + [name]) == Some(LockedAfter(envs, cutoff, name, py, tiers))
  {
    hide WellFormed, NeverTouch, At, Opened, Tiers, LockedAfter;
    var start := Opened(envs(0).now, root, lock);
    var tiers := TiersRun(envs, cutoff, budget, root, lock);
    OpenedKeeps(envs(0).now, root, lock, LIB + [name]);
    OpenedWellFormed(envs(0).now, root, lock);
    NeededFits(envs, cutoff, budget, start, 0);
    TiersOnLockedPython(envs, cutoff, start, name, tiers);
    NoTiers(envs, cutoff, start);
  }

  lemma NoTiers(envs: nat -> Env, cutoff: int, root: Node)
    ensures Tiers(envs, cutoff, root, 0) == Tiering(root, [], 0)
  {
  }

  /**
   Whatever fails, a run changes nothing in a never-touch python directory outside the
   `site-packages` directly in it.
   */
  lemma LockedPythonKeptOutside(envs: nat -> Env, cutoff: int, budget: nat, root: Node, lock: Lock, name: string, r: Path)
    requires root.Dir? && WellFormed(root) && PYTHON <= name
    requires HasDir(root, LIB + [name]) && NeverTouch(LIB + [name])
    requires r != [] && r[0] != SITE_PACKAGES
    ensures At(Enforce(envs, cutoff, budget, root, lock).root, LIB + [name] + r) == At(root, LIB + [name] + r)
  {
    hide WellFormed, NeverTouch, Enforce, SweepDir;
    var path := LIB + [name];
    EnforceOnLockedPython(envs, cutoff, budget, root, lock, name);
    AtAppend(root, path, r);
    AtAppend(Enforce(envs, cutoff, budget, root, lock).root, path, r);
    var py := At(root, path).value;
    if HasDir(py, [SITE_PACKAGES]) {
      var inner := path + [SITE_PACKAGES];
      var dir := At(py, [SITE_PACKAGES]).value;
      AtPutApart(py, [SITE_PACKAGES], SweepDir(envs(2), inner, dir, StalePick(envs(2), inner, cutoff)).root, r);
    }
  }

  /**
   Whatever fails, a run keeps such a directory exactly when fewer than two tiers were needed, or
   the second one could not list `.local/lib`, or each stale package was held. Without faults in the
   second tier the last means a skeleton.
   */
  lemma LockedPythonKeptByRun(envs: nat -> Env, cutoff: int, budget: nat, root: Node, lock: Lock, name: string)
    requires root.Dir? && WellFormed(root) && PYTHON <= name
    requires HasDir(root, LIB + [name]) && NeverTouch(LIB + [name])
    ensures
      var py := At(root, LIB + [name]).value;
      var tiers := TiersRun(envs, cutoff, budget, root, lock);
      && (At(Enforce(envs, cutoff, budget, root, lock).root, LIB + [name]) == Some(py) <==>
            tiers < 2 || envs(2).fails(Scan, LIB) || PackagesHeld(envs(2), cutoff, name, py))
      && (NoFaults(envs(2)) ==> (PackagesHeld(envs(2), cutoff, name, py) <==> StaleAreSkeletons(cutoff, name, py)))
  {
    hide WellFormed, NeverTouch, Enforce, TiersRun, PackagesHeld, StaleAreSkeletons;
    EnforceOnLockedPython(envs, cutoff, budget, root, lock, name);
    LockedPythonKeptExactly(envs(2), cutoff, name, At(root, LIB + [name]).value);
  }

  lemma LockedPythonNames()
    ensures NeverTouch(LIB + ["python.lock"]) && !NeverTouch(LIB + ["python.lock"] + [SITE_PACKAGES] + ["pkg"])
  {
    var name := "python.lock";
    assert name[|name| - 5..] == LOCK_SUFFIX;
    assert (LIB + [name])[2] == name && |LIB + [name]| == 3;
    assert LIB + [name] + [SITE_PACKAGES] + ["pkg"] == [".local", "lib", name, SITE_PACKAGES, "pkg"];
    assert "pkg"[0] == 'p' && "pkg"[1] == 'k' && name[1] == 'y' && |"pkg"| == 3;
  }

  const OLD_PACKAGE := Entry("pkg", File(1, 0))
  const LOCKED_PYTHON := Dir(9, [Entry(SITE_PACKAGES, Dir(9, [OLD_PACKAGE]))])
  const LOCKED_HOME := Dir(9, [Entry(".local", Dir(9, [Entry("lib", Dir(9, [Entry("python.lock", LOCKED_PYTHON)]))]))])

  lemma OnlyChild(mtime: int, e: Entry)
    ensures Size(Dir(mtime, [e])) == Size(e.node) && (WellFormed(e.node) ==> WellFormed(Dir(mtime, [e])))
  {
    assert SizeAll([e][1..]) == 0;
    assert SizeAll([e]) == Size(e.node);
  }

  lemma LockedHomeShape()
    ensures WellFormed(LOCKED_HOME) && Size(LOCKED_HOME) == 1
    ensures At(LOCKED_HOME, LIB + ["python.lock"]) == Some(LOCKED_PYTHON)
    ensures At(LOCKED_HOME, CACHE) == None && Find(LOCKED_HOME.entries, LOCK_FILE) == None
    ensures At(LOCKED_PYTHON, [SITE_PACKAGES]) == Some(Dir(9, [OLD_PACKAGE]))
  {
    var site := Dir(9, [OLD_PACKAGE]);
    var lib := Dir(9, [Entry("python.lock", LOCKED_PYTHON)]);
    var local := Dir(9, [Entry("lib", lib)]);
    assert ".cache"[1] != ".local"[1] && LOCK_FILE[1] != ".local"[1];
    OnlyChild(9, OLD_PACKAGE);
    OnlyChild(9, Entry(SITE_PACKAGES, site));
    OnlyChild(9, Entry("python.lock", LOCKED_PYTHON));
    OnlyChild(9, Entry("lib", lib));
    OnlyChild(9, Entry(".local", local));
    Child(LOCKED_PYTHON, SITE_PACKAGES, site);
    Child(lib, "python.lock", LOCKED_PYTHON);
    Child(local, "lib", lib);
    Child(LOCKED_HOME, ".local", local);
    AtAppend(LOCKED_HOME, LOCAL, ["lib"]);
    assert LOCAL + ["lib"] == LIB;
    AtAppend(LOCKED_HOME, LIB, ["python.lock"]);
  }

  /** The exception is real: a fault-free run over this home deletes a file inside a never-touch directory. */
  lemma LockedPythonIsEntered(envs: nat -> Env)
    requires forall k :: NoFaults(envs(k))
    ensures
      var path := LIB + ["python.lock"];
      && NeverTouch(path) && At(LOCKED_HOME, path).Some?
      && At(Enforce(envs, 5, 0, LOCKED_HOME, Broken).root, path) != At(LOCKED_HOME, path)
  {
    hide NeverTouch, Enforce, PruneSitePackages, Size, Seen, WellFormed, At, Skeleton;
    hide LOCKED_HOME, LOCKED_PYTHON;
    LockedHomeShape();
    LockedPythonNames();
    LockedHomeIsDir();
    FourTiers(envs, 5, LOCKED_HOME);
    FewTiers(envs, 5, 0, LOCKED_HOME);
    SeenIsSize(CLEAR, [], LOCKED_HOME);
    LockedPythonKeptByRun(envs, 5, 0, LOCKED_HOME, Broken, "python.lock");
    OldPackageIsNoSkeleton();
  }

  lemma LockedHomeIsDir()
    ensures LOCKED_HOME.Dir? && LOCKED_PYTHON.Dir?
  {
  }

  lemma OldPackageIsNoSkeleton()
    ensures !StaleAreSkeletons(5, "python.lock", LOCKED_PYTHON)
  {
    hide NeverTouch;
    LockedHomeShape();
    LockedPythonNames();
    assert OLD_PACKAGE in At(LOCKED_PYTHON, [SITE_PACKAGES]).value.entries;
    assert !Skeleton(LIB + ["python.lock"] + [SITE_PACKAGES] + [OLD_PACKAGE.name], OLD_PACKAGE.node);
  }
}
