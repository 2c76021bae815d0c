/** Best effort reaches a fixed point: a run that stays over budget leaves nothing it could delete. */
module QuotaFixpoint {
  import opened Wrappers
  import opened FileTree
  import opened HomePruner
  import opened HomeQuota
  import opened QuotaWalk
  import opened QuotaProperties

  // ---- Trees on which the tiers find nothing to do ----

  /** Entries of a directory that tier 4 has been through. */
  predicate SettledEntry(cutoff: int, path: Path, e: Entry)
    decreases e.node, 1
  {
    var p := path + [e.name];
    || IsBin(path, e)
    || NeverTouch(p)
    || (e.node.mtime <= cutoff && Skeleton(p, e.node))
    || (e.node.mtime > cutoff && Settled(cutoff, p, e.node))
  }

  predicate Settled(cutoff: int, path: Path, n: Node)
    decreases n, 0
  {
    n.Dir? ==> forall i :: 0 <= i < |n.entries| ==> SettledEntry(cutoff, path, n.entries[i])
  }

  lemma {:induction false} SkeletonSettles(cutoff: int, path: Path, n: Node)
    requires Skeleton(path, n) && !NeverTouch(path)
    ensures Settled(cutoff, path, n)
    decreases n
  {
    forall i | 0 <= i < |n.entries| ensures SettledEntry(cutoff, path, n.entries[i]) {
      var e := n.entries[i];
      if !NeverTouch(path + [e.name]) {
        SkeletonSettles(cutoff, path + [e.name], e.node);
      }
    }
  }

  lemma {:induction false} PruneSettles(env: Env, cutoff: int, path: Path, dir: Node)
    requires dir.Dir? && NoFaults(env) && env.now > cutoff
    ensures Settled(cutoff, path, Prune(env, cutoff, path, dir).root)
    decreases dir, 1
  {
    BelowSettles(env, cutoff, path, dir.entries);
    var left := PruneBelow(env, cutoff, path, dir.entries).left;
    assert forall i :: 0 <= i < |left| ==> left[i] in left;
  }

  lemma {:induction false} BelowSettles(env: Env, cutoff: int, path: Path, es: seq<Entry>)
    requires NoFaults(env) && env.now > cutoff
    ensures forall x :: x in PruneBelow(env, cutoff, path, es).left ==> SettledEntry(cutoff, path, x)
    decreases es, 0
  {
    hide RmTree, Prune, SettledEntry;
    if es != [] {
      BelowSettles(env, cutoff, path, es[1..]);
      var e := es[0];
      var p := path + [e.name];
      if Descends(env, path, cutoff, e) {
        PruneSettles(env, cutoff, p, e.node);
        PrunedIsRecent(env, cutoff, p, e.node);
        RecentSettles(cutoff, path, Entry(e.name, Prune(env, cutoff, p, e.node).root));
      } else if LocalPick(env, path, cutoff)(e) {
        LeavesSkeleton(env, p, e.node);
        var left := RmTree(env, p, e.node).left;
        if left.Some? {
          SkeletonEntrySettles(cutoff, path, Entry(e.name, left.value));
        }
      } else {
        UntouchedSettles(env, cutoff, path, e);
      }
    }
  }

  lemma PrunedIsRecent(env: Env, cutoff: int, path: Path, dir: Node)
    requires dir.Dir? && dir.mtime > cutoff && env.now > cutoff
    ensures Prune(env, cutoff, path, dir).root.mtime > cutoff
  {
  }

  lemma RecentSettles(cutoff: int, path: Path, e: Entry)
    requires e.node.mtime > cutoff && Settled(cutoff, path + [e.name], e.node)
    ensures SettledEntry(cutoff, path, e)
  {
  }

  lemma SkeletonEntrySettles(cutoff: int, path: Path, e: Entry)
    requires Skeleton(path + [e.name], e.node)
    ensures SettledEntry(cutoff, path, e)
  {
    if !NeverTouch(path + [e.name]) {
      SkeletonSettles(cutoff, path + [e.name], e.node);
    }
  }

  /** An entry tier 4 neither deletes nor descends into. */
  lemma UntouchedSettles(env: Env, cutoff: int, path: Path, e: Entry)
    requires NoFaults(env) && !Descends(env, path, cutoff, e) && !LocalPick(env, path, cutoff)(e)
    ensures SettledEntry(cutoff, path, e)
  {
  }

  /** Tier 4 changes nothing on a settled directory. */
  lemma {:induction false} SettledIsStable(env: Env, cutoff: int, path: Path, dir: Node)
    requires dir.Dir? && Settled(cutoff, path, dir)
    ensures Prune(env, cutoff, path, dir) == Tiering(dir, [], 0)
    decreases dir, 1
  {
    var es := dir.entries;
    forall i | 0 <= i < |es| && LocalPick(env, path, cutoff)(es[i])
      ensures Skeleton(path + [es[i].name], es[i].node)
    {
      assert SettledEntry(cutoff, path, es[i]);
    }
    StableSweep(env, path, es, LocalPick(env, path, cutoff));
    SettledBelow(env, cutoff, path, es);
  }

  lemma {:induction false} SettledBelow(env: Env, cutoff: int, path: Path, es: seq<Entry>)
    requires forall i :: 0 <= i < |es| ==> SettledEntry(cutoff, path, es[i])
    ensures PruneBelow(env, cutoff, path, es) == Sweeping(es, [], 0)
    decreases es, 0
  {
    if es != [] {
      var e := es[0];
      assert SettledEntry(cutoff, path, e);
      SettledBelow(env, cutoff, path, es[1..]);
      if Descends(env, path, cutoff, e) {
        SettledIsStable(env, cutoff, path + [e.name], e.node);
      } else if LocalPick(env, path, cutoff)(e) {
        SkeletonIsStable(env, path + [e.name], e.node);
      }
    }
  }

  // ---- Leaves of such trees ----

  lemma {:induction false} SkeletonLeaf(path: Path, n: Node, q: Path)
    requires Skeleton(path, n) && At(n, q).Some? && !At(n, q).value.Dir?
    ensures Shielded(path, q)
    decreases |q|
  {
    if NeverTouch(path) {
      assert path + q[..0] == path;
    } else {
      var i := Find(n.entries, q[0]).value;
      SkeletonLeaf(path + [q[0]], n.entries[i].node, q[1..]);
      ShieldedStep(path, q);
    }
  }

  lemma {:induction false} SettledLeaf(cutoff: int, path: Path, n: Node, q: Path)
    requires n.Dir? && Settled(cutoff, path, n) && !NeverTouch(path)
    requires q != [] && At(n, q).Some? && !At(n, q).value.Dir?
    requires !(BIN <= path + q) && !Shielded(path, q)
    ensures At(n, q).value.mtime > cutoff
    decreases |q|
  {
    var i := Find(n.entries, q[0]).value;
    var e := n.entries[i];
    var p := path + [q[0]];
    assert SettledEntry(cutoff, path, e);
    assert path + q == p + q[1..];
    ShieldedStep(path, q);
    assert p + q[1..][..0] == p;
    if e.node.mtime <= cutoff {
      SkeletonLeaf(p, e.node, q[1..]);
    } else if q[1..] != [] {
      SettledLeaf(cutoff, p, e.node, q[1..]);
    }
  }

  // ---- The tiers' results ----

  ghost predicate SkeletonEntries(path: Path, n: Node) {
    n.Dir? ==> forall e :: e in n.entries ==> Skeleton(path + [e.name], e.node)
  }

  /** Every stale entry consists of never-touch paths only. */
  ghost predicate OldAreSkeletons(cutoff: int, path: Path, n: Node) {
    n.Dir? ==> forall e :: e in n.entries ==> e.node.mtime > cutoff || Skeleton(path + [e.name], e.node)
  }

  ghost predicate CacheSettled(root: Node) {
    At(root, CACHE).Some? ==> SkeletonEntries(CACHE, At(root, CACHE).value)
  }

  ghost predicate PackagesSettled(cutoff: int, root: Node, name: string) {
    var path := LIB + [name] + [SITE_PACKAGES];
    At(root, path).Some? ==> OldAreSkeletons(cutoff, path, At(root, path).value)
  }

  ghost predicate LibSettled(cutoff: int, root: Node) {
    HasDir(root, LIB) ==>
      forall e :: e in At(root, LIB).value.entries ==>
        IsPython(e) || e.node.mtime > cutoff || Skeleton(LIB + [e.name], e.node)
  }

  ghost predicate LocalSettled(cutoff: int, root: Node) {
    At(root, LOCAL).Some? ==> Settled(cutoff, LOCAL, At(root, LOCAL).value)
  }

  lemma CacheStable(env: Env, root: Node)
    requires CacheSettled(root)
    ensures PruneCache(env, root) == Tiering(root, [], 0)
  {
    if HasDir(root, CACHE) {
      var dir := At(root, CACHE).value;
      StableSweep(env, CACHE, dir.entries, Everything);
      PutSelf(root, CACHE);
    }
  }

  lemma OtherLibStable(env: Env, cutoff: int, root: Node)
    requires LibSettled(cutoff, root)
    ensures PruneOtherLib(env, cutoff, root) == Tiering(root, [], 0)
  {
    if HasDir(root, LIB) {
      var dir := At(root, LIB).value;
      assert forall i :: 0 <= i < |dir.entries| ==> dir.entries[i] in dir.entries;
      StableSweep(env, LIB, dir.entries, LibPick(env, cutoff));
      PutSelf(root, LIB);
    }
  }

  lemma LocalStable(env: Env, cutoff: int, root: Node)
    requires LocalSettled(cutoff, root)
    ensures PruneStaleLocal(env, cutoff, root) == Tiering(root, [], 0)
  {
    if HasDir(root, LOCAL) {
      SettledIsStable(env, cutoff, LOCAL, At(root, LOCAL).value);
      PutSelf(root, LOCAL);
    }
  }

  lemma PackagesStable(env: Env, cutoff: int, root: Node, name: string)
    requires PackagesSettled(cutoff, root, name) && HasDir(root, LIB + [name])
    ensures
      var path := LIB + [name];
      Within(root, path, PrunePackages(env, cutoff, name, At(root, path).value)) == Tiering(root, [], 0)
  {
    var path := LIB + [name];
    var py := At(root, path).value;
    PutSelf(root, path);
    if HasDir(py, [SITE_PACKAGES]) {
      var inner := path + [SITE_PACKAGES];
      var dir := At(py, [SITE_PACKAGES]).value;
      AtAppend(root, path, [SITE_PACKAGES]);
      assert forall i :: 0 <= i < |dir.entries| ==> dir.entries[i] in dir.entries;
      StableSweep(env, inner, dir.entries, StalePick(env, inner, cutoff));
      PutSelf(py, [SITE_PACKAGES]);
    }
  }

  lemma {:induction false} PythonsStable(env: Env, cutoff: int, root: Node, names: seq<string>)
    requires forall name :: PYTHON <= name ==> PackagesSettled(cutoff, root, name)
    ensures PrunePythons(env, cutoff, root, names) == Tiering(root, [], 0)
    decreases |names|
  {
    hide PrunePackages, PackagesSettled;
    if names != [] {
      if HasDir(root, LIB + [names[0]]) && PYTHON <= names[0] {
        PackagesStable(env, cutoff, root, names[0]);
      }
      PythonsStable(env, cutoff, root, names[1..]);
    }
  }

  // ---- Each tier establishes its part ----

  lemma CacheSettles(env: Env, root: Node)
    requires NoFaults(env)
    ensures CacheSettled(PruneCache(env, root).root)
  {
    if HasDir(root, CACHE) {
      var dir := At(root, CACHE).value;
      SweepLeavesSkeleton(env, CACHE, dir.entries, Everything);
      AtPut(root, CACHE, SweepDir(env, CACHE, dir, Everything).root, []);
      assert CACHE + [] == CACHE;
    }
  }

  lemma LocalSettles(env: Env, cutoff: int, root: Node)
    requires NoFaults(env) && env.now > cutoff
    ensures LocalSettled(cutoff, PruneStaleLocal(env, cutoff, root).root)
  {
    hide Settled, Prune;
    if HasDir(root, LOCAL) {
      var dir := At(root, LOCAL).value;
      PruneSettles(env, cutoff, LOCAL, dir);
      AtPut(root, LOCAL, Prune(env, cutoff, LOCAL, dir).root, []);
      assert LOCAL + [] == LOCAL;
    } else if At(root, LOCAL).Some? {
      LeafSettled(cutoff, LOCAL, At(root, LOCAL).value);
    }
  }

  lemma LeafSettled(cutoff: int, path: Path, n: Node)
    requires !n.Dir?
    ensures Settled(cutoff, path, n)
  {
  }

  /** The tiers that work under `.local` leave everything else alone. */
  lemma {:induction false} PythonsLeave(env: Env, cutoff: int, root: Node, names: seq<string>, q: Path)
    requires Apart(LOCAL, q)
    ensures At(PrunePythons(env, cutoff, root, names).root, q) == At(root, q)
    decreases |names|
  {
    hide PrunePackages, At, Put;
    if names != [] {
      var path := LIB + [names[0]];
      if HasDir(root, path) && PYTHON <= names[0] {
        assert path == [LOCAL[0]] + path[1..];
        AtPutApart(root, path, PrunePackages(env, cutoff, names[0], At(root, path).value).root, q);
        var m := PrunePackages(env, cutoff, names[0], At(root, path).value).root;
        PythonsLeave(env, cutoff, Put(root, path, m), names[1..], q);
      } else {
        PythonsLeave(env, cutoff, root, names[1..], q);
      }
    }
  }

  lemma LocalTiersLeave(k: nat, env: Env, cutoff: int, root: Node, q: Path)
    requires k != 1 && Apart(LOCAL, q)
    ensures At(Tier(k, env, cutoff, root).root, q) == At(root, q)
  {
    hide PrunePythons, SweepDir, Prune, At, Put;
    assert LIB == LOCAL + ["lib"];
    if k == 2 {
      if HasDir(root, LIB) && !env.fails(Scan, LIB) {
        PythonsLeave(env, cutoff, root, Names(At(root, LIB).value.entries), q);
      }
    } else if k == 3 {
      if HasDir(root, LIB) {
        AtPutApart(root, LIB, SweepDir(env, LIB, At(root, LIB).value, LibPick(env, cutoff)).root, q);
      }
    } else if HasDir(root, LOCAL) {
      AtPutApart(root, LOCAL, Prune(env, cutoff, LOCAL, At(root, LOCAL).value).root, q);
    }
  }

  /** One python directory: afterwards its stale packages are skeletons, the other directories are as before. */
  lemma PackagesSettle(env: Env, cutoff: int, root: Node, name: string)
    requires NoFaults(env) && HasDir(root, LIB + [name])
    ensures
      var path := LIB + [name];
      PackagesSettled(cutoff, Put(root, path, PrunePackages(env, cutoff, name, At(root, path).value).root), name)
  {
    hide PrunePackages, OldAreSkeletons, NoFaults, At, Put;
    var path := LIB + [name];
    var py := At(root, path).value;
    AtPut(root, path, PrunePackages(env, cutoff, name, py).root, [SITE_PACKAGES]);
    PrunedPackages(env, cutoff, name, py);
  }

  lemma PrunedPackages(env: Env, cutoff: int, name: string, py: Node)
    requires NoFaults(env)
    ensures
      var left := At(PrunePackages(env, cutoff, name, py).root, [SITE_PACKAGES]);
      left.Some? ==> OldAreSkeletons(cutoff, LIB + [name] + [SITE_PACKAGES], left.value)
  {
    hide OldAreSkeletons, SweepDir, Put;
    var inner := LIB + [name] + [SITE_PACKAGES];
    if HasDir(py, [SITE_PACKAGES]) {
      var dir := At(py, [SITE_PACKAGES]).value;
      var swept := SweepDir(env, inner, dir, StalePick(env, inner, cutoff)).root;
      AtPut(py, [SITE_PACKAGES], swept, []);
      assert [SITE_PACKAGES] + [] == [SITE_PACKAGES];
      SweptSkeletons(env, cutoff, inner, dir);
    } else if At(py, [SITE_PACKAGES]).Some? {
      NoDirIsOld(cutoff, inner, At(py, [SITE_PACKAGES]).value);
    }
  }

  lemma NoDirIsOld(cutoff: int, path: Path, n: Node)
    requires !n.Dir?
    ensures OldAreSkeletons(cutoff, path, n)
  {
  }

  lemma SweptSkeletons(env: Env, cutoff: int, path: Path, dir: Node)
    requires NoFaults(env) && dir.Dir?
    ensures OldAreSkeletons(cutoff, path, SweepDir(env, path, dir, StalePick(env, path, cutoff)).root)
  {
    hide Skeleton;
    SweepLeavesSkeleton(env, path, dir.entries, StalePick(env, path, cutoff));
  }

  lemma PackagesApart(cutoff: int, root: Node, name: string, other: string, m: Node)
    requires PackagesSettled(cutoff, root, name) && name != other && At(root, LIB + [other]).Some?
    ensures PackagesSettled(cutoff, Put(root, LIB + [other], m), name)
  {
    var path := LIB + [name] + [SITE_PACKAGES];
    assert path[2] == name && (LIB + [other])[2] == other;
    AtPutApart(root, LIB + [other], m, path);
  }

  lemma {:induction false} PythonsSettle(env: Env, cutoff: int, root: Node, names: seq<string>, name: string)
    requires NoFaults(env) && PYTHON <= name && (name in names || PackagesSettled(cutoff, root, name))
    ensures PackagesSettled(cutoff, PrunePythons(env, cutoff, root, names).root, name)
    decreases |names|
  {
    hide PrunePackages, PackagesSettled, NoFaults;
    if names != [] {
      var path := LIB + [names[0]];
      if HasDir(root, path) && PYTHON <= names[0] {
        var t := Within(root, path, PrunePackages(env, cutoff, names[0], At(root, path).value));
        if names[0] == name {
          PackagesSettle(env, cutoff, root, name);
        } else if PackagesSettled(cutoff, root, name) {
          PackagesApart(cutoff, root, name, names[0], PrunePackages(env, cutoff, names[0], At(root, path).value).root);
        }
        PythonsSettle(env, cutoff, t.root, names[1..], name);
      } else {
        if names[0] == name {
          NoPackages(cutoff, root, name);
        }
        PythonsSettle(env, cutoff, root, names[1..], name);
      }
    }
  }

  lemma NoPackages(cutoff: int, root: Node, name: string)
    requires !HasDir(root, LIB + [name])
    ensures PackagesSettled(cutoff, root, name)
  {
    AtAppend(root, LIB + [name], [SITE_PACKAGES]);
  }

  lemma SitePackagesSettle(env: Env, cutoff: int, root: Node, name: string)
    requires NoFaults(env) && PYTHON <= name
    ensures PackagesSettled(cutoff, PruneSitePackages(env, cutoff, root).root, name)
  {
    hide PackagesSettled, PrunePythons;
    AtAppend(root, LIB, [name]);
    if HasDir(root, LIB) {
      var es := At(root, LIB).value.entries;
      if Find(es, name) == None {
        NoPackages(cutoff, root, name);
      } else {
        assert Names(es)[Find(es, name).value] == name;
      }
      PythonsSettle(env, cutoff, root, Names(es), name);
    } else {
      NoPackages(cutoff, root, name);
    }
  }

  // ---- A settled `.local` settles the directories inside it ----

  lemma SettledChild(cutoff: int, path: Path, n: Node, name: string)
    requires n.Dir? && Find(n.entries, name).Some?
    requires Settled(cutoff, path, n) || (Skeleton(path, n) && !NeverTouch(path))
    requires path + [name] != BIN && !NeverTouch(path + [name])
    ensures
      var m := n.entries[Find(n.entries, name).value].node;
      Settled(cutoff, path + [name], m) || Skeleton(path + [name], m)
  {
    var i := Find(n.entries, name).value;
    if Settled(cutoff, path, n) {
      assert SettledEntry(cutoff, path, n.entries[i]);
    }
  }

  /** In a directory below `.local/lib`, settled entries are recent or skeletons. */
  lemma SettledMeansOldAreSkeletons(cutoff: int, path: Path, n: Node)
    requires Settled(cutoff, path, n) || (Skeleton(path, n) && !NeverTouch(path))
    requires |path| >= 2
    ensures OldAreSkeletons(cutoff, path, n)
  {
    hide NeverTouch;
    if n.Dir? {
      forall e | e in n.entries
        ensures e.node.mtime > cutoff || Skeleton(path + [e.name], e.node)
      {
        assert |path + [e.name]| > |BIN|;
        var i :| 0 <= i < |n.entries| && n.entries[i] == e;
        if Settled(cutoff, path, n) {
          assert SettledEntry(cutoff, path, n.entries[i]);
        }
      }
    }
  }

  lemma LibIsSettled(cutoff: int, root: Node)
    requires LocalSettled(cutoff, root) && HasDir(root, LIB)
    ensures var lib := At(root, LIB).value; Settled(cutoff, LIB, lib) || (Skeleton(LIB, lib) && !NeverTouch(LIB))
  {
    hide NeverTouch;
    assert LIB == LOCAL + ["lib"];
    AtAppend(root, LOCAL, ["lib"]);
    var local := At(root, LOCAL).value;
    AnchorsAreOrdinary(LIB);
    assert LIB[1] != BIN[1];
    SettledChild(cutoff, LOCAL, local, "lib");
    assert ["lib"][1..] == [];
  }

  lemma LibSettles(cutoff: int, root: Node)
    requires LocalSettled(cutoff, root)
    ensures LibSettled(cutoff, root)
  {
    hide Settled, NeverTouch, Skeleton;
    if HasDir(root, LIB) {
      LibIsSettled(cutoff, root);
      SettledMeansOldAreSkeletons(cutoff, LIB, At(root, LIB).value);
    }
  }

  lemma OrdinaryPackagesSettle(cutoff: int, root: Node, name: string)
    requires LocalSettled(cutoff, root) && PYTHON <= name && !NeverTouch(LIB + [name])
    ensures PackagesSettled(cutoff, root, name)
  {
    hide Settled, NeverTouch, Skeleton;
    var path := LIB + [name];
    var inner := path + [SITE_PACKAGES];
    AtAppend(root, path, [SITE_PACKAGES]);
    if At(root, inner).Some? {
      AtAppend(root, LIB, [name]);
      LibIsSettled(cutoff, root);
      var lib := At(root, LIB).value;
      SettledChild(cutoff, LIB, lib, name);
      assert [name][1..] == [] && [SITE_PACKAGES][1..] == [];
      var py := At(root, path).value;
      assert py == lib.entries[Find(lib.entries, name).value].node;
      SitePackagesIsOrdinary(name);
      SettledChild(cutoff, path, py, SITE_PACKAGES);
      SettledMeansOldAreSkeletons(cutoff, inner, At(root, inner).value);
    }
  }

  // ---- Never-touch python directories: settled by tier 2, kept by tiers 3 and 4 ----

  lemma {:induction false} PruneNothingNew(env: Env, cutoff: int, path: Path, dir: Node, q: Path)
    requires dir.Dir? && WellFormed(dir) && At(dir, q) == None
    ensures At(Prune(env, cutoff, path, dir).root, q) == None
    decreases |q|
  {
    if q != [] && !env.fails(Scan, path) {
      var es := dir.entries;
      if Find(es, q[0]) == None {
        BelowNames(env, cutoff, path, es, q[0]);
      } else {
        var e := es[Find(es, q[0]).value];
        BelowFind(env, cutoff, path, es, q[0]);
        if Descends(env, path, cutoff, e) {
          PruneNothingNew(env, cutoff, path + [q[0]], e.node, q[1..]);
        } else if LocalPick(env, path, cutoff)(e) && AtOpt(RmTree(env, path + [q[0]], e.node).left, q[1..]).Some? {
          NothingNew(env, path + [q[0]], e.node, q[1..]);
        }
      }
    }
  }

  lemma LateTiersNothingNew(k: nat, env: Env, cutoff: int, root: Node, name: string)
    requires WellFormed(root) && NoFaults(env) && k > 2 && At(root, LIB + [name]) == None
    ensures At(Tier(k, env, cutoff, root).root, LIB + [name]) == None
  {
    hide WellFormed, SweepDir, Prune;
    var q := LIB + [name];
    if k == 3 {
      if HasDir(root, LIB) {
        var dir := At(root, LIB).value;
        WellFormedAt(root, LIB);
        AtAppend(root, LIB, [name]);
        SweepDirAt(env, LIB, dir, LibPick(env, cutoff), [name]);
        AtPut(root, LIB, SweepDir(env, LIB, dir, LibPick(env, cutoff)).root, [name]);
      }
    } else if HasDir(root, LOCAL) {
      var dir := At(root, LOCAL).value;
      WellFormedAt(root, LOCAL);
      assert q == LOCAL + ["lib", name];
      AtAppend(root, LOCAL, ["lib", name]);
      PruneNothingNew(env, cutoff, LOCAL, dir, ["lib", name]);
      AtPut(root, LOCAL, Prune(env, cutoff, LOCAL, dir).root, ["lib", name]);
    }
  }

  lemma LockedPackagesStay(k: nat, env: Env, cutoff: int, root: Node, name: string)
    requires WellFormed(root) && NoFaults(env) && k > 2 && NeverTouch(LIB + [name])
    requires PackagesSettled(cutoff, root, name)
    ensures PackagesSettled(cutoff, Tier(k, env, cutoff, root).root, name)
  {
    hide WellFormed, NeverTouch, Tier, NoFaults;
    var path := LIB + [name];
    if At(root, path) == None {
      LateTiersNothingNew(k, env, cutoff, root, name);
    } else {
      TierKeeps(k, env, cutoff, root, path);
    }
    AtAppend(root, path, [SITE_PACKAGES]);
    AtAppend(Tier(k, env, cutoff, root).root, path, [SITE_PACKAGES]);
  }

  // ---- The main results ----

  /** Everything a further run would look at is settled. */
  ghost predicate AllSettled(cutoff: int, root: Node) {
    && CacheSettled(root)
    && LibSettled(cutoff, root)
    && LocalSettled(cutoff, root)
    && forall name :: PYTHON <= name ==> PackagesSettled(cutoff, root, name)
  }

  /** No faults, and the clock is past the cutoff. */
  ghost predicate CalmAfter(cutoff: int, envs: nat -> Env) {
    forall k :: NoFaults(envs(k)) && envs(k).now > cutoff
  }

  lemma FourTiersSettle(envs: nat -> Env, cutoff: int, root: Node)
    requires WellFormed(root) && CalmAfter(cutoff, envs)
    ensures AllSettled(cutoff, Tiers(envs, cutoff, root, 4).root)
  {
    hide WellFormed, Settled, NeverTouch, At, LocalSettled, PackagesSettled, LibSettled, NoFaults;
    hide PruneCache, PruneSitePackages, PruneOtherLib, PruneStaleLocal;
    FourTiers(envs, cutoff, root);
    var r1 := PruneCache(envs(1), root).root;
    var r2 := PruneSitePackages(envs(2), cutoff, r1).root;
    var r3 := PruneOtherLib(envs(3), cutoff, r2).root;
    var r4 := PruneStaleLocal(envs(4), cutoff, r3).root;
    assert Tiers(envs, cutoff, root, 4).root == r4;
    CacheSettles(envs(1), root);
    assert CACHE[0][1] != LOCAL[0][1];
    LocalTiersLeave(2, envs(2), cutoff, r1, CACHE);
    LocalTiersLeave(3, envs(3), cutoff, r2, CACHE);
    LocalTiersLeave(4, envs(4), cutoff, r3, CACHE);
    LocalSettles(envs(4), cutoff, r3);
    LibSettles(cutoff, r4);
    TierWellFormed(1, envs(1), cutoff, root);
    TierWellFormed(2, envs(2), cutoff, r1);
    TierWellFormed(3, envs(3), cutoff, r2);
    forall name | PYTHON <= name ensures PackagesSettled(cutoff, r4, name) {
      if NeverTouch(LIB + [name]) {
        SitePackagesSettle(envs(2), cutoff, r1, name);
        LockedPackagesStay(3, envs(3), cutoff, r2, name);
        LockedPackagesStay(4, envs(4), cutoff, r3, name);
      } else {
        OrdinaryPackagesSettle(cutoff, r4, name);
      }
    }
  }

  lemma {:induction false} SettledTiersAreStable(envs: nat -> Env, cutoff: int, root: Node, k: nat)
    requires AllSettled(cutoff, root)
    ensures Tiers(envs, cutoff, root, k) == Tiering(root, [], 0)
  {
    hide PruneCache, PruneSitePackages, PruneOtherLib, PruneStaleLocal, PrunePythons;
    hide CacheSettled, LibSettled, LocalSettled, PackagesSettled;
    if k > 0 {
      SettledTiersAreStable(envs, cutoff, root, k - 1);
      CacheStable(envs(k), root);
      SitePackagesStable(envs(k), cutoff, root);
      OtherLibStable(envs(k), cutoff, root);
      LocalStable(envs(k), cutoff, root);
    }
  }

  lemma SitePackagesStable(env: Env, cutoff: int, root: Node)
    requires forall name :: PYTHON <= name ==> PackagesSettled(cutoff, root, name)
    ensures PruneSitePackages(env, cutoff, root) == Tiering(root, [], 0)
  {
    hide PrunePythons, PackagesSettled;
    if HasDir(root, LIB) {
      PythonsStable(env, cutoff, root, Names(At(root, LIB).value.entries));
    }
  }

  /** Creating the lock file disturbs nothing the tiers look at. */
  lemma OpenedSame(now: int, root: Node, lock: Lock, q: Path)
    requires root.Dir? && q != [] && q[0] != LOCK_FILE
    ensures At(Opened(now, root, lock), q) == At(root, q)
  {
    var start := Opened(now, root, lock);
    if start != root {
      FindAppend(root.entries, Entry(LOCK_FILE, File(0, now)), q[0]);
    }
  }

  lemma {:induction false} FindAppend(es: seq<Entry>, e: Entry, name: string)
    requires name != e.name
    ensures Find(es + [e], name) == Find(es, name)
  {
    if es != [] {
      assert (es + [e])[1..] == es[1..] + [e];
      FindAppend(es[1..], e, name);
    }
  }

  lemma OpenedSettled(cutoff: int, now: int, root: Node, lock: Lock)
    requires root.Dir? && AllSettled(cutoff, root)
    ensures AllSettled(cutoff, Opened(now, root, lock))
  {
    hide At, Opened, Settled, Skeleton;
    assert CACHE[0] != LOCK_FILE && LOCAL[0] != LOCK_FILE;
    OpenedSame(now, root, lock, CACHE);
    OpenedSame(now, root, lock, LOCAL);
    OpenedSame(now, root, lock, LIB);
    forall name: string | PYTHON <= name ensures PackagesSettled(cutoff, Opened(now, root, lock), name) {
      assert PackagesSettled(cutoff, root, name);
      assert (LIB + [name] + [SITE_PACKAGES])[0] == LOCAL[0];
      OpenedSame(now, root, lock, LIB + [name] + [SITE_PACKAGES]);
    }
  }

  lemma OverBudgetSettles(envs: nat -> Env, cutoff: int, budget: nat, root: Node, lock: Lock)
    requires root.Dir? && WellFormed(root) && lock != Busy && CalmAfter(cutoff, envs)
    requires Enforce(envs, cutoff, budget, root, lock).report.after > budget
    ensures AllSettled(cutoff, Enforce(envs, cutoff, budget, root, lock).root)
  {
    hide WellFormed, AllSettled, Opened, Tiers, CalmAfter, Size, Measured, Reported;
    var start := Opened(envs(0).now, root, lock);
    OpenedWellFormed(envs(0).now, root, lock);
    NeededFits(envs, cutoff, budget, start, 0);
    CalmSees(envs, cutoff, TiersNeeded(envs, cutoff, budget, start, 0));
    ScansAreSizes(envs, cutoff, start, TiersNeeded(envs, cutoff, budget, start, 0));
    FourTiersSettle(envs, cutoff, start);
  }

  lemma CalmSees(envs: nat -> Env, cutoff: int, k: nat)
    requires CalmAfter(cutoff, envs)
    ensures SeesAll(envs(k))
  {
    assert NoFaults(envs(k));
  }

  /**
   A fault-free run that stays over its budget has done what it could: no file in `.cache` is left
   outside a never-touch subtree, and every such file in `.local`, `.local/bin` apart, is newer than
   the cutoff. Directories that lost a child count as recent, so this is not read off their dates.
   */
  lemma OverBudgetLeavesNothingStale(envs: nat -> Env, cutoff: int, budget: nat, root: Node, lock: Lock, q: Path)
    requires root.Dir? && WellFormed(root) && lock != Busy && CalmAfter(cutoff, envs)
    requires Enforce(envs, cutoff, budget, root, lock).report.after > budget
    requires q != []
    ensures
      var end := Enforce(envs, cutoff, budget, root, lock).root;
      && (At(end, CACHE + q).Some? && !At(end, CACHE + q).value.Dir? ==> Shielded(CACHE, q))
      && (At(end, LOCAL + q).Some? && !At(end, LOCAL + q).value.Dir? && !Shielded(LOCAL, q) && !(BIN <= LOCAL + q) ==>
            At(end, LOCAL + q).value.mtime > cutoff)
  {
    hide WellFormed, Enforce, CalmAfter, Settled, NeverTouch, LibSettled, PackagesSettled, Shielded;
    var end := Enforce(envs, cutoff, budget, root, lock).root;
    OverBudgetSettles(envs, cutoff, budget, root, lock);
    AtAppend(end, CACHE, q);
    AtAppend(end, LOCAL, q);
    AnchorsAreOrdinary(CACHE);
    AnchorsAreOrdinary(LOCAL);
    if At(end, CACHE + q).Some? && !At(end, CACHE + q).value.Dir? {
      var dir := At(end, CACHE).value;
      var i := Find(dir.entries, q[0]).value;
      assert dir.entries[i] in dir.entries;
      SkeletonLeaf(CACHE + [q[0]], dir.entries[i].node, q[1..]);
      ShieldedStep(CACHE, q);
    }
    if At(end, LOCAL + q).Some? && !At(end, LOCAL + q).value.Dir? && !Shielded(LOCAL, q) && !(BIN <= LOCAL + q) {
      SettledLeaf(cutoff, LOCAL, At(end, LOCAL).value, q);
    }
  }

  /**
   After such a run a second one with the same cutoff removes nothing, whatever its budget, its
   faults and the outcome of its lock; if its scans see everything it reports the same size twice.
   */
  lemma SecondRunRemovesNothing(envs: nat -> Env, cutoff: int, budget: nat, root: Node, lock: Lock,
                                again: nat -> Env, budget2: nat, lock2: Lock)
    requires root.Dir? && WellFormed(root) && lock != Busy && CalmAfter(cutoff, envs)
    requires Enforce(envs, cutoff, budget, root, lock).report.after > budget
    ensures
      var end := Enforce(envs, cutoff, budget, root, lock).root;
      var second := Enforce(again, cutoff, budget2, end, lock2);
      && end.Dir?
      && second.root == Opened(again(0).now, end, lock2)
      && second.report.pruned == []
      && (lock2 != Busy && (forall k :: SeesAll(again(k))) ==> second.report.before == second.report.after == Size(end))
  {
    hide WellFormed, CalmAfter, AllSettled, Tiers, TiersNeeded, Size, Measured, Reported;
    var end := Enforce(envs, cutoff, budget, root, lock).root;
    OverBudgetSettles(envs, cutoff, budget, root, lock);
    EnforceKeepsDir(envs, cutoff, budget, root, lock);
    var start := Opened(again(0).now, end, lock2);
    OpenedSettled(cutoff, again(0).now, end, lock2);
    var k := TiersNeeded(again, cutoff, budget2, start, 0);
    SettledTiersAreStable(again, cutoff, start, 0);
    SettledTiersAreStable(again, cutoff, start, k);
    OpenedSize(again(0).now, end, lock2);
    if forall i :: SeesAll(again(i)) {
      ScansAreSizes(again, cutoff, start, 0);
      ScansAreSizes(again, cutoff, start, k);
    }
  }

  lemma OpenedSize(now: int, root: Node, lock: Lock)
    requires root.Dir?
    ensures Size(Opened(now, root, lock)) == Size(root)
  {
    SizeAllAppend(root.entries, [Entry(LOCK_FILE, File(0, now))]);
  }

  lemma {:induction false} EnforceKeepsDir(envs: nat -> Env, cutoff: int, budget: nat, root: Node, lock: Lock)
    requires root.Dir?
    ensures Enforce(envs, cutoff, budget, root, lock).root.Dir?
  {
    hide Tiers;
    var start := Opened(envs(0).now, root, lock);
    TiersKeepDir(envs, cutoff, start, TiersNeeded(envs, cutoff, budget, start, 0));
  }

  lemma {:induction false} TiersKeepDir(envs: nat -> Env, cutoff: int, root: Node, k: nat)
    requires root.Dir?
    ensures Tiers(envs, cutoff, root, k).root.Dir?
  {
    hide SweepDir, Prune, PrunePythons;
    if k > 0 {
      TiersKeepDir(envs, cutoff, root, k - 1);
      var r := Tiers(envs, cutoff, root, k - 1).root;
      if HasDir(r, LIB) {
        PythonsKeepDir(envs(k), cutoff, r, Names(At(r, LIB).value.entries));
      }
    }
  }

  lemma {:induction false} PythonsKeepDir(env: Env, cutoff: int, root: Node, names: seq<string>)
    requires root.Dir?
    ensures PrunePythons(env, cutoff, root, names).root.Dir?
    decreases |names|
  {
    hide PrunePackages;
    if names != [] {
      var path := LIB + [names[0]];
      if HasDir(root, path) && PYTHON <= names[0] {
        var m := PrunePackages(env, cutoff, names[0], At(root, path).value).root;
        PythonsKeepDir(env, cutoff, Put(root, path, m), names[1..]);
      } else {
        PythonsKeepDir(env, cutoff, root, names[1..]);
      }
    }
  }
}
