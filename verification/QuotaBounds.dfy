/**
 What an enforcement run may delete and what it must: the bounds are stated with the paths of the
 home directory spelled out, tier by tier.
 */
module QuotaBounds {
  import opened Wrappers
  import opened FileTree
  import opened HomePruner
  import opened HomeQuota
  import opened QuotaWalk
  import opened QuotaProperties
  import opened QuotaFixpoint

  // ---- The user's own programs ----

  /** What lies in `.local/bin` is in the way of no tier. */
  lemma PythonsKeepBin(env: Env, cutoff: int, root: Node, names: seq<string>, q: Path)
    ensures At(PrunePythons(env, cutoff, root, names).root, [".local", "bin"] + q) == At(root, [".local", "bin"] + q)
    decreases |names|
  {
    hide PrunePackages, At, Put;
    if names != [] {
      var path := LIB + [names[0]];
      if HasDir(root, path) && PYTHON <= names[0] {
        var m := PrunePackages(env, cutoff, names[0], At(root, path).value).root;
        LibIsNotBin(path, q);
        AtPutApart(root, path, m, [".local", "bin"] + q);
        PythonsKeepBin(env, cutoff, Put(root, path, m), names[1..], q);
      } else {
        PythonsKeepBin(env, cutoff, root, names[1..], q);
      }
    }
  }

  lemma LibIsNotBin(path: Path, q: Path)
    requires LIB <= path
    ensures Apart(path, [".local", "bin"] + q)
  {
    assert path[1] == "lib" && "lib"[0] == 'l' && "bin"[0] == 'b';
    assert ([".local", "bin"] + q)[1] == "bin";
  }

  lemma TierKeepsBin(k: nat, env: Env, cutoff: int, root: Node, q: Path)
    requires WellFormed(root) && HasDir(root, [".local", "bin"])
    ensures At(Tier(k, env, cutoff, root).root, [".local", "bin"] + q) == At(root, [".local", "bin"] + q)
  {
    hide WellFormed, SweepDir, PrunePythons, Prune, Put;
    var p := [".local", "bin"] + q;
    if k == 1 {
      if HasDir(root, CACHE) {
        assert ".cache"[1] != ".local"[1] && p[0] == ".local";
        AtPutApart(root, CACHE, SweepDir(env, CACHE, At(root, CACHE).value, Everything).root, p);
      }
    } else if k == 2 {
      if HasDir(root, LIB) {
        PythonsKeepBin(env, cutoff, root, Names(At(root, LIB).value.entries), q);
      }
    } else if k == 3 {
      if HasDir(root, LIB) {
        LibIsNotBin(LIB, q);
        AtPutApart(root, LIB, SweepDir(env, LIB, At(root, LIB).value, LibPick(env, cutoff)).root, p);
      }
    } else {
      assert p == LOCAL + (["bin"] + q);
      AtAppend(root, LOCAL, ["bin"]);
      AtAppend(root, LOCAL, ["bin"] + q);
      assert LOCAL + ["bin"] == [".local", "bin"];
      var dir := At(root, LOCAL).value;
      WellFormedAt(root, LOCAL);
      AtPut(root, LOCAL, Prune(env, cutoff, LOCAL, dir).root, ["bin"] + q);
      PruneKeepsBin(env, cutoff, dir, q);
    }
  }

  lemma PruneKeepsBin(env: Env, cutoff: int, dir: Node, q: Path)
    requires dir.Dir? && WellFormed(dir) && HasDir(dir, ["bin"])
    ensures At(Prune(env, cutoff, [".local"], dir).root, ["bin"] + q) == At(dir, ["bin"] + q)
  {
    if !env.fails(Scan, [".local"]) {
      BelowFind(env, cutoff, [".local"], dir.entries, "bin");
      assert (["bin"] + q)[1..] == q && ["bin"][1..] == [] && [".local"] + ["bin"] == [".local", "bin"];
    }
  }

  lemma {:induction false} TiersKeepBin(envs: nat -> Env, cutoff: int, root: Node, k: nat, q: Path)
    requires WellFormed(root) && HasDir(root, [".local", "bin"])
    ensures
      var t := Tiers(envs, cutoff, root, k).root;
      && WellFormed(t) && HasDir(t, [".local", "bin"])
      && At(t, [".local", "bin"] + q) == At(root, [".local", "bin"] + q)
  {
    hide Tier, WellFormed, At;
    if k > 0 {
      TiersKeepBin(envs, cutoff, root, k - 1, q);
      var t := Tiers(envs, cutoff, root, k - 1).root;
      assert [".local", "bin"] + [] == [".local", "bin"];
      TierKeepsBin(k, envs(k), cutoff, t, q);
      TierKeepsBin(k, envs(k), cutoff, t, []);
      TierWellFormed(k, envs(k), cutoff, t);
    }
  }

  /**
   Whatever fails, whatever the clock, the budget and the lock: a directory `.local/bin` and all in
   it stay exactly as they are.
   */
  lemma LocalBinIsKept(envs: nat -> Env, cutoff: int, budget: nat, root: Node, lock: Lock, q: Path)
    requires root.Dir? && WellFormed(root) && HasDir(root, [".local", "bin"])
    ensures At(Enforce(envs, cutoff, budget, root, lock).root, [".local", "bin"] + q) == At(root, [".local", "bin"] + q)
  {
    hide WellFormed, Opened, Tiers, At, TiersNeeded, Measured, Reported;
    var start := Opened(envs(0).now, root, lock);
    assert ".local"[1] == 'l' && LOCK_FILE[1] == 'q';
    OpenedSame(envs(0).now, root, lock, [".local", "bin"] + q);
    OpenedSame(envs(0).now, root, lock, [".local", "bin"]);
    OpenedWellFormed(envs(0).now, root, lock);
    TiersKeepBin(envs, cutoff, start, TiersNeeded(envs, cutoff, budget, start, 0), q);
  }

  /**
   Whatever fails: credential files by their names, everything in or below `projects`, `.git` and
   `.config`, and lock files, a python directory of that name excepted, stay exactly as they are.
   */
  lemma CredentialsAndProjectsAreKept(envs: nat -> Env, cutoff: int, budget: nat, root: Node, lock: Lock, q: Path)
    requires root.Dir? && WellFormed(root) && At(root, q).Some? && q != []
    requires
      var name := q[|q| - 1];
      || name in {"oauth_creds.json", "credentials.json", "google_accounts.json"}
      || (exists i :: 0 <= i < |q| && q[i] in {"projects", ".git", ".config"})
      || (|name| >= 5 && name[|name| - 5..] == ".lock"
          && !(|q| == 3 && q[..2] == [".local", "lib"] && "python" <= name))
    ensures At(Enforce(envs, cutoff, budget, root, lock).root, q) == At(root, q)
  {
    hide WellFormed, Enforce, At;
    assert |LOCK_SUFFIX| == 5;
    assert "oauth_creds.json"[0] == 'o' && "credentials.json"[0] == 'c' && "google_accounts.json"[0] == 'g';
    assert "projects"[1] == 'r' && ".git"[1] == 'g' && ".config"[1] == 'c' && ".local"[1] == 'l';
    assert "lib"[0] == 'l' && "python"[0] == 'p' && "python"[1] == 'y';
    NeverTouchIsKept(envs, cutoff, budget, root, lock, q);
  }

  // ---- What may go ----

  /** A node of an earlier tree, dated at most the cutoff. */
  predicate Old(cutoff: int, root: Node, p: Path) {
    At(root, p).Some? && At(root, p).value.mtime <= cutoff
  }

  predicate IsDirAt(root: Node, p: Path) {
    At(root, p).Some? && At(root, p).value.Dir?
  }

  /**
   What `n` tiers may delete, by where it lay and how old it was before: the cache, old packages,
   other old libraries, and in the end whatever lay at or below something old in `.local`, but for
   `.local/bin`.
   */
  ghost predicate MayGo(cutoff: int, root: Node, n: nat, q: Path) {
    || (n >= 1 && [".cache"] < q)
    || (n >= 2 && |q| >= 5 && q[..2] == [".local", "lib"] && "python" <= q[2] && q[3] == "site-packages"
        && Old(cutoff, root, q[..5]))
    || (n >= 3 && |q| >= 3 && q[..2] == [".local", "lib"] && !("python" <= q[2] && IsDirAt(root, q[..3]))
        && Old(cutoff, root, q[..3]))
    || (n >= 4 && |q| >= 2 && q[0] == ".local" && !(q[1] == "bin" && IsDirAt(root, q[..2]))
        && exists j :: 2 <= j <= |q| && Old(cutoff, root, q[..j]))
  }

  /** Nothing is new, files and links are as they were, and a directory's date is the old one or recent. */
  predicate Follows(cutoff: int, before: Option<Node>, after: Option<Node>) {
    after.Some? ==>
      && before.Some? && before.value.Dir? == after.value.Dir?
      && (!after.value.Dir? ==> before == after)
      && (after.value.mtime == before.value.mtime || after.value.mtime > cutoff)
  }

  predicate Gone(before: Option<Node>, after: Option<Node>) {
    before.Some? && after == None
  }

  ghost predicate Sheds(cutoff: int, a: Node, b: Node, n: nat) {
    forall q :: Follows(cutoff, At(a, q), At(b, q)) && (Gone(At(a, q), At(b, q)) ==> MayGo(cutoff, a, n, q))
  }

  lemma {:induction false} RmTreeFollows(env: Env, cutoff: int, path: Path, node: Node, q: Path)
    requires WellFormed(node) && env.now > cutoff
    ensures Follows(cutoff, At(node, q), AtOpt(RmTree(env, path, node).left, q))
    decreases |q|
  {
    hide NeverTouch;
    if q != [] && node.Dir? && !NeverTouch(path) && !env.fails(Scan, path) {
      var es := node.entries;
      if Find(es, q[0]) == None {
        SweepNames(env, path, es, Everything, q[0]);
      } else {
        SweepFind(env, path, es, Everything, q[0]);
        RmTreeFollows(env, cutoff, path + [q[0]], es[Find(es, q[0]).value].node, q[1..]);
      }
    }
  }

  /** The entry of a directory a path goes through. */
  predicate Through(dir: Node, q: Path, pick: Entry -> bool) {
    dir.Dir? && q != [] && Find(dir.entries, q[0]).Some? && pick(dir.entries[Find(dir.entries, q[0]).value])
  }

  lemma SweepDirFollows(env: Env, cutoff: int, path: Path, dir: Node, pick: Entry -> bool, q: Path)
    requires dir.Dir? && WellFormed(dir) && env.now > cutoff
    ensures
      var t := SweepDir(env, path, dir, pick).root;
      Follows(cutoff, At(dir, q), At(t, q)) && (Gone(At(dir, q), At(t, q)) ==> Through(dir, q, pick))
  {
    hide RmTree, Sweep;
    if !env.fails(Scan, path) && q != [] {
      var es := dir.entries;
      if Find(es, q[0]) == None {
        SweepNames(env, path, es, pick, q[0]);
      } else {
        SweepFind(env, path, es, pick, q[0]);
        RmTreeFollows(env, cutoff, path + [q[0]], es[Find(es, q[0]).value].node, q[1..]);
      }
    }
  }

  lemma {:induction false} PruneFollows(env: Env, cutoff: int, path: Path, dir: Node, q: Path)
    requires dir.Dir? && WellFormed(dir) && env.now > cutoff && path != []
    ensures Follows(cutoff, At(dir, q), At(Prune(env, cutoff, path, dir).root, q))
    ensures Gone(At(dir, q), At(Prune(env, cutoff, path, dir).root, q)) ==>
      && (path == [".local"] ==> !(q[..1] == ["bin"] && IsDirAt(dir, q[..1])))
      && exists j :: 1 <= j <= |q| && Old(cutoff, dir, q[..j])
    decreases |q|
  {
    hide RmTree, PruneBelow, NeverTouch;
    if !env.fails(Scan, path) && q != [] {
      var es := dir.entries;
      if Find(es, q[0]) == None {
        BelowNames(env, cutoff, path, es, q[0]);
      } else {
        var e := es[Find(es, q[0]).value];
        BelowFind(env, cutoff, path, es, q[0]);
        assert q[..1] == [q[0]] && [q[0]][1..] == [] && At(dir, q[..1]) == Some(e.node);
        if Descends(env, path, cutoff, e) {
          PruneFollows(env, cutoff, path + [q[0]], e.node, q[1..]);
          OldBelow(cutoff, dir, q);
        } else {
          RmTreeFollows(env, cutoff, path + [q[0]], e.node, q[1..]);
          assert LocalPick(env, path, cutoff)(e) ==> Old(cutoff, dir, q[..1]);
        }
      }
    }
  }

  lemma OldBelow(cutoff: int, dir: Node, q: Path)
    requires q != [] && dir.Dir? && Find(dir.entries, q[0]).Some?
    ensures
      var e := dir.entries[Find(dir.entries, q[0]).value];
      (exists j :: 1 <= j <= |q| - 1 && Old(cutoff, e.node, q[1..][..j])) ==>
        exists j :: 1 <= j <= |q| && Old(cutoff, dir, q[..j])
  {
    var e := dir.entries[Find(dir.entries, q[0]).value];
    if j :| 1 <= j <= |q| - 1 && Old(cutoff, e.node, q[1..][..j]) {
      assert q[..j + 1][0] == q[0] && q[..j + 1][1..] == q[1..][..j];
      assert Old(cutoff, dir, q[..j + 1]);
    }
  }

  /** An action inside the directory at `rel`. */
  lemma WithinFollows(cutoff: int, root: Node, rel: Path, m: Node, q: Path)
    requires HasDir(root, rel) && m.Dir?
    requires rel <= q ==> Follows(cutoff, At(At(root, rel).value, q[|rel|..]), At(m, q[|rel|..]))
    ensures Follows(cutoff, At(root, q), At(Put(root, rel, m), q))
    ensures Gone(At(root, q), At(Put(root, rel, m), q)) ==>
      rel <= q && Gone(At(At(root, rel).value, q[|rel|..]), At(m, q[|rel|..]))
  {
    hide At, Put;
    if rel <= q {
      assert q == rel + q[|rel|..];
      AtPut(root, rel, m, q[|rel|..]);
      AtAppend(root, rel, q[|rel|..]);
    } else if q < rel {
      AtPutAbove(root, rel, m, q);
    } else {
      AtPutApart(root, rel, m, q);
    }
  }

  // ---- Tier by tier ----

  lemma PackagesFollow(env: Env, cutoff: int, name: string, py: Node, q: Path)
    requires WellFormed(py) && py.Dir? && env.now > cutoff
    ensures Follows(cutoff, At(py, q), At(PrunePackages(env, cutoff, name, py).root, q))
    ensures Gone(At(py, q), At(PrunePackages(env, cutoff, name, py).root, q)) ==>
      |q| >= 2 && q[0] == "site-packages" && Old(cutoff, py, q[..2])
  {
    hide SweepDir, WellFormed;
    if HasDir(py, [SITE_PACKAGES]) {
      var path := LIB + [name] + [SITE_PACKAGES];
      var dir := At(py, [SITE_PACKAGES]).value;
      var pick := StalePick(env, path, cutoff);
      WellFormedAt(py, [SITE_PACKAGES]);
      SweepDirKeepsDir(env, path, dir, pick);
      if [SITE_PACKAGES] <= q {
        SweepDirFollows(env, cutoff, path, dir, pick, q[1..]);
        if q[1..] != [] {
          PickedIsOld(cutoff, py, q);
        }
      }
      WithinFollows(cutoff, py, [SITE_PACKAGES], SweepDir(env, path, dir, pick).root, q);
    }
  }

  lemma SweepDirKeepsDir(env: Env, path: Path, dir: Node, pick: Entry -> bool)
    requires dir.Dir?
    ensures SweepDir(env, path, dir, pick).root.Dir?
  {
  }

  lemma PickedIsOld(cutoff: int, py: Node, q: Path)
    requires HasDir(py, [SITE_PACKAGES]) && |q| >= 2 && q[0] == SITE_PACKAGES
    ensures Through(At(py, [SITE_PACKAGES]).value, q[1..], (e: Entry) => e.node.mtime <= cutoff) ==> Old(cutoff, py, q[..2])
  {
    assert q[..2] == [SITE_PACKAGES] + [q[1]];
    AtAppend(py, [SITE_PACKAGES], [q[1]]);
    assert [q[1]][1..] == [] && q[1..][0] == q[1];
  }

  lemma OnePythonFollows(env: Env, cutoff: int, root: Node, name: string, q: Path)
    requires WellFormed(root) && HasDir(root, LIB + [name]) && PYTHON <= name && env.now > cutoff
    ensures
      var path := LIB + [name];
      var t := Within(root, path, PrunePackages(env, cutoff, name, At(root, path).value)).root;
      Follows(cutoff, At(root, q), At(t, q)) && (Gone(At(root, q), At(t, q)) ==> MayGo(cutoff, root, 2, q))
  {
    hide PrunePackages, WellFormed;
    var path := LIB + [name];
    var py := At(root, path).value;
    WellFormedAt(root, path);
    PackagesKeepDir(env, cutoff, name, py);
    if path <= q {
      var r := q[|path|..];
      assert q == path + r;
      PackagesFollow(env, cutoff, name, py, r);
      if |r| >= 2 {
        assert q[..5] == path + r[..2] && q[..2] == [".local", "lib"] && q[2] == name && q[3] == r[0];
        AtAppend(root, path, r[..2]);
      }
    }
    WithinFollows(cutoff, root, path, PrunePackages(env, cutoff, name, py).root, q);
  }

  lemma PackagesKeepDir(env: Env, cutoff: int, name: string, py: Node)
    requires py.Dir?
    ensures PrunePackages(env, cutoff, name, py).root.Dir?
  {
  }

  // ---- One after the other ----

  lemma ShedsNothing(cutoff: int, a: Node, n: nat)
    ensures Sheds(cutoff, a, a, n)
  {
  }

  lemma ShedsMore(cutoff: int, a: Node, b: Node, n: nat, m: nat)
    requires Sheds(cutoff, a, b, n) && n <= m
    ensures Sheds(cutoff, a, b, m)
  {
  }

  /** What is on the way to a node is there as well. */
  lemma OnTheWay(root: Node, q: Path, k: nat)
    requires At(root, q).Some? && k <= |q|
    ensures At(root, q[..k]).Some?
  {
    assert q == q[..k] + q[k..];
    AtAppend(root, q[..k], q[k..]);
  }

  lemma OldBefore(cutoff: int, a: Node, b: Node, n: nat, p: Path)
    requires Sheds(cutoff, a, b, n)
    ensures Old(cutoff, b, p) ==> Old(cutoff, a, p)
    ensures At(b, p).Some? ==> IsDirAt(b, p) == IsDirAt(a, p)
  {
    hide At;
    assert Follows(cutoff, At(a, p), At(b, p));
  }

  lemma MayGoBefore(cutoff: int, a: Node, b: Node, n: nat, m: nat, q: Path)
    requires Sheds(cutoff, a, b, n) && MayGo(cutoff, b, m, q) && At(b, q).Some?
    ensures MayGo(cutoff, a, m, q)
  {
    hide Sheds, Old, At;
    if |q| >= 5 {
      OldBefore(cutoff, a, b, n, q[..5]);
    }
    if |q| >= 3 {
      OnTheWay(b, q, 3);
      OldBefore(cutoff, a, b, n, q[..3]);
    }
    if |q| >= 2 {
      OnTheWay(b, q, 2);
      OldBefore(cutoff, a, b, n, q[..2]);
    }
    forall j | 2 <= j <= |q| && Old(cutoff, b, q[..j]) ensures Old(cutoff, a, q[..j]) {
      OldBefore(cutoff, a, b, n, q[..j]);
    }
  }

  lemma ShedsTwice(cutoff: int, a: Node, b: Node, c: Node, n: nat)
    requires Sheds(cutoff, a, b, n) && Sheds(cutoff, b, c, n)
    ensures Sheds(cutoff, a, c, n)
  {
    hide MayGo, At;
    forall q ensures Follows(cutoff, At(a, q), At(c, q)) && (Gone(At(a, q), At(c, q)) ==> MayGo(cutoff, a, n, q)) {
      assert Follows(cutoff, At(a, q), At(b, q)) && Follows(cutoff, At(b, q), At(c, q));
      if Gone(At(a, q), At(c, q)) && At(b, q).Some? {
        MayGoBefore(cutoff, a, b, n, n, q);
      }
    }
  }

  lemma {:induction false} PythonsShed(env: Env, cutoff: int, root: Node, names: seq<string>)
    requires WellFormed(root) && env.now > cutoff
    ensures Sheds(cutoff, root, PrunePythons(env, cutoff, root, names).root, 2)
    decreases |names|
  {
    hide PrunePackages, WellFormed, At, Put, Sheds, MayGo;
    if names == [] {
      ShedsNothing(cutoff, root, 2);
    } else {
      var path := LIB + [names[0]];
      if HasDir(root, path) && PYTHON <= names[0] {
        var t := Within(root, path, PrunePackages(env, cutoff, names[0], At(root, path).value)).root;
        OnePythonSheds(env, cutoff, root, names[0]);
        OnePythonWellFormed(env, cutoff, root, names[0]);
        PythonsShed(env, cutoff, t, names[1..]);
        ShedsTwice(cutoff, root, t, PrunePythons(env, cutoff, t, names[1..]).root, 2);
      } else {
        PythonsShed(env, cutoff, root, names[1..]);
      }
    }
  }

  lemma OnePythonSheds(env: Env, cutoff: int, root: Node, name: string)
    requires WellFormed(root) && HasDir(root, LIB + [name]) && PYTHON <= name && env.now > cutoff
    ensures
      var path := LIB + [name];
      Sheds(cutoff, root, Within(root, path, PrunePackages(env, cutoff, name, At(root, path).value)).root, 2)
  {
    hide PrunePackages, WellFormed, At, Put, MayGo;
    var path := LIB + [name];
    var t := Within(root, path, PrunePackages(env, cutoff, name, At(root, path).value)).root;
    forall q ensures Follows(cutoff, At(root, q), At(t, q)) && (Gone(At(root, q), At(t, q)) ==> MayGo(cutoff, root, 2, q)) {
      OnePythonFollows(env, cutoff, root, name, q);
    }
  }

  lemma CacheFollows(env: Env, cutoff: int, root: Node, q: Path)
    requires WellFormed(root) && env.now > cutoff
    ensures
      var t := PruneCache(env, root).root;
      Follows(cutoff, At(root, q), At(t, q)) && (Gone(At(root, q), At(t, q)) ==> MayGo(cutoff, root, 1, q))
  {
    hide WellFormed, SweepDir;
    if HasDir(root, CACHE) {
      var dir := At(root, CACHE).value;
      WellFormedAt(root, CACHE);
      SweepDirKeepsDir(env, CACHE, dir, Everything);
      if CACHE <= q {
        SweepDirFollows(env, cutoff, CACHE, dir, Everything, q[1..]);
      }
      WithinFollows(cutoff, root, CACHE, SweepDir(env, CACHE, dir, Everything).root, q);
    }
  }

  lemma OtherLibFollows(env: Env, cutoff: int, root: Node, q: Path)
    requires WellFormed(root) && env.now > cutoff
    ensures
      var t := PruneOtherLib(env, cutoff, root).root;
      Follows(cutoff, At(root, q), At(t, q)) && (Gone(At(root, q), At(t, q)) ==> MayGo(cutoff, root, 3, q))
  {
    hide WellFormed, SweepDir;
    if HasDir(root, LIB) {
      var dir := At(root, LIB).value;
      var pick := LibPick(env, cutoff);
      WellFormedAt(root, LIB);
      SweepDirKeepsDir(env, LIB, dir, pick);
      if LIB <= q {
        SweepDirFollows(env, cutoff, LIB, dir, pick, q[2..]);
        if |q| >= 3 {
          assert q[..3] == LIB + [q[2]] && q[2..][0] == q[2] && [q[2]][1..] == [] && q[..2] == LIB;
          AtAppend(root, LIB, [q[2]]);
        }
      }
      WithinFollows(cutoff, root, LIB, SweepDir(env, LIB, dir, pick).root, q);
    }
  }

  lemma StaleLocalFollows(env: Env, cutoff: int, root: Node, q: Path)
    requires WellFormed(root) && env.now > cutoff
    ensures
      var t := PruneStaleLocal(env, cutoff, root).root;
      Follows(cutoff, At(root, q), At(t, q)) && (Gone(At(root, q), At(t, q)) ==> MayGo(cutoff, root, 4, q))
  {
    hide WellFormed, Prune;
    if HasDir(root, LOCAL) {
      var dir := At(root, LOCAL).value;
      WellFormedAt(root, LOCAL);
      PruneKeepsDir(env, cutoff, LOCAL, dir);
      if LOCAL <= q {
        var r := q[1..];
        assert q == LOCAL + r;
        PruneFollows(env, cutoff, LOCAL, dir, r);
        forall j | 1 <= j <= |r| && Old(cutoff, dir, r[..j]) ensures Old(cutoff, root, q[..j + 1]) {
          assert q[..j + 1] == LOCAL + r[..j];
          AtAppend(root, LOCAL, r[..j]);
        }
        if r != [] {
          assert q[..2] == LOCAL + r[..1];
          AtAppend(root, LOCAL, r[..1]);
        }
      }
      WithinFollows(cutoff, root, LOCAL, Prune(env, cutoff, LOCAL, dir).root, q);
    }
  }

  lemma PruneKeepsDir(env: Env, cutoff: int, path: Path, dir: Node)
    requires dir.Dir?
    ensures Prune(env, cutoff, path, dir).root.Dir?
  {
  }

  lemma TierSheds(k: nat, env: Env, cutoff: int, root: Node)
    requires WellFormed(root) && env.now > cutoff && 1 <= k <= 4
    ensures Sheds(cutoff, root, Tier(k, env, cutoff, root).root, k)
  {
    hide WellFormed, At, MayGo, PrunePythons, PruneCache, PruneOtherLib, PruneStaleLocal;
    var t := Tier(k, env, cutoff, root).root;
    if k == 2 {
      if HasDir(root, LIB) && !env.fails(Scan, LIB) {
        PythonsShed(env, cutoff, root, Names(At(root, LIB).value.entries));
      } else {
        ShedsNothing(cutoff, root, 2);
      }
    } else {
      forall q
        ensures Follows(cutoff, At(root, q), At(t, q)) && (Gone(At(root, q), At(t, q)) ==> MayGo(cutoff, root, k, q))
      {
        if k == 1 {
          CacheFollows(env, cutoff, root, q);
        } else if k == 3 {
          OtherLibFollows(env, cutoff, root, q);
        } else {
          StaleLocalFollows(env, cutoff, root, q);
        }
      }
    }
  }

  /** The clock is past the cutoff whenever a tier starts. */
  ghost predicate Late(cutoff: int, envs: nat -> Env) {
    forall k :: 1 <= k <= 4 ==> envs(k).now > cutoff
  }

  lemma {:induction false} TiersShed(envs: nat -> Env, cutoff: int, root: Node, j: nat, k: nat)
    requires WellFormed(root) && Late(cutoff, envs) && j <= k <= 4
    ensures WellFormed(Tiers(envs, cutoff, root, j).root)
    ensures Sheds(cutoff, Tiers(envs, cutoff, root, j).root, Tiers(envs, cutoff, root, k).root, k)
    decreases k
  {
    hide Tier, WellFormed, Sheds;
    var a := Tiers(envs, cutoff, root, j).root;
    if j < k {
      TiersShed(envs, cutoff, root, j, k - 1);
      TiersShed(envs, cutoff, root, k - 1, k - 1);
      var b := Tiers(envs, cutoff, root, k - 1).root;
      TierSheds(k, envs(k), cutoff, b);
      ShedsMore(cutoff, a, b, k - 1, k);
      ShedsTwice(cutoff, a, b, Tier(k, envs(k), cutoff, b).root, k);
    } else {
      ShedsNothing(cutoff, a, k);
      if k > 0 {
        TiersShed(envs, cutoff, root, k - 1, k - 1);
        TierWellFormed(k, envs(k), cutoff, Tiers(envs, cutoff, root, k - 1).root);
      }
    }
  }

  /**
   Whatever fails: of a node that was there before, other than the home directory itself, a run keeps
   files and links as they were, and what it deletes is what the tiers that were needed may delete.
   */
  lemma OnlyTheseMayGo(envs: nat -> Env, cutoff: int, budget: nat, root: Node, lock: Lock, q: Path)
    requires root.Dir? && WellFormed(root) && Late(cutoff, envs) && q != [] && q[0] != ".quota-walker.lock"
    ensures
      var end := Enforce(envs, cutoff, budget, root, lock).root;
      && Follows(cutoff, At(root, q), At(end, q))
      && (Gone(At(root, q), At(end, q)) ==> MayGo(cutoff, root, TiersRun(envs, cutoff, budget, root, lock), q))
  {
    hide WellFormed, Opened, Tiers, At, TiersNeeded, Measured, Reported, MayGo, Late;
    var start := Opened(envs(0).now, root, lock);
    OpenedWellFormed(envs(0).now, root, lock);
    OpenedSame(envs(0).now, root, lock, q);
    if lock != Busy {
      var n := TiersNeeded(envs, cutoff, budget, start, 0);
      NeededFits(envs, cutoff, budget, start, 0);
      NoTiers(envs, cutoff, start);
      TiersShed(envs, cutoff, start, 0, n);
      MayGoFromStart(envs(0).now, cutoff, root, lock, n, q);
    }
  }

  lemma MayGoFromStart(now: int, cutoff: int, root: Node, lock: Lock, n: nat, q: Path)
    requires root.Dir? && q != [] && q[0] != ".quota-walker.lock"
    ensures MayGo(cutoff, Opened(now, root, lock), n, q) ==> MayGo(cutoff, root, n, q)
  {
    hide Opened, At;
    forall j | 1 <= j <= |q| ensures At(Opened(now, root, lock), q[..j]) == At(root, q[..j]) {
      OpenedSame(now, root, lock, q[..j]);
    }
    if |q| >= 5 { assert Old(cutoff, Opened(now, root, lock), q[..5]) == Old(cutoff, root, q[..5]); }
  }

  // ---- What must go ----

  /** A never-touch name or directory lies on the way. */
  predicate Protected(q: Path) {
    exists k :: 0 <= k <= |q| && NeverTouch(q[..k])
  }

  /** A file of the tree after `n` fault-free tiers that they would not have left, but for protection. */
  predicate Overdue(cutoff: int, end: Node, n: nat, q: Path) {
    || (n >= 1 && [".cache"] < q)
    || (n >= 2 && |q| >= 5 && q[..2] == [".local", "lib"] && "python" <= q[2] && q[3] == "site-packages"
        && Old(cutoff, end, q[..5]))
    || (n >= 3 && |q| >= 3 && q[..2] == [".local", "lib"] && !("python" <= q[2] && IsDirAt(end, q[..3]))
        && Old(cutoff, end, q[..3]))
    || (n >= 4 && |q| >= 2 && q[0] == ".local" && q[1] != "bin" && Old(cutoff, end, q))
  }

  predicate IsFileAt(root: Node, q: Path) {
    At(root, q).Some? && !At(root, q).value.Dir?
  }

  lemma ShieldedIsProtected(p: Path, q: Path)
    requires p <= q && Shielded(p, q[|p|..])
    ensures Protected(q)
  {
    hide NeverTouch;
    var r := q[|p|..];
    var k :| 0 <= k <= |r| && NeverTouch(p + r[..k]);
    assert p + r[..k] == q[..|p| + k];
  }

  /** A file inside an entry that is a skeleton. */
  lemma SkeletonProtects(root: Node, q: Path, k: nat)
    requires k <= |q| && IsFileAt(root, q) && At(root, q[..k]).Some? && Skeleton(q[..k], At(root, q[..k]).value)
    ensures Protected(q)
  {
    hide Skeleton, NeverTouch, Shielded;
    assert q == q[..k] + q[k..];
    AtAppend(root, q[..k], q[k..]);
    SkeletonLeaf(q[..k], At(root, q[..k]).value, q[k..]);
    ShieldedIsProtected(q[..k], q);
  }

  /** The entry a path takes out of a directory. */
  lemma EntryAt(root: Node, q: Path, k: nat)
    requires k < |q| && At(root, q).Some?
    ensures HasDir(root, q[..k]) && At(root, q[..k + 1]).Some?
    ensures exists e :: e in At(root, q[..k]).value.entries && e.name == q[k] && e.node == At(root, q[..k + 1]).value
  {
    OnTheWay(root, q, k);
    OnTheWay(root, q, k + 1);
    assert q[..k + 1] == q[..k] + [q[k]];
    AtAppend(root, q[..k], [q[k]]);
    assert [q[k]][1..] == [];
    var dir := At(root, q[..k]).value;
    assert dir.entries[Find(dir.entries, q[k]).value] in dir.entries;
  }

  lemma CacheLeaf(root: Node, q: Path)
    requires CacheSettled(root) && IsFileAt(root, q) && [".cache"] < q
    ensures Protected(q)
  {
    hide Skeleton, NeverTouch, At, Protected;
    EntryAt(root, q, 1);
    assert q[..1] == CACHE && q[..2] == CACHE + [q[1]];
    var e :| e in At(root, q[..1]).value.entries && e.name == q[1] && e.node == At(root, q[..2]).value;
    SkeletonProtects(root, q, 2);
  }

  lemma PackageLeaf(cutoff: int, root: Node, q: Path)
    requires IsFileAt(root, q) && |q| >= 5 && q[..2] == [".local", "lib"] && q[3] == "site-packages"
    requires PackagesSettled(cutoff, root, q[2]) && Old(cutoff, root, q[..5])
    ensures Protected(q)
  {
    hide Skeleton, NeverTouch, At, Protected;
    EntryAt(root, q, 4);
    assert q[..4] == LIB + [q[2]] + [SITE_PACKAGES] && q[..5] == q[..4] + [q[4]];
    var e :| e in At(root, q[..4]).value.entries && e.name == q[4] && e.node == At(root, q[..5]).value;
    SkeletonProtects(root, q, 5);
  }

  lemma LibLeaf(cutoff: int, root: Node, q: Path)
    requires IsFileAt(root, q) && |q| >= 3 && q[..2] == [".local", "lib"]
    requires LibSettled(cutoff, root) && Old(cutoff, root, q[..3]) && !("python" <= q[2] && IsDirAt(root, q[..3]))
    ensures Protected(q)
  {
    hide Skeleton, NeverTouch, At, Protected;
    EntryAt(root, q, 2);
    assert q[..2] == LIB && q[..3] == q[..2] + [q[2]];
    var e :| e in At(root, q[..2]).value.entries && e.name == q[2] && e.node == At(root, q[..3]).value;
    SkeletonProtects(root, q, 3);
  }

  lemma LocalLeaf(cutoff: int, root: Node, q: Path)
    requires IsFileAt(root, q) && |q| >= 2 && q[0] == ".local" && q[1] != "bin"
    requires LocalSettled(cutoff, root) && Old(cutoff, root, q)
    ensures Protected(q)
  {
    hide Settled, NeverTouch, Protected, Shielded;
    assert q == LOCAL + q[1..] && q[..1] == LOCAL;
    AtAppend(root, LOCAL, q[1..]);
    AnchorsAreOrdinary(LOCAL);
    if !Shielded(LOCAL, q[1..]) {
      assert !(BIN <= q);
      SettledLeaf(cutoff, LOCAL, At(root, LOCAL).value, q[1..]);
      assert false;
    }
    ShieldedIsProtected(LOCAL, q);
  }

  lemma OtherLibSettles(env: Env, cutoff: int, root: Node)
    requires NoFaults(env)
    ensures LibSettled(cutoff, PruneOtherLib(env, cutoff, root).root)
  {
    hide Skeleton, Sweep;
    if HasDir(root, LIB) {
      var dir := At(root, LIB).value;
      var pick := LibPick(env, cutoff);
      SweepLeavesSkeleton(env, LIB, dir.entries, pick);
      AtPut(root, LIB, SweepDir(env, LIB, dir, pick).root, []);
      assert LIB + [] == LIB;
    }
  }

  /** After `k` tiers, tier `k`'s part of the tree is settled. */
  lemma TierSettles(envs: nat -> Env, cutoff: int, root: Node, k: nat)
    requires CalmAfter(cutoff, envs) && 1 <= k <= 4
    ensures
      var b := Tiers(envs, cutoff, root, k).root;
      && (k == 1 ==> CacheSettled(b))
      && (k == 2 ==> forall name :: PYTHON <= name ==> PackagesSettled(cutoff, b, name))
      && (k == 3 ==> LibSettled(cutoff, b))
      && (k == 4 ==> LocalSettled(cutoff, b))
  {
    hide CacheSettled, PackagesSettled, LibSettled, LocalSettled, NoFaults;
    hide PruneCache, PruneSitePackages, PruneOtherLib, PruneStaleLocal;
    assert NoFaults(envs(k));
    var a := Tiers(envs, cutoff, root, k - 1).root;
    if k == 1 {
      CacheSettles(envs(1), a);
    } else if k == 2 {
      forall name | PYTHON <= name ensures PackagesSettled(cutoff, Tiers(envs, cutoff, root, 2).root, name) {
        SitePackagesSettle(envs(2), cutoff, a, name);
      }
    } else if k == 3 {
      OtherLibSettles(envs(3), cutoff, a);
    } else {
      LocalSettles(envs(4), cutoff, a);
    }
  }

  /** A file is left by every tier that came before. */
  lemma FileBefore(cutoff: int, b: Node, end: Node, n: nat, q: Path)
    requires Sheds(cutoff, b, end, n) && IsFileAt(end, q)
    ensures IsFileAt(b, q)
  {
    hide At;
    assert Follows(cutoff, At(b, q), At(end, q));
  }

  lemma OverdueIsProtected(envs: nat -> Env, cutoff: int, root: Node, n: nat, q: Path)
    requires WellFormed(root) && CalmAfter(cutoff, envs) && n <= 4
    requires IsFileAt(Tiers(envs, cutoff, root, n).root, q) && Overdue(cutoff, Tiers(envs, cutoff, root, n).root, n, q)
    ensures Protected(q)
  {
    hide WellFormed, Tiers, At, Sheds, Protected, CacheSettled, PackagesSettled, LibSettled, LocalSettled, NoFaults;
    var end := Tiers(envs, cutoff, root, n).root;
    forall k: nat | 1 <= k <= n
      ensures Sheds(cutoff, Tiers(envs, cutoff, root, k).root, end, n) && IsFileAt(Tiers(envs, cutoff, root, k).root, q)
    {
      TiersShed(envs, cutoff, root, k, n);
      FileBefore(cutoff, Tiers(envs, cutoff, root, k).root, end, n, q);
    }
    if n >= 1 && [".cache"] < q {
      TierSettles(envs, cutoff, root, 1);
      CacheLeaf(Tiers(envs, cutoff, root, 1).root, q);
    } else if n >= 2 && |q| >= 5 && q[..2] == [".local", "lib"] && "python" <= q[2] && q[3] == "site-packages"
              && Old(cutoff, end, q[..5]) {
      TierSettles(envs, cutoff, root, 2);
      OldThen(cutoff, Tiers(envs, cutoff, root, 2).root, end, n, q[..5]);
      assert PYTHON <= q[2];
      assert PackagesSettled(cutoff, Tiers(envs, cutoff, root, 2).root, q[2]);
      PackageLeaf(cutoff, Tiers(envs, cutoff, root, 2).root, q);
    } else if n >= 3 && |q| >= 3 && q[..2] == [".local", "lib"] && Old(cutoff, end, q[..3])
              && !("python" <= q[2] && IsDirAt(end, q[..3])) {
      TierSettles(envs, cutoff, root, 3);
      OldThen(cutoff, Tiers(envs, cutoff, root, 3).root, end, n, q[..3]);
      LibLeaf(cutoff, Tiers(envs, cutoff, root, 3).root, q);
    } else {
      TierSettles(envs, cutoff, root, 4);
      LocalLeaf(cutoff, end, q);
    }
  }

  lemma OldThen(cutoff: int, b: Node, end: Node, n: nat, p: Path)
    requires Sheds(cutoff, b, end, n) && Old(cutoff, end, p)
    ensures Old(cutoff, b, p) && IsDirAt(b, p) == IsDirAt(end, p)
  {
    hide At, Sheds;
    OldBefore(cutoff, b, end, n, p);
  }

  /**
   Without faults, what the tiers that were needed had to delete is gone, as far as nothing
   never-touch lies on the way to it.
   */
  lemma TheseMustGo(envs: nat -> Env, cutoff: int, budget: nat, root: Node, lock: Lock, q: Path)
    requires root.Dir? && WellFormed(root) && CalmAfter(cutoff, envs) && lock != Busy
    ensures
      var end := Enforce(envs, cutoff, budget, root, lock).root;
      IsFileAt(end, q) && Overdue(cutoff, end, TiersRun(envs, cutoff, budget, root, lock), q) ==> Protected(q)
  {
    hide WellFormed, Opened, Tiers, At, TiersNeeded, Measured, Reported, Overdue, CalmAfter, Protected;
    var start := Opened(envs(0).now, root, lock);
    OpenedWellFormed(envs(0).now, root, lock);
    NeededFits(envs, cutoff, budget, start, 0);
    var end := Enforce(envs, cutoff, budget, root, lock).root;
    var n := TiersRun(envs, cutoff, budget, root, lock);
    if IsFileAt(end, q) && Overdue(cutoff, end, n, q) {
      OverdueIsProtected(envs, cutoff, start, n, q);
    }
  }

  /**
   A run works through the tiers until a scan fits the budget and no further: every scan before the
   last one exceeded it, and if the first one fits nothing happens. What is reported as the size
   after it is the first scan if that one fits, one more scan if a later one does, and else the last.
   A walker that finds the lock taken does nothing either, and says so.
   */
  lemma StopsAtTheFirstFit(envs: nat -> Env, cutoff: int, budget: nat, root: Node, lock: Lock)
    requires root.Dir?
    ensures
      var e := Enforce(envs, cutoff, budget, root, lock);
      var start := Opened(envs(0).now, root, lock);
      var n := TiersRun(envs, cutoff, budget, root, lock);
      && e.report.skipped == (lock == Busy)
      && (lock == Busy ==> e == Enforced(start, Report(0, 0, [], true)))
      && (lock != Busy ==>
            && n <= 4
            && e.root == Tiers(envs, cutoff, start, n).root && e.report.pruned == Tiers(envs, cutoff, start, n).pruned
            && e.report.before == Seen(envs(0).sight, [], start)
            && (forall j :: 0 <= j < n ==> Seen(envs(j).sight, [], Tiers(envs, cutoff, start, j).root) > budget)
            && (n < 4 ==> Seen(envs(n).sight, [], e.root) <= budget)
            && e.report.after == Seen(if n == 0 || n == 4 then envs(n).sight else envs(n).again, [], e.root)
            && (e.report.before <= budget ==> e == Enforced(start, Report(e.report.before, e.report.before, [], false))))
  {
    hide Tiers, Opened, Seen;
    var start := Opened(envs(0).now, root, lock);
    NeededFits(envs, cutoff, budget, start, 0);
    NoTiers(envs, cutoff, start);
    var e := Enforce(envs, cutoff, budget, root, lock);
    if lock != Busy && e.report.before <= budget {
      assert TiersNeeded(envs, cutoff, budget, start, 0) == 0;
      assert e.root == start && e.report.pruned == [] && e.report.after == e.report.before;
    }
  }
}
