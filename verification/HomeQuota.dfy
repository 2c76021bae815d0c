/**
 The four deletion tiers over a tenant's home directory and the quota enforcement that runs them
 in order until the tree fits its budget.
 */
module HomeQuota {
  import opened Wrappers
  import opened FileTree
  import opened HomePruner

  const CACHE: Path := [".cache"]
  const LOCAL: Path := [".local"]
  const LIB: Path := [".local", "lib"]
  const BIN: Path := [".local", "bin"]
  const SITE_PACKAGES := "site-packages"
  const PYTHON := "python"
  const LOCK_FILE := ".quota-walker.lock"

  /** The outcome of a tier: the tree after it, the reported paths and the bytes freed. */
  datatype Tiering = Tiering(root: Node, pruned: seq<Path>, freed: nat)

  // ---- The tiers ----

  predicate Stale(env: Env, path: Path, cutoff: int, e: Entry) {
    !env.fails(Stat, path + [e.name]) && e.node.mtime <= cutoff
  }

  predicate IsPython(e: Entry) {
    e.node.Dir? && PYTHON <= e.name
  }

  function StalePick(env: Env, path: Path, cutoff: int): Entry -> bool {
    (e: Entry) => Stale(env, path, cutoff, e)
  }

  function LibPick(env: Env, cutoff: int): Entry -> bool {
    (e: Entry) => !IsPython(e) && Stale(env, LIB, cutoff, e)
  }

  predicate IsBin(path: Path, e: Entry) {
    e.node.Dir? && path + [e.name] == BIN
  }

  function LocalPick(env: Env, path: Path, cutoff: int): Entry -> bool {
    (e: Entry) => !IsBin(path, e) && Stale(env, path, cutoff, e)
  }

  /** A recent directory is descended into rather than deleted. */
  predicate Descends(env: Env, path: Path, cutoff: int, e: Entry): (r: bool)
    ensures r ==> e.node.Dir?
  {
    && e.node.Dir? && !IsBin(path, e) && !NeverTouch(path + [e.name])
    && !env.fails(Stat, path + [e.name]) && e.node.mtime > cutoff
  }

  /** Delete the picked entries of one directory. */
  function SweepDir(env: Env, path: Path, dir: Node, pick: Entry -> bool): Tiering
    requires dir.Dir?
  {
    if env.fails(Scan, path) then Tiering(dir, [], 0)
    else
      var s := Sweep(env, path, dir.entries, pick);
      Tiering(Touched(env, dir, s.left), s.pruned, s.freed)
  }

  /** A tier that acts on the directory at `path`, if there is one. */
  function Within(root: Node, path: Path, t: Tiering): Tiering
    requires At(root, path).Some?
  {
    Tiering(Put(root, path, t.root), t.pruned, t.freed)
  }

  predicate HasDir(root: Node, path: Path) {
    At(root, path).Some? && At(root, path).value.Dir?
  }

  /** Tier 1: everything under `.cache`. */
  function PruneCache(env: Env, root: Node): Tiering {
    if !HasDir(root, CACHE) then Tiering(root, [], 0)
    else Within(root, CACHE, SweepDir(env, CACHE, At(root, CACHE).value, Everything))
  }

  /** The stale packages of one `python*` directory. */
  function PrunePackages(env: Env, cutoff: int, name: string, py: Node): Tiering {
    if !HasDir(py, [SITE_PACKAGES]) then Tiering(py, [], 0)
    else
      var path := LIB + [name] + [SITE_PACKAGES];
      Within(py, [SITE_PACKAGES], SweepDir(env, path, At(py, [SITE_PACKAGES]).value, StalePick(env, path, cutoff)))
  }

  /** Tier 2: stale entries of `.local/lib/python*` + `/site-packages`, one python directory after the other. */
  function PrunePythons(env: Env, cutoff: int, root: Node, names: seq<string>): Tiering
    decreases |names|
  {
    if names == [] then Tiering(root, [], 0)
    else
      var path := LIB + [names[0]];
      if !HasDir(root, path) || !(PYTHON <= names[0]) then PrunePythons(env, cutoff, root, names[1..])
      else
        var t := Within(root, path, PrunePackages(env, cutoff, names[0], At(root, path).value));
        var rest := PrunePythons(env, cutoff, t.root, names[1..]);
        Tiering(rest.root, t.pruned + rest.pruned, t.freed + rest.freed)
  }

  function Names(es: seq<Entry>): (ns: seq<string>)
    ensures |ns| == |es| && forall i :: 0 <= i < |es| ==> ns[i] == es[i].name
  {
    if es == [] then [] else [es[0].name] + Names(es[1..])
  }

  function PruneSitePackages(env: Env, cutoff: int, root: Node): Tiering {
    if !HasDir(root, LIB) || env.fails(Scan, LIB) then Tiering(root, [], 0)
    else PrunePythons(env, cutoff, root, Names(At(root, LIB).value.entries))
  }

  /** Tier 3: stale entries of `.local/lib` other than python directories. */
  function PruneOtherLib(env: Env, cutoff: int, root: Node): Tiering {
    if !HasDir(root, LIB) then Tiering(root, [], 0)
    else Within(root, LIB, SweepDir(env, LIB, At(root, LIB).value, LibPick(env, cutoff)))
  }

  /** Tier 4 on one directory and, below it, on every recent subdirectory. */
  function Prune(env: Env, cutoff: int, path: Path, dir: Node): Tiering
    requires dir.Dir?
    decreases dir, 1
  {
    if env.fails(Scan, path) then Tiering(dir, [], 0)
    else
      var s := Sweep(env, path, dir.entries, LocalPick(env, path, cutoff));
      var below := PruneBelow(env, cutoff, path, dir.entries);
      Tiering(Touched(env, dir, below.left), s.pruned + below.pruned, s.freed + below.freed)
  }

  /** The entries after tier 4; deletions below subdirectories come last directory first. */
  function PruneBelow(env: Env, cutoff: int, path: Path, es: seq<Entry>): Sweeping
    decreases es, 0
  {
    if es == [] then Sweeping([], [], 0)
    else
      var e := es[0];
      var p := path + [e.name];
      var rest := PruneBelow(env, cutoff, path, es[1..]);
      if Descends(env, path, cutoff, e) then
        var t := Prune(env, cutoff, p, e.node);
        Sweeping([Entry(e.name, t.root)] + rest.left, rest.pruned + t.pruned, rest.freed + t.freed)
      else if LocalPick(env, path, cutoff)(e) then
        var left := RmTree(env, p, e.node).left;
        Sweeping(if left.Some? then [Entry(e.name, left.value)] + rest.left else rest.left, rest.pruned, rest.freed)
      else
        Sweeping([e] + rest.left, rest.pruned, rest.freed)
  }

  /** Tier 4: anything stale under `.local`, `.local/bin` excepted. */
  function PruneStaleLocal(env: Env, cutoff: int, root: Node): Tiering {
    if !HasDir(root, LOCAL) then Tiering(root, [], 0)
    else Within(root, LOCAL, Prune(env, cutoff, LOCAL, At(root, LOCAL).value))
  }

  // ---- Shrinking: what every tier does to the tree ----

  /**
   From `a` to `b`, both at `path`: nothing appears, surviving files and links are unchanged, the
   report lists exactly the non-empty files that are gone, each once, and their sizes add up to the
   difference.
   */
  ghost predicate Shrinks(path: Path, a: Node, b: Node, pruned: seq<Path>, freed: nat) {
    && WellFormed(b) && LinkFree(b)
    && OnlyLoses(path, a, b, pruned)
    && (forall p :: p in pruned ==> path <= p)
    && NoRepeats(pruned)
    && Size(a) == Size(b) + freed
    && freed == Total(a, |path|, pruned)
  }

  /** At one path below `path`: nothing new, no change but to a directory, and reported iff a non-empty file is gone. */
  ghost predicate PathLoses(path: Path, a: Node, b: Node, pruned: seq<Path>, q: Path) {
    && (At(b, q).Some? ==>
          && At(a, q).Some? && At(a, q).value.Dir? == At(b, q).value.Dir?
          && (!At(b, q).value.Dir? ==> At(b, q) == At(a, q)))
    && (path + q in pruned <==> NonEmptyFile(At(a, q)) && At(b, q) == None)
  }

  ghost predicate OnlyLoses(path: Path, a: Node, b: Node, pruned: seq<Path>) {
    forall q :: PathLoses(path, a, b, pruned, q)
  }

  lemma ShrinksNothing(path: Path, a: Node)
    requires WellFormed(a) && LinkFree(a)
    ensures Shrinks(path, a, a, [], 0)
  {
  }

  lemma ShrinksTwice(path: Path, a: Node, b: Node, c: Node, ps: seq<Path>, qs: seq<Path>, f: nat, g: nat)
    requires Shrinks(path, a, b, ps, f) && Shrinks(path, b, c, qs, g)
    ensures Shrinks(path, a, c, ps + qs, f + g)
  {
    hide WellFormed, LinkFree, Size, Total, FileSize, At, NoRepeats, NonEmptyFile;
    forall p ensures p in qs ==> p !in ps {
      TwiceAt(path, a, b, c, ps, qs, f, g, p);
    }
    hide PathLoses;
    forall q ensures PathLoses(path, a, c, ps + qs, q) {
      TwiceFacts(path, a, b, c, ps, qs, f, g, q);
    }
    AppendNoRepeats(ps, qs);
    TotalsTwice(path, a, b, c, ps, qs, f, g);
  }

  lemma TwiceFacts(path: Path, a: Node, b: Node, c: Node, ps: seq<Path>, qs: seq<Path>, f: nat, g: nat, q: Path)
    requires Shrinks(path, a, b, ps, f) && Shrinks(path, b, c, qs, g)
    ensures PathLoses(path, a, c, ps + qs, q)
    ensures path + q in qs ==> path + q !in ps && FileSize(a, q) == FileSize(b, q)
  {
    hide Shrinks, At;
    ShrinksAt(path, a, b, ps, f, q);
    ShrinksAt(path, b, c, qs, g, q);
  }

  lemma TwiceAt(path: Path, a: Node, b: Node, c: Node, ps: seq<Path>, qs: seq<Path>, f: nat, g: nat, p: Path)
    requires Shrinks(path, a, b, ps, f) && Shrinks(path, b, c, qs, g)
    ensures p in qs ==> path <= p && p !in ps && FileSize(a, p[|path|..]) == FileSize(b, p[|path|..])
  {
    hide Shrinks, FileSize;
    if p in qs {
      PrunedPrefix(path, b, c, qs, g, p);
      assert path + p[|path|..] == p;
      TwiceFacts(path, a, b, c, ps, qs, f, g, p[|path|..]);
    }
  }

  lemma TotalsTwice(path: Path, a: Node, b: Node, c: Node, ps: seq<Path>, qs: seq<Path>, f: nat, g: nat)
    requires Shrinks(path, a, b, ps, f) && Shrinks(path, b, c, qs, g)
    ensures f + g == Total(a, |path|, ps + qs)
  {
    hide WellFormed, LinkFree, Size, Total, FileSize, At, NoRepeats, NonEmptyFile;
    forall p | p in qs ensures path <= p && FileSize(a, p[|path|..]) == FileSize(b, p[|path|..]) {
      TwiceAt(path, a, b, c, ps, qs, f, g, p);
    }
    TotalSame(a, |path|, b, |path|, qs);
    TotalAppend(a, |path|, ps, qs);
  }

  /** Shrinking a directory inside a tree shrinks the tree. */
  lemma ShrinksInside(base: Path, n: Node, rel: Path, m: Node, pruned: seq<Path>, freed: nat)
    requires WellFormed(n) && LinkFree(n) && At(n, rel).Some?
    requires Shrinks(base + rel, At(n, rel).value, m, pruned, freed)
    requires At(n, rel).value.Dir? == m.Dir?
    ensures Shrinks(base, n, Put(n, rel, m), pruned, freed)
  {
    hide WellFormed, LinkFree, Size, Total, At, Put, FileSize, NonEmptyFile, NoRepeats;
    WellFormedPut(n, rel, m);
    LinkFreePut(n, rel, m);
    SizePut(n, rel, m);
    InsidePaths(base, n, rel, m, pruned, freed);
    InsideTotal(base, n, rel, m, pruned, freed);
  }

  lemma InsidePaths(base: Path, n: Node, rel: Path, m: Node, pruned: seq<Path>, freed: nat)
    requires At(n, rel).Some? && Shrinks(base + rel, At(n, rel).value, m, pruned, freed)
    ensures OnlyLoses(base, n, Put(n, rel, m), pruned)
  {
    hide Shrinks, At, Put, NonEmptyFile;
    forall q ensures PathLoses(base, n, Put(n, rel, m), pruned, q) {
      InsideAt(base, n, rel, m, pruned, freed, q);
    }
  }

  lemma InsideTotal(base: Path, n: Node, rel: Path, m: Node, pruned: seq<Path>, freed: nat)
    requires At(n, rel).Some? && Shrinks(base + rel, At(n, rel).value, m, pruned, freed)
    ensures forall p :: p in pruned ==> base <= p
    ensures freed == Total(n, |base|, pruned)
  {
    hide WellFormed, LinkFree, Size, Total, At, NonEmptyFile, NoRepeats;
    var sub := At(n, rel).value;
    forall p | p in pruned
      ensures base <= p && FileSize(n, p[|base|..]) == FileSize(sub, p[|base + rel|..])
    {
      assert base + rel <= p;
      var r := p[|base + rel|..];
      assert p[|base|..] == rel + r;
      AtAppend(n, rel, r);
    }
    TotalSame(n, |base|, sub, |base + rel|, pruned);
  }

  lemma NotBelow(base: Path, rel: Path, q: Path)
    ensures base + rel <= base + q <==> rel <= q
  {
    assert (base + q)[|base|..] == q && (base + rel)[|base|..] == rel;
  }

  lemma InsideAt(base: Path, n: Node, rel: Path, m: Node, pruned: seq<Path>, freed: nat, q: Path)
    requires At(n, rel).Some? && Shrinks(base + rel, At(n, rel).value, m, pruned, freed)
    ensures PathLoses(base, n, Put(n, rel, m), pruned, q)
  {
    hide Shrinks, At, Put, PathLoses;
    if rel <= q {
      assert q == rel + q[|rel|..];
      InsideBelow(base, n, rel, m, pruned, freed, q[|rel|..]);
    } else {
      NotBelow(base, rel, q);
      if base + q in pruned {
        PrunedPrefix(base + rel, At(n, rel).value, m, pruned, freed, base + q);
      }
      InsideElsewhere(base, n, rel, m, pruned, q);
    }
  }

  lemma PrunedPrefix(path: Path, a: Node, b: Node, pruned: seq<Path>, freed: nat, p: Path)
    requires Shrinks(path, a, b, pruned, freed) && p in pruned
    ensures path <= p
  {
    hide WellFormed, LinkFree, Size, Total, NoRepeats;
  }

  lemma InsideBelow(base: Path, n: Node, rel: Path, m: Node, pruned: seq<Path>, freed: nat, r: Path)
    requires At(n, rel).Some? && Shrinks(base + rel, At(n, rel).value, m, pruned, freed)
    ensures PathLoses(base, n, Put(n, rel, m), pruned, rel + r)
  {
    hide Shrinks, At, Put;
    assert base + (rel + r) == base + rel + r;
    AtPut(n, rel, m, r);
    AtAppend(n, rel, r);
    ShrinksAt(base + rel, At(n, rel).value, m, pruned, freed, r);
  }

  lemma InsideElsewhere(base: Path, n: Node, rel: Path, m: Node, pruned: seq<Path>, q: Path)
    requires At(n, rel).Some? && !(rel <= q) && base + q !in pruned
    ensures PathLoses(base, n, Put(n, rel, m), pruned, q)
  {
    hide At, Put;
    if q < rel {
      AtPutAbove(n, rel, m, q);
    } else {
      AtPutApart(n, rel, m, q);
    }
  }

  // ---- Each tier shrinks the tree ----

  /** A path through a listed entry. */
  lemma SweepThrough(env: Env, path: Path, dir: Node, pick: Entry -> bool, q: Path)
    requires dir.Dir? && WellFormed(dir) && NoSizeFaults(env) && !env.fails(Scan, path)
    requires q != [] && Find(dir.entries, q[0]).Some?
    ensures var t := SweepDir(env, path, dir, pick); PathLoses(path, dir, t.root, t.pruned, q)
  {
    hide WellFormed, RmTree, Sweep;
    var es := dir.entries;
    var e := es[Find(es, q[0]).value];
    WellFormedEntries(dir);
    assert path + q == (path + [q[0]]) + q[1..];
    SweepMember(env, path, es, pick, q[0], path + q);
    SweepFind(env, path, es, pick, q[0]);
    if pick(e) {
      PrunedExactly(env, path + [q[0]], e.node, q[1..]);
      if AtOpt(RmTree(env, path + [q[0]], e.node).left, q[1..]).Some? {
        NothingNew(env, path + [q[0]], e.node, q[1..]);
      }
    }
  }

  lemma SweepDirAt(env: Env, path: Path, dir: Node, pick: Entry -> bool, q: Path)
    requires dir.Dir? && WellFormed(dir) && NoSizeFaults(env)
    ensures var t := SweepDir(env, path, dir, pick); PathLoses(path, dir, t.root, t.pruned, q)
  {
    hide WellFormed, Sweep;
    if !env.fails(Scan, path) {
      if q == [] {
        assert path + q == path;
        SweepPrunedBelow(env, path, dir.entries, pick);
      } else if Find(dir.entries, q[0]).Some? {
        SweepThrough(env, path, dir, pick, q);
      } else {
        WellFormedEntries(dir);
        assert path + q == (path + [q[0]]) + q[1..];
        SweepMember(env, path, dir.entries, pick, q[0], path + q);
        SweepNames(env, path, dir.entries, pick, q[0]);
      }
    }
  }

  lemma WellFormedEntries(dir: Node)
    requires dir.Dir? && WellFormed(dir)
    ensures DistinctNames(dir.entries)
    ensures forall e :: e in dir.entries ==> WellFormed(e.node)
    ensures forall i :: 0 <= i < |dir.entries| ==> WellFormed(dir.entries[i].node)
  {
  }

  lemma SweepDirShrinks(env: Env, path: Path, dir: Node, pick: Entry -> bool)
    requires dir.Dir? && WellFormed(dir) && LinkFree(dir) && NoSizeFaults(env)
    ensures var t := SweepDir(env, path, dir, pick); Shrinks(path, dir, t.root, t.pruned, t.freed)
  {
    var t := SweepDir(env, path, dir, pick);
    if env.fails(Scan, path) {
      ShrinksNothing(path, dir);
    } else {
      hide WellFormed, LinkFree, NoRepeats, Total, At, NonEmptyFile, Sweep;
      forall q ensures PathLoses(path, dir, t.root, t.pruned, q) {
        SweepDirAt(env, path, dir, pick, q);
      }
      SweepDirShape(env, path, dir, pick);
      SweepDirSizes(env, path, dir, pick);
    }
  }

  lemma SweepDirShape(env: Env, path: Path, dir: Node, pick: Entry -> bool)
    requires dir.Dir? && WellFormed(dir) && LinkFree(dir) && !env.fails(Scan, path)
    ensures var t := SweepDir(env, path, dir, pick); WellFormed(t.root) && LinkFree(t.root) && NoRepeats(t.pruned)
  {
    hide Sweep, NoRepeats;
    var t := SweepDir(env, path, dir, pick);
    SweepWellFormed(env, path, dir.entries, pick);
    LinkFreeEntries(dir);
    SweepLinkFree(env, path, dir.entries, pick);
    LinkFreeEntries(t.root);
    SweepPrunedOnce(env, path, dir.entries, pick);
  }

  lemma SweepDirSizes(env: Env, path: Path, dir: Node, pick: Entry -> bool)
    requires dir.Dir? && WellFormed(dir) && LinkFree(dir) && NoSizeFaults(env) && !env.fails(Scan, path)
    ensures
      var t := SweepDir(env, path, dir, pick);
      && (forall p :: p in t.pruned ==> path <= p)
      && Size(dir) == Size(t.root) + t.freed && t.freed == Total(dir, |path|, t.pruned)
  {
    hide Sweep, Total;
    LinkFreeEntries(dir);
    SweepPrunedBelow(env, path, dir.entries, pick);
    SweepSizeConserved(env, path, dir.entries, pick);
    SweepFreedAddsUp(env, path, dir.entries, pick);
    ListedTotal(path, dir, SweepDir(env, path, dir, pick).pruned);
  }

  /** A directory's mtime is irrelevant to what lies below it. */
  lemma ListedTotal(path: Path, dir: Node, pruned: seq<Path>)
    requires dir.Dir? && forall p :: p in pruned ==> path < p
    ensures Total(dir, |path|, pruned) == Total(Dir(0, dir.entries), |path|, pruned)
  {
    TotalSame(dir, |path|, Dir(0, dir.entries), |path|, pruned);
  }

  lemma ShrinksWithin(base: Path, n: Node, rel: Path, t: Tiering, path: Path)
    requires WellFormed(n) && LinkFree(n) && HasDir(n, rel) && path == base + rel
    requires Shrinks(path, At(n, rel).value, t.root, t.pruned, t.freed)
    ensures var u := Within(n, rel, t); Shrinks(base, n, u.root, u.pruned, u.freed)
  {
    ShrinksKeepsShape(path, At(n, rel).value, t.root, t.pruned, t.freed);
    ShrinksInside(base, n, rel, t.root, t.pruned, t.freed);
  }

  lemma CacheShrinks(env: Env, root: Node)
    requires WellFormed(root) && LinkFree(root) && NoSizeFaults(env)
    ensures var t := PruneCache(env, root); Shrinks([], root, t.root, t.pruned, t.freed)
  {
    hide Shrinks, WellFormed, LinkFree;
    if HasDir(root, CACHE) {
      WellFormedAt(root, CACHE);
      LinkFreeAt(root, CACHE);
      SweepDirShrinks(env, CACHE, At(root, CACHE).value, Everything);
      ShrinksWithin([], root, CACHE, SweepDir(env, CACHE, At(root, CACHE).value, Everything), CACHE);
    } else {
      ShrinksNothing([], root);
    }
  }

  lemma OtherLibShrinks(env: Env, cutoff: int, root: Node)
    requires WellFormed(root) && LinkFree(root) && NoSizeFaults(env)
    ensures var t := PruneOtherLib(env, cutoff, root); Shrinks([], root, t.root, t.pruned, t.freed)
  {
    hide Shrinks, WellFormed, LinkFree;
    if HasDir(root, LIB) {
      WellFormedAt(root, LIB);
      LinkFreeAt(root, LIB);
      SweepDirShrinks(env, LIB, At(root, LIB).value, LibPick(env, cutoff));
      ShrinksWithin([], root, LIB, SweepDir(env, LIB, At(root, LIB).value, LibPick(env, cutoff)), LIB);
    } else {
      ShrinksNothing([], root);
    }
  }

  lemma PackagesShrink(env: Env, cutoff: int, name: string, py: Node)
    requires WellFormed(py) && LinkFree(py) && NoSizeFaults(env)
    ensures var t := PrunePackages(env, cutoff, name, py); Shrinks(LIB + [name], py, t.root, t.pruned, t.freed)
  {
    hide Shrinks, WellFormed, LinkFree;
    if HasDir(py, [SITE_PACKAGES]) {
      var path := LIB + [name] + [SITE_PACKAGES];
      var dir := At(py, [SITE_PACKAGES]).value;
      WellFormedAt(py, [SITE_PACKAGES]);
      LinkFreeAt(py, [SITE_PACKAGES]);
      SweepDirShrinks(env, path, dir, StalePick(env, path, cutoff));
      ShrinksWithin(LIB + [name], py, [SITE_PACKAGES], SweepDir(env, path, dir, StalePick(env, path, cutoff)), path);
    } else {
      ShrinksNothing(LIB + [name], py);
    }
  }

  lemma ShrinksKeepsShape(path: Path, a: Node, b: Node, pruned: seq<Path>, freed: nat)
    requires Shrinks(path, a, b, pruned, freed)
    ensures WellFormed(b) && LinkFree(b) && a.Dir? == b.Dir?
  {
    ShrinksAt(path, a, b, pruned, freed, []);
  }

  lemma {:induction false} PythonsShrink(env: Env, cutoff: int, root: Node, names: seq<string>)
    requires WellFormed(root) && LinkFree(root) && NoSizeFaults(env)
    ensures var t := PrunePythons(env, cutoff, root, names); Shrinks([], root, t.root, t.pruned, t.freed)
    decreases |names|
  {
    hide Shrinks, WellFormed, LinkFree, PrunePackages;
    if names == [] {
      ShrinksNothing([], root);
    } else {
      var path := LIB + [names[0]];
      if HasDir(root, path) && PYTHON <= names[0] {
        WellFormedAt(root, path);
        LinkFreeAt(root, path);
        PackagesShrink(env, cutoff, names[0], At(root, path).value);
        var t := Within(root, path, PrunePackages(env, cutoff, names[0], At(root, path).value));
        ShrinksWithin([], root, path, PrunePackages(env, cutoff, names[0], At(root, path).value), path);
        ShrinksKeepsShape([], root, t.root, t.pruned, t.freed);
        var rest := PrunePythons(env, cutoff, t.root, names[1..]);
        PythonsShrink(env, cutoff, t.root, names[1..]);
        ShrinksTwice([], root, t.root, rest.root, t.pruned, rest.pruned, t.freed, rest.freed);
      } else {
        PythonsShrink(env, cutoff, root, names[1..]);
      }
    }
  }

  lemma SitePackagesShrinks(env: Env, cutoff: int, root: Node)
    requires WellFormed(root) && LinkFree(root) && NoSizeFaults(env)
    ensures var t := PruneSitePackages(env, cutoff, root); Shrinks([], root, t.root, t.pruned, t.freed)
  {
    hide Shrinks, WellFormed, LinkFree, PrunePythons;
    if HasDir(root, LIB) && !env.fails(Scan, LIB) {
      PythonsShrink(env, cutoff, root, Names(At(root, LIB).value.entries));
    } else {
      ShrinksNothing([], root);
    }
  }

  // ---- Tier 4 ----

  /** What tier 4 makes of one entry. */
  function EntryAfter(env: Env, cutoff: int, path: Path, e: Entry): Option<Node> {
    var p := path + [e.name];
    if Descends(env, path, cutoff, e) then Some(Prune(env, cutoff, p, e.node).root)
    else if LocalPick(env, path, cutoff)(e) then RmTree(env, p, e.node).left
    else Some(e.node)
  }

  /** Tier 4 on the first entry and on the others. */
  lemma BelowHead(env: Env, cutoff: int, path: Path, es: seq<Entry>)
    requires es != []
    ensures
      var e := es[0];
      var after := EntryAfter(env, cutoff, path, e);
      var s, rest := PruneBelow(env, cutoff, path, es), PruneBelow(env, cutoff, path, es[1..]);
      && s.left == (if after.Some? then [Entry(e.name, after.value)] else []) + rest.left
      && (Descends(env, path, cutoff, e) ==>
            var t := Prune(env, cutoff, path + [e.name], e.node);
            s.pruned == rest.pruned + t.pruned && s.freed == rest.freed + t.freed)
      && (!Descends(env, path, cutoff, e) ==> s.pruned == rest.pruned && s.freed == rest.freed)
  {
    hide Prune, RmTree, Descends, LocalPick;
  }

  lemma NothingBelow(env: Env, cutoff: int, path: Path)
    ensures PruneBelow(env, cutoff, path, []) == Sweeping([], [], 0)
  {
  }

  lemma {:induction false} BelowNames(env: Env, cutoff: int, path: Path, es: seq<Entry>, name: string)
    ensures
      var left := PruneBelow(env, cutoff, path, es).left;
      && (Find(es, name) == None ==> Find(left, name) == None)
      && |left| == |Sweep(env, path, es, LocalPick(env, path, cutoff)).left| <= |es|
    decreases |es|
  {
    if es != [] {
      BelowNames(env, cutoff, path, es[1..], name);
    }
  }

  lemma {:induction false} BelowFind(env: Env, cutoff: int, path: Path, es: seq<Entry>, name: string)
    requires DistinctNames(es) && Find(es, name).Some?
    ensures
      var c := EntryAfter(env, cutoff, path, es[Find(es, name).value]);
      var left := PruneBelow(env, cutoff, path, es).left;
      && (c == None <==> Find(left, name) == None)
      && (c.Some? ==> left[Find(left, name).value].node == c.value)
    decreases |es|
  {
    hide Prune, Descends, LocalPick, RmTree;
    var left := PruneBelow(env, cutoff, path, es).left;
    var rest := PruneBelow(env, cutoff, path, es[1..]).left;
    if es[0].name == name {
      HeadNotInTail(es);
      BelowNames(env, cutoff, path, es[1..], name);
    } else {
      BelowFind(env, cutoff, path, es[1..], name);
      if left != rest {
        assert left[1..] == rest;
      }
    }
  }

  lemma {:induction false} BelowPrunedBelow(env: Env, cutoff: int, path: Path, es: seq<Entry>)
    requires KidsShrink(env, cutoff, path, es)
    ensures forall p :: p in PruneBelow(env, cutoff, path, es).pruned ==> path < p && Find(es, p[|path|]).Some?
    decreases |es|
  {
    hide Prune, Descends, LocalPick, RmTree, Shrinks;
    if es != [] {
      KidsTail(env, cutoff, path, es);
      BelowPrunedBelow(env, cutoff, path, es[1..]);
      var child := path + [es[0].name];
      if Descends(env, path, cutoff, es[0]) {
        var t := Prune(env, cutoff, child, es[0].node);
        ShrinksPrefix(child, es[0].node, t.root, t.pruned, t.freed);
        forall p | p in t.pruned ensures path < p && p[|path|] == es[0].name {
          assert child <= p;
          assert p[|path|] == child[|path|];
        }
      }
    }
  }

  lemma ShrinksPrefix(path: Path, a: Node, b: Node, pruned: seq<Path>, freed: nat)
    requires Shrinks(path, a, b, pruned, freed)
    ensures forall p :: p in pruned ==> path <= p
    ensures NoRepeats(pruned) && Size(a) == Size(b) + freed && freed == Total(a, |path|, pruned)
  {
  }

  ghost predicate KidsShrink(env: Env, cutoff: int, path: Path, es: seq<Entry>) {
    forall e :: e in es && Descends(env, path, cutoff, e) ==>
      var t := Prune(env, cutoff, path + [e.name], e.node);
      Shrinks(path + [e.name], e.node, t.root, t.pruned, t.freed)
  }

  lemma KidsTail(env: Env, cutoff: int, path: Path, es: seq<Entry>)
    requires es != [] && KidsShrink(env, cutoff, path, es)
    ensures KidsShrink(env, cutoff, path, es[1..])
    ensures Descends(env, path, cutoff, es[0]) ==>
      var t := Prune(env, cutoff, path + [es[0].name], es[0].node);
      Shrinks(path + [es[0].name], es[0].node, t.root, t.pruned, t.freed)
  {
    hide Prune, Descends, Shrinks;
    assert forall e :: e in es[1..] ==> e in es;
    assert es[0] in es;
  }

  lemma {:induction false} BelowMember(env: Env, cutoff: int, path: Path, es: seq<Entry>, name: string, p: Path)
    requires DistinctNames(es) && path + [name] <= p && KidsShrink(env, cutoff, path, es)
    ensures p in PruneBelow(env, cutoff, path, es).pruned <==>
      && Find(es, name).Some?
      && Descends(env, path, cutoff, es[Find(es, name).value])
      && p in Prune(env, cutoff, path + [name], es[Find(es, name).value].node).pruned
    decreases |es|
  {
    hide Prune, Descends, LocalPick, RmTree, Shrinks;
    assert p[|path|] == (path + [name])[|path|];
    if es != [] {
      KidsTail(env, cutoff, path, es);
      BelowMember(env, cutoff, path, es[1..], name, p);
      HeadNotInTail(es);
      var child := path + [es[0].name];
      if Descends(env, path, cutoff, es[0]) {
        var t := Prune(env, cutoff, child, es[0].node);
        ShrinksPrefix(child, es[0].node, t.root, t.pruned, t.freed);
        if es[0].name != name {
          assert child[|path|] != p[|path|];
        }
      }
    }
  }

  lemma {:induction false} BelowOnce(env: Env, cutoff: int, path: Path, es: seq<Entry>)
    requires DistinctNames(es) && KidsShrink(env, cutoff, path, es)
    ensures NoRepeats(PruneBelow(env, cutoff, path, es).pruned)
    decreases |es|
  {
    hide Prune, Descends, LocalPick, RmTree, Shrinks;
    if es != [] {
      KidsTail(env, cutoff, path, es);
      BelowOnce(env, cutoff, path, es[1..]);
      var child := path + [es[0].name];
      if Descends(env, path, cutoff, es[0]) {
        var t := Prune(env, cutoff, child, es[0].node);
        var rest := PruneBelow(env, cutoff, path, es[1..]).pruned;
        ShrinksPrefix(child, es[0].node, t.root, t.pruned, t.freed);
        BelowPrunedBelow(env, cutoff, path, es[1..]);
        HeadNotInTail(es);
        forall p | p in rest ensures p !in t.pruned {
          assert p[|path|] != child[|path|];
        }
        AppendNoRepeats(rest, t.pruned);
      }
    }
  }

  lemma {:induction false} BelowWellFormed(env: Env, cutoff: int, path: Path, es: seq<Entry>)
    requires DistinctNames(es) && AllLinkFree(es) && KidsShrink(env, cutoff, path, es)
    requires forall e :: e in es ==> WellFormed(e.node)
    ensures
      var left := PruneBelow(env, cutoff, path, es).left;
      DistinctNames(left) && AllLinkFree(left) && forall e :: e in left ==> WellFormed(e.node)
    decreases |es|
  {
    hide Prune, Descends, LocalPick, RmTree, Shrinks, WellFormed, LinkFree;
    if es != [] {
      assert forall e :: e in es[1..] ==> e in es;
      KidsTail(env, cutoff, path, es);
      BelowWellFormed(env, cutoff, path, es[1..]);
      HeadNotInTail(es);
      BelowNames(env, cutoff, path, es[1..], es[0].name);
      var child := path + [es[0].name];
      if Descends(env, path, cutoff, es[0]) {
        var t := Prune(env, cutoff, child, es[0].node);
        ShrinksKeepsShape(child, es[0].node, t.root, t.pruned, t.freed);
      } else {
        RmTreeWellFormed(env, child, es[0].node);
        RmTreeLinkFree(env, child, es[0].node);
      }
    }
  }

  /** Sizes over one directory: what the sweep frees here and what is freed below add up. */
  lemma {:induction false} BelowSizes(env: Env, cutoff: int, path: Path, es: seq<Entry>)
    requires NoSizeFaults(env) && AllLinkFree(es) && KidsShrink(env, cutoff, path, es)
    ensures SizeAll(es) ==
      SizeAll(PruneBelow(env, cutoff, path, es).left)
      + Sweep(env, path, es, LocalPick(env, path, cutoff)).freed + PruneBelow(env, cutoff, path, es).freed
    decreases |es|
  {
    if es != [] {
      hide PruneBelow, Sweep, KidsShrink, LinkFree, Size, EntryAfter, NoSizeFaults;
      assert forall e :: e in es[1..] ==> e in es;
      assert LinkFree(es[0].node);
      KidsTail(env, cutoff, path, es);
      BelowSizes(env, cutoff, path, es[1..]);
      EntrySizes(env, cutoff, path, es);
    }
  }

  /** The sizes over one entry, on top of those over the others. */
  lemma EntrySizes(env: Env, cutoff: int, path: Path, es: seq<Entry>)
    requires es != [] && NoSizeFaults(env) && LinkFree(es[0].node)
    requires Descends(env, path, cutoff, es[0]) ==>
      var t := Prune(env, cutoff, path + [es[0].name], es[0].node);
      Shrinks(path + [es[0].name], es[0].node, t.root, t.pruned, t.freed)
    ensures
      var pick := LocalPick(env, path, cutoff);
      var s, rest := PruneBelow(env, cutoff, path, es), PruneBelow(env, cutoff, path, es[1..]);
      SizeAll(s.left) + Sweep(env, path, es, pick).freed + s.freed
        == Size(es[0].node) + SizeAll(rest.left) + Sweep(env, path, es[1..], pick).freed + rest.freed
  {
    hide Prune, RmTree, LinkFree, Size, PruneBelow, Sweep, NoSizeFaults, Shrinks;
    var e, child := es[0], path + [es[0].name];
    var rest := PruneBelow(env, cutoff, path, es[1..]);
    BelowHead(env, cutoff, path, es);
    SweepHead(env, path, es, LocalPick(env, path, cutoff));
    SizeConserved(env, child, e.node);
    if Descends(env, path, cutoff, e) {
      var t := Prune(env, cutoff, child, e.node);
      ShrinksPrefix(child, e.node, t.root, t.pruned, t.freed);
    }
    var after := EntryAfter(env, cutoff, path, e);
    if after.Some? {
      SizeFirst(Entry(e.name, after.value), rest.left);
    } else {
      assert [] + rest.left == rest.left;
    }
  }

  lemma SizeFirst(e: Entry, es: seq<Entry>)
    ensures SizeAll([e] + es) == Size(e.node) + SizeAll(es)
  {
    hide Size;
    assert ([e] + es)[1..] == es;
  }

  /** What is freed below is what the reported files measured. */
  lemma {:induction false} BelowTotals(env: Env, cutoff: int, path: Path, es: seq<Entry>)
    requires DistinctNames(es) && KidsShrink(env, cutoff, path, es)
    ensures PruneBelow(env, cutoff, path, es).freed
         == Total(Dir(0, es), |path|, PruneBelow(env, cutoff, path, es).pruned)
    decreases |es|
  {
    hide PruneBelow, Total, Shrinks, Prune, KidsShrink, EntryAfter;
    if es == [] {
      NothingBelow(env, cutoff, path);
      NoTotal(Dir(0, es), |path|);
    } else {
      KidsTail(env, cutoff, path, es);
      BelowTotals(env, cutoff, path, es[1..]);
      BelowPrunedBelow(env, cutoff, path, es[1..]);
      BelowHead(env, cutoff, path, es);
      var child := path + [es[0].name];
      var rest := PruneBelow(env, cutoff, path, es[1..]);
      TailTotal(path, es, rest.pruned);
      if Descends(env, path, cutoff, es[0]) {
        var t := Prune(env, cutoff, child, es[0].node);
        ShrinksPrefix(child, es[0].node, t.root, t.pruned, t.freed);
        HeadTotal(path, es, t.pruned);
        TotalAppend(Dir(0, es), |path|, rest.pruned, t.pruned);
      }
    }
  }

  lemma PruneAt(env: Env, cutoff: int, path: Path, dir: Node, q: Path)
    requires dir.Dir? && WellFormed(dir) && NoSizeFaults(env) && !env.fails(Scan, path)
    requires KidsShrink(env, cutoff, path, dir.entries)
    ensures var t := Prune(env, cutoff, path, dir); PathLoses(path, dir, t.root, t.pruned, q)
  {
    hide WellFormed, Shrinks, Sweep, PruneBelow;
    var es := dir.entries;
    var pick := LocalPick(env, path, cutoff);
    if q == [] {
      assert path + q == path;
      SweepPrunedBelow(env, path, es, pick);
      BelowPrunedBelow(env, cutoff, path, es);
    } else {
      PruneBelowAt(env, cutoff, path, dir, q);
    }
  }

  lemma PruneBelowAt(env: Env, cutoff: int, path: Path, dir: Node, q: Path)
    requires dir.Dir? && WellFormed(dir) && NoSizeFaults(env) && !env.fails(Scan, path) && q != []
    requires KidsShrink(env, cutoff, path, dir.entries)
    ensures var t := Prune(env, cutoff, path, dir); PathLoses(path, dir, t.root, t.pruned, q)
  {
    hide WellFormed, Shrinks, Sweep, PruneBelow, KidsShrink, NoSizeFaults;
    var es := dir.entries;
    WellFormedEntries(dir);
    assert path + q == (path + [q[0]]) + q[1..];
    SweepMember(env, path, es, LocalPick(env, path, cutoff), q[0], path + q);
    BelowMember(env, cutoff, path, es, q[0], path + q);
    if Find(es, q[0]).Some? {
      PruneThrough(env, cutoff, path, es, q);
    } else {
      BelowNames(env, cutoff, path, es, q[0]);
    }
  }

  lemma ShrinksAt(path: Path, a: Node, b: Node, pruned: seq<Path>, freed: nat, q: Path)
    requires Shrinks(path, a, b, pruned, freed)
    ensures PathLoses(path, a, b, pruned, q)
  {
    hide WellFormed, LinkFree, Size, Total, NoRepeats, PathLoses;
  }

  lemma KidShrinks(env: Env, cutoff: int, path: Path, es: seq<Entry>, e: Entry)
    requires KidsShrink(env, cutoff, path, es) && e in es && Descends(env, path, cutoff, e)
    ensures
      var t := Prune(env, cutoff, path + [e.name], e.node);
      Shrinks(path + [e.name], e.node, t.root, t.pruned, t.freed)
  {
    hide Prune, Shrinks, Descends;
  }

  /** What tier 4 leaves of one entry and reports below it, at `q` inside the entry. */
  ghost predicate ThroughFacts(env: Env, cutoff: int, path: Path, e: Entry, q: Path, b: Option<Node>) {
    var p := path + [e.name];
    var listed :=
      || (LocalPick(env, path, cutoff)(e) && p + q in RmTree(env, p, e.node).pruned)
      || (Descends(env, path, cutoff, e) && p + q in Prune(env, cutoff, p, e.node).pruned);
    && (b.Some? ==>
          && At(e.node, q).Some? && At(e.node, q).value.Dir? == b.value.Dir?
          && (!b.value.Dir? ==> b == At(e.node, q)))
    && (listed <==> NonEmptyFile(At(e.node, q)) && b == None)
  }

  lemma EntryThrough(env: Env, cutoff: int, path: Path, es: seq<Entry>, e: Entry, q: Path)
    requires NoSizeFaults(env) && KidsShrink(env, cutoff, path, es) && e in es && WellFormed(e.node)
    ensures ThroughFacts(env, cutoff, path, e, q, AtOpt(EntryAfter(env, cutoff, path, e), q))
  {
    hide WellFormed, Prune, RmTree, NeverTouch, Shrinks, KidsShrink, NoSizeFaults;
    var p := path + [e.name];
    if Descends(env, path, cutoff, e) {
      var t := Prune(env, cutoff, p, e.node);
      KidShrinks(env, cutoff, path, es, e);
      ShrinksAt(p, e.node, t.root, t.pruned, t.freed, q);
    } else {
      PrunedExactly(env, p, e.node, q);
      if AtOpt(RmTree(env, p, e.node).left, q).Some? {
        NothingNew(env, p, e.node, q);
      }
    }
  }

  lemma PruneThrough(env: Env, cutoff: int, path: Path, es: seq<Entry>, q: Path)
    requires DistinctNames(es) && NoSizeFaults(env) && q != [] && Find(es, q[0]).Some?
    requires KidsShrink(env, cutoff, path, es) && forall e :: e in es ==> WellFormed(e.node)
    ensures
      var e := es[Find(es, q[0]).value];
      ThroughFacts(env, cutoff, path, e, q[1..], At(Dir(0, PruneBelow(env, cutoff, path, es).left), q))
  {
    hide WellFormed, PruneBelow, EntryAfter, ThroughFacts, KidsShrink, NoSizeFaults;
    var e := es[Find(es, q[0]).value];
    BelowFind(env, cutoff, path, es, q[0]);
    EntryThrough(env, cutoff, path, es, e, q[1..]);
  }

  lemma {:induction false} PruneShrinks(env: Env, cutoff: int, path: Path, dir: Node)
    requires dir.Dir? && WellFormed(dir) && LinkFree(dir) && NoSizeFaults(env)
    ensures var t := Prune(env, cutoff, path, dir); Shrinks(path, dir, t.root, t.pruned, t.freed)
    decreases dir
  {
    var t := Prune(env, cutoff, path, dir);
    if env.fails(Scan, path) {
      ShrinksNothing(path, dir);
    } else {
      var es := dir.entries;
      WellFormedEntries(dir);
      LinkFreeEntries(dir);
      forall e | e in es && Descends(env, path, cutoff, e)
        ensures
          var u := Prune(env, cutoff, path + [e.name], e.node);
          Shrinks(path + [e.name], e.node, u.root, u.pruned, u.freed)
      {
        PruneShrinks(env, cutoff, path + [e.name], e.node);
      }
      PruneOneShrinks(env, cutoff, path, dir);
    }
  }

  lemma PruneOneOnce(env: Env, cutoff: int, path: Path, dir: Node)
    requires dir.Dir? && WellFormed(dir) && NoSizeFaults(env) && !env.fails(Scan, path)
    requires KidsShrink(env, cutoff, path, dir.entries)
    ensures NoRepeats(Prune(env, cutoff, path, dir).pruned)
  {
    hide Sweep, PruneBelow, KidsShrink, WellFormed, NoRepeats;
    var es := dir.entries;
    var pick := LocalPick(env, path, cutoff);
    WellFormedEntries(dir);
    SweepPrunedBelow(env, path, es, pick);
    SweepPrunedOnce(env, path, es, pick);
    BelowOnce(env, cutoff, path, es);
    var here, below := Sweep(env, path, es, pick), PruneBelow(env, cutoff, path, es);
    forall p | p in here.pruned ensures p !in below.pruned {
      var name := p[|path|];
      assert path + [name] <= p;
      SweepMember(env, path, es, pick, name, p);
      BelowMember(env, cutoff, path, es, name, p);
    }
    AppendNoRepeats(here.pruned, below.pruned);
  }

  lemma PruneOneShrinks(env: Env, cutoff: int, path: Path, dir: Node)
    requires dir.Dir? && WellFormed(dir) && LinkFree(dir) && NoSizeFaults(env) && !env.fails(Scan, path)
    requires KidsShrink(env, cutoff, path, dir.entries)
    ensures var t := Prune(env, cutoff, path, dir); Shrinks(path, dir, t.root, t.pruned, t.freed)
  {
    hide Sweep, PruneBelow, KidsShrink, Total;
    var t := Prune(env, cutoff, path, dir);
    var es := dir.entries;
    var pick := LocalPick(env, path, cutoff);
    WellFormedEntries(dir);
    LinkFreeEntries(dir);
    forall q ensures PathLoses(path, dir, t.root, t.pruned, q) {
      PruneAt(env, cutoff, path, dir, q);
    }
    BelowWellFormed(env, cutoff, path, es);
    WellFormedFromEntries(t.root);
    LinkFreeEntries(t.root);
    SweepPrunedBelow(env, path, es, pick);
    BelowPrunedBelow(env, cutoff, path, es);
    PruneOneOnce(env, cutoff, path, dir);
    var here, below := Sweep(env, path, es, pick), PruneBelow(env, cutoff, path, es);
    BelowSizes(env, cutoff, path, es);
    BelowTotals(env, cutoff, path, es);
    SweepFreedAddsUp(env, path, es, pick);
    TotalAppend(Dir(0, es), |path|, here.pruned, below.pruned);
    ListedTotal(path, dir, t.pruned);
  }

  lemma WellFormedFromEntries(dir: Node)
    requires dir.Dir? && DistinctNames(dir.entries) && forall e :: e in dir.entries ==> WellFormed(e.node)
    ensures WellFormed(dir)
  {
    assert forall i :: 0 <= i < |dir.entries| ==> dir.entries[i] in dir.entries;
  }

  lemma StaleLocalShrinks(env: Env, cutoff: int, root: Node)
    requires WellFormed(root) && LinkFree(root) && NoSizeFaults(env)
    ensures var t := PruneStaleLocal(env, cutoff, root); Shrinks([], root, t.root, t.pruned, t.freed)
  {
    hide Shrinks, WellFormed, LinkFree, Prune;
    if HasDir(root, LOCAL) {
      WellFormedAt(root, LOCAL);
      LinkFreeAt(root, LOCAL);
      PruneShrinks(env, cutoff, LOCAL, At(root, LOCAL).value);
      ShrinksWithin([], root, LOCAL, Prune(env, cutoff, LOCAL, At(root, LOCAL).value), LOCAL);
    } else {
      ShrinksNothing([], root);
    }
  }
}
