/**
 The guarded recursive delete of the per-tenant HOME pruner, under an arbitrary pattern of
 I/O faults. Paths are relative to the home directory.
 */
module HomePruner {
  import opened Wrappers
  import opened FileTree

  const NEVER_TOUCH_FILES: set<string> := {"oauth_creds.json", "credentials.json", "google_accounts.json"}
  const NEVER_TOUCH_DIRS: set<string> := {"projects", ".git", ".config"}
  const LOCK_SUFFIX := ".lock"

  predicate EndsWith(s: string, suffix: string) {
    |suffix| <= |s| && s[|s| - |suffix|..] == suffix
  }

  /** The path itself is protected: by its own name, or by a directory name anywhere on it. */
  predicate NeverTouch(path: Path) {
    path != [] &&
    var name := path[|path| - 1];
    || name in NEVER_TOUCH_FILES
    || EndsWith(name, LOCK_SUFFIX)
    || exists i :: 0 <= i < |path| && path[i] in NEVER_TOUCH_DIRS
  }

  /** A failing system call on a path. `SizeStat` is the size lookup just before an unlink. */
  datatype Op = Scan | Stat | SizeStat | Unlink | Rmdir

  /**
   What a tier meets: `now` stamps every directory that loses a child, `fails` is the fault pattern,
   and the last two are what the size scans after it can see, the one that is compared with the
   budget and the one that is reported.
   */
  datatype Env = Env(now: int, fails: (Op, Path) -> bool, sight: Sight, again: Sight)

  ghost predicate NoFaults(env: Env) {
    SeesAll(env) && forall op, p :: !env.fails(op, p)
  }

  /** Both size scans see everything. */
  ghost predicate SeesAll(env: Env) {
    env.sight == CLEAR && env.again == CLEAR
  }

  datatype Removal = Removal(left: Option<Node>, pruned: seq<Path>, freed: nat)
  datatype Sweeping = Sweeping(left: seq<Entry>, pruned: seq<Path>, freed: nat)

  predicate Everything(e: Entry) {
    true
  }

  /** A directory after some of its entries were processed: losing one raises its mtime. */
  function Touched(env: Env, before: Node, left: seq<Entry>): Node
    requires before.Dir?
  {
    Dir(if |left| < |before.entries| then env.now else before.mtime, left)
  }

  /** Delete a single file or symbolic link; a link's bytes are not counted. */
  function SafeUnlink(env: Env, path: Path, node: Node): Removal
    requires !node.Dir?
  {
    if env.fails(Unlink, path) then Removal(Some(node), [], 0)
    else
      var n := if node.Link? || env.fails(SizeStat, path) then 0 else node.size;
      Removal(None, if n > 0 then [path] else [], n)
  }

  /** Delete `node` at `path`, checking every descendant for protection again. */
  function RmTree(env: Env, path: Path, node: Node): Removal
    decreases node, 1
  {
    if NeverTouch(path) then Removal(Some(node), [], 0)
    else if !node.Dir? then SafeUnlink(env, path, node)
    else if env.fails(Scan, path) then Removal(Some(node), [], 0)
    else
      var s := Sweep(env, path, node.entries, Everything);
      Removal(if s.left == [] && !env.fails(Rmdir, path) then None else Some(Touched(env, node, s.left)),
              s.pruned, s.freed)
  }

  /** Delete the picked entries of a directory, in listing order. */
  function Sweep(env: Env, path: Path, es: seq<Entry>, pick: Entry -> bool): Sweeping
    decreases es, 0
  {
    if es == [] then Sweeping([], [], 0)
    else
      var e := es[0];
      var r := if pick(e) then RmTree(env, path + [e.name], e.node) else Removal(Some(e.node), [], 0);
      var rest := Sweep(env, path, es[1..], pick);
      Sweeping(if r.left.Some? then [Entry(e.name, r.left.value)] + rest.left else rest.left,
               r.pruned + rest.pruned, r.freed + rest.freed)
  }

  // ---- Safety under every fault pattern ----

  lemma SweepNone(env: Env, path: Path, pick: Entry -> bool)
    ensures Sweep(env, path, [], pick) == Sweeping([], [], 0)
  {
  }

  lemma SweepHead(env: Env, path: Path, es: seq<Entry>, pick: Entry -> bool)
    requires es != []
    ensures
      var e := es[0];
      var r := if pick(e) then RmTree(env, path + [e.name], e.node) else Removal(Some(e.node), [], 0);
      var s, rest := Sweep(env, path, es, pick), Sweep(env, path, es[1..], pick);
      && s.left == (if r.left.Some? then [Entry(e.name, r.left.value)] else []) + rest.left
      && s.pruned == r.pruned + rest.pruned && s.freed == r.freed + rest.freed
  {
    hide RmTree;
  }

  /** What is left has no name that was not listed. */
  lemma {:induction false} SweepNames(env: Env, path: Path, es: seq<Entry>, pick: Entry -> bool, name: string)
    ensures
      var s := Sweep(env, path, es, pick);
      |s.left| <= |es| && (Find(es, name) == None ==> Find(s.left, name) == None)
    decreases |es|
  {
    if es != [] {
      SweepNames(env, path, es[1..], pick, name);
    }
  }

  /** What happens to one name in a sweep. */
  lemma {:induction false} SweepFind(env: Env, path: Path, es: seq<Entry>, pick: Entry -> bool, name: string)
    requires DistinctNames(es) && Find(es, name).Some?
    ensures
      var e := es[Find(es, name).value];
      var r := if pick(e) then RmTree(env, path + [name], e.node) else Removal(Some(e.node), [], 0);
      var left := Sweep(env, path, es, pick).left;
      && (r.left == None <==> Find(left, name) == None)
      && (r.left.Some? ==> left[Find(left, name).value].node == r.left.value)
    decreases |es|
  {
    var s := Sweep(env, path, es, pick);
    var rest := Sweep(env, path, es[1..], pick);
    if es[0].name == name {
      HeadNotInTail(es);
      SweepNames(env, path, es[1..], pick, name);
    } else {
      SweepFind(env, path, es[1..], pick, name);
      var i := Find(es[1..], name).value;
      assert es[1..][i] == es[i + 1];
      if s.left != rest.left {
        assert s.left[1..] == rest.left;
      }
    }
  }

  lemma {:induction false} SweepDistinct(env: Env, path: Path, es: seq<Entry>, pick: Entry -> bool)
    requires DistinctNames(es)
    ensures DistinctNames(Sweep(env, path, es, pick).left)
    decreases |es|
  {
    if es != [] {
      SweepDistinct(env, path, es[1..], pick);
      HeadNotInTail(es);
      SweepNames(env, path, es[1..], pick, es[0].name);
    }
  }

  lemma {:induction false} RmTreeWellFormed(env: Env, path: Path, node: Node)
    requires WellFormed(node)
    ensures RmTree(env, path, node).left.Some? ==> WellFormed(RmTree(env, path, node).left.value)
    decreases node, 1
  {
    if node.Dir? {
      SweepWellFormed(env, path, node.entries, Everything);
    }
  }

  lemma {:induction false} SweepWellFormed(env: Env, path: Path, es: seq<Entry>, pick: Entry -> bool)
    requires DistinctNames(es) && forall i :: 0 <= i < |es| ==> WellFormed(es[i].node)
    ensures
      var left := Sweep(env, path, es, pick).left;
      DistinctNames(left) && forall i :: 0 <= i < |left| ==> WellFormed(left[i].node)
    decreases es, 0
  {
    SweepDistinct(env, path, es, pick);
    if es != [] {
      RmTreeWellFormed(env, path + [es[0].name], es[0].node);
      SweepWellFormed(env, path, es[1..], pick);
    }
  }

  /**
   Whatever calls fail, every never-touch path below (or at) the deleted one keeps exactly the
   node it had, with everything under it; so its ancestors survive as directories too.
   */
  lemma {:induction false} NeverTouchSurvives(env: Env, path: Path, node: Node, q: Path)
    requires WellFormed(node) && At(node, q).Some? && NeverTouch(path + q)
    ensures
      var left := RmTree(env, path, node).left;
      left.Some? && At(left.value, q) == At(node, q)
    decreases |q|
  {
    if q == [] {
      assert path + q == path;
    } else if !NeverTouch(path) && !env.fails(Scan, path) {
      var es := node.entries;
      var e := es[Find(es, q[0]).value];
      assert path + q == (path + [q[0]]) + q[1..];
      NeverTouchSurvives(env, path + [q[0]], e.node, q[1..]);
      SweepFind(env, path, es, Everything, q[0]);
    }
  }

  // ---- What exactly is left when nothing fails ----

  /** A never-touch path somewhere in the subtree. */
  predicate Shelters(path: Path, node: Node)
    decreases node
  {
    NeverTouch(path)
    || (node.Dir? && exists i :: 0 <= i < |node.entries| && Shelters(path + [node.entries[i].name], node.entries[i].node))
  }

  /** Every leaf is never-touch or below one: nothing here can be deleted. */
  predicate Skeleton(path: Path, node: Node)
    decreases node
  {
    NeverTouch(path)
    || (node.Dir? && node.entries != []
        && forall i :: 0 <= i < |node.entries| ==> Skeleton(path + [node.entries[i].name], node.entries[i].node))
  }

  lemma {:induction false} LeavesSkeleton(env: Env, path: Path, node: Node)
    requires NoFaults(env)
    ensures var left := RmTree(env, path, node).left;
      && (left.Some? ==> Skeleton(path, left.value))
      && (left.Some? <==> Shelters(path, node))
    decreases node, 1
  {
    if !NeverTouch(path) && node.Dir? {
      SweepLeavesSkeleton(env, path, node.entries, Everything);
    }
  }

  /** Every entry left is a skeleton, or was not picked. */
  ghost predicate SkeletonOrUnpicked(path: Path, left: seq<Entry>, es: seq<Entry>, pick: Entry -> bool) {
    forall x :: x in left ==> Skeleton(path + [x.name], x.node) || (x in es && !pick(x))
  }

  lemma {:induction false} SweepLeavesSkeleton(env: Env, path: Path, es: seq<Entry>, pick: Entry -> bool)
    requires NoFaults(env)
    ensures var left := Sweep(env, path, es, pick).left;
      && SkeletonOrUnpicked(path, left, es, pick)
      && (pick == Everything ==>
            (left != [] <==> exists i :: 0 <= i < |es| && Shelters(path + [es[i].name], es[i].node)))
    decreases es, 0
  {
    if es != [] {
      LeavesSkeleton(env, path + [es[0].name], es[0].node);
      SweepLeavesSkeleton(env, path, es[1..], pick);
      var left, rest := Sweep(env, path, es, pick).left, Sweep(env, path, es[1..], pick).left;
      assert left == rest || (|left| == |rest| + 1 && left[1..] == rest && left == [left[0]] + rest);
      assert forall x :: x in left ==> x in rest || (left != rest && x == left[0]);
      ShelteredByHeadOrTail(path, es);
    }
  }

  lemma ShelteredByHeadOrTail(path: Path, es: seq<Entry>)
    requires es != []
    ensures (exists i :: 0 <= i < |es| && Shelters(path + [es[i].name], es[i].node)) <==>
      || Shelters(path + [es[0].name], es[0].node)
      || exists i :: 0 <= i < |es[1..]| && Shelters(path + [es[1..][i].name], es[1..][i].node)
  {
    hide Shelters;
    if i :| 0 <= i < |es| && Shelters(path + [es[i].name], es[i].node) {
      if i > 0 {
        assert es[1..][i - 1] == es[i];
      }
    }
  }

  /** Deleting a skeleton changes nothing, whatever the faults. */
  lemma {:induction false} SkeletonIsStable(env: Env, path: Path, node: Node)
    requires Skeleton(path, node)
    ensures RmTree(env, path, node) == Removal(Some(node), [], 0)
    decreases node, 1
  {
    if !NeverTouch(path) {
      StableSweep(env, path, node.entries, Everything);
    }
  }

  lemma {:induction false} StableSweep(env: Env, path: Path, es: seq<Entry>, pick: Entry -> bool)
    requires forall i :: 0 <= i < |es| && pick(es[i]) ==> Skeleton(path + [es[i].name], es[i].node)
    ensures Sweep(env, path, es, pick) == Sweeping(es, [], 0)
    decreases es, 0
  {
    hide NeverTouch, Skeleton, RmTree;
    if es != [] {
      if pick(es[0]) {
        SkeletonIsStable(env, path + [es[0].name], es[0].node);
      }
      StableSweep(env, path, es[1..], pick);
    }
  }

  /** Nothing of a node can go: whatever is neither never-touch nor held below meets a fault of its own. */
  predicate Held(env: Env, path: Path, node: Node)
    decreases node
  {
    || NeverTouch(path)
    || (!node.Dir? && env.fails(Unlink, path))
    || (node.Dir? && env.fails(Scan, path))
    || (node.Dir? && (node.entries != [] || env.fails(Rmdir, path))
        && forall i :: 0 <= i < |node.entries| ==> Held(env, path + [node.entries[i].name], node.entries[i].node))
  }

  /** Under every fault pattern these are the nodes a deletion leaves as they are. */
  lemma {:induction false} HeldExactly(env: Env, path: Path, node: Node)
    ensures RmTree(env, path, node).left == Some(node) <==> Held(env, path, node)
    decreases node, 1
  {
    hide NeverTouch;
    if node.Dir? {
      HeldSweep(env, path, node.entries, Everything);
    }
  }

  lemma {:induction false} HeldSweep(env: Env, path: Path, es: seq<Entry>, pick: Entry -> bool)
    ensures Sweep(env, path, es, pick).left == es <==>
      forall i :: 0 <= i < |es| && pick(es[i]) ==> Held(env, path + [es[i].name], es[i].node)
    decreases es, 0
  {
    hide NeverTouch, Held, RmTree;
    if es != [] {
      HeldSweep(env, path, es[1..], pick);
      SweepNames(env, path, es[1..], pick, "");
      if pick(es[0]) {
        HeldExactly(env, path + [es[0].name], es[0].node);
      }
      assert forall i :: 1 <= i < |es| ==> es[i] == es[1..][i - 1];
      assert Sweep(env, path, es, pick).left == es ==> Sweep(env, path, es, pick).left[1..] == es[1..];
    }
  }

  /** Without faults only skeletons are held. */
  lemma {:induction false} HeldWithoutFaults(env: Env, path: Path, node: Node)
    requires NoFaults(env)
    ensures Held(env, path, node) <==> Skeleton(path, node)
    decreases node
  {
    hide NeverTouch;
    if node.Dir? {
      forall i | 0 <= i < |node.entries|
        ensures Held(env, path + [node.entries[i].name], node.entries[i].node)
             == Skeleton(path + [node.entries[i].name], node.entries[i].node)
      {
        HeldWithoutFaults(env, path + [node.entries[i].name], node.entries[i].node);
      }
    }
  }

  /** A never-touch path at or above `path + q`, not above `path`. */
  predicate Shielded(path: Path, q: Path) {
    exists k :: 0 <= k <= |q| && NeverTouch(path + q[..k])
  }

  lemma ShieldedStep(path: Path, q: Path)
    requires q != [] && !NeverTouch(path)
    ensures Shielded(path, q) == Shielded(path + [q[0]], q[1..])
  {
    forall k | 0 <= k < |q|
      ensures path + q[..k + 1] == path + [q[0]] + q[1..][..k]
    {
    }
    if Shielded(path, q) {
      var k :| 0 <= k <= |q| && NeverTouch(path + q[..k]);
      assert k != 0 by { assert path + q[..0] == path; }
      assert NeverTouch(path + [q[0]] + q[1..][..k - 1]);
    }
    if Shielded(path + [q[0]], q[1..]) {
      var k :| 0 <= k <= |q| - 1 && NeverTouch(path + [q[0]] + q[1..][..k]);
      assert NeverTouch(path + q[..k + 1]);
    }
  }

  /**
   Without faults the delete leaves exactly the subtrees rooted at never-touch paths and the
   directories leading down to them.
   */
  lemma {:induction false} LeavesExactly(env: Env, path: Path, node: Node, q: Path)
    requires NoFaults(env) && WellFormed(node) && At(node, q).Some?
    ensures
      var left := RmTree(env, path, node).left;
      (left.Some? && At(left.value, q).Some?) <==> Shielded(path, q) || Shelters(path + q, At(node, q).value)
    decreases |q|
  {
    LeavesSkeleton(env, path, node);
    if q == [] {
      assert path + q == path && q[..0] == q;
    } else if NeverTouch(path) {
      assert path + q[..0] == path;
    } else {
      var es := node.entries;
      var e := es[Find(es, q[0]).value];
      ShieldedStep(path, q);
      assert path + q == (path + [q[0]]) + q[1..];
      LeavesExactly(env, path + [q[0]], e.node, q[1..]);
      SweepFind(env, path, es, Everything, q[0]);
    }
  }

  // ---- Shrinking: nothing new, and the list of deletions is exact ----

  ghost predicate NoSizeFaults(env: Env) {
    forall p :: !env.fails(SizeStat, p)
  }

  predicate NonEmptyFile(n: Option<Node>) {
    n.Some? && n.value.File? && n.value.size > 0
  }

  predicate NoRepeats(ps: seq<Path>) {
    forall i, j :: 0 <= i < j < |ps| ==> ps[i] != ps[j]
  }

  function AtOpt(n: Option<Node>, q: Path): Option<Node> {
    if n.Some? then At(n.value, q) else None
  }

  lemma {:induction false} PrunedBelow(env: Env, path: Path, node: Node)
    ensures forall p :: p in RmTree(env, path, node).pruned ==> path <= p
    decreases node, 1
  {
    if node.Dir? {
      SweepPrunedBelow(env, path, node.entries, Everything);
    }
  }

  lemma {:induction false} SweepPrunedBelow(env: Env, path: Path, es: seq<Entry>, pick: Entry -> bool)
    ensures forall p :: p in Sweep(env, path, es, pick).pruned ==>
      path < p && Find(es, p[|path|]).Some?
    decreases es, 0
  {
    if es != [] {
      PrunedBelow(env, path + [es[0].name], es[0].node);
      SweepPrunedBelow(env, path, es[1..], pick);
      forall p | p in Sweep(env, path, es, pick).pruned
        ensures path < p && Find(es, p[|path|]).Some?
      {
        if p in Sweep(env, path, es[1..], pick).pruned {
        } else {
          assert path + [es[0].name] <= p;
          assert p[|path|] == (path + [es[0].name])[|path|];
        }
      }
    }
  }

  /** A path is among a sweep's deletions exactly when it is among those of the entry it goes through. */
  lemma {:induction false} SweepMember(env: Env, path: Path, es: seq<Entry>, pick: Entry -> bool, name: string, p: Path)
    requires DistinctNames(es) && path + [name] <= p
    ensures p in Sweep(env, path, es, pick).pruned <==>
      && Find(es, name).Some?
      && pick(es[Find(es, name).value])
      && p in RmTree(env, path + [name], es[Find(es, name).value].node).pruned
    decreases |es|
  {
    assert p[|path|] == (path + [name])[|path|];
    if es != [] {
      SweepMember(env, path, es[1..], pick, name, p);
      HeadNotInTail(es);
      PrunedBelow(env, path + [es[0].name], es[0].node);
      if es[0].name != name {
        assert !(path + [es[0].name] <= p) by {
          assert (path + [es[0].name])[|path|] != p[|path|];
        }
      }
    }
  }

  lemma {:induction false} PrunedOnce(env: Env, path: Path, node: Node)
    requires WellFormed(node)
    ensures NoRepeats(RmTree(env, path, node).pruned)
    decreases node, 1
  {
    if node.Dir? {
      SweepPrunedOnce(env, path, node.entries, Everything);
    }
  }

  lemma {:induction false} SweepPrunedOnce(env: Env, path: Path, es: seq<Entry>, pick: Entry -> bool)
    requires DistinctNames(es) && forall i :: 0 <= i < |es| ==> WellFormed(es[i].node)
    ensures NoRepeats(Sweep(env, path, es, pick).pruned)
    decreases es, 0
  {
    if es != [] {
      var child := path + [es[0].name];
      PrunedOnce(env, child, es[0].node);
      SweepPrunedOnce(env, path, es[1..], pick);
      PrunedBelow(env, child, es[0].node);
      SweepPrunedBelow(env, path, es[1..], pick);
      HeadNotInTail(es);
      forall p | child <= p ensures p !in Sweep(env, path, es[1..], pick).pruned {
        assert p[|path|] == child[|path|];
      }
      AppendNoRepeats(RmTree(env, child, es[0].node).pruned, Sweep(env, path, es[1..], pick).pruned);
    }
  }

  lemma AppendNoRepeats(a: seq<Path>, b: seq<Path>)
    requires NoRepeats(a) && NoRepeats(b) && forall p :: p in a ==> p !in b
    ensures NoRepeats(a + b)
  {
    forall i, j | 0 <= i < j < |a + b| ensures (a + b)[i] != (a + b)[j] {
      assert i < |a| ==> a[i] in a;
    }
  }

  /** A path is reported exactly when a non-empty file was there and is gone. */
  lemma {:induction false} PrunedExactly(env: Env, path: Path, node: Node, q: Path)
    requires NoSizeFaults(env) && WellFormed(node)
    ensures path + q in RmTree(env, path, node).pruned <==>
      NonEmptyFile(At(node, q)) && AtOpt(RmTree(env, path, node).left, q) == None
    decreases |q|
  {
    if q == [] {
      assert path + q == path;
      if node.Dir? {
        SweepPrunedBelow(env, path, node.entries, Everything);
      }
    } else if node.Dir? && !NeverTouch(path) && !env.fails(Scan, path) {
      var es := node.entries;
      assert path + q == (path + [q[0]]) + q[1..];
      SweepMember(env, path, es, Everything, q[0], path + q);
      if Find(es, q[0]).Some? {
        PrunedExactly(env, path + [q[0]], es[Find(es, q[0]).value].node, q[1..]);
        SweepFind(env, path, es, Everything, q[0]);
      }
    } else if !node.Dir? {
      assert path + q != path by { assert |path + q| != |path|; }
    }
  }

  /** Nothing appears, and what is left of files and links is what was there. */
  lemma {:induction false} NothingNew(env: Env, path: Path, node: Node, q: Path)
    requires WellFormed(node) && AtOpt(RmTree(env, path, node).left, q).Some?
    ensures At(node, q).Some?
    ensures !AtOpt(RmTree(env, path, node).left, q).value.Dir? ==>
      At(node, q) == AtOpt(RmTree(env, path, node).left, q)
    ensures At(node, q).value.Dir? == AtOpt(RmTree(env, path, node).left, q).value.Dir?
    decreases |q|
  {
    if q != [] && node.Dir? && !NeverTouch(path) && !env.fails(Scan, path) {
      var es := node.entries;
      if Find(es, q[0]) == None {
        SweepNames(env, path, es, Everything, q[0]);
      } else {
        SweepFind(env, path, es, Everything, q[0]);
        NothingNew(env, path + [q[0]], es[Find(es, q[0]).value].node, q[1..]);
      }
    }
  }

  // ---- Conservation of size ----

  predicate LinkFree(n: Node) {
    !n.Link? && (n.Dir? ==> forall i :: 0 <= i < |n.entries| ==> LinkFree(n.entries[i].node))
  }

  lemma {:induction false} LinkFreeAt(n: Node, p: Path)
    requires LinkFree(n) && At(n, p).Some?
    ensures LinkFree(At(n, p).value)
    decreases |p|
  {
    if p != [] {
      LinkFreeAt(n.entries[Find(n.entries, p[0]).value].node, p[1..]);
    }
  }

  lemma {:induction false} LinkFreePut(n: Node, p: Path, m: Node)
    requires LinkFree(n) && At(n, p).Some? && LinkFree(m)
    ensures LinkFree(Put(n, p, m))
    decreases |p|
  {
    if p != [] {
      LinkFreePut(n.entries[Find(n.entries, p[0]).value].node, p[1..], m);
    }
  }

  ghost predicate AllLinkFree(es: seq<Entry>) {
    forall e :: e in es ==> LinkFree(e.node)
  }

  lemma LinkFreeEntries(n: Node)
    requires n.Dir?
    ensures LinkFree(n) <==> AllLinkFree(n.entries)
  {
    if AllLinkFree(n.entries) {
      assert forall i :: 0 <= i < |n.entries| ==> n.entries[i] in n.entries;
    }
  }

  lemma {:induction false} RmTreeLinkFree(env: Env, path: Path, node: Node)
    requires LinkFree(node)
    ensures RmTree(env, path, node).left.Some? ==> LinkFree(RmTree(env, path, node).left.value)
    decreases node, 1
  {
    if node.Dir? && !NeverTouch(path) && !env.fails(Scan, path) {
      LinkFreeEntries(node);
      SweepLinkFree(env, path, node.entries, Everything);
      LinkFreeEntries(Touched(env, node, Sweep(env, path, node.entries, Everything).left));
    }
  }

  lemma {:induction false} SweepLinkFree(env: Env, path: Path, es: seq<Entry>, pick: Entry -> bool)
    requires AllLinkFree(es)
    ensures AllLinkFree(Sweep(env, path, es, pick).left)
    decreases es, 0
  {
    hide LinkFree;
    if es != [] {
      assert forall e :: e in es[1..] ==> e in es;
      RmTreeLinkFree(env, path + [es[0].name], es[0].node);
      SweepLinkFree(env, path, es[1..], pick);
    }
  }

  function SizeOpt(n: Option<Node>): nat {
    if n.Some? then Size(n.value) else 0
  }

  lemma {:induction false} SizeConserved(env: Env, path: Path, node: Node)
    requires NoSizeFaults(env) && LinkFree(node)
    ensures Size(node) == SizeOpt(RmTree(env, path, node).left) + RmTree(env, path, node).freed
    decreases node, 1
  {
    if node.Dir? {
      SweepSizeConserved(env, path, node.entries, Everything);
    }
  }

  lemma {:induction false} SweepSizeConserved(env: Env, path: Path, es: seq<Entry>, pick: Entry -> bool)
    requires NoSizeFaults(env) && forall i :: 0 <= i < |es| ==> LinkFree(es[i].node)
    ensures SizeAll(es) == SizeAll(Sweep(env, path, es, pick).left) + Sweep(env, path, es, pick).freed
    decreases es, 0
  {
    if es != [] {
      SizeConserved(env, path + [es[0].name], es[0].node);
      SweepSizeConserved(env, path, es[1..], pick);
      var e := es[0];
      var r := if pick(e) then RmTree(env, path + [e.name], e.node) else Removal(Some(e.node), [], 0);
      if r.left.Some? {
        SizeAllAppend([Entry(e.name, r.left.value)], Sweep(env, path, es[1..], pick).left);
      }
    }
  }

  lemma {:induction false} SizeShrinks(env: Env, path: Path, node: Node)
    ensures SizeOpt(RmTree(env, path, node).left) <= Size(node)
    decreases node, 1
  {
    if node.Dir? {
      SweepSizeShrinks(env, path, node.entries, Everything);
    }
  }

  lemma {:induction false} SweepSizeShrinks(env: Env, path: Path, es: seq<Entry>, pick: Entry -> bool)
    ensures SizeAll(Sweep(env, path, es, pick).left) <= SizeAll(es)
    decreases es, 0
  {
    if es != [] {
      SizeShrinks(env, path + [es[0].name], es[0].node);
      SweepSizeShrinks(env, path, es[1..], pick);
      var e := es[0];
      var r := if pick(e) then RmTree(env, path + [e.name], e.node) else Removal(Some(e.node), [], 0);
      if r.left.Some? {
        SizeAllAppend([Entry(e.name, r.left.value)], Sweep(env, path, es[1..], pick).left);
      }
    }
  }

  // ---- The freed bytes are the sizes of the reported files ----

  function FileSize(n: Node, q: Path): nat {
    match At(n, q)
    case Some(File(size, _)) => size
    case _ => 0
  }

  /** The sizes, before deletion, of the files at `ps`; the first `k` components lead to `n`. */
  function Total(n: Node, k: nat, ps: seq<Path>): nat {
    if ps == [] then 0
    else (if k <= |ps[0]| then FileSize(n, ps[0][k..]) else 0) + Total(n, k, ps[1..])
  }

  lemma {:induction false} TotalAppend(n: Node, k: nat, ps: seq<Path>, qs: seq<Path>)
    ensures Total(n, k, ps + qs) == Total(n, k, ps) + Total(n, k, qs)
  {
    if ps == [] {
      assert ps + qs == qs;
    } else {
      assert (ps + qs)[0] == ps[0] && (ps + qs)[1..] == ps[1..] + qs;
      TotalAppend(n, k, ps[1..], qs);
    }
  }

  lemma {:induction false} TotalSame(n: Node, k: nat, m: Node, l: nat, ps: seq<Path>)
    requires forall p :: p in ps ==> k <= |p| && l <= |p| && FileSize(n, p[k..]) == FileSize(m, p[l..])
    ensures Total(n, k, ps) == Total(m, l, ps)
  {
    if ps != [] {
      assert ps[0] in ps;
      TotalSame(n, k, m, l, ps[1..]);
    }
  }

  lemma ThroughEntry(es: seq<Entry>, i: nat, q: Path)
    requires i < |es| && DistinctNames(es) && q != [] && q[0] == es[i].name
    ensures At(Dir(0, es), q) == At(es[i].node, q[1..])
  {
    FindUnique(es, i);
  }

  lemma PastHead(es: seq<Entry>, q: Path)
    requires es != [] && q != [] && q[0] != es[0].name
    ensures At(Dir(0, es), q) == At(Dir(0, es[1..]), q)
  {
  }

  lemma {:induction false} FreedAddsUp(env: Env, path: Path, node: Node)
    requires NoSizeFaults(env) && WellFormed(node)
    ensures RmTree(env, path, node).freed == Total(node, |path|, RmTree(env, path, node).pruned)
    decreases node, 1
  {
    hide Total;
    NoTotal(node, |path|);
    if node.Dir? {
      hide Sweep, FileSize;
      var ps := Sweep(env, path, node.entries, Everything).pruned;
      SweepFreedAddsUp(env, path, node.entries, Everything);
      SweepPrunedBelow(env, path, node.entries, Everything);
      SameListing(node, |path|, ps);
    } else if RmTree(env, path, node).pruned != [] {
      OneTotal(node, path);
    }
  }

  lemma OneTotal(n: Node, path: Path)
    ensures Total(n, |path|, [path]) == FileSize(n, [])
  {
    assert path[|path|..] == [] && [path][1..] == [];
  }

  lemma SameListing(n: Node, k: nat, ps: seq<Path>)
    requires n.Dir? && forall p :: p in ps ==> k < |p|
    ensures Total(n, k, ps) == Total(Dir(0, n.entries), k, ps)
  {
    TotalSame(n, k, Dir(0, n.entries), k, ps);
  }

  /** Totals of paths through the first entry, and of paths through the others. */
  lemma HeadTotal(path: Path, es: seq<Entry>, ps: seq<Path>)
    requires es != [] && DistinctNames(es) && forall p :: p in ps ==> path + [es[0].name] <= p
    ensures Total(Dir(0, es), |path|, ps) == Total(es[0].node, |path| + 1, ps)
  {
    var child := path + [es[0].name];
    forall p | p in ps ensures FileSize(Dir(0, es), p[|path|..]) == FileSize(es[0].node, p[|child|..]) {
      assert p[|path|] == child[|path|];
      ThroughEntry(es, 0, p[|path|..]);
      assert p[|path|..][1..] == p[|child|..];
    }
    TotalSame(Dir(0, es), |path|, es[0].node, |child|, ps);
  }

  lemma TailTotal(path: Path, es: seq<Entry>, ps: seq<Path>)
    requires es != [] && DistinctNames(es) && forall p :: p in ps ==> path < p && Find(es[1..], p[|path|]).Some?
    ensures Total(Dir(0, es), |path|, ps) == Total(Dir(0, es[1..]), |path|, ps)
  {
    HeadNotInTail(es);
    forall p | p in ps ensures FileSize(Dir(0, es), p[|path|..]) == FileSize(Dir(0, es[1..]), p[|path|..]) {
      PastHead(es, p[|path|..]);
    }
    TotalSame(Dir(0, es), |path|, Dir(0, es[1..]), |path|, ps);
  }

  lemma {:induction false} SweepFreedAddsUp(env: Env, path: Path, es: seq<Entry>, pick: Entry -> bool)
    requires NoSizeFaults(env) && DistinctNames(es) && forall i :: 0 <= i < |es| ==> WellFormed(es[i].node)
    ensures Sweep(env, path, es, pick).freed == Total(Dir(0, es), |path|, Sweep(env, path, es, pick).pruned)
    decreases es, 0
  {
    hide Total;
    if es == [] {
      NoTotal(Dir(0, es), |path|);
    } else {
      var child := path + [es[0].name];
      var mine := if pick(es[0]) then RmTree(env, child, es[0].node).pruned else [];
      var rest := Sweep(env, path, es[1..], pick).pruned;
      FreedAddsUp(env, child, es[0].node);
      SweepFreedAddsUp(env, path, es[1..], pick);
      PrunedBelow(env, child, es[0].node);
      SweepPrunedBelow(env, path, es[1..], pick);
      HeadTotal(path, es, mine);
      TailTotal(path, es, rest);
      TotalAppend(Dir(0, es), |path|, mine, rest);
      NoTotal(es[0].node, |child|);
    }
  }

  lemma NoTotal(n: Node, k: nat)
    ensures Total(n, k, []) == 0
  {
  }
}
