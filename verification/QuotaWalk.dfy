/**
 The tiers as the walker runs them: loops over directory listings and an explicit stack, changing
 one tree in place. Each is proved to compute the tier it implements.
 */
module QuotaWalk {
  import opened Wrappers
  import opened FileTree
  import opened HomePruner
  import opened HomeQuota

  // ---- The stack walk of tier 4 ----

  /** Finishing the directories on the stack, last one first. */
  function Pending(env: Env, cutoff: int, root: Node, stack: seq<Path>): Tiering
    decreases |stack|
  {
    if stack == [] then Tiering(root, [], 0)
    else
      var p, rest := stack[|stack| - 1], stack[..|stack| - 1];
      if !HasDir(root, p) then Pending(env, cutoff, root, rest)
      else
        var t := Within(root, p, Prune(env, cutoff, p, At(root, p).value));
        var u := Pending(env, cutoff, t.root, rest);
        Tiering(u.root, t.pruned + u.pruned, t.freed + u.freed)
  }

  /** How many directories the stack walk takes off its stack. */
  function Work(env: Env, cutoff: int, path: Path, dir: Node): nat
    requires dir.Dir?
    decreases dir, 1
  {
    1 + if env.fails(Scan, path) then 0 else WorkBelow(env, cutoff, path, dir.entries)
  }

  function WorkBelow(env: Env, cutoff: int, path: Path, es: seq<Entry>): nat
    decreases es, 0
  {
    if es == [] then 0
    else
      (if Descends(env, path, cutoff, es[0]) then Work(env, cutoff, path + [es[0].name], es[0].node) else 0)
      + WorkBelow(env, cutoff, path, es[1..])
  }

  function PendingWork(env: Env, cutoff: int, root: Node, stack: seq<Path>): nat
    decreases |stack|
  {
    if stack == [] then 0
    else
      var p, rest := stack[|stack| - 1], stack[..|stack| - 1];
      if !HasDir(root, p) then 1 + PendingWork(env, cutoff, root, rest)
      else
        Work(env, cutoff, p, At(root, p).value)
        + PendingWork(env, cutoff, Put(root, p, Prune(env, cutoff, p, At(root, p).value).root), rest)
  }

  /** The subdirectories one level of tier 4 pushes, in listing order. */
  function Kids(env: Env, cutoff: int, path: Path, es: seq<Entry>): seq<Path> {
    if es == [] then []
    else
      var e := es[|es| - 1];
      Kids(env, cutoff, path, es[..|es| - 1]) + (if Descends(env, path, cutoff, e) then [path + [e.name]] else [])
  }

  lemma {:induction false} SweepAppend(env: Env, path: Path, a: seq<Entry>, b: seq<Entry>, pick: Entry -> bool)
    ensures
      var s, t, u := Sweep(env, path, a + b, pick), Sweep(env, path, a, pick), Sweep(env, path, b, pick);
      s.left == t.left + u.left && s.pruned == t.pruned + u.pruned && s.freed == t.freed + u.freed
    decreases |a|
  {
    hide RmTree, Sweep;
    if a == [] {
      assert a + b == b;
      SweepNone(env, path, pick);
    } else {
      assert (a + b)[0] == a[0] && (a + b)[1..] == a[1..] + b;
      SweepAppend(env, path, a[1..], b, pick);
      SweepHead(env, path, a, pick);
      SweepHead(env, path, a + b, pick);
    }
  }

  lemma {:induction false} BelowAppend(env: Env, cutoff: int, path: Path, a: seq<Entry>, b: seq<Entry>)
    ensures
      var s := PruneBelow(env, cutoff, path, a + b);
      var t, u := PruneBelow(env, cutoff, path, a), PruneBelow(env, cutoff, path, b);
      s.left == t.left + u.left && s.pruned == u.pruned + t.pruned && s.freed == t.freed + u.freed
    decreases |a|
  {
    hide PruneBelow, Prune, Descends, EntryAfter;
    if a == [] {
      assert a + b == b;
      NothingBelow(env, cutoff, path);
    } else {
      assert (a + b)[0] == a[0] && (a + b)[1..] == a[1..] + b;
      BelowAppend(env, cutoff, path, a[1..], b);
      BelowHead(env, cutoff, path, a);
      BelowHead(env, cutoff, path, a + b);
    }
  }

  lemma {:induction false} WorkAppend(env: Env, cutoff: int, path: Path, a: seq<Entry>, b: seq<Entry>)
    ensures WorkBelow(env, cutoff, path, a + b) == WorkBelow(env, cutoff, path, a) + WorkBelow(env, cutoff, path, b)
  {
    hide Descends, Work;
    if a == [] {
      assert a + b == b;
    } else {
      assert (a + b)[0] == a[0] && (a + b)[1..] == a[1..] + b;
      WorkAppend(env, cutoff, path, a[1..], b);
    }
  }

  /** One entry on its own. */
  lemma BelowOne(env: Env, cutoff: int, path: Path, e: Entry)
    ensures
      var s, t := PruneBelow(env, cutoff, path, [e]), Sweep(env, path, [e], LocalPick(env, path, cutoff));
      && (Descends(env, path, cutoff, e) ==>
            var u := Prune(env, cutoff, path + [e.name], e.node);
            && s == Sweeping([Entry(e.name, u.root)], u.pruned, u.freed)
            && t.left == [e]
            && WorkBelow(env, cutoff, path, [e]) == Work(env, cutoff, path + [e.name], e.node))
      && (!Descends(env, path, cutoff, e) ==>
            s.left == t.left && s.pruned == [] && s.freed == 0 && WorkBelow(env, cutoff, path, [e]) == 0)
  {
    hide RmTree, Prune, Work;
    assert [e][1..] == [];
    assert Sweep(env, path, [], LocalPick(env, path, cutoff)) == Sweeping([], [], 0);
    assert PruneBelow(env, cutoff, path, []) == Sweeping([], [], 0);
  }

  /** A directory whose first entries were only swept and whose other entries are finished. */
  function Halfway(env: Env, cutoff: int, path: Path, mtime: int, a: seq<Entry>, b: seq<Entry>): Node {
    Dir(mtime, Sweep(env, path, a, LocalPick(env, path, cutoff)).left + PruneBelow(env, cutoff, path, b).left)
  }

  /** Replacing the entry between the two halves. */
  lemma PutMiddle(mtime: int, a: seq<Entry>, e: Entry, b: seq<Entry>, m: Node)
    requires Find(a, e.name) == None
    ensures
      var d := Dir(mtime, a + [e] + b);
      At(d, [e.name]) == Some(e.node) && Put(d, [e.name], m) == Dir(mtime, a + [Entry(e.name, m)] + b)
  {
    hide Find, Put, At;
    var es := a + [e] + b;
    assert es[|a|] == e;
    assert forall k :: 0 <= k < |a| ==> es[k] == a[k];
    assert Find(es, e.name) == Some(|a|);
    Child(Dir(mtime, es), e.name, m);
    assert es[|a| := Entry(e.name, m)] == a + [Entry(e.name, m)] + b;
  }

  /** Working off the pushed subdirectories turns the swept directory into the finished one. */
  lemma {:induction false} KidsFold(env: Env, cutoff: int, root: Node, path: Path, mtime: int,
                                    a: seq<Entry>, b: seq<Entry>, rest: seq<Path>)
    requires HasDir(root, path) && DistinctNames(a + b)
    ensures
      var from := Put(root, path, Halfway(env, cutoff, path, mtime, a, b));
      var to := Put(root, path, Halfway(env, cutoff, path, mtime, [], a + b));
      var x, y := Pending(env, cutoff, from, rest + Kids(env, cutoff, path, a)), Pending(env, cutoff, to, rest);
      var s := PruneBelow(env, cutoff, path, a);
      && x == Tiering(y.root, s.pruned + y.pruned, s.freed + y.freed)
      && PendingWork(env, cutoff, from, rest + Kids(env, cutoff, path, a))
         == WorkBelow(env, cutoff, path, a) + PendingWork(env, cutoff, to, rest)
    decreases |a|
  {
    hide Prune, RmTree, Work, Halfway, Pending, PendingWork, Put, PruneBelow, WorkBelow;
    if a == [] {
      NothingBelow(env, cutoff, path);
      NoWorkBelow(env, cutoff, path);
      assert rest + [] == rest;
      assert a + b == b;
    } else {
      var n := |a| - 1;
      var c, e := a[..n], a[n];
      assert a == c + [e] && a + b == c + ([e] + b);
      BelowAppend(env, cutoff, path, c, [e]);
      WorkAppend(env, cutoff, path, c, [e]);
      KidsFold(env, cutoff, root, path, mtime, c, [e] + b, rest);
      KidsFoldStep(env, cutoff, root, path, mtime, c, e, b, rest);
    }
  }

  lemma NoWorkBelow(env: Env, cutoff: int, path: Path)
    ensures WorkBelow(env, cutoff, path, []) == 0
  {
  }

  lemma PendingTop(env: Env, cutoff: int, root: Node, stack: seq<Path>, p: Path)
    requires HasDir(root, p)
    ensures
      var t := Within(root, p, Prune(env, cutoff, p, At(root, p).value));
      var u := Pending(env, cutoff, t.root, stack);
      && Pending(env, cutoff, root, stack + [p]) == Tiering(u.root, t.pruned + u.pruned, t.freed + u.freed)
      && PendingWork(env, cutoff, root, stack + [p])
         == Work(env, cutoff, p, At(root, p).value) + PendingWork(env, cutoff, t.root, stack)
  {
    hide Prune, Work, At, Put;
    assert (stack + [p])[..|stack|] == stack;
  }

  lemma KidsFoldStep(env: Env, cutoff: int, root: Node, path: Path, mtime: int,
                     c: seq<Entry>, e: Entry, b: seq<Entry>, rest: seq<Path>)
    requires HasDir(root, path) && DistinctNames(c + ([e] + b))
    ensures
      var from := Put(root, path, Halfway(env, cutoff, path, mtime, c + [e], b));
      var next := Put(root, path, Halfway(env, cutoff, path, mtime, c, [e] + b));
      var x := Pending(env, cutoff, from, rest + Kids(env, cutoff, path, c + [e]));
      var y := Pending(env, cutoff, next, rest + Kids(env, cutoff, path, c));
      var s := PruneBelow(env, cutoff, path, [e]);
      && x == Tiering(y.root, s.pruned + y.pruned, s.freed + y.freed)
      && PendingWork(env, cutoff, from, rest + Kids(env, cutoff, path, c + [e]))
         == WorkBelow(env, cutoff, path, [e]) + PendingWork(env, cutoff, next, rest + Kids(env, cutoff, path, c))
  {
    hide Prune, PruneBelow, WorkBelow, Work, Halfway, Pending, PendingWork, Put, At, Descends, LocalPick;
    assert (c + [e])[..|c|] == c;
    BelowOne(env, cutoff, path, e);
    if Descends(env, path, cutoff, e) {
      DescendsStep(env, cutoff, root, path, mtime, c, e, b);
      var from := Put(root, path, Halfway(env, cutoff, path, mtime, c + [e], b));
      PendingTop(env, cutoff, from, rest + Kids(env, cutoff, path, c), path + [e.name]);
      assert rest + Kids(env, cutoff, path, c + [e]) == rest + Kids(env, cutoff, path, c) + [path + [e.name]];
    } else {
      assert Kids(env, cutoff, path, c + [e]) == Kids(env, cutoff, path, c);
      StaysStep(env, cutoff, path, mtime, c, e, b);
      var y := Pending(env, cutoff, Put(root, path, Halfway(env, cutoff, path, mtime, c, [e] + b)),
                       rest + Kids(env, cutoff, path, c));
      assert [] + y.pruned == y.pruned;
    }
  }

  lemma StaysStep(env: Env, cutoff: int, path: Path, mtime: int, c: seq<Entry>, e: Entry, b: seq<Entry>)
    requires !Descends(env, path, cutoff, e)
    ensures Halfway(env, cutoff, path, mtime, c + [e], b) == Halfway(env, cutoff, path, mtime, c, [e] + b)
  {
    hide Sweep, PruneBelow, LocalPick, Descends;
    SweepAppend(env, path, c, [e], LocalPick(env, path, cutoff));
    BelowAppend(env, cutoff, path, [e], b);
    BelowOne(env, cutoff, path, e);
  }

  /** Finishing one pushed subdirectory moves it from the swept half to the finished half. */
  lemma DescendsStep(env: Env, cutoff: int, root: Node, path: Path, mtime: int, c: seq<Entry>, e: Entry, b: seq<Entry>)
    requires HasDir(root, path) && DistinctNames(c + ([e] + b)) && Descends(env, path, cutoff, e)
    ensures
      var from := Put(root, path, Halfway(env, cutoff, path, mtime, c + [e], b));
      var p := path + [e.name];
      && At(from, p) == Some(e.node)
      && Put(from, p, Prune(env, cutoff, p, e.node).root)
         == Put(root, path, Halfway(env, cutoff, path, mtime, c, [e] + b))
  {
    hide Sweep, PruneBelow, Prune, At, Put, LocalPick, Descends;
    var pick := LocalPick(env, path, cutoff);
    var left, done := Sweep(env, path, c, pick).left, PruneBelow(env, cutoff, path, b).left;
    var t := Prune(env, cutoff, path + [e.name], e.node);
    SweepAppend(env, path, c, [e], pick);
    BelowAppend(env, cutoff, path, [e], b);
    BelowOne(env, cutoff, path, e);
    NotEarlier(c, e, b);
    SweepNames(env, path, c, pick, e.name);
    PutMiddle(mtime, left, e, done, t.root);
    var d := Dir(mtime, left + [e] + done);
    assert Halfway(env, cutoff, path, mtime, c + [e], b) == d;
    assert Halfway(env, cutoff, path, mtime, c, [e] + b) == Dir(mtime, left + [Entry(e.name, t.root)] + done)
      by { assert left + ([Entry(e.name, t.root)] + done) == left + [Entry(e.name, t.root)] + done; }
    PutBelow(root, path, d, [e.name], t.root);
  }

  lemma PutBelow(root: Node, path: Path, d: Node, q: Path, m: Node)
    requires At(root, path).Some? && At(d, q).Some?
    ensures At(Put(root, path, d), path + q) == At(d, q)
    ensures Put(Put(root, path, d), path + q, m) == Put(root, path, Put(d, q, m))
  {
    hide At, Put;
    AtPut(root, path, d, q);
    AtPut(root, path, d, []);
    assert path + [] == path;
    AtSelf(d);
    PutNested(Put(root, path, d), path, q, m);
    PutPut(root, path, d, Put(d, q, m));
  }

  lemma AtSelf(n: Node)
    ensures At(n, []) == Some(n)
  {
  }

  lemma NotEarlier(c: seq<Entry>, e: Entry, b: seq<Entry>)
    requires DistinctNames(c + ([e] + b))
    ensures Find(c, e.name) == None
  {
    var es := c + ([e] + b);
    assert es[|c|] == e && forall k :: 0 <= k < |c| ==> es[k] == c[k];
  }

  /** One step of the stack walk. */
  lemma PendingStep(env: Env, cutoff: int, root: Node, rest: seq<Path>, path: Path)
    requires HasDir(root, path) && DistinctNames(At(root, path).value.entries) && !env.fails(Scan, path)
    ensures
      var dir := At(root, path).value;
      var s := Sweep(env, path, dir.entries, LocalPick(env, path, cutoff));
      var x := Pending(env, cutoff, root, rest + [path]);
      var next := Put(root, path, Touched(env, dir, s.left));
      var stack := rest + Kids(env, cutoff, path, dir.entries);
      var y := Pending(env, cutoff, next, stack);
      && x == Tiering(y.root, s.pruned + y.pruned, s.freed + y.freed)
      && PendingWork(env, cutoff, root, rest + [path]) == 1 + PendingWork(env, cutoff, next, stack)
  {
    hide Sweep, PruneBelow, Pending, PendingWork, Put, At, LocalPick, Kids, WorkBelow;
    var dir := At(root, path).value;
    var es := dir.entries;
    var s := Sweep(env, path, es, LocalPick(env, path, cutoff));
    var below := PruneBelow(env, cutoff, path, es);
    BelowLength(env, cutoff, path, es);
    var m := if |s.left| < |es| then env.now else dir.mtime;
    PendingTop(env, cutoff, root, rest, path);
    KidsFold(env, cutoff, root, path, m, es, [], rest);
    assert es + [] == es;
    HalfwayEnds(env, cutoff, path, m, es);
  }

  lemma BelowLength(env: Env, cutoff: int, path: Path, es: seq<Entry>)
    ensures |PruneBelow(env, cutoff, path, es).left| == |Sweep(env, path, es, LocalPick(env, path, cutoff)).left|
  {
    BelowNames(env, cutoff, path, es, "");
  }

  lemma HalfwayEnds(env: Env, cutoff: int, path: Path, mtime: int, es: seq<Entry>)
    ensures Halfway(env, cutoff, path, mtime, es, [])
         == Dir(mtime, Sweep(env, path, es, LocalPick(env, path, cutoff)).left)
    ensures Halfway(env, cutoff, path, mtime, [], es) == Dir(mtime, PruneBelow(env, cutoff, path, es).left)
  {
    var l, r := Sweep(env, path, es, LocalPick(env, path, cutoff)).left, PruneBelow(env, cutoff, path, es).left;
    assert l + [] == l && [] + r == r;
  }

  lemma SweepOne(env: Env, path: Path, es: seq<Entry>, k: nat, pick: Entry -> bool)
    requires k < |es|
    ensures
      var s, t := Sweep(env, path, es[..k + 1], pick), Sweep(env, path, es[..k], pick);
      var p := path + [es[k].name];
      var r := if pick(es[k]) then RmTree(env, p, es[k].node) else Removal(Some(es[k].node), [], 0);
      && s.left == t.left + (if r.left.Some? then [Entry(es[k].name, r.left.value)] else [])
      && s.pruned == t.pruned + r.pruned && s.freed == t.freed + r.freed
  {
    hide RmTree;
    assert es[..k + 1] == es[..k] + [es[k]];
    SweepAppend(env, path, es[..k], [es[k]], pick);
    assert Sweep(env, path, [], pick) == Sweeping([], [], 0);
    assert [es[k]][1..] == [];
  }

  // ---- The loops ----

  /** The recursive delete, with its loop over the children. */
  method SafeRmTree(env: Env, path: Path, node: Node) returns (r: Removal)
    ensures r == RmTree(env, path, node)
    decreases node, 1
  {
    if NeverTouch(path) {
      return Removal(Some(node), [], 0);
    }
    if !node.Dir? {
      return SafeUnlink(env, path, node);
    }
    if env.fails(Scan, path) {
      return Removal(Some(node), [], 0);
    }
    var s := SweepEntries(env, path, node.entries, Everything);
    if s.left == [] && !env.fails(Rmdir, path) {
      return Removal(None, s.pruned, s.freed);
    }
    return Removal(Some(Touched(env, node, s.left)), s.pruned, s.freed);
  }

  /** The loop every tier has: delete the picked entries of one listing. */
  method SweepEntries(env: Env, path: Path, es: seq<Entry>, pick: Entry -> bool) returns (s: Sweeping)
    ensures s == Sweep(env, path, es, pick)
    decreases es, 0
  {
    hide RmTree;
    var left: seq<Entry>, pruned: seq<Path>, freed: nat := [], [], 0;
    for k := 0 to |es|
      invariant Sweeping(left, pruned, freed) == Sweep(env, path, es[..k], pick)
    {
      SweepOne(env, path, es, k, pick);
      if pick(es[k]) {
        var r := SafeRmTree(env, path + [es[k].name], es[k].node);
        if r.left.Some? {
          left := left + [Entry(es[k].name, r.left.value)];
        }
        pruned, freed := pruned + r.pruned, freed + r.freed;
      } else {
        left := left + [es[k]];
      }
    }
    assert es[..|es|] == es;
    s := Sweeping(left, pruned, freed);
  }

  /** One directory of tier 4: delete what is stale, and list the recent subdirectories to descend into. */
  method PruneLevel(env: Env, cutoff: int, path: Path, es: seq<Entry>) returns (s: Sweeping, kids: seq<Path>)
    ensures s == Sweep(env, path, es, LocalPick(env, path, cutoff))
    ensures kids == Kids(env, cutoff, path, es)
  {
    hide RmTree;
    var left: seq<Entry>, pruned: seq<Path>, freed: nat := [], [], 0;
    kids := [];
    for k := 0 to |es|
      invariant Sweeping(left, pruned, freed) == Sweep(env, path, es[..k], LocalPick(env, path, cutoff))
      invariant kids == Kids(env, cutoff, path, es[..k])
    {
      var e := es[k];
      var p := path + [e.name];
      SweepOne(env, path, es, k, LocalPick(env, path, cutoff));
      assert es[..k + 1][..k] == es[..k];
      if (e.node.Dir? && p == BIN) || NeverTouch(p) || env.fails(Stat, p) {
        NeverTouchStays(env, p, e.node);
        left := left + [e];
      } else if e.node.mtime > cutoff {
        if e.node.Dir? {
          kids := kids + [p];
        }
        left := left + [e];
      } else {
        var r;
        if e.node.Dir? {
          r := SafeRmTree(env, p, e.node);
        } else {
          r := SafeUnlink(env, p, e.node);
          UnlinkIsRmTree(env, p, e.node);
        }
        if r.left.Some? {
          left := left + [Entry(e.name, r.left.value)];
        }
        pruned, freed := pruned + r.pruned, freed + r.freed;
      }
    }
    assert es[..|es|] == es;
    s := Sweeping(left, pruned, freed);
  }

  lemma NeverTouchStays(env: Env, path: Path, node: Node)
    ensures NeverTouch(path) ==> RmTree(env, path, node) == Removal(Some(node), [], 0)
  {
  }

  lemma UnlinkIsRmTree(env: Env, path: Path, node: Node)
    requires !node.Dir? && !NeverTouch(path)
    ensures RmTree(env, path, node) == SafeUnlink(env, path, node)
  {
  }

  // ---- Quota enforcement ----

  /** The walker lock: taken, held by another walker, or its file could not be opened. */
  datatype Lock = Free | Busy | Broken

  datatype Report = Report(before: nat, after: nat, pruned: seq<Path>, skipped: bool)
  datatype Enforced = Enforced(root: Node, report: Report)

  function WithLockFile(now: int, root: Node): Node
    requires root.Dir?
  {
    if Find(root.entries, LOCK_FILE).Some? then root else Dir(now, root.entries + [Entry(LOCK_FILE, File(0, now))])
  }

  /** The tree once the walker has tried to lock it. */
  function Opened(now: int, root: Node, lock: Lock): (r: Node)
    requires root.Dir?
    ensures r.Dir?
  {
    if lock == Broken then root else WithLockFile(now, root)
  }

  /** The first `k` tiers, one after the other; every tier has its own fault pattern. */
  function Tiers(envs: nat -> Env, cutoff: int, root: Node, k: nat): Tiering {
    if k == 0 then Tiering(root, [], 0)
    else
      var t := Tiers(envs, cutoff, root, k - 1);
      var u := Tier(k, envs(k), cutoff, t.root);
      Tiering(u.root, t.pruned + u.pruned, t.freed + u.freed)
  }

  function Tier(k: nat, env: Env, cutoff: int, root: Node): Tiering {
    if k == 1 then PruneCache(env, root)
    else if k == 2 then PruneSitePackages(env, cutoff, root)
    else if k == 3 then PruneOtherLib(env, cutoff, root)
    else PruneStaleLocal(env, cutoff, root)
  }

  /** The size the scan after the first `k` tiers finds. */
  function Measured(envs: nat -> Env, cutoff: int, root: Node, k: nat): nat {
    Seen(envs(k).sight, [], Tiers(envs, cutoff, root, k).root)
  }

  /** The size reported after `k` tiers: the one found first, or after tiers 1 to 3 that of another scan. */
  function Reported(envs: nat -> Env, cutoff: int, root: Node, k: nat): nat {
    Seen(if 0 < k < 4 then envs(k).again else envs(k).sight, [], Tiers(envs, cutoff, root, k).root)
  }

  /** How many tiers run: as few as fit the budget, at most four. */
  function TiersNeeded(envs: nat -> Env, cutoff: int, budget: nat, root: Node, k: nat): nat
    requires k <= 4
    decreases 4 - k
  {
    if k == 4 || Measured(envs, cutoff, root, k) <= budget then k
    else TiersNeeded(envs, cutoff, budget, root, k + 1)
  }

  function Enforce(envs: nat -> Env, cutoff: int, budget: nat, root: Node, lock: Lock): Enforced {
    if !root.Dir? then Enforced(root, Report(0, 0, [], false))
    else
      var start := Opened(envs(0).now, root, lock);
      if lock == Busy then Enforced(start, Report(0, 0, [], true))
      else
        var k := TiersNeeded(envs, cutoff, budget, start, 0);
        var t := Tiers(envs, cutoff, start, k);
        Enforced(t.root, Report(Measured(envs, cutoff, start, 0), Reported(envs, cutoff, start, k), t.pruned, false))
  }

  class TenantHome {
    var root: Node
    var pruned: seq<Path>

    constructor (root: Node)
      ensures this.root == root && pruned == []
    {
      this.root := root;
      pruned := [];
    }

    ghost predicate Did(before: Node, listed: seq<Path>, t: Tiering, freed: nat)
      reads this
    {
      root == t.root && pruned == listed + t.pruned && freed == t.freed && (before.Dir? ==> root.Dir?)
    }

    method PruneCacheDir(env: Env) returns (freed: nat)
      modifies this
      ensures Did(old(root), old(pruned), PruneCache(env, old(root)), freed)
    {
      freed := 0;
      if HasDir(root, CACHE) && !env.fails(Scan, CACHE) {
        var dir := At(root, CACHE).value;
        var s := SweepEntries(env, CACHE, dir.entries, Everything);
        root, pruned, freed := Put(root, CACHE, Touched(env, dir, s.left)), pruned + s.pruned, s.freed;
      } else if HasDir(root, CACHE) {
        PutSelf(root, CACHE);
      }
    }

    method PruneOneSitePackages(env: Env, cutoff: int, name: string) returns (freed: nat)
      requires HasDir(root, LIB + [name])
      modifies this
      ensures
        var py := At(old(root), LIB + [name]).value;
        Did(old(root), old(pruned), Within(old(root), LIB + [name], PrunePackages(env, cutoff, name, py)), freed)
    {
      freed := 0;
      var lib := LIB + [name];
      var py := At(root, lib).value;
      var path := lib + [SITE_PACKAGES];
      ghost var before := root;
      PutSelf(root, lib);
      if HasDir(py, [SITE_PACKAGES]) {
        PutSelf(py, [SITE_PACKAGES]);
        if !env.fails(Scan, path) {
          var dir := At(py, [SITE_PACKAGES]).value;
          var s := SweepEntries(env, path, dir.entries, StalePick(env, path, cutoff));
          root := Put(root, lib, Put(py, [SITE_PACKAGES], Touched(env, dir, s.left)));
          pruned, freed := pruned + s.pruned, s.freed;
        }
      }
    }

    method PruneSitePackagesDirs(env: Env, cutoff: int) returns (freed: nat)
      modifies this
      ensures Did(old(root), old(pruned), PruneSitePackages(env, cutoff, old(root)), freed)
    {
      freed := 0;
      if !HasDir(root, LIB) || env.fails(Scan, LIB) {
        return;
      }
      var names := Names(At(root, LIB).value.entries);
      hide PrunePackages, PrunePythons, Within, At, Put;
      ghost var want := PrunePythons(env, cutoff, root, names);
      assert names[0..] == names;
      var i := 0;
      while i < |names|
        invariant 0 <= i <= |names|
        invariant old(root).Dir? ==> root.Dir?
        invariant
          var rest := PrunePythons(env, cutoff, root, names[i..]);
          && rest.root == want.root && freed + rest.freed == want.freed
          && pruned + rest.pruned == old(pruned) + want.pruned
      {
        PythonsStep(env, cutoff, root, names, i);
        if HasDir(root, LIB + [names[i]]) && PYTHON <= names[i] {
          ghost var path := LIB + [names[i]];
          ghost var t := Within(root, path, PrunePackages(env, cutoff, names[i], At(root, path).value));
          Regroup(pruned, t.pruned, PrunePythons(env, cutoff, t.root, names[i + 1..]).pruned);
          var n := PruneOneSitePackages(env, cutoff, names[i]);
          freed := freed + n;
        }
        i := i + 1;
      }
      PythonsEnd(env, cutoff, root, names);
    }

    method PruneOtherLocalLib(env: Env, cutoff: int) returns (freed: nat)
      modifies this
      ensures Did(old(root), old(pruned), PruneOtherLib(env, cutoff, old(root)), freed)
    {
      freed := 0;
      if HasDir(root, LIB) {
        PutSelf(root, LIB);
        if !env.fails(Scan, LIB) {
          var dir := At(root, LIB).value;
          var s := SweepEntries(env, LIB, dir.entries, LibPick(env, cutoff));
          root, pruned, freed := Put(root, LIB, Touched(env, dir, s.left)), pruned + s.pruned, s.freed;
        }
      }
    }

    /** Scan, then one tier after the other until the tree fits the budget. */
    method EnforceQuota(envs: nat -> Env, cutoff: int, budget: nat, lock: Lock) returns (report: Report)
      requires WellFormed(root)
      modifies this
      ensures Enforced(root, report) == Enforce(envs, cutoff, budget, old(root), lock)
      ensures !old(root).Dir? ==> root == old(root) && report == Report(0, 0, [], false)
    {
      hide WellFormed, Seen, Opened, PruneCache, PruneSitePackages, PruneOtherLib, PruneStaleLocal, Tiers;
      pruned := [];
      if !root.Dir? {
        return Report(0, 0, [], false);
      }
      OpenedWellFormed(envs(0).now, root, lock);
      root := Opened(envs(0).now, root, lock);
      if lock == Busy {
        return Report(0, 0, [], true);
      }
      ghost var start := root;
      FourTiers(envs, cutoff, start);
      FewTiers(envs, cutoff, budget, start);
      var before := ScanSize(envs(0).sight, root);
      if before <= budget {
        return Report(before, before, [], false);
      }
      TierWellFormed(1, envs(1), cutoff, root);
      var freed := PruneCacheDir(envs(1));
      var after := ScanSize(envs(1).sight, root);
      if after <= budget {
        after := ScanSize(envs(1).again, root);
        return Report(before, after, pruned, false);
      }
      TierWellFormed(2, envs(2), cutoff, root);
      freed := PruneSitePackagesDirs(envs(2), cutoff);
      after := ScanSize(envs(2).sight, root);
      if after <= budget {
        after := ScanSize(envs(2).again, root);
        return Report(before, after, pruned, false);
      }
      TierWellFormed(3, envs(3), cutoff, root);
      freed := PruneOtherLocalLib(envs(3), cutoff);
      after := ScanSize(envs(3).sight, root);
      if after <= budget {
        after := ScanSize(envs(3).again, root);
        return Report(before, after, pruned, false);
      }
      freed := PruneStaleLocalDirs(envs(4), cutoff);
      after := ScanSize(envs(4).sight, root);
      return Report(before, after, pruned, false);
    }

    /** One directory of tier 4, replaced in the tree once its listing is done. */
    method PruneOneLevel(env: Env, cutoff: int, path: Path) returns (freed: nat, kids: seq<Path>)
      requires WellFormed(root) && HasDir(root, path) && !env.fails(Scan, path)
      modifies this
      ensures WellFormed(root) && (old(root).Dir? ==> root.Dir?)
      ensures
        var dir := At(old(root), path).value;
        var s := Sweep(env, path, dir.entries, LocalPick(env, path, cutoff));
        && root == Put(old(root), path, Touched(env, dir, s.left))
        && pruned == old(pruned) + s.pruned && freed == s.freed
        && kids == Kids(env, cutoff, path, dir.entries)
    {
      hide WellFormed, Sweep, Kids, LocalPick;
      var dir := At(root, path).value;
      WellFormedAt(root, path);
      WellFormedEntries(dir);
      var s;
      s, kids := PruneLevel(env, cutoff, path, dir.entries);
      SweepWellFormed(env, path, dir.entries, LocalPick(env, path, cutoff));
      AllWellFormed(Touched(env, dir, s.left));
      WellFormedPut(root, path, Touched(env, dir, s.left));
      root := Put(root, path, Touched(env, dir, s.left));
      pruned, freed := pruned + s.pruned, s.freed;
    }

    /** Tier 4: the explicit stack. */
    method PruneStaleLocalDirs(env: Env, cutoff: int) returns (freed: nat)
      requires WellFormed(root)
      modifies this
      ensures Did(old(root), old(pruned), PruneStaleLocal(env, cutoff, old(root)), freed)
    {
      freed := 0;
      if !HasDir(root, LOCAL) {
        return;
      }
      hide WellFormed, Prune, Kids, Pending, PendingWork, Sweep, LocalPick, Put, Work, Touched;
      ghost var want := PruneStaleLocal(env, cutoff, root);
      var stack := [LOCAL];
      PendingTop(env, cutoff, root, [], LOCAL);
      PendingNone(env, cutoff, want.root);
      assert [] + [LOCAL] == [LOCAL];
      assert want.pruned + [] == want.pruned;
      while stack != []
        invariant WellFormed(root) && (old(root).Dir? ==> root.Dir?)
        invariant
          var rest := Pending(env, cutoff, root, stack);
          && rest.root == want.root && freed + rest.freed == want.freed
          && pruned + rest.pruned == old(pruned) + want.pruned
        decreases PendingWork(env, cutoff, root, stack)
      {
        var cur, below := stack[|stack| - 1], stack[..|stack| - 1];
        assert stack == below + [cur];
        stack := below;
        if !HasDir(root, cur) {
          PendingSkip(env, cutoff, root, below, cur);
          continue;
        }
        if env.fails(Scan, cur) {
          PendingTop(env, cutoff, root, below, cur);
          ScanFails(env, cutoff, root, cur);
          NothingPrepended(Pending(env, cutoff, root, below).pruned);
          continue;
        }
        DistinctAt(root, cur);
        PendingStep(env, cutoff, root, below, cur);
        ghost var s := Sweep(env, cur, At(root, cur).value.entries, LocalPick(env, cur, cutoff));
        ghost var listed := pruned;
        var n, kids := PruneOneLevel(env, cutoff, cur);
        freed := freed + n;
        stack := stack + kids;
        Regroup(listed, s.pruned, Pending(env, cutoff, root, stack).pruned);
      }
      PendingNone(env, cutoff, root);
      assert pruned + [] == pruned;
    }
  }

  lemma Regroup(a: seq<Path>, b: seq<Path>, c: seq<Path>)
    ensures (a + b) + c == a + (b + c)
  {
  }

  lemma NothingPrepended(a: seq<Path>)
    ensures [] + a == a
  {
  }

  lemma PendingNone(env: Env, cutoff: int, root: Node)
    ensures Pending(env, cutoff, root, []) == Tiering(root, [], 0)
  {
  }

  lemma PendingSkip(env: Env, cutoff: int, root: Node, rest: seq<Path>, path: Path)
    requires !HasDir(root, path)
    ensures Pending(env, cutoff, root, rest + [path]) == Pending(env, cutoff, root, rest)
    ensures PendingWork(env, cutoff, root, rest + [path]) == 1 + PendingWork(env, cutoff, root, rest)
  {
    assert (rest + [path])[..|rest|] == rest;
  }

  lemma DistinctAt(root: Node, path: Path)
    requires WellFormed(root) && HasDir(root, path)
    ensures DistinctNames(At(root, path).value.entries)
  {
    WellFormedAt(root, path);
  }

  lemma FourTiers(envs: nat -> Env, cutoff: int, root: Node)
    ensures Tiers(envs, cutoff, root, 0) == Tiering(root, [], 0)
    ensures forall k :: 0 <= k < 4 ==>
      var t := Tiers(envs, cutoff, root, k);
      var u := Tier(k + 1, envs(k + 1), cutoff, t.root);
      Tiers(envs, cutoff, root, k + 1) == Tiering(u.root, t.pruned + u.pruned, t.freed + u.freed)
  {
  }

  lemma FewTiers(envs: nat -> Env, cutoff: int, budget: nat, root: Node)
    ensures
      var size := (k: nat) => Measured(envs, cutoff, root, k);
      TiersNeeded(envs, cutoff, budget, root, 0) ==
        if size(0) <= budget then 0 else if size(1) <= budget then 1
        else if size(2) <= budget then 2 else if size(3) <= budget then 3 else 4
  {
    hide Measured;
    var two := TiersNeeded(envs, cutoff, budget, root, 2);
    assert TiersNeeded(envs, cutoff, budget, root, 4) == 4;
  }

  lemma SweepDirWellFormed(env: Env, path: Path, dir: Node, pick: Entry -> bool)
    requires dir.Dir? && WellFormed(dir)
    ensures WellFormed(SweepDir(env, path, dir, pick).root)
  {
    SweepWellFormed(env, path, dir.entries, pick);
  }

  lemma WithinWellFormed(env: Env, root: Node, rel: Path, path: Path, pick: Entry -> bool)
    requires WellFormed(root) && HasDir(root, rel)
    ensures WellFormed(Within(root, rel, SweepDir(env, path, At(root, rel).value, pick)).root)
  {
    WellFormedAt(root, rel);
    SweepDirWellFormed(env, path, At(root, rel).value, pick);
    WellFormedPut(root, rel, SweepDir(env, path, At(root, rel).value, pick).root);
  }

  lemma {:induction false} PythonsWellFormed(env: Env, cutoff: int, root: Node, names: seq<string>)
    requires WellFormed(root)
    ensures WellFormed(PrunePythons(env, cutoff, root, names).root)
    decreases |names|
  {
    hide WellFormed, SweepDir;
    if names != [] {
      var path := LIB + [names[0]];
      if HasDir(root, path) && PYTHON <= names[0] {
        var py := At(root, path).value;
        WellFormedAt(root, path);
        if HasDir(py, [SITE_PACKAGES]) {
          var inner := path + [SITE_PACKAGES];
          WithinWellFormed(env, py, [SITE_PACKAGES], inner, StalePick(env, inner, cutoff));
        }
        var u := PrunePackages(env, cutoff, names[0], py);
        WellFormedPut(root, path, u.root);
        PythonsWellFormed(env, cutoff, Put(root, path, u.root), names[1..]);
      } else {
        PythonsWellFormed(env, cutoff, root, names[1..]);
      }
    }
  }

  lemma {:induction false} PruneWellFormed(env: Env, cutoff: int, path: Path, dir: Node)
    requires dir.Dir? && WellFormed(dir)
    ensures WellFormed(Prune(env, cutoff, path, dir).root)
    decreases dir, 1
  {
    if !env.fails(Scan, path) {
      WellFormedEntries(dir);
      BelowKeepsWellFormed(env, cutoff, path, dir.entries);
      WellFormedFromEntries(Prune(env, cutoff, path, dir).root);
    }
  }

  lemma {:induction false} BelowKeepsWellFormed(env: Env, cutoff: int, path: Path, es: seq<Entry>)
    requires DistinctNames(es) && forall e :: e in es ==> WellFormed(e.node)
    ensures
      var left := PruneBelow(env, cutoff, path, es).left;
      DistinctNames(left) && forall e :: e in left ==> WellFormed(e.node)
    decreases es, 0
  {
    hide WellFormed, PruneBelow, RmTree, Prune, EntryAfter;
    if es == [] {
      NothingBelow(env, cutoff, path);
    } else {
      assert forall e :: e in es[1..] ==> e in es;
      BelowKeepsWellFormed(env, cutoff, path, es[1..]);
      HeadNotInTail(es);
      BelowNames(env, cutoff, path, es[1..], es[0].name);
      BelowHead(env, cutoff, path, es);
      if Descends(env, path, cutoff, es[0]) {
        PruneWellFormed(env, cutoff, path + [es[0].name], es[0].node);
      }
      AfterWellFormed(env, cutoff, path, es[0]);
    }
  }

  lemma AfterWellFormed(env: Env, cutoff: int, path: Path, e: Entry)
    requires WellFormed(e.node)
    requires Descends(env, path, cutoff, e) ==> WellFormed(Prune(env, cutoff, path + [e.name], e.node).root)
    ensures var after := EntryAfter(env, cutoff, path, e); after.Some? ==> WellFormed(after.value)
  {
    hide WellFormed, RmTree, Prune;
    RmTreeWellFormed(env, path + [e.name], e.node);
  }

  lemma TierWellFormed(k: nat, env: Env, cutoff: int, root: Node)
    requires WellFormed(root)
    ensures WellFormed(Tier(k, env, cutoff, root).root)
  {
    hide WellFormed, SweepDir, Prune, PrunePythons;
    if HasDir(root, CACHE) {
      WithinWellFormed(env, root, CACHE, CACHE, Everything);
    }
    if HasDir(root, LIB) {
      WithinWellFormed(env, root, LIB, LIB, LibPick(env, cutoff));
      PythonsWellFormed(env, cutoff, root, Names(At(root, LIB).value.entries));
    }
    if HasDir(root, LOCAL) {
      WellFormedAt(root, LOCAL);
      PruneWellFormed(env, cutoff, LOCAL, At(root, LOCAL).value);
      WellFormedPut(root, LOCAL, Prune(env, cutoff, LOCAL, At(root, LOCAL).value).root);
    }
  }

  lemma OpenedWellFormed(now: int, root: Node, lock: Lock)
    requires root.Dir? && WellFormed(root)
    ensures WellFormed(Opened(now, root, lock))
  {
  }

  lemma PythonsStep(env: Env, cutoff: int, root: Node, names: seq<string>, i: nat)
    requires i < |names|
    ensures
      var path := LIB + [names[i]];
      var x := PrunePythons(env, cutoff, root, names[i..]);
      if HasDir(root, path) && PYTHON <= names[i] then
        var t := Within(root, path, PrunePackages(env, cutoff, names[i], At(root, path).value));
        var y := PrunePythons(env, cutoff, t.root, names[i + 1..]);
        x == Tiering(y.root, t.pruned + y.pruned, t.freed + y.freed)
      else
        x == PrunePythons(env, cutoff, root, names[i + 1..])
  {
    hide PrunePackages;
    assert names[i..][1..] == names[i + 1..];
  }

  lemma PythonsEnd(env: Env, cutoff: int, root: Node, names: seq<string>)
    ensures PrunePythons(env, cutoff, root, names[|names|..]) == Tiering(root, [], 0)
  {
  }

  lemma AllWellFormed(dir: Node)
    requires dir.Dir? && DistinctNames(dir.entries)
    requires forall i :: 0 <= i < |dir.entries| ==> WellFormed(dir.entries[i].node)
    ensures WellFormed(dir)
  {
  }

  lemma ScanFails(env: Env, cutoff: int, root: Node, path: Path)
    requires HasDir(root, path) && env.fails(Scan, path)
    ensures
      var t := Within(root, path, Prune(env, cutoff, path, At(root, path).value));
      t == Tiering(root, [], 0) && Work(env, cutoff, path, At(root, path).value) == 1
  {
    PutSelf(root, path);
  }
}
