/** A file tree as scandir sees it, with paths, and the size scan over it. */
module FileTree {
  import opened Wrappers

  type Path = seq<string>

  datatype Node =
    | File(size: nat, mtime: int)
    | Link(size: nat, mtime: int)
    | Dir(mtime: int, entries: seq<Entry>)

  datatype Entry = Entry(name: string, node: Node)

  function Find(es: seq<Entry>, name: string): (r: Option<nat>)
    ensures r.Some? ==> r.value < |es| && es[r.value].name == name
    ensures r.Some? ==> forall i :: 0 <= i < r.value ==> es[i].name != name
    ensures r == None ==> forall i :: 0 <= i < |es| ==> es[i].name != name
  {
    if es == [] then None
    else if es[0].name == name then Some(0)
    else match Find(es[1..], name)
      case None => None
      case Some(i) => Some(i + 1)
  }

  function At(n: Node, path: Path): Option<Node>
    decreases |path|
  {
    if path == [] then Some(n)
    else if !n.Dir? then None
    else match Find(n.entries, path[0])
      case None => None
      case Some(i) => At(n.entries[i].node, path[1..])
  }

  /** `n` with the node at `path` replaced by `m`. */
  function Put(n: Node, path: Path, m: Node): Node
    requires At(n, path).Some?
    decreases |path|
  {
    if path == [] then m
    else
      var i := Find(n.entries, path[0]).value;
      n.(entries := n.entries[i := Entry(path[0], Put(n.entries[i].node, path[1..], m))])
  }

  predicate DistinctNames(es: seq<Entry>) {
    forall i, j :: 0 <= i < j < |es| ==> es[i].name != es[j].name
  }

  /** No directory lists a name twice. */
  predicate WellFormed(n: Node) {
    n.Dir? ==> DistinctNames(n.entries) && forall i :: 0 <= i < |n.entries| ==> WellFormed(n.entries[i].node)
  }

  lemma FindUnique(es: seq<Entry>, i: nat)
    requires i < |es| && DistinctNames(es)
    ensures Find(es, es[i].name) == Some(i)
  {
  }

  lemma HeadNotInTail(es: seq<Entry>)
    requires es != [] && DistinctNames(es)
    ensures Find(es[1..], es[0].name) == None
  {
    assert forall i :: 0 <= i < |es| - 1 ==> es[1..][i].name != es[0].name;
  }

  lemma FindSame(es: seq<Entry>, i: nat, m: Node, name: string)
    requires i < |es|
    ensures Find(es[i := Entry(es[i].name, m)], name) == Find(es, name)
  {
    var fs := es[i := Entry(es[i].name, m)];
    assert forall k :: 0 <= k < |es| ==> fs[k].name == es[k].name;
  }

  lemma {:induction false} AtAppend(n: Node, p: Path, q: Path)
    ensures At(n, p + q) == (if At(n, p).Some? then At(At(n, p).value, q) else None)
    decreases |p|
  {
    if p == [] {
      assert p + q == q;
    } else {
      assert (p + q)[0] == p[0] && (p + q)[1..] == p[1..] + q;
      if n.Dir? && Find(n.entries, p[0]).Some? {
        AtAppend(n.entries[Find(n.entries, p[0]).value].node, p[1..], q);
      }
    }
  }

  lemma {:induction false} AtPut(n: Node, p: Path, m: Node, q: Path)
    requires At(n, p).Some?
    ensures At(Put(n, p, m), p + q) == At(m, q)
    decreases |p|
  {
    if p == [] {
      assert p + q == q;
    } else {
      assert (p + q)[0] == p[0] && (p + q)[1..] == p[1..] + q;
      var i := Find(n.entries, p[0]).value;
      AtPut(n.entries[i].node, p[1..], m, q);
      FindSame(n.entries, i, Put(n.entries[i].node, p[1..], m), p[0]);
    }
  }

  lemma Child(n: Node, name: string, m: Node)
    requires n.Dir? && Find(n.entries, name).Some?
    ensures
      var i := Find(n.entries, name).value;
      && At(n, [name]) == Some(n.entries[i].node)
      && Put(n, [name], m) == n.(entries := n.entries[i := Entry(name, m)])
  {
    assert [name][1..] == [];
  }

  /** Neither path is an extension of the other. */
  predicate Apart(p: Path, q: Path) {
    !(p <= q) && !(q <= p)
  }

  lemma {:induction false} AtPutApart(n: Node, p: Path, m: Node, q: Path)
    requires At(n, p).Some? && Apart(p, q)
    ensures At(Put(n, p, m), q) == At(n, q)
    decreases |p|
  {
    var i := Find(n.entries, p[0]).value;
    FindSame(n.entries, i, Put(n.entries[i].node, p[1..], m), q[0]);
    if q[0] == p[0] {
      assert [p[0]] + p[1..] == p && [q[0]] + q[1..] == q;
      AtPutApart(n.entries[i].node, p[1..], m, q[1..]);
    }
  }

  lemma {:induction false} AtPutAbove(n: Node, p: Path, m: Node, q: Path)
    requires At(n, p).Some? && q < p
    ensures At(n, q).Some? && At(n, q).value.Dir?
    ensures At(Put(n, p, m), q).Some? && At(Put(n, p, m), q).value.Dir?
    ensures At(Put(n, p, m), q).value.mtime == At(n, q).value.mtime
    decreases |p|
  {
    if q != [] {
      var i := Find(n.entries, p[0]).value;
      FindSame(n.entries, i, Put(n.entries[i].node, p[1..], m), p[0]);
      assert [p[0]] + p[1..] == p && [q[0]] + q[1..] == q && q[0] == p[0];
      AtPutAbove(n.entries[i].node, p[1..], m, q[1..]);
    }
  }

  lemma {:induction false} PutPut(n: Node, p: Path, m: Node, k: Node)
    requires At(n, p).Some?
    ensures At(Put(n, p, m), p).Some? && Put(Put(n, p, m), p, k) == Put(n, p, k)
    decreases |p|
  {
    if p != [] {
      var i := Find(n.entries, p[0]).value;
      PutPut(n.entries[i].node, p[1..], m, k);
      FindSame(n.entries, i, Put(n.entries[i].node, p[1..], m), p[0]);
    }
  }

  /** Replacing a node below the one at `p` is replacing the one at `p`. */
  lemma {:induction false} PutNested(n: Node, p: Path, q: Path, m: Node)
    requires At(n, p).Some? && At(At(n, p).value, q).Some?
    ensures At(n, p + q).Some? && Put(n, p + q, m) == Put(n, p, Put(At(n, p).value, q, m))
    decreases |p|
  {
    AtAppend(n, p, q);
    if p == [] {
      assert p + q == q;
    } else {
      assert (p + q)[0] == p[0] && (p + q)[1..] == p[1..] + q;
      PutNested(n.entries[Find(n.entries, p[0]).value].node, p[1..], q, m);
    }
  }

  lemma {:induction false} PutSelf(n: Node, p: Path)
    requires At(n, p).Some?
    ensures Put(n, p, At(n, p).value) == n
    decreases |p|
  {
    if p != [] {
      PutSelf(n.entries[Find(n.entries, p[0]).value].node, p[1..]);
    }
  }

  lemma {:induction false} WellFormedAt(n: Node, p: Path)
    requires WellFormed(n) && At(n, p).Some?
    ensures WellFormed(At(n, p).value)
    decreases |p|
  {
    if p != [] {
      WellFormedAt(n.entries[Find(n.entries, p[0]).value].node, p[1..]);
    }
  }

  lemma {:induction false} WellFormedPut(n: Node, p: Path, m: Node)
    requires WellFormed(n) && At(n, p).Some? && WellFormed(m)
    ensures WellFormed(Put(n, p, m))
    decreases |p|
  {
    if p != [] {
      var i := Find(n.entries, p[0]).value;
      WellFormedPut(n.entries[i].node, p[1..], m);
    }
  }

  // ---- Sizes ----

  function Size(n: Node): nat
    decreases n, 1
  {
    match n
    case File(size, _) => size
    case Link(size, _) => size
    case Dir(_, es) => SizeAll(es)
  }

  function SizeAll(es: seq<Entry>): nat
    decreases es, 0
  {
    if es == [] then 0 else Size(es[0].node) + SizeAll(es[1..])
  }

  lemma {:induction false} SizeAllAppend(a: seq<Entry>, b: seq<Entry>)
    ensures SizeAll(a + b) == SizeAll(a) + SizeAll(b)
  {
    if a == [] {
      assert a + b == b;
    } else {
      assert (a + b)[0] == a[0] && (a + b)[1..] == a[1..] + b;
      SizeAllAppend(a[1..], b);
    }
  }

  lemma SizeAllUpdate(es: seq<Entry>, i: nat, e: Entry)
    requires i < |es|
    ensures SizeAll(es[i := e]) == SizeAll(es) - Size(es[i].node) + Size(e.node)
  {
    assert es == es[..i] + ([es[i]] + es[i + 1..]);
    assert es[i := e] == es[..i] + ([e] + es[i + 1..]);
    SizeAllAppend(es[..i], [es[i]] + es[i + 1..]);
    SizeAllAppend(es[..i], [e] + es[i + 1..]);
  }

  lemma {:induction false} SizePut(n: Node, p: Path, m: Node)
    requires At(n, p).Some?
    ensures Size(Put(n, p, m)) == Size(n) - Size(At(n, p).value) + Size(m)
    decreases |p|
  {
    if p != [] {
      var es := n.entries;
      var i := Find(es, p[0]).value;
      var e := Entry(p[0], Put(es[i].node, p[1..], m));
      SizePut(es[i].node, p[1..], m);
      SizeAllUpdate(es, i, e);
    }
  }

  function Nodes(n: Node): nat
    decreases n, 1
  {
    if n.Dir? then 1 + NodesAll(n.entries) else 1
  }

  function NodesAll(es: seq<Entry>): nat
    decreases es, 0
  {
    if es == [] then 0 else Nodes(es[0].node) + NodesAll(es[1..])
  }

  // ---- The size scan ----

  /**
   What a scan can see: the listing of a directory may break off after some entries, and an entry
   may be impossible to examine.
   */
  datatype Sight = Sight(breaks: Path -> Option<nat>, hidden: Path -> bool)

  const CLEAR := Sight(_ => None, _ => false)

  /** The entries a listing yields before it breaks off. */
  function Listed(sight: Sight, path: Path, es: seq<Entry>): (r: seq<Entry>)
    ensures r <= es
  {
    match sight.breaks(path)
    case None => es
    case Some(n) => if n < |es| then es[..n] else es
  }

  /** The size of what can be seen of a node. */
  function Seen(sight: Sight, path: Path, n: Node): nat
    decreases n, 1
  {
    match n
    case File(size, _) => size
    case Link(size, _) => size
    case Dir(_, es) => SeenAll(sight, path, es, |Listed(sight, path, es)|)
  }

  /** The size of what can be seen of the first `k` entries. */
  function SeenAll(sight: Sight, path: Path, es: seq<Entry>, k: nat): nat
    requires k <= |es|
    decreases es, 0, k
  {
    if k == 0 then 0
    else
      var e := es[k - 1];
      SeenAll(sight, path, es, k - 1) + (if sight.hidden(path + [e.name]) then 0 else Seen(sight, path + [e.name], e.node))
  }

  /** With nothing in the way that is the size of the tree; otherwise it is never more. */
  lemma {:induction false} SeenIsSize(sight: Sight, path: Path, n: Node)
    ensures Seen(sight, path, n) <= Size(n)
    ensures sight == CLEAR ==> Seen(sight, path, n) == Size(n)
    decreases n, 1
  {
    if n.Dir? {
      var es := n.entries;
      SeenAllIsSize(sight, path, es, |Listed(sight, path, es)|);
      assert es[..|es|] == es;
      SizeGrows(es, |Listed(sight, path, es)|);
    }
  }

  lemma {:induction false} SeenAllIsSize(sight: Sight, path: Path, es: seq<Entry>, k: nat)
    requires k <= |es|
    ensures SeenAll(sight, path, es, k) <= SizeAll(es[..k])
    ensures sight == CLEAR ==> SeenAll(sight, path, es, k) == SizeAll(es[..k])
    decreases es, 0, k
  {
    if k > 0 {
      SeenAllIsSize(sight, path, es, k - 1);
      SeenIsSize(sight, path + [es[k - 1].name], es[k - 1].node);
      assert es[..k] == es[..k - 1] + [es[k - 1]];
      SizeAllAppend(es[..k - 1], [es[k - 1]]);
      assert SizeAll([es[k - 1]][1..]) == 0;
    }
  }

  lemma SizeGrows(es: seq<Entry>, k: nat)
    requires k <= |es|
    ensures SizeAll(es[..k]) <= SizeAll(es)
  {
    assert es == es[..k] + es[k..];
    SizeAllAppend(es[..k], es[k..]);
  }

  /** A directory waiting on the scan's stack. */
  datatype Waiting = Waiting(path: Path, node: Node)

  function SeenStack(sight: Sight, stack: seq<Waiting>): nat {
    if stack == [] then 0
    else Seen(sight, stack[|stack| - 1].path, stack[|stack| - 1].node) + SeenStack(sight, stack[..|stack| - 1])
  }

  function NodesStack(stack: seq<Waiting>): nat {
    if stack == [] then 0 else Nodes(stack[|stack| - 1].node) + NodesStack(stack[..|stack| - 1])
  }

  predicate AllDirs(stack: seq<Waiting>) {
    forall i :: 0 <= i < |stack| ==> stack[i].node.Dir?
  }

  lemma PushStack(sight: Sight, stack: seq<Waiting>, w: Waiting)
    ensures SeenStack(sight, stack + [w]) == SeenStack(sight, stack) + Seen(sight, w.path, w.node)
    ensures NodesStack(stack + [w]) == NodesStack(stack) + Nodes(w.node)
  {
    assert (stack + [w])[..|stack|] == stack;
  }

  lemma OneMore(es: seq<Entry>, k: nat)
    requires k < |es|
    ensures NodesAll(es[k..]) == Nodes(es[k].node) + NodesAll(es[k + 1..])
  {
    assert es[k..][1..] == es[k + 1..];
  }

  /** One directory of the scan: what can be examined of its listing is added up or pushed. */
  method ScanEntries(sight: Sight, path: Path, es: seq<Entry>, before: seq<Waiting>, start: nat)
    returns (stack: seq<Waiting>, total: nat)
    requires AllDirs(before)
    ensures AllDirs(stack)
    ensures total + SeenStack(sight, stack)
         == start + SeenStack(sight, before) + SeenAll(sight, path, es, |Listed(sight, path, es)|)
    ensures NodesStack(stack) <= NodesStack(before) + NodesAll(es)
  {
    hide Seen, SeenStack, NodesAll, NodesStack, Nodes;
    stack, total := before, start;
    assert es[0..] == es;
    for k := 0 to |Listed(sight, path, es)|
      invariant AllDirs(stack)
      invariant total + SeenStack(sight, stack) == start + SeenStack(sight, before) + SeenAll(sight, path, es, k)
      invariant NodesStack(stack) + NodesAll(es[k..]) <= NodesStack(before) + NodesAll(es)
    {
      OneMore(es, k);
      var p := path + [es[k].name];
      if sight.hidden(p) {
        continue;
      }
      if es[k].node.Dir? {
        PushStack(sight, stack, Waiting(p, es[k].node));
        stack := stack + [Waiting(p, es[k].node)];
      } else {
        SeenLeaf(sight, p, es[k].node);
        total := total + es[k].node.size;
      }
    }
  }

  lemma SeenLeaf(sight: Sight, path: Path, n: Node)
    requires !n.Dir?
    ensures Seen(sight, path, n) == n.size
  {
  }

  /** The size scan: an explicit stack of directories, no recursion; what cannot be read is skipped. */
  method ScanSize(sight: Sight, root: Node) returns (total: nat)
    requires root.Dir?
    ensures total == Seen(sight, [], root)
  {
    hide Seen, SeenStack, NodesStack, NodesAll, AllDirs;
    total := 0;
    var stack := [Waiting([], root)];
    OneWaits(sight, Waiting([], root));
    while stack != []
      invariant AllDirs(stack)
      invariant total + SeenStack(sight, stack) == Seen(sight, [], root)
      decreases NodesStack(stack)
    {
      PopStack(sight, stack);
      var cur := stack[|stack| - 1];
      stack := stack[..|stack| - 1];
      stack, total := ScanEntries(sight, cur.path, cur.node.entries, stack, total);
    }
    NoneWaits(sight);
  }

  lemma NoneWaits(sight: Sight)
    ensures SeenStack(sight, []) == 0
  {
  }

  lemma OneWaits(sight: Sight, w: Waiting)
    requires w.node.Dir?
    ensures AllDirs([w]) && SeenStack(sight, [w]) == Seen(sight, w.path, w.node)
  {
    PushStack(sight, [], w);
    assert [] + [w] == [w];
  }

  /** The directory on top counts for what its listing shows, and for one node more than it holds. */
  lemma PopStack(sight: Sight, stack: seq<Waiting>)
    requires stack != [] && AllDirs(stack)
    ensures stack[|stack| - 1].node.Dir?
    ensures
      var top, rest := stack[|stack| - 1], stack[..|stack| - 1];
      var es := top.node.entries;
      && AllDirs(rest)
      && SeenStack(sight, stack) == SeenAll(sight, top.path, es, |Listed(sight, top.path, es)|) + SeenStack(sight, rest)
      && NodesStack(stack) == 1 + NodesAll(es) + NodesStack(rest)
  {
  }
}
