/** The emitter's packing of queued chunks into POST bodies, and its counters. */
module Batching {
  const MAX_BATCH_CHUNKS := 32
  const MAX_BATCH_BYTES := 16 * 1024
  const QUEUE_HIGH_WATER := 1000

  const NEVER_DROP_KINDS: set<string> := {"lifecycle", "lifecycle_error", "tool_use", "tool_result"}
  const DROP_PRIORITY: seq<string> := ["reasoning", "stdout", "text"]

  datatype Item = Item(kind: string, chunk: string)

  predicate Droppable(kind: string) {
    kind !in NEVER_DROP_KINDS && kind in DROP_PRIORITY
  }

  /** The size the packing loop reckons with: characters of the chunk plus a flat overhead. */
  function ItemBytes(item: Item): nat {
    |item.chunk| + 64
  }

  function Bytes(items: seq<Item>): nat {
    if items == [] then 0 else Bytes(items[..|items| - 1]) + ItemBytes(items[|items| - 1])
  }

  /** A batch within both caps; a single chunk may be of any size. */
  predicate Fits(batch: seq<Item>) {
    |batch| <= MAX_BATCH_CHUNKS && (|batch| <= 1 || Bytes(batch) <= MAX_BATCH_BYTES)
  }

  /** The text of some chunks, one after the other. */
  function Text(items: seq<Item>): string {
    if items == [] then "" else Text(items[..|items| - 1]) + items[|items| - 1].chunk
  }

  /** The size reckoned with is the length of the text plus 64 for every chunk. */
  lemma {:induction false} BytesAreTextAndOverhead(items: seq<Item>)
    ensures Bytes(items) == |Text(items)| + 64 * |items|
  {
    if items != [] {
      BytesAreTextAndOverhead(items[..|items| - 1]);
    }
  }

  /** Three kinds can be dropped, and no others. */
  lemma DroppableKinds(kind: string)
    ensures Droppable(kind) <==> kind == "reasoning" || kind == "stdout" || kind == "text"
  {
    assert DROP_PRIORITY == ["reasoning", "stdout", "text"];
    assert "reasoning"[0] == 'r' && "stdout"[0] == 's' && "text"[1] == 'e';
    assert "tool_use"[1] == 'o' && "tool_result"[1] == 'o' && "lifecycle"[0] == 'l' && "lifecycle_error"[0] == 'l';
  }

  /** The next chunk does not go into this batch. */
  predicate Full(batch: seq<Item>, item: Item) {
    batch != [] && (|batch| >= MAX_BATCH_CHUNKS || Bytes(batch) + ItemBytes(item) > MAX_BATCH_BYTES)
  }

  /** The batches posted when `batch` is in hand and `q` is still queued. */
  function Greedy(batch: seq<Item>, q: seq<Item>): seq<seq<Item>>
    decreases |q|
  {
    if q == [] then (if batch == [] then [] else [batch])
    else if Full(batch, q[0]) then [batch] + Greedy([q[0]], q[1..])
    else Greedy(batch + [q[0]], q[1..])
  }

  function Flat(batches: seq<seq<Item>>): seq<Item> {
    if batches == [] then [] else batches[0] + Flat(batches[1..])
  }

  /** Nothing is lost, repeated or reordered by the packing. */
  lemma {:induction false} GreedyKeepsOrder(batch: seq<Item>, q: seq<Item>)
    ensures Flat(Greedy(batch, q)) == batch + q
    decreases |q|
  {
    if q == [] {
      assert [batch][1..] == [];
    } else if Full(batch, q[0]) {
      GreedyKeepsOrder([q[0]], q[1..]);
      assert ([batch] + Greedy([q[0]], q[1..]))[1..] == Greedy([q[0]], q[1..]);
    } else {
      GreedyKeepsOrder(batch + [q[0]], q[1..]);
    }
  }

  lemma BytesOneMore(batch: seq<Item>, item: Item)
    ensures Bytes(batch + [item]) == Bytes(batch) + ItemBytes(item)
  {
    assert (batch + [item])[..|batch|] == batch;
  }

  lemma FitsOneMore(batch: seq<Item>, item: Item)
    requires Fits(batch) && !Full(batch, item)
    ensures Fits(batch + [item])
  {
    BytesOneMore(batch, item);
  }

  /** At most 32 chunks, and with more than one of them at most 16 KiB with the overhead. */
  predicate WithinCaps(batch: seq<Item>) {
    |batch| <= 32 && (|batch| <= 1 || |Text(batch)| + 64 * |batch| <= 16384)
  }

  /** Another chunk would exceed a cap. */
  predicate HasNoRoom(batch: seq<Item>, item: Item) {
    |batch| == 32 || |Text(batch)| + 64 * |batch| + |item.chunk| + 64 > 16384
  }

  /** Every batch is within the caps, and none could have taken the chunk that begins the next one. */
  lemma {:induction false} GreedyFills(batch: seq<Item>, q: seq<Item>)
    requires Fits(batch)
    ensures
      var batches := Greedy(batch, q);
      && (forall k :: 0 <= k < |batches| ==> batches[k] != [] && WithinCaps(batches[k]))
      && (forall k :: 0 <= k < |batches| - 1 ==> HasNoRoom(batches[k], batches[k + 1][0]))
      && (batch != [] ==> batches != [] && batch <= batches[0])
    decreases |q|
  {
    hide Bytes;
    CapsAre(batch);
    if q != [] {
      var item, rest := q[0], q[1..];
      BytesAreTextAndOverhead(batch);
      if Full(batch, item) {
        FitsAlone([item]);
        GreedyFills([item], rest);
        var more := Greedy([item], rest);
        assert more[0][0] == item;
        assert ([batch] + more)[1..] == more;
      } else {
        FitsOneMore(batch, item);
        GreedyFills(batch + [item], rest);
      }
    }
  }

  lemma CapsAre(batch: seq<Item>)
    ensures Fits(batch) <==> WithinCaps(batch)
  {
    BytesAreTextAndOverhead(batch);
  }

  lemma FitsAlone(batch: seq<Item>)
    requires |batch| <= 1
    ensures Fits(batch)
  {
  }

  lemma {:induction false} GreedyFits(batch: seq<Item>, q: seq<Item>)
    requires Fits(batch)
    ensures forall b :: b in Greedy(batch, q) ==> b != [] && Fits(b)
    decreases |q|
  {
    if q != [] {
      if Full(batch, q[0]) {
        GreedyFits([q[0]], q[1..]);
      } else {
        FitsOneMore(batch, q[0]);
        GreedyFits(batch + [q[0]], q[1..]);
      }
    }
  }

  // ---- No split under the same caps uses fewer batches ----

  lemma {:induction false} BytesAppend(a: seq<Item>, b: seq<Item>)
    ensures Bytes(a + b) == Bytes(a) + Bytes(b)
    decreases |b|
  {
    if b == [] {
      assert a + b == a;
    } else {
      assert (a + b)[..|a + b| - 1] == a + b[..|b| - 1];
      BytesAppend(a, b[..|b| - 1]);
    }
  }

  /** A batch that takes the next chunk would also do so with fewer chunks at its front. */
  lemma FullGrows(d: seq<Item>, b: seq<Item>, item: Item)
    requires Full(b, item)
    ensures Full(d + b, item)
  {
    BytesAppend(d, b);
  }

  /** Starting with fewer chunks in hand never costs a batch, and with more at most one. */
  lemma {:induction false} FewerInHand(d: seq<Item>, b: seq<Item>, q: seq<Item>)
    ensures |Greedy(b, q)| <= |Greedy(d + b, q)| <= 1 + |Greedy(b, q)|
    decreases |q|
  {
    if q != [] {
      var item, rest := q[0], q[1..];
      if Full(b, item) {
        FullGrows(d, b, item);
      } else if Full(d + b, item) {
        FewerInHand(b, [item], rest);
      } else {
        FewerInHand(d, b + [item], rest);
        assert d + b + [item] == d + (b + [item]);
      }
    }
  }

  /** Chunks that fit together are packed together. */
  lemma {:induction false} Absorb(b: seq<Item>, x: seq<Item>, q: seq<Item>)
    requires Fits(b + x)
    ensures Greedy(b, x + q) == Greedy(b + x, q)
    decreases |x|
  {
    if x == [] {
      assert b + x == b && x + q == q;
    } else {
      assert b + x == (b + [x[0]]) + x[1..];
      assert (x + q)[1..] == x[1..] + q;
      BytesAppend(b + [x[0]], x[1..]);
      BytesOneMore(b, x[0]);
      Absorb(b + [x[0]], x[1..], q);
    }
  }

  /** The packing is optimal: no order-preserving split under the caps uses fewer batches. */
  lemma {:induction false} GreedyIsOptimal(split: seq<seq<Item>>)
    requires forall b :: b in split ==> Fits(b)
    ensures |Greedy([], Flat(split))| <= |split|
  {
    if split != [] {
      var x, rest := split[0], Flat(split[1..]);
      GreedyIsOptimal(split[1..]);
      assert [] + x == x && x + [] == x;
      Absorb([], x, rest);
      FewerInHand(x, [], rest);
    }
  }

  // ---- The emitter ----

  /** What the API makes of one POST. */
  datatype Answer = Accepted | Refused | Unreachable

  datatype Post = Post(batch: seq<Item>, answer: Answer)

  function Posted(batches: seq<seq<Item>>, answers: nat -> Answer, k: nat): seq<Post> {
    if batches == [] then [] else [Post(batches[0], answers(k))] + Posted(batches[1..], answers, k + 1)
  }

  function Delivered(posts: seq<Post>): seq<Item> {
    if posts == [] then []
    else
      var last := posts[|posts| - 1];
      Delivered(posts[..|posts| - 1]) + (if last.answer == Accepted then last.batch else [])
  }

  function Successes(posts: seq<Post>): nat {
    if posts == [] then 0
    else Successes(posts[..|posts| - 1]) + (if posts[|posts| - 1].answer == Accepted then 1 else 0)
  }

  /** The batches are posted in order, and the answers are those given to them in turn. */
  lemma {:induction false} PostedAt(batches: seq<seq<Item>>, answers: nat -> Answer, k: nat, j: nat)
    requires j < |batches|
    ensures |Posted(batches, answers, k)| == |batches|
    ensures Posted(batches, answers, k)[j] == Post(batches[j], answers(k + j))
    decreases |batches|
  {
    if j > 0 {
      PostedAt(batches[1..], answers, k + 1, j - 1);
    } else if |batches| > 1 {
      PostedAt(batches[1..], answers, k + 1, 0);
    }
  }

  /** The POSTs still to come, after those made. */
  function Outlook(posts: seq<Post>, batch: seq<Item>, q: seq<Item>, answers: nat -> Answer): seq<Post> {
    posts + Posted(Greedy(batch, q), answers, |posts|)
  }

  lemma OutlookStep(posts: seq<Post>, batch: seq<Item>, q: seq<Item>, answers: nat -> Answer)
    requires q != []
    ensures Outlook(posts, batch, q, answers) ==
      if Full(batch, q[0]) then Outlook(posts + [Post(batch, answers(|posts|))], [q[0]], q[1..], answers)
      else Outlook(posts, batch + [q[0]], q[1..], answers)
  {
    if Full(batch, q[0]) {
      PostedStep(posts, batch, Greedy([q[0]], q[1..]), answers);
    }
  }

  lemma PostedStep(posts: seq<Post>, b: seq<Item>, rest: seq<seq<Item>>, answers: nat -> Answer)
    ensures posts + Posted([b] + rest, answers, |posts|)
         == (posts + [Post(b, answers(|posts|))]) + Posted(rest, answers, |posts| + 1)
  {
    hide Posted;
    PostedHead(b, rest, answers, |posts|);
    Associate(posts, [Post(b, answers(|posts|))], Posted(rest, answers, |posts| + 1));
  }

  lemma Associate(a: seq<Post>, b: seq<Post>, c: seq<Post>)
    ensures a + (b + c) == (a + b) + c
  {
  }

  lemma PostedHead(b: seq<Item>, rest: seq<seq<Item>>, answers: nat -> Answer, k: nat)
    ensures Posted([b] + rest, answers, k) == [Post(b, answers(k))] + Posted(rest, answers, k + 1)
  {
    assert ([b] + rest)[1..] == rest;
  }

  lemma OutlookEnd(posts: seq<Post>, batch: seq<Item>, answers: nat -> Answer)
    ensures Outlook(posts, batch, [], answers) == if batch == [] then posts else posts + [Post(batch, answers(|posts|))]
  {
    if batch != [] {
      PostedStep(posts, batch, [], answers);
      assert [batch] + [] == [batch];
    }
  }

  class SessionEventEmitter {
    const enabled: bool
    var queue: seq<Item>
    var open: bool
    var posts: seq<Post>
    var emittedTotal: nat
    var batchesSent: nat
    var httpErrors: nat
    var droppedTotal: nat
    var droppedByKind: map<string, nat>

    /** Without a session, or with one named by white space only, nothing is ever emitted. */
    constructor (chatSessionId: string, space: char -> bool)
      ensures Counted() && queue == [] && posts == [] && droppedTotal == 0
      ensures enabled == open == (exists k :: 0 <= k < |chatSessionId| && !space(chatSessionId[k]))
    {
      var named := exists k :: 0 <= k < |chatSessionId| && !space(chatSessionId[k]);
      enabled, open := named, named;
      queue, posts := [], [];
      emittedTotal, batchesSent, httpErrors, droppedTotal, droppedByKind := 0, 0, 0, 0, map[];
    }

    /** The counters agree with what was posted. */
    ghost predicate Counted()
      reads this
    {
      && emittedTotal == |Delivered(posts)|
      && batchesSent == Successes(posts)
      && batchesSent + httpErrors == |posts|
    }

    method EmitChunk(kind: string, chunk: string)
      modifies this`queue, this`droppedTotal, this`droppedByKind
      ensures
        var item := Item(if kind == "" then "stdout" else kind, chunk);
        if !enabled || chunk == "" then unchanged(this)
        else if old(|queue|) > 1000 && item.kind in {"reasoning", "stdout", "text"} then
          && queue == old(queue) && droppedTotal == old(droppedTotal) + 1
          && droppedByKind == old(droppedByKind)[item.kind := old(Drops(item.kind)) + 1]
        else
          queue == old(queue) + [item] && droppedTotal == old(droppedTotal) && droppedByKind == old(droppedByKind)
    {
      if !enabled || chunk == "" {
        return;
      }
      var item := Item(if kind == "" then "stdout" else kind, chunk);
      DroppableKinds(item.kind);
      if |queue| > QUEUE_HIGH_WATER {
        if item.kind !in NEVER_DROP_KINDS && item.kind in DROP_PRIORITY {
          RecordDrop(item.kind);
          return;
        }
      }
      queue := queue + [item];
    }

    function Drops(kind: string): nat
      reads this
    {
      if kind in droppedByKind then droppedByKind[kind] else 0
    }

    method RecordDrop(kind: string)
      modifies this`droppedTotal, this`droppedByKind
      ensures droppedTotal == old(droppedTotal) + 1
      ensures droppedByKind == old(droppedByKind)[kind := old(Drops(kind)) + 1]
    {
      droppedTotal := droppedTotal + 1;
      droppedByKind := droppedByKind[kind := Drops(kind) + 1];
    }

    method PostBatch(batch: seq<Item>, answer: Answer)
      requires Counted()
      modifies this`posts, this`emittedTotal, this`batchesSent, this`httpErrors
      ensures Counted()
      ensures posts == if open && batch != [] then old(posts) + [Post(batch, answer)] else old(posts)
      ensures emittedTotal == old(emittedTotal) + (if open && answer == Accepted then |batch| else 0)
      ensures batchesSent == old(batchesSent) + (if open && batch != [] && answer == Accepted then 1 else 0)
      ensures httpErrors == old(httpErrors) + (if open && batch != [] && answer != Accepted then 1 else 0)
    {
      if batch == [] || !open {
        return;
      }
      ghost var before := posts;
      posts := posts + [Post(batch, answer)];
      assert posts[..|posts| - 1] == before;
      if answer == Accepted {
        batchesSent, emittedTotal := batchesSent + 1, emittedTotal + |batch|;
      } else {
        httpErrors := httpErrors + 1;
      }
    }

    /**
     Drains the queue into batches. With the client open every batch is posted, in the order and
     with the cuts of `Greedy`; the counters then say how much of it was delivered.
     */
    method FlushOnce(answers: nat -> Answer)
      requires Counted()
      modifies this`queue, this`posts, this`emittedTotal, this`batchesSent, this`httpErrors
      ensures Counted() && queue == []
      ensures posts == if open then Outlook(old(posts), [], old(queue), answers) else old(posts)
    {
      hide Outlook, Delivered, Successes, ItemBytes;
      var batch: seq<Item>, bytes := [], 0;
      ghost var want := Outlook(posts, [], queue, answers);
      ghost var before := posts;
      while queue != []
        invariant Counted() && bytes == Bytes(batch)
        invariant if open then want == Outlook(posts, batch, queue, answers) else posts == before
        decreases |queue|
      {
        OutlookStep(posts, batch, queue, answers);
        var item := queue[0];
        queue := queue[1..];
        BytesOneMore(batch, item);
        BytesOneMore([], item);
        assert [] + [item] == [item];
        if batch != [] && (|batch| >= MAX_BATCH_CHUNKS || bytes + ItemBytes(item) > MAX_BATCH_BYTES) {
          PostBatch(batch, answers(|posts|));
          batch, bytes := [], 0;
        }
        batch, bytes := batch + [item], bytes + ItemBytes(item);
      }
      OutlookEnd(posts, batch, answers);
      PostBatch(batch, answers(|posts|));
    }
  }
}
