/**
 The emitter's threads: any number of producers, the flusher and the closer, interleaved at the
 points where one can see what another has done.
 */
module EmitterProtocol {
  import opened Wrappers
  import opened Batching

  datatype Fate = Arrived | Lost | Discarded

  /** A batch the flusher is done with; a discarded one was never offered to the API. */
  datatype Handled = Handled(batch: seq<Item>, fate: Fate)

  /** Where the flusher is: between flushes, draining, about to post, posting, or gone. */
  datatype Flusher =
    | Idle
    | Draining(last: bool)
    | Offering(next: Option<Item>, last: bool)
    | Sending(next: Option<Item>, last: bool)
    | Exited

  datatype Closer = Running | Joining | Joined(clean: bool) | Closed(clean: bool)

  datatype State = State(
    queue: seq<Item>,
    hands: seq<Option<Item>>,
    flusher: Flusher,
    batch: seq<Item>,
    done: seq<Handled>,
    closer: Closer,
    open: bool,
    // history
    calls: multiset<Item>,
    dropped: seq<Item>,
    puts: seq<Item>,
    mark: nat)

  datatype Action =
    | Check(p: nat, item: Item)
    | Put(p: nat)
    | Wake
    | Take
    | Offer
    | Reply(ok: bool)
    | SetStop
    | Join(clean: bool)
    | CloseHttp

  function Start(producers: nat): State {
    State([], seq(producers, _ => None), Idle, [], [], Running, true, multiset{}, [], [], 0)
  }

  predicate Stopped(s: State) {
    s.closer != Running
  }

  /** The flush is over. */
  function Finished(last: bool): Flusher {
    if last then Exited else Idle
  }

  function AfterPost(s: State, next: Option<Item>, last: bool, fate: Fate): State {
    var t := s.(done := s.done + [Handled(s.batch, fate)]);
    match next
    case Some(item) => t.(batch := [item], flusher := Draining(last))
    case None => t.(batch := [], flusher := Finished(last))
  }

  /** One step; an action that is not enabled changes nothing. */
  function Step(s: State, a: Action): State {
    match a
    case Check(p, item) =>
      if p >= |s.hands| || s.hands[p].Some? then s
      else if |s.queue| > QUEUE_HIGH_WATER && Droppable(item.kind) then
        s.(dropped := s.dropped + [item], calls := s.calls + multiset{item})
      else s.(hands := s.hands[p := Some(item)], calls := s.calls + multiset{item})
    case Put(p) =>
      if p >= |s.hands| || s.hands[p] == None then s
      else
        var item := s.hands[p].value;
        s.(hands := s.hands[p := None], queue := s.queue + [item], puts := s.puts + [item])
    case Wake => if s.flusher == Idle then s.(flusher := Draining(Stopped(s))) else s
    case Take =>
      if !s.flusher.Draining? then s
      else if s.queue == [] then
        s.(flusher := if s.batch == [] then Finished(s.flusher.last) else Offering(None, s.flusher.last))
      else if Full(s.batch, s.queue[0]) then
        s.(queue := s.queue[1..], flusher := Offering(Some(s.queue[0]), s.flusher.last))
      else s.(queue := s.queue[1..], batch := s.batch + [s.queue[0]])
    case Offer =>
      if !s.flusher.Offering? then s
      else if s.open then s.(flusher := Sending(s.flusher.next, s.flusher.last))
      else AfterPost(s, s.flusher.next, s.flusher.last, Discarded)
    case Reply(ok) =>
      if !s.flusher.Sending? then s
      else AfterPost(s, s.flusher.next, s.flusher.last, if ok then Arrived else Lost)
    case SetStop => if s.closer == Running then s.(closer := Joining, mark := |s.puts|) else s
    case Join(clean) =>
      if s.closer != Joining || (clean && s.flusher != Exited) then s else s.(closer := Joined(clean))
    case CloseHttp => if s.closer.Joined? then s.(closer := Closed(s.closer.clean), open := false) else s
  }

  function Run(producers: nat, actions: seq<Action>): State {
    if actions == [] then Start(producers)
    else Step(Run(producers, actions[..|actions| - 1]), actions[|actions| - 1])
  }

  // ---- Where the chunks are ----

  function HandledItems(done: seq<Handled>): seq<Item> {
    if done == [] then [] else HandledItems(done[..|done| - 1]) + done[|done| - 1].batch
  }

  /** The chunks the flusher has taken and not yet disposed of, in order. */
  function Held(s: State): seq<Item> {
    s.batch + (if (s.flusher.Offering? || s.flusher.Sending?) && s.flusher.next.Some? then [s.flusher.next.value] else [])
  }

  function InHands(hands: seq<Option<Item>>): multiset<Item> {
    if hands == [] then multiset{}
    else InHands(hands[..|hands| - 1]) + (match hands[|hands| - 1] case None => multiset{} case Some(i) => multiset{i})
  }

  lemma {:induction false} InHandsUpdate(hands: seq<Option<Item>>, p: nat, item: Item)
    requires p < |hands| && hands[p] == None
    ensures InHands(hands[p := Some(item)]) == InHands(hands) + multiset{item}
  {
    var n := |hands| - 1;
    if p == n {
      assert hands[p := Some(item)][..n] == hands[..n];
    } else {
      InHandsUpdate(hands[..n], p, item);
      assert hands[p := Some(item)][..n] == hands[..n][p := Some(item)];
    }
  }

  lemma HandledOneMore(done: seq<Handled>, h: Handled)
    ensures HandledItems(done + [h]) == HandledItems(done) + h.batch
  {
    assert (done + [h])[..|done|] == done;
  }

  /** Every chunk handed in is dropped, with its producer, or put. */
  ghost predicate Ledger(s: State) {
    s.calls == multiset(s.dropped) + InHands(s.hands) + multiset(s.puts)
  }

  lemma CheckLedger(s: State, p: nat, item: Item)
    requires Ledger(s)
    ensures Ledger(Step(s, Check(p, item)))
  {
    hide InHands, Droppable;
    if p < |s.hands| && s.hands[p] == None {
      InHandsUpdate(s.hands, p, item);
    }
  }

  lemma PutLedger(s: State, p: nat)
    requires Ledger(s)
    ensures Ledger(Step(s, Put(p)))
  {
    hide InHands;
    if p < |s.hands| && s.hands[p].Some? {
      var t := Step(s, Put(p));
      InHandsUpdate(t.hands, p, s.hands[p].value);
      assert t.hands[p := s.hands[p]] == s.hands;
    }
  }

  lemma LedgerKept(s: State, a: Action)
    requires Ledger(s)
    ensures Ledger(Step(s, a))
  {
    hide InHands, Droppable, Full;
    if a.Check? {
      CheckLedger(s, a.p, a.item);
    } else if a.Put? {
      PutLedger(s, a.p);
    }
  }

  /** The chunks put are, in order, the handled batches, then what the flusher holds, then the queue. */
  ghost predicate Flows(s: State) {
    && s.puts == HandledItems(s.done) + Held(s) + s.queue
    && ((s.flusher.Idle? || s.flusher.Exited?) ==> s.batch == [])
  }

  lemma PutFlows(s: State, p: nat)
    requires Flows(s)
    ensures Flows(Step(s, Put(p)))
  {
    hide HandledItems, Held;
    var t := Step(s, Put(p));
    if t != s {
      var items := HandledItems(s.done) + Held(s);
      assert t.puts == items + (s.queue + [s.hands[p].value]);
      HeldSame(s, t);
    }
  }

  lemma HeldSame(s: State, t: State)
    requires s.batch == t.batch && s.flusher == t.flusher
    ensures Held(s) == Held(t)
  {
  }

  lemma Rearrange(a: seq<Item>, b: seq<Item>, c: seq<Item>, d: seq<Item>)
    ensures (a + b) + (c + d) == (a + (b + c)) + d
  {
  }

  lemma TakeFlows(s: State)
    requires Flows(s)
    ensures Flows(Step(s, Take))
  {
    hide HandledItems, Full;
    var t := Step(s, Take);
    if s.flusher.Draining? && s.queue != [] {
      var item := s.queue[0];
      Rearrange(HandledItems(s.done), s.batch, [item], s.queue[1..]);
      assert s.queue == [item] + s.queue[1..];
      assert Held(s) == s.batch && Held(t) == s.batch + [item];
    } else {
      assert Held(s) == Held(t);
    }
  }

  lemma PostFlows(s: State, fate: Fate)
    requires Flows(s) && (s.flusher.Offering? || s.flusher.Sending?)
    ensures Flows(AfterPost(s, s.flusher.next, s.flusher.last, fate))
  {
    hide HandledItems;
    HandledOneMore(s.done, Handled(s.batch, fate));
    var t := AfterPost(s, s.flusher.next, s.flusher.last, fate);
    assert s.batch + Held(t) == Held(s);
    assert HandledItems(s.done) + Held(s) == HandledItems(t.done) + Held(t);
  }

  lemma StepFlows(s: State, a: Action)
    requires Flows(s)
    ensures Flows(Step(s, a))
  {
    hide HandledItems, Flows, Full, Droppable, Held, AfterPost;
    match a
    case Put(p) => PutFlows(s, p);
    case Take => TakeFlows(s);
    case Offer =>
      if s.flusher.Offering? && !s.open { PostFlows(s, Discarded); } else { QuietFlows(s, Step(s, a)); }
    case Reply(ok) =>
      if s.flusher.Sending? { PostFlows(s, if ok then Arrived else Lost); }
    case Check(_, _) => QuietFlows(s, Step(s, a));
    case Wake => QuietFlows(s, Step(s, a));
    case SetStop => QuietFlows(s, Step(s, a));
    case Join(_) => QuietFlows(s, Step(s, a));
    case CloseHttp => QuietFlows(s, Step(s, a));
  }

  lemma QuietFlows(s: State, t: State)
    requires Flows(s) && s.puts == t.puts && s.done == t.done && s.queue == t.queue && s.batch == t.batch
    requires s.flusher == t.flusher || (s.flusher.Idle? && t.flusher.Draining?)
      || (s.flusher.Offering? && t.flusher == Sending(s.flusher.next, s.flusher.last))
    ensures Flows(t)
  {
  }

  lemma {:induction false} RunFlows(producers: nat, actions: seq<Action>)
    ensures
      var s := Run(producers, actions);
      Flows(s) && Ledger(s) && |s.hands| == producers
  {
    hide Flows, Ledger, Step;
    if actions == [] {
      StartFlows(producers);
    } else {
      RunFlows(producers, actions[..|actions| - 1]);
      var s, a := Run(producers, actions[..|actions| - 1]), actions[|actions| - 1];
      HandsStay(s, a);
      LedgerKept(s, a);
      StepFlows(s, a);
    }
  }

  lemma HandsStay(s: State, a: Action)
    ensures |Step(s, a).hands| == |s.hands|
  {
  }

  lemma {:induction false} StartFlows(producers: nat)
    ensures Flows(Start(producers)) && Ledger(Start(producers))
  {
    NobodyHolds(seq(producers, _ => None));
  }

  lemma {:induction false} NobodyHolds(hands: seq<Option<Item>>)
    requires forall p :: 0 <= p < |hands| ==> hands[p] == None
    ensures InHands(hands) == multiset{}
  {
    if hands != [] {
      NobodyHolds(hands[..|hands| - 1]);
    }
  }

  // ---- Drops and the queue's depth ----

  function DroppableIn(items: seq<Item>): nat {
    if items == [] then 0
    else DroppableIn(items[..|items| - 1]) + (if Droppable(items[|items| - 1].kind) then 1 else 0)
  }

  function DroppableHeld(hands: seq<Option<Item>>): nat {
    if hands == [] then 0
    else
      var last := hands[|hands| - 1];
      DroppableHeld(hands[..|hands| - 1]) + (if last.Some? && Droppable(last.value.kind) then 1 else 0)
  }

  lemma {:induction false} HeldUpdate(hands: seq<Option<Item>>, p: nat, item: Item)
    requires p < |hands| && hands[p] == None
    ensures DroppableHeld(hands[p := Some(item)]) == DroppableHeld(hands) + (if Droppable(item.kind) then 1 else 0)
  {
    hide Droppable;
    var n := |hands| - 1;
    if p == n {
      assert hands[p := Some(item)][..n] == hands[..n];
    } else {
      HeldUpdate(hands[..n], p, item);
      assert hands[p := Some(item)][..n] == hands[..n][p := Some(item)];
    }
  }

  lemma {:induction false} AtMostAll(items: seq<Item>, hands: seq<Option<Item>>)
    ensures DroppableIn(items) <= |items| && DroppableHeld(hands) <= |hands|
    decreases |items| + |hands|
  {
    hide Droppable;
    if items != [] {
      AtMostAll(items[..|items| - 1], hands);
    } else if hands != [] {
      AtMostAll(items, hands[..|hands| - 1]);
    }
  }

  lemma {:induction false} DroppableFirst(items: seq<Item>)
    requires items != []
    ensures DroppableIn(items[1..]) <= DroppableIn(items)
  {
    hide Droppable;
    if |items| > 1 {
      DroppableFirst(items[..|items| - 1]);
      assert items[1..][..|items| - 2] == items[..|items| - 1][1..];
    }
  }

  /** Only droppable kinds are dropped, and few of them are ever queued or about to be. */
  ghost predicate Bounded(s: State) {
    && (forall item :: item in s.dropped ==> item.kind in DROP_PRIORITY && item.kind !in NEVER_DROP_KINDS)
    && DroppableIn(s.queue) + DroppableHeld(s.hands) <= QUEUE_HIGH_WATER + |s.hands|
  }

  lemma CheckBounded(s: State, p: nat, item: Item)
    requires Bounded(s)
    ensures Bounded(Step(s, Check(p, item)))
  {
    var t := Step(s, Check(p, item));
    if p < |s.hands| && s.hands[p] == None {
      HeldUpdate(s.hands, p, item);
      AtMostAll(s.queue, t.hands);
    }
  }

  lemma PutBounded(s: State, p: nat)
    requires Bounded(s)
    ensures Bounded(Step(s, Put(p)))
  {
    hide Droppable;
    var t := Step(s, Put(p));
    if p < |s.hands| && s.hands[p].Some? {
      HeldUpdate(t.hands, p, s.hands[p].value);
      assert t.hands[p := s.hands[p]] == s.hands;
      assert t.queue[..|s.queue|] == s.queue;
    }
  }

  lemma StepBounded(s: State, a: Action)
    requires Bounded(s)
    ensures Bounded(Step(s, a))
  {
    hide Full, Droppable, DroppableIn, DroppableHeld;
    if a.Check? {
      CheckBounded(s, a.p, a.item);
    } else if a.Put? {
      PutBounded(s, a.p);
    } else if a.Take? && s.queue != [] {
      DroppableFirst(s.queue);
    }
  }

  lemma {:induction false} RunBounded(producers: nat, actions: seq<Action>)
    ensures Bounded(Run(producers, actions))
  {
    hide Bounded, Step;
    if actions == [] {
      StartBounded(producers);
    } else {
      RunBounded(producers, actions[..|actions| - 1]);
      StepBounded(Run(producers, actions[..|actions| - 1]), actions[|actions| - 1]);
    }
  }

  lemma StartBounded(producers: nat)
    ensures Bounded(Start(producers))
  {
    AtMostAll([], Start(producers).hands);
  }

  // ---- Batches ----

  ghost predicate Packed(s: State) {
    && Fits(s.batch)
    && (forall h :: h in s.done ==> h.batch != [] && Fits(h.batch))
    && ((s.flusher.Offering? || s.flusher.Sending?) ==> s.batch != [])
  }

  lemma StepPacked(s: State, a: Action)
    requires Packed(s)
    ensures Packed(Step(s, a))
  {
    hide Fits;
    FitsAlone([]);
    if a.Take? && s.flusher.Draining? && s.queue != [] && !Full(s.batch, s.queue[0]) {
      FitsOneMore(s.batch, s.queue[0]);
    } else if (a.Offer? || a.Reply?) && (s.flusher.Offering? || s.flusher.Sending?) && s.flusher.next.Some? {
      FitsAlone([s.flusher.next.value]);
    }
  }

  lemma {:induction false} RunPacked(producers: nat, actions: seq<Action>)
    ensures Packed(Run(producers, actions))
  {
    hide Step;
    if actions == [] {
      FitsAlone([]);
    } else {
      RunPacked(producers, actions[..|actions| - 1]);
      StepPacked(Run(producers, actions[..|actions| - 1]), actions[|actions| - 1]);
    }
  }

  // ---- Closing ----

  /** The last flush has seen the queue empty. */
  predicate SawTheEnd(f: Flusher) {
    f.Exited? || ((f.Offering? || f.Sending?) && f.last && f.next == None)
  }

  ghost predicate Closing(s: State) {
    && s.mark <= |s.puts|
    && (s.flusher.Exited? ==> Stopped(s))
    && ((s.flusher.Draining? || s.flusher.Offering? || s.flusher.Sending?) && s.flusher.last ==> Stopped(s))
    && (SawTheEnd(s.flusher) ==> s.mark <= |HandledItems(s.done)| + |Held(s)|)
    && ((s.closer.Joined? || s.closer.Closed?) && s.closer.clean ==> s.flusher == Exited)
    && (s.open <==> !s.closer.Closed?)
    && (s.open || s.closer.clean ==> forall h :: h in s.done ==> h.fate != Discarded)
  }

  lemma PostCloses(s: State, fate: Fate)
    requires Closing(s) && (s.flusher.Offering? || s.flusher.Sending?) && (s.open ==> fate != Discarded)
    ensures Closing(AfterPost(s, s.flusher.next, s.flusher.last, fate))
  {
    hide HandledItems;
    HandledOneMore(s.done, Handled(s.batch, fate));
  }

  lemma StepClosing(s: State, a: Action)
    requires Closing(s) && Flows(s)
    ensures Closing(Step(s, a))
  {
    hide HandledItems, Full, Droppable, AfterPost, Fits;
    match a
    case Take => TakeCloses(s);
    case Offer =>
      if s.flusher.Offering? && !s.open { PostCloses(s, Discarded); }
    case Reply(ok) =>
      if s.flusher.Sending? { PostCloses(s, if ok then Arrived else Lost); }
    case Check(_, _) =>
    case Put(_) =>
    case Wake =>
    case SetStop =>
    case Join(_) =>
    case CloseHttp =>
  }

  lemma TakeCloses(s: State)
    requires Closing(s) && Flows(s)
    ensures Closing(Step(s, Take))
  {
    hide HandledItems, Full;
    if s.queue == [] {
      assert |s.puts| == |HandledItems(s.done)| + |Held(s)|;
    }
  }

  lemma {:induction false} RunClosing(producers: nat, actions: seq<Action>)
    ensures Closing(Run(producers, actions))
  {
    hide Step, Flows;
    if actions != [] {
      RunClosing(producers, actions[..|actions| - 1]);
      RunFlows(producers, actions[..|actions| - 1]);
      StepClosing(Run(producers, actions[..|actions| - 1]), actions[|actions| - 1]);
    }
  }

  // ---- The main results ----

  /**
   Over every interleaving: nothing is lost unaccounted, repeated or reordered; every batch handled
   respects the caps; only droppable chunks are dropped, and none as long as no more than a thousand
   have been queued; and the backlog of droppable chunks is bounded by the high-water mark and the
   number of producers.
   */
  lemma EveryChunkIsAccountedFor(producers: nat, actions: seq<Action>)
    ensures
      var s := Run(producers, actions);
      && s.puts == HandledItems(s.done) + Held(s) + s.queue
      && s.calls == multiset(s.dropped) + InHands(s.hands) + multiset(s.puts)
      && (forall h :: h in s.done ==> h.batch != [] && WithinCaps(h.batch))
      && (forall item :: item in s.dropped ==> item.kind in {"reasoning", "stdout", "text"})
      && (|s.puts| <= 1000 ==> s.dropped == [])
      && DroppableIn(s.queue) <= 1000 + producers
  {
    RunFlows(producers, actions);
    RunBounded(producers, actions);
    RunPacked(producers, actions);
    NoneDroppedEarly(producers, actions);
    var s := Run(producers, actions);
    forall item | item in s.dropped ensures item.kind in {"reasoning", "stdout", "text"} {
      DroppableKinds(item.kind);
    }
    forall h | h in s.done ensures WithinCaps(h.batch) {
      CapsAre(h.batch);
    }
  }

  lemma {:induction false} NoneDroppedEarly(producers: nat, actions: seq<Action>)
    ensures var s := Run(producers, actions); |s.puts| <= 1000 ==> s.dropped == []
  {
    hide Step;
    if actions != [] {
      NoneDroppedEarly(producers, actions[..|actions| - 1]);
      RunFlows(producers, actions[..|actions| - 1]);
      DropNeedsDepth(Run(producers, actions[..|actions| - 1]), actions[|actions| - 1]);
    }
  }

  /** A chunk is dropped only while more than a thousand have been put. */
  lemma DropNeedsDepth(s: State, a: Action)
    requires Flows(s)
    ensures
      var t := Step(s, a);
      |s.puts| <= |t.puts| && (t.dropped == s.dropped || |s.puts| > 1000)
  {
    hide HandledItems, Held, Full, Droppable;
  }

  /** What happened to a batch is what the API answered: without refusals none is lost, without acceptances none arrives. */
  lemma {:induction false} FatesFollowReplies(producers: nat, actions: seq<Action>)
    ensures
      var s := Run(producers, actions);
      && (Reply(false) !in actions ==> forall h :: h in s.done ==> h.fate != Lost)
      && (Reply(true) !in actions ==> forall h :: h in s.done ==> h.fate != Arrived)
  {
    hide Step;
    if actions != [] {
      var init, last := actions[..|actions| - 1], actions[|actions| - 1];
      FatesFollowReplies(producers, init);
      assert actions == init + [last];
      NewFate(Run(producers, init), last);
    }
  }

  lemma NewFate(s: State, a: Action)
    ensures
      var t := Step(s, a);
      forall h :: h in t.done && h !in s.done ==>
        (h.fate == Lost ==> a == Reply(false)) && (h.fate == Arrived ==> a == Reply(true))
  {
    hide Full, Droppable;
  }

  /** Once the client is closed and no POST is under way, whatever is still drained is discarded. */
  lemma {:induction false} NothingSentAfterClose(producers: nat, before: seq<Action>, after: seq<Action>)
    requires Run(producers, before).closer.Closed? && !Run(producers, before).flusher.Sending?
    ensures
      var s, t := Run(producers, before), Run(producers, before + after);
      && t.closer.Closed? && !t.flusher.Sending?
      && s.done <= t.done && forall h :: h in t.done[|s.done|..] ==> h.fate == Discarded
    decreases |after|
  {
    hide Step;
    if after == [] {
      assert before + after == before;
    } else {
      var init, last := after[..|after| - 1], after[|after| - 1];
      var all := before + after;
      assert all[..|all| - 1] == before + init;
      NothingSentAfterClose(producers, before, init);
      RunClosing(producers, before + init);
      StaysClosed(Run(producers, before + init), last);
    }
  }

  lemma StaysClosed(s: State, a: Action)
    requires Closing(s) && s.closer.Closed? && !s.flusher.Sending?
    ensures
      var t := Step(s, a);
      && t.closer.Closed? && !t.flusher.Sending?
      && (t.done == s.done || t.done == s.done + [Handled(s.batch, Discarded)])
  {
    hide Full, Droppable, HandledItems;
  }

  lemma StepGrows(s: State, a: Action)
    ensures s.puts <= Step(s, a).puts
    ensures Stopped(s) ==> Stopped(Step(s, a)) && Step(s, a).mark == s.mark
  {
    hide Full, Droppable;
  }

  /** The mark is set once, by the stop signal, to the number of chunks put by then. */
  lemma {:induction false} MarkStays(producers: nat, before: seq<Action>, after: seq<Action>)
    requires !Stopped(Run(producers, before))
    ensures
      var s, t := Run(producers, before), Run(producers, before + [SetStop] + after);
      Stopped(t) && t.mark == |s.puts| && s.puts <= t.puts
    decreases |after|
  {
    hide Step;
    var all := before + [SetStop] + after;
    if after == [] {
      assert all[..|before|] == before && all == before + [SetStop];
      StopIsSet(Run(producers, before));
    } else {
      var init := after[..|after| - 1];
      assert all[..|all| - 1] == before + [SetStop] + init;
      MarkStays(producers, before, init);
      StepGrows(Run(producers, before + [SetStop] + init), after[|after| - 1]);
    }
  }

  lemma StopIsSet(s: State)
    requires !Stopped(s)
    ensures Step(s, SetStop) == s.(closer := Joining, mark := |s.puts|)
  {
  }

  /**
   Once `close` has seen the flusher exit, the chunks put before it signalled the stop are, in
   their order, the beginning of the handled batches, each chunk in one of them, and every handled
   batch was offered to the API. With a join that timed out this is not promised.
   */
  lemma CleanCloseOffersEverything(producers: nat, before: seq<Action>, after: seq<Action>)
    requires !Stopped(Run(producers, before))
    ensures
      var s := Run(producers, before + [SetStop] + after);
      (s.closer.Joined? || s.closer.Closed?) && s.closer.clean ==>
        && Run(producers, before).puts <= HandledItems(s.done) <= s.puts
        && forall h :: h in s.done ==> h.fate != Discarded
  {
    hide HandledItems, Run;
    var actions := before + [SetStop] + after;
    RunFlows(producers, actions);
    RunClosing(producers, actions);
    MarkStays(producers, before, after);
  }

  // ---- The flusher can always finish ----

  predicate OfFlusher(a: Action) {
    a.Wake? || a.Take? || a.Offer? || a.Reply?
  }

  /** How far the flusher is from its exit: first by the flushes still to come, then within one. */
  function Phase(f: Flusher): nat {
    if f.Exited? then 0 else if f.Idle? then 2 else if f.last then 1 else 3
  }

  function Rank(f: Flusher): nat {
    match f
    case Draining(_) => 3
    case Offering(next, _) => if next.Some? then 5 else 2
    case Sending(next, _) => if next.Some? then 4 else 1
    case _ => 0
  }

  /** What the flusher does next; the API may answer as it likes. */
  function NextOf(f: Flusher, ok: bool): Action {
    match f
    case Draining(_) => Take
    case Offering(_, _) => Offer
    case Sending(_, _) => Reply(ok)
    case _ => Wake
  }

  lemma ComesCloser(s: State, ok: bool)
    requires Stopped(s) && s.flusher != Exited
    ensures
      var t := Step(s, NextOf(s.flusher, ok));
      && Stopped(t) && Phase(t.flusher) <= Phase(s.flusher) && |t.queue| <= |s.queue|
      && (Phase(t.flusher) < Phase(s.flusher) || |t.queue| < |s.queue| || Rank(t.flusher) < Rank(s.flusher))
  {
    hide Full;
  }

  /**
   Once the stop signal is set the flusher reaches its exit on its own, whatever the API answers and
   wherever it was: with no more chunks put, some number of its own steps is enough.
   */
  lemma {:induction false} FlusherExits(producers: nat, actions: seq<Action>, answers: nat -> bool)
    returns (plan: seq<Action>)
    requires Stopped(Run(producers, actions))
    ensures Run(producers, actions + plan).flusher == Exited
    ensures forall a :: a in plan ==> OfFlusher(a) && (a.Reply? ==> exists k :: a.ok == answers(k))
    decreases Phase(Run(producers, actions).flusher), |Run(producers, actions).queue|, Rank(Run(producers, actions).flusher)
  {
    hide Step, Run;
    var s := Run(producers, actions);
    if s.flusher == Exited {
      assert actions + [] == actions;
      return [];
    }
    var a := NextOf(s.flusher, answers(|actions|));
    ComesCloser(s, answers(|actions|));
    RunOneMore(producers, actions, a);
    var rest := FlusherExits(producers, actions + [a], answers);
    plan := [a] + rest;
    assert actions + plan == (actions + [a]) + rest;
  }

  lemma RunOneMore(producers: nat, actions: seq<Action>, a: Action)
    ensures Run(producers, actions + [a]) == Step(Run(producers, actions), a)
  {
    assert (actions + [a])[..|actions|] == actions;
  }
}
