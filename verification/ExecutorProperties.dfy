/**
 What every run of the resilient executor satisfies, for every chain, every parent chain and
 every behaviour of the adapters. Each statement is about `Executor.Spec`, which `Executor.Execute`
 is proved to compute.
 */
module ExecutorProperties {
  import opened Wrappers
  import opened Policy
  import opened Executor

  // ---- The run as a number of visited positions ----

  /** The first position from `i` on whose visit ends the run, or the chain length. */
  function Reach(req: Request, w: World, i: nat): (k: nat)
    requires i <= |req.chain|
    ensures i <= k <= |req.chain|
    ensures forall j :: i <= j < k ==> VisitAt(req, w, j).ending.MovesOn?
    ensures k < |req.chain| ==> !VisitAt(req, w, k).ending.MovesOn?
    decreases |req.chain| - i
  {
    if i < |req.chain| && VisitAt(req, w, i).ending.MovesOn? then Reach(req, w, i + 1) else i
  }

  /** The bookkeeping after the first `j` positions. */
  function State(req: Request, w: World, j: nat): Walk
    requires j <= |req.chain|
  {
    if j == 0 then Begin(req) else After(req, w, j - 1, State(req, w, j - 1))
  }

  function Visited(req: Request, w: World): nat {
    var k := Reach(req, w, 0);
    if k < |req.chain| then k + 1 else k
  }

  lemma {:induction false} Unroll(req: Request, w: World, i: nat)
    requires i <= Reach(req, w, 0)
    ensures WalkFrom(req, w, i, State(req, w, i)) ==
      var k := Reach(req, w, 0);
      if k == |req.chain| then Exhaust(req, State(req, w, k))
      else Finish(req, VisitAt(req, w, k).ending, State(req, w, k + 1))
    decreases |req.chain| - i
  {
    hide After, VisitAt, Finish, Exhaust;
    if i < Reach(req, w, 0) {
      Unroll(req, w, i + 1);
    }
  }

  // ---- What one visit adds ----

  function Failure(attempt: nat, r: ExecResult): Event {
    AttemptFailed(attempt, r.platform, r.status)
  }

  function RetryPart(req: Request, w: World, i: nat): seq<Event>
    requires i < |req.chain|
  {
    if VisitAt(req, w, i).runs == 2 then [Failure(1, RunResult(req, w, i, 1))] else []
  }

  function EndPart(req: Request, w: World, i: nat): seq<Event>
    requires i < |req.chain|
  {
    var v := VisitAt(req, w, i);
    if (v.runs > 0 || v.refused) && v.ending != Succeeds then [Failure(v.runs, v.result)] else []
  }

  function FallbackPart(req: Request, w: World, i: nat): seq<Event>
    requires i < |req.chain|
  {
    var v := VisitAt(req, w, i);
    if v.ending.MovesOn? && v.ending.fallback.Some?
    then [FallbackTriggered(req.chain[i], Next(req, i), v.ending.fallback.value.reason)] else []
  }

  /** The events of one visit: one failure per failing run or refusal, then the fallback if any. */
  function VisitEvents(req: Request, w: World, i: nat): seq<Event>
    requires i < |req.chain|
  {
    RetryPart(req, w, i) + EndPart(req, w, i) + FallbackPart(req, w, i)
  }

  function CallsAt(i: nat, runs: nat): seq<Call> {
    if runs == 0 then [] else if runs == 1 then [Call(i, 1)] else [Call(i, 1), Call(i, 2)]
  }

  lemma VisitFacts(req: Request, w: World, i: nat)
    requires i < |req.chain|
    ensures var v := VisitAt(req, w, i);
      && v.runs <= 2
      && (v.refused ==> v.runs == 0 && v.ending != Succeeds && v.result == RefusedResult(req, w, i))
      && (v.runs > 0 ==> v.result == RunResult(req, w, i, v.runs))
      && (v.runs == 2 ==> RunResult(req, w, i, 1).status != ExecutionSucceeded
                          && Ruling(req, i, RunResult(req, w, i, 1).status, 1).action == Retry)
      && (v.ending == Succeeds ==> v.runs > 0 && v.result.status == ExecutionSucceeded)
      && (v.ending.MovesOn? ==> v.result.status != ExecutionSucceeded)
      && (v.ending.Stops? && !v.refused ==> v.runs > 0 && v.result.status != ExecutionSucceeded)
  {
  }

  lemma AfterAdds(req: Request, w: World, i: nat, s: Walk)
    requires i < |req.chain|
    ensures After(req, w, i, s).log.events == s.log.events + VisitEvents(req, w, i)
    ensures After(req, w, i, s).log.calls == s.log.calls + CallsAt(i, VisitAt(req, w, i).runs)
    ensures After(req, w, i, s).log.retries == s.log.retries
      + (if VisitAt(req, w, i).runs == 2 then [Ruling(req, i, RunResult(req, w, i, 1).status, 1)] else [])
    ensures After(req, w, i, s).last == Some(VisitAt(req, w, i).result)
  {
    hide VisitAt, RunResult, RefusedResult, Ruling, VisitEvents;
    VisitFacts(req, w, i);
    AfterEvents(req, w, i, s);
    assert After(req, w, i, s).log.calls == s.log.calls + CallsAt(i, VisitAt(req, w, i).runs);
  }

  lemma AfterEvents(req: Request, w: World, i: nat, s: Walk)
    requires i < |req.chain|
    ensures After(req, w, i, s).log.events == s.log.events + VisitEvents(req, w, i)
  {
    hide VisitAt, RunResult, RefusedResult, Ruling;
    VisitFacts(req, w, i);
  }

  // ---- The recursion gate ----

  lemma {:induction false} NoDuplicateCount<T>(s: seq<T>)
    ensures |set x | x in s| <= |s|
    ensures |set x | x in s| == |s| <==> forall i, j :: 0 <= i < j < |s| ==> s[i] != s[j]
  {
    if s != [] {
      var n := |s| - 1;
      var front, last := s[..n], s[n];
      NoDuplicateCount(front);
      assert s == front + [last];
      assert (set x | x in s) == (set x | x in front) + {last};
      if last in front {
        var i :| 0 <= i < n && front[i] == last;
        assert s[i] == s[n];
        assert (set x | x in s) == (set x | x in front);
      } else {
        assert (set x | x in front) !! {last};
        assert forall i :: 0 <= i < n ==> s[i] == front[i];
      }
    }
  }

  /**
   The gate refuses exactly the lineages that are too deep or contain an agent twice; a refused
   request reaches no adapter and leaves only a start and a failure event.
   */
  lemma GateRefusesExactly(req: Request, w: World)
    ensures Gate(req).Some? <==>
      || |req.parentChain| >= 3
      || exists i, j :: 0 <= i < j < |req.parentChain| && req.parentChain[i] == req.parentChain[j]
    ensures Gate(req).Some? ==>
      var o := Spec(req, w);
      && o.log.calls == [] && o.log.retries == [] && o.log.fallbacks == []
      && o.result.status == ProviderUnavailable && o.result.attempted == [] && o.result.attemptCount == 0
      && o.log.events == [Started(req.chain), Failed(o.result)]
  {
    NoDuplicateCount(req.parentChain);
  }

  // ---- Run calls ----

  ghost predicate Before(a: Call, b: Call) {
    a.index < b.index || (a.index == b.index && a.attempt < b.attempt)
  }

  /** The call's outcome ends the whole run. */
  predicate EndsRun(req: Request, w: World, c: Call)
    requires c.index < |req.chain|
  {
    var r := RunResult(req, w, c.index, c.attempt);
    r.status == ExecutionSucceeded || Ruling(req, c.index, r.status, c.attempt).action == Stop
  }

  /** A second attempt follows the first one at its position, after a retry ruling. */
  ghost predicate SecondsAreRuled(req: Request, w: World, calls: seq<Call>)
    requires forall k :: 0 <= k < |calls| ==> calls[k].index < |req.chain|
  {
    forall k :: 0 <= k < |calls| && calls[k].attempt == 2 ==>
      && k > 0 && calls[k - 1] == Call(calls[k].index, 1)
      && Ruling(req, calls[k].index, RunResult(req, w, calls[k].index, 1).status, 1).action == Retry
  }

  /** Calls come in order, at most two per position, and a second one only after a retry ruling. */
  ghost predicate CallsInOrder(req: Request, w: World, calls: seq<Call>, bound: nat) {
    && bound <= |req.chain|
    && (forall k :: 0 <= k < |calls| ==> calls[k].index < bound && 1 <= calls[k].attempt <= 2)
    && (forall j, k :: 0 <= j < k < |calls| ==> Before(calls[j], calls[k]))
    && SecondsAreRuled(req, w, calls)
    && (forall k :: 0 <= k < |calls| - 1 ==> !EndsRun(req, w, calls[k]))
  }

  lemma VisitCalls(req: Request, w: World, i: nat)
    requires i < |req.chain|
    ensures VisitAt(req, w, i).runs <= 2
    ensures CallsInOrder(req, w, CallsAt(i, VisitAt(req, w, i).runs), i + 1)
    ensures VisitAt(req, w, i).ending.MovesOn? && VisitAt(req, w, i).runs > 0 ==>
      !EndsRun(req, w, Call(i, VisitAt(req, w, i).runs))
  {
  }

  lemma Appended(req: Request, w: World, a: seq<Call>, i: nat, runs: nat)
    requires i < |req.chain| && runs <= 2 && CallsInOrder(req, w, a, i)
    requires CallsInOrder(req, w, CallsAt(i, runs), i + 1)
    requires forall c :: c in a ==> !EndsRun(req, w, c)
    ensures CallsInOrder(req, w, a + CallsAt(i, runs), i + 1)
    ensures runs == 0 || !EndsRun(req, w, Call(i, runs)) ==>
      forall c :: c in a + CallsAt(i, runs) ==> !EndsRun(req, w, c)
  {
    hide EndsRun, Ruling, RunResult;
    if runs == 0 {
      assert a + [] == a;
    } else {
      OneCallMore(req, w, a, i, Call(i, 1));
      if runs == 1 {
        assert CallsAt(i, 1) == [Call(i, 1)];
      } else {
        assert CallsAt(i, 2)[0] == Call(i, 1) && CallsAt(i, 2)[1] == Call(i, 2);
        assert (a + [Call(i, 1)]) + [Call(i, 2)] == a + CallsAt(i, 2);
        OneCallMore(req, w, a + [Call(i, 1)], i, Call(i, 2));
      }
    }
  }

  /** One call at position `i` more: the first one there, or the second after a retry ruling. */
  lemma OneCallMore(req: Request, w: World, a: seq<Call>, i: nat, c: Call)
    requires i < |req.chain| && c.index == i && 1 <= c.attempt <= 2
    requires CallsInOrder(req, w, a, if c.attempt == 1 then i else i + 1)
    requires forall x :: x in a ==> !EndsRun(req, w, x)
    requires c.attempt == 2 ==> a != [] && a[|a| - 1] == Call(i, 1)
    requires c.attempt == 2 ==> Ruling(req, i, RunResult(req, w, i, 1).status, 1).action == Retry
    ensures CallsInOrder(req, w, a + [c], i + 1)
  {
    hide EndsRun, Ruling, RunResult, Before, SecondsAreRuled;
    var s := a + [c];
    RuledOnceMore(req, w, a, c);
    forall j | 0 <= j < |a| ensures Before(a[j], c) {
      LastIsAfter(a, c, i, j);
    }
    assert forall k :: 0 <= k < |a| ==> s[k] == a[k] && a[k] in a;
  }

  lemma RuledOnceMore(req: Request, w: World, a: seq<Call>, c: Call)
    requires forall k :: 0 <= k < |a| ==> a[k].index < |req.chain|
    requires c.index < |req.chain| && SecondsAreRuled(req, w, a)
    requires c.attempt == 2 ==> a != [] && a[|a| - 1] == Call(c.index, 1)
    requires c.attempt == 2 ==> Ruling(req, c.index, RunResult(req, w, c.index, 1).status, 1).action == Retry
    ensures SecondsAreRuled(req, w, a + [c])
  {
    hide Ruling, RunResult;
  }

  lemma LastIsAfter(a: seq<Call>, c: Call, i: nat, j: nat)
    requires c.index == i && j < |a| && (forall k :: 0 <= k < |a| ==> a[k].index <= i)
    requires if c.attempt == 2 then a[|a| - 1] == Call(i, 1) else forall k :: 0 <= k < |a| ==> a[k].index < i
    requires forall k, l :: 0 <= k < l < |a| ==> Before(a[k], a[l])
    ensures Before(a[j], c)
  {
    if j < |a| - 1 {
      assert Before(a[j], a[|a| - 1]);
    }
  }

  lemma Loosen(req: Request, w: World, calls: seq<Call>, j: nat)
    requires CallsInOrder(req, w, calls, j)
    ensures CallsInOrder(req, w, calls, |req.chain|)
  {
    hide EndsRun, Ruling, RunResult;
  }

  lemma NoCalls(req: Request, w: World)
    ensures CallsInOrder(req, w, [], 0)
  {
  }

  lemma {:induction false} StateCalls(req: Request, w: World, j: nat)
    requires j <= Visited(req, w)
    ensures CallsInOrder(req, w, State(req, w, j).log.calls, j)
    ensures j <= Reach(req, w, 0) ==>
      forall c :: c in State(req, w, j).log.calls ==> !EndsRun(req, w, c)
  {
    hide After, VisitAt, EndsRun, Ruling, RunResult, CallsAt, CallsInOrder;
    if j == 0 {
      NoCalls(req, w);
    } else {
      StateCalls(req, w, j - 1);
      AfterAdds(req, w, j - 1, State(req, w, j - 1));
      VisitCalls(req, w, j - 1);
      Appended(req, w, State(req, w, j - 1).log.calls, j - 1, VisitAt(req, w, j - 1).runs);
    }
  }

  /** The outcome in closed form. */
  lemma Closed(req: Request, w: World)
    requires Gate(req) == None
    ensures Spec(req, w) ==
      var k := Reach(req, w, 0);
      if k == |req.chain| then Exhaust(req, State(req, w, k))
      else Finish(req, VisitAt(req, w, k).ending, State(req, w, k + 1))
  {
    hide After, VisitAt, Finish, Exhaust;
    Unroll(req, w, 0);
  }

  /**
   `run` is called at most twice per position and in chain order, a second time only when the
   policy ruled retry, and never again after an outcome that succeeded or stopped the run.
   */
  lemma RunCallsBounded(req: Request, w: World)
    ensures CallsInOrder(req, w, Spec(req, w).log.calls, |req.chain|)
    ensures |Spec(req, w).log.calls| <= 2 * |req.chain|
  {
    hide After, VisitAt, EndsRun, Ruling, RunResult, State, CallsInOrder;
    if Gate(req) == None {
      Closed(req, w);
      StateCalls(req, w, Visited(req, w));
      Loosen(req, w, Spec(req, w).log.calls, Visited(req, w));
    } else {
      NoCalls(req, w);
      Loosen(req, w, [], 0);
    }
    InOrderAreFew(req, w, Spec(req, w).log.calls, |req.chain|);
  }

  /** The place of a call among the two of every position. */
  function Place(c: Call): int {
    2 * c.index + c.attempt - 1
  }

  lemma {:induction false} PlacesGrow(req: Request, w: World, calls: seq<Call>, bound: nat, k: nat)
    requires CallsInOrder(req, w, calls, bound) && k < |calls|
    ensures k <= Place(calls[k]) < 2 * bound
  {
    hide EndsRun, Ruling, RunResult;
    if k > 0 {
      PlacesGrow(req, w, calls, bound, k - 1);
      assert Before(calls[k - 1], calls[k]);
    }
  }

  lemma InOrderAreFew(req: Request, w: World, calls: seq<Call>, bound: nat)
    requires CallsInOrder(req, w, calls, bound)
    ensures |calls| <= 2 * bound
  {
    hide CallsInOrder;
    if calls != [] {
      PlacesGrow(req, w, calls, bound, |calls| - 1);
    }
  }

  // ---- platform_attempted ----

  predicate NoDuplicates(chain: seq<string>) {
    forall i, j :: 0 <= i < j < |chain| ==> chain[i] != chain[j]
  }

  lemma AfterAttempted(req: Request, w: World, i: nat, s: Walk)
    requires i < |req.chain| && req.chain[i] !in s.attempted
    ensures After(req, w, i, s).attempted == s.attempted + [req.chain[i]]
  {
  }

  lemma {:induction false} StateAttempted(req: Request, w: World, j: nat)
    requires j <= |req.chain| && NoDuplicates(req.chain)
    ensures State(req, w, j).attempted == req.chain[..j]
  {
    hide After;
    if j > 0 {
      StateAttempted(req, w, j - 1);
      AfterAttempted(req, w, j - 1, State(req, w, j - 1));
    }
  }

  /** On a duplicate-free chain the attempted platforms are the visited prefix; all of it on exhaustion. */
  lemma AttemptedIsPrefix(req: Request, w: World)
    requires Gate(req) == None && NoDuplicates(req.chain)
    ensures Spec(req, w).result.attempted == req.chain[..Visited(req, w)]
    ensures Reach(req, w, 0) == |req.chain| ==> Spec(req, w).result.attempted == req.chain
  {
    hide After, VisitAt;
    Closed(req, w);
    StateAttempted(req, w, Visited(req, w));
    if |req.chain| > 0 && Reach(req, w, 0) == |req.chain| {
      AfterAdds(req, w, |req.chain| - 1, State(req, w, |req.chain| - 1));
    }
  }

  // ---- The event trace ----

  predicate IsAttemptFailed(e: Event) { e.AttemptFailed? }
  predicate IsFallback(e: Event) { e.FallbackTriggered? }
  predicate IsTerminal(e: Event) { e.Succeeded? || e.Failed? }

  function Count(p: Event -> bool, es: seq<Event>): nat {
    if es == [] then 0 else Count(p, es[..|es| - 1]) + (if p(es[|es| - 1]) then 1 else 0)
  }

  lemma {:induction false} CountAppend(p: Event -> bool, a: seq<Event>, b: seq<Event>)
    ensures Count(p, a + b) == Count(p, a) + Count(p, b)
  {
    if b == [] {
      assert a + b == a;
    } else {
      CountAppend(p, a, b[..|b| - 1]);
      assert (a + b)[..|a + b| - 1] == a + b[..|b| - 1];
    }
  }

  lemma CountShort(p: Event -> bool, es: seq<Event>)
    ensures |es| == 1 ==> Count(p, es) == (if p(es[0]) then 1 else 0)
    ensures |es| == 2 ==> Count(p, es) == (if p(es[0]) then 1 else 0) + (if p(es[1]) then 1 else 0)
  {
    if |es| == 2 {
      CountShort(p, es[..1]);
    }
  }

  /** How many of the first `j` positions were refused by their preflight. */
  function Refusals(req: Request, w: World, j: nat): nat
    requires j <= |req.chain|
  {
    if j == 0 then 0 else Refusals(req, w, j - 1) + (if VisitAt(req, w, j - 1).refused then 1 else 0)
  }

  /** How many of the first `j` positions had their adapter run. */
  function Positions(req: Request, w: World, j: nat): nat
    requires j <= |req.chain|
  {
    if j == 0 then 0 else Positions(req, w, j - 1) + (if VisitAt(req, w, j - 1).runs > 0 then 1 else 0)
  }

  /** How many of the calls came back with anything but success. */
  function FailingCalls(req: Request, w: World, calls: seq<Call>): nat
    requires forall c :: c in calls ==> c.index < |req.chain|
  {
    if calls == [] then 0
    else
      var c := calls[|calls| - 1];
      FailingCalls(req, w, calls[..|calls| - 1])
      + (if RunResult(req, w, c.index, c.attempt).status != ExecutionSucceeded then 1 else 0)
  }

  lemma {:induction false} FailingAppend(req: Request, w: World, a: seq<Call>, b: seq<Call>)
    requires forall c :: c in a + b ==> c.index < |req.chain|
    ensures forall c :: c in a ==> c.index < |req.chain|
    ensures forall c :: c in b ==> c.index < |req.chain|
    ensures FailingCalls(req, w, a + b) == FailingCalls(req, w, a) + FailingCalls(req, w, b)
  {
    hide RunResult;
    assert forall c :: c in a ==> c in a + b;
    assert forall c :: c in b ==> c in a + b;
    if b == [] {
      assert a + b == a;
    } else {
      var d := b[..|b| - 1];
      assert (a + b)[..|a + b| - 1] == a + d;
      assert forall c :: c in a + d ==> c in a + b;
      FailingAppend(req, w, a, d);
    }
  }

  /** How many of at most one event satisfy the predicate. */
  function One(p: Event -> bool, es: seq<Event>): nat {
    if es != [] && p(es[0]) then 1 else 0
  }

  lemma CountParts(p: Event -> bool, a: seq<Event>, b: seq<Event>, c: seq<Event>)
    requires |a| <= 1 && |b| <= 1 && |c| <= 1
    ensures Count(p, a + b + c) == One(p, a) + One(p, b) + One(p, c)
  {
    CountAppend(p, a + b, c);
    CountAppend(p, a, b);
    CountShort(p, a);
    CountShort(p, b);
    CountShort(p, c);
  }

  lemma FailingOne(req: Request, w: World, i: nat, attempt: nat)
    requires i < |req.chain|
    ensures FailingCalls(req, w, [Call(i, attempt)])
         == if RunResult(req, w, i, attempt).status != ExecutionSucceeded then 1 else 0
  {
    hide RunResult;
    assert [Call(i, attempt)][..0] == [];
  }

  lemma VisitFailing(req: Request, w: World, i: nat, runs: nat)
    requires i < |req.chain| && runs <= 2
    ensures FailingCalls(req, w, CallsAt(i, runs)) ==
      (if runs > 0 && RunResult(req, w, i, 1).status != ExecutionSucceeded then 1 else 0)
      + (if runs == 2 && RunResult(req, w, i, 2).status != ExecutionSucceeded then 1 else 0)
  {
    hide RunResult;
    FailingOne(req, w, i, 1);
    if runs == 2 {
      FailingOne(req, w, i, 2);
      FailingAppend(req, w, [Call(i, 1)], [Call(i, 2)]);
      assert CallsAt(i, 2) == [Call(i, 1)] + [Call(i, 2)];
    }
  }

  /** One visit: its failures are its refusal plus its failing runs, and it triggers at most one fallback. */
  lemma VisitTrace(req: Request, w: World, i: nat)
    requires i < |req.chain|
    ensures forall e :: e in VisitEvents(req, w, i) ==> IsAttemptFailed(e) || IsFallback(e)
    ensures
      var v := VisitAt(req, w, i);
      && Count(IsAttemptFailed, VisitEvents(req, w, i))
         == (if v.refused then 1 else 0) + FailingCalls(req, w, CallsAt(i, v.runs))
      && Count(IsFallback, VisitEvents(req, w, i))
         == (if v.ending.MovesOn? && v.ending.fallback.Some? then 1 else 0)
  {
    hide VisitAt, RunResult, Count, FailingCalls, CallsAt;
    VisitFacts(req, w, i);
    var v := VisitAt(req, w, i);
    var a, b, c := RetryPart(req, w, i), EndPart(req, w, i), FallbackPart(req, w, i);
    CountParts(IsAttemptFailed, a, b, c);
    CountParts(IsFallback, a, b, c);
    VisitFailing(req, w, i, v.runs);
  }

  ghost predicate TraceSoFar(req: Request, w: World, j: nat)
    requires j <= |req.chain|
  {
    var log := State(req, w, j).log;
    && |log.events| > 0 && log.events[0] == Started(req.chain)
    && (forall k :: 0 < k < |log.events| ==> IsAttemptFailed(log.events[k]) || IsFallback(log.events[k]))
    && (forall c :: c in log.calls ==> c.index < |req.chain|)
    && Count(IsAttemptFailed, log.events) == Refusals(req, w, j) + FailingCalls(req, w, log.calls)
    && Count(IsFallback, log.events) == |log.fallbacks|
    && |log.calls| == |log.retries| + Positions(req, w, j)
  }

  lemma AfterFallbacks(req: Request, w: World, i: nat, s: Walk)
    requires i < |req.chain|
    ensures
      var v := VisitAt(req, w, i);
      After(req, w, i, s).log.fallbacks ==
        s.log.fallbacks + (if v.ending.MovesOn? && v.ending.fallback.Some? then [v.ending.fallback.value] else [])
  {
    hide VisitAt, Blank, RunResult;
  }

  lemma {:induction false} StateTrace(req: Request, w: World, j: nat)
    requires j <= |req.chain|
    ensures TraceSoFar(req, w, j)
  {
    hide After, VisitAt, VisitEvents, RunResult, Count, FailingCalls, IsAttemptFailed, IsFallback;
    if j == 0 {
      BeginTrace(req, w);
      CountShort(IsAttemptFailed, [Started(req.chain)]);
      CountShort(IsFallback, [Started(req.chain)]);
    } else {
      var i := j - 1;
      var s := State(req, w, i);
      StateTrace(req, w, i);
      AfterAdds(req, w, i, s);
      AfterFallbacks(req, w, i, s);
      VisitTrace(req, w, i);
      VisitCalls(req, w, i);
      CountAppend(IsAttemptFailed, s.log.events, VisitEvents(req, w, i));
      CountAppend(IsFallback, s.log.events, VisitEvents(req, w, i));
      FailingAppend(req, w, s.log.calls, CallsAt(i, VisitAt(req, w, i).runs));
    }
  }

  lemma BeginTrace(req: Request, w: World)
    ensures FailingCalls(req, w, []) == 0 && !IsAttemptFailed(Started(req.chain)) && !IsFallback(Started(req.chain))
  {
  }

  /** The run ended on a preflight that refused with the success status. */
  predicate SilentRefusal(req: Request, w: World) {
    var k := Reach(req, w, 0);
    Gate(req) == None && k < |req.chain| && VisitAt(req, w, k).refused
    && VisitAt(req, w, k).result.status == ExecutionSucceeded
  }

  /** The last event a run adds, if any. */
  function LastEvents(req: Request, w: World): seq<Event> {
    if SilentRefusal(req, w) then []
    else if Spec(req, w).result.status == ExecutionSucceeded then [Succeeded(Spec(req, w).result)]
    else [Failed(Spec(req, w).result)]
  }

  lemma Conclusion(req: Request, w: World)
    requires Gate(req) == None
    ensures
      var s := State(req, w, Visited(req, w));
      var o := Spec(req, w);
      && o.log.events == s.log.events + LastEvents(req, w)
      && o.log.calls == s.log.calls && o.log.retries == s.log.retries && o.log.fallbacks == s.log.fallbacks
  {
    hide After, VisitAt, RunResult;
    Closed(req, w);
    var k := Reach(req, w, 0);
    if k < |req.chain| {
      VisitFacts(req, w, k);
      AfterAdds(req, w, k, State(req, w, k));
    } else if k > 0 {
      VisitFacts(req, w, k - 1);
      AfterAdds(req, w, k - 1, State(req, w, k - 1));
    }
  }

  /**
   Accounting of a whole run that passes the gate. The trace starts with `started` and then only
   reports failures and fallbacks; exactly one terminal event, carrying the returned result, ends
   it, unless the run ended on a preflight that refused with the success status: then, and only
   then, there is none.
   */
  lemma TraceAccounting(req: Request, w: World)
    requires Gate(req) == None
    ensures |LastEvents(req, w)| < |Spec(req, w).log.events|
    ensures
      var o := Spec(req, w);
      var inner := o.log.events[..|o.log.events| - |LastEvents(req, w)|];
      && o.log.events == inner + LastEvents(req, w)
      && |inner| > 0 && inner[0] == Started(req.chain)
      && (forall k :: 0 < k < |inner| ==> IsAttemptFailed(inner[k]) || IsFallback(inner[k]))
      && Count(IsTerminal, o.log.events) == (if SilentRefusal(req, w) then 0 else 1)
      && RunCallsIndexed(req, o.log.calls)
      && Count(IsAttemptFailed, o.log.events)
         == Refusals(req, w, Visited(req, w)) + FailingCalls(req, w, o.log.calls)
      && Count(IsFallback, o.log.events) == |o.log.fallbacks|
      && |o.log.retries| == |o.log.calls| - Positions(req, w, Visited(req, w))
  {
    hide After, VisitAt, RunResult, Spec, Refusals, Positions, FailingCalls;
    Conclusion(req, w);
    StateTrace(req, w, Visited(req, w));
    var events := State(req, w, Visited(req, w)).log.events;
    var last := LastEvents(req, w);
    assert Spec(req, w).log.events[..|events|] == events;
    CountAppend(IsAttemptFailed, events, last);
    CountAppend(IsFallback, events, last);
    CountAppend(IsTerminal, events, last);
    CountShort(IsAttemptFailed, last);
    CountShort(IsFallback, last);
    CountShort(IsTerminal, last);
    CountNone(IsTerminal, events);
  }

  /** No preflight refuses with the success status: the adapters' side of the contract. */
  predicate HonestPreflights(req: Request, w: World) {
    forall i: nat :: i < |req.chain| && w.preflight(i).PreflightReturned? && !w.preflight(i).result.ok ==>
      w.preflight(i).result.status != Some(ExecutionSucceeded)
  }

  /** Then every run, refused by the gate or not, reports exactly one terminal event. */
  lemma OneTerminalEvent(req: Request, w: World)
    requires HonestPreflights(req, w)
    ensures Count(IsTerminal, Spec(req, w).log.events) == 1
  {
    hide After, VisitAt, RunResult, Spec, Refusals, Positions, FailingCalls, FailedEvents;
    if Gate(req) == None {
      TraceAccounting(req, w);
      if SilentRefusal(req, w) {
        RefusedHonestly(req, w, Reach(req, w, 0));
      }
    } else {
      GateEvents(req, w);
      CountShort(IsTerminal, Spec(req, w).log.events);
    }
  }

  lemma RefusedHonestly(req: Request, w: World, i: nat)
    requires HonestPreflights(req, w) && i < |req.chain| && VisitAt(req, w, i).refused
    ensures VisitAt(req, w, i).result.status != ExecutionSucceeded
  {
    hide RunResult;
  }

  lemma GateEvents(req: Request, w: World)
    requires Gate(req).Some?
    ensures Spec(req, w).log.events == [Started(req.chain), Failed(Gate(req).value)]
  {
  }

  /** Without that a run can end in silence: one adapter whose preflight refuses and says success. */
  lemma SuccessfulRefusalIsSilent(req: Request, w: World)
    requires req.chain == ["codex"] && req.parentChain == [] && w.adapters == {"codex"}
    requires w.preflight(0) == PreflightReturned(PreflightResult(false, Some(ExecutionSucceeded), "ok"))
    ensures SilentRefusal(req, w) && Count(IsTerminal, Spec(req, w).log.events) == 0
  {
    hide RunResult;
    assert Gate(req) == None by {
      assert (set x | x in req.parentChain) == {};
    }
    assert Reach(req, w, 0) == 0;
    TraceAccounting(req, w);
  }

  predicate RunCallsIndexed(req: Request, calls: seq<Call>) {
    forall c :: c in calls ==> c.index < |req.chain|
  }

  lemma {:induction false} CountNone(p: Event -> bool, es: seq<Event>)
    requires forall k :: 0 <= k < |es| ==> !p(es[k])
    ensures Count(p, es) == 0
  {
    if es != [] {
      CountNone(p, es[..|es| - 1]);
    }
  }

  // ---- Outcomes that need the user, and the hint they leave ----

  /** Position `i` was left behind although its outcome needs the user to reconnect. */
  predicate FellThrough(req: Request, w: World, i: nat)
    requires i < |req.chain|
  {
    NeedsUser(VisitAt(req, w, i).result.status) && VisitAt(req, w, i).ending.MovesOn?
  }

  /** A run moves past such an outcome only onto `opencode`. */
  lemma FallsThroughOnlyToOpencode(req: Request, w: World, i: nat)
    requires i < |req.chain| && FellThrough(req, w, i)
    ensures i + 1 < |req.chain| && req.chain[i + 1] == OPENCODE
    ensures VisitAt(req, w, i).ending.fallback.Some?
    ensures VisitAt(req, w, i).ending.fallback.value.hint
         == Some(UserHint(VisitAt(req, w, i).result.status, req.chain[i]))
  {
  }

  /** In a duplicate-free chain that happens at most once. */
  lemma FallsThroughOnce(req: Request, w: World, i: nat, j: nat)
    requires NoDuplicates(req.chain)
    requires i < |req.chain| && j < |req.chain| && FellThrough(req, w, i) && FellThrough(req, w, j)
    ensures i == j
  {
    hide VisitAt;
    FallsThroughOnlyToOpencode(req, w, i);
    FallsThroughOnlyToOpencode(req, w, j);
  }

  /** The most recent such position before `j`. */
  function LastFallThrough(req: Request, w: World, j: nat): Option<nat>
    requires j <= |req.chain|
  {
    if j == 0 then None
    else if FellThrough(req, w, j - 1) then Some(j - 1)
    else LastFallThrough(req, w, j - 1)
  }

  function CarriedHint(req: Request, w: World, j: nat): Option<Hint>
    requires j <= |req.chain|
  {
    match LastFallThrough(req, w, j)
    case None => None
    case Some(i) =>
      if i < |req.chain| then Some(UserHint(VisitAt(req, w, i).result.status, req.chain[i])) else None
  }

  /** A position is left with a hint exactly when its outcome needs the user. */
  lemma LeavingHint(req: Request, w: World, i: nat)
    requires i < |req.chain| && VisitAt(req, w, i).ending.MovesOn?
    ensures
      var v := VisitAt(req, w, i);
      match v.ending.fallback
      case None => !NeedsUser(v.result.status)
      case Some(d) =>
        d.hint == if NeedsUser(v.result.status) then Some(UserHint(v.result.status, req.chain[i])) else None
  {
    hide RunResult;
  }

  lemma AfterCarry(req: Request, w: World, i: nat, s: Walk)
    requires i < |req.chain|
    ensures After(req, w, i, s).carry ==
      if FellThrough(req, w, i) then Some(UserHint(VisitAt(req, w, i).result.status, req.chain[i])) else s.carry
  {
    hide RunResult, VisitAt;
    if VisitAt(req, w, i).ending.MovesOn? {
      LeavingHint(req, w, i);
    }
  }

  lemma {:induction false} StateCarry(req: Request, w: World, j: nat)
    requires j <= |req.chain|
    ensures State(req, w, j).carry == CarriedHint(req, w, j)
  {
    hide After, VisitAt;
    if j > 0 {
      StateCarry(req, w, j - 1);
      AfterCarry(req, w, j - 1, State(req, w, j - 1));
    }
  }

  predicate RunSucceeds(req: Request, w: World) {
    var k := Reach(req, w, 0);
    Gate(req) == None && k < |req.chain| && VisitAt(req, w, k).ending == Succeeds
  }

  /**
   A successful run returns the answer of the last adapter that ran, changed only in its
   bookkeeping fields; its hint is the adapter's own, or else the key of the last platform the run
   fell through, or else nothing new.
   */
  lemma SuccessIsTheAdaptersAnswer(req: Request, w: World)
    requires RunSucceeds(req, w)
    ensures
      var k := Reach(req, w, 0);
      var v := VisitAt(req, w, k);
      var own := RunResult(req, w, k, v.runs);
      var got := Spec(req, w).result;
      && own.status == ExecutionSucceeded
      && Spec(req, w).log.calls != []
      && Spec(req, w).log.calls[|Spec(req, w).log.calls| - 1] == Call(k, v.runs)
      && got == own.(attempted := got.attempted, attemptCount := got.attemptCount,
                     hint := got.hint, runId := Some(req.runId))
      && got.attemptCount == (if own.attemptCount < 1 then 1 else own.attemptCount)
      && got.hint == (if Truthy(own.hint) || CarriedHint(req, w, k) == None then own.hint
                      else Some(Key(CarriedHint(req, w, k).value)))
  {
    hide After, VisitAt, RunResult, HintKey, CarriedHint;
    var k := Reach(req, w, 0);
    Closed(req, w);
    StateCarry(req, w, k);
    AfterCarry(req, w, k, State(req, w, k));
    AfterAdds(req, w, k, State(req, w, k));
    VisitFacts(req, w, k);
  }

  /** On a duplicate-free chain the carried key names the one platform that was fallen through. */
  lemma CarriedHintNamesThePlatform(req: Request, w: World, i: nat, k: nat)
    requires NoDuplicates(req.chain) && i < k <= |req.chain| && FellThrough(req, w, i)
    ensures CarriedHint(req, w, k) == Some(UserHint(VisitAt(req, w, i).result.status, req.chain[i]))
    decreases k
  {
    hide VisitAt;
    if k - 1 == i {
    } else {
      if FellThrough(req, w, k - 1) {
        FallsThroughOnce(req, w, i, k - 1);
      }
      CarriedHintNamesThePlatform(req, w, i, k - 1);
    }
  }

  /**
   After falling through at a platform of a duplicate-free chain, a success without a hint of its
   own carries exactly that platform's key.
   */
  lemma SuccessCarriesTheHint(req: Request, w: World, i: nat)
    requires NoDuplicates(req.chain) && RunSucceeds(req, w)
    requires i < Reach(req, w, 0) && FellThrough(req, w, i)
    ensures
      var k := Reach(req, w, 0);
      var own := RunResult(req, w, k, VisitAt(req, w, k).runs);
      Spec(req, w).result.hint ==
        if Truthy(own.hint) then own.hint
        else Some(Key(UserHint(VisitAt(req, w, i).result.status, req.chain[i])))
  {
    hide VisitAt, RunResult, Spec, CarriedHint;
    SuccessIsTheAdaptersAnswer(req, w);
    CarriedHintNamesThePlatform(req, w, i, Reach(req, w, 0));
  }

  // ---- Longer chains ----

  /** Two states that differ only in the chain their start event reports. */
  ghost predicate SameWalk(s: Walk, t: Walk) {
    && s.attempted == t.attempted && s.last == t.last && s.carry == t.carry
    && s.log.retries == t.log.retries && s.log.fallbacks == t.log.fallbacks && s.log.calls == t.log.calls
    && |s.log.events| > 0 && |t.log.events| > 0 && s.log.events[1..] == t.log.events[1..]
  }

  lemma SameVisit(req: Request, more: seq<string>, w: World, i: nat)
    requires i < |req.chain|
    requires i + 1 < |req.chain| || VisitAt(req, w, i).ending == Succeeds
    ensures VisitAt(req.(chain := req.chain + more), w, i) == VisitAt(req, w, i)
  {
  }

  lemma SameAfter(req: Request, more: seq<string>, w: World, i: nat, s: Walk, t: Walk)
    requires i < |req.chain| && SameWalk(s, t)
    requires i + 1 < |req.chain| || VisitAt(req, w, i).ending == Succeeds
    ensures SameWalk(After(req, w, i, s), After(req.(chain := req.chain + more), w, i, t))
  {
    hide After, VisitAt, VisitEvents;
    var longer := req.(chain := req.chain + more);
    SameVisit(req, more, w, i);
    VisitFacts(req, w, i);
    SameEvents(req, more, w, i);
    AfterAdds(req, w, i, s);
    AfterAdds(longer, w, i, t);
    var a, b := After(req, w, i, s), After(longer, w, i, t);
    var e := VisitEvents(req, w, i);
    assert (s.log.events + e)[1..] == s.log.events[1..] + e;
    assert (t.log.events + e)[1..] == t.log.events[1..] + e;
    SameRest(req, more, w, i, s, t);
  }

  lemma SameEvents(req: Request, more: seq<string>, w: World, i: nat)
    requires i < |req.chain|
    requires i + 1 < |req.chain| || VisitAt(req, w, i).ending == Succeeds
    ensures VisitEvents(req.(chain := req.chain + more), w, i) == VisitEvents(req, w, i)
  {
    hide VisitAt;
    SameVisit(req, more, w, i);
  }

  lemma SamePieces(req: Request, more: seq<string>, w: World, i: nat)
    requires i < |req.chain|
    ensures
      var longer := req.(chain := req.chain + more);
      && RefusedResult(longer, w, i) == RefusedResult(req, w, i)
      && RunResult(longer, w, i, 1) == RunResult(req, w, i, 1)
      && RunResult(longer, w, i, 2) == RunResult(req, w, i, 2)
      && (Ruling(req, i, RunResult(req, w, i, 1).status, 1).action == Retry ==>
            Ruling(longer, i, RunResult(req, w, i, 1).status, 1) == Ruling(req, i, RunResult(req, w, i, 1).status, 1))
  {
  }

  lemma SameRest(req: Request, more: seq<string>, w: World, i: nat, s: Walk, t: Walk)
    requires i < |req.chain| && SameWalk(s, t)
    requires i + 1 < |req.chain| || VisitAt(req, w, i).ending == Succeeds
    ensures
      var a, b := After(req, w, i, s), After(req.(chain := req.chain + more), w, i, t);
      && a.attempted == b.attempted && a.last == b.last && a.carry == b.carry
      && a.log.retries == b.log.retries && a.log.fallbacks == b.log.fallbacks && a.log.calls == b.log.calls
  {
    hide VisitAt, RunResult, RefusedResult;
    VisitFacts(req, w, i);
    var longer := req.(chain := req.chain + more);
    VisitFacts(longer, w, i);
    SamePieces(req, more, w, i);
    SameVisit(req, more, w, i);
  }

  lemma {:induction false} SameStates(req: Request, more: seq<string>, w: World, j: nat)
    requires j <= Visited(req, w) && RunSucceeds(req, w)
    ensures SameWalk(State(req, w, j), State(req.(chain := req.chain + more), w, j))
  {
    hide After, VisitAt;
    if j > 0 {
      SameStates(req, more, w, j - 1);
      SameAfter(req, more, w, j - 1, State(req, w, j - 1), State(req.(chain := req.chain + more), w, j - 1));
    }
  }

  lemma {:induction false} SameReach(req: Request, more: seq<string>, w: World, i: nat)
    requires RunSucceeds(req, w) && i <= Reach(req, w, 0)
    ensures Reach(req.(chain := req.chain + more), w, i) == Reach(req, w, 0)
    decreases |req.chain| - i
  {
    hide VisitAt;
    SameVisit(req, more, w, i);
    if i < Reach(req, w, 0) {
      SameReach(req, more, w, i + 1);
    }
  }

  /** If a run on a chain succeeds, the run on any longer chain gives the same result with the same log. */
  lemma ExtensionKeepsSuccess(req: Request, more: seq<string>, w: World)
    requires RunSucceeds(req, w)
    ensures Spec(req, w).log.events != [] && Spec(req.(chain := req.chain + more), w).log.events != []
    ensures
      var a, b := Spec(req, w), Spec(req.(chain := req.chain + more), w);
      && a.result == b.result
      && a.log.(events := a.log.events[1..]) == b.log.(events := b.log.events[1..])
  {
    hide After, VisitAt;
    var longer := req.(chain := req.chain + more);
    var k := Reach(req, w, 0);
    Closed(req, w);
    Closed(longer, w);
    SameReach(req, more, w, 0);
    SameVisit(req, more, w, k);
    SameStates(req, more, w, k + 1);
  }
}
