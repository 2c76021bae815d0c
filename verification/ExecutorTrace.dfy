/** The event trace and the decisions of a whole run, told from the adapters' answers alone. */
module ExecutorTrace {
  import opened Wrappers
  import opened Policy
  import opened Executor
  import opened ExecutorProperties
  import opened ExecutorAnswers

  /** Why a run goes on to the next platform. */
  function FallReason(status: Status, platform: string): Reason {
    match status
    case QuotaExhausted => OutOfQuota(platform)
    case ProviderUnavailable => Unavailable(platform)
    case RetryableNetworkFailure => NetworkPersisted
    case Timeout => TimeoutPersisted
    case _ => FallingThrough(status, platform)
  }

  function RetryReason(status: Status): Reason {
    match status
    case RetryableNetworkFailure => RetryingWithBackoff
    case Timeout => RetryingTimeout
    case _ => RetryingUnknown
  }

  /** The policy sends the run on, and says so; a refusal it would retry is passed over in silence. */
  predicate FallsAt(req: Request, w: World, k: nat)
    requires k < |req.chain|
  {
    && req.chain[k] in w.adapters && !EndsAt(req, w, k)
    && (Runs(req, w, k) || !Transient(AnswerAt(req, w, k).status))
  }

  /** What is reported of one position: its failed attempts, number 0 for a refusal, and the fallback. */
  function EventsAt(req: Request, w: World, k: nat): seq<Event>
    requires k < |req.chain|
  {
    var p, answer := req.chain[k], AnswerAt(req, w, k);
    if p !in w.adapters then []
    else
      (if Attempts(req, w, k) == 2
       then [AttemptFailed(1, Called(req, w, k, 1).platform, Called(req, w, k, 1).status)] else [])
      + (if Runs(req, w, k) && answer.status == ExecutionSucceeded then []
         else [AttemptFailed(Attempts(req, w, k), answer.platform, answer.status)])
      + (if FallsAt(req, w, k) then
           [FallbackTriggered(p, if k + 1 < |req.chain| then Some(req.chain[k + 1]) else None, FallReason(answer.status, p))]
         else [])
  }

  function FallbacksAt(req: Request, w: World, k: nat): seq<Decision>
    requires k < |req.chain|
  {
    var p, status := req.chain[k], AnswerAt(req, w, k).status;
    if !FallsAt(req, w, k) then []
    else [Decision(Fallback, FallReason(status, p), if NeedsUser(status) then Some(UserHint(status, p)) else None)]
  }

  function RetriesAt(req: Request, w: World, k: nat): seq<Decision>
    requires k < |req.chain|
  {
    if Attempts(req, w, k) < 2 then [] else [Decision(Retry, RetryReason(Called(req, w, k, 1).status), None)]
  }

  /** Events, retries and fallbacks of the first `n` positions. */
  datatype Told = Told(events: seq<Event>, retries: seq<Decision>, fallbacks: seq<Decision>)

  function ToldBy(req: Request, w: World, n: nat): Told
    requires n <= |req.chain|
  {
    if n == 0 then Told([Started(req.chain)], [], [])
    else
      var before := ToldBy(req, w, n - 1);
      Told(before.events + EventsAt(req, w, n - 1), before.retries + RetriesAt(req, w, n - 1),
           before.fallbacks + FallbacksAt(req, w, n - 1))
  }

  lemma FallbackIsTold(req: Request, w: World, k: nat)
    requires k < |req.chain|
    ensures
      var v := VisitAt(req, w, k);
      FallbacksAt(req, w, k) == if v.ending.MovesOn? && v.ending.fallback.Some? then [v.ending.fallback.value] else []
  {
    hide RunResult, RefusedResult, MissingResult, AnswerAt, Called;
    VisitIsTheAnswer(req, w, k);
    FallbackCases(req, w, k);
  }

  lemma FallbackCases(req: Request, w: World, k: nat)
    requires k < |req.chain| && VisitAt(req, w, k).result == AnswerAt(req, w, k)
    ensures
      var v, p, status := VisitAt(req, w, k), req.chain[k], VisitAt(req, w, k).result.status;
      v.ending.MovesOn? ==>
        if p in w.adapters && (Runs(req, w, k) || !Transient(status)) then
          v.ending.fallback == Some(Decision(Fallback, FallReason(status, p),
                                             if NeedsUser(status) then Some(UserHint(status, p)) else None))
        else v.ending.fallback == None
  {
    hide RunResult, RefusedResult, MissingResult, AnswerAt;
  }

  /** Who was refused, and what the first call said. */
  lemma RefusalIsTold(req: Request, w: World, k: nat)
    requires k < |req.chain|
    ensures VisitAt(req, w, k).refused <==> req.chain[k] in w.adapters && !Runs(req, w, k)
    ensures RunResult(req, w, k, 1) == Called(req, w, k, 1)
  {
    hide RefusedResult, MissingResult, Ruling;
  }

  lemma FailuresAreTold(req: Request, w: World, k: nat)
    requires k < |req.chain|
    ensures RetryPart(req, w, k) ==
      if Attempts(req, w, k) == 2 then [AttemptFailed(1, Called(req, w, k, 1).platform, Called(req, w, k, 1).status)] else []
    ensures EndPart(req, w, k) ==
      if req.chain[k] in w.adapters && !(Runs(req, w, k) && AnswerAt(req, w, k).status == ExecutionSucceeded)
      then [AttemptFailed(Attempts(req, w, k), AnswerAt(req, w, k).platform, AnswerAt(req, w, k).status)] else []
  {
    hide VisitAt, RunResult, AnswerAt, Called;
    VisitIsTheAnswer(req, w, k);
    RefusalIsTold(req, w, k);
  }

  lemma EventsAreTold(req: Request, w: World, k: nat)
    requires k < |req.chain|
    ensures VisitEvents(req, w, k) == EventsAt(req, w, k)
  {
    hide VisitAt, AnswerAt, FallsAt, Called, Attempts, Runs, RetryPart, EndPart;
    FailuresAreTold(req, w, k);
    FallbackIsTold(req, w, k);
    if req.chain[k] !in w.adapters {
      AbsentIsSilent(req, w, k);
    }
  }

  lemma AbsentIsSilent(req: Request, w: World, k: nat)
    requires k < |req.chain| && req.chain[k] !in w.adapters
    ensures Attempts(req, w, k) == 0 && !FallsAt(req, w, k)
  {
  }

  lemma AfterFallbacks(req: Request, w: World, k: nat, s: Walk)
    requires k < |req.chain|
    ensures After(req, w, k, s).log.fallbacks == s.log.fallbacks + FallbacksAt(req, w, k)
  {
    hide VisitAt, FallbacksAt, RunResult, RefusedResult;
    FallbackIsTold(req, w, k);
  }

  lemma RetryIsTold(req: Request, w: World, k: nat)
    requires k < |req.chain|
    ensures RetriesAt(req, w, k) ==
      if VisitAt(req, w, k).runs == 2 then [Ruling(req, k, RunResult(req, w, k, 1).status, 1)] else []
  {
    hide VisitAt, AnswerAt, RunResult, Called, Runs;
    VisitIsTheAnswer(req, w, k);
    RefusalIsTold(req, w, k);
  }

  lemma {:induction false} StateIsTold(req: Request, w: World, n: nat)
    requires n <= |req.chain|
    ensures
      var log := State(req, w, n).log;
      Told(log.events, log.retries, log.fallbacks) == ToldBy(req, w, n)
  {
    hide After, VisitAt, EventsAt, RetriesAt, FallbacksAt, VisitEvents, Ruling;
    if n > 0 {
      StateIsTold(req, w, n - 1);
      var s := State(req, w, n - 1);
      AfterAdds(req, w, n - 1, s);
      AfterFallbacks(req, w, n - 1, s);
      EventsAreTold(req, w, n - 1);
      RetryIsTold(req, w, n - 1);
    }
  }

  /**
   The trace of a run that ends at position `k` is that of the positions up to it and one terminal
   event with the result returned, which a refusal with the success status goes without.
   */
  lemma TraceIsTold(req: Request, w: World, k: nat)
    requires EndsFirstAt(req, w, k)
    ensures
      var o, told := Spec(req, w), ToldBy(req, w, k + 1);
      && o.log.events == told.events
           + (if o.result.status != ExecutionSucceeded then [Failed(o.result)]
              else if Runs(req, w, k) then [Succeeded(o.result)] else [])
      && o.log.retries == told.retries && o.log.fallbacks == told.fallbacks
  {
    hide VisitAt, AnswerAt, After, Runs, Exhaust, ToldBy, OrHint, OrMessage;
    EndIsReach(req, w, k);
    Closed(req, w);
    StateIsTold(req, w, k + 1);
    VisitIsTheAnswer(req, w, k);
    AfterAdds(req, w, k, State(req, w, k));
  }

  /** The trace of a run that ends nowhere ends with a failure. */
  lemma ExhaustedTraceIsTold(req: Request, w: World)
    requires Gate(req) == None && forall j :: 0 <= j < |req.chain| ==> !EndsAt(req, w, j)
    ensures
      var o, told := Spec(req, w), ToldBy(req, w, |req.chain|);
      && o.log.events == told.events + [Failed(o.result)]
      && o.log.retries == told.retries && o.log.fallbacks == told.fallbacks
  {
    hide VisitAt, AnswerAt, EndsAt, After, Finish, ToldBy, OrMessage;
    var n := |req.chain|;
    var r := Reach(req, w, 0);
    if r < n {
      VisitIsTheAnswer(req, w, r);
    }
    Closed(req, w);
    StateIsTold(req, w, n);
    if n > 0 {
      VisitIsTheAnswer(req, w, n - 1);
      AfterAdds(req, w, n - 1, State(req, w, n - 1));
      VisitFacts(req, w, n - 1);
    }
  }
}
