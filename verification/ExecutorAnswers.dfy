/**
 What a run returns, told from the adapters' answers alone: the answer at each chain position, the
 positions that end a run, and what a stopped, an exhausted and a refused run hand back.
 */
module ExecutorAnswers {
  import opened Wrappers
  import opened Policy
  import opened Executor
  import opened ExecutorProperties

  // ---- The answer at one position ----

  predicate Transient(s: Status) {
    s == RetryableNetworkFailure || s == Timeout || s == UnknownFailure
  }

  /** A call that raised, as the executor reports it. */
  function Raised(req: Request, platform: string, attempt: nat, status: Status, error: string): ExecResult {
    ExecResult(status, platform, "", "", error, None, Some(Text(error)), [platform], attempt, None, None, None, map[],
               Some(req.runId))
  }

  /** What a platform without a `run` call leaves behind. */
  function NotRun(req: Request, platform: string, status: Status, message: Message): ExecResult {
    ExecResult(status, platform, "", "", "", None, Some(message), [platform], 0, None, None, None, map[], Some(req.runId))
  }

  function Called(req: Request, w: World, k: nat, attempt: nat): ExecResult
    requires k < |req.chain|
  {
    match w.run(k, attempt)
    case RunReturned(r) => r
    case RunRaised(status, error) => Raised(req, req.chain[k], attempt, status, error)
  }

  /** The preflight at a position passed. */
  predicate Runs(req: Request, w: World, k: nat)
    requires k < |req.chain|
  {
    req.chain[k] in w.adapters && w.preflight(k).PreflightReturned? && w.preflight(k).result.ok
  }

  /** A second call is made exactly after a transient failure of the first. */
  function Attempts(req: Request, w: World, k: nat): nat
    requires k < |req.chain|
  {
    if !Runs(req, w, k) then 0 else if Transient(Called(req, w, k, 1).status) then 2 else 1
  }

  function AnswerAt(req: Request, w: World, k: nat): ExecResult
    requires k < |req.chain|
  {
    var p := req.chain[k];
    if p !in w.adapters then NotRun(req, p, ProviderUnavailable, NoAdapter(p))
    else match w.preflight(k)
      case PreflightRaised(e) => NotRun(req, p, ProviderUnavailable, Message.Text(w.redact("preflight raised " + e)))
      case PreflightReturned(PreflightResult(ok, status, reason)) =>
        if ok then Called(req, w, k, Attempts(req, w, k))
        else NotRun(req, p, if status.Some? then status.value else ProviderUnavailable, Message.Text(w.redact(reason)))
  }

  /** The run ends at this position. */
  predicate EndsAt(req: Request, w: World, k: nat)
    requires k < |req.chain|
  {
    req.chain[k] in w.adapters
    && match AnswerAt(req, w, k).status
       case ExecutionSucceeded | WorkflowFailed => true
       case NeedsAuth | WorkspaceUntrusted | ApiDisabled => k + 1 == |req.chain| || req.chain[k + 1] != "opencode"
       case UnknownFailure => Runs(req, w, k)
       case _ => false
  }

  /** `VisitAt` is that answer, with as many calls, and ends the run at those positions. */
  lemma VisitIsTheAnswer(req: Request, w: World, k: nat)
    requires k < |req.chain|
    ensures VisitAt(req, w, k).result == AnswerAt(req, w, k)
    ensures VisitAt(req, w, k).runs == Attempts(req, w, k)
    ensures VisitAt(req, w, k).ending.MovesOn? <==> !EndsAt(req, w, k)
    ensures VisitAt(req, w, k).ending == Succeeds <==> Runs(req, w, k) && AnswerAt(req, w, k).status == ExecutionSucceeded
  {
    assert RunResult(req, w, k, 1) == Called(req, w, k, 1) && RunResult(req, w, k, 2) == Called(req, w, k, 2);
  }

  // ---- What a run hands back ----

  /** The translation key a user is shown for an outcome, if there is one. */
  function HintText(status: Status, platform: string): Option<string> {
    match status
    case NeedsAuth => Some(AtPlatform("cli.errors.needs_auth", platform))
    case WorkspaceUntrusted => Some(AtPlatform("cli.errors.workspace_untrusted", platform))
    case ApiDisabled => Some(AtPlatform("cli.errors.api_disabled", platform))
    case WorkflowFailed => Some("cli.errors.workflow_failed")
    case UnknownFailure => Some("cli.errors.unknown_failure")
    case _ => None
  }

  function AtPlatform(key: string, platform: string): string {
    if platform == "" then key else key + "." + platform
  }

  function StopReason(status: Status, platform: string): Reason {
    match status
    case ExecutionSucceeded => Succeeding
    case WorkflowFailed => WorkflowBroke
    case UnknownFailure => UnknownPersisted
    case _ => MustReconnect(status, platform)
  }

  /** The platforms named after `n` positions: one that runs again is not named again. */
  function AttemptedBy(req: Request, w: World, n: nat): seq<string>
    requires n <= |req.chain|
  {
    if n == 0 then []
    else
      var before, p := AttemptedBy(req, w, n - 1), req.chain[n - 1];
      if Runs(req, w, n - 1) && p in before then before else before + [p]
  }

  lemma {:induction false} AttemptedIsState(req: Request, w: World, n: nat)
    requires n <= |req.chain|
    ensures State(req, w, n).attempted == AttemptedBy(req, w, n)
  {
    hide After, VisitAt, Runs;
    if n > 0 {
      AttemptedIsState(req, w, n - 1);
      AttemptedAfter(req, w, n - 1, State(req, w, n - 1));
    }
  }

  lemma AttemptedAfter(req: Request, w: World, k: nat, s: Walk)
    requires k < |req.chain|
    ensures After(req, w, k, s).attempted ==
      if Runs(req, w, k) && req.chain[k] in s.attempted then s.attempted else s.attempted + [req.chain[k]]
  {
    hide RunResult, RefusedResult, Ruling;
  }

  /** The run passes the gate and ends at position `k`. */
  predicate EndsFirstAt(req: Request, w: World, k: nat) {
    Gate(req) == None && k < |req.chain| && EndsAt(req, w, k) && forall j :: 0 <= j < k ==> !EndsAt(req, w, j)
  }

  lemma EndIsReach(req: Request, w: World, k: nat)
    requires EndsFirstAt(req, w, k)
    ensures Reach(req, w, 0) == k
  {
    hide VisitAt, AnswerAt, EndsAt;
    var r := Reach(req, w, 0);
    VisitIsTheAnswer(req, w, k);
    if r < |req.chain| {
      VisitIsTheAnswer(req, w, r);
    }
  }

  /**
   A run that ends without a success returns the answer of the position it ends at: with the
   platforms attempted and the run's id, with the adapter's own hint or else the one for the outcome,
   and with the adapter's own message or else the policy's reason.
   */
  lemma StoppedRunReturns(req: Request, w: World, k: nat)
    requires EndsFirstAt(req, w, k)
    requires !(Runs(req, w, k) && AnswerAt(req, w, k).status == ExecutionSucceeded)
    ensures
      var own, p := AnswerAt(req, w, k), req.chain[k];
      var got := Spec(req, w).result;
      && got == own.(attempted := AttemptedBy(req, w, k + 1), hint := got.hint,
                     errorMessage := got.errorMessage, runId := Some(req.runId))
      && got.hint ==
           (if Truthy(own.hint) || HintText(own.status, p) == None then own.hint else HintText(own.status, p))
      && got.errorMessage ==
           (if own.errorMessage == None || own.errorMessage == Some(Message.Text(""))
            then Some(Because(StopReason(own.status, p))) else own.errorMessage)
  {
    hide VisitAt, AnswerAt, After, Key, Runs, Exhaust;
    EndIsReach(req, w, k);
    Closed(req, w);
    AttemptedIsState(req, w, k + 1);
    VisitIsTheAnswer(req, w, k);
    AfterAdds(req, w, k, State(req, w, k));
    StopDecision(req, w, k);
    StopHint(AnswerAt(req, w, k).status, req.chain[k]);
  }

  function StopHintOf(status: Status, platform: string): Option<Hint> {
    match status
    case ExecutionSucceeded => None
    case WorkflowFailed => Some(WorkflowHint)
    case UnknownFailure => Some(UnknownHint)
    case _ => Some(UserHint(status, platform))
  }

  /** The decision a visit stops with. */
  lemma StopDecision(req: Request, w: World, k: nat)
    requires k < |req.chain| && VisitAt(req, w, k).ending.Stops?
    ensures
      var v := VisitAt(req, w, k);
      var d := v.ending.decision;
      && d.reason == StopReason(v.result.status, req.chain[k])
      && d.hint == StopHintOf(v.result.status, req.chain[k])
      && (NeedsUser(v.result.status) || v.result.status in {ExecutionSucceeded, WorkflowFailed, UnknownFailure})
  {
    hide RunResult, RefusedResult, MissingResult;
  }

  lemma UserHintText(status: Status, platform: string)
    requires NeedsUser(status)
    ensures HintText(status, platform) == Some(Key(UserHint(status, platform)))
  {
    match status
    case NeedsAuth => assert "cli.errors." + "needs_auth" == "cli.errors.needs_auth";
    case WorkspaceUntrusted => assert "cli.errors." + "workspace_untrusted" == "cli.errors.workspace_untrusted";
    case ApiDisabled => assert "cli.errors." + "api_disabled" == "cli.errors.api_disabled";
  }

  lemma StopHint(status: Status, platform: string)
    ensures NeedsUser(status) ==> HintText(status, platform) == Some(Key(UserHint(status, platform)))
    ensures HintText(WorkflowFailed, platform) == Some(Key(WorkflowHint))
    ensures HintText(UnknownFailure, platform) == Some(Key(UnknownHint))
    ensures HintText(status, platform).Some? <==> NeedsUser(status) || status == WorkflowFailed || status == UnknownFailure
  {
    hide HintKey, AtPlatform;
    if NeedsUser(status) {
      UserHintText(status, platform);
    }
  }

  /** The key of the last platform that was left although its outcome needed the user, if there was one. */
  function CarriedText(req: Request, w: World, n: nat): Option<string>
    requires n <= |req.chain|
  {
    match LastFallThrough(req, w, n)
    case None => None
    case Some(i) => if i < n then HintText(AnswerAt(req, w, i).status, req.chain[i]) else None
  }

  lemma {:induction false} LastIsFallThrough(req: Request, w: World, j: nat)
    requires j <= |req.chain| && LastFallThrough(req, w, j).Some?
    ensures LastFallThrough(req, w, j).value < j && FellThrough(req, w, LastFallThrough(req, w, j).value)
  {
    hide FellThrough;
    if !FellThrough(req, w, j - 1) {
      LastIsFallThrough(req, w, j - 1);
    }
  }

  lemma CarriedKey(req: Request, w: World, n: nat)
    requires n <= |req.chain|
    ensures CarriedHint(req, w, n) == None <==> CarriedText(req, w, n) == None
    ensures CarriedHint(req, w, n).Some? ==> CarriedText(req, w, n) == Some(Key(CarriedHint(req, w, n).value))
  {
    hide VisitAt, AnswerAt, Key, HintText;
    if LastFallThrough(req, w, n).Some? {
      LastIsFallThrough(req, w, n);
      var i := LastFallThrough(req, w, n).value;
      VisitIsTheAnswer(req, w, i);
      StopHint(AnswerAt(req, w, i).status, req.chain[i]);
    }
  }

  /**
   A run that ends with a success returns the adapter's answer, which counts at least one attempt and
   keeps its own hint, or else takes that of the last platform left although it needed the user.
   */
  lemma SucceededRunReturns(req: Request, w: World, k: nat)
    requires EndsFirstAt(req, w, k) && Runs(req, w, k) && AnswerAt(req, w, k).status == ExecutionSucceeded
    ensures
      var own, carried := AnswerAt(req, w, k), CarriedText(req, w, k);
      Spec(req, w).result ==
        own.(attempted := AttemptedBy(req, w, k + 1),
             attemptCount := if own.attemptCount < 1 then 1 else own.attemptCount,
             hint := if Truthy(own.hint) || carried == None then own.hint else carried,
             runId := Some(req.runId))
  {
    hide VisitAt, AnswerAt, After, Key, Runs, CarriedText, CarriedHint, Finish, EndsAt;
    EndIsReach(req, w, k);
    Closed(req, w);
    VisitIsTheAnswer(req, w, k);
    LastState(req, w, k);
    CarriedKey(req, w, k);
    FinishSucceeds(req, State(req, w, k + 1), CarriedText(req, w, k));
  }

  /** The bookkeeping a success is returned from. */
  lemma LastState(req: Request, w: World, k: nat)
    requires k < |req.chain| && VisitAt(req, w, k).ending == Succeeds
    ensures
      var s := State(req, w, k + 1);
      s.last == Some(AnswerAt(req, w, k)) && s.attempted == AttemptedBy(req, w, k + 1) && s.carry == CarriedHint(req, w, k)
  {
    hide VisitAt, AnswerAt, After, CarriedHint;
    VisitIsTheAnswer(req, w, k);
    AttemptedIsState(req, w, k + 1);
    AfterAdds(req, w, k, State(req, w, k));
    StateCarry(req, w, k);
    AfterCarry(req, w, k, State(req, w, k));
    VisitFacts(req, w, k);
  }

  lemma FinishSucceeds(req: Request, s: Walk, carried: Option<string>)
    requires s.last.Some?
    requires s.carry == None <==> carried == None
    requires s.carry.Some? ==> carried == Some(Key(s.carry.value))
    ensures
      var own := s.last.value;
      Finish(req, Succeeds, s).result ==
        own.(attempted := s.attempted,
             attemptCount := if own.attemptCount < 1 then 1 else own.attemptCount,
             hint := if Truthy(own.hint) || carried == None then own.hint else carried,
             runId := Some(req.runId))
  {
    hide Key;
  }

  /**
   A run that passes the gate and ends nowhere returns the last position's answer without its text,
   with the platforms attempted and their number, and with the hint of the last platform that needed
   the user, or else the answer's own.
   */
  lemma ExhaustedRunReturns(req: Request, w: World)
    requires Gate(req) == None && forall j :: 0 <= j < |req.chain| ==> !EndsAt(req, w, j)
    ensures
      var got := Spec(req, w).result;
      if req.chain == [] then
        got == ExecResult(ProviderUnavailable, "(none)", "", "", "", None, Some(EmptyChain), [], 0, None, None, None, map[],
                          Some(req.runId))
      else
        var n := |req.chain|;
        var own := AnswerAt(req, w, n - 1);
        && got == own.(responseText := "", attempted := AttemptedBy(req, w, n),
                       attemptCount := |AttemptedBy(req, w, n)|, hint := got.hint,
                       errorMessage := got.errorMessage, runId := Some(req.runId))
        && got.hint == (if CarriedText(req, w, n) == None then own.hint else CarriedText(req, w, n))
        && got.errorMessage ==
             (if own.errorMessage == None || own.errorMessage == Some(Message.Text("")) then Some(AllFailed)
              else own.errorMessage)
  {
    hide VisitAt, AnswerAt, EndsAt, After, Key, Finish, CarriedText, CarriedHint;
    var n := |req.chain|;
    var r := Reach(req, w, 0);
    if r < n {
      VisitIsTheAnswer(req, w, r);
    }
    Closed(req, w);
    AttemptedIsState(req, w, n);
    StateCarry(req, w, n);
    if n > 0 {
      VisitIsTheAnswer(req, w, n - 1);
      AfterAdds(req, w, n - 1, State(req, w, n - 1));
      CarriedKey(req, w, n);
    }
  }

  /** A lineage that is too deep, or else holds an agent twice, is refused in these words. */
  lemma RefusedLineageReturns(req: Request, w: World)
    requires Gate(req).Some?
    ensures
      var deep := |req.parentChain| >= 3;
      Spec(req, w).result ==
        ExecResult(ProviderUnavailable, if req.chain == [] then "(none)" else req.chain[0], "", "", "", None,
                   Some(if deep then DepthExceeded(|req.parentChain|) else CycleDetected), [], 0,
                   Some(if deep then "cli.errors.recursion_depth_exceeded" else "cli.errors.recursion_cycle"),
                   None, None, map[], Some(req.runId))
  {
  }
}
