/**
 The resilient chain walk: a nested loop over platforms with preflight, one bounded retry,
 fallback, stop and an event trace. Adapters are an arbitrary oracle, so every statement below
 holds for every behaviour of every adapter.
 */
module Executor {
  import opened Wrappers
  import opened Policy

  const ATTEMPT_CAP := 2

  datatype Request = Request(chain: seq<string>, parentChain: seq<string>, runId: string)

  datatype ExecResult = ExecResult(
    status: Status,
    platform: string,
    responseText: string,
    stdoutSummary: string,
    stderrSummary: string,
    exitCode: Option<int>,
    errorMessage: Option<Message>,
    attempted: seq<string>,
    attemptCount: int,
    hint: Option<string>,
    workflowId: Option<string>,
    activityId: Option<string>,
    metadata: map<string, string>,
    runId: Option<string>)

  /** An error message: the adapter's own text, or what the executor puts into words itself. */
  datatype Message =
    | Text(text: string)
    | NoAdapter(platform: string)
    | DepthExceeded(depth: nat)
    | CycleDetected
    | EmptyChain
    | AllFailed
    | Because(reason: Reason)

  /** Python truthiness of an optional string. */
  predicate Truthy(s: Option<string>) {
    s.Some? && s.value != ""
  }

  datatype PreflightResult = PreflightResult(ok: bool, status: Option<Status>, reason: string)
  datatype PreflightCall = PreflightReturned(result: PreflightResult) | PreflightRaised(exception: string)

  /** `RunRaised` carries what the adapter classified the exception as, and its redacted text. */
  datatype RunCall = RunReturned(result: ExecResult) | RunRaised(status: Status, error: string)

  /**
   Everything outside the walk. Outcomes are indexed by chain position and attempt, so that an
   adapter with memory, or one platform listed twice, may answer differently each time.
   */
  datatype World = World(
    adapters: set<string>,
    preflight: nat -> PreflightCall,
    run: (nat, nat) -> RunCall,
    redact: string -> string)

  datatype Event =
    | Started(chain: seq<string>)
    | AttemptFailed(attemptIndex: nat, platform: string, status: Status)
    | FallbackTriggered(from: string, to: Option<string>, reason: Reason)
    | Succeeded(result: ExecResult)
    | Failed(result: ExecResult)

  /** One call of an adapter's `run`. */
  datatype Call = Call(index: nat, attempt: nat)

  /** What a run leaves behind besides its result. */
  datatype Log = Log(events: seq<Event>, retries: seq<Decision>, fallbacks: seq<Decision>, calls: seq<Call>)

  datatype Outcome = Outcome(result: ExecResult, log: Log)

  // ---- The results the walk builds itself ----

  const NO_PLATFORM := "(none)"
  const DEPTH_HINT := "cli.errors.recursion_depth_exceeded"
  const CYCLE_HINT := "cli.errors.recursion_cycle"

  function Blank(status: Status, platform: string, error: Message, runId: string): ExecResult {
    ExecResult(status, platform, "", "", "", None, Some(error), [], 0, None, None, None, map[], Some(runId))
  }

  /** The gate's refusal, or None to proceed. */
  function Gate(req: Request): Option<ExecResult> {
    var platform := if req.chain == [] then NO_PLATFORM else req.chain[0];
    if |req.parentChain| >= MAX_FALLBACK_DEPTH then
      Some(Blank(ProviderUnavailable, platform, DepthExceeded(|req.parentChain|), req.runId)
           .(hint := Some(DEPTH_HINT)))
    else if |req.parentChain| != |set x | x in req.parentChain| then
      Some(Blank(ProviderUnavailable, platform, CycleDetected, req.runId).(hint := Some(CYCLE_HINT)))
    else
      None
  }

  function MissingResult(req: Request, i: nat): ExecResult
    requires i < |req.chain|
  {
    var p := req.chain[i];
    Blank(ProviderUnavailable, p, NoAdapter(p), req.runId).(attempted := [p])
  }

  const RAISED := "preflight raised "

  function Preflighted(w: World, i: nat): PreflightResult {
    match w.preflight(i)
    case PreflightReturned(r) => r
    case PreflightRaised(e) => PreflightResult(false, Some(ProviderUnavailable), RAISED + e)
  }

  function RefusedResult(req: Request, w: World, i: nat): ExecResult
    requires i < |req.chain|
  {
    var pre := Preflighted(w, i);
    Blank(if pre.status.Some? then pre.status.value else ProviderUnavailable,
          req.chain[i], Text(w.redact(pre.reason)), req.runId).(attempted := [req.chain[i]])
  }

  function RunResult(req: Request, w: World, i: nat, attempt: nat): ExecResult
    requires i < |req.chain|
  {
    match w.run(i, attempt)
    case RunReturned(r) => r
    case RunRaised(s, e) =>
      Blank(s, req.chain[i], Text(e), req.runId)
        .(stderrSummary := e, attempted := [req.chain[i]], attemptCount := attempt)
  }

  function Next(req: Request, i: nat): Option<string> {
    if i + 1 < |req.chain| then Some(req.chain[i + 1]) else None
  }

  function Ruling(req: Request, i: nat, status: Status, attempt: nat): Decision
    requires i < |req.chain|
  {
    Decide(status, attempt, req.chain[i], Next(req, i))
  }

  /** Keep the adapter's own hint; otherwise use the decision's. */
  function OrHint(own: Option<string>, other: Option<Hint>): Option<string> {
    if other.Some? && !Truthy(own) then Some(Key(other.value)) else own
  }

  function OrMessage(own: Option<Message>, other: Message): Option<Message> {
    if own == None || own == Some(Text("")) then Some(other) else own
  }

  function SuccessResult(req: Request, r: ExecResult, attempted: seq<string>, carry: Option<Hint>): ExecResult {
    r.(attempted := attempted,
       attemptCount := if r.attemptCount < 1 then 1 else r.attemptCount,
       hint := OrHint(r.hint, carry),
       runId := Some(req.runId))
  }

  function StopResult(req: Request, r: ExecResult, d: Decision, attempted: seq<string>): ExecResult {
    r.(attempted := attempted,
       hint := OrHint(r.hint, d.hint),
       errorMessage := OrMessage(r.errorMessage, Because(d.reason)),
       runId := Some(req.runId))
  }

  function ExhaustedResult(req: Request, last: Option<ExecResult>, attempted: seq<string>, carry: Option<Hint>)
    : ExecResult
  {
    match last
    case None => Blank(ProviderUnavailable, NO_PLATFORM, EmptyChain, req.runId)
    case Some(r) =>
      r.(responseText := "",
         errorMessage := OrMessage(r.errorMessage, AllFailed),
         attempted := attempted,
         attemptCount := |attempted|,
         hint := if carry.Some? then Some(Key(carry.value)) else r.hint,
         runId := Some(req.runId))
  }

  /** The failed-run event is withheld when the result claims success. */
  function FailedEvents(r: ExecResult): seq<Event> {
    if r.status == ExecutionSucceeded then [] else [Failed(r)]
  }

  // ---- The specification: one visit per chain position ----

  datatype Ending = MovesOn(fallback: Option<Decision>) | Stops(decision: Decision) | Succeeds

  /** What happens at one position: how many `run` calls, the last result, and how the visit ends. */
  datatype Visit = Visit(runs: nat, refused: bool, result: ExecResult, ending: Ending)

  function VisitAt(req: Request, w: World, i: nat): Visit
    requires i < |req.chain|
  {
    if req.chain[i] !in w.adapters then
      Visit(0, false, MissingResult(req, i), MovesOn(None))
    else if !Preflighted(w, i).ok then
      var r := RefusedResult(req, w, i);
      var d := Ruling(req, i, r.status, 1);
      Visit(0, true, r, if d.action == Stop then Stops(d) else MovesOn(if d.action == Fallback then Some(d) else None))
    else
      var first := RunResult(req, w, i, 1);
      var second := RunResult(req, w, i, 2);
      if first.status == ExecutionSucceeded then
        Visit(1, false, first, Succeeds)
      else if Ruling(req, i, first.status, 1).action != Retry then
        Visit(1, false, first, Concluded(Ruling(req, i, first.status, 1)))
      else if second.status == ExecutionSucceeded then
        Visit(2, false, second, Succeeds)
      else
        Visit(2, false, second, Concluded(Ruling(req, i, second.status, 2)))
  }

  function Concluded(d: Decision): Ending {
    if d.action == Stop then Stops(d) else MovesOn(if d.action == Fallback then Some(d) else None)
  }

  /** The walk's bookkeeping between positions. */
  datatype Walk = Walk(attempted: seq<string>, last: Option<ExecResult>, carry: Option<Hint>, log: Log)

  function Begin(req: Request): Walk {
    Walk([], None, None, Log([Started(req.chain)], [], [], []))
  }

  /** Bookkeeping of one `run` call. */
  function Ran(req: Request, w: World, i: nat, attempt: nat, s: Walk): Walk
    requires i < |req.chain|
  {
    var r := RunResult(req, w, i, attempt);
    var p := req.chain[i];
    Walk(if p in s.attempted then s.attempted else s.attempted + [p],
         Some(r),
         s.carry,
         s.log.(calls := s.log.calls + [Call(i, attempt)],
                events := if r.status == ExecutionSucceeded then s.log.events
                          else s.log.events + [AttemptFailed(attempt, r.platform, r.status)]))
  }

  /** Bookkeeping of a failed preflight. */
  function Refused(req: Request, w: World, i: nat, s: Walk): Walk
    requires i < |req.chain|
  {
    var r := RefusedResult(req, w, i);
    s.(attempted := s.attempted + [req.chain[i]],
       last := Some(r),
       log := s.log.(events := s.log.events + [AttemptFailed(0, r.platform, r.status)]))
  }

  /** Bookkeeping of the way a visit ends. */
  function Settled(req: Request, i: nat, ending: Ending, s: Walk): Walk
    requires i < |req.chain|
  {
    if ending.MovesOn? && ending.fallback.Some? then
      var d := ending.fallback.value;
      s.(carry := if d.hint.Some? then d.hint else s.carry,
         log := s.log.(fallbacks := s.log.fallbacks + [d],
                       events := s.log.events + [FallbackTriggered(req.chain[i], Next(req, i), d.reason)]))
    else
      s
  }

  function Retried(req: Request, w: World, i: nat, s: Walk): Walk
    requires i < |req.chain|
  {
    s.(log := s.log.(retries := s.log.retries + [Ruling(req, i, RunResult(req, w, i, 1).status, 1)]))
  }

  /** The bookkeeping after position `i` was visited. */
  function After(req: Request, w: World, i: nat, s: Walk): (t: Walk)
    requires i < |req.chain|
    ensures t.last == Some(VisitAt(req, w, i).result)
  {
    var v := VisitAt(req, w, i);
    var body :=
      if v.runs == 2 then Ran(req, w, i, 2, Retried(req, w, i, Ran(req, w, i, 1, s)))
      else if v.runs == 1 then Ran(req, w, i, 1, s)
      else if v.refused then Refused(req, w, i, s)
      else s.(attempted := s.attempted + [req.chain[i]], last := Some(v.result));
    Settled(req, i, v.ending, body)
  }

  /** How a run ends at a position: `s` already includes that position. */
  function Finish(req: Request, ending: Ending, s: Walk): Outcome
    requires !ending.MovesOn? && s.last.Some?
  {
    match ending
    case Stops(d) =>
      var r := StopResult(req, s.last.value, d, s.attempted);
      Outcome(r, s.log.(events := s.log.events + FailedEvents(r)))
    case Succeeds =>
      var r := SuccessResult(req, s.last.value, s.attempted, s.carry);
      Outcome(r, s.log.(events := s.log.events + [Succeeded(r)]))
  }

  function Exhaust(req: Request, s: Walk): Outcome {
    var r := ExhaustedResult(req, s.last, s.attempted, s.carry);
    Outcome(r, s.log.(events := s.log.events + FailedEvents(r)))
  }

  /** The outcome of the chain suffix that starts at `i`. */
  function WalkFrom(req: Request, w: World, i: nat, s: Walk): Outcome
    requires i <= |req.chain|
    decreases |req.chain| - i
  {
    if i == |req.chain| then
      Exhaust(req, s)
    else if VisitAt(req, w, i).ending.MovesOn? then
      WalkFrom(req, w, i + 1, After(req, w, i, s))
    else
      Finish(req, VisitAt(req, w, i).ending, After(req, w, i, s))
  }

  function Spec(req: Request, w: World): Outcome {
    var gate := Gate(req);
    if gate.Some? then
      Outcome(gate.value, Begin(req).log.(events := [Started(req.chain)] + FailedEvents(gate.value)))
    else
      WalkFrom(req, w, 0, Begin(req))
  }

  // ---- The loops ----

  /** The inner loop: `run` on one platform with bounded retry. */
  method RunPlatform(req: Request, w: World, i: nat, entry: Walk) returns (s: Walk, ending: Ending)
    requires i < |req.chain| && req.chain[i] in w.adapters && Preflighted(w, i).ok
    ensures s == After(req, w, i, entry)
    ensures ending == VisitAt(req, w, i).ending
  {
    var platform := req.chain[i];
    var attempted, last, carry := entry.attempted, entry.last, entry.carry;
    var Log(events, retries, fallbacks, calls) := entry.log;
    var attempt: nat := 1;
    while true
      invariant attempt == 1 || attempt == 2
      invariant attempt == 1 ==> Walk(attempted, last, carry, Log(events, retries, fallbacks, calls)) == entry
      invariant attempt == 2 ==>
        && RunResult(req, w, i, 1).status != ExecutionSucceeded
        && Ruling(req, i, RunResult(req, w, i, 1).status, 1).action == Retry
        && Walk(attempted, last, carry, Log(events, retries, fallbacks, calls))
           == Retried(req, w, i, Ran(req, w, i, 1, entry))
      decreases ATTEMPT_CAP - attempt
    {
      var r := RunResult(req, w, i, attempt);
      calls := calls + [Call(i, attempt)];
      if platform !in attempted {
        attempted := attempted + [platform];
      }
      last := Some(r);
      if r.status == ExecutionSucceeded {
        return Walk(attempted, last, carry, Log(events, retries, fallbacks, calls)), Succeeds;
      }
      events := events + [AttemptFailed(attempt, r.platform, r.status)];
      var decision := Decide(r.status, attempt, platform, Next(req, i));
      if decision.action == Stop {
        return Walk(attempted, last, carry, Log(events, retries, fallbacks, calls)), Stops(decision);
      }
      if decision.action == Retry && attempt < ATTEMPT_CAP {
        retries := retries + [decision];
        attempt := attempt + 1;
        continue;
      }
      ending := MovesOn(None);
      if decision.action == Fallback {
        fallbacks := fallbacks + [decision];
        events := events + [FallbackTriggered(platform, Next(req, i), decision.reason)];
        ending := MovesOn(Some(decision));
      }
      if decision.hint.Some? && decision.action == Fallback {
        carry := decision.hint;
      }
      return Walk(attempted, last, carry, Log(events, retries, fallbacks, calls)), ending;
    }
  }

  /** The outer loop: the nested loops compute exactly the recursive specification. */
  method Execute(req: Request, w: World) returns (result: ExecResult, log: Log)
    ensures Outcome(result, log) == Spec(req, w)
  {
    hide After, VisitAt, Finish, Exhaust;
    var gate := Gate(req);
    if gate.Some? {
      return gate.value, Log([Started(req.chain)] + FailedEvents(gate.value), [], [], []);
    }
    var s := Begin(req);
    var chainIndex: nat := 0;
    while chainIndex < |req.chain|
      invariant chainIndex <= |req.chain|
      invariant WalkFrom(req, w, chainIndex, s) == Spec(req, w)
    {
      var ending;
      if req.chain[chainIndex] !in w.adapters {
        s, ending := Skip(req, w, chainIndex, s);
      } else if !Preflighted(w, chainIndex).ok {
        s, ending := Refuse(req, w, chainIndex, s);
      } else {
        s, ending := RunPlatform(req, w, chainIndex, s);
      }
      if !ending.MovesOn? {
        var outcome := Finish(req, ending, s);
        return outcome.result, outcome.log;
      }
      chainIndex := chainIndex + 1;
    }
    var outcome := Exhaust(req, s);
    return outcome.result, outcome.log;
  }

  /** A platform without an adapter: no policy, on to the next position. */
  method Skip(req: Request, w: World, i: nat, entry: Walk) returns (s: Walk, ending: Ending)
    requires i < |req.chain| && req.chain[i] !in w.adapters
    ensures s == After(req, w, i, entry)
    ensures ending == VisitAt(req, w, i).ending
  {
    s := entry.(attempted := entry.attempted + [req.chain[i]], last := Some(MissingResult(req, i)));
    ending := MovesOn(None);
  }

  /** A preflight that did not pass: no `run` call, and the policy decides. */
  method Refuse(req: Request, w: World, i: nat, entry: Walk) returns (s: Walk, ending: Ending)
    requires i < |req.chain| && req.chain[i] in w.adapters && !Preflighted(w, i).ok
    ensures s == After(req, w, i, entry)
    ensures ending == VisitAt(req, w, i).ending
  {
    var platform := req.chain[i];
    var synthetic := RefusedResult(req, w, i);
    var Log(events, retries, fallbacks, calls) := entry.log;
    var carry := entry.carry;
    events := events + [AttemptFailed(0, synthetic.platform, synthetic.status)];
    var decision := Decide(synthetic.status, 1, platform, Next(req, i));
    ending := if decision.action == Stop then Stops(decision) else MovesOn(None);
    if decision.action == Fallback {
      fallbacks := fallbacks + [decision];
      events := events + [FallbackTriggered(platform, Next(req, i), decision.reason)];
      ending := MovesOn(Some(decision));
    }
    if decision.hint.Some? && decision.action == Fallback {
      carry := decision.hint;
    }
    s := Walk(entry.attempted + [platform], Some(synthetic), carry, Log(events, retries, fallbacks, calls));
  }
}
