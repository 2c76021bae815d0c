/** The pure fallback policy: what the chain walker does with one outcome. */
module Policy {
  import opened Wrappers

  datatype Status =
    | ExecutionSucceeded
    | NeedsAuth
    | QuotaExhausted
    | WorkspaceUntrusted
    | ApiDisabled
    | ProviderUnavailable
    | RetryableNetworkFailure
    | Timeout
    | WorkflowFailed
    | UnknownFailure

  /** The wire value of a status. */
  function Value(s: Status): string {
    match s
    case ExecutionSucceeded => "execution_succeeded"
    case NeedsAuth => "needs_auth"
    case QuotaExhausted => "quota_exhausted"
    case WorkspaceUntrusted => "workspace_untrusted"
    case ApiDisabled => "api_disabled"
    case ProviderUnavailable => "provider_unavailable"
    case RetryableNetworkFailure => "retryable_network_failure"
    case Timeout => "timeout"
    case WorkflowFailed => "workflow_failed"
    case UnknownFailure => "unknown_failure"
  }

  datatype Action = Retry | Fallback | Stop

  /** Why a decision was taken, with the names its wording mentions. */
  datatype Reason =
    | Succeeding
    | FallingThrough(status: Status, platform: string)
    | MustReconnect(status: Status, platform: string)
    | OutOfQuota(platform: string)
    | Unavailable(platform: string)
    | RetryingWithBackoff
    | NetworkPersisted
    | RetryingTimeout
    | TimeoutPersisted
    | WorkflowBroke
    | RetryingUnknown
    | UnknownPersisted

  /** The i18n key a decision may carry; `Key` is its spelling, which is never empty. */
  datatype Hint = UserHint(status: Status, platform: string) | WorkflowHint | UnknownHint

  datatype Decision = Decision(action: Action, reason: Reason, hint: Option<Hint>)

  const MAX_FALLBACK_DEPTH := 3
  const OPENCODE := "opencode"

  function Key(h: Hint): string {
    match h
    case UserHint(s, p) => HintKey(s, p)
    case WorkflowHint => "cli.errors.workflow_failed"
    case UnknownHint => "cli.errors.unknown_failure"
  }

  const HINT_PREFIX := "cli.errors."

  function HintKey(status: Status, platform: string): string {
    var base := HINT_PREFIX + Value(status);
    if platform == "" then base else base + "." + platform
  }

  /** Only the user can clear these, so the chain ends with them, or goes on to `opencode` and no other platform. */
  predicate NeedsUser(s: Status) {
    s == NeedsAuth || s == WorkspaceUntrusted || s == ApiDisabled
  }

  function Decide(status: Status, attempt: int, platform: string, next: Option<string>): Decision {
    match status
    case ExecutionSucceeded => Decision(Stop, Succeeding, None)
    case NeedsAuth | WorkspaceUntrusted | ApiDisabled =>
      if next == Some(OPENCODE) then
        Decision(Fallback, FallingThrough(status, platform), Some(UserHint(status, platform)))
      else
        Decision(Stop, MustReconnect(status, platform), Some(UserHint(status, platform)))
    case QuotaExhausted => Decision(Fallback, OutOfQuota(platform), None)
    case ProviderUnavailable => Decision(Fallback, Unavailable(platform), None)
    case RetryableNetworkFailure =>
      if attempt == 1 then Decision(Retry, RetryingWithBackoff, None)
      else Decision(Fallback, NetworkPersisted, None)
    case Timeout =>
      if attempt == 1 then Decision(Retry, RetryingTimeout, None)
      else Decision(Fallback, TimeoutPersisted, None)
    case WorkflowFailed => Decision(Stop, WorkflowBroke, Some(WorkflowHint))
    case UnknownFailure =>
      if attempt == 1 then Decision(Retry, RetryingUnknown, None)
      else Decision(Stop, UnknownPersisted, Some(UnknownHint))
  }

  /** The policy table by action: one retry for transient outcomes, and who may be left behind. */
  lemma DecisionTable(status: Status, attempt: int, platform: string, next: Option<string>)
    ensures
      var d := Decide(status, attempt, platform, next);
      && (d.action == Retry <==>
            attempt == 1 && (status == RetryableNetworkFailure || status == Timeout || status == UnknownFailure))
      && (d.action == Fallback <==>
            || status == QuotaExhausted || status == ProviderUnavailable
            || (attempt != 1 && (status == RetryableNetworkFailure || status == Timeout))
            || (NeedsUser(status) && next == Some(OPENCODE)))
      && (d.hint.Some? <==> NeedsUser(status) || (d.action == Stop && status != ExecutionSucceeded))
      && (d.reason == Succeeding <==> status == ExecutionSucceeded)
      && (d.reason == FallingThrough(status, platform) <==> NeedsUser(status) && d.action == Fallback)
      && (d.reason == MustReconnect(status, platform) <==> NeedsUser(status) && d.action == Stop)
      && (d.reason == OutOfQuota(platform) <==> status == QuotaExhausted)
      && (d.reason == Unavailable(platform) <==> status == ProviderUnavailable)
      && (d.reason == WorkflowBroke <==> status == WorkflowFailed)
      && (d.reason in {RetryingWithBackoff, NetworkPersisted} <==> status == RetryableNetworkFailure)
      && (d.reason in {RetryingTimeout, TimeoutPersisted} <==> status == Timeout)
      && (d.reason in {RetryingUnknown, UnknownPersisted} <==> status == UnknownFailure)
      && (d.action == Retry <==> d.reason in {RetryingWithBackoff, RetryingTimeout, RetryingUnknown})
  {
  }

  lemma UserValues(s: Status)
    requires NeedsUser(s)
    ensures '.' !in Value(s)
  {
  }

  lemma RestValues(s: Status)
    requires s.RetryableNetworkFailure? || s.Timeout? || s.WorkflowFailed? || s.UnknownFailure?
    ensures '.' !in Value(s)
  {
  }

  /** No status value contains the key separator, so a key splits in one way only. */
  lemma ValueHasNoDot(s: Status)
    ensures '.' !in Value(s)
  {
    if NeedsUser(s) {
      UserValues(s);
    } else if s.RetryableNetworkFailure? || s.Timeout? || s.WorkflowFailed? || s.UnknownFailure? {
      RestValues(s);
    }
  }

  /** Two hint keys are equal only when they name the same status and the same platform. */
  lemma HintKeyIdentifies(s: Status, p: string, t: Status, q: string)
    requires HintKey(s, p) == HintKey(t, q)
    ensures s == t && p == q
  {
    hide Value, HintKey;
    ValueHasNoDot(s);
    ValueHasNoDot(t);
    KeyTail(s, p);
    KeyTail(t, q);
    SplitAtDot(Value(s), Tail(p), Value(t), Tail(q));
    ValueIdentifies(s, t);
    if p != "" { assert Tail(p)[1..] == p && Tail(q)[1..] == q; }
  }

  /** The part of a key behind the status. */
  function Tail(platform: string): string {
    if platform == "" then "" else "." + platform
  }

  lemma KeyTail(s: Status, p: string)
    ensures |HINT_PREFIX| <= |HintKey(s, p)|
    ensures HintKey(s, p)[|HINT_PREFIX|..] == Value(s) + Tail(p)
  {
    hide Value;
    assert HintKey(s, p) == HINT_PREFIX + (Value(s) + Tail(p));
  }

  lemma ValueIdentifies(s: Status, t: Status)
    requires Value(s) == Value(t)
    ensures s == t
  {
    assert Value(s)[0] == Value(t)[0] && |Value(s)| == |Value(t)|;
  }

  lemma SplitAtDot(a: string, x: string, b: string, y: string)
    requires a + x == b + y && '.' !in a && '.' !in b
    requires x == "" || x[0] == '.'
    requires y == "" || y[0] == '.'
    ensures a == b && x == y
  {
    NotShorter(a, x, b, y);
    NotShorter(b, y, a, x);
    assert a == (a + x)[..|a|] == (b + y)[..|b|] == b;
    assert x == (a + x)[|a|..] == (b + y)[|b|..] == y;
  }

  lemma NotShorter(a: string, x: string, b: string, y: string)
    requires a + x == b + y && '.' !in b
    requires x == "" || x[0] == '.'
    ensures |a| >= |b|
  {
    var s := a + x;
    assert |a| < |s| ==> s[|a|] == '.';
    assert forall i :: 0 <= i < |b| ==> s[i] == b[i];
  }
}
