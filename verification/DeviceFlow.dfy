/**
 The polling loop of the device authorization grant (section 3.5 of RFC 8628). Time is in
 nanoseconds; sleeping may take longer than asked for, and a poll takes as long as it takes.
 */
module DeviceFlow {
  import opened Wrappers

  const SECOND: nat := 1_000_000_000

  /** What came back from the token endpoint; a body that is not JSON counts as empty. */
  datatype Reply =
    | NoReply
    | Reply(success: bool, accessToken: Option<string>, error: Option<string>)

  datatype Outcome = Pending | Approved(token: string) | Denied | Expired | SlowDown | Failed

  function OutcomeOf(reply: Reply): Outcome {
    if reply.NoReply? then Failed
    else if reply.success then (match reply.accessToken case Some(token) => Approved(token) case None => Failed)
    else match reply.error
      case None => Failed
      case Some(error) =>
        if error == "authorization_pending" then Pending
        else if error == "slow_down" then SlowDown
        else if error == "expired_token" then Expired
        else if error == "access_denied" then Denied
        else Failed
  }

  datatype Code = Code(expiresIn: nat, interval: nat)

  /** How much longer than asked the k-th sleep takes, and how long the k-th poll takes. */
  datatype Clock = Clock(start: nat, late: nat -> nat, took: nat -> nat)

  /** One turn of the loop: when the deadline was checked, and when the poll was sent. */
  datatype Poll = Poll(asked: nat, sent: nat, outcome: Outcome)

  datatype Result = Token(token: string) | FlowExpired | FlowDenied | PollError

  function Interval(code: Code): nat {
    if code.interval < 1 then 1 else code.interval
  }

  function SlowDowns(log: seq<Poll>): nat {
    if log == [] then 0
    else SlowDowns(log[..|log| - 1]) + (if log[|log| - 1].outcome == SlowDown then 1 else 0)
  }

  /** The wait the server may expect before the next poll. */
  function Wait(code: Code, log: seq<Poll>): nat {
    (Interval(code) + 5 * SlowDowns(log)) * SECOND
  }

  /** The least number of intervals that cover the lifetime of the code. */
  function MostPolls(code: Code): nat {
    (code.expiresIn + Interval(code) - 1) / Interval(code)
  }

  predicate Goes(outcome: Outcome) {
    outcome == Pending || outcome == SlowDown
  }

  /** The `k`-th turn waits long enough, and starts to wait before the deadline only. */
  predicate TurnOk(code: Code, start: nat, log: seq<Poll>, k: nat)
    requires k < |log|
  {
    && start + k * Interval(code) * SECOND <= log[k].asked < start + code.expiresIn * SECOND
    && log[k].sent >= log[k].asked + Wait(code, log[..k])
    && (k > 0 ==> log[k].sent >= log[k - 1].sent + Wait(code, log[..k]) && Goes(log[k - 1].outcome))
  }

  // ---- The answers, told from the replies ----

  /** The server refused with this error code. */
  predicate Says(reply: Reply, error: string) {
    reply.Reply? && !reply.success && reply.error == Some(error)
  }

  /** The server asks to go on polling. */
  predicate AsksForMore(reply: Reply) {
    Says(reply, "authorization_pending") || Says(reply, "slow_down")
  }

  /** What the caller gets for the last reply; one that asks for more is last only once time is up. */
  function Told(reply: Reply): Result {
    if reply.Reply? && reply.success && reply.accessToken.Some? then Token(reply.accessToken.value)
    else if Says(reply, "access_denied") then FlowDenied
    else if Says(reply, "expired_token") || AsksForMore(reply) then FlowExpired
    else PollError
  }

  lemma OutcomesSpelledOut(reply: Reply)
    ensures ResultOf(OutcomeOf(reply)) == Told(reply)
    ensures Goes(OutcomeOf(reply)) <==> AsksForMore(reply)
    ensures OutcomeOf(reply) == SlowDown <==> Says(reply, "slow_down")
  {
    assert "authorization_pending"[0] == 'a' && "authorization_pending"[1] == 'u';
    assert "slow_down"[0] == 's' && "expired_token"[0] == 'e' && "access_denied"[1] == 'c';
  }

  /**
   The `k`-th turn begins as soon as the one before is over, and sleeps for the code's interval, at
   least a second, and five seconds more for every reply so far that asked to slow down.
   */
  predicate Paced(code: Code, clock: Clock, replies: nat -> Reply, log: seq<Poll>, k: nat)
    requires k < |log|
  {
    && log[k].asked == (if k == 0 then clock.start else log[k - 1].sent + clock.took(k - 1))
    && log[k].sent == log[k].asked + Sleep(code, replies, k) + clock.late(k)
  }

  function Sleep(code: Code, replies: nat -> Reply, k: nat): nat {
    if k == 0 then (if code.interval < 1 then 1 else code.interval) * 1_000_000_000
    else Sleep(code, replies, k - 1) + (if Says(replies(k - 1), "slow_down") then 5_000_000_000 else 0)
  }

  function ResultOf(outcome: Outcome): Result {
    match outcome
    case Approved(token) => Token(token)
    case Denied => FlowDenied
    case Failed => PollError
    case _ => FlowExpired
  }

  lemma WaitStays(code: Code, log: seq<Poll>, p: Poll, k: nat)
    requires k <= |log|
    ensures (log + [p])[..k] == log[..k]
  {
  }

  lemma AtLeastInterval(code: Code, log: seq<Poll>, k: nat)
    ensures Wait(code, log) >= Interval(code) * SECOND >= SECOND
    ensures (k + 1) * Interval(code) * SECOND == k * Interval(code) * SECOND + Interval(code) * SECOND
  {
  }

  /** A turn that starts before the deadline is one of the few that fit before it. */
  lemma FewTurns(code: Code, n: nat)
    requires n > 0 && (n - 1) * Interval(code) * SECOND < code.expiresIn * SECOND
    ensures n <= MostPolls(code)
  {
    var i := Interval(code);
    assert (n - 1) * i < code.expiresIn;
    assert n * i <= code.expiresIn + i - 1;
    Quotient(code.expiresIn + i - 1, n, i);
  }

  lemma Quotient(m: nat, n: nat, i: nat)
    requires i > 0 && n * i <= m
    ensures n <= m / i
  {
    var r := m % i;
    assert m == m / i * i + r && r < i;
    if n > m / i {
      Grows(m / i + 1, n, i);
    }
  }

  lemma Grows(a: nat, b: nat, i: nat)
    requires a <= b
    ensures a * i <= b * i
  {
  }

  /**
   Always terminates, after at most the rounded-up quotient of lifetime and interval polls, each at
   least the interval plus five seconds for every slow-down so far after the one before, and none
   waited for once the code has expired. Every reply but the last asks for more, and the result is
   what the last one says, or expiry, if that asks for more, too.
   */
  method CompleteDeviceFlow(code: Code, clock: Clock, replies: nat -> Reply) returns (result: Result, log: seq<Poll>)
    ensures |log| <= MostPolls(code)
    ensures forall k :: 0 <= k < |log| ==>
      TurnOk(code, clock.start, log, k) && log[k].outcome == OutcomeOf(replies(k))
    ensures forall k :: 0 <= k < |log| ==> Paced(code, clock, replies, log, k)
    ensures forall k :: 0 <= k < |log| - 1 ==> AsksForMore(replies(k))
    ensures result == if log == [] then FlowExpired else Told(replies(|log| - 1))
    ensures log == [] ==> code.expiresIn == 0
    ensures log != [] && AsksForMore(replies(|log| - 1)) ==>
      log[|log| - 1].sent + clock.took(|log| - 1) >= clock.start + code.expiresIn * 1_000_000_000
  {
    hide Wait, MostPolls, OutcomeOf, TurnOk, Interval, Paced, Sleep, Told, AsksForMore, Says;
    var interval := Interval(code) * SECOND;
    var now := clock.start;
    var deadline := clock.start + code.expiresIn * SECOND;
    log := [];
    assert interval == Wait(code, []) == Sleep(code, replies, 0) by { NoSlowDowns(code, replies); }
    while now < deadline
      invariant interval == Wait(code, log)
      invariant |log| <= MostPolls(code)
      invariant now >= clock.start + |log| * Interval(code) * SECOND
      invariant log != [] ==> Goes(log[|log| - 1].outcome)
      invariant forall k :: 0 <= k < |log| ==> AsksForMore(replies(k))
      invariant forall k :: 0 <= k < |log| ==>
        TurnOk(code, clock.start, log, k) && log[k].outcome == OutcomeOf(replies(k))
      invariant forall k :: 0 <= k < |log| ==> Paced(code, clock, replies, log, k)
      invariant interval == Sleep(code, replies, |log|)
      invariant now == if log == [] then clock.start else log[|log| - 1].sent + clock.took(|log| - 1)
      decreases deadline - now
    {
      var n := |log|;
      ghost var before := log;
      FewTurns(code, n + 1);
      AtLeastInterval(code, log, n);
      var asked := now;
      now := now + interval + clock.late(n);
      var outcome := OutcomeOf(replies(n));
      log := log + [Poll(asked, now, outcome)];
      OneMore(code, clock.start, before, log[n]);
      OutcomesSpelledOut(replies(n));
      PacedOneMore(code, clock, replies, before, log[n]);
      now := now + clock.took(n);
      match outcome
      case Approved(token) => return Token(token), log;
      case Pending =>
      case SlowDown => interval := interval + 5 * SECOND;
      case Denied => return FlowDenied, log;
      case Expired => return FlowExpired, log;
      case Failed => return PollError, log;
    }
    if log != [] {
      TimeIsUp(replies(|log| - 1));
    }
    result := FlowExpired;
  }

  lemma TimeIsUp(reply: Reply)
    requires AsksForMore(reply)
    ensures Told(reply) == FlowExpired
  {
  }

  lemma NoSlowDowns(code: Code, replies: nat -> Reply)
    ensures Wait(code, []) == Sleep(code, replies, 0) == Interval(code) * SECOND
  {
  }

  lemma PacedOneMore(code: Code, clock: Clock, replies: nat -> Reply, log: seq<Poll>, p: Poll)
    requires p.asked == if log == [] then clock.start else log[|log| - 1].sent + clock.took(|log| - 1)
    requires p.sent == p.asked + Sleep(code, replies, |log|) + clock.late(|log|)
    ensures Paced(code, clock, replies, log + [p], |log|)
    ensures forall k :: 0 <= k < |log| && Paced(code, clock, replies, log, k) ==> Paced(code, clock, replies, log + [p], k)
    ensures Sleep(code, replies, |log| + 1)
         == Sleep(code, replies, |log|) + (if Says(replies(|log|), "slow_down") then 5_000_000_000 else 0)
  {
    hide Says;
    assert forall k :: 0 <= k < |log| ==> (log + [p])[k] == log[k];
  }

  lemma OneMore(code: Code, start: nat, log: seq<Poll>, p: Poll)
    ensures Wait(code, log + [p]) == Wait(code, log) + (if p.outcome == SlowDown then 5 * SECOND else 0)
    ensures forall k :: 0 <= k < |log| && TurnOk(code, start, log, k) ==> TurnOk(code, start, log + [p], k)
    ensures
      && start + |log| * Interval(code) * SECOND <= p.asked < start + code.expiresIn * SECOND
      && p.sent >= p.asked + Wait(code, log)
      && (log != [] ==> p.asked >= log[|log| - 1].sent && Goes(log[|log| - 1].outcome))
      ==> TurnOk(code, start, log + [p], |log|)
  {
    var longer := log + [p];
    assert longer[..|log|] == log;
    forall k | 0 <= k < |log| && TurnOk(code, start, log, k) ensures TurnOk(code, start, longer, k) {
      WaitStays(code, log, p, k);
    }
  }
}
