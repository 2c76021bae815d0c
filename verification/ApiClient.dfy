/**
 The client's code for one refresh, as it reads and overwrites its fields, tied statement by
 statement to the steps of the refresh protocol.
 */
module ApiClient {
  import opened Wrappers
  import opened RefreshProtocol

  /** What the caller gets: the original reply, the retried one, or the failure of the refresh. */
  datatype Attempt = Original | Retried(access: Secret) | FreshFailure(unauthorized: bool) | EmptyToken

  /** What reaches the client of the server's way of treating an exchange. */
  function ReplyTo(fate: Fate, minted: Secret): Reply {
    match fate
    case Rotates(true) => Granted(minted, Some(minted + 1))
    case Grace => Granted(minted, None)
    case Burns | Refuses => Denied
    case Rotates(false) | Breaks => Broken
  }

  class Client {
    var token: Option<Secret>
    var refreshToken: Option<Secret>
    var guard: Option<nat>
    const persists: bool
    /** The whole system as the protocol sees it. */
    ghost var system: State

    ghost predicate Agrees()
      reads this
    {
      system.memory == Credentials(token, refreshToken) && system.lock == guard && system.callback == persists
    }

    /** One protocol step by request `r`, appended to those taken so far. */
    ghost method Take(a: Action, start: State, steps: seq<Action>) returns (more: seq<Action>)
      requires system == Run(start, steps)
      modifies this`system
      ensures more == steps + [a] && system == Run(start, more) == Step(old(system), a)
      ensures Took(old(system), a, system)
    {
      more := steps + [a];
      assert more[..|steps|] == steps;
      StepTakes(system, a);
      system := Step(system, a);
    }

    /** Up to the wait for the lock; `unauthorized` is that the reply was a 401 and can be retried. */
    method Capture(r: nat, unauthorized: bool) returns (secret: Option<Secret>, ghost steps: seq<Action>)
      requires Agrees() && PcOf(system, r) == Idle
      modifies this`system
      ensures Agrees() && system == Run(old(system), steps)
      ensures secret == if unauthorized then refreshToken else None
      ensures PcOf(system, r) == if secret.Some? then Captured(secret.value) else Idle
    {
      steps := [];
      if !unauthorized {
        return None, steps;
      }
      secret := refreshToken;
      steps := Take(Unauthorized(r), system, steps);
    }

    /**
     From the lock to the end, with the server treating an exchange as `fate` says and `minted` the
     next secret it has to give: exactly the protocol's steps for this request, whatever the others
     did before the lock was free.
     */
    method RefreshLocked(r: nat, secret: Secret, fate: Fate, minted: Secret, accessSaved: bool, refreshSaved: bool)
      returns (result: Attempt, ghost steps: seq<Action>)
      requires Agrees() && guard == None && PcOf(system, r) == Captured(secret)
      requires minted == system.minted
      requires refreshToken == None || refreshToken == Some(secret) ==> Possible(system, secret, fate)
      modifies this
      ensures Agrees() && guard == None && PcOf(system, r) == Idle
      ensures system == Run(old(system), steps)
      ensures forall q :: q != r ==> PcOf(system, q) == old(PcOf(system, q))
      ensures
        if old(refreshToken).Some? && old(refreshToken) != Some(secret) then
          && result == (if old(token) == None then EmptyToken else Retried(old(token).value))
          && token == old(token) && refreshToken == old(refreshToken) && system.stored == old(system).stored
        else
          match fate
          case Rotates(true) =>
            && result == Retried(minted) && token == Some(minted) && refreshToken == Some(minted + 1)
            && (persists && accessSaved ==> system.stored.access == Some(minted))
            && (persists && refreshSaved ==> system.stored.refresh == Some(minted + 1))
            && (!(persists && accessSaved) ==> system.stored.access == old(system).stored.access)
            && (!(persists && refreshSaved) ==> system.stored.refresh == old(system).stored.refresh)
          case Grace =>
            && result == Retried(minted) && token == Some(minted) && refreshToken == old(refreshToken)
            && (persists && accessSaved ==> system.stored.access == Some(minted))
            && (!(persists && accessSaved) ==> system.stored.access == old(system).stored.access)
            && system.stored.refresh == old(system).stored.refresh
          case Burns | Refuses =>
            && result == FreshFailure(true) && token == None && refreshToken == None
            && system.stored == old(system).stored
          case Rotates(false) | Breaks =>
            && result == FreshFailure(false) && token == old(token) && refreshToken == old(refreshToken)
            && system.stored == old(system).stored
    {
      hide Run, Step, PcOf, Possible, Exchanged, Move;
      ghost var start := system;
      var alreadyRotated;
      alreadyRotated, steps := Enter(r, secret);
      if alreadyRotated {
        result, steps := UseFresh(r, start, steps);
      } else {
        PossibleSame(start, system, secret, fate);
        result, steps := ExchangeAndSettle(r, secret, fate, minted, accessSaved, refreshSaved, start, steps);
      }
      if result.Retried? {
        steps := Retry(r, result.access, start, steps);
      }
    }

    /** Taking the lock, and the check whether somebody else has rotated the captured secret. */
    method Enter(r: nat, secret: Secret) returns (alreadyRotated: bool, ghost steps: seq<Action>)
      requires Agrees() && guard == None && PcOf(system, r) == Captured(secret)
      modifies this`guard, this`system
      ensures Agrees() && guard == Some(r) && system == Run(old(system), steps)
      ensures alreadyRotated <==> refreshToken.Some? && refreshToken != Some(secret)
      ensures PcOf(system, r) == if alreadyRotated then Racing else Exchanging(secret)
      ensures system.minted == old(system.minted) && system.server == old(system.server)
      ensures system.stored == old(system).stored
      ensures forall q :: q != r ==> PcOf(system, q) == old(PcOf(system, q))
    {
      hide Run, Step, PcOf, Possible, Exchanged, Move;
      ghost var start := system;
      steps := [];
      assert system == Run(start, steps) by { NoSteps(start); }
      guard := Some(r);
      LockMove(system, secret, r);
      steps := Take(Lock(r), start, steps);
      alreadyRotated := refreshToken.Some? && refreshToken != Some(secret);
      CheckMove(system, secret, r);
      steps := Take(Check(r), start, steps);
    }

    /** The access token somebody else has just brought. */
    method UseFresh(r: nat, ghost start: State, ghost before: seq<Action>)
      returns (result: Attempt, ghost steps: seq<Action>)
      requires Agrees() && guard == Some(r) && PcOf(system, r) == Racing && system == Run(start, before)
      modifies this`guard, this`system
      ensures Agrees() && system == Run(start, steps)
      ensures result == if token == None then EmptyToken else Retried(token.value)
      ensures guard == (if token == None then None else Some(r))
      ensures PcOf(system, r) == if token == None then Idle else Retrying(token.value)
      ensures system.stored == old(system).stored
      ensures forall q :: q != r ==> PcOf(system, q) == old(PcOf(system, q))
    {
      hide Run, Step, PcOf, Possible, Exchanged, Move;
      ReadMove(system, r);
      steps := Take(ReadToken(r), start, before);
      if token == None {
        guard := None;
        return EmptyToken, steps;
      }
      result := Retried(token.value);
    }

    /** The retried request; the guard is dropped after it. */
    method Retry(r: nat, access: Secret, ghost start: State, ghost before: seq<Action>) returns (ghost steps: seq<Action>)
      requires Agrees() && PcOf(system, r) == Retrying(access) && system == Run(start, before)
      modifies this`guard, this`system
      ensures Agrees() && guard == None && PcOf(system, r) == Idle && system == Run(start, steps)
      ensures system.stored == old(system).stored
      ensures forall q :: q != r ==> PcOf(system, q) == old(PcOf(system, q))
    {
      hide Run, Step, PcOf, Possible, Exchanged, Move;
      FinishMove(system, access, r);
      steps := Take(Finish(r), start, before);
      guard := None;
    }

    /** The branch that goes to the server. */
    method ExchangeAndSettle(r: nat, secret: Secret, fate: Fate, minted: Secret, accessSaved: bool, refreshSaved: bool,
                             ghost start: State, ghost before: seq<Action>)
      returns (result: Attempt, ghost steps: seq<Action>)
      requires Agrees() && guard == Some(r) && PcOf(system, r) == Exchanging(secret) && system == Run(start, before)
      requires minted == system.minted && Possible(system, secret, fate)
      modifies this
      ensures Agrees() && system == Run(start, steps)
      ensures forall q :: q != r ==> PcOf(system, q) == old(PcOf(system, q))
      ensures result.Retried? ==>
        token == Some(result.access) && guard == Some(r) && PcOf(system, r) == Retrying(result.access)
      ensures !result.Retried? ==> guard == None && PcOf(system, r) == Idle
      ensures Answered(ReplyTo(fate, minted), result, old(token), old(refreshToken))
      ensures Persisted(ReplyTo(fate, minted), accessSaved, refreshSaved, old(system).stored)
    {
      hide Run, Step, PcOf, Possible, Exchanged, Move;
      var reply := ExchangeRefresh(r, secret, fate, minted);
      steps := before + [Exchange(r, fate)];
      assert steps[..|before|] == before;
      OneStep(start, steps, Exchange(r, fate));
      result, steps := Settle(r, reply, accessSaved, refreshSaved, start, steps);
    }

    /** The result of an exchange and what it leaves in memory. */
    predicate Answered(reply: Reply, result: Attempt, oldToken: Option<Secret>, oldRefresh: Option<Secret>)
      reads this
    {
      match reply
      case Granted(access, refresh) =>
        result == Retried(access) && token == Some(access) && refreshToken == if refresh.Some? then refresh else oldRefresh
      case Denied => result == FreshFailure(true) && token == None && refreshToken == None
      case Broken => result == FreshFailure(false) && token == oldToken && refreshToken == oldRefresh
    }

    /** What the store holds after an exchange. */
    ghost predicate Persisted(reply: Reply, accessSaved: bool, refreshSaved: bool, before: Credentials)
      reads this
    {
      system.stored ==
        if !reply.Granted? || !persists then before
        else Credentials(if accessSaved then Some(reply.access) else before.access,
                         if refreshSaved && reply.refresh.Some? then reply.refresh else before.refresh)
    }

    /** What the reply of the exchange does to the fields, up to the retried request. */
    method Settle(r: nat, reply: Reply, accessSaved: bool, refreshSaved: bool, ghost start: State, ghost before: seq<Action>)
      returns (result: Attempt, ghost steps: seq<Action>)
      requires Agrees() && guard == Some(r) && PcOf(system, r) == Replied(reply) && system == Run(start, before)
      modifies this
      ensures Agrees() && system == Run(start, steps)
      ensures forall q :: q != r ==> PcOf(system, q) == old(PcOf(system, q))
      ensures result.Retried? ==> guard == Some(r) && PcOf(system, r) == Retrying(result.access)
      ensures !result.Retried? ==> guard == None && PcOf(system, r) == Idle
      ensures Answered(reply, result, old(token), old(refreshToken))
      ensures Persisted(reply, accessSaved, refreshSaved, old(system).stored)
    {
      hide Run, Step, PcOf, Exchanged, Possible;
      steps := Take(Handle(r), start, before);
      if reply == Denied {
        refreshToken := None;
        steps := Take(ClearToken(r), start, steps);
        token := None;
        guard := None;
        return FreshFailure(true), steps;
      }
      if reply == Broken {
        guard := None;
        return FreshFailure(false), steps;
      }
      token := Some(reply.access);
      steps := Adopt(r, reply.access, reply.refresh, accessSaved, refreshSaved, start, steps);
      result := Retried(reply.access);
    }

    /** Keeping and persisting a new pair. */
    method Adopt(r: nat, access: Secret, refresh: Option<Secret>, accessSaved: bool, refreshSaved: bool,
                 ghost start: State, ghost before: seq<Action>)
      returns (ghost steps: seq<Action>)
      requires Agrees() && guard == Some(r) && PcOf(system, r) == TokenSet(access, refresh) && system == Run(start, before)
      modifies this`refreshToken, this`system
      ensures Agrees() && system == Run(start, steps) && PcOf(system, r) == Retrying(access)
      ensures refreshToken == if refresh.Some? then refresh else old(refreshToken)
      ensures Persisted(Granted(access, refresh), accessSaved, refreshSaved, old(system).stored)
      ensures forall q :: q != r ==> PcOf(system, q) == old(PcOf(system, q))
    {
      hide Run, Step, PcOf, Exchanged, Possible, Move;
      if refresh.Some? {
        refreshToken := refresh;
      }
      SetRefreshMove(system, access, refresh, r);
      steps := Take(SetRefresh(r), start, before);
      steps := Persist(r, access, refresh, accessSaved, refreshSaved, start, steps);
    }

    /** The persist callback writes the access token and, if there is one, the refresh token. */
    method Persist(r: nat, access: Secret, refresh: Option<Secret>, accessSaved: bool, refreshSaved: bool,
                   ghost start: State, ghost before: seq<Action>)
      returns (ghost steps: seq<Action>)
      requires Agrees() && guard == Some(r) && PcOf(system, r) == RefreshSet(access, refresh) && system == Run(start, before)
      modifies this`system
      ensures Agrees() && system == Run(start, steps) && PcOf(system, r) == Retrying(access)
      ensures Persisted(Granted(access, refresh), accessSaved, refreshSaved, old(system).stored)
      ensures forall q :: q != r ==> PcOf(system, q) == old(PcOf(system, q))
    {
      hide Run, Step, PcOf, Exchanged, Possible, Move;
      SaveAccessMove(system, access, refresh, r, accessSaved);
      steps := Take(SaveAccess(r, accessSaved), start, before);
      SaveRefreshMove(system, access, refresh, r, refreshSaved);
      steps := Take(SaveRefresh(r, refreshSaved), start, steps);
    }

    /** The call to the server; the fields stay as they are while it is under way. */
    method ExchangeRefresh(r: nat, secret: Secret, fate: Fate, minted: Secret) returns (reply: Reply)
      requires minted == system.minted
      requires Agrees() && PcOf(system, r) == Exchanging(secret) && Possible(system, secret, fate)
      modifies this`system
      ensures Agrees() && system == Step(old(system), Exchange(r, fate)) && PcOf(system, r) == Replied(reply)
      ensures reply == ReplyTo(fate, minted) && system.stored == old(system).stored
      ensures forall q :: q != r ==> PcOf(system, q) == old(PcOf(system, q))
    {
      system := Step(system, Exchange(r, fate));
      match fate
      case Rotates(delivered) =>
        reply := if delivered then Granted(minted, Some(minted + 1)) else Broken;
      case Grace => reply := Granted(minted, None);
      case Burns => reply := Denied;
      case Refuses => reply := Denied;
      case Breaks => reply := Broken;
    }
  }

  lemma LockMove(s: State, secret: Secret, r: nat)
    requires s.lock == None
    ensures Move(s, Captured(secret), Lock(r)) == Moved(s.(lock := Some(r)), Checking(secret))
  {
  }

  lemma CheckMove(s: State, secret: Secret, r: nat)
    ensures Move(s, Checking(secret), Check(r)) ==
      Moved(s, if s.memory.refresh.Some? && s.memory.refresh.value != secret then Racing else Exchanging(secret))
  {
  }

  lemma ReadMove(s: State, r: nat)
    ensures Move(s, Racing, ReadToken(r)) ==
      if s.memory.access.Some? then Moved(s, Retrying(s.memory.access.value))
      else Moved(s.(emptyToken := true, lock := None), Idle)
  {
  }

  lemma FinishMove(s: State, access: Secret, r: nat)
    ensures Move(s, Retrying(access), Finish(r)) == Moved(s.(lock := None), Idle)
  {
  }

  lemma SetRefreshMove(s: State, access: Secret, refresh: Option<Secret>, r: nat)
    ensures Move(s, TokenSet(access, refresh), SetRefresh(r)) ==
      Moved(if refresh.Some? then s.(memory := s.memory.(refresh := refresh)) else s, RefreshSet(access, refresh))
  {
  }

  lemma SaveAccessMove(s: State, access: Secret, refresh: Option<Secret>, r: nat, ok: bool)
    ensures
      var m := Move(s, RefreshSet(access, refresh), SaveAccess(r, ok));
      && m.pc == AccessSaved(access, refresh)
      && m.state == s.(stored := m.state.stored, saveFailed := m.state.saveFailed)
      && m.state.stored == (if s.callback && ok then s.stored.(access := Some(access)) else s.stored)
  {
  }

  lemma SaveRefreshMove(s: State, access: Secret, refresh: Option<Secret>, r: nat, ok: bool)
    ensures
      var m := Move(s, AccessSaved(access, refresh), SaveRefresh(r, ok));
      && m.pc == Retrying(access)
      && m.state == s.(stored := m.state.stored, saveFailed := m.state.saveFailed)
      && m.state.stored == (if s.callback && ok && refresh.Some? then s.stored.(refresh := refresh) else s.stored)
  {
  }

  lemma PossibleSame(s: State, t: State, secret: Secret, fate: Fate)
    requires s.server == t.server
    ensures Possible(s, secret, fate) == Possible(t, secret, fate)
  {
  }

  lemma NoSteps(s: State)
    ensures Run(s, []) == s
  {
  }

  lemma OneStep(s: State, steps: seq<Action>, a: Action)
    requires steps != [] && steps[|steps| - 1] == a
    ensures Run(s, steps) == Step(Run(s, steps[..|steps| - 1]), a)
  {
  }
}
