/**
 Concurrent auto-refresh: any number of requests hit 401, each captures the refresh secret before
 it takes `refresh_lock` and checks it again under the lock, against a server that rotates refresh
 tokens. One action is one atomic access; a run is any sequence of actions.
 */
module RefreshProtocol {
  import opened Wrappers

  type Secret = nat

  /** `live` is false once reuse detection has burned the chain. */
  datatype Server = Server(current: Secret, replaced: set<Secret>, live: bool)

  /** Access and refresh credentials, in memory or in the token store. */
  datatype Credentials = Credentials(access: Option<Secret>, refresh: Option<Secret>)

  datatype Reply =
    | Granted(access: Secret, refresh: Option<Secret>)
    | Denied   // 401 or 400
    | Broken   // anything else: transport failure, 5xx, undecodable body

  /** Where a request is in `maybe_refresh_and_retry`. */
  datatype Pc =
    | Idle
    | Captured(secret: Secret)
    | Checking(secret: Secret)
    | Racing
    | Exchanging(secret: Secret)
    | Replied(reply: Reply)
    | TokenSet(access: Secret, refresh: Option<Secret>)
    | RefreshSet(access: Secret, refresh: Option<Secret>)
    | AccessSaved(access: Secret, refresh: Option<Secret>)
    | Clearing
    | Retrying(access: Secret)

  /** One refresh token shown to the server: what it was, what the server held just then, and how it was treated. */
  datatype Presentation = Presentation(secret: Secret, current: Secret, fate: Fate, afterFailure: bool)

  datatype State = State(
    server: Server,
    minted: nat,               // secrets below this have been handed out
    memory: Credentials,
    stored: Credentials,
    callback: bool,            // a persist callback is registered
    lock: Option<nat>,
    pcs: map<nat, Pc>,
    presented: seq<Presentation>,
    failed: bool,              // a rotated pair was not delivered, or the server denied
    saveFailed: bool,
    emptyToken: bool)          // the "racing refresh left empty token" branch was taken

  /** How the server treats an exchange; see the guards in `Exchanged`. */
  datatype Fate = Rotates(delivered: bool) | Grace | Refuses | Burns | Breaks

  datatype Action =
    | Unauthorized(r: nat)
    | Lock(r: nat)
    | Check(r: nat)
    | ReadToken(r: nat)
    | Exchange(r: nat, fate: Fate)
    | Handle(r: nat)
    | SetRefresh(r: nat)
    | SaveAccess(r: nat, ok: bool)
    | SaveRefresh(r: nat, ok: bool)
    | ClearToken(r: nat)
    | Finish(r: nat)
    | Abandon(r: nat)

  function PcOf(s: State, r: nat): Pc {
    if r in s.pcs then s.pcs[r] else Idle
  }

  predicate Possible(s: State, secret: Secret, fate: Fate) {
    match fate
    case Rotates(_) => s.server.live && secret == s.server.current
    case Grace => s.server.live && secret in s.server.replaced
    case Burns => secret in s.server.replaced
    case Refuses => secret !in s.server.replaced
    case Breaks => true
  }

  /** What a step makes of the shared state, and of the request that takes it. */
  datatype Moved = Moved(state: State, pc: Pc)

  /** The guard is dropped when the function returns, after the retried request. */
  function Leave(s: State): Moved {
    Moved(s.(lock := None), Idle)
  }

  /** The server handles one exchange. A new pair uses two fresh secrets. */
  function Exchanged(s: State, secret: Secret, fate: Fate): Moved {
    var t := s.(presented := s.presented + [Presentation(secret, s.server.current, fate, s.failed)]);
    match fate
    case Rotates(delivered) =>
      var rotated := t.(
        server := s.server.(current := s.minted + 1, replaced := s.server.replaced + {secret}),
        minted := s.minted + 2,
        failed := s.failed || !delivered);
      Moved(rotated, Replied(if delivered then Granted(s.minted, Some(s.minted + 1)) else Broken))
    case Grace => Moved(t.(minted := s.minted + 1, failed := true), Replied(Granted(s.minted, None)))
    case Burns => Moved(t.(server := s.server.(live := false), failed := true), Replied(Denied))
    case Refuses => Moved(t.(failed := true), Replied(Denied))
    case Breaks => Moved(t, Replied(Broken))  // the server has not rotated
  }

  /** One atomic access by a request at `pc`; an action that is not enabled changes nothing. */
  function Move(s: State, pc: Pc, a: Action): Moved {
    match (a, pc)
    case (Unauthorized(_), Idle) =>
      // No refresh credential: the original 401 goes back to the caller.
      Moved(s, if s.memory.refresh == None then Idle else Captured(s.memory.refresh.value))
    case (Lock(r), Captured(secret)) =>
      if s.lock == None then Moved(s.(lock := Some(r)), Checking(secret)) else Moved(s, pc)
    case (Check(_), Checking(secret)) =>
      Moved(s, if s.memory.refresh.Some? && s.memory.refresh.value != secret then Racing else Exchanging(secret))
    case (ReadToken(_), Racing) =>
      if s.memory.access.Some? then Moved(s, Retrying(s.memory.access.value))
      else Leave(s.(emptyToken := true))
    case (Exchange(_, fate), Exchanging(secret)) =>
      if Possible(s, secret, fate) then Exchanged(s, secret, fate) else Moved(s, pc)
    case (Handle(_), Replied(Granted(access, refresh))) =>
      Moved(s.(memory := s.memory.(access := Some(access))), TokenSet(access, refresh))
    case (Handle(_), Replied(Denied)) => Moved(s.(memory := s.memory.(refresh := None)), Clearing)
    case (Handle(_), Replied(Broken)) => Leave(s)
    case (ClearToken(_), Clearing) => Leave(s.(memory := s.memory.(access := None)))
    case (SetRefresh(_), TokenSet(access, refresh)) =>
      Moved(if refresh.Some? then s.(memory := s.memory.(refresh := refresh)) else s, RefreshSet(access, refresh))
    case (SaveAccess(_, ok), RefreshSet(access, refresh)) =>
      Moved(if s.callback && ok then s.(stored := s.stored.(access := Some(access)))
            else s.(saveFailed := s.saveFailed || s.callback),
            AccessSaved(access, refresh))
    case (SaveRefresh(_, ok), AccessSaved(access, refresh)) =>
      Moved(if refresh == None || !s.callback then s
            else if ok then s.(stored := s.stored.(refresh := refresh))
            else s.(saveFailed := true),
            Retrying(access))
    case (Finish(_), Retrying(_)) => Leave(s)
    // A request dropped at an await point outside the exchange itself.
    case (Abandon(_), Captured(_)) => Moved(s, Idle)
    case (Abandon(_), Exchanging(_)) => Leave(s)
    case (Abandon(_), Retrying(_)) => Leave(s)
    case _ => Moved(s, pc)
  }

  function Step(s: State, a: Action): State {
    var m := Move(s, PcOf(s, a.r), a);
    m.state.(pcs := s.pcs[a.r := m.pc])
  }

  /** The state the command-line client starts in: the store's credentials, loaded into memory. */
  predicate Initial(s: State) {
    && s.lock == None && s.pcs == map[] && s.presented == []
    && !s.failed && !s.saveFailed && !s.emptyToken
    && s.stored == s.memory
    && s.memory.refresh == Some(s.server.current)
    && s.server.live && s.server.current < s.minted
    && (forall x :: x in s.server.replaced ==> x < s.server.current)
  }

  function Run(s: State, actions: seq<Action>): State {
    if actions == [] then s else Step(Run(s, actions[..|actions| - 1]), actions[|actions| - 1])
  }

  // ---- The inductive invariant ----

  predicate InCritical(pc: Pc) {
    !pc.Idle? && !pc.Captured?
  }

  function SecretOf(pc: Pc): Option<Secret> {
    match pc
    case Captured(x) => Some(x)
    case Checking(x) => Some(x)
    case Exchanging(x) => Some(x)
    case _ => None
  }

  ghost predicate LockInv(s: State) {
    forall r: nat :: InCritical(PcOf(s, r)) <==> s.lock == Some(r)
  }

  /** Secrets are handed out once; `first` is the one the run began with. */
  ghost predicate SharedFacts(s: State, first: Secret) {
    && first < s.minted && s.server.current < s.minted
    && (first == s.server.current || first in s.server.replaced)
    && (forall x :: x in s.server.replaced ==> x < s.minted && x != s.server.current)
    && (s.memory.refresh.Some? && s.memory.refresh.value != first ==> s.memory.access.Some?)
    && !s.emptyToken
  }

  ghost predicate SecretInv(s: State, first: Secret) {
    SharedFacts(s, first) && forall r: nat :: RequestFacts(s, PcOf(s, r), first)
  }

  ghost predicate RequestFacts(s: State, pc: Pc, first: Secret) {
    && (SecretOf(pc).Some? && s.memory.refresh == Some(first) ==> SecretOf(pc) == Some(first))
    && match pc
       case Racing => s.memory.access.Some?
       case Replied(Granted(_, rf)) => rf != Some(first)
       case TokenSet(a, rf) => s.memory.access == Some(a) && rf != Some(first)
       case RefreshSet(a, _) => s.memory.access == Some(a)
       case AccessSaved(a, _) => s.memory.access == Some(a)
       case Clearing => s.memory.refresh == None
       case Retrying(a) => s.memory.access == Some(a)
       case _ => true
  }

  ghost predicate Synced(s: State) {
    && s.memory.refresh == Some(s.server.current)
    && (s.callback && !s.saveFailed ==> s.stored == s.memory)
  }

  /** What holds for each request until a rotated pair is lost or the server denies. */
  ghost predicate HealthyPc(s: State, pc: Pc) {
    match pc
    case Idle => true
    case Captured(x) => x == s.server.current || x in s.server.replaced
    case Checking(x) => Synced(s) && (x == s.server.current || x in s.server.replaced)
    case Racing => Synced(s)
    case Exchanging(x) => Synced(s) && x == s.server.current
    case Replied(Granted(_, rf)) =>
      rf == Some(s.server.current)
      && s.memory.refresh.Some? && s.memory.refresh.value in s.server.replaced
    case Replied(Broken) => Synced(s)
    case Replied(Denied) => false
    case TokenSet(a, rf) =>
      s.memory.access == Some(a) && rf == Some(s.server.current)
      && s.memory.refresh.Some? && s.memory.refresh.value in s.server.replaced
    case RefreshSet(a, rf) => rf == Some(s.server.current) && s.memory == Credentials(Some(a), rf)
    case AccessSaved(a, rf) =>
      rf == Some(s.server.current) && s.memory == Credentials(Some(a), rf)
      && (s.callback && !s.saveFailed ==> s.stored.access == Some(a))
    case Clearing => false
    case Retrying(_) => Synced(s)
  }

  /** The in-memory refresh token was minted by this server: it is current or was replaced. */
  ghost predicate KnownRefresh(s: State) {
    s.memory.refresh.Some?
    && (s.memory.refresh.value == s.server.current || s.memory.refresh.value in s.server.replaced)
  }

  ghost predicate HealthInv(s: State) {
    !s.failed ==>
      && s.server.live
      && (s.lock == None ==> Synced(s))
      && KnownRefresh(s)
      && (forall r: nat :: HealthyPc(s, PcOf(s, r)))
  }

  ghost predicate PresentedInv(s: State) {
    && (forall k :: 0 <= k < |s.presented| && !s.presented[k].afterFailure ==>
          s.presented[k].secret == s.presented[k].current)
    && (forall k :: 0 <= k < |s.presented| && s.presented[k].fate.Rotates? ==> s.presented[k].secret in s.server.replaced)
    && (forall k :: 0 <= k < |s.presented| && !s.failed ==> !s.presented[k].afterFailure)
    && (forall j, k :: 0 <= j < k < |s.presented| && s.presented[j].fate.Rotates? && !s.presented[k].afterFailure ==>
          s.presented[j].secret != s.presented[k].secret)
  }

  ghost predicate Inv(s: State, first: Secret) {
    LockInv(s) && SecretInv(s, first) && HealthInv(s) && PresentedInv(s)
  }

  /** A step takes or releases the lock only for the request that makes it. */
  lemma MoveLock(s: State, pc: Pc, a: Action)
    ensures
      var m := Move(s, pc, a);
      && (InCritical(m.pc) && !InCritical(pc) ==> s.lock == None && m.state.lock == Some(a.r))
      && (!InCritical(m.pc) && InCritical(pc) ==> m.state.lock == None)
      && (InCritical(m.pc) == InCritical(pc) ==> m.state.lock == s.lock)
  {
  }

  lemma LockStep(s: State, a: Action)
    requires LockInv(s)
    ensures LockInv(Step(s, a))
  {
    hide Move;
    MoveLock(s, PcOf(s, a.r), a);
    assert InCritical(PcOf(s, a.r)) <==> s.lock == Some(a.r);
  }

  lemma MoveShared(s: State, pc: Pc, a: Action, first: Secret)
    requires SharedFacts(s, first) && RequestFacts(s, pc, first)
    ensures SharedFacts(Move(s, pc, a).state, first)
  {
    hide Exchanged, Possible;
    if pc.Exchanging? && a.Exchange? && Possible(s, pc.secret, a.fate) {
      ExchangedShared(s, pc.secret, a.fate, first);
    }
  }

  lemma ExchangedShared(s: State, secret: Secret, fate: Fate, first: Secret)
    requires SharedFacts(s, first) && Possible(s, secret, fate)
    ensures SharedFacts(Exchanged(s, secret, fate).state, first)
  {
  }

  lemma MoveSelf(s: State, pc: Pc, a: Action, first: Secret)
    requires SharedFacts(s, first) && RequestFacts(s, pc, first)
    ensures RequestFacts(Move(s, pc, a).state, Move(s, pc, a).pc, first)
  {
  }

  lemma PcsDoNotMatter(s: State, pcs: map<nat, Pc>, pc: Pc, first: Secret)
    ensures SharedFacts(s.(pcs := pcs), first) == SharedFacts(s, first)
    ensures RequestFacts(s.(pcs := pcs), pc, first) == RequestFacts(s, pc, first)
  {
  }

  /** Outside the critical section a step touches nothing but the lock. */
  lemma QuietMove(s: State, pc: Pc, a: Action)
    requires !InCritical(pc)
    ensures Move(s, pc, a).state == s.(lock := Move(s, pc, a).state.lock)
  {
    hide Exchanged, Possible;
  }

  /** A captured secret is the first one if the one in memory is: that one is never put back. */
  lemma FirstIsNotPutBack(s: State, pc: Pc, a: Action, first: Secret)
    requires SharedFacts(s, first) && RequestFacts(s, pc, first)
    ensures Move(s, pc, a).state.memory.refresh == Some(first) ==> s.memory.refresh == Some(first)
  {
    hide Exchanged, Possible;
    if pc.Exchanging? && a.Exchange? {
      ExchangedKeepsMemory(s, pc.secret, a.fate);
    }
  }

  lemma ExchangedKeepsMemory(s: State, secret: Secret, fate: Fate)
    ensures Exchanged(s, secret, fate).state.memory == s.memory
  {
  }

  lemma SecretOther(s: State, a: Action, first: Secret, q: nat)
    requires LockInv(s) && SecretInv(s, first) && q != a.r
    ensures RequestFacts(Step(s, a), PcOf(s, q), first)
  {
    hide Move, SharedFacts;
    assert RequestFacts(s, PcOf(s, q), first) && RequestFacts(s, PcOf(s, a.r), first);
    LockHolder(s, q);
    LockHolder(s, a.r);
    if InCritical(PcOf(s, q)) {
      QuietMove(s, PcOf(s, a.r), a);
    } else {
      FirstIsNotPutBack(s, PcOf(s, a.r), a, first);
    }
  }

  lemma SecretStep(s: State, a: Action, first: Secret)
    requires LockInv(s) && SecretInv(s, first)
    ensures SecretInv(Step(s, a), first)
  {
    hide Move, RequestFacts;
    hide SharedFacts;
    var m := Move(s, PcOf(s, a.r), a);
    MoveShared(s, PcOf(s, a.r), a, first);
    MoveSelf(s, PcOf(s, a.r), a, first);
    PcsDoNotMatter(m.state, s.pcs[a.r := m.pc], m.pc, first);
    forall q: nat ensures RequestFacts(Step(s, a), PcOf(Step(s, a), q), first) {
      if q != a.r {
        SecretOther(s, a, first, q);
      }
    }
  }

  lemma HealthSelf(s: State, pc: Pc, a: Action, first: Secret)
    requires SharedFacts(s, first) && HealthyPc(s, pc) && !s.failed && !Move(s, pc, a).state.failed
    requires s.server.live && KnownRefresh(s) && (s.lock == None ==> Synced(s))
    requires InCritical(pc) <==> s.lock == Some(a.r)
    ensures Move(s, pc, a).state.server.live && KnownRefresh(Move(s, pc, a).state)
    ensures HealthyPc(Move(s, pc, a).state, Move(s, pc, a).pc)
    ensures Move(s, pc, a).state.lock == None ==> Synced(Move(s, pc, a).state)
  {
  }

  lemma FailureSticks(s: State, pc: Pc, a: Action)
    ensures s.failed ==> Move(s, pc, a).state.failed
  {
  }

  /** A token the server knows stays known. */
  lemma KnownStays(s: State, pc: Pc, a: Action, x: Secret)
    requires x == s.server.current || x in s.server.replaced
    ensures var t := Move(s, pc, a).state; x == t.server.current || x in t.server.replaced
  {
    hide Exchanged, Possible;
    if pc.Exchanging? && a.Exchange? && Possible(s, pc.secret, a.fate) {
      ExchangedKnows(s, pc.secret, a.fate, x);
    }
  }

  lemma ExchangedKnows(s: State, secret: Secret, fate: Fate, x: Secret)
    requires Possible(s, secret, fate) && (x == s.server.current || x in s.server.replaced)
    ensures var t := Exchanged(s, secret, fate).state; x == t.server.current || x in t.server.replaced
  {
  }

  lemma HealthOther(s: State, a: Action, first: Secret, q: nat)
    requires Inv(s, first) && !Step(s, a).failed && q != a.r
    ensures HealthyPc(Step(s, a), PcOf(s, q))
  {
    hide Move, SharedFacts, RequestFacts, PresentedInv;
    FailureSticks(s, PcOf(s, a.r), a);
    assert HealthyPc(s, PcOf(s, q));
    LockHolder(s, q);
    LockHolder(s, a.r);
    if InCritical(PcOf(s, q)) {
      QuietMove(s, PcOf(s, a.r), a);
    } else if PcOf(s, q).Captured? {
      KnownStays(s, PcOf(s, a.r), a, PcOf(s, q).secret);
    }
  }

  /** Only an exchange is logged, and it logs one presentation. */
  lemma MovePresented(s: State, pc: Pc, a: Action)
    ensures
      var t := Move(s, pc, a).state;
      || (t.presented == s.presented && t.server == s.server)
      || (pc.Exchanging? && a.Exchange?
          && t.presented == s.presented + [Presentation(pc.secret, s.server.current, a.fate, s.failed)]
          && s.server.replaced <= t.server.replaced && (a.fate.Rotates? ==> pc.secret in t.server.replaced))
    ensures s.failed ==> Move(s, pc, a).state.failed
  {
    hide Exchanged, Possible;
    if pc.Exchanging? && a.Exchange? && Possible(s, pc.secret, a.fate) {
      ExchangedPresented(s, pc.secret, a.fate);
    }
  }

  lemma ExchangedPresented(s: State, secret: Secret, fate: Fate)
    ensures
      var t := Exchanged(s, secret, fate).state;
      && t.presented == s.presented + [Presentation(secret, s.server.current, fate, s.failed)]
      && s.server.replaced <= t.server.replaced && (fate.Rotates? ==> secret in t.server.replaced)
      && (s.failed ==> t.failed)
  {
  }

  lemma PresentedStep(s: State, a: Action, first: Secret)
    requires Inv(s, first)
    ensures PresentedInv(Step(s, a))
  {
    hide Move, LockInv, SharedFacts, RequestFacts;
    assert !s.failed ==> HealthyPc(s, PcOf(s, a.r));
    assert SharedFacts(s, first);
    MovePresented(s, PcOf(s, a.r), a);
    CurrentIsNotReplaced(s, first);
  }

  lemma CurrentIsNotReplaced(s: State, first: Secret)
    requires SharedFacts(s, first)
    ensures s.server.current !in s.server.replaced
  {
  }

  lemma LockHolder(s: State, r: nat)
    requires LockInv(s)
    ensures InCritical(PcOf(s, r)) <==> s.lock == Some(r)
  {
  }

  lemma PcsDoNotMatterHere(s: State, pcs: map<nat, Pc>, pc: Pc)
    ensures HealthyPc(s.(pcs := pcs), pc) == HealthyPc(s, pc)
  {
  }

  lemma HealthStep(s: State, a: Action, first: Secret)
    requires Inv(s, first)
    ensures HealthInv(Step(s, a)) && PresentedInv(Step(s, a))
  {
    hide Move, HealthyPc, LockInv, PresentedInv, SharedFacts, RequestFacts;
    PresentedStep(s, a, first);
    if !Step(s, a).failed {
      var m := Move(s, PcOf(s, a.r), a);
      FailureSticks(s, PcOf(s, a.r), a);
      LockHolder(s, a.r);
      HealthSelf(s, PcOf(s, a.r), a, first);
      PcsDoNotMatterHere(m.state, s.pcs[a.r := m.pc], m.pc);
      forall q: nat ensures HealthyPc(Step(s, a), PcOf(Step(s, a), q)) {
        if q != a.r {
          HealthOther(s, a, first, q);
        }
      }
    }
  }

  lemma {:induction false} InvHolds(s: State, actions: seq<Action>)
    requires Initial(s)
    ensures Inv(Run(s, actions), s.server.current)
  {
    hide Step;
    if actions != [] {
      var before := actions[..|actions| - 1];
      var a := actions[|actions| - 1];
      InvHolds(s, before);
      LockStep(Run(s, before), a);
      SecretStep(Run(s, before), a, s.server.current);
      HealthStep(Run(s, before), a, s.server.current);
    }
  }

  // ---- What every run satisfies ----

  /**
   Until a rotated pair is lost on its way or the server denies one, every exchange presents the
   refresh token the server holds right then, and a token it has rotated is never presented again.
   An exchange that breaks without rotating ends neither guarantee.
   */
  lemma PresentsOnlyTheCurrentSecret(s: State, actions: seq<Action>)
    requires Initial(s)
    ensures
      var t := Run(s, actions);
      var shown := t.presented;
      && (forall k :: 0 <= k < |shown| && !shown[k].afterFailure ==> shown[k].secret == shown[k].current)
      && (forall j, k :: 0 <= j < k < |shown| && shown[j].fate.Rotates? && !shown[k].afterFailure ==>
            shown[j].secret != shown[k].secret)
      && (!t.failed ==> t.server.live && forall k :: 0 <= k < |shown| ==> !shown[k].afterFailure)
  {
    hide Step;
    InvHolds(s, actions);
  }

  /** Until then, whenever the lock is free the stored pair is the in-memory pair, and it is current. */
  lemma StoreMatchesMemory(s: State, actions: seq<Action>)
    requires Initial(s) && s.callback
    ensures
      var t := Run(s, actions);
      !t.failed && t.lock == None ==>
        && t.memory.refresh == Some(t.server.current)
        && (!t.saveFailed ==> t.stored == t.memory)
  {
    hide Step;
    InvHolds(s, actions);
    CallbackStays(s, actions);
  }

  lemma {:induction false} CallbackStays(s: State, actions: seq<Action>)
    ensures Run(s, actions).callback == s.callback
  {
    hide Move;
    if actions != [] {
      var t := Run(s, actions[..|actions| - 1]);
      CallbackStays(s, actions[..|actions| - 1]);
      MoveKeepsCallback(t, PcOf(t, actions[|actions| - 1].r), actions[|actions| - 1]);
    }
  }

  lemma MoveKeepsCallback(s: State, pc: Pc, a: Action)
    ensures Move(s, pc, a).state.callback == s.callback
  {
    hide Exchanged, Possible;
    if pc.Exchanging? && a.Exchange? {
      ExchangedKeepsCallback(s, pc.secret, a.fate);
    }
  }

  lemma ExchangedKeepsCallback(s: State, secret: Secret, fate: Fate)
    ensures Exchanged(s, secret, fate).state.callback == s.callback
  {
  }

  /**
   In every run, failures included: at most one request is past the lock, the "racing refresh left
   empty token" branch is never taken, and every retry carries the access token held in memory.
   */
  lemma RetriesCarryTheFreshToken(s: State, actions: seq<Action>, q: nat, r: nat)
    requires Initial(s)
    ensures
      var t := Run(s, actions);
      && !t.emptyToken
      && (InCritical(PcOf(t, q)) && InCritical(PcOf(t, r)) ==> q == r)
      && (PcOf(t, r).Retrying? ==> t.memory.access == Some(PcOf(t, r).access))
  {
    hide Step;
    InvHolds(s, actions);
    var t := Run(s, actions);
    LockHolder(t, q);
    LockHolder(t, r);
    assert RequestFacts(t, PcOf(t, r), s.server.current);
  }

  /** A run in which the first reply is lost after the server rotated, and a second request follows. */
  const LOST_REPLY: seq<Action> := [Unauthorized(0), Lock(0), Check(0)]
    + [Exchange(0, Rotates(false)), Handle(0), Unauthorized(1)]
    + [Lock(1), Check(1), Exchange(1, Breaks)]

  /** Then the guarantee is gone: a lost reply leaves the replaced token in use. */
  lemma LostReplyRepresentsReplaced(s: State)
    requires Initial(s)
    ensures
      var t := Run(s, LOST_REPLY);
      && |t.presented| == 2 && t.presented[1].afterFailure
      && t.presented[1].secret == t.presented[0].secret
      && t.presented[1].secret in t.server.replaced
  {
    hide Step, Run;
    var first, second := [Unauthorized(0), Lock(0), Check(0)], [Exchange(0, Rotates(false)), Handle(0), Unauthorized(1)];
    var third := [Lock(1), Check(1), Exchange(1, Breaks)];
    Reaches(s, 0);
    LosesReply(Run(s, first), 0, 1);
    ShownOnceMore(Run(Run(s, first), second), 1);
    RunAppend(s, first, second);
    RunAppend(s, first + second, third);
  }

  lemma {:induction false} RunAppend(s: State, a: seq<Action>, b: seq<Action>)
    ensures Run(s, a + b) == Run(Run(s, a), b)
  {
    hide Step;
    if b == [] {
      assert a + b == a;
    } else {
      assert (a + b)[..|a + b| - 1] == a + b[..|b| - 1];
      RunAppend(s, a, b[..|b| - 1]);
    }
  }

  /** What one step comes to: the mover's part of the state, its new place, and everybody else's old one. */
  ghost predicate Took(s: State, a: Action, t: State) {
    var m := Move(s, PcOf(s, a.r), a);
    && t == m.state.(pcs := t.pcs) && PcOf(t, a.r) == m.pc
    && forall q: nat :: q != a.r ==> PcOf(t, q) == PcOf(s, q)
  }

  lemma StepTakes(s: State, a: Action)
    ensures Took(s, a, Step(s, a))
  {
    hide Move;
  }

  lemma RunThree(s: State, a: Action, b: Action, c: Action)
    ensures
      var s1 := Step(s, a);
      var s2 := Step(s1, b);
      && Run(s, [a, b, c]) == Step(s2, c)
      && Took(s, a, s1) && Took(s1, b, s2) && Took(s2, c, Step(s2, c))
  {
    hide Step, Move;
    assert [a, b, c][..2] == [a, b] && [a, b][..1] == [a] && [a][..0] == [];
    assert Run(s, [a]) == Step(s, a);
    assert Run(s, [a, b]) == Step(Step(s, a), b);
    StepTakes(s, a);
    StepTakes(Step(s, a), b);
    StepTakes(Step(Step(s, a), b), c);
  }

  lemma Reaches(s: State, r: nat)
    requires s.lock == None && PcOf(s, r) == Idle && s.memory.refresh.Some?
    ensures
      var t := Run(s, [Unauthorized(r), Lock(r), Check(r)]);
      && PcOf(t, r) == Exchanging(s.memory.refresh.value) && t == s.(lock := Some(r), pcs := t.pcs)
      && (forall q: nat :: q != r ==> PcOf(t, q) == PcOf(s, q))
  {
    hide Run, Step, PcOf;
    RunThree(s, Unauthorized(r), Lock(r), Check(r));
  }

  /** The rotated pair does not arrive, and another request captures the token the server has replaced. */
  lemma LosesReply(s: State, r: nat, q: nat)
    requires PcOf(s, r) == Exchanging(s.server.current) && s.server.live && s.memory.refresh == Some(s.server.current)
    requires q != r && PcOf(s, q) == Idle
    ensures
      var t := Run(s, [Exchange(r, Rotates(false)), Handle(r), Unauthorized(q)]);
      && t.lock == None && t.failed && t.memory == s.memory && PcOf(t, q) == Captured(s.server.current)
      && t.presented == s.presented + [Presentation(s.server.current, s.server.current, Rotates(false), s.failed)]
      && s.server.current in t.server.replaced
  {
    hide Run, Step, PcOf;
    RunThree(s, Exchange(r, Rotates(false)), Handle(r), Unauthorized(q));
  }

  lemma ShownOnceMore(s: State, r: nat)
    requires s.lock == None && PcOf(s, r).Captured? && s.memory.refresh == Some(PcOf(s, r).secret)
    ensures
      var t := Run(s, [Lock(r), Check(r), Exchange(r, Breaks)]);
      && t.presented == s.presented + [Presentation(PcOf(s, r).secret, s.server.current, Breaks, s.failed)]
      && t.server == s.server
  {
    hide Run, Step, PcOf;
    RunThree(s, Lock(r), Check(r), Exchange(r, Breaks));
  }
}
