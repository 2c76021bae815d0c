/**
 When a request presents a refresh token the server has already replaced: exactly after a rotated
 pair was lost, or when the request captured its token before another pair was adopted. A watcher
 beside the protocol notes the second; it never influences a step.
 */
module RefreshHistory {
  import opened Wrappers
  import opened RefreshProtocol

  /**
   A run, how many rotated pairs memory has adopted in it, how many it had adopted when each request
   captured its token, and of each presentation whether a pair was adopted since that capture.
   */
  datatype History = History(state: State, adopted: nat, seen: map<nat, nat>, behind: seq<bool>)

  function SeenBy(h: History, r: nat): nat {
    if r in h.seen then h.seen[r] else 0
  }

  predicate Late(h: History, r: nat) {
    SeenBy(h, r) < h.adopted
  }

  /** The request puts a rotated refresh token into memory. */
  predicate Adopts(pc: Pc, a: Action) {
    a.SetRefresh? && pc.TokenSet? && pc.refresh.Some?
  }

  function Watch(h: History, a: Action): History {
    var s, t := h.state, Step(h.state, a);
    var pc := PcOf(s, a.r);
    History(
      t,
      if Adopts(pc, a) then h.adopted + 1 else h.adopted,
      if a.Unauthorized? && pc.Idle? then h.seen[a.r := h.adopted] else h.seen,
      if |t.presented| > |s.presented| then h.behind + [Late(h, a.r)] else h.behind)
  }

  function Watched(s: State, actions: seq<Action>): History {
    if actions == [] then History(s, 0, map[], [])
    else Watch(Watched(s, actions[..|actions| - 1]), actions[|actions| - 1])
  }

  lemma {:induction false} WatchedRun(s: State, actions: seq<Action>)
    ensures Watched(s, actions).state == Run(s, actions)
  {
    hide Step;
    if actions != [] {
      WatchedRun(s, actions[..|actions| - 1]);
    }
  }

  // ---- What the presentations tell ----

  /** A rotated pair has not arrived. */
  predicate Lost(shown: seq<Presentation>) {
    exists k :: 0 <= k < |shown| && shown[k].fate == Rotates(false)
  }

  predicate Denied(shown: seq<Presentation>) {
    exists k :: 0 <= k < |shown| && (shown[k].fate.Refuses? || shown[k].fate.Burns?)
  }

  predicate RotatedIn(shown: seq<Presentation>, x: Secret) {
    exists k :: 0 <= k < |shown| && shown[k].fate.Rotates? && shown[k].secret == x
  }

  predicate Fresh(p: Presentation) {
    p.secret == p.current
  }

  lemma OneMore(shown: seq<Presentation>, p: Presentation)
    ensures Lost(shown + [p]) <==> Lost(shown) || p.fate == Rotates(false)
    ensures Denied(shown + [p]) <==> Denied(shown) || p.fate.Refuses? || p.fate.Burns?
    ensures forall x :: RotatedIn(shown + [p], x) <==> RotatedIn(shown, x) || (p.fate.Rotates? && p.secret == x)
  {
    var more := shown + [p];
    assert more[|shown|] == p;
    assert forall k :: 0 <= k < |shown| ==> more[k] == shown[k];
  }

  // ---- The invariant ----

  /** A token of this run: once it is gone the server has replaced it, before that it is current. */
  ghost predicate Token(s: State, first: Secret, gone: bool, x: Secret) {
    first <= x && if gone then x in s.server.replaced else x == s.server.current
  }

  /** A rotated pair is on its way into memory. */
  predicate Carries(pc: Pc) {
    match pc
    case Replied(Granted(_, refresh)) => refresh.Some?
    case TokenSet(_, refresh) => refresh.Some?
    case _ => false
  }

  predicate Flying(s: State) {
    s.lock.Some? && Carries(PcOf(s, s.lock.value))
  }

  ghost predicate MemoryFacts(s: State, first: Secret, flying: bool) {
    match s.memory.refresh
    case None => Denied(s.presented)
    case Some(x) => Token(s, first, Lost(s.presented) || flying, x)
  }

  ghost predicate PcFacts(s: State, first: Secret, flying: bool, late: bool, pc: Pc) {
    var gone := Lost(s.presented) || flying || late;
    match pc
    case Captured(x) => Token(s, first, gone, x)
    case Checking(x) => Token(s, first, gone, x)
    case Exchanging(x) => Token(s, first, gone, x) && (s.memory.refresh.Some? ==> s.memory.refresh == Some(x))
    case Replied(Granted(_, Some(x))) => !Lost(s.presented) && Token(s, first, false, x)
    case Replied(Denied) => Denied(s.presented)
    case TokenSet(_, Some(x)) => !Lost(s.presented) && Token(s, first, false, x)
    case Clearing => Denied(s.presented)
    case _ => true
  }

  ghost predicate ServerFacts(s: State, first: Secret) {
    && first <= s.server.current < s.minted
    && (forall x :: x in s.server.replaced ==> x < s.minted && x != s.server.current)
    && (forall x :: x in s.server.replaced && first <= x ==> RotatedIn(s.presented, x))
    && (forall x :: RotatedIn(s.presented, x) ==> x in s.server.replaced)
  }

  /** The theorem, presentation by presentation. */
  ghost predicate LogFacts(s: State, behind: seq<bool>) {
    && |behind| == |s.presented|
    && forall k :: 0 <= k < |behind| ==> EntryFacts(s.server.current, s.presented[..k], s.presented[k], behind[k])
  }

  ghost predicate EntryFacts(now: Secret, earlier: seq<Presentation>, p: Presentation, behind: bool) {
    && (Fresh(p) <==> !Lost(earlier) && !behind)
    && (Fresh(p) <==> !RotatedIn(earlier, p.secret))
    && (behind && !Lost(earlier) ==> Denied(earlier))
    && (Lost(earlier) ==> !p.fate.Rotates? && p.current == now)
  }

  ghost predicate Kept(h: History, first: Secret) {
    && LockInv(h.state)
    && ServerFacts(h.state, first)
    && MemoryFacts(h.state, first, Flying(h.state))
    && (forall r: nat :: SeenBy(h, r) <= h.adopted && PcFacts(h.state, first, Flying(h.state), Late(h, r), PcOf(h.state, r)))
    && LogFacts(h.state, h.behind)
  }

  // ---- One exchange ----

  lemma ExchangeOwn(s: State, secret: Secret, fate: Fate, first: Secret, late: bool)
    requires ServerFacts(s, first) && MemoryFacts(s, first, false) && Possible(s, secret, fate)
    requires PcFacts(s, first, false, late, Exchanging(secret))
    ensures
      var m := Exchanged(s, secret, fate);
      && MemoryFacts(m.state, first, Carries(m.pc)) && PcFacts(m.state, first, Carries(m.pc), late, m.pc)
      && ServerFacts(m.state, first)
  {
    hide Lost, Denied, RotatedIn;
    OneMore(s.presented, Presentation(secret, s.server.current, fate, s.failed));
  }

  /** A token another request has captured. */
  lemma ExchangeOther(s: State, secret: Secret, fate: Fate, first: Secret, late: bool, x: Secret)
    requires Possible(s, secret, fate) && Token(s, first, Lost(s.presented) || late, x)
    ensures
      var m := Exchanged(s, secret, fate);
      Token(m.state, first, Lost(m.state.presented) || Carries(m.pc) || late, x)
  {
    hide Lost;
    OneMore(s.presented, Presentation(secret, s.server.current, fate, s.failed));
  }

  lemma ExchangeLogged(s: State, secret: Secret, fate: Fate, first: Secret, late: bool, behind: seq<bool>)
    requires ServerFacts(s, first) && MemoryFacts(s, first, false) && Possible(s, secret, fate) && LogFacts(s, behind)
    requires PcFacts(s, first, false, late, Exchanging(secret))
    ensures LogFacts(Exchanged(s, secret, fate).state, behind + [late])
  {
    hide Lost, Denied, RotatedIn, EntryFacts, MemoryFacts, PcFacts, ServerFacts;
    var t := Exchanged(s, secret, fate).state;
    var shown, p := s.presented, Presentation(secret, s.server.current, fate, s.failed);
    assert t.presented == shown + [p];
    forall k | 0 <= k <= |shown|
      ensures EntryFacts(t.server.current, t.presented[..k], t.presented[k], (behind + [late])[k])
    {
      if k < |shown| {
        assert t.presented[..k] == shown[..k];
        assert EntryFacts(s.server.current, shown[..k], shown[k], behind[k]);
        EntryStays(s, secret, fate, first, late, k, behind[k]);
      } else {
        assert t.presented[..k] == shown;
        NewEntry(s, secret, fate, first, late);
      }
    }
  }

  lemma NewEntry(s: State, secret: Secret, fate: Fate, first: Secret, late: bool)
    requires ServerFacts(s, first) && MemoryFacts(s, first, false) && Possible(s, secret, fate)
    requires PcFacts(s, first, false, late, Exchanging(secret))
    ensures
      var p := Presentation(secret, s.server.current, fate, s.failed);
      EntryFacts(Exchanged(s, secret, fate).state.server.current, s.presented, p, late)
  {
    hide Lost, Denied, RotatedIn;
  }

  /** An earlier entry: once a pair is lost the server's token does not change. */
  lemma EntryStays(s: State, secret: Secret, fate: Fate, first: Secret, late: bool, k: nat, behind: bool)
    requires Possible(s, secret, fate) && PcFacts(s, first, false, late, Exchanging(secret)) && ServerFacts(s, first)
    requires k < |s.presented| && EntryFacts(s.server.current, s.presented[..k], s.presented[k], behind)
    ensures EntryFacts(Exchanged(s, secret, fate).state.server.current, s.presented[..k], s.presented[k], behind)
  {
    hide Lost, Denied, RotatedIn;
    if Lost(s.presented[..k]) {
      LostStays(s.presented, k);
    }
  }

  lemma LostStays(shown: seq<Presentation>, k: nat)
    requires k <= |shown| && Lost(shown[..k])
    ensures Lost(shown)
  {
    var j :| 0 <= j < k && shown[..k][j].fate == Rotates(false);
    assert shown[j].fate == Rotates(false);
  }

  // ---- One step ----

  /** The step is an exchange that takes place. */
  predicate Exchanges(s: State, pc: Pc, a: Action) {
    pc.Exchanging? && a.Exchange? && Possible(s, pc.secret, a.fate)
  }

  lemma OwnMemory(s: State, pc: Pc, a: Action, first: Secret, late: bool)
    requires MemoryFacts(s, first, Carries(pc)) && PcFacts(s, first, Carries(pc), late, pc) && !Exchanges(s, pc, a)
    ensures var m := Move(s, pc, a); MemoryFacts(m.state, first, Carries(m.pc))
  {
    hide Exchanged, Possible, Lost, Denied;
  }

  lemma OwnServer(s: State, pc: Pc, a: Action, first: Secret)
    requires ServerFacts(s, first) && !Exchanges(s, pc, a)
    ensures ServerFacts(Move(s, pc, a).state, first)
  {
    hide Exchanged, Possible, ServerFacts;
    OnlyServerMatters(s, Move(s, pc, a).state, first);
  }

  lemma OnlyServerMatters(s: State, t: State, first: Secret)
    requires t.server == s.server && t.minted == s.minted && t.presented == s.presented
    ensures ServerFacts(t, first) == ServerFacts(s, first)
  {
    hide RotatedIn;
  }

  lemma OwnPlace(s: State, pc: Pc, a: Action, first: Secret, late: bool)
    requires MemoryFacts(s, first, Carries(pc)) && PcFacts(s, first, Carries(pc), late, pc)
    requires InCritical(pc) && !Exchanges(s, pc, a)
    ensures var m := Move(s, pc, a); PcFacts(m.state, first, Carries(m.pc), late, m.pc)
  {
    hide Exchanged, Possible, Lost, Denied;
  }

  /** A step inside the critical section, for the request that takes it. */
  lemma OwnMove(s: State, pc: Pc, a: Action, first: Secret, late: bool)
    requires ServerFacts(s, first) && MemoryFacts(s, first, Carries(pc)) && PcFacts(s, first, Carries(pc), late, pc)
    requires InCritical(pc)
    ensures
      var m := Move(s, pc, a);
      && MemoryFacts(m.state, first, Carries(m.pc)) && PcFacts(m.state, first, Carries(m.pc), late, m.pc)
      && ServerFacts(m.state, first)
  {
    hide Exchanged, Possible, ServerFacts, MemoryFacts, PcFacts;
    if Exchanges(s, pc, a) {
      ExchangeOwn(s, pc.secret, a.fate, first, late);
    } else {
      OwnMemory(s, pc, a, first, late);
      OwnServer(s, pc, a, first);
      OwnPlace(s, pc, a, first, late);
    }
  }

  /** The same step, for a request that waits with a captured token. */
  lemma OtherMove(s: State, pc: Pc, a: Action, first: Secret, late: bool, x: Secret)
    requires InCritical(pc) && Token(s, first, Lost(s.presented) || Carries(pc) || late, x)
    ensures
      var m := Move(s, pc, a);
      Token(m.state, first, Lost(m.state.presented) || Carries(m.pc) || late || Adopts(pc, a), x)
  {
    hide Exchanged, Possible, Lost;
    if Exchanges(s, pc, a) {
      ExchangeOther(s, pc.secret, a.fate, first, late, x);
    }
  }

  lemma LogMove(s: State, pc: Pc, a: Action, first: Secret, late: bool, behind: seq<bool>)
    requires ServerFacts(s, first) && MemoryFacts(s, first, Carries(pc)) && PcFacts(s, first, Carries(pc), late, pc)
    requires LogFacts(s, behind)
    ensures
      var t := Move(s, pc, a).state;
      LogFacts(t, if |t.presented| > |s.presented| then behind + [late] else behind)
  {
    hide Exchanged, Possible, EntryFacts;
    if Exchanges(s, pc, a) {
      ExchangeLogged(s, pc.secret, a.fate, first, late, behind);
    } else {
      MovePresented(s, pc, a);
    }
  }

  /** Outside the critical section a request captures what memory holds, or takes the free lock. */
  lemma QuietOwn(s: State, pc: Pc, a: Action, first: Secret, flying: bool, late: bool)
    requires MemoryFacts(s, first, flying) && PcFacts(s, first, flying, late, pc) && !InCritical(pc)
    ensures PcFacts(s, first, flying, late && !(a.Unauthorized? && pc.Idle?), Move(s, pc, a).pc)
    ensures !Carries(Move(s, pc, a).pc)
  {
    hide Exchanged, Possible, Lost, Denied;
  }

  lemma FlyingAfter(s: State, a: Action)
    requires LockInv(s)
    ensures InCritical(PcOf(s, a.r)) ==>
      && Flying(s) == Carries(PcOf(s, a.r))
      && Flying(Step(s, a)) == Carries(Move(s, PcOf(s, a.r), a).pc)
    ensures !InCritical(PcOf(s, a.r)) && !Carries(Move(s, PcOf(s, a.r), a).pc) ==> Flying(Step(s, a)) == Flying(s)
  {
    hide Move;
    LockHolder(s, a.r);
    LockStep(s, a);
    LockHolder(Step(s, a), a.r);
    MoveLock(s, PcOf(s, a.r), a);
  }

  lemma OnlySharedMatters(s: State, pcs: map<nat, Pc>, lock: Option<nat>, first: Secret, flying: bool)
    ensures
      var t := s.(pcs := pcs, lock := lock);
      && ServerFacts(t, first) == ServerFacts(s, first) && MemoryFacts(t, first, flying) == MemoryFacts(s, first, flying)
      && (forall late, pc :: PcFacts(t, first, flying, late, pc) == PcFacts(s, first, flying, late, pc))
      && (forall behind :: LogFacts(t, behind) == LogFacts(s, behind))
  {
  }

  lemma StampsKept(h: History, a: Action, q: nat)
    requires forall r: nat :: SeenBy(h, r) <= h.adopted
    ensures SeenBy(Watch(h, a), q) <= Watch(h, a).adopted
    ensures q != a.r || !(a.Unauthorized? && PcOf(h.state, a.r).Idle?) ==>
      Late(Watch(h, a), q) == (Late(h, q) || Adopts(PcOf(h.state, a.r), a))
    ensures a.Unauthorized? && PcOf(h.state, a.r).Idle? ==> !Late(Watch(h, a), a.r)
  {
    hide Step;
    assert SeenBy(h, q) <= h.adopted;
  }

  /** A request that holds no token yet to present does not care what was adopted. */
  lemma AdoptingOwn(s: State, pc: Pc, a: Action, t: State, first: Secret, flying: bool, late: bool)
    requires Adopts(pc, a)
    ensures PcFacts(t, first, flying, late, Move(s, pc, a).pc)
  {
  }

  lemma CriticalOther(h: History, a: Action, first: Secret, q: nat)
    requires Kept(h, first) && InCritical(PcOf(h.state, a.r)) && q != a.r
    ensures
      var m := Move(h.state, PcOf(h.state, a.r), a);
      PcFacts(m.state, first, Carries(m.pc), Late(Watch(h, a), q), PcOf(h.state, q))
  {
    hide Move, ServerFacts, MemoryFacts, LogFacts, Lost, Denied, Token, Watch;
    var s := h.state;
    LockHolder(s, a.r);
    LockHolder(s, q);
    FlyingAfter(s, a);
    StampsKept(h, a, q);
    assert PcFacts(s, first, Flying(s), Late(h, q), PcOf(s, q));
    if PcOf(s, q).Captured? {
      OtherMove(s, PcOf(s, a.r), a, first, Late(h, q), PcOf(s, q).secret);
    }
  }

  lemma CriticalStep(h: History, a: Action, first: Secret, q: nat)
    requires Kept(h, first) && InCritical(PcOf(h.state, a.r))
    ensures
      var n := Watch(h, a);
      && ServerFacts(n.state, first) && MemoryFacts(n.state, first, Flying(n.state))
      && PcFacts(n.state, first, Flying(n.state), Late(n, q), PcOf(n.state, q))
  {
    hide Move, ServerFacts, MemoryFacts, PcFacts, LogFacts;
    var s, pc := h.state, PcOf(h.state, a.r);
    var m := Move(s, pc, a);
    FlyingAfter(s, a);
    OnlySharedMatters(m.state, s.pcs[a.r := m.pc], m.state.lock, first, Carries(m.pc));
    assert PcFacts(s, first, Flying(s), Late(h, a.r), pc);
    OwnMove(s, pc, a, first, Late(h, a.r));
    StampsKept(h, a, q);
    if q != a.r {
      CriticalOther(h, a, first, q);
    } else if Adopts(pc, a) {
      AdoptingOwn(s, pc, a, m.state, first, Carries(m.pc), Late(Watch(h, a), q));
    }
  }

  lemma QuietStep(h: History, a: Action, first: Secret, q: nat)
    requires Kept(h, first) && !InCritical(PcOf(h.state, a.r))
    ensures
      var n := Watch(h, a);
      && ServerFacts(n.state, first) && MemoryFacts(n.state, first, Flying(n.state))
      && PcFacts(n.state, first, Flying(n.state), Late(n, q), PcOf(n.state, q))
  {
    hide Move, ServerFacts, MemoryFacts, PcFacts, LogFacts;
    var s, pc := h.state, PcOf(h.state, a.r);
    var m := Move(s, pc, a);
    assert PcFacts(s, first, Flying(s), Late(h, a.r), pc) && PcFacts(s, first, Flying(s), Late(h, q), PcOf(s, q));
    QuietOwn(s, pc, a, first, Flying(s), Late(h, a.r));
    QuietMove(s, pc, a);
    FlyingAfter(s, a);
    OnlySharedMatters(s, s.pcs[a.r := m.pc], m.state.lock, first, Flying(s));
    StampsKept(h, a, q);
  }

  lemma KeptStep(h: History, a: Action, first: Secret)
    requires Kept(h, first)
    ensures Kept(Watch(h, a), first)
  {
    hide Move, ServerFacts, MemoryFacts, PcFacts, LogFacts, LockInv, Watch;
    var s, pc, n := h.state, PcOf(h.state, a.r), Watch(h, a);
    forall q: nat
      ensures ServerFacts(n.state, first) && MemoryFacts(n.state, first, Flying(n.state))
      ensures SeenBy(n, q) <= n.adopted && PcFacts(n.state, first, Flying(n.state), Late(n, q), PcOf(n.state, q))
    {
      StampsKept(h, a, q);
      if InCritical(pc) {
        CriticalStep(h, a, first, q);
      } else {
        QuietStep(h, a, first, q);
      }
    }
    assert SeenBy(n, 0) <= n.adopted;
    LogStep(h, a, first);
  }

  lemma LogStep(h: History, a: Action, first: Secret)
    requires Kept(h, first)
    ensures LockInv(Watch(h, a).state) && LogFacts(Watch(h, a).state, Watch(h, a).behind)
  {
    hide Move, ServerFacts, MemoryFacts, PcFacts, LogFacts, LockInv;
    var s, pc := h.state, PcOf(h.state, a.r);
    var m := Move(s, pc, a);
    LockStep(s, a);
    OnlySharedMatters(m.state, s.pcs[a.r := m.pc], m.state.lock, first, false);
    assert PcFacts(s, first, Flying(s), Late(h, a.r), pc);
    if InCritical(pc) {
      FlyingAfter(s, a);
      LogMove(s, pc, a, first, Late(h, a.r), h.behind);
    } else {
      QuietMove(s, pc, a);
      OnlySharedMatters(s, s.pcs[a.r := m.pc], m.state.lock, first, false);
    }
  }

  lemma {:induction false} KeptAlways(s: State, actions: seq<Action>)
    requires Initial(s)
    ensures Kept(Watched(s, actions), s.server.current)
  {
    hide Watch;
    if actions == [] {
      KeptAtFirst(s);
    } else {
      KeptAlways(s, actions[..|actions| - 1]);
      KeptStep(Watched(s, actions[..|actions| - 1]), actions[|actions| - 1], s.server.current);
    }
  }

  lemma KeptAtFirst(s: State)
    requires Initial(s)
    ensures Kept(History(s, 0, map[], []), s.server.current)
  {
  }

  // ---- When a replaced token is presented ----

  /**
   Failures included, a presentation shows the current token exactly when no rotated pair was lost
   before and none was adopted since its request captured the token. Otherwise what it shows is a
   token the server rotated earlier in the run.
   */
  lemma PresentsCurrentExactly(s: State, actions: seq<Action>)
    requires Initial(s)
    ensures
      var shown, behind := Run(s, actions).presented, Watched(s, actions).behind;
      && |behind| == |shown|
      && forall k :: 0 <= k < |shown| ==>
           && (shown[k].secret == shown[k].current <==> !Lost(shown[..k]) && !behind[k])
           && (shown[k].secret == shown[k].current <==> !RotatedIn(shown[..k], shown[k].secret))
  {
    hide Watch, Step, Lost, RotatedIn;
    WatchedRun(s, actions);
    KeptAlways(s, actions);
  }

  /** As long as the server denies nobody, losing a rotated pair is all that can go wrong. */
  lemma WithoutDenialsExactly(s: State, actions: seq<Action>, k: nat)
    requires Initial(s) && k < |Run(s, actions).presented| && !Denied(Run(s, actions).presented[..k])
    ensures
      var shown := Run(s, actions).presented;
      shown[k].secret == shown[k].current <==> !Lost(shown[..k])
  {
    hide Watch, Step, Lost, RotatedIn, Denied;
    WatchedRun(s, actions);
    KeptAlways(s, actions);
  }

  /** And nothing mends it: from then on the server rotates no more, and only replaced tokens are shown. */
  lemma NothingMendsALoss(s: State, actions: seq<Action>, j: nat, k: nat)
    requires Initial(s) && j < k < |Run(s, actions).presented|
    requires Run(s, actions).presented[j].fate == Rotates(false)
    ensures
      var t := Run(s, actions);
      var p := t.presented[k];
      && !p.fate.Rotates? && RotatedIn(t.presented[..k], p.secret)
      && p.secret != p.current == t.server.current
  {
    hide Watch, Step, RotatedIn, Denied;
    WatchedRun(s, actions);
    KeptAlways(s, actions);
    var t := Run(s, actions);
    assert t.presented[..k][j].fate == Rotates(false);
    assert EntryFacts(t.server.current, t.presented[..k], t.presented[k], Watched(s, actions).behind[k]);
  }

  // ---- A run that goes wrong without any loss ----

  /** Request 2 waits with the first token while request 0 rotates it and request 1 is refused. */
  const AFTER_DENIAL: seq<Action> := [Unauthorized(2)]
    + [Unauthorized(0), Lock(0), Check(0)]
    + [Exchange(0, Rotates(true)), Handle(0), SetRefresh(0)]
    + [SaveAccess(0, true), SaveRefresh(0, true), Finish(0)]
    + [Unauthorized(1), Lock(1), Check(1)]
    + [Exchange(1, Refuses), Handle(1), ClearToken(1)]
    + [Lock(2), Check(2), Exchange(2, Burns)]

  /** Memory is empty when request 2 checks it, so the rotated token looks untouched and is shown again. */
  lemma DenialRepresentsReplaced(s: State)
    requires Initial(s)
    ensures
      var t := Run(s, AFTER_DENIAL);
      var shown, behind := t.presented, Watched(s, AFTER_DENIAL).behind;
      && |shown| == |behind| == 3 && shown[0].fate == Rotates(true) && !Lost(shown)
      && shown[2].secret == shown[0].secret && shown[2].secret in t.server.replaced && behind[2]
  {
    hide Step, Watch, RotatedIn, Watched, Run;
    WaitsAndRotates(s);
    var s1 := Run(s, [Unauthorized(2)]);
    var s4 := Run(s1, [Unauthorized(0), Lock(0), Check(0)]);
    var s7 := Run(s4, [Exchange(0, Rotates(true)), Handle(0), SetRefresh(0)]);
    var s10 := Run(s7, [SaveAccess(0, true), SaveRefresh(0, true), Finish(0)]);
    var s13 := Run(s10, [Unauthorized(1), Lock(1), Check(1)]);
    Reaches(s10, 1);
    var s16 := Run(s13, [Exchange(1, Refuses), Handle(1), ClearToken(1)]);
    Refused(s13, 1);
    ShownAgain(s16, 2, s.server.current);
    var n := [Unauthorized(2)];
    RunAppend(s, n, [Unauthorized(0), Lock(0), Check(0)]);
    n := n + [Unauthorized(0), Lock(0), Check(0)];
    RunAppend(s, n, [Exchange(0, Rotates(true)), Handle(0), SetRefresh(0)]);
    n := n + [Exchange(0, Rotates(true)), Handle(0), SetRefresh(0)];
    RunAppend(s, n, [SaveAccess(0, true), SaveRefresh(0, true), Finish(0)]);
    n := n + [SaveAccess(0, true), SaveRefresh(0, true), Finish(0)];
    RunAppend(s, n, [Unauthorized(1), Lock(1), Check(1)]);
    n := n + [Unauthorized(1), Lock(1), Check(1)];
    RunAppend(s, n, [Exchange(1, Refuses), Handle(1), ClearToken(1)]);
    n := n + [Exchange(1, Refuses), Handle(1), ClearToken(1)];
    RunAppend(s, n, [Lock(2), Check(2), Exchange(2, Burns)]);
    PresentsCurrentExactly(s, AFTER_DENIAL);
    NoneLost(Run(s, AFTER_DENIAL).presented);
  }

  lemma NoneLost(shown: seq<Presentation>)
    requires forall k :: 0 <= k < |shown| ==> shown[k].fate != Rotates(false)
    ensures !Lost(shown) && forall k :: 0 <= k <= |shown| ==> !Lost(shown[..k])
  {
  }

  /** The first request's part of the run, with request 2 holding the first token throughout. */
  lemma WaitsAndRotates(s: State)
    requires Initial(s)
    ensures
      var s1 := Run(s, [Unauthorized(2)]);
      var s4 := Run(s1, [Unauthorized(0), Lock(0), Check(0)]);
      var s7 := Run(s4, [Exchange(0, Rotates(true)), Handle(0), SetRefresh(0)]);
      var t := Run(s7, [SaveAccess(0, true), SaveRefresh(0, true), Finish(0)]);
      && t.lock == None && t.memory.refresh == Some(s.minted + 1)
      && t.server == Server(s.minted + 1, s.server.replaced + {s.server.current}, true)
      && t.presented == [Presentation(s.server.current, s.server.current, Rotates(true), false)]
      && PcOf(t, 2) == Captured(s.server.current) && PcOf(t, 1) == Idle
  {
    hide Step, Run;
    Waits(s, 2);
    var s1 := Run(s, [Unauthorized(2)]);
    Reaches(s1, 0);
    var s4 := Run(s1, [Unauthorized(0), Lock(0), Check(0)]);
    Rotated(s4, 0);
    var s7 := Run(s4, [Exchange(0, Rotates(true)), Handle(0), SetRefresh(0)]);
    Settled(s7, 0);
  }

  lemma Waits(s: State, r: nat)
    requires PcOf(s, r) == Idle && s.memory.refresh.Some?
    ensures
      var t := Run(s, [Unauthorized(r)]);
      && PcOf(t, r) == Captured(s.memory.refresh.value) && t == s.(pcs := t.pcs)
      && (forall q: nat :: q != r ==> PcOf(t, q) == PcOf(s, q))
  {
    assert Run(s, [Unauthorized(r)][..0]) == s;
  }

  lemma Rotated(s: State, r: nat)
    requires PcOf(s, r) == Exchanging(s.server.current) && s.server.live
    ensures
      var t := Run(s, [Exchange(r, Rotates(true)), Handle(r), SetRefresh(r)]);
      && t.memory.refresh == Some(s.minted + 1) && PcOf(t, r) == RefreshSet(s.minted, Some(s.minted + 1))
      && t.server == s.server.(current := s.minted + 1, replaced := s.server.replaced + {s.server.current})
      && t.presented == s.presented + [Presentation(s.server.current, s.server.current, Rotates(true), s.failed)]
      && t.failed == s.failed && (forall q: nat :: q != r ==> PcOf(t, q) == PcOf(s, q))
  {
    hide Run, Step, PcOf;
    RunThree(s, Exchange(r, Rotates(true)), Handle(r), SetRefresh(r));
  }

  /** Saving a new pair touches the store only. */
  lemma SavesOnly(s: State, pc: Pc, a: Action)
    requires (pc.RefreshSet? && a.SaveAccess?) || (pc.AccessSaved? && a.SaveRefresh?)
    ensures
      var m := Move(s, pc, a);
      && m.pc == (if pc.RefreshSet? then AccessSaved(pc.access, pc.refresh) else Retrying(pc.access))
      && m.state.memory == s.memory && m.state.server == s.server && m.state.presented == s.presented
  {
    hide Exchanged, Possible;
  }

  lemma Finishes(s: State, access: Secret, r: nat)
    ensures Move(s, Retrying(access), Finish(r)) == Leave(s)
  {
  }

  lemma Settled(s: State, r: nat)
    requires PcOf(s, r).RefreshSet?
    ensures
      var t := Run(s, [SaveAccess(r, true), SaveRefresh(r, true), Finish(r)]);
      && t.lock == None && t.memory == s.memory && t.server == s.server && t.presented == s.presented
      && (forall q: nat :: q != r ==> PcOf(t, q) == PcOf(s, q))
  {
    hide Run, Step, PcOf, Move;
    RunThree(s, SaveAccess(r, true), SaveRefresh(r, true), Finish(r));
    var s1 := Step(s, SaveAccess(r, true));
    var s2 := Step(s1, SaveRefresh(r, true));
    SavesOnly(s, PcOf(s, r), SaveAccess(r, true));
    SavesOnly(s1, PcOf(s1, r), SaveRefresh(r, true));
    Finishes(s2, PcOf(s, r).access, r);
  }

  lemma Refused(s: State, r: nat)
    requires PcOf(s, r).Exchanging? && PcOf(s, r).secret !in s.server.replaced
    ensures
      var t := Run(s, [Exchange(r, Refuses), Handle(r), ClearToken(r)]);
      && t.lock == None && t.memory.refresh == None && t.server == s.server
      && t.presented == s.presented + [Presentation(PcOf(s, r).secret, s.server.current, Refuses, s.failed)]
      && (forall q: nat :: q != r ==> PcOf(t, q) == PcOf(s, q))
  {
    hide Run, Step, PcOf;
    RunThree(s, Exchange(r, Refuses), Handle(r), ClearToken(r));
  }

  lemma ShownAgain(s: State, r: nat, x: Secret)
    requires s.lock == None && PcOf(s, r) == Captured(x) && s.memory.refresh == None && x in s.server.replaced
    ensures
      var t := Run(s, [Lock(r), Check(r), Exchange(r, Burns)]);
      && t.presented == s.presented + [Presentation(x, s.server.current, Burns, s.failed)]
      && t.server.replaced == s.server.replaced
  {
    hide Run, Step, PcOf;
    RunThree(s, Lock(r), Check(r), Exchange(r, Burns));
  }
}
