/**
 Running a subprocess under heartbeats: the child's two pipes, one draining thread for each, and
 the main loop that polls for the exit, interleaved step by step. The main thread is modelled from
 its polling loop on.
 */
module HeartbeatRunner {
  import opened Wrappers

  type Line = string

  datatype Fd = Out | Err

  /** Which lines cannot be decoded, and for which lines `on_chunk` raises what the drain does not catch. */
  datatype Guards = Guards(bad: Line -> bool, fatal: (Fd, Line) -> bool)

  /** Where a drain is: reading, calling `on_chunk`, closing its stream, counting itself off, gone. */
  datatype Drain = Reading | Calling(line: Line) | Closing | Counting | Finished

  /**
   One pipe with its drain. `writable`: some process still holds the writing end. `written` is
   everything that ever entered the pipe, `shown` what `on_chunk` was called with.
   */
  datatype Pipe = Pipe(
    writable: bool,
    written: seq<Line>,
    buffer: seq<Line>,
    sink: seq<Line>,
    shown: seq<Line>,
    drain: Drain,
    closed: bool,
    aborted: bool)

  datatype Output = Output(rc: int, stdout: seq<Line>, stderr: seq<Line>)

  datatype Main =
    | Polling
    | Running                                   // not exited at the last poll
    | Waiting                                   // after the heartbeat
    | JoiningOut(rc: int)
    | JoiningErr(rc: int, cleanOut: bool)
    | Collecting(rc: int, cleanOut: bool, cleanErr: bool)
    | TimedOut
    | Handling                                  // the except block, before it polls
    | Ending                                    // the except block, after the kill
    | Returned(output: Output, cleanOut: bool, cleanErr: bool)
    | Raised

  datatype State = State(
    out: Pipe,
    err: Pipe,
    remaining: int,
    drainsDone: bool,
    exit: Option<int>,
    main: Main,
    sawExit: bool,
    killIssued: bool)

  datatype Action =
    | Write(fd: Fd, line: Line)
    | HangUp(fd: Fd)
    | Exit(rc: int)
    | Read(fd: Fd)
    | ReadAhead(fd: Fd)
    | ChunkDone(fd: Fd)
    | CloseStream(fd: Fd)
    | CountOff(fd: Fd)
    | Poll
    | Tick(late: bool)
    | Wake
    | Join(done: bool)
    | Collect
    | Interrupt
    | Handle(pollFails: bool)

  const FRESH := Pipe(true, [], [], [], [], Reading, false, false)

  const START := State(FRESH, FRESH, 2, false, None, Polling, false, false)

  function PipeOf(s: State, fd: Fd): Pipe {
    if fd == Out then s.out else s.err
  }

  function With(s: State, fd: Fd, p: Pipe): State {
    if fd == Out then s.(out := p) else s.(err := p)
  }

  predicate HoldsBad(g: Guards, lines: seq<Line>) {
    exists line :: line in lines && g.bad(line)
  }

  /**
   What the writers and the drain of one pipe do; an action that is not enabled changes nothing.
   The decoder reads ahead, so a bad line can fail the drain before its turn, and does so at its turn.
   */
  function PipeStep(g: Guards, p: Pipe, a: Action): Pipe {
    match a
    case Write(_, line) =>
      if p.writable && !p.closed then p.(written := p.written + [line], buffer := p.buffer + [line]) else p
    case HangUp(_) => p.(writable := false)
    case Read(_) =>
      if p.drain != Reading then p
      else if p.buffer != [] then
        if g.bad(p.buffer[0]) then p.(drain := Closing, aborted := true)
        else p.(buffer := p.buffer[1..], sink := p.sink + [p.buffer[0]], drain := Calling(p.buffer[0]))
      else if p.writable then p
      else p.(drain := Closing)
    case ReadAhead(_) =>
      if p.drain == Reading && HoldsBad(g, p.buffer) then p.(drain := Closing, aborted := true) else p
    case ChunkDone(fd) =>
      if !p.drain.Calling? then p
      else
        var q := p.(shown := p.shown + [p.drain.line]);
        if g.fatal(fd, p.drain.line) then q.(drain := Closing, aborted := true) else q.(drain := Reading)
    case CloseStream(_) => if p.drain == Closing then p.(closed := true, drain := Counting) else p
    case _ => p
  }

  /** The main thread; `Interrupt` is any exception raised in the try block. */
  function MainStep(s: State, a: Action): State {
    match a
    case Poll =>
      if s.main != Polling then s
      else if s.exit.Some? then s.(main := JoiningOut(s.exit.value), sawExit := true)
      else s.(main := Running)
    case Tick(late) =>
      if s.main != Running then s
      else if late then s.(main := TimedOut, killIssued := true)
      else s.(main := Waiting)
    case Wake => if s.main == Waiting then s.(main := Polling) else s
    case Join(done) =>
      if s.main.JoiningOut? && (done ==> s.out.drain == Finished) then s.(main := JoiningErr(s.main.rc, done))
      else if s.main.JoiningErr? && (done ==> s.err.drain == Finished) then
        s.(main := Collecting(s.main.rc, s.main.cleanOut, done))
      else if s.main == TimedOut then s.(main := Handling)
      else if s.main == Ending then s.(main := Raised)
      else s
    case Collect =>
      if !s.main.Collecting? then s
      else s.(main := Returned(Output(s.main.rc, s.out.sink, s.err.sink), s.main.cleanOut, s.main.cleanErr))
    case Interrupt =>
      if s.main.Handling? || s.main.Ending? || s.main.Returned? || s.main.Raised? then s else s.(main := Handling)
    case Handle(pollFails) =>
      if s.main != Handling then s
      else if !pollFails && s.exit.Some? then s.(main := Ending, sawExit := true)
      else s.(main := Ending, killIssued := true)
    case _ => s
  }

  function CountOffStep(s: State, fd: Fd): State {
    var p := PipeOf(s, fd);
    if p.drain != Counting then s
    else
      var t := With(s, fd, p.(drain := Finished));
      t.(remaining := s.remaining - 1, drainsDone := s.drainsDone || s.remaining - 1 <= 0)
  }

  function Step(g: Guards, s: State, a: Action): State {
    match a
    case Exit(rc) => if s.exit == None then s.(exit := Some(rc)) else s
    case CountOff(fd) => CountOffStep(s, fd)
    case Poll => MainStep(s, a)
    case Tick(_) => MainStep(s, a)
    case Wake => MainStep(s, a)
    case Join(_) => MainStep(s, a)
    case Collect => MainStep(s, a)
    case Interrupt => MainStep(s, a)
    case Handle(_) => MainStep(s, a)
    case _ => With(s, a.fd, PipeStep(g, PipeOf(s, a.fd), a))
  }

  predicate OnPipe(a: Action) {
    a.Write? || a.HangUp? || a.Read? || a.ReadAhead? || a.ChunkDone? || a.CloseStream?
  }

  function RunFrom(g: Guards, s: State, actions: seq<Action>): State {
    if actions == [] then s
    else Step(g, RunFrom(g, s, actions[..|actions| - 1]), actions[|actions| - 1])
  }

  function Run(g: Guards, actions: seq<Action>): State {
    RunFrom(g, START, actions)
  }

  // ---- One pipe ----

  /** The line makes the drain of this stream give up. */
  predicate Troubles(g: Guards, fd: Fd, line: Line) {
    g.bad(line) || g.fatal(fd, line)
  }

  /** `on_chunk` raised for the last line read. */
  predicate DiedOnLast(g: Guards, fd: Fd, p: Pipe) {
    p.sink != [] && p.shown == p.sink && g.fatal(fd, p.sink[|p.sink| - 1])
  }

  predicate Past(p: Pipe) {
    p.drain.Closing? || p.drain.Counting? || p.drain.Finished?
  }

  /** The lines read are the first ones written, in order, none of them bad and at most the last one fatal. */
  ghost predicate PipeFlow(g: Guards, fd: Fd, p: Pipe) {
    && p.written == p.sink + p.buffer
    && p.sink == p.shown + (if p.drain.Calling? then [p.drain.line] else [])
    && (forall line :: line in p.sink ==> !g.bad(line))
    && (forall k :: 0 <= k < |p.shown| && (k + 1 < |p.shown| || !Past(p)) ==> !g.fatal(fd, p.shown[k]))
  }

  /** A drain is past its last read for one of three reasons. */
  ghost predicate PipeEnd(g: Guards, fd: Fd, p: Pipe) {
    && (Past(p) && !p.aborted ==> p.buffer == [] && !p.writable)
    && (Past(p) && p.aborted ==> HoldsBad(g, p.buffer) || DiedOnLast(g, fd, p))
    && (p.drain.Counting? || p.drain.Finished? <==> p.closed)
    && (p.aborted ==> Past(p))
  }

  ghost predicate PipeInv(g: Guards, fd: Fd, p: Pipe) {
    PipeFlow(g, fd, p) && PipeEnd(g, fd, p)
  }

  lemma ReadFlows(g: Guards, fd: Fd, p: Pipe, a: Action)
    requires PipeInv(g, fd, p) && a == Read(fd)
    ensures PipeFlow(g, fd, PipeStep(g, p, a))
  {
    if p.buffer != [] {
      assert p.sink + p.buffer == (p.sink + [p.buffer[0]]) + p.buffer[1..];
    }
  }

  lemma ShownFlows(g: Guards, fd: Fd, p: Pipe, a: Action)
    requires PipeInv(g, fd, p) && a == ChunkDone(fd)
    ensures PipeFlow(g, fd, PipeStep(g, p, a))
  {
  }

  lemma FlowKept(g: Guards, fd: Fd, p: Pipe, a: Action)
    requires PipeInv(g, fd, p) && OnPipe(a) && a.fd == fd
    ensures PipeFlow(g, fd, PipeStep(g, p, a))
  {
    match a
    case Write(_, line) =>
      assert p.written + [line] == p.sink + (p.buffer + [line]);
    case Read(_) => ReadFlows(g, fd, p, a);
    case ChunkDone(_) => ShownFlows(g, fd, p, a);
    case _ =>
  }

  lemma EndKept(g: Guards, fd: Fd, p: Pipe, a: Action)
    requires PipeInv(g, fd, p) && OnPipe(a) && a.fd == fd
    ensures PipeEnd(g, fd, PipeStep(g, p, a))
    ensures PipeStep(g, p, a).drain == Finished <==> p.drain == Finished
    ensures p.sink <= PipeStep(g, p, a).sink && (p.drain == Finished ==> PipeStep(g, p, a).sink == p.sink)
  {
    match a
    case Write(_, line) =>
      assert HoldsBad(g, p.buffer) ==> HoldsBad(g, p.buffer + [line]);
    case Read(_) =>
      if p.buffer != [] {
        assert p.buffer[0] in p.buffer;
      }
    case _ =>
  }

  // ---- The whole system ----

  /** What a main thread that collects or has collected knows of one stream. */
  predicate Collected(clean: bool, got: seq<Line>, p: Pipe) {
    got <= p.sink && (clean ==> p.drain == Finished && got == p.sink)
  }

  predicate MainInv(s: State) {
    match s.main
    case JoiningOut(rc) => s.exit == Some(rc)
    case JoiningErr(rc, cleanOut) => s.exit == Some(rc) && (cleanOut ==> s.out.drain == Finished)
    case Collecting(rc, cleanOut, cleanErr) =>
      s.exit == Some(rc) && (cleanOut ==> s.out.drain == Finished) && (cleanErr ==> s.err.drain == Finished)
    case Returned(output, cleanOut, cleanErr) =>
      s.exit == Some(output.rc) && Collected(cleanOut, output.stdout, s.out) && Collected(cleanErr, output.stderr, s.err)
    case Ending => s.sawExit || s.killIssued
    case Raised => s.sawExit || s.killIssued
    case _ => true
  }

  function Left(p: Pipe): int {
    if p.drain == Finished then 0 else 1
  }

  ghost predicate Inv(g: Guards, s: State) {
    && PipeInv(g, Out, s.out) && PipeInv(g, Err, s.err)
    && s.remaining == Left(s.out) + Left(s.err)
    && (s.drainsDone <==> s.remaining == 0)
    && MainInv(s)
    && (s.sawExit ==> s.exit.Some?)
  }

  lemma PipesKeep(g: Guards, s: State, a: Action)
    requires Inv(g, s) && OnPipe(a)
    ensures Inv(g, Step(g, s, a))
  {
    hide PipeInv, PipeStep, MainStep, CountOffStep, Inv;
    var p := PipeOf(s, a.fd);
    PipeOfInv(g, s, a.fd);
    PipeKept(g, a.fd, p, a);
    OnePipeKeeps(g, s, a.fd, PipeStep(g, p, a));
  }

  lemma PipeOfInv(g: Guards, s: State, fd: Fd)
    requires Inv(g, s)
    ensures PipeInv(g, fd, PipeOf(s, fd))
  {
    hide PipeInv;
  }

  lemma PipeKept(g: Guards, fd: Fd, p: Pipe, a: Action)
    requires PipeInv(g, fd, p) && OnPipe(a) && a.fd == fd
    ensures PipeInv(g, fd, PipeStep(g, p, a)) && Grown(p, PipeStep(g, p, a))
  {
    hide PipeFlow, PipeEnd, PipeStep;
    FlowKept(g, fd, p, a);
    EndKept(g, fd, p, a);
  }

  /** The sink only grows, and not once the drain has finished. */
  predicate Grown(p: Pipe, q: Pipe) {
    (q.drain == Finished <==> p.drain == Finished) && p.sink <= q.sink && (p.drain == Finished ==> q.sink == p.sink)
  }

  lemma OnePipeKeeps(g: Guards, s: State, fd: Fd, q: Pipe)
    requires Inv(g, s) && PipeInv(g, fd, q) && Grown(PipeOf(s, fd), q)
    ensures Inv(g, With(s, fd, q))
  {
    hide PipeInv;
  }

  lemma CountOffKeeps(g: Guards, s: State, fd: Fd)
    requires Inv(g, s)
    ensures Inv(g, Step(g, s, CountOff(fd)))
  {
    hide PipeFlow, PipeEnd;
    var p := PipeOf(s, fd);
    if p.drain == Counting {
      CountedKeeps(g, fd, p);
    }
  }

  lemma CountedKeeps(g: Guards, fd: Fd, p: Pipe)
    requires PipeInv(g, fd, p) && p.drain == Counting
    ensures PipeInv(g, fd, p.(drain := Finished))
  {
  }

  lemma MainKeeps(g: Guards, s: State, a: Action)
    requires Inv(g, s) && !OnPipe(a) && !a.CountOff?
    ensures Inv(g, Step(g, s, a))
  {
    hide PipeInv, PipeStep, CountOffStep, MainStep, MainInv;
    if !a.Exit? {
      MainLeavesPipes(s, a);
      MainKeepsFacts(s, a);
    } else if s.exit == None {
      ExitKeepsFacts(s, a.rc);
    }
  }

  /** What the main thread does changes neither pipe nor the drains' count. */
  lemma MainLeavesPipes(s: State, a: Action)
    ensures
      var t := MainStep(s, a);
      t.out == s.out && t.err == s.err && t.remaining == s.remaining && t.drainsDone == s.drainsDone && t.exit == s.exit
  {
  }

  lemma MainKeepsFacts(s: State, a: Action)
    requires MainInv(s) && (s.sawExit ==> s.exit.Some?)
    ensures MainInv(MainStep(s, a)) && (MainStep(s, a).sawExit ==> s.exit.Some?)
  {
  }

  lemma ExitKeepsFacts(s: State, rc: int)
    requires MainInv(s) && s.exit == None
    ensures MainInv(s.(exit := Some(rc)))
  {
  }

  lemma {:induction false} RunKeeps(g: Guards, actions: seq<Action>)
    ensures Inv(g, Run(g, actions))
  {
    hide Inv, Step;
    if actions == [] {
      StartHolds(g);
    } else {
      RunKeeps(g, actions[..|actions| - 1]);
      var s, a := Run(g, actions[..|actions| - 1]), actions[|actions| - 1];
      if OnPipe(a) {
        PipesKeep(g, s, a);
      } else if a.CountOff? {
        CountOffKeeps(g, s, a.fd);
      } else {
        MainKeeps(g, s, a);
      }
    }
  }

  lemma StartHolds(g: Guards)
    ensures Inv(g, START)
  {
  }

  // ---- What a return carries ----

  /** No line is bad, and none with output behind it is fatal. */
  predicate Smooth(g: Guards, fd: Fd, lines: seq<Line>) {
    && (forall k :: 0 <= k < |lines| ==> !g.bad(lines[k]))
    && (forall k :: 0 <= k < |lines| - 1 ==> !g.fatal(fd, lines[k]))
  }

  /** A prefix that ends before the first bad line and with or before the first fatal one. */
  predicate ShortOf(g: Guards, fd: Fd, got: seq<Line>, lines: seq<Line>) {
    && got <= lines
    && (forall k :: 0 <= k < |lines| && g.bad(lines[k]) ==> |got| <= k)
    && (forall k :: 0 <= k < |lines| && g.fatal(fd, lines[k]) ==> |got| <= k + 1)
  }

  /** A drain that left output unread read it all but for a bad line, or died on the line before it. */
  lemma GaveUpShort(g: Guards, fd: Fd, p: Pipe)
    requires PipeInv(g, fd, p) && p.drain == Finished && p.buffer != []
    ensures !Smooth(g, fd, p.written)
  {
    if HoldsBad(g, p.buffer) {
      var line :| line in p.buffer && g.bad(line);
      var k :| 0 <= k < |p.buffer| && p.buffer[k] == line;
      assert g.bad(p.written[|p.sink| + k]);
    } else {
      assert g.fatal(fd, p.written[|p.sink| - 1]);
    }
  }

  lemma FinishedPipe(g: Guards, fd: Fd, p: Pipe)
    requires PipeInv(g, fd, p) && p.drain == Finished
    ensures ShortOf(g, fd, p.sink, p.written)
    ensures p.sink == p.written <==> Smooth(g, fd, p.written)
  {
    forall k | 0 <= k < |p.sink| ensures p.written[k] == p.sink[k] && p.sink[k] in p.sink {
    }
    if p.buffer == [] {
      assert p.sink + [] == p.sink;
    } else {
      GaveUpShort(g, fd, p);
      assert p.sink != p.written;
    }
  }

  /** What a clean join reports of one stream. */
  predicate Reported(g: Guards, fd: Fd, got: seq<Line>, p: Pipe) {
    ShortOf(g, fd, got, p.written) && (got == p.written <==> Smooth(g, fd, p.written))
  }

  /**
   A normal return reports the child's exit status. A stream whose join completed is reported in
   full and in order exactly when no line written to it is bad and none with output behind it is
   fatal; otherwise what is reported is a prefix that ends no later than the first such line. An
   `on_chunk` that raises anything its drain catches takes nothing away.
   */
  lemma ReturnCarriesEveryLine(g: Guards, actions: seq<Action>)
    ensures
      var s := Run(g, actions);
      s.main.Returned? ==>
        var o := s.main.output;
        && s.exit == Some(o.rc)
        && (s.main.cleanOut ==> Reported(g, Out, o.stdout, s.out))
        && (s.main.cleanErr ==> Reported(g, Err, o.stderr, s.err))
        && o.stdout <= s.out.written && o.stderr <= s.err.written
  {
    hide Smooth, ShortOf, PipeEnd;
    RunKeeps(g, actions);
    var s := Run(g, actions);
    if s.main.Returned? {
      if s.main.cleanOut {
        FinishedPipe(g, Out, s.out);
      }
      if s.main.cleanErr {
        FinishedPipe(g, Err, s.err);
      }
    }
  }

  /** `on_chunk` is called with the lines read, once each and in order; with all of them once the drain has ended. */
  lemma ChunksAreTheLines(g: Guards, actions: seq<Action>, fd: Fd)
    ensures
      var p := PipeOf(Run(g, actions), fd);
      && p.shown <= p.sink <= p.written
      && (p.drain == Finished ==> p.shown == p.sink && (p.shown == p.written <==> Smooth(g, fd, p.written)))
  {
    hide Smooth, PipeEnd;
    RunKeeps(g, actions);
    var p := PipeOf(Run(g, actions), fd);
    if p.drain == Finished {
      FinishedPipe(g, fd, p);
      assert p.shown + [] == p.shown;
    }
  }

  /** However the polling loop is left by an exception, the child was seen to exit or a kill was issued. */
  lemma RaisingNeverLeavesTheChild(g: Guards, actions: seq<Action>)
    ensures
      var s := Run(g, actions);
      && (s.main.Raised? ==> (s.sawExit && s.exit.Some?) || s.killIssued)
      && (s.main.Returned? ==> s.exit.Some?)
  {
    hide PipeInv;
    RunKeeps(g, actions);
  }

  // ---- How the polling loop is left ----

  /** On the way out with an exception, or out. */
  predicate Leaving(m: Main) {
    m == TimedOut || m == Handling || m == Ending || m == Raised
  }

  lemma LeavingStays(g: Guards, s: State, a: Action)
    requires Leaving(s.main)
    ensures
      var t := Step(g, s, a);
      && Leaving(t.main) && (s.main != TimedOut ==> t.main != TimedOut) && (s.killIssued ==> t.killIssued)
  {
    hide PipeStep, CountOffStep;
    CountOffLeavesMain(s, a);
  }

  lemma CountOffLeavesMain(s: State, a: Action)
    ensures a.CountOff? ==> var t := CountOffStep(s, a.fd); t.main == s.main && t.killIssued == s.killIssued
  {
  }

  lemma {:induction false} LeavingGoesOn(g: Guards, s: State, after: seq<Action>)
    requires Leaving(s.main)
    ensures
      var t := RunFrom(g, s, after);
      && Leaving(t.main) && (s.main != TimedOut ==> t.main != TimedOut) && (s.killIssued ==> t.killIssued)
  {
    hide Step;
    if after != [] {
      var init := after[..|after| - 1];
      LeavingGoesOn(g, s, init);
      LeavingStays(g, RunFrom(g, s, init), after[|after| - 1]);
    }
  }

  lemma AfterOne(g: Guards, before: seq<Action>, a: Action, after: seq<Action>)
    ensures Run(g, before + [a] + after) == RunFrom(g, Step(g, Run(g, before), a), after)
  {
    hide Step;
    RunAppend(g, START, before + [a], after);
    RunOneMore(g, before, a);
  }

  /** A timeout noticed by the loop kills the child at once, and the call can then only raise. */
  lemma LateIsKilled(g: Guards, before: seq<Action>, after: seq<Action>)
    requires Run(g, before).main == Running
    ensures var s := Run(g, before + [Tick(true)] + after); s.killIssued && Leaving(s.main)
  {
    hide RunFrom, Run;
    AfterOne(g, before, Tick(true), after);
    LeavingGoesOn(g, Step(g, Run(g, before), Tick(true)), after);
  }

  /** An exception in the try block, such as a cancellation, is never swallowed. */
  lemma InterruptIsRaised(g: Guards, before: seq<Action>, after: seq<Action>)
    requires !Leaving(Run(g, before).main) && !Run(g, before).main.Returned?
    ensures var s := Run(g, before + [Interrupt] + after); Leaving(s.main) && s.main != TimedOut
  {
    hide RunFrom, Run;
    AfterOne(g, before, Interrupt, after);
    LeavingGoesOn(g, Step(g, Run(g, before), Interrupt), after);
  }

  function StepsLeft(m: Main): nat {
    match m
    case TimedOut => 3
    case Handling => 2
    case Ending => 1
    case _ => 0
  }

  lemma OneStepOut(g: Guards, s: State, pollFails: bool, done: bool)
    requires Leaving(s.main) && s.main != Raised
    ensures
      var t := Step(g, s, if s.main == Handling then Handle(pollFails) else Join(done));
      Leaving(t.main) && StepsLeft(t.main) == StepsLeft(s.main) - 1
  {
    hide PipeStep, CountOffStep;
  }

  /** From there the main thread reaches the end on its own, whether or not the poll raises and the joins complete. */
  lemma {:induction false} LeavingEnds(g: Guards, actions: seq<Action>, pollFails: bool, done: bool)
    returns (plan: seq<Action>)
    requires Leaving(Run(g, actions).main)
    ensures Run(g, actions + plan).main == Raised
    ensures forall a :: a in plan ==> a == Join(done) || a == Handle(pollFails)
    decreases StepsLeft(Run(g, actions).main)
  {
    hide Step, RunFrom, Run;
    var m := Run(g, actions).main;
    if m == Raised {
      assert actions + [] == actions;
      return [];
    }
    var a := if m == Handling then Handle(pollFails) else Join(done);
    OneStepOut(g, Run(g, actions), pollFails, done);
    RunOneMore(g, actions, a);
    var rest := LeavingEnds(g, actions + [a], pollFails, done);
    plan := [a] + rest;
    assert actions + plan == (actions + [a]) + rest;
  }

  lemma RunOneMore(g: Guards, actions: seq<Action>, a: Action)
    ensures Run(g, actions + [a]) == Step(g, Run(g, actions), a)
  {
    hide Step;
    assert (actions + [a])[..|actions|] == actions;
  }

  /** A loop that polls after the exit returns the exit status, whether or not the joins complete in time. */
  lemma ExitIsReturned(g: Guards, actions: seq<Action>)
    requires Run(g, actions).main == Polling && Run(g, actions).exit.Some?
    ensures
      var s := Run(g, actions);
      Run(g, actions + [Poll] + [Join(false)] + [Join(false)] + [Collect]).main
        == Returned(Output(s.exit.value, s.out.sink, s.err.sink), false, false)
  {
    hide PipeStep, CountOffStep, RunFrom, Run;
    RunOneMore(g, actions, Poll);
    RunOneMore(g, actions + [Poll], Join(false));
    RunOneMore(g, actions + [Poll] + [Join(false)], Join(false));
    RunOneMore(g, actions + [Poll] + [Join(false)] + [Join(false)], Collect);
  }

  // ---- What the event says ----

  /**
   The event is set exactly when both drains have counted themselves off, each having closed its
   stream. If neither gave up, nobody can write to either stream any more.
   */
  lemma DoneMeansBothClosed(g: Guards, actions: seq<Action>)
    ensures
      var s := Run(g, actions);
      && (s.drainsDone <==> s.out.drain == Finished && s.err.drain == Finished)
      && (s.drainsDone ==> s.out.closed && s.err.closed)
      && (s.drainsDone && !s.out.aborted && !s.err.aborted ==> !s.out.writable && !s.err.writable)
  {
    hide PipeFlow;
    RunKeeps(g, actions);
  }

  /** What the child and whoever inherited its streams do. */
  predicate OfChild(a: Action) {
    a.Write? || a.HangUp? || a.Exit?
  }

  function Script(actions: seq<Action>): seq<Action> {
    if actions == [] then []
    else
      var last := actions[|actions| - 1];
      Script(actions[..|actions| - 1]) + (if OfChild(last) then [last] else [])
  }

  /** Something the child does ends the drain of a stream. */
  predicate Ends(g: Guards, fd: Fd, a: Action) {
    a == HangUp(fd) || (a.Write? && a.fd == fd && Troubles(g, fd, a.line))
  }

  /** The stream lasts as long as the child: until it exits nobody hangs up and no line troubles the drain. */
  ghost predicate Lasts(g: Guards, fd: Fd, script: seq<Action>) {
    forall k :: 0 <= k < |script| && Ends(g, fd, script[k]) ==> exists j :: 0 <= j < k && script[j].Exit?
  }

  predicate NoExit(script: seq<Action>) {
    forall k :: 0 <= k < |script| ==> !script[k].Exit?
  }

  /** While the child runs, a lasting stream stays open and harmless. */
  ghost predicate StillGoing(g: Guards, fd: Fd, s: State) {
    var p := PipeOf(s, fd);
    p.writable && forall line :: line in p.written ==> !Troubles(g, fd, line)
  }

  lemma ScriptStep(actions: seq<Action>)
    requires actions != []
    ensures
      var init, last := actions[..|actions| - 1], actions[|actions| - 1];
      Script(actions) == Script(init) + (if OfChild(last) then [last] else [])
  {
  }

  lemma {:induction false} ExitIsInScript(g: Guards, actions: seq<Action>)
    ensures Run(g, actions).exit == None <==> NoExit(Script(actions))
  {
    hide Step;
    if actions != [] {
      var init, last := actions[..|actions| - 1], actions[|actions| - 1];
      ExitIsInScript(g, init);
      ScriptStep(actions);
      ExitStep(g, Run(g, init), last);
      assert forall k :: 0 <= k < |Script(init)| ==> Script(actions)[k] == Script(init)[k];
      assert OfChild(last) ==> Script(actions)[|Script(init)|] == last;
    }
  }

  lemma ExitStep(g: Guards, s: State, a: Action)
    ensures Step(g, s, a).exit == if a.Exit? && s.exit == None then Some(a.rc) else s.exit
  {
    hide PipeStep;
  }

  lemma {:induction false} LastingStream(g: Guards, fd: Fd, actions: seq<Action>, script: seq<Action>)
    requires Lasts(g, fd, script) && Script(actions) <= script && NoExit(Script(actions))
    ensures StillGoing(g, fd, Run(g, actions))
  {
    hide Step;
    if actions != [] {
      var init, last := actions[..|actions| - 1], actions[|actions| - 1];
      ScriptStep(actions);
      LastingStream(g, fd, init, script);
      if OfChild(last) {
        var k := |Script(init)|;
        assert script[k] == Script(actions)[k] == last;
        assert forall j :: 0 <= j < k ==> script[j] == Script(actions)[j];
        assert !Ends(g, fd, last);
      }
      GoingStep(g, fd, Run(g, init), last);
    }
  }

  lemma GoingStep(g: Guards, fd: Fd, s: State, a: Action)
    requires StillGoing(g, fd, s) && (OfChild(a) ==> !Ends(g, fd, a))
    ensures StillGoing(g, fd, Step(g, s, a))
  {
    hide PipeStep, MainStep, Troubles;
    if OnPipe(a) && a.fd == fd {
      GoingPipe(g, fd, PipeOf(s, fd), a);
    } else if !OnPipe(a) && !a.CountOff? && !a.Exit? {
      MainLeavesPipes(s, a);
    }
  }

  lemma GoingPipe(g: Guards, fd: Fd, p: Pipe, a: Action)
    requires OnPipe(a) && a.fd == fd && p.writable && (OfChild(a) ==> !Ends(g, fd, a))
    requires forall line :: line in p.written ==> !Troubles(g, fd, line)
    ensures
      var q := PipeStep(g, p, a);
      q.writable && forall line :: line in q.written ==> !Troubles(g, fd, line)
  {
    hide HoldsBad;
  }

  /** A drain of such a stream has not ended. */
  lemma GoingIsNotFinished(g: Guards, fd: Fd, p: Pipe)
    requires PipeInv(g, fd, p) && p.writable && forall line :: line in p.written ==> !Troubles(g, fd, line)
    ensures p.drain != Finished
  {
    assert forall line :: line in p.sink || line in p.buffer ==> line in p.written;
    assert HoldsBad(g, p.buffer) ==> HoldsBad(g, p.written);
    assert p.sink != [] ==> p.sink[|p.sink| - 1] in p.sink;
  }

  lemma LastingMeansAfterExit(g: Guards, fd: Fd, actions: seq<Action>, script: seq<Action>)
    requires Lasts(g, fd, script) && Script(actions) <= script && Run(g, actions).drainsDone
    ensures Run(g, actions).exit.Some?
  {
    hide Step, PipeInv;
    ExitIsInScript(g, actions);
    RunKeeps(g, actions);
    if NoExit(Script(actions)) {
      LastingStream(g, fd, actions, script);
      GoingIsNotFinished(g, fd, PipeOf(Run(g, actions), fd));
    }
  }

  // ---- The other direction: a schedule that sets the event early ----

  lemma {:induction false} RunAppend(g: Guards, s: State, a: seq<Action>, b: seq<Action>)
    ensures RunFrom(g, s, a + b) == RunFrom(g, RunFrom(g, s, a), b)
    decreases |b|
  {
    hide Step;
    if b == [] {
      assert a + b == a;
    } else {
      assert (a + b)[..|a + b| - 1] == a + b[..|b| - 1];
      RunAppend(g, s, a, b[..|b| - 1]);
    }
  }

  lemma {:induction false} ScriptAppend(a: seq<Action>, b: seq<Action>)
    ensures Script(a + b) == Script(a) + Script(b)
    decreases |b|
  {
    if b == [] {
      assert a + b == a;
    } else {
      assert (a + b)[..|a + b| - 1] == a + b[..|b| - 1];
      ScriptAppend(a, b[..|b| - 1]);
    }
  }

  lemma {:induction false} ScriptOfChild(c: seq<Action>)
    requires forall k :: 0 <= k < |c| ==> OfChild(c[k])
    ensures Script(c) == c
  {
    if c != [] {
      ScriptOfChild(c[..|c| - 1]);
    }
  }

  /** The drain has something ahead that ends it. */
  ghost predicate Endable(g: Guards, fd: Fd, p: Pipe) {
    !p.writable || exists line :: line in p.buffer && Troubles(g, fd, line)
  }

  /** Nothing has been read yet. */
  ghost predicate Unread(p: Pipe) {
    p.drain == Reading && !p.closed && p.buffer == p.written
  }

  /** After the child's actions alone, a stream they end is ready to end. */
  lemma {:induction false} ChildAlone(g: Guards, c: seq<Action>)
    requires NoExit(c) && forall k :: 0 <= k < |c| ==> OfChild(c[k])
    ensures
      var s := Run(g, c);
      && Unread(s.out) && Unread(s.err) && s.exit == None && s.remaining == 2 && !s.drainsDone
      && forall fd :: (exists k :: 0 <= k < |c| && Ends(g, fd, c[k])) ==> Endable(g, fd, PipeOf(s, fd))
  {
    hide Step, Endable, Unread;
    if c == [] {
      StartIsUnread();
    } else {
      var init, last := c[..|c| - 1], c[|c| - 1];
      ChildAlone(g, init);
      assert OfChild(last) && !last.Exit?;
      forall fd ensures (exists k :: 0 <= k < |c| && Ends(g, fd, c[k])) ==> Endable(g, fd, PipeOf(Run(g, c), fd)) {
        if k :| 0 <= k < |c| && Ends(g, fd, c[k]) {
          if k < |init| {
            assert Ends(g, fd, init[k]);
          }
          ChildStepEnds(g, fd, Run(g, init), last);
        }
      }
      ChildStepKeeps(g, Run(g, init), last);
    }
  }

  lemma StartIsUnread()
    ensures Unread(START.out) && Unread(START.err)
  {
  }

  lemma ChildStepKeeps(g: Guards, s: State, a: Action)
    requires Unread(s.out) && Unread(s.err) && OfChild(a) && !a.Exit?
    ensures
      var t := Step(g, s, a);
      Unread(t.out) && Unread(t.err) && t.exit == s.exit && t.remaining == s.remaining && t.drainsDone == s.drainsDone
  {
  }

  lemma ChildStepEnds(g: Guards, fd: Fd, s: State, a: Action)
    requires Unread(PipeOf(s, fd)) && OfChild(a) && !a.Exit?
    requires Endable(g, fd, PipeOf(s, fd)) || Ends(g, fd, a)
    ensures Endable(g, fd, PipeOf(Step(g, s, a), fd))
  {
    var p, q := PipeOf(s, fd), PipeOf(Step(g, s, a), fd);
    assert p.buffer <= q.buffer;
    assert a.Write? && a.fd == fd && p.writable ==> a.line in q.buffer;
    assert forall line :: line in p.buffer ==> line in q.buffer;
  }

  function Other(fd: Fd): Fd {
    if fd == Out then Err else Out
  }

  /** One drain has ended; nothing else has happened. */
  predicate EndedOne(fd: Fd, s: State, t: State) {
    && PipeOf(t, fd).drain == Finished && PipeOf(t, Other(fd)) == PipeOf(s, Other(fd)) && t.exit == s.exit
    && t.remaining == s.remaining - 1 && (t.drainsDone <==> s.drainsDone || t.remaining <= 0)
  }

  lemma CloseDown(g: Guards, fd: Fd, s: State)
    requires PipeOf(s, fd).drain == Closing
    ensures EndedOne(fd, s, Step(g, Step(g, s, CloseStream(fd)), CountOff(fd)))
  {
  }

  lemma TwoSteps(g: Guards, s: State, a: Action, b: Action)
    ensures RunFrom(g, s, [a, b]) == Step(g, Step(g, s, a), b) && Script([a, b]) == Script([a]) + Script([b])
  {
    hide Step, Script;
    assert [a, b][..1] == [a] && [a][..0] == [];
    assert RunFrom(g, s, []) == s && RunFrom(g, s, [a]) == Step(g, s, a);
    ScriptAppend([a], [b]);
    assert [a] + [b] == [a, b];
  }

  /** A schedule that takes a drain to its end. */
  lemma {:induction false} EndDrain(g: Guards, fd: Fd, s: State) returns (plan: seq<Action>)
    requires PipeOf(s, fd).drain == Reading && Endable(g, fd, PipeOf(s, fd))
    ensures Script(plan) == [] && EndedOne(fd, s, RunFrom(g, s, plan))
    decreases |PipeOf(s, fd).buffer|
  {
    hide Step, Endable, Script, EndedOne;
    NoScript(fd);
    var t := RunFrom(g, s, [Read(fd), ChunkDone(fd)]);
    TwoSteps(g, s, Read(fd), ChunkDone(fd));
    ReadOne(g, fd, s);
    var rest: seq<Action>;
    if PipeOf(t, fd).drain == Closing {
      rest := [CloseStream(fd), CountOff(fd)];
      TwoSteps(g, t, CloseStream(fd), CountOff(fd));
      CloseDown(g, fd, t);
    } else {
      rest := EndDrain(g, fd, t);
    }
    plan := [Read(fd), ChunkDone(fd)] + rest;
    RunAppend(g, s, [Read(fd), ChunkDone(fd)], rest);
    ScriptAppend([Read(fd), ChunkDone(fd)], rest);
    EndedAfter(fd, s, t, RunFrom(g, t, rest));
  }

  lemma NoScript(fd: Fd)
    ensures Script([Read(fd)]) == [] && Script([ChunkDone(fd)]) == []
    ensures Script([CloseStream(fd)]) == [] && Script([CountOff(fd)]) == []
  {
    assert [Read(fd)][..0] == [] && [ChunkDone(fd)][..0] == [];
    assert [CloseStream(fd)][..0] == [] && [CountOff(fd)][..0] == [];
  }

  lemma EndedAfter(fd: Fd, s: State, t: State, u: State)
    requires EndedOne(fd, t, u) && t.exit == s.exit && t.remaining == s.remaining && t.drainsDone == s.drainsDone
    requires PipeOf(t, Other(fd)) == PipeOf(s, Other(fd))
    ensures EndedOne(fd, s, u)
  {
  }

  /** Reading one line, or the end, brings the drain closer to its end. */
  lemma ReadOne(g: Guards, fd: Fd, s: State)
    requires PipeOf(s, fd).drain == Reading && Endable(g, fd, PipeOf(s, fd))
    ensures
      var t := Step(g, Step(g, s, Read(fd)), ChunkDone(fd));
      var p, q := PipeOf(s, fd), PipeOf(t, fd);
      && PipeOf(t, Other(fd)) == PipeOf(s, Other(fd)) && t.exit == s.exit
      && t.remaining == s.remaining && t.drainsDone == s.drainsDone
      && (q.drain == Closing || (q.drain == Reading && Endable(g, fd, q) && |q.buffer| < |p.buffer|))
  {
    hide PipeStep, Endable, MainStep, CountOffStep;
    ReadOnePipe(g, fd, PipeOf(s, fd));
  }

  lemma ReadOnePipe(g: Guards, fd: Fd, p: Pipe)
    requires p.drain == Reading && Endable(g, fd, p)
    ensures
      var q := PipeStep(g, PipeStep(g, p, Read(fd)), ChunkDone(fd));
      q.drain == Closing || (q.drain == Reading && Endable(g, fd, q) && |q.buffer| < |p.buffer|)
  {
    if p.buffer != [] && !g.bad(p.buffer[0]) && !g.fatal(fd, p.buffer[0]) {
      assert forall line :: line in p.buffer && Troubles(g, fd, line) ==> line in p.buffer[1..];
    }
  }

  lemma EarlyEvent(g: Guards, script: seq<Action>, i: nat, j: nat) returns (actions: seq<Action>)
    requires forall k :: 0 <= k < |script| ==> OfChild(script[k])
    requires i < |script| && Ends(g, Out, script[i]) && NoExit(script[..i])
    requires j < |script| && Ends(g, Err, script[j]) && NoExit(script[..j])
    ensures Script(actions) <= script && Run(g, actions).drainsDone && Run(g, actions).exit == None
  {
    hide Step, Endable, Ends, NoExit, OfChild, Script, RunFrom, Unread;
    var e := if i < j then j + 1 else i + 1;
    var base := script[..e];
    EndsBeforeExit(g, script, i, j);
    assert base[i] == script[i] && base[j] == script[j];
    ChildAlone(g, base);
    ScriptOfChild(base);
    var s := Run(g, base);
    assert PipeOf(s, Out).drain == Reading && PipeOf(s, Err).drain == Reading by {
      UnreadIsReading(s.out);
      UnreadIsReading(s.err);
    }
    var first := EndDrain(g, Out, s);
    var t := RunFrom(g, s, first);
    var second := EndDrain(g, Err, t);
    actions := base + first + second;
    RunAppend(g, START, base, first);
    RunAppend(g, START, base + first, second);
    ScriptAppend(base, first);
    ScriptAppend(base + first, second);
    assert base + [] + [] == base;
  }

  lemma UnreadIsReading(p: Pipe)
    requires Unread(p)
    ensures p.drain == Reading
  {
  }

  lemma EndsBeforeExit(g: Guards, script: seq<Action>, i: nat, j: nat)
    requires i < |script| && Ends(g, Out, script[i]) && NoExit(script[..i])
    requires j < |script| && Ends(g, Err, script[j]) && NoExit(script[..j])
    ensures NoExit(script[..if i < j then j + 1 else i + 1])
  {
    hide Ends;
    EndsIsNoExit(g, Out, script[i]);
    EndsIsNoExit(g, Err, script[j]);
    var base := script[..if i < j then j + 1 else i + 1];
    forall k | 0 <= k < |base| ensures !base[k].Exit? {
      assert k < i ==> base[k] == script[..i][k];
      assert k < j ==> base[k] == script[..j][k];
    }
  }

  lemma EndsIsNoExit(g: Guards, fd: Fd, a: Action)
    ensures Ends(g, fd, a) ==> !a.Exit?
  {
  }

  /**
   The event implies that the child has exited, under every schedule of a child's script and however
   far it has got, exactly when one of the two streams lasts as long as the child.
   */
  lemma EventImpliesExitExactly(g: Guards, script: seq<Action>)
    requires forall k :: 0 <= k < |script| ==> OfChild(script[k])
    ensures
      (forall actions :: Script(actions) <= script && Run(g, actions).drainsDone ==> Run(g, actions).exit.Some?)
      <==> Lasts(g, Out, script) || Lasts(g, Err, script)
  {
    hide Run, Script, Ends;
    if Lasts(g, Out, script) || Lasts(g, Err, script) {
      forall actions | Script(actions) <= script && Run(g, actions).drainsDone ensures Run(g, actions).exit.Some? {
        LastingMeansAfterExit(g, if Lasts(g, Out, script) then Out else Err, actions, script);
      }
    } else {
      var i :| 0 <= i < |script| && Ends(g, Out, script[i]) && forall j :: 0 <= j < i ==> !script[j].Exit?;
      var j :| 0 <= j < |script| && Ends(g, Err, script[j]) && forall k :: 0 <= k < j ==> !script[k].Exit?;
      var actions := EarlyEvent(g, script, i, j);
    }
  }

  // ---- Two short runs ----

  lemma Next(g: Guards, actions: seq<Action>, k: nat)
    requires k < |actions|
    ensures Run(g, actions[..k + 1]) == Step(g, Run(g, actions[..k]), actions[k])
  {
    hide Step;
    assert actions[..k + 1][..k] == actions[..k];
  }

  const UNDECODABLE: seq<Action> := [
    Write(Out, "?"), Read(Out), CloseStream(Out), CountOff(Out),
    HangUp(Err), Read(Err), CloseStream(Err), CountOff(Err),
    Exit(0), Poll, Join(true), Join(true), Collect]

  const LOST := FRESH.(written := ["?"], buffer := ["?"], drain := Finished, closed := true, aborted := true)
  const EMPTY := FRESH.(writable := false, drain := Finished, closed := true)
  const AFTER_OUT := State(LOST, FRESH, 1, false, None, Polling, false, false)
  const AFTER_ERR := State(LOST, EMPTY, 0, true, None, Polling, false, false)

  lemma FirstHalf(g: Guards)
    requires g.bad("?")
    ensures
      Step(g, Step(g, Step(g, Step(g, START, Write(Out, "?")), Read(Out)), CloseStream(Out)), CountOff(Out)) == AFTER_OUT
    ensures
      Step(g, Step(g, Step(g, Step(g, AFTER_OUT, HangUp(Err)), Read(Err)), CloseStream(Err)), CountOff(Err)) == AFTER_ERR
  {
  }

  lemma SecondHalf(g: Guards)
    ensures
      Step(g, Step(g, Step(g, Step(g, Step(g, AFTER_ERR, Exit(0)), Poll), Join(true)), Join(true)), Collect)
      == AFTER_ERR.(exit := Some(0), sawExit := true, main := Returned(Output(0, [], []), true, true))
  {
  }

  /** The event is set although the child has not exited. */
  lemma EventBeforeExit(g: Guards)
    requires g.bad("?")
    ensures Run(g, UNDECODABLE[..8]) == AFTER_ERR && AFTER_ERR.drainsDone && AFTER_ERR.exit == None
  {
    hide Step;
    var n := UNDECODABLE;
    Next(g, n, 0); Next(g, n, 1); Next(g, n, 2); Next(g, n, 3);
    Next(g, n, 4); Next(g, n, 5); Next(g, n, 6); Next(g, n, 7);
    assert n[..0] == [];
    FirstHalf(g);
  }

  /** A line that cannot be decoded is lost although the child exits normally and every join completes. */
  lemma UndecodableLineIsLost(g: Guards)
    requires g.bad("?")
    ensures
      var s := Run(g, UNDECODABLE);
      s.main == Returned(Output(0, [], []), true, true) && s.out.written == ["?"]
  {
    hide Step;
    var n := UNDECODABLE;
    EventBeforeExit(g);
    Next(g, n, 8); Next(g, n, 9); Next(g, n, 10); Next(g, n, 11); Next(g, n, 12);
    assert n[..13] == n;
    SecondHalf(g);
  }
}
