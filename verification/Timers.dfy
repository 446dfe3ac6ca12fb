/** Timers are one-shot twice over: exactly when a connection that never greets still has a timer that
    can close it, and what becomes of one that has lost it. */
module Timers {
  import opened Server
  import opened Dispatcher
  import opened Sweeps
  import opened Tokens
  import opened ServerRuns

  /** Descriptor f is a registered connection that has not greeted. */
  ghost predicate Silent(k: Kernel, t: Slabs, f: int) {
    f in k.reg && f in k.open && k.open[f] == Socket && 0 < f < |t.clients| && t.clients[f].state == New
  }

  /** Timer m was set for f and is registered. */
  ghost predicate TimerOf(k: Kernel, t: Slabs, m: int, f: int) {
    m in k.timers && 0 <= m < |t.timerFor| && t.timerFor[m] == f
  }

  /** Some timer set for f can still fire. */
  ghost predicate Watched(k: Kernel, t: Slabs, f: int) {
    exists m :: m in k.timersArmed && 0 <= m < |t.timerFor| && t.timerFor[m] == f
  }

  lemma SilentIsStalled(s: State, f: int)
    requires SlabInv(s) && Silent(s.kernel, s.slabs, f)
    ensures s.slabs.slot[f] == f && Stalled(s.slabs, f)
  {
    assert Owned(s.kernel, s.slabs, s.log, f);
  }

  lemma TimerIsUnregistered(s: State, m: int)
    requires SlabInv(s) && m in s.kernel.timers
    ensures m in s.kernel.open && s.kernel.open[m] == Timer && m !in s.kernel.reg
  {
    assert Owned(s.kernel, s.slabs, s.log, m);
  }

  // ----- which sweeps can close a silent connection -----

  /** A sweep of armed timers closes a silent connection if and only if it gets past a timer set for it. */
  lemma SweepClosesSilent(s: State, due: seq<int>, f: int)
    requires SlabInv(s) && Silent(s.kernel, s.slabs, f) && Due(s.kernel, s.slabs, due)
    ensures f !in HandleTimers(s.kernel, s.slabs, due).0.open
       <==> exists i :: Reached(s.kernel, s.slabs, due, i) && s.slabs.timerFor[due[i]] == f
  {
    SilentIsStalled(s, f);
    SweptIsTarget(s.kernel, s.slabs, s.log, due, f);
  }

  /** Some sweep that the kernel can bring about closes a silent connection if and only if a timer set for
      it can still fire. */
  lemma TimesOutExactly(s: State, f: int)
    requires SlabInv(s) && Silent(s.kernel, s.slabs, f)
    ensures (exists due | Distinct(due) && (forall i | 0 <= i < |due| :: due[i] in s.kernel.timersArmed) ::
              f !in HandleTimers(s.kernel, s.slabs, due).0.open)
       <==> Watched(s.kernel, s.slabs, f)
  {
    forall due | Distinct(due) && (forall i | 0 <= i < |due| :: due[i] in s.kernel.timersArmed)
      ensures f !in HandleTimers(s.kernel, s.slabs, due).0.open
         <==> exists i :: Reached(s.kernel, s.slabs, due, i) && s.slabs.timerFor[due[i]] == f
    {
      SweepClosesSilent(s, due, f);
    }
    if m :| m in s.kernel.timersArmed && 0 <= m < |s.slabs.timerFor| && s.slabs.timerFor[m] == f {
      SilentIsStalled(s, f);
      var due := [m];
      assert due[..1] == due;
      assert Reached(s.kernel, s.slabs, due, 0);
      assert forall i | 0 <= i < |due| :: due[i] in s.kernel.timersArmed;
    }
  }

  // ----- a timer's one chance -----

  /** A sweep that reports timer m gives up at or before it. */
  ghost predicate GivesUpOn(s: State, l: Label, m: int)
    requires Shape(s) && Enabled(s, l) && (l.SweepTimers? ==> Due(s.kernel, s.slabs, l.due))
  {
    l.SweepTimers? && exists i :: 0 <= i < |l.due| && l.due[i] == m && !Reached(s.kernel, s.slabs, l.due, i)
  }

  /** A sweep leaves the timer of a connection that survives it registered, and no longer armed if it
      reported it. */
  lemma SweepTimer(s: State, due: seq<int>, f: int, m: int)
    requires SlabInv(s) && Enabled(s, SweepTimers(due)) && Due(s.kernel, s.slabs, due)
    requires Silent(s.kernel, s.slabs, f) && TimerOf(s.kernel, s.slabs, m, f)
    requires f in HandleTimers(s.kernel, s.slabs, due).0.open
    ensures var k' := HandleTimers(s.kernel, s.slabs, due).0;
      && TimerOf(k', s.slabs, m, f)
      && (m in k'.timersArmed <==> m in s.kernel.timersArmed && !GivesUpOn(s, SweepTimers(due), m))
  {
    var k0 := s.kernel.Report(due);
    TimerIsUnregistered(s, m);
    SweepClosesSilent(s, due, f);
    HandleTimersOnlyCloses(s.kernel, s.slabs, s.log, due);
    ReportKeepsTables(s.kernel, s.slabs, s.log, due);
    SweepClosesExactly(k0, s.slabs, s.log, due, m);
    assert forall i :: Reached(k0, s.slabs, due, i) <==> Reached(s.kernel, s.slabs, due, i);
    forall i | Reached(k0, s.slabs, due, i) ensures !Target(s.slabs, due, i, m) {
      assert due[..i + 1][i] == due[i];
    }
  }

  /** A hang-up and a greeting close registered descriptors only. */
  lemma CloseTimer(s: State, l: Label, f: int, m: int)
    requires SlabInv(s) && TokenInv(s) && Enabled(s, l) && (l.HangUp? || l.Greet?)
    requires Silent(s.kernel, s.slabs, f) && TimerOf(s.kernel, s.slabs, m, f)
    ensures var s' := Apply(s, l);
      TimerOf(s'.kernel, s'.slabs, m, f) && (m in s'.kernel.timersArmed <==> m in s.kernel.timersArmed)
  {
    hide HandlerOk, TokenAt;
    TimerIsUnregistered(s, m);
    if l.Greet? {
      var fd := s.workers[l.w].fd;
      assert Paired(s.kernel, s.slabs, fd);
      CarriedIsRegistered(s, l.w, fd);
    } else {
      assert Paired(s.kernel, s.slabs, s.batch[0]);
    }
  }

  /** Unless f is accepted anew, a step after which f is still silent keeps its timer, and keeps it armed
      unless it is a sweep that reports it and gives up at or before it. */
  lemma StepTimer(s: State, l: Label, f: int, m: int)
    requires SlabInv(s) && TokenInv(s) && Enabled(s, l) && (l.Accept? ==> l.fd != f)
    requires Silent(s.kernel, s.slabs, f) && TimerOf(s.kernel, s.slabs, m, f)
    requires Silent(Apply(s, l).kernel, Apply(s, l).slabs, f)
    ensures l.SweepTimers? ==> Due(s.kernel, s.slabs, l.due)
    ensures var s' := Apply(s, l);
      && TimerOf(s'.kernel, s'.slabs, m, f)
      && (m in s'.kernel.timersArmed <==> m in s.kernel.timersArmed && !GivesUpOn(s, l, m))
  {
    hide TablesOk, HandlerOk, TokenAt;
    match l
    case SweepTimers(due) =>
      DueTimers(s, due);
      SweepTimer(s, due, f, m);
    case HangUp => CloseTimer(s, l, f, m);
    case Greet(_, _, _) => CloseTimer(s, l, f, m);
    case Accept(_, _, _) => TimerIsUnregistered(s, m);
    case _ => OthersKeepTables(s, l);
  }

  /** A connection that is closed, unregistered or has greeted is not silent again before it is accepted anew. */
  lemma StepNotSilent(s: State, l: Label, f: int)
    requires SlabInv(s) && Enabled(s, l) && (l.Accept? ==> l.fd != f)
    requires !Silent(s.kernel, s.slabs, f)
    ensures !Silent(Apply(s, l).kernel, Apply(s, l).slabs, f)
  {
    hide HandlerOk;
    match l
    case SweepTimers(due) =>
      DueTimers(s, due);
      HandleTimersOnlyCloses(s.kernel, s.slabs, s.log, due);
    case HangUp => assert Paired(s.kernel, s.slabs, s.batch[0]);
    case Greet(w, _, _) => assert Paired(s.kernel, s.slabs, s.workers[w].fd);
    case Accept(_, _, _) =>
    case _ => OthersKeepTables(s, l);
  }

  /** The connection f that was there first is not accepted anew. */
  ghost predicate NoAccept(ls: seq<Label>, f: int) {
    forall i | 0 <= i < |ls| :: ls[i].Accept? ==> ls[i].fd != f
  }

  /** Some sweep of the run reported timer m and gave up at or before it. */
  ghost predicate Skipped(s: State, ls: seq<Label>, m: int)
    requires CanRun(s, ls)
    decreases |ls|
  {
    ls != [] && (SkippedNow(s, ls[0], m) || Skipped(Apply(s, ls[0]), ls[1..], m))
  }

  ghost predicate SkippedNow(s: State, l: Label, m: int)
    requires Shape(s) && Enabled(s, l)
  {
    (l.SweepTimers? ==> Due(s.kernel, s.slabs, l.due)) && GivesUpOn(s, l, m)
  }

  lemma {:induction false} RunNotSilent(s: State, ls: seq<Label>, f: int)
    requires SlabInv(s) && CanRun(s, ls) && KillSafeRun(s, ls) && NoAccept(ls, f)
    requires !Silent(s.kernel, s.slabs, f)
    ensures !Silent(Exec(s, ls).kernel, Exec(s, ls).slabs, f)
    decreases |ls|
  {
    hide Apply, Enabled, SlabInv, KillSafe, Silent;
    if ls != [] {
      StepSlabs(s, ls[0]);
      StepNotSilent(s, ls[0], f);
      assert forall i | 0 <= i < |ls[1..]| :: ls[1..][i] == ls[i + 1];
      RunNotSilent(Apply(s, ls[0]), ls[1..], f);
    }
  }

  lemma {:induction false} RunTimer(s: State, ls: seq<Label>, f: int, m: int)
    requires SlabInv(s) && TokenInv(s) && CanRun(s, ls) && QuietRun(s, ls) && NoAccept(ls, f)
    requires Silent(s.kernel, s.slabs, f) && TimerOf(s.kernel, s.slabs, m, f)
    requires Silent(Exec(s, ls).kernel, Exec(s, ls).slabs, f)
    ensures var s' := Exec(s, ls);
      && TimerOf(s'.kernel, s'.slabs, m, f)
      && (m in s'.kernel.timersArmed <==> m in s.kernel.timersArmed && !Skipped(s, ls, m))
    decreases |ls|
  {
    hide Apply, Enabled, SlabInv, TokenInv, KillSafe, ClosesArmed, Silent, TimerOf, GivesUpOn;
    if ls != [] {
      var s1 := Apply(s, ls[0]);
      QuietExactly(s, ls[0]);
      assert forall i | 0 <= i < |ls[1..]| :: ls[1..][i] == ls[i + 1];
      if !Silent(s1.kernel, s1.slabs, f) {
        QuietIsKillSafe(s1, ls[1..]);
        RunNotSilent(s1, ls[1..], f);
      }
      StepTimer(s, ls[0], f, m);
      RunTimer(s1, ls[1..], f, m);
    }
  }

  /** In a quiet run, the timer set when f was accepted can still close it, as long as f is registered
      and has not greeted, if and only if no sweep since has reported that timer and given up at or
      before it. The timer itself stays registered in either case. */
  lemma {:induction false} TimerKeptExactly(
    s0: State, before: seq<Label>, w: nat, f: int, m: int, after: seq<Label>)
    requires Init(s0) && CanRun(s0, before) && QuietRun(s0, before) && Enabled(Exec(s0, before), Accept(w, f, m))
    requires var s1 := Apply(Exec(s0, before), Accept(w, f, m));
      CanRun(s1, after) && QuietRun(s1, after) && NoAccept(after, f)
      && Silent(Exec(s1, after).kernel, Exec(s1, after).slabs, f)
    ensures var s1 := Apply(Exec(s0, before), Accept(w, f, m)); var s := Exec(s1, after);
      && TimerOf(s.kernel, s.slabs, m, f)
      && (m in s.kernel.timersArmed <==> !Skipped(s1, after, m))
  {
    hide Skipped, NoAccept, TablesOk, TokenInv, HandlerOk, KillTables, GreetTables, HandleTimers;
    var s := Exec(s0, before);
    InitSlabs(s0);
    RunTokens(s0, before);
    QuietExactly(s, Accept(w, f, m));
    RunTimer(Apply(s, Accept(w, f, m)), after, f, m);
  }

  // ----- a connection that lost its timer -----

  /** The step is neither a greeting by f nor a hang-up of f. */
  ghost predicate LeavesAlone(s: State, l: Label, f: int)
    requires Shape(s) && Enabled(s, l)
  {
    (l.Greet? ==> s.workers[l.w].fd != f) && (l.HangUp? ==> s.batch[0] != f)
  }

  ghost predicate LeftAlone(s: State, ls: seq<Label>, f: int)
    requires CanRun(s, ls)
    decreases |ls|
  {
    ls != [] ==> LeavesAlone(s, ls[0], f) && LeftAlone(Apply(s, ls[0]), ls[1..], f)
  }

  lemma SweepUnwatched(s: State, due: seq<int>, f: int)
    requires SlabInv(s) && Enabled(s, SweepTimers(due))
    requires Silent(s.kernel, s.slabs, f) && !Watched(s.kernel, s.slabs, f)
    ensures var s' := SweepStep(s, due); Silent(s'.kernel, s'.slabs, f) && !Watched(s'.kernel, s'.slabs, f)
  {
    hide HandlerOk;
    DueTimers(s, due);
    SweepClosesSilent(s, due, f);
    HandleTimersOnlyCloses(s.kernel, s.slabs, s.log, due);
  }

  lemma CloseUnwatched(s: State, l: Label, f: int)
    requires SlabInv(s) && Enabled(s, l) && (l.HangUp? || l.Greet?) && LeavesAlone(s, l, f)
    requires Silent(s.kernel, s.slabs, f) && !Watched(s.kernel, s.slabs, f)
    ensures var s' := Apply(s, l); Silent(s'.kernel, s'.slabs, f) && !Watched(s'.kernel, s'.slabs, f)
  {
    hide HandlerOk;
    SilentIsStalled(s, f);
    assert Paired(s.kernel, s.slabs, if l.HangUp? then s.batch[0] else s.workers[l.w].fd);
  }

  lemma StepUnwatched(s: State, l: Label, f: int)
    requires SlabInv(s) && Enabled(s, l) && LeavesAlone(s, l, f)
    requires Silent(s.kernel, s.slabs, f) && !Watched(s.kernel, s.slabs, f)
    ensures var s' := Apply(s, l); Silent(s'.kernel, s'.slabs, f) && !Watched(s'.kernel, s'.slabs, f)
  {
    hide TablesOk, HandlerOk;
    match l
    case SweepTimers(due) => SweepUnwatched(s, due, f);
    case HangUp => CloseUnwatched(s, l, f);
    case Greet(w, _, _) => CloseUnwatched(s, l, f);
    case Accept(_, _, _) =>
    case _ => OthersKeepTables(s, l);
  }

  /** A silent connection of which no timer can fire any more stays open, registered and silent over every
      kill-safe run, however long, in which the client itself neither greets nor hangs up. */
  lemma {:induction false} UnwatchedStays(s: State, ls: seq<Label>, f: int)
    requires SlabInv(s) && CanRun(s, ls) && KillSafeRun(s, ls) && LeftAlone(s, ls, f)
    requires Silent(s.kernel, s.slabs, f) && !Watched(s.kernel, s.slabs, f)
    ensures var s' := Exec(s, ls); Silent(s'.kernel, s'.slabs, f) && !Watched(s'.kernel, s'.slabs, f)
    decreases |ls|
  {
    hide Apply, Enabled, SlabInv, KillSafe, Silent, Watched, LeavesAlone;
    if ls != [] {
      StepSlabs(s, ls[0]);
      StepUnwatched(s, ls[0], f);
      UnwatchedStays(Apply(s, ls[0]), ls[1..], f);
    }
  }

  // ----- how a timer is lost -----

  /** The timer of a client that was refused stops the sweep that reports it: nothing due with it is
      looked at, nothing is closed, and none of those timers can fire again. */
  lemma RefusedClientStopsSweep(k: Kernel, t: Slabs, fd: int, pty: int, timer: int, due: seq<int>)
    requires t.Sized() && TimersInRange(t) && 0 < fd < |t.clients| && 0 < pty < |t.clients| && t.slot[fd] == fd
    requires t.clients[fd] == Client(fd, -1, New) && 0 <= timer < |t.timerFor| && t.timerFor[timer] == fd
    requires Due(k, t, [timer] + due) && fd !in k.timers
    ensures var (k1, t1) := GreetTables(k, t, fd, t.clients[fd], false, pty);
      && t1 == t && Due(k1, t, [timer] + due)
      && HandleTimers(k1, t, [timer] + due) == (k1.Report([timer] + due), false)
      && (forall m | m in [timer] + due :: m in k1.timers && m !in k1.Report([timer] + due).timersArmed)
  {
    var (k1, t1) := GreetTables(k, t, fd, t.clients[fd], false, pty);
    assert t1.clients == t.clients && t1.slot == t.slot;
    assert ([timer] + due)[0] == timer;
    assert k1.timers == k.timers;
  }
}
