/** Runs of the server from its start in which a timer does harm: a refused client's timer costs another
    connection its own, and a sweep closes a connection whose event is queued. */
module TimerRuns {
  import opened RingBuffer
  import opened Server
  import opened Dispatcher
  import opened Sweeps
  import opened Tokens
  import opened ServerRuns
  import opened Timers

  const FIRST := 3
  const FIRST_TIMER := 4
  const SECOND := 5
  const SECOND_TIMER := 6
  const FREE := 7

  /** The last step of a run. */
  lemma {:induction false} QuietStep(s: State, ls: seq<Label>, l: Label)
    requires CanRun(s, ls) && Enabled(Exec(s, ls), l) && QuietRun(s, ls)
    ensures CanRun(s, ls + [l]) && (QuietRun(s, ls + [l]) <==> Quiet(Exec(s, ls), l))
    decreases |ls|
  {
    hide Enabled, Shape, Apply, KillSafe, ClosesArmed;
    RunStep(s, ls, l);
    if ls == [] {
      assert ([] + [l])[1..] == [];
    } else {
      QuietStep(Apply(s, ls[0]), ls[1..], l);
      assert (ls + [l])[1..] == ls[1..] + [l];
    }
  }

  lemma {:induction false} KillSafeStep(s: State, ls: seq<Label>, l: Label)
    requires CanRun(s, ls) && Enabled(Exec(s, ls), l) && KillSafeRun(s, ls) && !l.HangUp?
    ensures CanRun(s, ls + [l]) && KillSafeRun(s, ls + [l])
    decreases |ls|
  {
    hide Enabled, Shape, Apply, CopyHeld;
    RunStep(s, ls, l);
    if ls == [] {
      assert ([] + [l])[1..] == [];
    } else {
      KillSafeStep(Apply(s, ls[0]), ls[1..], l);
      assert (ls + [l])[1..] == ls[1..] + [l];
    }
  }

  // ----- a refused client takes another's timer -----

  /** Two connections are accepted, the first is refused, and both timers are due in one sweep. */
  lemma TwoTimersDue(size: nat, max: nat, workers: nat) returns (s0: State, s: State)
    requires size >= 4 && max >= 8 && workers >= 1
    ensures InitOf(s0, size, max, workers) && Reach(s0, s) && Shape(s)
    ensures s.batch == [TIMER_UNIT] && s.timerUnit == TIMER_UNIT && s.kernel.timersArmed == {FIRST_TIMER, SECOND_TIMER}
    ensures s.kernel.timers == {FIRST_TIMER, SECOND_TIMER} && Max(s) >= 8
    ensures s.slabs.timerFor[FIRST_TIMER] == FIRST && s.slabs.timerFor[SECOND_TIMER] == SECOND
    ensures s.slabs.slot[FIRST] == FIRST && s.slabs.clients[FIRST].state == New && FIRST !in s.kernel.reg
    ensures Silent(s.kernel, s.slabs, SECOND)
  {
    hide Reach;
    s0 := Start(size, max, workers);
    StartIsInit(size, max, workers);
    var s1 := AcceptOne(s0, 0, FIRST, FIRST_TIMER);
    var s2 := AcceptOne(s1, 0, SECOND, SECOND_TIMER);
    var s3 := RefuseOne(s2, 0, FIRST, FREE);
    ReachTrans(s0, s1, s2);
    ReachTrans(s0, s2, s3);
    s := Then(s0, s3, EpollWait([TIMER_UNIT]));
  }

  /** The sweep gives up at the refused client's timer; the other connection's has been reported with it
      and will not fire again. */
  lemma SweepGivesUp(s: State) returns (s': State)
    requires Shape(s) && s.batch == [TIMER_UNIT] && s.timerUnit == TIMER_UNIT && Max(s) >= 8
    requires s.kernel.timersArmed == s.kernel.timers == {FIRST_TIMER, SECOND_TIMER}
    requires s.slabs.timerFor[FIRST_TIMER] == FIRST && s.slabs.timerFor[SECOND_TIMER] == SECOND
    requires s.slabs.slot[FIRST] == FIRST && s.slabs.clients[FIRST].state == New && FIRST !in s.kernel.reg
    requires Silent(s.kernel, s.slabs, SECOND)
    ensures var l := SweepTimers([FIRST_TIMER, SECOND_TIMER]);
      Enabled(s, l) && s' == Apply(s, l) && Quiet(s, l)
    ensures Silent(s'.kernel, s'.slabs, SECOND) && !Watched(s'.kernel, s'.slabs, SECOND)
  {
    var due := [FIRST_TIMER, SECOND_TIMER];
    s' := SweepStep(s, due);
    assert HandleTimers(s.kernel, s.slabs, due) == (s.kernel.Report(due), false);
    assert FIRST_TIMER in due && SECOND_TIMER in due;
    assert s'.kernel.timersArmed == {};
    forall i ensures !Reached(s.kernel, s.slabs, due, i) {
      if 0 <= i < |due| {
        assert due[..i + 1][0] == FIRST_TIMER;
      }
    }
  }

  /** For every ring size, number of workers and table of eight descriptors or more: a quiet run leads to a
      silent connection that no timer can close any more, so that it stays for ever. */
  lemma RefusalCostsTimer(size: nat, max: nat, workers: nat) returns (s0: State, ls: seq<Label>)
    requires size >= 4 && max >= 8 && workers >= 1
    ensures InitOf(s0, size, max, workers) && CanRun(s0, ls) && QuietRun(s0, ls)
    ensures var s := Exec(s0, ls);
      && Silent(s.kernel, s.slabs, SECOND) && !Watched(s.kernel, s.slabs, SECOND)
      && forall more | CanRun(s, more) && KillSafeRun(s, more) && LeftAlone(s, more, SECOND) ::
           Silent(Exec(s, more).kernel, Exec(s, more).slabs, SECOND)
  {
    hide Shape, Enabled, Apply, Quiet, Silent, Watched;
    var s1;
    s0, s1 := TwoTimersDue(size, max, workers);
    var x :| CanRun(s0, x) && Plain(x) && Exec(s0, x) == s1;
    PlainIsQuiet(s0, x);
    var s2 := SweepGivesUp(s1);
    var l := SweepTimers([FIRST_TIMER, SECOND_TIMER]);
    QuietStep(s0, x, l);
    RunStep(s0, x, l);
    ls := x + [l];
    QuietIsKillSafe(s0, ls);
    InitSlabs(s0);
    RunSlabs(s0, ls);
    forall more | CanRun(s2, more) && KillSafeRun(s2, more) && LeftAlone(s2, more, SECOND)
      ensures Silent(Exec(s2, more).kernel, Exec(s2, more).slabs, SECOND)
    {
      UnwatchedStays(s2, more, SECOND);
    }
  }

  // ----- a sweep closes a connection whose event is queued -----

  /** A connection's event is in the ring and its timer is due. */
  lemma EventAndTimerDue(size: nat, max: nat, workers: nat) returns (s0: State, s: State)
    requires size >= 4 && max >= 5 && workers >= 1
    ensures InitOf(s0, size, max, workers) && Reach(s0, s) && Shape(s)
    ensures s.batch == [TIMER_UNIT] && s.timerUnit == TIMER_UNIT && FIRST_TIMER in s.kernel.timersArmed && Max(s) >= 5
    ensures s.slabs.timerFor[FIRST_TIMER] == FIRST && s.slabs.slot[FIRST] == FIRST
    ensures s.slabs.clients[FIRST].state == New && FIRST in s.kernel.reg && FIRST in s.ring.Contents()
  {
    hide Reach;
    s0 := Start(size, max, workers);
    StartIsInit(size, max, workers);
    var s1 := AcceptOne(s0, 0, FIRST, FIRST_TIMER);
    OccupancyBounds(s1.ring);
    var s2 := Then(s0, s1, EpollWait([FIRST]));
    StoreAppends(s2.ring, FIRST);
    var s3 := Then(s0, s2, AddTask);
    s := Then(s0, s3, EpollWait([TIMER_UNIT]));
  }

  /** For every ring size and number of workers: a sweep can close a connection whose event is in the ring,
      which is then queued for a descriptor that is not registered. */
  lemma SweepStrandsEvent(size: nat, max: nat, workers: nat) returns (s0: State, ls: seq<Label>)
    requires size >= 4 && max >= 5 && workers >= 1
    ensures InitOf(s0, size, max, workers) && CanRun(s0, ls) && KillSafeRun(s0, ls)
    ensures var s := Exec(s0, ls);
      FIRST in s.ring.Contents() && FIRST !in s.kernel.open && FIRST !in s.kernel.reg && !TokenAt(s, FIRST)
  {
    var s1;
    s0, s1 := EventAndTimerDue(size, max, workers);
    var x :| CanRun(s0, x) && Plain(x) && Exec(s0, x) == s1;
    NoHangUpsIsKillSafe(s0, x);
    var l := SweepTimers([FIRST_TIMER]);
    KillSafeStep(s0, x, l);
    RunStep(s0, x, l);
    ls := x + [l];
    var s := Exec(s0, ls);
    SweptAway(s1);
    CarriedNonNegative(s, FIRST);
  }

  lemma SweptAway(s: State)
    requires Shape(s) && s.batch == [TIMER_UNIT] && s.timerUnit == TIMER_UNIT && Max(s) >= 5
    requires FIRST_TIMER in s.kernel.timersArmed && s.slabs.timerFor[FIRST_TIMER] == FIRST
    requires s.slabs.slot[FIRST] == FIRST
    requires s.slabs.clients[FIRST].state == New && FIRST in s.kernel.reg
    ensures var s' := Apply(s, SweepTimers([FIRST_TIMER]));
      s'.ring == s.ring && FIRST !in s'.kernel.open && FIRST !in s'.kernel.reg
  {
    var due := [FIRST_TIMER];
    var k0 := s.kernel.Report(due);
    var k1 := k0.Unregister(FIRST).Close(FIRST);
    assert Stalled(s.slabs, FIRST) && FIRST_TIMER in k1.timers;
    assert Sweep(k0, s.slabs, due) == Sweep(k1.Close(FIRST_TIMER), s.slabs, due[1..]);
    assert due[1..] == [];
  }
}
