/** Runs of the dispatcher from its start, the regimes they are classed by, and stretches of steps from
    which particular runs are put together. */
module ServerRuns {
  import opened Wrappers
  import opened Tally
  import opened RingBuffer
  import opened Handshake
  import opened Server
  import opened Dispatcher
  import opened Tokens

  // ----- runs -----

  ghost predicate Init(s: State) {
    && Shape(s)
    && (forall a | 0 <= a < Max(s) :: s.slabs.clients[a] == Client(0, 0, New) && s.slabs.timerFor[a] == 0)
    && (forall f | 0 <= f < |s.slabs.slot| :: s.slabs.slot[f] == NONE)
    && (forall f | f in s.kernel.open :: s.kernel.open[f] == Fixed) && s.kernel.timers == {}
    && s.listener != s.timerUnit && s.listener in s.kernel.open && s.timerUnit in s.kernel.open
    && s.kernel.reg == s.kernel.armed == {s.listener, s.timerUnit}
    && s.batch == [] && s.ring.front == s.ring.back == 0 && s.ring.fullFlag == 0
    && (forall f | 0 <= f < |s.log| :: s.log[f] == Stream(None, "", ""))
    && forall w | 0 <= w < |s.workers| :: s.workers[w] == Idle
  }

  ghost predicate CanRun(s: State, ls: seq<Label>)
    decreases |ls|
  {
    Shape(s) && (ls != [] ==> Enabled(s, ls[0]) && CanRun(Apply(s, ls[0]), ls[1..]))
  }

  ghost function Exec(s: State, ls: seq<Label>): (s': State)
    requires CanRun(s, ls)
    ensures Shape(s')
    decreases |ls|
  {
    if ls == [] then s else Exec(Apply(s, ls[0]), ls[1..])
  }

  /** No hang-up kills a client of which a worker holds a copy. */
  ghost predicate KillSafeRun(s: State, ls: seq<Label>)
    requires CanRun(s, ls)
    decreases |ls|
  {
    ls != [] ==> KillSafe(s, ls[0]) && KillSafeRun(Apply(s, ls[0]), ls[1..])
  }

  /** Moreover no descriptor is closed while its token is outstanding. */
  ghost predicate QuietRun(s: State, ls: seq<Label>)
    requires CanRun(s, ls)
    decreases |ls|
  {
    ls != [] ==> Quiet(s, ls[0]) && QuietRun(Apply(s, ls[0]), ls[1..])
  }

  /** Every enabled step leads to a state of the same shape, so a run never ends for want of it. */
  lemma {:induction false} RunStep(s: State, ls: seq<Label>, l: Label)
    requires CanRun(s, ls) && Enabled(Exec(s, ls), l)
    ensures CanRun(s, ls + [l]) && Exec(s, ls + [l]) == Apply(Exec(s, ls), l)
    decreases |ls|
  {
    hide Enabled, Shape, Apply;
    if ls == [] {
      StepShape(s, l);
      assert ([] + [l])[1..] == [];
    } else {
      RunStep(Apply(s, ls[0]), ls[1..], l);
      assert (ls + [l])[1..] == ls[1..] + [l];
    }
  }

  lemma {:induction false} RunConcat(s: State, a: seq<Label>, b: seq<Label>)
    requires CanRun(s, a) && CanRun(Exec(s, a), b)
    ensures CanRun(s, a + b) && Exec(s, a + b) == Exec(Exec(s, a), b)
    decreases |a|
  {
    hide Enabled, Shape, Apply;
    if a == [] {
      assert a + b == b;
    } else {
      RunConcat(Apply(s, a[0]), a[1..], b);
      assert (a + b)[1..] == a[1..] + b;
    }
  }

  lemma {:induction false} RunKeepsSizes(s: State, ls: seq<Label>)
    requires CanRun(s, ls)
    ensures var s' := Exec(s, ls);
      && Max(s') == Max(s) && s'.ring.Size() == s.ring.Size() && |s'.workers| == |s.workers|
      && s'.listener == s.listener && s'.timerUnit == s.timerUnit
    decreases |ls|
  {
    hide Enabled, Shape, Apply;
    if ls != [] {
      StepKeepsSizes(s, ls[0]);
      RunKeepsSizes(Apply(s, ls[0]), ls[1..]);
    }
  }

  lemma InitSlabs(s: State)
    requires Init(s)
    ensures SlabInv(s) && TokenInv(s)
  {
    forall f ensures TokenAt(s, f) {
      CarriedIdle(s, f);
    }
    CarriedIdle(s, s.timerUnit);
    forall f | f in s.kernel.open ensures Owned(s.kernel, s.slabs, s.log, f) {
    }
    forall a | 0 < a < Max(s) ensures !Live(s.kernel, s.slabs, a) {
    }
    OccupancyBounds(s.ring);
  }

  lemma CarriedIdle(s: State, f: int)
    requires forall w | 0 <= w < |s.workers| :: s.workers[w] == Idle
    ensures Carried(s, f) == 0
  {
    SumUniform(s.workers, Carries(f), 0);
  }

  lemma {:induction false} RunSlabs(s: State, ls: seq<Label>)
    requires SlabInv(s) && CanRun(s, ls) && KillSafeRun(s, ls)
    ensures SlabInv(Exec(s, ls))
    decreases |ls|
  {
    hide Apply, Enabled, SlabInv, KillSafe;
    if ls != [] {
      StepSlabs(s, ls[0]);
      RunSlabs(Apply(s, ls[0]), ls[1..]);
    }
  }

  lemma {:induction false} RunTokens(s: State, ls: seq<Label>)
    requires SlabInv(s) && TokenInv(s) && CanRun(s, ls) && QuietRun(s, ls)
    ensures SlabInv(Exec(s, ls)) && TokenInv(Exec(s, ls))
    decreases |ls|
  {
    hide Apply, Enabled, SlabInv, TokenInv, KillSafe, ClosesArmed;
    if ls != [] {
      QuietExactly(s, ls[0]);
      RunTokens(Apply(s, ls[0]), ls[1..]);
    }
  }

  // ----- runs without hang-ups -----

  ghost predicate NoHangUps(ls: seq<Label>) {
    forall i | 0 <= i < |ls| :: !ls[i].HangUp?
  }

  /** Neither a hang-up nor a timer that fires. */
  ghost predicate Plain(ls: seq<Label>) {
    forall i | 0 <= i < |ls| :: !ls[i].HangUp? && (ls[i].SweepTimers? ==> ls[i].due == [])
  }

  lemma {:induction false} NoHangUpsIsKillSafe(s: State, ls: seq<Label>)
    requires CanRun(s, ls) && NoHangUps(ls)
    ensures KillSafeRun(s, ls)
    decreases |ls|
  {
    if ls != [] {
      assert forall i | 0 <= i < |ls[1..]| :: ls[1..][i] == ls[i + 1];
      NoHangUpsIsKillSafe(Apply(s, ls[0]), ls[1..]);
    }
  }

  lemma {:induction false} PlainIsQuiet(s: State, ls: seq<Label>)
    requires CanRun(s, ls) && Plain(ls)
    ensures QuietRun(s, ls)
    decreases |ls|
  {
    if ls != [] {
      assert forall i | 0 <= i < |ls[1..]| :: ls[1..][i] == ls[i + 1];
      PlainIsQuiet(Apply(s, ls[0]), ls[1..]);
    }
  }

  lemma {:induction false} QuietIsKillSafe(s: State, ls: seq<Label>)
    requires CanRun(s, ls) && QuietRun(s, ls)
    ensures KillSafeRun(s, ls)
    decreases |ls|
  {
    if ls != [] {
      QuietIsKillSafe(Apply(s, ls[0]), ls[1..]);
    }
  }

  /** Some plain run leads from s to s'. */
  ghost predicate Reach(s: State, s': State) {
    exists ls :: CanRun(s, ls) && Plain(ls) && Exec(s, ls) == s'
  }

  lemma ReachSelf(s: State)
    requires Shape(s)
    ensures Reach(s, s)
  {
    assert CanRun(s, []) && Plain([]) && Exec(s, []) == s;
  }

  lemma ReachTrans(a: State, b: State, c: State)
    requires Reach(a, b) && Reach(b, c)
    ensures Reach(a, c)
  {
    hide CanRun, Exec;
    var x :| CanRun(a, x) && Plain(x) && Exec(a, x) == b;
    var y :| CanRun(b, y) && Plain(y) && Exec(b, y) == c;
    RunConcat(a, x, y);
    assert Plain(x + y);
  }

  /** One more plain step at the end of a run from a to s. */
  lemma Then(a: State, s: State, l: Label) returns (s': State)
    requires Reach(a, s) && Shape(s) && Enabled(s, l) && !l.HangUp? && (l.SweepTimers? ==> l.due == [])
    ensures s' == Apply(s, l) && Reach(a, s') && Shape(s')
  {
    hide CanRun, Exec, Shape, Enabled, Apply;
    s' := Apply(s, l);
    StepShape(s, l);
    var x :| CanRun(a, x) && Plain(x) && Exec(a, x) == s;
    RunStep(a, x, l);
    assert Plain(x + [l]);
  }

  // ----- stretches of a run -----

  /** Nothing is queued and worker w is idle. */
  ghost predicate Rest(s: State, w: nat) {
    Shape(s) && s.batch == [] && s.ring.Empty() && s.ring.FlagExact() && Is(s, w, Idle)
  }

  /** An armed descriptor's event goes through the event loop and the pool to worker w. */
  lemma Dispatch(s: State, w: nat, fd: int) returns (s': State)
    requires Rest(s, w) && fd in s.kernel.armed && fd != s.timerUnit
    ensures Reach(s, s') && Shape(s') && s'.ring.Empty() && s'.ring.FlagExact() && s'.ring.Size() == s.ring.Size()
    ensures s' == s.(kernel := s.kernel.(armed := s.kernel.armed - {fd}), ring := s'.ring,
                     workers := s.workers[w := Started(fd)])
  {
    hide Reach;
    OccupancyBounds(s.ring);
    ReachSelf(s);
    var s1 := Then(s, s, EpollWait([fd]));
    assert (set f | f in [fd]) == {fd};
    StoreAppends(s1.ring, fd);
    var s2 := Then(s, s1, AddTask);
    OccupancyBounds(s2.ring);
    DropTakesHead(s2.ring);
    s' := Then(s, s2, Take(w));
    OccupancyBounds(s'.ring);
  }

  /** A connection is accepted. */
  lemma AcceptOne(s: State, w: nat, fd: int, timer: int) returns (s': State)
    requires Rest(s, w) && s.listener in s.kernel.armed && s.listener != s.timerUnit
    requires Fresh(s, fd) && Fresh(s, timer) && fd != timer
    ensures Reach(s, s') && Rest(s', w) && s'.ring.Size() == s.ring.Size()
    ensures s' == s.(kernel := s.kernel.OpenArmed(fd, Socket).OpenTimer(timer),
                     slabs := AcceptTables(s.kernel, s.slabs, fd, timer).1,
                     log := s.log[fd := Stream(None, "", REMBASH)], ring := s'.ring)
  {
    hide Reach;
    var s1 := Dispatch(s, w, s.listener);
    s' := Then(s, s1, Accept(w, fd, timer));
    assert s'.workers == s.workers;
    assert s'.kernel == s.kernel.OpenArmed(fd, Socket).OpenTimer(timer) by {
      assert s'.kernel.armed == s.kernel.armed + {fd};
    }
  }

  /** Descriptor fd is a new connection that is armed. */
  ghost predicate Waiting(s: State, fd: int) {
    && Shape(s) && 0 < fd < Max(s) && fd != s.listener && fd != s.timerUnit
    && fd in s.kernel.armed && s.kernel.open[fd] == Socket
    && s.slabs.slot[fd] == fd && s.slabs.clients[fd] == Client(fd, -1, New)
  }

  /** It sends the secret and gets a PTY. */
  lemma EstablishOne(s: State, w: nat, fd: int, pty: int) returns (s': State)
    requires Rest(s, w) && Waiting(s, fd) && Fresh(s, pty)
    ensures Reach(s, s') && Rest(s', w) && s'.ring.Size() == s.ring.Size()
    ensures s' == s.(kernel := s.kernel.OpenArmed(pty, Pty),
                     slabs := StoreClient(s.slabs, Client(fd, pty, Established)),
                     log := s'.log, ring := s'.ring)
  {
    hide Reach;
    var s1 := Dispatch(s, w, fd);
    AcceptsExactly(SECRET);
    s' := Then(s, s1, Greet(w, Some(SECRET), pty));
    assert s'.workers == s.workers;
    assert s'.kernel == s.kernel.OpenArmed(pty, Pty) by {
      assert s'.kernel.armed == s.kernel.armed + {pty};
    }
  }

  /** It sends something else and is closed. */
  lemma RefuseOne(s: State, w: nat, fd: int, pty: int) returns (s': State)
    requires Rest(s, w) && Waiting(s, fd) && Fresh(s, pty)
    ensures Reach(s, s') && Rest(s', w) && s'.ring.Size() == s.ring.Size()
    ensures s' == s.(kernel := s.kernel.Close(fd), log := s'.log, ring := s'.ring)
  {
    hide Reach;
    var s1 := Dispatch(s, w, fd);
    AcceptsExactly("");
    s' := Then(s, s1, Greet(w, Some(""), pty));
    assert s'.workers == s.workers;
    assert s'.kernel == s.kernel.Close(fd) by {
      assert s'.kernel.armed == s.kernel.armed - {fd};
    }
    assert s'.slabs == s.slabs by {
      assert s.slabs.clients[fd := s.slabs.clients[fd]] == s.slabs.clients;
      assert s.slabs.slot[fd := fd] == s.slabs.slot;
    }
  }

  // ----- a starting server -----

  const LISTENER := 1
  const TIMER_UNIT := 2

  function Start(size: nat, max: nat, workers: nat): State {
    State(
      Kernel(map[LISTENER := Fixed, TIMER_UNIT := Fixed], {LISTENER, TIMER_UNIT}, {LISTENER, TIMER_UNIT}, {}, {}),
      Slabs(seq(max, i => Client(0, 0, New)), seq(2 * max, i => NONE), seq(max, i => 0)),
      seq(max, i => Stream(None, "", "")), [], Ring(seq(size, i => 0), 0, 0, 0), seq(workers, i => Idle),
      LISTENER, TIMER_UNIT)
  }

  /** A server of that ring size, table size and number of workers at its start. */
  ghost predicate InitOf(s0: State, size: nat, max: nat, workers: nat) {
    Init(s0) && s0.ring.Size() == size && Max(s0) == max && |s0.workers| == workers
  }

  lemma StartIsInit(size: nat, max: nat, workers: nat)
    requires size >= 4 && max >= 3
    ensures InitOf(Start(size, max, workers), size, max, workers)
    ensures workers >= 1 ==> Rest(Start(size, max, workers), 0)
  {
    var s0 := Start(size, max, workers);
    assert Shape(s0);
  }
}
