/** Runs of the server from its start in which a stale copy breaks the pairing, bypasses the handshake, or
    forges an established slot, and with how many workers each can happen. */
module StaleRuns {
  import opened Wrappers
  import opened RingBuffer
  import opened Handshake
  import opened Server
  import opened Dispatcher
  import opened ServerRuns
  import opened Pairing
  import opened StaleCopies
  import opened Entries

  // ----- a copy out at a hang-up -----

  const SOCK := 3
  const TIMER := 4
  const PTY := 5
  const OTHER_TIMER := 6

  /** One established client on SOCK and PTY, everything armed and every worker idle. */
  ghost predicate OneClient(s: State, workers: nat) {
    && Rest(s, 0) && Max(s) >= 7 && |s.workers| == workers && s.listener == LISTENER && s.timerUnit == TIMER_UNIT
    && s.kernel.open == map[LISTENER := Fixed, TIMER_UNIT := Fixed, SOCK := Socket, TIMER := Timer, PTY := Pty]
    && s.kernel.reg == s.kernel.armed == {LISTENER, TIMER_UNIT, SOCK, PTY}
    && s.slabs.slot[SOCK] == s.slabs.slot[PTY] == SOCK && s.slabs.clients[SOCK] == Client(SOCK, PTY, Established)
  }

  lemma MakeClient(size: nat, max: nat, workers: nat) returns (s0: State, s: State)
    requires size >= 4 && max >= 7 && workers >= 1
    ensures InitOf(s0, size, max, workers) && Reach(s0, s) && OneClient(s, workers)
  {
    hide Reach;
    s0 := Start(size, max, workers);
    StartIsInit(size, max, workers);
    var s1 := AcceptOne(s0, 0, SOCK, TIMER);
    s := EstablishOne(s1, 0, SOCK, PTY);
    ReachTrans(s0, s1, s);
  }

  /** The worker relays a chunk for fd, arms fd again, and has still to write its copy back. */
  lemma RelayUpToStore(s: State, w: nat, fd: int) returns (s': State)
    requires Shape(s) && Is(s, w, Started(fd)) && fd != s.listener && (fd == SOCK || fd == PTY) && Max(s) >= 7
    requires s.slabs.slot[SOCK] == s.slabs.slot[PTY] == SOCK && s.slabs.clients[SOCK] == Client(SOCK, PTY, Established)
    requires fd in s.kernel.open && fd in s.kernel.reg
    ensures Reach(s, s') && Shape(s')
    ensures s' == s.(kernel := s.kernel.Rearm(fd), log := s'.log,
                     workers := s.workers[w := Storing(Client(SOCK, PTY, Established))])
  {
    hide Reach;
    ReachSelf(s);
    var s1 := Then(s, s, Read(w, "x"));
    var s2 := Then(s, s1, Write(w));
    s' := Then(s, s2, Rearm(w));
    assert s.slabs.clients[SOCK := s.slabs.clients[SOCK].(state := Established)] == s.slabs.clients;
    assert s'.workers == s.workers[w := Storing(Client(SOCK, PTY, Established))];
  }

  /** A state of that server in which worker 0 holds a copy of a client about to be killed. */
  lemma CopyOut(size: nat, max: nat, workers: nat) returns (s0: State, s: State)
    requires size >= 4 && max >= 7 && workers >= 1
    ensures InitOf(s0, size, max, workers) && Reach(s0, s) && Shape(s) && |s.workers| == workers
    ensures KillingHangUp(s) && CopyHeld(s, Victim(s).sock)
  {
    hide Reach;
    var s1;
    s0, s1 := MakeClient(size, max, workers);
    var s2 := Dispatch(s1, 0, SOCK);
    var s3 := RelayUpToStore(s2, 0, SOCK);
    ReachTrans(s0, s1, s2);
    ReachTrans(s0, s2, s3);
    s := Then(s0, s3, EpollWait([SOCK]));
    assert HoldsCopy(s.workers[0], SOCK);
  }

  /** A run up to a hang-up, the hang-up, and a run after it. */
  lemma Around(s0: State, ls: seq<Label>, more: seq<Label>) returns (all: seq<Label>)
    requires CanRun(s0, ls) && Enabled(Exec(s0, ls), HangUp) && CanRun(HangUpStep(Exec(s0, ls)), more)
    ensures CanRun(s0, all) && Exec(s0, all) == Exec(HangUpStep(Exec(s0, ls)), more)
  {
    RunStep(s0, ls, HangUp);
    RunConcat(s0, ls + [HangUp], more);
    all := ls + [HangUp] + more;
  }

  // ----- how many workers each failure needs -----

  /** A server of that ring size, table size and number of workers can come to mispaired tables. */
  ghost predicate CanMispair(size: nat, max: nat, workers: nat) {
    exists s0, ls :: InitOf(s0, size, max, workers) && CanRun(s0, ls) && !Pairs(Exec(s0, ls).slabs)
  }

  ghost predicate CanBypass(size: nat, max: nat, workers: nat) {
    exists s0, ls :: InitOf(s0, size, max, workers) && CanRun(s0, ls) && Bypassed(Exec(s0, ls))
  }

  ghost predicate CanForge(size: nat, max: nat, workers: nat) {
    exists s0, ls :: InitOf(s0, size, max, workers) && CanRun(s0, ls) && Forged(Exec(s0, ls))
  }

  lemma {:induction false} NoWorkersIsKillSafe(s: State, ls: seq<Label>)
    requires CanRun(s, ls) && s.workers == []
    ensures KillSafeRun(s, ls)
    decreases |ls|
  {
    hide Apply;
    if ls != [] {
      StepKeepsSizes(s, ls[0]);
      NoWorkersIsKillSafe(Apply(s, ls[0]), ls[1..]);
    }
  }

  lemma NoWorkersInOrder(size: nat, max: nat)
    ensures !CanMispair(size, max, 0) && !CanBypass(size, max, 0)
  {
    forall s0, ls | InitOf(s0, size, max, 0) && CanRun(s0, ls)
      ensures Pairs(Exec(s0, ls).slabs) && !Bypassed(Exec(s0, ls))
    {
      InitSlabs(s0);
      NoWorkersIsKillSafe(s0, ls);
      RunSlabs(s0, ls);
      SlabsPair(Exec(s0, ls));
      SlabsGate(Exec(s0, ls));
    }
  }

  /** A run from the start to mispaired tables. */
  lemma MispairingRun(size: nat, max: nat, workers: nat) returns (s0: State, all: seq<Label>)
    requires size >= 4 && max >= 7 && workers >= 1
    ensures InitOf(s0, size, max, workers) && CanRun(s0, all) && !Pairs(Exec(s0, all).slabs)
  {
    var s;
    s0, s := CopyOut(size, max, workers);
    var ls := ReachIsRun(s0, s);
    NoHangUpsIsKillSafe(s0, ls);
    MispairedExactly(s0, ls);
    var more :| CanRun(HangUpStep(s), more) && NoHangUps(more) && !Pairs(Exec(HangUpStep(s), more).slabs);
    all := Around(s0, ls, more);
  }

  /** A run from the start, with two workers, to a connection with an established slot of its own that
      never sent the secret. */
  lemma ForgingRun(size: nat, max: nat, workers: nat) returns (s0: State, all: seq<Label>)
    requires size >= 4 && max >= 7 && workers >= 2
    ensures InitOf(s0, size, max, workers) && CanRun(s0, all) && Forged(Exec(s0, all))
  {
    var s;
    s0, s := CopyOut(size, max, workers);
    var ls := ReachIsRun(s0, s);
    NoHangUpsIsKillSafe(s0, ls);
    ForgedExactly(s0, ls);
    var more :| CanRun(HangUpStep(s), more) && NoHangUps(more) && Forged(Exec(HangUpStep(s), more));
    all := Around(s0, ls, more);
  }

  // ----- one worker bypasses the handshake -----

  /** The PTY's, the listener's and the connection's events are queued, and worker 0 starts on the first. */
  lemma QueueThree(s: State, workers: nat) returns (s': State)
    requires OneClient(s, workers) && s.ring.Size() >= 4
    ensures Reach(s, s') && Shape(s') && s'.ring.Contents() == [LISTENER, SOCK] && s'.ring.FlagExact() && s'.batch == []
    ensures s' == s.(kernel := s.kernel.(armed := {TIMER_UNIT}), ring := s'.ring,
                     workers := s.workers[0 := Started(PTY)])
  {
    hide Reach;
    var events := [PTY, LISTENER, SOCK];
    OccupancyBounds(s.ring);
    ReachSelf(s);
    var s1 := Then(s, s, EpollWait(events));
    assert s1.kernel.armed == {TIMER_UNIT};
    var s4 := QueueAll(s, s1);
    s' := TakeOne(s, s4, 0, PTY, [LISTENER, SOCK]);
  }

  lemma QueueAll(a: State, s: State) returns (s': State)
    requires Reach(a, s) && Shape(s) && s.batch == [PTY, LISTENER, SOCK] && s.timerUnit == TIMER_UNIT
    requires s.ring.FlagExact() && s.ring.Contents() == [] && s.ring.Size() >= 4
    ensures Reach(a, s') && Shape(s') && s'.ring.FlagExact() && s'.ring.Size() == s.ring.Size()
    ensures s'.ring.Contents() == [PTY] + [LISTENER, SOCK]
    ensures s' == s.(batch := [], ring := s'.ring)
  {
    hide Reach;
    var s1 := QueueOne(a, s);
    var s2 := QueueOne(a, s1);
    s' := QueueOne(a, s2);
  }

  /** Worker w takes the oldest task. */
  lemma TakeOne(a: State, s: State, w: nat, fd: int, rest: seq<int>) returns (s': State)
    requires Reach(a, s) && Shape(s) && Is(s, w, Idle) && s.ring.Contents() == [fd] + rest && fd != 0
    ensures Reach(a, s') && Shape(s') && s'.ring.Contents() == rest && s'.ring.Size() == s.ring.Size()
    ensures s.ring.FlagExact() ==> s'.ring.FlagExact()
    ensures s' == s.(ring := s'.ring, workers := s.workers[w := Started(fd)])
  {
    OccupancyBounds(s.ring);
    DropTakesHead(s.ring);
    assert ([fd] + rest)[0] == fd && ([fd] + rest)[1..] == rest;
    var head := s.ring.slots[s.ring.front];
    assert ([head] + s.ring.Drop().Contents())[0] == head;
    assert ([head] + s.ring.Drop().Contents())[1..] == s.ring.Drop().Contents();
    s' := Then(a, s, Take(w));
  }

  lemma QueueOne(a: State, s: State) returns (s': State)
    requires Reach(a, s) && Shape(s) && s.batch != [] && s.batch[0] != s.timerUnit
    requires s.ring.FlagExact() && |s.ring.Contents()| < s.ring.Size() - 1
    ensures Reach(a, s') && Shape(s') && s'.ring.FlagExact() && s'.ring.Size() == s.ring.Size()
    ensures s'.ring.Contents() == s.ring.Contents() + [s.batch[0]]
    ensures s' == s.(batch := s.batch[1..], ring := s'.ring)
  {
    OccupancyBounds(s.ring);
    StoreAppends(s.ring, s.batch[0]);
    s' := Then(a, s, AddTask);
    OccupancyBounds(s'.ring);
  }

  /** Worker 0 holds a copy, the connection's event is queued behind the listener's, and the PTY hangs up. */
  ghost predicate Leftover(s: State) {
    && Shape(s) && Is(s, 0, Storing(Client(SOCK, PTY, Established))) && Max(s) >= 7
    && s.batch == [PTY] && s.ring.Contents() == [LISTENER, SOCK]
    && s.listener == LISTENER && s.timerUnit == TIMER_UNIT
    && s.kernel.open == map[LISTENER := Fixed, TIMER_UNIT := Fixed, SOCK := Socket, TIMER := Timer, PTY := Pty]
    && s.kernel.reg == {LISTENER, TIMER_UNIT, SOCK, PTY}
    && s.slabs.slot[SOCK] == s.slabs.slot[PTY] == SOCK && s.slabs.clients[SOCK] == Client(SOCK, PTY, Established)
  }

  lemma LeaveOver(size: nat, max: nat, workers: nat) returns (s0: State, s: State)
    requires size >= 4 && max >= 7 && workers >= 1
    ensures InitOf(s0, size, max, workers) && Reach(s0, s) && Leftover(s)
  {
    hide Reach;
    var s1;
    s0, s1 := MakeClient(size, max, workers);
    var ls := ReachIsRun(s0, s1);
    RunKeepsSizes(s0, ls);
    var s2 := QueueThree(s1, workers);
    var s3 := RelayUpToStore(s2, 0, PTY);
    ReachTrans(s0, s1, s2);
    ReachTrans(s0, s2, s3);
    s := Then(s0, s3, EpollWait([PTY]));
  }

  /** After the hang-up the worker stores its copy: entries of a client that is gone. */
  ghost predicate Ghost(s: State) {
    && Shape(s) && Is(s, 0, Idle) && Max(s) >= 7 && s.ring.Contents() == [LISTENER, SOCK] && s.listener == LISTENER
    && s.kernel.open == map[LISTENER := Fixed, TIMER_UNIT := Fixed, TIMER := Timer]
    && s.slabs.slot[SOCK] == SOCK && s.slabs.clients[SOCK] == Client(SOCK, PTY, Established)
  }

  lemma KillAndStore(s: State) returns (s': State)
    requires Leftover(s)
    ensures Enabled(s, HangUp) && Reach(HangUpStep(s), s') && Ghost(s')
  {
    hide Reach;
    var s1 := HangUpStep(s);
    HangUpShape(s);
    ReachSelf(s1);
    s' := Then(s1, s1, StoreBack(0));
  }

  /** A connection is accepted on the PTY's old number. */
  lemma AcceptOnPty(s: State) returns (s': State)
    requires Ghost(s)
    ensures Reach(s, s') && Shape(s') && Is(s', 0, Idle) && Max(s') >= 7
    ensures s'.ring.Contents() == [SOCK] && s'.listener == LISTENER
    ensures s'.slabs.slot[SOCK] == SOCK && s'.slabs.clients[SOCK] == Client(SOCK, PTY, Established)
    ensures PTY in s'.kernel.open && s'.kernel.open[PTY] == Socket && s'.log[PTY] == Stream(None, "", REMBASH)
  {
    hide Reach;
    ReachSelf(s);
    assert s.ring.Contents() == [LISTENER] + [SOCK];
    var s1 := TakeOne(s, s, 0, LISTENER, [SOCK]);
    s' := Then(s, s1, Accept(0, PTY, OTHER_TIMER));
  }

  /** The event left over finds the dead client's entries, fails to read, and writes them back over those
      of the new connection. */
  lemma OverwriteEntry(s: State) returns (s': State)
    requires Shape(s) && Is(s, 0, Idle) && s.ring.Contents() == [SOCK] && s.listener == LISTENER && Max(s) >= 7
    requires s.slabs.slot[SOCK] == SOCK && s.slabs.clients[SOCK] == Client(SOCK, PTY, Established)
    requires PTY in s.kernel.open && s.kernel.open[PTY] == Socket && s.log[PTY] == Stream(None, "", REMBASH)
    ensures Reach(s, s') && Shape(s') && Bypassed(s')
  {
    hide Reach;
    ReachSelf(s);
    assert s.ring.Contents() == [SOCK] + [];
    var s1 := TakeOne(s, s, 0, SOCK, []);
    var s2 := Then(s, s1, ReadFails(0));
    var s3 := Then(s, s2, Rearm(0));
    s' := Then(s, s3, StoreBack(0));
    assert Bypass(s', PTY);
  }

  /** A run from the start to a connection taken for established that never sent the secret. */
  lemma BypassingRun(size: nat, max: nat, workers: nat) returns (s0: State, all: seq<Label>)
    requires size >= 4 && max >= 7 && workers >= 1
    ensures InitOf(s0, size, max, workers) && CanRun(s0, all) && Bypassed(Exec(s0, all))
  {
    hide Reach;
    var s;
    s0, s := LeaveOver(size, max, workers);
    var ls := ReachIsRun(s0, s);
    var s1 := KillAndStore(s);
    var s2 := AcceptOnPty(s1);
    var s3 := OverwriteEntry(s2);
    ReachTrans(HangUpStep(s), s1, s2);
    ReachTrans(HangUpStep(s), s2, s3);
    var more := ReachIsRun(HangUpStep(s), s3);
    all := Around(s0, ls, more);
  }

  /** Whatever the ring and table sizes: mispaired tables, and a connection taken for established that
      never sent the secret, can be reached if and only if there is a worker at all; one that even has a
      slot of its own if and only if there are two. */
  lemma WorkersNeeded(size: nat, max: nat, workers: nat)
    requires size >= 4 && max >= 7
    ensures CanMispair(size, max, workers) <==> workers >= 1
    ensures CanBypass(size, max, workers) <==> workers >= 1
    ensures CanForge(size, max, workers) <==> workers >= 2
  {
    if workers == 0 {
      NoWorkersInOrder(size, max);
    } else {
      var s0, ls := MispairingRun(size, max, workers);
      var s1, more := BypassingRun(size, max, workers);
    }
    if workers >= 2 {
      var s0, ls := ForgingRun(size, max, workers);
    } else {
      forall s0, ls | InitOf(s0, size, max, workers) && CanRun(s0, ls) ensures !Forged(Exec(s0, ls)) {
        InitSolo(s0);
        RunSolo(s0, ls);
        SoloNotForged(Exec(s0, ls));
      }
    }
  }
}
